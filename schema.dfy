/** The recipe data model: what the language model extracts, and what is persisted. */
module Schema {
  import opened Wrappers

  /** A recipe as extracted from a web page. Every field is optional and absent
      by default: an absent field means "not found on the page". */
  datatype Recipe = Recipe(
    name: Option<string> := None,
    ingredients: Option<seq<string>> := None,
    cookingTimeTemperature: Option<string> := None,
    instructions: Option<seq<string>> := None,
    hints: Option<string> := None,
    imageUrl: Option<string> := None)

  /** A recipe together with the page it came from. It has the six fields of a
      `Recipe`, with the same defaults, and two fields without a default, so it
      cannot be built without `url` and `domain`. */
  datatype EnrichedRecipe = EnrichedRecipe(
    name: Option<string> := None,
    ingredients: Option<seq<string>> := None,
    cookingTimeTemperature: Option<string> := None,
    instructions: Option<seq<string>> := None,
    hints: Option<string> := None,
    imageUrl: Option<string> := None,
    nameonly url: string,
    nameonly domain: string)
  {
    /** The inherited `Recipe` part of an enriched recipe. */
    function AsRecipe(): (r: Recipe)
      ensures Enrich(r, url, domain) == this
    {
      Recipe(name, ingredients, cookingTimeTemperature, instructions, hints, imageUrl)
    }
  }

  /** A recipe built with no arguments. */
  const EmptyRecipe: Recipe := Recipe()

  /** The enriched recipe that carries every field of `r` and the two given values. */
  function Enrich(r: Recipe, url: string, domain: string): (e: EnrichedRecipe)
    ensures e.name == r.name && e.ingredients == r.ingredients
    ensures e.cookingTimeTemperature == r.cookingTimeTemperature
    ensures e.instructions == r.instructions && e.hints == r.hints && e.imageUrl == r.imageUrl
    ensures e.url == url && e.domain == domain
  {
    EnrichedRecipe(r.name, r.ingredients, r.cookingTimeTemperature, r.instructions, r.hints, r.imageUrl,
                   url := url, domain := domain)
  }

  /** A recipe built with no arguments has every field absent. */
  lemma EmptyRecipeHasNoFields()
    ensures EmptyRecipe.name.None? && EmptyRecipe.ingredients.None?
    ensures EmptyRecipe.cookingTimeTemperature.None? && EmptyRecipe.instructions.None?
    ensures EmptyRecipe.hints.None? && EmptyRecipe.imageUrl.None?
  {
  }

  /** Enrichment loses nothing: the recipe part of `Enrich(r, u, d)` is `r`. */
  lemma EnrichKeepsRecipe(r: Recipe, url: string, domain: string)
    ensures Enrich(r, url, domain).AsRecipe() == r
  {
  }
}
