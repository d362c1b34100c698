/** The table of note labels per language (`NOTES_LABELS`). */
module I18n {
  import opened Wrappers

  /** The docstring written inside the dictionary literal, right before the first key.
      Python joins adjacent string literals, so it becomes part of that key. */
  const LabelsDocstring: string :=
    "Multilingual labels for recipe note sections.\n    \n"
    + "    Contains translations for recipe section headers and common labels\n"
    + "    used when creating notes in various notes applications.\n    \n"
    + "    Attributes:\n"
    + "        en (dict[str, str]): English translations for recipe labels.\n"
    + "        pl (dict[str, str]): Polish translations for recipe labels.\n    "

  /** The key the English labels are stored under: the docstring followed by "en". */
  const EnglishKey: string := LabelsDocstring + "en"

  /** The seven label names every language defines. */
  const LabelNames: set<string> :=
    {"ingredients", "cooking_time_temperature", "instructions", "hints", "url", "domain", "untitled_recipe"}

  const EnglishLabels: map<string, string> := map[
    "ingredients" := "Ingredients",
    "cooking_time_temperature" := "Cooking time and temperature",
    "instructions" := "Instructions",
    "hints" := "Hints",
    "url" := "Recipe URL",
    "domain" := "Domain",
    "untitled_recipe" := "Untitled Recipe"]

  const PolishLabels: map<string, string> := map[
    "ingredients" := "Składniki",
    "cooking_time_temperature" := "Czas gotowania i temperatura",
    "instructions" := "Przepis",
    "hints" := "Wskazówki",
    "url" := "URL przepisu",
    "domain" := "Strona",
    "untitled_recipe" := "Przepis bez nazwy"]

  const NotesLabels: map<string, map<string, string>> := map[EnglishKey := EnglishLabels, "pl" := PolishLabels]

  /** The labels stored under `language`, if any: a dictionary lookup. */
  function LabelsFor(language: string): (labels: Option<map<string, string>>)
    ensures labels.Some? <==> language in NotesLabels
    ensures labels.Some? ==> labels.value == NotesLabels[language]
    ensures labels.Some? ==> labels.value.Keys == LabelNames
  {
    LabelNamesDefined();
    if language in NotesLabels then Some(NotesLabels[language]) else None
  }

  /** Both entries define exactly the seven label names. */
  lemma LabelNamesDefined()
    ensures EnglishLabels.Keys == LabelNames && PolishLabels.Keys == LabelNames
    ensures forall language :: language in NotesLabels ==> NotesLabels[language].Keys == LabelNames
  {
  }

  /** The table has two entries; "pl" is one key, but "en" is not: the English
      labels sit under the docstring followed by "en". */
  lemma TableKeys()
    ensures NotesLabels.Keys == {EnglishKey, "pl"}
    ensures |NotesLabels| == 2
    ensures "pl" in NotesLabels && NotesLabels["pl"] == PolishLabels
    ensures "en" !in NotesLabels
    ensures NotesLabels[EnglishKey] == EnglishLabels
  {
    assert |EnglishKey| > 2;
    assert EnglishKey != "pl" && EnglishKey != "en";
    assert NotesLabels.Keys == {EnglishKey, "pl"};
    assert |{EnglishKey, "pl"}| == 2;
  }

  /** The table as evidently intended, with the docstring as a docstring: English
      labels under "en". */
  const IntendedNotesLabels: map<string, map<string, string>> := map["en" := EnglishLabels, "pl" := PolishLabels]

  /** In the intended table both language codes are keys and each maps to its seven labels. */
  lemma IntendedTableKeys()
    ensures IntendedNotesLabels.Keys == {"en", "pl"} && |IntendedNotesLabels| == 2
    ensures IntendedNotesLabels["en"] == EnglishLabels && IntendedNotesLabels["pl"] == PolishLabels
    ensures forall language :: language in IntendedNotesLabels ==> IntendedNotesLabels[language].Keys == LabelNames
  {
    assert "en" != "pl";
    assert |{"en", "pl"}| == 2;
    LabelNamesDefined();
  }

  /** The placeholder titles of both languages. */
  lemma UntitledLabels()
    ensures EnglishLabels["untitled_recipe"] == "Untitled Recipe"
    ensures PolishLabels["untitled_recipe"] == "Przepis bez nazwy"
  {
  }
}
