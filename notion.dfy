/** The Notion notes app: how an enriched recipe is rendered as a page, and the
    upsert keyed by page title, over an in-memory model of one Notion database. */
module NotionNotes {
  import opened Wrappers
  import opened Schema
  import I18n

  /** The kinds of content block a recipe page uses. */
  datatype BlockKind = Heading2 | BulletedListItem | NumberedListItem | Paragraph

  /** A content block: its kind and its one run of text. */
  datatype Block = Block(kind: BlockKind, text: string)

  /** The page properties written: the title, and the "Recipe URL" property when present. */
  datatype Properties = Properties(title: string, recipeUrl: Option<string>)

  /** A page cover: an external image. */
  datatype Cover = External(url: string)

  datatype Page = Page(properties: Properties, cover: Option<Cover>, children: seq<Block>)

  /** An error raised by the app. */
  datatype NotionError = ValueError(message: string) | ApiResponseError

  const UntitledRecipe: string := "Untitled Recipe"
  const TokenMissingMessage: string := "NOTION_TOKEN is not set"
  const IngredientsHeading: string := "Ingredients"
  const CookingHeading: string := "Cooking Time & Temperature"
  const InstructionsHeading: string := "Instructions"
  const HintsHeading: string := "Hints"

  /** Python truthiness of an optional string: present and non-empty. */
  predicate Truthy(s: Option<string>)
  {
    s.Some? && s.value != ""
  }

  /** Python truthiness of an optional list: present and non-empty. */
  predicate TruthyList(items: Option<seq<string>>)
  {
    items.Some? && items.value != []
  }

  /** The database id the app works in: the first search hit for the database
      name, once a token is known to be set. */
  function ResolveDatabaseId(databaseName: string, token: Option<string>, searchResults: seq<string>)
    : (r: Result<string, NotionError>)
    ensures r.Success? <==> Truthy(token) && searchResults != []
    ensures r.Success? ==> r.value == searchResults[0]
    ensures !Truthy(token) ==> r == Failure(ValueError(TokenMissingMessage))
    ensures Truthy(token) && searchResults == [] ==>
              r == Failure(ValueError("Database with name " + databaseName + " not found"))
  {
    if !Truthy(token) then Failure(ValueError(TokenMissingMessage))
    else if searchResults == [] then Failure(ValueError("Database with name " + databaseName + " not found"))
    else Success(searchResults[0])
  }

  /** The page title, which is also the key of the upsert. */
  function PageTitle(recipe: EnrichedRecipe): (title: string)
    ensures title != ""
    ensures Truthy(recipe.name) ==> title == recipe.name.value
    ensures !Truthy(recipe.name) ==> title == UntitledRecipe
  {
    if Truthy(recipe.name) then recipe.name.value else UntitledRecipe
  }

  /** `_prepare_page_properties`: the title, and the recipe URL when it is non-empty.
      The domain is never written. */
  function PreparePageProperties(recipe: EnrichedRecipe): (p: Properties)
    ensures p.title == PageTitle(recipe)
    ensures p.recipeUrl.Some? <==> recipe.url != ""
    ensures p.recipeUrl.Some? ==> p.recipeUrl.value == recipe.url
  {
    Properties(PageTitle(recipe), if recipe.url != "" then Some(recipe.url) else None)
  }

  /** `_prepare_page_cover`: an external image when the image URL is non-empty. */
  function PreparePageCover(recipe: EnrichedRecipe): (c: Option<Cover>)
    ensures c.Some? <==> Truthy(recipe.imageUrl)
    ensures c.Some? ==> c.value == External(recipe.imageUrl.value)
  {
    if Truthy(recipe.imageUrl) then Some(External(recipe.imageUrl.value)) else None
  }

  /** One block of `kind` per item, in order. */
  function ItemBlocks(kind: BlockKind, items: seq<string>): seq<Block>
  {
    seq(|items|, i requires 0 <= i < |items| => Block(kind, items[i]))
  }

  /** A heading followed by one block per item, or nothing when the list is absent or empty. */
  function ListSection(heading: string, kind: BlockKind, items: Option<seq<string>>): seq<Block>
  {
    if TruthyList(items) then [Block(Heading2, heading)] + ItemBlocks(kind, items.value) else []
  }

  /** A heading followed by one paragraph, or nothing when the text is absent or empty. */
  function TextSection(heading: string, text: Option<string>): seq<Block>
  {
    if Truthy(text) then [Block(Heading2, heading), Block(Paragraph, text.value)] else []
  }

  /** The page content: ingredients, cooking time and temperature, instructions,
      hints, in that order. */
  function PageContent(recipe: EnrichedRecipe): (content: seq<Block>)
    ensures content == [] <==>
              !TruthyList(recipe.ingredients) && !Truthy(recipe.cookingTimeTemperature) &&
              !TruthyList(recipe.instructions) && !Truthy(recipe.hints)
    ensures content != [] ==> content[0].kind == Heading2
  {
    ListSection(IngredientsHeading, BulletedListItem, recipe.ingredients)
    + TextSection(CookingHeading, recipe.cookingTimeTemperature)
    + ListSection(InstructionsHeading, NumberedListItem, recipe.instructions)
    + TextSection(HintsHeading, recipe.hints)
  }

  /** The page a recipe is rendered as. */
  function RenderPage(recipe: EnrichedRecipe): (page: Page)
    ensures page.properties.title == PageTitle(recipe) && page.properties.title != ""
    ensures page.cover.Some? <==> Truthy(recipe.imageUrl)
    ensures page.children == PageContent(recipe)
    ensures page.properties == PreparePageProperties(recipe)
    ensures page.cover == PreparePageCover(recipe)
  {
    Page(PreparePageProperties(recipe), PreparePageCover(recipe), PageContent(recipe))
  }

  /** One more item adds one block at the end. */
  lemma ItemBlocksSnoc(kind: BlockKind, items: seq<string>, i: nat)
    requires i < |items|
    ensures ItemBlocks(kind, items[..i + 1]) == ItemBlocks(kind, items[..i]) + [Block(kind, items[i])]
  {
  }

  /** `_prepare_page_content`: builds the blocks section by section, one item at a time. */
  method PreparePageContent(recipe: EnrichedRecipe) returns (children: seq<Block>)
    ensures children == PageContent(recipe)
  {
    ghost var s1 := ListSection(IngredientsHeading, BulletedListItem, recipe.ingredients);
    ghost var s2 := TextSection(CookingHeading, recipe.cookingTimeTemperature);
    ghost var s3 := ListSection(InstructionsHeading, NumberedListItem, recipe.instructions);
    ghost var s4 := TextSection(HintsHeading, recipe.hints);
    children := [];
    if TruthyList(recipe.ingredients) {
      var items := recipe.ingredients.value;
      children := children + [Block(Heading2, IngredientsHeading)];
      for i := 0 to |items|
        invariant children == [Block(Heading2, IngredientsHeading)] + ItemBlocks(BulletedListItem, items[..i])
      {
        ItemBlocksSnoc(BulletedListItem, items, i);
        children := children + [Block(BulletedListItem, items[i])];
      }
      assert items[..|items|] == items;
    }
    assert children == s1;
    if Truthy(recipe.cookingTimeTemperature) {
      children := children + [Block(Heading2, CookingHeading), Block(Paragraph, recipe.cookingTimeTemperature.value)];
    }
    assert children == s1 + s2;
    if TruthyList(recipe.instructions) {
      var steps := recipe.instructions.value;
      children := children + [Block(Heading2, InstructionsHeading)];
      for i := 0 to |steps|
        invariant children == s1 + s2 + [Block(Heading2, InstructionsHeading)] + ItemBlocks(NumberedListItem, steps[..i])
      {
        ItemBlocksSnoc(NumberedListItem, steps, i);
        children := children + [Block(NumberedListItem, steps[i])];
      }
      assert steps[..|steps|] == steps;
    }
    assert children == s1 + s2 + s3;
    if Truthy(recipe.hints) {
      children := children + [Block(Heading2, HintsHeading), Block(Paragraph, recipe.hints.value)];
    }
  }

  /** The texts of the blocks of one kind, in page order. */
  function TextsOf(blocks: seq<Block>, kind: BlockKind): seq<string>
  {
    if blocks == [] then []
    else (if blocks[0].kind == kind then [blocks[0].text] else []) + TextsOf(blocks[1..], kind)
  }

  lemma {:induction false} TextsOfAppend(a: seq<Block>, b: seq<Block>, kind: BlockKind)
    ensures TextsOf(a + b, kind) == TextsOf(a, kind) + TextsOf(b, kind)
  {
    if a == [] {
      assert a + b == b;
    } else {
      assert (a + b)[0] == a[0] && (a + b)[1..] == a[1..] + b;
      TextsOfAppend(a[1..], b, kind);
    }
  }

  lemma {:induction false} TextsOfItems(itemKind: BlockKind, items: seq<string>, kind: BlockKind)
    ensures TextsOf(ItemBlocks(itemKind, items), kind) == if itemKind == kind then items else []
  {
    if items != [] {
      assert ItemBlocks(itemKind, items)[1..] == ItemBlocks(itemKind, items[1..]);
      TextsOfItems(itemKind, items[1..], kind);
      assert [items[0]] + items[1..] == items;
    }
  }

  lemma TextsOfSingle(b: Block, kind: BlockKind)
    ensures TextsOf([b], kind) == if b.kind == kind then [b.text] else []
  {
    assert [b][1..] == [];
  }

  /** The texts of one list section. */
  lemma ListSectionTexts(heading: string, itemKind: BlockKind, items: Option<seq<string>>, kind: BlockKind)
    requires itemKind != Heading2
    ensures TextsOf(ListSection(heading, itemKind, items), kind)
         == (if kind == Heading2 && TruthyList(items) then [heading] else [])
          + (if kind == itemKind then ListTexts(items) else [])
  {
    if TruthyList(items) {
      TextsOfAppend([Block(Heading2, heading)], ItemBlocks(itemKind, items.value), kind);
      TextsOfSingle(Block(Heading2, heading), kind);
      TextsOfItems(itemKind, items.value, kind);
    }
  }

  /** The texts of one text section. */
  lemma TextSectionTexts(heading: string, text: Option<string>, kind: BlockKind)
    ensures TextsOf(TextSection(heading, text), kind)
         == (if kind == Heading2 && Truthy(text) then [heading] else [])
          + (if kind == Paragraph then TextTexts(text) else [])
  {
    if Truthy(text) {
      TextsOfAppend([Block(Heading2, heading)], [Block(Paragraph, text.value)], kind);
      TextsOfSingle(Block(Heading2, heading), kind);
      TextsOfSingle(Block(Paragraph, text.value), kind);
    }
  }

  /** The texts present in a list section, or none. */
  function ListTexts(items: Option<seq<string>>): seq<string>
  {
    if TruthyList(items) then items.value else []
  }

  /** The text present in a text section, or none. */
  function TextTexts(text: Option<string>): seq<string>
  {
    if Truthy(text) then [text.value] else []
  }

  /** The texts of the page content are those of its four sections, in order. */
  lemma ContentTextsBySection(recipe: EnrichedRecipe, kind: BlockKind)
    ensures TextsOf(PageContent(recipe), kind)
         == TextsOf(ListSection(IngredientsHeading, BulletedListItem, recipe.ingredients), kind)
          + TextsOf(TextSection(CookingHeading, recipe.cookingTimeTemperature), kind)
          + TextsOf(ListSection(InstructionsHeading, NumberedListItem, recipe.instructions), kind)
          + TextsOf(TextSection(HintsHeading, recipe.hints), kind)
  {
    var s1 := ListSection(IngredientsHeading, BulletedListItem, recipe.ingredients);
    var s2 := TextSection(CookingHeading, recipe.cookingTimeTemperature);
    var s3 := ListSection(InstructionsHeading, NumberedListItem, recipe.instructions);
    var s4 := TextSection(HintsHeading, recipe.hints);
    TextsOfAppend(s1 + s2 + s3, s4, kind);
    TextsOfAppend(s1 + s2, s3, kind);
    TextsOfAppend(s1, s2, kind);
  }

  /** What the page shows of one recipe, kind by kind. */
  lemma SectionTextsOfKind(recipe: EnrichedRecipe, kind: BlockKind)
    ensures TextsOf(PageContent(recipe), kind)
         == ((if kind == Heading2 && TruthyList(recipe.ingredients) then [IngredientsHeading] else [])
             + (if kind == BulletedListItem then ListTexts(recipe.ingredients) else []))
          + ((if kind == Heading2 && Truthy(recipe.cookingTimeTemperature) then [CookingHeading] else [])
             + (if kind == Paragraph then TextTexts(recipe.cookingTimeTemperature) else []))
          + ((if kind == Heading2 && TruthyList(recipe.instructions) then [InstructionsHeading] else [])
             + (if kind == NumberedListItem then ListTexts(recipe.instructions) else []))
          + ((if kind == Heading2 && Truthy(recipe.hints) then [HintsHeading] else [])
             + (if kind == Paragraph then TextTexts(recipe.hints) else []))
  {
    ContentTextsBySection(recipe, kind);
    ListSectionTexts(IngredientsHeading, BulletedListItem, recipe.ingredients, kind);
    TextSectionTexts(CookingHeading, recipe.cookingTimeTemperature, kind);
    ListSectionTexts(InstructionsHeading, NumberedListItem, recipe.instructions, kind);
    TextSectionTexts(HintsHeading, recipe.hints, kind);
  }

  /** The page shows the headings of the present sections, in the fixed order
      ingredients, cooking time and temperature, instructions, hints. */
  lemma PageHeadings(recipe: EnrichedRecipe)
    ensures TextsOf(PageContent(recipe), Heading2)
         == (if TruthyList(recipe.ingredients) then [IngredientsHeading] else [])
          + (if Truthy(recipe.cookingTimeTemperature) then [CookingHeading] else [])
          + (if TruthyList(recipe.instructions) then [InstructionsHeading] else [])
          + (if Truthy(recipe.hints) then [HintsHeading] else [])
  {
    SectionTextsOfKind(recipe, Heading2);
    var e: seq<string> := [];
    var h1 := if TruthyList(recipe.ingredients) then [IngredientsHeading] else [];
    var h2 := if Truthy(recipe.cookingTimeTemperature) then [CookingHeading] else [];
    var h3 := if TruthyList(recipe.instructions) then [InstructionsHeading] else [];
    var h4 := if Truthy(recipe.hints) then [HintsHeading] else [];
    assert h1 + e == h1 && h2 + e == h2 && h3 + e == h3 && h4 + e == h4;
  }

  /** Every ingredient is one bullet, verbatim and in order; nothing else is a bullet. */
  lemma PageBullets(recipe: EnrichedRecipe)
    ensures TextsOf(PageContent(recipe), BulletedListItem) == ListTexts(recipe.ingredients)
  {
    SectionTextsOfKind(recipe, BulletedListItem);
    var e: seq<string> := [];
    assert e + ListTexts(recipe.ingredients) + (e + e) + (e + e) + (e + e) == ListTexts(recipe.ingredients);
  }

  /** Every instruction is one numbered item, verbatim and in order; nothing else is. */
  lemma PageNumberedItems(recipe: EnrichedRecipe)
    ensures TextsOf(PageContent(recipe), NumberedListItem) == ListTexts(recipe.instructions)
  {
    SectionTextsOfKind(recipe, NumberedListItem);
    var e: seq<string> := [];
    assert (e + e) + (e + e) + (e + ListTexts(recipe.instructions)) + (e + e) == ListTexts(recipe.instructions);
  }

  /** The paragraphs are the cooking time and temperature, then the hints, verbatim. */
  lemma PageParagraphs(recipe: EnrichedRecipe)
    ensures TextsOf(PageContent(recipe), Paragraph)
         == TextTexts(recipe.cookingTimeTemperature) + TextTexts(recipe.hints)
  {
    SectionTextsOfKind(recipe, Paragraph);
    var e: seq<string> := [];
    var c := TextTexts(recipe.cookingTimeTemperature);
    var h := TextTexts(recipe.hints);
    assert (e + e) + (e + c) + (e + e) + (e + h) == c + h;
  }

  /** Block counts: ingredients and instructions give a heading plus one block per
      item, cooking time and hints two blocks each; absent or empty fields give none. */
  lemma PageContentSize(recipe: EnrichedRecipe)
    ensures |PageContent(recipe)|
         == (if TruthyList(recipe.ingredients) then 1 + |recipe.ingredients.value| else 0)
          + (if Truthy(recipe.cookingTimeTemperature) then 2 else 0)
          + (if TruthyList(recipe.instructions) then 1 + |recipe.instructions.value| else 0)
          + (if Truthy(recipe.hints) then 2 else 0)
  {
  }

  /** The domain never reaches the page. */
  lemma RenderIgnoresDomain(recipe: EnrichedRecipe, domain: string)
    ensures RenderPage(recipe.(domain := domain)) == RenderPage(recipe)
  {
  }

  /** The first page whose title is `title` (the first result of the database query). */
  function FindPage(pages: seq<Page>, title: string): (r: Option<nat>)
    ensures r.Some? ==> r.value < |pages| && pages[r.value].properties.title == title
    ensures r.Some? ==> forall j :: 0 <= j < r.value ==> pages[j].properties.title != title
    ensures r.None? ==> forall j :: 0 <= j < |pages| ==> pages[j].properties.title != title
  {
    if pages == [] then None
    else if pages[0].properties.title == title then Some(0)
    else match FindPage(pages[1..], title)
      case Some(i) => Some(i + 1)
      case None => None
  }

  /** The number of pages titled `title`. */
  function CountTitled(pages: seq<Page>, title: string): nat
  {
    if pages == [] then 0
    else (if pages[0].properties.title == title then 1 else 0) + CountTitled(pages[1..], title)
  }

  /** `create_note` on the page list: update the first page with the recipe's title
      when the lookup finds one, otherwise add a new page. A failed lookup counts
      as "not found". */
  function Upsert(pages: seq<Page>, recipe: EnrichedRecipe, lookupSucceeds: bool): (stored: seq<Page>)
    ensures |stored| == if lookupSucceeds && FindPage(pages, PageTitle(recipe)).Some? then |pages| else |pages| + 1
    ensures lookupSucceeds ==>
              FindPage(stored, PageTitle(recipe)).Some? &&
              stored[FindPage(stored, PageTitle(recipe)).value] == RenderPage(recipe)
    ensures !lookupSucceeds ==> stored[|pages|] == RenderPage(recipe)
    ensures lookupSucceeds && FindPage(pages, PageTitle(recipe)).Some? ==>
              stored[FindPage(pages, PageTitle(recipe)).value] == RenderPage(recipe)
    ensures forall j :: 0 <= j < |pages| && (lookupSucceeds ==> FindPage(pages, PageTitle(recipe)) != Some(j)) ==>
              stored[j] == pages[j]
  {
    var title := PageTitle(recipe);
    var found := if lookupSucceeds then FindPage(pages, title) else None;
    match found
    case Some(i) =>
      FindPageAfterWrite(pages, title, i, RenderPage(recipe));
      pages[i := RenderPage(recipe)]
    case None =>
      if lookupSucceeds then
        FindPageAfterWrite(pages + [RenderPage(recipe)], title, |pages|, RenderPage(recipe));
        assert (pages + [RenderPage(recipe)])[|pages| := RenderPage(recipe)] == pages + [RenderPage(recipe)];
        pages + [RenderPage(recipe)]
      else
        pages + [RenderPage(recipe)]
  }

  /** The second of two upserts with the same title overwrites the first, when both
      lookups succeed: one page, holding the second recipe. */
  lemma UpsertTwice(pages: seq<Page>, first: EnrichedRecipe, second: EnrichedRecipe)
    requires PageTitle(first) == PageTitle(second)
    ensures Upsert(Upsert(pages, first, true), second, true) == Upsert(pages, second, true)
  {
    var t := PageTitle(first);
    match FindPage(pages, t)
    case Some(i) => UpsertTwiceFound(pages, first, second, i);
    case None => UpsertTwiceAbsent(pages, first, second);
  }

  /** `UpsertTwice` when the title is already in the store: both write the same page. */
  lemma UpsertTwiceFound(pages: seq<Page>, first: EnrichedRecipe, second: EnrichedRecipe, i: nat)
    requires PageTitle(first) == PageTitle(second)
    requires FindPage(pages, PageTitle(first)) == Some(i)
    ensures Upsert(Upsert(pages, first, true), second, true) == pages[i := RenderPage(second)]
    ensures Upsert(pages, second, true) == pages[i := RenderPage(second)]
  {
    var t := PageTitle(first);
    var once := pages[i := RenderPage(first)];
    assert Upsert(pages, first, true) == once;
    FindPageAfterWrite(pages, t, i, RenderPage(first));
    assert Upsert(once, second, true) == once[i := RenderPage(second)];
    assert once[i := RenderPage(second)] == pages[i := RenderPage(second)];
  }

  /** `UpsertTwice` when the title is new: the first upsert appends, the second
      overwrites that new last page. */
  lemma UpsertTwiceAbsent(pages: seq<Page>, first: EnrichedRecipe, second: EnrichedRecipe)
    requires PageTitle(first) == PageTitle(second)
    requires FindPage(pages, PageTitle(first)).None?
    ensures Upsert(Upsert(pages, first, true), second, true) == pages + [RenderPage(second)]
    ensures Upsert(pages, second, true) == pages + [RenderPage(second)]
  {
    var t := PageTitle(first);
    var once := pages + [RenderPage(first)];
    assert Upsert(pages, first, true) == once;
    assert once[|pages| := RenderPage(first)] == once;
    FindPageAfterWrite(once, t, |pages|, RenderPage(first));
    assert Upsert(once, second, true) == once[|pages| := RenderPage(second)];
    assert once[|pages| := RenderPage(second)] == pages + [RenderPage(second)];
  }

  /** Writing a page with title `title` at or before the first page with that title
      makes it the first such page. */
  lemma FindPageAfterWrite(pages: seq<Page>, title: string, i: nat, p: Page)
    requires i < |pages| && p.properties.title == title
    requires forall j :: 0 <= j < i ==> pages[j].properties.title != title
    ensures FindPage(pages[i := p], title) == Some(i)
  {
    var r := FindPage(pages[i := p], title);
    assert pages[i := p][i].properties.title == title;
  }

  lemma {:induction false} CountTitledAppend(a: seq<Page>, b: seq<Page>, title: string)
    ensures CountTitled(a + b, title) == CountTitled(a, title) + CountTitled(b, title)
  {
    if a == [] {
      assert a + b == b;
    } else {
      assert (a + b)[0] == a[0] && (a + b)[1..] == a[1..] + b;
      CountTitledAppend(a[1..], b, title);
    }
  }

  lemma {:induction false} CountTitledZero(pages: seq<Page>, title: string)
    ensures CountTitled(pages, title) == 0 <==> FindPage(pages, title).None?
  {
    if pages != [] {
      CountTitledZero(pages[1..], title);
    }
  }

  /** Replacing a page by one with the same title keeps the count of that title. */
  lemma {:induction false} CountTitledReplace(pages: seq<Page>, title: string, i: nat, p: Page)
    requires i < |pages| && pages[i].properties.title == p.properties.title
    ensures CountTitled(pages[i := p], title) == CountTitled(pages, title)
  {
    if i > 0 {
      assert pages[i := p][1..] == pages[1..][i - 1 := p];
      CountTitledReplace(pages[1..], title, i - 1, p);
    }
  }

  /** With a working lookup, an upsert leaves exactly one page with the title when
      there was none, and the same number otherwise. A failed lookup always adds
      a page, so repeated upserts can then leave duplicates. */
  lemma UpsertCount(pages: seq<Page>, recipe: EnrichedRecipe)
    ensures var t := PageTitle(recipe); var n := CountTitled(pages, t);
      CountTitled(Upsert(pages, recipe, true), t) == (if n == 0 then 1 else n)
    ensures var t := PageTitle(recipe);
      CountTitled(Upsert(pages, recipe, false), t) == CountTitled(pages, t) + 1
  {
    var t := PageTitle(recipe);
    CountTitledZero(pages, t);
    CountTitledAppend(pages, [RenderPage(recipe)], t);
    match FindPage(pages, t)
    case Some(i) =>
      CountTitledReplace(pages, t, i, RenderPage(recipe));
    case None =>
  }

  /** An upsert touches at most one page, and the pages stay in place. */
  lemma UpsertKeepsOtherPages(pages: seq<Page>, recipe: EnrichedRecipe, lookupSucceeds: bool, j: nat)
    requires j < |pages| && (lookupSucceeds ==> FindPage(pages, PageTitle(recipe)) != Some(j))
    ensures j < |Upsert(pages, recipe, lookupSucceeds)| && Upsert(pages, recipe, lookupSucceeds)[j] == pages[j]
  {
  }

  /** `NotionNotesApp`: the notes app over one database, modelled as the list of its
      pages in creation order; a page's id is its position. */
  class NotionNotesApp {
    const databaseName: string
    const databaseId: string
    var pages: seq<Page>

    /** `__init__`: with a token set and a search that found the database, the app
        works in the first database found, which holds `pages`. When either is
        missing, `__init__` raises the error `ResolveDatabaseId` gives. */
    constructor(databaseName: string, token: Option<string>, searchResults: seq<string>, pages: seq<Page>)
      requires ResolveDatabaseId(databaseName, token, searchResults).Success?
      ensures this.databaseName == databaseName
      ensures this.databaseId == ResolveDatabaseId(databaseName, token, searchResults).value
      ensures this.databaseId == searchResults[0]
      ensures this.pages == pages
    {
      this.databaseName := databaseName;
      this.databaseId := ResolveDatabaseId(databaseName, token, searchResults).value;
      this.pages := pages;
    }

    /** `_check_page_exists`: the first page with the title; a failed query is
        treated as "no page". */
    method CheckPageExists(pageName: string, queryFails: bool) returns (pageId: Option<nat>)
      ensures queryFails ==> pageId.None?
      ensures pageId.Some? ==> pageId.value < |pages| && pages[pageId.value].properties.title == pageName
      ensures !queryFails ==> pageId == FindPage(pages, pageName)
    {
      if queryFails {
        return None;
      }
      pageId := FindPage(pages, pageName);
    }

    /** `_create_page`: adds the rendered page, or raises when the store refuses. */
    method CreatePage(recipe: EnrichedRecipe, fails: bool) returns (result: Result<nat, NotionError>)
      modifies this`pages
      ensures fails ==> result == Failure(ApiResponseError) && pages == old(pages)
      ensures !fails ==> result == Success(|old(pages)|) && pages == old(pages) + [RenderPage(recipe)]
    {
      if fails {
        return Failure(ApiResponseError);
      }
      var properties := PreparePageProperties(recipe);
      var cover := PreparePageCover(recipe);
      var children := PreparePageContent(recipe);
      pages := pages + [Page(properties, cover, children)];
      result := Success(|pages| - 1);
    }

    /** `_update_page`: replaces the properties and cover, deletes the existing blocks
        one by one, then appends the new blocks if there are any. */
    method UpdatePage(pageId: nat, recipe: EnrichedRecipe, fails: bool) returns (result: Result<nat, NotionError>)
      modifies this`pages
      ensures fails || pageId >= |old(pages)| ==> result == Failure(ApiResponseError) && pages == old(pages)
      ensures !fails && pageId < |old(pages)| ==>
                result == Success(pageId) && pages == old(pages)[pageId := RenderPage(recipe)]
    {
      if fails || pageId >= |pages| {
        return Failure(ApiResponseError);
      }
      var properties := PreparePageProperties(recipe);
      var cover := PreparePageCover(recipe);
      var existing := pages[pageId].children;
      pages := pages[pageId := Page(properties, cover, existing)];
      for i := 0 to |existing|
        invariant |pages| == |old(pages)|
        invariant pages == old(pages)[pageId := Page(properties, cover, existing[i..])]
      {
        pages := pages[pageId := pages[pageId].(children := pages[pageId].children[1..])];
      }
      assert existing[|existing|..] == [];
      var children := PreparePageContent(recipe);
      assert [] + children == children;
      if children != [] {
        pages := pages[pageId := pages[pageId].(children := pages[pageId].children + children)];
      }
      result := Success(pageId);
    }

    /** `create_note`: the upsert keyed by the page title. */
    method CreateNote(recipe: EnrichedRecipe, queryFails: bool, writeFails: bool)
      returns (result: Result<nat, NotionError>)
      modifies this`pages
      ensures writeFails ==> result == Failure(ApiResponseError) && pages == old(pages)
      ensures !writeFails ==> result.Success? && pages == Upsert(old(pages), recipe, !queryFails)
      ensures result.Success? ==> result.value < |pages| && pages[result.value] == RenderPage(recipe)
    {
      var pageName := PageTitle(recipe);
      var existing := CheckPageExists(pageName, queryFails);
      if existing.Some? {
        result := UpdatePage(existing.value, recipe, writeFails);
      } else {
        result := CreatePage(recipe, writeFails);
      }
    }
  }

  /** The placeholder title is the English "untitled" label. */
  lemma UntitledMatchesEnglishLabel()
    ensures UntitledRecipe == I18n.EnglishLabels["untitled_recipe"]
  {
  }
}
