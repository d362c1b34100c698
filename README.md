# recipes-to-notes, modelled in Dafny

recipes-to-notes turns a recipe web page into a note. The orchestrator `RecipeToNote` drives three collaborators in a fixed order:

1. A scraper turns the URL into documents.
2. A language model, asked for output in the `Recipe` schema, extracts a recipe from the single document.
3. The orchestrator enriches that recipe with the URL and its domain.
4. A notes app (Notion) upserts a page keyed by the recipe's title.

This project models that core in Dafny and proves its properties:

- `schema.dfy` (`Schema`): `Recipe`, with six optional fields that default to absent. `EnrichedRecipe` has the same six fields plus `url` and `domain`, which must be named when it is built.
- `schema_extraction.dfy` (`SchemaExtraction`): `extract_schema` as a function of a model oracle (`Prompt -> ModelReply`) and a document list. The result records what the routine returned or raised, and every prompt the model was invoked with. The system message carries the token `SystemInstruction`; `ContentText` maps it to the verbatim `SYSTEM_PROMPT` text, held in the constant `SystemPrompt`.
- `py_str.dfy` (`PyStr`): Python's `str.split` on one character, with its round trip against `join`.
- `runner.dfy` (`Runner`): the class `RecipeToNote` and its fields `url` (`_url`), `documents` and `extractedSchema`. A Python attribute that was never assigned is `Unset`. The field `events` records every call to the scraper, the model and the notes app, in order. `Pipeline` is the pure specification of `run()`, and the methods are proved against it.
- `notion.dfy` (`NotionNotes`): the page rendering (properties, cover, content blocks) and the class `NotionNotesApp`. The class models one Notion database as the list of its pages in creation order. The upsert is specified by `Upsert`.
- `i18n.dfy` (`I18n`): the `NOTES_LABELS` table, including the key that Python builds from the docstring.
- `wrappers.dfy` (`Wrappers`): `Option`, `Result` and `Outcome`.

Where the code's own documentation and the code disagree, the model follows the code:

- Unlike the docstring's "None if extraction fails" (schema_extraction.py:61), a document without `metadata['original_url']` does not degrade to "no recipe". The lookup for the first log line fails before the model is invoked. The handler repeats the lookup, so the `KeyError` escapes.
- The placeholder title and the section headings are hard-coded English strings. The label table is not consulted. Its headings also differ from the labels: "Cooking Time & Temperature" against "Cooking time and temperature".

## Model

| member | source | states |
|---|---|---|
| `Schema.EmptyRecipeHasNoFields` | src/recipes_to_notes/schema.py:5-30 | a `Recipe` built with no arguments has all six fields absent |
| `Schema.EnrichKeepsRecipe` | src/recipes_to_notes/schema.py:33-40 | the recipe part of an enriched recipe is the recipe it was built from |
| `Schema.EnrichedRecipe.AsRecipe` | src/recipes_to_notes/schema.py:33 | an enriched recipe is exactly its six inherited fields plus `url` and `domain` |
| `Schema.Enrich` | src/recipes_to_notes/runner.py:84-88 | the enriched recipe copies every recipe field and carries the given url and domain |
| `PyStr.Split` | src/recipes_to_notes/runner.py:87 | `split` yields at least one piece, even for the empty string |
| `PyStr.SplitPiecesFree` | src/recipes_to_notes/runner.py:87 | no piece contains the separator |
| `PyStr.JoinSplit` | src/recipes_to_notes/runner.py:87 | joining the pieces with the separator gives back the string |
| `PyStr.SplitJoin` | src/recipes_to_notes/runner.py:87 | splitting a join of separator-free pieces gives back the pieces |
| `PyStr.SplitCount` | src/recipes_to_notes/runner.py:87 | there is one more piece than there are separators |
| `PyStr.SplitAtSeparator` | src/recipes_to_notes/runner.py:87 | splitting at a separator occurrence splits the two sides independently |
| `SchemaExtraction.ExtractionPrompt` | src/recipes_to_notes/schema_extraction.py:76-79 | the prompt is two messages: the fixed system instruction, then the document text as the user message |
| `SchemaExtraction.PromptText` | src/recipes_to_notes/schema_extraction.py:8-48 | read as text, the prompt's first message is `SYSTEM_PROMPT` verbatim and its second is the document text |
| `SchemaExtraction.ExtractSchema` | src/recipes_to_notes/schema_extraction.py:50-90 | no documents gives ValueError "No documents provided"; several give ValueError "Multiple documents provided, expected exactly one"; a missing `original_url` gives KeyError; in all three cases the model is never invoked. Otherwise the model is invoked exactly once, with the system prompt and then the document text, and its recipe is returned unchanged, or `None` when it raises |
| `SchemaExtraction.RejectionIgnoresModel` | src/recipes_to_notes/schema_extraction.py:67-84 | a rejected call fails, and it fails the same way whatever the model would answer |
| `SchemaExtraction.OnlyPageContentReachesModel` | src/recipes_to_notes/schema_extraction.py:72-85 | documents with equal text are extracted alike: only `page_content` reaches the model |
| `SchemaExtraction.ModelFailureGivesNone` | src/recipes_to_notes/schema_extraction.py:83-90 | a model exception is not propagated: the routine returns `None` |
| `Runner.Domain` | src/recipes_to_notes/runner.py:87 | the domain exists exactly when the URL has at least two '/', and it contains no '/' |
| `Runner.DomainIsThirdPiece` | src/recipes_to_notes/runner.py:87 | for any URL `a/b/host` followed by nothing or by '/…', with `a`, `b` and `host` free of '/', the domain is `host`, the third piece |
| `Runner.DomainOfUrl` | src/recipes_to_notes/runner.py:87 | for `scheme://host` followed by nothing or by '/…', the domain is the raw host, with any port or user information kept |
| `Runner.CookingExampleDomain` | src/recipes_to_notes/runner.py:87 | `https://cooking.example/pasta` has domain `cooking.example` |
| `Runner.ShortUrlHasNoDomain` | src/recipes_to_notes/runner.py:87 | a URL with fewer than two '/' has no third segment |
| `Runner.Enriched` | src/recipes_to_notes/runner.py:84-88 | enrichment succeeds exactly when the domain exists; it then copies every field and sets url and domain; otherwise it raises IndexError |
| `Runner.Pipeline` | src/recipes_to_notes/runner.py:91-99 | every run calls the scraper first, with the URL, and makes at most three collaborator calls |
| `Runner.PipelineOrder` | src/recipes_to_notes/runner.py:91-99 | the notes app is called exactly when the run succeeds; the calls are then, in order: the scraper with the URL, the model with the one document's text, and the notes app once with the enriched model recipe. Conversely, one document with a source URL, a model that replies, and a URL with a domain make the run succeed |
| `Runner.EmptyScrapeStopsRun` | src/recipes_to_notes/runner.py:97-99 | an empty scrape fails with "No documents provided" after the scraper call alone |
| `Runner.AbsentRecipeStopsRun` | src/recipes_to_notes/runner.py:76-89 | when extraction yields `None`, the run fails and the notes app is not called |
| `Runner.ShortUrlStopsRun` | src/recipes_to_notes/runner.py:84-89 | a URL with fewer than two '/' fails the run before the notes app is called |
| `Runner.PastaScenario` | src/recipes_to_notes/runner.py:84-99 | the pasta page example succeeds, and the notes app receives the extracted fields with url and domain `cooking.example` |
| `Runner.RecipeToNote.constructor` | src/recipes_to_notes/runner.py:36-52 | binds the scraper and the model handle once; no URL, documents or schema are set |
| `Runner.RecipeToNote.SetUrl` | src/recipes_to_notes/runner.py:54-60 | the pending URL becomes the given one, so the last write wins |
| `Runner.RecipeToNote.Scrape` | src/recipes_to_notes/runner.py:62-68 | without a URL it raises and changes nothing; otherwise it stores the scraper's documents for the URL |
| `Runner.RecipeToNote.ExtractSchema` | src/recipes_to_notes/runner.py:70-76 | runs the extraction routine on the stored documents; stores its result, or leaves the schema unchanged when it raises |
| `Runner.RecipeToNote.CreateNote` | src/recipes_to_notes/runner.py:78-89 | checks, in order, that a schema is set, that it is not `None`, that a URL is set, and that the URL has a domain; only then is the notes app called, once, with the enriched recipe |
| `Runner.RecipeToNote.Run` | src/recipes_to_notes/runner.py:91-99 | without a URL it fails at scraping and changes nothing; otherwise its calls and outcome are those of `Pipeline` for the URL, and the documents and schema are stored |
| `NotionNotes.ResolveDatabaseId` | src/recipes_to_notes/plugins/notes/notion.py:15-27 | a missing or empty token raises "NOTION_TOKEN is not set"; an empty search raises "Database with name … not found"; otherwise the first result's id is used |
| `NotionNotes.PageTitle` | src/recipes_to_notes/plugins/notes/notion.py:64 | the title is the name when it is present and non-empty, otherwise "Untitled Recipe"; it is never empty |
| `NotionNotes.PreparePageProperties` | src/recipes_to_notes/plugins/notes/notion.py:57-77 | the title property is the page title; "Recipe URL" is present exactly when the url is non-empty, and then holds it |
| `NotionNotes.PreparePageCover` | src/recipes_to_notes/plugins/notes/notion.py:79-88 | the cover is an external image exactly when `image_url` is non-empty, and then uses it |
| `NotionNotes.PageContent` | src/recipes_to_notes/plugins/notes/notion.py:90-232 | the content is empty exactly when no section is present, and otherwise starts with a section heading |
| `NotionNotes.RenderPage` | src/recipes_to_notes/plugins/notes/notion.py:234-246 | the page's title is the non-empty upsert key `PageTitle`, it has a cover exactly when the image URL is truthy, and its blocks are the page content; its properties (with "Recipe URL") and cover (with the image URL) are those `PreparePageProperties` and `PreparePageCover` give |
| `NotionNotes.PreparePageContent` | src/recipes_to_notes/plugins/notes/notion.py:90-232 | the blocks built section by section and item by item are the page content |
| `NotionNotes.PageHeadings` | src/recipes_to_notes/plugins/notes/notion.py:94-230 | the headings are those of the present sections, in the order ingredients, cooking time, instructions, hints |
| `NotionNotes.PageBullets` | src/recipes_to_notes/plugins/notes/notion.py:113-128 | the bullets are exactly the ingredients, verbatim and in order |
| `NotionNotes.PageNumberedItems` | src/recipes_to_notes/plugins/notes/notion.py:182-197 | the numbered items are exactly the instructions, verbatim and in order |
| `NotionNotes.PageParagraphs` | src/recipes_to_notes/plugins/notes/notion.py:130-230 | the paragraphs are the cooking time and temperature, then the hints, verbatim, each only when non-empty |
| `NotionNotes.PageContentSize` | src/recipes_to_notes/plugins/notes/notion.py:90-232 | ingredients and instructions each add 1 + n blocks, cooking time and hints 2 each, and absent or empty fields add none |
| `NotionNotes.RenderIgnoresDomain` | src/recipes_to_notes/plugins/notes/notion.py:57-88 | the domain is never written to the page |
| `NotionNotes.FindPage` | src/recipes_to_notes/plugins/notes/notion.py:35-50 | the lookup finds the first page with the title, or reports that no page has it |
| `NotionNotes.Upsert` | src/recipes_to_notes/plugins/notes/notion.py:290-304 | the store keeps its size when a working lookup found the title and grows by one page otherwise; after a working lookup, the page the lookup found becomes the rendered recipe, or, when none was found, the rendered recipe is the first page with the title; after a failed one, the rendered recipe is appended; every other page keeps its place and content |
| `NotionNotes.UpsertTwice` | src/recipes_to_notes/plugins/notes/notion.py:290-304 | when both lookups succeed, two upserts with the same title equal the second upsert alone: one page, holding the second recipe |
| `NotionNotes.UpsertCount` | src/recipes_to_notes/plugins/notes/notion.py:290-304 | with a working lookup, an upsert leaves one page with the title when there was none, and the same number otherwise; with a failed lookup it always adds one |
| `NotionNotes.UpsertKeepsOtherPages` | src/recipes_to_notes/plugins/notes/notion.py:290-304 | every page except the one a working lookup found keeps its place and content, including other pages with the same title |
| `NotionNotes.NotionNotesApp.constructor` | src/recipes_to_notes/plugins/notes/notion.py:15-27 | with a token set and a non-empty search, the app keeps the database name and works in the first database found (`ResolveDatabaseId`), holding its pages |
| `NotionNotes.NotionNotesApp.CheckPageExists` | src/recipes_to_notes/plugins/notes/notion.py:29-55 | returns the first page with the name; a failed query gives "no page" |
| `NotionNotes.NotionNotesApp.CreatePage` | src/recipes_to_notes/plugins/notes/notion.py:234-253 | adds the rendered page and returns its id, or raises and changes nothing |
| `NotionNotes.NotionNotesApp.UpdatePage` | src/recipes_to_notes/plugins/notes/notion.py:255-288 | replaces the properties and cover, deletes every old block, and leaves exactly the new content; a refused update raises and changes nothing |
| `NotionNotes.NotionNotesApp.CreateNote` | src/recipes_to_notes/plugins/notes/notion.py:290-304 | the store becomes `Upsert` of the old pages, and the returned page holds the rendered recipe; a refused write raises and changes nothing |
| `NotionNotes.UntitledMatchesEnglishLabel` | src/recipes_to_notes/plugins/notes/notion.py:64 | the hard-coded placeholder title equals the English `untitled_recipe` label |
| `I18n.LabelsFor` | src/recipes_to_notes/i18n.py:5-33 | a lookup hits exactly the keys of the table and returns the entry stored under the key; every hit defines the seven label names |
| `I18n.LabelNamesDefined` | src/recipes_to_notes/i18n.py:15-32 | both entries define exactly `ingredients`, `cooking_time_temperature`, `instructions`, `hints`, `url`, `domain` and `untitled_recipe` |
| `I18n.TableKeys` | src/recipes_to_notes/i18n.py:5-24 | the table has two entries, "pl" and the docstring followed by "en"; "en" itself is not a key |
| `I18n.UntitledLabels` | src/recipes_to_notes/i18n.py:22-31 | the placeholders are "Untitled Recipe" and "Przepis bez nazwy" |
| `I18n.IntendedTableKeys` | src/recipes_to_notes/i18n.py:5-33 | in the intended table, "en" and "pl" are the two keys, each with the seven labels |

## Left out

- The Spider scraper (`plugins/scraping/spider.py`) and its network calls. The scraper is an oracle: a fixed function from a URL to a possibly empty list of documents, so a scraper whose answer changes over time is not modelled.
- The OpenAI and Azure OpenAI providers and `get_model()`. The constructor receives the model handle that `get_model()` returned. The model itself is an oracle: a fixed function from prompts to a recipe or an exception. A model whose replies change over time is not modelled, so two `run()`s of `RecipeToNote` on the same page always get the same reply and outcome. Nothing is claimed about what it extracts: the system prompt is kept as a constant.
- `with_structured_output` and the prompt template pipe at schema_extraction.py:74-81 are taken to succeed. A failure there would propagate, since it is outside the `try`.
- `setup_logging`, every log call, and async/await. Each await is one sequential call.
- An exception raised by the notes app's `create_note` inside `RecipeToNote.create_note`. The orchestrator records the call in `events`; such an exception would propagate out of `run()` unchanged.
- The Notion HTTP API is replaced by a list of pages. A page id is the page's position, and the query returns pages in creation order. Blocks carry only their kind and text.
- A failed database query and a refused `pages.create`/`pages.update` are boolean parameters. The `blocks.children.list`, `blocks.delete` and `blocks.children.append` calls are taken to succeed, so a page left half-updated by a failure between them is not modelled.
- NotionNotes.NotionNotesApp.UpdatePage: it treats the listed blocks as all of the page's blocks. Notion returns them one page of results at a time, and that pagination is not modelled. It also replaces the properties wholesale: Notion's merge of properties left out of an update is not modelled.
- NotionNotes.NotionNotesApp.constructor: a Dafny constructor cannot raise, so it requires a token and a search that succeed. The two `ValueError`s that `__init__` raises otherwise are stated by `ResolveDatabaseId`.
- The Notion client construction from the token (notion.py:19-20) and the search call. `ResolveDatabaseId` takes the search result ids as a parameter.

## Findings

| source | as written | input that shows it | evidently intended | confidence | as-written member | corrected member |
|---|---|---|---|---|---|---|
| src/recipes_to_notes/i18n.py:6-15 | the docstring sits in the dictionary literal right before `"en"`, so Python joins the two literals into one key | `NOTES_LABELS["en"]` raises KeyError | English labels stored under `"en"` | high; not executed | `I18n.TableKeys` | `I18n.IntendedTableKeys` |
