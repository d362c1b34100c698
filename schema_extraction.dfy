/** The extraction routine: one scraped document in, a structured recipe (or
    nothing) out, by way of a language model asked for structured output. */
module SchemaExtraction {
  import opened Wrappers
  import opened Schema

  /** A scraped document: its text and its metadata (which should carry the
      page's original URL under `OriginalUrlKey`). */
  datatype Document = Document(pageContent: string, metadata: map<string, string>)

  const OriginalUrlKey: string := "original_url"

  datatype Role = System | User

  /** The content of a message: the fixed system instruction, or a text. */
  datatype Content = SystemInstruction | Text(text: string)

  /** One message of a chat prompt. */
  datatype Message = Message(role: Role, content: Content)

  type Prompt = seq<Message>

  /** What one invocation of the language model gives: a recipe conforming to the
      `Recipe` schema, or an exception (a model, network or validation error). */
  datatype ModelReply = Replied(recipe: Recipe) | Raised

  /** A language model asked for output in the `Recipe` schema. It is an oracle:
      any function from prompts to replies. */
  type ChatModel = Prompt -> ModelReply

  /** The error raised out of the routine. */
  datatype ExtractionError = ValueError(message: string) | KeyError(key: string)

  const NoDocumentsMessage: string := "No documents provided"
  const MultipleDocumentsMessage: string := "Multiple documents provided, expected exactly one"

  /** One run of the routine: what it returned or raised, and the prompts the model
      was invoked with, in order. */
  datatype Extraction = Extraction(result: Result<Option<Recipe>, ExtractionError>, modelCalls: seq<Prompt>)

  /** The fixed system instruction: extract literally, never guess. */
  const SystemPrompt: string :=
      "\n"
    + "You are a precise recipe extraction assistant. Your task is to"
    + " extract cooking recipe information from scraped website"
    + " content and return it in the specified structured format.\n"
    + "\n"
    + "CRITICAL EXTRACTION RULES:\n"
    + "1. IGNORE ALL BOILERPLATE: Skip navigation menus, headers,"
    + " footers, advertisements, social media links, related articles,"
    + " comments, author bios, and any non-recipe content.\n"
    + "\n"
    + "2. EXTRACT LITERALLY: Copy recipe information exactly as"
    + " written. Do not:\n"
    + "   - Rephrase or rewrite instructions\n"
    + "   - Convert measurements or units\n"
    + "   - Standardize formatting\n"
    + "   - Correct grammar or spelling\n"
    + "   - Add missing information\n"
    + "\n"
    + "3. NO GUESSING: If information is not explicitly provided in"
    + " the content:\n"
    + "   - Leave the field as null/empty\n"
    + "   - Do not infer or estimate values\n"
    + "   - Do not use placeholder text\n"
    + "   - Do not combine partial information to create complete"
    + " entries\n"
    + "\n"
    + "4. FOCUS ON RECIPE CONTENT ONLY: Look for:\n"
    + "   - Recipe title/name (usually in headings)\n"
    + "   - Ingredient lists (with exact quantities and descriptions)\n"
    + "   - Step-by-step cooking instructions\n"
    + "   - Cooking times, temperatures\n"
    + "   - Suggestions and/or hints\n"
    + "   - Recipe images (actual URLs, not placeholders)\n"
    + "\n"
    + "5. PRESERVE ORIGINAL FORMAT: \n"
    + "   - Keep ingredients as separate list items exactly as listed\n"
    + "   - Maintain instruction steps as separate items\n"
    + "   - Preserve original wording and punctuation\n"
    + "   - Include quantities, measurements, and descriptive details"
    + " as written\n"
    + "\n"
    + "6. QUALITY CHECKS:\n"
    + "   - Ensure extracted content is actually recipe-related\n"
    + "   - Verify ingredient lists contain real ingredients, not"
    + " navigation items\n"
    + "   - Confirm instructions are cooking steps, not website"
    + " instructions\n"
    + "   - Only include image URLs that are actual recipe photos\n"
    + "\n"
    + "Extract only what is clearly present and recipe-specific. When"
    + " in doubt, omit the information rather than guess.\n"

  /** The text a message content stands for. */
  function ContentText(content: Content): string
  {
    match content
    case SystemInstruction => SystemPrompt
    case Text(text) => text
  }

  /** Read as text, the prompt is `SYSTEM_PROMPT` followed by the document. */
  lemma PromptText(document: string)
    ensures ContentText(ExtractionPrompt(document)[0].content) == SystemPrompt
    ensures ContentText(ExtractionPrompt(document)[1].content) == document
  {
  }

  /** The two-message prompt: the system instruction, then the document text. */
  function ExtractionPrompt(document: string): (prompt: Prompt)
    ensures |prompt| == 2
    ensures prompt[0] == Message(System, SystemInstruction)
    ensures prompt[1].role == User && prompt[1].content == Text(document)
  {
    [Message(System, SystemInstruction), Message(User, Text(document))]
  }

  /** `extract_schema(model, documents)`. The document count is checked first (none,
      then more than one). The metadata lookup for the log line comes before the
      model call; when it fails, the handler repeats it, so the KeyError escapes
      without the model having been invoked. A model exception becomes `None`. */
  function ExtractSchema(model: ChatModel, documents: seq<Document>): (x: Extraction)
    ensures |documents| == 0 ==> x == Extraction(Failure(ValueError(NoDocumentsMessage)), [])
    ensures |documents| > 1 ==> x == Extraction(Failure(ValueError(MultipleDocumentsMessage)), [])
    ensures x.result.Success? <==> |documents| == 1 && OriginalUrlKey in documents[0].metadata
    ensures |documents| == 1 && OriginalUrlKey !in documents[0].metadata ==>
              x == Extraction(Failure(KeyError(OriginalUrlKey)), [])
    ensures x.result.Success? ==>
              x.modelCalls == [[Message(System, SystemInstruction), Message(User, Text(documents[0].pageContent))]]
    ensures x.result.Failure? ==> x.modelCalls == []
    ensures x.result == Success(None) ==> model(x.modelCalls[0]).Raised?
    ensures forall r :: x.result == Success(Some(r)) ==> model(x.modelCalls[0]) == Replied(r)
  {
    if |documents| == 0 then Extraction(Failure(ValueError(NoDocumentsMessage)), [])
    else if |documents| > 1 then Extraction(Failure(ValueError(MultipleDocumentsMessage)), [])
    else if OriginalUrlKey !in documents[0].metadata then Extraction(Failure(KeyError(OriginalUrlKey)), [])
    else
      var prompt := ExtractionPrompt(documents[0].pageContent);
      match model(prompt)
      case Replied(recipe) => Extraction(Success(Some(recipe)), [prompt])
      case Raised => Extraction(Success(None), [prompt])
  }

  /** A rejected call never reaches the model: its outcome is the same whatever
      the model would have answered. */
  lemma RejectionIgnoresModel(m1: ChatModel, m2: ChatModel, documents: seq<Document>)
    requires |documents| != 1 || OriginalUrlKey !in documents[0].metadata
    ensures ExtractSchema(m1, documents) == ExtractSchema(m2, documents)
    ensures ExtractSchema(m1, documents).result.Failure?
  {
  }

  /** The only part of the document the model sees is its text: two documents with
      the same text (and a source URL) are extracted alike. */
  lemma OnlyPageContentReachesModel(model: ChatModel, d1: Document, d2: Document)
    requires d1.pageContent == d2.pageContent
    requires OriginalUrlKey in d1.metadata && OriginalUrlKey in d2.metadata
    ensures ExtractSchema(model, [d1]) == ExtractSchema(model, [d2])
  {
  }

  /** A model that raises is never propagated: the routine returns `None`. */
  lemma ModelFailureGivesNone(model: ChatModel, d: Document)
    requires OriginalUrlKey in d.metadata
    requires model(ExtractionPrompt(d.pageContent)).Raised?
    ensures ExtractSchema(model, [d]) == Extraction(Success(None), [ExtractionPrompt(d.pageContent)])
  {
  }
}
