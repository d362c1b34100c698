/** The orchestrator: scrape a URL, extract a recipe, enrich it with the URL and
    its domain, and hand it to the notes app, strictly in that order. */
module Runner {
  import opened Wrappers
  import opened Schema
  import opened SchemaExtraction
  import PyStr

  /** A Python instance attribute: never assigned, or holding a value. */
  datatype Slot<T> = Unset | Assigned(value: T)

  /** What a step of a run raises. */
  datatype RunError =
    | UrlNotSet                                // AttributeError: `_url` was never assigned
    | DocumentsNotSet                          // AttributeError: `documents` was never assigned
    | SchemaNotSet                             // AttributeError: `extracted_schema` was never assigned
    | NoRecipe                                 // AttributeError: `None` has no `model_dump`
    | ExtractionFailed(error: ExtractionError) // raised by the extraction routine
    | DomainIndexError                         // IndexError: the URL has fewer than two '/'

  /** A call from the orchestrator to one of its collaborators. */
  datatype Event =
    | ScraperCalled(url: string)
    | ModelCalled(prompt: Prompt)
    | NotesAppCalled(recipe: EnrichedRecipe)

  /** The scraper, as an oracle from a URL to the documents it returns (possibly none). */
  type Scraper = string -> seq<Document>

  /** `url.split('/')[2]`, or `None` where that indexing raises. */
  function Domain(url: string): (d: Option<string>)
    ensures d.Some? <==> PyStr.Count(url, '/') >= 2
    ensures d.Some? ==> '/' !in d.value
  {
    PyStr.SplitCount(url, '/');
    PyStr.SplitPiecesFree(url, '/');
    var parts := PyStr.Split(url, '/');
    if |parts| >= 3 then Some(parts[2]) else None
  }

  /** Splitting `scheme//rest` gives the scheme, an empty piece, then the pieces of `rest`. */
  lemma SplitAfterScheme(scheme: string, rest: string)
    requires '/' !in scheme
    ensures PyStr.Split(scheme + "//" + rest, '/') == [scheme, ""] + PyStr.Split(rest, '/')
  {
    calc {
      PyStr.Split(scheme + "//" + rest, '/');
      { assert scheme + "//" + rest == scheme + ['/'] + (['/'] + rest);
        PyStr.SplitAtSeparator(scheme, ['/'] + rest, '/'); }
      PyStr.Split(scheme, '/') + PyStr.Split(['/'] + rest, '/');
      { PyStr.SplitFree(scheme, '/'); PyStr.SplitCons('/', rest, '/'); }
      [scheme] + ([""] + PyStr.Split(rest, '/'));
      [scheme, ""] + PyStr.Split(rest, '/');
    }
  }

  /** The first piece of `host` followed by nothing or by '/…' is `host`. */
  lemma SplitHostFirst(host: string, path: string)
    requires '/' !in host
    requires path == [] || path[0] == '/'
    ensures PyStr.Split(host + path, '/')[0] == host
  {
    PyStr.SplitFree(host, '/');
    if path == [] {
      assert host + path == host;
    } else {
      assert host + path == host + ['/'] + path[1..];
      PyStr.SplitAtSeparator(host, path[1..], '/');
    }
  }

  /** The domain is the third '/'-separated piece of any URL: the text between the
      second '/' and the next one (or the end). */
  lemma DomainIsThirdPiece(a: string, b: string, host: string, path: string)
    requires '/' !in a && '/' !in b && '/' !in host
    requires path == [] || path[0] == '/'
    ensures Domain(a + "/" + b + "/" + host + path) == Some(host)
  {
    calc {
      PyStr.Split(a + "/" + b + "/" + host + path, '/');
      { assert a + "/" + b + "/" + host + path == a + ['/'] + (b + ['/'] + (host + path));
        PyStr.SplitAtSeparator(a, b + ['/'] + (host + path), '/'); }
      PyStr.Split(a, '/') + PyStr.Split(b + ['/'] + (host + path), '/');
      { PyStr.SplitAtSeparator(b, host + path, '/'); }
      PyStr.Split(a, '/') + (PyStr.Split(b, '/') + PyStr.Split(host + path, '/'));
      { PyStr.SplitFree(a, '/'); PyStr.SplitFree(b, '/'); }
      [a, b] + PyStr.Split(host + path, '/');
    }
    SplitHostFirst(host, path);
  }

  /** The domain is what follows `scheme://` up to the next '/', kept raw (a port or
      user information stays in it). */
  lemma DomainOfUrl(scheme: string, host: string, path: string)
    requires '/' !in scheme && '/' !in host
    requires path == [] || path[0] == '/'
    ensures Domain(scheme + "//" + host + path) == Some(host)
  {
    assert scheme + "//" + host + path == scheme + "//" + (host + path);
    SplitAfterScheme(scheme, host + path);
    SplitHostFirst(host, path);
  }

  /** The worked example: the domain of a cooking page. */
  lemma CookingExampleDomain()
    ensures Domain("https://cooking.example/pasta") == Some("cooking.example")
  {
    assert "https://cooking.example/pasta" == "https:" + "//" + "cooking.example" + "/pasta";
    DomainOfUrl("https:", "cooking.example", "/pasta");
  }

  /** A URL with fewer than two '/' has no domain. */
  lemma ShortUrlHasNoDomain(url: string)
    requires PyStr.Count(url, '/') < 2
    ensures Domain(url).None?
  {
  }

  /** The enrichment done by `create_note`: every recipe field, the URL, and its domain. */
  function Enriched(r: Recipe, url: string): (e: Result<EnrichedRecipe, RunError>)
    ensures e.Success? <==> Domain(url).Some?
    ensures e.Failure? ==> e.error == DomainIndexError
    ensures e.Success? ==> e.value.AsRecipe() == r && e.value.url == url && e.value.domain == Domain(url).value
  {
    match Domain(url)
    case Some(domain) => Success(Enrich(r, url, domain))
    case None => Failure(DomainIndexError)
  }

  /** The model invocations, as events. */
  function ModelEvents(prompts: seq<Prompt>): (events: seq<Event>)
    ensures |events| == |prompts|
    ensures forall i :: 0 <= i < |events| ==> events[i] == ModelCalled(prompts[i])
  {
    if prompts == [] then [] else [ModelCalled(prompts[0])] + ModelEvents(prompts[1..])
  }

  /** What `run()` does once a URL is set: the collaborator calls it makes, in order,
      and whether it returns or raises. */
  datatype PipelineRun = PipelineRun(events: seq<Event>, outcome: Outcome<RunError>)

  /** `run()` with `_url` set to `url`, as a function of the collaborators. */
  function Pipeline(scraper: Scraper, model: ChatModel, url: string): (run: PipelineRun)
    ensures 1 <= |run.events| <= 3 && run.events[0] == ScraperCalled(url)
  {
    var x := SchemaExtraction.ExtractSchema(model, scraper(url));
    var events := [ScraperCalled(url)] + ModelEvents(x.modelCalls);
    match x.result
    case Failure(error) => PipelineRun(events, Fail(ExtractionFailed(error)))
    case Success(None) => PipelineRun(events, Fail(NoRecipe))
    case Success(Some(r)) =>
      match Enriched(r, url)
      case Failure(error) => PipelineRun(events, Fail(error))
      case Success(e) => PipelineRun(events + [NotesAppCalled(e)], Pass)
  }

  predicate CallsNotesApp(events: seq<Event>)
  {
    exists i :: 0 <= i < |events| && events[i].NotesAppCalled?
  }

  /** The notes app is reached exactly when the run succeeds, and then the calls are,
      in order: the scraper with the URL, the model with the one document's text,
      and the notes app once, with the model's recipe enriched by URL and domain. */
  lemma PipelineOrder(scraper: Scraper, model: ChatModel, url: string)
    ensures var p := Pipeline(scraper, model, url);
      CallsNotesApp(p.events) <==> p.outcome.Pass?
    ensures var p := Pipeline(scraper, model, url);
      p.outcome.Pass? ==>
        |scraper(url)| == 1 &&
        var prompt := ExtractionPrompt(scraper(url)[0].pageContent);
        model(prompt).Replied? &&
        Domain(url).Some? &&
        p.events == [ScraperCalled(url), ModelCalled(prompt),
                     NotesAppCalled(Enrich(model(prompt).recipe, url, Domain(url).value))]
    ensures |scraper(url)| == 1 && OriginalUrlKey in scraper(url)[0].metadata &&
            model(ExtractionPrompt(scraper(url)[0].pageContent)).Replied? && Domain(url).Some? ==>
              Pipeline(scraper, model, url).outcome.Pass?
  {
    var p := Pipeline(scraper, model, url);
    var x := SchemaExtraction.ExtractSchema(model, scraper(url));
    var events := [ScraperCalled(url)] + ModelEvents(x.modelCalls);
    assert |events| <= 2;
    assert !CallsNotesApp(events) by {
      forall i | 0 <= i < |events| ensures !events[i].NotesAppCalled? {
        if i > 0 { assert events[i] == ModelCalled(x.modelCalls[i - 1]); }
      }
    }
    if p.outcome.Pass? {
      assert p.events[|p.events| - 1].NotesAppCalled?;
      assert events == [ScraperCalled(url), ModelCalled(x.modelCalls[0])];
    } else {
      assert p.events == events;
    }
  }

  /** An empty scrape fails the run in extraction; the model and the notes app are
      never called. */
  lemma EmptyScrapeStopsRun(scraper: Scraper, model: ChatModel, url: string)
    requires scraper(url) == []
    ensures Pipeline(scraper, model, url)
         == PipelineRun([ScraperCalled(url)], Fail(ExtractionFailed(ValueError(NoDocumentsMessage))))
  {
    assert ModelEvents([]) == [];
  }

  /** When the model raises, extraction gives `None` and the run fails before the
      notes app is called. */
  lemma AbsentRecipeStopsRun(scraper: Scraper, model: ChatModel, url: string)
    requires |scraper(url)| == 1 && OriginalUrlKey in scraper(url)[0].metadata
    requires model(ExtractionPrompt(scraper(url)[0].pageContent)).Raised?
    ensures Pipeline(scraper, model, url).outcome == Fail(NoRecipe)
    ensures !CallsNotesApp(Pipeline(scraper, model, url).events)
  {
    PipelineOrder(scraper, model, url);
  }

  /** A URL with fewer than two '/' fails the run before the notes app is called. */
  lemma ShortUrlStopsRun(scraper: Scraper, model: ChatModel, url: string)
    requires PyStr.Count(url, '/') < 2
    ensures Pipeline(scraper, model, url).outcome.Fail?
    ensures !CallsNotesApp(Pipeline(scraper, model, url).events)
  {
    PipelineOrder(scraper, model, url);
  }

  /** The worked example: one scraped document, a model that extracts a name, steps
      and a time, and the enriched recipe the notes app receives. */
  lemma PastaScenario(scraper: Scraper, model: ChatModel)
    requires scraper("https://cooking.example/pasta")
          == [Document("Pasta: boil water, add pasta, 10 minutes.",
                       map[OriginalUrlKey := "https://cooking.example/pasta"])]
    requires model(ExtractionPrompt("Pasta: boil water, add pasta, 10 minutes."))
          == Replied(Recipe(name := Some("Pasta"), instructions := Some(["boil water", "add pasta"]),
                            cookingTimeTemperature := Some("10 minutes")))
    ensures Pipeline(scraper, model, "https://cooking.example/pasta")
         == PipelineRun(
              [ScraperCalled("https://cooking.example/pasta"),
               ModelCalled(ExtractionPrompt("Pasta: boil water, add pasta, 10 minutes.")),
               NotesAppCalled(EnrichedRecipe(name := Some("Pasta"), instructions := Some(["boil water", "add pasta"]),
                                             cookingTimeTemperature := Some("10 minutes"),
                                             url := "https://cooking.example/pasta", domain := "cooking.example"))],
              Pass)
  {
    CookingExampleDomain();
    PipelineOrder(scraper, model, "https://cooking.example/pasta");
  }

  /** `RecipeToNote`: the orchestrator object. The model handle is fixed at
      construction and shared by every later run. `events` records the calls the
      object makes to its collaborators. */
  class RecipeToNote {
    const scraper: Scraper
    const model: ChatModel
    var url: Slot<string>
    var documents: Slot<seq<Document>>
    var extractedSchema: Slot<Option<Recipe>>
    var events: seq<Event>

    /** Binds the collaborators; `model` is the handle the provider's `get_model()`
        returned. No URL is set. */
    constructor(scraper: Scraper, model: ChatModel)
      ensures this.scraper == scraper && this.model == model
      ensures url == Unset && documents == Unset && extractedSchema == Unset
      ensures events == []
    {
      this.scraper := scraper;
      this.model := model;
      url := Unset;
      documents := Unset;
      extractedSchema := Unset;
      events := [];
    }

    /** `url(v)`: sets the target of the next run, replacing any earlier one. */
    method SetUrl(v: string)
      modifies this`url
      ensures url == Assigned(v)
    {
      url := Assigned(v);
    }

    /** `scrape()`: stores what the scraper returns for the current URL. */
    method Scrape() returns (outcome: Outcome<RunError>)
      modifies this`documents, this`events
      ensures url.Unset? ==> outcome == Fail(UrlNotSet) && documents == old(documents) && events == old(events)
      ensures url.Assigned? ==>
        outcome == Pass && documents == Assigned(scraper(url.value)) &&
        events == old(events) + [ScraperCalled(url.value)]
    {
      if url.Unset? {
        return Fail(UrlNotSet);
      }
      events := events + [ScraperCalled(url.value)];
      documents := Assigned(scraper(url.value));
      outcome := Pass;
    }

    /** `extract_schema()`: runs the extraction routine on the stored documents. */
    method ExtractSchema() returns (outcome: Outcome<RunError>)
      modifies this`extractedSchema, this`events
      ensures documents.Unset? ==>
        outcome == Fail(DocumentsNotSet) && extractedSchema == old(extractedSchema) && events == old(events)
      ensures documents.Assigned? ==>
        var x := SchemaExtraction.ExtractSchema(model, documents.value);
        events == old(events) + ModelEvents(x.modelCalls) &&
        (x.result.Failure? ==>
          outcome == Fail(ExtractionFailed(x.result.error)) && extractedSchema == old(extractedSchema)) &&
        (x.result.Success? ==> outcome == Pass && extractedSchema == Assigned(x.result.value))
    {
      if documents.Unset? {
        return Fail(DocumentsNotSet);
      }
      var x := SchemaExtraction.ExtractSchema(model, documents.value);
      events := events + ModelEvents(x.modelCalls);
      match x.result
      case Failure(error) =>
        outcome := Fail(ExtractionFailed(error));
      case Success(recipe) =>
        extractedSchema := Assigned(recipe);
        outcome := Pass;
    }

    /** `create_note()`: enriches the extracted recipe and hands it to the notes app.
        The recipe is read first, then the URL, then its domain. */
    method CreateNote() returns (outcome: Outcome<RunError>)
      modifies this`events
      ensures extractedSchema.Unset? ==> outcome == Fail(SchemaNotSet)
      ensures extractedSchema == Assigned(None) ==> outcome == Fail(NoRecipe)
      ensures extractedSchema.Assigned? && extractedSchema.value.Some? && url.Unset? ==> outcome == Fail(UrlNotSet)
      ensures extractedSchema.Assigned? && extractedSchema.value.Some? && url.Assigned? ==>
        match Enriched(extractedSchema.value.value, url.value)
        case Failure(error) => outcome == Fail(error)
        case Success(e) => outcome == Pass && events == old(events) + [NotesAppCalled(e)]
      ensures outcome.Fail? ==> events == old(events)
    {
      if extractedSchema.Unset? {
        return Fail(SchemaNotSet);
      }
      if extractedSchema.value.None? {
        return Fail(NoRecipe);
      }
      if url.Unset? {
        return Fail(UrlNotSet);
      }
      match Enriched(extractedSchema.value.value, url.value)
      case Failure(error) =>
        outcome := Fail(error);
      case Success(e) =>
        events := events + [NotesAppCalled(e)];
        outcome := Pass;
    }

    /** `run()`: scrape, extract, create the note; the first failure ends the run. */
    method Run() returns (outcome: Outcome<RunError>)
      modifies this`documents, this`extractedSchema, this`events
      ensures url.Unset? ==>
        outcome == Fail(UrlNotSet) && events == old(events) &&
        documents == old(documents) && extractedSchema == old(extractedSchema)
      ensures url.Assigned? ==>
        var p := Pipeline(scraper, model, url.value);
        var x := SchemaExtraction.ExtractSchema(model, scraper(url.value));
        outcome == p.outcome && events == old(events) + p.events &&
        documents == Assigned(scraper(url.value)) &&
        extractedSchema == (if x.result.Success? then Assigned(x.result.value) else old(extractedSchema))
    {
      outcome := Scrape();
      if outcome.Fail? {
        return;
      }
      outcome := ExtractSchema();
      if outcome.Fail? {
        return;
      }
      outcome := CreateNote();
    }
  }
}
