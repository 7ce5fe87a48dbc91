/** The sequence in `main` up to and including extraction: credential check,
    identifier normalisation and check, the fetch, and the extraction of a
    truthy document. Environment lookup, console input and the network are
    parameters: `env` is the value of `MELI_APP_ID` (`None` when unset),
    `rawId` the line the user typed, `reply` what the GET would produce. */
module Orchestrator {
  import opened Wrappers
  import opened Json
  import opened Extractor
  import opened Identifier
  import opened Fetcher

  /** The in-source placeholder `APP_ID`, unset. */
  const AppId: Option<string> := None

  /** `os.getenv("MELI_APP_ID", APP_ID)`. */
  function Credential(env: Option<string>): (c: Option<string>)
    ensures Present(c) <==> env.Some? && env.value != ""
  {
    if env.Some? then env else AppId
  }

  /** Where one invocation ends. */
  datatype Outcome =
    | MissingAppId                        // no usable credential; the identifier is never read
    | InvalidFormat                       // the normalised identifier lacks the `MLB` prefix
    | NoItem(error: Option<FetchError>)   // the fetch failed, or returned a falsy document
    | Raised                              // the document's shape makes the source raise
    | Extracted(doc: Value, info: ExtractedInfo)

  /** The request sent, if any, and the outcome. */
  datatype Run = Run(sent: Option<Request>, outcome: Outcome)

  /** What happens once `item_data` is back: a falsy value is skipped, a
      non-dict has no `.get` for the title line, and a dict is extracted
      when its fields allow it. */
  function Finish(doc: Value): (o: Outcome)
    ensures o.Extracted? <==> Truthy(doc) && doc.JObj? && Extractable(doc)
    ensures o.Extracted? ==> o.doc == doc && Extract(doc) == Some(o.info)
    ensures o == NoItem(None) <==> !Truthy(doc)
    ensures o == Raised <==> Truthy(doc) && !(doc.JObj? && Extractable(doc))
  {
    if !Truthy(doc) then NoItem(None)
    else if doc.JObj? && Extractable(doc) then Extracted(doc, Extract(doc).value)
    else Raised
  }

  /** One run of `main`. */
  function Main(env: Option<string>, rawId: string, reply: Reply): (r: Run)
    ensures !Present(Credential(env)) ==> r == Run(None, MissingAppId)
    ensures Present(Credential(env)) && Validate(rawId).None? ==> r == Run(None, InvalidFormat)
    ensures r.sent.Some? <==> Present(Credential(env)) && Validate(rawId).Some?
    ensures r.sent.Some? ==> r.sent.value == ItemRequest(Normalize(rawId), Credential(env).value)
    ensures r.outcome.NoItem? && r.outcome.error.Some? ==>
              && r.sent.Some?
              && Classify(reply) == Failure(r.outcome.error.value)
              && !r.outcome.error.value.MissingItemId?
              && !r.outcome.error.value.MissingClientId?
    ensures r.outcome.Extracted? ==>
              Classify(reply) == Success(r.outcome.doc) && Truthy(r.outcome.doc) &&
              Extractable(r.outcome.doc) && Extract(r.outcome.doc) == Some(r.outcome.info)
    ensures r.sent.Some? && Classify(reply).Failure? ==>
              r.outcome == NoItem(Some(Classify(reply).error))
    ensures r.sent.Some? && Classify(reply).Success? ==>
              r.outcome == Finish(Classify(reply).value)
  {
    var clientId := Credential(env);
    if !Present(clientId) then Run(None, MissingAppId)
    else match Validate(rawId)
      case None => Run(None, InvalidFormat)
      case Some(id) =>
        var f := GetItemDetails(id, clientId, reply);
        match f.result
        case Failure(e) => Run(f.sent, NoItem(Some(e)))
        case Success(doc) => Run(f.sent, Finish(doc))
  }

  /** Without a credential `main` stops before prompting: neither the
      identifier nor the network has any say in the run. */
  lemma CredentialCheckedFirst(env: Option<string>, raw1: string, raw2: string, r1: Reply, r2: Reply)
    requires !Present(Credential(env))
    ensures Main(env, raw1, r1) == Main(env, raw2, r2)
    ensures Main(env, raw1, r1).sent.None?
  {
  }

  /** A rejected identifier never reaches the fetch: no request is sent and
      the reply is irrelevant. */
  lemma RejectedIdNeverFetched(env: Option<string>, rawId: string, r1: Reply, r2: Reply)
    requires Validate(rawId).None?
    ensures Main(env, rawId, r1) == Main(env, rawId, r2)
    ensures Main(env, rawId, r1).sent.None?
  {
  }

  /** Extraction cannot fail on a well-formed document: once the credential
      and identifier pass and the reply decodes to a non-empty dict whose
      `pictures` and `variations` entries carry their keys, the run ends
      with that document's photo URLs and variation ids. */
  lemma WellFormedDocumentIsExtracted(env: Option<string>, rawId: string, reply: Reply, m: map<string, Value>)
    requires Present(Credential(env)) && Validate(rawId).Some?
    requires Classify(reply) == Success(JObj(m))
    requires m != map[] && Extractable(JObj(m))
    ensures Main(env, rawId, reply).outcome == Extracted(JObj(m), Extract(JObj(m)).value)
  {
  }

  /** A fetch that fails after the request went out ends the run with that
      classified error: it is neither lost nor relabelled. */
  lemma FetchFailurePropagates(env: Option<string>, rawId: string, reply: Reply)
    requires Present(Credential(env)) && Validate(rawId).Some?
    requires Classify(reply).Failure?
    ensures Main(env, rawId, reply) ==
              Run(Some(ItemRequest(Normalize(rawId), Credential(env).value)),
                  NoItem(Some(Classify(reply).error)))
  {
  }

  /** A fetch that returns a document ends the run with what `Finish`
      makes of that document, after exactly the item request. */
  lemma SuccessfulFetchFinishes(env: Option<string>, rawId: string, reply: Reply)
    requires Present(Credential(env)) && Validate(rawId).Some?
    requires Classify(reply).Success?
    ensures Main(env, rawId, reply) ==
              Run(Some(ItemRequest(Normalize(rawId), Credential(env).value)),
                  Finish(Classify(reply).value))
  {
  }

  /** The one-picture document of the pipeline example. */
  function ExampleDoc(): Value {
    JObj(map[IdKey := JStr("MLB123"),
             PicturesKey := JArr([JObj(map[UrlKey := JStr("https://x/1.jpg")])]),
             VariationsKey := JArr([])])
  }

  /** The whole pipeline on one example: credential `"42"`, typed
      identifier `" mlb123 "`, and a 200 reply holding one picture. */
  lemma PipelineExample()
    ensures
      var r := Main(Some("42"), " mlb123 ", Response(200, "{...}", Some(ExampleDoc())));
      && r.sent == Some(Request("https://api.mercadolibre.com/items/MLB123?client_id=42",
                                map["User-Agent" := "MeliItemFetcherApp/1.0"]))
      && r.outcome == Extracted(ExampleDoc(), ExtractedInfo([JStr("https://x/1.jpg")], []))
  {
    var reply := Response(200, "{...}", Some(ExampleDoc()));
    AcceptsPaddedLowerCase();
    assert Present(Credential(Some("42")));
    assert Classify(reply) == Success(ExampleDoc());
    SuccessfulFetchFinishes(Some("42"), " mlb123 ", reply);
    ExampleRequest();
    ExampleFinish();
  }

  /** The request of the pipeline example, written out. */
  lemma ExampleRequest()
    ensures ItemRequest("MLB123", "42") ==
              Request("https://api.mercadolibre.com/items/MLB123?client_id=42",
                      map["User-Agent" := "MeliItemFetcherApp/1.0"])
  {
    assert ItemUrl("MLB123", "42") == "https://api.mercadolibre.com/items/MLB123?client_id=42";
  }

  /** The extraction of the pipeline example's document. */
  lemma ExampleFinish()
    ensures Finish(ExampleDoc()) == Extracted(ExampleDoc(), ExtractedInfo([JStr("https://x/1.jpg")], []))
  {
    OnePictureNoVariations();
  }
}
