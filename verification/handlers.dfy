/**
 The four routes: `select_field` writes the preference store; `get_news`,
 `summarize_news` and `voice_summary` read it and run the same pipeline
 (resolve the preference, fetch headlines, then an operation-specific step).
 The headlines service, the summarisation model, the speech engine and the
 fresh identifier are parameters; each handler reports its response together
 with the outbound calls it made, in order.
 */
module Handlers {
  import opened Wrappers
  import opened Categories
  import opened Preferences
  import opened Upstream
  import opened Summaries

  const DefaultPageSize := 5
  const MinPageSize := 1
  const MaxPageSize := 10
  const SummaryPageSize := 3
  const VoicePageSize := 1

  const AudioDir := "audio"
  const AudioSuffix := ".mp3"
  const AudioUrlPrefix := "http://127.0.0.1:8000/audio/"
  const SpeechLanguage := "en"

  /** An outbound call a handler makes. */
  datatype Call =
    | Fetch(query: Query)
    | Summarize(request: SummaryRequest)
    | Synthesize(text: string, lang: string, path: string)

  /** The JSON body (or status) a route answers with. */
  datatype Response =
    | Selected(userId: UserId, field: Category)       // {"status": "success", ...}
    | Rejected                                         // request validation failed (422)
    | NoFieldSelected                                  // {"error": "no field selected for this user"}
    | News(field: Category, articles: seq<Article>)
    | Digest(field: Category, summaries: seq<string>)
    | NoArticlesFound
    | NoContentToConvert
    | Audio(field: Category, audioFile: string, audioUrl: string)
    | ServerError(fault: Fault)                        // an uncaught exception (500)

  datatype Outcome = Outcome(response: Response, calls: seq<Call>)

  // ----- select_field -----

  /** `POST /select-field`: validate the field name, then store it. */
  function SelectField(store: Store, u: UserId, fieldName: string): (r: (Store, Response))
    ensures Parse(fieldName).None? ==> r == (store, Rejected)
    ensures forall c :: fieldName == Value(c) ==>
      r.1 == Selected(u, c) && Lookup(r.0, u) == Some(c)
      && forall v :: v != u ==> Lookup(r.0, v) == Lookup(store, v)
  {
    match Parse(fieldName)
    case None => (store, Rejected)
    case Some(f) => (Put(store, u, f), Selected(u, f))
  }

  // ----- shared pipeline -----

  /** The page-size rule of `get_news`: absent means the default, and a value
      outside [1, 10] is rejected before the handler runs. */
  function PageSize(requested: Option<int>): (r: Option<int>)
    ensures r.Some? <==> requested.None? || MinPageSize <= requested.value <= MaxPageSize
    ensures r.Some? ==> MinPageSize <= r.value <= MaxPageSize
    ensures requested.None? ==> r == Some(DefaultPageSize)
    ensures requested.Some? && r.Some? ==> r.value == requested.value
  {
    match requested
    case None => Some(DefaultPageSize)
    case Some(n) => if MinPageSize <= n <= MaxPageSize then Some(n) else None
  }

  /** Where a request stands after the shared first steps. */
  datatype Stage =
    | Exit(outcome: Outcome)
    | Fetched(field: Category, query: Query, payload: Payload)

  /** Resolve the user's preference, then query the headlines service. */
  function Begin(store: Store, u: UserId, pageSize: int, fetch: Query -> Fetched): (s: Stage)
    ensures u !in store ==> s == Exit(Outcome(NoFieldSelected, []))
    ensures u in store ==> (s.Exit? <==> fetch(HeadlinesQuery(store[u], pageSize)) == FetchFailed)
    ensures u in store && s.Exit? ==>
      s.outcome == Outcome(ServerError(FetchError), [Fetch(HeadlinesQuery(store[u], pageSize))])
    ensures s.Fetched? ==>
      u in store && s.field == store[u] && s.query == HeadlinesQuery(store[u], pageSize)
      && fetch(s.query) == Decoded(s.payload)
  {
    match Lookup(store, u)
    case None => Exit(Outcome(NoFieldSelected, []))
    case Some(field) =>
      var q := HeadlinesQuery(field, pageSize);
      match fetch(q)
      case FetchFailed => Exit(Outcome(ServerError(FetchError), [Fetch(q)]))
      case Decoded(p) => Fetched(field, q, p)
  }

  // ----- get_news -----

  /** `GET /get-news/{user_id}?page_size=N`. */
  function GetNews(store: Store, u: UserId, pageSize: Option<int>, fetch: Query -> Fetched): (o: Outcome)
    ensures PageSize(pageSize).None? ==> o == Outcome(Rejected, [])
    ensures PageSize(pageSize).Some? && u !in store ==> o == Outcome(NoFieldSelected, [])
    ensures PageSize(pageSize).Some? && u in store ==>
      o.calls == [Fetch(HeadlinesQuery(store[u], PageSize(pageSize).value))]
    ensures PageSize(pageSize).Some? && u in store ==>
      var q := HeadlinesQuery(store[u], PageSize(pageSize).value);
      && (fetch(q) == FetchFailed ==> o.response == ServerError(FetchError))
      && (fetch(q).Decoded? && Normalise(fetch(q).payload.articles).Ok? ==>
            o.response == News(store[u], Normalise(fetch(q).payload.articles).value))
      && (fetch(q).Decoded? && Normalise(fetch(q).payload.articles).Err? ==>
            o.response == ServerError(Normalise(fetch(q).payload.articles).error))
    ensures o.response.News? ==>
      PageSize(pageSize).Some? && u in store && o.response.field == store[u]
      && var q := HeadlinesQuery(store[u], PageSize(pageSize).value);
         fetch(q).Decoded? && Normalise(fetch(q).payload.articles) == Ok(o.response.articles)
  {
    match PageSize(pageSize)
    case None => Outcome(Rejected, [])
    case Some(n) =>
      match Begin(store, u, n, fetch)
      case Exit(o) => o
      case Fetched(field, q, p) =>
        match Normalise(p.articles)
        case Err(e) => Outcome(ServerError(e), [Fetch(q)])
        case Ok(articles) => Outcome(News(field, articles), [Fetch(q)])
  }

  // ----- summarize_news -----

  /** The model calls of a batch, as outbound calls. */
  function SummarizeCalls(requests: seq<SummaryRequest>): (cs: seq<Call>)
    ensures |cs| == |requests|
    ensures forall i :: 0 <= i < |cs| ==> cs[i] == Summarize(requests[i])
  {
    seq(|requests|, i requires 0 <= i < |requests| => Summarize(requests[i]))
  }

  /** `GET /summarize-news/{user_id}`. */
  function SummarizeNews(store: Store, u: UserId, fetch: Query -> Fetched, summarizer: Summarizer): (o: Outcome)
    ensures u !in store ==> o == Outcome(NoFieldSelected, [])
    ensures u in store ==> |o.calls| >= 1 && o.calls[0] == Fetch(HeadlinesQuery(store[u], SummaryPageSize))
    ensures forall i :: 1 <= i < |o.calls| ==>
      o.calls[i].Summarize? && o.calls[i].request == RequestFor(o.calls[i].request.text)
      && !IsConcise(o.calls[i].request.text)
    ensures u in store ==>
      var q := HeadlinesQuery(store[u], SummaryPageSize);
      && (fetch(q) == FetchFailed ==> o == Outcome(ServerError(FetchError), [Fetch(q)]))
      && (fetch(q).Decoded? && ArticlesOrEmpty(fetch(q).payload.articles).None? ==>
            o == Outcome(ServerError(NoneNotIterable), [Fetch(q)]))
      && (fetch(q).Decoded? && ArticlesOrEmpty(fetch(q).payload.articles).Some? ==>
            var xs := ArticlesOrEmpty(fetch(q).payload.articles).value;
            && o.calls == [Fetch(q)] + SummarizeCalls(LongRequests(Descriptions(xs)))
            && (FirstUndescribed(xs) < |xs| ==> o.response == ServerError(NoneHasNoSplit))
            && (FirstUndescribed(xs) == |xs| ==> o.response.Digest?))
    ensures o.response.Digest? ==>
      u in store && o.response.field == store[u]
      && var p := fetch(HeadlinesQuery(store[u], SummaryPageSize));
         p.Decoded? && ArticlesOrEmpty(p.payload.articles).Some?
         && var xs := ArticlesOrEmpty(p.payload.articles).value;
            FirstUndescribed(xs) == |xs| && |o.response.summaries| == |xs|
            && forall i :: 0 <= i < |xs| ==>
                 o.response.summaries[i] == Condense(Get(xs[i].description).value, summarizer)
  {
    match Begin(store, u, SummaryPageSize, fetch)
    case Exit(o) => o
    case Fetched(field, q, p) =>
      match ArticlesOrEmpty(p.articles)
      case None => Outcome(ServerError(NoneNotIterable), [Fetch(q)])
      case Some(xs) =>
        var b := SummarizeAll(xs, summarizer);
        var calls := [Fetch(q)] + SummarizeCalls(b.requests);
        match b.fault
        case Some(e) => Outcome(ServerError(e), calls)
        case None => Outcome(Digest(field, b.summaries), calls)
  }

  // ----- voice_summary -----

  /** The name of the audio file for a fresh identifier: `f"{uuid}.mp3"`. */
  function AudioFileName(id: string): string {
    id + AudioSuffix
  }

  /** `os.path.join("audio", filename)`. */
  function AudioPath(file: string): string {
    AudioDir + "/" + file
  }

  /** The published URL of an audio file. */
  function AudioUrl(file: string): string {
    AudioUrlPrefix + file
  }

  /** The text `voice_summary` would speak: the first article's description,
      when there is a first article and its description is a non-empty string. */
  function SpeakableText(l: Listing): Option<string> {
    match ArticlesOrEmpty(l)
    case None => None
    case Some(xs) =>
      if xs == [] then None
      else match Get(xs[0].description)
        case None => None
        case Some(t) => if t == [] then None else Some(t)
  }

  /** `GET /voice-summary/{user_id}`; `id` stands for `uuid.uuid4()`. */
  function VoiceSummary(store: Store, u: UserId, fetch: Query -> Fetched, id: string): (o: Outcome)
    ensures u !in store ==> o == Outcome(NoFieldSelected, [])
    ensures u in store ==> |o.calls| >= 1 && o.calls[0] == Fetch(HeadlinesQuery(store[u], VoicePageSize))
    ensures o.response == NoFieldSelected <==> u !in store
    ensures u in store && fetch(HeadlinesQuery(store[u], VoicePageSize)) == FetchFailed ==>
      o == Outcome(ServerError(FetchError), [Fetch(HeadlinesQuery(store[u], VoicePageSize))])
    ensures o.response == NoArticlesFound <==>
      u in store && var p := fetch(HeadlinesQuery(store[u], VoicePageSize));
      p.Decoded? && (ArticlesOrEmpty(p.payload.articles) == None || ArticlesOrEmpty(p.payload.articles) == Some([]))
    ensures o.response == NoContentToConvert <==>
      u in store && var p := fetch(HeadlinesQuery(store[u], VoicePageSize));
      p.Decoded? && SpeakableText(p.payload.articles).None?
      && ArticlesOrEmpty(p.payload.articles) != None && ArticlesOrEmpty(p.payload.articles) != Some([])
    ensures o.response.Audio? <==> |o.calls| == 2
    ensures u in store && !o.response.Audio? ==> o.calls == [Fetch(HeadlinesQuery(store[u], VoicePageSize))]
    ensures o.response.Audio? <==>
      u in store && var p := fetch(HeadlinesQuery(store[u], VoicePageSize));
      p.Decoded? && SpeakableText(p.payload.articles).Some?
    ensures o.response.Audio? ==>
      u in store && o.response.field == store[u]
      && var p := fetch(HeadlinesQuery(store[u], VoicePageSize));
         p.Decoded? && SpeakableText(p.payload.articles).Some?
         && o.response.audioFile == AudioFileName(id)
         && o.response.audioUrl == AudioUrl(o.response.audioFile)
         && o.calls[1] == Synthesize(SpeakableText(p.payload.articles).value, SpeechLanguage, AudioPath(o.response.audioFile))
  {
    match Begin(store, u, VoicePageSize, fetch)
    case Exit(o) => o
    case Fetched(field, q, p) =>
      match ArticlesOrEmpty(p.articles)
      case None => Outcome(NoArticlesFound, [Fetch(q)])
      case Some(xs) =>
        if xs == [] then Outcome(NoArticlesFound, [Fetch(q)])
        else
          match Get(xs[0].description)
          case None => Outcome(NoContentToConvert, [Fetch(q)])
          case Some(text) =>
            if text == [] then Outcome(NoContentToConvert, [Fetch(q)])
            else
              var file := AudioFileName(id);
              Outcome(Audio(field, file, AudioUrl(file)),
                      [Fetch(q), Synthesize(text, SpeechLanguage, AudioPath(file))])
  }

  // ----- properties across handlers -----

  /** A user with no stored preference gets the "no field selected" answer
      from every reading route, and no outbound call is made. */
  lemma NoPreferenceNoFetch(store: Store, u: UserId, pageSize: Option<int>,
                            fetch: Query -> Fetched, summarizer: Summarizer, id: string)
    requires Lookup(store, u).None?
    requires PageSize(pageSize).Some?
    ensures GetNews(store, u, pageSize, fetch) == Outcome(NoFieldSelected, [])
    ensures SummarizeNews(store, u, fetch, summarizer) == Outcome(NoFieldSelected, [])
    ensures VoiceSummary(store, u, fetch, id) == Outcome(NoFieldSelected, [])
  {
  }

  /** The latest accepted selection decides the category every reading route
      asks the headlines service for. */
  lemma LatestSelectionDrivesQueries(store: Store, u: UserId, first: Category, last: Category,
                                     fetch: Query -> Fetched, summarizer: Summarizer, id: string)
    ensures var s := SelectField(SelectField(store, u, Value(first)).0, u, Value(last)).0;
      && GetNews(s, u, None, fetch).calls[0] == Fetch(HeadlinesQuery(last, DefaultPageSize))
      && SummarizeNews(s, u, fetch, summarizer).calls[0] == Fetch(HeadlinesQuery(last, SummaryPageSize))
      && VoiceSummary(s, u, fetch, id).calls[0] == Fetch(HeadlinesQuery(last, VoicePageSize))
  {
  }

  /** A page size outside [1, 10] never reaches the headlines service; one
      inside is sent unchanged. */
  lemma PageSizeGate(store: Store, u: UserId, n: int, fetch: Query -> Fetched)
    ensures !(MinPageSize <= n <= MaxPageSize) ==> GetNews(store, u, Some(n), fetch) == Outcome(Rejected, [])
    ensures MinPageSize <= n <= MaxPageSize && u in store ==>
      GetNews(store, u, Some(n), fetch).calls == [Fetch(Query(HeadlinesUrl, QueryName(store[u]), Country, n))]
  {
  }

  /** A headlines service that answers every query with the list `xs`. The
      lemmas below fix the service this way to speak about one concrete list;
      `SummarizeNews`'s own contract covers any service. */
  function Serving(xs: seq<RawArticle>): Query -> Fetched {
    (q: Query) => Decoded(Payload(Articles(xs)))
  }

  /** A fetched list whose loop finishes yields a digest of the loop's
      summaries, after the fetch and the loop's model calls. */
  lemma DigestOfBatch(store: Store, u: UserId, summarizer: Summarizer, xs: seq<RawArticle>)
    requires u in store
    requires SummarizeAll(xs, summarizer).fault.None?
    ensures var b := SummarizeAll(xs, summarizer);
      SummarizeNews(store, u, Serving(xs), summarizer)
      == Outcome(Digest(store[u], b.summaries),
                 [Fetch(HeadlinesQuery(store[u], SummaryPageSize))] + SummarizeCalls(b.requests))
  {
    var q := HeadlinesQuery(store[u], SummaryPageSize);
    var b := SummarizeAll(xs, summarizer);
    assert Begin(store, u, SummaryPageSize, Serving(xs)) == Fetched(store[u], q, Payload(Articles(xs)));
    assert ArticlesOrEmpty(Articles(xs)) == Some(xs);
    assert b.fault == None;
  }

  /** When every fetched description is a string too short to summarise, the
      summaries are those descriptions verbatim and the only outbound call is
      the fetch: the model is never invoked. */
  lemma ConciseHeadlinesSkipTheModel(store: Store, u: UserId, summarizer: Summarizer, xs: seq<RawArticle>)
    requires u in store
    requires FirstUndescribed(xs) == |xs|
    requires AllConcise(xs)
    ensures SummarizeNews(store, u, Serving(xs), summarizer)
         == Outcome(Digest(store[u], Descriptions(xs)), [Fetch(HeadlinesQuery(store[u], SummaryPageSize))])
  {
    ConciseDescriptionsPassThrough(xs, summarizer);
    DigestOfBatch(store, u, summarizer, xs);
    var q := HeadlinesQuery(store[u], SummaryPageSize);
    assert [Fetch(q)] + SummarizeCalls([]) == [Fetch(q)];
  }

  /** A fetched article whose description is absent or `null` makes the whole
      request fail at the word count, before the emptiness guard is reached. */
  lemma AbsentDescriptionFailsRequest(store: Store, u: UserId, summarizer: Summarizer, xs: seq<RawArticle>)
    requires u in store
    requires exists i :: 0 <= i < |xs| && Get(xs[i].description).None?
    ensures SummarizeNews(store, u, Serving(xs), summarizer).response == ServerError(NoneHasNoSplit)
  {
  }

  /** Speech is synthesised only on the success path. */
  lemma NoSynthesisWithoutAudio(store: Store, u: UserId, fetch: Query -> Fetched, id: string)
    ensures var o := VoiceSummary(store, u, fetch, id);
      !o.response.Audio? ==> forall i :: 0 <= i < |o.calls| ==> !o.calls[i].Synthesize?
  {
  }

  /** The static mount under `/audio`, reduced to prefix stripping: the file a
      plain URL (no query string, no percent-escapes) is served from. */
  function ServedPath(url: string): Option<string> {
    if |AudioUrlPrefix| <= |url| && url[..|AudioUrlPrefix|] == AudioUrlPrefix
    then Some(AudioPath(url[|AudioUrlPrefix|..]))
    else None
  }

  /** Resolving the URL published for a file names the file written for it. */
  lemma ServedPathInvertsAudioUrl(file: string)
    ensures ServedPath(AudioUrl(file)) == Some(AudioPath(file))
  {
  }

  /** The published URL leads back to exactly the file the speech engine wrote. */
  lemma AudioUrlServesWrittenFile(store: Store, u: UserId, fetch: Query -> Fetched, id: string)
    requires VoiceSummary(store, u, fetch, id).response.Audio?
    ensures var o := VoiceSummary(store, u, fetch, id);
      ServedPath(o.response.audioUrl) == Some(o.calls[1].path)
  {
  }

  /** A common prefix cancels from equal strings. */
  lemma PrefixCancel(p: string, a: string, b: string)
    ensures p + a == p + b ==> a == b
  {
    assert (p + a)[|p|..] == a;
    assert (p + b)[|p|..] == b;
  }

  /** A common suffix cancels from equal strings. */
  lemma SuffixCancel(a: string, b: string, x: string)
    ensures a + x == b + x ==> a == b
  {
    if a + x == b + x {
      assert (a + x)[..|a|] == a;
      assert (b + x)[..|b|] == b;
    }
  }

  /** Distinct identifiers give distinct files and URLs, so two successful
      requests never overwrite each other's audio. */
  lemma DistinctIdsDistinctFiles(a: string, b: string)
    requires a != b
    ensures AudioFileName(a) != AudioFileName(b)
    ensures AudioUrl(AudioFileName(a)) != AudioUrl(AudioFileName(b))
  {
    SuffixCancel(a, b, AudioSuffix);
    PrefixCancel(AudioUrlPrefix, AudioFileName(a), AudioFileName(b));
  }
}
