# AI Voice News backend — decision logic in Dafny

This project models the request logic of the AI Voice News backend (`main.py`).
The backend keeps a per-user news category preference. It fetches top headlines
for that category from a headlines service. It can also summarise the
headlines with a pretrained model, or turn the first headline's description
into an MP3 file.

The model keeps every decision the handlers make and abstracts every outside
call:

- the headlines fetch becomes a function from the query to the decoded payload
  (or a failure);
- the summarisation model becomes a function from a request (text,
  `min_length`, `do_sample`) to summary text;
- `uuid.uuid4()` becomes an identifier parameter.

Each handler returns its response together with the ordered list of outbound
calls it made: the fetch, the model calls, the speech synthesis. That list is
what lets the model state that some calls never happen, such as "no fetch
before an early exit" and "no synthesis without content".

Modules, one per part of `main.py`:

- `Wrappers` (wrappers.dfy): `Option` and `Result`.
- `Words` (words.dfy): Python's `str.split()` with no argument, used by the
  summarisation bypass rule. It is defined as a left-to-right scan over
  CPython's set of whitespace code points. It comes with CPython's
  `split_whitespace` loop, proved equal to the scan.
- `Categories` (categories.dfy): the `NewsField` enumeration, its values, the
  validation of incoming field names, and the lower-cased `category` query
  parameter.
- `Preferences` (preferences.dfy): the in-memory `user_preferences` map.
- `Upstream` (upstream.dfy): the outbound query, the decoded payload (each JSON
  key may be missing, `null` or a value), and the normalisation `get_news`
  applies to the article list.
- `Summaries` (summaries.dfy): the per-article loop of `summarize_news` with
  its 40-word bypass rule.
- `Handlers` (handlers.dfy): `select_field`, `get_news`, `summarize_news`,
  `voice_summary`, and the shared first stage: resolve the preference, then
  fetch.

## Behaviour worth knowing

Each item is something a reader of the routes might expect, set against what
`main.py` does. The model follows `main.py`.

- **Absent descriptions in `summarize_news`.** A reader might expect an
  article with no description to be skipped, since there is an `if not
  content` guard (main.py:81). But `content.split()` (main.py:78) runs first,
  so a missing or `null` description raises and the whole request fails.
  `Handlers.AbsentDescriptionFailsRequest` states this. The guard itself can
  never fire: a text of 40 or more words has at least 79 characters
  (`Summaries.LongTextIsNotEmpty`).
- **Upstream failures.** None of the routes catch exceptions. A transport
  failure, or a response body that is not JSON, therefore ends the request with
  an internal server error rather than an error body. So do a missing
  `title`/`description` key in `get_news` and an `articles` key holding `null`
  in `get_news` and `summarize_news`. The model answers these with
  `ServerError`.
- **Upstream error statuses.** `requests.get` (main.py:41) does not raise on a
  non-2xx status, and the headlines service reports errors (a bad API key, a
  rate limit) as a JSON body with no `articles` key. `data.get("articles", [])`
  then yields an empty list, so the routes answer an empty `articles` list, an
  empty `summaries` list, or "no articles found", with status 200. The model
  covers this as a decoded payload without an `articles` key.
- **`null` article list in `voice_summary`.** Here `if not articles` is true
  for `None`, so an `articles: null` payload answers "no articles found"
  instead of failing.
- **Empty descriptions.** In `summarize_news`, an empty-string description is
  concise, so it is appended as `""`. In `voice_summary`, an empty or absent
  first description answers "no content to convert".
- **The set at main.py:103.** It returns the set `{"error", "no content to
  convert"}` where the other branches return a dictionary. The model treats it
  as the "no content to convert" error outcome.
- **Page-size validation order.** `page_size` is validated before the handler
  body runs. An out-of-range value is therefore rejected even for a user with
  no preference.

## Model

| member | source | states |
|---|---|---|
| Words.Split | main.py:78 | `str.split()` as a scan over CPython's whitespace set: the words, concatenated, are exactly the text's non-whitespace characters in order |
| Words.SplitYieldsWords | main.py:78 | every piece `str.split()` yields is non-empty and contains no whitespace |
| Words.SplitJoinRoundTrip | main.py:78 | splitting the single-space join of well-formed words gives those words back |
| Words.WordCountBound | main.py:78 | a text of n words is at least 2n - 1 characters long |
| Words.SplitWhitespace | main.py:78 | CPython's skip-whitespace / take-word loop computes exactly `str.split()` |
| Categories.Parse | main.py:27-36 | a field name is accepted exactly when it is the value of one of the five members, and maps to that member |
| Categories.ParseValue | main.py:27-32 | parsing a member's value yields that member |
| Categories.Lower | main.py:55 | lower-casing keeps the length, lowers each ASCII capital and leaves no capital behind |
| Categories.QueryNameInjective | main.py:55 | distinct categories are sent upstream under distinct `category` parameters |
| Preferences.Put | main.py:46 | after a write the user's lookup returns the new field; every other user's lookup is unchanged |
| Preferences.LastWriteWins | main.py:46 | a second write for the same user completely replaces the first |
| Preferences.WritesCommute | main.py:46 | writes for two different users give the same store in either order |
| Preferences.LookupAfterHistory | main.py:44-53 | after any sequence of writes from the empty store, a lookup yields the user's latest write, or nothing if the user never wrote |
| Upstream.HeadlinesQuery | main.py:54-55 | the query goes to the top-headlines endpoint for the US edition, with the field's value lower-cased as `category` and the page size as given |
| Upstream.DistinctFieldsDistinctQueries | main.py:55 | two different fields never produce the same query |
| Upstream.NormaliseItems | main.py:59-61 | succeeds iff every article has both keys; then it keeps length and order, and each entry carries exactly the upstream title and description (`null` stays `None`); otherwise it fails on the first article missing a key, naming that key |
| Upstream.Normalise | main.py:59-63 | a missing `articles` key gives an empty list; an `articles` key holding `null` makes the request fail |
| Upstream.NormaliseRaw | main.py:59-63 | normalising the upstream form of a list of articles gives that list back |
| Summaries.SummarizeAll | main.py:75-84 | the loop completes iff every description is a string; then there is one summary per article in upstream order: the text itself under 40 words, else the model's output; the model calls are exactly one request (min_length 25, no sampling) for each description of 40 or more words before the first absent one, in order |
| Summaries.LongTextIsNotEmpty | main.py:78-82 | a text sent to the model is at least 79 characters long, so the emptiness guard never skips one |
| Summaries.ConciseDescriptionsPassThrough | main.py:78-80 | when every description is a string under 40 words, the summaries are the descriptions verbatim and the model is never called |
| Handlers.SelectField | main.py:44-47 | an unknown field name is rejected with the store unchanged; a valid one is stored for the user, leaves other users untouched, and is echoed back |
| Handlers.PageSize | main.py:50 | the page size is accepted iff absent or within [1, 10]; an absent one becomes 5; a given one passes through unchanged |
| Handlers.Begin | main.py:51-57 | no preference means "no field selected" with no call; otherwise one fetch for the stored category, and a failed fetch ends the request |
| Handlers.GetNews | main.py:49-63 | rejection or "no field selected" make no call; otherwise exactly one fetch with the resolved page size, and the answer is decided by that fetch: a failed fetch is a server error, a payload whose articles normalise gives a news answer with the stored field and exactly that list (an absent `articles` key gives an empty list), and one that does not normalise gives the normalisation's error |
| Handlers.SummarizeNews | main.py:65-86 | "no field selected" makes no call; otherwise one fetch with page size 3, where a failed fetch or an `articles: null` list is a server error with no further call; for a list, the later calls are one model call per long description reached, in order, and the answer is a digest iff every description is a string (one condensed description per article, in order), else the `None.split()` error |
| Handlers.VoiceSummary | main.py:88-110 | "no articles found" iff the list is null or empty; "no content to convert" iff the first description is absent or empty; an audio answer iff the fetch succeeded and the first description is a non-empty string, and then exactly one synthesis of that description, in English, to `audio/<id>.mp3`, answered with that file name and its URL; every other answer for a user with a preference follows exactly one fetch and no other call |
| Handlers.NoPreferenceNoFetch | main.py:51-53 | a user without a preference gets "no field selected" from all three reading routes, with no outbound call |
| Handlers.LatestSelectionDrivesQueries | main.py:46-55 | after two selections by a user, every reading route queries the category of the later one |
| Handlers.PageSizeGate | main.py:50-55 | page sizes outside [1, 10] are rejected with no call; those inside are sent unchanged as `pageSize` |
| Handlers.ConciseHeadlinesSkipTheModel | main.py:71-80 | if every fetched description is a string under 40 words, the digest is those descriptions verbatim and the fetch is the only call |
| Handlers.AbsentDescriptionFailsRequest | main.py:76-82 | one absent or `null` description makes `summarize_news` fail with the `None.split()` error |
| Handlers.NoSynthesisWithoutAudio | main.py:97-108 | no answer other than an audio reference involves a synthesis call |
| Handlers.ServedPathInvertsAudioUrl | main.py:105-113 | the URL published for a file resolves, under the `/audio` mount, to the path of that file in the audio directory |
| Handlers.AudioUrlServesWrittenFile | main.py:105-110 | the returned URL is served from exactly the file the synthesis call wrote |
| Handlers.DistinctIdsDistinctFiles | main.py:105 | distinct identifiers give distinct file names and distinct URLs |

## Left out

- FastAPI routing, request parsing and the static-file server are framework
  plumbing. Only the resulting accept/reject rules are modelled: the field-name
  check and the `page_size` range. A `page_size` that is not an integer is also
  rejected by the framework; the model takes it as an already-parsed integer.
- The HTTP request to the headlines service and the JSON decoding are network
  I/O. The model takes the decoded payload, or a failure, as the value of the
  `fetch` parameter. Payload shapes other than an object whose `articles` is a
  list of objects with string-or-null `title`/`description` are not modelled,
  for example a top-level list or a numeric title.
- The API key, its environment-variable default, and the creation of the audio
  directory are configuration.
- The summarisation model is an opaque external model, so it is an
  uninterpreted total function. Its own exceptions, which would also fail the
  whole request, are not modelled.
- gTTS synthesis and the file write are a foreign library plus filesystem I/O.
  They are recorded only as a `Synthesize(text, "en", path)` call. gTTS
  calls a remote speech service, and anything it raises (network failure,
  service refusal, a write error) would end the request with a server error;
  the model assumes synthesis succeeds and answers with the audio reference
  whenever there is speakable text. Serving the
  file's bytes back is reduced to the URL-to-path mapping (`Handlers.ServedPath`),
  which only strips the URL prefix: the static server's handling of query
  strings and percent-escapes is not modelled.
- `uuid.uuid4()` is randomness. The identifier is a parameter, and uniqueness
  is assumed rather than proved (`Handlers.DistinctIdsDistinctFiles` states
  what distinct identifiers give).
- `run_in_threadpool` offloading and concurrent requests are concurrency
  plumbing. Each handler is modelled as one sequential run. Atomicity of
  concurrent writes to the preference map is not modelled.
- Categories.Lower: lower-cases ASCII letters only; Python's `str.lower` also
  maps non-ASCII capitals, but every category value is ASCII.
