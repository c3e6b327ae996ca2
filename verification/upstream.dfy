/**
 The headlines service as the handlers see it: the query they send, the
 decoded JSON payload they get back, and the normalisation of its article
 list into (title, description) records.
 */
module Upstream {
  import opened Wrappers
  import opened Categories

  const HeadlinesUrl := "https://newsapi.org/v2/top-headlines"
  const Country := "us"

  /** The outbound request's parameters (the API key is configuration and
      is not modelled). */
  datatype Query = Query(url: string, category: string, country: string, pageSize: int)

  /** The query every handler sends for a stored preference: the top-headlines
      endpoint, the US edition, the field's value lower-cased as `category`, and
      the page size as given. */
  function HeadlinesQuery(field: Category, pageSize: int): (q: Query)
    ensures q.url == HeadlinesUrl && q.country == Country && q.pageSize == pageSize
    ensures q.category == Lower(Value(field))
  {
    Query(HeadlinesUrl, QueryName(field), Country, pageSize)
  }

  /** Different fields never share a query. */
  lemma DistinctFieldsDistinctQueries(a: Category, b: Category, pageSize: int)
    requires a != b
    ensures HeadlinesQuery(a, pageSize) != HeadlinesQuery(b, pageSize)
  {
    if HeadlinesQuery(a, pageSize) == HeadlinesQuery(b, pageSize) {
      QueryNameInjective(a, b);
    }
  }

  /** One key of a decoded JSON object: absent, JSON `null`, or a string. */
  datatype Slot = Missing | Null | Text(text: string)

  /** An upstream article record; only the two keys the handlers read are kept. */
  datatype RawArticle = RawArticle(title: Slot, description: Slot)

  /** The payload's `articles` key: absent, JSON `null`, or a list. */
  datatype Listing = NoArticlesKey | NullArticles | Articles(items: seq<RawArticle>)

  datatype Payload = Payload(articles: Listing)

  /** What `fetch_news(...).json()` yields: a decoded payload, or an exception
      from the transport or the decoder. */
  datatype Fetched = Decoded(payload: Payload) | FetchFailed

  /** The exception that ends a request with an internal server error. */
  datatype Fault =
    | FetchError             // the request or the JSON decoding raised
    | MissingKey(key: string) // `article["title"]` / `article["description"]` on an absent key
    | NoneNotIterable        // `for article in None`
    | NoneHasNoSplit         // `None.split()`

  /** `dict.get(key)`: an absent key and a JSON `null` both read as `None`. */
  function Get(s: Slot): (r: Option<string>)
    ensures r.Some? <==> s.Text?
    ensures r.Some? ==> r.value == s.text
  {
    match s
    case Text(t) => Some(t)
    case _ => None
  }

  /** `data.get("articles", [])`: `None` when the key holds JSON `null`. */
  function ArticlesOrEmpty(l: Listing): Option<seq<RawArticle>> {
    match l
    case NoArticlesKey => Some([])
    case NullArticles => None
    case Articles(xs) => Some(xs)
  }

  /** A normalised article: exactly the upstream title and description, with
      JSON `null` kept as `None`. */
  datatype Article = Article(title: Option<string>, description: Option<string>)

  /** Both keys the normalisation reads with `article[...]` are present. */
  predicate HasKeys(a: RawArticle) {
    a.title != Missing && a.description != Missing
  }

  /** The key whose absence `article[...]` reports first. */
  function FirstMissingKey(a: RawArticle): string {
    if a.title == Missing then "title" else "description"
  }

  /** The per-article loop of `get_news`. */
  function NormaliseItems(xs: seq<RawArticle>): (r: Result<seq<Article>, Fault>)
    ensures r.Ok? <==> forall i :: 0 <= i < |xs| ==> HasKeys(xs[i])
    ensures r.Ok? ==> |r.value| == |xs|
    ensures r.Ok? ==> forall i :: 0 <= i < |xs| ==>
      r.value[i] == Article(Get(xs[i].title), Get(xs[i].description))
    ensures r.Err? ==> exists k :: (0 <= k < |xs| && !HasKeys(xs[k])
                                    && (forall i :: 0 <= i < k ==> HasKeys(xs[i]))
                                    && r.error == MissingKey(FirstMissingKey(xs[k])))
  {
    if xs == [] then Ok([])
    else if !HasKeys(xs[0]) then Err(MissingKey(FirstMissingKey(xs[0])))
    else
      match NormaliseItems(xs[1..])
      case Err(e) =>
        ghost var k :| 0 <= k < |xs[1..]| && !HasKeys(xs[1..][k])
          && (forall i :: 0 <= i < k ==> HasKeys(xs[1..][i]))
          && e == MissingKey(FirstMissingKey(xs[1..][k]));
        assert !HasKeys(xs[k + 1]);
        Err(e)
      case Ok(rest) =>
        Ok([Article(Get(xs[0].title), Get(xs[0].description))] + rest)
  }

  /** The article list `get_news` returns for a payload. */
  function Normalise(l: Listing): (r: Result<seq<Article>, Fault>)
    ensures l == NoArticlesKey ==> r == Ok([])
    ensures l == NullArticles ==> r == Err(NoneNotIterable)
    ensures l.Articles? ==> r == NormaliseItems(l.items)
  {
    match ArticlesOrEmpty(l)
    case None => Err(NoneNotIterable)
    case Some(xs) => NormaliseItems(xs)
  }

  /** The upstream record an article came from (`null` for a `None` field). */
  function Raw(a: Article): (r: RawArticle)
    ensures HasKeys(r)
  {
    RawArticle(
      if a.title.Some? then Text(a.title.value) else Null,
      if a.description.Some? then Text(a.description.value) else Null)
  }

  /** The upstream list a normalised list came from. */
  function RawAll(articles: seq<Article>): (xs: seq<RawArticle>)
    ensures |xs| == |articles|
    ensures forall i :: 0 <= i < |xs| ==> xs[i] == Raw(articles[i])
  {
    seq(|articles|, i requires 0 <= i < |articles| => Raw(articles[i]))
  }

  /** Normalisation loses nothing the handler reports: serialising articles
      back to upstream records and normalising again gives them back. */
  lemma NormaliseRaw(articles: seq<Article>)
    ensures Normalise(Articles(RawAll(articles))) == Ok(articles)
  {
    var r := NormaliseItems(RawAll(articles));
    assert r.Ok?;
    assert r.value == articles;
  }
}
