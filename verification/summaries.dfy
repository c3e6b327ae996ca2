/**
 The per-article loop of `summarize_news`: short descriptions are passed
 through, longer ones are handed to the summarisation model.
 */
module Summaries {
  import opened Wrappers
  import opened Words
  import opened Upstream

  /** Descriptions with fewer words than this are returned unchanged. */
  const Threshold := 40

  /** The `min_length` hint passed to the summarisation model. */
  const MinLength := 25

  /** One call of the summarisation model: `summarizer(text, min_length=..., do_sample=...)`. */
  datatype SummaryRequest = SummaryRequest(text: string, minLength: int, doSample: bool)

  /** The model's `summary_text` for a request; an opaque external capability. */
  type Summarizer = SummaryRequest -> string

  /** A text the bypass rule returns unchanged. */
  predicate IsConcise(text: string) {
    |Split(text)| < Threshold
  }

  /** The request `summarize_news` makes for a long text. */
  function RequestFor(text: string): SummaryRequest {
    SummaryRequest(text, MinLength, false)
  }

  /** The summary of one present description under the bypass rule. */
  function Condense(text: string, summarizer: Summarizer): string {
    if IsConcise(text) then text else summarizer(RequestFor(text))
  }

  /** The index of the first article whose description reads as `None`, or
      the list's length when every description is a string. */
  function FirstUndescribed(xs: seq<RawArticle>): (k: nat)
    ensures k <= |xs|
    ensures forall i :: 0 <= i < k ==> Get(xs[i].description).Some?
    ensures k < |xs| ==> Get(xs[k].description).None?
  {
    if xs == [] || Get(xs[0].description).None? then 0
    else 1 + FirstUndescribed(xs[1..])
  }

  /** The descriptions the loop reaches, in order: every one before the first
      that reads as `None`. */
  function Descriptions(xs: seq<RawArticle>): (ds: seq<string>)
    ensures |ds| == FirstUndescribed(xs)
    ensures forall i :: 0 <= i < |ds| ==> Get(xs[i].description) == Some(ds[i])
  {
    if xs == [] then []
    else match Get(xs[0].description)
      case None => []
      case Some(d) => [d] + Descriptions(xs[1..])
  }

  /** The model requests for a list of texts: one per text too long for the
      bypass rule, in order. */
  function LongRequests(ds: seq<string>): seq<SummaryRequest> {
    if ds == [] then []
    else (if IsConcise(ds[0]) then [] else [RequestFor(ds[0])]) + LongRequests(ds[1..])
  }

  /** What the loop leaves behind: the summaries appended, the model calls
      made in order, and the exception that stopped it, if any. */
  datatype Batch = Batch(summaries: seq<string>, requests: seq<SummaryRequest>, fault: Option<Fault>)

  /** The `for article in ...` loop of `summarize_news`. */
  function SummarizeAll(xs: seq<RawArticle>, summarizer: Summarizer): (b: Batch)
    ensures b.fault.None? <==> FirstUndescribed(xs) == |xs|
    ensures b.fault.Some? ==> b.fault.value == NoneHasNoSplit
    ensures b.fault.None? ==> |b.summaries| == |xs|
    ensures b.fault.None? ==> forall i :: 0 <= i < |xs| ==>
      b.summaries[i] == Condense(Get(xs[i].description).value, summarizer)
    ensures forall r :: r in b.requests ==>
      r == RequestFor(r.text) && !IsConcise(r.text)
      && exists i :: 0 <= i < FirstUndescribed(xs) && Get(xs[i].description) == Some(r.text)
    ensures b.requests == LongRequests(Descriptions(xs))
  {
    if xs == [] then Batch([], [], None)
    else
      match Get(xs[0].description)
      case None => Batch([], [], Some(NoneHasNoSplit))
      case Some(content) =>
        var rest := SummarizeAll(xs[1..], summarizer);
        if IsConcise(content) then
          rest.(summaries := [content] + rest.summaries)
        else if content == [] then
          rest
        else
          var req := RequestFor(content);
          Batch([summarizer(req)] + rest.summaries, [req] + rest.requests, rest.fault)
  }

  /** A text the bypass rule sends to the model has at least 79 characters,
      so the emptiness guard that follows the word count never skips one. */
  lemma LongTextIsNotEmpty(text: string)
    requires !IsConcise(text)
    ensures |text| >= 2 * Threshold - 1
  {
    WordCountBound(text);
  }

  /** Every description that is a string is one the bypass rule returns unchanged. */
  predicate AllConcise(xs: seq<RawArticle>)
    decreases |xs|
  {
    xs == [] || ((Get(xs[0].description).None? || IsConcise(Get(xs[0].description).value)) && AllConcise(xs[1..]))
  }

  /** When every description is concise, the summaries are the descriptions
      verbatim and the model is never called. */
  lemma {:induction false} ConciseDescriptionsPassThrough(xs: seq<RawArticle>, summarizer: Summarizer)
    requires FirstUndescribed(xs) == |xs|
    requires AllConcise(xs)
    ensures SummarizeAll(xs, summarizer) == Batch(Descriptions(xs), [], None)
  {
    if xs != [] {
      ConciseDescriptionsPassThrough(xs[1..], summarizer);
    }
  }
}
