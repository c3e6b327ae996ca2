/**
 Python's `str.split()` with no separator: the string is cut at runs of
 whitespace and empty pieces are dropped. The summarisation bypass rule counts
 the words of a description with it.
 */
module Words {

  /** Python's notion of a whitespace code point (`str.isspace`), the set
      CPython's `_PyUnicode_IsWhitespace` accepts. */
  predicate IsSpace(c: char) {
    var n := c as int;
    || 0x09 <= n <= 0x0D
    || 0x1C <= n <= 0x20
    || n == 0x85
    || n == 0xA0
    || n == 0x1680
    || 0x2000 <= n <= 0x200A
    || n == 0x2028
    || n == 0x2029
    || n == 0x202F
    || n == 0x205F
    || n == 0x3000
  }

  /** A piece `split()` can produce: non-empty and free of whitespace. */
  predicate IsWord(w: string) {
    |w| > 0 && NoSpace(w)
  }

  predicate NoSpace(w: string) {
    forall j :: 0 <= j < |w| ==> !IsSpace(w[j])
  }

  /**
   The words of `s`, scanning left to right with `cur` holding the word read
   so far: a whitespace character ends a non-empty word, any other character
   extends it, and the end of the text ends the last one.
   */
  function SplitFrom(s: string, cur: string): seq<string> {
    if s == [] then
      if cur == [] then [] else [cur]
    else if IsSpace(s[0]) then
      if cur == [] then SplitFrom(s[1..], []) else [cur] + SplitFrom(s[1..], [])
    else
      SplitFrom(s[1..], cur + [s[0]])
  }

  /** The list `s.split()` returns: its words, concatenated, hold exactly the
      text's non-whitespace characters in order (and `SplitYieldsWords` shows
      each word is non-empty and free of whitespace). */
  function Split(s: string): (ws: seq<string>)
    ensures Concat(ws) == Squeeze(s)
  {
    SplitFromKeepsEveryLetter(s, []);
    SplitFrom(s, [])
  }

  /** `split()` yields non-empty pieces free of whitespace. */
  lemma SplitYieldsWords(s: string)
    ensures forall i :: 0 <= i < |Split(s)| ==> IsWord(Split(s)[i])
  {
    SplitFromYieldsWords(s, []);
  }

  /** `" ".join(ws)`. */
  function JoinSpaced(ws: seq<string>): string {
    if ws == [] then []
    else if |ws| == 1 then ws[0]
    else ws[0] + " " + JoinSpaced(ws[1..])
  }

  /** `s` with every whitespace character deleted. */
  function Squeeze(s: string): (r: string)
    ensures |r| <= |s|
  {
    if s == [] then []
    else if IsSpace(s[0]) then Squeeze(s[1..])
    else [s[0]] + Squeeze(s[1..])
  }

  /** All the words, concatenated without separator. */
  function Concat(ws: seq<string>): string {
    if ws == [] then [] else ws[0] + Concat(ws[1..])
  }

  /** Every piece the scan produces is a word. */
  lemma {:induction false} SplitFromYieldsWords(s: string, cur: string)
    requires NoSpace(cur)
    ensures forall i :: 0 <= i < |SplitFrom(s, cur)| ==> IsWord(SplitFrom(s, cur)[i])
    decreases |s|
  {
    if s != [] {
      if IsSpace(s[0]) {
        SplitFromYieldsWords(s[1..], []);
      } else {
        SplitFromYieldsWords(s[1..], cur + [s[0]]);
      }
    }
  }

  /** Reading a run of non-space characters only extends the current word. */
  lemma {:induction false} SplitFromWord(w: string, rest: string, cur: string)
    requires NoSpace(w)
    ensures SplitFrom(w + rest, cur) == SplitFrom(rest, cur + w)
    decreases |w|
  {
    if w == [] {
      assert w + rest == rest;
      assert cur + w == cur;
    } else {
      assert (w + rest)[0] == w[0];
      assert (w + rest)[1..] == w[1..] + rest;
      SplitFromWord(w[1..], rest, cur + [w[0]]);
      assert cur + [w[0]] + w[1..] == cur + w;
    }
  }

  /** `split()` inverts `" ".join` on well-formed words. */
  lemma {:induction false} SplitJoinRoundTrip(ws: seq<string>)
    requires forall i :: 0 <= i < |ws| ==> IsWord(ws[i])
    ensures Split(JoinSpaced(ws)) == ws
  {
    if ws == [] {
    } else if |ws| == 1 {
      var w := ws[0];
      SplitFromWord(w, [], []);
      assert w + [] == w;
      assert [] + w == w;
    } else {
      var w := ws[0];
      var tail := JoinSpaced(ws[1..]);
      var rest := " " + tail;
      assert JoinSpaced(ws) == w + rest;
      SplitFromWord(w, rest, []);
      assert [] + w == w;
      assert rest[1..] == tail;
      assert SplitFrom(rest, w) == [w] + Split(tail);
      SplitJoinRoundTrip(ws[1..]);
      assert ws == [w] + ws[1..];
    }
  }

  /** The scan's words hold exactly the word read so far followed by the
      non-whitespace characters of the rest, in order. */
  lemma {:induction false} SplitFromKeepsEveryLetter(s: string, cur: string)
    ensures Concat(SplitFrom(s, cur)) == cur + Squeeze(s)
    decreases |s|
  {
    if s == [] {
      assert cur + [] == cur;
    } else if IsSpace(s[0]) {
      SplitFromKeepsEveryLetter(s[1..], []);
      assert [] + Squeeze(s[1..]) == Squeeze(s[1..]);
    } else {
      SplitFromKeepsEveryLetter(s[1..], cur + [s[0]]);
      assert cur + [s[0]] + Squeeze(s[1..]) == cur + ([s[0]] + Squeeze(s[1..]));
    }
  }

  /** Between two words lies at least one whitespace character. */
  lemma {:induction false} SplitFromBound(s: string, cur: string)
    ensures 2 * |SplitFrom(s, cur)| <= |s| + (if cur == [] then 1 else 2)
    decreases |s|
  {
    if s != [] {
      if IsSpace(s[0]) {
        SplitFromBound(s[1..], []);
      } else {
        SplitFromBound(s[1..], cur + [s[0]]);
      }
    }
  }

  /** A text of n words has at least 2n - 1 characters. */
  lemma WordCountBound(s: string)
    ensures 2 * |Split(s)| <= |s| + 1
  {
    SplitFromBound(s, []);
  }

  /**
   CPython's `split_whitespace` loop: skip a whitespace run, then take the
   characters up to the next whitespace as one word.
   */
  method SplitWhitespace(s: string) returns (words: seq<string>)
    ensures words == Split(s)
  {
    words := [];
    var i := 0;
    while i < |s|
      invariant 0 <= i <= |s|
      invariant words + Split(s[i..]) == Split(s)
      decreases |s| - i
    {
      while i < |s| && IsSpace(s[i])
        invariant 0 <= i <= |s|
        invariant words + Split(s[i..]) == Split(s)
      {
        assert s[i..][1..] == s[i + 1..];
        assert Split(s[i..]) == Split(s[i + 1..]);
        i := i + 1;
      }
      if i == |s| {
        break;
      }
      var j := i;
      i := i + 1;
      while i < |s| && !IsSpace(s[i])
        invariant j < i <= |s|
        invariant forall k :: j <= k < i ==> !IsSpace(s[k])
      {
        i := i + 1;
      }
      assert NoSpace(s[j..i]);
      assert s[j..][..i - j] == s[j..i];
      assert s[j..][i - j..] == s[i..];
      WordThenSpace(s[j..], i - j);
      assert (words + [s[j..i]]) + Split(s[i..]) == words + Split(s[j..]);
      words := words + [s[j..i]];
    }
  }

  /** A word of n characters followed by whitespace or the end of the text is
      the first piece of the split. */
  lemma WordThenSpace(s: string, n: nat)
    requires 0 < n <= |s|
    requires NoSpace(s[..n])
    requires n == |s| || IsSpace(s[n])
    ensures Split(s) == [s[..n]] + Split(s[n..])
  {
    assert s == s[..n] + s[n..];
    SplitFromWord(s[..n], s[n..], []);
    assert [] + s[..n] == s[..n];
    if n < |s| {
      assert s[n..][1..] == s[n + 1..];
      assert SplitFrom(s[n..], s[..n]) == [s[..n]] + Split(s[n + 1..]);
    }
  }
}
