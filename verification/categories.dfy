/**
 The `NewsField` enumeration: the closed set of news categories a user can
 subscribe to, its string values, and the lower-cased form sent upstream.
 */
module Categories {
  import opened Wrappers

  datatype Category = Technology | Business | Sports | Health | Entertainment

  /** The member's string value (`NewsField.X.value`). */
  function Value(c: Category): string {
    match c
    case Technology => "Technology"
    case Business => "Business"
    case Sports => "Sports"
    case Health => "Health"
    case Entertainment => "Entertainment"
  }

  /** Validation of an incoming field name at the request boundary: only the
      exact value of a member is accepted. */
  function Parse(s: string): (r: Option<Category>)
    ensures forall c: Category :: r == Some(c) <==> s == Value(c)
  {
    if s == "Technology" then Some(Technology)
    else if s == "Business" then Some(Business)
    else if s == "Sports" then Some(Sports)
    else if s == "Health" then Some(Health)
    else if s == "Entertainment" then Some(Entertainment)
    else None
  }

  /** Parsing a member's value gives the member back. */
  lemma ParseValue(c: Category)
    ensures Parse(Value(c)) == Some(c)
  {
  }

  predicate IsUpper(ch: char) {
    'A' <= ch <= 'Z'
  }

  /** `str.lower` on one character; only ASCII letters change. */
  function LowerChar(ch: char): char {
    if IsUpper(ch) then (ch as int + 32) as char else ch
  }

  /** `str.lower` (ASCII letters only). */
  function Lower(s: string): (r: string)
    ensures |r| == |s|
    ensures forall i :: 0 <= i < |s| ==> r[i] == LowerChar(s[i])
    ensures forall i :: 0 <= i < |r| ==> !IsUpper(r[i])
  {
    if s == [] then [] else [LowerChar(s[0])] + Lower(s[1..])
  }

  /** The `category` query parameter for a member: `field.value.lower()`. */
  function QueryName(c: Category): string {
    Lower(Value(c))
  }

  /** Distinct members are sent upstream under distinct names, so the upstream
      query identifies the stored preference. */
  lemma QueryNameInjective(a: Category, b: Category)
    requires QueryName(a) == QueryName(b)
    ensures a == b
  {
  }
}
