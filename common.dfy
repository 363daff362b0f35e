/** Values and helpers shared by the whole model: optional values, JavaScript
    numbers, the truthiness of strings, whitespace trimming, substring search,
    the order JavaScript uses on strings, the outcome of a server call and the
    list-request payload that the expense store and the budget page send. */
module Common {

  datatype Option<T> = None | Some(value: T)

  /** The outcome of a call to the server: a response body, or a failure carrying the
      server's message when there is one. */
  datatype ServiceOutcome<B> = Responded(body: B) | Failed(message: Option<string>)

  /** A JavaScript number as this model needs it: a finite value (amounts are
      exact reals here, not binary floating point), one of the two infinities,
      or NaN. Every comparison with NaN is false. */
  datatype Num = Finite(value: real) | PosInf | NegInf | NaN {

    predicate IsFinite() { Finite? }

    /** `this < x` */
    predicate Less(x: real) {
      match this
      case Finite(v) => v < x
      case NegInf => true
      case _ => false
    }

    /** `x <= this` */
    predicate AtLeast(x: real) {
      match this
      case Finite(v) => x <= v
      case PosInf => true
      case _ => false
    }

    /** `this > x` */
    predicate Greater(x: real) {
      match this
      case Finite(v) => v > x
      case PosInf => true
      case _ => false
    }
  }

  /** JavaScript `a || b` where `a` is an optional string: absent and empty
      strings are falsy. */
  function OrElse(a: Option<string>, b: string): (r: string)
    ensures a.Some? && a.value != "" ==> r == a.value
    ensures (a.None? || a.value == "") ==> r == b
  {
    if a.Some? && a.value != "" then a.value else b
  }

  /** JavaScript `a || b` where both sides are optional strings. */
  function OrElseOpt(a: Option<string>, b: Option<string>): (r: Option<string>)
    ensures r == a || r == b
    ensures r == b <== (a.None? || a.value == "")
    ensures a.Some? && a.value != "" ==> r == a
  {
    if a.Some? && a.value != "" then a else b
  }

  /** The characters `String.prototype.trim` removes: the WhiteSpace and
      LineTerminator productions of ECMAScript. */
  predicate IsSpace(c: char) {
    c in {'\t', '\n', '\U{000B}', '\U{000C}', '\r', ' ', '\U{00A0}', '\U{1680}',
          '\U{2000}', '\U{2001}', '\U{2002}', '\U{2003}', '\U{2004}', '\U{2005}',
          '\U{2006}', '\U{2007}', '\U{2008}', '\U{2009}', '\U{200A}', '\U{2028}',
          '\U{2029}', '\U{202F}', '\U{205F}', '\U{3000}', '\U{FEFF}'}
  }

  /** Leading whitespace removed: `r` is the suffix of `s` left after a run of
      spaces, and it does not itself start with one. */
  function TrimStart(s: string): (r: string)
    ensures |r| <= |s| && r == s[|s| - |r|..]
    ensures forall i :: 0 <= i < |s| - |r| ==> IsSpace(s[i])
    ensures r == [] || !IsSpace(r[0])
  {
    if s != [] && IsSpace(s[0]) then TrimStart(s[1..]) else s
  }

  /** Trailing whitespace removed. */
  function TrimEnd(s: string): (r: string)
    ensures |r| <= |s| && r == s[..|r|]
    ensures forall i :: |r| <= i < |s| ==> IsSpace(s[i])
    ensures r == [] || !IsSpace(r[|r| - 1])
  {
    if s != [] && IsSpace(s[|s| - 1]) then TrimEnd(s[..|s| - 1]) else s
  }

  /** `String.prototype.trim` */
  function Trim(s: string): string {
    TrimEnd(TrimStart(s))
  }

  /** A string trims to nothing exactly when every character is whitespace,
      and otherwise the trimmed string is the infix of `s` that starts after
      the leading whitespace, with a non-space at each end. */
  lemma TrimSpec(s: string)
    ensures Trim(s) == "" <==> forall i :: 0 <= i < |s| ==> IsSpace(s[i])
    ensures Trim(s) != "" ==> !IsSpace(Trim(s)[0]) && !IsSpace(Trim(s)[|Trim(s)| - 1])
    ensures Trim(s) == s[|s| - |TrimStart(s)|..][..|Trim(s)|]
  {
    var a := TrimStart(s);
    var r := TrimEnd(a);
    var k := |s| - |a|;
    if r == "" {
      forall i | 0 <= i < |s| ensures IsSpace(s[i]) {
        if i >= k {
          assert s[i] == a[i - k];
        }
      }
    }
  }

  /** `s.startsWith(p)` */
  predicate StartsWith(s: string, p: string) {
    |p| <= |s| && s[..|p|] == p
  }

  /** `s.includes(sub)`: some position of `s` starts a copy of `sub`. */
  predicate Contains(s: string, sub: string)
    decreases |s|
  {
    StartsWith(s, sub) || (s != [] && Contains(s[1..], sub))
  }

  /** The position search behind `Contains`, stated without recursion. */
  lemma {:induction false} ContainsAt(s: string, sub: string)
    ensures Contains(s, sub) <==> exists i :: 0 <= i <= |s| - |sub| && s[i..][..|sub|] == sub
    decreases |s|
  {
    if StartsWith(s, sub) {
      assert s[0..][..|sub|] == sub;
    } else if s != [] {
      ContainsAt(s[1..], sub);
      if Contains(s[1..], sub) {
        var i :| 0 <= i <= |s| - 1 - |sub| && s[1..][i..][..|sub|] == sub;
        assert s[i + 1..] == s[1..][i..];
      }
      if exists i :: 0 <= i <= |s| - |sub| && s[i..][..|sub|] == sub {
        var i :| 0 <= i <= |s| - |sub| && s[i..][..|sub|] == sub;
        assert i != 0;
        assert s[1..][i - 1..] == s[i..];
      }
    }
  }

  /** Every string contains the empty string (so an empty search matches
      everything). */
  lemma ContainsEmpty(s: string)
    ensures Contains(s, "")
  {
    assert StartsWith(s, "");
  }

  /** JavaScript's `a < b` on strings: code-unit lexicographic order. */
  predicate LexLess(a: string, b: string)
    decreases |a|
  {
    if a == [] then b != []
    else if b == [] then false
    else if a[0] != b[0] then a[0] < b[0]
    else LexLess(a[1..], b[1..])
  }

  /** The order is irreflexive, so a date never lies after itself. */
  lemma {:induction false} LexLessIrreflexive(a: string)
    ensures !LexLess(a, a)
    decreases |a|
  {
    if a != [] {
      LexLessIrreflexive(a[1..]);
    }
  }

  /** The sort order a list request asks for. */
  datatype Sort = AmountAsc | AmountDesc | DateAsc | DateDesc

  /** The body sent to a list endpoint. */
  datatype ListPayload = ListPayload(
    page: int,
    limit: int,
    search: string,
    category: string,
    min: Option<real>,
    max: Option<real>,
    startDate: string,
    endDate: string,
    sort: Sort)

  function Max(a: int, b: int): int { if a < b then b else a }
  function Min(a: int, b: int): int { if a < b then a else b }
}
