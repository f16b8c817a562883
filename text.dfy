/** The pieces of Rust's `char`, `str` and `u64` behaviour that the three solvers rely on,
    restricted to ASCII text: `char::to_digit(10)`, `str::parse::<u64>()`, `str::split`. */
module Text {

  datatype Option<T> = None | Some(value: T)

  /** The largest value of a `u64`. */
  const U64_MAX: nat := 0xFFFF_FFFF_FFFF_FFFF

  /** `char::to_digit(10)` succeeds exactly on the ASCII digits. */
  predicate IsDigit(c: char) {
    '0' <= c <= '9'
  }

  function DigitValue(c: char): (d: nat)
    requires IsDigit(c)
    ensures d <= 9
  {
    c as int - '0' as int
  }

  predicate AllDigits(s: string) {
    forall k :: 0 <= k < |s| ==> IsDigit(s[k])
  }

  /** The unbounded value of a string of decimal digits, most significant digit first. */
  function DecimalValue(s: string): nat
    requires AllDigits(s)
  {
    if s == [] then 0 else 10 * DecimalValue(s[..|s| - 1]) + DigitValue(s[|s| - 1])
  }

  /** `str::parse::<u64>()`: an optional leading '+', then at least one ASCII digit, and a value
      that fits in 64 bits; anything else is an error. */
  function ParseU64(s: string): (r: Option<nat>)
    ensures r.Some? ==> r.value <= U64_MAX
    ensures r.Some? ==> |s| > 0
  {
    var digits := if |s| > 0 && s[0] == '+' then s[1..] else s;
    if |digits| == 0 || !AllDigits(digits) then None
    else if DecimalValue(digits) <= U64_MAX then Some(DecimalValue(digits))
    else None
  }

  /** The decimal rendering of `n` (as `n.to_string()` prints it). */
  function Decimal(n: nat): (s: string)
    ensures |s| > 0 && AllDigits(s)
    ensures DecimalValue(s) == n
  {
    var last := ['0' + ((n % 10) as char)];
    if n < 10 then last
    else
      var front := Decimal(n / 10);
      assert (front + last)[..|front + last| - 1] == front;
      front + last
  }

  lemma ParseDecimal(n: nat)
    requires n <= U64_MAX
    ensures ParseU64(Decimal(n)) == Some(n)
  {
    assert IsDigit(Decimal(n)[0]);
  }

  /** Does `sep` occur in `s` starting at index `k`? */
  predicate OccursAt(s: string, sep: string, k: nat) {
    k + |sep| <= |s| && s[k..k + |sep|] == sep
  }

  /** The first index at or after `from` where `sep` occurs in `s`. */
  function FindFrom(s: string, sep: string, from: nat): (r: Option<nat>)
    requires |sep| > 0
    ensures r.Some? ==> from <= r.value <= |s| - |sep|
    decreases |s| - from
  {
    if from + |sep| > |s| then None
    else if s[from..from + |sep|] == sep then Some(from)
    else FindFrom(s, sep, from + 1)
  }

  /** What FindFrom finds is an occurrence. */
  lemma {:induction false} FindFromOccurs(s: string, sep: string, from: nat)
    requires |sep| > 0
    ensures FindFrom(s, sep, from).Some? ==> OccursAt(s, sep, FindFrom(s, sep, from).value)
    decreases |s| - from
  {
    if from + |sep| <= |s| && s[from..from + |sep|] != sep {
      FindFromOccurs(s, sep, from + 1);
    }
  }

  /** FindFrom finds the first occurrence at or after `from`, and None means there is none. */
  lemma {:induction false} FindFromFirst(s: string, sep: string, from: nat)
    requires |sep| > 0
    ensures FindFrom(s, sep, from).Some? ==>
      forall k: nat :: from <= k < FindFrom(s, sep, from).value ==> !OccursAt(s, sep, k)
    ensures FindFrom(s, sep, from).None? ==> forall k: nat :: from <= k ==> !OccursAt(s, sep, k)
    decreases |s| - from
  {
    if from + |sep| <= |s| && s[from..from + |sep|] != sep {
      FindFromFirst(s, sep, from + 1);
    }
  }

  /** `s.split(sep)`: the pieces between successive occurrences of `sep`, found left to right
      without overlap; a string without `sep` is one piece, and so is the empty string. */
  function Split(s: string, sep: string): (pieces: seq<string>)
    requires |sep| > 0
    ensures |pieces| >= 1
    decreases |s|
  {
    match FindFrom(s, sep, 0)
    case None => [s]
    case Some(k) => [s[..k]] + Split(s[k + |sep|..], sep)
  }

  /** The pieces glued back together with `sep` between neighbours. */
  function Join(pieces: seq<string>, sep: string): string {
    if pieces == [] then ""
    else if |pieces| == 1 then pieces[0]
    else pieces[0] + sep + Join(pieces[1..], sep)
  }

  /** Splitting loses nothing: joining the pieces gives back the string. */
  lemma {:induction false} SplitJoin(s: string, sep: string)
    requires |sep| > 0
    ensures Join(Split(s, sep), sep) == s
    decreases |s|
  {
    FindFromOccurs(s, sep, 0);
    match FindFrom(s, sep, 0)
    case None =>
    case Some(k) =>
      var rest := s[k + |sep|..];
      var tail := Split(rest, sep);
      SplitJoin(rest, sep);
      JoinCons(s[..k], tail, sep);
      SliceAround(s, k, k + |sep|);
  }

  /** Joining a piece in front of the others puts one separator between. */
  lemma JoinCons(head: string, tail: seq<string>, sep: string)
    requires |tail| >= 1
    ensures Join([head] + tail, sep) == head + sep + Join(tail, sep)
  {
    assert ([head] + tail)[1..] == tail;
  }

  /** A string is the concatenation of its three slices at i and j. */
  lemma SliceAround(s: string, i: nat, j: nat)
    requires i <= j <= |s|
    ensures s == s[..i] + s[i..j] + s[j..]
  {
  }

  /** No piece of a split contains the separator. */
  lemma {:induction false} SplitPiecesAvoidSep(s: string, sep: string)
    requires |sep| > 0
    ensures forall p, k: nat :: p in Split(s, sep) ==> !OccursAt(p, sep, k)
    decreases |s|
  {
    FindFromFirst(s, sep, 0);
    match FindFrom(s, sep, 0)
    case None =>
    case Some(k) =>
      SplitPiecesAvoidSep(s[k + |sep|..], sep);
      forall m: nat | OccursAt(s[..k], sep, m)
        ensures false
      {
        assert s[m..m + |sep|] == s[..k][m..m + |sep|];
        assert OccursAt(s, sep, m);
      }
  }

  /** A string in which `sep` does not occur splits into itself. */
  lemma SplitWithoutSep(s: string, sep: string)
    requires |sep| > 0
    requires forall k: nat :: !OccursAt(s, sep, k)
    ensures Split(s, sep) == [s]
  {
    FindFromOccurs(s, sep, 0);
  }

  /** The first piece ends at the first occurrence of the separator. */
  lemma SplitAtFirst(a: string, sep: string, b: string)
    requires |sep| > 0
    requires forall k: nat :: k < |a| ==> !OccursAt(a + sep + b, sep, k)
    ensures Split(a + sep + b, sep) == [a] + Split(b, sep)
  {
    var s := a + sep + b;
    assert OccursAt(s, sep, |a|) by {
      assert s[|a|..|a| + |sep|] == sep;
    }
    var r := FindFrom(s, sep, 0);
    FindFromOccurs(s, sep, 0);
    FindFromFirst(s, sep, 0);
    assert r == Some(|a|);
    assert s[..|a|] == a;
    assert s[|a| + |sep|..] == b;
  }

  /** A one-character separator occurs only where that character stands. */
  lemma OccursAtChar(s: string, c: char, k: nat)
    ensures OccursAt(s, [c], k) <==> k < |s| && s[k] == c
  {
    if k < |s| {
      assert s[k..k + 1] == [s[k]];
    }
  }
}
