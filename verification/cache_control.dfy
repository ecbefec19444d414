/**
 * The scan of the provider's Cache-Control header values for a max-age
 * directive: the pattern max-age=(\d+) (pkg/service/api_server.go:26), which
 * finds its leftmost match in a value and captures the longest run of ASCII
 * digits there, and strconv.Atoi on that capture, which fails only when the
 * number does not fit in a 64-bit Go int.
 */
module CacheControl {
  import opened Wrappers

  /** The largest Go int on a 64-bit platform; strconv.Atoi reports a range error above it. */
  const MaxInt: int := 0x7FFF_FFFF_FFFF_FFFF

  /** The literal part of the pattern, before the digits. */
  const Prefix: string := "max-age="

  /** The \d class of Go's regexp package: ASCII digits only. */
  predicate IsDigit(c: char) {
    '0' <= c <= '9'
  }

  predicate AllDigits(s: string) {
    forall k :: 0 <= k < |s| ==> IsDigit(s[k])
  }

  /** The pattern max-age=(\d+) matches the value v at position i. */
  predicate MatchAt(v: string, i: nat) {
    i + |Prefix| < |v| && v[i..i + |Prefix|] == Prefix && IsDigit(v[i + |Prefix|])
  }

  /** Length of the run of digits that starts at position j: what the greedy \d+ consumes. */
  function DigitRun(v: string, j: nat): (n: nat)
    requires j <= |v|
    ensures j + n <= |v|
    ensures forall k :: j <= k < j + n ==> IsDigit(v[k])
    ensures j + n == |v| || !IsDigit(v[j + n])
    decreases |v| - j
  {
    if j < |v| && IsDigit(v[j]) then 1 + DigitRun(v, j + 1) else 0
  }

  /** The leftmost position at or after i where the pattern matches. */
  function FirstMatchFrom(v: string, i: nat): (r: Option<nat>)
    ensures r.Some? ==> i <= r.value && MatchAt(v, r.value)
    ensures r.Some? ==> forall k: nat :: i <= k < r.value ==> !MatchAt(v, k)
    ensures r.None? ==> forall k: nat :: i <= k ==> !MatchAt(v, k)
    decreases |v| - i
  {
    if |v| <= i + |Prefix| then None
    else if MatchAt(v, i) then Some(i)
    else FirstMatchFrom(v, i + 1)
  }

  /** The capture group of a match at position i: every digit that follows the prefix. */
  function Capture(v: string, i: nat): (digits: string)
    requires MatchAt(v, i)
    ensures 0 < |digits| && AllDigits(digits)
    ensures i + |Prefix| + |digits| <= |v| && v[i + |Prefix|..i + |Prefix| + |digits|] == digits
    ensures i + |Prefix| + |digits| == |v| || !IsDigit(v[i + |Prefix| + |digits|])
  {
    var start := i + |Prefix|;
    v[start..start + DigitRun(v, start)]
  }

  /**
   * FindStringSubmatch(v)[1]: the digits captured by the leftmost match of
   * max-age=(\d+) in v, or None when the pattern matches nowhere in v.
   */
  function FindMaxAge(v: string): (r: Option<string>)
    ensures r.Some? ==> 0 < |r.value| && AllDigits(r.value)
  {
    match FirstMatchFrom(v, 0)
    case None => None
    case Some(i) => Some(Capture(v, i))
  }

  function DigitValue(c: char): nat
    requires IsDigit(c)
  {
    (c - '0') as nat
  }

  /** The number a string of decimal digits denotes; leading zeros are allowed. */
  function DecimalValue(ds: string): nat
    requires AllDigits(ds)
  {
    if ds == [] then 0 else 10 * DecimalValue(ds[..|ds| - 1]) + DigitValue(ds[|ds| - 1])
  }

  function Pow10(n: nat): (p: nat)
    ensures 0 < p
  {
    if n == 0 then 1 else 10 * Pow10(n - 1)
  }

  /** strconv.Atoi on a digit string: its value, or None for the range error. */
  function Atoi(ds: string): (r: Option<int>)
    requires AllDigits(ds)
    ensures r.Some? ==> 0 <= r.value <= MaxInt
  {
    if DecimalValue(ds) <= MaxInt then Some(DecimalValue(ds)) else None
  }

  /** What the loop over the Cache-Control values yields. */
  datatype MaxAgeHint =
    | NoHint                  // no value matches: maxAge keeps its previous value
    | Hint(seconds: nat)      // the first matching value carries this max-age
    | HintOutOfRange          // the first matching value's digits overflow Atoi

  /** Index of the first Cache-Control value in which the pattern matches. */
  function FirstDirective(values: seq<string>): (r: Option<nat>)
    ensures r.Some? ==> r.value < |values| && FindMaxAge(values[r.value]).Some?
    ensures r.Some? ==> forall k :: 0 <= k < r.value ==> FindMaxAge(values[k]).None?
    ensures r.None? ==> forall k :: 0 <= k < |values| ==> FindMaxAge(values[k]).None?
  {
    if values == [] then None
    else if FindMaxAge(values[0]).Some? then Some(0)
    else match FirstDirective(values[1..])
      case None => None
      case Some(j) => Some(j + 1)
  }

  /** The first matching value is the one the scan of the values in order stops at. */
  lemma {:induction false} FirstDirectiveAt(values: seq<string>, i: nat)
    requires i < |values| && FindMaxAge(values[i]).Some?
    requires forall k :: 0 <= k < i ==> FindMaxAge(values[k]).None?
    ensures FirstDirective(values) == Some(i)
  {
    if 0 < i {
      assert FindMaxAge(values[0]).None?;
      var rest := values[1..];
      assert rest[i - 1] == values[i];
      forall k | 0 <= k < i - 1
        ensures FindMaxAge(rest[k]).None?
      {
        assert rest[k] == values[k + 1];
      }
      FirstDirectiveAt(rest, i - 1);
    }
  }

  /** The max-age directive of a response: the first matching value decides, the rest are ignored. */
  function ScanMaxAge(values: seq<string>): (r: MaxAgeHint)
    ensures r.NoHint? <==> forall k :: 0 <= k < |values| ==> FindMaxAge(values[k]).None?
    ensures r.Hint? ==> r.seconds <= MaxInt
  {
    match FirstDirective(values)
    case None => NoHint
    case Some(j) =>
      match Atoi(FindMaxAge(values[j]).value)
      case None => HintOutOfRange
      case Some(n) => Hint(n)
  }

  // ---------------------------------------------------------------------
  // Properties of the scan

  /** A number written with n digits is below 10^n. */
  lemma {:induction false} DecimalValueBound(ds: string)
    requires AllDigits(ds)
    ensures DecimalValue(ds) < Pow10(|ds|)
  {
    if ds != [] {
      DecimalValueBound(ds[..|ds| - 1]);
    }
  }

  lemma {:induction false} Pow10Monotone(m: nat, n: nat)
    requires m <= n
    ensures Pow10(m) <= Pow10(n)
    decreases n
  {
    if m < n {
      Pow10Monotone(m, n - 1);
    }
  }

  /** A max-age of at most 18 digits is always accepted by Atoi; only longer ones can overflow. */
  lemma ShortMaxAgeFits(ds: string)
    requires AllDigits(ds) && |ds| <= 18
    ensures Atoi(ds) == Some(DecimalValue(ds))
  {
    DecimalValueBound(ds);
    Pow10Monotone(|ds|, 18);
    assert Pow10(6) == 1_000_000;
    assert Pow10(12) == 1_000_000_000_000;
    assert Pow10(18) == 1_000_000_000_000_000_000;
  }

  /** FindStringSubmatch finds nothing exactly when the pattern matches at no position. */
  lemma NoCaptureIffNoMatch(v: string)
    ensures FindMaxAge(v).None? <==> forall k: nat :: !MatchAt(v, k)
  {
    var r := FirstMatchFrom(v, 0);
    if r.Some? {
      assert MatchAt(v, r.value);
    }
  }

  /** A match earlier in the value wins over any later one, whatever digits follow. */
  lemma LeftmostMatchWins(v: string, i: nat)
    requires MatchAt(v, i)
    requires forall k: nat :: k < i ==> !MatchAt(v, k)
    ensures FindMaxAge(v) == Some(Capture(v, i))
  {
    var r := FirstMatchFrom(v, 0);
    assert r.Some? && r.value == i;
  }

  /** Values after the first matching one are never looked at. */
  lemma {:induction false} LaterValuesIgnored(values: seq<string>, more: seq<string>)
    requires FirstDirective(values).Some?
    ensures FirstDirective(values + more) == FirstDirective(values)
    ensures ScanMaxAge(values + more) == ScanMaxAge(values)
  {
    assert values != [];
    if FindMaxAge(values[0]).None? {
      assert (values + more)[1..] == values[1..] + more;
      LaterValuesIgnored(values[1..], more);
    }
  }

  /** Values in which the pattern does not match, placed first, only shift the index of the first matching value. */
  lemma {:induction false} UnmatchedValuesShiftIndex(skipped: seq<string>, values: seq<string>)
    requires forall k :: 0 <= k < |skipped| ==> FindMaxAge(skipped[k]).None?
    ensures FirstDirective(skipped + values) ==
              match FirstDirective(values)
              case None => None
              case Some(j) => Some(|skipped| + j)
  {
    if skipped == [] {
      assert skipped + values == values;
    } else {
      var all := skipped + values;
      assert all[0] == skipped[0];
      assert all[1..] == skipped[1..] + values;
      UnmatchedValuesShiftIndex(skipped[1..], values);
    }
  }

  /** Values in which the pattern does not match can be prepended without changing the scan. */
  lemma UnmatchedValuesSkipped(skipped: seq<string>, values: seq<string>)
    requires forall k :: 0 <= k < |skipped| ==> FindMaxAge(skipped[k]).None?
    ensures ScanMaxAge(skipped + values) == ScanMaxAge(values)
  {
    UnmatchedValuesShiftIndex(skipped, values);
    match FirstDirective(values)
    case None =>
    case Some(j) =>
      assert (skipped + values)[|skipped| + j] == values[j];
  }
}
