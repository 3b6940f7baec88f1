/** Pod names of a statefulset and the ordinals they carry (pkg/common/scheduler/statefulset/helpers.go). */
module PodNames {
  import opened Options

  const MAX_INT32: int := 0x7fff_ffff
  const MIN_INT32: int := -0x8000_0000

  predicate IsDigit(c: char) {
    '0' <= c <= '9'
  }

  function Digit(d: nat): (c: char)
    requires d < 10
    ensures IsDigit(c) && DigitValue(c) == d
  {
    '0' + d as char
  }

  function DigitValue(c: char): nat
    requires IsDigit(c)
  {
    (c - '0') as nat
  }

  /** The decimal digits of n, without sign or leading zeros. */
  function Decimal(n: nat): string {
    if n < 10 then [Digit(n)] else Decimal(n / 10) + [Digit(n % 10)]
  }

  function Itoa(i: int): string {
    if i < 0 then "-" + Decimal(-i) else Decimal(i)
  }

  predicate AllDigits(s: string) {
    forall i :: 0 <= i < |s| ==> IsDigit(s[i])
  }

  function DecimalValue(s: string): nat
    requires AllDigits(s)
  {
    if s == "" then 0 else 10 * DecimalValue(s[..|s| - 1]) + DigitValue(s[|s| - 1])
  }

  /** Base-10 parsing into 32 bits: an optional sign, at least one digit, and a value in range. */
  function ParseInt32(s: string): (r: Option<int>)
    ensures r.Some? ==> s != "" && MIN_INT32 <= r.value <= MAX_INT32 && (s[0] != '-' ==> 0 <= r.value)
  {
    var signed := s != "" && (s[0] == '+' || s[0] == '-');
    var digits := if signed then s[1..] else s;
    if digits == "" || !AllDigits(digits) then None
    else
      var n: int := DecimalValue(digits);
      var value := if signed && s[0] == '-' then -n else n;
      if MIN_INT32 <= value <= MAX_INT32 then Some(value) else None
  }

  /** The last index of c in s, or -1. */
  function LastIndex(s: string, c: char): (r: int)
    ensures -1 <= r < |s|
    ensures r >= 0 ==> s[r] == c
    ensures forall i :: r < i < |s| ==> s[i] != c
  {
    if s == "" then -1
    else if s[|s| - 1] == c then |s| - 1
    else LastIndex(s[..|s| - 1], c)
  }

  function PodNameFromOrdinal(name: string, ordinal: int): string {
    name + "-" + Itoa(ordinal)
  }

  /** The ordinal after the last hyphen; a name without one reads as the largest ordinal. It is never negative,
      because what follows the last hyphen cannot carry a minus sign. */
  function OrdinalFromPodName(podName: string): (ordinal: nat)
    ensures ordinal <= MAX_INT32
  {
    hide ParseInt32, LastIndex;
    var suffix := podName[LastIndex(podName, '-') + 1..];
    assert suffix != "" ==> suffix[0] == podName[LastIndex(podName, '-') + 1];
    match ParseInt32(suffix)
    case Some(ordinal) => ordinal
    case None => MAX_INT32
  }

  lemma {:induction false} DecimalRoundTrip(n: nat)
    ensures Decimal(n) != "" && AllDigits(Decimal(n))
    ensures DecimalValue(Decimal(n)) == n
  {
    if n < 10 {
      assert DecimalValue(Decimal(n)[..0]) == 0;
    } else {
      DecimalRoundTrip(n / 10);
      assert Decimal(n)[..|Decimal(n)| - 1] == Decimal(n / 10);
    }
  }

  lemma SuffixAfterHyphen(prefix: string, suffix: string)
    requires '-' !in suffix
    ensures var s := prefix + "-" + suffix; s[LastIndex(s, '-') + 1..] == suffix
    ensures LastIndex(suffix, '-') == -1
  {
    hide LastIndex;
    var s := prefix + "-" + suffix;
    assert s[|prefix|] == '-';
    forall i | |prefix| < i < |s| ensures s[i] != '-' {
      assert s[i] == suffix[i - |prefix| - 1];
    }
    assert LastIndex(s, '-') == |prefix|;
  }

  /** The digits written after the last hyphen are what is parsed back. */
  lemma SuffixOfPodName(prefix: string, n: nat)
    ensures var s := prefix + "-" + Decimal(n); s[LastIndex(s, '-') + 1..] == Decimal(n)
  {
    hide LastIndex, Decimal;
    DecimalRoundTrip(n);
    assert '-' !in Decimal(n);
    SuffixAfterHyphen(prefix, Decimal(n));
  }

  lemma ParseDecimal(n: nat)
    ensures ParseInt32(Decimal(n)) == if n <= MAX_INT32 then Some(n) else None
  {
    DecimalRoundTrip(n);
    assert IsDigit(Decimal(n)[0]);
  }

  /** What is read back from a name that ends in a hyphen and digits. */
  lemma OrdinalOfDecimal(prefix: string, n: nat)
    ensures OrdinalFromPodName(prefix + "-" + Decimal(n)) == if n <= MAX_INT32 then n else MAX_INT32
  {
    hide ParseInt32, LastIndex, Decimal;
    SuffixOfPodName(prefix, n);
    ParseDecimal(n);
  }

  /** Not an optional plus sign and one or more digits. */
  predicate Malformed(suffix: string) {
    var digits := if suffix != "" && suffix[0] == '+' then suffix[1..] else suffix;
    digits == "" || !AllDigits(digits)
  }

  lemma MalformedDoesNotParse(suffix: string)
    requires Malformed(suffix) && (suffix != "" ==> suffix[0] != '-')
    ensures ParseInt32(suffix) == None
  {
  }

  /** A name whose part after the last hyphen is malformed reads as the largest ordinal. */
  lemma MalformedReadsLargest(prefix: string, suffix: string)
    requires '-' !in suffix && Malformed(suffix)
    ensures OrdinalFromPodName(prefix + "-" + suffix) == MAX_INT32
    ensures OrdinalFromPodName(suffix) == MAX_INT32
  {
    hide LastIndex, ParseInt32, Malformed;
    SuffixAfterHyphen(prefix, suffix);
    MalformedDoesNotParse(suffix);
    assert suffix[0..] == suffix;
  }

  /** An ordinal survives the trip through a pod name exactly when it is not negative, whatever the statefulset is
      called. */
  lemma OrdinalRoundTrip(name: string, ordinal: int)
    requires MIN_INT32 <= ordinal <= MAX_INT32
    ensures OrdinalFromPodName(PodNameFromOrdinal(name, ordinal)) == ordinal <==> 0 <= ordinal
  {
    hide OrdinalFromPodName, Decimal;
    if 0 <= ordinal {
      OrdinalOfDecimal(name, ordinal);
    } else {
      OrdinalOfDecimal(name + "-", -ordinal);
      assert PodNameFromOrdinal(name, ordinal) == name + "-" + "-" + Decimal(-ordinal);
    }
  }

  /** Different ordinals never share a pod name. */
  lemma PodNamesDiffer(name: string, o1: nat, o2: nat)
    requires o1 <= MAX_INT32 && o2 <= MAX_INT32
    ensures PodNameFromOrdinal(name, o1) == PodNameFromOrdinal(name, o2) <==> o1 == o2
  {
    hide OrdinalFromPodName, PodNameFromOrdinal;
    OrdinalRoundTrip(name, o1);
    OrdinalRoundTrip(name, o2);
  }
}
