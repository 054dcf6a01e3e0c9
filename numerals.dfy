/**
 * The text helpers the relay uses on its `port_range` setting and in its error
 * messages: splitting on a separator (Go's strings.Split), decimal parsing with
 * Go's strconv.Atoi rules, and decimal printing (the `%d` verb).
 */
module Numerals {

  const INT64_MIN: int := -0x8000_0000_0000_0000
  const INT64_MAX: int := 0x7FFF_FFFF_FFFF_FFFF

  /** Go's `int` on a 64-bit platform. */
  type Int64 = x: int | INT64_MIN <= x <= INT64_MAX

  /** Number of occurrences of `c` in `s`. */
  function Count(s: string, c: char): nat
  {
    if s == [] then 0 else (if s[0] == c then 1 else 0) + Count(s[1..], c)
  }

  lemma {:induction false} CountAbsent(s: string, c: char)
    requires c !in s
    ensures Count(s, c) == 0
  {
    if s != [] {
      CountAbsent(s[1..], c);
    }
  }

  /** Glues the pieces back together with `sep` between consecutive pieces. */
  function Join(parts: seq<string>, sep: char): string
    requires |parts| > 0
  {
    if |parts| == 1 then parts[0] else parts[0] + [sep] + Join(parts[1..], sep)
  }

  /**
   * strings.Split(s, sep) for a one-character separator: the maximal pieces
   * between separators, so that the empty string splits into one empty piece.
   */
  function Split(s: string, sep: char): (parts: seq<string>)
    ensures |parts| == Count(s, sep) + 1
    ensures forall i | 0 <= i < |parts| :: sep !in parts[i]
    ensures Join(parts, sep) == s
  {
    if s == [] then [""]
    else
      var rest := Split(s[1..], sep);
      if s[0] == sep then
        [""] + rest
      else
        var parts := [[s[0]] + rest[0]] + rest[1..];
        assert parts[1..] == rest[1..];
        assert Join(parts, sep) == [s[0]] + Join(rest, sep);
        parts
  }

  lemma {:induction false} SplitWithoutSeparator(s: string, sep: char)
    requires sep !in s
    ensures Split(s, sep) == [s]
  {
    CountAbsent(s, sep);
    var parts := Split(s, sep);
    assert |parts| == 1;
  }

  /** A string with exactly one separator splits into the text before it and the text after it. */
  lemma {:induction false} SplitAtOnlySeparator(a: string, b: string, sep: char)
    requires sep !in a && sep !in b
    ensures Split(a + [sep] + b, sep) == [a, b]
  {
    if a == [] {
      assert a + [sep] + b == [sep] + b;
      assert ([sep] + b)[1..] == b;
      SplitWithoutSeparator(b, sep);
    } else {
      assert (a + [sep] + b)[1..] == a[1..] + [sep] + b;
      SplitAtOnlySeparator(a[1..], b, sep);
      assert [a[0]] + a[1..] == a;
    }
  }

  predicate IsDigit(c: char) { '0' <= c <= '9' }

  predicate AllDigits(s: string) { forall i | 0 <= i < |s| :: IsDigit(s[i]) }

  function DigitValue(c: char): nat
    requires IsDigit(c)
  {
    c as int - '0' as int
  }

  /** The value of a run of decimal digits, most significant first. */
  function DigitsValue(s: string): nat
    requires AllDigits(s)
  {
    if s == [] then 0 else DigitsValue(s[..|s| - 1]) * 10 + DigitValue(s[|s| - 1])
  }

  const UINT64_MAX: int := 0xFFFF_FFFF_FFFF_FFFF

  /** Whether the text starts with a minus sign. */
  predicate Negative(s: string) { |s| > 0 && s[0] == '-' }

  /** The text after one optional leading sign. */
  function Unsigned(s: string): string
  {
    if |s| > 0 && (s[0] == '+' || s[0] == '-') then s[1..] else s
  }

  /** The syntax strconv.Atoi accepts: an optional sign and at least one decimal digit. */
  predicate WellFormedInt(s: string)
  {
    |Unsigned(s)| > 0 && AllDigits(Unsigned(s))
  }

  /** Out-of-range values saturate at the int64 bounds, as strconv.ParseInt reports them. */
  function Clamp64(i: int): (r: Int64)
    ensures INT64_MIN <= i <= INT64_MAX ==> r == i
    ensures i > INT64_MAX ==> r == INT64_MAX
    ensures i < INT64_MIN ==> r == INT64_MIN
  {
    if i < INT64_MIN then INT64_MIN else if i > INT64_MAX then INT64_MAX else i
  }

  /** Where strconv.ParseUint's scan of a decimal text stands. */
  datatype Scan = SyntaxError | RangeError | Parsed(value: nat)

  /**
   * The scan of strconv.ParseUint(s, 10, 64) after the first `k` characters:
   * it stops at the first non-digit (a syntax error) or at the first digit
   * that takes the value past 2^64 - 1 (a range error), whichever comes first.
   */
  function ScanPrefix(s: string, k: nat): (r: Scan)
    requires k <= |s|
    ensures r.Parsed? <==> AllDigits(s[..k]) && DigitsValue(s[..k]) <= UINT64_MAX
    ensures r.Parsed? ==> r.value == DigitsValue(s[..k])
    ensures forall j | 0 <= j < k ::
      !IsDigit(s[j]) && AllDigits(s[..j]) && DigitsValue(s[..j]) <= UINT64_MAX ==> r.SyntaxError?
    ensures forall j | 0 <= j <= k ::
      AllDigits(s[..j]) && DigitsValue(s[..j]) > UINT64_MAX ==> r.RangeError?
  {
    if k == 0 then Parsed(0)
    else
      assert s[..k][..k - 1] == s[..k - 1];
      assert forall j | 0 <= j < k - 1 :: s[..k - 1][..j] == s[..j] && s[..k][..j] == s[..j];
      match ScanPrefix(s, k - 1)
      case Parsed(n) =>
        if !IsDigit(s[k - 1]) then SyntaxError
        else if n * 10 + DigitValue(s[k - 1]) > UINT64_MAX then RangeError
        else Parsed(n * 10 + DigitValue(s[k - 1]))
      case other => other
  }

  /** strconv.ParseUint(s, 10, 64): the empty text is a syntax error. */
  function ParseUint(s: string): Scan
  {
    if s == [] then SyntaxError else ScanPrefix(s, |s|)
  }

  /**
   * strconv.Atoi as the relay calls it, with the error discarded (ParseInt's
   * path; the short-input fast path agrees with it). A syntax error met
   * before any overflow reads as 0; an overflow met before any syntax error
   * reads as the int64 bound of the sign, whatever follows it.
   */
  function Atoi(s: string): (n: Int64)
    ensures Unsigned(s) == [] ==> n == 0
    ensures forall j | 0 <= j < |Unsigned(s)| ::
      !IsDigit(Unsigned(s)[j]) && AllDigits(Unsigned(s)[..j]) && DigitsValue(Unsigned(s)[..j]) <= UINT64_MAX
      ==> n == 0
    ensures forall j | 0 <= j <= |Unsigned(s)| ::
      AllDigits(Unsigned(s)[..j]) && DigitsValue(Unsigned(s)[..j]) > UINT64_MAX
      ==> n == (if Negative(s) then INT64_MIN else INT64_MAX)
    ensures WellFormedInt(s) ==>
      n == Clamp64(if Negative(s) then -(DigitsValue(Unsigned(s)) as int) else DigitsValue(Unsigned(s)))
  {
    var u := Unsigned(s);
    assert u[..|u|] == u;
    match ParseUint(u)
    case SyntaxError => 0
    case RangeError => if Negative(s) then INT64_MIN else INT64_MAX
    case Parsed(v) => Clamp64(if Negative(s) then -(v as int) else v)
  }

  function Pow10(k: nat): (p: nat)
    ensures p >= 1
  {
    if k == 0 then 1 else 10 * Pow10(k - 1)
  }

  lemma {:induction false} DigitsValueBelowPow10(s: string)
    requires AllDigits(s)
    ensures DigitsValue(s) < Pow10(|s|)
  {
    if s != [] {
      DigitsValueBelowPow10(s[..|s| - 1]);
    }
  }

  lemma {:induction false} Pow10Monotone(i: nat, j: nat)
    requires i <= j
    ensures Pow10(i) <= Pow10(j)
  {
    if i < j {
      Pow10Monotone(i, j - 1);
    }
  }

  lemma {:induction false} DigitsValueAtLeastPow10(s: string)
    requires |s| > 0 && AllDigits(s) && s[0] != '0'
    ensures DigitsValue(s) >= Pow10(|s| - 1)
  {
    if |s| > 1 {
      DigitsValueAtLeastPow10(s[..|s| - 1]);
    }
  }

  /**
   * Twenty-one digits without a leading zero overflow before anything after
   * them is looked at: the number saturates even when garbage follows.
   */
  lemma OverflowBeforeGarbageSaturates(s: string)
    requires |Unsigned(s)| >= 21 && AllDigits(Unsigned(s)[..21]) && Unsigned(s)[0] != '0'
    ensures Atoi(s) == (if Negative(s) then INT64_MIN else INT64_MAX)
  {
    var u := Unsigned(s);
    DigitsValueAtLeastPow10(u[..21]);
    assert Pow10(4) == 10_000;
    assert Pow10(9) == 1_000_000_000;
    assert Pow10(14) == 100_000_000_000_000;
    assert Pow10(20) == 100_000_000_000_000_000_000;
  }

  /** The position of the first non-digit. */
  function FirstNonDigit(s: string): (j: nat)
    requires !AllDigits(s)
    ensures j < |s| && !IsDigit(s[j]) && AllDigits(s[..j])
  {
    if !IsDigit(s[0]) then 0
    else
      var j := 1 + FirstNonDigit(s[1..]);
      assert forall i | 1 <= i < j :: s[..j][i] == s[1..][..j - 1][i - 1];
      j
  }

  /**
   * A malformed number of at most 20 characters reads as 0: at most 19
   * digits can precede its first non-digit, too few to overflow.
   */
  lemma MalformedShortNumberIsZero(s: string)
    requires !WellFormedInt(s) && |s| <= 20
    ensures Atoi(s) == 0
  {
    var u := Unsigned(s);
    if u != [] {
      var j := FirstNonDigit(u);
      DigitsValueBelowPow10(u[..j]);
      Pow10Monotone(j, 19);
      assert Pow10(4) == 10_000;
      assert Pow10(9) == 1_000_000_000;
      assert Pow10(14) == 100_000_000_000_000;
      assert Pow10(19) == 10_000_000_000_000_000_000;
    }
  }

  function DigitChar(d: nat): (c: char)
    requires d < 10
    ensures IsDigit(c) && DigitValue(c) == d
  {
    ('0' as int + d) as char
  }

  /** Decimal text of a natural number, without leading zeros. */
  function NatToDecimal(n: nat): (s: string)
    ensures |s| > 0 && AllDigits(s) && DigitsValue(s) == n
    ensures IsDigit(s[0])
  {
    if n < 10 then [DigitChar(n)]
    else
      var front := NatToDecimal(n / 10);
      var s := front + [DigitChar(n % 10)];
      assert s[..|s| - 1] == front;
      s
  }

  /** Decimal text of an integer as Go's `%d` prints it. */
  function IntToDecimal(i: int): string
  {
    if i < 0 then "-" + NatToDecimal(-i) else NatToDecimal(i)
  }

  /** Atoi reads back what `%d` prints, for every int64. */
  lemma AtoiReadsDecimal(i: Int64)
    ensures Atoi(IntToDecimal(i)) == i
  {
    var s := IntToDecimal(i);
    if i < 0 {
      assert s[1..] == NatToDecimal(-(i as int));
      assert WellFormedInt(s);
    } else {
      assert WellFormedInt(s);
    }
  }
}
