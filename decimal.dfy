/**
 * Decimal integer text as Go's `strconv` writes and reads it: `Itoa` (also the
 * `%d` verb) and `Atoi` with its 64-bit range check and clamping.
 */
module Decimal {
  import opened Prelude

  const MaxInt64: int := 0x7FFF_FFFF_FFFF_FFFF
  const MinInt64: int := -0x8000_0000_0000_0000
  const MaxUint64: int := 0xFFFF_FFFF_FFFF_FFFF

  /** A Go `int` on a 64-bit platform. */
  predicate InInt64(n: int) {
    MinInt64 <= n <= MaxInt64
  }

  predicate IsDigit(c: char) {
    '0' <= c <= '9'
  }

  predicate AllDigits(s: string) {
    forall i :: 0 <= i < |s| ==> IsDigit(s[i])
  }

  function DigitChar(d: nat): (c: char)
    requires d < 10
    ensures IsDigit(c)
  {
    ('0' as int + d) as char
  }

  function DigitValue(c: char): (d: nat)
    requires IsDigit(c)
    ensures d < 10 && DigitChar(d) == c
  {
    c as int - '0' as int
  }

  /** The number a string of digits denotes, read most significant digit first. */
  function DigitsValue(s: string): nat
    requires AllDigits(s)
    decreases |s|
  {
    if s == [] then 0 else DigitsValue(s[..|s| - 1]) * 10 + DigitValue(s[|s| - 1])
  }

  /** The decimal digits of `n`, without leading zeros. */
  function NatDigits(n: nat): (s: string)
    ensures |s| >= 1 && AllDigits(s)
    ensures |s| > 1 ==> s[0] != '0'
    decreases n
  {
    if n < 10 then [DigitChar(n)] else NatDigits(n / 10) + [DigitChar(n % 10)]
  }

  /** `strconv.Itoa(n)`, which is also what `fmt.Sprintf("%d", n)` prints. */
  function Itoa(n: int): string {
    if n < 0 then "-" + NatDigits(-n) else NatDigits(n)
  }

  /** `NatDigits` denotes the number it was made from. */
  lemma {:induction false} NatDigitsValue(n: nat)
    ensures DigitsValue(NatDigits(n)) == n
    decreases n
  {
    var s := NatDigits(n);
    if n >= 10 {
      NatDigitsValue(n / 10);
      assert s[..|s| - 1] == NatDigits(n / 10);
    }
  }

  /** The two kinds of `*strconv.NumError`. */
  datatype NumError = ErrSyntax | ErrRange

  /** What `strconv.Atoi` returns: the value (0 or the clamped bound on error) and the error. */
  datatype Parsed = Parsed(value: int, err: Option<NumError>)

  /**
   * The digit loop of `strconv.ParseUint` in base 10: a non-digit is a syntax error,
   * and an accumulated value beyond 2^64-1 is a range error reported at once.
   */
  function ScanUint(s: string, acc: nat): (r: Parsed)
    requires acc <= MaxUint64
    ensures r.err.None? ==> 0 <= r.value <= MaxUint64
    ensures r.err.Some? && r.err.value.ErrRange? ==> r.value == MaxUint64
    ensures r.err.Some? && r.err.value.ErrSyntax? ==> r.value == 0
    decreases |s|
  {
    if s == [] then Parsed(acc, None)
    else if !IsDigit(s[0]) then Parsed(0, Some(ErrSyntax))
    else if acc * 10 + DigitValue(s[0]) > MaxUint64 then Parsed(MaxUint64, Some(ErrRange))
    else ScanUint(s[1..], acc * 10 + DigitValue(s[0]))
  }

  /** `strconv.ParseUint(s, 10, 64)` */
  function ParseUint(s: string): (r: Parsed)
    ensures r.err.None? ==> 0 <= r.value <= MaxUint64
    ensures r.err.Some? && r.err.value.ErrRange? ==> r.value == MaxUint64
  {
    if s == [] then Parsed(0, Some(ErrSyntax)) else ScanUint(s, 0)
  }

  /**
   * `strconv.Atoi(s)` on a 64-bit platform: an optional sign, then `ParseUint` on the
   * rest; syntax errors give 0, values out of the `int` range give the nearest bound.
   */
  function Atoi(s: string): (r: Parsed)
    ensures InInt64(r.value)
    ensures r.err == Some(ErrSyntax) ==> r.value == 0
  {
    if s == [] then Parsed(0, Some(ErrSyntax))
    else
      var neg := s[0] == '-';
      var body := if s[0] == '+' || s[0] == '-' then s[1..] else s;
      var u := ParseUint(body);
      if u.err.Some? && u.err.value.ErrSyntax? then Parsed(0, Some(ErrSyntax))
      else if !neg && u.value > MaxInt64 then Parsed(MaxInt64, Some(ErrRange))
      else if neg && u.value > -MinInt64 then Parsed(MinInt64, Some(ErrRange))
      else Parsed(if neg then -u.value else u.value, None)
  }

  /** Scanning one more digit extends the scan of the prefix, unless the prefix already failed. */
  lemma {:induction false} ScanUintSnoc(p: string, c: char, acc: nat)
    requires acc <= MaxUint64 && IsDigit(c)
    requires ScanUint(p, acc).err.None?
    ensures var v := ScanUint(p, acc).value;
      ScanUint(p + [c], acc) ==
        if v * 10 + DigitValue(c) > MaxUint64 then Parsed(MaxUint64, Some(ErrRange))
        else Parsed(v * 10 + DigitValue(c), None)
    decreases |p|
  {
    if p == [] {
      assert p + [c] == [c];
      assert [c][1..] == [];
    } else {
      assert (p + [c])[1..] == p[1..] + [c];
      ScanUintSnoc(p[1..], c, acc * 10 + DigitValue(p[0]));
    }
  }

  /** `ParseUint` reads back the digits of any number that fits in 64 bits. */
  lemma {:induction false} ScanNatDigits(n: nat)
    requires n <= MaxUint64
    ensures ScanUint(NatDigits(n), 0) == Parsed(n, None)
    decreases n
  {
    if n >= 10 {
      ScanNatDigits(n / 10);
      ScanUintSnoc(NatDigits(n / 10), DigitChar(n % 10), 0);
    } else {
      assert NatDigits(n)[1..] == [];
    }
  }

  /** Round trip: `Atoi(Itoa(n))` gives back `n` with no error, for every Go `int`. */
  lemma AtoiItoa(n: int)
    requires InInt64(n)
    ensures Atoi(Itoa(n)) == Parsed(n, None)
  {
    if n < 0 {
      ScanNatDigits(-n);
      assert ("-" + NatDigits(-n))[1..] == NatDigits(-n);
    } else {
      ScanNatDigits(n);
    }
  }

  /** Distinct Go `int`s print differently. */
  lemma ItoaInjective(m: int, n: int)
    requires InInt64(m) && InInt64(n)
    requires Itoa(m) == Itoa(n)
    ensures m == n
  {
    AtoiItoa(m);
    AtoiItoa(n);
  }

  /** A syntax error exactly when the text is not an optional sign followed by one or more digits. */
  lemma {:induction false} AtoiSyntax(s: string)
    ensures Atoi(s).err == Some(ErrSyntax) <==>
      var body := if s != [] && (s[0] == '+' || s[0] == '-') then s[1..] else s;
      s == [] || body == [] || !AllDigitsPrefixUntilOverflow(body, 0)
  {
    if s != [] {
      var body := if s[0] == '+' || s[0] == '-' then s[1..] else s;
      if body != [] {
        ScanSyntax(body, 0);
      }
    }
  }

  /**
   * The digits of `s` are all read before a non-digit is met or the value overflows;
   * a range error found first hides a later non-digit, as in `ParseUint`.
   */
  predicate AllDigitsPrefixUntilOverflow(s: string, acc: nat)
    requires acc <= MaxUint64
    decreases |s|
  {
    s == [] ||
    (IsDigit(s[0]) &&
      (acc * 10 + DigitValue(s[0]) > MaxUint64 ||
       AllDigitsPrefixUntilOverflow(s[1..], acc * 10 + DigitValue(s[0]))))
  }

  lemma {:induction false} ScanSyntax(s: string, acc: nat)
    requires acc <= MaxUint64
    ensures ScanUint(s, acc).err == Some(ErrSyntax) <==> !AllDigitsPrefixUntilOverflow(s, acc)
    decreases |s|
  {
    if s != [] && IsDigit(s[0]) && acc * 10 + DigitValue(s[0]) <= MaxUint64 {
      ScanSyntax(s[1..], acc * 10 + DigitValue(s[0]));
    }
  }
}
