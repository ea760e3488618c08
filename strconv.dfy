/**
 * Go's `strconv.Atoi` on a 64-bit platform (`ParseInt(s, 10, 0)`), with the digit loop of
 * `ParseUint` and its two failures, and `strconv.Itoa` as the inverse it is checked against.
 */
module Strconv {
  import opened Results

  const MaxInt64: int := 0x7fff_ffff_ffff_ffff
  const MinInt64: int := -0x8000_0000_0000_0000
  const MaxUint64: int := 0xffff_ffff_ffff_ffff
  /** `ParseUint`'s overflow guard for base 10: an accumulator at or above it cannot take another digit. */
  const Cutoff: int := MaxUint64 / 10 + 1

  predicate IsDigit(c: char) { '0' <= c <= '9' }

  predicate AllDigits(d: string) { forall i :: 0 <= i < |d| ==> IsDigit(d[i]) }

  function DigitValue(c: char): nat
    requires IsDigit(c)
  {
    (c as int) - ('0' as int)
  }

  /** The outcome of `ParseUint`'s digit loop. */
  datatype Scan = Scanned(value: nat) | Failed(kind: NumErrorKind)

  /**
   * `ParseUint`'s loop over the remaining characters `s` with accumulator `n`: a non-digit is a
   * syntax error, and an accumulator that would pass 2^64 - 1 is a range error, whichever comes first.
   */
  function ScanDigits(s: string, n: nat): Scan
  {
    if s == [] then Scanned(n)
    else if !IsDigit(s[0]) then Failed(ErrSyntax)
    else if n >= Cutoff then Failed(ErrRange)
    else
      var n1 := n * 10 + DigitValue(s[0]);
      if n1 > MaxUint64 then Failed(ErrRange) else ScanDigits(s[1..], n1)
  }

  /** `ParseUint(s, 10, 64)`: the empty string is a syntax error. */
  function ParseUint(s: string): Scan
  {
    if s == [] then Failed(ErrSyntax) else ScanDigits(s, 0)
  }

  /** `strconv.Atoi(s)`: an optional sign, then `ParseUint`, then the signed 64-bit range check. */
  function Atoi(s: string): (r: Result<int>)
    ensures r.Ok? ==> MinInt64 <= r.value <= MaxInt64
    ensures r.Err? ==> r.error.NumError? && r.error.num == s
    ensures s == [] ==> r == Err(NumError(s, ErrSyntax))
  {
    if s == [] then Err(NumError(s, ErrSyntax))
    else
      var neg := s[0] == '-';
      var digits := if s[0] == '+' || s[0] == '-' then s[1..] else s;
      match ParseUint(digits)
      case Failed(k) => Err(NumError(s, k))
      case Scanned(un) =>
        if !neg && un > MaxInt64 then Err(NumError(s, ErrRange))
        else if neg && un > -MinInt64 then Err(NumError(s, ErrRange))
        else
          var value: int := if neg then -(un as int) else un;
          Ok(value)
  }

  // ----- reference definition: positional decimal notation -----

  function Pow10(k: nat): (p: nat)
    ensures p >= 1
  {
    if k == 0 then 1 else 10 * Pow10(k - 1)
  }

  /** The value of a digit string read positionally, most significant digit first. */
  function DigitsValue(d: string): nat
    requires AllDigits(d)
  {
    if d == [] then 0 else DigitValue(d[0]) * Pow10(|d| - 1) + DigitsValue(d[1..])
  }

  /** `s` without its leading sign, if it has one. */
  function Unsigned(s: string): string
  {
    if |s| >= 1 && (s[0] == '+' || s[0] == '-') then s[1..] else s
  }

  /** An optional sign followed by at least one decimal digit. */
  predicate IsDecimal(s: string)
  {
    |Unsigned(s)| >= 1 && AllDigits(Unsigned(s))
  }

  function DecimalValue(s: string): int
    requires IsDecimal(s)
  {
    var magnitude: int := DigitsValue(Unsigned(s));
    if s[0] == '-' then -magnitude else magnitude
  }

  /** Appending digit `v` to the accumulator `n` shifts it one position left. */
  lemma ShiftedValue(n: nat, v: nat, p: nat)
    ensures n * (10 * p) + v * p == (n * 10 + v) * p
  {
  }

  lemma WeightAtLeastOne(m: nat, p: nat)
    requires p >= 1
    ensures m * p >= m
  {
  }

  lemma {:induction false} ScanDigitsValue(d: string, n: nat)
    requires AllDigits(d)
    requires n <= MaxUint64
    ensures ScanDigits(d, n) ==
      if n * Pow10(|d|) + DigitsValue(d) <= MaxUint64 then Scanned(n * Pow10(|d|) + DigitsValue(d))
      else Failed(ErrRange)
  {
    if d != [] {
      var k := |d| - 1;
      var v := DigitValue(d[0]);
      assert AllDigits(d[1..]);
      assert Pow10(|d|) == 10 * Pow10(k);
      assert n * Pow10(|d|) + DigitsValue(d) == (n * 10 + v) * Pow10(k) + DigitsValue(d[1..]) by {
        ShiftedValue(n, v, Pow10(k));
      }
      if n >= Cutoff {
        WeightAtLeastOne(n * 10 + v, Pow10(k));
      } else {
        var n1 := n * 10 + v;
        if n1 > MaxUint64 {
          WeightAtLeastOne(n1, Pow10(k));
        } else {
          ScanDigitsValue(d[1..], n1);
        }
      }
    }
  }

  lemma {:induction false} ScanDigitsOnlyDigits(d: string, n: nat)
    requires ScanDigits(d, n).Scanned?
    ensures AllDigits(d)
  {
    if d != [] {
      ScanDigitsOnlyDigits(d[1..], n * 10 + DigitValue(d[0]));
    }
  }

  /**
   * `Atoi` accepts exactly the decimal numerals whose value fits in 64 signed bits, and returns
   * that value.
   */
  lemma AtoiAcceptsDecimals(s: string)
    ensures Atoi(s).Ok? <==> IsDecimal(s) && MinInt64 <= DecimalValue(s) <= MaxInt64
    ensures Atoi(s).Ok? ==> Atoi(s).value == DecimalValue(s)
  {
    if s != [] {
      var digits := Unsigned(s);
      if digits != [] {
        if ScanDigits(digits, 0).Scanned? {
          ScanDigitsOnlyDigits(digits, 0);
        }
        if AllDigits(digits) {
          ScanDigitsValue(digits, 0);
        }
      }
    }
  }

  // ----- strconv.Itoa -----

  function DigitChar(v: nat): (c: char)
    requires v < 10
    ensures IsDigit(c) && DigitValue(c) == v
  {
    ('0' as int + v) as char
  }

  /** `strconv.FormatUint(n, 10)`: the digits of `n`, with no leading zeros. */
  function FormatUint(n: nat): (d: string)
    ensures |d| >= 1 && AllDigits(d)
  {
    if n < 10 then [DigitChar(n)] else FormatUint(n / 10) + [DigitChar(n % 10)]
  }

  /** `strconv.Itoa(n)`. */
  function Itoa(n: int): string
  {
    if n < 0 then "-" + FormatUint(-n) else FormatUint(n)
  }

  /** A digit's weight one position further left is ten times larger. */
  lemma ShiftedDigit(a: nat, p: nat)
    ensures a * (10 * p) == (a * p) * 10
  {
  }

  lemma {:induction false} DigitsValueSnoc(d: string, c: char)
    requires AllDigits(d) && IsDigit(c)
    ensures AllDigits(d + [c])
    ensures DigitsValue(d + [c]) == DigitsValue(d) * 10 + DigitValue(c)
  {
    if d != [] {
      var dc := d + [c];
      assert dc[0] == d[0] && dc[1..] == d[1..] + [c];
      assert AllDigits(d[1..]);
      DigitsValueSnoc(d[1..], c);
      var a, p, r, v := DigitValue(d[0]), Pow10(|d| - 1), DigitsValue(d[1..]), DigitValue(c);
      assert DigitsValue(dc) == a * Pow10(|d|) + (r * 10 + v);
      assert a * Pow10(|d|) == (a * p) * 10 by {
        assert Pow10(|d|) == 10 * p;
        ShiftedDigit(a, p);
      }
      assert DigitsValue(d) * 10 == (a * p) * 10 + r * 10 by {
        assert DigitsValue(d) == a * p + r;
      }
    }
  }

  lemma {:induction false} FormatUintValue(n: nat)
    ensures DigitsValue(FormatUint(n)) == n
  {
    if n >= 10 {
      FormatUintValue(n / 10);
      DigitsValueSnoc(FormatUint(n / 10), DigitChar(n % 10));
    }
  }

  /** `Itoa` writes a decimal numeral whose value is the number it was given. */
  lemma ItoaIsDecimal(n: int)
    ensures IsDecimal(Itoa(n)) && DecimalValue(Itoa(n)) == n
    ensures forall i :: 0 <= i < |Itoa(n)| ==> IsDigit(Itoa(n)[i]) || Itoa(n)[i] == '-'
  {
    if n < 0 {
      assert Unsigned(Itoa(n)) == FormatUint(-n);
      FormatUintValue(-n);
    } else {
      assert Unsigned(Itoa(n)) == FormatUint(n);
      FormatUintValue(n);
    }
  }

  /** Round trip: `Atoi(Itoa(n)) == n` for every 64-bit `n`. */
  lemma AtoiItoa(n: int)
    requires MinInt64 <= n <= MaxInt64
    ensures Atoi(Itoa(n)) == Ok(n)
  {
    ItoaIsDecimal(n);
    AtoiAcceptsDecimals(Itoa(n));
  }
}
