/** The parts of Go's strconv package that the core relies on, on a 64-bit
    platform: Atoi, Itoa and ParseBool, with the messages of their errors. */
module Strconv {
  import opened Common

  const MaxInt64: int := 0x7fff_ffff_ffff_ffff
  const MinInt64: int := -0x8000_0000_0000_0000
  const MaxUint64: int := 0xffff_ffff_ffff_ffff

  /** The largest value whose tenfold still fits 64 bits, plus one (ParseUint's cutoff). */
  const Cutoff: int := MaxUint64 / 10 + 1

  predicate IsDigit(c: char)
  {
    '0' <= c <= '9'
  }

  function DigitValue(c: char): int
    requires IsDigit(c)
  {
    c as int - '0' as int
  }

  /** strconv.Quote, for text that needs no escape other than a quote or a backslash. */
  function Quote(s: string): string
  {
    "\"" + Escape(s) + "\""
  }

  function Escape(s: string): string
  {
    if |s| == 0 then ""
    else if s[0] == '"' then "\\\"" + Escape(s[1..])
    else if s[0] == '\\' then "\\\\" + Escape(s[1..])
    else [s[0]] + Escape(s[1..])
  }

  /** The message of a *strconv.NumError. */
  function NumError(fn: string, num: string, outOfRange: bool): Error
  {
    Foreign("strconv." + fn + ": parsing " + Quote(num) + ": " +
            (if outOfRange then "value out of range" else "invalid syntax"))
  }

  /** Outcome of ParseUint's digit loop. */
  datatype Digits = Value(n: nat) | BadSyntax | OutOfRange

  /** ParseUint's loop in base 10: checks each character and stops at the first
      overflow, before it looks at the rest of the text. */
  function ScanDigits(s: string, acc: nat): (r: Digits)
    requires acc <= MaxUint64
    ensures r.Value? ==> r.n <= MaxUint64
    decreases |s|
  {
    if |s| == 0 then Value(acc)
    else if !IsDigit(s[0]) then BadSyntax
    else if acc >= Cutoff then OutOfRange
    else
      var next := acc * 10 + DigitValue(s[0]);
      if next > MaxUint64 then OutOfRange else ScanDigits(s[1..], next)
  }

  /** strconv.Atoi: an optional sign followed by decimal digits, within 64 bits. */
  function Atoi(s: string): (r: Result<int>)
    ensures r.Ok? ==> MinInt64 <= r.value <= MaxInt64
    ensures r.Err? ==> r.error.Foreign?
  {
    if |s| == 0 then Err(NumError("Atoi", s, false))
    else
      var neg := s[0] == '-';
      var digits := if s[0] == '-' || s[0] == '+' then s[1..] else s;
      if |digits| == 0 then Err(NumError("Atoi", s, false))
      else
        match ScanDigits(digits, 0)
        case BadSyntax => Err(NumError("Atoi", s, false))
        case OutOfRange => Err(NumError("Atoi", s, true))
        case Value(u) =>
          if !neg && u > MaxInt64 then Err(NumError("Atoi", s, true))
          else if neg && u > -MinInt64 then Err(NumError("Atoi", s, true))
          else
            var v: int := u;
            Ok(if neg then -v else v)
  }

  /** The decimal digits of a natural number, most significant first. */
  function Decimal(n: nat): (s: string)
    ensures |s| >= 1 && forall i :: 0 <= i < |s| ==> IsDigit(s[i])
  {
    if n < 10 then ['0' + n as char]
    else Decimal(n / 10) + ['0' + (n % 10) as char]
  }

  /** strconv.Itoa. */
  function Itoa(n: int): (r: string)
    ensures |r| >= 1 && (r[0] == '-' <==> n < 0)
    ensures forall i :: 1 <= i < |r| ==> IsDigit(r[i])
  {
    if n < 0 then "-" + Decimal(-n) else Decimal(n)
  }

  /** strconv.ParseBool. */
  function ParseBool(s: string): (r: Result<bool>)
    ensures r.Err? ==> r.error.Foreign?
  {
    if s in {"1", "t", "T", "TRUE", "true", "True"} then Ok(true)
    else if s in {"0", "f", "F", "FALSE", "false", "False"} then Ok(false)
    else Err(NumError("ParseBool", s, false))
  }

  /** The value of a digit string, read left to right onto `acc`, without any bound. */
  function Accumulate(s: string, acc: int): int
    requires forall i :: 0 <= i < |s| ==> IsDigit(s[i])
    decreases |s|
  {
    if |s| == 0 then acc else Accumulate(s[1..], acc * 10 + DigitValue(s[0]))
  }

  lemma {:induction false} AccumulateGrows(s: string, acc: nat)
    requires forall i :: 0 <= i < |s| ==> IsDigit(s[i])
    ensures Accumulate(s, acc) >= acc
    ensures |s| >= 1 ==> Accumulate(s, acc) >= acc * 10 + DigitValue(s[0])
    decreases |s|
  {
    if |s| >= 1 {
      AccumulateGrows(s[1..], acc * 10 + DigitValue(s[0]));
    }
  }

  lemma {:induction false} AccumulateSnoc(s: string, c: char, acc: int)
    requires forall i :: 0 <= i < |s| ==> IsDigit(s[i])
    requires IsDigit(c)
    ensures forall i :: 0 <= i < |s + [c]| ==> IsDigit((s + [c])[i])
    ensures Accumulate(s + [c], acc) == Accumulate(s, acc) * 10 + DigitValue(c)
    decreases |s|
  {
    if |s| == 0 {
      assert s + [c] == [c];
    } else {
      assert (s + [c])[1..] == s[1..] + [c];
      AccumulateSnoc(s[1..], c, acc * 10 + DigitValue(s[0]));
    }
  }

  /** ParseUint's loop computes the value of a digit string whenever that value fits 64 bits. */
  lemma {:induction false} ScanDigitsValue(s: string, acc: nat)
    requires acc <= MaxUint64
    requires forall i :: 0 <= i < |s| ==> IsDigit(s[i])
    requires 0 <= Accumulate(s, acc) <= MaxUint64
    ensures ScanDigits(s, acc) == Value(Accumulate(s, acc))
    decreases |s|
  {
    if |s| >= 1 {
      AccumulateGrows(s, acc);
      var next := acc * 10 + DigitValue(s[0]);
      ScanDigitsValue(s[1..], next);
    }
  }

  /** The digits of `n` read back give `n`. */
  lemma {:induction false} DecimalValue(n: nat)
    ensures Accumulate(Decimal(n), 0) == n
  {
    if n >= 10 {
      DecimalValue(n / 10);
      AccumulateSnoc(Decimal(n / 10), '0' + (n % 10) as char, 0);
    }
  }

  /** Atoi reads back every 64-bit integer that Itoa prints. */
  lemma AtoiItoa(n: int)
    requires MinInt64 <= n <= MaxInt64
    ensures Atoi(Itoa(n)) == Ok(n)
  {
    var m := if n < 0 then -n else n;
    DecimalValue(m);
    AccumulateGrows(Decimal(m), 0);
    ScanDigitsValue(Decimal(m), 0);
    var s := Itoa(n);
    if n < 0 {
      assert s[1..] == Decimal(m);
    }
  }
}
