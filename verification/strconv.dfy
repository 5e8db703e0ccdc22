/**
 * Go's strconv.Atoi on a 64-bit platform: an optional '+' or '-', then one or
 * more decimal digits, whose value must fit in an int64. The digits are read
 * left to right, and reading stops at the first digit that would take the
 * magnitude past the largest uint64 (a range error) or at the first
 * non-digit (a syntax error), whichever comes first.
 */
module Strconv {
  import opened Values

  const MaxUint64: nat := 0xFFFF_FFFF_FFFF_FFFF
  const MaxInt64: int := 0x7FFF_FFFF_FFFF_FFFF
  const MinInt64: int := -0x8000_0000_0000_0000

  predicate IsDigit(c: char) {
    '0' <= c <= '9'
  }

  predicate AllDigits(s: string) {
    forall i :: 0 <= i < |s| ==> IsDigit(s[i])
  }

  function DigitValue(c: char): (d: nat)
    requires IsDigit(c)
    ensures d < 10
  {
    c as int - '0' as int
  }

  /** The character of one decimal digit. */
  function DigitChar(d: nat): (c: char)
    requires d < 10
    ensures IsDigit(c) && DigitValue(c) == d
  {
    ('0' as int + d) as char
  }

  /** The value of a digit string, most significant digit first, without any bound. */
  function Value(s: string): nat
    requires AllDigits(s)
  {
    if s == [] then 0 else Value(s[..|s| - 1]) * 10 + DigitValue(s[|s| - 1])
  }

  /** One round of ParseUint's loop: take one more character into the magnitude. */
  function Step(acc: nat, c: char): Result<nat, Cause> {
    if !IsDigit(c) then Failure(ErrSyntax)
    else if acc * 10 + DigitValue(c) > MaxUint64 then Failure(ErrRange)
    else Success(acc * 10 + DigitValue(c))
  }

  /** ParseUint's loop over the digits of `s`, starting from magnitude `acc`. */
  function ScanDigits(s: string, acc: nat): (r: Result<nat, Cause>)
    requires acc <= MaxUint64
    ensures r.Success? ==> r.value <= MaxUint64
    decreases |s|
  {
    if s == [] then Success(acc)
    else
      match Step(acc, s[0])
      case Failure(e) => Failure(e)
      case Success(next) => ScanDigits(s[1..], next)
  }

  predicate HasSign(s: string) {
    |s| > 0 && (s[0] == '+' || s[0] == '-')
  }

  /** What follows the optional sign. */
  function Body(s: string): string {
    if HasSign(s) then s[1..] else s
  }

  /** The strings strconv.Atoi accepts, leaving range aside. */
  predicate IsDecimal(s: string) {
    |s| > 0 && |Body(s)| > 0 && AllDigits(Body(s))
  }

  /** The signed value a decimal string denotes, without any bound. */
  function DecimalValue(s: string): int
    requires IsDecimal(s)
  {
    if s[0] == '-' then -(Value(Body(s)) as int) else Value(Body(s))
  }

  /**
   * strconv.Atoi. On failure the value Go also returns (0 or a clamped bound)
   * is left out, since no caller in this model reads it.
   */
  function Atoi(s: string): (r: Result<int, NumError>)
    ensures r.Success? ==> MinInt64 <= r.value <= MaxInt64
    ensures r.Failure? ==> r.error.fn == "Atoi" && r.error.num == s
  {
    if |Body(s)| == 0 then Failure(NumError("Atoi", s, ErrSyntax))
    else
      var negative := s[0] == '-';
      match ScanDigits(Body(s), 0)
      case Failure(cause) => Failure(NumError("Atoi", s, cause))
      case Success(u) =>
        if !negative && u > MaxInt64 then Failure(NumError("Atoi", s, ErrRange))
        else if negative && u > -MinInt64 then Failure(NumError("Atoi", s, ErrRange))
        else Success(if negative then -(u as int) else u)
  }

  /** The decimal digits of a magnitude, without leading zeros. */
  function Digits(m: nat): (s: string)
    ensures |s| > 0 && AllDigits(s) && Value(s) == m
  {
    if m < 10 then [DigitChar(m)]
    else
      var s := Digits(m / 10) + [DigitChar(m % 10)];
      assert s[..|s| - 1] == Digits(m / 10);
      s
  }

  /** strconv.Itoa: the reference formatting that Atoi must invert. */
  function Itoa(n: int): string {
    if n < 0 then "-" + Digits(-n) else Digits(n)
  }

  /** Reading one more character after `s` is one more round of the loop. */
  lemma {:induction false} ScanSnoc(s: string, c: char, acc: nat)
    requires acc <= MaxUint64
    ensures ScanDigits(s + [c], acc) ==
      match ScanDigits(s, acc)
      case Failure(e) => Failure(e)
      case Success(v) => Step(v, c)
    decreases |s|
  {
    if s == [] {
      assert s + [c] == [c];
    } else {
      assert (s + [c])[0] == s[0];
      assert (s + [c])[1..] == s[1..] + [c];
      match Step(acc, s[0])
      case Failure(e) =>
      case Success(next) => ScanSnoc(s[1..], c, next);
    }
  }

  /** On a digit string the loop yields the value, or a range error if it exceeds a uint64. */
  lemma {:induction false} ScanValue(s: string)
    requires AllDigits(s)
    ensures ScanDigits(s, 0) ==
      if Value(s) <= MaxUint64 then Success(Value(s)) else Failure(ErrRange)
    decreases |s|
  {
    if s != [] {
      var p, c := s[..|s| - 1], s[|s| - 1];
      assert s == p + [c];
      ScanValue(p);
      ScanSnoc(p, c, 0);
    }
  }

  /** A non-digit anywhere makes the loop fail (with a syntax or an earlier range error). */
  lemma {:induction false} ScanRejects(s: string, acc: nat)
    requires acc <= MaxUint64
    requires !AllDigits(s)
    ensures ScanDigits(s, acc).Failure?
    decreases |s|
  {
    if IsDigit(s[0]) {
      match Step(acc, s[0])
      case Failure(e) =>
      case Success(next) =>
        assert !AllDigits(s[1..]) by {
          var i :| 0 <= i < |s| && !IsDigit(s[i]);
          assert s[1..][i - 1] == s[i];
        }
        ScanRejects(s[1..], next);
    }
  }

  /**
   * Atoi accepts exactly the decimal strings whose value fits in an int64 and
   * returns that value; a decimal string out of that range is a range error.
   */
  lemma AtoiCharacterization(s: string)
    ensures Atoi(s).Success? <==> IsDecimal(s) && MinInt64 <= DecimalValue(s) <= MaxInt64
    ensures Atoi(s).Success? ==> Atoi(s).value == DecimalValue(s)
    ensures IsDecimal(s) && !(MinInt64 <= DecimalValue(s) <= MaxInt64) ==>
              Atoi(s) == Failure(NumError("Atoi", s, ErrRange))
  {
    if |Body(s)| > 0 {
      if AllDigits(Body(s)) {
        ScanValue(Body(s));
      } else {
        ScanRejects(Body(s), 0);
      }
    }
  }

  /** Atoi reads back every int64 that Itoa writes. */
  lemma AtoiItoa(n: int)
    requires MinInt64 <= n <= MaxInt64
    ensures Atoi(Itoa(n)) == Success(n)
  {
    var m: nat := if n < 0 then -n else n;
    var s := Itoa(n);
    assert Body(s) == Digits(m) by {
      assert IsDigit(Digits(m)[0]);
    }
    ScanValue(Digits(m));
  }
}
