/** Decimal rendering and parsing of Go `int` values: `strconv.Itoa` (also
    what `fmt.Sprintf("%d", n)` prints) and `strconv.Atoi` on a 64-bit
    platform. */
module Strconv {
  import opened Wrappers

  const MinInt64: int := -0x8000_0000_0000_0000
  const MaxInt64: int := 0x7fff_ffff_ffff_ffff

  /** A value of Go's `int` on a 64-bit platform. */
  predicate IsInt64(n: int)
  {
    MinInt64 <= n <= MaxInt64
  }

  predicate IsDigit(c: char)
  {
    '0' <= c <= '9'
  }

  predicate AllDigits(s: string)
  {
    forall i :: 0 <= i < |s| ==> IsDigit(s[i])
  }

  function DigitChar(d: int): (c: char)
    requires 0 <= d < 10
    ensures IsDigit(c)
  {
    ('0' as int + d) as char
  }

  function DigitValue(c: char): (d: nat)
    requires IsDigit(c)
    ensures d < 10 && DigitChar(d) == c
  {
    c as int - '0' as int
  }

  /** The value of a run of decimal digits, most significant first. */
  function DecimalValue(s: string): nat
    requires AllDigits(s)
  {
    if |s| == 0 then 0 else DecimalValue(s[..|s| - 1]) * 10 + DigitValue(s[|s| - 1])
  }

  /** The shortest decimal digits of `n` (no leading zero unless `n` is 0). */
  function NatDigits(n: nat): (r: string)
    ensures |r| >= 1 && AllDigits(r)
    ensures |r| > 1 ==> r[0] != '0'
  {
    if n < 10 then [DigitChar(n)] else NatDigits(n / 10) + [DigitChar(n % 10)]
  }

  /** `strconv.Itoa`: an optional `-` followed by the digits of `|n|`. */
  function Itoa(n: int): (r: string)
    ensures |r| >= 1
    ensures n >= 0 ==> AllDigits(r)
    ensures n < 0 ==> r[0] == '-' && AllDigits(r[1..])
    ensures n >= 0 ==> |r| > 1 ==> r[0] != '0'
    ensures n < 0 ==> |r| >= 2 && (|r| > 2 ==> r[1] != '0')
  {
    if n < 0 then "-" + NatDigits(-n) else NatDigits(n)
  }

  /** `strconv.Atoi` for base 10: an optional `+` or `-`, then at least one
      ASCII digit and nothing else, with a value that fits in 64 bits. Any
      other input is an error (`None`); the error's kind (syntax or range)
      is not kept. */
  function Atoi(s: string): (r: Option<int>)
    ensures r.Some? ==> IsInt64(r.value)
    ensures |s| == 0 ==> r == None
  {
    var signed := |s| > 0 && (s[0] == '+' || s[0] == '-');
    var digits := if signed then s[1..] else s;
    if |digits| == 0 || !AllDigits(digits) then None
    else
      var m: int := DecimalValue(digits);
      var v := if signed && s[0] == '-' then -m else m;
      if IsInt64(v) then Some(v) else None
  }

  /** Reading back the digits of `n` gives `n`. */
  lemma {:induction false} DecimalValueOfDigits(n: nat)
    ensures DecimalValue(NatDigits(n)) == n
  {
    if n >= 10 {
      var r := NatDigits(n);
      DecimalValueOfDigits(n / 10);
      assert r[..|r| - 1] == NatDigits(n / 10);
    }
  }

  /** `Atoi` inverts `Itoa` on every 64-bit integer. */
  lemma AtoiItoa(n: int)
    requires IsInt64(n)
    ensures Atoi(Itoa(n)) == Some(n)
  {
    var s := Itoa(n);
    if n < 0 {
      DecimalValueOfDigits(-n);
      assert s[1..] == NatDigits(-n);
    } else {
      DecimalValueOfDigits(n);
    }
  }

  /** A leading `+` is accepted as well. */
  lemma AtoiPlusItoa(n: nat)
    requires n <= MaxInt64
    ensures Atoi("+" + Itoa(n)) == Some(n)
  {
    DecimalValueOfDigits(n);
    assert ("+" + Itoa(n))[1..] == Itoa(n);
  }

  /** A string holding anything other than digits after an optional sign is
      rejected, whatever its length. */
  lemma AtoiRejectsNonDigit(s: string, i: nat)
    requires 0 < i < |s| || (i == 0 < |s| && s[0] != '+' && s[0] != '-')
    requires !IsDigit(s[i])
    ensures Atoi(s) == None
  {
    if |s| > 0 && (s[0] == '+' || s[0] == '-') {
      assert s[1..][i - 1] == s[i];
    }
  }

  /** Values past the 64-bit range are rejected even though they are well formed. */
  lemma AtoiRejectsOutOfRange(n: int)
    requires !IsInt64(n)
    ensures Atoi(Itoa(n)) == None
  {
    var s := Itoa(n);
    if n < 0 {
      DecimalValueOfDigits(-n);
      assert s[1..] == NatDigits(-n);
    } else {
      DecimalValueOfDigits(n);
    }
  }
}
