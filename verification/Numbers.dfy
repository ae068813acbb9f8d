// Go's decimal numbers: fmt's %d and strconv.Atoi on 64-bit integers.
module Numbers {
  import opened Prelude

  predicate IsDigit(c: char) {
    '0' <= c <= '9'
  }

  function DigitChar(d: nat): (c: char)
    requires d < 10
    ensures IsDigit(c)
  {
    ('0' as int + d) as char
  }

  function Decimal(n: nat): (s: string)
    ensures |s| > 0
  {
    if n < 10 then [DigitChar(n)] else Decimal(n / 10) + [DigitChar(n % 10)]
  }

  function Itoa(n: int): string {
    if n < 0 then "-" + Decimal(-n) else Decimal(n)
  }

  predicate AllDigits(s: string) {
    forall i :: 0 <= i < |s| ==> IsDigit(s[i])
  }

  function Value(s: string): nat
    requires AllDigits(s)
  {
    if s == "" then 0 else 10 * Value(s[..|s| - 1]) + (s[|s| - 1] as int - '0' as int)
  }

  const MIN_INT: int := -0x8000_0000_0000_0000
  const MAX_INT: int := 0x7fff_ffff_ffff_ffff

  function Atoi(s: string): Option<int> {
    var signed := s != "" && (s[0] == '-' || s[0] == '+');
    var digits := if signed then s[1..] else s;
    if digits == "" || !AllDigits(digits) then None
    else
      var n: int := if signed && s[0] == '-' then -(Value(digits) as int) else Value(digits);
      if MIN_INT <= n <= MAX_INT then Some(n) else None
  }

  lemma {:induction false} DecimalReadsBack(n: nat)
    ensures AllDigits(Decimal(n)) && Value(Decimal(n)) == n
  {
    if n >= 10 {
      DecimalReadsBack(n / 10);
      var s := Decimal(n);
      assert s[..|s| - 1] == Decimal(n / 10);
    } else {
      assert [DigitChar(n)][..0] == "";
    }
  }

  lemma AtoiOfDigits(d: string)
    requires d != "" && AllDigits(d)
    ensures Atoi(d) == if Value(d) <= MAX_INT then Some(Value(d)) else None
    ensures Atoi("-" + d) == if Value(d) <= -MIN_INT then Some(-(Value(d) as int)) else None
  {
    assert IsDigit(d[0]);
    assert ("-" + d)[1..] == d;
  }

  function Magnitude(n: int): nat {
    if n < 0 then -n else n
  }

  lemma AtoiItoa(n: int)
    ensures Atoi(Itoa(n)) == if MIN_INT <= n <= MAX_INT then Some(n) else None
  {
    DecimalReadsBack(Magnitude(n));
    AtoiOfDigits(Decimal(Magnitude(n)));
  }

  lemma DashInside(s: string, k: nat)
    requires 0 < k < |s| && s[k] == '-'
    ensures Atoi(s) == None
  {
    assert s[1..][k - 1] == '-';
  }

  // Behind a dash only a number without a sign reads as a number, and then as its negative.
  lemma AtoiOfDashed(x: string, n: int)
    ensures Atoi(x + "-" + Itoa(n)) == if x == "" && 0 <= n <= -MIN_INT then Some(-n) else None
  {
    var s := x + "-" + Itoa(n);
    if x != "" {
      DashInside(s, |x|);
    } else if n < 0 {
      assert s[1] == '-';
      DashInside(s, 1);
    } else {
      assert s == "-" + Decimal(n);
      DecimalReadsBack(n);
      AtoiOfDigits(Decimal(n));
    }
  }

  lemma DecimalIsDigits(n: nat)
    ensures AllDigits(Decimal(n)) && '-' !in Decimal(n) && ':' !in Decimal(n)
  {
    DecimalReadsBack(n);
  }

  lemma DecimalInjective(m: nat, n: nat)
    ensures Decimal(m) == Decimal(n) <==> m == n
  {
    DecimalReadsBack(m);
    DecimalReadsBack(n);
  }

  lemma ItoaSign(n: int)
    ensures var s := Itoa(n);
      s != "" && (s[0] == '-' <==> n < 0) && Decimal(Magnitude(n)) == if n < 0 then s[1..] else s
  {
    DecimalIsDigits(Magnitude(n));
    assert IsDigit(Decimal(Magnitude(n))[0]);
  }

  lemma ItoaInjective(m: int, n: int)
    requires Itoa(m) == Itoa(n)
    ensures m == n
  {
    ItoaSign(m);
    ItoaSign(n);
    DecimalInjective(Magnitude(m), Magnitude(n));
  }
}
