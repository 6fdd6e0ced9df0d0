/** Rendering of numbers, and the string facts that the salt preimage and the
    idempotency keys rest on. */
module Text {

  function Digit(d: nat): char
    requires d < 10
  {
    '0' + d as char
  }

  /** fmt's %d of an unsigned number. */
  function Decimal(n: nat): string {
    if n < 10 then [Digit(n)] else Decimal(n / 10) + [Digit(n % 10)]
  }

  predicate IsDigits(s: string) {
    forall i :: 0 <= i < |s| ==> '0' <= s[i] <= '9'
  }

  lemma {:induction false} DecimalIsDigits(n: nat)
    ensures |Decimal(n)| > 0 && IsDigits(Decimal(n))
  {
    if n >= 10 {
      DecimalIsDigits(n / 10);
    }
  }

  lemma DecimalEnds(n: nat)
    ensures
      var s := Decimal(n);
      && |s| > 0
      && s[|s| - 1] == Digit(n % 10)
      && (|s| == 1 <==> n < 10)
      && (n >= 10 ==> s[..|s| - 1] == Decimal(n / 10))
  {
    if n >= 10 {
      DecimalIsDigits(n / 10);
    }
  }

  lemma {:induction false} DecimalInjective(m: nat, n: nat)
    requires Decimal(m) == Decimal(n)
    ensures m == n
  {
    DecimalEnds(m);
    DecimalEnds(n);
    if m >= 10 {
      DecimalInjective(m / 10, n / 10);
    }
  }

  /** The number that a string of digits stands for. */
  function NumberOf(s: string): int {
    if s == "" then 0 else 10 * NumberOf(s[..|s| - 1]) + (s[|s| - 1] as int - '0' as int)
  }

  /** Rendered numbers read back, and have no leading zero. */
  lemma {:induction false} DecimalReadsBack(n: nat)
    ensures NumberOf(Decimal(n)) == n
    ensures |Decimal(n)| > 0 && (Decimal(n)[0] == '0' ==> n == 0)
  {
    DecimalEnds(n);
    if n >= 10 {
      DecimalReadsBack(n / 10);
    } else {
      assert Decimal(n)[..0] == "";
    }
  }

  /** The part before the first separator is determined when it does not hold
      the separator itself. */
  lemma FirstPartUnique(x: string, y: string, x': string, y': string, sep: char)
    requires x + [sep] + y == x' + [sep] + y'
    requires sep !in x && sep !in x'
    ensures x == x' && y == y'
  {
    var s := x + [sep] + y;
    assert s[|x|] == sep && s[|x'|] == sep;
    assert forall i :: 0 <= i < |x| ==> s[i] == x[i];
    assert forall i :: 0 <= i < |x'| ==> s[i] == x'[i];
    assert |x| == |x'|;
    assert x == s[..|x|] && x' == s[..|x'|];
    assert y == s[|x| + 1..] && y' == s[|x'| + 1..];
  }

  /** Dually, the part after the last separator. */
  lemma LastPartUnique(x: string, y: string, x': string, y': string, sep: char)
    requires x + [sep] + y == x' + [sep] + y'
    requires sep !in y && sep !in y'
    ensures x == x' && y == y'
  {
    var s := x + [sep] + y;
    assert s[|x|] == sep && s[|x'|] == sep;
    assert forall i :: |x| < i < |s| ==> s[i] == y[i - |x| - 1];
    assert forall i :: |x'| < i < |s| ==> s[i] == y'[i - |x'| - 1];
    assert |x| == |x'|;
    assert x == s[..|x|] && x' == s[..|x'|];
    assert y == s[|x| + 1..] && y' == s[|x'| + 1..];
  }
}
