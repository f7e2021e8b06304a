/**
 * Text helpers: substring search as `String.includes` and an unanchored
 * regular expression do it, and numbers written in decimal as a template
 * literal writes them.
 */
module Text {
  /** `p` occurs in `s` starting at index `i`. */
  predicate OccursAt(s: string, p: string, i: int) {
    0 <= i && i + |p| <= |s| && s[i..i + |p|] == p
  }

  /** Whether `p` occurs anywhere in `s`, scanning from the front. */
  function Contains(s: string, p: string): (r: bool)
    ensures r <==> exists i :: OccursAt(s, p, i)
    decreases |s|
  {
    if |s| < |p| then false
    else if s[..|p|] == p then (assert OccursAt(s, p, 0); true)
    else
      var rest := Contains(s[1..], p);
      if rest then
        var i :| OccursAt(s[1..], p, i);
        assert OccursAt(s, p, i + 1) by { assert s[i + 1..i + 1 + |p|] == s[1..][i..i + |p|]; }
        true
      else
        assert forall i :: OccursAt(s, p, i) ==> i == 0 || OccursAt(s[1..], p, i - 1) by {
          forall i | OccursAt(s, p, i) && i != 0
            ensures OccursAt(s[1..], p, i - 1)
          {
            assert s[1..][i - 1..i - 1 + |p|] == s[i..i + |p|];
          }
        }
        false
  }

  predicate IsDigit(c: char) {
    '0' <= c <= '9'
  }

  predicate AllDigits(s: string) {
    forall i :: 0 <= i < |s| ==> IsDigit(s[i])
  }

  /** The digit character for d. */
  function DigitChar(d: nat): (r: char)
    requires d < 10
    ensures IsDigit(r)
  {
    ('0' as int + d) as char
  }

  /** The value of a digit character. */
  function DigitValue(c: char): (r: nat)
    requires IsDigit(c)
    ensures r < 10 && DigitChar(r) == c
  {
    c as int - '0' as int
  }

  /** The decimal digits of n, as Number.prototype.toString writes them: no sign, no leading zero. */
  function Decimal(n: nat): (r: string)
    ensures |r| >= 1 && AllDigits(r)
    ensures r[0] == '0' ==> n == 0
  {
    if n < 10 then [DigitChar(n)] else Decimal(n / 10) + [DigitChar(n % 10)]
  }

  /** The number a string of decimal digits denotes. */
  function ParseDecimal(s: string): (r: nat)
    requires AllDigits(s)
  {
    if s == [] then 0 else ParseDecimal(s[..|s| - 1]) * 10 + DigitValue(s[|s| - 1])
  }

  /** Reading back the decimal digits of n gives n. */
  lemma {:induction false} DecimalRoundTrip(n: nat)
    ensures ParseDecimal(Decimal(n)) == n
  {
    if n >= 10 {
      var d := Decimal(n);
      assert d[..|d| - 1] == Decimal(n / 10);
      DecimalRoundTrip(n / 10);
    }
  }

  /** Distinct numbers have distinct decimal strings. */
  lemma DecimalInjective(a: nat, b: nat)
    requires Decimal(a) == Decimal(b)
    ensures a == b
  {
    DecimalRoundTrip(a);
    DecimalRoundTrip(b);
  }

  /** `x` followed by a dot and `y`: how a version string joins its parts. */
  function Dotted(x: string, y: string): (r: string)
    ensures |r| == |x| + 1 + |y|
  {
    x + ['.'] + y
  }

  /** A shorter run of digits puts its dot where the longer one still has a digit. */
  lemma DotEndsDigits(x: string, y: string, x': string, y': string)
    requires AllDigits(x') && |x| < |x'|
    ensures Dotted(x, y) != Dotted(x', y')
  {
    assert Dotted(x, y)[|x|] == '.';
    assert Dotted(x', y')[|x|] == x'[|x|];
  }

  /** A dot after a run of digits marks where the run ends, so the split is unique. */
  lemma SplitAtDot(x: string, y: string, x': string, y': string)
    requires AllDigits(x) && AllDigits(x')
    requires Dotted(x, y) == Dotted(x', y')
    ensures x == x' && y == y'
  {
    var s := Dotted(x, y);
    if |x| < |x'| {
      DotEndsDigits(x, y, x', y');
      assert false;
    } else if |x'| < |x| {
      DotEndsDigits(x', y', x, y);
      assert false;
    }
    assert x == s[..|x|] == x';
    assert y == s[|x| + 1..] == y';
  }

  /** "a.b" determines a and b. */
  lemma DottedDecimalInjective(a: nat, b: nat, c: nat, d: nat)
    requires Dotted(Decimal(a), Decimal(b)) == Dotted(Decimal(c), Decimal(d))
    ensures a == c && b == d
  {
    SplitAtDot(Decimal(a), Decimal(b), Decimal(c), Decimal(d));
    DecimalInjective(a, c);
    DecimalInjective(b, d);
  }
}
