/** The text the scripts produce and consume: decimal rendering of the
    confirmed positions (Python's `str(int)` inside f-strings), and
    `str.strip()`, which code2o.py applies to every line it reads. */
module Text {

  predicate IsDigit(c: char)
  {
    '0' as int <= c as int <= '9' as int
  }

  function DigitChar(d: nat): (c: char)
    requires d < 10
    ensures IsDigit(c) && (c as int) - ('0' as int) == d
  {
    ('0' as int + d) as char
  }

  /** `str(n)` for a non-negative integer: most significant digit first,
      no leading zero. */
  function Decimal(n: nat): (r: string)
    ensures |r| >= 1
    ensures forall i :: 0 <= i < |r| ==> IsDigit(r[i])
    ensures |r| > 1 ==> r[0] != '0'
    ensures n < 10 <==> |r| == 1
  {
    if n < 10 then [DigitChar(n)] else Decimal(n / 10) + [DigitChar(n % 10)]
  }

  function DigitValue(c: char): (d: nat)
    requires IsDigit(c)
    ensures d < 10 && DigitChar(d) == c
  {
    (c as int) - ('0' as int)
  }

  /** The number a string of decimal digits denotes (`int(s)`). */
  function DecimalValue(s: string): nat
    requires forall i :: 0 <= i < |s| ==> IsDigit(s[i])
  {
    if s == [] then 0 else 10 * DecimalValue(s[..|s| - 1]) + DigitValue(s[|s| - 1])
  }

  /** Rendering loses nothing: reading the digits back gives the number. */
  lemma {:induction false} DecimalRoundTrip(n: nat)
    ensures DecimalValue(Decimal(n)) == n
  {
    if n >= 10 {
      DecimalRoundTrip(n / 10);
      var r := Decimal(n);
      assert r[..|r| - 1] == Decimal(n / 10);
    }
  }

  /** Distinct numbers are rendered as distinct strings. */
  lemma DecimalInjective(m: nat, n: nat)
    requires Decimal(m) == Decimal(n)
    ensures m == n
  {
    DecimalRoundTrip(m);
    DecimalRoundTrip(n);
  }

  /** Texts that are equal after a common prefix are equal. */
  lemma CommonPrefix(p: string, a: string, b: string)
    requires p + a == p + b
    ensures a == b
  {
    assert a == (p + a)[|p|..] && b == (p + b)[|p|..];
  }

  /** Where one number's digits end inside a longer number, the text after
      the shorter one starts with a digit. */
  lemma DigitsThenText(m: nat, x: string, n: nat, y: string)
    requires Decimal(m) + x == Decimal(n) + y && |Decimal(m)| < |Decimal(n)|
    ensures x != [] && IsDigit(x[0])
  {
    var k := |Decimal(m)|;
    assert (Decimal(m) + x)[k] == x[0];
    assert (Decimal(n) + y)[k] == Decimal(n)[k];
  }

  /** A number printed in front of text that does not start with a digit
      can be read back: the digits and the text after them are determined. */
  lemma DecimalPrefix(m: nat, n: nat, x: string, y: string)
    requires x != [] ==> !IsDigit(x[0])
    requires y != [] ==> !IsDigit(y[0])
    requires Decimal(m) + x == Decimal(n) + y
    ensures m == n && x == y
  {
    var dm, dn := Decimal(m), Decimal(n);
    if |dm| < |dn| {
      DigitsThenText(m, x, n, y);
      assert false;
    } else if |dn| < |dm| {
      DigitsThenText(n, y, m, x);
      assert false;
    }
    assert dm == (dm + x)[..|dm|] && dn == (dn + y)[..|dn|];
    DecimalInjective(m, n);
    assert x == (dm + x)[|dm|..] && y == (dn + y)[|dn|..];
  }

  /** Python's `str.isspace()` for one character: the characters of
      bidirectional class WS, B or S, and those of category Zs. */
  predicate IsSpace(c: char)
  {
    var k := c as int;
    (0x09 <= k <= 0x0D) || (0x1C <= k <= 0x20) || k == 0x85 || k == 0xA0
    || k == 0x1680 || (0x2000 <= k <= 0x200A) || k == 0x2028 || k == 0x2029
    || k == 0x202F || k == 0x205F || k == 0x3000
  }

  /** The blank, tab, newline and carriage return are whitespace; digits
      and ASCII letters, and so every command, are not. */
  lemma SpaceClasses(c: char)
    ensures c == ' ' || c == '\t' || c == '\n' || c == '\r' ==> IsSpace(c)
    ensures IsDigit(c) || 'a' <= c <= 'z' || 'A' <= c <= 'Z' ==> !IsSpace(c)
  {
  }

  predicate AllSpace(s: string)
  {
    forall i :: 0 <= i < |s| ==> IsSpace(s[i])
  }

  /** `s.strip()`: `s` without its leading and trailing whitespace. */
  function Strip(s: string): (r: string)
    ensures |r| <= |s|
    ensures r == [] <==> AllSpace(s)
    ensures r != [] ==> !IsSpace(r[0]) && !IsSpace(r[|r| - 1])
    decreases |s|
  {
    if s != [] && IsSpace(s[0]) then
      assert forall i :: 1 <= i < |s| ==> s[i] == s[1..][i - 1];
      Strip(s[1..])
    else if s != [] && IsSpace(s[|s| - 1]) then
      assert forall i :: 0 <= i < |s| - 1 ==> s[i] == s[..|s| - 1][i];
      Strip(s[..|s| - 1])
    else s
  }

  /** Stripping removes exactly the padding: whitespace around a text that
      neither starts nor ends with whitespace is all that `strip()` drops. */
  lemma {:induction false} StripRemovesPadding(left: string, x: string, right: string)
    requires AllSpace(left) && AllSpace(right)
    requires x != [] ==> !IsSpace(x[0]) && !IsSpace(x[|x| - 1])
    ensures Strip(left + x + right) == x
    decreases |left| + |right|
  {
    var s := left + x + right;
    if left != [] {
      assert s[0] == left[0] && s[1..] == left[1..] + x + right;
      StripRemovesPadding(left[1..], x, right);
    } else if right != [] {
      if x == [] {
        assert s == right && s[1..] == [] + [] + right[1..];
        StripRemovesPadding([], [], right[1..]);
      } else {
        assert s[0] == x[0] && s[|s| - 1] == right[|right| - 1];
        assert s[..|s| - 1] == [] + x + right[..|right| - 1];
        StripRemovesPadding([], x, right[..|right| - 1]);
      }
    } else {
      assert s == x;
    }
  }

  /** Stripping twice is stripping once. */
  lemma StripIdempotent(s: string)
    ensures Strip(Strip(s)) == Strip(s)
  {
    var r := Strip(s);
    StripRemovesPadding([], r, []);
    assert [] + r + [] == r;
  }
}
