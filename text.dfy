/** Character and string helpers: decimal digits, prefixes, substrings, ASCII case, whitespace. */
module Text {

  predicate IsDigit(c: char) { '0' <= c <= '9' }

  predicate AllDigits(s: string) { forall i | 0 <= i < |s| :: IsDigit(s[i]) }

  function DigitValue(c: char): (n: nat)
    requires IsDigit(c)
    ensures n < 10
  {
    (c as int - '0' as int) as nat
  }

  function DigitChar(n: nat): (c: char)
    requires n < 10
    ensures IsDigit(c) && DigitValue(c) == n
  {
    ('0' as int + n) as char
  }

  function Pow10(k: nat): (p: nat)
    ensures p >= 1
  {
    if k == 0 then 1 else 10 * Pow10(k - 1)
  }

  /** The number a string of decimal digits denotes, read most significant digit first. */
  function DigitsValue(s: string): nat
    requires AllDigits(s)
  {
    if s == [] then 0 else 10 * DigitsValue(s[..|s| - 1]) + DigitValue(s[|s| - 1])
  }

  lemma {:induction false} DigitsValueBound(s: string)
    requires AllDigits(s)
    ensures DigitsValue(s) < Pow10(|s|)
  {
    if s != [] {
      DigitsValueBound(s[..|s| - 1]);
    }
  }

  /** Reading a concatenation of digit strings shifts the left part by the length of the right part. */
  lemma {:induction false} DigitsValueAppend(a: string, b: string)
    requires AllDigits(a) && AllDigits(b)
    ensures AllDigits(a + b)
    ensures DigitsValue(a + b) == DigitsValue(a) * Pow10(|b|) + DigitsValue(b)
  {
    if b == [] {
      assert a + b == a;
    } else {
      var b' := b[..|b| - 1];
      assert (a + b)[..|a + b| - 1] == a + b';
      DigitsValueAppend(a, b');
      var x, y, z := DigitsValue(a), DigitsValue(b'), DigitValue(b[|b| - 1]);
      assert DigitsValue(a + b) == 10 * (x * Pow10(|b'|) + y) + z;
      assert DigitsValue(b) == 10 * y + z;
      Regroup(x, Pow10(|b'|), y, z);
    }
  }

  lemma Regroup(x: int, p: int, y: int, z: int)
    ensures 10 * (x * p + y) + z == x * (10 * p) + (10 * y + z)
  {
  }

  /** Python's `str(n)` for a natural number: its shortest decimal rendering. */
  function NatToString(n: nat): (s: string)
    ensures |s| >= 1 && AllDigits(s)
    ensures DigitsValue(s) == n
    ensures s[0] == '0' ==> n == 0 && |s| == 1
  {
    if n < 10 then [DigitChar(n)]
    else
      var prefix := NatToString(n / 10);
      var s := prefix + [DigitChar(n % 10)];
      assert s[..|s| - 1] == prefix;
      s
  }

  /** Exactly `w` digits of `n`, zero-padded on the left (strftime's `%d` and `%Y`). */
  function FixedDigits(n: nat, w: nat): (s: string)
    ensures |s| == w && AllDigits(s)
    ensures DigitsValue(s) == n % Pow10(w)
  {
    if w == 0 then ""
    else
      var prefix := FixedDigits(n / 10, w - 1);
      var s := prefix + [DigitChar(n % 10)];
      assert s[..|s| - 1] == prefix;
      FixedDigitsStep(n, w);
      s
  }

  lemma FixedDigitsStep(n: nat, w: nat)
    requires w >= 1
    ensures 10 * ((n / 10) % Pow10(w - 1)) + n % 10 == n % Pow10(w)
  {
    var p := Pow10(w - 1);
    var q := n / 10;
    var a := q / p;
    var b := q % p;
    assert q == a * p + b;
    assert n == 10 * q + n % 10;
    assert n == a * (10 * p) + (10 * b + n % 10);
    assert 0 <= 10 * b + n % 10 < 10 * p;
    UniqueDivMod(n, 10 * p, a, 10 * b + n % 10);
  }

  lemma UniqueDivMod(n: nat, d: nat, q: int, r: int)
    requires d > 0 && 0 <= r < d && n == q * d + r
    ensures n / d == q && n % d == r
  {
    var q', r' := n / d, n % d;
    assert n == q' * d + r';
    assert (q - q') * d == r' - r;
    if q > q' {
      MulAtLeast(q - q', d);
    } else if q < q' {
      MulAtLeast(q' - q, d);
    }
  }

  lemma MulAtLeast(a: int, d: int)
    requires a >= 1 && d > 0
    ensures a * d >= d
  {
  }

  /** Re-rendering a digit string at its own width gives the string back. */
  lemma {:induction false} FixedDigitsOfDigits(s: string)
    requires AllDigits(s)
    ensures FixedDigits(DigitsValue(s), |s|) == s
  {
    DigitsValueBound(s);
    UniqueDivMod(DigitsValue(s), Pow10(|s|), 0, DigitsValue(s));
    var r := FixedDigits(DigitsValue(s), |s|);
    assert DigitsValue(r) == DigitsValue(s);
    DigitsValueInjective(r, s);
  }

  lemma {:induction false} DigitsValueInjective(a: string, b: string)
    requires AllDigits(a) && AllDigits(b) && |a| == |b|
    requires DigitsValue(a) == DigitsValue(b)
    ensures a == b
  {
    if a != [] {
      var a', b' := a[..|a| - 1], b[..|b| - 1];
      DigitsValueBound(a');
      DigitsValueBound(b');
      assert DigitValue(a[|a| - 1]) == DigitsValue(a) % 10;
      assert DigitValue(b[|b| - 1]) == DigitsValue(b) % 10;
      assert DigitsValue(a') == DigitsValue(b');
      DigitsValueInjective(a', b');
      assert a[|a| - 1] == b[|b| - 1];
      assert a == a' + [a[|a| - 1]];
      assert b == b' + [b[|b| - 1]];
    }
  }

  predicate StartsWith(s: string, prefix: string) {
    |prefix| <= |s| && s[..|prefix|] == prefix
  }

  predicate OccursAt(s: string, sub: string, i: int) {
    0 <= i <= |s| - |sub| && s[i..i + |sub|] == sub
  }

  /** Python's `sub in s` for strings. */
  predicate Contains(s: string, sub: string) {
    exists i | 0 <= i <= |s| - |sub| :: OccursAt(s, sub, i)
  }

  function LowerChar(c: char): char {
    if 'A' <= c <= 'Z' then (c as int + 32) as char else c
  }

  /** `str.lower()` restricted to ASCII letters. */
  function LowerAscii(s: string): (r: string)
    ensures |r| == |s|
    ensures forall i | 0 <= i < |s| :: r[i] == LowerChar(s[i])
  {
    seq(|s|, i requires 0 <= i < |s| => LowerChar(s[i]))
  }

  /** The ASCII characters `str.isspace()` accepts: tab to carriage return, the four separators U+001C..U+001F, and space. */
  predicate IsSpace(c: char) {
    ('\t' <= c <= '\r') || ('\U{001C}' <= c <= '\U{001F}') || c == ' '
  }

  function StripLeft(s: string): (r: string)
    ensures r == [] || !IsSpace(r[0])
    ensures exists k | 0 <= k <= |s| :: r == s[k..] && forall i | 0 <= i < k :: IsSpace(s[i])
  {
    if s != [] && IsSpace(s[0]) then
      var t := s[1..];
      var r := StripLeft(t);
      var k :| 0 <= k <= |t| && r == t[k..] && forall i | 0 <= i < k :: IsSpace(t[i]);
      assert r == s[k + 1..];
      r
    else
      assert s == s[0..];
      s
  }

  function StripRight(s: string): (r: string)
    ensures r == [] || !IsSpace(r[|r| - 1])
    ensures exists k | 0 <= k <= |s| :: r == s[..k] && forall i | k <= i < |s| :: IsSpace(s[i])
  {
    if s != [] && IsSpace(s[|s| - 1]) then
      var t := s[..|s| - 1];
      var r := StripRight(t);
      var k :| 0 <= k <= |t| && r == t[..k] && forall i | k <= i < |t| :: IsSpace(t[i]);
      assert r == s[..k];
      r
    else
      assert s == s[..|s|];
      s
  }

  /** `str.strip()` over the ASCII whitespace characters. */
  function Strip(s: string): (r: string)
    ensures r == [] || (!IsSpace(r[0]) && !IsSpace(r[|r| - 1]))
  {
    StripRight(StripLeft(s))
  }
}
