/**
 * The two text scanners of the trend endpoint: the greedy `[...]` span cut out of a model reply,
 * and the first signed decimal number in a `change_pct` value, rounded to tenths.
 * A percentage is carried as an integer number of tenths: 45.2% is 452.
 */
module TrendParsing {
  import opened Wrappers
  import opened Text
  import Json

  // ---------------------------------------------------------------------------------------------
  // clean_json_response: the greedy, newline-spanning match of \[.*\]
  // ---------------------------------------------------------------------------------------------

  function FirstIndex(s: string, c: char, from: nat): (r: Option<nat>)
    requires from <= |s|
    ensures r.Some? ==> from <= r.value < |s| && s[r.value] == c
    ensures r.Some? ==> forall k | from <= k < r.value :: s[k] != c
    ensures r.None? ==> forall k | from <= k < |s| :: s[k] != c
    decreases |s| - from
  {
    if from == |s| then None
    else if s[from] == c then Some(from)
    else FirstIndex(s, c, from + 1)
  }

  function LastIndex(s: string, c: char): (r: Option<nat>)
    ensures r.Some? ==> r.value < |s| && s[r.value] == c
    ensures r.Some? ==> forall k | r.value < k < |s| :: s[k] != c
    ensures r.None? ==> forall k | 0 <= k < |s| :: s[k] != c
  {
    if s == [] then None
    else if s[|s| - 1] == c then Some(|s| - 1)
    else LastIndex(s[..|s| - 1], c)
  }

  /** Some `[` is followed, anywhere later, by a `]`: the pattern matches somewhere. */
  predicate HasBracketSpan(text: string) {
    exists i, j | 0 <= i < j < |text| :: text[i] == '[' && text[j] == ']'
  }

  /** text[i..j+1] is the span from the first `[` to the last `]`. */
  predicate IsOuterSpan(text: string, i: int, j: int) {
    && 0 <= i < j < |text|
    && text[i] == '[' && text[j] == ']'
    && (forall k | 0 <= k < i :: text[k] != '[')
    && (forall k | j < k < |text| :: text[k] != ']')
  }

  /**
   * The text from the first `[` to the last `]`, both included and anything (newlines too) between;
   * `"[]"` when no `]` follows a `[`.
   */
  function CleanJsonResponse(text: string): (r: string)
    ensures |r| >= 2 && r[0] == '[' && r[|r| - 1] == ']'
    ensures HasBracketSpan(text) ==> exists i, j :: IsOuterSpan(text, i, j) && r == text[i..j + 1]
    ensures !HasBracketSpan(text) ==> r == "[]"
  {
    match (FirstIndex(text, '[', 0), LastIndex(text, ']'))
    case (Some(i), Some(j)) =>
      if i < j then
        assert IsOuterSpan(text, i, j);
        text[i..j + 1]
      else
        assert !HasBracketSpan(text);
        "[]"
    case _ => "[]"
  }

  // ---------------------------------------------------------------------------------------------
  // The leftmost match of [-+]?\d+(\.\d+)? and its value rounded to one decimal place
  // ---------------------------------------------------------------------------------------------

  predicate IsSign(c: char) { c == '-' || c == '+' }

  /** A match of the number pattern can begin at position p. */
  predicate NumberStartsAt(s: string, p: int) {
    0 <= p < |s| && (IsDigit(s[p]) || (IsSign(s[p]) && p + 1 < |s| && IsDigit(s[p + 1])))
  }

  /** The leftmost position at or after `from` where a number begins. */
  function FindNumber(s: string, from: nat): (r: Option<nat>)
    requires from <= |s|
    ensures r.Some? ==> from <= r.value && NumberStartsAt(s, r.value)
    ensures r.Some? ==> forall k | from <= k < r.value :: !NumberStartsAt(s, k)
    ensures r.None? ==> forall k | from <= k < |s| :: !NumberStartsAt(s, k)
    decreases |s| - from
  {
    if from == |s| then None
    else if NumberStartsAt(s, from) then Some(from)
    else FindNumber(s, from + 1)
  }

  /** The end of the longest run of digits starting at i. */
  function DigitRunEnd(s: string, i: nat): (e: nat)
    requires i <= |s|
    ensures i <= e <= |s| && AllDigits(s[i..e])
    ensures e == |s| || !IsDigit(s[e])
    decreases |s| - i
  {
    if i < |s| && IsDigit(s[i]) then
      var e := DigitRunEnd(s, i + 1);
      assert s[i..e] == [s[i]] + s[i + 1..e];
      e
    else i
  }

  /** A maximal run of digits is determined by where it starts. */
  lemma DigitRunEndIs(s: string, i: nat, e: nat)
    requires i <= e <= |s| && AllDigits(s[i..e])
    requires e == |s| || !IsDigit(s[e])
    ensures DigitRunEnd(s, i) == e
  {
    var e' := DigitRunEnd(s, i);
    forall k | i <= k < e ensures IsDigit(s[k]) {
      assert s[i..e][k - i] == s[k];
    }
    forall k | i <= k < e' ensures IsDigit(s[k]) {
      assert s[i..e'][k - i] == s[k];
    }
  }

  /** The groups of one match: the sign as written, the digits before the point, the digits after it. */
  datatype NumberMatch = NumberMatch(sign: string, whole: string, frac: string)

  /** The text a match covers. */
  function MatchText(m: NumberMatch): string {
    m.sign + m.whole + (if m.frac == [] then "" else "." + m.frac)
  }

  /** m is a greedy match of the number pattern at p: it covers the text there and cannot be extended. */
  predicate GreedyMatchAt(s: string, p: nat, m: NumberMatch) {
    && (m.sign == [] || (|m.sign| == 1 && IsSign(m.sign[0])))
    && |m.whole| >= 1 && AllDigits(m.whole) && AllDigits(m.frac)
    && p + |MatchText(m)| <= |s| && s[p..p + |MatchText(m)|] == MatchText(m)
    && var e := p + |MatchText(m)|;
       e == |s| || (!IsDigit(s[e]) && (m.frac == [] ==> !(s[e] == '.' && e + 1 < |s| && IsDigit(s[e + 1]))))
  }

  /** The greedy match that begins at p. */
  function MatchAt(s: string, p: nat): (m: NumberMatch)
    requires NumberStartsAt(s, p)
    ensures GreedyMatchAt(s, p, m)
  {
    var d := if IsDigit(s[p]) then p else p + 1;
    var a := DigitRunEnd(s, d);
    if a + 1 < |s| && s[a] == '.' && IsDigit(s[a + 1]) then
      var b := DigitRunEnd(s, a + 1);
      FractionMatch(s, p, d, a, b);
      NumberMatch(s[p..d], s[d..a], s[a + 1..b])
    else
      WholeMatch(s, p, d, a);
      NumberMatch(s[p..d], s[d..a], "")
  }

  lemma FractionMatch(s: string, p: nat, d: nat, a: nat, b: nat)
    requires NumberStartsAt(s, p) && d == (if IsDigit(s[p]) then p else p + 1)
    requires d < a < a + 1 < b <= |s| && AllDigits(s[d..a]) && s[a] == '.' && AllDigits(s[a + 1..b])
    requires b == |s| || !IsDigit(s[b])
    ensures GreedyMatchAt(s, p, NumberMatch(s[p..d], s[d..a], s[a + 1..b]))
  {
    var m := NumberMatch(s[p..d], s[d..a], s[a + 1..b]);
    SlicesJoin(s, p, d, a);
    DotJoin(s, p, a, b);
    assert m.frac != [];
  }

  lemma DotJoin(s: string, p: nat, a: nat, b: nat)
    requires p <= a < b <= |s| && s[a] == '.'
    ensures s[p..b] == s[p..a] + ("." + s[a + 1..b])
  {
    assert s[a..b] == "." + s[a + 1..b];
    SlicesJoin(s, p, a, b);
  }

  lemma WholeMatch(s: string, p: nat, d: nat, a: nat)
    requires NumberStartsAt(s, p) && d == (if IsDigit(s[p]) then p else p + 1)
    requires d < a <= |s| && AllDigits(s[d..a])
    requires a == |s| || !IsDigit(s[a])
    requires !(a + 1 < |s| && s[a] == '.' && IsDigit(s[a + 1]))
    ensures GreedyMatchAt(s, p, NumberMatch(s[p..d], s[d..a], ""))
  {
    var m := NumberMatch(s[p..d], s[d..a], "");
    SlicesJoin(s, p, d, a);
    assert MatchText(m) == s[p..a];
  }

  lemma SlicesJoin(s: string, i: nat, j: nat, k: nat)
    requires i <= j <= k <= |s|
    ensures s[i..j] + s[j..k] == s[i..k]
  {
  }

  function Abs(x: int): nat { if x < 0 then -x else x }

  /** n / d rounded to the nearest integer, a tie going to the even neighbour (Python's `round`). */
  function RoundHalfEven(n: nat, d: nat): (r: nat)
    requires d > 0
    ensures 2 * Abs(n - r * d) <= d
    ensures 2 * Abs(n - r * d) == d ==> r % 2 == 0
  {
    var q := n / d;
    var rem := n % d;
    DivModParts(n, d);
    RoundCandidates(n, d, q, rem);
    if 2 * rem > d || (2 * rem == d && q % 2 == 1) then q + 1 else q
  }

  lemma DivModParts(n: nat, d: nat)
    requires d > 0
    ensures n == (n / d) * d + n % d && 0 <= n % d < d
  {
  }

  /** The distances from n to the two multiples of d around it. */
  lemma RoundCandidates(n: nat, d: nat, q: nat, rem: nat)
    requires n == q * d + rem && rem < d
    ensures Abs(n - q * d) == rem
    ensures Abs(n - (q + 1) * d) == d - rem
  {
    assert (q + 1) * d == q * d + d;
  }

  /** `round(float(text), 1)` in tenths, for the exact decimal value of the matched text. */
  function MatchTenths(m: NumberMatch): int
    requires |m.whole| >= 1 && AllDigits(m.whole) && AllDigits(m.frac)
  {
    assert AllDigits(m.whole + m.frac);
    var digits: nat := DigitsValue(m.whole + m.frac);
    var magnitude: int := RoundHalfEven(10 * digits, Pow10(|m.frac|));
    var signed: int := if m.sign == "-" then -magnitude else magnitude;
    signed
  }

  /** The first signed decimal number in s rendered as tenths, or None when s has no such number. */
  function ExtractTenths(s: string): (r: Option<int>)
    ensures r.Some? ==> exists k | 0 <= k < |s| :: IsDigit(s[k])
  {
    match FindNumber(s, 0)
    case None => None
    case Some(p) => Some(MatchTenths(MatchAt(s, p)))
  }

  /** The number search fails exactly on text without a decimal digit. */
  lemma ExtractTenthsNoneIff(s: string)
    ensures ExtractTenths(s).None? <==> forall k | 0 <= k < |s| :: !IsDigit(s[k])
  {
    if ExtractTenths(s).None? {
      forall k | 0 <= k < |s| ensures !IsDigit(s[k]) {
        assert !NumberStartsAt(s, k);
      }
    } else {
      var p := FindNumber(s, 0).value;
      assert IsDigit(s[p]) || IsDigit(s[p + 1]);
    }
  }

  /** `f"{pct}%"` for a float that carries one decimal place. */
  function RenderPct(pct: int): string {
    Json.FloatToString(pct, 1) + "%"
  }

  /** Extracting the number back out of a rendered percentage gives the same tenths. */
  lemma ExtractRenderedPct(pct: int)
    ensures ExtractTenths(RenderPct(pct)) == Some(pct)
  {
    var a: nat := Abs(pct);
    var sign := if pct < 0 then "-" else "";
    var whole := NatToString(Json.WholePart(a, 1));
    var frac := [DigitChar(a % 10)];
    var s := RenderPct(pct);
    RenderedPctShape(pct, a, sign, whole, frac);
    var m := NumberMatch(sign, whole, frac);
    RenderedPctMatch(s, m);
    RenderedPctValue(pct, a, m);
  }

  lemma RenderedPctShape(pct: int, a: nat, sign: string, whole: string, frac: string)
    requires a == Abs(pct) && sign == (if pct < 0 then "-" else "")
    requires whole == NatToString(Json.WholePart(a, 1)) && frac == [DigitChar(a % 10)]
    ensures RenderPct(pct) == sign + whole + "." + frac + "%"
  {
    assert FixedDigits(a, 1) == FixedDigits(a / 10, 0) + [DigitChar(a % 10)];
  }

  /** A rendered percentage is matched as a whole, up to its `%`. */
  lemma RenderedPctMatch(s: string, m: NumberMatch)
    requires m.sign == "" || m.sign == "-"
    requires |m.whole| >= 1 && AllDigits(m.whole) && |m.frac| == 1 && AllDigits(m.frac)
    requires s == m.sign + m.whole + "." + m.frac + "%"
    ensures FindNumber(s, 0) == Some(0)
    ensures MatchAt(s, 0) == m
  {
    var d := |m.sign|;
    assert s[d] == m.whole[0];
    assert NumberStartsAt(s, 0);
    var dot := d + |m.whole|;
    assert s[d..dot] == m.whole;
    assert s[dot] == '.';
    DigitRunEndIs(s, d, dot);
    assert s[dot + 1..dot + 2] == m.frac;
    assert s[dot + 2] == '%';
    DigitRunEndIs(s, dot + 1, dot + 2);
  }

  lemma RenderedPctValue(pct: int, a: nat, m: NumberMatch)
    requires a == Abs(pct) && m.sign == (if pct < 0 then "-" else "")
    requires m.whole == NatToString(Json.WholePart(a, 1)) && m.frac == [DigitChar(a % 10)]
    ensures MatchTenths(m) == pct
  {
    DigitsValueAppend(m.whole, m.frac);
    assert DigitsValue(m.frac) == a % 10 by {
      assert m.frac[..0] == [];
    }
    assert DigitsValue(m.whole + m.frac) == a;
    assert Pow10(|m.frac|) == 10;
    RoundExact(a, 10);
  }

  lemma RoundExact(a: nat, d: nat)
    requires d > 0
    ensures RoundHalfEven(a * d, d) == a
  {
    UniqueDivMod(a * d, d, a, 0);
  }
}
