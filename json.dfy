/**
 * The values `json.loads` produces, with the few Python operations the endpoints apply to them:
 * dictionary lookup and item assignment, truthiness, the type name shown in a TypeError, and `str()`.
 * A dictionary is its list of (key, value) entries in insertion order, as a Python dict iterates them.
 */
module Json {
  import opened Wrappers
  import opened Text

  /** `VFloat(m, p)` is the float whose decimal value is m / 10^p. */
  datatype Value =
    | VNull
    | VBool(b: bool)
    | VInt(i: int)
    | VFloat(mantissa: int, places: nat)
    | VStr(s: string)
    | VList(items: seq<Value>)
    | VObj(fields: seq<(string, Value)>)

  type Fields = seq<(string, Value)>

  /** `k in d` */
  predicate HasKey(f: Fields, k: string) {
    exists i | 0 <= i < |f| :: f[i].0 == k
  }

  /** `d.get(k)`: the value most recently bound to k. */
  function Get(f: Fields, k: string): (r: Option<Value>)
    ensures r.Some? <==> HasKey(f, k)
  {
    if f == [] then None
    else if f[|f| - 1].0 == k then Some(f[|f| - 1].1)
    else
      var r := Get(f[..|f| - 1], k);
      assert HasKey(f[..|f| - 1], k) ==> HasKey(f, k);
      assert HasKey(f, k) ==> HasKey(f[..|f| - 1], k) by {
        if HasKey(f, k) {
          var i :| 0 <= i < |f| && f[i].0 == k;
          assert f[..|f| - 1][i].0 == k;
        }
      }
      r
  }

  /** `d.get(k, default)` */
  function GetOr(f: Fields, k: string, default: Value): Value {
    Get(f, k).GetOr(default)
  }

  function Keys(f: Fields): (ks: seq<string>)
    ensures |ks| == |f|
  {
    seq(|f|, i requires 0 <= i < |f| => f[i].0)
  }

  function Rebind(f: Fields, k: string, v: Value): (r: Fields)
    ensures |r| == |f|
  {
    seq(|f|, i requires 0 <= i < |f| => if f[i].0 == k then (k, v) else f[i])
  }

  lemma {:induction false} GetRebind(f: Fields, k: string, v: Value, k': string)
    ensures Get(Rebind(f, k, v), k') == if k' == k && HasKey(f, k) then Some(v) else Get(f, k')
  {
    var r := Rebind(f, k, v);
    if f != [] {
      var f' := f[..|f| - 1];
      assert r[..|r| - 1] == Rebind(f', k, v);
      GetRebind(f', k, v, k');
      assert HasKey(f, k) <==> f[|f| - 1].0 == k || HasKey(f', k) by {
        if HasKey(f, k) && f[|f| - 1].0 != k {
          var i :| 0 <= i < |f| && f[i].0 == k;
          assert f'[i].0 == k;
        }
        if HasKey(f', k) {
          var i :| 0 <= i < |f'| && f'[i].0 == k;
          assert f[i].0 == k;
        }
      }
    }
  }

  lemma GetAppend(f: Fields, k: string, v: Value, k': string)
    ensures Get(f + [(k, v)], k') == if k' == k then Some(v) else Get(f, k')
  {
    assert (f + [(k, v)])[..|f|] == f;
  }

  /** `d[k] = v`: an existing key keeps its place and takes the new value, a new key goes last. */
  function Put(f: Fields, k: string, v: Value): (r: Fields)
    ensures Get(r, k) == Some(v)
    ensures forall k' | k' != k :: Get(r, k') == Get(f, k')
  {
    if HasKey(f, k) then
      var r := Rebind(f, k, v);
      GetRebind(f, k, v, k);
      forall k' | k' != k ensures Get(r, k') == Get(f, k') {
        GetRebind(f, k, v, k');
      }
      r
    else
      var r := f + [(k, v)];
      GetAppend(f, k, v, k);
      forall k' | k' != k ensures Get(r, k') == Get(f, k') {
        GetAppend(f, k, v, k');
      }
      r
  }

  /** An existing key keeps its place in the iteration order; a new key goes last. */
  lemma PutKeys(f: Fields, k: string, v: Value)
    ensures Keys(Put(f, k, v)) == if HasKey(f, k) then Keys(f) else Keys(f) + [k]
  {
  }

  /** Python truthiness of a JSON value. */
  predicate Truthy(v: Value) {
    match v
    case VNull => false
    case VBool(b) => b
    case VInt(i) => i != 0
    case VFloat(m, _) => m != 0
    case VStr(s) => s != ""
    case VList(xs) => xs != []
    case VObj(f) => f != []
  }

  /** Every element is a dictionary. */
  predicate AllObjects(elems: seq<Value>) { forall k | 0 <= k < |elems| :: elems[k].VObj? }

  /** `type(v).__name__` */
  function TypeName(v: Value): string {
    match v
    case VNull => "NoneType"
    case VBool(_) => "bool"
    case VInt(_) => "int"
    case VFloat(_, _) => "float"
    case VStr(_) => "str"
    case VList(_) => "list"
    case VObj(_) => "dict"
  }

  function IntToString(i: int): string {
    (if i < 0 then "-" else "") + NatToString(if i < 0 then -i else i)
  }

  /** The integer part of a / 10^p. */
  function WholePart(a: nat, p: nat): nat {
    var d := Pow10(p);
    DivNonNegative(a, d);
    a / d
  }

  lemma DivNonNegative(a: nat, d: nat)
    requires d >= 1
    ensures a / d >= 0
  {
  }

  /** Positional rendering of m / 10^p with at least one digit after the point (FixedDigits keeps the last p digits). */
  function FloatToString(m: int, p: nat): string {
    var a: nat := if m < 0 then -m else m;
    (if m < 0 then "-" else "") + NatToString(WholePart(a, p)) + "."
      + (if p == 0 then "0" else FixedDigits(a, p))
  }

  /** `str(v)` */
  function Str(v: Value): string {
    match v
    case VStr(s) => s
    case _ => Repr(v)
  }

  /** `repr(v)`, with strings quoted by single quotes and not escaped. */
  function Repr(v: Value): string
    decreases v, 1
  {
    match v
    case VNull => "None"
    case VBool(b) => if b then "True" else "False"
    case VInt(i) => IntToString(i)
    case VFloat(m, p) => FloatToString(m, p)
    case VStr(s) => "'" + s + "'"
    case VList(xs) => "[" + ReprItems(xs) + "]"
    case VObj(f) => "{" + ReprFields(f) + "}"
  }

  function ReprItems(xs: seq<Value>): string
    decreases xs
  {
    if xs == [] then ""
    else
      assert xs[0] in xs;
      Repr(xs[0]) + (if |xs| == 1 then "" else ", " + ReprItems(xs[1..]))
  }

  function ReprFields(f: Fields): string
    decreases f
  {
    if f == [] then ""
    else
      assert f[0] in f;
      assert f[0].1 < f[0];
      "'" + f[0].0 + "': " + Repr(f[0].1) + (if |f| == 1 then "" else ", " + ReprFields(f[1..]))
  }
}
