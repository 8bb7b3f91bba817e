/**
 * The JavaScript values the response decoders work on: everything `response.json()` can
 * produce, plus `undefined`, which `?.` yields for a missing field. Numbers are integers here.
 */
module Js {
  import opened Wrappers

  datatype Value =
    | Undefined
    | Null
    | Bool(b: bool)
    | Num(n: int)
    | Str(s: string)
    | Arr(elems: seq<Value>)
    | Obj(fields: map<string, Value>)

  /** `null` and `undefined`: `v.key` throws on them and `v?.key` short-circuits. */
  predicate Nullish(v: Value) {
    v.Undefined? || v.Null?
  }

  /** JavaScript truthiness: `undefined`, `null`, `false`, `0` and `""` are falsy. */
  predicate Truthy(v: Value) {
    match v
    case Undefined => false
    case Null => false
    case Bool(b) => b
    case Num(n) => n != 0
    case Str(s) => s != ""
    case Arr(_) => true
    case Obj(_) => true
  }

  /** `a || b` */
  function Or(a: Value, b: Value): (r: Value)
    ensures r == a || r == b
    ensures Truthy(r) <==> Truthy(a) || Truthy(b)
    ensures Truthy(a) ==> r == a
    ensures !Truthy(a) ==> r == b
  {
    if Truthy(a) then a else b
  }

  /**
   * `v?.key`, and `v.key` on a value that is not nullish: an own field of an object, else
   * `undefined`. The keys the decoders read (data, products, edges, nodes, ...) are not
   * inherited properties of any JavaScript value, so only own fields matter.
   */
  function Get(v: Value, key: string): (r: Value)
    ensures r != Undefined ==> v.Obj? && key in v.fields && r == v.fields[key]
    ensures v.Obj? && key in v.fields ==> r == v.fields[key]
  {
    if v.Obj? && key in v.fields then v.fields[key] else Undefined
  }

  /** `v.key`: a TypeError (None) on `null` and `undefined`. */
  function Member(v: Value, key: string): (r: Option<Value>)
    ensures r.None? <==> Nullish(v)
    ensures r.Some? ==> r.value == Get(v, key)
  {
    if Nullish(v) then None else Some(Get(v, key))
  }

  function Digit(d: nat): char
    requires d < 10
  {
    "0123456789"[d]
  }

  /** The property key of array index `n`: its decimal spelling. */
  function DecimalKey(n: nat): (r: string)
    ensures |r| >= 1
    decreases n
  {
    if n < 10 then [Digit(n)] else DecimalKey(n / 10) + [Digit(n % 10)]
  }

  /** Distinct indices have distinct spellings, so no two of them name the same property. */
  lemma {:induction false} DecimalKeyInjective(a: nat, b: nat)
    ensures DecimalKey(a) == DecimalKey(b) ==> a == b
    decreases a
  {
    if DecimalKey(a) == DecimalKey(b) {
      if a < 10 && b < 10 {
        assert Digit(a) == Digit(b);
      } else if a >= 10 && b >= 10 {
        var ka := DecimalKey(a / 10);
        var kb := DecimalKey(b / 10);
        assert ka == DecimalKey(a)[..|DecimalKey(a)| - 1];
        assert kb == DecimalKey(b)[..|DecimalKey(b)| - 1];
        DecimalKeyInjective(a / 10, b / 10);
        assert Digit(a % 10) == Digit(b % 10);
      }
    }
  }

  /** The indexed fields hold exactly the keys of the indices below `|vs|`, each with its element. */
  lemma {:induction false} IndexFieldsAt(vs: seq<Value>, i: nat)
    ensures DecimalKey(i) in IndexFields(vs) <==> i < |vs|
    ensures i < |vs| ==> IndexFields(vs)[DecimalKey(i)] == vs[i]
    decreases |vs|
  {
    if vs != [] {
      var n := |vs| - 1;
      IndexFieldsAt(vs[..n], i);
      DecimalKeyInjective(i, n);
    }
  }

  /** `v[i]` on a value that is not nullish: only arrays, strings and objects have elements. */
  function At(v: Value, i: nat): (r: Value)
    ensures r != Undefined ==> v.Arr? || v.Str? || v.Obj?
    ensures v.Arr? && i < |v.elems| ==> r == v.elems[i]
  {
    match v
    case Arr(es) => if i < |es| then es[i] else Undefined
    case Str(s) => if i < |s| then Str([s[i]]) else Undefined
    case Obj(m) => if DecimalKey(i) in m then m[DecimalKey(i)] else Undefined
    case _ => Undefined
  }

  /** The fields `{ "0": vs[0], "1": vs[1], ... }`. */
  function IndexFields(vs: seq<Value>): map<string, Value>
    decreases |vs|
  {
    if vs == [] then map[]
    else IndexFields(vs[..|vs| - 1])[DecimalKey(|vs| - 1) := vs[|vs| - 1]]
  }

  /**
   * What `{ ...v }` copies: an object's own fields, the indexed elements of an array or the
   * indexed characters of a string, and nothing for `null`, `undefined`, booleans and numbers.
   */
  function Spread(v: Value): (r: map<string, Value>)
    ensures v.Obj? ==> r == v.fields
    ensures !v.Obj? && !v.Arr? && !v.Str? ==> r == map[]
  {
    match v
    case Obj(m) => m
    case Arr(es) => IndexFields(es)
    case Str(s) => IndexFields(seq(|s|, i requires 0 <= i < |s| => Str([s[i]])))
    case _ => map[]
  }

  /**
   * `v[i]` reads the property named by the decimal spelling of `i`, the same property that
   * `{ ...v }` copies: indexing and spreading agree on arrays, strings and objects.
   */
  lemma AtMatchesSpread(v: Value, i: nat)
    requires v.Arr? || v.Str? || v.Obj?
    ensures At(v, i) == if DecimalKey(i) in Spread(v) then Spread(v)[DecimalKey(i)] else Undefined
  {
    match v
    case Arr(es) => IndexFieldsAt(es, i);
    case Str(s) => IndexFieldsAt(seq(|s|, k requires 0 <= k < |s| => Str([s[k]])), i);
    case Obj(_) =>
  }
}
