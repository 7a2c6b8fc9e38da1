/** JavaScript values as the proxy and its browser clients handle them: the
    scalar values that travel in request bodies, JavaScript truthiness, the
    `||`, `??` and conditional-spread idioms, and objects as ordered lists of
    properties (property order matters once an object is serialised). */
module JsValues {

  datatype Option<T> = None | Some(value: T)

  /** The values a request field can hold. `Undefined` is a missing property. */
  datatype JsValue =
    | Undefined
    | Null
    | Bool(b: bool)
    | Num(n: int)
    | Str(s: string)
    | NumArray(items: seq<int>)

  /** An object literal: its properties in insertion order. */
  type Field = (string, JsValue)
  type Object = seq<Field>

  /** JavaScript truthiness; every array, even an empty one, is truthy. */
  predicate Truthy(v: JsValue) {
    match v
    case Undefined => false
    case Null => false
    case Bool(b) => b
    case Num(n) => n != 0
    case Str(s) => s != ""
    case NumArray(_) => true
  }

  /** The values `??` replaces. */
  predicate Nullish(v: JsValue) {
    v.Undefined? || v.Null?
  }

  /** `v || d` */
  function Or(v: JsValue, d: JsValue): (r: JsValue)
    ensures Truthy(r) <==> Truthy(v) || Truthy(d)
    ensures Truthy(v) ==> r == v
    ensures !Truthy(v) ==> r == d
  {
    if Truthy(v) then v else d
  }

  /** `v ?? d` */
  function Coalesce(v: JsValue, d: JsValue): (r: JsValue)
    ensures Nullish(r) <==> Nullish(v) && Nullish(d)
    ensures !Nullish(v) ==> r == v
    ensures Nullish(v) ==> r == d
  {
    if Nullish(v) then d else v
  }

  /** `...(v && { key: v })`: spreading a falsy value adds no property. */
  function SpreadIfTruthy(key: string, v: JsValue): Object {
    if Truthy(v) then [(key, v)] else []
  }

  /** A spread value that is truthy adds its key and reads back as itself;
      a falsy one adds nothing, so the key reads as `undefined` (the falsy
      value itself is lost). */
  lemma SpreadIfTruthyReadsBack(key: string, v: JsValue)
    ensures Keys(SpreadIfTruthy(key, v)) == (if Truthy(v) then [key] else [])
    ensures Prop(SpreadIfTruthy(key, v), key) == (if Truthy(v) then v else Undefined)
  {
  }

  /** The keys among `keys` whose property in `src` is truthy, in order. */
  function TruthyKeys(src: Object, keys: seq<string>): seq<string> {
    if keys == [] then []
    else (if Truthy(Prop(src, keys[0])) then [keys[0]] else []) + TruthyKeys(src, keys[1..])
  }

  /** `...(src.k1 && { k1: src.k1 }), ...(src.k2 && { k2: src.k2 }), ...`:
      one property per truthy key, in the order of `keys`, copied from `src`. */
  function SpreadTruthy(src: Object, keys: seq<string>): (o: Object)
    ensures Keys(o) == TruthyKeys(src, keys)
    ensures forall i :: 0 <= i < |o| ==> Truthy(o[i].1) && o[i].1 == Prop(src, o[i].0)
  {
    if keys == [] then []
    else
      var head := SpreadIfTruthy(keys[0], Prop(src, keys[0]));
      var rest := SpreadTruthy(src, keys[1..]);
      KeysAppend(head, rest);
      head + rest
  }

  /** The property names of an object (or the names of a header list), in order. */
  function Keys<V>(fields: seq<(string, V)>): (ks: seq<string>)
    ensures |ks| == |fields|
    ensures forall i :: 0 <= i < |fields| ==> ks[i] == fields[i].0
  {
    seq(|fields|, i requires 0 <= i < |fields| => fields[i].0)
  }

  /** The value stored under `key`, looked up front to back. */
  function Get<V>(fields: seq<(string, V)>, key: string): (r: Option<V>)
    ensures r.None? <==> key !in Keys(fields)
  {
    if fields == [] then None
    else if fields[0].0 == key then Some(fields[0].1)
    else Get(fields[1..], key)
  }

  /** Reading a property: a missing one reads as `undefined`. */
  function Prop(o: Object, key: string): JsValue {
    match Get(o, key)
    case Some(v) => v
    case None => Undefined
  }

  /** An object with `key` set to `v` and every other property as in `o`. */
  function Put(o: Object, key: string, v: JsValue): (r: Object)
    ensures Prop(r, key) == v
    ensures forall k :: k != key ==> Get(r, k) == Get(o, k)
  {
    [(key, v)] + o
  }

  lemma {:induction false} KeysAppend<V>(a: seq<(string, V)>, b: seq<(string, V)>)
    ensures Keys(a + b) == Keys(a) + Keys(b)
  {
  }

  /** A lookup returns the first property carrying its key. */
  lemma {:induction false} GetFirst<V>(fields: seq<(string, V)>, i: nat)
    requires i < |fields|
    requires forall j :: 0 <= j < i ==> fields[j].0 != fields[i].0
    ensures Get(fields, fields[i].0) == Some(fields[i].1)
  {
    if i > 0 {
      assert fields[1..][i - 1] == fields[i];
      GetFirst(fields[1..], i - 1);
    }
  }
}
