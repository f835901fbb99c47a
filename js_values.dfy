/**
 * The JavaScript values the protocol engines inspect: payloads, options, thrown errors
 * and execution results. Only what the engines test is modelled: truthiness, a property
 * read, `typeof`, lodash's `isString`/`isObject`, own enumerable keys and object spread.
 */
module JsValues {
  import opened Wrappers
  import opened Decimal

  datatype JsValue =
    | Undefined
    | Null
    | Bool(b: bool)
    | Num(n: int)
    | Str(s: string)
    | Arr(elems: seq<JsValue>)
    | Obj(props: seq<Prop>)
      /** An `Error` instance: `name` and `message` are not own enumerable keys; `extra` are. */
    | Error(name: string, message: string, extra: seq<Prop>)
      /** A parsed GraphQL document; `source` is what the GraphQL printer renders it as. */
    | Doc(source: string)

  datatype Prop = Prop(key: string, value: JsValue)

  /** JavaScript truthiness (numbers are integers here, so NaN does not arise). */
  predicate Truthy(v: JsValue) {
    match v
    case Undefined => false
    case Null => false
    case Bool(b) => b
    case Num(n) => n != 0
    case Str(s) => s != ""
    case _ => true
  }

  /** `null` or `undefined`: the values on which a property read throws a `TypeError`. */
  predicate Nullish(v: JsValue) {
    v.Null? || v.Undefined?
  }

  /** The value of the first own property called `key`, or `None`. */
  function Lookup(ps: seq<Prop>, key: string): (r: Option<JsValue>)
    ensures r.Some? ==> Prop(key, r.value) in ps
  {
    if ps == [] then None
    else if ps[0].key == key then Some(ps[0].value)
    else Lookup(ps[1..], key)
  }

  /** A key is found exactly when some property carries it, and the first such property wins. */
  lemma {:induction false} LookupFindsFirst(ps: seq<Prop>, key: string)
    ensures Lookup(ps, key).Some? <==> exists i :: 0 <= i < |ps| && ps[i].key == key
    ensures forall i :: 0 <= i < |ps| && ps[i].key == key && (forall j :: 0 <= j < i ==> ps[j].key != key) ==>
      Lookup(ps, key) == Some(ps[i].value)
  {
    if ps != [] && ps[0].key != key {
      LookupFindsFirst(ps[1..], key);
      assert forall i :: 1 <= i < |ps| ==> ps[i] == ps[1..][i - 1];
    }
  }

  /**
   * `v[key]` for a key that is neither an array index nor `length`. A read on a `Nullish`
   * value throws in JavaScript, and `Get` answers `Undefined` there: every caller that can
   * meet such a value (an unguarded read in a `catch`, say) tests `Nullish` first and
   * models the throw itself.
   */
  function Get(v: JsValue, key: string): (r: JsValue)
    ensures r == Undefined || r < v || (v.Error? && (key == "name" || key == "message"))
  {
    match v
    case Obj(ps) => Lookup(ps, key).GetOr(Undefined)
    case Error(name, message, extra) =>
      if Lookup(extra, key).Some? then Lookup(extra, key).value
      else if key == "message" then Str(message)
      else if key == "name" then Str(name)
      else Undefined
    case _ => Undefined
  }

  /** `typeof v === 'string'`, which is also lodash's `isString` for primitives. */
  predicate IsString(v: JsValue) {
    v.Str?
  }

  /** lodash `isObject`: objects, arrays, errors and documents, but not `null`. */
  predicate IsObject(v: JsValue) {
    v.Arr? || v.Obj? || v.Error? || v.Doc?
  }

  function IndexProps(elems: seq<JsValue>, from: nat): (ps: seq<Prop>)
    ensures |ps| == |elems|
    decreases |elems|
  {
    if elems == [] then [] else [Prop(NatToString(from), elems[0])] + IndexProps(elems[1..], from + 1)
  }

  /** Own enumerable properties of an object value, in key order. */
  function OwnProps(v: JsValue): (ps: seq<Prop>)
    requires IsObject(v)
  {
    match v
    case Obj(ps) => ps
    case Error(_, _, extra) => extra
    case Arr(elems) => IndexProps(elems, 0)
    case Doc(_) => [Prop("kind", Str("Document"))]
  }

  /** `Object.keys(v).length`; `None` where `Object.keys` throws (`null`, `undefined`). */
  function OwnKeyCount(v: JsValue): Option<nat> {
    match v
    case Undefined => None
    case Null => None
    case Str(s) => Some(|s|)
    case Bool(_) => Some(0)
    case Num(_) => Some(0)
    case _ => Some(|OwnProps(v)|)
  }

  /** Sets `key` in a property list: replaces it where present, appends it otherwise. */
  function SetProp(ps: seq<Prop>, key: string, value: JsValue): (r: seq<Prop>)
    ensures Lookup(r, key) == Some(value)
    ensures forall k :: k != key ==> Lookup(r, k) == Lookup(ps, k)
  {
    if ps == [] then [Prop(key, value)]
    else if ps[0].key == key then [Prop(key, value)] + SetProp(ps[1..], key, value)
    else [ps[0]] + SetProp(ps[1..], key, value)
  }

  /** `{ ...v, [key]: value }` for an object `v`. */
  function SpreadWith(v: JsValue, key: string, value: JsValue): (r: JsValue)
    requires IsObject(v)
    ensures r.Obj? && Get(r, key) == value
  {
    Obj(SetProp(OwnProps(v), key, value))
  }

  /** `{ message: m }`, the error payload shape both engines send. */
  function MessageObject(m: JsValue): JsValue {
    Obj([Prop("message", m)])
  }

  /** `new Error(message)`. */
  function NewError(message: string): JsValue {
    Error("Error", message, [])
  }
}
