/**
 * The JavaScript values that flow through the client: header values, option
 * objects and payloads. Only what the client inspects is modelled; every other
 * value is carried along unchanged.
 */
module JsValues {

  import opened Wrappers

  datatype JsValue =
    | Undefined
    | Null
    | Bool(b: bool)
    | Number(n: int)
    | Str(s: string)
    | Object(obj: JsObject)

  /**
   * A plain object: `keys` is its own enumerable keys in the order
   * `Object.keys` returns them, `props` maps each key to its value.
   * `protoSetter` says whether looking up `__proto__` on it, past its own
   * keys, still reaches the accessor that `Object.prototype` defines; it is
   * so for every object literal, and stops being so once its prototype is
   * changed to `null` or to an object without that accessor.
   */
  datatype JsObject = JsObject(keys: seq<string>, props: map<string, JsValue>, protoSetter: bool)

  /** A record whose key order does not matter (a header set, a payload). */
  type Fields = map<string, JsValue>

  /** `{}`. */
  const EmptyObject: JsObject := JsObject([], map[], true)

  /** Every JavaScript object satisfies this: its keys are listed once each, and exactly its keys are listed. */
  predicate WellFormed(o: JsObject)
  {
    && (forall i, j :: 0 <= i < j < |o.keys| ==> o.keys[i] != o.keys[j])
    && (forall i :: 0 <= i < |o.keys| ==> o.keys[i] in o.props)
    && (forall k :: k in o.props ==> k in o.keys)
  }

  /** The name of the prototype accessor of `Object.prototype`. */
  const ProtoKey: string := "__proto__"

  /**
   * Whether an object whose `__proto__` setter has just been run with `v`
   * still reaches that setter. The setter ignores a value that is neither an
   * object nor `null`; `null` cuts the prototype chain; an object becomes the
   * prototype, and `__proto__` then resolves to its own `__proto__` key if it
   * has one, else to whatever it inherits.
   */
  predicate KeepsProtoSetter(v: JsValue)
  {
    match v
    case Null => false
    case Object(p) => ProtoKey !in p.props && p.protoSetter
    case _ => true
  }

  /**
   * `o[k] = v`. An own key takes the new value and keeps its place. `__proto__`
   * on an object that has no own key of that name but reaches the inherited
   * setter runs the setter: no key is created, and the prototype changes.
   * Any other new key is created and goes to the end of the key order.
   */
  function Assign(o: JsObject, k: string, v: JsValue): (r: JsObject)
    ensures k == ProtoKey && k !in o.props && o.protoSetter ==>
      r.keys == o.keys && r.props == o.props && r.protoSetter == KeepsProtoSetter(v)
    ensures k != ProtoKey || k in o.props || !o.protoSetter ==>
      r.props == o.props[k := v] && r.protoSetter == o.protoSetter
    ensures k in o.props ==> r.keys == o.keys
    ensures k !in o.props && (k != ProtoKey || !o.protoSetter) ==> r.keys == o.keys + [k]
    ensures WellFormed(o) ==> WellFormed(r)
  {
    if k in o.props then JsObject(o.keys, o.props[k := v], o.protoSetter)
    else if k == ProtoKey && o.protoSetter then JsObject(o.keys, o.props, KeepsProtoSetter(v))
    else JsObject(o.keys + [k], o.props[k := v], o.protoSetter)
  }

  /** JavaScript truthiness of an optional string: present and non-empty. */
  predicate Truthy(s: Option<string>)
  {
    s.Some? && s.value != ""
  }

  /**
   * Object spread `{...a, ...b}` on records: the keys of both, and every key
   * of `b` takes `b`'s value over `a`'s.
   */
  function Spread(a: Fields, b: Fields): (r: Fields)
    ensures r.Keys == a.Keys + b.Keys
    ensures forall k :: k in b ==> r[k] == b[k]
    ensures forall k :: k in a && k !in b ==> r[k] == a[k]
  {
    a + b
  }

  /**
   * What `{...v}` copies out of a value: an object's own properties; `null`,
   * `undefined`, booleans and numbers contribute nothing.
   */
  function OwnFields(v: JsValue): (r: Fields)
    ensures v.Object? ==> r == v.obj.props
    ensures !v.Object? ==> r == map[]
  {
    if v.Object? then v.obj.props else map[]
  }
}
