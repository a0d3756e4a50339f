/**
 * Parsed JSON values and the JavaScript operations the response handlers
 * apply to them: property access (`undefined` for a missing key, a TypeError
 * on `null` or `undefined`), optional chaining, truthiness, `Array.isArray`,
 * indexing, `typeof x === 'string'` and `String(x)`.
 */
module Json {
  import opened Js

  /** A JSON value; numbers are modelled as integers. */
  datatype Json =
    | JNull
    | JBool(b: bool)
    | JNum(n: int)
    | JStr(s: string)
    | JArr(items: seq<Json>)
    | JObj(fields: map<string, Json>)

  /** A JavaScript value that may also be `undefined`. */
  datatype Value = Undefined | Def(json: Json)

  /** The outcome of an expression that may throw a TypeError. */
  datatype Access = Got(value: Value) | TypeError

  /** `v.key`: reading a property of `null` or `undefined` throws. Only plain
      objects carry named properties here. */
  function Prop(v: Value, key: string): (r: Access)
    ensures r.TypeError? <==> v == Undefined || v == Def(JNull)
    ensures v.Def? && v.json.JObj? ==> r == Got(if key in v.json.fields then Def(v.json.fields[key]) else Undefined)
  {
    match v
    case Undefined => TypeError
    case Def(JNull) => TypeError
    case Def(JObj(f)) => Got(if key in f then Def(f[key]) else Undefined)
    case Def(_) => Got(Undefined)
  }

  /** `v?.key`: `undefined` instead of a TypeError. */
  function OptProp(v: Value, key: string): (r: Value)
    ensures Prop(v, key).Got? ==> r == Prop(v, key).value
    ensures Prop(v, key).TypeError? ==> r == Undefined
  {
    match Prop(v, key)
    case Got(x) => x
    case TypeError => Undefined
  }

  /** `v[i]` for arrays, strings (the one-character string) and objects (key "i"). */
  function Elem(v: Value, i: nat): (r: Access)
    ensures r.TypeError? <==> v == Undefined || v == Def(JNull)
  {
    match v
    case Undefined => TypeError
    case Def(JNull) => TypeError
    case Def(JArr(items)) => Got(if i < |items| then Def(items[i]) else Undefined)
    case Def(JStr(s)) => Got(if i < |s| then Def(JStr([s[i]])) else Undefined)
    case Def(JObj(_)) => Prop(v, NatToString(i))
    case Def(_) => Got(Undefined)
  }

  /** `v?.[i]` */
  function OptElem(v: Value, i: nat): Value {
    match Elem(v, i)
    case Got(x) => x
    case TypeError => Undefined
  }

  /** JavaScript truthiness. */
  predicate Truthy(v: Value) {
    match v
    case Undefined => false
    case Def(JNull) => false
    case Def(JBool(b)) => b
    case Def(JNum(n)) => n != 0
    case Def(JStr(s)) => s != ""
    case Def(_) => true
  }

  predicate IsArray(v: Value) {
    v.Def? && v.json.JArr?
  }

  predicate IsString(v: Value) {
    v.Def? && v.json.JStr?
  }

  /** `v.length > 0`, for arrays, strings and objects with a numeric `length`. */
  predicate HasPositiveLength(v: Value) {
    match v
    case Def(JArr(items)) => |items| > 0
    case Def(JStr(s)) => |s| > 0
    case Def(JObj(f)) => "length" in f && f["length"].JNum? && f["length"].n > 0
    case _ => false
  }

  /** `String(v)` */
  function ToText(v: Value): string {
    match v
    case Undefined => "undefined"
    case Def(j) => JsonText(j)
  }

  function JsonText(j: Json): string {
    match j
    case JNull => "null"
    case JBool(b) => if b then "true" else "false"
    case JNum(n) => IntToString(n)
    case JStr(s) => s
    case JArr(items) => ArrayText(items)
    case JObj(_) => "[object Object]"
  }

  /** `String(array)`: the elements joined with ",", null elements as "". */
  function ArrayText(items: seq<Json>): string
    decreases items, 0
  {
    if items == [] then ""
    else
      var head := if items[0] == JNull then "" else JsonText(items[0]);
      if |items| == 1 then head else head + "," + ArrayText(items[1..])
  }

  /** `Array.prototype.find(item => item.type === tag)`: the first element whose
      `type` is the string `tag`. Reading `type` off a `null` element throws. */
  function FindByType(items: seq<Json>, tag: string): (r: Access)
    ensures r.Got? && r.value.Def? ==> r.value.json in items && Prop(r.value, "type") == Got(Def(JStr(tag)))
    ensures r.Got? && r.value == Undefined ==>
      forall i | 0 <= i < |items| :: Prop(Def(items[i]), "type") != Got(Def(JStr(tag)))
  {
    if items == [] then Got(Undefined)
    else match Prop(Def(items[0]), "type")
      case TypeError => TypeError
      case Got(t) =>
        if t == Def(JStr(tag)) then Got(Def(items[0]))
        else FindByType(items[1..], tag)
  }

  /** `find` answers with the first match: every element before it is visited
      and is not one. */
  lemma {:induction false} FindByTypeFirst(items: seq<Json>, tag: string, k: nat)
    requires k < |items| && Prop(Def(items[k]), "type") == Got(Def(JStr(tag)))
    requires forall i | 0 <= i < k :: Prop(Def(items[i]), "type").Got? && Prop(Def(items[i]), "type") != Got(Def(JStr(tag)))
    ensures FindByType(items, tag) == Got(Def(items[k]))
    decreases k
  {
    if k > 0 {
      FindByTypeFirst(items[1..], tag, k - 1);
    }
  }
}
