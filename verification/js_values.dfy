/**
 The slice of JavaScript value semantics the request handlers of server.js rely on:
 the shape of a parsed JSON body, truthiness (`!x`, `if (x)`), property lookup and
 destructuring (which throws a TypeError on `undefined` and `null`), and the string
 conversion `String(x)` that `new Error(x)` applies to its argument.
 */
module JsValues {
  import opened Options

  /** A value as a route handler sees it after JSON body parsing. A number is carried
      as the text JavaScript's `String(n)` gives for it; that text decides both its
      truthiness (0 and -0 both print as "0", and JSON cannot produce NaN) and its
      conversion to a string. */
  datatype JsValue =
    | JUndefined
    | JNull
    | JBool(b: bool)
    | JNum(text: string)
    | JStr(s: string)
    | JArr(items: seq<JsValue>)
    | JObj(fields: map<string, JsValue>)

  /** `undefined` or `null`: the two values destructuring refuses. */
  predicate Nullish(v: JsValue) {
    v.JUndefined? || v.JNull?
  }

  /** JavaScript truthiness: exactly undefined, null, false, 0 and the empty string are falsy. */
  predicate Truthy(v: JsValue)
    ensures !Truthy(v) <==> v in {JUndefined, JNull, JBool(false), JNum("0"), JStr("")}
  {
    match v
    case JUndefined => false
    case JNull => false
    case JBool(b) => b
    case JNum(text) => text != "0"
    case JStr(s) => s != ""
    case JArr(_) => true
    case JObj(_) => true
  }

  /** Reading property `key` of `v`, as `v.key` or `const { key } = v` does. `None` is the
      TypeError thrown for undefined and null; a missing property reads as undefined.
      Only names that are neither array indices nor built-in properties are looked up. */
  function Prop(v: JsValue, key: string): (r: Option<JsValue>)
    ensures r.None? <==> Nullish(v)
    ensures r.Some? && r.value != JUndefined ==> v.JObj? && key in v.fields && v.fields[key] == r.value
    ensures v.JObj? && key in v.fields ==> r == Some(v.fields[key])
    ensures !Nullish(v) && !(v.JObj? && key in v.fields) ==> r == Some(JUndefined)
  {
    match v
    case JUndefined => None
    case JNull => None
    case JObj(fields) => Some(if key in fields then fields[key] else JUndefined)
    case _ => Some(JUndefined)
  }

  /** `String(v)` succeeds: no object reached by the conversion carries its own `toString`
      key. Elements of an array are reached; fields of an object are not. */
  predicate Convertible(v: JsValue)
    decreases v
  {
    match v
    case JObj(fields) => "toString" !in fields
    case JArr(items) => forall j :: 0 <= j < |items| ==> Convertible(items[j])
    case _ => true
  }

  /** `String(v)`. `None` is the TypeError raised for an object that carries its own
      `toString` property: a JSON value is never callable, so the conversion falls back to
      `valueOf`, which returns the object itself, and no primitive is found. Arrays join
      their elements with commas, writing undefined and null elements as empty text. */
  function ToStr(v: JsValue): (r: Option<string>)
    ensures r.Some? <==> Convertible(v)
    ensures v.JStr? ==> r == Some(v.s)
    ensures v.JArr? && |v.items| == 0 ==> r == Some("")
    decreases v, 1, 0
  {
    match v
    case JUndefined => Some("undefined")
    case JNull => Some("null")
    case JBool(b) => Some(if b then "true" else "false")
    case JNum(text) => Some(text)
    case JStr(s) => Some(s)
    case JArr(items) => Join(v, 0)
    case JObj(fields) => if "toString" in fields then None else Some("[object Object]")
  }

  /** `Array.prototype.join(",")` over the elements of `arr` from index `i` on, each preceded
      by a comma unless it is the first element of the array. */
  function Join(arr: JsValue, i: nat): (r: Option<string>)
    requires arr.JArr? && i <= |arr.items|
    ensures r.Some? <==> forall j :: i <= j < |arr.items| ==> Convertible(arr.items[j])
    decreases arr, 0, |arr.items| - i
  {
    if i == |arr.items| then Some("")
    else
      var e := arr.items[i];
      var head := if Nullish(e) then Some("") else ToStr(e);
      var tail := Join(arr, i + 1);
      if head.None? || tail.None? then None
      else Some((if i == 0 then "" else ",") + head.value + tail.value)
  }

  /** The empty array is truthy yet converts to the empty string. */
  lemma EmptyArrayIsTruthyButBlank()
    ensures Truthy(JArr([]))
    ensures ToStr(JArr([])) == Some("")
  {
  }

  /** A one-element array converts exactly as its element does, unless the element is
      undefined or null, which converts to the empty string. */
  lemma SingletonArrayConvertsAsElement(e: JsValue)
    ensures ToStr(JArr([e])) == (if Nullish(e) then Some("") else ToStr(e))
  {
    var arr := JArr([e]);
    assert Join(arr, 1) == Some("");
    assert ToStr(arr) == Join(arr, 0);
    var head := if Nullish(e) then Some("") else ToStr(e);
    if head.Some? {
      assert "" + head.value + "" == head.value;
    }
  }
}
