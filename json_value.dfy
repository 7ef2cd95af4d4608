/**
 * JSON values as the front end sees them after `response.json()` or `JSON.parse`,
 * together with the two pieces of JavaScript semantics the form relies on:
 * truthiness (`x || y`, `if (x)`) and reading a property of a parsed value.
 */
module JsonValue {

  import Wrappers

  datatype Json =
    | JNull
    | JBool(b: bool)
    | JNumber(n: real)
    | JString(s: string)
    | JArray(items: seq<Json>)
    | JObject(fields: map<string, Json>)

  /** JavaScript truthiness: `null`, `false`, `0` and `""` are falsy; arrays and objects,
      even empty ones, are truthy. */
  predicate Truthy(j: Json) {
    match j
    case JNull => false
    case JBool(b) => b
    case JNumber(n) => n != 0.0
    case JString(s) => s != ""
    case JArray(_) => true
    case JObject(_) => true
  }

  /** The result of evaluating `j[key]`: a TypeError when `j` is `null`, `undefined` when
      the value has no such own property, or the property's value. */
  datatype Access = Throws | Undefined | Defined(value: Json)

  /** Reading an own, non-index property of a parsed JSON value. */
  function Get(j: Json, key: string): (a: Access)
    ensures a.Throws? <==> j == JNull
    ensures a.Defined? <==> j.JObject? && key in j.fields
    ensures a.Defined? ==> a.value == j.fields[key]
  {
    match j
    case JNull => Throws
    case JObject(fields) => if key in fields then Defined(fields[key]) else Undefined
    case _ => Undefined
  }

  /** Truthiness of a property read that did not throw; `undefined` is falsy. */
  predicate PresentAndTruthy(a: Access) {
    a.Defined? && Truthy(a.value)
  }

  /** An array of strings, as `["A", "B"]` is written in the source. */
  function StringArray(xs: seq<string>): (j: Json)
    ensures j.JArray? && |j.items| == |xs|
    ensures forall i :: 0 <= i < |xs| ==> j.items[i] == JString(xs[i])
  {
    JArray(seq(|xs|, i requires 0 <= i < |xs| => JString(xs[i])))
  }

  /** The inverse of StringArray on the values it produces. */
  function AsStrings(items: seq<Json>): (r: Wrappers.Option<seq<string>>)
    ensures r.Some? ==> |r.value| == |items|
    ensures r.Some? <==> forall i :: 0 <= i < |items| ==> items[i].JString?
  {
    if items == [] then Wrappers.Some([])
    else
      match AsStrings(items[..|items| - 1])
      case None => Wrappers.None
      case Some(init) =>
        var last := items[|items| - 1];
        if last.JString? then Wrappers.Some(init + [last.s]) else Wrappers.None
  }

  lemma {:induction false} AsStringsOfStringArray(xs: seq<string>)
    ensures AsStrings(StringArray(xs).items) == Wrappers.Some(xs)
  {
    if xs != [] {
      var items := StringArray(xs).items;
      var init := xs[..|xs| - 1];
      AsStringsOfStringArray(init);
      assert items[..|items| - 1] == StringArray(init).items;
      assert init + [xs[|xs| - 1]] == xs;
    }
  }
}
