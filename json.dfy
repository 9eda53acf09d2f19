/**
 * The JSON values that reach the handlers and the shopping-list managers as
 * untyped Python objects, with Python's truthiness (`if value:`).
 */
module Json {

  datatype Json =
    | JNull
    | JBool(b: bool)
    | JNumber(n: real)
    | JString(s: string)
    | JArray(items: seq<Json>)
    | JObject(fields: map<string, Json>)

  /** Python's `bool(value)`: false for None, False, zero and empty containers. */
  predicate Truthy(v: Json)
  {
    match v
    case JNull => false
    case JBool(b) => b
    case JNumber(n) => n != 0.0
    case JString(s) => s != ""
    case JArray(items) => items != []
    case JObject(fields) => fields != map[]
  }

  /** Python's `value and isinstance(value, str)`: a non-empty string. */
  predicate NonEmptyString(v: Json)
  {
    v.JString? && v.s != ""
  }

  /** A string value is truthy exactly when it is non-empty, so the test is just "truthy and a string". */
  lemma NonEmptyStringIsTruthyString(v: Json)
    ensures NonEmptyString(v) <==> Truthy(v) && v.JString?
  {
  }

  /** Values a Python set can look up; lists and dicts are unhashable and make set operations raise. */
  predicate Hashable(v: Json)
  {
    !v.JArray? && !v.JObject?
  }

  /** The number of leading hashable elements: where a loop of set operations over `items` raises, if it does. */
  function HashablePrefix(items: seq<Json>): (k: nat)
    ensures k <= |items|
    ensures forall j :: 0 <= j < k ==> Hashable(items[j])
    ensures k < |items| ==> !Hashable(items[k])
  {
    if items == [] || !Hashable(items[0]) then 0
    else
      var k := HashablePrefix(items[1..]);
      assert forall j :: 1 <= j < k + 1 ==> items[j] == items[1..][j - 1];
      k + 1
  }

  /** The distinct strings among the elements of a JSON array. */
  function StringSet(items: seq<Json>): (r: set<string>)
    ensures forall x :: x in r <==> JString(x) in items
  {
    set j | 0 <= j < |items| && items[j].JString? :: items[j].s
  }
}
