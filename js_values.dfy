/** JavaScript values as the application sees them after `JSON.parse`, and the few
    JavaScript operators the core applies to them: truthiness, property reads,
    destructuring, `x[0]`, `.includes(...)` and the `in` operator. */
module JsValues {
  import opened Wrappers
  import opened JsStrings

  /** The result of evaluating an expression that may throw a TypeError
      (reading a property of `null`, calling a method that does not exist). */
  datatype Eval<+T> = Value(value: T) | Crash

  /** A parsed JSON value. Numbers are modelled as integers. */
  datatype Json =
    | JNull
    | JBool(b: bool)
    | JNum(n: int)
    | JStr(s: string)
    | JArr(items: seq<Json>)
    | JObj(fields: map<string, Json>)

  /** JavaScript truthiness. */
  predicate Truthy(j: Json) {
    match j
    case JNull => false
    case JBool(b) => b
    case JNum(n) => n != 0
    case JStr(s) => s != ""
    case _ => true
  }

  /** Truthiness of a value that may be `undefined` (None). */
  predicate TruthyOpt(j: Option<Json>) {
    j.Some? && Truthy(j.value)
  }

  /** `obj?.key`: a property read that yields `undefined` for `null` and for
      values that have no such own property. */
  function Prop(j: Json, key: string): (r: Option<Json>)
    ensures r.Some? <==> j.JObj? && key in j.fields
    ensures r.Some? ==> r.value == j.fields[key]
  {
    if j.JObj? && key in j.fields then Some(j.fields[key]) else None
  }

  /** `obj.key` and `const { key } = obj`: as Prop, except that `null`
      has no properties at all and throws. */
  function Read(j: Json, key: string): (r: Eval<Option<Json>>)
    ensures r.Crash? <==> j.JNull?
    ensures r.Value? ==> r.value == Prop(j, key)
  {
    if j.JNull? then Crash else Value(Prop(j, key))
  }

  /** `x[0]` on a truthy value: the first array element, the first character
      of a string, the property "0" of an object; `undefined` otherwise. */
  function First(j: Json): (r: Option<Json>)
    ensures j.JArr? ==> (r.Some? <==> |j.items| > 0)
    ensures j.JArr? && |j.items| > 0 ==> r == Some(j.items[0])
    ensures j.JStr? && |j.s| > 0 ==> r == Some(JStr(j.s[..1]))
  {
    match j
    case JArr(items) => if |items| > 0 then Some(items[0]) else None
    case JStr(s) => if |s| > 0 then Some(JStr(s[..1])) else None
    case JObj(f) => if "0" in f then Some(f["0"]) else None
    case _ => None
  }

  /** `x.includes(needle)` for a string needle: substring search on strings,
      strict element equality on arrays, a TypeError on every other value
      (including `undefined`, represented by None). */
  function Includes(x: Option<Json>, needle: string): (r: Eval<bool>)
    ensures r.Crash? <==> !(x.Some? && (x.value.JStr? || x.value.JArr?))
    ensures x.Some? && x.value.JStr? ==> r == Value(Contains(x.value.s, needle))
    ensures x.Some? && x.value.JArr? ==> r == Value(JStr(needle) in x.value.items)
  {
    match x
    case Some(JStr(s)) => Value(Contains(s, needle))
    case Some(JArr(items)) => Value(JStr(needle) in items)
    case _ => Crash
  }

  /** The keys an array answers `true` to under `in`: its indices and "length". */
  predicate IsArrayKey(items: seq<Json>, key: string) {
    key == "length" || exists i :: 0 <= i < |items| && NatToString(i) == key
  }

  /** `key in x`: own keys of an object or an array; a TypeError on a
      primitive value (the operator requires an object). */
  function In(key: string, x: Json): (r: Eval<bool>)
    ensures r.Crash? <==> !(x.JObj? || x.JArr?)
    ensures x.JObj? ==> r == Value(key in x.fields)
  {
    match x
    case JObj(f) => Value(key in f)
    case JArr(items) => Value(IsArrayKey(items, key))
    case _ => Crash
  }

  /** No key made only of letters is an array key, whatever the array holds:
      `"unique" in [...]` is false for every array. */
  lemma {:induction false} LetterKeyNotInArray(items: seq<Json>, key: string)
    requires key != "length" && |key| > 0 && !IsDigit(key[0])
    ensures In(key, JArr(items)) == Value(false)
  {
    forall i | 0 <= i < |items|
      ensures NatToString(i) != key
    {
      var d := NatToString(i);
      assert IsDigit(d[0]) && d[0] != key[0];
    }
  }
}
