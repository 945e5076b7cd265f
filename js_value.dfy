/**
 This module gives the JavaScript values that the helper class works on:
 JSON-like data plus `undefined`, with the parts of the language's semantics
 that `isObject` and `mergeDeep` depend on (truthiness, `typeof`,
 `Array.isArray`, the canonical property key of an array index, and
 `Object.assign({}, v)`).
 */
module JsValue {

  datatype Option<+T> = None | Some(value: T)

  /** A JavaScript value as far as settings objects go. Numbers are integers here. */
  datatype Json =
    | JUndefined
    | JNull
    | JBool(b: bool)
    | JNum(n: int)
    | JStr(s: string)
    | JArr(items: seq<Json>)
    | JObj(fields: map<string, Json>)

  /** JavaScript truthiness: `undefined`, `null`, `false`, `0` and `""` are falsy. */
  predicate Truthy(v: Json)
  {
    match v
    case JUndefined => false
    case JNull => false
    case JBool(b) => b
    case JNum(n) => n != 0
    case JStr(s) => s != ""
    case JArr(_) => true
    case JObj(_) => true
  }

  /** The `typeof` operator; note that `typeof null` and `typeof []` are both "object". */
  function TypeOf(v: Json): string
  {
    match v
    case JUndefined => "undefined"
    case JNull => "object"
    case JBool(_) => "boolean"
    case JNum(_) => "number"
    case JStr(_) => "string"
    case JArr(_) => "object"
    case JObj(_) => "object"
  }

  /** `Array.isArray` */
  predicate IsArray(v: Json)
  {
    v.JArr?
  }

  const Digits: string := "0123456789"

  /** The property key of array index `i`: its decimal numeral without leading zeros. */
  function IndexKey(i: nat): string
    decreases i
  {
    if i < 10 then [Digits[i]] else IndexKey(i / 10) + [Digits[i % 10]]
  }

  function DigitValue(c: char): nat
  {
    if '0' <= c <= '9' then (c as int - '0' as int) as nat else 0
  }

  /** Reads a decimal numeral back; the inverse of IndexKey. */
  function ParseIndexKey(s: string): nat
    decreases |s|
  {
    if s == [] then 0 else 10 * ParseIndexKey(s[..|s| - 1]) + DigitValue(s[|s| - 1])
  }

  lemma {:induction false} ParseIndexKeyRoundTrip(i: nat)
    ensures ParseIndexKey(IndexKey(i)) == i
    decreases i
  {
    var k := IndexKey(i);
    if i < 10 {
      assert k[..0] == [];
    } else {
      ParseIndexKeyRoundTrip(i / 10);
      assert k[..|k| - 1] == IndexKey(i / 10);
    }
    assert DigitValue(k[|k| - 1]) == i % 10;
  }

  /** Distinct indices have distinct property keys. */
  lemma IndexKeyInjective()
    ensures forall i: nat, j: nat :: IndexKey(i) == IndexKey(j) ==> i == j
  {
    forall i: nat, j: nat | IndexKey(i) == IndexKey(j)
      ensures i == j
    {
      ParseIndexKeyRoundTrip(i);
      ParseIndexKeyRoundTrip(j);
    }
  }

  /** The property keys of an array (or string) of length n. */
  ghost function IndexKeys(n: nat): set<string>
  {
    set i | 0 <= i < n :: IndexKey(i)
  }

  /** The own enumerable properties of a sequence of elements, keyed by index. */
  function Indexed(items: seq<Json>): map<string, Json>
  {
    IndexKeyInjective();
    map i | 0 <= i < |items| :: IndexKey(i) := items[i]
  }

  /** The one-character strings of `s`, as a string's index properties read. */
  function Chars(s: string): (r: seq<Json>)
    ensures |r| == |s|
    ensures forall i :: 0 <= i < |s| ==> r[i] == JStr([s[i]])
  {
    if s == [] then [] else [JStr([s[0]])] + Chars(s[1..])
  }

  /**
   `Object.assign({}, v)`: a fresh plain object holding the own enumerable
   properties of v. Null and undefined contribute nothing; booleans and
   numbers are wrapped into objects without such properties; a string or an
   array contributes one property per index.
   */
  function AssignCopy(v: Json): map<string, Json>
  {
    match v
    case JObj(m) => m
    case JArr(items) => Indexed(items)
    case JStr(s) => Indexed(Chars(s))
    case _ => map[]
  }

  lemma {:induction false} IndexedContents(items: seq<Json>)
    ensures Indexed(items).Keys == IndexKeys(|items|)
    ensures forall i :: 0 <= i < |items| ==> Indexed(items)[IndexKey(i)] == items[i]
  {
    IndexKeyInjective();
  }

  /** Copying an array gives the object whose key "i" holds element i, and nothing else. */
  lemma AssignCopyOfArray(items: seq<Json>)
    ensures AssignCopy(JArr(items)).Keys == IndexKeys(|items|)
    ensures forall i :: 0 <= i < |items| ==> AssignCopy(JArr(items))[IndexKey(i)] == items[i]
  {
    IndexedContents(items);
  }

  /** Copying a string gives the object whose key "i" holds the string's character i. */
  lemma AssignCopyOfString(s: string)
    ensures AssignCopy(JStr(s)).Keys == IndexKeys(|s|)
    ensures forall i :: 0 <= i < |s| ==> AssignCopy(JStr(s))[IndexKey(i)] == JStr([s[i]])
  {
    IndexedContents(Chars(s));
  }

  /** Copying a value that has no own enumerable properties gives the empty object. */
  lemma AssignCopyOfScalar(v: Json)
    requires v.JUndefined? || v.JNull? || v.JBool? || v.JNum?
    ensures AssignCopy(v) == map[]
  {
  }

  /** The property-access chain `v[path[0]][path[1]]...` through plain objects. */
  function Lookup(v: Json, path: seq<string>): Option<Json>
    decreases |path|
  {
    if path == [] then Some(v)
    else if v.JObj? && path[0] in v.fields then Lookup(v.fields[path[0]], path[1..])
    else None
  }
}
