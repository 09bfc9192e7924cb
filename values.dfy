/** Values shared by the Python backend and the JavaScript front end: optional and
    failing results, and the JSON documents that cross every HTTP boundary. */
module Values {

  datatype Option<+T> = None | Some(value: T) {
    function GetOr(default: T): T {
      match this
      case Some(v) => v
      case None => default
    }
  }

  datatype Result<+T, +E> = Ok(value: T) | Err(error: E)

  /** A decoded JSON document. Python decodes integral literals to `int` and the others to
      `float`; JavaScript decodes both to a number, so the two number cases only differ
      where Python names the type. */
  datatype Json =
    | JNull
    | JBool(b: bool)
    | JInt(i: int)
    | JReal(r: real)
    | JStr(s: string)
    | JArr(items: seq<Json>)
    | JObj(fields: map<string, Json>)

  /** Python's truth value of a decoded document: None, False, zero and empty containers are false. */
  predicate PyTruthy(v: Json) {
    match v
    case JNull => false
    case JBool(b) => b
    case JInt(i) => i != 0
    case JReal(r) => r != 0.0
    case JStr(s) => s != ""
    case JArr(items) => items != []
    case JObj(fields) => fields != map[]
  }

  /** JavaScript's truth value: empty arrays and objects are true, unlike in Python. */
  predicate JsTruthy(v: Json) {
    match v
    case JNull => false
    case JBool(b) => b
    case JInt(i) => i != 0
    case JReal(r) => r != 0.0
    case JStr(s) => s != ""
    case JArr(_) => true
    case JObj(_) => true
  }

  /** `a || d` where `a` is a property that may be `undefined` (None). */
  function JsOr(a: Option<Json>, d: Json): Json {
    if a.Some? && JsTruthy(a.value) then a.value else d
  }

  /** The message of the TypeError thrown by reading `key` on `null`. */
  function NullPropertyError(key: string): string {
    "TypeError: Cannot read properties of null (reading '" + key + "')"
  }

  /** `v.key` in JavaScript: a missing property is `undefined` (None), and reading any
      property of `null` throws a TypeError. Strings, numbers, booleans and arrays have
      none of the properties this model reads. */
  function JsProp(v: Json, key: string): Result<Option<Json>, string> {
    match v
    case JNull => Err(NullPropertyError(key))
    case JObj(fields) => if key in fields then Ok(Some(fields[key])) else Ok(None)
    case _ => Ok(None)
  }

  /** `r` keeps some of the elements of `s`, in their order. */
  predicate IsSubsequence<T(==)>(r: seq<T>, s: seq<T>)
    decreases |s|
  {
    r == [] || (s != [] && ((r[0] == s[0] && IsSubsequence(r[1..], s[1..])) || IsSubsequence(r, s[1..])))
  }

  lemma {:induction false} SubsequenceOfItself<T>(s: seq<T>)
    ensures IsSubsequence(s, s)
    decreases |s|
  {
    if s != [] {
      SubsequenceOfItself(s[1..]);
    }
  }

  /** Appending one element to `s` keeps `r` a subsequence, whether or not `r` takes it. */
  lemma {:induction false} SubsequenceSnoc<T>(r: seq<T>, s: seq<T>, x: T)
    requires IsSubsequence(r, s)
    ensures IsSubsequence(r, s + [x]) && IsSubsequence(r + [x], s + [x])
    decreases |s|
  {
    if s == [] {
      assert r == [];
      assert ([] + [x])[1..] == [];
    } else {
      assert (s + [x])[0] == s[0] && (s + [x])[1..] == s[1..] + [x];
      if r == [] {
        SubsequenceSnoc(r, s[1..], x);
      } else if r[0] == s[0] && IsSubsequence(r[1..], s[1..]) {
        SubsequenceSnoc(r[1..], s[1..], x);
        assert (r + [x])[0] == r[0] && (r + [x])[1..] == r[1..] + [x];
      } else {
        SubsequenceSnoc(r, s[1..], x);
      }
    }
  }
}
