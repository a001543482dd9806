/** Values shared by every part of the model: optional values and results for
 *  the code's null returns and exceptions, JSON values as PHP builds and
 *  decodes them, PHP's loose notions of emptiness and truth, and the library
 *  functions the code calls whose internals are not modelled. */
module Base {

  datatype Option<T> = None | Some(value: T) {
    function GetOr(default: T): T {
      match this
      case Some(v) => v
      case None => default
    }
  }

  datatype Result<T, E> = Success(value: T) | Failure(error: E)

  /** The outcome of an operation that returns nothing but may throw. */
  datatype Outcome<E> = Pass | Fail(error: E)

  /** A JSON value.  `JObj` is an object as `json_decode` returns it (a
   *  stdClass instance: true in a boolean context even when it has no
   *  properties); `JMap` is an associative PHP array built by the code itself
   *  (`json_encode` writes it as an object; it is empty when it has no
   *  entries); `JList` is a list array. */
  datatype Json =
    | JNull
    | JBool(b: bool)
    | JNum(n: int)
    | JStr(s: string)
    | JList(items: seq<Json>)
    | JObj(props: seq<(string, Json)>)
    | JMap(entries: seq<(string, Json)>)

  /** PHP's `empty()` on a string that may be null: null, "" and "0". */
  predicate EmptyText(s: Option<string>) {
    s.None? || s.value == "" || s.value == "0"
  }

  /** The key PHP uses for a value that may be null: null becomes "". */
  function KeyText(s: Option<string>): string {
    s.GetOr("")
  }

  /** PHP's conversion of a decoded value to bool. */
  predicate Truthy(j: Json) {
    match j
    case JNull => false
    case JBool(b) => b
    case JNum(n) => n != 0
    case JStr(s) => !EmptyText(Some(s))
    case JList(xs) => xs != []
    case JObj(_) => true
    case JMap(es) => es != []
  }

  /** The value of the last entry named `name`, or null. */
  function LastValue(entries: seq<(string, Json)>, name: string): Json {
    if entries == [] then JNull
    else if entries[|entries| - 1].0 == name then entries[|entries| - 1].1
    else LastValue(entries[..|entries| - 1], name)
  }

  /** The value of a name is that of its last entry. */
  lemma {:induction false} LastValueAt(entries: seq<(string, Json)>, name: string, i: nat)
    requires i < |entries| && entries[i].0 == name
    requires forall j :: i < j < |entries| ==> entries[j].0 != name
    ensures LastValue(entries, name) == entries[i].1
    decreases |entries|
  {
    if i < |entries| - 1 {
      LastValueAt(entries[..|entries| - 1], name, i);
    }
  }

  /** `$j->name` on a decoded value (and `$j['name']` on an array): null when
   *  `j` has no such property or is not an object. */
  function Prop(j: Json, name: string): Json {
    match j
    case JObj(ps) => LastValue(ps, name)
    case JMap(es) => LastValue(es, name)
    case _ => JNull
  }

  /** What `foreach` visits in a decoded value: the elements of a list, the
   *  property values of an object, nothing for a scalar or null. */
  function Items(j: Json): seq<Json> {
    match j
    case JList(xs) => xs
    case JObj(ps) => seq(|ps|, i requires 0 <= i < |ps| => ps[i].1)
    case JMap(es) => seq(|es|, i requires 0 <= i < |es| => es[i].1)
    case _ => []
  }

  /** The library functions the code calls whose internals are not part of
   *  the model.  Every statement of the model holds whatever functions these
   *  are. */
  datatype Codec = Codec(
    md5: string -> string,
    serialize: Json -> string,
    unserialize: string -> Json,
    jsonEncode: Json -> string,
    jsonDecode: string -> Json,
    httpBuildQuery: Json -> string,
    htmlEscape: string -> string)
}
