/** Values shared by every part of the flow engine: identifiers, timestamps,
    JSON-like payloads and the Option/Result wrappers used for the error paths. */
module Values {

  /** Identifiers handed out by uuid4, by the document store and by the task runner. */
  type Id = nat

  /** A wall-clock reading, in whole seconds. */
  type Time = nat

  datatype Option<+T> = None | Some(value: T) {
    function GetOr(default: T): T {
      match this
      case Some(v) => v
      case None => default
    }
  }

  datatype Result<+R, +E> = Success(value: R) | Failure(error: E)

  /** A JSON value as the store, the task runner and the oracle exchange them. */
  datatype Json =
    | JNull
    | JBool(b: bool)
    | JNum(n: int)
    | JStr(s: string)
    | JList(items: seq<Json>)
    | JObject(fields: map<string, Json>)

  /** A JSON object read as a Python dict. */
  type Dict = map<string, Json>

  /** Python's `d or {}`: a missing dict (None) becomes the empty dict. */
  function OrEmpty(d: Option<Dict>): Dict {
    d.GetOr(map[])
  }

  /** No element occurs twice. */
  predicate NoDuplicates<T(==)>(s: seq<T>) {
    forall i, j :: 0 <= i < j < |s| ==> s[i] != s[j]
  }
}
