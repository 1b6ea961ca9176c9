/** Option and Result: the program's `None` and its raised exceptions. */
module Prelude {

  datatype Option<+T> = None | Some(value: T)

  datatype Result<+T, +E> = Ok(value: T) | Err(error: E)

  /** The exception classes of the runtime, plus the two raised by libraries under it. */
  datatype Error =
    | NotFound
    | Conflict
    | InvalidOperation
    | ValidationFailed  // the Patch Panel validator refused the definition
    | Malformed         // text that does not parse (Python's ValueError)
    | Integrity         // a unique constraint of the database
    | Aborted           // the database ended the transaction

  /** `a or b` on an optional string: the empty string is falsy. */
  function OrElse(o: Option<string>, other: string): string {
    if Truthy(o) then o.value else other
  }

  predicate Truthy(o: Option<string>) {
    o.Some? && o.value != ""
  }

  /** Appending `k` to the insertion order of a dictionary: a key already there keeps its place. */
  function Push<K(==)>(order: seq<K>, keys: set<K>, k: K): seq<K> {
    if k in keys then order else order + [k]
  }

  /** `order` lists exactly the keys `keys`, each once. */
  ghost predicate Lists<K>(order: seq<K>, keys: set<K>) {
    && (forall i :: 0 <= i < |order| ==> order[i] in keys)
    && (forall k {:trigger k in order} :: k in keys ==> k in order)
    && (forall i, j :: 0 <= i < j < |order| ==> order[i] != order[j])
  }
}
