/** Failure-compatible wrappers and the view of a finite table as optional cells. */
module Wrappers {

  datatype Option<+T> = None | Some(value: T) {
    function GetOr(default: T): T {
      if Some? then value else default
    }
  }

  datatype Result<+T, +E> = Success(value: T) | Failure(error: E)

  /** The cell of a table at a key: a missing row is None. */
  function Lookup<K, V>(table: map<K, V>, key: K): Option<V> {
    if key in table then Some(table[key]) else None
  }

  /** The table whose cell at `key` is `cell` and whose other cells are those of `table`. */
  function Store<K(!new), V>(table: map<K, V>, key: K, cell: Option<V>): (r: map<K, V>)
    ensures Lookup(r, key) == cell
    ensures forall k :: k != key ==> Lookup(r, k) == Lookup(table, k)
  {
    match cell
    case Some(v) => table[key := v]
    case None => table - {key}
  }

  lemma {:induction false} SubsetSize<T>(a: set<T>, b: set<T>)
    requires a <= b
    ensures |a| <= |b|
    decreases a
  {
    if x :| x in a {
      SubsetSize(a - {x}, b - {x});
    }
  }
}
