/** The revisioned key-value store as its callers see it: a table of cells whose
    revision starts at 1 and grows by one with every accepted write. */
module Kv {

  datatype Option<+T> = None | Some(value: T)

  datatype Cell<+V> = Cell(value: V, rev: nat)

  type Table<!K, +V> = map<K, Cell<V>>

  /** A plain save: creates the cell at revision 1 or bumps its revision. */
  function Put<K, V>(t: Table<K, V>, k: K, v: V): Table<K, V> {
    t[k := Cell(v, if k in t then t[k].rev + 1 else 1)]
  }

  /** Compare-and-swap accepts only the current revision; 0 stands for "absent". */
  predicate CasOk<K, V>(t: Table<K, V>, k: K, rev: nat) {
    if k in t then t[k].rev == rev else rev == 0
  }

  function Cas<K, V>(t: Table<K, V>, k: K, v: V, rev: nat): Table<K, V> {
    t[k := Cell(v, rev + 1)]
  }

  function Delete<K, V>(t: Table<K, V>, k: K): Table<K, V> {
    t - {k}
  }
}
