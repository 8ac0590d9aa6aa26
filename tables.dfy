/**
 * The two write disciplines of the SQLite tables, stated on maps from the
 * primary key to the rest of the row.
 */
module Tables {

  /**
   * `INSERT` guarded by an existence check on the primary key: a row that is
   * already there is never touched, a missing one is added.
   */
  function InsertIfAbsent<K, V>(m: map<K, V>, k: K, v: V): (r: map<K, V>)
    ensures r.Keys == m.Keys + {k}
    ensures forall j :: j in m ==> r[j] == m[j]
    ensures k !in m ==> r[k] == v
  {
    if k in m then m else m[k := v]
  }

  /** `INSERT OR REPLACE` on the primary key: the new row wins, every other row stays. */
  function Upsert<K, V>(m: map<K, V>, k: K, v: V): (r: map<K, V>)
    ensures r.Keys == m.Keys + {k}
    ensures r[k] == v
    ensures forall j :: j in m && j != k ==> r[j] == m[j]
  {
    m[k := v]
  }

  /** Every row of `m` is still in `m'`, with the same contents. */
  ghost predicate Extends<K, V>(m: map<K, V>, m': map<K, V>)
  {
    forall k :: k in m ==> k in m' && m'[k] == m[k]
  }

  lemma ExtendsTransitive<K, V>(m1: map<K, V>, m2: map<K, V>, m3: map<K, V>)
    requires Extends(m1, m2) && Extends(m2, m3)
    ensures Extends(m1, m3)
  {
  }

  /** A guarded insert adds at most one row and never changes an existing one. */
  lemma InsertIfAbsentGrowth<K, V>(m: map<K, V>, k: K, v: V)
    ensures Extends(m, InsertIfAbsent(m, k, v))
    ensures |InsertIfAbsent(m, k, v)| == if k in m then |m| else |m| + 1
  {
  }

  /** Inserting the same key twice leaves the table as the first insert left it. */
  lemma InsertIfAbsentTwice<K, V>(m: map<K, V>, k: K, v: V, v': V)
    ensures InsertIfAbsent(InsertIfAbsent(m, k, v), k, v') == InsertIfAbsent(m, k, v)
  {
  }

  /** Replacing the same key twice keeps only the second row, and adds at most one row. */
  lemma UpsertTwice<K, V>(m: map<K, V>, k: K, v: V, v': V)
    ensures Upsert(Upsert(m, k, v), k, v') == Upsert(m, k, v')
    ensures |Upsert(m, k, v')| == if k in m then |m| else |m| + 1
  {
  }
}
