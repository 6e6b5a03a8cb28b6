/** Shared vocabulary: optional values, as looked up in a table that may lack the row, and the
    small functions that several components share. */
module Basics {
  datatype Option<+T> = None | Some(value: T)

  function One(b: bool): nat { if b then 1 else 0 }

  /** An absent job type means redaction. */
  function TypeName(jobType: string): string { if jobType == "" then "redact" else jobType }

  function Get<K, V>(m: map<K, V>, k: K): Option<V> {
    if k in m then Some(m[k]) else None
  }

  lemma GetUpdate<K, V>(m: map<K, V>, j: K, v: V)
    ensures forall k :: k != j ==> Get(m[j := v], k) == Get(m, k)
    ensures j in m[j := v] && m[j := v][j] == v
  {}

  lemma GetMinus<K, V>(m: map<K, V>, j: K)
    ensures forall k :: k != j ==> Get(m - {j}, k) == Get(m, k)
    ensures j !in m - {j}
  {}
}
