/** Vocabulary shared by the model: optional values and lookups. */
module Prelude {
  datatype Option<+T> = None | Some(value: T)

  /** The value a map holds for a key, or None. */
  function Lookup<K, V>(m: map<K, V>, k: K): Option<V> {
    if k in m then Some(m[k]) else None
  }

  /** A C string that may be NULL or empty, read as "no value" in both cases. */
  function NonEmpty(s: string): Option<string> {
    if s == "" then None else Some(s)
  }
}
