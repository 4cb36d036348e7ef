/** Stock pieces shared by the other modules. */
module Wrappers {
  datatype Option<T> = None | Some(value: T)

  /** `sync.Map.CompareAndDelete`: removes an entry only if it still holds the value meant. */
  function CompareAndDelete<K, V(==)>(m: map<K, V>, k: K, v: V): map<K, V> {
    if k in m && m[k] == v then m - {k} else m
  }
}
