/** The namespaced key-value storage contract, as its in-memory backend keeps it (claude_ai/storage/kv/memory.py). */
module KeyValue {
  type Data<V> = map<string, map<string, V>>

  /** A namespace never written reads as empty. */
  function Items<V>(data: Data<V>, ns: string): map<string, V> {
    if ns in data then data[ns] else map[]
  }

  class MemoryStorage<V> {
    var data: Data<V>

    constructor ()
      ensures data == map[]
    {
      data := map[];
    }

    method Set(ns: string, key: string, value: V)
      modifies this
      ensures Items(data, ns) == Items(old(data), ns)[key := value]
      ensures forall other :: other != ns ==> Items(data, other) == Items(old(data), other)
    {
      data := data[ns := Items(data, ns)[key := value]];
    }

    method Delete(ns: string, key: string)
      modifies this
      ensures Items(data, ns) == Items(old(data), ns) - {key}
      ensures forall other :: other != ns ==> Items(data, other) == Items(old(data), other)
    {
      if ns in data {
        data := data[ns := data[ns] - {key}];
      }
    }
  }
}
