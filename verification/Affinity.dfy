/** Sticky routing of a key to one account, mirrored in the store (claude_ai/orchestrator/affinity.py). */
module Affinity {
  import opened KeyValue
  import opened Scheduling

  type Pins = map<string, Account>

  /** The affinity namespace as pins. */
  ghost function DiskPins(data: Data<StateValue>): Pins {
    map k | k in Items(data, AFFINITY) && Items(data, AFFINITY)[k].Pin? :: Items(data, AFFINITY)[k].account
  }

  ghost predicate OnlyPins(data: Data<StateValue>) {
    forall k :: k in Items(data, AFFINITY) ==> Items(data, AFFINITY)[k].Pin?
  }

  /** The pins left when every key pinned to `a` is dropped. */
  function Without(pins: Pins, a: Account): Pins {
    map k | k in pins && pins[k] != a :: pins[k]
  }

  class AffinityTracker {
    const store: MemoryStorage<StateValue>
    var pins: Pins

    /** The pin map equals its persisted copy. */
    ghost predicate Valid()
      reads this, store
    {
      OnlyPins(store.data) && pins == DiskPins(store.data)
    }

    constructor (store: MemoryStorage<StateValue>)
      requires OnlyPins(store.data)
      ensures this.store == store && Valid()
    {
      this.store := store;
      var raw := Items(store.data, AFFINITY);
      pins := map k | k in raw && raw[k].Pin? :: raw[k].account;
    }

    method PinKey(key: string, a: Account)
      requires Valid()
      modifies this, store
      ensures Valid() && pins == old(pins)[key := a]
      ensures forall ns :: ns != AFFINITY ==> Items(store.data, ns) == Items(old(store.data), ns)
    {
      if key in pins && pins[key] == a {
        assert pins == pins[key := a];
        return;
      }
      pins := pins[key := a];
      store.Set(AFFINITY, key, Pin(a));
      assert DiskPins(store.data) == old(DiskPins(store.data))[key := a];
    }

    method Unpin(key: string)
      requires Valid()
      modifies this, store
      ensures Valid() && pins == old(pins) - {key}
      ensures forall ns :: ns != AFFINITY ==> Items(store.data, ns) == Items(old(store.data), ns)
    {
      pins := pins - {key};
      store.Delete(AFFINITY, key);
      assert DiskPins(store.data) == old(DiskPins(store.data)) - {key};
    }

    /** `drop_account`: the keys are listed first, then removed one by one. */
    method DropAccount(a: Account)
      requires Valid()
      modifies this, store
      ensures Valid() && pins == Without(old(pins), a)
      ensures forall ns :: ns != AFFINITY ==> Items(store.data, ns) == Items(old(store.data), ns)
    {
      var todo := set k | k in pins && pins[k] == a;
      while todo != {}
        invariant Valid()
        invariant todo == set k | k in pins && pins[k] == a
        invariant pins.Keys <= old(pins).Keys
        invariant forall k :: k in old(pins) && (k in todo || old(pins)[k] != a) ==> k in pins
        invariant forall k :: k in pins ==> pins[k] == old(pins)[k]
        invariant forall ns :: ns != AFFINITY ==> Items(store.data, ns) == Items(old(store.data), ns)
        decreases todo
      {
        var k :| k in todo;
        Unpin(k);
        todo := todo - {k};
      }
      forall k | k in pins ensures pins[k] != a {
        assert pins[k] == a ==> k in todo;
      }
      assert pins == Without(old(pins), a);
    }
  }
}
