/** `useLocalStorage(key, initialValue)`: one named value kept in component
    state and mirrored into the browser's key/value store. The store is an
    in-memory map from keys to (already deserialised) values. */
module LocalStorage {

  /** What a fresh hook reads for `key`: the stored value when there is one,
      else the caller's default. */
  function Stored<T>(storage: map<string, T>, key: string, initialValue: T): (r: T)
    ensures key in storage ==> r == storage[key]
    ensures key !in storage ==> r == initialValue
  {
    if key in storage then storage[key] else initialValue
  }

  /** A write under `key` is what the next reader of `key` sees (persisted
      values survive a reload of the hook). */
  lemma WriteThenReload<T>(storage: map<string, T>, key: string, initialValue: T, v: T)
    ensures Stored(storage[key := v], key, initialValue) == v
  {
  }

  /** Writes under one key are invisible to readers of any other key. */
  lemma WriteLeavesOtherKeys<T>(storage: map<string, T>, key: string, other: string, initialValue: T, v: T)
    requires other != key
    ensures Stored(storage[key := v], other, initialValue) == Stored(storage, other, initialValue)
  {
  }

  class Slot<T> {
    const key: string
    const initialValue: T
    /** The React state the hook returns. */
    var state: T
    /** The browser's key/value store, every key of it. */
    var storage: map<string, T>

    /** The state always agrees with what a fresh reader of `key` would see. */
    ghost predicate Valid()
      reads this
    {
      state == Stored(storage, key, initialValue)
    }

    /** Mounting the hook reads the stored value, falling back to the default. */
    constructor (storage: map<string, T>, key: string, initialValue: T)
      ensures Valid()
      ensures this.key == key && this.initialValue == initialValue && this.storage == storage
      ensures key !in storage ==> state == initialValue
      ensures key in storage ==> state == storage[key]
    {
      this.key := key;
      this.initialValue := initialValue;
      this.storage := storage;
      this.state := Stored(storage, key, initialValue);
    }

    /** `setState(value)`: the state and the stored entry both become `v`. */
    method Set(v: T)
      requires Valid()
      modifies this
      ensures Valid()
      ensures state == v
      ensures storage == old(storage)[key := v]
    {
      state := v;
      storage := storage[key := v];
    }

    /** `setState(prev => f(prev))`: the current value `x` becomes `f(x)`. */
    method Update(f: T -> T)
      requires Valid()
      modifies this
      ensures Valid()
      ensures state == f(old(state))
      ensures storage == old(storage)[key := f(old(state))]
    {
      Set(f(state));
    }

    /** `removeValue()`: back to the default (not to `undefined`), and the key
        is deleted from the store; every other key is left as it was. */
    method Remove()
      requires Valid()
      modifies this
      ensures Valid()
      ensures state == initialValue
      ensures storage == old(storage) - {key}
      ensures forall k :: k in old(storage) && k != key ==> k in storage && storage[k] == old(storage)[k]
    {
      Set(initialValue);
      storage := storage - {key};
    }
  }

  /** Removing twice leaves the same state and store as removing once. */
  method RemoveIsIdempotent<T>(slot: Slot<T>)
    requires slot.Valid()
    modifies slot
    ensures slot.Valid()
    ensures slot.state == slot.initialValue
    ensures slot.storage == old(slot.storage) - {slot.key}
  {
    slot.Remove();
    ghost var once := (slot.state, slot.storage);
    slot.Remove();
    assert slot.key !in once.1;
    assert once.1 - {slot.key} == once.1;
    assert (slot.state, slot.storage) == once;
  }
}
