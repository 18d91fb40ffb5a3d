/** Values shared by every platform: raw addresses, module handles, optional
    values and the insert-on-read behaviour of `std::map::operator[]`. */
module Types {

  /** A pointer value as the hooking code sees it; 0 is NULL. */
  type Addr = nat

  /** A Win32 module handle (HMODULE); 0 is NULL. */
  type Handle = nat

  const NULL: nat := 0

  datatype Option<+T> = None | Some(value: T)

  /** `m[key]` on a `std::map`: an absent key is inserted with the
      value-initialised `default` before it is read; present keys are left as
      they are. */
  function EnsureKey<V>(m: map<string, V>, key: string, default: V): (r: map<string, V>)
    ensures r.Keys == m.Keys + {key}
    ensures forall k :: k in m ==> r[k] == m[k]
    ensures key !in m ==> r[key] == default
  {
    if key in m then m else m[key := default]
  }

  /** `m[k]` evaluated for every `k` of `keys`, in order. */
  function EnsureKeys<V>(m: map<string, V>, keys: seq<string>, default: V): (r: map<string, V>)
    decreases |keys|
  {
    if keys == [] then m else EnsureKeys(EnsureKey(m, keys[0], default), keys[1..], default)
  }

  /** Reading every key of `keys` adds exactly those keys, keeps every value
      that was there and gives every new key the default. */
  lemma {:induction false} EnsureKeysSpec<V>(m: map<string, V>, keys: seq<string>, default: V)
    ensures EnsureKeys(m, keys, default).Keys == m.Keys + set k | k in keys
    ensures forall k :: k in m ==> EnsureKeys(m, keys, default)[k] == m[k]
    ensures forall k :: k in EnsureKeys(m, keys, default) && k !in m ==> EnsureKeys(m, keys, default)[k] == default
    decreases |keys|
  {
    if keys != [] {
      EnsureKeysSpec(EnsureKey(m, keys[0], default), keys[1..], default);
      assert (set k | k in keys) == {keys[0]} + set k | k in keys[1..];
    }
  }
}
