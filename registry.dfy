/**
 * The fan-out registry shared by the command bus and the root event bus: a Go
 * map from a string key to a slice of handlers, extended by `append`.
 */
module Registry {

  /** The handlers stored under `key`; a key never registered reads as the empty
      slice, as a missing key of a Go map of slices does. */
  function Lookup<H>(m: map<string, seq<H>>, key: string): seq<H>
  {
    if key in m then m[key] else []
  }

  /** `m[key] = append(m[key], h)`. */
  function Append<H>(m: map<string, seq<H>>, key: string, h: H): (m': map<string, seq<H>>)
    ensures Lookup(m', key) == Lookup(m, key) + [h]
    ensures forall k :: k != key ==> Lookup(m', k) == Lookup(m, k)
    ensures m'.Keys == m.Keys + {key}
  {
    m[key := Lookup(m, key) + [h]]
  }

  /** Registering every handler of `hs` under `key`, one call after another. */
  function AppendAll<H>(m: map<string, seq<H>>, key: string, hs: seq<H>): map<string, seq<H>>
    decreases |hs|
  {
    if hs == [] then m else AppendAll(Append(m, key, hs[0]), key, hs[1..])
  }

  /** Successive registrations under one key are all kept, in registration order,
      and leave every other key alone. */
  lemma {:induction false} AppendAllInOrder<H>(m: map<string, seq<H>>, key: string, hs: seq<H>)
    ensures Lookup(AppendAll(m, key, hs), key) == Lookup(m, key) + hs
    ensures forall k :: k != key ==> Lookup(AppendAll(m, key, hs), k) == Lookup(m, k)
    decreases |hs|
  {
    if hs != [] {
      AppendAllInOrder(Append(m, key, hs[0]), key, hs[1..]);
      assert [hs[0]] + hs[1..] == hs;
    }
  }
}
