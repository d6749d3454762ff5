/** The per-id show/hide maps of several pages (revealed keys, expanded
    users, expanded providers), all updated by the same
    `setX(prev => ({ ...prev, [id]: !prev[id] }))`. */
module Flags {

  /** An entry reads as on when it is present and `true`; a missing id reads
      `undefined`, which is falsy. */
  predicate IsOn<K>(m: map<K, bool>, id: K) {
    id in m && m[id]
  }

  /** `{ ...prev, [id]: !prev[id] }`: the entry of `id` becomes the negation of
      how it read, and every other entry keeps its presence and value. */
  function Toggle<K>(m: map<K, bool>, id: K): (r: map<K, bool>)
    ensures id in r && r[id] == !IsOn(m, id)
    ensures r.Keys == m.Keys + {id}
    ensures forall k :: k in m && k != id ==> r[k] == m[k]
  {
    m[id := !IsOn(m, id)]
  }

  /** Toggling flips how `id` reads and no other id's reading. */
  lemma ToggleFlipsOnlyItsId<K>(m: map<K, bool>, id: K, other: K)
    ensures IsOn(Toggle(m, id), id) == !IsOn(m, id)
    ensures other != id ==> IsOn(Toggle(m, id), other) == IsOn(m, other)
  {
  }

  /** An id never toggled reads as off; after one toggle it reads as on. */
  lemma FirstToggleTurnsOn<K>(m: map<K, bool>, id: K)
    requires id !in m
    ensures !IsOn(m, id) && IsOn(Toggle(m, id), id)
  {
  }

  /** Toggling the same id twice gives back how every id reads. */
  lemma ToggleTwiceRestores<K>(m: map<K, bool>, id: K, k: K)
    ensures IsOn(Toggle(Toggle(m, id), id), k) == IsOn(m, k)
  {
  }
}
