/** Types shared by the queue command and the track-end handler: Discord's
    guild identifier, an Option, and the find-or-create step of Rust's
    `HashMap::entry(key).or_insert_with(..)` / `.or_default()` that both use
    on their per-guild maps. */
module Common {

  /** A Discord guild id: an unsigned 64-bit integer. */
  type GuildId = x: int | 0 <= x < 0x1_0000_0000_0000_0000

  datatype Option<+T> = None | Some(value: T)

  /** `m.entry(key).or_insert_with(make)`: afterwards `key` has an entry; an
      entry that was already there is kept as it was, a missing one is made
      from `made`, and no other key is touched. */
  function OrInsert<K, V>(m: map<K, V>, key: K, made: V): (r: map<K, V>)
    ensures r.Keys == m.Keys + {key}
    ensures forall k :: k in m ==> r[k] == m[k]
    ensures key !in m ==> r[key] == made
  {
    if key in m then m else m[key := made]
  }
}
