/**
 * Shard assignment for the Identify payload: a guild is served by shard
 * `(guild_id >> 22) % num_shards`. For an unsigned 64-bit id, `>> 22` is
 * division by 2^22, which drops the low 22 bits (worker, process and increment
 * fields of the id) and keeps the timestamp part.
 */
module Sharding {
  import opened Numeric

  const SHIFT_DIVISOR: nat := 0x40_0000  // 2^22

  /** `guild_id >> 22` on an unsigned 64-bit value. */
  function ShiftRight22(guildId: U64): nat {
    guildId / SHIFT_DIVISOR
  }

  /**
   * `get_sharding`: returns `(shard_id, total_shards)`. Rust's `%` by zero
   * panics, so `numShards` must be positive.
   */
  function GetSharding(guildId: U64, numShards: U64): (r: (U64, U64))
    requires numShards >= 1
    ensures r.1 == numShards
    ensures r.0 < numShards
    ensures exists q: nat {:trigger q * numShards} :: ShiftRight22(guildId) == q * numShards + r.0
  {
    var shard := ShiftRight22(guildId) % numShards;
    assert ShiftRight22(guildId) == (ShiftRight22(guildId) / numShards) * numShards + shard;
    (shard, numShards)
  }

  /** Only bits 22..63 of the id matter: ids that agree there land on the same shard. */
  lemma SameHighBitsSameShard(a: U64, b: U64, numShards: U64)
    requires numShards >= 1
    requires ShiftRight22(a) == ShiftRight22(b)
    ensures GetSharding(a, numShards) == GetSharding(b, numShards)
  {
  }

  /** Ids that differ only in their low 22 bits share a shard. */
  lemma LowBitsIrrelevant(a: U64, low: nat, numShards: U64)
    requires numShards >= 1
    requires a % SHIFT_DIVISOR == 0 && low < SHIFT_DIVISOR && a + low < TWO_64
    ensures GetSharding(a + low, numShards) == GetSharding(a, numShards)
  {
    var q := a / SHIFT_DIVISOR;
    assert a == q * SHIFT_DIVISOR;
    assert (a + low) / SHIFT_DIVISOR == q;
  }

  /** With a single shard every guild is on shard 0. */
  lemma SingleShard(guildId: U64)
    ensures GetSharding(guildId, 1) == (0, 1)
  {
  }

  /** The documented example `get_sharding(1, 2) == (1, 2)` does not hold: 1 >> 22 is 0. */
  lemma DocExampleAsWritten()
    ensures GetSharding(1, 2) == (0, 2)
    ensures GetSharding(1, 2) != (1, 2)
  {
  }

  /** The id `1 << 22` is the smallest one that the formula places on shard 1 of 2. */
  lemma DocExampleCorrected()
    ensures GetSharding(SHIFT_DIVISOR, 2) == (1, 2)
    ensures forall g: U64 :: g < SHIFT_DIVISOR ==> GetSharding(g, 2).0 == 0
  {
  }
}
