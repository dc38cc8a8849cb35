/** `datetime_to_seed`: the game's seeding formula, two multiply-add rounds on
    wrapped 32-bit values followed by a fold of the two 16-bit halves. */
module SeedHash {
  import opened Int32

  /** The signed 32-bit value the formula computes before its final mapping to
      an unsigned seed: `key + 1` wrapped, then two rounds of multiplying by
      1108104919 (adding 11786) and by 1566083941 (adding 15413), then the sum of
      the value shifted right and left by 16 bits. `s >> 16` on a Python int is
      floor division by 2^16, which is what `/` computes for a positive divisor;
      `s << 16` is multiplication by 2^16 before the wrap. */
  function SignedSeed(key: int): (r: int)
    ensures -TwoTo31 <= r < TwoTo31
  {
    var s0 := S32(key + 1);
    var s1 := S32(S32(s0 * 1108104919) + 11786);
    var s2 := S32(S32(s1 * 1566083941) + 15413);
    S32(S32(s2 / 0x1_0000) + S32(s2 * 0x1_0000))
  }

  /** `datetime_to_seed`: the signed value, plus 2^32 when it is negative. */
  function DatetimeToSeed(key: int): (r: int)
    ensures 0 <= r < TwoTo32
    ensures S32(r) == SignedSeed(key)
  {
    var s := SignedSeed(key);
    if s >= 0 then s else TwoTo32 + s
  }

  /** The seed depends on the key only modulo 2^32, because the first step wraps
      `key + 1`. */
  lemma SeedDependsOnLow32(key: int, other: int)
    requires (key - other) % TwoTo32 == 0
    ensures DatetimeToSeed(key) == DatetimeToSeed(other)
  {
    assert ((key + 1) - (other + 1)) % TwoTo32 == 0;
    S32SameLow32(key + 1, other + 1);
  }

  /** Evaluating the formula on one key, given the value of each wrap in turn;
      every requirement is a single wrap of known numbers. */
  lemma SeedFromRounds(key: int, s0: int, a: int, s1: int, b: int, s2: int, hi: int, lo: int, s: int)
    requires S32(key + 1) == s0
    requires S32(s0 * 1108104919) == a
    requires S32(a + 11786) == s1
    requires S32(s1 * 1566083941) == b
    requires S32(b + 15413) == s2
    requires S32(s2 / 0x1_0000) == hi
    requires S32(s2 * 0x1_0000) == lo
    requires S32(hi + lo) == s
    ensures DatetimeToSeed(key) == if s >= 0 then s else TwoTo32 + s
  {
  }
}
