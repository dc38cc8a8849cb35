/** Wrapping to a signed 32-bit two's-complement value (`s32`). */
module Int32 {
  import opened Bits

  const TwoTo31: int := 0x8000_0000
  const TwoTo32: int := 0x1_0000_0000

  /** The low 32 bits of x, as `x & 0xffffffff` gives them for any Python int,
      negative ones included. */
  function Low32(x: int): (r: int)
    ensures 0 <= r < TwoTo32
  {
    x % TwoTo32
  }

  /** `s32`: the low 32 bits of x read as a two's-complement number. */
  function S32(x: int): (r: int)
    ensures -TwoTo31 <= r < TwoTo31
  {
    var v := Low32(x);
    if v < TwoTo31 then v else v - TwoTo32
  }

  /** The source writes the reinterpretation as `(v ^ 0x80000000) - 0x80000000`;
      that is the same value as S32's explicit case split. */
  lemma S32IsSignFlip(x: int)
    ensures S32(x) == Xor(Low32(x), TwoTo31 as nat) - TwoTo31
  {
    Pow2Values();
    XorFlipsBit(Low32(x), 31);
  }

  /** The wrapped value differs from x by a multiple of 2^32. */
  lemma S32Congruent(x: int)
    ensures (x - S32(x)) % TwoTo32 == 0
  {
    var k := x / TwoTo32;
    assert x == k * TwoTo32 + Low32(x);
    if Low32(x) >= TwoTo31 {
      assert x - S32(x) == (k + 1) * TwoTo32;
    } else {
      assert x - S32(x) == k * TwoTo32;
    }
  }

  /** S32 only looks at x modulo 2^32. */
  lemma S32SameLow32(x: int, y: int)
    requires (x - y) % TwoTo32 == 0
    ensures S32(x) == S32(y)
  {
    var k := (x - y) / TwoTo32;
    assert x == y + k * TwoTo32;
    assert Low32(x) == Low32(y);
  }

  /** Values already in the signed 32-bit range are left alone. */
  lemma S32Identity(x: int)
    requires -TwoTo31 <= x < TwoTo31
    ensures S32(x) == x
  {
  }

  /** The boundary values of the wrap. */
  lemma S32Boundaries()
    ensures S32(0x8000_0000) == -0x8000_0000
    ensures S32(0xFFFF_FFFF) == -1
    ensures S32(0x1_0000_0000) == 0
    ensures S32(0x7FFF_FFFF) == 0x7FFF_FFFF
    ensures S32(-1) == -1
  {
  }
}
