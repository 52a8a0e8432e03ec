/** Machine words: 64 bits, and what Ruby makes of them. */
module Words {
  const WORD: nat := 0x1_0000_0000_0000_0000

  /** UINT64_MAX, and SIZE_MAX. */
  const WORD_MAX: nat := 0xFFFF_FFFF_FFFF_FFFF

  const LONG_MAX: int := 0x7FFF_FFFF_FFFF_FFFF

  /** The longest array that Ruby makes: LONG_MAX over the size of a VALUE. */
  const ARY_MAX: nat := 0x0FFF_FFFF_FFFF_FFFF

  /** NUM2LONG raises for any other number. */
  predicate IsLong(n: int) { -LONG_MAX - 1 <= n <= LONG_MAX }

  /** rb_ary_new_capa raises for any other size. */
  predicate IsArraySize(n: int) { 0 <= n <= ARY_MAX }
}
