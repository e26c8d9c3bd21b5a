/** Arithmetic on the source's unsigned integers. */
module Numbers {
  const U32_MAX: nat := 0xFFFF_FFFF
  const U64_MAX: nat := 0xFFFF_FFFF_FFFF_FFFF

  function Min(a: nat, b: nat): nat {
    if a < b then a else b
  }

  /** Subtraction that stops at zero. */
  function Monus(a: nat, b: nat): nat {
    if a < b then 0 else a - b
  }
}
