/** Machine words shared by the NES components. */
module Word {
  /** A 16-bit CPU or PPU address (Go `uint16`), as a number. Masks the source
      applies to addresses with `& (2^k - 1)` are written as `% 2^k`, and
      shifts as divisions, which agree on these non-negative values. */
  type Addr = a: int | 0 <= a < 0x10000
}
