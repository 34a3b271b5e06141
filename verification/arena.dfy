/**
 * The backing store of the bank-window manager: one byte arena
 * (`memchunk_`) carved into fixed, ordered regions.  All positions here are
 * offsets from the first byte of the arena.
 *
 *   [0, 0x4000)                          leading pad
 *   [RomData, +romBanks*0x4000)          ROM banks
 *   [.., +0x4000)                        VRAM (two 8 KiB banks)
 *   [RamBankData, +ramBanks*0x2000)      cartridge RAM banks
 *   [WramData, +wramBanks*0x1000)        work RAM banks
 *   [RDisabledRam, +0x2000)              reads of disabled RAM (all 0xFF)
 *   [WDisabledRam, +0x2000)              sink for writes to disabled RAM
 */
module Arena {

  const RomBankSize: nat := 0x4000
  const RamBankSize: nat := 0x2000
  const WramBankSize: nat := 0x1000
  const DisabledRamSize: nat := 0x2000

  /** `romdata()`: the ROM banks start 16 KiB into the arena. */
  const RomData: nat := 0x4000

  /** The bank counts a cartridge load passes to `reset`. */
  datatype Geometry = Geometry(romBanks: nat, ramBanks: nat, wramBanks: nat)

  /** The size of the arena allocated by `reset`. */
  function ArenaSize(g: Geometry): (n: nat)
    ensures n == WDisabledRam(g) + DisabledRamSize
  {
    0x4000
    + g.romBanks * 0x4000 + 0x4000
    + g.ramBanks * 0x2000
    + g.wramBanks * 0x1000
    + 0x4000
  }

  /** `rambankdata_`: past the ROM banks and the 16 KiB VRAM area. */
  function RamBankData(g: Geometry): nat {
    RomData + g.romBanks * 0x4000 + 0x4000
  }

  /** `wramdata_[0]`, which is also `rambankdataend()`. */
  function WramData(g: Geometry): nat {
    RamBankData(g) + g.ramBanks * 0x2000
  }

  /** `wramdataend_`. */
  function WramDataEnd(g: Geometry): nat {
    WramData(g) + g.wramBanks * 0x1000
  }

  /** `rdisabledRamw()`: the 8 KiB that reads of disabled cartridge RAM see. */
  function RDisabledRam(g: Geometry): nat {
    WramDataEnd(g)
  }

  /** `wdisabledRam()`: the 8 KiB that writes to disabled cartridge RAM land in. */
  function WDisabledRam(g: Geometry): nat {
    RDisabledRam(g) + DisabledRamSize
  }

  /**
   * The regions are contiguous, ordered and exactly fill the arena.  The
   * first three relations and the last hold by the definitions above; the
   * substantive check is `ArenaSize`'s agreement with the size `reset`
   * allocates.
   */
  lemma LayoutContiguous(g: Geometry)
    ensures RomData + g.romBanks * 0x4000 + 0x4000 == RamBankData(g)
    ensures RamBankData(g) + g.ramBanks * 0x2000 == WramData(g)
    ensures WramData(g) + g.wramBanks * 0x1000 == WramDataEnd(g)
    ensures RomData <= RamBankData(g) <= WramData(g) <= WramDataEnd(g)
    ensures WramDataEnd(g) + 2 * DisabledRamSize == ArenaSize(g)
  {
  }

  /** ROM bank `b` of a cartridge with more than `b` banks lies in the ROM region. */
  lemma RomBankInRomRegion(g: Geometry, b: nat)
    requires b < g.romBanks
    ensures RomData <= RomData + b * 0x4000
    ensures RomData + b * 0x4000 + RomBankSize <= RamBankData(g) - 0x4000
  {
  }

  /** RAM bank `b` of a cartridge with more than `b` RAM banks lies in the RAM region. */
  lemma RamBankInRamRegion(g: Geometry, b: nat)
    requires b < g.ramBanks
    ensures RamBankData(g) + b * 0x2000 + RamBankSize <= WramData(g)
  {
  }
}
