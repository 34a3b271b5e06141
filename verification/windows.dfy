/**
 * Value-level specification of the two sixteen-entry fast-path tables
 * (`rmem_` and `wmem_`).  Entry `i` serves the addresses whose top nibble
 * (`addr >> 12`) is `i`; it is either a base such that `base + addr` is the
 * arena offset of the byte, or None, which sends the access to the slow path.
 *
 * The tables are always derived the same way: an uncontended table built from
 * the stored bank bases, then the entries that the active OAM DMA source
 * contends are blanked.  The class in module Banking keeps its arrays equal to
 * ReadTable and WriteTable below.
 */
module Windows {
  import opened Words
  import opened Arena

  type Window = Option<int>

  const TableSize: nat := 16

  /** The OAM DMA source kinds (`oam_dma_src_*`). */
  datatype OamDmaSrc = Rom | Sram | Vram | Wram | Invalid | Off

  /**
   * The `flags` argument of `setRambank`: the RTC_EN, READ_EN and WRITE_EN
   * bits, each as a boolean.
   */
  datatype RamFlags = RamFlags(rtcEn: bool, readEn: bool, writeEn: bool)

  /**
   * The stored bases every rebuild starts from: `romdata_[0]`, `romdata_[1]`
   * (already biased by -0x4000), `rsrambankptr_`, `wsrambankptr_` (both
   * already biased by -0xA000, None for null), `wramdata_[0]`, `wramdata_[1]`
   * (not biased).
   */
  datatype Banks = Banks(rom0: int, rom1: int, rsram: Window, wsram: Window, wram0: int, wram1: int)

  /** The bank selections that produced a Banks value (bookkeeping for proofs). */
  datatype BankSel = BankSel(rom0: nat, rom1: nat, flags: RamFlags, ram: nat, wram: nat)

  // ---------------------------------------------------------------------------
  // Bases computed by the bank switches

  /** `romdata() + bank * 0x4000`, the base `setRombank0` stores. */
  function Rom0Base(bank: nat): int {
    RomData + bank * 0x4000
  }

  /** `romdata() + bank * 0x4000 - 0x4000`, the base `setRombank` stores. */
  function Rom1Base(bank: nat): int {
    RomData + bank * 0x4000 - RomBankSize
  }

  /** The WRAM bank `setWrambank(bank)` selects: `bank & 7`, with 0 read as 1. */
  function WramBankIndex(bank: nat): (i: nat)
    ensures 1 <= i < 8
  {
    if bank % 8 != 0 then bank % 8 else 1
  }

  /** `wramdata_[1]` after `setWrambank(bank)`. */
  function Wram1Base(g: Geometry, bank: nat): int {
    WramData(g) + WramBankIndex(bank) * 0x1000
  }

  /**
   * The common `srambankptr` of `setRambank`, from the region pointers
   * `rambankdata_`, `rambankdataend()` (which is `wramdata_[0]`) and
   * `wramdataend_`: null with RTC_EN, else the selected bank, or the write
   * sink `wdisabledRam()` when the cartridge has no RAM.
   */
  function SramPtr(rambankdata: int, wramdata0: int, wramdataend: int, flags: RamFlags, bank: nat): Window {
    if flags.rtcEn then None
    else if rambankdata != wramdata0 then Some(rambankdata + bank * 0x2000 - 0xA000)
    else Some(wramdataend + 0x2000 - 0xA000)
  }

  /** `rsrambankptr_` after `setRambank(flags, bank)`: `rdisabledRamw()` unless reading is on and RAM exists. */
  function RSramPtr(rambankdata: int, wramdata0: int, wramdataend: int, flags: RamFlags, bank: nat): Window {
    var p := SramPtr(rambankdata, wramdata0, wramdataend, flags, bank);
    if flags.readEn && p != Some(wramdataend + 0x2000 - 0xA000) then p
    else Some(wramdataend - 0xA000)
  }

  /** `wsrambankptr_` after `setRambank(flags, bank)`: `wdisabledRam()` unless writing is on. */
  function WSramPtr(rambankdata: int, wramdata0: int, wramdataend: int, flags: RamFlags, bank: nat): Window {
    if flags.writeEn then SramPtr(rambankdata, wramdata0, wramdataend, flags, bank)
    else Some(wramdataend + 0x2000 - 0xA000)
  }

  /** RSramPtr for the region pointers of a geometry. */
  function RSramBase(g: Geometry, flags: RamFlags, bank: nat): Window {
    RSramPtr(RamBankData(g), WramData(g), WramDataEnd(g), flags, bank)
  }

  /** WSramPtr for the region pointers of a geometry. */
  function WSramBase(g: Geometry, flags: RamFlags, bank: nat): Window {
    WSramPtr(RamBankData(g), WramData(g), WramDataEnd(g), flags, bank)
  }

  /** The stored bases for a given geometry and set of bank selections. */
  function BanksOf(g: Geometry, s: BankSel): Banks {
    Banks(Rom0Base(s.rom0), Rom1Base(s.rom1),
          RSramBase(g, s.flags, s.ram), WSramBase(g, s.flags, s.ram),
          WramData(g), Wram1Base(g, s.wram))
  }

  // ---------------------------------------------------------------------------
  // The tables

  /** Entry `i` of the read table as `setOamDmaSrc` rebuilds it, before contention. */
  function BaseRead(b: Banks, i: nat): Window {
    if i < 4 then Some(b.rom0)
    else if i < 8 then Some(b.rom1)
    else if i == 0xA || i == 0xB then b.rsram
    else if i == 0xC then Some(b.wram0 - 0xC000)
    else if i == 0xD then Some(b.wram1 - 0xD000)
    else if i == 0xE then Some(b.wram0 - 0xE000)
    else None
  }

  /** Entry `i` of the write table as `setOamDmaSrc` rebuilds it, before contention. */
  function BaseWrite(b: Banks, i: nat): Window {
    if i == 0xA || i == 0xB then b.wsram
    else if i == 0xC then Some(b.wram0 - 0xC000)
    else if i == 0xD then Some(b.wram1 - 0xD000)
    else if i == 0xE then Some(b.wram0 - 0xE000)
    else None
  }

  /** Whether `disconnectOamDmaAreas` blanks read entry `i`. */
  predicate ReadBlocked(cgb: bool, src: OamDmaSrc, i: int) {
    if cgb then
      || ((src == Rom || src == Sram || src == Invalid) && (i < 8 || i == 0xA || i == 0xB))
      || (src == Wram && 0xC <= i <= 0xE)
    else
      src != Vram && src != Off && (i < 8 || 0xA <= i <= 0xE)
  }

  /** Whether `disconnectOamDmaAreas` blanks write entry `i`. */
  predicate WriteBlocked(cgb: bool, src: OamDmaSrc, i: int) {
    if cgb then
      || ((src == Rom || src == Sram || src == Invalid) && (i == 0xA || i == 0xB))
      || (src == Wram && 0xC <= i <= 0xE)
    else
      src != Vram && src != Off && 0xA <= i <= 0xE
  }

  /**
   * The read table `t` with the entries contended by `src` set to None, run
   * by run as `disconnectOamDmaAreas` nulls them.
   */
  function ContendRead(t: seq<Window>, cgb: bool, src: OamDmaSrc): (r: seq<Window>)
    requires |t| == TableSize
    ensures |r| == TableSize
  {
    if cgb then
      if src == Rom || src == Sram || src == Invalid then Assign(Assign(t, 0, 8, None), 0xA, 0xC, None)
      else if src == Wram then Assign(t, 0xC, 0xF, None)
      else t
    else if src != Vram && src != Off then Assign(Assign(t, 0, 8, None), 0xA, 0xF, None)
    else t
  }

  /** The write table `t` with the entries contended by `src` set to None. */
  function ContendWrite(t: seq<Window>, cgb: bool, src: OamDmaSrc): (r: seq<Window>)
    requires |t| == TableSize
    ensures |r| == TableSize
  {
    if cgb then
      if src == Rom || src == Sram || src == Invalid then Assign(t, 0xA, 0xC, None)
      else if src == Wram then Assign(t, 0xC, 0xF, None)
      else t
    else if src != Vram && src != Off then Assign(t, 0xA, 0xF, None)
    else t
  }

  /** Entry by entry, contention nulls exactly the entries ReadBlocked names. */
  lemma ContendReadAt(t: seq<Window>, cgb: bool, src: OamDmaSrc)
    requires |t| == TableSize
    ensures forall i :: 0 <= i < |t| ==> ContendRead(t, cgb, src)[i] == if ReadBlocked(cgb, src, i) then None else t[i]
  {
    AssignAt(t, 0, 8, None);
    AssignAt(Assign(t, 0, 8, None), 0xA, 0xC, None);
    AssignAt(Assign(t, 0, 8, None), 0xA, 0xF, None);
    AssignAt(t, 0xC, 0xF, None);
  }

  /** Entry by entry, contention nulls exactly the entries WriteBlocked names. */
  lemma ContendWriteAt(t: seq<Window>, cgb: bool, src: OamDmaSrc)
    requires |t| == TableSize
    ensures forall i :: 0 <= i < |t| ==> ContendWrite(t, cgb, src)[i] == if WriteBlocked(cgb, src, i) then None else t[i]
  {
    AssignAt(t, 0xA, 0xC, None);
    AssignAt(t, 0xA, 0xF, None);
    AssignAt(t, 0xC, 0xF, None);
  }

  /** Entry `i` of `rmem_` as every operation leaves it: rebuilt from `b`, then contended. */
  function ReadEntry(b: Banks, cgb: bool, src: OamDmaSrc, i: nat): Window {
    if ReadBlocked(cgb, src, i) then None else BaseRead(b, i)
  }

  /** Entry `i` of `wmem_` as every operation leaves it. */
  function WriteEntry(b: Banks, cgb: bool, src: OamDmaSrc, i: nat): Window {
    if WriteBlocked(cgb, src, i) then None else BaseWrite(b, i)
  }

  function BaseReadTable(b: Banks): (t: seq<Window>)
    ensures |t| == TableSize
  {
    seq(TableSize, i requires 0 <= i < TableSize => BaseRead(b, i))
  }

  function BaseWriteTable(b: Banks): (t: seq<Window>)
    ensures |t| == TableSize
  {
    seq(TableSize, i requires 0 <= i < TableSize => BaseWrite(b, i))
  }

  /** The whole of `rmem_`. */
  function ReadTable(b: Banks, cgb: bool, src: OamDmaSrc): (t: seq<Window>)
    ensures |t| == TableSize
  {
    seq(TableSize, i requires 0 <= i < TableSize => ReadEntry(b, cgb, src, i))
  }

  /** The whole of `wmem_`. */
  function WriteTable(b: Banks, cgb: bool, src: OamDmaSrc): (t: seq<Window>)
    ensures |t| == TableSize
  {
    seq(TableSize, i requires 0 <= i < TableSize => WriteEntry(b, cgb, src, i))
  }

  /** The table `t` with entries `lo` to `hi - 1` set to `v` (a `std::fill` or a chained assignment). */
  function Assign(t: seq<Window>, lo: nat, hi: nat, v: Window): (r: seq<Window>)
    requires lo <= hi <= |t|
    ensures |r| == |t|
    decreases hi - lo
  {
    if lo == hi then t else Assign(t[lo := v], lo + 1, hi, v)
  }

  lemma {:induction false} AssignAt(t: seq<Window>, lo: nat, hi: nat, v: Window)
    requires lo <= hi <= |t|
    ensures forall i :: 0 <= i < |t| ==> Assign(t, lo, hi, v)[i] == if lo <= i < hi then v else t[i]
    decreases hi - lo
  {
    if lo < hi {
      AssignAt(t[lo := v], lo + 1, hi, v);
    }
  }

  /**
   * The entries no operation ever assigns are null: read entries 0x8, 0x9
   * and 0xF, write entries 0x0-0x9 and 0xF.
   */
  predicate Unassigned(r: seq<Window>, w: seq<Window>) {
    && |r| == TableSize && |w| == TableSize
    && r[8] == None && r[9] == None && r[0xF] == None
    && (forall i :: 0 <= i < 0xA ==> w[i] == None)
    && w[0xF] == None
  }

  /** The tables are the uncontended rebuild with the contended entries blanked. */
  lemma TablesAreContendedBase(b: Banks, cgb: bool, src: OamDmaSrc)
    ensures ReadTable(b, cgb, src) == ContendRead(BaseReadTable(b), cgb, src)
    ensures WriteTable(b, cgb, src) == ContendWrite(BaseWriteTable(b), cgb, src)
  {
    ContendReadAt(BaseReadTable(b), cgb, src);
    ContendWriteAt(BaseWriteTable(b), cgb, src);
  }

  /** The arena offset a fast-path access to `addr` uses, or None for the slow path. */
  function Resolve(t: seq<Window>, addr: nat): Window
    requires |t| == TableSize && addr < 0x10000
  {
    match t[addr / 0x1000]
    case None => None
    case Some(base) => Some(base + addr)
  }

  /** Every live entry of `t` maps its whole 4 KiB address range inside an arena of `size` bytes. */
  ghost predicate InArena(t: seq<Window>, size: nat)
    requires |t| == TableSize
  {
    forall i :: 0 <= i < TableSize && t[i].Some? ==>
      0 <= t[i].value + i * 0x1000 && t[i].value + i * 0x1000 + 0x1000 <= size
  }

  /** Bank selections the cartridge actually has (ROM, RAM and WRAM bank counts). */
  ghost predicate InRange(g: Geometry, s: BankSel) {
    && s.rom0 < g.romBanks
    && s.rom1 < g.romBanks
    && (g.ramBanks > 0 ==> s.ram < g.ramBanks)
    && WramBankIndex(s.wram) < g.wramBanks
  }

  // ---------------------------------------------------------------------------
  // Properties of the tables

  /** Contending twice is contending once: a repeated `disconnectOamDmaAreas` changes nothing. */
  lemma ContendIdempotent(t: seq<Window>, cgb: bool, src: OamDmaSrc)
    requires |t| == TableSize
    ensures ContendRead(ContendRead(t, cgb, src), cgb, src) == ContendRead(t, cgb, src)
    ensures ContendWrite(ContendWrite(t, cgb, src), cgb, src) == ContendWrite(t, cgb, src)
  {
    ContendReadAt(t, cgb, src);
    ContendReadAt(ContendRead(t, cgb, src), cgb, src);
    ContendWriteAt(t, cgb, src);
    ContendWriteAt(ContendWrite(t, cgb, src), cgb, src);
  }

  /**
   * Two tables that agree on every read entry `src` does not contend are
   * equal once contended.  This is why every bank switch, which patches a few
   * entries and then calls `disconnectOamDmaAreas`, leaves the table a full
   * rebuild would.
   */
  lemma ContendReadAgrees(t: seq<Window>, u: seq<Window>, cgb: bool, src: OamDmaSrc)
    requires |t| == TableSize && |u| == TableSize
    requires forall i :: 0 <= i < |t| && !ReadBlocked(cgb, src, i) ==> t[i] == u[i]
    ensures ContendRead(t, cgb, src) == ContendRead(u, cgb, src)
  {
    ContendReadAt(t, cgb, src);
    ContendReadAt(u, cgb, src);
  }

  /** The same for write entries. */
  lemma ContendWriteAgrees(t: seq<Window>, u: seq<Window>, cgb: bool, src: OamDmaSrc)
    requires |t| == TableSize && |u| == TableSize
    requires forall i :: 0 <= i < |t| && !WriteBlocked(cgb, src, i) ==> t[i] == u[i]
    ensures ContendWrite(t, cgb, src) == ContendWrite(u, cgb, src)
  {
    ContendWriteAt(t, cgb, src);
    ContendWriteAt(u, cgb, src);
  }

  /** With DMA off (or from VRAM) the tables are the uncontended rebuild. */
  lemma UncontendedWhenNoDma(b: Banks, cgb: bool, src: OamDmaSrc)
    requires src == Off || src == Vram
    ensures ReadTable(b, cgb, src) == BaseReadTable(b)
    ensures WriteTable(b, cgb, src) == BaseWriteTable(b)
  {
  }

  /** Entries 0x8, 0x9 and 0xF are never fast, nor are write entries 0x0-0x9. */
  lemma NeverFastMapped(b: Banks, cgb: bool, src: OamDmaSrc, i: nat)
    requires i < TableSize
    ensures (i == 8 || i == 9 || i == 0xF) ==> ReadTable(b, cgb, src)[i] == None
    ensures (i < 0xA || i == 0xF) ==> WriteTable(b, cgb, src)[i] == None
  {
  }

  /** Entries 0xA and 0xB always agree, in both tables. */
  lemma SramEntriesEqual(b: Banks, cgb: bool, src: OamDmaSrc)
    ensures ReadTable(b, cgb, src)[0xA] == ReadTable(b, cgb, src)[0xB]
    ensures WriteTable(b, cgb, src)[0xA] == WriteTable(b, cgb, src)[0xB]
  {
  }

  /** CGB, DMA from WRAM: exactly 0xC-0xE are blanked, in both tables. */
  lemma CgbWramDmaContention(b: Banks, i: nat)
    requires i < TableSize
    ensures ReadTable(b, true, Wram)[i] == (if 0xC <= i <= 0xE then None else BaseRead(b, i))
    ensures WriteTable(b, true, Wram)[i] == (if 0xC <= i <= 0xE then None else BaseWrite(b, i))
  {
  }

  /** CGB, DMA from ROM, SRAM or an invalid source: reads of 0x0-0x7 and 0xA-0xB, writes of 0xA-0xB. */
  lemma CgbRomDmaContention(b: Banks, src: OamDmaSrc, i: nat)
    requires src == Rom || src == Sram || src == Invalid
    requires i < TableSize
    ensures ReadTable(b, true, src)[i] == (if i < 8 || i == 0xA || i == 0xB then None else BaseRead(b, i))
    ensures WriteTable(b, true, src)[i] == (if i == 0xA || i == 0xB then None else BaseWrite(b, i))
  {
  }

  /** Non-CGB, DMA from anything but VRAM: reads of 0x0-0x7 and 0xA-0xE, writes of 0xA-0xE. */
  lemma DmgDmaContention(b: Banks, src: OamDmaSrc, i: nat)
    requires src != Vram && src != Off
    requires i < TableSize
    ensures ReadTable(b, false, src)[i] == (if i < 8 || 0xA <= i <= 0xE then None else BaseRead(b, i))
    ensures WriteTable(b, false, src)[i] == (if 0xA <= i <= 0xE then None else BaseWrite(b, i))
  {
  }

  // ---------------------------------------------------------------------------
  // Bank switches as patches: each switch stores the new base into its
  // entries and re-applies contention; the result is always the table a full
  // rebuild from the new bases gives.

  /** `setRombank0`: patch read entries 0x0-0x3; the write table is only re-contended. */
  lemma Rom0SwitchRebuilds(b: Banks, x: int, cgb: bool, src: OamDmaSrc)
    ensures ReadTable(b.(rom0 := x), cgb, src) == ContendRead(Assign(ReadTable(b, cgb, src), 0, 4, Some(x)), cgb, src)
    ensures WriteTable(b.(rom0 := x), cgb, src) == ContendWrite(WriteTable(b, cgb, src), cgb, src)
  {
    AssignAt(ReadTable(b, cgb, src), 0, 4, Some(x));
    ContendReadAt(Assign(ReadTable(b, cgb, src), 0, 4, Some(x)), cgb, src);
    ContendWriteAt(WriteTable(b, cgb, src), cgb, src);
  }

  /** `setRombank`: patch read entries 0x4-0x7. */
  lemma Rom1SwitchRebuilds(b: Banks, x: int, cgb: bool, src: OamDmaSrc)
    ensures ReadTable(b.(rom1 := x), cgb, src) == ContendRead(Assign(ReadTable(b, cgb, src), 4, 8, Some(x)), cgb, src)
    ensures WriteTable(b.(rom1 := x), cgb, src) == ContendWrite(WriteTable(b, cgb, src), cgb, src)
  {
    AssignAt(ReadTable(b, cgb, src), 4, 8, Some(x));
    ContendReadAt(Assign(ReadTable(b, cgb, src), 4, 8, Some(x)), cgb, src);
    ContendWriteAt(WriteTable(b, cgb, src), cgb, src);
  }

  /** `setRambank`, read table: patch entries 0xA-0xB. */
  lemma SramSwitchRebuildsRead(b: Banks, r: Window, w: Window, cgb: bool, src: OamDmaSrc)
    ensures ReadTable(b.(rsram := r, wsram := w), cgb, src) == ContendRead(Assign(ReadTable(b, cgb, src), 0xA, 0xC, r), cgb, src)
  {
    var t := Assign(ReadTable(b, cgb, src), 0xA, 0xC, r);
    AssignAt(ReadTable(b, cgb, src), 0xA, 0xC, r);
    ContendReadAt(t, cgb, src);
    forall i | 0 <= i < TableSize
      ensures ReadTable(b.(rsram := r, wsram := w), cgb, src)[i] == ContendRead(t, cgb, src)[i]
    {
      if i == 0xA || i == 0xB {
      } else {
        assert BaseRead(b.(rsram := r, wsram := w), i) == BaseRead(b, i);
      }
    }
  }

  /** `setRambank`, write table: patch entries 0xA-0xB. */
  lemma SramSwitchRebuildsWrite(b: Banks, r: Window, w: Window, cgb: bool, src: OamDmaSrc)
    ensures WriteTable(b.(rsram := r, wsram := w), cgb, src) == ContendWrite(Assign(WriteTable(b, cgb, src), 0xA, 0xC, w), cgb, src)
  {
    var t := Assign(WriteTable(b, cgb, src), 0xA, 0xC, w);
    AssignAt(WriteTable(b, cgb, src), 0xA, 0xC, w);
    ContendWriteAt(t, cgb, src);
    forall i | 0 <= i < TableSize
      ensures WriteTable(b.(rsram := r, wsram := w), cgb, src)[i] == ContendWrite(t, cgb, src)[i]
    {
      if i == 0xA || i == 0xB {
      } else {
        assert BaseWrite(b.(rsram := r, wsram := w), i) == BaseWrite(b, i);
      }
    }
  }

  /** `setWrambank`, read table: patch entry 0xD. */
  lemma WramSwitchRebuildsRead(b: Banks, x: int, cgb: bool, src: OamDmaSrc)
    ensures ReadTable(b.(wram1 := x), cgb, src) == ContendRead(ReadTable(b, cgb, src)[0xD := Some(x - 0xD000)], cgb, src)
  {
    var t := ReadTable(b, cgb, src)[0xD := Some(x - 0xD000)];
    ContendReadAt(t, cgb, src);
    forall i | 0 <= i < TableSize
      ensures ReadTable(b.(wram1 := x), cgb, src)[i] == ContendRead(t, cgb, src)[i]
    {
      if i != 0xD {
        assert BaseRead(b.(wram1 := x), i) == BaseRead(b, i);
      }
    }
  }

  /** `setWrambank`, write table: patch entry 0xD. */
  lemma WramSwitchRebuildsWrite(b: Banks, x: int, cgb: bool, src: OamDmaSrc)
    ensures WriteTable(b.(wram1 := x), cgb, src) == ContendWrite(WriteTable(b, cgb, src)[0xD := Some(x - 0xD000)], cgb, src)
  {
    var t := WriteTable(b, cgb, src)[0xD := Some(x - 0xD000)];
    ContendWriteAt(t, cgb, src);
    forall i | 0 <= i < TableSize
      ensures WriteTable(b.(wram1 := x), cgb, src)[i] == ContendWrite(t, cgb, src)[i]
    {
      if i != 0xD {
        assert BaseWrite(b.(wram1 := x), i) == BaseWrite(b, i);
      }
    }
  }

  /**
   * The stores of `setOamDmaSrc`, applied to any tables whose unassigned
   * entries are null, give the uncontended rebuild: the old contents of the
   * managed entries do not matter.
   */
  lemma RebuildIsBase(r: seq<Window>, w: seq<Window>, b: Banks)
    requires Unassigned(r, w)
    ensures Assign(Assign(Assign(r, 0, 4, Some(b.rom0)), 4, 8, Some(b.rom1)), 0xA, 0xC, b.rsram)
              [0xC := Some(b.wram0 - 0xC000)][0xD := Some(b.wram1 - 0xD000)][0xE := Some(b.wram0 - 0xE000)]
            == BaseReadTable(b)
    ensures Assign(w, 0xA, 0xC, b.wsram)
              [0xC := Some(b.wram0 - 0xC000)][0xD := Some(b.wram1 - 0xD000)][0xE := Some(b.wram0 - 0xE000)]
            == BaseWriteTable(b)
  {
    AssignAt(r, 0, 4, Some(b.rom0));
    AssignAt(Assign(r, 0, 4, Some(b.rom0)), 4, 8, Some(b.rom1));
    AssignAt(Assign(Assign(r, 0, 4, Some(b.rom0)), 4, 8, Some(b.rom1)), 0xA, 0xC, b.rsram);
    AssignAt(w, 0xA, 0xC, b.wsram);
  }

  /** The nibble of an address in a 4 KiB-aligned range. */
  lemma NibbleOf(addr: nat, i: nat)
    requires i * 0x1000 <= addr < i * 0x1000 + 0x1000
    ensures addr / 0x1000 == i
  {
  }

  /** Addresses 0x0000-0x3FFF read ROM bank `rom0` through the fixed ROM window. */
  lemma {:induction false} FixedRomResolves(g: Geometry, s: BankSel, cgb: bool, src: OamDmaSrc, k: nat)
    requires k < 0x4000
    requires !ReadBlocked(cgb, src, 0)
    ensures Resolve(ReadTable(BanksOf(g, s), cgb, src), k) == Some(RomData + s.rom0 * 0x4000 + k)
  {
    var t := ReadTable(BanksOf(g, s), cgb, src);
    var i := k / 0x1000;
    assert i < 4;
    assert !ReadBlocked(cgb, src, i);
    assert t[i] == BaseRead(BanksOf(g, s), i);
  }

  /**
   * Addresses 0x4000-0x7FFF read ROM bank `rom1` through the switchable
   * window, bank 0 included: 0x4000 + k is byte k of the selected bank.
   */
  lemma {:induction false} SwitchableRomResolves(g: Geometry, s: BankSel, cgb: bool, src: OamDmaSrc, k: nat)
    requires k < 0x4000
    requires !ReadBlocked(cgb, src, 4)
    ensures Resolve(ReadTable(BanksOf(g, s), cgb, src), 0x4000 + k) == Some(RomData + s.rom1 * 0x4000 + k)
  {
    var t := ReadTable(BanksOf(g, s), cgb, src);
    var i := (0x4000 + k) / 0x1000;
    assert 4 <= i < 8;
    assert !ReadBlocked(cgb, src, i);
    assert t[i] == BaseRead(BanksOf(g, s), i);
  }

  /** Work RAM: 0xC000 + k and its echo 0xE000 + k resolve to the same byte of bank 0, for reads and writes. */
  lemma {:induction false} EchoResolvesToWram0(g: Geometry, s: BankSel, cgb: bool, src: OamDmaSrc, k: nat)
    requires k < 0x1000
    requires !ReadBlocked(cgb, src, 0xC) && !WriteBlocked(cgb, src, 0xC)
    ensures Resolve(ReadTable(BanksOf(g, s), cgb, src), 0xC000 + k) == Some(WramData(g) + k)
    ensures Resolve(ReadTable(BanksOf(g, s), cgb, src), 0xE000 + k) == Some(WramData(g) + k)
    ensures Resolve(WriteTable(BanksOf(g, s), cgb, src), 0xC000 + k) == Some(WramData(g) + k)
    ensures Resolve(WriteTable(BanksOf(g, s), cgb, src), 0xE000 + k) == Some(WramData(g) + k)
  {
    NibbleOf(0xC000 + k, 0xC);
    NibbleOf(0xE000 + k, 0xE);
  }

  /** Addresses 0xD000-0xDFFF reach WRAM bank `max(bank & 7, 1)`. */
  lemma {:induction false} SwitchableWramResolves(g: Geometry, s: BankSel, cgb: bool, src: OamDmaSrc, k: nat)
    requires k < 0x1000
    requires !ReadBlocked(cgb, src, 0xD) && !WriteBlocked(cgb, src, 0xD)
    ensures Resolve(ReadTable(BanksOf(g, s), cgb, src), 0xD000 + k)
         == Some(WramData(g) + WramBankIndex(s.wram) * 0x1000 + k)
    ensures Resolve(WriteTable(BanksOf(g, s), cgb, src), 0xD000 + k)
         == Some(WramData(g) + WramBankIndex(s.wram) * 0x1000 + k)
  {
    NibbleOf(0xD000 + k, 0xD);
  }

  /** `setWrambank(0)`, `setWrambank(1)` and `setWrambank(8)` select the same bank; the choice is periodic in 8. */
  lemma WramBankZeroAliasesOne(bank: nat)
    ensures WramBankIndex(0) == WramBankIndex(1) == WramBankIndex(8) == 1
    ensures WramBankIndex(bank + 8) == WramBankIndex(bank)
    ensures bank % 8 != 0 ==> WramBankIndex(bank) == bank % 8
  {
  }

  /**
   * With READ_EN clear, or on a cartridge without RAM, reads of
   * 0xA000-0xBFFF go to the all-0xFF area; with WRITE_EN clear, writes go to
   * the write sink.  With RTC_EN and READ_EN (resp. WRITE_EN) set, the window
   * is null and the access takes the slow path.
   */
  lemma {:induction false} SramWindows(g: Geometry, s: BankSel, cgb: bool, src: OamDmaSrc, k: nat)
    requires k < 0x2000
    requires !ReadBlocked(cgb, src, 0xA) && !WriteBlocked(cgb, src, 0xA)
    ensures !s.flags.readEn || (g.ramBanks == 0 && !s.flags.rtcEn) ==>
      Resolve(ReadTable(BanksOf(g, s), cgb, src), 0xA000 + k) == Some(RDisabledRam(g) + k)
    ensures !s.flags.writeEn ==>
      Resolve(WriteTable(BanksOf(g, s), cgb, src), 0xA000 + k) == Some(WDisabledRam(g) + k)
    ensures s.flags.rtcEn && s.flags.readEn ==> Resolve(ReadTable(BanksOf(g, s), cgb, src), 0xA000 + k) == None
    ensures s.flags.rtcEn && s.flags.writeEn ==> Resolve(WriteTable(BanksOf(g, s), cgb, src), 0xA000 + k) == None
    ensures !s.flags.rtcEn && s.flags.readEn && g.ramBanks > 0 && s.ram < g.ramBanks ==>
      Resolve(ReadTable(BanksOf(g, s), cgb, src), 0xA000 + k) == Some(RamBankData(g) + s.ram * 0x2000 + k)
    ensures !s.flags.rtcEn && s.flags.writeEn && g.ramBanks > 0 ==>
      Resolve(WriteTable(BanksOf(g, s), cgb, src), 0xA000 + k) == Some(RamBankData(g) + s.ram * 0x2000 + k)
  {
    var i := (0xA000 + k) / 0x1000;
    assert i == 0xA || i == 0xB;
    assert !ReadBlocked(cgb, src, i) && !WriteBlocked(cgb, src, i);
  }

  /** No live entry of `t` maps any address of its range into [lo, hi). */
  ghost predicate Avoids(t: seq<Window>, lo: int, hi: int)
    requires |t| == TableSize
  {
    forall i :: 0 <= i < TableSize && t[i].Some? ==>
      t[i].value + i * 0x1000 + 0x1000 <= lo || hi <= t[i].value + i * 0x1000
  }

  /**
   * With bank selections the cartridge has, no write window reaches the
   * all-0xFF area that reads of disabled cartridge RAM see: writes to
   * disabled RAM land in the separate write sink, so that area keeps its
   * 0xFF bytes.
   */
  lemma {:induction false} WritesSpareReadSentinel(g: Geometry, s: BankSel, cgb: bool, src: OamDmaSrc)
    requires InRange(g, s)
    ensures Avoids(WriteTable(BanksOf(g, s), cgb, src), RDisabledRam(g), RDisabledRam(g) + DisabledRamSize)
  {
    assert g.ramBanks > 0 ==> s.ram * 0x2000 + RamBankSize <= g.ramBanks * 0x2000 by {
      if g.ramBanks > 0 { RamBankInRamRegion(g, s.ram); }
    }
    assert WramBankIndex(s.wram) * 0x1000 + WramBankSize <= g.wramBanks * 0x1000;
  }

  /**
   * With bank selections the cartridge has, every fast-path window stays
   * inside the arena: no access through a table ever leaves the allocation.
   */
  lemma {:induction false} TablesInArena(g: Geometry, s: BankSel, cgb: bool, src: OamDmaSrc)
    requires InRange(g, s)
    ensures InArena(ReadTable(BanksOf(g, s), cgb, src), ArenaSize(g))
    ensures InArena(WriteTable(BanksOf(g, s), cgb, src), ArenaSize(g))
  {
    var b := BanksOf(g, s);
    RomBankInRomRegion(g, s.rom0);
    RomBankInRomRegion(g, s.rom1);
    assert g.ramBanks > 0 ==> s.ram * 0x2000 + RamBankSize <= g.ramBanks * 0x2000 by {
      if g.ramBanks > 0 { RamBankInRamRegion(g, s.ram); }
    }
    assert WramBankIndex(s.wram) * 0x1000 + WramBankSize <= g.wramBanks * 0x1000;
  }
}
