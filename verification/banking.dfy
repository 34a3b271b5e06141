/**
 * The bank-window manager (`MemPtrs`): it owns the arena and the two
 * sixteen-entry fast-path tables, and rewrites table entries in place on every
 * bank switch and OAM DMA source change.
 *
 * Positions are arena offsets (see module Arena); a null pointer is None.
 * Once `Reset` has run, the object keeps the invariant Ready(): every table
 * entry is Windows.ReadEntry / Windows.WriteEntry of the stored bank bases, the
 * current CGB mode and the current OAM DMA source.
 */
module Banking {
  import opened Words
  import opened Arena
  import opened Windows

  /**
   * Store `v` in entries `lo` to `hi - 1` of a table: `std::fill`, and the
   * chained assignments such as `rmem_[0x3] = rmem_[0x2] = ... = v`.
   */
  method Fill(a: array<Window>, lo: nat, hi: nat, v: Window)
    requires lo <= hi <= a.Length
    modifies a
    ensures a[..] == Assign(old(a[..]), lo, hi, v)
  {
    ghost var t := a[..];
    forall i | lo <= i < hi {
      a[i] := v;
    }
    AssignAt(t, lo, hi, v);
  }

  /** A single entry store `a[i] = v`. */
  method Store(a: array<Window>, i: nat, v: Window)
    requires i < a.Length
    modifies a
    ensures a[..] == old(a[..])[i := v]
  {
    a[i] := v;
  }

  /** `std::memset(a + lo, v, hi - lo)`. */
  method Memset(a: array<Byte>, lo: nat, hi: nat, v: Byte)
    requires lo <= hi <= a.Length
    modifies a
    ensures forall i :: 0 <= i < a.Length ==> a[i] == if lo <= i < hi then v else old(a[i])
  {
    forall i | lo <= i < hi {
      a[i] := v;
    }
  }

  class MemPtrs {
    /** `rmem_[16]` and `wmem_[16]`. */
    const rmem: array<Window>
    const wmem: array<Window>
    /** `memchunk_`, reallocated by `Reset`. */
    var arena: array<Byte>
    /** `romdata_[0]`, `romdata_[1]`, `wramdata_[0]`, `wramdata_[1]`. */
    var romdata0: int
    var romdata1: int
    var wramdata0: int
    var wramdata1: int
    /** `rambankdata_` and `wramdataend_`. */
    var rambankdata: int
    var wramdataend: int
    /** `rsrambankptr_` and `wsrambankptr_`. */
    var rsrambank: Window
    var wsrambank: Window
    var oamDmaSrc: OamDmaSrc
    /** `isCgb(*this)`: whether the machine runs in CGB mode. */
    var cgb: bool
    /** The bank counts of the last `Reset` and the bank selections since (proof bookkeeping). */
    ghost var geometry: Geometry
    ghost var sel: BankSel

    /** Table shape: two distinct sixteen-entry arrays. */
    ghost predicate Valid()
      reads this
    {
      rmem.Length == TableSize && wmem.Length == TableSize && rmem != wmem
    }

    /**
     * The entries no operation ever assigns are null: read entries 0x8, 0x9,
     * 0xF and write entries 0x0-0x9, 0xF, as the constructor leaves them.
     */
    ghost predicate Shaped()
      reads this, rmem, wmem
    {
      Unassigned(rmem[..], wmem[..])
    }

    /** The arena and the region pointers agree with the geometry of the last `Reset`. */
    ghost predicate Layout()
      reads this
    {
      && arena.Length == ArenaSize(geometry)
      && rambankdata == RamBankData(geometry)
      && wramdata0 == WramData(geometry)
      && wramdataend == WramDataEnd(geometry)
    }

    /** The stored bases the tables are rebuilt from. */
    function CurrentBanks(): Banks
      reads this
    {
      Banks(romdata0, romdata1, rsrambank, wsrambank, wramdata0, wramdata1)
    }

    /** The tables are the rebuild of the stored bases under the current mode and DMA source. */
    ghost predicate TablesMatch()
      reads this, rmem, wmem
    {
      && rmem[..] == ReadTable(CurrentBanks(), cgb, oamDmaSrc)
      && wmem[..] == WriteTable(CurrentBanks(), cgb, oamDmaSrc)
    }

    /** The whole-object invariant every operation keeps once `Reset` has run. */
    ghost predicate Ready()
      reads this, rmem, wmem
    {
      && Valid()
      && Layout()
      && CurrentBanks() == BanksOf(geometry, sel)
      && TablesMatch()
    }

    /** The 8 KiB that reads of disabled cartridge RAM see all hold 0xFF. */
    ghost predicate DisabledRamFF()
      reads this, arena
    {
      && RDisabledRam(geometry) + DisabledRamSize <= arena.Length
      && forall i :: RDisabledRam(geometry) <= i < RDisabledRam(geometry) + DisabledRamSize ==> arena[i] == 0xFF
    }

    /** `MemPtrs()`: all table entries null, no arena, DMA off. */
    constructor ()
      ensures Valid() && Shaped() && fresh(rmem) && fresh(wmem)
      ensures forall i :: 0 <= i < TableSize ==> rmem[i] == None && wmem[i] == None
      ensures arena.Length == 0 && oamDmaSrc == Off
      ensures rsrambank == None && wsrambank == None
    {
      rmem := new Window[TableSize](_ => None);
      wmem := new Window[TableSize](_ => None);
      arena := new Byte[0];
      romdata0, romdata1, wramdata0, wramdata1 := 0, 0, 0, 0;
      rambankdata, wramdataend := 0, 0;
      rsrambank, wsrambank := None, None;
      oamDmaSrc := Off;
      cgb := false;
      geometry := Geometry(0, 0, 0);
      sel := BankSel(0, 0, RamFlags(false, false, false), 0, 0);
    }

    /**
     * `reset(rombanks, rambanks, wrambanks)`: allocate the arena, fill the
     * disabled-RAM area with 0xFF and map ROM bank 0, ROM bank 1, disabled
     * cartridge RAM and WRAM banks 0 and 1 with DMA off.
     */
    method Reset(rombanks: nat, rambanks: nat, wrambanks: nat, isCgb: bool)
      requires Valid() && Shaped()
      modifies this, rmem, wmem
      ensures Ready() && fresh(arena)
      ensures geometry == Geometry(rombanks, rambanks, wrambanks) && cgb == isCgb && oamDmaSrc == Off
      ensures sel == BankSel(0, 1, RamFlags(false, false, false), 0, 1)
      ensures DisabledRamFF()
    {
      AllocateChunk(rombanks, rambanks, wrambanks);
      cgb := isCgb;
      MapInitialBanks();
    }

    /**
     * The first half of `reset`: allocate the arena for the given bank
     * counts, set the region pointers and fill the disabled-RAM area with 0xFF.
     */
    method AllocateChunk(rombanks: nat, rambanks: nat, wrambanks: nat)
      modifies this`arena, this`geometry, this`romdata0, this`rambankdata, this`wramdata0, this`wramdataend
      ensures fresh(arena) && geometry == Geometry(rombanks, rambanks, wrambanks)
      ensures Layout() && DisabledRamFF() && romdata0 == RomData
    {
      var g := Geometry(rombanks, rambanks, wrambanks);
      geometry := g;
      arena := new Byte[ArenaSize(g)];

      romdata0 := RomData;
      rambankdata := RamBankData(g);
      wramdata0 := WramData(g);
      wramdataend := WramDataEnd(g);

      Memset(arena, wramdataend, wramdataend + 0x2000, 0xFF);
    }

    /**
     * The second half of `reset`: with DMA off, map ROM bank 0 and WRAM bank
     * 0, then select ROM bank 1, disabled cartridge RAM and WRAM bank 1.
     */
    method MapInitialBanks()
      requires Valid() && Shaped() && Layout() && romdata0 == RomData
      modifies this`oamDmaSrc, this`sel, this`romdata1, this`rsrambank, this`wsrambank, this`wramdata1, rmem, wmem
      ensures Ready() && oamDmaSrc == Off
      ensures sel == BankSel(0, 1, RamFlags(false, false, false), 0, 1)
    {
      ghost var r, w := rmem[..], wmem[..];
      MapFixedBanks();
      FixedBanksMapped(r, w, rmem[..], wmem[..], romdata0, wramdata0);
      SelectInitialBanks();
    }

    /** The selections `reset` makes through the setters, once the fixed banks are mapped. */
    method SelectInitialBanks()
      requires Valid() && Layout() && romdata0 == RomData && oamDmaSrc == Off && sel.rom0 == 0
      requires FixedRead(rmem[..], romdata0, wramdata0) && FixedWrite(wmem[..], wramdata0)
      modifies this`sel, this`romdata1, this`rsrambank, this`wsrambank, this`wramdata1, rmem, wmem
      ensures Ready()
      ensures sel == BankSel(0, 1, RamFlags(false, false, false), 0, 1)
    {
      ghost var r0, w0 := rmem[..], wmem[..];
      PatchRom1(1);
      ghost var r1, w1 := rmem[..], wmem[..];
      PatchSram(RamFlags(false, false, false), 0);
      ghost var r2, w2 := rmem[..], wmem[..];
      PatchWram(1);
      ResetReadTable(r0, r1, r2, rmem[..], cgb, CurrentBanks());
      ResetWriteTable(w0, w1, w2, wmem[..], cgb, CurrentBanks());
    }

    /**
     * The stores `reset` makes itself: DMA off, ROM bank 0 in entries
     * 0x0-0x3, WRAM bank 0 in entry 0xC and its echo 0xE of both tables.
     */
    method MapFixedBanks()
      requires Valid()
      modifies this`oamDmaSrc, this`sel, rmem, wmem
      ensures Valid() && oamDmaSrc == Off && sel == old(sel).(rom0 := 0)
      ensures rmem[..] == Assign(old(rmem[..]), 0, 4, Some(romdata0))[0xC := Some(wramdata0 - 0xC000)][0xE := Some(wramdata0 - 0xE000)]
      ensures wmem[..] == old(wmem[..])[0xC := Some(wramdata0 - 0xC000)][0xE := Some(wramdata0 - 0xE000)]
    {
      oamDmaSrc := Off;
      Fill(rmem, 0, 4, Some(romdata0));
      Store(rmem, 0xC, Some(wramdata0 - 0xC000));
      Store(wmem, 0xC, Some(wramdata0 - 0xC000));
      Store(rmem, 0xE, Some(wramdata0 - 0xE000));
      Store(wmem, 0xE, Some(wramdata0 - 0xE000));
      sel := sel.(rom0 := 0);
    }

    /** `setRombank0(bank)`: entries 0x0-0x3 all read ROM bank `bank`. */
    method SetRombank0(bank: nat)
      requires Valid()
      modifies this`romdata0, this`sel, rmem, wmem
      ensures Valid()
      ensures romdata0 == Rom0Base(bank) && sel == old(sel).(rom0 := bank)
      ensures rmem[..] == ContendRead(Assign(old(rmem[..]), 0, 4, Some(romdata0)), cgb, oamDmaSrc)
      ensures wmem[..] == ContendWrite(old(wmem[..]), cgb, oamDmaSrc)
      ensures old(Ready()) ==> Ready()
    {
      ghost var b, ready := CurrentBanks(), Ready();
      romdata0 := RomData + bank * 0x4000;
      sel := sel.(rom0 := bank);
      Fill(rmem, 0, 4, Some(romdata0));
      DisconnectOamDmaAreas();
      if ready {
        Rom0SwitchRebuilds(b, romdata0, cgb, oamDmaSrc);
        BanksOfWithRom0(geometry, old(sel), bank);
      }
    }

    /**
     * `setRombank(bank)`: entries 0x4-0x7 get `romdata() + bank * 0x4000 -
     * 0x4000`, so that address 0x4000 + k reaches byte k of bank `bank`.
     */
    method SetRombank(bank: nat)
      requires Valid()
      modifies this`romdata1, this`sel, rmem, wmem
      ensures Valid()
      ensures romdata1 == Rom1Base(bank) && sel == old(sel).(rom1 := bank)
      ensures rmem[..] == ContendRead(Assign(old(rmem[..]), 4, 8, Some(romdata1)), cgb, oamDmaSrc)
      ensures wmem[..] == ContendWrite(old(wmem[..]), cgb, oamDmaSrc)
      ensures old(Ready()) ==> Ready()
    {
      ghost var b, ready := CurrentBanks(), Ready();
      PatchRom1(bank);
      if ready {
        Rom1SwitchRebuilds(b, romdata1, cgb, oamDmaSrc);
        BanksOfWithRom1(geometry, old(sel), bank);
      }
    }

    /** The stores of `setRombank`, apart from the invariant it keeps. */
    method PatchRom1(bank: nat)
      requires Valid()
      modifies this`romdata1, this`sel, rmem, wmem
      ensures Valid()
      ensures romdata1 == Rom1Base(bank) && sel == old(sel).(rom1 := bank)
      ensures rmem[..] == ContendRead(Assign(old(rmem[..]), 4, 8, Some(romdata1)), cgb, oamDmaSrc)
      ensures wmem[..] == ContendWrite(old(wmem[..]), cgb, oamDmaSrc)
    {
      romdata1 := RomData + bank * 0x4000 - 0x4000;
      sel := sel.(rom1 := bank);
      Fill(rmem, 4, 8, Some(romdata1));
      DisconnectOamDmaAreas();
    }

    /**
     * `setRambank(flags, rambank)`: choose the read and write bases of
     * 0xA000-0xBFFF from the flags (null with RTC_EN, the disabled areas when
     * reading or writing is off or the cartridge has no RAM).
     */
    method SetRambank(flags: RamFlags, rambank: nat)
      requires Valid()
      modifies this`rsrambank, this`wsrambank, this`sel, rmem, wmem
      ensures Valid()
      ensures rsrambank == RSramPtr(rambankdata, wramdata0, wramdataend, flags, rambank)
      ensures wsrambank == WSramPtr(rambankdata, wramdata0, wramdataend, flags, rambank)
      ensures sel == old(sel).(flags := flags, ram := rambank)
      ensures rmem[..] == ContendRead(Assign(old(rmem[..]), 0xA, 0xC, rsrambank), cgb, oamDmaSrc)
      ensures wmem[..] == ContendWrite(Assign(old(wmem[..]), 0xA, 0xC, wsrambank), cgb, oamDmaSrc)
      ensures old(Ready()) ==> Ready()
    {
      ghost var b, ready := CurrentBanks(), Ready();
      PatchSram(flags, rambank);
      if ready {
        SramSwitchRebuildsRead(b, rsrambank, wsrambank, cgb, oamDmaSrc);
        SramSwitchRebuildsWrite(b, rsrambank, wsrambank, cgb, oamDmaSrc);
        BanksOfWithRam(geometry, old(sel), flags, rambank);
      }
    }

    /** The stores of `setRambank`, apart from the invariant it keeps. */
    method PatchSram(flags: RamFlags, rambank: nat)
      requires Valid()
      modifies this`rsrambank, this`wsrambank, this`sel, rmem, wmem
      ensures Valid()
      ensures rsrambank == RSramPtr(rambankdata, wramdata0, wramdataend, flags, rambank)
      ensures wsrambank == WSramPtr(rambankdata, wramdata0, wramdataend, flags, rambank)
      ensures sel == old(sel).(flags := flags, ram := rambank)
      ensures rmem[..] == ContendRead(Assign(old(rmem[..]), 0xA, 0xC, rsrambank), cgb, oamDmaSrc)
      ensures wmem[..] == ContendWrite(Assign(old(wmem[..]), 0xA, 0xC, wsrambank), cgb, oamDmaSrc)
    {
      rsrambank := RSramPtr(rambankdata, wramdata0, wramdataend, flags, rambank);
      wsrambank := WSramPtr(rambankdata, wramdata0, wramdataend, flags, rambank);
      sel := sel.(flags := flags, ram := rambank);
      Fill(rmem, 0xA, 0xC, rsrambank);
      Fill(wmem, 0xA, 0xC, wsrambank);
      DisconnectOamDmaAreas();
    }

    /** `setWrambank(bank)`: entry 0xD of both tables reaches WRAM bank `max(bank & 7, 1)`. */
    method SetWrambank(bank: nat)
      requires Valid()
      modifies this`wramdata1, this`sel, rmem, wmem
      ensures Valid()
      ensures wramdata1 == wramdata0 + WramBankIndex(bank) * 0x1000
      ensures sel == old(sel).(wram := bank)
      ensures rmem[..] == ContendRead(old(rmem[..])[0xD := Some(wramdata1 - 0xD000)], cgb, oamDmaSrc)
      ensures wmem[..] == ContendWrite(old(wmem[..])[0xD := Some(wramdata1 - 0xD000)], cgb, oamDmaSrc)
      ensures old(Ready()) ==> Ready()
    {
      ghost var b, ready := CurrentBanks(), Ready();
      PatchWram(bank);
      if ready {
        WramSwitchRebuildsRead(b, wramdata1, cgb, oamDmaSrc);
        WramSwitchRebuildsWrite(b, wramdata1, cgb, oamDmaSrc);
        BanksOfWithWram(geometry, old(sel), bank);
      }
    }

    /** The stores of `setWrambank`, apart from the invariant it keeps. */
    method PatchWram(bank: nat)
      requires Valid()
      modifies this`wramdata1, this`sel, rmem, wmem
      ensures Valid()
      ensures wramdata1 == wramdata0 + WramBankIndex(bank) * 0x1000
      ensures sel == old(sel).(wram := bank)
      ensures rmem[..] == ContendRead(old(rmem[..])[0xD := Some(wramdata1 - 0xD000)], cgb, oamDmaSrc)
      ensures wmem[..] == ContendWrite(old(wmem[..])[0xD := Some(wramdata1 - 0xD000)], cgb, oamDmaSrc)
    {
      wramdata1 := wramdata0 + WramBankIndex(bank) * 0x1000;
      sel := sel.(wram := bank);
      Store(rmem, 0xD, Some(wramdata1 - 0xD000));
      Store(wmem, 0xD, Some(wramdata1 - 0xD000));
      DisconnectOamDmaAreas();
    }

    /**
     * `setOamDmaSrc(src)`: rebuild every managed entry from the stored bases,
     * record the source and apply its contention.  The new tables depend only
     * on the stored bases, the mode and `src`, never on the old tables.
     */
    method SetOamDmaSrc(src: OamDmaSrc)
      requires Valid() && Shaped()
      modifies this`oamDmaSrc, rmem, wmem
      ensures Valid() && TablesMatch()
      ensures oamDmaSrc == src
      ensures old(Layout() && CurrentBanks() == BanksOf(geometry, sel)) ==> Ready()
    {
      RemapAll();
      oamDmaSrc := src;
      DisconnectOamDmaAreas();
      TablesAreContendedBase(CurrentBanks(), cgb, src);
    }

    /**
     * The stores of `setOamDmaSrc` before it records the source: every
     * managed entry of both tables is rewritten from the stored bases.
     */
    method RemapAll()
      requires Valid() && Shaped()
      modifies rmem, wmem
      ensures Valid()
      ensures rmem[..] == BaseReadTable(CurrentBanks()) && wmem[..] == BaseWriteTable(CurrentBanks())
    {
      ghost var r, w := rmem[..], wmem[..];
      Fill(rmem, 0, 4, Some(romdata0));
      Fill(rmem, 4, 8, Some(romdata1));
      Fill(rmem, 0xA, 0xC, rsrambank);
      Fill(wmem, 0xA, 0xC, wsrambank);
      Store(rmem, 0xC, Some(wramdata0 - 0xC000));
      Store(wmem, 0xC, Some(wramdata0 - 0xC000));
      Store(rmem, 0xD, Some(wramdata1 - 0xD000));
      Store(wmem, 0xD, Some(wramdata1 - 0xD000));
      Store(rmem, 0xE, Some(wramdata0 - 0xE000));
      Store(wmem, 0xE, Some(wramdata0 - 0xE000));
      RebuildIsBase(r, w, CurrentBanks());
    }

    /** `disconnectOamDmaAreas()`: null the entries the active OAM DMA source contends. */
    method DisconnectOamDmaAreas()
      requires Valid()
      modifies rmem, wmem
      ensures Valid()
      ensures rmem[..] == ContendRead(old(rmem[..]), cgb, oamDmaSrc)
      ensures wmem[..] == ContendWrite(old(wmem[..]), cgb, oamDmaSrc)
    {
      var src := oamDmaSrc;
      if cgb {
        if src == Rom || src == Sram || src == Invalid {
          Fill(rmem, 0, 8, None);
          Fill(rmem, 0xA, 0xC, None);
          Fill(wmem, 0xA, 0xC, None);
        } else if src == Wram {
          Fill(rmem, 0xC, 0xF, None);
          Fill(wmem, 0xC, 0xF, None);
        }
      } else {
        if src != Vram && src != Off {
          Fill(rmem, 0, 8, None);
          Fill(rmem, 0xA, 0xF, None);
          Fill(wmem, 0xA, 0xF, None);
        }
      }
    }
  }

  // ---------------------------------------------------------------------------
  // Proof steps of the methods above.

  /** Read entries 0x0-0x3, 0xC and 0xE map the fixed banks; 0x8, 0x9 and 0xF are null. */
  ghost predicate FixedRead(t: seq<Window>, rom0: int, wram0: int) {
    && |t| == TableSize
    && (forall i :: 0 <= i < 4 ==> t[i] == Some(rom0))
    && t[8] == None && t[9] == None && t[0xF] == None
    && t[0xC] == Some(wram0 - 0xC000) && t[0xE] == Some(wram0 - 0xE000)
  }

  /** Write entries 0xC and 0xE map WRAM bank 0; 0x0-0x9 and 0xF are null. */
  ghost predicate FixedWrite(t: seq<Window>, wram0: int) {
    && |t| == TableSize
    && (forall i :: 0 <= i < 0xA ==> t[i] == None)
    && t[0xF] == None
    && t[0xC] == Some(wram0 - 0xC000) && t[0xE] == Some(wram0 - 0xE000)
  }

  /** The stores of `reset` leave the fixed banks mapped in tables whose unassigned entries are null. */
  lemma FixedBanksMapped(r: seq<Window>, w: seq<Window>, r0: seq<Window>, w0: seq<Window>, rom0: int, wram0: int)
    requires Unassigned(r, w)
    requires r0 == Assign(r, 0, 4, Some(rom0))[0xC := Some(wram0 - 0xC000)][0xE := Some(wram0 - 0xE000)]
    requires w0 == w[0xC := Some(wram0 - 0xC000)][0xE := Some(wram0 - 0xE000)]
    ensures FixedRead(r0, rom0, wram0) && FixedWrite(w0, wram0)
  {
    AssignAt(r, 0, 4, Some(rom0));
  }

  /**
   * The read table `reset` leaves once the fixed banks are mapped: the
   * stores of `setRombank(1)`, `setRambank(0, 0)` and `setWrambank(1)`, all
   * with DMA off, complete the rebuild.
   */
  lemma ResetReadTable(r0: seq<Window>, r1: seq<Window>, r2: seq<Window>, r3: seq<Window>, cgb: bool, b: Banks)
    requires FixedRead(r0, b.rom0, b.wram0)
    requires r1 == ContendRead(Assign(r0, 4, 8, Some(b.rom1)), cgb, Off)
    requires r2 == ContendRead(Assign(r1, 0xA, 0xC, b.rsram), cgb, Off)
    requires r3 == ContendRead(r2[0xD := Some(b.wram1 - 0xD000)], cgb, Off)
    ensures r3 == ReadTable(b, cgb, Off)
  {
    TablesAreContendedBase(b, cgb, Off);
    AssignAt(r0, 4, 8, Some(b.rom1));
    AssignAt(r1, 0xA, 0xC, b.rsram);
  }

  /** The write table `reset` leaves once the fixed banks are mapped. */
  lemma ResetWriteTable(w0: seq<Window>, w1: seq<Window>, w2: seq<Window>, w3: seq<Window>, cgb: bool, b: Banks)
    requires FixedWrite(w0, b.wram0)
    requires w1 == ContendWrite(w0, cgb, Off)
    requires w2 == ContendWrite(Assign(w1, 0xA, 0xC, b.wsram), cgb, Off)
    requires w3 == ContendWrite(w2[0xD := Some(b.wram1 - 0xD000)], cgb, Off)
    ensures w3 == WriteTable(b, cgb, Off)
  {
    TablesAreContendedBase(b, cgb, Off);
    AssignAt(w1, 0xA, 0xC, b.wsram);
  }

  lemma BanksOfWithRom0(g: Geometry, s: BankSel, bank: nat)
    ensures BanksOf(g, s.(rom0 := bank)) == BanksOf(g, s).(rom0 := Rom0Base(bank))
  {
  }

  lemma BanksOfWithRom1(g: Geometry, s: BankSel, bank: nat)
    ensures BanksOf(g, s.(rom1 := bank)) == BanksOf(g, s).(rom1 := Rom1Base(bank))
  {
  }

  lemma BanksOfWithRam(g: Geometry, s: BankSel, flags: RamFlags, bank: nat)
    ensures BanksOf(g, s.(flags := flags, ram := bank)) ==
      BanksOf(g, s).(rsram := RSramBase(g, flags, bank), wsram := WSramBase(g, flags, bank))
  {
  }

  lemma BanksOfWithWram(g: Geometry, s: BankSel, bank: nat)
    ensures BanksOf(g, s.(wram := bank)) == BanksOf(g, s).(wram1 := Wram1Base(g, bank))
  {
  }

  /**
   * Once ready, and with bank selections the cartridge has, every fast-path
   * window of both tables stays inside the arena.
   */
  lemma ReadyWindowsInArena(m: MemPtrs)
    requires m.Ready() && InRange(m.geometry, m.sel)
    ensures InArena(m.rmem[..], m.arena.Length)
    ensures InArena(m.wmem[..], m.arena.Length)
  {
    TablesInArena(m.geometry, m.sel, m.cgb, m.oamDmaSrc);
  }
}
