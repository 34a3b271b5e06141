# Gambatte memory banking, bus fast paths and the LYC event, in Dafny

This project models three small parts of the gambatte Game Boy emulator's memory and timing core, and proves properties about them:

- **`MemPtrs`**, the bank-window manager (`libgambatte/src/mem/memptrs.cpp`), module `Banking` over the pure specification in `Windows` and `Arena`.
  - One byte arena (`memchunk_`) is carved into ordered regions: ROM banks, VRAM, cartridge RAM banks, work RAM banks, and two 8 KiB disabled-RAM areas.
  - Two sixteen-entry tables, `rmem_` and `wmem_`, are indexed by `addr >> 12`. Each entry is a base offset (`Some(base)`, so that `base + addr` is the arena byte) or null (`None`, the slow path).
  - The class keeps both tables as `array`s and updates them in place as the source does. Its invariant `Ready()` says that the tables equal `ReadTable`/`WriteTable` of the stored bank bases, the CGB mode and the OAM DMA source. Every bank switch preserves it.
- **`Memory`**, the bus's inline fast paths (`libgambatte/src/gambatte-memory.h`), module `Bus`: `read`, `write`, `ff_read`, `ff_write`, `cyclesSinceBlit`, `ei`, `isActive` and `nextEventTime`. End-to-end lemmas compose them with the bank tables, for example "0x4000 + k reads byte k of the selected ROM bank".
- **`LycIrq`**, the line-compare event (`libgambatte/src/video/lyc_irq.cpp`), module `LineCompare`: `doEvent`, `schedule` and `lycRegSchedule`. The trigger-cycle formula is lifted into pure functions with lemmas about its value and its one-frame correction bands.

Machine integers are explicit:
- Cycle counts are 32-bit `unsigned long` values (`Words.Word`), for the Emscripten target the code is built for. They wrap through `Add`, `Sub`, `Mul`, `Shl` and `Shr`.
- `long` results convert through `ToLong`.
- Bytes are `Byte` (0..255), or `bv8` for the interrupt-flag register, where bits matter.
- Arena positions are unbounded `int` offsets from the first byte of `memchunk_`, not pointers.

## Model

| member | source | states |
|---|---|---|
| Words.Add | libgambatte/src/video/lyc_irq.cpp:50 | `a + b` modulo 2^32: the plain sum when it fits, else the sum less 2^32 |
| Words.Sub | libgambatte/src/video/lyc_irq.cpp:52 | `a - b` modulo 2^32: the plain difference when b ≤ a, else the difference plus 2^32 |
| Words.Mul | libgambatte/src/video/lyc_irq.cpp:50 | definition: `a * b` modulo 2^32 |
| Words.Shl | libgambatte/src/video/lyc_irq.cpp:50 | definition: `x << s` for a shift of 0 or 1, modulo 2^32 |
| Words.Shr | libgambatte/src/gambatte-memory.h:64 | `x >> s` for a shift of 0 or 1 never exceeds x |
| Words.ToLong | libgambatte/src/gambatte-memory.h:64 | conversion to a 32-bit `long`: the result lies in the signed range and wraps back to x |
| Arena.ArenaSize | libgambatte/src/mem/memptrs.cpp:58-63 | the allocation ends exactly where the write sink (the last region) ends |
| Arena.LayoutContiguous | libgambatte/src/mem/memptrs.cpp:68-71 | ROM banks, RAM banks, WRAM banks and the two disabled areas are contiguous, ordered and fill the arena |
| Arena.RomBankInRomRegion | libgambatte/src/mem/memptrs.cpp:69 | a ROM bank below the bank count lies inside the ROM region |
| Arena.RamBankInRamRegion | libgambatte/src/mem/memptrs.cpp:70 | a RAM bank below the bank count lies inside the cartridge-RAM region |
| Arena.RamBankData | libgambatte/src/mem/memptrs.cpp:69 | definition: `rambankdata_`, 0x4000 past the last ROM bank |
| Arena.WramData | libgambatte/src/mem/memptrs.cpp:70 | definition: `wramdata_[0]`, just past the last cartridge-RAM bank |
| Arena.WramDataEnd | libgambatte/src/mem/memptrs.cpp:71 | definition: `wramdataend_`, just past the last WRAM bank |
| Arena.RDisabledRam | libgambatte/src/mem/memptrs.cpp:73 | definition: `rdisabledRamw()`, the 8 KiB all-0xFF read area at `wramdataend_` (also used at line 135) |
| Arena.WDisabledRam | libgambatte/src/mem/memptrs.cpp:133-136 | definition: `wdisabledRam()`, the 8 KiB write sink just past the read area |
| Windows.Rom0Base | libgambatte/src/mem/memptrs.cpp:103 | definition: romdata + bank·0x4000, the base of `setRombank0` |
| Windows.Rom1Base | libgambatte/src/mem/memptrs.cpp:123 | definition: romdata + bank·0x4000 − 0x4000, the base of `setRombank` |
| Windows.Wram1Base | libgambatte/src/mem/memptrs.cpp:144 | definition: `wramdata_[0]` + max(bank & 7, 1)·0x1000 |
| Windows.SramPtr | libgambatte/src/mem/memptrs.cpp:130-133 | definition: null with RTC_EN, else the selected RAM bank, or the write sink when the cartridge has no RAM |
| Windows.RSramPtr | libgambatte/src/mem/memptrs.cpp:135 | definition: the common pointer when reading is enabled and it is not the write sink, else the all-0xFF area |
| Windows.WSramPtr | libgambatte/src/mem/memptrs.cpp:136 | definition: the common pointer when writing is enabled, else the write sink |
| Windows.WramBankIndex | libgambatte/src/mem/memptrs.cpp:144 | the WRAM bank selected by `setWrambank` is always in 1..7 |
| Windows.WramBankZeroAliasesOne | libgambatte/src/mem/memptrs.cpp:144 | banks 0, 1 and 8 select the same WRAM bank 1; the choice is periodic in 8 and is `bank & 7` otherwise |
| Windows.ReadBlocked | libgambatte/src/mem/memptrs.cpp:163-206 | definition: whether the mode and DMA source null read entry i |
| Windows.WriteBlocked | libgambatte/src/mem/memptrs.cpp:163-206 | definition: whether the mode and DMA source null write entry i |
| Windows.ReadEntry | libgambatte/src/mem/memptrs.cpp:149-206 | definition: read entry i as every operation leaves it, the rebuilt base or null where blocked |
| Windows.WriteEntry | libgambatte/src/mem/memptrs.cpp:149-206 | definition: write entry i as every operation leaves it, the rebuilt base or null where blocked |
| Windows.ContendRead | libgambatte/src/mem/memptrs.cpp:163-206 | the run-by-run nulling of the read table, as `disconnectOamDmaAreas` does it; keeps the table's 16 entries |
| Windows.ContendWrite | libgambatte/src/mem/memptrs.cpp:163-206 | the same for the write table |
| Windows.BaseRead | libgambatte/src/mem/memptrs.cpp:151-157 | definition: read entry i as `setOamDmaSrc` rebuilds it from the stored bases |
| Windows.BaseWrite | libgambatte/src/mem/memptrs.cpp:151-157 | definition: write entry i as `setOamDmaSrc` rebuilds it (null below 0xA and at 0xF) |
| Windows.BaseReadTable | libgambatte/src/mem/memptrs.cpp:151-157 | the sixteen rebuilt read entries |
| Windows.BaseWriteTable | libgambatte/src/mem/memptrs.cpp:151-157 | the sixteen rebuilt write entries |
| Windows.ReadTable | libgambatte/src/mem/memptrs.cpp:149-161 | the sixteen read entries every operation leaves: rebuilt, then nulled where blocked |
| Windows.WriteTable | libgambatte/src/mem/memptrs.cpp:149-161 | the sixteen write entries every operation leaves: rebuilt, then nulled where blocked |
| Windows.Resolve | libgambatte/src/gambatte-memory.h:88-94 | definition: the window `rmem(p >> 12)`/`wmem(p >> 12)` offset by p, or null |
| Windows.Assign | libgambatte/src/mem/memptrs.cpp:172 | a `std::fill`, or a chained store such as lines 76, 104, 124 and 137-138, over entries lo..hi-1 keeps the table's length |
| Windows.AssignAt | libgambatte/src/mem/memptrs.cpp:172 | a fill sets exactly entries lo..hi-1 to the value and keeps every other entry |
| Windows.ContendReadAt | libgambatte/src/mem/memptrs.cpp:163-206 | `disconnectOamDmaAreas` nulls read entry i exactly when the mode and DMA source block it, and keeps it otherwise |
| Windows.ContendWriteAt | libgambatte/src/mem/memptrs.cpp:163-206 | the same for write entries |
| Windows.ContendIdempotent | libgambatte/src/mem/memptrs.cpp:163-206 | disconnecting twice equals disconnecting once, in both tables |
| Windows.ContendReadAgrees | libgambatte/src/mem/memptrs.cpp:163-206 | two read tables that agree on every entry the source leaves uncontended are equal after contention |
| Windows.ContendWriteAgrees | libgambatte/src/mem/memptrs.cpp:163-206 | the same for write tables |
| Windows.CgbWramDmaContention | libgambatte/src/mem/memptrs.cpp:178-181 | CGB with a WRAM source blanks exactly 0xC-0xE of both tables and leaves 0x0-0x7 and 0xA-0xB as rebuilt |
| Windows.CgbRomDmaContention | libgambatte/src/mem/memptrs.cpp:169-175 | CGB with a ROM, SRAM or invalid source blanks read 0x0-0x7 and 0xA-0xB and write 0xA-0xB, nothing else |
| Windows.DmgDmaContention | libgambatte/src/mem/memptrs.cpp:190-199 | non-CGB with any source but VRAM blanks read 0x0-0x7 and 0xA-0xE and write 0xA-0xE, nothing else |
| Windows.UncontendedWhenNoDma | libgambatte/src/mem/memptrs.cpp:149-161 | with DMA off or from VRAM the tables are the uncontended rebuild, so `setOamDmaSrc(off)` restores it |
| Windows.TablesAreContendedBase | libgambatte/src/mem/memptrs.cpp:149-161 | the tables are the rebuild from the stored bases with the contended entries blanked |
| Windows.NeverFastMapped | libgambatte/src/mem/memptrs.cpp:27-40 | entries 0x8, 0x9 and 0xF, and write entries 0x0-0x9, are always null |
| Windows.SramEntriesEqual | libgambatte/src/mem/memptrs.cpp:137-138 | entries 0xA and 0xB are equal in both tables, under every mode and source |
| Windows.RebuildIsBase | libgambatte/src/mem/memptrs.cpp:151-157 | the stores of `setOamDmaSrc` turn any table whose unassigned entries are null into the uncontended rebuild |
| Windows.Rom0SwitchRebuilds | libgambatte/src/mem/memptrs.cpp:98-106 | patching read entries 0x0-0x3 and re-contending gives the full rebuild for the new ROM bank 0 base |
| Windows.Rom1SwitchRebuilds | libgambatte/src/mem/memptrs.cpp:118-126 | the same for entries 0x4-0x7 and the switchable ROM base |
| Windows.SramSwitchRebuildsRead | libgambatte/src/mem/memptrs.cpp:128-140 | patching read entries 0xA-0xB and re-contending gives the full rebuild for the new cartridge-RAM read base |
| Windows.SramSwitchRebuildsWrite | libgambatte/src/mem/memptrs.cpp:128-140 | the same for the write table and the write base |
| Windows.WramSwitchRebuildsRead | libgambatte/src/mem/memptrs.cpp:142-147 | patching read entry 0xD and re-contending gives the full rebuild for the new WRAM bank |
| Windows.WramSwitchRebuildsWrite | libgambatte/src/mem/memptrs.cpp:142-147 | the same for write entry 0xD |
| Windows.FixedRomResolves | libgambatte/src/mem/memptrs.cpp:103-104 | unless DMA blocks it, address k < 0x4000 resolves to byte k of the ROM bank selected by `setRombank0` |
| Windows.SwitchableRomResolves | libgambatte/src/mem/memptrs.cpp:123-124 | unless DMA blocks it, 0x4000 + k resolves to romdata + bank·0x4000 + k, bank 0 included |
| Windows.EchoResolvesToWram0 | libgambatte/src/mem/memptrs.cpp:77-78 | 0xC000 + k and its echo 0xE000 + k resolve to the same byte of WRAM bank 0, for reads and writes |
| Windows.SwitchableWramResolves | libgambatte/src/mem/memptrs.cpp:144-145 | 0xD000 + k resolves to byte k of WRAM bank `max(bank & 7, 1)`, for reads and writes |
| Windows.SramWindows | libgambatte/src/mem/memptrs.cpp:130-138 | flag by flag: no read enable or no RAM reads the all-0xFF area; no write enable writes to the sink; RTC null; otherwise the selected RAM bank |
| Windows.WritesSpareReadSentinel | libgambatte/src/mem/memptrs.cpp:133-136 | with banks the cartridge has, no write window reaches the all-0xFF area that disabled reads see |
| Windows.TablesInArena | libgambatte/src/mem/memptrs.cpp:58-71 | with banks the cartridge has, every window of both tables stays inside the allocation |
| Banking.Fill | libgambatte/src/mem/memptrs.cpp:172 | `std::fill` sets exactly entries lo..hi-1 of the table |
| Banking.Store | libgambatte/src/mem/memptrs.cpp:145 | a single entry store changes exactly that entry |
| Banking.Memset | libgambatte/src/mem/memptrs.cpp:73 | `std::memset` sets exactly bytes lo..hi-1 of the arena |
| Banking.MemPtrs.constructor | libgambatte/src/mem/memptrs.cpp:27-40 | all entries null, no arena, null RAM pointers, DMA off |
| Banking.MemPtrs.Reset | libgambatte/src/mem/memptrs.cpp:47-83 | after reset the invariant holds with DMA off, ROM bank 1, RAM disabled, WRAM bank 1, and the disabled-read area all 0xFF |
| Banking.MemPtrs.AllocateChunk | libgambatte/src/mem/memptrs.cpp:58-73 | a fresh arena of the layout's size, region pointers from the bank counts, the disabled-read area all 0xFF |
| Banking.MemPtrs.MapInitialBanks | libgambatte/src/mem/memptrs.cpp:75-83 | the stores and bank selections of reset establish the invariant, with DMA off |
| Banking.MemPtrs.MapFixedBanks | libgambatte/src/mem/memptrs.cpp:75-78 | DMA off, read entries 0x0-0x3 to ROM bank 0, entries 0xC and 0xE of both tables to WRAM bank 0, nothing else |
| Banking.MemPtrs.SelectInitialBanks | libgambatte/src/mem/memptrs.cpp:80-83 | `setRombank(1)`, `setRambank(0, 0)` and `setWrambank(1)` on the fixed mapping yield exactly the tables the invariant demands |
| Banking.FixedBanksMapped | libgambatte/src/mem/memptrs.cpp:75-78 | reset's own stores map the fixed banks and leave the unassigned entries null |
| Banking.ResetReadTable | libgambatte/src/mem/memptrs.cpp:80-83 | the read table after reset's bank selections is the rebuild for the selected banks |
| Banking.ResetWriteTable | libgambatte/src/mem/memptrs.cpp:80-83 | the same for the write table |
| Banking.MemPtrs.SetRombank0 | libgambatte/src/mem/memptrs.cpp:98-106 | all four read entries 0x0-0x3 get romdata + bank·0x4000, then contention; the invariant is kept |
| Banking.MemPtrs.SetRombank | libgambatte/src/mem/memptrs.cpp:118-126 | read entries 0x4-0x7 get romdata + bank·0x4000 − 0x4000, then contention; nothing else changes; the invariant is kept |
| Banking.MemPtrs.PatchRom1 | libgambatte/src/mem/memptrs.cpp:123-125 | the stores of `setRombank` and the contention that follows |
| Banking.MemPtrs.SetRambank | libgambatte/src/mem/memptrs.cpp:128-140 | both RAM pointers chosen from the flags, entries 0xA-0xB of each table set to them, then contention; the invariant is kept |
| Banking.MemPtrs.PatchSram | libgambatte/src/mem/memptrs.cpp:130-139 | the stores of `setRambank` and the contention that follows |
| Banking.MemPtrs.SetWrambank | libgambatte/src/mem/memptrs.cpp:142-147 | `wramdata_[1]` is WRAM bank `max(bank & 7, 1)`, entry 0xD of both tables points at it, then contention; the invariant is kept |
| Banking.MemPtrs.PatchWram | libgambatte/src/mem/memptrs.cpp:144-146 | the stores of `setWrambank` and the contention that follows |
| Banking.MemPtrs.SetOamDmaSrc | libgambatte/src/mem/memptrs.cpp:149-161 | the tables become the contended rebuild for the new source, independent of the old tables (so a second call with the same source changes nothing) |
| Banking.MemPtrs.RemapAll | libgambatte/src/mem/memptrs.cpp:151-157 | every managed entry of both tables is rewritten from the stored bases, giving the uncontended rebuild |
| Banking.MemPtrs.DisconnectOamDmaAreas | libgambatte/src/mem/memptrs.cpp:163-206 | both tables become their contended form for the current mode and source |
| Banking.ReadyWindowsInArena | libgambatte/src/gambatte-memory.h:84-97 | with the invariant and banks the cartridge has, every fast-path access stays inside the arena |
| Bus.EventIndex | libgambatte/src/gambatte-memory.h:58 | each `IntEventId` indexes one of the nine event times (index below 9) |
| Bus.IntReq.EventTime | libgambatte/src/gambatte-memory.h:58-64 | definition: `intreq_.eventTime(e)`, the time stored for event e |
| Bus.MinOf | libgambatte/src/gambatte-memory.h:57 | the minimum is one of the times and no later than any of them |
| Bus.Memory.NextEventTime | libgambatte/src/gambatte-memory.h:57 | the result is a pending event's time and no later than any event's time |
| Bus.Memory.IsActive | libgambatte/src/gambatte-memory.h:58 | definition: the end event's time is not `disabled_time` |
| Bus.Memory.CyclesSinceBlit | libgambatte/src/gambatte-memory.h:60-65 | −1 before the blit event; otherwise the gap, halved in double speed, and nonnegative when it fits a `long` |
| Bus.Memory.Ei | libgambatte/src/gambatte-memory.h:68 | with IME set the requester is unchanged; with IME clear it is the requester's `ei` applied at cc |
| Bus.Memory.FfRead | libgambatte/src/gambatte-memory.h:71-73 | registers 0x80-0xFF (0xFF included) read `ioamhram_[p + 0x100]`; below 0x80 the slow path |
| Bus.Memory.FfWrite | libgambatte/src/gambatte-memory.h:99-104 | the store is direct exactly for 0x80 ≤ p ≤ 0xFE and changes only `ioamhram_[p + 0x100]`; otherwise nothing changes here |
| Bus.Memory.Read | libgambatte/src/gambatte-memory.h:84-90 | a non-null window gives the arena byte at window + p, inside the arena; a null window gives the slow path |
| Bus.Memory.Write | libgambatte/src/gambatte-memory.h:92-97 | a non-null window stores the low byte at window + p and changes no other byte; a read through the same window then returns it; the invariant is kept |
| Bus.ReadFixedRom | libgambatte/src/gambatte-memory.h:89 | reading k < 0x4000 yields byte k of the ROM bank selected by `setRombank0` |
| Bus.ReadSwitchableRom | libgambatte/src/gambatte-memory.h:89 | reading 0x4000 + k yields byte k of the ROM bank selected by `setRombank` |
| Bus.ReadEchoWram | libgambatte/src/gambatte-memory.h:89 | 0xC000 + k and 0xE000 + k read the same byte of WRAM bank 0 |
| Bus.ReadSwitchableWram | libgambatte/src/gambatte-memory.h:89 | 0xD000 + k reads byte k of WRAM bank `max(bank & 7, 1)` |
| Bus.ReadDisabledSram | libgambatte/src/mem/memptrs.cpp:73 | with reading disabled, or no RAM and no RTC, every read of 0xA000-0xBFFF yields 0xFF |
| LineCompare.Raises | libgambatte/src/video/lyc_irq.cpp:34 | definition: M2 interrupts off, or LYC above 143, or LYC 0 |
| LineCompare.EventFlags | libgambatte/src/video/lyc_irq.cpp:33-35 | bit 1 of IF is set exactly when M2 interrupts are off or LYC is 0 or above 143 (or it was already set); no other bit changes |
| LineCompare.TargetSpan | libgambatte/src/video/lyc_irq.cpp:50 | definition: (153 − ly)·456 plus LYC·456, or 153·456 + 8 for LYC 0, in 32-bit arithmetic |
| LineCompare.TriggerTime | libgambatte/src/video/lyc_irq.cpp:50 | definition: lyTime plus the whole span shifted by the speed, less one, in 32-bit arithmetic |
| LineCompare.TriggerTimeValue | libgambatte/src/video/lyc_irq.cpp:50 | without wrap-around the trigger is lyTime + ((lines to the target)·456, plus 8 for LYC 0, doubled as a whole at double speed) − 1 |
| LineCompare.TriggerOneLineLater | libgambatte/src/video/lyc_irq.cpp:50 | raising LYC by one moves the trigger one line (456 cycles, 912 at double speed) later |
| LineCompare.TriggerLycZero | libgambatte/src/video/lyc_irq.cpp:50 | LYC 0 triggers at line 153 plus 8 cycles (16 at double speed) |
| LineCompare.ScheduledTime | libgambatte/src/video/lyc_irq.cpp:52-55 | the time is the trigger, or one frame earlier exactly when the trigger is more than a frame after cc |
| LineCompare.ScheduledWithinFrame | libgambatte/src/video/lyc_irq.cpp:52-55 | a trigger at most two frames ahead is scheduled at most one frame ahead of cc |
| LineCompare.RegScheduledTime | libgambatte/src/video/lyc_irq.cpp:40-45 | `schedule`, plus one frame exactly when LYC > 0 and (4 >> ds) < time − cc < 8 |
| LineCompare.RegScheduleLycZero | libgambatte/src/video/lyc_irq.cpp:40-45 | with LYC 0, `lycRegSchedule` equals `schedule` |
| LineCompare.LycIrq.constructor | libgambatte/src/video/lyc_irq.cpp:23-31 | single speed, M2 interrupts off, LYC 0, no event pending |
| LineCompare.LycIrq.DoEvent | libgambatte/src/video/lyc_irq.cpp:33-38 | IF becomes `EventFlags` of its old value, and the time advances by exactly one frame |
| LineCompare.LycIrq.Schedule | libgambatte/src/video/lyc_irq.cpp:47-56 | the stored time becomes `ScheduledTime` |
| LineCompare.LycIrq.LycRegSchedule | libgambatte/src/video/lyc_irq.cpp:40-45 | the stored time becomes `RegScheduledTime` |

## Left out

- The `EM_ASM_INT` tracing blocks (memptrs.cpp:84-90, 100-102, 120-122; gambatte-memory.h:86-88) are left out. They call into the browser runtime and change no emulator state.
- `memptrs.h` is not part of this model. The accessors are taken as the layout in `Arena`: `romdata()` at offset 0x4000, `rambankdataend()` = `wramdata_[0]`, `rdisabledRamw()` = `wramdataend_`, `wdisabledRam()` = `wramdataend_` + 0x2000.
- `RTC_EN`, `READ_EN` and `WRITE_EN` are modelled as three booleans (`RamFlags`), because their bit values are not visible. `setRambank(0, 0)` in reset is all three clear.
- `isCgb(*this)` is the field `cgb`, given to `Reset`.
- `setVrambank` and the VRAM window are left out: the VRAM bank pointer is not part of the two tables.
- The destructor is left out, because Dafny arrays are not freed.
- `Reset`'s body is split into `AllocateChunk`, `MapInitialBanks`, `MapFixedBanks` and `SelectInitialBanks`, in source order. Each setter's stores are a `Patch…` method, and the public setter adds the proof that the invariant is kept. The statements and their order are the source's.
- Banking.MemPtrs.Reset: the arena size is an unbounded integer. The 32-bit wrap of `bank * 0x4000ul` for absurd bank counts is not modelled.
- Pointer arithmetic that forms out-of-arena bases (`wramdata_[0] - 0xC000`) is integer offsets. In-bounds access is proved only for bank selections below the bank counts (`InRange`).
- The slow paths `nontrivial_read`, `nontrivial_write`, `nontrivial_ff_read` and `nontrivial_ff_write` are left out: their bodies are not visible. The model returns `Slow`, or `direct == false` with nothing changed.
- Banking.MemPtrs.Reset: allocation failure is not modelled. In the source, `new unsigned char[...]` (memptrs.cpp:58-63) throws when memory runs out, and that is reset's only failure; here `new` always succeeds.
- `di`, `halt` and the internals of `InterruptRequester` are left out. `ei`'s requester call is a function parameter, and `minEventTime` is the minimum of the event times.
- `disabled_time` is taken as 0xFFFFFFFF.
- Bus.Memory.CyclesSinceBlit: nonnegativity is proved only when the gap fits a 32-bit `long` or in double speed. In single speed, a gap of 2^31 or more converts to a negative `long`, and the contract says so.
- Bus.Memory.Read and Bus.Memory.Write require p < 0x10000, because `p >> 12` must index the sixteen entries. The same holds for `FfRead` and p < 0x100.
- `LycIrq::reset`, the setters (`setLycReg`, `setM2IrqEnabled`, `setDoubleSpeed`), `VideoEvent` and `LyCounter` are not visible.
  - The constructor sets the three fields directly and leaves the time at `disabled_time`.
  - `LyCounter` is a value holding the line end time, the line and the speed.
  - `frameTime` is a positive constant given at construction.
- The commented-out formula at lyc_irq.cpp:48 is not the behaviour and is not modelled.
- `libgambatte/libretro/libretro.cpp` is host glue, with floating point and file I/O, and is not part of this model.
