/**
 * The inline fast paths of the bus (`Memory` in gambatte-memory.h): reads
 * and writes through the bank-window tables, the 0xFF00 page held in
 * `ioamhram_`, and the small queries on the interrupt requester.
 *
 * Everything these paths hand off (`nontrivial_read`, `nontrivial_write`,
 * `nontrivial_ff_read`, `nontrivial_ff_write`, and `InterruptRequester::ei`)
 * is outside the model: a read that takes the slow path returns Slow, a
 * write that takes it reports `direct == false` and changes nothing here, and
 * the requester's `ei` is a function parameter.
 */
module Bus {
  import opened Words
  import opened Arena
  import opened Windows
  import opened Banking

  /** The events the interrupt requester keeps a time for (`IntEventId`), in queue order. */
  datatype IntEventId = Unhalt | End | Blit | Serial | Oam | Dma | Tima | Video | Interrupts

  const EventCount: nat := 9

  function EventIndex(e: IntEventId): (i: nat)
    ensures i < EventCount
  {
    match e
    case Unhalt => 0
    case End => 1
    case Blit => 2
    case Serial => 3
    case Oam => 4
    case Dma => 5
    case Tima => 6
    case Video => 7
    case Interrupts => 8
  }

  /**
   * The part of `InterruptRequester` the inline methods see: the IME flag and
   * the time of every event.
   */
  datatype IntReq = IntReq(ime: bool, eventTimes: seq<Word>)
  {
    ghost predicate Valid() {
      |eventTimes| == EventCount
    }

    /** `eventTime(e)`. */
    function EventTime(e: IntEventId): Word
      requires Valid()
    {
      eventTimes[EventIndex(e)]
    }
  }

  /** The earliest of a non-empty list of event times. */
  function MinOf(s: seq<Word>): (m: Word)
    requires |s| > 0
    ensures m in s
    ensures forall x :: x in s ==> m <= x
  {
    if |s| == 1 then s[0]
    else
      var rest := MinOf(s[1..]);
      assert forall x :: x in s ==> x == s[0] || x in s[1..];
      if s[0] <= rest then s[0] else rest
  }

  /** The outcome of a fast-path read: the byte, or a hand-off to the slow path. */
  datatype Access = Fast(value: Byte) | Slow

  class Memory {
    /** `cart_`'s bank-window manager. */
    const cart: MemPtrs
    /** `ioamhram_[0x200]`: OAM, the I/O registers and high RAM. */
    const ioamhram: array<Byte>
    /** `intreq_`. */
    var intreq: IntReq
    /** `isDoubleSpeed()`. */
    var doubleSpeed: bool

    /** Assemble a bus from its parts (the real constructor wires up the whole machine). */
    constructor (cart: MemPtrs, ioamhram: array<Byte>, intreq: IntReq, doubleSpeed: bool)
      ensures this.cart == cart && this.ioamhram == ioamhram
      ensures this.intreq == intreq && this.doubleSpeed == doubleSpeed
    {
      this.cart := cart;
      this.ioamhram := ioamhram;
      this.intreq := intreq;
      this.doubleSpeed := doubleSpeed;
    }

    /**
     * The bus invariant: the bank-window manager is ready with banks the
     * cartridge has, reads of disabled cartridge RAM see 0xFF, and the 0xFF00
     * page is a separate 0x200-byte array.
     */
    ghost predicate Valid()
      reads this, cart, cart.rmem, cart.wmem, cart.arena
    {
      && ioamhram.Length == 0x200
      && ioamhram != cart.arena
      && intreq.Valid()
      && cart.Ready()
      && InRange(cart.geometry, cart.sel)
      && cart.DisabledRamFF()
    }

    /** `nextEventTime()`: the earliest pending event time. */
    function NextEventTime(): (t: Word)
      reads this
      requires intreq.Valid()
      ensures t in intreq.eventTimes
      ensures forall e :: t <= intreq.EventTime(e)
    {
      assert forall e :: intreq.EventTime(e) in intreq.eventTimes;
      MinOf(intreq.eventTimes)
    }

    /** `isActive()`: whether the end-of-run event is scheduled. */
    predicate IsActive()
      reads this
      requires intreq.Valid()
    {
      intreq.EventTime(End) != DisabledTime
    }

    /**
     * `cyclesSinceBlit(cc)`: -1 before the blit event, else the cycles since
     * it, halved in double speed, as a 32-bit `long`.
     */
    function CyclesSinceBlit(cc: Word): (r: int)
      reads this
      requires intreq.Valid()
      ensures cc < intreq.EventTime(Blit) ==> r == -1
      ensures cc >= intreq.EventTime(Blit) && (doubleSpeed || cc - intreq.EventTime(Blit) < 0x8000_0000) ==>
        r >= 0 && r == (cc - intreq.EventTime(Blit)) / (if doubleSpeed then 2 else 1)
      ensures cc >= intreq.EventTime(Blit) && !doubleSpeed && cc - intreq.EventTime(Blit) >= 0x8000_0000 ==>
        r == cc - intreq.EventTime(Blit) - Modulus
    {
      if cc < intreq.EventTime(Blit) then -1
      else ToLong(Shr(Sub(cc, intreq.EventTime(Blit)), doubleSpeed))
    }

    /** `ei(cc)`: hand over to the requester's `ei` only when IME is clear. */
    method Ei(cc: Word, ei: (IntReq, Word) -> IntReq)
      requires forall r: IntReq, c: Word :: r.Valid() ==> ei(r, c).Valid()
      modifies this`intreq
      ensures old(intreq.Valid()) ==> intreq.Valid()
      ensures old(intreq.ime) ==> intreq == old(intreq)
      ensures !old(intreq.ime) ==> intreq == ei(old(intreq), cc)
    {
      if !intreq.ime {
        intreq := ei(intreq, cc);
      }
    }

    /** `ff_read(p, cc)`: registers 0x80-0xFF of the 0xFF00 page are read straight from `ioamhram_`. */
    function FfRead(p: Word): (r: Access)
      reads this, ioamhram
      requires ioamhram.Length == 0x200 && p < 0x100
      ensures r == Slow <==> p < 0x80
      ensures r.Fast? ==> r.value == ioamhram[0x100 + p]
    {
      if p < 0x80 then Slow else Fast(ioamhram[p + 0x100])
    }

    /**
     * `ff_write(p, data, cc)`: the unsigned test `p - 0x80 < 0x7F` stores
     * registers 0x80-0xFE directly (truncated to a byte) and hands every
     * other `p`, 0xFF included, to the slow path.
     */
    method FfWrite(p: Word, data: Word) returns (direct: bool)
      requires ioamhram.Length == 0x200
      modifies ioamhram
      ensures direct <==> 0x80 <= p <= 0xFE
      ensures direct ==> ioamhram[..] == old(ioamhram[..])[0x100 + p := data % 0x100]
      ensures !direct ==> ioamhram[..] == old(ioamhram[..])
      ensures old(Valid()) ==> Valid()
    {
      if Sub(p, 0x80) < 0x7F {
        ioamhram[p + 0x100] := data % 0x100;
        direct := true;
      } else {
        direct := false;
      }
    }

    /**
     * `read(p, cc)`: through a non-null window the byte at window + `p`,
     * which lies inside the arena; a null window hands off to the slow path.
     */
    function Read(p: Word): (r: Access)
      reads this, cart, cart.rmem, cart.wmem, cart.arena
      requires Valid() && p < 0x10000
      ensures r == Slow <==> Resolve(cart.rmem[..], p) == None
      ensures r.Fast? ==>
        var a := Resolve(cart.rmem[..], p).value;
        0 <= a < cart.arena.Length && r.value == cart.arena[a]
    {
      ReadyWindowsInArena(cart);
      match cart.rmem[p / 0x1000]
      case None => Slow
      case Some(base) => Fast(cart.arena[base + p])
    }

    /**
     * `write(p, data, cc)`: through a non-null window store the low byte of
     * `data` at window + `p`, changing no other byte; a null window hands off
     * to the slow path.  Reads of disabled cartridge RAM still see 0xFF after
     * any write.
     */
    method Write(p: Word, data: Word) returns (direct: bool)
      requires Valid() && p < 0x10000
      modifies cart.arena
      ensures Valid()
      ensures direct <==> Resolve(cart.wmem[..], p) != None
      ensures direct ==> cart.arena[..] == old(cart.arena[..])[Resolve(cart.wmem[..], p).value := data % 0x100]
      ensures !direct ==> cart.arena[..] == old(cart.arena[..])
      ensures direct && cart.rmem[p / 0x1000] == cart.wmem[p / 0x1000] ==> Read(p) == Fast(data % 0x100)
    {
      ReadyWindowsInArena(cart);
      WritesSpareReadSentinel(cart.geometry, cart.sel, cart.cgb, cart.oamDmaSrc);
      match cart.wmem[p / 0x1000]
      case None =>
        direct := false;
      case Some(base) =>
        assert p / 0x1000 * 0x1000 <= p < p / 0x1000 * 0x1000 + 0x1000;
        cart.arena[base + p] := data % 0x100;
        direct := true;
    }
  }

  // ---------------------------------------------------------------------------
  // End to end: the bus reads what the bank switches selected.

  /** 0x0000 + k reads byte k of ROM bank `setRombank0` selected, unless OAM DMA contends it. */
  lemma ReadFixedRom(m: Memory, k: nat)
    requires m.Valid() && k < 0x4000
    requires !ReadBlocked(m.cart.cgb, m.cart.oamDmaSrc, 0)
    ensures m.Read(k) == Fast(m.cart.arena[RomData + m.cart.sel.rom0 * 0x4000 + k])
  {
    FixedRomResolves(m.cart.geometry, m.cart.sel, m.cart.cgb, m.cart.oamDmaSrc, k);
  }

  /**
   * 0x4000 + k reads byte k of the ROM bank `setRombank` selected (bank 0
   * included), unless OAM DMA contends it.
   */
  lemma ReadSwitchableRom(m: Memory, k: nat)
    requires m.Valid() && k < 0x4000
    requires !ReadBlocked(m.cart.cgb, m.cart.oamDmaSrc, 4)
    ensures m.Read(0x4000 + k) == Fast(m.cart.arena[RomData + m.cart.sel.rom1 * 0x4000 + k])
  {
    SwitchableRomResolves(m.cart.geometry, m.cart.sel, m.cart.cgb, m.cart.oamDmaSrc, k);
  }

  /** 0xC000 + k and its echo 0xE000 + k read the same byte of WRAM bank 0. */
  lemma ReadEchoWram(m: Memory, k: nat)
    requires m.Valid() && k < 0x1000
    requires !ReadBlocked(m.cart.cgb, m.cart.oamDmaSrc, 0xC) && !WriteBlocked(m.cart.cgb, m.cart.oamDmaSrc, 0xC)
    ensures m.Read(0xC000 + k) == m.Read(0xE000 + k) == Fast(m.cart.arena[WramData(m.cart.geometry) + k])
  {
    EchoResolvesToWram0(m.cart.geometry, m.cart.sel, m.cart.cgb, m.cart.oamDmaSrc, k);
  }

  /** 0xD000 + k reads byte k of WRAM bank `max(bank & 7, 1)`. */
  lemma ReadSwitchableWram(m: Memory, k: nat)
    requires m.Valid() && k < 0x1000
    requires !ReadBlocked(m.cart.cgb, m.cart.oamDmaSrc, 0xD) && !WriteBlocked(m.cart.cgb, m.cart.oamDmaSrc, 0xD)
    ensures m.Read(0xD000 + k) == Fast(m.cart.arena[WramData(m.cart.geometry) + WramBankIndex(m.cart.sel.wram) * 0x1000 + k])
  {
    SwitchableWramResolves(m.cart.geometry, m.cart.sel, m.cart.cgb, m.cart.oamDmaSrc, k);
  }

  /**
   * With READ_EN clear, or on a cartridge without RAM and RTC_EN clear,
   * every read of 0xA000-0xBFFF yields 0xFF, whatever was written before.
   */
  lemma ReadDisabledSram(m: Memory, k: nat)
    requires m.Valid() && k < 0x2000
    requires !ReadBlocked(m.cart.cgb, m.cart.oamDmaSrc, 0xA) && !WriteBlocked(m.cart.cgb, m.cart.oamDmaSrc, 0xA)
    requires !m.cart.sel.flags.readEn || (m.cart.geometry.ramBanks == 0 && !m.cart.sel.flags.rtcEn)
    ensures m.Read(0xA000 + k) == Fast(0xFF)
  {
    SramWindows(m.cart.geometry, m.cart.sel, m.cart.cgb, m.cart.oamDmaSrc, k);
  }
}
