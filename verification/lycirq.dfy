/**
 * The line-compare event of the LCD (`LycIrq` in video/lyc_irq.cpp): a
 * scheduled video event that raises the LCD STAT interrupt (bit 1 of the
 * interrupt-flag register) once per frame when the line counter reaches
 * the programmed LYC line, and the arithmetic that finds the cycle at
 * which it next fires.
 *
 * Cycle counts are 32-bit `unsigned long` values and wrap around; `frameTime`
 * (the cycles in one frame) is a positive constant fixed at construction.
 */
module LineCompare {
  import opened Words

  /** The interrupt-flag register `IF` that `LycIrq` holds by reference. */
  class FlagRegister {
    var value: bv8

    constructor (value: bv8)
      ensures this.value == value
    {
      this.value := value;
    }
  }

  /** Bit 1 of `IF`: the LCD STAT interrupt. */
  const StatBit: bv8 := 0x2

  /**
   * The part of `LyCounter` the scheduler reads: the cycle at which the
   * current line ends, the current line, and whether the CPU runs at double
   * speed.
   */
  datatype LyCounter = LyCounter(time: Word, ly: Word, doubleSpeed: bool)

  /** The cycles in one scan line. */
  const LineCycles: nat := 456

  /** The last line of a frame. */
  const LastLine: nat := 153

  /** Whether `doEvent` raises the interrupt: M2 interrupts off, or LYC outside 1..143. */
  predicate Raises(m2IrqEnabled: bool, lycReg: Byte) {
    !m2IrqEnabled || lycReg > 143 || lycReg == 0
  }

  /** `IF` after `doEvent`: bit 1 set exactly when the event raises, every other bit kept. */
  function EventFlags(f: bv8, m2IrqEnabled: bool, lycReg: Byte): (r: bv8)
    ensures (r & StatBit != 0) <==> (Raises(m2IrqEnabled, lycReg) || f & StatBit != 0)
    ensures r & !StatBit == f & !StatBit
    ensures r & f == f
    ensures !Raises(m2IrqEnabled, lycReg) ==> r == f
  {
    if Raises(m2IrqEnabled, lycReg) then f | StatBit else f
  }

  /** The cycles from the end of line `ly` to the target line, before the double-speed shift. */
  function TargetSpan(ly: Word, lycReg: Byte): Word {
    Add(Mul(Sub(LastLine, ly), LineCycles), if lycReg != 0 then Mul(lycReg, LineCycles) else LastLine * LineCycles + 8)
  }

  /**
   * The trigger cycle `schedule` computes before its frame correction:
   * `lyCounter.time()` plus the whole span shifted by the speed, less one.
   */
  function TriggerTime(lyc: LyCounter, lycReg: Byte): Word {
    Sub(Add(lyc.time, Shl(TargetSpan(lyc.ly, lycReg), lyc.doubleSpeed)), 1)
  }

  /**
   * Without wrap-around, the trigger lies one cycle before `lyc.time` plus
   * the lines to the end of the frame and then `lycReg` more lines (line
   * 153 and 8 cycles for LYC 0), all doubled in double speed.
   */
  lemma TriggerTimeValue(lyc: LyCounter, lycReg: Byte)
    requires lyc.ly <= LastLine
    requires lyc.time + 2 * (LastLine + 255) * LineCycles < Modulus
    ensures var lines := if lycReg != 0 then LastLine - lyc.ly + lycReg else 2 * LastLine - lyc.ly;
            var span := lines * LineCycles + (if lycReg != 0 then 0 else 8);
            TriggerTime(lyc, lycReg) == lyc.time + (if lyc.doubleSpeed then 2 * span else span) - 1
  {
    assert Mul(Sub(LastLine, lyc.ly), LineCycles) == (LastLine - lyc.ly) * LineCycles;
    assert Mul(lycReg, LineCycles) == lycReg * LineCycles;
    var span := TargetSpan(lyc.ly, lycReg);
    assert span == (LastLine - lyc.ly) * LineCycles + (if lycReg != 0 then lycReg * LineCycles else LastLine * LineCycles + 8);
    assert Shl(span, lyc.doubleSpeed) == (if lyc.doubleSpeed then 2 * span else span);
  }

  /** Each LYC line later in the frame triggers one line (456 cycles, doubled at double speed) later. */
  lemma TriggerOneLineLater(lyc: LyCounter, lycReg: Byte)
    requires lyc.ly <= LastLine && 0 < lycReg < 255
    requires lyc.time + 2 * (LastLine + 255) * LineCycles < Modulus
    ensures TriggerTime(lyc, lycReg + 1) == TriggerTime(lyc, lycReg) + (if lyc.doubleSpeed then 2 * LineCycles else LineCycles)
  {
    TriggerTimeValue(lyc, lycReg);
    TriggerTimeValue(lyc, lycReg + 1);
  }

  /** LYC 0 triggers 8 cycles (16 at double speed) after where LYC 153 would. */
  lemma TriggerLycZero(lyc: LyCounter)
    requires lyc.ly <= LastLine
    requires lyc.time + 2 * (LastLine + 255) * LineCycles < Modulus
    ensures TriggerTime(lyc, 0) == TriggerTime(lyc, LastLine) + (if lyc.doubleSpeed then 16 else 8)
  {
    TriggerTimeValue(lyc, 0);
    TriggerTimeValue(lyc, LastLine);
  }

  /**
   * `schedule`: the trigger, moved one frame earlier when it lies more than
   * a frame after `cc` (in wrapping arithmetic).
   */
  function ScheduledTime(lyc: LyCounter, lycReg: Byte, cc: Word, frameTime: Word): (t: Word)
    requires frameTime > 0
    ensures t == TriggerTime(lyc, lycReg) || Add(t, frameTime) == TriggerTime(lyc, lycReg)
    ensures t != TriggerTime(lyc, lycReg) <==> Sub(TriggerTime(lyc, lycReg), cc) > frameTime
  {
    var next := TriggerTime(lyc, lycReg);
    if Sub(next, cc) > frameTime then Sub(next, frameTime) else next
  }

  /**
   * A trigger at most two frames after `cc` is scheduled at most one frame
   * after `cc`, and never before it.
   */
  lemma ScheduledWithinFrame(lyc: LyCounter, lycReg: Byte, cc: Word, frameTime: Word)
    requires frameTime > 0
    requires Sub(TriggerTime(lyc, lycReg), cc) <= 2 * frameTime
    ensures Sub(ScheduledTime(lyc, lycReg, cc, frameTime), cc) <= frameTime
    ensures Sub(ScheduledTime(lyc, lycReg, cc, frameTime), cc) == Sub(TriggerTime(lyc, lycReg), cc)
         || Sub(ScheduledTime(lyc, lycReg, cc, frameTime), cc) == Sub(TriggerTime(lyc, lycReg), cc) - frameTime
  {
    var next := TriggerTime(lyc, lycReg);
    if Sub(next, cc) > frameTime {
      SubSub(next, frameTime, cc);
    }
  }

  /** Subtracting a smaller gap first: (a - b) - c == (a - c) - b when b <= (a - c) mod 2^32. */
  lemma SubSub(a: Word, b: Word, c: Word)
    requires b <= Sub(a, c)
    ensures Sub(Sub(a, b), c) == Sub(a, c) - b
  {
  }

  /**
   * `lycRegSchedule`: `schedule`, then one frame later when LYC is non-zero
   * and the new time lies strictly between `4 >> ds` and 8 cycles after `cc`.
   */
  function RegScheduledTime(lyc: LyCounter, lycReg: Byte, cc: Word, frameTime: Word): (t: Word)
    requires frameTime > 0
    ensures var s := ScheduledTime(lyc, lycReg, cc, frameTime);
            && (t == s || t == Add(s, frameTime))
            && (t != s <==> lycReg > 0 && Shr(4, lyc.doubleSpeed) < Sub(s, cc) < 8)
  {
    var s := ScheduledTime(lyc, lycReg, cc, frameTime);
    if lycReg > 0 && Sub(s, cc) > Shr(4, lyc.doubleSpeed) && Sub(s, cc) < 8 then Add(s, frameTime) else s
  }

  /** With LYC 0, `lycRegSchedule` is plain `schedule`. */
  lemma RegScheduleLycZero(lyc: LyCounter, cc: Word, frameTime: Word)
    requires frameTime > 0
    ensures RegScheduledTime(lyc, 0, cc, frameTime) == ScheduledTime(lyc, 0, cc, frameTime)
  {
  }

  class LycIrq {
    /** The `IF` register the event raises into, shared with the rest of the machine. */
    const ifReg: FlagRegister
    /** The cycles in one frame. */
    const frameTime: Word
    /** `time()`: the cycle of the next event, or `disabled_time`. */
    var time: Word
    /** `lycReg_`. */
    var lycReg: Byte
    var m2IrqEnabled: bool
    /**
     * The speed the constructor's `setDoubleSpeed(false)` records; the
     * scheduling methods read the speed from their `LyCounter` argument.
     */
    var doubleSpeed: bool

    /**
     * `LycIrq(ifReg)`: single speed, M2 interrupts off, LYC 0, and (after
     * `reset`) no event pending.
     */
    constructor (ifReg: FlagRegister, frameTime: Word)
      requires frameTime > 0
      ensures this.ifReg == ifReg && this.frameTime == frameTime
      ensures !doubleSpeed && !m2IrqEnabled && lycReg == 0
      ensures time == DisabledTime
    {
      this.ifReg := ifReg;
      this.frameTime := frameTime;
      doubleSpeed := false;
      m2IrqEnabled := false;
      lycReg := 0;
      time := DisabledTime;
    }

    /** `doEvent()`: raise the STAT interrupt unless suppressed, and fire again one frame later. */
    method DoEvent()
      modifies this`time, ifReg
      ensures ifReg.value == EventFlags(old(ifReg.value), m2IrqEnabled, lycReg)
      ensures time == Add(old(time), frameTime)
    {
      if !m2IrqEnabled || lycReg > 143 || lycReg == 0 {
        ifReg.value := ifReg.value | StatBit;
      }
      time := Add(time, frameTime);
    }

    /** `schedule(lyCounter, cc)`. */
    method Schedule(lyc: LyCounter, cc: Word)
      requires frameTime > 0
      modifies this`time
      ensures time == ScheduledTime(lyc, lycReg, cc, frameTime)
    {
      var next := Sub(Add(lyc.time, Shl(Add(Mul(Sub(LastLine, lyc.ly), LineCycles),
                                           if lycReg != 0 then Mul(lycReg, LineCycles) else LastLine * LineCycles + 8),
                                       lyc.doubleSpeed)), 1);
      if Sub(next, cc) > frameTime {
        next := Sub(next, frameTime);
      }
      time := next;
    }

    /** `lycRegSchedule(lyCounter, cc)`. */
    method LycRegSchedule(lyc: LyCounter, cc: Word)
      requires frameTime > 0
      modifies this`time
      ensures time == RegScheduledTime(lyc, lycReg, cc, frameTime)
    {
      Schedule(lyc, cc);
      if lycReg > 0 && Sub(time, cc) > Shr(4, lyc.doubleSpeed) && Sub(time, cc) < 8 {
        time := Add(time, frameTime);
      }
    }
  }
}
