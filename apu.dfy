/** The first pulse channel of the APU and the frame sequencer that clocks
    its length counter. The channel's registers are written at $4000-$4003,
    the channel is enabled through $4015 and the sequencer is set up
    through $4017. */
module Apu {
  import opened Word

  /** Length counter load values, indexed by bits 3-7 of a $4003 write. */
  const LengthTable: seq<nat> := [
    10, 254, 20, 2, 40, 4, 80, 6, 160, 8, 60, 10, 14, 12, 26, 14,
    12, 16, 24, 18, 48, 20, 96, 22, 192, 24, 72, 26, 16, 28, 32, 30]

  /** The four duty waveforms, eight steps each: 12.5%, 25%, 50% and 25%
      negated. */
  const DutyTable: seq<seq<nat>> := [
    [0, 1, 0, 0, 0, 0, 0, 0],
    [0, 1, 1, 0, 0, 0, 0, 0],
    [0, 1, 1, 1, 1, 0, 0, 0],
    [1, 0, 0, 1, 1, 1, 1, 1]]

  /** The fields of a pulse channel. The fields decoded bit by bit from a
      register write are bytes; the timer (a `uint16`) and the counters,
      which are counted up and down, are numbers, and the masks the source
      applies to the timer are written as the arithmetic they amount to. */
  datatype Pulse = Pulse(
    enabled: bool,
    dutyCycle: nat, lengthCounterHalt: bool, constantVolume: bool, volume: nat,
    sweepEnabled: bool, sweepPeriod: nat, sweepNegate: bool, sweepShift: nat,
    timer: nat, lengthCounter: nat,
    timerCounter: nat, dutySequencer: nat, sweepReloadFlag: bool, sweepCounter: nat)

  /** A channel as it is created: every field zero or false. */
  const PulseZero := Pulse(false, 0, false, false, 0, false, 0, false, 0, 0, 0, 0, 0, false, 0)

  /** The ranges the register decoding leaves the fields in: an 11-bit timer
      and its counter, a 2-bit duty, a 4-bit volume, 3-bit sweep fields and
      a sequencer step below 8. */
  predicate PulseValid(p: Pulse) {
    && p.dutyCycle < 4 && p.volume <= 15 && p.sweepPeriod < 8 && p.sweepShift < 8
    && p.timer < 0x800 && p.timerCounter < 0x800 && p.dutySequencer < 8 && p.lengthCounter < 256
  }

  /** `PulseChannel.cpuWrite`: one case per register. */
  function PulseWrite(p: Pulse, addr: Addr, data: bv8): Pulse {
    if addr == 0x4000 then ControlWrite(p, data)
    else if addr == 0x4001 then SweepWrite(p, data)
    else if addr == 0x4002 then TimerLowWrite(p, data)
    else if addr == 0x4003 then TimerHighWrite(p, data)
    else p
  }

  function ControlWrite(p: Pulse, data: bv8): Pulse {
    p.(dutyCycle := ((data >> 6) & 0x03) as nat, lengthCounterHalt := (data >> 5) & 1 == 1,
       constantVolume := (data >> 4) & 1 == 1, volume := (data & 0x0F) as nat)
  }

  function SweepWrite(p: Pulse, data: bv8): Pulse {
    p.(sweepEnabled := (data >> 7) & 1 == 1, sweepPeriod := ((data >> 4) & 0x07) as nat,
       sweepNegate := (data >> 3) & 1 == 1, sweepShift := (data & 0x07) as nat, sweepReloadFlag := true)
  }

  function TimerLowWrite(p: Pulse, data: bv8): Pulse {
    p.(timer := p.timer / 0x100 * 0x100 + data as int)
  }

  function TimerHighWrite(p: Pulse, data: bv8): Pulse {
    p.(timer := p.timer % 0x100 + (data & 0x07) as int * 0x100,
       lengthCounter := LengthTable[((data >> 3) & 0x1F) as int], dutySequencer := 0)
  }

  /** $4000 splits the byte into duty, halt, constant-volume flag and volume,
      which put back together give the byte again; nothing else changes. */
  lemma WriteControl(p: Pulse, data: bv8)
    ensures var r := ControlWrite(p, data);
      && r.dutyCycle < 4 && r.volume <= 15
      && (r.dutyCycle as bv8 << 6) | (if r.lengthCounterHalt then 0x20 else 0)
           | (if r.constantVolume then 0x10 else 0) | r.volume as bv8 == data
      && r.(dutyCycle := 0, lengthCounterHalt := false, constantVolume := false, volume := 0)
         == p.(dutyCycle := 0, lengthCounterHalt := false, constantVolume := false, volume := 0)
    ensures PulseValid(p) ==> PulseValid(ControlWrite(p, data))
  {
  }

  /** $4001 splits the byte into the sweep's enable, period, negate flag and
      shift, which put back together give the byte again, and sets the
      reload flag; nothing else changes. */
  lemma WriteSweep(p: Pulse, data: bv8)
    ensures var r := SweepWrite(p, data);
      && r.sweepPeriod < 8 && r.sweepShift < 8 && r.sweepReloadFlag
      && (if r.sweepEnabled then 0x80 else 0) | (r.sweepPeriod as bv8 << 4)
           | (if r.sweepNegate then 0x08 else 0) | r.sweepShift as bv8 == data
      && r.(sweepEnabled := false, sweepPeriod := 0, sweepNegate := false, sweepShift := 0, sweepReloadFlag := false)
         == p.(sweepEnabled := false, sweepPeriod := 0, sweepNegate := false, sweepShift := 0, sweepReloadFlag := false)
    ensures PulseValid(p) ==> PulseValid(SweepWrite(p, data))
  {
  }

  /** $4002 replaces the timer's low byte and keeps its high bits, so the
      timer stays below $800. */
  lemma WriteTimerLow(p: Pulse, data: bv8)
    ensures var r := TimerLowWrite(p, data);
      && r.timer % 0x100 == data as int && r.timer / 0x100 == p.timer / 0x100
      && (p.timer < 0x800 ==> r.timer < 0x800)
      && r.(timer := 0) == p.(timer := 0)
    ensures PulseValid(p) ==> PulseValid(TimerLowWrite(p, data))
  {
  }

  /** $4003 sets timer bits 8-10 from the low three data bits and keeps the
      low byte, loads the length counter from the table entry of bits 3-7
      and restarts the duty sequence. */
  lemma WriteTimerHigh(p: Pulse, data: bv8)
    ensures var r := TimerHighWrite(p, data);
      && r.timer % 0x100 == p.timer % 0x100 && r.timer / 0x100 == (data & 0x07) as int
      && r.timer < 0x800
      && r.lengthCounter == LengthTable[(data >> 3) as int] && r.dutySequencer == 0
      && r.(timer := 0, lengthCounter := 0, dutySequencer := 0) == p.(timer := 0, lengthCounter := 0, dutySequencer := 0)
    ensures PulseValid(p) ==> PulseValid(TimerHighWrite(p, data))
  {
    assert LengthTable[((data >> 3) & 0x1F) as int] < 256;
  }

  /** Addresses other than $4000-$4003 are not the channel's. */
  lemma WriteElsewhere(p: Pulse, addr: Addr, data: bv8)
    requires addr < 0x4000 || addr > 0x4003
    ensures PulseWrite(p, addr, data) == p
  {
  }

  /** Register writes keep a channel in its ranges. */
  lemma WriteValid(p: Pulse, addr: Addr, data: bv8)
    requires PulseValid(p)
    ensures PulseValid(PulseWrite(p, addr, data))
  {
    if addr == 0x4000 {
      WriteControl(p, data);
    } else if addr == 0x4001 {
      WriteSweep(p, data);
    } else if addr == 0x4002 {
      WriteTimerLow(p, data);
    } else if addr == 0x4003 {
      WriteTimerHigh(p, data);
    }
  }

  /** `PulseChannel.Clock`: the timer counts down to 0, then reloads from the
      timer and the duty sequencer advances one step. */
  function PulseClock(p: Pulse): Pulse {
    if p.timerCounter > 0 then p.(timerCounter := p.timerCounter - 1)
    else p.(timerCounter := p.timer, dutySequencer := (p.dutySequencer + 1) % 8)
  }

  /** `n` timer clocks. */
  function PulseClocks(p: Pulse, n: nat): Pulse
    decreases n
  {
    if n == 0 then p else PulseClocks(PulseClock(p), n - 1)
  }

  /** A timer clock changes only the timer counter and the sequencer step,
      and keeps them in range. */
  lemma ClockValid(p: Pulse)
    requires PulseValid(p)
    ensures PulseValid(PulseClock(p))
    ensures PulseClock(p).(timerCounter := 0, dutySequencer := 0) == p.(timerCounter := 0, dutySequencer := 0)
  {
    if p.timerCounter > 0 {
      assert PulseClock(p) == p.(timerCounter := p.timerCounter - 1);
    } else {
      assert PulseClock(p) == p.(timerCounter := p.timer, dutySequencer := (p.dutySequencer + 1) % 8);
    }
  }

  /** The counter runs down without moving the sequencer: after as many
      clocks as the counter holds it is 0 and nothing else has changed. */
  lemma {:induction false} CountDown(p: Pulse)
    ensures PulseClocks(p, p.timerCounter) == p.(timerCounter := 0)
    decreases p.timerCounter
  {
    if p.timerCounter > 0 {
      var q := PulseClock(p);
      assert q == p.(timerCounter := p.timerCounter - 1);
      CountDown(q);
      assert q.(timerCounter := 0) == p.(timerCounter := 0);
    }
  }

  /** The sequencer period: from a counter at 0 the next step comes after
      `timer + 1` clocks, with the counter back at 0. */
  lemma {:induction false} StepPeriod(p: Pulse)
    requires PulseValid(p) && p.timerCounter == 0
    ensures PulseClocks(p, p.timer + 1)
      == p.(dutySequencer := (p.dutySequencer + 1) % 8)
  {
    var q := PulseClock(p);
    assert q == p.(timerCounter := p.timer, dutySequencer := (p.dutySequencer + 1) % 8);
    CountDown(q);
  }

  /** `PulseChannel.clockLength`: the length counter counts down unless it is
      halted or already 0. */
  function LengthClock(p: Pulse): Pulse {
    if !p.lengthCounterHalt && p.lengthCounter > 0 then p.(lengthCounter := p.lengthCounter - 1)
    else p
  }

  /** `n` length clocks. */
  function LengthClocks(p: Pulse, n: nat): Pulse
    decreases n
  {
    if n == 0 then p else LengthClocks(LengthClock(p), n - 1)
  }

  /** Only the length counter changes, it never wraps below 0, and once 0 it
      stays 0. */
  lemma ClockLengthNoUnderflow(p: Pulse)
    ensures var r := LengthClock(p);
      && r.(lengthCounter := 0) == p.(lengthCounter := 0)
      && r.lengthCounter <= p.lengthCounter
      && (p.lengthCounter == 0 ==> r.lengthCounter == 0)
      && (r.lengthCounter < p.lengthCounter ==> r.lengthCounter == p.lengthCounter - 1)
  {
  }

  lemma LengthClockValid(p: Pulse)
    requires PulseValid(p)
    ensures PulseValid(LengthClock(p))
  {
    if !p.lengthCounterHalt && p.lengthCounter > 0 {
      assert LengthClock(p) == p.(lengthCounter := p.lengthCounter - 1);
    }
  }

  /** Length clocks change nothing but the length counter. */
  lemma {:induction false} LengthClocksKeep(p: Pulse, n: nat)
    ensures LengthClocks(p, n).(lengthCounter := 0) == p.(lengthCounter := 0)
    decreases n
  {
    if n > 0 {
      var q := LengthClock(p);
      LengthClocksKeep(q, n - 1);
      ClockLengthNoUnderflow(p);
    }
  }

  /** Halted, length clocks leave the channel alone. */
  lemma {:induction false} HaltedLength(p: Pulse, n: nat)
    requires p.lengthCounterHalt
    ensures LengthClocks(p, n) == p
    decreases n
  {
    if n > 0 {
      assert LengthClock(p) == p;
      HaltedLength(p, n - 1);
    }
  }

  /** Unhalted, `n` length clocks take the counter to `lengthCounter - n`,
      stopping at 0. */
  lemma {:induction false} LengthCountdown(p: Pulse, n: nat)
    requires !p.lengthCounterHalt
    ensures n <= p.lengthCounter ==> LengthClocks(p, n).lengthCounter == p.lengthCounter - n
    ensures n >= p.lengthCounter ==> LengthClocks(p, n).lengthCounter == 0
    decreases n
  {
    if n > 0 {
      var q := LengthClock(p);
      LengthCountdown(q, n - 1);
      assert LengthClocks(p, n) == LengthClocks(q, n - 1);
      assert !q.lengthCounterHalt;
      if p.lengthCounter == 0 {
        assert q.lengthCounter == 0;
      } else {
        assert q.lengthCounter == p.lengthCounter - 1;
      }
    }
  }

  /** `PulseChannel.SetEnabled`: disabling also clears the length counter. */
  function Enable(p: Pulse, enabled: bool): Pulse {
    if enabled then p.(enabled := true) else p.(enabled := false, lengthCounter := 0)
  }

  lemma EnableValid(p: Pulse, enabled: bool)
    requires PulseValid(p)
    ensures PulseValid(Enable(p, enabled))
  {
    if enabled {
      assert Enable(p, enabled) == p.(enabled := true);
    } else {
      assert Enable(p, enabled) == p.(enabled := false, lengthCounter := 0);
    }
  }

  /** `PulseChannel.output`: the volume when the channel is enabled, its
      length counter is running, its timer is at least 8 and the duty
      waveform is high at the current step; 0 otherwise. */
  function PulseOutput(p: Pulse): nat
    requires p.dutyCycle < 4 && p.dutySequencer < 8
  {
    if !p.enabled then 0
    else if p.lengthCounter == 0 then 0
    else if p.timer < 8 then 0
    else if DutyTable[p.dutyCycle][p.dutySequencer] == 0 then 0
    else p.volume
  }

  /** The output is silence or the volume, at most 15, and it is sound
      exactly when all four conditions hold and the volume is not 0. */
  lemma OutputSilentOrVolume(p: Pulse)
    requires PulseValid(p)
    ensures PulseOutput(p) == 0 || PulseOutput(p) == p.volume
    ensures PulseOutput(p) <= 15
    ensures PulseOutput(p) != 0 <==>
      p.enabled && p.lengthCounter != 0 && p.timer >= 8
        && DutyTable[p.dutyCycle][p.dutySequencer] == 1 && p.volume != 0
  {
  }

  /** A disabled channel is silent, and stays silent through length clocks
      and timer clocks. */
  lemma DisabledIsSilent(p: Pulse)
    requires PulseValid(p)
    ensures var d := Enable(p, false);
      && d.lengthCounter == 0 && PulseOutput(d) == 0
      && PulseValid(LengthClock(d)) && PulseOutput(LengthClock(d)) == 0
      && PulseValid(PulseClock(d)) && PulseOutput(PulseClock(d)) == 0
  {
    var d := Enable(p, false);
    assert d == p.(enabled := false, lengthCounter := 0);
    assert LengthClock(d) == d;
    ClockValid(d);
    assert !PulseClock(d).enabled;
  }

  // The frame sequencer

  /** The half-rate ticks of one sequence: 14915 in 4-step mode (0), 18641
      in 5-step mode. */
  function Period(mode: bv8): nat {
    if mode == 0 then 14915 else 18641
  }

  /** One half-rate tick of the frame counter (the part of `APU.Clock` run on
      even cycles): the counter, and whether the length counters are
      clocked, which happens at 7457 and at the end of the sequence, where
      the counter restarts from 0. */
  function FrameTick(mode: bv8, counter: nat): (nat, bool) {
    var c := counter + 1;
    if mode == 0 then
      (if c == 14915 then 0 else c, c == 7457 || c == 14915)
    else
      (if c == 18641 then 0 else c, c == 7457 || c == 18641)
  }

  /** The counter stays below the period; it restarts from 0 exactly on the
      last tick of the sequence. */
  lemma FrameTickBounds(mode: bv8, counter: nat)
    requires counter < Period(mode)
    ensures FrameTick(mode, counter).0 < Period(mode)
    ensures FrameTick(mode, counter).0 == 0 <==> counter + 1 == Period(mode)
    ensures FrameTick(mode, counter).0 != 0 ==> FrameTick(mode, counter).0 == counter + 1
    ensures FrameTick(mode, counter).1 <==> counter + 1 == 7457 || counter + 1 == Period(mode)
  {
  }

  /** `n` ticks from counter `counter`: the counter and the number of length
      clocks. */
  function FrameTicks(mode: bv8, counter: nat, n: nat): (nat, nat)
    decreases n
  {
    if n == 0 then (counter, 0)
    else
      var t := FrameTick(mode, counter);
      var rest := FrameTicks(mode, t.0, n - 1);
      (rest.0, rest.1 + if t.1 then 1 else 0)
  }

  /** Within a sequence the counter counts the ticks, with one length clock
      once it has passed 7457. */
  lemma {:induction false} FrameTicksWithin(mode: bv8, counter: nat, n: nat)
    requires counter + n < Period(mode)
    ensures FrameTicks(mode, counter, n).0 == counter + n
    ensures FrameTicks(mode, counter, n).1 == if counter < 7457 <= counter + n then 1 else 0
    decreases n
  {
    if n > 0 {
      FrameTicksWithin(mode, counter + 1, n - 1);
    }
  }

  /** A whole sequence from 0 takes exactly `Period(mode)` ticks, back to 0,
      and clocks the length counters twice. */
  lemma FrameSequence(mode: bv8)
    ensures FrameTicks(mode, 0, Period(mode)) == (0, 2)
  {
    var p := Period(mode);
    FrameTicksWithin(mode, 0, p - 1);
    FrameTicksSplit(mode, 0, p - 1, 1);
  }

  /** `m + n` ticks are `m` ticks followed by `n`. */
  lemma {:induction false} FrameTicksSplit(mode: bv8, counter: nat, m: nat, n: nat)
    ensures var a := FrameTicks(mode, counter, m);
      var b := FrameTicks(mode, a.0, n);
      FrameTicks(mode, counter, m + n) == (b.0, a.1 + b.1)
    decreases m
  {
    if m > 0 {
      var t := FrameTick(mode, counter);
      FrameTicksSplit(mode, t.0, m - 1, n);
      assert m + n - 1 == (m - 1) + n;
    }
  }

  /** The APU's state apart from the sampling fields: the channel, the cycle
      count, the frame counter, the sequencer mode and the IRQ inhibit flag. */
  datatype ApuState = ApuState(pulse: Pulse, cycle: nat, frameCounter: nat,
                               sequenceMode: bv8, irqInhibit: bool)

  predicate ApuValid(s: ApuState) {
    PulseValid(s.pulse) && s.sequenceMode <= 1 && s.frameCounter < Period(s.sequenceMode)
  }

  /** `APU.Clock`: the channel's timer every cycle, the frame counter on even
      cycles (a length clock after the timer clock where the tick asks for
      it). */
  function ApuClock(s: ApuState): ApuState {
    var q := PulseClock(s.pulse);
    if s.cycle % 2 == 0 then
      var t := FrameTick(s.sequenceMode, s.frameCounter);
      s.(pulse := if t.1 then LengthClock(q) else q, frameCounter := t.0, cycle := s.cycle + 1)
    else
      s.(pulse := q, cycle := s.cycle + 1)
  }

  /** `APU.CPUWrite`: $4000-$4003 go to the channel, bit 0 of $4015 enables
      it, and $4017 sets the mode from bit 7 and the inhibit flag from bit 6,
      restarts the frame counter and, in 5-step mode, clocks the length
      counter at once. */
  function ApuWrite(s: ApuState, addr: Addr, data: bv8): ApuState {
    if 0x4000 <= addr <= 0x4003 then s.(pulse := PulseWrite(s.pulse, addr, data))
    else if addr == 0x4015 then s.(pulse := Enable(s.pulse, data & 0x01 == 1))
    else if addr == 0x4017 then
      var mode := (data >> 7) & 1;
      s.(sequenceMode := mode, irqInhibit := (data >> 6) & 1 == 1, frameCounter := 0,
         pulse := if mode == 1 then LengthClock(s.pulse) else s.pulse)
    else s
  }

  /** Clocking keeps the state in range. */
  lemma ApuClockValid(s: ApuState)
    requires ApuValid(s)
    ensures ApuValid(ApuClock(s))
  {
    ClockValid(s.pulse);
    var q := PulseClock(s.pulse);
    LengthClockValid(q);
    if s.cycle % 2 == 0 {
      var t := FrameTick(s.sequenceMode, s.frameCounter);
      FrameTickBounds(s.sequenceMode, s.frameCounter);
      if t.1 {
        assert ApuClock(s) == s.(pulse := LengthClock(q), frameCounter := t.0, cycle := s.cycle + 1);
      } else {
        assert ApuClock(s) == s.(pulse := q, frameCounter := t.0, cycle := s.cycle + 1);
      }
    } else {
      assert ApuClock(s) == s.(pulse := q, cycle := s.cycle + 1);
    }
  }

  /** Writes keep the state in range. */
  lemma ApuWriteValid(s: ApuState, addr: Addr, data: bv8)
    requires ApuValid(s)
    ensures ApuValid(ApuWrite(s, addr, data))
  {
    if 0x4000 <= addr <= 0x4003 {
      WriteValid(s.pulse, addr, data);
      assert ApuWrite(s, addr, data) == s.(pulse := PulseWrite(s.pulse, addr, data));
    } else if addr == 0x4015 {
      var on := data & 0x01 == 1;
      EnableValid(s.pulse, on);
      assert ApuWrite(s, addr, data) == s.(pulse := Enable(s.pulse, on));
    } else if addr == 0x4017 {
      LengthClockValid(s.pulse);
      var mode := (data >> 7) & 1;
      var q := if mode == 1 then LengthClock(s.pulse) else s.pulse;
      assert ApuWrite(s, addr, data)
        == s.(sequenceMode := mode, irqInhibit := (data >> 6) & 1 == 1, frameCounter := 0, pulse := q);
    }
  }

  /** A $4017 write: mode and inhibit flag from bits 7 and 6, the counter at
      0, and a length clock exactly in 5-step mode; the cycle count is kept. */
  lemma FrameCounterWrite(s: ApuState, data: bv8)
    ensures var r := ApuWrite(s, 0x4017, data);
      && r.frameCounter == 0 && r.cycle == s.cycle
      && (r.sequenceMode == 1 <==> data & 0x80 != 0) && r.sequenceMode <= 1
      && (r.irqInhibit <==> data & 0x40 != 0)
      && r.pulse == if data & 0x80 != 0 then LengthClock(s.pulse) else s.pulse
  {
  }

  /** A $4015 write enables the channel exactly when bit 0 is set and
      otherwise silences it. */
  lemma StatusWrite(s: ApuState, data: bv8)
    requires PulseValid(s.pulse)
    ensures var r := ApuWrite(s, 0x4015, data);
      && (r.pulse.enabled <==> data & 0x01 == 1)
      && (data & 0x01 == 0 ==> r.pulse.lengthCounter == 0 && PulseOutput(r.pulse) == 0)
      && r.frameCounter == s.frameCounter && r.sequenceMode == s.sequenceMode
  {
  }

  /** `PulseChannel`: the channel's fields, changed in place by register
      writes and clocks. */
  class PulseChannel {
    var enabled: bool
    var dutyCycle: nat
    var lengthCounterHalt: bool
    var constantVolume: bool
    var volume: nat
    var sweepEnabled: bool
    var sweepPeriod: nat
    var sweepNegate: bool
    var sweepShift: nat
    var timer: nat
    var lengthCounter: nat
    var timerCounter: nat
    var dutySequencer: nat
    var sweepReloadFlag: bool
    var sweepCounter: nat

    function State(): Pulse
      reads this
    {
      Pulse(enabled, dutyCycle, lengthCounterHalt, constantVolume, volume,
            sweepEnabled, sweepPeriod, sweepNegate, sweepShift, timer, lengthCounter,
            timerCounter, dutySequencer, sweepReloadFlag, sweepCounter)
    }

    ghost predicate Valid()
      reads this
    {
      PulseValid(State())
    }

    /** `&PulseChannel{}`. */
    constructor ()
      ensures State() == PulseZero && Valid()
    {
      enabled, dutyCycle, lengthCounterHalt, constantVolume, volume := false, 0, false, false, 0;
      sweepEnabled, sweepPeriod, sweepNegate, sweepShift := false, 0, false, 0;
      timer, lengthCounter, timerCounter, dutySequencer := 0, 0, 0, 0;
      sweepReloadFlag, sweepCounter := false, 0;
    }

    method CpuWrite(addr: Addr, data: bv8)
      modifies this
      ensures State() == PulseWrite(old(State()), addr, data)
    {
      if addr == 0x4000 {
        WriteControlRegister(data);
      } else if addr == 0x4001 {
        WriteSweepRegister(data);
      } else if addr == 0x4002 {
        WriteTimerLowRegister(data);
      } else if addr == 0x4003 {
        WriteTimerHighRegister(data);
      }
    }

    /** The `case 0x4000` arm of `cpuWrite`. */
    method WriteControlRegister(data: bv8)
      modifies this
      ensures State() == ControlWrite(old(State()), data)
    {
      dutyCycle := ((data >> 6) & 0x03) as nat;
      lengthCounterHalt := (data >> 5) & 1 == 1;
      constantVolume := (data >> 4) & 1 == 1;
      volume := (data & 0x0F) as nat;
    }

    /** The `case 0x4001` arm. */
    method WriteSweepRegister(data: bv8)
      modifies this
      ensures State() == SweepWrite(old(State()), data)
    {
      sweepEnabled := (data >> 7) & 1 == 1;
      sweepPeriod := ((data >> 4) & 0x07) as nat;
      sweepNegate := (data >> 3) & 1 == 1;
      sweepShift := (data & 0x07) as nat;
      sweepReloadFlag := true;
    }

    /** The `case 0x4002` arm. */
    method WriteTimerLowRegister(data: bv8)
      modifies this
      ensures State() == TimerLowWrite(old(State()), data)
    {
      timer := timer / 0x100 * 0x100 + data as int;
    }

    /** The `case 0x4003` arm. */
    method WriteTimerHighRegister(data: bv8)
      modifies this
      ensures State() == TimerHighWrite(old(State()), data)
    {
      timer := timer % 0x100 + (data & 0x07) as int * 0x100;
      lengthCounter := LengthTable[((data >> 3) & 0x1F) as int];
      dutySequencer := 0;
    }

    method Clock()
      modifies this
      ensures State() == PulseClock(old(State()))
    {
      if timerCounter > 0 {
        timerCounter := timerCounter - 1;
      } else {
        timerCounter := timer;
        dutySequencer := (dutySequencer + 1) % 8;
      }
    }

    method ClockLength()
      modifies this
      ensures State() == LengthClock(old(State()))
    {
      if !lengthCounterHalt && lengthCounter > 0 {
        lengthCounter := lengthCounter - 1;
      }
    }

    method SetEnabled(enabled': bool)
      modifies this
      ensures State() == Enable(old(State()), enabled')
    {
      enabled := enabled';
      if !enabled' {
        lengthCounter := 0;
      }
    }

    /** `output`: the duty table is indexed by the duty and the sequencer
        step, which `Valid` keeps in range. */
    method Output() returns (o: nat)
      requires Valid()
      ensures o == PulseOutput(State())
    {
      if !enabled {
        return 0;
      }
      if lengthCounter == 0 {
        return 0;
      }
      if timer < 8 {
        return 0;
      }
      if DutyTable[dutyCycle][dutySequencer] == 0 {
        return 0;
      }
      return volume;
    }
  }

  /** `APU`, without the sampling fields. */
  class APU {
    const pulse1: PulseChannel
    var cycle: nat
    var frameCounter: nat
    var sequenceMode: bv8
    var irqInhibit: bool

    function State(): ApuState
      reads this, pulse1
    {
      ApuState(pulse1.State(), cycle, frameCounter, sequenceMode, irqInhibit)
    }

    ghost predicate Valid()
      reads this, pulse1
    {
      ApuValid(State())
    }

    /** `New`. */
    constructor ()
      ensures State() == ApuState(PulseZero, 0, 0, 0, false) && Valid()
      ensures fresh(pulse1)
    {
      pulse1 := new PulseChannel();
      cycle, frameCounter, sequenceMode, irqInhibit := 0, 0, 0, false;
    }

    method Clock()
      modifies this, pulse1
      ensures State() == ApuClock(old(State()))
    {
      pulse1.Clock();
      if cycle % 2 == 0 {
        frameCounter := frameCounter + 1;
        if sequenceMode == 0 {
          if frameCounter == 7457 {
            ClockLengthCountersAndSweeps();
          }
          if frameCounter == 14915 {
            ClockLengthCountersAndSweeps();
            frameCounter := 0;
          }
        } else {
          if frameCounter == 7457 {
            ClockLengthCountersAndSweeps();
          }
          if frameCounter == 18641 {
            ClockLengthCountersAndSweeps();
            frameCounter := 0;
          }
        }
      }
      cycle := cycle + 1;
    }

    method ClockLengthCountersAndSweeps()
      modifies pulse1
      ensures pulse1.State() == LengthClock(old(pulse1.State()))
    {
      pulse1.ClockLength();
    }

    method CPUWrite(addr: Addr, data: bv8)
      modifies this, pulse1
      ensures State() == ApuWrite(old(State()), addr, data)
    {
      if 0x4000 <= addr <= 0x4003 {
        pulse1.CpuWrite(addr, data);
      } else if addr == 0x4015 {
        pulse1.SetEnabled(data & 0x01 == 1);
      } else if addr == 0x4017 {
        sequenceMode := (data >> 7) & 1;
        irqInhibit := (data >> 6) & 1 == 1;
        frameCounter := 0;
        if sequenceMode == 1 {
          ClockLengthCountersAndSweeps();
        }
      }
    }
  }
}
