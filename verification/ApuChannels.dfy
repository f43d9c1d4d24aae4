/** The sound channels, each as a reference that advances one tick at a time, and the source's
  * jumping tick procedures proved to agree with it.
  *
  * A reference tick never touches a cached output level: what a channel puts out is a function of
  * its state (PulseOutput and its siblings), and the jumping procedures are shown to keep the cached
  * level equal to that function although they recompute it only when something audible happened.
  */
module ApuChannels {
  import opened Common
  import opened ApuTypes

  // ------------------------------------------------------------ output levels

  function FrameStep(step: nat): (ticks: nat)
    requires step <= 4
    ensures 3728 <= ticks <= 18640
    ensures step < 4 ==> ticks < [3728, 7456, 11185, 14914, 18640][step + 1]
  {
    FRAME_STEPS[step]
  }

  function PulseOutput(p: Pulse, reg: PulseReg): (level: nat)
    requires ValidPulse(p)
    ensures level <= 15
    ensures p.Silent() ==> level == 0
  {
    if p.Silent() || DUTY[reg.Duty()][p.dutyIdx] == 0 then 0
    else if reg.ConstantVolume() then reg.Volume()
    else p.envelope.decay
  }

  function TriangleOutput(t: Triangle): (level: nat)
    requires ValidTriangle(t)
    ensures level <= 45
  {
    if t.timer.period < 2 then 21
    else if t.sequenceIdx >= 16 then (t.sequenceIdx - 16) * 3
    else (15 - t.sequenceIdx) * 3
  }

  function NoiseOutput(n: Noise, reg: NoiseReg): (level: nat)
    requires ValidNoise(n)
    ensures level <= 30
  {
    if n.lengthCounter == 0 || n.shiftReg % 2 == 1 then 0
    else if reg.ConstantVolume() then reg.Volume() * 2
    else n.envelope.decay * 2
  }

  // ------------------------------------------------- what each channel's fields hold

  ghost predicate ValidEnvelope(e: Envelope) { e.decay <= 15 && e.divider <= 15 }

  ghost predicate ValidPulse(p: Pulse) {
    && p.timer.period <= MAX_PERIOD && p.timer.countdown <= MAX_PERIOD
    && ValidEnvelope(p.envelope)
    && p.sweep.divider <= 7 && p.sweep.targetPeriod <= 2 * MAX_PERIOD
    && (p.sweep.targetPeriod > MAX_PERIOD ==> p.sweep.mute)
    && p.dutyIdx < 8 && p.lengthCounter < 256
  }

  ghost predicate ValidTriangle(t: Triangle) {
    && t.timer.period <= MAX_PERIOD && t.timer.countdown <= MAX_PERIOD
    && t.sequenceIdx < 32 && t.lengthCounter < 256 && t.linearCounter < 128
  }

  ghost predicate ValidNoise(n: Noise) {
    && 1 <= n.timer.period <= 2034 && 1 <= n.timer.countdown <= 2034
    && ValidEnvelope(n.envelope)
    && n.shiftReg < 0x8000 && n.lengthCounter < 256
  }

  ghost predicate ValidDmc(d: Dmc) {
    && 1 <= d.timer.period <= 214 && 1 <= d.timer.countdown <= 214
    && d.currAddr < DMC_ADDR_SPACE && d.bytesRemaining <= 4081
    && d.sampleBuf < 256 && d.shiftReg < 256
    && 1 <= d.bitsRemaining <= 8 && d.outputLevel <= 127
  }

  ghost predicate ValidFrame(f: FrameCounter, reg: FrameReg) {
    && f.step <= 4 && f.countdown <= FrameStep(f.step) && f.resetDelay <= 4
    && (f.resetDelay == 0 && !reg.FiveStep() ==> f.step <= 3)
  }

  // ------------------------------------------------------ reference: one tick

  function PulseTick(p: Pulse): (p': Pulse)
    ensures ValidPulse(p) ==> ValidPulse(p')
  {
    if p.timer.countdown > 0 then
      p.(timer := p.timer.(countdown := p.timer.countdown - 1))
    else
      p.(timer := p.timer.(countdown := p.timer.period), dutyIdx := (p.dutyIdx + 7) % 8)
  }

  function TriangleTick(t: Triangle): (t': Triangle)
    ensures ValidTriangle(t) ==> ValidTriangle(t')
  {
    if t.timer.countdown > 0 then
      t.(timer := t.timer.(countdown := t.timer.countdown - 1))
    else
      t.(timer := t.timer.(countdown := t.timer.period),
         sequenceIdx := if t.Stopped() then t.sequenceIdx else (t.sequenceIdx + 1) % 32)
  }

  function Feedback(shiftReg: nat, reg: NoiseReg): (bit: nat)
    ensures bit <= 1
  {
    (shiftReg % 2 + shiftReg / (if reg.ShortMode() then 64 else 2) % 2) % 2
  }

  function NoiseTick(n: Noise, reg: NoiseReg): (n': Noise)
    ensures ValidNoise(n) ==> ValidNoise(n')
  {
    if n.timer.countdown > 1 then
      n.(timer := n.timer.(countdown := n.timer.countdown - 1))
    else
      n.(timer := n.timer.(countdown := n.timer.period),
         shiftReg := n.shiftReg / 2 + Feedback(n.shiftReg, reg) * 0x4000)
  }

  /** The DMC together with the status flag it raises. */
  datatype DmcUnit = DmcUnit(dmc: Dmc, irq: bool)

  function DmcFetch(u: DmcUnit, reg: DmcReg, prg: seq<u8>): (r: DmcUnit)
    requires |prg| == DMC_ADDR_SPACE && ValidDmc(u.dmc)
    ensures ValidDmc(r.dmc)
  {
    var d := u.dmc;
    if !d.bufferEmpty || d.bytesRemaining == 0 then u
    else
      var d' := d.(sampleBuf := prg[d.currAddr], bufferEmpty := false,
                   currAddr := (d.currAddr + 1) % DMC_ADDR_SPACE,
                   bytesRemaining := d.bytesRemaining - 1);
      if d'.bytesRemaining > 0 then DmcUnit(d', u.irq)
      else if reg.Loop() then
        DmcUnit(d'.(currAddr := reg.StartAddr(), bytesRemaining := reg.Length()), u.irq)
      else DmcUnit(d', u.irq || reg.IrqEnabled())
  }

  /** The output level after one bit of the shift register. */
  function DmcLevel(d: Dmc): nat {
    if d.silence then d.outputLevel
    else if d.shiftReg % 2 == 1 then
      if d.outputLevel < 126 then d.outputLevel + 2 else d.outputLevel
    else if d.outputLevel > 1 then d.outputLevel - 2
    else d.outputLevel
  }

  function DmcClock(d: Dmc): (r: Dmc)
    requires ValidDmc(d)
    ensures ValidDmc(r)
  {
    var d' := d.(timer := d.timer.(countdown := d.timer.period),
                 outputLevel := DmcLevel(d), shiftReg := d.shiftReg / 2);
    if d.bitsRemaining > 1 then d'.(bitsRemaining := d.bitsRemaining - 1)
    else if d.bufferEmpty then d'.(bitsRemaining := 8, silence := true)
    else d'.(bitsRemaining := 8, silence := false, bufferEmpty := true, shiftReg := d.sampleBuf)
  }

  function DmcTick(u: DmcUnit, reg: DmcReg, prg: seq<u8>): (r: DmcUnit)
    requires |prg| == DMC_ADDR_SPACE && ValidDmc(u.dmc)
    ensures ValidDmc(r.dmc)
  {
    var d := u.dmc;
    if d.timer.countdown > 1 then
      DmcFetch(DmcUnit(d.(timer := d.timer.(countdown := d.timer.countdown - 1)), u.irq), reg, prg)
    else
      DmcFetch(DmcUnit(DmcClock(d), u.irq), reg, prg)
  }

  /** The frame counter together with the status flag it raises. */
  datatype FrameUnit = FrameUnit(frame: FrameCounter, irq: bool)

  /** One tick of the frame counter: step 3 of the four-step sequence also raises the IRQ flag. */
  function FrameTick(u: FrameUnit, reg: FrameReg): (u': FrameUnit)
    requires ValidFrame(u.frame, reg)
    ensures ValidFrame(u'.frame, reg)
  {
    var f := u.frame;
    var last := if reg.FiveStep() then 4 else 3;
    if f.countdown + 1 <= FrameStep(f.step) then
      FrameUnit(f.(countdown := f.countdown + 1), u.irq)
    else
      var quarter := f.step != 3 || !reg.FiveStep();
      var half := quarter && f.step in {1, 3, 4};
      var raise := f.step == 3 && !reg.FiveStep() && !reg.IrqDisable();
      FrameUnit(f.(countdown := if f.step >= last then 0 else f.countdown + 1,
                   step := if f.step >= last then 0 else f.step + 1,
                   pendingQuarter := f.pendingQuarter || quarter,
                   pendingHalf := f.pendingHalf || half,
                   pendingIrq := f.pendingIrq || raise),
                u.irq || raise)
  }

  // ------------------------------------------------- reference: several ticks

  function PulseTicks(p: Pulse, ticks: nat): (p': Pulse)
    ensures ValidPulse(p) ==> ValidPulse(p')
  {
    if ticks == 0 then p else PulseTick(PulseTicks(p, ticks - 1))
  }

  function TriangleTicks(t: Triangle, cycles: nat): (t': Triangle)
    ensures ValidTriangle(t) ==> ValidTriangle(t')
  {
    if cycles == 0 then t else TriangleTick(TriangleTicks(t, cycles - 1))
  }

  function NoiseTicks(n: Noise, reg: NoiseReg, ticks: nat): (n': Noise)
    ensures ValidNoise(n) ==> ValidNoise(n')
  {
    if ticks == 0 then n else NoiseTick(NoiseTicks(n, reg, ticks - 1), reg)
  }

  function DmcTicks(u: DmcUnit, reg: DmcReg, prg: seq<u8>, ticks: nat): (r: DmcUnit)
    requires |prg| == DMC_ADDR_SPACE && ValidDmc(u.dmc)
    ensures ValidDmc(r.dmc)
  {
    if ticks == 0 then u else DmcTick(DmcTicks(u, reg, prg, ticks - 1), reg, prg)
  }

  // ------------------------------------------------------------ timer wraps

  lemma DivModStep(a: nat, d: nat)
    requires d > 0
    ensures a % d == d - 1 ==> (a + 1) % d == 0 && (a + 1) / d == a / d + 1
    ensures a % d != d - 1 ==> (a + 1) % d == a % d + 1 && (a + 1) / d == a / d
  {
    assert a == (a / d) * d + a % d;
    if a % d == d - 1 {
      assert a + 1 == (a / d + 1) * d + 0;
      DivModUnique(a + 1, d, a / d + 1, 0);
    } else {
      DivModUnique(a + 1, d, a / d, a % d + 1);
    }
  }

  /** Where a free-running timer stands after more ticks than its countdown. */
  function TimerOver(timer: Timer, ticks: nat): (t: Timer)
    requires ticks > timer.countdown
    ensures t == timer.(countdown := t.countdown)
  {
    timer.(countdown := timer.period - (ticks - timer.countdown - 1) % (timer.period + 1))
  }

  function TimerWraps(timer: Timer, ticks: nat): nat
    requires ticks > timer.countdown
  {
    (ticks - timer.countdown - 1) / (timer.period + 1) + 1
  }

  /** One more tick moves the closed form as one tick moves the timer. */
  lemma TimerOverStep(timer: Timer, ticks: nat)
    requires ticks > timer.countdown
    ensures ticks == timer.countdown + 1 ==>
              TimerOver(timer, ticks).countdown == timer.period && TimerWraps(timer, ticks) == 1
    ensures ticks > timer.countdown + 1 ==>
              var before := TimerOver(timer, ticks - 1).countdown;
              if before > 0 then
                && TimerOver(timer, ticks).countdown == before - 1
                && TimerWraps(timer, ticks) == TimerWraps(timer, ticks - 1)
              else
                && TimerOver(timer, ticks).countdown == timer.period
                && TimerWraps(timer, ticks) == TimerWraps(timer, ticks - 1) + 1
  {
    var d := timer.period + 1;
    if ticks == timer.countdown + 1 {
      DivModUnique(0, d, 0, 0);
    } else {
      DivModStep(ticks - timer.countdown - 2, d);
    }
  }

  /** apu.c:450-459.  Skips whole periods of a timer nobody listens to. */
  method TimerSkipWraps(timer: Timer, ticks: nat) returns (timer': Timer, wraps: nat)
    requires ticks > timer.countdown
    ensures timer' == TimerOver(timer, ticks)
    ensures wraps == TimerWraps(timer, ticks)
  {
    var period := timer.period + 1;
    var over := ticks - timer.countdown - 1;
    timer' := timer.(countdown := timer.period - over % period);
    wraps := over / period + 1;
  }

  // ------------------------------------------------------------------ pulse

  lemma {:induction false} PulseTicksBeforeWrap(p: Pulse, ticks: nat)
    requires ticks <= p.timer.countdown
    ensures PulseTicks(p, ticks) == p.(timer := p.timer.(countdown := p.timer.countdown - ticks))
  {
    if ticks > 0 {
      PulseTicksBeforeWrap(p, ticks - 1);
    }
  }

  lemma {:induction false} PulseTicksAfterWrap(p: Pulse, ticks: nat)
    requires ticks > p.timer.countdown
    ensures PulseTicks(p, ticks) ==
            p.(timer := TimerOver(p.timer, ticks),
               dutyIdx := (p.dutyIdx + 7 * TimerWraps(p.timer, ticks)) % 8)
    decreases ticks
  {
    hide TimerOver, TimerWraps, ValidPulse;
    if ticks == p.timer.countdown + 1 {
      PulseTicksBeforeWrap(p, p.timer.countdown);
    } else {
      PulseTicksAfterWrap(p, ticks - 1);
    }
    TimerOverStep(p.timer, ticks);
  }

  lemma {:induction false} PulseTicksFrame(p: Pulse, ticks: nat)
    requires ValidPulse(p)
    ensures var q := PulseTicks(p, ticks);
            && ValidPulse(q) && q.envelope == p.envelope && q.sweep == p.sweep
            && q.lengthCounter == p.lengthCounter && q.output == p.output
  {
    if ticks > 0 {
      PulseTicksFrame(p, ticks - 1);
    }
  }

  /** Nothing can be heard before the timer wraps, and nothing at all from a silent channel. */
  lemma PulseTicksQuiet(p: Pulse, reg: PulseReg, ticks: nat)
    requires ValidPulse(p)
    requires p.Silent() || ticks <= p.timer.countdown
    ensures ValidPulse(PulseTicks(p, ticks))
    ensures PulseOutput(PulseTicks(p, ticks), reg) == PulseOutput(p, reg)
    ensures PulseTicks(p, ticks).output == p.output
  {
    PulseTicksFrame(p, ticks);
    if ticks <= p.timer.countdown {
      PulseTicksBeforeWrap(p, ticks);
    }
  }

  /** apu.c:461-485. */
  method PulseJump(pulse: Pulse, reg: PulseReg, apuTicks: nat) returns (pulse': Pulse)
    requires ValidPulse(pulse) && pulse.output == PulseOutput(pulse, reg)
    requires !pulse.Silent() ==> apuTicks <= pulse.timer.countdown + 1
    ensures ValidPulse(PulseTicks(pulse, apuTicks))
    ensures pulse' == PulseTicks(pulse, apuTicks).(output := PulseOutput(PulseTicks(pulse, apuTicks), reg))
  {
    PulseTicksFrame(pulse, apuTicks);
    pulse' := pulse;
    if apuTicks <= pulse.timer.countdown {
      PulseTicksBeforeWrap(pulse, apuTicks);
      pulse' := pulse'.(timer := pulse'.timer.(countdown := pulse'.timer.countdown - apuTicks));
      return;
    }
    PulseTicksAfterWrap(pulse, apuTicks);
    if pulse.sweep.mute || pulse.lengthCounter == 0 {
      var timer, wraps := TimerSkipWraps(pulse.timer, apuTicks);
      DutyBackwards(pulse.dutyIdx, wraps);
      pulse' := pulse'.(timer := timer, dutyIdx := (pulse.dutyIdx - wraps) % 8);
      return;
    }
    DivModUnique(0, pulse.timer.period + 1, 0, 0);
    pulse' := pulse'.(timer := pulse'.timer.(countdown := pulse'.timer.period));
    pulse' := pulse'.(dutyIdx := (pulse'.dutyIdx - 1) % 8);
    pulse' := pulse'.(output := PulseOutput(pulse', reg));
  }

  /** The source counts the duty index down; modulo 8 that is counting up by 7. */
  lemma DutyBackwards(idx: nat, wraps: nat)
    ensures (idx - wraps) % 8 == (idx + 7 * wraps) % 8
  {
    assert (idx + 7 * wraps) == (idx - wraps) + 8 * wraps;
  }

  // --------------------------------------------------------------- triangle

  lemma {:induction false} TriangleTicksBeforeWrap(t: Triangle, cycles: nat)
    requires cycles <= t.timer.countdown
    ensures TriangleTicks(t, cycles) == t.(timer := t.timer.(countdown := t.timer.countdown - cycles))
  {
    if cycles > 0 {
      TriangleTicksBeforeWrap(t, cycles - 1);
    }
  }

  lemma {:induction false} TriangleTicksStopped(t: Triangle, cycles: nat)
    requires cycles > t.timer.countdown && t.Stopped()
    ensures TriangleTicks(t, cycles) == t.(timer := TimerOver(t.timer, cycles))
    decreases cycles
  {
    var c := t.timer.countdown;
    if cycles == c + 1 {
      TriangleTicksBeforeWrap(t, c);
    } else {
      TriangleTicksStopped(t, cycles - 1);
    }
    TimerOverStep(t.timer, cycles);
  }

  lemma {:induction false} TriangleTicksFrame(t: Triangle, cycles: nat)
    requires ValidTriangle(t)
    ensures var q := TriangleTicks(t, cycles);
            && ValidTriangle(q) && q.lengthCounter == t.lengthCounter
            && q.linearCounter == t.linearCounter && q.linearReload == t.linearReload
            && q.output == t.output && q.timer.period == t.timer.period
  {
    if cycles > 0 {
      TriangleTicksFrame(t, cycles - 1);
    }
  }

  lemma TriangleTicksQuiet(t: Triangle, cycles: nat)
    requires ValidTriangle(t)
    requires t.Stopped() || cycles <= t.timer.countdown
    ensures ValidTriangle(TriangleTicks(t, cycles))
    ensures TriangleOutput(TriangleTicks(t, cycles)) == TriangleOutput(t)
    ensures TriangleTicks(t, cycles).output == t.output
  {
    TriangleTicksFrame(t, cycles);
    if cycles <= t.timer.countdown {
      TriangleTicksBeforeWrap(t, cycles);
    } else {
      TriangleTicksStopped(t, cycles);
    }
  }

  /** apu.c:487-504. */
  method TriangleJump(tri: Triangle, cycles: nat) returns (tri': Triangle)
    requires ValidTriangle(tri) && tri.output == TriangleOutput(tri)
    requires !tri.Stopped() ==> cycles <= tri.timer.countdown + 1
    ensures ValidTriangle(TriangleTicks(tri, cycles))
    ensures tri' == TriangleTicks(tri, cycles).(output := TriangleOutput(TriangleTicks(tri, cycles)))
  {
    TriangleTicksFrame(tri, cycles);
    tri' := tri;
    if cycles <= tri.timer.countdown {
      TriangleTicksQuiet(tri, cycles);
      TriangleTicksBeforeWrap(tri, cycles);
      tri' := tri'.(timer := tri'.timer.(countdown := tri'.timer.countdown - cycles));
      return;
    }
    if tri.lengthCounter == 0 || tri.linearCounter == 0 {
      TriangleTicksQuiet(tri, cycles);
      TriangleTicksStopped(tri, cycles);
      var timer, _ := TimerSkipWraps(tri.timer, cycles);
      tri' := tri'.(timer := timer);
      return;
    }
    TriangleTicksBeforeWrap(tri, cycles - 1);
    tri' := tri'.(timer := tri'.timer.(countdown := tri'.timer.period));
    tri' := tri'.(sequenceIdx := (tri'.sequenceIdx + 1) % 32);
    tri' := tri'.(output := TriangleOutput(tri'));
  }

  // ------------------------------------------------------------------ noise

  lemma {:induction false} NoiseTicksBeforeClock(n: Noise, reg: NoiseReg, ticks: nat)
    requires ValidNoise(n) && ticks < n.timer.countdown
    ensures NoiseTicks(n, reg, ticks) == n.(timer := n.timer.(countdown := n.timer.countdown - ticks))
  {
    if ticks > 0 {
      NoiseTicksBeforeClock(n, reg, ticks - 1);
    }
  }

  lemma NoiseTicksQuiet(n: Noise, reg: NoiseReg, ticks: nat)
    requires ValidNoise(n) && ticks < n.timer.countdown
    ensures ValidNoise(NoiseTicks(n, reg, ticks))
    ensures NoiseOutput(NoiseTicks(n, reg, ticks), reg) == NoiseOutput(n, reg)
    ensures NoiseTicks(n, reg, ticks).output == n.output
  {
    NoiseTicksBeforeClock(n, reg, ticks);
  }

  /** apu.c:506-532, except that the cached mixer index is the caller's to update. */
  method NoiseJump(noise: Noise, reg: NoiseReg, apuTicks: nat) returns (noise': Noise, changed: bool)
    requires ValidNoise(noise) && noise.output == NoiseOutput(noise, reg)
    requires apuTicks <= noise.timer.countdown
    ensures ValidNoise(NoiseTicks(noise, reg, apuTicks))
    ensures noise' == NoiseTicks(noise, reg, apuTicks).(output := NoiseOutput(NoiseTicks(noise, reg, apuTicks), reg))
    ensures !changed ==> noise'.output == noise.output
  {
    noise', changed := noise, false;
    if apuTicks < noise.timer.countdown {
      NoiseTicksBeforeClock(noise, reg, apuTicks);
      noise' := noise'.(timer := noise'.timer.(countdown := noise'.timer.countdown - apuTicks));
      return;
    }
    NoiseTicksBeforeClock(noise, reg, apuTicks - 1);
    var tap := if reg.ShortMode() then 64 else 2;
    var feedback := (noise.shiftReg % 2 + noise.shiftReg / tap % 2) % 2;
    assert feedback == Feedback(noise.shiftReg, reg);
    hide Feedback, NoiseOutput;
    noise' := noise'.(timer := noise'.timer.(countdown := noise'.timer.period));
    noise' := noise'.(shiftReg := noise'.shiftReg / 2);
    noise' := noise'.(shiftReg := noise'.shiftReg + feedback * 0x4000);
    if noise.lengthCounter != 0 {
      noise' := noise'.(output := NoiseOutput(noise', reg));
      changed := true;
    }
  }

  // -------------------------------------------------------------------- DMC

  lemma {:induction false} DmcTicksBeforeClock(u: DmcUnit, reg: DmcReg, prg: seq<u8>, ticks: nat)
    requires |prg| == DMC_ADDR_SPACE && ValidDmc(u.dmc)
    requires 0 < ticks < u.dmc.timer.countdown
    ensures DmcTicks(u, reg, prg, ticks) ==
            DmcFetch(u.(dmc := u.dmc.(timer := u.dmc.timer.(countdown := u.dmc.timer.countdown - ticks))), reg, prg)
  {
    if ticks > 1 {
      DmcTicksBeforeClock(u, reg, prg, ticks - 1);
    } else {
      assert DmcTicks(u, reg, prg, 0) == u;
    }
  }

  lemma DmcTicksQuiet(u: DmcUnit, reg: DmcReg, prg: seq<u8>, ticks: nat)
    requires |prg| == DMC_ADDR_SPACE && ValidDmc(u.dmc)
    requires ticks < u.dmc.timer.countdown
    ensures DmcTicks(u, reg, prg, ticks).dmc.outputLevel == u.dmc.outputLevel
  {
    if ticks > 0 {
      DmcTicksBeforeClock(u, reg, prg, ticks);
    }
  }

  /** apu.c:559-585. */
  method DmcMemoryReader(u: DmcUnit, reg: DmcReg, prg: seq<u8>) returns (u': DmcUnit)
    requires |prg| == DMC_ADDR_SPACE && ValidDmc(u.dmc)
    ensures u' == DmcFetch(u, reg, prg)
  {
    u' := u;
    if !u.dmc.bufferEmpty || u.dmc.bytesRemaining == 0 {
      return;
    }
    var dmc := u.dmc.(sampleBuf := prg[u.dmc.currAddr]);
    dmc := dmc.(bufferEmpty := false);
    dmc := dmc.(currAddr := (dmc.currAddr + 1) % DMC_ADDR_SPACE);
    dmc := dmc.(bytesRemaining := dmc.bytesRemaining - 1);
    u' := u'.(dmc := dmc);
    if dmc.bytesRemaining == 0 {
      if reg.Loop() {
        dmc := dmc.(currAddr := reg.StartAddr());
        dmc := dmc.(bytesRemaining := reg.Length());
        u' := u'.(dmc := dmc);
      } else if reg.IrqEnabled() {
        u' := u'.(irq := true);
      }
    }
  }

  /** apu.c:604-616, with the output unit of lines 534-557. */
  method DmcOutputClock(dmc: Dmc) returns (dmc': Dmc)
    requires ValidDmc(dmc)
    ensures dmc' == DmcClock(dmc)
  {
    dmc' := dmc.(timer := dmc.timer.(countdown := dmc.timer.period));
    if !dmc'.silence {
      if dmc'.shiftReg % 2 == 1 {
        if dmc'.outputLevel < 126 {
          dmc' := dmc'.(outputLevel := dmc'.outputLevel + 2);
        }
      } else if dmc'.outputLevel > 1 {
        dmc' := dmc'.(outputLevel := dmc'.outputLevel - 2);
      }
    }
    dmc' := dmc'.(shiftReg := dmc'.shiftReg / 2);
    if dmc'.bitsRemaining == 1 {
      dmc' := dmc'.(bitsRemaining := 8, silence := dmc'.bufferEmpty);
      if !dmc'.silence {
        dmc' := dmc'.(bufferEmpty := true, shiftReg := dmc'.sampleBuf);
      }
    } else {
      dmc' := dmc'.(bitsRemaining := dmc'.bitsRemaining - 1);
    }
  }

  lemma ClockIgnoresCountdown(d: Dmc, c: nat)
    requires ValidDmc(d) && 1 <= c <= 214
    ensures DmcClock(d.(timer := d.timer.(countdown := c))) == DmcClock(d)
  {
  }

  lemma FetchIgnoresCountdown(u: DmcUnit, reg: DmcReg, prg: seq<u8>, c: nat)
    requires |prg| == DMC_ADDR_SPACE && ValidDmc(u.dmc) && 1 <= c <= 214
    ensures var r := DmcFetch(u, reg, prg);
            && DmcFetch(u.(dmc := u.dmc.(timer := u.dmc.timer.(countdown := c))), reg, prg)
               == r.(dmc := r.dmc.(timer := r.dmc.timer.(countdown := c)))
            && r.dmc.timer == u.dmc.timer
  {
  }

  /** A clock may be preceded by any number of fetches in the same stretch of ticks. */
  lemma DmcTicksAtClock(u: DmcUnit, reg: DmcReg, prg: seq<u8>, fetched: DmcUnit)
    requires |prg| == DMC_ADDR_SPACE && ValidDmc(u.dmc)
    requires fetched == if u.dmc.timer.countdown > 1 then DmcFetch(u, reg, prg) else u
    ensures DmcTicks(u, reg, prg, u.dmc.timer.countdown) ==
            DmcFetch(fetched.(dmc := DmcClock(fetched.dmc)), reg, prg)
  {
    var c := u.dmc.timer.countdown;
    if c > 1 {
      DmcTicksBeforeClock(u, reg, prg, c - 1);
      FetchIgnoresCountdown(u, reg, prg, 1);
      hide DmcFetch;
      ClockIgnoresCountdown(fetched.dmc, 1);
    } else {
      assert DmcTicks(u, reg, prg, 0) == u;
    }
  }

  /** apu.c:590-618. */
  method DmcJump(u: DmcUnit, reg: DmcReg, prg: seq<u8>, apuTicks: nat) returns (u': DmcUnit)
    requires |prg| == DMC_ADDR_SPACE && ValidDmc(u.dmc)
    requires 0 < apuTicks <= u.dmc.timer.countdown
    ensures u' == DmcTicks(u, reg, prg, apuTicks)
  {
    u' := u;
    if apuTicks < u.dmc.timer.countdown {
      DmcTicksBeforeClock(u, reg, prg, apuTicks);
      u' := u'.(dmc := u'.dmc.(timer := u'.dmc.timer.(countdown := u'.dmc.timer.countdown - apuTicks)));
      u' := DmcMemoryReader(u', reg, prg);
      return;
    }
    if apuTicks > 1 {
      u' := DmcMemoryReader(u', reg, prg);
    }
    DmcTicksAtClock(u, reg, prg, u');
    var dmc := DmcOutputClock(u'.dmc);
    u' := DmcMemoryReader(u'.(dmc := dmc), reg, prg);
  }

  // ---------------------------------------------------------- frame counter

  function FrameTicks(u: FrameUnit, reg: FrameReg, ticks: nat): (r: FrameUnit)
    requires ValidFrame(u.frame, reg)
    ensures ValidFrame(r.frame, reg)
  {
    if ticks == 0 then u else FrameTick(FrameTicks(u, reg, ticks - 1), reg)
  }

  lemma {:induction false} FrameTicksBeforeStep(u: FrameUnit, reg: FrameReg, ticks: nat)
    requires ValidFrame(u.frame, reg)
    requires u.frame.countdown + ticks <= FrameStep(u.frame.step)
    ensures FrameTicks(u, reg, ticks) == u.(frame := u.frame.(countdown := u.frame.countdown + ticks))
  {
    if ticks > 0 {
      FrameTicksBeforeStep(u, reg, ticks - 1);
    }
  }

  /** apu.c:710-763. */
  method FrameJump(u: FrameUnit, reg: FrameReg, apuTicks: nat) returns (u': FrameUnit)
    requires ValidFrame(u.frame, reg)
    requires u.frame.countdown + apuTicks <= FrameStep(u.frame.step) + 1
    ensures u' == FrameTicks(u, reg, apuTicks)
  {
    var frame, irq := u.frame, u.irq;
    var maxSteps := 5 - (if reg.FiveStep() then 0 else 1);
    var target := FrameStep(frame.step);
    if frame.countdown + apuTicks <= target {
      FrameTicksBeforeStep(u, reg, apuTicks);
      frame := frame.(countdown := frame.countdown + apuTicks);
      return FrameUnit(frame, irq);
    }
    FrameTicksBeforeStep(u, reg, apuTicks - 1);
    frame := frame.(countdown := target + 1);
    if frame.step == 0 {
      frame := frame.(pendingQuarter := true);
    } else if frame.step == 1 {
      frame := frame.(pendingQuarter := true);
      frame := frame.(pendingHalf := true);
    } else if frame.step == 2 {
      frame := frame.(pendingQuarter := true);
    } else if frame.step == 3 {
      if !reg.FiveStep() {
        frame := frame.(pendingQuarter := true);
        frame := frame.(pendingHalf := true);
        if !reg.IrqDisable() {
          irq := true;
          frame := frame.(pendingIrq := true);
        }
      }
    } else {
      frame := frame.(pendingQuarter := true);
      frame := frame.(pendingHalf := true);
    }
    frame := frame.(step := frame.step + 1);
    if frame.step >= maxSteps {
      frame := frame.(step := 0);
      frame := frame.(countdown := 0);
    }
    u' := FrameUnit(frame, irq);
  }
}
