/** What the length counters are for: a channel that has run out or been switched off stays silent.
  */
module ApuSilence {
  import opened Common
  import opened ApuTypes
  import opened ApuChannels
  import opened ApuReference
  import opened ApuRegisters

  /** No length counter of b is above that of a, and no register but the status flags differs. */
  predicate NoLonger(a: Apu, b: Apu) {
    && b.pulse1.lengthCounter <= a.pulse1.lengthCounter && b.pulse2.lengthCounter <= a.pulse2.lengthCounter
    && b.triangle.lengthCounter <= a.triangle.lengthCounter && b.noise.lengthCounter <= a.noise.lengthCounter
    && b.reg == a.reg.(status := b.reg.status)
  }

  lemma SweepKeepsLength(p: Pulse, reg: PulseReg, isPulse1: bool)
    requires ValidPulse(p)
    ensures SweepTick(p, reg, isPulse1).lengthCounter == p.lengthCounter
  {
  }

  lemma HalfFrameShortens(a: Apu)
    requires ValidChannels(a)
    ensures NoLonger(a, HalfFrame(a))
  {
    hide SweepTick, ValidTriangle, ValidNoise, ValidDmc;
    SweepKeepsLength(a.pulse1.(lengthCounter := LengthTick(a.pulse1.lengthCounter, a.reg.pulse1.Halt())),
                     a.reg.pulse1, true);
    SweepKeepsLength(a.pulse2.(lengthCounter := LengthTick(a.pulse2.lengthCounter, a.reg.pulse2.Halt())),
                     a.reg.pulse2, false);
  }

  lemma QuarterFrameShortens(a: Apu)
    requires ValidChannels(a)
    ensures NoLonger(a, QuarterFrame(a))
  {
    hide EnvelopeTick, ValidPulse, ValidTriangle, ValidNoise, ValidDmc;
  }

  lemma FlushShortens(a: Apu)
    requires ValidChannels(a)
    ensures NoLonger(a, Flush(a))
  {
    hide QuarterFrame, HalfFrame, ValidPulse, ValidTriangle, ValidNoise, ValidDmc;
    var q := a.(frame := a.frame.(pendingQuarter := false));
    QuarterFrameShortens(q);
    HalfFrameShortens(QuarterFrame(q).(frame := QuarterFrame(q).frame.(pendingHalf := false)));
    HalfFrameShortens(a.(frame := a.frame.(pendingHalf := false)));
  }

  lemma ResetShortens(a: Apu)
    requires ValidChannels(a)
    ensures NoLonger(a, DelayedReset(a))
  {
    hide QuarterFrame, HalfFrame, ValidPulse, ValidTriangle, ValidNoise, ValidDmc;
    var b := a.(frame := a.frame.(resetDelay := 0, countdown := 0, step := 0));
    QuarterFrameShortens(b);
    HalfFrameShortens(QuarterFrame(b));
  }

  lemma SignalsShorten(a: Apu)
    requires ValidChannels(a)
    ensures NoLonger(a, Signals(a))
  {
    hide Flush, DelayedReset, ValidPulse, ValidTriangle, ValidNoise, ValidDmc;
    FlushShortens(RepeatFrameIrq(a));
    ResetShortens(Flush(RepeatFrameIrq(a)));
  }

  lemma TickKeepsLengths(a: Apu, env: Env)
    requires ValidEnv(env) && ValidChannels(a) && ValidFrame(a.frame, a.reg.frame)
    ensures NoLonger(a, Tick(a, env))
  {
    hide DmcTick, FrameTick, ValidPulse, ValidTriangle, ValidNoise, ValidDmc, ValidFrame;
  }

  lemma CycleShortens(a: Apu, env: Env)
    requires ValidEnv(env) && Inv(a)
    ensures NoLonger(a, Cycle(a, env))
  {
    hide Signals, Tick, ValidPulse, ValidTriangle, ValidNoise, ValidDmc, ValidFrame, CachesAgree, Mix,
         PulseOutput, TriangleOutput, NoiseOutput;
    SignalsShorten(a);
    TickKeepsLengths(Signals(a), env);
  }

  /** No run of cycles lengthens a note; only a register write does. */
  lemma {:induction false} RunShortens(a: Apu, env: Env, n: nat)
    requires ValidEnv(env) && Inv(a)
    ensures NoLonger(a, Run(a, env, n))
  {
    hide Cycle, Inv, ValidEnv, Mix;
    if n > 0 {
      RunShortens(a, env, n - 1);
      CycleShortens(Run(a, env, n - 1), env);
    }
  }

  /** Switched off by $4015, the pulse and noise channels put out nothing in any later cycle, until they are
    * switched on and given a length again.
    */
  lemma SwitchedOffIsSilent(a: Apu, env: Env, val: u8, n: nat)
    requires ValidEnv(env) && Inv(a)
    ensures Inv(Refresh(Write(a, 0x15, val), env))
    ensures var b := Run(Refresh(Write(a, 0x15, val), env), env, n);
            && (val % 2 == 0 ==> b.pulse1.lengthCounter == 0 && b.pulse1.output == 0)
            && (val / 2 % 2 == 0 ==> b.pulse2.lengthCounter == 0 && b.pulse2.output == 0)
            && (val / 4 % 2 == 0 ==> b.triangle.lengthCounter == 0)
            && (val / 8 % 2 == 0 ==> b.noise.lengthCounter == 0 && b.noise.output == 0)
  {
    hide Cycle, Run, Mix, Refresh, Write, ValidPulse, ValidTriangle, ValidNoise, ValidDmc, ValidFrame, CachesAgree,
         ValidEnv;
    WriteKeepsInv(a, env, 0x15, val);
    var w := Refresh(Write(a, 0x15, val), env);
    SwitchedOff(a, env, val);
    RunShortens(w, env, n);
    NoLengthNoSound(Run(w, env, n));
  }

  lemma SwitchedOff(a: Apu, env: Env, val: u8)
    requires ValidEnv(env) && Inv(a)
    ensures var w := Refresh(Write(a, 0x15, val), env);
            && (val % 2 == 0 ==> w.pulse1.lengthCounter == 0)
            && (val / 2 % 2 == 0 ==> w.pulse2.lengthCounter == 0)
            && (val / 4 % 2 == 0 ==> w.triangle.lengthCounter == 0)
            && (val / 8 % 2 == 0 ==> w.noise.lengthCounter == 0)
  {
    hide ValidPulse, ValidTriangle, ValidNoise, ValidDmc, ValidFrame, CachesAgree, Mix,
         PulseOutput, TriangleOutput, NoiseOutput, WritePulse, WriteTriangle, WriteNoise, WriteDmc;
  }

  lemma NoLengthNoSound(b: Apu)
    requires Inv(b)
    ensures b.pulse1.lengthCounter == 0 ==> b.pulse1.output == 0
    ensures b.pulse2.lengthCounter == 0 ==> b.pulse2.output == 0
    ensures b.noise.lengthCounter == 0 ==> b.noise.output == 0
  {
  }

  // ------------------------------------------------------ what the timer writes set

  /** A half-frame clock is waiting for a pulse whose sweep will then replace the period. */
  predicate SweepWaits(a: Apu, second: bool) {
    var p, reg := PulseOf(a, second), PulseRegOf(a, second);
    && a.frame.pendingHalf && (if second then a.reg.status.pulse2 else a.reg.status.pulse1)
    && p.sweep.divider == 0 && reg.SweepEnabled() && reg.SweepShift() != 0 && !p.sweep.mute
  }

  /** The two halves of a pulse timer period are written: the second write restarts the duty and the envelope and
    * leaves the countdown; the period is the one written, unless a waiting clock of the sweep, carried out by that
    * very write, puts the target it had before in its place.
    */
  lemma PulseTimerWritten(a: Apu, second: bool, low: u8, high: u8)
    requires ValidChannels(a)
    ensures var b := WritePulse(a, second, 2, low);
            var p := PulseOf(WritePulse(b, second, 3, high), second);
            && p.timer.period == (if SweepWaits(b, second) then PulseOf(b, second).sweep.targetPeriod
                                  else high % 8 * 0x100 + low)
            && p.dutyIdx == 0 && p.envelope.startFlag
            && p.timer.countdown == PulseOf(a, second).timer.countdown
  {
    hide ValidPulse, ValidTriangle, ValidNoise, ValidDmc, Flush, SweepTarget, SweepWaits;
    LowWritten(a, second, low);
    HighWritten(WritePulse(a, second, 2, low), second, high);
  }

  lemma LowWritten(a: Apu, second: bool, low: u8)
    requires ValidChannels(a)
    ensures var b := WritePulse(a, second, 2, low);
            && PulseRegOf(b, second).r2 == low && b.frame == a.frame
            && PulseOf(b, second).timer.countdown == PulseOf(a, second).timer.countdown
  {
    hide ValidTriangle, ValidNoise, ValidDmc, Flush;
  }

  lemma HighWritten(a: Apu, second: bool, high: u8)
    requires ValidChannels(a)
    ensures var p := PulseOf(WritePulse(a, second, 3, high), second);
            && p.timer == Timer(if SweepWaits(a, second) then PulseOf(a, second).sweep.targetPeriod
                                else high % 8 * 0x100 + PulseRegOf(a, second).r2,
                                PulseOf(a, second).timer.countdown)
            && p.dutyIdx == 0 && p.envelope.startFlag
  {
    hide ValidTriangle, ValidNoise, ValidDmc, Flush, SweepTarget;
    var reg := PulseRegOf(a, second).(r3 := high);
    var b := SetPulse(SetPulseReg(a, second, reg), second, Retimed(PulseOf(a, second), reg).(dutyIdx := 0));
    FlushedTimer(b, second);
    var enabled := if second then a.reg.status.pulse2 else a.reg.status.pulse1;
    var c := if enabled then Flush(b) else b;
    var q := PulseOf(c, second);
    var length := if enabled then Reloaded(PulseOf(a, second).lengthCounter, q.lengthCounter, Length(reg.LengthIndex()))
                  else q.lengthCounter;
    var r := q.(lengthCounter := length, envelope := q.envelope.(startFlag := true));
    TargetKeeps(r, reg, !second);
    assert PulseOf(WritePulse(a, second, 3, high), second) == SweepTarget(r, reg, !second);
  }

  lemma TargetKeeps(p: Pulse, reg: PulseReg, isPulse1: bool)
    requires ValidPulse(p)
    ensures SweepTarget(p, reg, isPulse1) == p.(sweep := SweepTarget(p, reg, isPulse1).sweep)
  {
  }

  /** What a flush does to the timer and the duty of a pulse. */
  lemma FlushedTimer(a: Apu, second: bool)
    requires ValidChannels(a)
    ensures var p, q, reg := PulseOf(a, second), PulseOf(Flush(a), second), PulseRegOf(a, second);
            var applies := a.frame.pendingHalf && p.sweep.divider == 0 && reg.SweepEnabled() && reg.SweepShift() != 0
                           && !p.sweep.mute;
            && q.timer == Timer(if applies then p.sweep.targetPeriod else p.timer.period, p.timer.countdown)
            && q.dutyIdx == p.dutyIdx
  {
    hide ValidTriangle, ValidNoise, ValidDmc, EnvelopeTick;
  }
}
