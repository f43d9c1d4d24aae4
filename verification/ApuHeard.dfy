/** Sound is an output only: nothing in the audio unit depends on the running sum, on the samples it has handed
  * over or on the cached mix.
  */
module ApuHeard {
  import opened Common
  import opened ApuTypes
  import opened ApuChannels
  import opened ApuReference
  import opened ApuRegisters

  /** a with another running sum, other samples and another cached mix. */
  function Voiced(a: Apu, sum: int, samples: seq<int>, mix: int): Apu {
    a.(sampleAccum := sum, samples := samples, outputMix := mix)
  }

  /** b differs from a in the running sum, the samples and the cached mix at most. */
  predicate SameUnit(a: Apu, b: Apu) { b == Voiced(a, b.sampleAccum, b.samples, b.outputMix) }

  lemma SameValid(a: Apu, b: Apu, env: Env)
    requires ValidEnv(env) && SameUnit(a, b) && ValidChannels(a)
    ensures ValidChannels(b) && Mix(b, env) == Mix(a, env)
    ensures Inv(a) <==> Inv(b)
  {
    hide PulseOutput, TriangleOutput, NoiseOutput;
  }

  lemma FrameClocksSame(a: Apu, b: Apu)
    requires ValidChannels(a) && ValidChannels(b) && SameUnit(a, b)
    ensures SameUnit(QuarterFrame(a), QuarterFrame(b)) && SameUnit(HalfFrame(a), HalfFrame(b))
  {
    hide SweepTick, EnvelopeTick, LinearTick, LengthTick, ValidPulse, ValidTriangle, ValidNoise, ValidDmc;
  }

  lemma FlushSame(a: Apu, b: Apu)
    requires ValidChannels(a) && ValidChannels(b) && SameUnit(a, b)
    ensures SameUnit(Flush(a), Flush(b))
  {
    hide QuarterFrame, HalfFrame, ValidPulse, ValidTriangle, ValidNoise, ValidDmc;
    var c, d := a.(frame := a.frame.(pendingQuarter := false)), b.(frame := b.frame.(pendingQuarter := false));
    FrameClocksSame(c, d);
    var e, f := QuarterFrame(c), QuarterFrame(d);
    FrameClocksSame(e.(frame := e.frame.(pendingHalf := false)), f.(frame := f.frame.(pendingHalf := false)));
    FrameClocksSame(a.(frame := a.frame.(pendingHalf := false)), b.(frame := b.frame.(pendingHalf := false)));
  }

  lemma ResetSame(a: Apu, b: Apu)
    requires ValidChannels(a) && ValidChannels(b) && SameUnit(a, b)
    ensures SameUnit(DelayedReset(a), DelayedReset(b))
  {
    hide QuarterFrame, HalfFrame, ValidPulse, ValidTriangle, ValidNoise, ValidDmc;
    var c := a.(frame := a.frame.(resetDelay := 0, countdown := 0, step := 0));
    var d := b.(frame := b.frame.(resetDelay := 0, countdown := 0, step := 0));
    FrameClocksSame(c, d);
    FrameClocksSame(QuarterFrame(c), QuarterFrame(d));
  }

  lemma RepeatSame(a: Apu, b: Apu)
    requires SameUnit(a, b)
    ensures SameUnit(RepeatFrameIrq(a), RepeatFrameIrq(b))
    ensures ValidChannels(a) ==> ValidChannels(RepeatFrameIrq(a))
    ensures ValidChannels(b) ==> ValidChannels(RepeatFrameIrq(b))
  {
  }

  lemma SignalsSame(a: Apu, b: Apu)
    requires ValidChannels(a) && ValidChannels(b) && SameUnit(a, b)
    ensures SameUnit(Signals(a), Signals(b))
    ensures Signals(a) == Voiced(Signals(a), a.sampleAccum, a.samples, a.outputMix)
    ensures Signals(b) == Voiced(Signals(b), b.sampleAccum, b.samples, b.outputMix)
  {
    hide Flush, DelayedReset, RepeatFrameIrq, ValidChannels;
    RepeatSame(a, b);
    FlushSame(RepeatFrameIrq(a), RepeatFrameIrq(b));
    ResetSame(Flush(RepeatFrameIrq(a)), Flush(RepeatFrameIrq(b)));
  }

  lemma TickSame(a: Apu, b: Apu, env: Env)
    requires ValidEnv(env) && ValidChannels(a) && ValidChannels(b) && SameUnit(a, b)
    requires ValidFrame(a.frame, a.reg.frame)
    ensures SameUnit(Tick(a, env), Tick(b, env))
    ensures Tick(a, env) == Voiced(Tick(a, env), a.sampleAccum, a.samples, a.outputMix)
    ensures Tick(b, env) == Voiced(Tick(b, env), b.sampleAccum, b.samples, b.outputMix)
  {
    hide PulseTick, TriangleTick, NoiseTick, DmcTick, FrameTick, ValidPulse, ValidTriangle, ValidNoise, ValidDmc,
         ValidFrame;
  }

  lemma RefreshSame(a: Apu, b: Apu, env: Env)
    requires ValidEnv(env) && ValidChannels(a) && ValidChannels(b) && SameUnit(a, b)
    ensures Refresh(b, env) == Voiced(Refresh(a, env), b.sampleAccum, b.samples, Refresh(a, env).outputMix)
  {
    hide ValidPulse, ValidTriangle, ValidNoise, ValidDmc, PulseOutput, TriangleOutput, NoiseOutput;
  }

  /** A sample falls due with the next cycle. */
  predicate Due(a: Apu) { a.sampleCycleAccum + AUDIO_SAMPLE_RATE >= CPU_CLOCK_RATE }

  /** What a cycle of the given level makes of the sum and the samples. */
  ghost predicate Heard(a: Apu, b: Apu, level: int) {
    if Due(a) then
      b.sampleAccum == 0 && b.sampleCount == 0
      && b.samples == a.samples + [(a.sampleAccum + level) / (a.sampleCount + 1) * 2 - 0x8000]
    else b.sampleAccum == a.sampleAccum + level && b.sampleCount == a.sampleCount + 1 && b.samples == a.samples
  }

  lemma AccumulateHeard(a: Apu)
    requires a.sampleCycleAccum < CPU_CLOCK_RATE && AUDIO_SAMPLE_RATE * a.sampleCount <= a.sampleCycleAccum
    ensures Heard(a, Accumulate(a), a.outputMix)
  {
  }

  lemma FinishSame(a: Apu, b: Apu, env: Env)
    requires ValidEnv(env) && ValidChannels(a) && ValidChannels(b) && SameUnit(a, b)
    requires ValidFrame(a.frame, a.reg.frame)
    requires a.sampleCycleAccum < CPU_CLOCK_RATE && AUDIO_SAMPLE_RATE * a.sampleCount <= a.sampleCycleAccum
    ensures var c, d := Finish(a, env), Finish(b, env);
            && d == Voiced(c, d.sampleAccum, d.samples, c.outputMix)
            && Heard(a, c, c.outputMix) && Heard(b, d, c.outputMix)
  {
    hide ValidPulse, ValidTriangle, ValidNoise, ValidDmc, ValidFrame, CachesAgree, Refresh, Mix;
    RefreshSame(a, b, env);
    AccumulateHeard(Refresh(a, env));
    AccumulateHeard(Refresh(b, env));
  }

  /** A cycle of two units that differ in their sound only. */
  lemma CycleSame(a: Apu, b: Apu, env: Env)
    requires ValidEnv(env) && Inv(a) && SameUnit(a, b)
    ensures Inv(b)
    ensures var c, d := Cycle(a, env), Cycle(b, env);
            && d == Voiced(c, d.sampleAccum, d.samples, c.outputMix)
            && Heard(a, c, c.outputMix) && Heard(b, d, c.outputMix)
  {
    hide Signals, Tick, Finish, ValidPulse, ValidTriangle, ValidNoise, ValidDmc, ValidFrame, CachesAgree, Mix;
    SameValid(a, b, env);
    SignalsSame(a, b);
    TickSame(Signals(a), Signals(b), env);
    FinishSame(Tick(Signals(a), env), Tick(Signals(b), env), env);
  }

  // ------------------------------------------------- units told apart by one sample

  /** Two units that differ in their running sum while they have not handed over a sample, and in the first sample
    * afterwards, and in nothing else but the cached mix.
    */
  predicate SoundOnly(a: Apu, b: Apu) {
    && SameUnit(a, b) && |a.samples| == |b.samples|
    && (a.samples != [] ==> a.sampleAccum == b.sampleAccum && a.samples[1..] == b.samples[1..])
  }

  /** Up to one sample the same, the mix included. */
  predicate Alike(a: Apu, b: Apu) { SoundOnly(a, b) && a.outputMix == b.outputMix }

  lemma CycleAlike(a: Apu, b: Apu, env: Env)
    requires ValidEnv(env) && Inv(a) && Inv(b) && SoundOnly(a, b)
    ensures Alike(Cycle(a, env), Cycle(b, env))
  {
    hide Cycle, Core, ValidEnv;
    CycleSame(a, b, env);
  }

  lemma {:induction false} RunAlike(a: Apu, b: Apu, env: Env, n: nat)
    requires ValidEnv(env) && Inv(a) && Inv(b) && SoundOnly(a, b)
    ensures SoundOnly(Run(a, env, n), Run(b, env, n))
    ensures n > 0 || Alike(a, b) ==> Alike(Run(a, env, n), Run(b, env, n))
  {
    hide Cycle, Inv, ValidEnv, SoundOnly, Mix;
    if n == 0 {
      assert Run(a, env, 0) == a && Run(b, env, 0) == b;
    } else {
      RunAlike(a, b, env, n - 1);
      CycleAlike(Run(a, env, n - 1), Run(b, env, n - 1), env);
    }
  }

  lemma FlushSays(a: Apu, b: Apu)
    requires ValidChannels(a) && ValidChannels(b) && SameUnit(a, b)
    ensures Flush(b) == Voiced(Flush(a), b.sampleAccum, b.samples, b.outputMix)
  {
    hide Flush, ValidChannels;
    FlushSame(a, b);
  }

  lemma WritePulseSame(a: Apu, b: Apu, second: bool, r: nat, val: u8)
    requires ValidChannels(a) && ValidChannels(b) && SameUnit(a, b) && r < 4
    ensures SameUnit(WritePulse(a, second, r, val), WritePulse(b, second, r, val))
  {
    hide ValidTriangle, ValidNoise, ValidDmc, Flush, SweepTarget;
    FlushSays(a, b);
    if r == 3 {
      var reg := PulseRegOf(a, second).(r3 := val);
      var p := Retimed(PulseOf(a, second), reg).(dutyIdx := 0);
      FlushSays(SetPulse(SetPulseReg(a, second, reg), second, p), SetPulse(SetPulseReg(b, second, reg), second, p));
    }
  }

  lemma WriteTriangleSame(a: Apu, b: Apu, r: nat, val: u8)
    requires ValidChannels(a) && ValidChannels(b) && SameUnit(a, b) && r < 4
    ensures SameUnit(WriteTriangle(a, r, val), WriteTriangle(b, r, val))
  {
    hide ValidPulse, ValidNoise, ValidDmc, Flush;
    FlushSays(a, b);
    if r == 3 {
      var reg := a.reg.triangle.(r3 := val);
      var t := a.triangle.(timer := a.triangle.timer.(period := reg.TimerPeriod()));
      FlushSays(a.(reg := a.reg.(triangle := reg), triangle := t), b.(reg := b.reg.(triangle := reg), triangle := t));
    }
  }

  lemma WriteNoiseSame(a: Apu, b: Apu, r: nat, val: u8)
    requires ValidChannels(a) && ValidChannels(b) && SameUnit(a, b) && r < 4
    ensures SameUnit(WriteNoise(a, r, val), WriteNoise(b, r, val))
  {
    hide ValidPulse, ValidTriangle, ValidDmc, Flush;
    FlushSays(a, b);
    if r == 3 {
      var reg := a.reg.noise.(r3 := val);
      FlushSays(a.(reg := a.reg.(noise := reg)), b.(reg := b.reg.(noise := reg)));
    }
  }

  lemma WriteOthersSame(a: Apu, b: Apu, r: nat, val: u8)
    requires ValidChannels(a) && ValidChannels(b) && SameUnit(a, b) && r < 4
    ensures SameUnit(WriteDmc(a, r, val), WriteDmc(b, r, val))
    ensures SameUnit(WriteStatus(a, val), WriteStatus(b, val)) && SameUnit(WriteFrame(a, val), WriteFrame(b, val))
  {
    hide ValidPulse, ValidTriangle, ValidNoise, StatusOfByte, NoisePeriod, DmcRate;
  }

  lemma WriteSame(a: Apu, b: Apu, offs: nat, val: u8)
    requires ValidChannels(a) && ValidChannels(b) && SameUnit(a, b) && IsRegister(offs)
    ensures SameUnit(Write(a, offs, val), Write(b, offs, val))
  {
    hide WritePulse, WriteTriangle, WriteNoise, WriteDmc, WriteStatus, WriteFrame, ValidChannels, SameUnit;
    if offs < 4 {
      WritePulseSame(a, b, false, offs, val);
    } else if offs < 8 {
      WritePulseSame(a, b, true, offs - 4, val);
    } else if offs < 12 {
      WriteTriangleSame(a, b, offs - 8, val);
    } else if offs < 16 {
      WriteNoiseSame(a, b, offs - 12, val);
    } else if offs < 20 {
      WriteOthersSame(a, b, offs - 16, val);
    } else {
      WriteOthersSame(a, b, 0, val);
    }
  }

  /** A register write does the same to both, and makes both mixes right. */
  lemma WriteAlike(a: Apu, b: Apu, env: Env, offs: nat, val: u8)
    requires ValidEnv(env) && Inv(a) && Inv(b) && Alike(a, b) && IsRegister(offs)
    ensures ValidChannels(a) && ValidChannels(b)
    ensures Alike(Refresh(Write(a, offs, val), env), Refresh(Write(b, offs, val), env))
  {
    hide Write, Refresh, ValidPulse, ValidTriangle, ValidNoise, ValidDmc, ValidFrame, CachesAgree, Mix;
    WriteSame(a, b, offs, val);
    RefreshSame(Write(a, offs, val), Write(b, offs, val), env);
    WriteKeepsInv(a, env, offs, val);
    WriteKeepsInv(b, env, offs, val);
  }
}
