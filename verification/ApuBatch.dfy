/** Why the audio unit may jump: up to the next channel event nothing audible happens.
  */
module ApuBatch {
  import opened Common
  import opened ApuTypes
  import opened ApuChannels
  import opened ApuReference

  /** apu.c:833: CPU cycles up to and including the given APU tick. */
  function ApuToCpuCycles(ticks: nat, halfPhase: nat): nat
    requires ticks >= 1 && halfPhase <= 1
  {
    2 * ticks - halfPhase
  }

  /** apu.c:831-853. */
  function CyclesToChannelEvent(a: Apu): (cycles: nat)
    requires Core(a)
    ensures cycles >= 1
  {
    var h := a.HalfPhase();
    var c0 := if a.triangle.lengthCounter != 0 && a.triangle.linearCounter != 0
              then a.triangle.timer.countdown + 1 else UINT32_MAX;
    var c1 := if !a.pulse1.sweep.mute && a.pulse1.lengthCounter != 0
              then Min(c0, ApuToCpuCycles(a.pulse1.timer.countdown + 1, h)) else c0;
    var c2 := if !a.pulse2.sweep.mute && a.pulse2.lengthCounter != 0
              then Min(c1, ApuToCpuCycles(a.pulse2.timer.countdown + 1, h)) else c1;
    var c3 := Min(c2, ApuToCpuCycles(a.noise.timer.countdown, h));
    var c4 := Min(c3, ApuToCpuCycles(a.dmc.timer.countdown, h));
    var c5 := Min(c4, ApuToCpuCycles(FrameStep(a.frame.step) - a.frame.countdown + 1, h));
    Min(c5, (CPU_CLOCK_RATE - a.sampleCycleAccum + AUDIO_SAMPLE_RATE - 1) / AUDIO_SAMPLE_RATE)
  }

  /** What the jump length promises each unit: no event strictly inside, at most one at the end. */
  ghost predicate WithinEvents(a: Apu, cycles: nat)
    requires Core(a)
  {
    var t := a.TicksIn(cycles);
    && (a.triangle.Stopped() || cycles <= a.triangle.timer.countdown + 1)
    && (a.pulse1.Silent() || t <= a.pulse1.timer.countdown + 1)
    && (a.pulse2.Silent() || t <= a.pulse2.timer.countdown + 1)
    && t <= a.noise.timer.countdown
    && t <= a.dmc.timer.countdown
    && a.frame.countdown + t <= FrameStep(a.frame.step) + 1
  }

  ghost predicate StrictlyWithinEvents(a: Apu, cycles: nat)
    requires Core(a)
  {
    var t := a.TicksIn(cycles);
    && (a.triangle.Stopped() || cycles <= a.triangle.timer.countdown)
    && (a.pulse1.Silent() || t <= a.pulse1.timer.countdown)
    && (a.pulse2.Silent() || t <= a.pulse2.timer.countdown)
    && t < a.noise.timer.countdown
    && t < a.dmc.timer.countdown
    && a.frame.countdown + t <= FrameStep(a.frame.step)
    && a.sampleCycleAccum + AUDIO_SAMPLE_RATE * cycles < CPU_CLOCK_RATE
  }

  /** Every "ticks overflow" assertion of the source holds, from either half-phase. */
  lemma NoEventOvershot(a: Apu, cycles: nat)
    requires Core(a)
    ensures cycles <= CyclesToChannelEvent(a) ==> WithinEvents(a, cycles)
    ensures cycles < CyclesToChannelEvent(a) ==>
              && StrictlyWithinEvents(a, cycles)
              && a.sampleCycleAccum + AUDIO_SAMPLE_RATE * cycles < CPU_CLOCK_RATE
  {
    hide ValidPulse, ValidTriangle, ValidNoise, ValidDmc, ValidFrame, CachesAgree;
    var h := a.HalfPhase();
    var room := CPU_CLOCK_RATE - a.sampleCycleAccum;
    assert room + AUDIO_SAMPLE_RATE - 1 < AUDIO_SAMPLE_RATE * ((room + AUDIO_SAMPLE_RATE - 1) / AUDIO_SAMPLE_RATE + 1);
  }

  // ------------------------------------------------- several cycles at once

  /** The units after some cycles without frame signals, each by itself. */
  function Advance(a: Apu, env: Env, cycles: nat): (a': Apu)
    requires ValidEnv(env) && ValidChannels(a) && ValidFrame(a.frame, a.reg.frame)
    ensures ValidChannels(a') && ValidFrame(a'.frame, a'.reg.frame)
    ensures a' == a.(pulse1 := a'.pulse1, pulse2 := a'.pulse2, triangle := a'.triangle, noise := a'.noise,
                     dmc := a'.dmc, frame := a'.frame,
                     reg := a.reg.(status := a.reg.status.(frameIrq := a'.reg.status.frameIrq,
                                                           dmcIrq := a'.reg.status.dmcIrq)))
  {
    hide ValidPulse, ValidTriangle, ValidNoise, ValidDmc, ValidFrame;
    var t := a.TicksIn(cycles);
    var frame := FrameTicks(FrameUnit(a.frame, a.reg.status.frameIrq), a.reg.frame, t);
    var dmc := DmcTicks(DmcUnit(a.dmc, a.reg.status.dmcIrq), a.reg.dmc, env.prg, t);
    a.(pulse1 := PulseTicks(a.pulse1, t), pulse2 := PulseTicks(a.pulse2, t),
       triangle := TriangleTicks(a.triangle, cycles), noise := NoiseTicks(a.noise, a.reg.noise, t),
       dmc := dmc.dmc, frame := frame.frame,
       reg := a.reg.(status := a.reg.status.(frameIrq := frame.irq, dmcIrq := dmc.irq)))
  }

  lemma AdvanceStep(a: Apu, env: Env, cycles: nat)
    requires ValidEnv(env) && ValidChannels(a) && ValidFrame(a.frame, a.reg.frame)
    ensures Tick(Advance(a, env, cycles).(cycles2x := a.cycles2x + cycles), env) ==
            Advance(a, env, cycles + 1).(cycles2x := a.cycles2x + cycles)
  {
    hide ValidPulse, ValidTriangle, ValidNoise, ValidDmc, ValidFrame,
         PulseTick, TriangleTick, NoiseTick, DmcTick, FrameTick;
    var x := Advance(a, env, cycles).(cycles2x := a.cycles2x + cycles);
    if x.HalfPhase() == 1 {
      assert a.TicksIn(cycles + 1) == a.TicksIn(cycles) + 1;
    } else {
      assert a.TicksIn(cycles + 1) == a.TicksIn(cycles);
    }
  }

  /** Strictly before the next event no level changes and no frame signal is scheduled. */
  lemma AdvanceQuiet(a: Apu, env: Env, cycles: nat)
    requires ValidEnv(env) && Core(a) && StrictlyWithinEvents(a, cycles)
    ensures var q := Advance(a, env, cycles);
            && CachesAgree(q) && Mix(q, env) == Mix(a, env)
            && q.frame == a.frame.(countdown := q.frame.countdown)
  {
    hide ValidPulse, ValidTriangle, ValidNoise, ValidDmc, ValidFrame, PulseOutput, TriangleOutput, NoiseOutput;
    var t := a.TicksIn(cycles);
    PulseTicksQuiet(a.pulse1, a.reg.pulse1, t);
    PulseTicksQuiet(a.pulse2, a.reg.pulse2, t);
    TriangleTicksQuiet(a.triangle, cycles);
    NoiseTicksQuiet(a.noise, a.reg.noise, t);
    DmcTicksQuiet(DmcUnit(a.dmc, a.reg.status.dmcIrq), a.reg.dmc, env.prg, t);
    FrameTicksBeforeStep(FrameUnit(a.frame, a.reg.status.frameIrq), a.reg.frame, t);
  }

  /** The whole object after some quiet cycles: one product replaces the repeated addition. */
  ghost function Quiet(a: Apu, env: Env, cycles: nat): Apu
    requires ValidEnv(env) && Inv(a)
  {
    var q := Advance(a, env, cycles);
    q.(cycles2x := a.cycles2x + cycles,
       sampleAccum := a.sampleAccum + Mix(a, env) * cycles,
       sampleCount := a.sampleCount + cycles,
       sampleCycleAccum := a.sampleCycleAccum + AUDIO_SAMPLE_RATE * cycles,
       outputMix := if cycles == 0 then a.outputMix else Mix(a, env),
       irq := q.IrqFlags())
  }

  lemma RefreshAgreeing(a: Apu, env: Env)
    requires ValidEnv(env) && ValidChannels(a) && CachesAgree(a)
    ensures Refresh(a, env) == a.(outputMix := Mix(a, env))
  {
  }

  lemma MixIgnoresCounters(a: Apu, b: Apu, env: Env)
    requires ValidEnv(env) && ValidChannels(a)
    requires b == a.(cycles2x := b.cycles2x, sampleAccum := b.sampleAccum, sampleCount := b.sampleCount,
                     sampleCycleAccum := b.sampleCycleAccum, samples := b.samples,
                     outputMix := b.outputMix, irq := b.irq)
    ensures ValidChannels(b) && Mix(a, env) == Mix(b, env) && CachesAgree(a) == CachesAgree(b)
  {
  }

  /** One more quiet cycle, up to the moment it becomes audible. */
  lemma QuietTick(a: Apu, env: Env, cycles: nat)
    requires ValidEnv(env) && Inv(a) && !a.frame.Pending() && StrictlyWithinEvents(a, cycles)
    requires Inv(Quiet(a, env, cycles))
    ensures var b := Quiet(a, env, cycles);
            var u := Advance(a, env, cycles + 1);
            Tick(Signals(b), env) == u.(cycles2x := b.cycles2x, sampleAccum := b.sampleAccum,
                                        sampleCount := b.sampleCount, sampleCycleAccum := b.sampleCycleAccum,
                                        outputMix := b.outputMix, irq := b.irq)
  {
    hide ValidPulse, ValidTriangle, ValidNoise, ValidDmc, ValidFrame, CachesAgree, Tick, Mix;
    var b := Quiet(a, env, cycles);
    AdvanceQuiet(a, env, cycles);
    assert Signals(b) == b;
    AdvanceStep(a, env, cycles);
    TickIgnoresCounters(Advance(a, env, cycles).(cycles2x := b.cycles2x), b, env);
  }

  lemma TickIgnoresCounters(a: Apu, b: Apu, env: Env)
    requires ValidEnv(env) && ValidChannels(a) && ValidFrame(a.frame, a.reg.frame)
    requires b == a.(sampleAccum := b.sampleAccum, sampleCount := b.sampleCount,
                     sampleCycleAccum := b.sampleCycleAccum, outputMix := b.outputMix, irq := b.irq)
    ensures ValidChannels(b)
    ensures Tick(b, env) == Tick(a, env).(sampleAccum := b.sampleAccum, sampleCount := b.sampleCount,
                                          sampleCycleAccum := b.sampleCycleAccum,
                                          outputMix := b.outputMix, irq := b.irq)
  {
    hide ValidPulse, ValidTriangle, ValidNoise, ValidDmc, ValidFrame,
         PulseTick, TriangleTick, NoiseTick, DmcTick, FrameTick;
  }

  lemma QuietFinish(a: Apu, env: Env, cycles: nat, v: Apu)
    requires ValidEnv(env) && Inv(a) && ValidChannels(v) && ValidFrame(v.frame, v.reg.frame)
    requires Mix(Advance(a, env, cycles + 1), env) == Mix(a, env)
    requires CachesAgree(Advance(a, env, cycles + 1))
    requires a.sampleCycleAccum + AUDIO_SAMPLE_RATE * (cycles + 1) < CPU_CLOCK_RATE
    requires var b := Quiet(a, env, cycles);
             v == Advance(a, env, cycles + 1).(
                    cycles2x := b.cycles2x, sampleAccum := b.sampleAccum,
                    sampleCount := b.sampleCount, sampleCycleAccum := b.sampleCycleAccum,
                    outputMix := b.outputMix, irq := b.irq)
    ensures Finish(v, env) == Quiet(a, env, cycles + 1)
  {
    hide ValidPulse, ValidTriangle, ValidNoise, ValidDmc, ValidFrame, CachesAgree, Refresh, Advance, Mix;
    MixIgnoresCounters(Advance(a, env, cycles + 1), v, env);
    RefreshAgreeing(v, env);
    assert Mix(a, env) * cycles + Mix(a, env) == Mix(a, env) * (cycles + 1);
  }

  /** Strictly before the next event, running cycle by cycle only counts. */
  lemma {:induction false} QuietRun(a: Apu, env: Env, cycles: nat)
    requires ValidEnv(env) && Inv(a) && !a.frame.Pending()
    requires cycles < CyclesToChannelEvent(a)
    ensures Run(a, env, cycles) == Quiet(a, env, cycles)
  {
    hide ValidPulse, ValidTriangle, ValidNoise, ValidDmc, ValidFrame, CachesAgree,
         CyclesToChannelEvent, Tick, Signals, Finish, Advance, Mix, StrictlyWithinEvents;
    NoEventOvershot(a, cycles);
    AdvanceQuiet(a, env, cycles);
    if cycles == 0 {
      AdvanceNothing(a, env);
    } else {
      NoEventOvershot(a, cycles - 1);
      QuietRun(a, env, cycles - 1);
      QuietTick(a, env, cycles - 1);
      QuietFinish(a, env, cycles - 1, Tick(Signals(Quiet(a, env, cycles - 1)), env));
    }
  }

  lemma AdvanceNothing(a: Apu, env: Env)
    requires ValidEnv(env) && ValidChannels(a) && ValidFrame(a.frame, a.reg.frame)
    ensures Advance(a, env, 0) == a
  {
  }

  // ----------------------------------------------------------------- a jump

  /** apu.c:882-905.  The level held before the jump counts for all its cycles but the last. */
  function AccumulateMany(a: Apu, before: int, cycles: nat): Apu
    requires cycles >= 1
  {
    var b := a.(sampleAccum := a.sampleAccum + before * (cycles - 1) + a.outputMix,
                sampleCount := a.sampleCount + cycles,
                sampleCycleAccum := a.sampleCycleAccum + AUDIO_SAMPLE_RATE * cycles);
    if b.sampleCycleAccum < CPU_CLOCK_RATE then b
    else
      b.(samples := b.samples + [b.sampleAccum / b.sampleCount * 2 - 0x8000],
         sampleAccum := 0, sampleCount := 0,
         sampleCycleAccum := b.sampleCycleAccum - CPU_CLOCK_RATE)
  }

  /** What one pass of the source's loop does after the frame signals have been dealt with. */
  ghost function Jump(a: Apu, env: Env, cycles: nat): Apu
    requires ValidEnv(env) && Core(a) && cycles >= 1
  {
    AccumulateMany(Refresh(Advance(a, env, cycles), env), a.outputMix, cycles).(
      cycles2x := a.cycles2x + cycles)
  }

  /** Charge a stale cached mix for the cycles of a first jump: nothing when the cache is right. */
  ghost function Corrected(a: Apu, env: Env, cycles: nat): (c: Apu)
    requires ValidEnv(env) && Inv(a)
    ensures Inv(c)
  {
    if cycles == 0 then a
    else a.(sampleAccum := a.sampleAccum + (a.outputMix - Mix(a, env)) * (cycles - 1))
  }

  /** Frame signals leave the caches right and touch nothing else the next tick looks at. */
  ghost predicate AfterSignals(a: Apu, b: Apu, env: Env)
    requires ValidEnv(env) && Core(a)
  {
    && b == Refresh(Signals(a), env).(outputMix := b.outputMix)
    && (!a.frame.Pending() ==> b == a)
  }

  lemma AfterSignalsCore(a: Apu, b: Apu, env: Env)
    requires ValidEnv(env) && Core(a) && AfterSignals(a, b, env)
    ensures Core(b)
  {
    hide Signals, Mix, ValidPulse, ValidTriangle, ValidNoise, ValidDmc, ValidFrame,
         PulseOutput, TriangleOutput, NoiseOutput;
  }

  lemma PulseLevelIgnored(p: Pulse, level: nat, reg: PulseReg)
    requires ValidPulse(p)
    ensures var q := p.(output := level);
            && ValidPulse(q)
            && PulseTick(q) == PulseTick(p).(output := level)
            && PulseOutput(PulseTick(q), reg) == PulseOutput(PulseTick(p), reg)
            && PulseOutput(q, reg) == PulseOutput(p, reg)
  {
  }

  lemma TriangleLevelIgnored(t: Triangle, level: nat)
    requires ValidTriangle(t)
    ensures var q := t.(output := level);
            && ValidTriangle(q)
            && TriangleTick(q) == TriangleTick(t).(output := level)
            && TriangleOutput(TriangleTick(q)) == TriangleOutput(TriangleTick(t))
            && TriangleOutput(q) == TriangleOutput(t)
  {
  }

  lemma NoiseLevelIgnored(n: Noise, level: nat, reg: NoiseReg)
    requires ValidNoise(n)
    ensures var q := n.(output := level);
            && ValidNoise(q)
            && NoiseTick(q, reg) == NoiseTick(n, reg).(output := level)
            && NoiseOutput(NoiseTick(q, reg), reg) == NoiseOutput(NoiseTick(n, reg), reg)
            && NoiseOutput(q, reg) == NoiseOutput(n, reg)
  {
  }

  /** a with the cached levels of b. */
  function WithLevels(a: Apu, b: Apu): Apu {
    a.(pulse1 := a.pulse1.(output := b.pulse1.output), pulse2 := a.pulse2.(output := b.pulse2.output),
       triangle := a.triangle.(output := b.triangle.output), noise := a.noise.(output := b.noise.output),
       tndIndexBase := b.tndIndexBase, outputMix := b.outputMix)
  }

  lemma RefreshIgnoresLevels(a: Apu, b: Apu, env: Env)
    requires ValidEnv(env) && ValidChannels(a)
    ensures ValidChannels(WithLevels(a, b)) && Refresh(WithLevels(a, b), env) == Refresh(a, env)
  {
    PulseLevelIgnored(a.pulse1, b.pulse1.output, a.reg.pulse1);
    PulseLevelIgnored(a.pulse2, b.pulse2.output, a.reg.pulse2);
    TriangleLevelIgnored(a.triangle, b.triangle.output);
    NoiseLevelIgnored(a.noise, b.noise.output, a.reg.noise);
    hide ValidPulse, ValidTriangle, ValidNoise, ValidDmc, PulseOutput, TriangleOutput, NoiseOutput;
  }

  lemma TickKeepsLevels(a: Apu, b: Apu, env: Env)
    requires ValidEnv(env) && ValidChannels(a) && ValidFrame(a.frame, a.reg.frame)
    requires b == WithLevels(a, b)
    ensures ValidChannels(b) && Tick(b, env) == WithLevels(Tick(a, env), b)
  {
    PulseLevelIgnored(a.pulse1, b.pulse1.output, a.reg.pulse1);
    PulseLevelIgnored(a.pulse2, b.pulse2.output, a.reg.pulse2);
    TriangleLevelIgnored(a.triangle, b.triangle.output);
    NoiseLevelIgnored(a.noise, b.noise.output, a.reg.noise);
    hide ValidPulse, ValidTriangle, ValidNoise, ValidDmc, ValidFrame, PulseTick, TriangleTick, NoiseTick,
         DmcTick, FrameTick, PulseOutput, TriangleOutput, NoiseOutput;
  }

  lemma TickIgnoresLevels(a: Apu, b: Apu, env: Env)
    requires ValidEnv(env) && ValidChannels(a) && ValidFrame(a.frame, a.reg.frame)
    requires b == Refresh(a, env).(outputMix := b.outputMix)
    ensures Refresh(Tick(a, env), env) == Refresh(Tick(b, env), env)
  {
    assert b == WithLevels(a, b);
    hide ValidPulse, ValidTriangle, ValidNoise, ValidDmc, ValidFrame, Tick, Refresh, WithLevels;
    TickKeepsLevels(a, b, env);
    RefreshIgnoresLevels(Tick(a, env), b, env);
  }

  lemma TickIsAdvance(a: Apu, env: Env)
    requires ValidEnv(env) && ValidChannels(a) && ValidFrame(a.frame, a.reg.frame)
    ensures Tick(a, env) == Advance(a, env, 1)
  {
    hide Tick, Advance;
    AdvanceNothing(a, env);
    AdvanceStep(a, env, 0);
  }

  /** A jump of one cycle is one cycle, whatever signals came first. */
  lemma JumpOne(a: Apu, b: Apu, env: Env)
    requires ValidEnv(env) && Inv(a) && AfterSignals(a, b, env) && Core(b)
    ensures var j := Jump(b, env, 1); j.(irq := j.IrqFlags()) == Cycle(a, env)
  {
    hide ValidPulse, ValidTriangle, ValidNoise, ValidDmc, ValidFrame, CachesAgree,
         Tick, Signals, Advance, Mix, Refresh;
    TickIsAdvance(b, env);
    TickIgnoresLevels(Signals(a), b, env);
    var x := Refresh(Tick(Signals(a), env), env);
    assert b.outputMix * 0 == 0;
    assert Finish(Tick(Signals(a), env), env) ==
      Accumulate(x).(cycles2x := x.cycles2x + 1, irq := Accumulate(x).IrqFlags());
  }

  /** A longer jump, which the source takes only when no signal is waiting. */
  lemma JumpMany(a: Apu, env: Env, cycles: nat)
    requires ValidEnv(env) && Inv(a) && !a.frame.Pending()
    requires 2 <= cycles <= CyclesToChannelEvent(a)
    ensures var j := Jump(a, env, cycles);
            j.(irq := j.IrqFlags()) == Run(Corrected(a, env, cycles), env, cycles)
  {
    hide ValidPulse, ValidTriangle, ValidNoise, ValidDmc, ValidFrame, CachesAgree,
         CyclesToChannelEvent, Signals, Finish, Advance, Mix, StrictlyWithinEvents;
    var c := Corrected(a, env, cycles);
    CorrectionInaudible(a, env, cycles);
    NoEventOvershot(c, cycles - 1);
    QuietRun(c, env, cycles - 1);
    QuietTick(c, env, cycles - 1);
    JumpFinish(a, c, env, cycles, Tick(Signals(Quiet(c, env, cycles - 1)), env));
  }

  /** Only the accumulator tells a corrected state from the state itself. */
  lemma CorrectionInaudible(a: Apu, env: Env, cycles: nat)
    requires ValidEnv(env) && Inv(a)
    ensures var c := Corrected(a, env, cycles);
            && c == a.(sampleAccum := c.sampleAccum)
            && Mix(c, env) == Mix(a, env)
            && CyclesToChannelEvent(c) == CyclesToChannelEvent(a)
            && Advance(c, env, cycles) == Advance(a, env, cycles).(sampleAccum := c.sampleAccum)
  {
    hide CyclesToChannelEvent, Mix, Core, Corrected, Advance;
    var c := Corrected(a, env, cycles);
    OnlyAccumCorrected(a, env, cycles);
    EventIgnoresAccum(a, c);
    MixIgnoresCounters(a, c, env);
    AdvanceIgnoresAccum(a, c, env, cycles);
  }

  lemma OnlyAccumCorrected(a: Apu, env: Env, cycles: nat)
    requires ValidEnv(env) && Inv(a)
    ensures ValidChannels(a) && Core(a) && Core(Corrected(a, env, cycles))
    ensures Corrected(a, env, cycles) == a.(sampleAccum := Corrected(a, env, cycles).sampleAccum)
  {
    hide Mix, ValidPulse, ValidTriangle, ValidNoise, ValidDmc, ValidFrame, CachesAgree;
  }

  lemma AdvanceIgnoresAccum(a: Apu, c: Apu, env: Env, cycles: nat)
    requires ValidEnv(env) && Core(a) && Core(c) && c == a.(sampleAccum := c.sampleAccum)
    ensures Advance(c, env, cycles) == Advance(a, env, cycles).(sampleAccum := c.sampleAccum)
  {
    hide ValidPulse, ValidTriangle, ValidNoise, ValidDmc, ValidFrame, CachesAgree,
         PulseTicks, TriangleTicks, NoiseTicks, DmcTicks, FrameTicks;
  }

  lemma EventIgnoresAccum(a: Apu, c: Apu)
    requires Core(a) && c == a.(sampleAccum := c.sampleAccum)
    ensures Core(c) && CyclesToChannelEvent(c) == CyclesToChannelEvent(a)
  {
  }

  /** Having added the held level one cycle at a time is having added its product. */
  lemma AccumulateLast(x: Apu, y: Apu, before: int, cycles: nat)
    requires cycles >= 1
    requires y.sampleCycleAccum + AUDIO_SAMPLE_RATE * (cycles - 1) < CPU_CLOCK_RATE
    requires AUDIO_SAMPLE_RATE * y.sampleCount <= y.sampleCycleAccum
    requires x == y.(cycles2x := x.cycles2x, irq := x.irq,
                     sampleAccum := y.sampleAccum + before * (cycles - 1),
                     sampleCount := y.sampleCount + (cycles - 1),
                     sampleCycleAccum := y.sampleCycleAccum + AUDIO_SAMPLE_RATE * (cycles - 1))
    ensures Accumulate(x) == AccumulateMany(y, before, cycles).(cycles2x := x.cycles2x, irq := x.irq)
  {
    var sum := before * (cycles - 1);
  }

  lemma JumpFinish(a: Apu, c: Apu, env: Env, cycles: nat, v: Apu)
    requires ValidEnv(env) && Inv(a) && c == Corrected(a, env, cycles) && cycles >= 2
    requires a.sampleCycleAccum + AUDIO_SAMPLE_RATE * (cycles - 1) < CPU_CLOCK_RATE
    requires Mix(c, env) == Mix(a, env)
    requires Advance(c, env, cycles) == Advance(a, env, cycles).(sampleAccum := c.sampleAccum)
    requires ValidChannels(v) && ValidFrame(v.frame, v.reg.frame)
    requires var b := Quiet(c, env, cycles - 1);
             v == Advance(c, env, cycles).(
                    cycles2x := b.cycles2x, sampleAccum := b.sampleAccum,
                    sampleCount := b.sampleCount, sampleCycleAccum := b.sampleCycleAccum,
                    outputMix := b.outputMix, irq := b.irq)
    ensures var j := Jump(a, env, cycles); j.(irq := j.IrqFlags()) == Finish(v, env)
  {
    hide ValidPulse, ValidTriangle, ValidNoise, ValidDmc, ValidFrame, CachesAgree, Advance, Mix, Refresh,
         AccumulateMany, Accumulate;
    var u := Advance(a, env, cycles);
    RefreshIgnoresCounters(u, v, env);
    var m := Mix(a, env);
    assert (a.outputMix - m) * (cycles - 1) + m * (cycles - 1) == a.outputMix * (cycles - 1);
    AccumulateLast(Refresh(v, env), Refresh(u, env), a.outputMix, cycles);
  }

  lemma RefreshIgnoresCounters(a: Apu, b: Apu, env: Env)
    requires ValidEnv(env) && ValidChannels(a)
    requires b == a.(cycles2x := b.cycles2x, sampleAccum := b.sampleAccum, sampleCount := b.sampleCount,
                     sampleCycleAccum := b.sampleCycleAccum, outputMix := b.outputMix, irq := b.irq)
    ensures ValidChannels(b)
    ensures Refresh(b, env) ==
            Refresh(a, env).(cycles2x := b.cycles2x, sampleAccum := b.sampleAccum, sampleCount := b.sampleCount,
                             sampleCycleAccum := b.sampleCycleAccum, irq := b.irq)
  {
    hide ValidPulse, ValidTriangle, ValidNoise, ValidDmc, PulseOutput, TriangleOutput, NoiseOutput;
  }
}
