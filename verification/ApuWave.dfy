/** The waveforms: what each channel puts out after any number of cycles, and how the levels become samples.
  */
module ApuWave {
  import opened Common
  import opened ApuTypes
  import opened ApuChannels
  import opened ApuReference
  import opened ApuIrq
  import opened ApuClocks
  import opened ApuSweep
  import opened ApuStale
  import opened ApuTheorems
  import opened ApuHeard
  import ApuDevice

  // -------------------------------------------------------------------- a free timer

  /** How often a timer with the given period, now at c, has run out after t ticks, and where it then stands. */
  function RunsOut(c: nat, period: nat, t: nat): nat { if t <= c then 0 else (t - c - 1) / (period + 1) + 1 }

  function StandsAt(c: nat, period: nat, t: nat): int { if t <= c then c - t else period - (t - c - 1) % (period + 1) }

  lemma OneTick(c: nat, period: nat, t: nat)
    ensures if StandsAt(c, period, t) > 0 then
              && StandsAt(c, period, t + 1) == StandsAt(c, period, t) - 1
              && RunsOut(c, period, t + 1) == RunsOut(c, period, t)
            else
              && StandsAt(c, period, t) == 0 && StandsAt(c, period, t + 1) == period
              && RunsOut(c, period, t + 1) == RunsOut(c, period, t) + 1
  {
    if t > c {
      DivModStep(t - c - 1, period + 1);
    }
  }

  lemma NoTick(c: nat, period: nat)
    ensures StandsAt(c, period, 0) == c && RunsOut(c, period, 0) == 0
  {
  }

  // ------------------------------------------------------------------------ the pulses

  /** One cycle of the two pulse sequencers: with each tick of the unit. */
  lemma CyclePulses(a: Apu, env: Env)
    requires ValidEnv(env) && Inv(a)
    ensures var b, s := Cycle(a, env), Signals(a);
            && Sequenced(a.pulse1, b.pulse1, s.pulse1.timer.period, a.HalfPhase() == 1)
            && Sequenced(a.pulse2, b.pulse2, s.pulse2.timer.period, a.HalfPhase() == 1)
  {
    hide Signals, Accumulate, ValidPulse, ValidTriangle, ValidNoise, ValidDmc, ValidFrame, CachesAgree,
         DmcTick, FrameTick, NoiseTick, Mix, PulseOutput, TriangleOutput, NoiseOutput;
    ChannelsValid(a);
    SignalsKeepSteps(a);
    DutiesValid(a);
  }

  predicate Sequenced(p: Pulse, q: Pulse, period: nat, ticked: bool) {
    if !ticked then q.timer.countdown == p.timer.countdown && q.dutyIdx == p.dutyIdx
    else if p.timer.countdown > 0 then q.timer.countdown == p.timer.countdown - 1 && q.dutyIdx == p.dutyIdx
    else q.timer.countdown == period && q.dutyIdx == (if p.dutyIdx == 0 then 7 else p.dutyIdx - 1)
  }

  /** Countdowns and steps are as they were. */
  predicate SameSteps(a: Apu, b: Apu) {
    && b.pulse1.timer.countdown == a.pulse1.timer.countdown && b.pulse1.dutyIdx == a.pulse1.dutyIdx
    && b.pulse2.timer.countdown == a.pulse2.timer.countdown && b.pulse2.dutyIdx == a.pulse2.dutyIdx
    && b.triangle.timer == a.triangle.timer && b.triangle.sequenceIdx == a.triangle.sequenceIdx
    && b.noise.timer == a.noise.timer && b.noise.shiftReg == a.noise.shiftReg
  }

  lemma SignalsKeepSteps(a: Apu)
    requires ValidChannels(a)
    ensures SameSteps(a, Signals(a))
  {
    hide Flush, DelayedReset, ValidPulse, ValidTriangle, ValidNoise, ValidDmc;
    FlushKeepsSteps(RepeatFrameIrq(a));
    ResetKeepsSteps(Flush(RepeatFrameIrq(a)));
  }

  lemma FlushKeepsSteps(a: Apu)
    requires ValidChannels(a)
    ensures SameSteps(a, Flush(a))
  {
    hide HalfFrame, QuarterFrame, ValidPulse, ValidTriangle, ValidNoise, ValidDmc;
    var q := a.(frame := a.frame.(pendingQuarter := false));
    ClocksKeepSteps(q);
    ClocksKeepSteps(QuarterFrame(q).(frame := QuarterFrame(q).frame.(pendingHalf := false)));
    ClocksKeepSteps(a.(frame := a.frame.(pendingHalf := false)));
  }

  lemma ResetKeepsSteps(a: Apu)
    requires ValidChannels(a)
    ensures SameSteps(a, DelayedReset(a))
  {
    hide HalfFrame, QuarterFrame, ValidPulse, ValidTriangle, ValidNoise, ValidDmc;
    var b := a.(frame := a.frame.(resetDelay := 0, countdown := 0, step := 0));
    ClocksKeepSteps(b);
    ClocksKeepSteps(QuarterFrame(b));
  }

  lemma ClocksKeepSteps(a: Apu)
    requires ValidChannels(a)
    ensures SameSteps(a, QuarterFrame(a)) && SameSteps(a, HalfFrame(a))
  {
    hide ValidTriangle, ValidNoise, ValidDmc, EnvelopeTick, LengthTick;
  }

  /** Where a sequencer stands t ticks after p, its period being left alone. */
  ghost predicate AtStep(p: Pulse, q: Pulse, t: nat) {
    && q.timer.countdown == StandsAt(p.timer.countdown, p.timer.period, t)
    && q.dutyIdx == Down(p.dutyIdx, RunsOut(p.timer.countdown, p.timer.period, t))
  }

  lemma StepNext(p: Pulse, q: Pulse, r: Pulse, t: nat, ticked: bool)
    requires AtStep(p, q, t) && Sequenced(q, r, p.timer.period, ticked)
    ensures AtStep(p, r, if ticked then t + 1 else t)
  {
    hide StandsAt, RunsOut, Down;
    OneTick(p.timer.countdown, p.timer.period, t);
    OneDown(p.dutyIdx, RunsOut(p.timer.countdown, p.timer.period, t));
  }

  lemma StepFirst(p: Pulse)
    requires p.dutyIdx < 8
    ensures AtStep(p, p, 0)
  {
    NotDown(p.dutyIdx);
  }

  /** A pulse whose sweep is off takes its eight steps downwards, one every P + 1 ticks of the unit. */
  lemma {:induction false} PulseSteps(a: Apu, env: Env, n: nat)
    requires ValidEnv(env) && Inv(a) && OnBeat(a)
    ensures var b, t := Run(a, env, n), (n + a.cycles2x % 2) / 2;
            && (a.reg.pulse1.r1 < 128 || a.reg.pulse1.r1 % 8 == 0 ==> AtStep(a.pulse1, b.pulse1, t))
            && (a.reg.pulse2.r1 < 128 || a.reg.pulse2.r1 % 8 == 0 ==> AtStep(a.pulse2, b.pulse2, t))
  {
    hide Cycle, Inv, Mix, ValidEnv, OnBeat, Signals, AtStep, Sequenced;
    if n == 0 {
      NoneAtStart(a, env);
      DutiesValid(a);
      StepFirst(a.pulse1);
      StepFirst(a.pulse2);
    } else {
      PulseSteps(a, env, n - 1);
      PeriodStays(a, env, n - 1);
      PeriodStays(a, env, n);
      RunTicks(a, env, n - 1);
      var b := Run(a, env, n - 1);
      CyclePulses(b, env);
      CycleSlow(b, env);
      TicksOn(a.cycles2x, n);
      var t, ticked := (n - 1 + a.cycles2x % 2) / 2, b.HalfPhase() == 1;
      if a.reg.pulse1.r1 < 128 || a.reg.pulse1.r1 % 8 == 0 {
        StepNext(a.pulse1, b.pulse1, Run(a, env, n).pulse1, t, ticked);
      }
      if a.reg.pulse2.r1 < 128 || a.reg.pulse2.r1 % 8 == 0 {
        StepNext(a.pulse2, b.pulse2, Run(a, env, n).pulse2, t, ticked);
      }
    }
  }

  lemma TicksOn(c: nat, n: nat)
    requires n > 0
    ensures (n + c % 2) / 2 == (n - 1 + c % 2) / 2 + (c + (n - 1)) % 2
  {
  }

  lemma DutiesValid(a: Apu)
    requires Inv(a)
    ensures a.pulse1.dutyIdx < 8 && a.pulse2.dutyIdx < 8
  {
  }

  /** Eight steps, counted down. */
  function Down(step: nat, k: nat): int { (step - k) % 8 }

  lemma NotDown(step: nat)
    requires step < 8
    ensures Down(step, 0) == step
  {
  }

  lemma OneDown(step: nat, k: nat)
    ensures Down(step, k + 1) == if Down(step, k) == 0 then 7 else Down(step, k) - 1
  {
  }

  /** The level of a pulse that is not mute and has length left: its volume or its envelope in one of the eight steps,
    * in two, in four or in six of them.
    */
  ghost predicate PulseLevel(p: Pulse, r0: u8) {
    var on := match r0 / 64 case 0 => p.dutyIdx == 7 case 1 => p.dutyIdx >= 6 case 2 => p.dutyIdx >= 4
                            case _ => p.dutyIdx <= 5;
    p.output == if p.lengthCounter == 0 || p.sweep.mute || !on then 0
                else if r0 / 16 % 2 == 1 then r0 % 16 else p.envelope.decay
  }

  lemma PulseLevels(p: Pulse, reg: PulseReg)
    requires ValidPulse(p) && p.output == PulseOutput(p, reg)
    ensures PulseLevel(p, reg.r0)
  {
  }

  /** The level of the triangle: from 15 to 0 and up again in 32 steps, 7 if its period is too short to be heard. */
  ghost predicate TriangleLevel(t: Triangle) {
    t.output == 3 * if t.timer.period < 2 then 7
                    else if t.sequenceIdx < 16 then 15 - t.sequenceIdx else t.sequenceIdx - 16
  }

  /** The level of the noise: its volume or its envelope while the lowest bit of the register is clear. */
  ghost predicate NoiseLevel(n: Noise, r0: u8) {
    n.output == 2 * if n.lengthCounter == 0 || n.shiftReg % 2 == 1 then 0
                    else if r0 / 16 % 2 == 1 then r0 % 16 else n.envelope.decay
  }

  /** Always the five levels are these, and from the first cycle on what is heard is the two tables at the weighted sum
    * of three of them and the sum of two.
    */
  lemma LevelsHeard(a: Apu, env: Env, n: nat)
    requires ValidEnv(env) && Inv(a)
    ensures var b := Run(a, env, n);
            && PulseLevel(b.pulse1, b.reg.pulse1.r0) && PulseLevel(b.pulse2, b.reg.pulse2.r0)
            && TriangleLevel(b.triangle) && NoiseLevel(b.noise, b.reg.noise.r0)
            && b.pulse1.output + b.pulse2.output < 31 && b.triangle.output + b.noise.output + b.dmc.outputLevel < 203
            && (n > 0 ==>
                  b.outputMix == env.tndTable[b.triangle.output + b.noise.output + b.dmc.outputLevel]
                                 + env.pulseTable[b.pulse1.output + b.pulse2.output])
  {
    hide Run, ValidFrame, PulseOutput;
    var b := Run(a, env, n);
    PulseLevels(b.pulse1, b.reg.pulse1);
    PulseLevels(b.pulse2, b.reg.pulse2);
  }

  // ---------------------------------------------------------------------- the triangle

  lemma CycleTriangle(a: Apu, env: Env)
    requires ValidEnv(env) && Inv(a)
    ensures var t, u := a.triangle, Cycle(a, env).triangle;
            && u.timer.period == t.timer.period
            && (if t.timer.countdown > 0 then
                  u.timer.countdown == t.timer.countdown - 1 && u.sequenceIdx == t.sequenceIdx
                else
                  u.timer.countdown == t.timer.period
                  && u.sequenceIdx == if u.lengthCounter == 0 || u.linearCounter == 0 then t.sequenceIdx
                                      else (t.sequenceIdx + 1) % 32)
  {
    hide Signals, Accumulate, ValidPulse, ValidTriangle, ValidNoise, ValidDmc, ValidFrame, CachesAgree,
         DmcTick, FrameTick, NoiseTick, PulseTick, Mix, PulseOutput, TriangleOutput, NoiseOutput;
    ChannelsValid(a);
    SignalsKeepSteps(a);
  }

  /** The triangle sounds in every one of n cycles. */
  ghost predicate Sounds(a: Apu, env: Env, n: nat)
    requires ValidEnv(env) && Inv(a)
  {
    forall k | 0 < k <= n :: Run(a, env, k).triangle.lengthCounter > 0 && Run(a, env, k).triangle.linearCounter > 0
  }

  /** While it sounds the triangle takes its 32 steps, one every P + 1 cycles of the processor. */
  lemma {:induction false} TriangleSteps(a: Apu, env: Env, n: nat)
    requires ValidEnv(env) && Inv(a) && Sounds(a, env, n)
    ensures var b, t := Run(a, env, n), a.triangle.timer;
            && b.triangle.timer == Timer(t.period, b.triangle.timer.countdown)
            && b.triangle.timer.countdown == StandsAt(t.countdown, t.period, n)
            && b.triangle.sequenceIdx == (a.triangle.sequenceIdx + RunsOut(t.countdown, t.period, n)) % 32
  {
    hide Cycle, Inv, Mix, ValidEnv, StandsAt, RunsOut;
    var t := a.triangle.timer;
    if n == 0 {
      assert Run(a, env, 0) == a;
      NoTick(t.countdown, t.period);
      StepValid(a);
    } else {
      TriangleSteps(a, env, n - 1);
      CycleTriangle(Run(a, env, n - 1), env);
      OneTick(t.countdown, t.period, n - 1);
      OneUp(a.triangle.sequenceIdx + RunsOut(t.countdown, t.period, n - 1));
      assert Run(a, env, n).triangle.lengthCounter > 0;
    }
  }

  lemma StepValid(a: Apu)
    requires Inv(a)
    ensures a.triangle.sequenceIdx < 32
  {
  }

  lemma OneUp(k: nat)
    ensures (k % 32 + 1) % 32 == (k + 1) % 32
  {
  }

  // ------------------------------------------------------------------------- the noise

  lemma CycleNoise(a: Apu, env: Env)
    requires ValidEnv(env) && Inv(a)
    ensures var n, m := a.noise, Cycle(a, env).noise;
            && m.timer.period == n.timer.period && n.timer.countdown > 0 && n.shiftReg < 0x8000
            && (if a.HalfPhase() == 0 then m.timer.countdown == n.timer.countdown && m.shiftReg == n.shiftReg
                else if n.timer.countdown > 1 then
                  m.timer.countdown == n.timer.countdown - 1 && m.shiftReg == n.shiftReg
                else
                  m.timer.countdown == n.timer.period
                  && m.shiftReg == n.shiftReg / 2 +
                                   0x4000 * ((BitAt(n.shiftReg, 0) + BitAt(n.shiftReg, Tap(a.reg.noise.r2))) % 2))
  {
    hide Signals, Accumulate, ValidPulse, ValidTriangle, ValidDmc, ValidFrame, CachesAgree,
         DmcTick, FrameTick, TriangleTick, PulseTick, Mix, PulseOutput, TriangleOutput, NoiseOutput;
    ChannelsValid(a);
    SignalsKeepSteps(a);
  }

  /** Bit k of the noise register. */
  function BitAt(x: nat, k: nat): (b: nat)
    requires k < 15
    ensures b < 2
  {
    x / [1, 2, 4, 8, 16, 32, 64, 128, 256, 512, 1024, 2048, 4096, 8192, 16384][k] % 2
  }

  /** The second bit of the feedback: the one after the lowest, or the seventh in short mode. */
  function Tap(r2: u8): (k: nat) ensures k < 15 { if r2 >= 128 then 6 else 1 }

  /** The bits that come out of the register: first its own, then each the sum of the one 15 places before and the one
    * at the tap.
    */
  function NoiseBit(x: nat, tap: nat, i: nat): (b: nat)
    requires 0 < tap < 15
    ensures b < 2
    decreases i
  {
    if i < 15 then BitAt(x, i) else (NoiseBit(x, tap, i - 15) + NoiseBit(x, tap, i - 15 + tap)) % 2
  }

  lemma HalvedBits(x: nat, k: nat)
    requires k < 14
    ensures BitAt(x / 2, k) == BitAt(x, k + 1)
  {
    var w := [1, 2, 4, 8, 16, 32, 64, 128, 256, 512, 1024, 2048, 4096, 8192, 16384];
    assert x / 2 / w[k] == x / w[k + 1];
  }

  /** A bit put in at the top leaves the others. */
  lemma ToppedBits(y: nat, f: nat, k: nat)
    requires y < 0x4000 && f < 2 && k < 15
    ensures BitAt(y + 0x4000 * f, k) == if k == 14 then f else BitAt(y, k)
  {
    var w := [1, 2, 4, 8, 16, 32, 64, 128, 256, 512, 1024, 2048, 4096, 8192, 16384];
    if k < 14 {
      var half := [8192, 4096, 2048, 1024, 512, 256, 128, 64, 32, 16, 8, 4, 2, 1][k];
      assert (y + 0x4000 * f) / w[k] == y / w[k] + 2 * half * f;
    }
  }

  lemma RegisterShifts(x: nat, x': nat, tap: nat, k: nat)
    requires x < 0x8000 && 0 < tap < 15 && k < 15
    requires x' == x / 2 + 0x4000 * ((BitAt(x, 0) + BitAt(x, tap)) % 2)
    ensures BitAt(x', k) == if k < 14 then BitAt(x, k + 1) else (BitAt(x, 0) + BitAt(x, tap)) % 2
  {
    hide BitAt;
    ToppedBits(x / 2, (BitAt(x, 0) + BitAt(x, tap)) % 2, k);
    if k < 14 {
      HalvedBits(x, k);
    }
  }

  /** The register holds the next fifteen bits of the stream after m clocks. */
  ghost predicate Holds(x': nat, x: nat, tap: nat, m: nat)
    requires 0 < tap < 15
  {
    forall k | 0 <= k < 15 :: BitAt(x', k) == NoiseBit(x, tap, m + k)
  }

  lemma HoldsNext(y: nat, y': nat, x: nat, tap: nat, m: nat)
    requires y < 0x8000 && 0 < tap < 15 && Holds(y, x, tap, m)
    requires y' == y / 2 + 0x4000 * ((BitAt(y, 0) + BitAt(y, tap)) % 2)
    ensures Holds(y', x, tap, m + 1)
  {
    hide BitAt;
    forall k | 0 <= k < 15
      ensures BitAt(y', k) == NoiseBit(x, tap, m + 1 + k)
    {
      RegisterShifts(y, y', tap, k);
      if k < 14 {
        assert BitAt(y, k + 1) == NoiseBit(x, tap, m + (k + 1));
      } else {
        assert BitAt(y, 0) == NoiseBit(x, tap, m + 0) && BitAt(y, tap) == NoiseBit(x, tap, m + tap);
      }
    }
  }

  /** The noise register moves on one bit every P ticks of the unit, and never to nothing but zeros. */
  lemma {:induction false} NoiseStream(a: Apu, env: Env, n: nat)
    requires ValidEnv(env) && Inv(a)
    ensures a.noise.timer.countdown > 0 && a.noise.timer.period > 0
    ensures var b, c, p, t := Run(a, env, n), a.noise.timer.countdown - 1, a.noise.timer.period - 1,
                              (n + a.cycles2x % 2) / 2;
            && b.noise.timer == Timer(p + 1, b.noise.timer.countdown)
            && b.noise.timer.countdown == StandsAt(c, p, t) + 1
            && Holds(b.noise.shiftReg, a.noise.shiftReg, Tap(a.reg.noise.r2), RunsOut(c, p, t))
            && (a.noise.shiftReg != 0 ==> b.noise.shiftReg != 0)
            && b.reg == a.reg.(status := b.reg.status) && b.cycles2x == a.cycles2x + n
  {
    hide Cycle, Inv, Mix, ValidEnv, StandsAt, RunsOut, Holds, BitAt;
    NoiseValid(a);
    var c, p := a.noise.timer.countdown - 1, a.noise.timer.period - 1;
    if n == 0 {
      assert Run(a, env, 0) == a;
      NoTick(c, p);
      HoldsFirst(a.noise.shiftReg, Tap(a.reg.noise.r2));
    } else {
      NoiseStream(a, env, n - 1);
      var b := Run(a, env, n - 1);
      CycleNoise(b, env);
      RegistersStay(b, env);
      CycleDmc(b, env);
      var t := (n - 1 + a.cycles2x % 2) / 2;
      assert (n + a.cycles2x % 2) / 2 == t + b.cycles2x % 2;
      OneTick(c, p, t);
      if b.HalfPhase() == 1 && b.noise.timer.countdown == 1 {
        HoldsNext(b.noise.shiftReg, Run(a, env, n).noise.shiftReg, a.noise.shiftReg, Tap(a.reg.noise.r2),
                  RunsOut(c, p, t));
        NotEmptied(b.noise.shiftReg, Tap(a.reg.noise.r2));
      }
    }
  }

  lemma NoiseValid(a: Apu)
    requires Inv(a)
    ensures a.noise.timer.countdown > 0 && a.noise.timer.period > 0 && a.noise.shiftReg < 0x8000
  {
  }

  lemma HoldsFirst(x: nat, tap: nat)
    requires 0 < tap < 15
    ensures Holds(x, x, tap, 0)
  {
    hide BitAt;
  }

  lemma NotEmptied(x: nat, tap: nat)
    requires 0 < tap < 15
    ensures x != 0 ==> x / 2 + 0x4000 * ((BitAt(x, 0) + BitAt(x, tap)) % 2) != 0
  {
    if x == 1 {
      assert BitAt(1, 0) == 1 && BitAt(1, tap) == 0;
    }
  }

  // ----------------------------------------------------------------------- the samples

  /** The levels of the first n cycles, added up. */
  ghost function LevelSum(a: Apu, env: Env, n: nat): int
    requires ValidEnv(env) && Inv(a)
  {
    if n == 0 then 0 else LevelSum(a, env, n - 1) + Mix(Run(a, env, n), env)
  }

  /** Up to the next sample the levels are added up. */
  lemma {:induction false} LevelsAdded(a: Apu, env: Env, n: nat)
    requires ValidEnv(env) && Inv(a)
    requires a.sampleCycleAccum + AUDIO_SAMPLE_RATE * n < CPU_CLOCK_RATE
    ensures Run(a, env, n).sampleAccum == a.sampleAccum + LevelSum(a, env, n)
    ensures Run(a, env, n).sampleCount == a.sampleCount + n
  {
    hide Cycle, Inv, Mix;
    if n == 0 {
      assert Run(a, env, 0) == a;
    } else {
      LevelsAdded(a, env, n - 1);
      ClockBeforeSample(a, env, n - 1);
      var b := Run(a, env, n - 1);
      CycleSame(b, b, env);
    }
  }

  /** A sample is the average of the levels of all cycles since the last one, doubled and centred. */
  lemma SampleIsAverage(a: Apu, env: Env)
    requires ValidEnv(env) && Inv(a) && a.sampleAccum == 0 && a.sampleCount == 0
    ensures var due := CyclesToSample(a);
            var b := Run(a, env, due);
            && 44100 * due + a.sampleCycleAccum >= 1789773 > 44100 * (due - 1) + a.sampleCycleAccum
            && b.samples == a.samples + [LevelSum(a, env, due) / due * 2 - 0x8000]
            && b.sampleAccum == 0 && b.sampleCount == 0
            && b.sampleCycleAccum == a.sampleCycleAccum + 44100 * due - 1789773
  {
    hide Cycle, Inv, Mix, CyclesToSample;
    var due := CyclesToSample(a);
    LevelsAdded(a, env, due - 1);
    ClockBeforeSample(a, env, due - 1);
    SampleCount(a, env, due - 1);
    LastCycle(Run(a, env, due - 1), env);
  }

  lemma LastCycle(a: Apu, env: Env)
    requires ValidEnv(env) && Inv(a) && a.sampleCycleAccum + AUDIO_SAMPLE_RATE >= CPU_CLOCK_RATE
    ensures var b := Cycle(a, env);
            && b.samples == a.samples + [(a.sampleAccum + Mix(b, env)) / (a.sampleCount + 1) * 2 - 0x8000]
            && b.sampleAccum == 0 && b.sampleCount == 0
            && b.sampleCycleAccum == a.sampleCycleAccum + AUDIO_SAMPLE_RATE - CPU_CLOCK_RATE
  {
    hide Cycle, Core, Mix;
    CycleSame(a, a, env);
    SampleRateExact(a, env, 1);
    assert Run(a, env, 1) == Cycle(a, env) by { assert Run(a, env, 0) == a; }
  }

  // ------------------------------------------------------------------------- power-on

  /** Left alone from power-on the sequencer is five ticks into its round, the noise register runs, and nothing else
    * sounds than the triangle standing at its middle level.
    */
  lemma PowerOnRuns(a: Apu, env: Env, n: nat)
    requires ValidEnv(env) && Inv(a) && n > 0 && JustOn(a)
    ensures var b := Run(a, env, n);
            && (b.frame.pendingQuarter <==> n % 2 == 0 && (5 + n / 2) % 14915 in {3729, 7457, 11186, 0})
            && (b.frame.pendingHalf <==> n % 2 == 0 && (5 + n / 2) % 14915 in {7457, 0})
            && b.noise.shiftReg != 0
            && b.outputMix == env.tndTable[21] + env.pulseTable[0]
  {
    hide Run, Inv, Mix, ValidEnv, Still, Holds;
    ClockTimes(a, env, n);
    NoiseStream(a, env, n);
    RunStill(a, env, n);
    StillMix(Run(a, env, n), env);
    RightMix(a, env, n);
  }

  lemma RightMix(a: Apu, env: Env, n: nat)
    requires ValidEnv(env) && Inv(a) && n > 0
    ensures Run(a, env, n).outputMix == Mix(Run(a, env, n), env)
  {
    hide Cycle, Inv, Mix, ValidEnv;
  }

  /** Five ticks into the round of four steps, the noise register not empty, nothing sounding. */
  ghost predicate JustOn(a: Apu) {
    OnBeat(a) && a.cycles2x == 0 && a.frame.countdown == 5 && a.noise.shiftReg != 0 && a.reg.frame.v == 0 && Still(a)
  }

  lemma PowerOnFields(a: Apu)
    requires a == ApuDevice.PowerOn()
    ensures a.frame == FrameCounter(5, 0, 0, false, false, false) && a.cycles2x == 0 && a.noise.shiftReg != 0
    ensures a.reg.frame.v == 0
  {
    hide StatusOfByte;
  }

  lemma BeatAtFive(a: Apu)
    requires a.frame == FrameCounter(5, 0, 0, false, false, false) && a.reg.frame.v == 0
    ensures OnBeat(a)
  {
  }

  lemma PowerOnBase(a: Apu)
    requires a == ApuDevice.PowerOn()
    ensures Inv(a) && Still(a)
  {
    hide Inv, Still, LevelsBounded, ApuDevice.PowerOn;
    PowerOnInv();
    PowerOnStill();
  }

  /** The reset of the source leaves such a unit. */
  lemma PowerOnIsJustOn(a: Apu)
    requires a == ApuDevice.PowerOn()
    ensures Inv(a) && JustOn(a)
  {
    hide Inv, Still, OnBeat, ApuDevice.PowerOn;
    PowerOnBase(a);
    PowerOnFields(a);
    BeatAtFive(a);
  }
}
