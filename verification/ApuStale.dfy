/** The mix cached at power-on is wrong until the first cycle; exactly when a first call makes that heard.
  */
module ApuStale {
  import opened Common
  import opened ApuTypes
  import opened ApuChannels
  import opened ApuReference
  import opened ApuBatch
  import opened ApuDevice
  import opened ApuTheorems
  import opened ApuHeard
  import ApuIrq
  import ApuSilence

  // ---------------------------------------------------- exactly when a stale mix shows

  /** a with the running sum moved by delta. */
  function Shifted(a: Apu, delta: int): Apu { Voiced(a, a.sampleAccum + delta, a.samples, a.outputMix) }

  lemma ShiftedInv(a: Apu, delta: int)
    requires Inv(a)
    ensures Inv(Shifted(a, delta))
  {
    hide ValidPulse, ValidTriangle, ValidNoise, ValidDmc, ValidFrame, PulseOutput, TriangleOutput, NoiseOutput;
  }

  lemma ClockBeforeSample(a: Apu, env: Env, n: nat)
    requires ValidEnv(env) && Inv(a)
    requires a.sampleCycleAccum + AUDIO_SAMPLE_RATE * n < CPU_CLOCK_RATE
    ensures Run(a, env, n).sampleCycleAccum == a.sampleCycleAccum + AUDIO_SAMPLE_RATE * n
  {
    hide Cycle, Core, ValidEnv, Mix;
    SampleRateExact(a, env, n);
  }

  /** Up to the next sample a moved sum stays moved and nothing else notices. */
  lemma {:induction false} RunShift(a: Apu, env: Env, delta: int, n: nat)
    requires ValidEnv(env) && Inv(a)
    requires a.sampleCycleAccum + AUDIO_SAMPLE_RATE * n < CPU_CLOCK_RATE
    ensures Inv(Shifted(a, delta))
    ensures Run(Shifted(a, delta), env, n) == Shifted(Run(a, env, n), delta)
  {
    hide Cycle, Mix, Inv, ValidEnv;
    ShiftedInv(a, delta);
    if n == 0 {
      assert Run(a, env, 0) == a;
    } else {
      RunShift(a, env, delta, n - 1);
      ClockBeforeSample(a, env, n - 1);
      CycleSame(Run(a, env, n - 1), Run(Shifted(a, delta), env, n - 1), env);
    }
  }

  /** A call starts from the sum it will owe by the end of its first jump. */
  lemma ExecShifted(a: Apu, env: Env, cycles: nat, delta: int)
    requires ValidEnv(env) && Inv(a)
    requires var k := FirstJump(a, cycles);
             delta == if k == 0 then 0 else (a.outputMix - Mix(a, env)) * (k - 1)
    ensures Inv(Shifted(a, delta)) && Exec(a, env, cycles) == Run(Shifted(a, delta), env, cycles)
  {
    hide Cycle, ValidPulse, ValidTriangle, ValidNoise, ValidDmc, ValidFrame, CachesAgree, ValidEnv, Mix, FirstJump;
    ShiftedInv(a, delta);
  }

  lemma ProductZero(x: int, y: nat)
    requires y > 0
    ensures x * y == 0 <==> x == 0
  {
    if x > 0 {
      MultipleAtLeast(x, y);
    } else if x < 0 {
      MultipleAtLeast(-x, y);
      assert -x * y == -(x * y);
    }
  }

  /** Cycles up to and with the one that emits the next sample. */
  function CyclesToSample(a: Apu): (d: nat)
    requires Inv(a)
    ensures d >= 1 && a.sampleCycleAccum + AUDIO_SAMPLE_RATE * (d - 1) < CPU_CLOCK_RATE
    ensures a.sampleCycleAccum + AUDIO_SAMPLE_RATE * d >= CPU_CLOCK_RATE
  {
    (CPU_CLOCK_RATE - a.sampleCycleAccum + AUDIO_SAMPLE_RATE - 1) / AUDIO_SAMPLE_RATE
  }

  /** The average emitted as the next sample if the sum is moved by delta now. */
  ghost function NextAverage(a: Apu, env: Env, delta: int): int
    requires ValidEnv(env) && Inv(a)
  {
    var s := Run(a, env, CyclesToSample(a) - 1);
    (s.sampleAccum + delta + Cycle(s, env).outputMix) / (s.sampleCount + 1)
  }

  /** Up to the next sample a moved sum can be told from the other, afterwards only by that sample. */
  lemma ShiftHeard(a: Apu, env: Env, delta: int, n: nat)
    requires ValidEnv(env) && Inv(a)
    ensures Inv(Shifted(a, delta))
    ensures Run(Shifted(a, delta), env, n) == Run(a, env, n) <==>
              delta == 0 || (n >= CyclesToSample(a) && NextAverage(a, env, delta) == NextAverage(a, env, 0))
  {
    hide Cycle, Mix, Core, ValidEnv, Run, CyclesToSample, NextAverage;
    ShiftedInv(a, delta);
    var due := CyclesToSample(a);
    if n < due {
      RunShift(a, env, delta, n);
    } else {
      FirstSample(a, env, delta);
      var b := Shifted(a, delta);
      var c, d := Run(a, env, due), Run(b, env, due);
      RunAdds(a, env, due, n - due);
      RunAdds(b, env, due, n - due);
      SampleRateExact(c, env, n - due);
      SampleRateExact(d, env, n - due);
    }
  }

  /** At the sample both sums are spent; the two samples are the two averages. */
  lemma FirstSample(a: Apu, env: Env, delta: int)
    requires ValidEnv(env) && Inv(a)
    ensures Inv(Shifted(a, delta))
    ensures var c, d := Run(a, env, CyclesToSample(a)), Run(Shifted(a, delta), env, CyclesToSample(a));
            && d == c.(samples := d.samples) && |d.samples| == |c.samples| == |a.samples| + 1
            && (d == c <==> NextAverage(a, env, delta) == NextAverage(a, env, 0))
  {
    hide Cycle, Mix, Inv, ValidEnv, CyclesToSample;
    var due := CyclesToSample(a);
    ClockOf(a);
    RunShift(a, env, delta, due - 1);
    ClockBeforeSample(a, env, due - 1);
    SampleCount(a, env, due - 1);
    CycleSame(Run(a, env, due - 1), Run(Shifted(a, delta), env, due - 1), env);
    OneSampleMore(a.samples, Run(a, env, due).samples, Run(Shifted(a, delta), env, due).samples);
  }

  lemma ClockOf(a: Apu)
    requires Inv(a)
    ensures a.sampleCycleAccum < CPU_CLOCK_RATE
  {
  }

  lemma SampleCount(a: Apu, env: Env, n: nat)
    requires ValidEnv(env) && Inv(a)
    requires a.sampleCycleAccum + AUDIO_SAMPLE_RATE * n < CPU_CLOCK_RATE
    ensures Run(a, env, n).samples == a.samples
  {
    hide Cycle, Core, ValidEnv, Mix;
    SampleRateExact(a, env, n);
  }

  lemma OneSampleMore(s: seq<int>, c: seq<int>, d: seq<int>)
    requires |c| == |d| == |s| + 1 && c[..|s|] == d[..|s|] == s
    ensures c == d <==> c[|s|] == d[|s|]
  {
    assert c == c[..|s|] + [c[|s|]] && d == d[..|s|] + [d[|s|]];
  }

  /** A call differs from the reference exactly when the cached mix is wrong, the first jump is longer than one
    * cycle, and no sample has come that rounds the difference away.
    */
  lemma StaleMixShows(a: Apu, env: Env, cycles: nat)
    requires ValidEnv(env) && Inv(a)
    ensures var k := FirstJump(a, cycles);
            Exec(a, env, cycles) == Run(a, env, cycles) <==>
              || a.outputMix == Mix(a, env) || k <= 1
              || (cycles >= CyclesToSample(a) &&
                  NextAverage(a, env, (a.outputMix - Mix(a, env)) * (k - 1)) == NextAverage(a, env, 0))
  {
    hide Cycle, ValidPulse, ValidTriangle, ValidNoise, ValidDmc, ValidFrame, CachesAgree, ValidEnv, Mix, FirstJump,
         Exec, Shifted, NextAverage, CyclesToSample, Run;
    var k := FirstJump(a, cycles);
    var delta := if k == 0 then 0 else (a.outputMix - Mix(a, env)) * (k - 1);
    ExecShifted(a, env, cycles, delta);
    ShiftHeard(a, env, delta, cycles);
    if k > 1 {
      ProductZero(a.outputMix - Mix(a, env), k - 1);
    }
  }

  /** Cycles that the next sample averages. */
  function SampleLength(a: Apu): (c: nat)
    requires Inv(a)
    ensures c >= 1
  {
    a.sampleCount + CyclesToSample(a)
  }

  lemma {:induction false} CountBeforeSample(a: Apu, env: Env, n: nat)
    requires ValidEnv(env) && Inv(a)
    requires a.sampleCycleAccum + AUDIO_SAMPLE_RATE * n < CPU_CLOCK_RATE
    ensures Run(a, env, n).sampleCount == a.sampleCount + n
  {
    hide Cycle, Inv, ValidEnv, Mix;
    if n > 0 {
      CountBeforeSample(a, env, n - 1);
      ClockBeforeSample(a, env, n - 1);
      var b := Run(a, env, n - 1);
      CycleSame(b, b, env);
    }
  }

  lemma SameQuotient(sum: int, delta: int, c: nat)
    requires c >= 1
    ensures (sum + delta) / c == sum / c <==> 0 <= sum % c + delta < c
  {
    var q, r := sum / c, sum % c;
    assert sum == q * c + r;
    if 0 <= r + delta < c {
      DivModUnique(sum + delta, c, q, r + delta);
    } else {
      var x, y := (sum + delta) / c, (sum + delta) % c;
      assert sum + delta == x * c + y;
    }
  }

  /** The sample rounds a moved sum away exactly when its remainder has room for it. */
  lemma AverageKeeps(a: Apu, env: Env, delta: int)
    requires ValidEnv(env) && Inv(a)
    ensures var s := Run(a, env, CyclesToSample(a) - 1);
            NextAverage(a, env, delta) == NextAverage(a, env, 0) <==>
              0 <= (s.sampleAccum + Cycle(s, env).outputMix) % SampleLength(a) + delta < SampleLength(a)
  {
    hide Cycle, Inv, ValidEnv, Mix, Run, CyclesToSample;
    CountBeforeSample(a, env, CyclesToSample(a) - 1);
    var s := Run(a, env, CyclesToSample(a) - 1);
    SameQuotient(s.sampleAccum + Cycle(s, env).outputMix, delta, SampleLength(a));
  }

  /** So a caller can tell before the call: a correction shows whenever the call ends before the next sample, or is at
    * least as large as the number of cycles that sample averages.
    */
  lemma CorrectionShows(a: Apu, env: Env, cycles: nat)
    requires ValidEnv(env) && Inv(a)
    requires FirstJump(a, cycles) > 1
    requires var delta := (a.outputMix - Mix(a, env)) * (FirstJump(a, cycles) - 1);
             delta != 0 && (cycles < CyclesToSample(a) || delta >= SampleLength(a) || delta + SampleLength(a) <= 0)
    ensures Exec(a, env, cycles) != Run(a, env, cycles)
  {
    hide Cycle, ValidPulse, ValidTriangle, ValidNoise, ValidDmc, ValidFrame, CachesAgree, ValidEnv, Mix, FirstJump,
         Exec, NextAverage, CyclesToSample, Run, SampleLength;
    StaleMixShows(a, env, cycles);
    var delta := (a.outputMix - Mix(a, env)) * (FirstJump(a, cycles) - 1);
    AverageKeeps(a, env, delta);
    ProductZero(a.outputMix - Mix(a, env), FirstJump(a, cycles) - 1);
  }

  // --------------------------------------------------------------------- power-on

  lemma PowerOnJump(cycles: nat)
    requires Inv(PowerOn())
    ensures FirstJump(PowerOn(), cycles) == Min(cycles, 4)
  {
    hide ValidChannels, ValidFrame, CachesAgree;
  }

  lemma MixAt(a: Apu, env: Env, tnd: nat, pulse: nat)
    requires ValidEnv(env) && ValidChannels(a)
    requires tnd == NoiseOutput(a.noise, a.reg.noise) + a.dmc.outputLevel + TriangleOutput(a.triangle)
    requires pulse == PulseOutput(a.pulse1, a.reg.pulse1) + PulseOutput(a.pulse2, a.reg.pulse2)
    ensures Mix(a, env) == env.tndTable[tnd] + env.pulseTable[pulse]
  {
  }

  /** No channel sounds, and none will before a register is written. */
  predicate Still(a: Apu) {
    && a.pulse1.lengthCounter == 0 && a.pulse2.lengthCounter == 0 && a.noise.lengthCounter == 0
    && a.triangle.timer.period < 2
    && a.dmc.outputLevel == 0 && a.dmc.bytesRemaining == 0 && a.dmc.bufferEmpty && a.dmc.silence
  }

  lemma StillMix(a: Apu, env: Env)
    requires ValidEnv(env) && Inv(a) && Still(a)
    ensures Mix(a, env) == env.tndTable[21] + env.pulseTable[0]
  {
    hide ValidPulse, ValidDmc, ValidFrame;
    assert TriangleOutput(a.triangle) == 21;
    assert PulseOutput(a.pulse1, a.reg.pulse1) == 0 && PulseOutput(a.pulse2, a.reg.pulse2) == 0;
    assert NoiseOutput(a.noise, a.reg.noise) == 0;
  }

  lemma TriangleStays(a: Apu, env: Env)
    requires ValidEnv(env) && Inv(a)
    ensures Cycle(a, env).triangle.timer.period == a.triangle.timer.period
  {
    hide QuarterFrame, HalfFrame, ValidPulse, ValidTriangle, ValidNoise, ValidDmc, ValidFrame, Signals, Mix,
         CachesAgree, DmcTick, FrameTick, PulseTick, NoiseTick;
    SignalsTriangle(a);
  }

  lemma SignalsTriangle(a: Apu)
    requires ValidChannels(a)
    ensures Signals(a).triangle.timer == a.triangle.timer
  {
    hide SweepTick, EnvelopeTick, ValidPulse, ValidNoise, ValidDmc;
  }

  lemma CycleStill(a: Apu, env: Env)
    requires ValidEnv(env) && Inv(a) && Still(a)
    ensures Still(Cycle(a, env))
  {
    hide Cycle, ValidPulse, ValidTriangle, ValidNoise, ValidFrame, CachesAgree, Mix;
    ApuSilence.CycleShortens(a, env);
    ApuIrq.CycleDmc(a, env);
    TriangleStays(a, env);
  }

  lemma {:induction false} RunStill(a: Apu, env: Env, n: nat)
    requires ValidEnv(env) && Inv(a) && Still(a)
    ensures Still(Run(a, env, n))
  {
    hide Cycle, Inv, ValidEnv, Mix, Still;
    if n > 0 {
      RunStill(a, env, n - 1);
      CycleStill(Run(a, env, n - 1), env);
    }
  }

  /** A still unit adds the same level in every cycle. */
  lemma {:induction false} StillSum(a: Apu, env: Env, n: nat, level: int)
    requires ValidEnv(env) && Inv(a) && Still(a) && level == env.tndTable[21] + env.pulseTable[0]
    requires a.sampleCycleAccum + AUDIO_SAMPLE_RATE * n < CPU_CLOCK_RATE
    ensures Run(a, env, n).sampleAccum == a.sampleAccum + n * level
    ensures Run(a, env, n).sampleCount == a.sampleCount + n
    ensures Cycle(Run(a, env, n), env).outputMix == level
  {
    hide Cycle, Inv, Mix, Still;
    RunStill(a, env, n);
    RunStill(a, env, n + 1);
    StillMix(Run(a, env, n + 1), env);
    if n > 0 {
      StillSum(a, env, n - 1, level);
      ClockBeforeSample(a, env, n - 1);
      var b := Run(a, env, n - 1);
      CycleSame(b, b, env);
    }
  }

  /** From a fresh clock a still unit's first sample is the average of 41 equal levels. */
  lemma StillAverage(a: Apu, env: Env, delta: int, level: int)
    requires ValidEnv(env) && Inv(a) && Still(a) && level == env.tndTable[21] + env.pulseTable[0]
    requires a.sampleCycleAccum == 0 && a.sampleCount == 0 && a.sampleAccum == 0
    ensures CyclesToSample(a) == 41 && NextAverage(a, env, delta) == (41 * level + delta) / 41
  {
    hide Cycle, Run, Inv, ValidEnv, Still;
    StillSum(a, env, 40, level);
  }

  lemma PowerOnStill()
    ensures Still(PowerOn()) && PowerOn().sampleCycleAccum == 0
    ensures PowerOn().sampleCount == 0 && PowerOn().sampleAccum == 0
  {
  }

  lemma LowerAverage(level: int, cycles: nat)
    requires level > 0 && 1 < cycles
    ensures (41 * level + (0 - level) * (Min(cycles, 4) - 1)) / 41 < level
    ensures (41 * level + 0) / 41 == level
  {
    var k := Min(cycles, 4) - 1;
    assert (0 - level) * k <= -level by {
      MultipleAtLeast(level, k);
      assert (0 - level) * k == -(level * k);
    }
  }

  /** Power-on is a stale state: the triangle already sits at its middle level, the mix is still 0.  A first call
    * of any length differs from the reference exactly when it is longer than one cycle.
    */
  lemma PowerOnIsStale(env: Env, cycles: nat)
    requires ValidEnv(env) && env.tndTable[21] > 0
    ensures Inv(PowerOn())
    ensures Exec(PowerOn(), env, cycles) == Run(PowerOn(), env, cycles) <==> cycles <= 1
  {
    hide Cycle, Run, Mix, FirstJump, Exec, Core, CachesAgree, ValidChannels, TriangleOutput, NoiseOutput, PulseOutput,
         NextAverage, CyclesToSample;
    PowerOnInv();
    PowerOnChannels();
    PowerOnJump(cycles);
    MixAt(PowerOn(), env, 21, 0);
    StaleMixShows(PowerOn(), env, cycles);
    var level := env.tndTable[21] + env.pulseTable[0];
    if cycles > 1 {
      PowerOnStill();
      StillAverage(PowerOn(), env, (0 - level) * (Min(cycles, 4) - 1), level);
      StillAverage(PowerOn(), env, 0, level);
      LowerAverage(level, cycles);
    }
  }
}
