/** What the event-skipping audio unit amounts to, over whole runs.
  */
module ApuTheorems {
  import opened Common
  import opened ApuTypes
  import opened ApuChannels
  import opened ApuReference
  import opened ApuBatch
  import opened ApuDevice

  /** The state one call of TicksExecute leaves, as its contract states it. */
  ghost function Exec(a: Apu, env: Env, cycles: nat): (a': Apu)
    requires ValidEnv(env) && Inv(a)
    ensures Inv(a') && (cycles > 0 ==> a'.outputMix == Mix(a', env))
  {
    hide Inv, Mix, ValidEnv, Cycle;
    Run(Corrected(a, env, FirstJump(a, cycles)), env, cycles)
  }

  /** A sequence of calls. */
  ghost function Calls(a: Apu, env: Env, batches: seq<nat>): (a': Apu)
    requires ValidEnv(env) && Inv(a)
    ensures Inv(a')
    decreases |batches|
  {
    hide Exec, Core, Mix, ValidEnv;
    if batches == [] then a else Calls(Exec(a, env, batches[0]), env, batches[1..])
  }

  // ------------------------------------------------------ batching is invisible

  /** With a right mix, one call of n cycles is the reference run of n cycles. */
  lemma ExecIsRun(a: Apu, env: Env, cycles: nat)
    requires ValidEnv(env) && Inv(a) && a.outputMix == Mix(a, env)
    ensures Exec(a, env, cycles) == Run(a, env, cycles)
  {
    hide Cycle, Mix;
    NothingToCorrect(a, env, FirstJump(a, cycles));
  }

  /** However the cycles are cut into calls, the state and the samples are those of the reference. */
  lemma {:induction false} AnyBatching(a: Apu, env: Env, batches: seq<nat>)
    requires ValidEnv(env) && Inv(a) && a.outputMix == Mix(a, env)
    ensures Calls(a, env, batches) == Run(a, env, Total(batches))
    decreases |batches|
  {
    hide Cycle, Mix, Core, ValidEnv;
    if batches == [] {
      assert Run(a, env, 0) == a;
    } else {
      ExecIsRun(a, env, batches[0]);
      hide Exec;
      var b := Run(a, env, batches[0]);
      assert batches[0] == 0 ==> b == a;
      AnyBatching(b, env, batches[1..]);
      RunAdds(a, env, batches[0], Total(batches[1..]));
    }
  }

  /** Called with one cycle at a time the source is the reference from any state, stale or not. */
  lemma ExecOne(a: Apu, env: Env)
    requires ValidEnv(env) && Inv(a)
    ensures Exec(a, env, 1) == Cycle(a, env)
  {
    hide Cycle, Mix, CyclesToChannelEvent;
    RunOne(a, env);
  }

  // --------------------------------------------------------- the sample clock

  lemma CycleSampleClock(a: Apu, env: Env)
    requires ValidEnv(env) && Inv(a)
    ensures var b := Cycle(a, env);
            var due := a.sampleCycleAccum + AUDIO_SAMPLE_RATE >= CPU_CLOCK_RATE;
            && b.cycles2x == a.cycles2x + 1
            && b.sampleCycleAccum == a.sampleCycleAccum + AUDIO_SAMPLE_RATE - (if due then CPU_CLOCK_RATE else 0)
            && |b.samples| == |a.samples| + (if due then 1 else 0)
            && a.samples <= b.samples
  {
    hide Signals, Tick, Refresh, Mix, ValidPulse, ValidTriangle, ValidNoise, ValidDmc, ValidFrame, CachesAgree;
  }

  /** n cycles emit exactly the samples the two rates ask for and keep the remainder. */
  lemma {:induction false} SampleRateExact(a: Apu, env: Env, n: nat)
    requires ValidEnv(env) && Inv(a)
    ensures var b := Run(a, env, n);
            && b.cycles2x == a.cycles2x + n
            && |b.samples| == |a.samples| + (a.sampleCycleAccum + AUDIO_SAMPLE_RATE * n) / CPU_CLOCK_RATE
            && b.sampleCycleAccum == (a.sampleCycleAccum + AUDIO_SAMPLE_RATE * n) % CPU_CLOCK_RATE
            && a.samples <= b.samples
  {
    hide Cycle, Mix, ValidChannels, CachesAgree;
    if n > 0 {
      SampleRateExact(a, env, n - 1);
      CycleSampleClock(Run(a, env, n - 1), env);
    }
  }

  /** Between samples at most 40 cycles are averaged, so the running sum stays far inside 32 bits. */
  lemma CountersFit(a: Apu)
    requires Inv(a) && LevelsBounded(a)
    ensures a.sampleCount <= 40 && 0 <= a.sampleAccum <= 40 * MIX_MAX
    ensures a.sampleCycleAccum + AUDIO_SAMPLE_RATE * CyclesToChannelEvent(a) < CPU_CLOCK_RATE + AUDIO_SAMPLE_RATE
  {
    hide ValidPulse, ValidTriangle, ValidNoise, ValidDmc, ValidFrame, PulseOutput, TriangleOutput, NoiseOutput;
    NoEventOvershot(a, CyclesToChannelEvent(a) - 1);
  }

  // ------------------------------------------------------------------- power-on

  lemma PowerOnChannels()
    ensures ValidChannels(PowerOn())
    ensures var a := PowerOn();
            && CachesAgree(a) && TriangleOutput(a.triangle) == 21
            && NoiseOutput(a.noise, a.reg.noise) == 0 && a.dmc.outputLevel == 0
            && PulseOutput(a.pulse1, a.reg.pulse1) == 0 && PulseOutput(a.pulse2, a.reg.pulse2) == 0
  {
    hide FrameStep;
  }

  lemma PowerOnInv()
    ensures Inv(PowerOn()) && LevelsBounded(PowerOn())
  {
    hide ValidChannels, CachesAgree, TriangleOutput, NoiseOutput, PulseOutput;
    PowerOnChannels();
    assert ValidFrame(PowerOn().frame, PowerOn().reg.frame);
    assert StatusOfByte(0) == Status(false, false, false, false, false, false, false, false);
  }
}
