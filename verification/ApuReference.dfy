/** The reference audio unit: one CPU cycle at a time, every output level recomputed every cycle.
  *
  * No jump lengths, no skipped recomputation and no cached mixer index appear here.  ApuDevice.dfy
  * proves that the source's event-skipping loop computes what Run computes.
  */
module ApuReference {
  import opened Common
  import opened ApuTypes
  import opened ApuChannels

  // -------------------------------------------------------- frame sequencer

  function SweepTarget(p: Pulse, reg: PulseReg, isPulse1: bool): (p': Pulse)
    requires ValidPulse(p)
    ensures ValidPulse(p')
  {
    var change := p.timer.period / Pow2(reg.SweepShift());
    var target := if !reg.SweepNegate() then p.timer.period + change
                  else if isPulse1 then p.timer.period - change - 1
                  else p.timer.period - change;
    var period := if target < 0 then 0 else target;
    p.(sweep := p.sweep.(targetPeriod := period, mute := p.timer.period < 8 || period > MAX_PERIOD))
  }

  function EnvelopeTick(e: Envelope, volume: nat, loopFlag: bool): (e': Envelope)
    requires ValidEnvelope(e) && volume <= 15
    ensures ValidEnvelope(e')
  {
    if e.startFlag then Envelope(false, volume, 15)
    else if e.divider > 0 then e.(divider := e.divider - 1)
    else e.(divider := volume,
            decay := if e.decay > 0 then e.decay - 1 else if loopFlag then 15 else 0)
  }

  function SweepTick(p: Pulse, reg: PulseReg, isPulse1: bool): (p': Pulse)
    requires ValidPulse(p)
    ensures ValidPulse(p')
  {
    var apply := p.sweep.divider == 0 && reg.SweepEnabled() && reg.SweepShift() != 0 && !p.sweep.mute;
    var q := if apply then
               SweepTarget(p.(timer := p.timer.(period := p.sweep.targetPeriod)), reg, isPulse1)
             else p;
    q.(sweep := if p.sweep.divider == 0 || p.sweep.reload then
                  q.sweep.(divider := reg.SweepPeriod(), reload := false)
                else q.sweep.(divider := p.sweep.divider - 1))
  }

  function LengthTick(counter: nat, halt: bool): (c: nat)
    ensures c <= counter
  {
    if counter > 0 && !halt then counter - 1 else counter
  }

  function LinearTick(t: Triangle, reg: TriangleReg): (t': Triangle)
    requires ValidTriangle(t)
    ensures ValidTriangle(t')
  {
    t.(linearCounter := if t.linearReload then reg.LinearLoad()
                        else if t.linearCounter > 0 then t.linearCounter - 1 else 0,
       linearReload := t.linearReload && reg.Halt())
  }

  function QuarterFrame(a: Apu): (a': Apu)
    requires ValidChannels(a)
    ensures ValidChannels(a')
    ensures a' == a.(pulse1 := a'.pulse1, pulse2 := a'.pulse2, triangle := a'.triangle, noise := a'.noise)
  {
    a.(pulse1 := a.pulse1.(envelope := EnvelopeTick(a.pulse1.envelope, a.reg.pulse1.Volume(), a.reg.pulse1.Halt())),
       pulse2 := a.pulse2.(envelope := EnvelopeTick(a.pulse2.envelope, a.reg.pulse2.Volume(), a.reg.pulse2.Halt())),
       noise := a.noise.(envelope := EnvelopeTick(a.noise.envelope, a.reg.noise.Volume(), a.reg.noise.Halt())),
       triangle := LinearTick(a.triangle, a.reg.triangle))
  }

  function HalfFrame(a: Apu): (a': Apu)
    requires ValidChannels(a)
    ensures ValidChannels(a')
    ensures a' == a.(pulse1 := a'.pulse1, pulse2 := a'.pulse2, triangle := a'.triangle, noise := a'.noise)
  {
    a.(pulse1 := SweepTick(a.pulse1.(lengthCounter := LengthTick(a.pulse1.lengthCounter, a.reg.pulse1.Halt())),
                           a.reg.pulse1, true),
       pulse2 := SweepTick(a.pulse2.(lengthCounter := LengthTick(a.pulse2.lengthCounter, a.reg.pulse2.Halt())),
                           a.reg.pulse2, false),
       triangle := a.triangle.(lengthCounter := LengthTick(a.triangle.lengthCounter, a.reg.triangle.Halt())),
       noise := a.noise.(lengthCounter := LengthTick(a.noise.lengthCounter, a.reg.noise.Halt())))
  }

  /** Carry out the frame signals that are waiting. */
  function Flush(a: Apu): (a': Apu)
    requires ValidChannels(a)
    ensures ValidChannels(a')
    ensures a' == a.(pulse1 := a'.pulse1, pulse2 := a'.pulse2, triangle := a'.triangle, noise := a'.noise,
                     frame := a.frame.(pendingQuarter := false, pendingHalf := false))
  {
    hide QuarterFrame, HalfFrame;
    var q := if a.frame.pendingQuarter then
               QuarterFrame(a.(frame := a.frame.(pendingQuarter := false)))
             else a;
    if q.frame.pendingHalf then HalfFrame(q.(frame := q.frame.(pendingHalf := false))) else q
  }

  /** The frame IRQ flag is raised on three consecutive CPU cycles; this is the second and third. */
  function RepeatFrameIrq(a: Apu): (a': Apu)
    ensures a' == a.(frame := a.frame.(pendingIrq := a'.frame.pendingIrq),
                     reg := a.reg.(status := a.reg.status.(frameIrq := a'.reg.status.frameIrq)))
  {
    if !a.frame.pendingIrq then a
    else
      a.(frame := a.frame.(pendingIrq := a.HalfPhase() == 0),
         reg := a.reg.(status := a.reg.status.(
                         frameIrq := a.reg.status.frameIrq || !a.reg.frame.IrqDisable())))
  }

  /** A write to $4017 restarts the sequencer a few cycles later. */
  function DelayedReset(a: Apu): (a': Apu)
    requires ValidChannels(a)
    ensures ValidChannels(a')
    ensures a' == a.(pulse1 := a'.pulse1, pulse2 := a'.pulse2, triangle := a'.triangle, noise := a'.noise,
                     frame := a'.frame)
    ensures ValidFrame(a.frame, a.reg.frame) ==> ValidFrame(a'.frame, a.reg.frame)
  {
    hide QuarterFrame, HalfFrame;
    if a.frame.resetDelay == 0 then a
    else if a.frame.resetDelay > 1 then
      a.(frame := a.frame.(resetDelay := a.frame.resetDelay - 1))
    else
      var b := a.(frame := a.frame.(resetDelay := 0, countdown := 0, step := 0));
      if a.reg.frame.FiveStep() then HalfFrame(QuarterFrame(b)) else b
  }

  function Signals(a: Apu): (a': Apu)
    requires ValidChannels(a)
    ensures ValidChannels(a')
    ensures a' == a.(pulse1 := a'.pulse1, pulse2 := a'.pulse2, triangle := a'.triangle, noise := a'.noise,
                     frame := a'.frame, reg := a.reg.(status := a.reg.status.(frameIrq := a'.reg.status.frameIrq)))
    ensures ValidFrame(a.frame, a.reg.frame) ==> ValidFrame(a'.frame, a'.reg.frame)
  {
    hide Flush, DelayedReset, RepeatFrameIrq, ValidPulse, ValidTriangle, ValidNoise, ValidDmc;
    DelayedReset(Flush(RepeatFrameIrq(a)))
  }

  // -------------------------------------------------------------- invariants

  ghost predicate ValidChannels(a: Apu) {
    && ValidPulse(a.pulse1) && ValidPulse(a.pulse2) && ValidTriangle(a.triangle)
    && ValidNoise(a.noise) && ValidDmc(a.dmc)
  }

  /** Every cached channel level and the cached mixer index are what recomputation would give. */
  ghost predicate CachesAgree(a: Apu)
    requires ValidChannels(a)
  {
    && a.pulse1.output == PulseOutput(a.pulse1, a.reg.pulse1)
    && a.pulse2.output == PulseOutput(a.pulse2, a.reg.pulse2)
    && a.triangle.output == TriangleOutput(a.triangle)
    && a.noise.output == NoiseOutput(a.noise, a.reg.noise)
    && a.tndIndexBase == a.noise.output + a.dmc.outputLevel
  }

  /** The mixer's answer for the channel states, without looking at any cache. */
  function Mix(a: Apu, env: Env): (mix: int)
    requires ValidEnv(env) && ValidChannels(a)
    ensures 0 <= mix <= MIX_MAX
  {
    env.tndTable[NoiseOutput(a.noise, a.reg.noise) + a.dmc.outputLevel + TriangleOutput(a.triangle)] +
    env.pulseTable[PulseOutput(a.pulse1, a.reg.pulse1) + PulseOutput(a.pulse2, a.reg.pulse2)]
  }

  /** What holds from power-on, whatever registers are written and however far the unit is run. */
  ghost predicate Core(a: Apu) {
    && ValidChannels(a) && ValidFrame(a.frame, a.reg.frame) && CachesAgree(a)
    && a.sampleCycleAccum < CPU_CLOCK_RATE
    && AUDIO_SAMPLE_RATE * a.sampleCount <= a.sampleCycleAccum
  }

  /** The IRQ line is polled between calls, where it is the disjunction of the two flags. */
  ghost predicate Inv(a: Apu) {
    Core(a) && a.irq == a.IrqFlags()
  }

  /** The part about sound levels: the accumulator cannot overflow and every sample fits 16 bits. */
  ghost predicate LevelsBounded(a: Apu) {
    && 0 <= a.outputMix <= MIX_MAX
    && 0 <= a.sampleAccum <= MIX_MAX * a.sampleCount
    && forall i :: 0 <= i < |a.samples| ==> -0x8000 <= a.samples[i] < 0x8000
  }

  // -------------------------------------------------------- one CPU cycle

  /** Recompute every cached level. */
  function Refresh(a: Apu, env: Env): (a': Apu)
    requires ValidEnv(env) && ValidChannels(a)
    ensures ValidChannels(a') && CachesAgree(a') && a'.outputMix == Mix(a', env) == Mix(a, env)
    ensures a' == a.(pulse1 := a'.pulse1, pulse2 := a'.pulse2, triangle := a'.triangle, noise := a'.noise,
                     tndIndexBase := a'.tndIndexBase, outputMix := a'.outputMix)
  {
    var noise := NoiseOutput(a.noise, a.reg.noise);
    a.(pulse1 := a.pulse1.(output := PulseOutput(a.pulse1, a.reg.pulse1)),
       pulse2 := a.pulse2.(output := PulseOutput(a.pulse2, a.reg.pulse2)),
       triangle := a.triangle.(output := TriangleOutput(a.triangle)),
       noise := a.noise.(output := noise),
       tndIndexBase := noise + a.dmc.outputLevel,
       outputMix := Mix(a, env))
  }

  /** The half-rate units: sequencer, pulses, noise and DMC. */
  function ApuTick(a: Apu, env: Env): (a': Apu)
    requires ValidEnv(env) && ValidChannels(a) && ValidFrame(a.frame, a.reg.frame)
    ensures ValidChannels(a') && ValidFrame(a'.frame, a'.reg.frame)
    ensures a' == a.(pulse1 := a'.pulse1, pulse2 := a'.pulse2, noise := a'.noise,
                     dmc := a'.dmc, frame := a'.frame, reg := a'.reg)
  {
    hide PulseTick, NoiseTick, DmcTick, FrameTick, ValidPulse, ValidNoise, ValidDmc, ValidFrame;
    var frame := FrameTick(FrameUnit(a.frame, a.reg.status.frameIrq), a.reg.frame);
    var dmc := DmcTick(DmcUnit(a.dmc, a.reg.status.dmcIrq), a.reg.dmc, env.prg);
    a.(frame := frame.frame, dmc := dmc.dmc,
       reg := a.reg.(status := a.reg.status.(frameIrq := frame.irq, dmcIrq := dmc.irq)),
       pulse1 := PulseTick(a.pulse1), pulse2 := PulseTick(a.pulse2),
       noise := NoiseTick(a.noise, a.reg.noise))
  }

  /** Add one cycle's level to the running average and emit it when a sample falls due. */
  function Accumulate(a: Apu): (a': Apu)
    requires a.sampleCycleAccum < CPU_CLOCK_RATE
    requires AUDIO_SAMPLE_RATE * a.sampleCount <= a.sampleCycleAccum
    ensures a'.sampleCycleAccum < CPU_CLOCK_RATE
    ensures AUDIO_SAMPLE_RATE * a'.sampleCount <= a'.sampleCycleAccum
    ensures a' == a.(sampleAccum := a'.sampleAccum, sampleCount := a'.sampleCount,
                     sampleCycleAccum := a'.sampleCycleAccum, samples := a'.samples)
  {
    var b := a.(sampleAccum := a.sampleAccum + a.outputMix,
                sampleCount := a.sampleCount + 1,
                sampleCycleAccum := a.sampleCycleAccum + AUDIO_SAMPLE_RATE);
    if b.sampleCycleAccum < CPU_CLOCK_RATE then b
    else
      b.(samples := b.samples + [b.sampleAccum / b.sampleCount * 2 - 0x8000],
         sampleAccum := 0, sampleCount := 0,
         sampleCycleAccum := b.sampleCycleAccum - CPU_CLOCK_RATE)
  }

  /** The units that tick in this CPU cycle, before anything is heard of it. */
  function Tick(a: Apu, env: Env): (a': Apu)
    requires ValidEnv(env) && ValidChannels(a) && ValidFrame(a.frame, a.reg.frame)
    ensures ValidChannels(a') && ValidFrame(a'.frame, a'.reg.frame)
    ensures a' == a.(pulse1 := a'.pulse1, pulse2 := a'.pulse2, triangle := a'.triangle, noise := a'.noise,
                     dmc := a'.dmc, frame := a'.frame, reg := a'.reg)
  {
    hide ApuTick, TriangleTick, ValidPulse, ValidNoise, ValidDmc, ValidTriangle, ValidFrame;
    var t := if a.HalfPhase() == 1 then ApuTick(a, env) else a;
    t.(triangle := TriangleTick(t.triangle))
  }

  /** Make the cycle audible and count it. */
  function Finish(a: Apu, env: Env): (a': Apu)
    requires ValidEnv(env) && ValidChannels(a) && ValidFrame(a.frame, a.reg.frame)
    requires a.sampleCycleAccum < CPU_CLOCK_RATE
    requires AUDIO_SAMPLE_RATE * a.sampleCount <= a.sampleCycleAccum
    ensures Inv(a') && a'.outputMix == Mix(a', env)
  {
    hide Refresh, Mix, Accumulate, ValidPulse, ValidNoise, ValidDmc, ValidTriangle, ValidFrame,
         PulseOutput, TriangleOutput, NoiseOutput;
    var u := Accumulate(Refresh(a, env));
    u.(cycles2x := a.cycles2x + 1, irq := u.IrqFlags())
  }

  function Cycle(a: Apu, env: Env): (a': Apu)
    requires ValidEnv(env) && Inv(a)
    ensures Inv(a') && a'.outputMix == Mix(a', env)
  {
    hide Tick, Signals, Finish, ValidPulse, ValidNoise, ValidDmc, ValidTriangle, ValidFrame, CachesAgree;
    Finish(Tick(Signals(a), env), env)
  }

  /** n CPU cycles, one after the other. */
  ghost function Run(a: Apu, env: Env, n: nat): (a': Apu)
    requires ValidEnv(env) && Inv(a)
    ensures Inv(a') && (n > 0 ==> a'.outputMix == Mix(a', env))
  {
    if n == 0 then a else Cycle(Run(a, env, n - 1), env)
  }

  lemma {:induction false} RunAdds(a: Apu, env: Env, m: nat, n: nat)
    requires ValidEnv(env) && Inv(a)
    ensures Run(Run(a, env, m), env, n) == Run(a, env, m + n)
  {
    hide Cycle, Inv, Mix, ValidEnv;
    if n > 0 {
      RunAdds(a, env, m, n - 1);
    }
  }
}
