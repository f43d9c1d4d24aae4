/** The audio unit as the source has it: one object, updated in place, advanced by jumps.
  */
module ApuDevice {
  import opened Common
  import opened ApuTypes
  import opened ApuChannels
  import opened ApuReference
  import opened ApuBatch
  import opened ApuMixer
  import opened ApuRegisters

  /** apu.c:952-988: registers cleared, timers at their slowest rate, five APU ticks already gone. */
  function PowerOn(): Apu {
    var pulse := Pulse(Timer(0, 0), Envelope(false, 0, 0), Sweep(false, false, 0, 0), 0, 0, 0);
    var pulseReg := PulseReg(0, 0, 0, 0);
    Apu(Regs(pulseReg, pulseReg, TriangleReg(0, 0, 0), NoiseReg(0, 0, 0), DmcReg(0, 0, 0, 0),
             StatusOfByte(0), FrameReg(0)),
        pulse, pulse,
        Triangle(Timer(0, 0), 0, 0, 0, 21, false),
        Noise(Timer(2, 2), Envelope(false, 0, 0), 1, 0, 0),
        Dmc(Timer(214, 214), 0, 0, 0, 0, 8, 0, true, true),
        FrameCounter(5, 0, 0, false, false, false),
        0, false, 0, 0, 0, 0, 0, [])
  }

  /** The length of the first jump of a call. */
  function FirstJump(a: Apu, cycles: nat): (k: nat)
    requires Inv(a)
    ensures k <= cycles && (cycles > 0 ==> k > 0)
  {
    if cycles == 0 then 0
    else if a.frame.Pending() then 1
    else Min(cycles, CyclesToChannelEvent(a))
  }

  class Device {
    var reg: Regs
    var pulse1: Pulse
    var pulse2: Pulse
    var triangle: Triangle
    var noise: Noise
    var dmc: Dmc
    var frame: FrameCounter
    var cycles2x: nat
    var irq: bool
    var sampleAccum: int
    var sampleCount: nat
    var sampleCycleAccum: nat
    var tndIndexBase: nat
    var outputMix: int
    /** The audio backend: every sample pushed so far. */
    var samples: seq<int>

    function View(): Apu
      reads this
    {
      Apu(reg, pulse1, pulse2, triangle, noise, dmc, frame, cycles2x, irq, sampleAccum, sampleCount,
          sampleCycleAccum, tndIndexBase, outputMix, samples)
    }

    constructor Init()
      ensures View() == PowerOn()
    {
      reg := Regs(PulseReg(0, 0, 0, 0), PulseReg(0, 0, 0, 0), TriangleReg(0, 0, 0), NoiseReg(0, 0, 0),
                  DmcReg(0, 0, 0, 0), StatusOfByte(0), FrameReg(0));
      pulse1 := Pulse(Timer(0, 0), Envelope(false, 0, 0), Sweep(false, false, 0, 0), 0, 0, 0);
      pulse2 := Pulse(Timer(0, 0), Envelope(false, 0, 0), Sweep(false, false, 0, 0), 0, 0, 0);
      var tri := Triangle(Timer(0, 0), 0, 0, 0, 0, false);
      triangle := tri.(output := TriangleOutput(tri));
      noise := Noise(Timer(NoisePeriod(0), NoisePeriod(0)), Envelope(false, 0, 0), 1, 0, 0);
      dmc := Dmc(Timer(DmcRate(0), DmcRate(0)), 0, 0, 0, 0, 8, 0, true, true);
      frame := FrameCounter(5, 0, 0, false, false, false);
      cycles2x, irq, sampleAccum, sampleCount, sampleCycleAccum := 0, false, 0, 0, 0;
      tndIndexBase, outputMix, samples := 0, 0, [];
    }

    /** apu.c:134-140. */
    function MixedSample(env: Env): int
      requires ValidEnv(env) && ValidChannels(View()) && CachesAgree(View())
      reads this
    {
      env.tndTable[tndIndexBase + triangle.output] + env.pulseTable[pulse1.output + pulse2.output]
    }

    /** apu.c:172-175. */
    method UpdateLevels()
      requires ValidChannels(View())
      modifies `pulse1, `pulse2, `triangle, `noise
      ensures var a := old(View());
              View() == a.(pulse1 := a.pulse1.(output := PulseOutput(a.pulse1, reg.pulse1)),
                           pulse2 := a.pulse2.(output := PulseOutput(a.pulse2, reg.pulse2)),
                           triangle := a.triangle.(output := TriangleOutput(a.triangle)),
                           noise := a.noise.(output := NoiseOutput(a.noise, reg.noise)))
    {
      hide PulseOutput, TriangleOutput, NoiseOutput;
      pulse1 := pulse1.(output := PulseOutput(pulse1, reg.pulse1));
      pulse2 := pulse2.(output := PulseOutput(pulse2, reg.pulse2));
      triangle := triangle.(output := TriangleOutput(triangle));
      noise := noise.(output := NoiseOutput(noise, reg.noise));
    }

    /** apu.c:168-178. */
    method UpdateOutput(env: Env)
      requires ValidEnv(env) && ValidChannels(View())
      modifies this
      ensures View() == Refresh(old(View()), env)
    {
      hide ValidPulse, ValidTriangle, ValidNoise, ValidDmc, PulseOutput, TriangleOutput, NoiseOutput;
      UpdateLevels();
      LevelsIgnored(old(View()), View());
      tndIndexBase := noise.output + dmc.outputLevel;
      outputMix := MixedSample(env);
    }

    /** apu.c:675-681. */
    method QuarterFrameTick()
      requires ValidChannels(View())
      modifies this
      ensures View() == QuarterFrame(old(View()))
    {
      hide ValidTriangle, ValidDmc;
      pulse1 := pulse1.(envelope := EnvelopeTick(pulse1.envelope, reg.pulse1.Volume(), reg.pulse1.Halt()));
      pulse2 := pulse2.(envelope := EnvelopeTick(pulse2.envelope, reg.pulse2.Volume(), reg.pulse2.Halt()));
      noise := noise.(envelope := EnvelopeTick(noise.envelope, reg.noise.Volume(), reg.noise.Halt()));
      triangle := LinearTick(triangle, reg.triangle);
    }

    /** apu.c:683-692. */
    method HalfFrameTick()
      requires ValidChannels(View())
      modifies this
      ensures View() == HalfFrame(old(View()))
    {
      hide SweepTick;
      pulse1 := pulse1.(lengthCounter := LengthTick(pulse1.lengthCounter, reg.pulse1.Halt()));
      pulse2 := pulse2.(lengthCounter := LengthTick(pulse2.lengthCounter, reg.pulse2.Halt()));
      triangle := triangle.(lengthCounter := LengthTick(triangle.lengthCounter, reg.triangle.Halt()));
      noise := noise.(lengthCounter := LengthTick(noise.lengthCounter, reg.noise.Halt()));
      pulse1 := SweepTick(pulse1, reg.pulse1, true);
      pulse2 := SweepTick(pulse2, reg.pulse2, false);
    }

    /** apu.c:694-706. */
    method FlushFrameSignals()
      requires ValidChannels(View())
      modifies this
      ensures View() == Flush(old(View()))
    {
      hide QuarterFrame, HalfFrame, ValidPulse, ValidTriangle, ValidNoise, ValidDmc;
      if frame.pendingQuarter {
        frame := frame.(pendingQuarter := false);
        QuarterFrameTick();
      }
      if frame.pendingHalf {
        frame := frame.(pendingHalf := false);
        HalfFrameTick();
      }
    }

    /** apu.c:796-829. */
    method ProcessPendingFrameSignals(env: Env) returns (busy: bool)
      requires ValidEnv(env) && Core(View())
      modifies this
      ensures busy == old(frame.Pending())
      ensures AfterSignals(old(View()), View(), env)
      ensures outputMix == old(outputMix) || outputMix == Mix(View(), env)
    {
      hide RepeatFrameIrq, Flush, DelayedReset, Refresh, Mix, ValidPulse, ValidTriangle, ValidNoise, ValidDmc,
           ValidFrame, CachesAgree;
      ghost var before := View();
      if !frame.pendingIrq && !frame.pendingQuarter && !frame.pendingHalf && frame.resetDelay == 0 {
        NothingPending(before, env);
        return false;
      }
      if frame.pendingIrq {
        RepeatIrq();
      } else {
        NoRepeat(before);
      }
      ghost var repeated := View();
      RepeatIsQuiet(before, repeated, env);
      if frame.pendingQuarter || frame.pendingHalf {
        FlushFrameSignals();
        UpdateOutput(env);
      }
      ghost var flushed := View();
      FlushShown(repeated, flushed, env);
      ResetFrameCounter(env);
      ResetShown(Flush(repeated), flushed, View(), env);
      return true;
    }

    /** apu.c:805-813. */
    method RepeatIrq()
      requires frame.pendingIrq
      modifies `frame, `reg
      ensures View() == RepeatFrameIrq(old(View()))
    {
      if cycles2x % 2 == 1 {
        frame := frame.(pendingIrq := false);
      }
      if !reg.frame.IrqDisable() {
        reg := reg.(status := reg.status.(frameIrq := true));
      }
    }

    /** apu.c:818-827. */
    method ResetFrameCounter(env: Env)
      requires ValidEnv(env) && ValidChannels(View())
      modifies this
      ensures View() == if old(frame.resetDelay == 1 && reg.frame.FiveStep())
                        then Refresh(old(DelayedReset(View())), env) else old(DelayedReset(View()))
    {
      hide QuarterFrame, HalfFrame, Refresh, ValidPulse, ValidTriangle, ValidNoise, ValidDmc;
      if frame.resetDelay != 0 {
        frame := frame.(resetDelay := frame.resetDelay - 1);
        if frame.resetDelay == 0 {
          frame := frame.(countdown := 0);
          frame := frame.(step := 0);
          if reg.frame.FiveStep() {
            QuarterFrameTick();
            HalfFrameTick();
            UpdateOutput(env);
          }
        }
      }
    }

    /** apu.c:875-876, with the index both units keep up to date (apu.c:530, 548, 556). */
    method NoiseAndDmcTicks(env: Env, apuTicks: nat) returns (n: Noise, d: DmcUnit, base: nat)
      requires ValidEnv(env) && apuTicks > 0
      requires ValidNoise(noise) && noise.output == NoiseOutput(noise, reg.noise) && apuTicks <= noise.timer.countdown
      requires ValidDmc(dmc) && tndIndexBase == noise.output + dmc.outputLevel && apuTicks <= dmc.timer.countdown
      ensures var ticked := NoiseTicks(noise, reg.noise, apuTicks);
              n == ticked.(output := NoiseOutput(ticked, reg.noise))
      ensures d == DmcTicks(DmcUnit(dmc, reg.status.dmcIrq), reg.dmc, env.prg, apuTicks)
      ensures base == n.output + d.dmc.outputLevel
    {
      hide ValidPulse, ValidTriangle, ValidNoise, ValidDmc, ValidFrame, PulseOutput, TriangleOutput, NoiseOutput,
           NoiseTicks, DmcTicks;
      base := tndIndexBase;
      var changed;
      n, changed := NoiseJump(noise, reg.noise, apuTicks);
      if changed {
        base := n.output + dmc.outputLevel;
      }
      d := DmcJump(DmcUnit(dmc, reg.status.dmcIrq), reg.dmc, env.prg, apuTicks);
      if d.dmc.outputLevel != dmc.outputLevel {
        base := n.output + d.dmc.outputLevel;
      }
    }

    /** apu.c:872-874. */
    method FrameAndPulseTicks(apuTicks: nat)
      requires Core(View())
      requires pulse1.Silent() || apuTicks <= pulse1.timer.countdown + 1
      requires pulse2.Silent() || apuTicks <= pulse2.timer.countdown + 1
      requires frame.countdown + apuTicks <= FrameStep(frame.step) + 1
      modifies `frame, `reg, `pulse1, `pulse2
      ensures View() == old(FrameAndPulsesAdvanced(View(), apuTicks))
    {
      hide ValidPulse, ValidTriangle, ValidNoise, ValidDmc, ValidFrame, PulseOutput, TriangleOutput, NoiseOutput,
           PulseTicks, FrameTicks;
      var frameUnit := FrameJump(FrameUnit(frame, reg.status.frameIrq), reg.frame, apuTicks);
      pulse1 := PulseJump(pulse1, reg.pulse1, apuTicks);
      pulse2 := PulseJump(pulse2, reg.pulse2, apuTicks);
      frame := frameUnit.frame;
      reg := reg.(status := reg.status.(frameIrq := frameUnit.irq));
    }

    /** apu.c:871-877: the units clocked at half the CPU rate. */
    method HalfRateTicks(env: Env, apuTicks: nat)
      requires ValidEnv(env) && Core(View()) && apuTicks > 0
      requires pulse1.Silent() || apuTicks <= pulse1.timer.countdown + 1
      requires pulse2.Silent() || apuTicks <= pulse2.timer.countdown + 1
      requires apuTicks <= noise.timer.countdown && apuTicks <= dmc.timer.countdown
      requires frame.countdown + apuTicks <= FrameStep(frame.step) + 1
      modifies `frame, `reg, `pulse1, `pulse2, `noise, `dmc, `tndIndexBase
      ensures View() == old(HalfRateAdvanced(View(), env, apuTicks))
    {
      hide ValidPulse, ValidTriangle, ValidNoise, ValidDmc, ValidFrame, PulseOutput, TriangleOutput, NoiseOutput,
           PulseTicks, NoiseTicks, DmcTicks, FrameTicks;
      FrameAndPulseTicks(apuTicks);
      var n, d, base := NoiseAndDmcTicks(env, apuTicks);
      noise, dmc, tndIndexBase := n, d.dmc, base;
      reg := reg.(status := reg.status.(dmcIrq := d.irq));
    }

    /** apu.c:882-905. */
    method AccumulateOutput(prevMix: int, stepCycles: nat)
      requires stepCycles >= 1
      modifies `sampleAccum, `sampleCount, `sampleCycleAccum, `samples
      ensures View() == AccumulateMany(old(View()), prevMix, stepCycles)
    {
      sampleAccum := sampleAccum + prevMix * (stepCycles - 1) + outputMix;
      sampleCount := sampleCount + stepCycles;
      sampleCycleAccum := sampleCycleAccum + AUDIO_SAMPLE_RATE * stepCycles;
      if sampleCycleAccum >= CPU_CLOCK_RATE {
        var avgSample := sampleAccum / sampleCount;
        avgSample := avgSample * 2 - 0x8000;
        samples := samples + [avgSample];
        sampleAccum := 0;
        sampleCount := 0;
        sampleCycleAccum := sampleCycleAccum - CPU_CLOCK_RATE;
      }
    }

    /** apu.c:870-879: every channel is advanced by the jump. */
    method TickUnits(env: Env, stepCycles: nat, halfPhase: nat)
      requires ValidEnv(env) && Core(View()) && halfPhase == View().HalfPhase()
      requires stepCycles >= 1 && WithinEvents(View(), stepCycles)
      modifies `frame, `reg, `pulse1, `pulse2, `noise, `dmc, `tndIndexBase, `triangle
      ensures View() == old(Refresh(Advance(View(), env, stepCycles), env).(outputMix := outputMix))
      ensures ValidChannels(View()) && CachesAgree(View())
    {
      hide ValidPulse, ValidTriangle, ValidNoise, ValidDmc, ValidFrame, PulseOutput, TriangleOutput, NoiseOutput,
           Mix, Refresh, Advance, TriangleTicks, HalfRateAdvanced;
      ghost var before := View();
      var apuTicks := (stepCycles + halfPhase) / 2;
      if apuTicks > 0 {
        HalfRateTicks(env, apuTicks);
      } else {
        NoHalfRateTicks(before, env);
      }
      triangle := TriangleJump(triangle, stepCycles);
      StepShown(before, View(), env, stepCycles);
    }

    /** apu.c:867-906: everything one pass of the loop does once the jump length is known. */
    method Step(env: Env, stepCycles: nat, halfPhase: nat)
      requires ValidEnv(env) && Core(View()) && halfPhase == View().HalfPhase()
      requires stepCycles >= 1 && WithinEvents(View(), stepCycles)
      modifies this
      ensures View() == Jump(old(View()), env, stepCycles)
    {
      hide ValidPulse, ValidTriangle, ValidNoise, ValidDmc, ValidFrame, PulseOutput, TriangleOutput, NoiseOutput,
           Mix, Refresh, Advance, AccumulateMany;
      ghost var before := View();
      var prevMix := outputMix;
      TickUnits(env, stepCycles, halfPhase);
      outputMix := MixedSample(env);
      ghost var heard := View();
      StepMixed(before, heard, env, stepCycles);
      AccumulateOutput(prevMix, stepCycles);
      cycles2x := cycles2x + stepCycles;
    }

    /** apu.c:855-910.  The jumps add up to the cycles of the reference, run one by one.
      *
      * Only a stale cached mix can tell them apart, and only until the end of the first jump: it is
      * charged for all but the last cycle of that jump (Corrected).  The cache is stale at power-on
      * and never again after a cycle or a register write.
      */
    method TicksExecute(env: Env, cpuCycles: nat)
      requires ValidEnv(env) && Inv(View()) && LevelsBounded(View())
      modifies this
      ensures View() == old(Run(Corrected(View(), env, FirstJump(View(), cpuCycles)), env, cpuCycles))
      ensures Inv(View()) && LevelsBounded(View())
      ensures cpuCycles > 0 ==> outputMix == Mix(View(), env)
    {
      hide ValidPulse, ValidTriangle, ValidNoise, ValidDmc, ValidFrame, CachesAgree, Corrected, LevelsBounded,
           CyclesToChannelEvent, Cycle, Jump, Mix, Signals, WithinEvents, AfterSignals;
      ghost var start := Corrected(View(), env, FirstJump(View(), cpuCycles));
      var left: nat := cpuCycles;
      NothingRun(View(), env);
      while left > 0
        invariant left <= cpuCycles
        invariant Core(View()) && LevelsBounded(View())
        invariant left == cpuCycles ==> View() == old(View())
        invariant left < cpuCycles ==>
                    && Settled(View()) == Run(start, env, cpuCycles - left)
                    && View().outputMix == Mix(View(), env)
      {
        ghost var a := View();
        var halfPhase := cycles2x % 2;
        var stepCycles := 1;
        var busy := ProcessPendingFrameSignals(env);
        AfterSignalsCore(a, View(), env);
        SignalsKeepPhase(a, View(), env);
        if !busy {
          NothingPendingNothingDone(a, View(), env);
          stepCycles := Min(left, CyclesToChannelEvent(View()));
        }
        NoEventOvershot(View(), stepCycles);
        ghost var b := View();
        Step(env, stepCycles, halfPhase);
        JumpIsRun(a, b, env, stepCycles);
        JumpLevels(a, b, env, stepCycles);
        ghost var done := cpuCycles - left;
        if done == 0 {
          SettledInv(a);
        } else {
          NothingToCorrect(Settled(a), env, stepCycles);
          SettledMix(a, env);
          RunAdds(start, env, done, stepCycles);
        }
        left := left - stepCycles;
      }
      ghost var unsettled := View();
      SettledKeeps(unsettled, env);
      irq := reg.status.frameIrq || reg.status.dmcIrq;
      assert View() == Settled(unsettled);
    }

    /** apu.c:206-274, one method for the two channels the source writes out twice. */
    method WritePulseReg(second: bool, r: nat, val: u8)
      requires ValidChannels(View()) && r < 4
      modifies this
      ensures View() == WritePulse(old(View()), second, r, val)
    {
      hide ValidTriangle, ValidNoise, ValidDmc, SweepTarget, Flush;
      var r0 := PulseRegOf(View(), second);
      var p := PulseOf(View(), second);
      match r {
        case 0 =>
          FlushFrameSignals();
          StorePulseReg(second, r0.(r0 := val));
        case 1 =>
          var reg' := r0.(r1 := val);
          StorePulseReg(second, reg');
          p := p.(sweep := p.sweep.(reload := true));
          StorePulse(second, SweepTarget(p, reg', !second));
        case 2 =>
          var reg' := r0.(r2 := val);
          StorePulseReg(second, reg');
          p := p.(timer := p.timer.(period := reg'.TimerPeriod()));
          StorePulse(second, SweepTarget(p, reg', !second));
        case _ =>
          var reg' := r0.(r3 := val);
          StorePulseReg(second, reg');
          p := p.(timer := p.timer.(period := reg'.TimerPeriod()));
          p := p.(dutyIdx := 0);
          StorePulse(second, p);
          if (if second then reg.status.pulse2 else reg.status.pulse1) {
            var prev := p.lengthCounter;
            FlushFrameSignals();
            p := PulseOf(View(), second);
            if prev == p.lengthCounter {
              p := p.(lengthCounter := Length(reg'.LengthIndex()));
            }
          }
          p := p.(envelope := p.envelope.(startFlag := true));
          StorePulse(second, SweepTarget(p, reg', !second));
      }
    }

    method StorePulse(second: bool, p: Pulse)
      modifies `pulse1, `pulse2
      ensures View() == SetPulse(old(View()), second, p)
    {
      if second { pulse2 := p; } else { pulse1 := p; }
    }

    method StorePulseReg(second: bool, r: PulseReg)
      modifies `reg
      ensures View() == SetPulseReg(old(View()), second, r)
    {
      if second { reg := reg.(pulse2 := r); } else { reg := reg.(pulse1 := r); }
    }

    /** apu.c:276-304. */
    method WriteTriangleReg(r: nat, val: u8)
      requires ValidChannels(View()) && r < 4
      modifies this
      ensures View() == WriteTriangle(old(View()), r, val)
    {
      hide ValidPulse, ValidNoise, ValidDmc, Flush;
      match r {
        case 0 =>
          var reg' := reg.triangle.(r0 := val);
          FlushFrameSignals();
          reg := reg.(triangle := reg');
        case 1 =>
        case 2 =>
          reg := reg.(triangle := reg.triangle.(r2 := val));
          triangle := triangle.(timer := triangle.timer.(period := reg.triangle.TimerPeriod()));
        case _ =>
          reg := reg.(triangle := reg.triangle.(r3 := val));
          triangle := triangle.(timer := triangle.timer.(period := reg.triangle.TimerPeriod()));
          if reg.status.triangle {
            var prev := triangle.lengthCounter;
            FlushFrameSignals();
            if prev == triangle.lengthCounter {
              triangle := triangle.(lengthCounter := Length(reg.triangle.LengthIndex()));
            }
          }
          triangle := triangle.(linearReload := true);
      }
    }

    /** apu.c:306-333. */
    method WriteNoiseReg(r: nat, val: u8)
      requires ValidChannels(View()) && r < 4
      modifies this
      ensures View() == WriteNoise(old(View()), r, val)
    {
      hide ValidPulse, ValidTriangle, ValidDmc, Flush;
      match r {
        case 0 =>
          var reg' := reg.noise.(r0 := val);
          FlushFrameSignals();
          reg := reg.(noise := reg');
        case 1 =>
        case 2 =>
          reg := reg.(noise := reg.noise.(r2 := val));
          noise := noise.(timer := noise.timer.(period := NoisePeriod(reg.noise.PeriodIndex())));
        case _ =>
          reg := reg.(noise := reg.noise.(r3 := val));
          if reg.status.noise {
            var prev := noise.lengthCounter;
            FlushFrameSignals();
            if prev == noise.lengthCounter {
              noise := noise.(lengthCounter := Length(reg.noise.LengthIndex()));
            }
          }
          noise := noise.(envelope := noise.envelope.(startFlag := true));
      }
    }

    /** apu.c:335-356. */
    method WriteDmcReg(r: nat, val: u8)
      requires ValidChannels(View()) && r < 4
      modifies this
      ensures View() == WriteDmc(old(View()), r, val)
    {
      hide ValidPulse, ValidTriangle, ValidNoise, ValidDmc;
      match r {
        case 0 =>
          reg := reg.(dmc := reg.dmc.(r0 := val));
          dmc := dmc.(timer := dmc.timer.(period := DmcRate(reg.dmc.RateIndex())));
          if !reg.dmc.IrqEnabled() {
            reg := reg.(status := reg.status.(dmcIrq := false));
            irq := reg.status.frameIrq;
          }
        case 1 =>
          reg := reg.(dmc := reg.dmc.(r1 := val));
          dmc := dmc.(outputLevel := reg.dmc.DirectLoad());
        case 2 =>
          reg := reg.(dmc := reg.dmc.(sampleAddr := val));
        case _ =>
          reg := reg.(dmc := reg.dmc.(sampleLen := val));
      }
    }

    /** apu.c:358-386. */
    method WriteStatusReg(val: u8)
      requires ValidChannels(View())
      modifies this
      ensures View() == WriteStatus(old(View()), val)
    {
      hide ValidPulse, ValidTriangle, ValidNoise, ValidDmc, StatusOfByte;
      var status := StatusOfByte(val);
      status := status.(frameIrq := reg.status.frameIrq);
      reg := reg.(status := status);
      StopChannels();
      SwitchDmc();
      ClearDmcIrq();
    }

    /** apu.c:366-373. */
    method StopChannels()
      modifies `pulse1, `pulse2, `triangle, `noise
      ensures var a, s := old(View()), reg.status;
              View() == a.(pulse1 := if s.pulse1 then a.pulse1 else a.pulse1.(lengthCounter := 0),
                           pulse2 := if s.pulse2 then a.pulse2 else a.pulse2.(lengthCounter := 0),
                           triangle := if s.triangle then a.triangle else a.triangle.(lengthCounter := 0),
                           noise := if s.noise then a.noise else a.noise.(lengthCounter := 0))
    {
      pulse1 := if !reg.status.pulse1 then pulse1.(lengthCounter := 0) else pulse1;
      pulse2 := if !reg.status.pulse2 then pulse2.(lengthCounter := 0) else pulse2;
      triangle := if !reg.status.triangle then triangle.(lengthCounter := 0) else triangle;
      noise := if !reg.status.noise then noise.(lengthCounter := 0) else noise;
    }

    /** apu.c:375-382. */
    method SwitchDmc()
      modifies `dmc
      ensures var a := old(View());
              View() == a.(dmc := if !reg.status.dmc then a.dmc.(bytesRemaining := 0)
                                  else if a.dmc.bytesRemaining != 0 then a.dmc
                                  else a.dmc.(currAddr := reg.dmc.StartAddr(), bytesRemaining := reg.dmc.Length()))
    {
      if !reg.status.dmc {
        dmc := dmc.(bytesRemaining := 0);
      } else if dmc.bytesRemaining == 0 {
        dmc := dmc.(currAddr := reg.dmc.StartAddr());
        dmc := dmc.(bytesRemaining := reg.dmc.Length());
      }
    }

    /** apu.c:383-384. */
    method ClearDmcIrq()
      modifies `reg, `irq
      ensures View() == old(View()).(reg := old(reg).(status := old(reg).status.(dmcIrq := false)),
                                     irq := old(reg).status.frameIrq)
    {
      reg := reg.(status := reg.status.(dmcIrq := false));
      irq := reg.status.frameIrq;
    }

    /** apu.c:387-401. */
    method WriteFrameReg(val: u8)
      modifies this
      ensures View() == WriteFrame(old(View()), val)
    {
      reg := reg.(frame := FrameReg(val));
      if reg.frame.IrqDisable() {
        reg := reg.(status := reg.status.(frameIrq := false));
        irq := reg.status.dmcIrq;
      }
      frame := frame.(resetDelay := if cycles2x % 2 == 1 then 3 else 4);
    }

    /** apu.c:192-407.  After any write every cache is right, and no time has passed. */
    method RegWrite(env: Env, offs: nat, val: u8)
      requires ValidEnv(env) && Inv(View()) && LevelsBounded(View()) && IsRegister(offs)
      modifies this
      ensures View() == Refresh(old(Write(View(), offs, val)), env)
      ensures Inv(View()) && LevelsBounded(View()) && outputMix == Mix(View(), env)
      ensures SameClocks(old(View()), View())
    {
      hide ValidPulse, ValidTriangle, ValidNoise, ValidDmc, ValidFrame, CachesAgree, Refresh, Mix,
           WritePulse, WriteTriangle, WriteNoise, WriteDmc, WriteStatus, WriteFrame;
      WriteKeepsInv(View(), env, offs, val);
      if offs <= 0x03 {
        WritePulseReg(false, offs, val);
      } else if offs <= 0x07 {
        WritePulseReg(true, offs - 0x04, val);
      } else if offs <= 0x0B {
        WriteTriangleReg(offs - 0x08, val);
      } else if offs <= 0x0F {
        WriteNoiseReg(offs - 0x0C, val);
      } else if offs <= 0x13 {
        WriteDmcReg(offs - 0x10, val);
      } else if offs == 0x15 {
        WriteStatusReg(val);
      } else {
        WriteFrameReg(val);
      }
      UpdateOutput(env);
    }

    /** apu.c:414-442.  Reading $4015 reports which channels still sound and acknowledges the frame IRQ. */
    method RegReadStatus() returns (result: u8)
      requires Inv(View()) && LevelsBounded(View())
      modifies `reg, `irq
      ensures result == old(reg.status).(
                pulse1 := pulse1.lengthCounter != 0, pulse2 := pulse2.lengthCounter != 0,
                triangle := triangle.lengthCounter != 0, noise := noise.lengthCounter != 0,
                dmc := dmc.bytesRemaining != 0).Byte()
      ensures View() == old(View()).(reg := old(reg).(status := old(reg).status.(frameIrq := false)),
                                     irq := old(reg).status.dmcIrq)
      ensures Inv(View()) && LevelsBounded(View())
    {
      hide ValidPulse, ValidTriangle, ValidNoise, ValidDmc, ValidFrame, PulseOutput, TriangleOutput, NoiseOutput;
      var status := reg.status.(
        pulse1 := pulse1.lengthCounter != 0, pulse2 := pulse2.lengthCounter != 0,
        triangle := triangle.lengthCounter != 0, noise := noise.lengthCounter != 0,
        dmc := dmc.bytesRemaining != 0);
      if reg.status.frameIrq {
        reg := reg.(status := reg.status.(frameIrq := false));
        irq := reg.status.dmcIrq;
      }
      result := status.Byte();
    }
  }

  /** The object once its interrupt line has been refreshed from the flags. */
  function Settled(a: Apu): Apu { a.(irq := a.IrqFlags()) }

  /** The sequencer and the pulses a number of ticks later, with their cached levels. */
  ghost function FrameAndPulsesAdvanced(a: Apu, ticks: nat): Apu
    requires Core(a)
  {
    var frame := FrameTicks(FrameUnit(a.frame, a.reg.status.frameIrq), a.reg.frame, ticks);
    var p1, p2 := PulseTicks(a.pulse1, ticks), PulseTicks(a.pulse2, ticks);
    a.(pulse1 := p1.(output := PulseOutput(p1, a.reg.pulse1)),
       pulse2 := p2.(output := PulseOutput(p2, a.reg.pulse2)), frame := frame.frame,
       reg := a.reg.(status := a.reg.status.(frameIrq := frame.irq)))
  }

  /** The half-rate units a number of ticks later, with their cached levels. */
  ghost function HalfRateAdvanced(a: Apu, env: Env, ticks: nat): Apu
    requires ValidEnv(env) && Core(a)
  {
    var dmc := DmcTicks(DmcUnit(a.dmc, a.reg.status.dmcIrq), a.reg.dmc, env.prg, ticks);
    var n := NoiseTicks(a.noise, a.reg.noise, ticks);
    var level := NoiseOutput(n, a.reg.noise);
    var b := FrameAndPulsesAdvanced(a, ticks);
    b.(noise := n.(output := level), dmc := dmc.dmc,
       reg := b.reg.(status := b.reg.status.(dmcIrq := dmc.irq)), tndIndexBase := level + dmc.dmc.outputLevel)
  }

  lemma NoHalfRateTicks(a: Apu, env: Env)
    requires ValidEnv(env) && Core(a)
    ensures HalfRateAdvanced(a, env, 0) == a
  {
  }

  lemma StepShown(a: Apu, b: Apu, env: Env, cycles: nat)
    requires ValidEnv(env) && Core(a)
    requires var t := TriangleTicks(a.triangle, cycles);
             b == HalfRateAdvanced(a, env, a.TicksIn(cycles)).(triangle := t.(output := TriangleOutput(t)))
    ensures b == Refresh(Advance(a, env, cycles), env).(outputMix := a.outputMix)
    ensures ValidChannels(b) && CachesAgree(b)
  {
    hide ValidFrame, ValidDmc, PulseTicks, NoiseTicks, DmcTicks, FrameTicks, TriangleTicks, Mix;
    var r := Refresh(Advance(a, env, cycles), env).(outputMix := a.outputMix);
    assert b == r;
    MixIgnoresCounters(Refresh(Advance(a, env, cycles), env), r, env);
  }

  lemma StepMixed(a: Apu, b: Apu, env: Env, cycles: nat)
    requires ValidEnv(env) && Core(a)
    requires var r := Refresh(Advance(a, env, cycles), env);
             b == r.(outputMix := env.tndTable[r.tndIndexBase + r.triangle.output] +
                                  env.pulseTable[r.pulse1.output + r.pulse2.output])
    ensures b == Refresh(Advance(a, env, cycles), env)
  {
    hide ValidPulse, ValidTriangle, ValidNoise, ValidDmc, ValidFrame, Advance,
         PulseOutput, TriangleOutput, NoiseOutput;
  }

  lemma NothingPending(a: Apu, env: Env)
    requires ValidEnv(env) && Core(a) && !a.frame.Pending()
    ensures AfterSignals(a, a, env)
  {
    hide Refresh, Mix, CachesAgree, ValidPulse, ValidTriangle, ValidNoise, ValidDmc;
    assert Signals(a) == a;
    RefreshAgreeing(a, env);
  }

  lemma NoRepeat(a: Apu)
    requires !a.frame.pendingIrq
    ensures RepeatFrameIrq(a) == a
  {
  }

  lemma RepeatIsQuiet(a: Apu, b: Apu, env: Env)
    requires ValidEnv(env) && Core(a) && b == RepeatFrameIrq(a)
    ensures Core(b) && Refresh(b, env) == b.(outputMix := Mix(b, env))
  {
    hide ValidPulse, ValidTriangle, ValidNoise, ValidDmc, PulseOutput, TriangleOutput, NoiseOutput;
    RefreshAgreeing(b, env);
  }

  lemma FlushShown(a: Apu, b: Apu, env: Env)
    requires ValidEnv(env) && Core(a) && Refresh(a, env) == a.(outputMix := Mix(a, env))
    requires b == if a.frame.pendingQuarter || a.frame.pendingHalf then Refresh(Flush(a), env) else a
    ensures b == Refresh(Flush(a), env).(outputMix := b.outputMix)
    ensures b.outputMix == a.outputMix || b.outputMix == Mix(Flush(a), env)
  {
    hide Refresh, Mix, QuarterFrame, HalfFrame, ValidPulse, ValidTriangle, ValidNoise, ValidDmc;
  }

  lemma ResetKeepsLevels(a: Apu, b: Apu)
    requires ValidChannels(a) && b == WithLevels(a, b)
    ensures ValidChannels(b) && DelayedReset(b) == WithLevels(DelayedReset(a), b)
  {
    hide EnvelopeTick, LengthTick;
    LevelsIgnored(a, b);
    hide PulseOutput, TriangleOutput, NoiseOutput;
    if a.frame.resetDelay == 1 && a.reg.frame.FiveStep() {
      var a' := a.(frame := a.frame.(resetDelay := 0, countdown := 0, step := 0));
      QuarterHalfKeepLevels(a', WithLevels(a', b));
    }
  }

  lemma QuarterHalfKeepLevels(a: Apu, b: Apu)
    requires ValidChannels(a) && ValidChannels(b) && b == WithLevels(a, b)
    ensures HalfFrame(QuarterFrame(b)) == WithLevels(HalfFrame(QuarterFrame(a)), b)
  {
    hide EnvelopeTick, LengthTick;
  }

  lemma ResetShown(x: Apu, y: Apu, v: Apu, env: Env)
    requires ValidEnv(env) && ValidChannels(x) && ValidChannels(y)
    requires y == Refresh(x, env).(outputMix := y.outputMix)
    requires v == if x.frame.resetDelay == 1 && x.reg.frame.FiveStep() then Refresh(DelayedReset(y), env)
                  else DelayedReset(y)
    ensures v == Refresh(DelayedReset(x), env).(outputMix := v.outputMix)
    ensures v.outputMix == y.outputMix || v.outputMix == Mix(DelayedReset(x), env)
    ensures !(x.frame.resetDelay == 1 && x.reg.frame.FiveStep()) ==> Mix(DelayedReset(x), env) == Mix(x, env)
  {
    hide ValidPulse, ValidTriangle, ValidNoise, ValidDmc, PulseOutput, TriangleOutput, NoiseOutput,
         QuarterFrame, HalfFrame, Mix;
    assert y == WithLevels(x, y);
    ResetKeepsLevels(x, y);
    RefreshIgnoresLevels(DelayedReset(x), y, env);
    if !(x.frame.resetDelay == 1 && x.reg.frame.FiveStep()) {
      CountingDownIsQuiet(x, env);
    }
  }

  /** A reset that clocks no unit changes no level. */
  lemma CountingDownIsQuiet(x: Apu, env: Env)
    requires ValidEnv(env) && ValidChannels(x)
    requires !(x.frame.resetDelay == 1 && x.reg.frame.FiveStep())
    ensures Mix(DelayedReset(x), env) == Mix(x, env)
  {
    hide ValidPulse, ValidTriangle, ValidNoise, ValidDmc, PulseOutput, TriangleOutput, NoiseOutput,
         QuarterFrame, HalfFrame;
  }

  lemma LevelsIgnored(a: Apu, b: Apu)
    requires ValidChannels(a)
    requires b == WithLevels(a, b)
    ensures ValidChannels(b)
    ensures PulseOutput(a.pulse1, a.reg.pulse1) == PulseOutput(b.pulse1, a.reg.pulse1)
    ensures PulseOutput(a.pulse2, a.reg.pulse2) == PulseOutput(b.pulse2, a.reg.pulse2)
    ensures TriangleOutput(a.triangle) == TriangleOutput(b.triangle)
    ensures NoiseOutput(a.noise, a.reg.noise) == NoiseOutput(b.noise, a.reg.noise)
  {
  }


  // ----------------------------------------------- gluing jumps to the reference

  lemma NothingRun(a: Apu, env: Env)
    requires ValidEnv(env) && Inv(a)
    ensures Run(a, env, 0) == a && Corrected(a, env, 0) == a && Settled(a) == a
  {
  }

  lemma SettledInv(a: Apu)
    requires Core(a)
    ensures Inv(Settled(a)) && (Inv(a) ==> Settled(a) == a)
    ensures CyclesToChannelEvent(Settled(a)) == CyclesToChannelEvent(a)
  {
    hide ValidPulse, ValidTriangle, ValidNoise, ValidDmc, ValidFrame, PulseOutput, TriangleOutput, NoiseOutput;
  }

  lemma SettledMix(a: Apu, env: Env)
    requires ValidEnv(env) && ValidChannels(a)
    ensures Mix(Settled(a), env) == Mix(a, env)
  {
    MixIgnoresCounters(a, Settled(a), env);
  }

  lemma SettledKeeps(a: Apu, env: Env)
    requires ValidEnv(env) && Core(a) && LevelsBounded(a)
    ensures Inv(Settled(a)) && LevelsBounded(Settled(a)) && Mix(Settled(a), env) == Mix(a, env)
  {
    hide Mix, ValidPulse, ValidTriangle, ValidNoise, ValidDmc, ValidFrame, CachesAgree;
    SettledInv(a);
    SettledMix(a, env);
  }

  lemma SignalsKeepPhase(a: Apu, b: Apu, env: Env)
    requires ValidEnv(env) && Core(a) && AfterSignals(a, b, env)
    ensures b.HalfPhase() == a.HalfPhase()
  {
    hide Signals, Refresh;
  }

  lemma NothingToCorrect(a: Apu, env: Env, cycles: nat)
    requires ValidEnv(env) && Inv(a) && a.outputMix == Mix(a, env)
    ensures Corrected(a, env, cycles) == a
  {
    hide Mix;
  }

  /** The interrupt line is not read while cycles are executed. */
  lemma JumpIgnoresIrq(a: Apu, b: Apu, env: Env, cycles: nat)
    requires ValidEnv(env) && Core(a) && Core(b) && AfterSignals(a, b, env) && cycles >= 1
    ensures var s := Settled(a);
            var b' := b.(irq := s.irq);
            && Inv(s) && Core(b') && AfterSignals(s, b', env)
            && Settled(Jump(b', env, cycles)) == Settled(Jump(b, env, cycles))
  {
    hide Core, Jump, AfterSignals;
    var s := Settled(a);
    SettledInv(a);
    AfterSignalsIgnoresIrq(a, b, env, s.irq);
    AfterSignalsCore(s, b.(irq := s.irq), env);
    AfterSignalsJumpIgnoresIrq(b, s.irq, env, cycles);
  }

  lemma AfterSignalsJumpIgnoresIrq(b: Apu, irq: bool, env: Env, cycles: nat)
    requires ValidEnv(env) && Core(b) && Core(b.(irq := irq)) && cycles >= 1
    ensures Jump(b.(irq := irq), env, cycles) == Jump(b, env, cycles).(irq := irq)
  {
    hide ValidPulse, ValidTriangle, ValidNoise, ValidDmc, ValidFrame, CachesAgree, Mix, Refresh, Advance,
         AccumulateMany;
    AdvanceIgnoresIrq(b, irq, env, cycles);
    RefreshIgnoresIrq(Advance(b, env, cycles), irq, env);
    AccumulateIgnoresIrq(Refresh(Advance(b, env, cycles), env), irq, b.outputMix, cycles);
  }

  lemma AfterSignalsIgnoresIrq(a: Apu, b: Apu, env: Env, irq: bool)
    requires ValidEnv(env) && Core(a) && AfterSignals(a, b, env)
    ensures Core(a.(irq := irq)) && AfterSignals(a.(irq := irq), b.(irq := irq), env)
  {
    MixIgnoresCounters(a, a.(irq := irq), env);
    hide ValidPulse, ValidTriangle, ValidNoise, ValidDmc, ValidFrame, CachesAgree, Mix, Signals, Refresh;
    SignalsIgnoreTally(a, irq, a.sampleAccum);
    RefreshIgnoresIrq(Signals(a), irq, env);
  }

  lemma AccumulateIgnoresIrq(a: Apu, irq: bool, before: int, cycles: nat)
    requires cycles >= 1
    ensures AccumulateMany(a.(irq := irq), before, cycles) == AccumulateMany(a, before, cycles).(irq := irq)
  {
  }

  lemma AdvanceIgnoresIrq(a: Apu, irq: bool, env: Env, cycles: nat)
    requires ValidEnv(env) && ValidChannels(a) && ValidFrame(a.frame, a.reg.frame)
    ensures Advance(a.(irq := irq), env, cycles) == Advance(a, env, cycles).(irq := irq)
  {
    hide ValidPulse, ValidTriangle, ValidNoise, ValidDmc, ValidFrame,
         PulseTicks, TriangleTicks, NoiseTicks, DmcTicks, FrameTicks;
  }

  /** a with another interrupt line and another running sum, which no unit looks at. */
  function WithTally(a: Apu, irq: bool, accum: int): Apu { a.(irq := irq, sampleAccum := accum) }

  lemma FrameTicksIgnoreTally(a: Apu, irq: bool, accum: int)
    requires ValidChannels(a)
    ensures QuarterFrame(WithTally(a, irq, accum)) == WithTally(QuarterFrame(a), irq, accum)
    ensures HalfFrame(WithTally(a, irq, accum)) == WithTally(HalfFrame(a), irq, accum)
  {
    hide ValidTriangle, ValidDmc, EnvelopeTick, SweepTick, LengthTick, LinearTick;
  }

  lemma FlushIgnoresTally(a: Apu, irq: bool, accum: int)
    requires ValidChannels(a)
    ensures Flush(WithTally(a, irq, accum)) == WithTally(Flush(a), irq, accum)
  {
    hide ValidPulse, ValidTriangle, ValidNoise, ValidDmc, QuarterFrame, HalfFrame;
    var q := a.(frame := a.frame.(pendingQuarter := false));
    FrameTicksIgnoreTally(q, irq, accum);
    FrameTicksIgnoreTally(a.(frame := a.frame.(pendingHalf := false)), irq, accum);
    FrameTicksIgnoreTally(QuarterFrame(q).(frame := QuarterFrame(q).frame.(pendingHalf := false)), irq, accum);
  }

  lemma ResetIgnoresTally(a: Apu, irq: bool, accum: int)
    requires ValidChannels(a)
    ensures DelayedReset(WithTally(a, irq, accum)) == WithTally(DelayedReset(a), irq, accum)
  {
    hide ValidPulse, ValidTriangle, ValidNoise, ValidDmc, QuarterFrame, HalfFrame;
    var c := a.(frame := a.frame.(resetDelay := 0, countdown := 0, step := 0));
    FrameTicksIgnoreTally(c, irq, accum);
    FrameTicksIgnoreTally(QuarterFrame(c), irq, accum);
  }

  lemma SignalsIgnoreTally(a: Apu, irq: bool, accum: int)
    requires ValidChannels(a)
    ensures Signals(WithTally(a, irq, accum)) == WithTally(Signals(a), irq, accum)
  {
    var r := RepeatFrameIrq(a);
    assert RepeatFrameIrq(WithTally(a, irq, accum)) == WithTally(r, irq, accum);
    hide ValidPulse, ValidTriangle, ValidNoise, ValidDmc, DelayedReset, Flush, RepeatFrameIrq;
    FlushIgnoresTally(r, irq, accum);
    ResetIgnoresTally(Flush(r), irq, accum);
  }

  lemma RefreshIgnoresIrq(a: Apu, irq: bool, env: Env)
    requires ValidEnv(env) && ValidChannels(a)
    ensures ValidChannels(a.(irq := irq)) && Refresh(a.(irq := irq), env) == Refresh(a, env).(irq := irq)
  {
    hide ValidPulse, ValidTriangle, ValidNoise, ValidDmc, PulseOutput, TriangleOutput, NoiseOutput;
  }

  lemma JumpIsRun(a: Apu, b: Apu, env: Env, cycles: nat)
    requires ValidEnv(env) && Core(a) && Core(b) && AfterSignals(a, b, env)
    requires cycles == 1 || (!a.frame.Pending() && 1 <= cycles <= CyclesToChannelEvent(b))
    ensures Inv(Settled(a))
    ensures var j := Jump(b, env, cycles);
            && Settled(j) == Run(Corrected(Settled(a), env, cycles), env, cycles)
            && Core(j) && j.outputMix == Mix(j, env)
  {
    hide ValidPulse, ValidTriangle, ValidNoise, ValidDmc, ValidFrame, CachesAgree,
         CyclesToChannelEvent, Cycle, Jump, Mix, Signals, AfterSignals;
    var s := Settled(a);
    var b' := b.(irq := s.irq);
    SettledInv(a);
    JumpIgnoresIrq(a, b, env, cycles);
    if cycles == 1 {
      JumpOne(s, b', env);
      RunOne(s, env);
    } else {
      NothingPendingNothingDone(a, b, env);
      JumpMany(s, env, cycles);
    }
    JumpKeepsCore(Jump(b, env, cycles), env);
  }

  lemma RunOne(a: Apu, env: Env)
    requires ValidEnv(env) && Inv(a)
    ensures Corrected(a, env, 1) == a && Run(a, env, 1) == Cycle(a, env)
  {
    hide Mix, Cycle;
    assert (a.outputMix - Mix(a, env)) * 0 == 0;
    assert Run(a, env, 0) == a;
  }

  lemma NothingPendingNothingDone(a: Apu, b: Apu, env: Env)
    requires ValidEnv(env) && Core(a) && AfterSignals(a, b, env) && !a.frame.Pending()
    ensures b == a && b.(irq := Settled(a).irq) == Settled(a)
  {
  }

  lemma JumpKeepsCore(j: Apu, env: Env)
    requires ValidEnv(env) && Inv(Settled(j)) && Settled(j).outputMix == Mix(Settled(j), env)
    ensures Core(j) && j.outputMix == Mix(j, env)
  {
    hide ValidPulse, ValidTriangle, ValidNoise, ValidDmc, ValidFrame, Mix, PulseOutput, TriangleOutput, NoiseOutput;
    MixIgnoresCounters(Settled(j), j, env);
  }

  /** The running sum never exceeds its 32 bits nor an emitted sample its 16. */
  lemma JumpLevels(a: Apu, b: Apu, env: Env, cycles: nat)
    requires ValidEnv(env) && Core(a) && Core(b) && AfterSignals(a, b, env) && LevelsBounded(a)
    requires cycles == 1 || (!a.frame.Pending() && cycles >= 1)
    ensures LevelsBounded(Jump(b, env, cycles))
  {
    hide ValidPulse, ValidTriangle, ValidNoise, ValidDmc, ValidFrame, CachesAgree, Mix, Signals, Refresh, Advance;
    var held := b.outputMix * (cycles - 1);
    assert 0 <= held <= MIX_MAX * (cycles - 1) by {
      if cycles > 1 {
        assert 0 <= b.outputMix <= MIX_MAX;
        ProductBounded(b.outputMix, cycles - 1);
      }
    }
    var r := Refresh(Advance(b, env, cycles), env);
    var sum, count := b.sampleAccum + held + r.outputMix, b.sampleCount + cycles;
    assert 0 <= sum <= MIX_MAX * count;
    AverageBounded(sum, count);
  }

  lemma ProductBounded(level: int, cycles: nat)
    requires 0 <= level <= MIX_MAX
    ensures 0 <= level * cycles <= MIX_MAX * cycles
  {
  }

  lemma AverageBounded(sum: int, count: nat)
    requires count > 0 && 0 <= sum <= MIX_MAX * count
    ensures 0 <= sum / count <= MIX_MAX
  {
    QuotientMonotone(0, 1, sum, count);
    QuotientMonotone(sum, count, MIX_MAX, 1);
  }
}
