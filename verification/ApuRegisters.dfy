/** What a register write does to the audio unit (apu.c:192-407), before the caches are refreshed.
  */
module ApuRegisters {
  import opened Common
  import opened ApuTypes
  import opened ApuChannels
  import opened ApuReference

  predicate IsRegister(offs: nat) { offs <= 0x13 || offs == 0x15 || offs == 0x18 }

  function Length(index: nat): (ticks: nat)
    requires index < 32
    ensures 2 <= ticks <= 254
  {
    LENGTHS[index]
  }

  function NoisePeriod(index: nat): (ticks: nat)
    requires index < 16
    ensures 2 <= ticks <= 2034
  {
    NOISE_PERIODS[index]
  }

  function DmcRate(index: nat): (ticks: nat)
    requires index < 16
    ensures 27 <= ticks <= 214
  {
    DMC_RATES[index]
  }

  function PulseOf(a: Apu, second: bool): Pulse { if second then a.pulse2 else a.pulse1 }

  function PulseRegOf(a: Apu, second: bool): PulseReg { if second then a.reg.pulse2 else a.reg.pulse1 }

  function SetPulse(a: Apu, second: bool, p: Pulse): Apu {
    if second then a.(pulse2 := p) else a.(pulse1 := p)
  }

  function SetPulseReg(a: Apu, second: bool, r: PulseReg): Apu {
    if second then a.(reg := a.reg.(pulse2 := r)) else a.(reg := a.reg.(pulse1 := r))
  }

  function Retimed(p: Pulse, reg: PulseReg): Pulse {
    p.(timer := p.timer.(period := reg.TimerPeriod()))
  }

  /** A length reload loses to a length clock waiting in the same cycle if that clock counts. */
  function Reloaded(before: nat, after: nat, length: nat): nat {
    if before == after then length else after
  }

  function WritePulse(a: Apu, second: bool, r: nat, val: u8): (a': Apu)
    requires ValidChannels(a) && r < 4
    ensures ValidChannels(a')
  {
    hide ValidTriangle, ValidNoise, ValidDmc, Flush, SweepTarget;
    var p, reg := PulseOf(a, second), PulseRegOf(a, second);
    match r
    case 0 =>
      SetPulseReg(Flush(a), second, reg.(r0 := val))
    case 1 =>
      var reg' := reg.(r1 := val);
      SetPulse(SetPulseReg(a, second, reg'), second,
               SweepTarget(p.(sweep := p.sweep.(reload := true)), reg', !second))
    case 2 =>
      var reg' := reg.(r2 := val);
      SetPulse(SetPulseReg(a, second, reg'), second, SweepTarget(Retimed(p, reg'), reg', !second))
    case _ =>
      var reg' := reg.(r3 := val);
      var b := SetPulse(SetPulseReg(a, second, reg'), second, Retimed(p, reg').(dutyIdx := 0));
      var enabled := if second then a.reg.status.pulse2 else a.reg.status.pulse1;
      var c := if enabled then Flush(b) else b;
      var q := PulseOf(c, second);
      var length := if enabled then Reloaded(p.lengthCounter, q.lengthCounter, Length(reg'.LengthIndex()))
                    else q.lengthCounter;
      SetPulse(c, second,
               SweepTarget(q.(lengthCounter := length, envelope := q.envelope.(startFlag := true)), reg', !second))
  }

  function WriteTriangle(a: Apu, r: nat, val: u8): (a': Apu)
    requires ValidChannels(a) && r < 4
    ensures ValidChannels(a')
  {
    hide ValidPulse, ValidNoise, ValidDmc, Flush;
    var reg := a.reg.triangle;
    match r
    case 0 =>
      var b := Flush(a);
      b.(reg := b.reg.(triangle := reg.(r0 := val)))
    case 1 => a
    case 2 =>
      var reg' := reg.(r2 := val);
      a.(reg := a.reg.(triangle := reg'),
         triangle := a.triangle.(timer := a.triangle.timer.(period := reg'.TimerPeriod())))
    case _ =>
      var reg' := reg.(r3 := val);
      var b := a.(reg := a.reg.(triangle := reg'),
                  triangle := a.triangle.(timer := a.triangle.timer.(period := reg'.TimerPeriod())));
      var c := if a.reg.status.triangle then Flush(b) else b;
      c.(triangle := c.triangle.(
           linearReload := true,
           lengthCounter := if a.reg.status.triangle
                            then Reloaded(a.triangle.lengthCounter, c.triangle.lengthCounter,
                                          Length(reg'.LengthIndex()))
                            else c.triangle.lengthCounter))
  }

  function WriteNoise(a: Apu, r: nat, val: u8): (a': Apu)
    requires ValidChannels(a) && r < 4
    ensures ValidChannels(a')
  {
    hide ValidPulse, ValidTriangle, ValidDmc, Flush;
    var reg := a.reg.noise;
    match r
    case 0 =>
      var b := Flush(a);
      b.(reg := b.reg.(noise := reg.(r0 := val)))
    case 1 => a
    case 2 =>
      var reg' := reg.(r2 := val);
      a.(reg := a.reg.(noise := reg'),
         noise := a.noise.(timer := a.noise.timer.(period := NoisePeriod(reg'.PeriodIndex()))))
    case _ =>
      var reg' := reg.(r3 := val);
      var b := a.(reg := a.reg.(noise := reg'));
      var c := if a.reg.status.noise then Flush(b) else b;
      c.(noise := c.noise.(
           envelope := c.noise.envelope.(startFlag := true),
           lengthCounter := if a.reg.status.noise
                            then Reloaded(a.noise.lengthCounter, c.noise.lengthCounter, Length(reg'.LengthIndex()))
                            else c.noise.lengthCounter))
  }

  function WriteDmc(a: Apu, r: nat, val: u8): (a': Apu)
    requires ValidChannels(a) && r < 4
    ensures ValidChannels(a')
  {
    hide ValidPulse, ValidTriangle, ValidNoise;
    var reg := a.reg.dmc;
    match r
    case 0 =>
      var reg' := reg.(r0 := val);
      var status := if reg'.IrqEnabled() then a.reg.status else a.reg.status.(dmcIrq := false);
      a.(reg := a.reg.(dmc := reg', status := status),
         irq := if reg'.IrqEnabled() then a.irq else status.frameIrq,
         dmc := a.dmc.(timer := a.dmc.timer.(period := DmcRate(reg'.RateIndex()))))
    case 1 =>
      var reg' := reg.(r1 := val);
      a.(reg := a.reg.(dmc := reg'), dmc := a.dmc.(outputLevel := reg'.DirectLoad()))
    case 2 => a.(reg := a.reg.(dmc := reg.(sampleAddr := val)))
    case _ => a.(reg := a.reg.(dmc := reg.(sampleLen := val)))
  }

  /** $4015: switching a channel off clears its length; switching the DMC on restarts a finished sample. */
  function WriteStatus(a: Apu, val: u8): (a': Apu)
    requires ValidChannels(a)
    ensures ValidChannels(a')
  {
    hide StatusOfByte;
    var s := StatusOfByte(val).(frameIrq := a.reg.status.frameIrq, dmcIrq := false);
    var d := a.dmc;
    a.(reg := a.reg.(status := s), irq := s.frameIrq,
       pulse1 := if s.pulse1 then a.pulse1 else a.pulse1.(lengthCounter := 0),
       pulse2 := if s.pulse2 then a.pulse2 else a.pulse2.(lengthCounter := 0),
       triangle := if s.triangle then a.triangle else a.triangle.(lengthCounter := 0),
       noise := if s.noise then a.noise else a.noise.(lengthCounter := 0),
       dmc := if !s.dmc then d.(bytesRemaining := 0)
              else if d.bytesRemaining != 0 then d
              else d.(currAddr := a.reg.dmc.StartAddr(), bytesRemaining := a.reg.dmc.Length()))
  }

  /** $4017: the sequencer restarts after the write, 3 or 4 CPU cycles later. */
  function WriteFrame(a: Apu, val: u8): Apu {
    var reg := FrameReg(val);
    var status := if reg.IrqDisable() then a.reg.status.(frameIrq := false) else a.reg.status;
    a.(reg := a.reg.(frame := reg, status := status),
       irq := if reg.IrqDisable() then status.dmcIrq else a.irq,
       frame := a.frame.(resetDelay := if a.HalfPhase() == 1 then 3 else 4))
  }

  function Write(a: Apu, offs: nat, val: u8): (a': Apu)
    requires ValidChannels(a) && IsRegister(offs)
    ensures ValidChannels(a')
  {
    hide WritePulse, WriteTriangle, WriteNoise, WriteDmc, WriteStatus,
         ValidPulse, ValidTriangle, ValidNoise, ValidDmc;
    if offs < 4 then WritePulse(a, false, offs, val)
    else if offs < 8 then WritePulse(a, true, offs - 4, val)
    else if offs < 12 then WriteTriangle(a, offs - 8, val)
    else if offs < 16 then WriteNoise(a, offs - 12, val)
    else if offs < 20 then WriteDmc(a, offs - 16, val)
    else if offs == 0x15 then WriteStatus(a, val)
    else WriteFrame(a, val)
  }

  /** A write takes no time: the clocks, the running average and the samples stay as they are. */
  ghost predicate SameClocks(a: Apu, b: Apu) {
    && b.cycles2x == a.cycles2x && b.samples == a.samples
    && b.sampleAccum == a.sampleAccum && b.sampleCount == a.sampleCount
    && b.sampleCycleAccum == a.sampleCycleAccum
    && b.frame.countdown == a.frame.countdown && b.frame.step == a.frame.step
    && b.pulse1.timer.countdown == a.pulse1.timer.countdown
    && b.pulse2.timer.countdown == a.pulse2.timer.countdown
    && b.triangle.timer.countdown == a.triangle.timer.countdown
    && b.noise.timer.countdown == a.noise.timer.countdown
    && b.dmc.timer.countdown == a.dmc.timer.countdown
  }

  lemma FlushKeepsClocks(a: Apu)
    requires ValidChannels(a)
    ensures SameClocks(a, Flush(a))
  {
    hide ValidPulse, ValidTriangle, ValidNoise, ValidDmc, EnvelopeTick, LengthTick;
  }

  lemma WritePulseKeeps(a: Apu, second: bool, r: nat, val: u8)
    requires ValidChannels(a) && r < 4
    ensures var b := WritePulse(a, second, r, val);
            && SameClocks(a, b) && b.irq == a.irq && b.reg.status == a.reg.status
            && b.reg.frame == a.reg.frame && b.frame.resetDelay == a.frame.resetDelay
  {
    hide ValidTriangle, ValidNoise, ValidDmc, Flush;
    FlushKeepsClocks(a);
    if r == 3 {
      var reg := PulseRegOf(a, second).(r3 := val);
      FlushKeepsClocks(SetPulse(SetPulseReg(a, second, reg), second, Retimed(PulseOf(a, second), reg).(dutyIdx := 0)));
    }
  }

  lemma WriteTriangleNoiseKeep(a: Apu, r: nat, val: u8)
    requires ValidChannels(a) && r < 4
    ensures forall b | b == WriteTriangle(a, r, val) || b == WriteNoise(a, r, val) ::
              && SameClocks(a, b) && b.irq == a.irq && b.reg.status == a.reg.status
              && b.reg.frame == a.reg.frame && b.frame.resetDelay == a.frame.resetDelay
  {
    hide ValidPulse, ValidNoise, ValidDmc, Flush;
    FlushKeepsClocks(a);
    if r == 3 {
      var reg := a.reg.triangle.(r3 := val);
      FlushKeepsClocks(a.(reg := a.reg.(triangle := reg),
                          triangle := a.triangle.(timer := a.triangle.timer.(period := reg.TimerPeriod()))));
      FlushKeepsClocks(a.(reg := a.reg.(noise := a.reg.noise.(r3 := val))));
    }
  }

  lemma WriteKeeps(a: Apu, offs: nat, val: u8)
    requires Inv(a) && IsRegister(offs)
    ensures var b := Write(a, offs, val);
            SameClocks(a, b) && ValidFrame(b.frame, b.reg.frame) && b.irq == b.IrqFlags()
  {
    hide WritePulse, WriteTriangle, WriteNoise, ValidPulse, ValidTriangle, ValidNoise, ValidDmc, CachesAgree,
         NoisePeriod, DmcRate;
    if offs < 4 {
      WritePulseKeeps(a, false, offs, val);
    } else if offs < 8 {
      WritePulseKeeps(a, true, offs - 4, val);
    } else if offs < 12 {
      WriteTriangleNoiseKeep(a, offs - 8, val);
    } else if offs < 16 {
      WriteTriangleNoiseKeep(a, offs - 12, val);
    }
  }

  /** Every register write keeps the invariant, makes the cached mix right, and takes no time. */
  lemma WriteKeepsInv(a: Apu, env: Env, offs: nat, val: u8)
    requires ValidEnv(env) && Inv(a) && IsRegister(offs)
    ensures var b := Refresh(Write(a, offs, val), env);
            && Inv(b) && b.outputMix == Mix(b, env) && SameClocks(a, b)
  {
    hide Write, Refresh, ValidPulse, ValidTriangle, ValidNoise, ValidDmc, ValidFrame,
         Mix, PulseOutput, TriangleOutput, NoiseOutput;
    WriteKeeps(a, offs, val);
    RefreshKeepsTimers(Write(a, offs, val), env);
  }

  lemma RefreshKeepsTimers(a: Apu, env: Env)
    requires ValidEnv(env) && ValidChannels(a)
    ensures SameClocks(a, Refresh(a, env))
  {
    hide ValidPulse, ValidTriangle, ValidNoise, ValidDmc, PulseOutput, TriangleOutput, NoiseOutput, Mix;
  }
}
