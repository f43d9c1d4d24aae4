/** The interrupt flags of the audio unit rise by themselves and fall only by a register access.
  */
module ApuFlags {
  import opened Common
  import opened ApuTypes
  import opened ApuChannels
  import opened ApuReference

  predicate FlagsKept(a: Apu, b: Apu) {
    && (a.reg.status.frameIrq ==> b.reg.status.frameIrq)
    && (a.reg.status.dmcIrq ==> b.reg.status.dmcIrq)
  }

  lemma DmcTickKeepsFlag(u: DmcUnit, reg: DmcReg, prg: seq<u8>)
    requires |prg| == DMC_ADDR_SPACE && ValidDmc(u.dmc) && u.irq
    ensures DmcTick(u, reg, prg).irq
  {
  }

  lemma FrameTickKeepsFlag(u: FrameUnit, reg: FrameReg)
    requires ValidFrame(u.frame, reg) && u.irq
    ensures FrameTick(u, reg).irq
  {
    hide FrameStep;
  }

  lemma SignalsKeepFlags(a: Apu)
    requires ValidChannels(a)
    ensures FlagsKept(a, Signals(a))
  {
    hide QuarterFrame, HalfFrame, ValidPulse, ValidTriangle, ValidNoise, ValidDmc;
  }

  lemma TickKeepsFlags(a: Apu, env: Env)
    requires ValidEnv(env) && ValidChannels(a) && ValidFrame(a.frame, a.reg.frame)
    ensures FlagsKept(a, Tick(a, env))
  {
    hide DmcTick, FrameTick, PulseTick, NoiseTick, TriangleTick, ValidPulse, ValidTriangle, ValidNoise, ValidDmc,
         ValidFrame;
    if a.reg.status.dmcIrq {
      DmcTickKeepsFlag(DmcUnit(a.dmc, true), a.reg.dmc, env.prg);
    }
    if a.reg.status.frameIrq {
      FrameTickKeepsFlag(FrameUnit(a.frame, true), a.reg.frame);
    }
  }

  lemma CycleKeepsFlags(a: Apu, env: Env)
    requires ValidEnv(env) && Inv(a)
    ensures FlagsKept(a, Cycle(a, env))
  {
    hide Signals, Tick, Refresh, Accumulate, Mix, ValidPulse, ValidTriangle, ValidNoise, ValidDmc, ValidFrame,
         CachesAgree;
    SignalsKeepFlags(a);
    TickKeepsFlags(Signals(a), env);
  }
}
