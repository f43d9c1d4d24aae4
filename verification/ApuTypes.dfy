/** Registers and internal state of the 2A03 audio unit, as plain values.
  *
  * The C structures of apu/apu.h are embedded by value in one object, so each of them is a datatype
  * here and the object itself is the class in ApuDevice.dfy.  A register byte is kept whole; the
  * bit-fields the C unions lay over it are functions of that byte.
  */
module ApuTypes {
  import opened Common

  type i16 = x: int | -0x8000 <= x < 0x8000

  const CPU_CLOCK_RATE := 1789773
  const AUDIO_SAMPLE_RATE := 44100
  const UINT32_MAX := 0xFFFF_FFFF

  const MAX_PERIOD := 0x7FF
  const DMC_BASE_ADDR := 0x4000
  const DMC_ADDR_SPACE := 0x8000
  const MIX_MAX := 0x7FFF

  // ---------------------------------------------------------------- registers

  datatype PulseReg = PulseReg(r0: u8, r1: u8, r2: u8, r3: u8) {
    function Volume(): nat { r0 % 16 }
    predicate ConstantVolume() { r0 / 16 % 2 == 1 }
    predicate Halt() { r0 / 32 % 2 == 1 }
    function Duty(): nat { r0 / 64 }

    function SweepShift(): nat { r1 % 8 }
    predicate SweepNegate() { r1 / 8 % 2 == 1 }
    function SweepPeriod(): nat { r1 / 16 % 8 }
    predicate SweepEnabled() { r1 / 128 == 1 }

    function TimerPeriod(): nat { r3 % 8 * 256 + r2 }
    function LengthIndex(): nat { r3 / 8 }
  }

  datatype TriangleReg = TriangleReg(r0: u8, r2: u8, r3: u8) {
    function LinearLoad(): nat { r0 % 128 }
    predicate Halt() { r0 / 128 == 1 }
    function TimerPeriod(): nat { r3 % 8 * 256 + r2 }
    function LengthIndex(): nat { r3 / 8 }
  }

  datatype NoiseReg = NoiseReg(r0: u8, r2: u8, r3: u8) {
    function Volume(): nat { r0 % 16 }
    predicate ConstantVolume() { r0 / 16 % 2 == 1 }
    predicate Halt() { r0 / 32 % 2 == 1 }
    function PeriodIndex(): nat { r2 % 16 }
    predicate ShortMode() { r2 / 128 == 1 }
    function LengthIndex(): nat { r3 / 8 }
  }

  datatype DmcReg = DmcReg(r0: u8, r1: u8, sampleAddr: u8, sampleLen: u8) {
    function RateIndex(): nat { r0 % 16 }
    predicate Loop() { r0 / 64 % 2 == 1 }
    predicate IrqEnabled() { r0 / 128 == 1 }
    function DirectLoad(): nat { r1 % 128 }

    /** First address of the sample, relative to $8000. */
    function StartAddr(): (addr: nat)
      ensures addr < DMC_ADDR_SPACE
    {
      DMC_BASE_ADDR + sampleAddr * 64
    }

    function Length(): (len: nat)
      ensures 1 <= len <= 4081
    {
      sampleLen * 16 + 1
    }
  }

  datatype FrameReg = FrameReg(v: u8) {
    predicate IrqDisable() { v / 64 % 2 == 1 }
    predicate FiveStep() { v / 128 == 1 }
  }

  datatype Status = Status(pulse1: bool, pulse2: bool, triangle: bool, noise: bool, dmc: bool,
                           unused: bool, frameIrq: bool, dmcIrq: bool)
  {
    function Byte(): u8 {
      (if pulse1 then 1 else 0) + (if pulse2 then 2 else 0) + (if triangle then 4 else 0) +
      (if noise then 8 else 0) + (if dmc then 16 else 0) + (if unused then 32 else 0) +
      (if frameIrq then 64 else 0) + (if dmcIrq then 128 else 0)
    }
  }

  function StatusOfByte(v: u8): Status {
    Status(v % 2 == 1, v / 2 % 2 == 1, v / 4 % 2 == 1, v / 8 % 2 == 1, v / 16 % 2 == 1,
           v / 32 % 2 == 1, v / 64 % 2 == 1, v / 128 == 1)
  }

  datatype Regs = Regs(pulse1: PulseReg, pulse2: PulseReg, triangle: TriangleReg, noise: NoiseReg,
                       dmc: DmcReg, status: Status, frame: FrameReg)

  // ----------------------------------------------------------- internal state

  datatype Timer = Timer(period: nat, countdown: nat)

  datatype Envelope = Envelope(startFlag: bool, divider: nat, decay: nat)

  datatype Sweep = Sweep(reload: bool, mute: bool, divider: nat, targetPeriod: nat)

  datatype Pulse = Pulse(timer: Timer, envelope: Envelope, sweep: Sweep,
                         dutyIdx: nat, lengthCounter: nat, output: nat)
  {
    /** The sequencer's position cannot be heard. */
    predicate Silent() { sweep.mute || lengthCounter == 0 }
  }

  datatype Triangle = Triangle(timer: Timer, sequenceIdx: nat, lengthCounter: nat,
                               linearCounter: nat, output: nat, linearReload: bool)
  {
    predicate Stopped() { lengthCounter == 0 || linearCounter == 0 }
  }

  datatype Noise = Noise(timer: Timer, envelope: Envelope, shiftReg: nat,
                         lengthCounter: nat, output: nat)

  datatype Dmc = Dmc(timer: Timer, currAddr: nat, bytesRemaining: nat, sampleBuf: nat,
                     shiftReg: nat, bitsRemaining: nat, outputLevel: nat,
                     silence: bool, bufferEmpty: bool)

  datatype FrameCounter = FrameCounter(countdown: nat, step: nat, resetDelay: nat,
                                       pendingQuarter: bool, pendingHalf: bool, pendingIrq: bool)
  {
    predicate Pending() { pendingIrq || pendingQuarter || pendingHalf || resetDelay != 0 }
  }

  /** Everything one APU object holds, plus the samples it has handed to the audio backend. */
  datatype Apu = Apu(reg: Regs, pulse1: Pulse, pulse2: Pulse, triangle: Triangle, noise: Noise,
                     dmc: Dmc, frame: FrameCounter, cycles2x: nat, irq: bool,
                     sampleAccum: int, sampleCount: nat, sampleCycleAccum: nat,
                     tndIndexBase: nat, outputMix: int, samples: seq<int>)
  {
    /** 1 when the next CPU cycle completes an APU cycle. */
    function HalfPhase(): (h: nat)
      ensures h <= 1
    {
      cycles2x % 2
    }

    predicate IrqFlags() { reg.status.frameIrq || reg.status.dmcIrq }

    /** Number of APU ticks the next k CPU cycles contain. */
    function TicksIn(k: nat): nat { (k + HalfPhase()) / 2 }
  }

  /** What the APU reads but does not own: the mixer tables and the PRG window. */
  datatype Env = Env(pulseTable: seq<int>, tndTable: seq<int>, prg: seq<u8>)

  ghost predicate ValidEnv(env: Env) {
    && |env.pulseTable| == 31
    && |env.tndTable| == 203
    && |env.prg| == DMC_ADDR_SPACE
    && (forall i :: 0 <= i < 31 ==> 0 <= env.pulseTable[i])
    && (forall j :: 0 <= j < 203 ==> 0 <= env.tndTable[j])
    && (forall i, j :: 0 <= i < 31 && 0 <= j < 203 ==> env.pulseTable[i] + env.tndTable[j] <= MIX_MAX)
  }

  // ------------------------------------------------------------- fixed tables

  const FRAME_STEPS: seq<nat> := [3728, 7456, 11185, 14914, 18640]

  const NOISE_PERIODS: seq<nat> :=
    [2, 4, 8, 16, 32, 48, 64, 80, 101, 127, 190, 254, 381, 508, 1017, 2034]

  const DMC_RATES: seq<nat> :=
    [214, 190, 170, 160, 143, 127, 113, 107, 95, 80, 71, 64, 53, 42, 36, 27]

  const LENGTHS: seq<nat> :=
    [10, 254, 20, 2, 40, 4, 80, 6, 160, 8, 60, 10, 14, 12, 26, 14,
     12, 16, 24, 18, 48, 20, 96, 22, 192, 24, 72, 26, 16, 28, 32, 30]

  const DUTY: seq<seq<nat>> :=
    [[0, 0, 0, 0, 0, 0, 0, 1],
     [0, 0, 0, 0, 0, 0, 1, 1],
     [0, 0, 0, 0, 1, 1, 1, 1],
     [1, 1, 1, 1, 1, 1, 0, 0]]
}
