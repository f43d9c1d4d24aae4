# LuCNes: lazy devices, proved against eager ones

LuCNes is an NES emulator whose devices are not stepped cycle by cycle. The audio unit jumps from event to
event, the picture unit catches up line by line, the processor lets both run late until somebody could notice,
and the terminal backend sends only the cells that changed. Each shortcut has a plain meaning. This Dafny
project writes the plain machines down, models the shortcuts as the C code takes them (classes updated in
place, the same loops, the same branches), and proves that nobody can tell the difference, or exactly when
somebody can.

Check everything with `dafny verify dfyconfig.toml`.

## The four refinements

**Audio (`Apu*.dfy`).** `ApuReference.Run` executes CPU cycles one at a time and recomputes every level in every
cycle. `ApuDevice.Device.TicksExecute` is the source's event-skipping loop with its cached levels and its
product in place of repeated addition; it leaves the state and the samples `Run` leaves. The one exception is
the mix cached at power-on, which is wrong until the first cycle; the contract states its effect for all inputs
and `ApuStale.StaleMixShows` says exactly when it can be heard.

**Picture (`Ppu*.dfy`).** `PpuReference.Dots` executes one dot at a time. `PpuDevice.Device.TicksExecute` adds three
times the cycles to the dot counter and lets the nested line loops catch up; it leaves the picture, the flags,
the scroll registers, the position and the finished frames `Dots` leaves. `PpuLine` and `PpuSprites` say what the
pixels are: a direct lookup in the nametable row, under or over the first opaque sprite in OAM order.
`PpuPicture.FrameIsPicture` puts the lines together: where every pixel of the frame handed to the backend comes from.

**Processor (`Cpu*.dfy`).** `CpuProgram.Iterated` runs a program on a machine in which every bus cycle reaches both
devices at once. A program may choose every step by everything it has read so far. `CpuDevice.Cpu.MainLoop` is
the lazy loop with its pending cycles and its deadline; for every program, from power-on (`CpuDevice.PowerUp`) or any
later state, it reads the same bytes and, every owed cycle counted, does what the eager machine does, an access
outside the model ending both. Its contract also says of every pass which interrupts it takes
(`CpuInterrupts.PolledRight`): an interrupt request exactly when the eager line is up, unmasked and not late, an NMI,
if it is not late, by the next poll at the latest. Lateness is a property of the eager run, which carries along where
both devices would last have caught up and the cycles owed since (`CpuProgram.Debt`); what was on a line then is taken
(`CpuInterrupts.OldRequestIsTaken`, `CpuInterrupts.OldNmiIsTaken`), so whatever a poll misses is at most 29780
cycles old. `CpuFollows` says in what the two machines may differ meanwhile: an NMI already latched when the program
takes it back stays, and from power-on the first audio sample may differ.

**Terminal (`Vt*.dfy`).** `VtTerminal.Interpret` is a small terminal (CUP and SGR, sections 8.3.14 and 8.3.117 of
ECMA-48; UTF-8, section 3 of RFC 3629). `VtCanvas.Canvas.SwapBuffers` writes bytes into its growing list; if the
terminal showed the previous frame before, it shows the current one afterwards, so it does for every sequence of
frames.

`VtBackend.dfy` is the caller of the canvas: it gathers the picture into cells of eight dots and gives each its most
frequent colour, and every cell of the terminal shows the pixels it covers.

`Mmc1.dfy` adds a cartridge: the serial-load protocol over every history of writes, the windows it selects, and
the function of the writes (`CpuReference.Cart`) that the processor's machine is run with.

## What the plain machines do

A refinement is worth what its plain side is worth. These modules say what the plain machines do in the terms of a
program or a listener, by literal addresses, ticks, bits and bytes, without the functions the machines are made of.

- `ApuClocks`: in which ticks the slow units are clocked, when the frame interrupt comes, and the lengths, envelopes and
  linear counter after any number of cycles. `ApuSweep`: the sweeps. `ApuWave`: the steps of the pulses and the
  triangle, the bits of the noise, the levels that are heard, and every sample as an average. `ApuSample`: the bits of a
  sample in the cartridge played one after the other.
- `PpuScreen`: every dot of a finished frame from sprite memory, patterns, palette and scroll position, and when the
  scroll register moves. `PpuHit`: the sprite 0 flag and the overflow flag.
- `CpuMap`: what a load or a store at each address does to the two devices.
- `Mmc1Banks`: which byte of the memories a program reads after it has loaded the registers bit by bit.
- `VtTerminal` and `VtBackend`: the bytes of the sequences, and the cell of the terminal a dot or a character lands in.

## Where the code is not what it is meant to be

Each of these is a theorem with the exact condition, not an assumption.

- The audio unit's cached mix is 0 at power-on while the triangle already sits at its middle level. A call differs
  from the cycle-by-cycle unit exactly when the cached mix is wrong, the first jump is longer than one cycle and no
  sample has rounded the difference away (`ApuStale.StaleMixShows`); a caller can exclude the last before the call
  unless the correction is smaller than the length of that sample (`ApuStale.CorrectionShows`). From power-on a first
  call differs exactly if it is longer than one cycle (`ApuStale.PowerOnIsStale`).
- Reading $4015 takes back the sequencer's interrupt flag but not its repetition in the next two cycles, and a read
  does not recompute the deadline. If the read comes before the flag is repeated, the line is up again at once while
  the prediction says nearly 30000 cycles, so the interrupt is not polled before the next catching up
  (`CpuPolls.RepeatIsMissed`, reached from power-on by `CpuPolls.PowerOnRepeats` and `CpuPolls.RepeatAhead`).
  `CpuPolls.IrqPoll` gives the exact condition for every state: a poll misses an interrupt exactly when the flag is
  repeated, or in the last cycle before a prediction that is exact and not undone by a reset of the sequencer.
- The vblank prediction ignores the dot an odd frame skips. With a skip in between it is one cycle late exactly
  when the distance leaves remainder 1 by 3 (`PpuTheorems.PredictionExact`), and this is the only way an NMI poll can
  be wrong (`CpuPolls.NmiPoll`).
- A change of the two rendering enable bits is meant to arrive three dots late. While it is on its way the code
  shows the opposite of the new setting; it takes a change in dot 0 for none and forgets one at the end of the line.
  So the three dots after the write show the old setting exactly when rendering as a whole was switched, not in
  dot 0 and with three dots of the line to come, or when it was not switched, in dot 0 (`PpuToggle.ToggleDelay`;
  `PpuToggle.SeenExact` dot by dot, `PpuToggle.NoDelayInDotZero` and `PpuToggle.DelayLostAtLineEnd` for two inputs).
- A 16-bit read across two 8 KB program banks is charged four cycles instead of two (`CpuReference.Load16Cost`,
  used by `CpuDevice.Cpu.MemRead16`), so an IORW instruction there exceeds the length its table entry asserts.
- Reading $2002 also returns the two invented status bits. Bit 1, the pending NMI, tells how the cycles were batched:
  it is up exactly if it was before or one of the calls ends in dot 2 or 3 of a vertical blank that raises an NMI
  (`PpuPending.PendingExact`), so two calls of one cycle and one call of two leave different bytes
  (`PpuPending.BatchingShows`). The program's view of a status byte leaves it out (`CpuDevice.Cpu.MemRead8`).

## Model

Members of the two reference machines that only compute are not listed; the rows name the members whose
contracts state something about them.

| member | source | states |
|---|---|---|
| ApuChannels.TimerSkipWraps | apu/apu.c:450-459 | Skipping whole periods of a timer leaves the countdown and the wrap count of ticking it one by one (TimerOver, TimerWraps, stepped by TimerOverStep). |
| ApuChannels.TimerOverStep | apu/apu.c:450-459 | The closed form of the skipped timer obeys the one-tick law: one more tick lowers the countdown, or wraps it and counts one more wrap. |
| ApuChannels.PulseTicksAfterWrap | apu/apu.c:461-485 | Any number of single pulse ticks past the countdown equals the closed form, with the duty position stepped back once a wrap, modulo 8. |
| ApuChannels.PulseTicksQuiet | apu/apu.c:831-853 | Up to its countdown, or for ever while silent, a pulse channel keeps its output level. |
| ApuChannels.PulseJump | apu/apu.c:461-485 | One in-place jump equals that many single ticks with the level recomputed, for silent channels over any length and for sounding ones up to the wrap. |
| ApuChannels.TriangleTicksStopped | apu/apu.c:487-504 | A stopped triangle only turns its timer: single ticks equal the closed form and the sequence position stays. |
| ApuChannels.TriangleTicksQuiet | apu/apu.c:831-853 | Up to its countdown, or while stopped, the triangle keeps its output level. |
| ApuChannels.TriangleJump | apu/apu.c:487-504 | One jump equals that many single triangle ticks with the level recomputed. |
| ApuChannels.NoiseTicksQuiet | apu/apu.c:831-853 | Strictly before the clock the noise channel keeps its level. |
| ApuChannels.NoiseJump | apu/apu.c:506-532 | One jump up to the clock equals that many single noise ticks, and reports when the cached index must follow. |
| ApuChannels.DmcTicksQuiet | apu/apu.c:590-618 | Strictly before the output clock the DMC keeps its level, though it may fetch a byte. |
| ApuChannels.DmcTicksAtClock | apu/apu.c:590-618 | Single DMC ticks up to the output clock: at most one early fetch, then the clock, then a fetch; the order the source uses. |
| ApuChannels.DmcMemoryReader | apu/apu.c:559-585 | The in-place fetch equals the reference fetch: buffer, address wrap, loop restart and the IRQ at the end of a sample. |
| ApuChannels.DmcOutputClock | apu/apu.c:534-557 | The output unit in place equals the reference clock, level clamp and new output cycle included. |
| ApuChannels.DmcJump | apu/apu.c:590-618 | One jump of the DMC equals that many single ticks, with the fetch before and after the clock in the order of the source. |
| ApuChannels.FrameJump | apu/apu.c:710-763 | One jump of the sequencer, not past its next step, equals that many single ticks: signals, step wrap and the IRQ flag of step 3. |
| ApuBatch.CyclesToChannelEvent | apu/apu.c:831-853 | The jump length is at least one cycle, so the loop terminates. |
| ApuBatch.NoEventOvershot | apu/apu.c:831-868 | In every state of the invariant and from either half-phase, a jump of the computed length passes no channel event; every overflow assertion of the source holds. |
| ApuBatch.AdvanceStep | apu/apu.c:867-880 | The units advanced by n cycles and ticked once more are the units advanced by n + 1, whichever half-phase. |
| ApuBatch.AdvanceQuiet | apu/apu.c:831-853 | Strictly before the next event every level, the mix and the frame signals stay as they are. |
| ApuBatch.QuietRun | apu/apu.c:865-906 | That many reference cycles before an event equal one closed form: units advanced, one product added to the sum. |
| ApuBatch.JumpOne | apu/apu.c:862-906 | A pass of length one is one reference cycle, whatever frame signals came first. |
| ApuBatch.JumpMany | apu/apu.c:862-906 | A longer pass is that many reference cycles from the state whose sum already carries the correction for a stale mix. |
| ApuReference.Cycle | apu/apu.c:855-910 | One reference cycle keeps the whole invariant and ends with a right mix, from any state, stale or not. |
| ApuReference.Mix | apu/apu.c:134-140 | The recomputed mix uses indices inside both tables and stays within 15 bits. |
| ApuReference.RunAdds | apu/apu.c:855-910 | Runs compose: m cycles and then n are m + n. |
| ApuRegisters.WriteKeepsInv | apu/apu.c:192-407 | Every register write, with the refresh at its end, keeps the invariant, leaves every cached level and the mix right, and moves no clock. |
| ApuDevice.Device.WritePulseReg | apu/apu.c:206-274 | The in-place pulse register write is the register function, flush order and length reload included. |
| ApuDevice.Device.WriteTriangleReg | apu/apu.c:276-304 | The in-place triangle register write is the register function. |
| ApuDevice.Device.WriteNoiseReg | apu/apu.c:306-333 | The in-place noise register write is the register function. |
| ApuDevice.Device.WriteDmcReg | apu/apu.c:335-356 | The in-place DMC register write is the register function, IRQ acknowledge included. |
| ApuDevice.Device.WriteStatusReg | apu/apu.c:358-386 | The in-place $4015 write is the register function: lengths cleared, sample restarted only if finished, DMC IRQ taken back. |
| ApuDevice.Device.WriteFrameReg | apu/apu.c:387-401 | The in-place $4017 write is the register function: reset 3 or 4 cycles later by half-phase. |
| ApuDevice.Device.RegWrite | apu/apu.c:192-407 | Any register write leaves the refreshed register function, keeps the invariant and the sample range, and takes no time. |
| ApuDevice.Device.RegReadStatus | apu/apu.c:414-442 | Reading $4015 reports which channels sound and takes back the frame IRQ and nothing else. |
| ApuSilence.RunShortens | apu/apu.c:657-692 | No run of cycles lengthens a length counter or changes a register; only a register write does. |
| ApuSilence.SwitchedOffIsSilent | apu/apu.c:358-386 | A pulse or noise channel switched off by $4015 puts out nothing in any later cycle, however many pass, and the triangle keeps a length of zero. |
| ApuSilence.PulseTimerWritten | apu/apu.c:206-274 | Two timer writes set the 11-bit period, restart duty and envelope and leave the countdown; exactly when a half-frame clock is waiting whose sweep applies, that write carries it out and the period becomes the sweep target. |
| ApuDevice.Device.Init | apu/apu.c:952-988 | Construction leaves the power-on state. |
| ApuDevice.Device.UpdateOutput | apu/apu.c:168-178 | Recomputes every cached level, the index and the mix from the channel states, whatever they were. |
| ApuDevice.Device.FlushFrameSignals | apu/apu.c:694-706 | In place equals the reference flush: quarter-frame before half-frame, each at most once. |
| ApuDevice.Device.ProcessPendingFrameSignals | apu/apu.c:796-829 | Leaves the reference signals with right caches, and reports exactly whether anything was pending. |
| ApuDevice.Device.HalfRateTicks | apu/apu.c:871-877 | The half-rate units and their cached levels after that many APU ticks, although unchanged levels are not recomputed. |
| ApuDevice.Device.AccumulateOutput | apu/apu.c:882-905 | The old level counts for all cycles of the jump but the last; at most one sample is emitted, with the remainder kept. |
| ApuDevice.Device.Step | apu/apu.c:862-906 | One pass of the loop, given a length within the events, is the jump function. |
| ApuDevice.Device.TicksExecute | apu/apu.c:855-910 | For every state and every number of cycles the call leaves the reference run from the corrected start: state, samples, caches and IRQ line. It terminates. |
| ApuDevice.JumpIsRun | apu/apu.c:862-906 | What one pass leaves, its IRQ line brought up to date, is what the reference leaves after as many cycles. |
| ApuDevice.JumpLevels | apu/apu.c:883-905 | A pass keeps the running sum within 15 bits a cycle and every emitted sample within int16. |
| ApuClocks.ClockTimes | apu/apu.c:710-763 | From any tick of the sequencer on, after every number of cycles: quarter clocks come with ticks 3729, 7457, 11186 and 14915 of the round, half clocks with 7457 and 14915; with five steps the last of each is 18641; they come with no other tick. |
| ApuClocks.InterruptTimes | apu/apu.c:739-763 | The frame flag goes up with tick 14915 of four steps if the register allows it, in no other way, and stays. |
| ApuClocks.NoteLengths | apu/apu.c:657-661 | On all four channels a note of length L is over with the L-th half clock, and a halted one keeps its length, after any number of cycles. |
| ApuClocks.EnvelopesFade | apu/apu.c:620-641 | From a restart an envelope is 15 with the first quarter clock, one lower every V + 1 of them, and stays at 0 or begins again by its loop flag. |
| ApuClocks.LinearRunsDown | apu/apu.c:663-673 | The linear counter is loaded with the first quarter clock and runs down to 0 from there, or is loaded again with every one while its control bit is set. |
| ApuClocks.FlushLengths | apu/apu.c:683-706 | A flush lowers every length that is not halted if a half clock waits, and no clock waits afterwards. |
| ApuSweep.CycleSweeps | apu/apu.c:643-655 | In a cycle without a restart both sweeps are clocked exactly if a half clock waits: if the divider has run out, the sweep is on and the pulse not mute, the period becomes the target and the sweep aims anew, the first pulse one lower than the second. |
| ApuSweep.SweepDivides | apu/apu.c:643-655 | The divider of a sweep after any number of cycles: loaded by the first half clock, then down to 0 and loaded again. |
| ApuSweep.PeriodStays | apu/apu.c:643-655 | A sweep that is off, or shifts by 0, never moves the period. |
| ApuSweep.RestartClocks | apu/apu.c:796-829 | The restart after a write to $4017 clocks every length and envelope at once in the five-step mode and none in the other. |
| ApuWave.PulseSteps | apu/apu.c:461-485 | A pulse whose sweep is off takes its eight steps downwards, one every P + 1 ticks, whatever the number of cycles. |
| ApuWave.TriangleSteps | apu/apu.c:487-504 | While it sounds the triangle takes its 32 steps, one every P + 1 cycles. |
| ApuWave.NoiseStream | apu/apu.c:506-532 | The noise register moves on one bit every P ticks, bit 0 and bit 1 or 6 added without carry coming in at the top, and never becomes 0. |
| ApuWave.LevelsHeard | apu/apu.c:97-178 | Always each level is the one the step, the length, the envelope and the duty make, 0 when silenced, and what is heard is the two tables at their sums. |
| ApuWave.SampleIsAverage | apu/apu.c:882-905 | The next sample comes when 44100 times the cycles reach 1789773, and is the average of the levels of all its cycles, doubled and centred; the sum starts again from 0. |
| ApuWave.PowerOnRuns | apu/apu.c:952-988 | Left alone from power-on the sequencer is five ticks into its round, the noise register runs, and nothing sounds but the triangle at its middle level. |
| ApuWave.PowerOnIsJustOn | apu/apu.c:952-988 | The reset leaves such a unit, and it satisfies the invariant. |
| ApuSample.SamplePlays | apu/apu.c:534-618 | The DMC plays the bits of the byte in hand, of the buffer and of the sample in the cartridge one after the other, lowest first, one every P ticks, up by two or down by two inside 0 to 127; the level after any number of cycles. |
| ApuMixer.TableLevels | apu/apu.c:780-794 | The literal fractions every table entry is rounded down from, and silence and full level at the ends. |
| ApuTheorems.ExecIsRun | apu/apu.c:855-910 | With a right mix one call of n cycles is the reference run of n cycles. |
| ApuTheorems.AnyBatching | apu/apu.c:855-910 | However n cycles are cut into calls, the state and the emitted samples are the same. |
| ApuTheorems.ExecOne | apu/apu.c:855-910 | Called one cycle at a time the source is the reference from any state, stale or not. |
| ApuTheorems.SampleRateExact | apu/apu.c:851-905 | From accumulator a, n cycles emit exactly (a + 44100 n) / 1789773 samples and keep the remainder. |
| ApuTheorems.CountersFit | apu/apu.c:883-905 | Between calls at most 40 cycles are summed, and a jump never passes a sample by more than its last cycle. |
| ApuStale.StaleMixShows | apu/apu.c:952-988 | For every state and length a call differs from the reference if and only if the cached mix is wrong, the first jump is longer than one cycle, and not yet a sample has come whose average is the same for both sums. |
| ApuTheorems.PowerOnInv | apu/apu.c:952-988 | The power-on state satisfies the invariant. |
| ApuStale.AverageKeeps | apu/apu.c:884-891 | The next sample rounds a moved sum away if and only if the remainder of its average has room for the difference. |
| ApuStale.CorrectionShows | apu/apu.c:952-988 | To be told before the call: a wrong mix shows whenever the call ends before the next sample, or its correction is at least as large as the number of cycles that sample averages. |
| ApuStale.ShiftHeard | apu/apu.c:883-905 | Two units whose running sums differ can be told apart until the next sample, and for ever exactly if that sample differs. |
| ApuStale.PowerOnIsStale | apu/apu.c:952-988 | From power-on a first call of any length equals the reference if and only if it is at most one cycle long. |
| ApuHeard.CycleSame | apu/apu.c:855-910 | Nothing in the unit depends on the running sum, the samples or the cached mix: one cycle of two units that differ in them only leaves the same unit, with each its own sum or sample. |
| ApuHeard.RunAlike | apu/apu.c:855-910 | Over any run two such units, with as many samples out, differ in the sum until the first sample and in that sample at most. |
| ApuHeard.WriteAlike | apu/apu.c:192-407 | Every register write does the same to both and makes both mixes right. |
| ApuIrq.TicksToLastFetch | apu/apu.c:927-942 | The closed form, countdown + (bits + 8 (bytes - 1) - 1) periods, is positive and far inside 32 bits. |
| ApuIrq.FrameIrqCountdown | apu/apu.c:710-763 | In every state with the flag down, one cycle raises it if and only if it is repeated, or the prediction is two and no reset comes first; otherwise the prediction counts on by one, or afresh after a reset. |
| ApuIrq.DmcIrqCountdown | apu/apu.c:927-942 | One cycle lowers the exact DMC prediction by one; the flag rises with the cycle that finds it at one. |
| ApuIrq.DmcIrqExact | apu/apu.c:927-942 | From a full buffer, IRQ on and no loop, the flag is up after n cycles if and only if n is the closed form (prediction less the half-phase bit), for n up to it. |
| ApuIrq.FrameIrqExact | apu/apu.c:912-925 | From every state with the flag down it is up after n cycles, n below the prediction, if and only if it is repeated, or n is one less than the prediction and no reset of the sequencer comes by then; never when the prediction is infinite. With a reset under way n is below 29800. |
| ApuIrq.FrameCountdown | apu/apu.c:912-925 | Over a run the frame prediction counts down cycle by cycle to two. |
| ApuIrq.SequencerRestarts | apu/apu.c:387-401 | A write to $4017 restarts the sequencer: after three or four cycles, by half-phase, it stands at step 0 after its first tick. |
| ApuIrq.NoDmcIrqEver | apu/apu.c:927-942 | A sample that is over, loops or may not interrupt never raises the flag. |
| ApuIrq.IrqExact | apu/apu.c:944-950 | From every state with both flags clear, one is up after n cycles short of the prediction if and only if the sequencer repeats its flag, or n is one less than a prediction that is exact: by the half-phase bit for the DMC, with no reset first for the sequencer. |
| ApuIrq.PredictionIsSound | apu/apu.c:944-950 | With both flags clear and nothing pending, no interrupt rises before the prediction less two cycles. |
| ApuIrq.PredictionIsTight | apu/apu.c:944-950 | When the frame counter gives the minimum, its flag is up one cycle before the prediction. |
| ApuFlags.CycleKeepsFlags | apu/apu.c:559-763 | No cycle lowers an interrupt flag. |
| ApuMixer.MixMonotone | apu/apu.c:780-794 | A louder index never mixes to a lower level, for any numerator and denominator. |
| ApuMixer.MixFits | apu/apu.c:780-794 | The two table entries are non-negative and sum to at most 32767, so the 16-bit casts lose nothing. |
| ApuMixer.MixerInit | apu/apu.c:780-794 | The two loops fill the arrays with exactly the rational mix levels rounded down. |
| ApuMixer.TablesValid | apu/apu.c:780-794 | The tables the source builds are an environment the refinement applies to. |
| PpuTiles.IncX | ppu/render.c:198-204 | The coarse X increment advances the scroll column by 8 modulo 512 across both nametables. |
| PpuTiles.DrawTilesAdds | ppu/render.c:312-335 | However a line is cut into chunks, the tiles drawn are the same. |
| PpuLine.DotColumn | ppu/render.c:256-292 | The tile holding dot k of the current tile, across the fine-X crossing and the nametable wrap, is the one at the scroll column. |
| PpuLine.TileLookup | ppu/render.c:92-248 | The source's nametable, attribute and pattern lookups find the colour and palette of the direct lookup at a column of the row. |
| PpuLine.TilesDrawn | ppu/render.c:312-335 | After any chunk each pixel in it is the direct lookup at its column, every other pixel of the screen is untouched, and the first sprite-0 hit is noted. |
| PpuLine.LineIsLookup | ppu/render.c:312-335 | A line begun at its left edge shows at x the row at column (256 ntX + 8 tileX + fineX + x) mod 512, combined with the sprite line. |
| PpuSprites.LayeredIsTopmost | ppu/render.c:364-424 | Each dot of the line holds the pixel of the lowest-numbered sprite that counts and is opaque there, and 0 exactly if there is none. |
| PpuSprites.NothingAfterLimit | ppu/render.c:394-399 | Once eight sprites are in range no later one can show. |
| PpuSprites.PreRenderSpriteTile | ppu/render.c:337-362 | Lays one sprite row down under what is there, clipped at the right edge, for both horizontal flips. |
| PpuSprites.PreRenderSpriteLine | ppu/render.c:364-424 | The in-place line is the layering of all sprites that count, and the overflow result is true exactly when at least nine are in range. |
| PpuSprites.PatternRow | ppu/render.c:400-419 | The row fetched for a sprite is the one its position, height and vertical flip select. |
| PpuDevice.Device.Init | ppu/ppu.c:485-603 | Power-on leaves every field at its value: at rest at the start of line 260 with the vblank and overflow flags up, no sprites in the line buffer, registers zero. |
| PpuDevice.Device.RenderBgTile | ppu/render.c:256-292 | Eight dots of a background tile, drawn with one or two fetches and the empty-tile shortcut, are eight reference dots. |
| PpuDevice.Device.RenderBgDot | ppu/render.c:278-290 | Priority, transparency and the sprite-0 hit of one dot. |
| PpuDevice.Device.RenderSpTile | ppu/render.c:294-303 | A tile of sprites without background is eight reference dots. |
| PpuDevice.Device.RenderBackDropTile | ppu/render.c:250-254 | A tile where nothing takes part is eight reference dots of backdrop. |
| PpuDevice.Device.RenderTiles | ppu/render.c:312-335 | The in-place loop draws exactly the tiles missing before its end. |
| PpuDevice.Device.ShowUpTo | ppu/render.c:464-483 | A stretch of visible dots drawn at once, tiles two ahead, with the sprite-0 flag raised in the stretch that shows the hit. |
| PpuDevice.Device.VisibleLineRender | ppu/render.c:455-519 | Every stage of a visible line, delayed rendering toggle included, leaves the state to be reached unchanged and ends with nothing owed on the line. |
| PpuDevice.Device.PreRenderLine | ppu/render.c:533-594 | The same for the pre-render line, flag clearing, scroll reloads and the odd-frame skip included. |
| PpuDevice.Device.VblankLine | ppu/ppu.c:88-103 | The same for the vblank line, with the suppressed flag and the NMI. |
| PpuDevice.Device.CheckNmi | ppu/ppu.c:35-42 | An NMI on its way moves one place along: pending, latched, taken. |
| PpuDevice.Device.TicksExecute | ppu/ppu.c:70-127 | For every state at rest and n >= 1 the call leaves exactly 3n reference dots: screen, line sprites, flags, scroll, position, parity and finished frames. The pending bit rises exactly if the call ends in dot 2 or 3 of a vblank that raises an NMI, the latch does not fall, and no bit rises without an NMI raised. The nested loops terminate. |
| PpuDevice.Device.CyclesToNMI | ppu/ppu.c:129-142 | The signed arithmetic computes the prediction function. |
| PpuDevice.Device.ReadStatus | ppu/ppu.c:45-68 | The returned byte, the vblank flag cleared, the race noted in its dot, the pending NMI taken back in the two dots after and a latched one kept. |
| PpuDevice.Device.WriteCtrlReg | ppu/ppu.c:255-279 | The pending NMI raised or taken back by the change of its enable bit and a latched one kept, the flag forced down in its last dot, the nametable bits stored. |
| PpuDevice.Device.WriteMaskReg | ppu/ppu.c:280-300 | The mask, the start of the toggle delay and the greyscale mask. |
| PpuDevice.Device.WriteScrollReg | ppu/ppu.c:337-368 | First and second write of the scroll position. |
| PpuDevice.Device.WriteAddrReg | ppu/ppu.c:369-383 | First and second write of the address; the second makes it current. |
| PpuBatch.SteadyDots | ppu/render.c:506-582 | A stretch of dots that repeat one harmless action may be carried out at once. |
| PpuBatch.StretchDots | ppu/render.c:464-483 | Drawing a stretch of a line tile by tile and two tiles ahead is drawing it dot by dot. |
| PpuStages.PixelStage | ppu/render.c:464-483 | The pixel stage of a line leaves the state to be reached unchanged. |
| PpuStages.TurnStage | ppu/render.c:485-505 | Dots 256 and 257: sprite evaluation, scroll down a row, horizontal reload. |
| PpuStages.SkipStage | ppu/render.c:583-589 | Leaving a dot out while the counter runs on is what the skipped dot of the reference does. |
| PpuStages.VblankStage | ppu/ppu.c:88-103 | Catching up across dot 1 of the vblank line in one step is doing it dot by dot. |
| PpuPicture.OneLine | ppu/render.c:455-519 | From left edge to left edge with rendering on: this row of the screen is its lookups, every other row stays, the next line has its sprites, and the scroll register is one row down with its column reloaded. |
| PpuPicture.NextLineIsNextRow | ppu/render.c:206-220 | From every scroll register one line down is one row down: modulo 480, or first through the attribute bytes for tile rows 30 and 31. |
| PpuPicture.RowStays | ppu/render.c:455-519 | A row once drawn shows its lookups until the frame ends. |
| PpuPicture.PictureIsLookup | ppu/render.c:312-335 | With rendering on from the left edge of line 0, the finished picture shows at (x, y) the background y rows below the scroll register at column (scroll X + x) mod 512, under or over the sprites found while the line above was drawn. |
| PpuPicture.PreRenderDone | ppu/render.c:533-594 | With rendering on the pre-render line ends with the whole scroll register loaded from the temporary one, OAMADDR zero and no sprites, one dot early on odd frames. |
| PpuPicture.FrameIsPicture | ppu/render.c:455-594 | From the left edge of the pre-render line to the frame the backend gets: it shows at (x, y) the background y rows below and x dots right of the scroll position written before. |
| PpuReference.DotsAdd | ppu/ppu.c:70-127 | Runs of dots compose. |
| PpuTheorems.AnyBatching | ppu/ppu.c:70-127 | However the cycles are cut into calls, screen, flags, scroll registers, position and frames agree. |
| PpuTheorems.PositionLaw | ppu/ppu.c:70-127 | Over any run 89342 times the frames begun plus line and dot grows by three a cycle and one a skipped dot. |
| PpuTheorems.Track | ppu/ppu.c:70-127 | The exact place after n dots, up to the skip of the next frame, and the parity of the frame. |
| PpuTheorems.FrameLength | ppu/render.c:583-589 | A frame takes 89342 dots, one fewer exactly on odd frames with rendering on, and shows one picture. |
| PpuTheorems.VblankSetsFlag | ppu/ppu.c:88-103 | The dot that starts the vblank sets the flag and raises the NMI unless the flag was read in that dot. |
| PpuTheorems.VblankExact | ppu/ppu.c:129-142 | Some dot before the n-th has started the next vblank if and only if n reaches the distance less the skip. |
| PpuTheorems.PredictionExact | ppu/ppu.c:129-142 | The predicted cycle meets the vblank; without a skip no earlier one does; with one the cycle before does if and only if the distance leaves 1 by 3, and none earlier. |
| PpuRegisters.AddressWritten | ppu/ppu.c:369-383 | Two writes to $2006 set the 15-bit address, high byte first, its top two bits dropped. |
| PpuRegisters.ScrollWritten | ppu/ppu.c:337-368 | Two writes to $2005 set the scroll position, X first, and leave the current one alone. |
| PpuToggle.SeenExact | ppu/render.c:142-161 | In every dot after a change of the enable bits the pixels see the opposite of the new setting exactly while the write is on its way: not from dot 0, for three dots, to the end of the line. |
| PpuToggle.ToggleDelay | ppu/render.c:142-161 | The three dots after the write show the old setting if and only if rendering as a whole was switched, not in dot 0 and with three dots of the line to come, or it was not switched, in dot 0; all later dots show the new one. |
| PpuToggle.SwitchedOn | ppu/render.c:142-161 | On the screen: after rendering is switched on in a visible line exactly three more dots show palette entry 0 and no tile is drawn; from the fourth on every tile up to two beyond the dot is. |
| PpuToggle.SwitchedOff | ppu/render.c:142-161 | After it is switched off the tiles up to two beyond the dot are drawn for three more dots and no more after them, and from the fourth dot on palette entry 0 is shown. |
| PpuToggle.NoDelayInDotZero | ppu/render.c:150-156 | Rendering switched in dot 0 is seen at once. |
| PpuToggle.DelayLostAtLineEnd | ppu/ppu.c:119-125 | Rendering switched in dot 339 or 340 is seen from the next line on. |
| PpuPending.PendingExact | ppu/ppu.c:93-98 | After any sequence of calls the pending bit is up if and only if it was before or one of the calls ends in dot 2 or 3 of a vblank that raises an NMI. |
| PpuPending.BatchingShows | ppu/ppu.c:93-98 | Two cycles in two calls leave the bit up and in one call down, though every dot is the same. |
| PpuRegisters.AccessKeepsPrediction | ppu/ppu.c:248-383 | No register access moves the beam or the vblank prediction. |
| PpuScreen.FrameDots | ppu/render.c:256-303 | With rendering on, every dot of the frame the backend gets: palette entry 16 + 4 p + c of the topmost sprite opaque there if it lies in front or the background is transparent, otherwise the background entry, otherwise the backdrop, all read off OAM, patterns, names and palette at the place y lines below and x dots right of the scroll position, on the eight pixels at the left edge by their mask bits. |
| PpuScreen.LineBuffer | ppu/render.c:364-424 | Each place of the line buffer holds the colour, palette, place in front and sprite 0 mark of the lowest-numbered opaque sprite among the first eight with a row on the line, with both flips and both heights. |
| PpuScreen.PixelShows | ppu/render.c:256-303 | The dot of any prepared line, whichever of background and sprites take part. |
| PpuScreen.DarkLine | ppu/render.c:432-440 | With rendering off a line shows palette entry 0 from one end to the other, in grey if so set. |
| PpuScreen.DrawnAhead | ppu/render.c:312-335 | n dots into a line its first (n + 7) / 8 + 2 tiles are on the screen, so a register written now shows from there on, and no other dot has changed. |
| PpuScreen.ScrollTimes | ppu/render.c:442-594 | When the scroll register and OAMADDR move with rendering on: one line down at dot 256, the horizontal part loaded at dot 257, the vertical at 280 to 304 of the pre-render line, OAMADDR zero at 257 to 320, and at no other dot from 256 on. |
| PpuHit.FlagExact | ppu/render.c:163-186 | n dots into line y of a frame the sprite 0 flag is up exactly if an opaque dot of sprite 0 has met an opaque background dot further up or further left on this line, not at column 255 and not in a clipped left edge. |
| PpuHit.OverflowOfLine | ppu/render.c:394-424 | A line raises the overflow flag exactly if more than eight sprites have a row on the next one. |
| PpuNmi.FlagTimes | ppu/ppu.c:88-103 | The vblank flag goes up in dot 1 of line 241 unless just read and down in dot 1 of line 261 with the other two, the NMI is raised then if bit 7 of $2000 is set, and nothing else outside the visible lines moves these flags. |
| PpuNmi.StepNmi | ppu/ppu.c:88-103 | A dot reads the NMI bit nowhere and sets it exactly when it starts a vblank with NMIs enabled and the flag not read. |
| PpuNmi.DotCounts | ppu/ppu.c:88-103 | A dot counts an NMI exactly when it starts a vblank with NMIs enabled and the flag not read. |
| PpuNmi.CalmDots | ppu/ppu.c:88-103 | Leaving the NMI bit out of consideration commutes with running. |
| PpuNmi.NmiAfter | ppu/ppu.c:88-142 | Up to the next vblank the NMI bit after n dots is the bit before, or the vblank begun with NMIs enabled and the flag not read. |
| PpuDark.RestingDots | ppu/render.c:432-446 | With rendering off, or from the end of the picture to the sprite fetches of the pre-render line, running commutes with filling OAM and moving its address. |
| CpuReference.IdleAdds | cpu/cpu.c:122-133 | Idle time of the eager machine composes, devices and all. |
| CpuReference.Idle | cpu/cpu.c:122-133 | Idling keeps the machine valid, its memory alone, and counts cycles and dots. |
| CpuReference.Dma | ppu/ppu.c:432-462 | A sprite transfer takes 513 cycles, 514 from an odd one, and keeps the machine valid. |
| CpuReference.Store | cpu/cpu.c:149-236 | Every store a program may make keeps the machine valid, and takes no time of its own unless it starts a sprite transfer. |
| CpuDevice.Cpu.constructor | cpu/cpu.c:351-365 | A fresh machine satisfies the invariant: both devices at power-on, line 260 dot 0, no dots asked for, nothing owed and the deadline passed. |
| CpuDevice.PowerUp | cpu/cpu.c:330-431 | From power-on, every program: bytes and state of the eager machine begun with every device at power-on, but for the first audio sample. |
| CpuDevice.Cpu.UpdateSyncDeadline | cpu/cpu.c:114-120 | The deadline becomes the earlier of the two predictions on the devices as they are. |
| CpuDevice.Cpu.SyncDevices | cpu/cpu.c:122-133 | Paying leaves the machine following its virtual state, exactly once the cached mix is right, with nothing owed and a fresh deadline. |
| CpuDevice.Cpu.PayDevices | cpu/cpu.c:129-130 | Both devices given the same cycles stand where idling for them puts them, from power-on up to the first sample. |
| CpuDevice.Cpu.DummyCycle | cpu/emulate.c:93-96 | A dummy cycle is one idle cycle of the virtual machine. |
| CpuDevice.Cpu.MemRead8 | cpu/cpu.c:267-284 | The byte is that of one eager cycle and the load, and the virtual state follows it; plain memory pays nothing; the deadline stays right although it is not recomputed. |
| CpuDevice.Cpu.MemRead16 | cpu/cpu.c:245-265 | Both bytes, and the cycles charged: two, or four across two program banks. |
| CpuDevice.Cpu.MemWrite8 | cpu/cpu.c:286-303 | The virtual state follows that of one eager cycle and the store; the deadline is right afterwards with or without a sync; a store outside the model is refused exactly when the eager machine refuses it. |
| CpuDevice.Cpu.WriteCart | cpu/cpu.c:100-106 | A mapper write happens after the devices have caught up and shows the windows of the longer history. |
| CpuDevice.Cpu.WritePpu | ppu/ppu.c:248-382 | A picture register write is the register function on the caught-up unit. |
| CpuDevice.Cpu.DmaWrite | ppu/ppu.c:432-462 | The copying loop ends after exactly 256 bytes and leaves the reference transfer, its cycles counted once at the end. |
| CpuDevice.Cpu.Tick | cpu/cpu.c:135-147 | The end of an instruction turns its cycles into owed ones as long as they stay below the deadline, and otherwise both devices catch up; the virtual state follows, from power-on as well. |
| CpuDevice.Cpu.ExecuteIorw | cpu/emulate.c:1869-1873 | An IORW instruction, wherever inside it the devices caught up, is its accesses on the eager machine, and owes afterwards what that machine would owe. |
| CpuDevice.Cpu.ExecuteFixed | cpu/emulate.c:1875-1877 | An instruction charged from the table is its quiet accesses and as many idle cycles as what it read makes it last, a page crossed or a branch taken included. |
| CpuDevice.Cpu.PollNmi | cpu/cpu.c:407-410 | What was latched is taken and leaves the line, what was pending is latched for the next poll, nothing else changes. |
| CpuDevice.Cpu.PollsAreRight | cpu/cpu.c:407-415 | Between instructions each polled line is that of the machine with every cycle paid, but in exactly the late states. |
| CpuDevice.Cpu.Iteration | cpu/cpu.c:400-428 | One pass of the loop follows one pass of the eager machine with the interrupts it took; the interrupt request is taken exactly when the eager line, after the NMI sequence, is up, unmasked and not late by the debt the eager machine carries; an NMI up and not late is taken or promised to the next poll. |
| CpuDevice.Cpu.MainLoop | cpu/cpu.c:393-431 | Any number of passes of any program, from power-on or later: same bytes read, the state of the eager machine followed and what it would owe, stuck exactly when it is; of every pass, which interrupts are taken and why, all of it said of the eager run; NMIs taken never exceed NMIs raised. |
| CpuDevice.Cpu.StandingIndebted | cpu/cpu.c:114-147 | Between two instructions the debt of any valid machine leads to its virtual state, so the theorems about runs below hold of its runs. |
| CpuInterrupts.RunBehind | cpu/cpu.c:114-147 | In every run the cycles owed lead from where both devices last caught up to where the eager machine is, but for an NMI taken on the way. |
| CpuInterrupts.LineAtDebt | cpu/cpu.c:407-415 | In every such state a line is up and not late if and only if it was up when the devices last caught up, at most 29780 cycles before. |
| CpuInterrupts.OldRequestIsTaken | cpu/cpu.c:412-415 | In every pass an unmasked interrupt request is taken if and only if its line was up at the last catching-up; a missed one is at most 29780 cycles old. |
| CpuInterrupts.OldNmiIsTaken | cpu/cpu.c:407-410 | An NMI that was on the line at the last catching-up is taken in that pass or the next. |
| CpuPolls.IrqPoll | cpu/cpu.c:412-415 | In every state the polled line is up if and only if the eager one is and the state is not late: the sequencer about to repeat its flag, or the last cycle before a prediction that is exact. |
| CpuPolls.LateIsLastCycle | cpu/cpu.c:114-120 | With nothing to be repeated a late state is the last cycle before the deadline. |
| CpuPolls.RepeatIsMissed | apu/apu.c:429-436 | The failing input: a flag acknowledged in the cycle it rises is up again one cycle later, with a prediction of 29830 cycles or more and the poll late. |
| CpuPolls.RepeatAhead | apu/apu.c:740-750 | Left alone, any unit with its frame interrupt on comes to that input. |
| CpuPolls.PowerOnRepeats | apu/apu.c:952-988 | Power-on is such a unit. |
| CpuPolls.NmiPoll | cpu/cpu.c:407-410 | The polled NMI bit is up if and only if the eager one is and it is not the last cycle before a late prediction with a vblank that raises an NMI. |
| CpuFollows.LoadFollows | cpu/cpu.c:267-284 | Machines that differ in an NMI taken back and a first sample load the same bytes and differ no more. |
| CpuFollows.StoreFollows | cpu/cpu.c:286-303 | Every store leaves two such machines as alike as they were, sprite transfers included. |
| CpuFollows.ExecuteTracks | cpu/emulate.c:1869-1877 | So does every instruction: same bytes read, the same cycles owed, stuck together or not at all. |
| CpuPolls.DeadlineFits | cpu/cpu.c:114-120 | The deadline never exceeds a frame, so the 32-bit counters of the protocol cannot overflow. |
| CpuTheorems.RunInStep | cpu/cpu.c:122-147 | Over every run of every program both devices execute exactly the cycles the processor counts, sprite transfers included. |
| CpuTheorems.IorwTakes | cpu/emulate.c:1869-1873 | An IORW instruction advances the time by the sum of its accesses and dummy cycles, plus 513 or 514 for a sprite transfer. |
| CpuTheorems.DmaIsCopy | ppu/ppu.c:432-462 | With rendering off, or in the vertical blank, a sprite transfer is a copy of the whole page followed by 513 or 514 idle cycles. |
| CpuTheorems.TransferFills | ppu/ppu.c:432-462 | After a store to $4014 the 256 bytes of OAM are those of the page, OAMADDR is 0 again, and 513 or 514 cycles have gone. |
| CpuTheorems.AccessTakes | cpu/cpu.c:245-303 | The cycles of every access by its address: one, two or four for a pair (four at $9FFF, $BFFF, $DFFF and $FFFF), 514 or 515 for a store to $4014. |
| CpuTheorems.PassOrder | cpu/cpu.c:400-428 | In one pass the NMI sequence comes first, then that of the interrupt request, then the instruction. |
| CpuMap.RamReadBack | cpu/cpu.c:154-157 | A byte stored below $2000 is loaded again from all four copies of its place, and from nowhere else. |
| CpuMap.CartridgeBytes | cpu/cpu.c:219-233 | A load or a pair from $8000 on reads the cartridge at that address; a store is a write to the mapper, and nothing else changes. |
| CpuMap.PictureStores | ppu/ppu.c:248-382 | A store to $2000-$3FFF, in every mirror, changes exactly the register its low three bits select: control, mask, OAMADDR, the OAM byte with OAMADDR one further, or the scroll. |
| CpuMap.AddressAndScroll | ppu/ppu.c:337-383 | Two stores to $2006, in any mirrors, set the 15-bit address in use; two to $2005 the scroll position in dots. |
| CpuMap.StatusLoaded | ppu/ppu.c:51-68 | The byte a load of $2002 returns bit by bit, what it takes back, and when it takes back the NMI. |
| CpuMap.NmiAndGreyStored | ppu/ppu.c:255-300 | A store to $2000 that turns NMIs on inside a vertical blank raises one, one that turns them off takes it back; a store to $2001 sets grey by its lowest bit. |
| CpuMap.AudioRegisters | apu/apu.c:192-356 | A store to $4000-$4013 changes exactly the register byte of that address and nothing of the picture unit or memory. |
| CpuMap.ChannelsSwitched | apu/apu.c:358-386 | A store to $4015: a channel whose bit is clear has length 0, the sample of 16 L + 1 bytes at $C000 + 64 A begins if none is left, the enable bits are stored and the sample interrupt is taken back. |
| CpuMap.SequencerSet | apu/apu.c:387-401 | A store to $4017 stores the frame register, starts the delay of 3 or 4 cycles, and takes the frame interrupt back if bit 6 forbids it. |
| CpuMap.ChannelsTold | apu/apu.c:414-442 | The byte a load of $4015 returns bit by bit, and what it takes back. |
| CpuMap.NoteBegins | apu/apu.c:206-333 | A store to the fourth register of a channel loads its length from the literal table if the channel is on, restarts envelope, linear counter and duty, and touches no other channel. |
| CpuMap.NoteMeetsClock | apu/apu.c:192-333 | The same when a half clock waits: if it has something to count down it comes after the note and the note is lost, otherwise the note stands. |
| CpuMap.HaltMeetsClock | apu/apu.c:192-333 | A store to the first register of a channel lets a waiting half clock count with the old halt bit. |
| CpuMap.PeriodsStored | apu/apu.c:192-356 | The timer periods, sample rate and output level every store to $4000-$4013 sets, by the literal tables. |
| CpuMap.SweepAims | apu/apu.c:75-95 | After every store that aims a sweep, its target and mute flag by the literal formula, one lower on the first pulse. |
| Mmc1.MaskIsRemainder | mapper/mmc1.c:81-139 | The bitwise mask by a power of two less one is the remainder. |
| Mmc1.BankInside | mapper/mmc1.c:81-139 | A masked bank offset is aligned and the whole bank lies inside the memory. |
| Mmc1.WindowsInside | mapper/mmc1.c:81-139 | Every program window lies inside a ROM of 32 KB or more and every pattern window inside 8 KB or more, for power-of-two sizes. |
| Mmc1.ShiftIn | mapper/mmc1.c:175-178 | The marker bit reaches the bottom exactly with the fourth bit in hand, and the fifth shift leaves the value of the five, least significant first. |
| Mmc1.FiveWritesCommit | mapper/mmc1.c:161-203 | After a reset or commit the fifth write commits the five bits to the register its own address selects, and no earlier write changes a register. |
| Mmc1.Mapper.constructor | mapper/mmc1.c:141-214 | Power-on establishes the invariant for the header's mirroring. |
| Mmc1.Mapper.UpdatePrgMap | mapper/mmc1.c:81-105 | The four program windows become the map of the registers, in all four modes. |
| Mmc1.Mapper.UpdateChr | mapper/mmc1.c:125-139 | The two pattern windows become the map of the registers, in both modes. |
| Mmc1.Mapper.UpdateMirroring | mapper/mmc1.c:107-123 | The four screens become the map of the registers. |
| Mmc1.Mapper.BankSwitch | mapper/mmc1.c:161-203 | After every write the registers are what the protocol makes of the whole history, and every window is the map of the registers. |
| Mmc1.ResolveReadsWindow | cpu/mmap.h:27-31 | Resolving an address through the table reads the byte the window shows. |
| Mmc1.CartOf | mapper/mmc1.c:81-139 | The mapper is a cartridge the processor's machine may be run with, whatever is written. |
| Mmc1Banks.ProgramBytes | mapper/mmc1.c:81-105 | Whatever was written before, after a reset and the control and bank registers written bit by bit: the byte of the ROM every address from $8000 on reads, in all four modes. |
| Mmc1Banks.LastBankAtReset | mapper/mmc1.c:141-173 | At power-on and after every reset the last 16 KB stand at $C000, and at power-on the first 16 KB at $8000. |
| Mmc1Banks.PictureBytes | mapper/mmc1.c:107-139 | Every byte of both pattern tables, in banks of 4 KB or 8 KB, and which block each of the four screens shows in the four mirrorings. |
| Mmc1Banks.HeaderScreens | mapper/mmc1.c:141-147 | Until the control register is loaded the screens stand as the header says. |
| Mmc1Banks.TablesShow | cpu/mmap.h:27-31 | The tables of the mapper, in every valid state, lead to exactly these bytes. |
| VtTerminal.InterpretAppends | video/vtrenderlib/vtrenderlib.c:541 | What a terminal shows after two pieces of output is what it shows after both at once. |
| VtTerminal.DecimalRead | video/vtrenderlib/vtrenderlib.c:403-437 | A terminal reads back the number that was written in decimal. |
| VtTerminal.CupMoves | video/vtrenderlib/vtrenderlib.c:403-409 | The cursor sequence moves the cursor to its cell and changes nothing else. |
| VtTerminal.SgrColors | video/vtrenderlib/vtrenderlib.c:439-456 | The colour sequence sets exactly the cell colour, default or one of 255, and changes nothing else. |
| VtTerminal.CursorBytes | video/vtrenderlib/vtrenderlib.c:403-409 | The bytes ESC [ 2 ; 3 H put the cursor on the second row, third column. |
| VtTerminal.ColorBytes | video/vtrenderlib/vtrenderlib.c:439-456 | The bytes ESC [ 38 ; 5 ; 17 m set colour 17, ESC [ 39 m the default colour. |
| VtTerminal.DotBytes | video/vtrenderlib/vtrenderlib.c:411-420 | The bytes E2 A1 80 are the braille character with its seventh dot alone. |
| VtTerminal.GlyphDrawn | video/vtrenderlib/vtrenderlib.c:411-420 | The three bytes of a cell are decoded to the braille character of its mask. |
| VtStencil.MaskShowsDots | video/vtrenderlib/vtrenderlib.c:502-516 | Every dot of the stencil appears in its place of the braille character. |
| VtStencil.MaskInjective | video/vtrenderlib/vtrenderlib.c:516 | No two stencils look the same. |
| VtStencil.SetBitSets | video/vtrenderlib/vtrenderlib.c:552 | Setting a dot sets that dot and no other. |
| VtCanvas.Canvas.constructor | video/vtrenderlib/vtrenderlib.c:205-262 | On a cleared terminal a fresh canvas satisfies the invariant. |
| VtCanvas.Canvas.ExtendSeqBuf | video/vtrenderlib/vtrenderlib.c:386-401 | Doubles the list and keeps its bytes, or changes nothing when memory does not suffice. |
| VtCanvas.Canvas.SetPosS | video/vtrenderlib/vtrenderlib.c:403-409 | Appends the cursor sequence, at most 14 bytes, inside the list. |
| VtCanvas.Canvas.DrawCellS | video/vtrenderlib/vtrenderlib.c:411-420 | Appends the three bytes of the character. |
| VtCanvas.Canvas.U8ToDec | video/vtrenderlib/vtrenderlib.c:422-437 | Appends the decimal digits of a byte. |
| VtCanvas.Canvas.SetForegroundColorS | video/vtrenderlib/vtrenderlib.c:439-456 | Appends the colour sequence, at most 11 bytes. |
| VtCanvas.Canvas.LooksSame | video/vtrenderlib/vtrenderlib.c:478-486 | A cell is left alone if and only if it looks the same as in the previous frame. |
| VtCanvas.Canvas.DrawCell | video/vtrenderlib/vtrenderlib.c:478-533 | Extends the shown prefix by one cell, with the colour and the cursor the source believes in; a cell that looks the same costs no byte. |
| VtCanvas.Canvas.SwapBuffers | video/vtrenderlib/vtrenderlib.c:465-542 | If the terminal showed the previous frame it shows the current one; the buffers are swapped and the new one empty; a frame that looks the same sends one colour reset; without memory nothing happens. |
| VtCanvas.Canvas.RenderDot | video/vtrenderlib/vtrenderlib.c:544-578 | A dot inside the canvas is set in cell y / 4 * ncols + x / 2, which takes its colour; any other is ignored; the invariant stays. |
| VtCanvas.Canvas.PrintText | video/vtrenderlib/vtrenderlib.c:809-825 | Character k of the text is laid over cell row * ncols + col + k up to the right edge, and no other cell changes; outside the canvas it is refused; the invariant stays. |
| VtCanvas.DotAppears | video/vtrenderlib/vtrenderlib.c:544-555 | A rendered dot is lit in the character that will be sent, and the other dots of the cell are as before. |
| VtBackend.DotOnScreen | video/vtrenderlib/vtrenderlib.c:544-555 | After a dot and the frame are sent, the terminal cell at y / 4 and x / 2 shows that braille dot lit in its colour where no text lies over it, its other seven dots are as they would have been, and so is every other cell; two dots share a cell exactly if both quotients agree. |
| VtBackend.TextOnScreen | video/vtrenderlib/vtrenderlib.c:809-825 | After a text and the frame are sent, its characters stand side by side from their row and column on up to the right edge, and every other cell is as it would have been. |
| VtBackend.LitDot | video/vtrenderlib/vtrenderlib.c:502-516 | Which bit of the character each dot of the canvas is. |
| VtBackend.DominantColor | video/vt_backend.c:28-45 | The colour that comes up is one of the cell's, not black, none is more frequent, and of equally frequent ones it is the first; black exactly for a black cell. |
| VtBackend.Backend.constructor | video/vt_backend.c:104-117 | A fresh backend has a black picture as wide and high as both the frame and the canvas allow. |
| VtBackend.Backend.SetPixel | video/vt_backend.c:23-26 | A pixel is stored at y * width + x and nowhere else. |
| VtBackend.Backend.Gather | video/vt_backend.c:61-72 | The two nested loops collect the mapped colours of the eight pixels of a cell, row by row. |
| VtBackend.Backend.DrawDots | video/vt_backend.c:78-86 | The two nested loops render exactly the dots whose colour is not black, in the dominant colour. |
| VtBackend.Backend.DrawFrame | video/vt_backend.c:59-87 | The loops over the picture leave on the canvas every cell drawn from its eight pixels. |
| VtBackend.Backend.FrameFlush | video/vt_backend.c:47-90 | After a flush every terminal cell that covers pixels shows the character of the dots that are not black in the first most frequent of their colours, and any other is empty; the picture is as before. |
| VtBackend.PictureCropped | video/vt_backend.c:23-26 | On a terminal narrower than the picture the end of each row is overwritten by the next, and what is left is the picture cut at the right edge. |

## Left out

- ApuIrq.PredictionIsSound: is about states with nothing to be repeated and no sequencer reset under way, for which the source's formula is meant; IrqExact says what holds in the others.
- CpuDevice.Cpu.MainLoop: where an NMI stands between its pending bit and its latch depends on the batches on purpose, so the NMI line of the lazy machine may hold one more NMI than the eager one: one latched before the program took it back.
- CpuReference.Dma: pages of the internal RAM; from page 8 on the source copies whatever lies behind the RAM in its own memory block.
- CpuReference.Store: the stores MemWrite8 is about.
- CpuDevice.Cpu.WritePpu: all registers but PPUDATA.
- CpuDevice.Cpu.MemRead8: loads from memory, $2002 and $4015 only; write-only registers, PPUDATA and the controller ports are not part of this model.
- CpuDevice.Cpu.MemRead16: pairs from RAM (not across its last byte, where the source reads on into the next field) and from the cartridge only.
- CpuDevice.Cpu.MemWrite8: all registers but PPUDATA ($2007), OAMDATA outside rendering as the source asserts, no PRG RAM and no controller ports; for the protocol PRG RAM and the ports behave like the RAM mirrors.
- CpuDevice.Cpu.DmaWrite: with rendering off and no toggle on its way, or in the vertical blank far enough from its end, OAMADDR zero as the source asserts, and a page of the internal RAM; during a rendered line the unit would move the address inside the copying loop.
- CpuDevice.Cpu.Tick: cycle counts are unbounded integers; an instruction is short enough for the 8-bit ioInsnCycles, and DeadlineFits bounds the rest.
- PpuDevice.Device.TicksExecute: is not called with zero cycles, as the source never does; the dot counter's 32 bits are not modelled.
- ApuDevice.Device.TicksExecute: the wrap of the cycles2x counter is not modelled; only its lowest bit is used.
- VtCanvas.Canvas.SwapBuffers: writing to the terminal succeeds, overlay text is printable ASCII, the cursor runs on from the end of a row to the next, and the dot dimensions fit 16 bits.
- VtBackend.Backend.SetPixel: colours are below 64, which the source asserts only when it flushes.
- VtBackend.Backend.FrameFlush: is about a canvas with nothing drawn beside the picture; the result of the swap is passed on, which the source drops.
- Mmc1.WindowsInside: is about memories of the size the mask is made of; CHR RAM of another size than the picture unit allocates is not part of this model.
- The 6502 opcode table: an instruction is an arbitrary list of accesses, each chosen by what was read before, with its cycle accounting.
- VRAM contents as written through PPUDATA, palette mirrors and address wrap: nametables, patterns and palette are given, and change only with the cartridge's windows.
- SDL2, CoreAudio, pipe, terminal input and rate limiting; samples, frames and bytes end in sequences instead.
- ROM files, headers, allocation, options and the controllers.
- Float line and polygon rasterising in the terminal library.
- UxROM, CNROM, AxROM and NROM bank switching, which would only add easy members.
- DMA stealing cycles from the processor, the sprite overflow hardware bug and open bus, which the source does not do either.
