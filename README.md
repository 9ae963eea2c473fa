# DSP_Funks processing units in Dafny

This project models the per-frame processing of the two audio modules in the
DSP_Funks plugin for VCV Rack 2:

- **Filter** (`src/Filter.cpp`) has a power button, a cutoff knob, one
  polyphonic input and three outputs: low-pass, band-pass and high-pass. Each
  frame it copies the input's channels into a working buffer. Then, for every
  output that is plugged in, it runs a one-pole stage over that buffer in
  place, in the order low, band, high. All channels and all three stages share
  three history scalars: the previous low-pass output, the previous high-pass
  output and the previous input. So every channel starts from what the channel
  before it left.
- **Pass** (`src/Pass.cpp`) has a power button, SUM and AVG buttons, three
  polyphonic input buses and one output. When a mode is on, it adds the buses
  channel by channel into an accumulator and totals their channel counts. AVG
  then divides every slot by that total. The result goes out as one channel.

Both units latch their power state on the rising edge of the button, and
Pass latches its two modes the same way.

Modules:

- `Host` holds the port values: an input is plugged in and has a list of
  channel voltages; an output records whether it is plugged in, the channel
  count last declared and the buffer last handed over. It also holds the
  brightness of a status light.
- `PowerLatch` is the edge-triggered latch and its behaviour over a run of
  frames.
- `OnePole` is the pure filter arithmetic:
  - the coefficient `CalculateAlpha`;
  - one sample through each stage (`StepOf`);
  - a stage over a whole buffer (`Scan`);
  - the lemmas that say what each stage computes.
- `FilterUnit.Filter` is the Filter as a class whose fields the methods
  update. Each in-place loop is proved equal to `Scan` on the old buffer and
  history.
- `Accumulator` covers Pass's mode latch (`ModeStep`) and the mixing
  specification (`Mix`, `SumChannels`, `Average`).
- `PassUnit.Pass` is the Pass as a class; its methods are proved against the
  `Accumulator` definitions. Each method that changes the accumulator, the
  total or the modes keeps the unit's invariant `Valid()`: SUM and AVG are
  never both on, and the channel total is at least the accumulator's width
  and positive only when the accumulator is non-empty.

Two behaviours of the code are modelled exactly as written:

- The high-pass stage stores its own output as the "previous input". After
  the first channel, each high-pass channel is therefore just the input
  scaled by alpha (`OnePole.HighPassIsGain`). The band-pass stage stores the
  real input.
- Pass's divisor is the sum of the plugged-in buses' channel counts, not the
  number of distinct channel indices.

## Model

| member | source | states |
|---|---|---|
| Host.Brightness | src/Filter.cpp:49 | a status light is 1 exactly when its state is on and 0 exactly when it is off |
| OnePole.CalculateAlpha | src/Filter.cpp:33-40 | the coefficient is in [0, 1), and it is 0 exactly when the cutoff is 0 |
| OnePole.AlphaIgnoresSign | src/Filter.cpp:34 | a cutoff and its negation give the same coefficient |
| OnePole.AlphaClampedAtNyquist | src/Filter.cpp:35-37 | every cutoff whose magnitude is at or beyond half the sample rate gives the coefficient of exactly half the sample rate |
| OnePole.AlphaMonotone | src/Filter.cpp:33-40 | a larger cutoff magnitude never gives a smaller coefficient |
| OnePole.OmegaMonotone | src/Filter.cpp:34-38 | the clamped cutoff in radians per sample is non-negative and never decreases as the cutoff's magnitude grows |
| OnePole.StepOf | src/Filter.cpp:67-114 | one channel through one stage: the low-pass stage moves only the low-pass history, to its output, which lies between the input and the previous output when the coefficient is in [0, 1]; the band-pass stage outputs its new low-pass history minus its new high-pass history and records the raw input; the high-pass stage records its output as both previous output and previous input |
| OnePole.SmoothBetween | src/Filter.cpp:68 | with a coefficient in [0, 1], the low-pass update lies between the input and the previous output |
| OnePole.Scan | src/Filter.cpp:67-114 | a stage run over a buffer, channel by channel in index order, as all three loops do, yields one output per channel |
| OnePole.ScanSnoc | src/Filter.cpp:67-70 | running a stage over one more channel appends that channel's step, taken from the history the earlier channels left |
| OnePole.ScanPrefix | src/Filter.cpp:67-70 | channel i of a stage's output depends only on channels 0..i of the input, because channels are processed in index order |
| OnePole.Advance | src/Filter.cpp:67-70 | one loop iteration (overwrite slot i with its step, update the history) moves the in-place invariant from i to i + 1 and reads an untouched input slot |
| OnePole.Finished | src/Filter.cpp:67-72 | once the in-place loop has passed every slot, the buffer and history are exactly the stage run over the original buffer |
| OnePole.LowPassCarry | src/Filter.cpp:67-70 | the low-pass stage leaves the high-pass and input history unchanged and ends with its low-pass history equal to its last output |
| OnePole.LowPassHoldsAtZeroAlpha | src/Filter.cpp:65-70 | with cutoff 0 (coefficient 0), every low-pass channel becomes the previous low-pass output and the history does not change |
| OnePole.HighPassCarry | src/Filter.cpp:109-114 | the high-pass stage leaves the low-pass history alone; after a non-empty buffer, both the previous high-pass output and the previous input equal the last output |
| OnePole.HighPassSettled | src/Filter.cpp:110-113 | after a non-empty high-pass run, the next channel's output is its input times alpha |
| OnePole.HighPassFirst | src/Filter.cpp:110-111 | a one-channel high-pass run differentiates that channel against the incoming history |
| OnePole.HighPassGainStep | src/Filter.cpp:109-114 | one more channel after a non-empty high-pass run extends the scaled tail by that channel times alpha |
| OnePole.HighPassIsGain | src/Filter.cpp:109-114 | the high-pass stage outputs alpha·(y' + x0 − x') for the first channel and alpha·x for every later channel |
| OnePole.HighPassMatchedIsGain | src/Filter.cpp:109-114 | when the incoming previous output and previous input are equal, as any earlier non-empty high-pass run leaves them, the whole stage is a gain by alpha |
| OnePole.OnePoleHighPassSnoc | src/Filter.cpp:92-95 | the textbook high-pass on the raw input, extended by one channel, appends alpha·(previous output + x − previous input) |
| OnePole.MinusSnoc | src/Filter.cpp:96 | the channel-wise difference of two buffers, each extended by one channel, is the old difference extended by the difference of the new channels |
| OnePole.BandPassCarry | src/Filter.cpp:88-97 | after the band-pass stage, the history holds the last low-pass output at the lower coefficient, the last textbook high-pass output on the raw input at the upper coefficient, and the last input sample |
| OnePole.BandPassIsLowMinusHigh | src/Filter.cpp:82-97 | the band-pass stage is, channel by channel, a low-pass run at the lower coefficient minus a textbook high-pass run on the raw input at the upper coefficient |
| FilterUnit.RunStage | src/Filter.cpp:58-59 | a stage keeps the buffer length, and a stage whose output is unplugged changes neither buffer nor history |
| FilterUnit.BandStage | src/Filter.cpp:82-86 | the band-pass coefficients, for the corners abs(cutoff − 5) and abs(cutoff + 5), are both in [0, 1); for a non-negative cutoff the low-pass coefficient is at most the high-pass one, and for a non-positive cutoff at least |
| FilterUnit.BandStageMirror | src/Filter.cpp:82-86 | negating the cutoff swaps the two band-pass coefficients |
| FilterUnit.Filter.constructor | src/Filter.cpp:12-31 | a new Filter is off, with the button released, an empty buffer, zero history and the given sample rate |
| FilterUnit.Filter.UpdatePowerState | src/Filter.cpp:42-50 | the power latch takes one edge-triggered step on the button level, and the power light shows the new state |
| FilterUnit.Filter.DisableOutput | src/Filter.cpp:52-56 | all three outputs declare zero channels; nothing else about them changes |
| FilterUnit.Filter.GetInput | src/Filter.cpp:119-127 | the buffer becomes empty when the input is unplugged, and otherwise holds one slot per input channel with that channel's voltage |
| FilterUnit.Filter.ApplyLowPass | src/Filter.cpp:58-73 | when the low-pass output is plugged in, the buffer and history become the low-pass run over the old buffer from the old history, and the output gets the buffer's channel count and the filtered buffer; otherwise nothing changes |
| FilterUnit.Filter.ApplyBandPass | src/Filter.cpp:75-100 | the same for the band-pass stage, with coefficients for the corners abs(cutoff − 5) and abs(cutoff + 5) |
| FilterUnit.Filter.ApplyHighPass | src/Filter.cpp:101-117 | the same for the high-pass stage, which records its output as the previous input |
| FilterUnit.Filter.Process | src/Filter.cpp:129-141 | the power latch steps. Off: all three outputs go to zero channels, buffer and history unchanged. On: the input is loaded, then low, band and high run in order on the same buffer and history, each plugged-in output getting the buffer as its stage left it |
| PowerLatch.Step | src/Pass.cpp:75-80 | the power state changes exactly on a rising edge of the button, and the latch remembers the current level |
| PowerLatch.RunTogglesOncePerRisingEdge | src/Pass.cpp:75-80 | over any sequence of frames, the power state has flipped once per rising edge, so its parity is the count's, and the latch holds the last level |
| PowerLatch.HeldTriggerTogglesOnce | src/Filter.cpp:43-47 | holding the button for any number of frames toggles power once if it was released before and never if it was already held |
| PowerLatch.ToggleTraceExample | src/Filter.cpp:42-50 | button levels 0, 1, 1, 0, 1 from off give off, on, on, on, off |
| Accumulator.ModeStep | src/Pass.cpp:85-98 | a rising AVG edge selects AVG and clears SUM; a rising SUM edge alone selects SUM and clears AVG; without an edge the modes keep; the modes never end up both on; both levels are remembered |
| Accumulator.HeldSumDoesNotRefire | src/Pass.cpp:86-91 | while SUM stays held, it can never be switched on again by its button |
| Accumulator.AvgOverridesHeldSumExample | src/Pass.cpp:85-98 | SUM pressed, then AVG pressed while SUM is still held, leaves AVG on and SUM off |
| Accumulator.AddBus | src/Pass.cpp:113-125 | adding a bus makes the accumulator as wide as the wider of itself and the bus (an unplugged bus has width 0); each existing slot gains the bus's channel of that index, if any, and each new slot holds exactly the bus's channel |
| Accumulator.Mix | src/Pass.cpp:104-125 | the mixed accumulator is as wide as the widest plugged-in bus |
| Accumulator.SumChannels | src/Pass.cpp:106-127 | the channel total is at least every bus's channel count, and it is 0 exactly when no bus contributes a channel |
| Accumulator.MixIsChannelSum | src/Pass.cpp:112-125 | slot i of the mixed accumulator is channel i summed over every plugged-in bus that has a channel i |
| Accumulator.MixBeyondIsZero | src/Pass.cpp:116-125 | no bus contributes to a slot beyond the widest plugged-in bus |
| Accumulator.ChannelCountBounds | src/Pass.cpp:104-128 | the channel total is at least the accumulator's width, and it is positive exactly when the accumulator is non-empty |
| Accumulator.Average | src/Pass.cpp:130-134 | averaging keeps the accumulator's width |
| Accumulator.MixExample | src/Pass.cpp:104-134 | buses [2, 4] and [6] with the third unplugged mix to [8, 4] over 3 channels and average to [8/3, 4/3] |
| PassUnit.Pass.constructor | src/Pass.cpp:25-51 | a new Pass is off, with no mode, an empty accumulator and a zero total |
| PassUnit.Pass.UpdatePowerState | src/Pass.cpp:75-83 | the power latch takes one edge-triggered step, and the power light shows the new state |
| PassUnit.Pass.UpdateModeStates | src/Pass.cpp:85-102 | the modes take one ModeStep on the SUM and AVG levels, each light shows its mode, and the unit's invariant is kept |
| PassUnit.Pass.ProcessInput | src/Pass.cpp:112-128 | an unplugged bus changes nothing; a plugged-in bus zero-pads the accumulator to its width, adds its channels slot by slot, and adds its channel count to the total; the unit's invariant is kept |
| PassUnit.Pass.ProcessInputs | src/Pass.cpp:104-110 | the accumulator becomes the mix of the three buses, each slot is that channel's sum over the buses, the total is the sum of their channel counts, and the total is positive exactly when the accumulator is non-empty; the unit's invariant is kept |
| PassUnit.Pass.ApplyAverage | src/Pass.cpp:130-134 | every slot is divided by the channel total, and the unit's invariant is kept |
| PassUnit.Pass.SendOutput | src/Pass.cpp:136-139 | the output declares one channel and receives the accumulator |
| PassUnit.Pass.DisableOutput | src/Pass.cpp:141-147 | the output declares zero channels and both modes and their lights go off, keeping the remembered button levels and the unit's invariant |
| PassUnit.Pass.Process | src/Pass.cpp:53-73 | the power latch steps. Off: the output is silenced and both modes cleared, the accumulator kept. On: the modes step; with a mode on, the buses are mixed afresh, otherwise the old accumulator and total are kept; if the total is positive, AVG divides by it and one channel is sent. It keeps the invariant that the modes are exclusive and the total covers the accumulator |

## Left out

- Floating point: samples, coefficients and the division in averaging are exact reals. `float` rounding, NaN and infinities are not modelled.
- The value of π: `2·M_PI` is the decimal constant 6.283185307179586, not the C library's `double`.
- The host engine: the sample rate is a constructor parameter, required to be positive, where the code reads it from the engine. The button levels, the cutoff knob and the input jacks are parameters of `Process`.
- Port semantics: what the host does with `setChannels` and `writeVoltages`, such as clamping the channel count or copying only the declared channels, is not modelled. An output records the last declared count and the last buffer handed over.
- Lights are brightness values 0 and 1, not the host's light objects.
- Widgets, panel layout, model registration and plugin boilerplate are not modelled: they draw the interface and do no processing.
- Integer width: Pass's channel total is unbounded. With at most three 16-channel buses, the C++ `int` cannot overflow.
- Filter's buffer when the input is unplugged: the code clears the buffer and returns, so the stages see an empty buffer. The model follows the code, not a zero-filled buffer of the input's width.
- In-place update: the working buffers are `seq` fields that the methods reassign, not the C++ vector's storage.
- Loop bodies: each in-place filter loop stores the value it just computed into the history, rather than reading the slot it has just written. The two are equal.
- PassUnit.Pass.ApplyAverage: requires a positive total. The code relies on `process` calling it only when the total is positive.
- PassUnit.Pass.SendOutput: requires a non-empty accumulator, because the host reads its first slot. `process` calls it only when the total is positive, which implies a non-empty accumulator (`Accumulator.ChannelCountBounds`).
