# Delay in Rust — a Dafny model of the delay-line engine

This project models the core of the `doubleDelay` VST effect (`src/lib.rs`). The
effect has a circular delay buffer of `DELAY_LINE_LEN = 10 * 44100` samples and one
read/write cursor. It mixes the delayed signal with the live one. Its parameter
table has five controls that the host reads and writes by index.

The model has three modules:

- `Params` (`params.dfy`) is the parameter table `DelayEffectParameters`. It is a
  class with one field per control. The constructor gives the defaults of
  `Default::default`, and `SetParameter` writes at most one field. A `Settings`
  value holds the five controls at one moment. On it, `Get` and `Set` give the
  index dispatch of `get_parameter` and `set_parameter`, and `ParameterName`
  gives that of `get_parameter_name`.
- `DelayLine` (`delay_line.dfy`) is the per-sample algorithm as pure functions.
  `Step` reads the slot under the cursor, computes the output
  `((input*dry)+(delayed*wet))*amplitude`, overwrites that slot with
  `feedback + delayed*input` and advances the cursor. `Advance` sets the cursor to
  `index+1`, or to 0 once that reaches the active length. `Run` applies `Step` to a
  stream of samples. It stops at the first read past the end of the buffer, where
  Rust's indexing panics. `ActiveLength` is the cast
  `(delay_time * 44100) as usize`: it truncates, sends non-positive values to 0
  and saturates at the largest 64-bit `usize`.
- `Engine` (`engine.dfy`) is the plugin object `doubleDelay`. It is a class with
  the shared parameter object, a fixed-length `array<real>` buffer and a cursor.
  `Process` is the nested loop over channels and samples. It reads the parameters
  once, copies the buffer and cursor into locals and updates the local array in
  place. `Pass` is the function it is proved against: the channels of one block,
  with one cursor carried from each channel into the next.

Two behaviours of the code are modelled as written:

- `process` works on copies of `delay_line` and `delay_index` (`src/lib.rs:85-86`).
  It never stores them back. `Process` therefore has no `modifies` clause, and
  every call starts from a zero buffer and cursor 0 (`Silent()`). `ProcessTwice`
  shows that two calls on the same block give the same result.
- One cursor and one buffer serve every channel. `PassIsOneStream` proves that a
  block behaves exactly like one stream made of its channels laid end to end.

Three behaviours of the code differ from a conventional delay line:

- The slot just read is overwritten with `feedback + delayed*input`
  (`src/lib.rs:98`), where a conventional delay line stores the input plus the
  delayed sample scaled by the feedback. So, from the zero buffer, the first lap of the loop
  stores the feedback level in every slot, whatever the input was (`FirstLap`).
  Silence is therefore not silent: after one lap, a zero input comes out as
  `feedback*wet*amplitude` (`SilenceEchoesFeedback`).
- The active length `delay_time*44100` is cast but never clamped to the buffer
  (`src/lib.rs:100`). With length 0 the
  cursor stays at 0. With a length above the buffer, a call panics exactly when it
  processes more than `DELAY_LINE_LEN` samples in total, at the read of slot
  `DELAY_LINE_LEN` (`RunPastBuffer`, `PassFromSilence`). Reads of slots 0 to
  `DELAY_LINE_LEN - 1` are still in bounds, so `DELAY_LINE_LEN` samples alone do
  not panic.
- `get_parameter` reports only the amplitude. A set followed by a get round-trips
  only for index 0, or when the value written is 0 (`SetThenGet`).

Samples and control values are `real`. Out-of-bounds indexing is an outcome
(`Panicked`), not a precondition.

## Model

| member | source | states |
|---|---|---|
| `Params.Parameters.constructor` | src/lib.rs:36-46 | the controls start at amplitude 0.5, delay time 1.0, wet 0.5, dry 0.5, feedback 0.3 |
| `Params.Parameters.SetParameter` | src/lib.rs:125-133 | the new settings are the old ones with the one control `index` selects replaced, as `Settings.Set` says |
| `Params.Settings.Get` | src/lib.rs:117-122 | index 0 reports the amplitude; every other index reports 0 |
| `Params.Settings.Set` | src/lib.rs:125-133 | index 0, 1, 2 replace amplitude, feedback, delay time and nothing else; any other index changes nothing; wet and dry are never written |
| `Params.ParameterName` | src/lib.rs:147-155 | the name is non-empty exactly for indices 0, 1 and 2, the indices `set_parameter` acts on |
| `Params.SetThenGet` | src/lib.rs:117-133 | get after set returns the written value if and only if the index is 0 or the value is 0 |
| `Params.WetAndDryNeverChange` | src/lib.rs:125-133 | after any sequence of host writes, wet and dry still hold their initial values |
| `Params.ReportedAfterWrites` | src/lib.rs:117-133 | after any sequence of writes, index 0 reports the last value written to index 0, or the initial amplitude if there was none; every other index reports 0 |
| `DelayLine.ActiveLength` | src/lib.rs:100 | the cast gives 0 for a non-positive delay, the floor of `delay_time*44100` within range, and never more than the largest `usize` |
| `DelayLine.WindowExceedsBuffer` | src/lib.rs:6-8 | the active length exceeds `DELAY_LINE_LEN` if and only if `delay_time*44100 >= DELAY_LINE_LEN + 1` |
| `DelayLine.Advance` | src/lib.rs:99-102 | the cursor becomes `index+1` exactly when that is below the length, else 0; with length at least 1 it lands in `[0, len)`; with length 0 it is 0 |
| `DelayLine.Step` | src/lib.rs:94-102 | the output uses the slot's value from before the write; only the slot under the cursor changes, to `feedback + delayed*input`; every other slot keeps its value; the cursor advances |
| `DelayLine.Run` | src/lib.rs:93-104 | a completed run keeps the buffer length and gives one output per input; a panic names a sample of the stream |
| `DelayLine.RunAppend` | src/lib.rs:93-104 | running over `xs + zs` is running over `xs` and then over `zs` from where it stopped; a panic ends the run |
| `DelayLine.RunInBounds` | src/lib.rs:94-102 | with active length at most the buffer length and the cursor in the buffer, no read or write goes out of bounds and the cursor stays in the buffer |
| `DelayLine.CursorInWindow` | src/lib.rs:99-102 | after any non-empty run the cursor lies in `[0, len)`, or is 0 when the length is 0 |
| `DelayLine.RunPastBuffer` | src/lib.rs:94-102 | with active length above the buffer length and cursor 0, a run panics if and only if it has more samples than the buffer has slots, at the read of slot `|buf|` |
| `DelayLine.FirstLap` | src/lib.rs:94-98 | from a zero buffer, for the first `len` samples, each output is `input*dry*amplitude` and each written slot holds `feedback` alone |
| `DelayLine.SilenceEchoesFeedback` | src/lib.rs:94-98 | from a zero buffer, `len+1` zero inputs give `len` zero outputs followed by `feedback*wet*amplitude` |
| `Engine.Capture` | src/lib.rs:80-84 | the call reads amplitude, dry, wet and feedback as they are and the active length as `ActiveLength(delay_time)`, which exceeds the buffer exactly when `delay_time*44100 >= DELAY_LINE_LEN + 1` |
| `Engine.Pass` | src/lib.rs:90-105 | a completed block gives one output buffer per channel |
| `Engine.PassShape` | src/lib.rs:90-105 | a completed block keeps the buffer length; each output buffer keeps the host's length and its samples beyond the zipped length; a panic names an existing channel and sample |
| `Engine.PassIsOneStream` | src/lib.rs:86-105 | the cursor and buffer left by one channel are the ones the next channel starts from: a block panics if and only if the concatenated stream does, at the same position, and otherwise gives that stream's final line and outputs |
| `Engine.PassFromSilence` | src/lib.rs:84-102 | from the zero buffer and cursor 0: with active length at most `DELAY_LINE_LEN` no block panics; above it, a block panics if and only if it has more than `DELAY_LINE_LEN` samples, at total position `DELAY_LINE_LEN` |
| `Engine.PanicPersists` | src/lib.rs:94 | once the earlier channels of a block panic, the whole call ends with that panic |
| `Engine.DoubleDelay.constructor` | src/lib.rs:51-59 | new: default parameters, a fresh zero-filled buffer of 441000 slots, cursor 0 |
| `Engine.DoubleDelay.Process` | src/lib.rs:78-106 | the result is `Pass` over the block, run on the copied buffer and cursor, which are the zero buffer and cursor 0; the object is not modified; the call never panics when the active length fits in the buffer, and otherwise panics if and only if the block has more than `DELAY_LINE_LEN` samples |
| `Engine.ProcessTwice` | src/lib.rs:85-86 | two calls on the same block give the same result: nothing is carried from one call to the next |

## Left out

- Host plumbing is left out: `plugin_main!`, the `get_info` metadata, the `Arc`
  cloning in `get_parameter_object` and the host callback passed to `new`. It has
  no logic of its own.
- `AudioBuffer::zip` is left out. The block is given already paired, one
  `Channel` (input samples, output buffer) per channel. Inside a channel the model
  keeps the zip's stop at the shorter of input and output (`Zipped`).
- Atomic and `Arc` sharing of the parameters is not modelled: concurrency is not
  part of the engine's logic. Each control is a plain field, read once at the
  start of `Process`, as the code reads it.
- IEEE-754 `f32` arithmetic is not modelled. Samples and controls are exact
  reals, so rounding, NaN, infinities and denormals are absent. This includes the
  rounding of the product `delay_time * 44100`: `ActiveLength` casts the exact
  product.
- `get_parameter_text` is left out: it only formats numbers as text.
- `Engine.DoubleDelay.Process`: on a panic it reports only the channel and sample
  of the failing read. It does not describe the output samples already written to
  the host's buffers before that read, nor what unwinding does at the host
  boundary.
- `DelayLine.ActiveLength` assumes a 64-bit `usize`.
