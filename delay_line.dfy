/** The per-sample delay-line algorithm as pure functions: one step reads the
    slot under the cursor, mixes the output, overwrites that slot and advances
    the cursor; a run is a sequence of steps, which stops at the first read past
    the end of the buffer (where indexing panics in Rust). */
module DelayLine {

  const SampleRate: nat := 44100
  const MaxDelayTime: nat := 10
  /** Number of slots in the delay buffer: ten seconds at 44.1 kHz. */
  const DelayLineLen: nat := MaxDelayTime * SampleRate
  /** The largest `usize` on a 64-bit target. */
  const UsizeMax: nat := 0x1_0000_0000_0000_0000 - 1

  /** The part of the parameters `process` reads once per call: the mix levels and
      the active length of the loop (`samples_len as usize`). */
  datatype Snapshot = Snapshot(amplitude: real, dry: real, wet: real, feedback: real, len: nat)

  /** The delay buffer together with the read/write cursor. */
  datatype Line = Line(buf: seq<real>, index: nat)

  /** The result of running the algorithm over a stream of input samples: the line
      and the outputs so far, or the position of the sample whose read was out of
      bounds. */
  datatype RunResult = Running(line: Line, outputs: seq<real>) | OutOfBounds(at: nat)

  /** `n` zero samples. */
  function Zeros(n: nat): (z: seq<real>)
    ensures |z| == n && forall i | 0 <= i < n :: z[i] == 0.0
  {
    seq(n, _ => 0.0)
  }

  /** The buffer and cursor as construction leaves them. */
  function Silent(): Line
  {
    Line(Zeros(DelayLineLen), 0)
  }

  /** `(delay_time * SAMPLE_RATE) as usize`: Rust's float-to-integer cast truncates
      toward zero and saturates, so a non-positive product gives 0 and a product
      beyond the range gives the largest `usize`. */
  function ActiveLength(delayTime: real): (len: nat)
    ensures delayTime <= 0.0 ==> len == 0
    ensures 0.0 <= delayTime * SampleRate as real < UsizeMax as real ==>
              len as real <= delayTime * SampleRate as real < len as real + 1.0
    ensures len <= UsizeMax
  {
    var x := delayTime * SampleRate as real;
    if x <= 0.0 then 0
    else if x >= UsizeMax as real then UsizeMax
    else x.Floor
  }

  /** The active length exceeds the buffer exactly when the delay time is at least
      one sample longer than ten seconds. */
  lemma WindowExceedsBuffer(delayTime: real)
    ensures ActiveLength(delayTime) > DelayLineLen <==> delayTime * SampleRate as real >= (DelayLineLen + 1) as real
  {
  }

  /** The cursor update: `index + 1`, or 0 once that reaches the active length. */
  function Advance(index: nat, len: nat): (next: nat)
    ensures next == 0 || next == index + 1
    ensures next == index + 1 <==> index + 1 < len
    ensures 1 <= len ==> next < len
    ensures len == 0 ==> next == 0
  {
    if index + 1 >= len then 0 else index + 1
  }

  /** The output sample: the live input at the dry level plus the delayed sample at
      the wet level, scaled by the amplitude. */
  function Mix(s: Snapshot, x: real, delayed: real): real
  {
    ((x * s.dry) + (delayed * s.wet)) * s.amplitude
  }

  /** The value written back into the slot just read. */
  function Feed(s: Snapshot, x: real, delayed: real): real
  {
    s.feedback + delayed * x
  }

  /** One sample: the output is computed from the slot under the cursor as it was
      before this step, only that slot is overwritten (with feedback plus the
      delayed sample times the input), and the cursor advances. */
  function Step(s: Snapshot, line: Line, x: real): (r: (Line, real))
    requires line.index < |line.buf|
    ensures |r.0.buf| == |line.buf|
    ensures r.0.buf[line.index] == s.feedback + line.buf[line.index] * x
    ensures forall i | 0 <= i < |line.buf| && i != line.index :: r.0.buf[i] == line.buf[i]
    ensures r.0.index == Advance(line.index, s.len)
    ensures r.1 == ((x * s.dry) + (line.buf[line.index] * s.wet)) * s.amplitude
  {
    var delayed := line.buf[line.index];
    (Line(line.buf[line.index := Feed(s, x, delayed)], Advance(line.index, s.len)), Mix(s, x, delayed))
  }

  /** The algorithm over a stream of input samples, one step per sample, stopping
      at the first sample whose read would be past the end of the buffer. */
  function Run(s: Snapshot, line0: Line, xs: seq<real>): (r: RunResult)
    ensures r.Running? ==> |r.line.buf| == |line0.buf| && |r.outputs| == |xs|
    ensures r.OutOfBounds? ==> r.at < |xs|
    decreases |xs|
  {
    if xs == [] then Running(line0, [])
    else
      match Run(s, line0, xs[..|xs| - 1])
      case OutOfBounds(k) => OutOfBounds(k)
      case Running(line, ys) =>
        if line.index < |line.buf| then
          var (next, y) := Step(s, line, xs[|xs| - 1]);
          Running(next, ys + [y])
        else
          OutOfBounds(|xs| - 1)
  }

  /** One more sample of a run that is still in bounds is one more step. */
  lemma RunExtend(s: Snapshot, line0: Line, xs: seq<real>, k: nat, line: Line, ys: seq<real>)
    requires k < |xs|
    requires Run(s, line0, xs[..k]) == Running(line, ys)
    requires line.index < |line.buf|
    ensures Run(s, line0, xs[..k + 1]) == Running(Step(s, line, xs[k]).0, ys + [Step(s, line, xs[k]).1])
  {
    assert xs[..k + 1][..k] == xs[..k];
  }

  /** Running on from where a first run left off. */
  function Then(s: Snapshot, first: RunResult, zs: seq<real>, offset: nat): RunResult
  {
    match first
    case OutOfBounds(k) => OutOfBounds(k)
    case Running(line, ys) =>
      match Run(s, line, zs)
      case OutOfBounds(k) => OutOfBounds(offset + k)
      case Running(line', ys') => Running(line', ys + ys')
  }

  /** Running over `xs + zs` is running over `xs` and then over `zs` from the line
      `xs` left behind; once a run is out of bounds, more input changes nothing. */
  lemma {:induction false} RunAppend(s: Snapshot, line0: Line, xs: seq<real>, zs: seq<real>)
    ensures Run(s, line0, xs + zs) == Then(s, Run(s, line0, xs), zs, |xs|)
    decreases |zs|
  {
    if zs == [] {
      assert xs + zs == xs;
      match Run(s, line0, xs)
      case OutOfBounds(_) =>
      case Running(line, ys) => assert ys + [] == ys;
    } else {
      var zs' := zs[..|zs| - 1];
      assert (xs + zs)[..|xs + zs| - 1] == xs + zs';
      assert (xs + zs)[|xs + zs| - 1] == zs[|zs| - 1];
      RunAppend(s, line0, xs, zs');
      match Run(s, line0, xs)
      case OutOfBounds(_) =>
      case Running(line, ys) =>
        match Run(s, line, zs')
        case OutOfBounds(_) =>
        case Running(line', ys') =>
          if line'.index < |line'.buf| {
            var (next, y) := Step(s, line', zs[|zs| - 1]);
            assert ys + (ys' + [y]) == (ys + ys') + [y];
          }
    }
  }

  /** When the active length fits in the buffer and the cursor starts inside it,
      every read and write is in bounds and the cursor stays inside the buffer. */
  lemma {:induction false} RunInBounds(s: Snapshot, line0: Line, xs: seq<real>)
    requires s.len <= |line0.buf|
    requires line0.index < |line0.buf|
    ensures Run(s, line0, xs).Running?
    ensures Run(s, line0, xs).line.index < |line0.buf|
    decreases |xs|
  {
    if xs != [] {
      RunInBounds(s, line0, xs[..|xs| - 1]);
    }
  }

  /** After at least one sample the cursor lies in `[0, len)`, or is 0 when the
      active length is 0. */
  lemma CursorInWindow(s: Snapshot, line0: Line, xs: seq<real>)
    requires xs != [] && Run(s, line0, xs).Running?
    ensures 1 <= s.len ==> Run(s, line0, xs).line.index < s.len
    ensures s.len == 0 ==> Run(s, line0, xs).line.index == 0
  {
  }

  /** When the active length exceeds the buffer, a run from cursor 0 never wraps:
      it reads slots 0, 1, 2, ... and goes out of bounds exactly when it has more
      samples than the buffer has slots, at the sample that reads one past the end. */
  lemma {:induction false} RunPastBuffer(s: Snapshot, line0: Line, xs: seq<real>)
    requires s.len > |line0.buf|
    requires line0.index == 0
    ensures |xs| <= |line0.buf| ==> Run(s, line0, xs).Running? && Run(s, line0, xs).line.index == |xs|
    ensures |xs| > |line0.buf| ==> Run(s, line0, xs) == OutOfBounds(|line0.buf|)
    decreases |xs|
  {
    if xs != [] {
      RunPastBuffer(s, line0, xs[..|xs| - 1]);
    }
  }

  /** From the silent line, the first lap of the loop (at most `len` samples, all in
      bounds) hears no echo: each output is the dry input scaled by the amplitude,
      and each slot written so far holds the feedback level alone, whatever the
      input was. */
  lemma {:induction false} FirstLap(s: Snapshot, n: nat, xs: seq<real>)
    requires |xs| <= s.len && |xs| <= n
    ensures Run(s, Line(Zeros(n), 0), xs).Running?
    ensures var r := Run(s, Line(Zeros(n), 0), xs);
      && r.line.index == (if |xs| == s.len then 0 else |xs|)
      && (forall k | 0 <= k < |xs| :: r.outputs[k] == xs[k] * s.dry * s.amplitude)
      && (forall k | 0 <= k < |xs| :: r.line.buf[k] == s.feedback)
      && (forall k | |xs| <= k < n :: r.line.buf[k] == 0.0)
    decreases |xs|
  {
    if xs != [] {
      var xs' := xs[..|xs| - 1];
      FirstLap(s, n, xs');
      var r' := Run(s, Line(Zeros(n), 0), xs');
      assert r'.line.index == |xs'|;
      var (next, y) := Step(s, r'.line, xs[|xs| - 1]);
      assert r'.line.buf[|xs'|] == 0.0;
      assert y == xs[|xs| - 1] * s.dry * s.amplitude;
      var r := Run(s, Line(Zeros(n), 0), xs);
      assert r.outputs == r'.outputs + [y];
      forall k | 0 <= k < |xs|
        ensures r.outputs[k] == xs[k] * s.dry * s.amplitude
      {
        if k < |xs'| {
          assert r.outputs[k] == r'.outputs[k];
          assert xs[k] == xs'[k];
        }
      }
    }
  }

  /** Silence does not stay silent: from the silent line, one full lap of zero input
      stores the feedback level in every slot, so the next zero sample comes out
      as feedback times wet times amplitude. */
  lemma SilenceEchoesFeedback(s: Snapshot, n: nat)
    requires 1 <= s.len <= n
    ensures Run(s, Line(Zeros(n), 0), Zeros(s.len + 1)).Running?
    ensures Run(s, Line(Zeros(n), 0), Zeros(s.len + 1)).outputs == Zeros(s.len) + [s.feedback * s.wet * s.amplitude]
  {
    var xs := Zeros(s.len + 1);
    var xs' := xs[..s.len];
    assert xs' == Zeros(s.len);
    FirstLap(s, n, xs');
    var r' := Run(s, Line(Zeros(n), 0), xs');
    assert r'.outputs == Zeros(s.len);
    var (next, y) := Step(s, r'.line, 0.0);
    assert y == s.feedback * s.wet * s.amplitude;
  }
}
