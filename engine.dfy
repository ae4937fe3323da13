/** The plugin object `doubleDelay` and its `process` callback: one delay buffer
    and one cursor, shared by every channel of the host's audio block. */
module Engine {
  import opened Params
  import opened DelayLine

  /** One channel of the host's audio block: its input samples and the output
      buffer the host hands in to be overwritten. */
  datatype Channel = Channel(input: seq<real>, output: seq<real>)

  /** Number of samples processed on a channel: pairing inputs with outputs stops
      at the shorter of the two. */
  function Zipped(ch: Channel): nat
  {
    if |ch.input| <= |ch.output| then |ch.input| else |ch.output|
  }

  /** What one call to `process` leaves: the line in its local copy and the host's
      output buffers, or the channel and sample at which it panicked. */
  datatype PassResult = Passed(line: Line, outputs: seq<seq<real>>) | PanicAt(channel: nat, sample: nat)

  /** What the host observes of one call: the output buffers, or a panic. */
  datatype Outcome = Completed(outputs: seq<seq<real>>) | Panicked(channel: nat, sample: nat)

  function Observed(p: PassResult): Outcome
  {
    match p
    case Passed(_, outs) => Completed(outs)
    case PanicAt(c, k) => Panicked(c, k)
  }

  /** The mix levels and active length read from the parameters at the start of a
      call: the four levels as they are, the delay time through the cast to a
      sample count. */
  function Capture(p: Settings): (s: Snapshot)
    ensures s.amplitude == p.amplitude && s.dry == p.dry && s.wet == p.wet && s.feedback == p.feedback
    ensures s.len == ActiveLength(p.delayTime)
    ensures s.len > DelayLineLen <==> p.delayTime * SampleRate as real >= (DelayLineLen + 1) as real
  {
    WindowExceedsBuffer(p.delayTime);
    Snapshot(p.amplitude, p.dry, p.wet, p.feedback, ActiveLength(p.delayTime))
  }

  /** The channels of a block, one after another: each channel carries on from the
      line the previous one left. Each output buffer gets the processed samples in
      front and keeps whatever lay beyond the zipped length. */
  function Pass(s: Snapshot, line0: Line, chans: seq<Channel>): (r: PassResult)
    ensures r.Passed? ==> |r.outputs| == |chans|
    decreases |chans|
  {
    if chans == [] then Passed(line0, [])
    else
      var ch := chans[|chans| - 1];
      var n := Zipped(ch);
      match Pass(s, line0, chans[..|chans| - 1])
      case PanicAt(c, k) => PanicAt(c, k)
      case Passed(line, outs) =>
        match Run(s, line, ch.input[..n])
        case OutOfBounds(k) => PanicAt(|chans| - 1, k)
        case Running(line', ys) => Passed(line', outs + [ys + ch.output[n..]])
  }

  /** A block that completes keeps the buffer's length and hands back one output
      buffer per channel, each as long as the host's and unchanged beyond the
      zipped length; a panic names a sample that exists. */
  lemma {:induction false} PassShape(s: Snapshot, line0: Line, chans: seq<Channel>)
    ensures var r := Pass(s, line0, chans);
      r.Passed? ==> |r.line.buf| == |line0.buf|
    ensures var r := Pass(s, line0, chans);
      r.Passed? ==> forall c | 0 <= c < |chans| ::
        |r.outputs[c]| == |chans[c].output| &&
        r.outputs[c][Zipped(chans[c])..] == chans[c].output[Zipped(chans[c])..]
    ensures var r := Pass(s, line0, chans);
      r.PanicAt? ==> r.channel < |chans| && r.sample < Zipped(chans[r.channel])
    decreases |chans|
  {
    if chans != [] {
      var m := |chans| - 1;
      PassShape(s, line0, chans[..m]);
      match Pass(s, line0, chans[..m])
      case PanicAt(c, k) =>
      case Passed(line, outs) =>
        var n := Zipped(chans[m]);
        match Run(s, line, chans[m].input[..n])
        case OutOfBounds(k) =>
        case Running(line', ys) =>
          var outs' := outs + [ys + chans[m].output[n..]];
          assert outs'[m][n..] == chans[m].output[n..];
    }
  }

  /** A channel processed to its end extends the block by one output buffer. */
  lemma ChannelCompletes(s: Snapshot, line0: Line, chans: seq<Channel>, c: nat, start: Line, outs: seq<seq<real>>, line: Line, ys: seq<real>)
    requires c < |chans|
    requires Pass(s, line0, chans[..c]) == Passed(start, outs)
    requires Run(s, start, chans[c].input[..Zipped(chans[c])]) == Running(line, ys)
    ensures Pass(s, line0, chans[..c + 1]) == Passed(line, outs + [ys + chans[c].output[Zipped(chans[c])..]])
  {
    assert chans[..c + 1][..c] == chans[..c];
  }

  /** All samples a block feeds the engine, channel after channel. */
  function Stream(chans: seq<Channel>): (xs: seq<real>)
    decreases |chans|
  {
    if chans == [] then []
    else
      var ch := chans[|chans| - 1];
      Stream(chans[..|chans| - 1]) + ch.input[..Zipped(ch)]
  }

  /** The processed samples of a block's output buffers, channel after channel. */
  function Written(chans: seq<Channel>, outs: seq<seq<real>>): seq<real>
    requires |outs| == |chans|
    decreases |chans|
  {
    if chans == [] then []
    else
      var m := |chans| - 1;
      Written(chans[..m], outs[..m]) + Front(outs[m], Zipped(chans[m]))
  }

  /** The first `n` samples of `xs`, or all of them when there are fewer. The
      output buffers `Pass` produces are never shorter than their zipped length
      (`PassShape`), so on them this is always the slice `xs[..n]`; the fallback
      only lets `OneStream` be stated without first proving those lengths. */
  function Front(xs: seq<real>, n: nat): seq<real>
  {
    if n <= |xs| then xs[..n] else xs
  }

  /** The cursor and the buffer are shared across channels: a block behaves as one
      stream made of its channels laid end to end. It panics exactly when that
      stream runs out of bounds, at the same position, and otherwise ends with the
      same line, its outputs being that stream's outputs cut back into channels. */
  ghost predicate OneStream(s: Snapshot, line0: Line, chans: seq<Channel>)
  {
    var r := Pass(s, line0, chans);
    var run := Run(s, line0, Stream(chans));
    && (r.Passed? <==> run.Running?)
    && (r.PanicAt? ==> r.channel < |chans| && run == OutOfBounds(|Stream(chans[..r.channel])| + r.sample))
    && (r.Passed? ==> run == Running(r.line, Written(chans, r.outputs)))
  }

  /** Every block, from every line, behaves as its channels laid end to end. */
  lemma {:induction false} PassIsOneStream(s: Snapshot, line0: Line, chans: seq<Channel>)
    ensures OneStream(s, line0, chans)
    decreases |chans|
  {
    if chans == [] {
      assert Stream(chans) == [];
    } else {
      var m := |chans| - 1;
      PassIsOneStream(s, line0, chans[..m]);
      match Pass(s, line0, chans[..m])
      case PanicAt(c, k) => OneStreamAfterPanic(s, line0, chans);
      case Passed(line, outs) => OneStreamAfterChannel(s, line0, chans);
    }
  }

  /** The inductive step of PassIsOneStream when the earlier channels panicked. */
  lemma OneStreamAfterPanic(s: Snapshot, line0: Line, chans: seq<Channel>)
    requires chans != []
    requires OneStream(s, line0, chans[..|chans| - 1])
    requires Pass(s, line0, chans[..|chans| - 1]).PanicAt?
    ensures OneStream(s, line0, chans)
  {
    var m := |chans| - 1;
    var prefix := chans[..m];
    var n := Zipped(chans[m]);
    RunAppend(s, line0, Stream(prefix), chans[m].input[..n]);
    var c := Pass(s, line0, prefix).channel;
    assert chans[..c] == prefix[..c];
  }

  /** The inductive step of PassIsOneStream when the earlier channels completed. */
  lemma OneStreamAfterChannel(s: Snapshot, line0: Line, chans: seq<Channel>)
    requires chans != []
    requires OneStream(s, line0, chans[..|chans| - 1])
    requires Pass(s, line0, chans[..|chans| - 1]).Passed?
    ensures OneStream(s, line0, chans)
  {
    var m := |chans| - 1;
    var prefix := chans[..m];
    var ch := chans[m];
    var n := Zipped(ch);
    var line := Pass(s, line0, prefix).line;
    if Run(s, line, ch.input[..n]).OutOfBounds? {
      LastChannelOverruns(s, line0, chans);
    } else {
      LastChannelRuns(s, line0, chans);
    }
  }

  /** The last channel of the block reads out of bounds. */
  lemma LastChannelOverruns(s: Snapshot, line0: Line, chans: seq<Channel>)
    requires chans != []
    requires OneStream(s, line0, chans[..|chans| - 1])
    requires var m := |chans| - 1; var p := Pass(s, line0, chans[..m]);
      p.Passed? && Run(s, p.line, chans[m].input[..Zipped(chans[m])]).OutOfBounds?
    ensures OneStream(s, line0, chans)
  {
    var m := |chans| - 1;
    RunAppend(s, line0, Stream(chans[..m]), chans[m].input[..Zipped(chans[m])]);
    assert chans[..m] == chans[..|chans| - 1];
  }

  /** The last channel of the block is processed to its end. */
  lemma LastChannelRuns(s: Snapshot, line0: Line, chans: seq<Channel>)
    requires chans != []
    requires OneStream(s, line0, chans[..|chans| - 1])
    requires var m := |chans| - 1; var p := Pass(s, line0, chans[..m]);
      p.Passed? && Run(s, p.line, chans[m].input[..Zipped(chans[m])]).Running?
    ensures OneStream(s, line0, chans)
  {
    var m := |chans| - 1;
    RunAppend(s, line0, Stream(chans[..m]), chans[m].input[..Zipped(chans[m])]);
    var prefix := chans[..m];
    var ch := chans[m];
    var n := Zipped(ch);
    var outs := Pass(s, line0, prefix).outputs;
    var line := Pass(s, line0, prefix).line;
    var run := Run(s, line, ch.input[..n]);
    var outs' := outs + [run.outputs + ch.output[n..]];
    assert Stream(chans) == Stream(prefix) + ch.input[..n];
    assert Run(s, line0, Stream(prefix)) == Running(line, Written(prefix, outs));
    assert Pass(s, line0, chans) == Passed(run.line, outs');
    WrittenExtend(chans, outs, run.outputs);
    assert Run(s, line0, Stream(chans)) == Running(run.line, Written(prefix, outs) + run.outputs);
  }

  /** One more channel's output buffer adds its processed samples to what was written. */
  lemma WrittenExtend(chans: seq<Channel>, outs: seq<seq<real>>, ys: seq<real>)
    requires chans != [] && |outs| == |chans| - 1 && |ys| == Zipped(chans[|chans| - 1])
    ensures var outs' := outs + [ys + chans[|chans| - 1].output[|ys|..]];
      Written(chans, outs') == Written(chans[..|chans| - 1], outs) + ys
  {
  }

  /** A block that processes more samples than the buffer holds, with an active
      length beyond the buffer, panics; with an active length within the buffer,
      no block panics. Both from the silent line every call starts from. */
  lemma PassFromSilence(s: Snapshot, chans: seq<Channel>)
    ensures s.len <= DelayLineLen ==> Pass(s, Silent(), chans).Passed?
    ensures s.len > DelayLineLen ==> (Pass(s, Silent(), chans).PanicAt? <==> |Stream(chans)| > DelayLineLen)
    ensures var r := Pass(s, Silent(), chans);
      r.PanicAt? ==> r.channel < |chans| && |Stream(chans[..r.channel])| + r.sample == DelayLineLen
  {
    PassIsOneStream(s, Silent(), chans);
    if s.len <= DelayLineLen {
      RunInBounds(s, Silent(), Stream(chans));
    } else {
      RunPastBuffer(s, Silent(), Stream(chans));
    }
  }

  /** Once a prefix of the channels panics, the whole block panics at the same place. */
  lemma {:induction false} PanicPersists(s: Snapshot, line0: Line, chans: seq<Channel>, j: nat)
    requires j <= |chans|
    requires Pass(s, line0, chans[..j]).PanicAt?
    ensures Pass(s, line0, chans) == Pass(s, line0, chans[..j])
    decreases |chans|
  {
    if j < |chans| {
      var prefix := chans[..|chans| - 1];
      assert prefix[..j] == chans[..j];
      PanicPersists(s, line0, prefix, j);
    } else {
      assert chans[..j] == chans;
    }
  }

  /** A read out of bounds at sample `k` of channel `c` ends the whole block there. */
  lemma ChannelPanics(s: Snapshot, line0: Line, chans: seq<Channel>, c: nat, start: Line, outs: seq<seq<real>>, k: nat)
    requires c < |chans| && k < Zipped(chans[c])
    requires Pass(s, line0, chans[..c]) == Passed(start, outs)
    requires Run(s, start, chans[c].input[..k]).Running?
    requires Run(s, start, chans[c].input[..k]).line.index >= |Run(s, start, chans[c].input[..k]).line.buf|
    ensures Pass(s, line0, chans) == PanicAt(c, k)
  {
    var input, n := chans[c].input, Zipped(chans[c]);
    assert input[..k + 1][..k] == input[..k];
    RunAppend(s, start, input[..k + 1], input[k + 1..n]);
    assert input[..k + 1] + input[k + 1..n] == input[..n];
    assert chans[..c + 1][..c] == chans[..c];
    PanicPersists(s, line0, chans, c + 1);
  }

  /** The plugin object `doubleDelay`. */
  class DoubleDelay {
    /** The parameter table, shared with the host. */
    const params: Parameters
    var delayLine: array<real>
    var delayIndex: nat

    /** The buffer has its fixed length and, since `process` works on a copy and
        never stores it back, it stays zero with the cursor at 0 for the object's
        whole life. */
    ghost predicate Valid()
      reads this, delayLine
    {
      && delayLine.Length == DelayLineLen
      && delayIndex == 0
      && forall i | 0 <= i < delayLine.Length :: delayLine[i] == 0.0
    }

    /** `new`: default parameters, a zero-filled buffer of `DelayLineLen` slots and
        the cursor at 0. */
    constructor ()
      ensures Valid() && fresh(params) && fresh(delayLine)
      ensures params.Current() == Defaults
      ensures delayLine[..] == Zeros(DelayLineLen) && delayIndex == 0
    {
      params := new Parameters();
      delayLine := new real[DelayLineLen](_ => 0.0);
      delayIndex := 0;
    }

    /** `process`: reads the parameters once, copies the buffer and the cursor into
        locals, and runs every sample of every channel through the one shared
        cursor. The copies are never stored back, so the object is left as it was
        and every call starts from the silent line. */
    method Process(chans: seq<Channel>) returns (r: Outcome)
      requires Valid()
      ensures r == Observed(Pass(Capture(params.Current()), Line(delayLine[..], delayIndex), chans))
      ensures r == Observed(Pass(Capture(params.Current()), Silent(), chans))
      ensures ActiveLength(params.delayTime) <= DelayLineLen ==> r.Completed?
      ensures ActiveLength(params.delayTime) > DelayLineLen ==> (r.Panicked? <==> |Stream(chans)| > DelayLineLen)
    {
      var s := Capture(params.Current());
      ghost var line0 := Line(delayLine[..], delayIndex);
      assert line0 == Silent();
      var saved := delayLine[..];
      var delayBuffer := new real[|saved|](i requires 0 <= i < |saved| => saved[i]);
      var index: nat := delayIndex;
      assert delayBuffer[..] == saved;

      var outs: seq<seq<real>> := [];
      var c := 0;
      while c < |chans|
        invariant 0 <= c <= |chans|
        invariant delayBuffer.Length == DelayLineLen
        invariant Pass(s, line0, chans[..c]) == Passed(Line(delayBuffer[..], index), outs)
      {
        var input, output := chans[c].input, chans[c].output;
        var n := Zipped(chans[c]);
        ghost var start := Line(delayBuffer[..], index);
        var ys: seq<real> := [];
        var k := 0;
        while k < n
          invariant 0 <= k <= n
          invariant delayBuffer.Length == DelayLineLen
          invariant Run(s, start, input[..k]) == Running(Line(delayBuffer[..], index), ys)
        {
          if index >= delayBuffer.Length {
            // indexing past the end of the buffer panics in Rust
            ChannelPanics(s, line0, chans, c, start, outs, k);
            r := Panicked(c, k);
            PassFromSilence(s, chans);
            return;
          }
          ghost var before := Line(delayBuffer[..], index);
          RunExtend(s, start, input, k, before, ys);
          var delayed := delayBuffer[index];
          ys := ys + [Mix(s, input[k], delayed)];
          delayBuffer[index] := Feed(s, input[k], delayed);
          index := index + 1;
          if index >= s.len {
            index := 0;
          }
          assert Line(delayBuffer[..], index) == Step(s, before, input[k]).0;
          k := k + 1;
        }
        ChannelCompletes(s, line0, chans, c, start, outs, Line(delayBuffer[..], index), ys);
        outs := outs + [ys + output[n..]];
        c := c + 1;
      }
      assert chans[..c] == chans;
      r := Completed(outs);
      PassFromSilence(s, chans);
    }
  }

  /** Two calls with the same block give the same result: no state is carried from
      one call to the next. */
  method ProcessTwice(engine: DoubleDelay, chans: seq<Channel>) returns (first: Outcome, second: Outcome)
    requires engine.Valid()
    ensures first == second
  {
    first := engine.Process(chans);
    second := engine.Process(chans);
  }
}
