/** The effect's parameter table: five scalar controls that the host reads and
    writes by index. The source keeps each control in its own atomic cell; here
    each is a plain field, and a read of all five at once is a `Settings` value. */
module Params {

  /** The five controls at one moment. */
  datatype Settings = Settings(amplitude: real, delayTime: real, wet: real, dry: real, feedback: real)
  {
    /** get_parameter: only index 0 reports its control; every other index reads as 0. */
    function Get(index: int): (v: real)
      ensures index == 0 ==> v == amplitude
      ensures index != 0 ==> v == 0.0
    {
      if index == 0 then amplitude else 0.0
    }

    /** set_parameter: index 0 writes the amplitude, 1 the feedback, 2 the delay
        time; any other index is ignored. Nothing can write the wet or dry level. */
    function Set(index: int, value: real): (r: Settings)
      ensures r.wet == wet && r.dry == dry
      ensures index == 0 ==> r == this.(amplitude := value)
      ensures index == 1 ==> r == this.(feedback := value)
      ensures index == 2 ==> r == this.(delayTime := value)
      ensures index < 0 || 2 < index ==> r == this
    {
      match index
      case 0 => this.(amplitude := value)
      case 1 => this.(feedback := value)
      case 2 => this.(delayTime := value)
      case _ => this
    }
  }

  /** The values `Default::default` gives every control. */
  const Defaults := Settings(amplitude := 0.5, delayTime := 1.0, wet := 0.5, dry := 0.5, feedback := 0.3)

  /** get_parameter_name: the three controls the host can set have names, every
      other index has the empty name. */
  function ParameterName(index: int): (name: string)
    ensures name != "" <==> 0 <= index <= 2
  {
    match index
    case 0 => "Amplitude"
    case 1 => "feedback"
    case 2 => "Time"
    case _ => ""
  }

  /** A write made by the host through set_parameter. */
  datatype Write = Write(index: int, value: real)

  /** The settings after the host's writes, applied in order. */
  function ApplyAll(s: Settings, writes: seq<Write>): Settings
    decreases |writes|
  {
    if writes == [] then s
    else
      var last := writes[|writes| - 1];
      ApplyAll(s, writes[..|writes| - 1]).Set(last.index, last.value)
  }

  /** The value last written to control `index`, or `initial` when none was. */
  function LastValue(writes: seq<Write>, index: int, initial: real): real
    decreases |writes|
  {
    if writes == [] then initial
    else if writes[|writes| - 1].index == index then writes[|writes| - 1].value
    else LastValue(writes[..|writes| - 1], index, initial)
  }

  /** Setting then getting one index gives the value back exactly when the index
      is 0 (the amplitude), or when the value written happens to be 0. */
  lemma SetThenGet(s: Settings, index: int, value: real)
    ensures s.Set(index, value).Get(index) == value <==> index == 0 || value == 0.0
  {
  }

  /** Whatever the host writes, the wet and dry levels keep their initial values. */
  lemma {:induction false} WetAndDryNeverChange(s: Settings, writes: seq<Write>)
    ensures ApplyAll(s, writes).wet == s.wet
    ensures ApplyAll(s, writes).dry == s.dry
  {
    if writes != [] {
      WetAndDryNeverChange(s, writes[..|writes| - 1]);
    }
  }

  /** After any writes, get_parameter(0) reports the last value written to index 0,
      and every other index still reports 0. */
  lemma {:induction false} ReportedAfterWrites(s: Settings, writes: seq<Write>, index: int)
    ensures ApplyAll(s, writes).Get(index) == if index == 0 then LastValue(writes, 0, s.amplitude) else 0.0
  {
    if writes != [] {
      ReportedAfterWrites(s, writes[..|writes| - 1], index);
    }
  }

  /** DelayEffectParameters: the controls, each updated in place by the host. */
  class Parameters {
    var amplitude: real
    var delayTime: real
    var wet: real
    var dry: real
    var feedback: real

    /** The current value of every control. */
    function Current(): Settings
      reads this
    {
      Settings(amplitude, delayTime, wet, dry, feedback)
    }

    /** Default::default. */
    constructor ()
      ensures Current() == Defaults
    {
      amplitude := 0.5;
      delayTime := 1.0;
      wet := 0.5;
      dry := 0.5;
      feedback := 0.3;
    }

    /** set_parameter: writes at most one control, the one `index` selects. */
    method SetParameter(index: int, value: real)
      modifies this
      ensures Current() == old(Current()).Set(index, value)
    {
      match index
      case 0 => amplitude := value;
      case 1 => feedback := value;
      case 2 => delayTime := value;
      case _ =>
    }
  }
}
