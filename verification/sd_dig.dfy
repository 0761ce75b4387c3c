/** The Keysight SD_DIG digitizer driver's shadow configuration. The vendor
    library takes whole groups of settings at once, so the driver keeps one
    shadow value per setting and channel; each setter changes one shadow
    value and re-sends its group. The library itself is not modelled: its
    calls are recorded as `LibCall` values. */
module SdDig {
  import opened Base

  /** One channel's shadow values. `fullScale` and `threshold` are volts;
      the others are the library's integer codes. */
  datatype Shadow = Shadow(
    fullScale: real,
    impedance: int,
    coupling: int,
    prescaler: int,
    triggerMode: int,
    threshold: real,
    pointsPerCycle: int,
    nCycles: int,
    triggerDelay: int,
    digitalTriggerMode: int,
    digitalTriggerSource: int,
    analogTriggerMask: int,
    externalSource: int,
    triggerBehaviour: int,
    nPoints: int,
    timeout: int)

  /** The shadow arrays, transposed: one record per channel. */
  datatype Digitizer = Digitizer(channels: seq<Shadow>)

  /** The names of the shadow values, for stating what a call leaves alone. */
  datatype Field =
    | FullScale | Impedance | Coupling | Prescaler | TriggerMode | TriggerThreshold
    | PointsPerCycle | NCycles | TriggerDelay
    | DigitalTriggerMode | DigitalTriggerSource | AnalogTriggerMask
    | ExternalSource | TriggerBehaviour | NPoints | Timeout

  /** A shadow value by name (integers seen as reals, which loses nothing
      when comparing). */
  function Project(s: Shadow, f: Field): real {
    match f
    case FullScale => s.fullScale
    case Impedance => s.impedance as real
    case Coupling => s.coupling as real
    case Prescaler => s.prescaler as real
    case TriggerMode => s.triggerMode as real
    case TriggerThreshold => s.threshold
    case PointsPerCycle => s.pointsPerCycle as real
    case NCycles => s.nCycles as real
    case TriggerDelay => s.triggerDelay as real
    case DigitalTriggerMode => s.digitalTriggerMode as real
    case DigitalTriggerSource => s.digitalTriggerSource as real
    case AnalogTriggerMask => s.analogTriggerMask as real
    case ExternalSource => s.externalSource as real
    case TriggerBehaviour => s.triggerBehaviour as real
    case NPoints => s.nPoints as real
    case Timeout => s.timeout as real
  }

  /** Two records agree everywhere except possibly at `f`. */
  predicate SameExcept(a: Shadow, b: Shadow, f: Field) {
    forall g: Field :: g != f ==> Project(a, g) == Project(b, g)
  }

  /** `e` differs from `d` at most in field `f` of channel `i`. */
  predicate ChangesOnly(d: Digitizer, e: Digitizer, i: nat, f: Field) {
    |e.channels| == |d.channels| && i < |d.channels|
    && (forall j :: 0 <= j < |d.channels| && j != i ==> e.channels[j] == d.channels[j])
    && SameExcept(d.channels[i], e.channels[i], f)
  }

  /** Python's list indexing: `-n <= i < 0` counts from the end; anything
      else outside `0 <= i < n` raises IndexError. */
  function PyIndex(i: int, n: nat): (r: Option<nat>)
    ensures r.Some? <==> -(n as int) <= i < n
    ensures r.Some? ==> r.value < n && (r.value == i || r.value == i + n)
  {
    if 0 <= i < n then Some(i)
    else if -(n as int) <= i < 0 then Some(i + n)
    else None
  }

  /** The channel `channel` names, which must exist. */
  function Current(d: Digitizer, channel: int): Shadow
    requires PyIndex(channel, |d.channels|).Some?
  {
    d.channels[PyIndex(channel, |d.channels|).value]
  }

  /** Calls into the vendor library. The channel argument is passed as the
      caller gave it, negative or not. */
  datatype LibCall =
    | PrescalerConfig(channel: int, prescaler: int)
    | InputConfig(channel: int, fullScale: real, impedance: int, coupling: int)
    | TriggerConfig(channel: int, analogTriggerMask: int, threshold: real)
    | DaqConfig(channel: int, pointsPerCycle: int, nCycles: int, triggerDelay: int, triggerMode: int)
    | DaqTriggerConfig(channel: int, digitalTriggerMode: int, digitalTriggerSource: int, analogTriggerMask: int)
    | DaqTriggerExternalConfig(channel: int, externalSource: int, triggerBehaviour: int)
    | DaqRead(channel: int, nPoints: int, timeout: int)
    | QueryPrescaler(channel: int)
    | QueryFullScale(channel: int)
    | QueryImpedance(channel: int)
    | QueryCoupling(channel: int)

  /** The groups the library takes at once, filled from one channel's shadow. */
  function InputCall(channel: int, s: Shadow): LibCall {
    InputConfig(channel, s.fullScale, s.impedance, s.coupling)
  }

  function TriggerCall(channel: int, s: Shadow): LibCall {
    TriggerConfig(channel, s.analogTriggerMask, s.threshold)
  }

  function DaqCall(channel: int, s: Shadow): LibCall {
    DaqConfig(channel, s.pointsPerCycle, s.nCycles, s.triggerDelay, s.triggerMode)
  }

  function DaqTriggerCall(channel: int, s: Shadow): LibCall {
    DaqTriggerConfig(channel, s.digitalTriggerMode, s.digitalTriggerSource, s.analogTriggerMask)
  }

  function ExternalCall(channel: int, s: Shadow): LibCall {
    DaqTriggerExternalConfig(channel, s.externalSource, s.triggerBehaviour)
  }

  /** One driver call: the new shadow state, the library calls made, and
      what the call returned or raised. */
  datatype Step<T> = Step(dig: Digitizer, calls: seq<LibCall>, result: Result<T>)

  /** What every setter promises: a bad channel raises IndexError before
      anything changes; otherwise exactly field `f` of that channel is set
      to `v`. */
  predicate Assigns(d: Digitizer, channel: int, r: Step<()>, f: Field, v: real) {
    (r.result.Ok? <==> PyIndex(channel, |d.channels|).Some?)
    && (r.result.Err? ==> r == Step(d, [], Err(IndexError)))
    && (r.result.Ok? ==>
          var i := PyIndex(channel, |d.channels|).value;
          ChangesOnly(d, r.dig, i, f) && Project(r.dig.channels[i], f) == v)
  }

  /** Replace channel `i`'s record. */
  function Put(d: Digitizer, i: nat, s: Shadow): Digitizer
    requires i < |d.channels|
  {
    Digitizer(d.channels[i := s])
  }

  // ---------------------------------------------------------------------------
  // Construction

  /** The shadow record before line 65 runs: the trigger mode still holds
      the library's rising-edge constant. */
  function FirstDefaults(risingEdge: int): Shadow {
    Shadow(1.0, 0, 0, 0, risingEdge, 0.0, 0, 0, 0, 0, 0, 0, 0, 0, 0, -1)
  }

  /** The shadow arrays set up by `__init__` for `n` channels: the trigger
      mode array is assigned twice, and the second assignment (all zeros)
      wins. `[x] * n` is empty for `n <= 0`. */
  function Init(n: int, risingEdge: int): (r: Digitizer)
    ensures |r.channels| == if n > 0 then n else 0
    ensures forall j :: 0 <= j < |r.channels| ==> r.channels[j].triggerMode == 0
    ensures forall j :: 0 <= j < |r.channels| ==> SameExcept(r.channels[j], FirstDefaults(risingEdge), TriggerMode)
  {
    var count := if n > 0 then n else 0;
    var first := seq(count, j => FirstDefaults(risingEdge));
    Digitizer(seq(count, j requires 0 <= j < count => first[j].(triggerMode := 0)))
  }

  /** The rising-edge constant leaves no trace: every channel starts with
      full scale 1 V, threshold 0 V, timeout -1 and every other value 0. */
  lemma InitDefaults(n: int, risingEdge: int, j: int)
    requires 0 <= j < n
    ensures Init(n, risingEdge) == Init(n, 0)
    ensures var s := Init(n, risingEdge).channels[j];
      s.fullScale == 1.0 && s.threshold == 0.0 && s.timeout == -1
      && forall f: Field :: f !in {FullScale, TriggerThreshold, Timeout} ==> Project(s, f) == 0.0
  {
    var s := Init(n, risingEdge).channels[j];
    assert SameExcept(s, FirstDefaults(risingEdge), TriggerMode);
    assert Project(s, FullScale) == 1.0 && Project(s, TriggerThreshold) == 0.0 && Project(s, Timeout) == -1.0;
  }

  // ---------------------------------------------------------------------------
  // channelPrescalerConfig

  /** `set_prescaler`: store, then send the prescaler. */
  function SetPrescaler(d: Digitizer, prescaler: int, channel: int): (r: Step<()>)
    ensures Assigns(d, channel, r, Prescaler, prescaler as real)
    ensures r.result.Ok? ==> r.calls == [PrescalerConfig(channel, Current(r.dig, channel).prescaler)]
  {
    match PyIndex(channel, |d.channels|)
    case None => Step(d, [], Err(IndexError))
    case Some(i) =>
      var s := d.channels[i].(prescaler := prescaler);
      Step(Put(d, i, s), [PrescalerConfig(channel, prescaler)], Ok(()))
  }

  /** `get_prescaler`: the library is asked first, then the reported value
      overwrites the shadow; a bad channel raises IndexError after the
      query was made. */
  function GetPrescaler(d: Digitizer, channel: int, reported: int): (r: Step<int>)
    ensures r.calls == [QueryPrescaler(channel)]
    ensures r.result.Ok? <==> PyIndex(channel, |d.channels|).Some?
    ensures r.result.Err? ==> r.dig == d && r.result.error == IndexError
    ensures r.result.Ok? ==> r.result.value == reported
    ensures r.result.Ok? ==> ChangesOnly(d, r.dig, PyIndex(channel, |d.channels|).value, Prescaler)
    ensures r.result.Ok? ==> Current(r.dig, channel).prescaler == reported
  {
    match PyIndex(channel, |d.channels|)
    case None => Step(d, [QueryPrescaler(channel)], Err(IndexError))
    case Some(i) =>
      Step(Put(d, i, d.channels[i].(prescaler := reported)), [QueryPrescaler(channel)], Ok(reported))
  }

  // ---------------------------------------------------------------------------
  // channelInputConfig

  /** `set_full_scale`: store, then send the channel's input triple. */
  function SetFullScale(d: Digitizer, fullScale: real, channel: int): (r: Step<()>)
    ensures Assigns(d, channel, r, FullScale, fullScale)
    ensures r.result.Ok? ==> r.calls == [InputCall(channel, Current(r.dig, channel))]
  {
    match PyIndex(channel, |d.channels|)
    case None => Step(d, [], Err(IndexError))
    case Some(i) =>
      var s := d.channels[i].(fullScale := fullScale);
      Step(Put(d, i, s), [InputCall(channel, s)], Ok(()))
  }

  /** `set_impedance`: store, then send the channel's input triple. */
  function SetImpedance(d: Digitizer, impedance: int, channel: int): (r: Step<()>)
    ensures Assigns(d, channel, r, Impedance, impedance as real)
    ensures r.result.Ok? ==> r.calls == [InputCall(channel, Current(r.dig, channel))]
  {
    match PyIndex(channel, |d.channels|)
    case None => Step(d, [], Err(IndexError))
    case Some(i) =>
      var s := d.channels[i].(impedance := impedance);
      Step(Put(d, i, s), [InputCall(channel, s)], Ok(()))
  }

  /** `set_coupling`: store, then send the channel's input triple. */
  function SetCoupling(d: Digitizer, coupling: int, channel: int): (r: Step<()>)
    ensures Assigns(d, channel, r, Coupling, coupling as real)
    ensures r.result.Ok? ==> r.calls == [InputCall(channel, Current(r.dig, channel))]
  {
    match PyIndex(channel, |d.channels|)
    case None => Step(d, [], Err(IndexError))
    case Some(i) =>
      var s := d.channels[i].(coupling := coupling);
      Step(Put(d, i, s), [InputCall(channel, s)], Ok(()))
  }

  /** `get_full_scale`: query, then overwrite the shadow with the report. */
  function GetFullScale(d: Digitizer, channel: int, reported: real): (r: Step<real>)
    ensures r.calls == [QueryFullScale(channel)]
    ensures r.result.Ok? <==> PyIndex(channel, |d.channels|).Some?
    ensures r.result.Err? ==> r.dig == d && r.result.error == IndexError
    ensures r.result.Ok? ==> r.result.value == reported
    ensures r.result.Ok? ==> ChangesOnly(d, r.dig, PyIndex(channel, |d.channels|).value, FullScale)
    ensures r.result.Ok? ==> Current(r.dig, channel).fullScale == reported
  {
    match PyIndex(channel, |d.channels|)
    case None => Step(d, [QueryFullScale(channel)], Err(IndexError))
    case Some(i) =>
      Step(Put(d, i, d.channels[i].(fullScale := reported)), [QueryFullScale(channel)], Ok(reported))
  }

  /** `get_impedance`: query, then overwrite the shadow with the report. */
  function GetImpedance(d: Digitizer, channel: int, reported: int): (r: Step<int>)
    ensures r.calls == [QueryImpedance(channel)]
    ensures r.result.Ok? <==> PyIndex(channel, |d.channels|).Some?
    ensures r.result.Err? ==> r.dig == d && r.result.error == IndexError
    ensures r.result.Ok? ==> r.result.value == reported
    ensures r.result.Ok? ==> ChangesOnly(d, r.dig, PyIndex(channel, |d.channels|).value, Impedance)
    ensures r.result.Ok? ==> Current(r.dig, channel).impedance == reported
  {
    match PyIndex(channel, |d.channels|)
    case None => Step(d, [QueryImpedance(channel)], Err(IndexError))
    case Some(i) =>
      Step(Put(d, i, d.channels[i].(impedance := reported)), [QueryImpedance(channel)], Ok(reported))
  }

  /** `get_coupling`: query, then overwrite the shadow with the report. */
  function GetCoupling(d: Digitizer, channel: int, reported: int): (r: Step<int>)
    ensures r.calls == [QueryCoupling(channel)]
    ensures r.result.Ok? <==> PyIndex(channel, |d.channels|).Some?
    ensures r.result.Err? ==> r.dig == d && r.result.error == IndexError
    ensures r.result.Ok? ==> r.result.value == reported
    ensures r.result.Ok? ==> ChangesOnly(d, r.dig, PyIndex(channel, |d.channels|).value, Coupling)
    ensures r.result.Ok? ==> Current(r.dig, channel).coupling == reported
  {
    match PyIndex(channel, |d.channels|)
    case None => Step(d, [QueryCoupling(channel)], Err(IndexError))
    case Some(i) =>
      Step(Put(d, i, d.channels[i].(coupling := reported)), [QueryCoupling(channel)], Ok(reported))
  }

  // ---------------------------------------------------------------------------
  // channelTriggerConfig

  /** `set_trigger_mode`: stores the mode in the array the DAQ trigger mode
      also uses, then sends the mask and threshold, not the mode. */
  function SetTriggerMode(d: Digitizer, mode: int, channel: int): (r: Step<()>)
    ensures Assigns(d, channel, r, TriggerMode, mode as real)
    ensures r.result.Ok? ==> r.calls == [TriggerCall(channel, Current(r.dig, channel))]
  {
    match PyIndex(channel, |d.channels|)
    case None => Step(d, [], Err(IndexError))
    case Some(i) =>
      var s := d.channels[i].(triggerMode := mode);
      Step(Put(d, i, s), [TriggerCall(channel, s)], Ok(()))
  }

  /** `get_trigger_mode`: the shadow value; no library call. */
  function GetTriggerMode(d: Digitizer, channel: int): (r: Result<int>)
    ensures r.Ok? <==> PyIndex(channel, |d.channels|).Some?
    ensures r.Err? ==> r.error == IndexError
    ensures r.Ok? ==> r.value as real == Project(Current(d, channel), TriggerMode)
  {
    match PyIndex(channel, |d.channels|)
    case None => Err(IndexError)
    case Some(i) => Ok(d.channels[i].triggerMode)
  }

  /** `set_trigger_threshold`: store, then send mask and threshold. */
  function SetTriggerThreshold(d: Digitizer, threshold: real, channel: int): (r: Step<()>)
    ensures Assigns(d, channel, r, TriggerThreshold, threshold)
    ensures r.result.Ok? ==> r.calls == [TriggerCall(channel, Current(r.dig, channel))]
  {
    match PyIndex(channel, |d.channels|)
    case None => Step(d, [], Err(IndexError))
    case Some(i) =>
      var s := d.channels[i].(threshold := threshold);
      Step(Put(d, i, s), [TriggerCall(channel, s)], Ok(()))
  }

  /** `get_trigger_threshold`: the shadow value; no library call. */
  function GetTriggerThreshold(d: Digitizer, channel: int): (r: Result<real>)
    ensures r.Ok? <==> PyIndex(channel, |d.channels|).Some?
    ensures r.Err? ==> r.error == IndexError
    ensures r.Ok? ==> r.value == Project(Current(d, channel), TriggerThreshold)
  {
    match PyIndex(channel, |d.channels|)
    case None => Err(IndexError)
    case Some(i) => Ok(d.channels[i].threshold)
  }

  // ---------------------------------------------------------------------------
  // DAQconfig

  /** `set_points_per_cycle`: store, then send the DAQ quadruple. */
  function SetPointsPerCycle(d: Digitizer, nPoints: int, channel: int): (r: Step<()>)
    ensures Assigns(d, channel, r, PointsPerCycle, nPoints as real)
    ensures r.result.Ok? ==> r.calls == [DaqCall(channel, Current(r.dig, channel))]
  {
    match PyIndex(channel, |d.channels|)
    case None => Step(d, [], Err(IndexError))
    case Some(i) =>
      var s := d.channels[i].(pointsPerCycle := nPoints);
      Step(Put(d, i, s), [DaqCall(channel, s)], Ok(()))
  }

  /** `set_n_cycles`: store, then send the DAQ quadruple. */
  function SetNCycles(d: Digitizer, nCycles: int, channel: int): (r: Step<()>)
    ensures Assigns(d, channel, r, NCycles, nCycles as real)
    ensures r.result.Ok? ==> r.calls == [DaqCall(channel, Current(r.dig, channel))]
  {
    match PyIndex(channel, |d.channels|)
    case None => Step(d, [], Err(IndexError))
    case Some(i) =>
      var s := d.channels[i].(nCycles := nCycles);
      Step(Put(d, i, s), [DaqCall(channel, s)], Ok(()))
  }

  /** `set_daq_trigger_delay`: store, then send the DAQ quadruple. */
  function SetDaqTriggerDelay(d: Digitizer, delay: int, channel: int): (r: Step<()>)
    ensures Assigns(d, channel, r, TriggerDelay, delay as real)
    ensures r.result.Ok? ==> r.calls == [DaqCall(channel, Current(r.dig, channel))]
  {
    match PyIndex(channel, |d.channels|)
    case None => Step(d, [], Err(IndexError))
    case Some(i) =>
      var s := d.channels[i].(triggerDelay := delay);
      Step(Put(d, i, s), [DaqCall(channel, s)], Ok(()))
  }

  /** `set_daq_trigger_mode`: store in the shared trigger-mode array, then
      send the DAQ quadruple. */
  function SetDaqTriggerMode(d: Digitizer, mode: int, channel: int): (r: Step<()>)
    ensures Assigns(d, channel, r, TriggerMode, mode as real)
    ensures r.result.Ok? ==> r.calls == [DaqCall(channel, Current(r.dig, channel))]
  {
    match PyIndex(channel, |d.channels|)
    case None => Step(d, [], Err(IndexError))
    case Some(i) =>
      var s := d.channels[i].(triggerMode := mode);
      Step(Put(d, i, s), [DaqCall(channel, s)], Ok(()))
  }

  // ---------------------------------------------------------------------------
  // DAQtriggerConfig

  /** `set_digital_trigger_mode`: store, then send the DAQ trigger triple. */
  function SetDigitalTriggerMode(d: Digitizer, mode: int, channel: int): (r: Step<()>)
    ensures Assigns(d, channel, r, DigitalTriggerMode, mode as real)
    ensures r.result.Ok? ==> r.calls == [DaqTriggerCall(channel, Current(r.dig, channel))]
  {
    match PyIndex(channel, |d.channels|)
    case None => Step(d, [], Err(IndexError))
    case Some(i) =>
      var s := d.channels[i].(digitalTriggerMode := mode);
      Step(Put(d, i, s), [DaqTriggerCall(channel, s)], Ok(()))
  }

  /** `set_digital_trigger_source`: store, then send the DAQ trigger triple. */
  function SetDigitalTriggerSource(d: Digitizer, source: int, channel: int): (r: Step<()>)
    ensures Assigns(d, channel, r, DigitalTriggerSource, source as real)
    ensures r.result.Ok? ==> r.calls == [DaqTriggerCall(channel, Current(r.dig, channel))]
  {
    match PyIndex(channel, |d.channels|)
    case None => Step(d, [], Err(IndexError))
    case Some(i) =>
      var s := d.channels[i].(digitalTriggerSource := source);
      Step(Put(d, i, s), [DaqTriggerCall(channel, s)], Ok(()))
  }

  /** `set_analog_trigger_mask`: store, then send the DAQ trigger triple. */
  function SetAnalogTriggerMask(d: Digitizer, mask: int, channel: int): (r: Step<()>)
    ensures Assigns(d, channel, r, AnalogTriggerMask, mask as real)
    ensures r.result.Ok? ==> r.calls == [DaqTriggerCall(channel, Current(r.dig, channel))]
  {
    match PyIndex(channel, |d.channels|)
    case None => Step(d, [], Err(IndexError))
    case Some(i) =>
      var s := d.channels[i].(analogTriggerMask := mask);
      Step(Put(d, i, s), [DaqTriggerCall(channel, s)], Ok(()))
  }

  // ---------------------------------------------------------------------------
  // DAQtriggerExternalConfig

  /** `set_ext_trigger_source`: store, then send source and behaviour. */
  function SetExtTriggerSource(d: Digitizer, source: int, channel: int): (r: Step<()>)
    ensures Assigns(d, channel, r, ExternalSource, source as real)
    ensures r.result.Ok? ==> r.calls == [ExternalCall(channel, Current(r.dig, channel))]
  {
    match PyIndex(channel, |d.channels|)
    case None => Step(d, [], Err(IndexError))
    case Some(i) =>
      var s := d.channels[i].(externalSource := source);
      Step(Put(d, i, s), [ExternalCall(channel, s)], Ok(()))
  }

  /** `set_ext_trigger_behaviour` as written: its first statement indexes an
      attribute the driver never creates, so every call raises
      AttributeError before storing or sending anything. */
  function SetExtTriggerBehaviourAsWritten(d: Digitizer, behaviour: int, channel: int): (r: Step<()>)
    ensures r.dig == d && r.calls == [] && r.result == Err(AttributeError)
  {
    Step(d, [], Err(AttributeError))
  }

  /** `set_ext_trigger_behaviour` as evidently intended: store the behaviour
      in its shadow, then send source and behaviour like its sibling. */
  function SetExtTriggerBehaviour(d: Digitizer, behaviour: int, channel: int): (r: Step<()>)
    ensures Assigns(d, channel, r, TriggerBehaviour, behaviour as real)
    ensures r.result.Ok? ==> r.calls == [ExternalCall(channel, Current(r.dig, channel))]
  {
    match PyIndex(channel, |d.channels|)
    case None => Step(d, [], Err(IndexError))
    case Some(i) =>
      var s := d.channels[i].(triggerBehaviour := behaviour);
      Step(Put(d, i, s), [ExternalCall(channel, s)], Ok(()))
  }

  // ---------------------------------------------------------------------------
  // DAQread

  /** `set_n_points`: store only; nothing is sent. */
  function SetNPoints(d: Digitizer, nPoints: int, channel: int): (r: Step<()>)
    ensures Assigns(d, channel, r, NPoints, nPoints as real)
    ensures r.calls == []
  {
    match PyIndex(channel, |d.channels|)
    case None => Step(d, [], Err(IndexError))
    case Some(i) => Step(Put(d, i, d.channels[i].(nPoints := nPoints)), [], Ok(()))
  }

  /** `set_timeout`: store only; nothing is sent. */
  function SetTimeout(d: Digitizer, timeout: int, channel: int): (r: Step<()>)
    ensures Assigns(d, channel, r, Timeout, timeout as real)
    ensures r.calls == []
  {
    match PyIndex(channel, |d.channels|)
    case None => Step(d, [], Err(IndexError))
    case Some(i) => Step(Put(d, i, d.channels[i].(timeout := timeout)), [], Ok(()))
  }

  /** `daq_read`: the point count and timeout come from the shadow, which is
      indexed before the call, so a bad DAQ number raises IndexError and
      nothing is sent. The shadow is not changed. */
  function ReadDaq(d: Digitizer, daq: int): (r: Step<()>)
    ensures r.dig == d
    ensures r.result.Ok? <==> PyIndex(daq, |d.channels|).Some?
    ensures r.result.Err? ==> r.calls == [] && r.result.error == IndexError
    ensures r.result.Ok? ==> r.calls == [DaqRead(daq, Current(d, daq).nPoints, Current(d, daq).timeout)]
  {
    match PyIndex(daq, |d.channels|)
    case None => Step(d, [], Err(IndexError))
    case Some(i) => Step(d, [DaqRead(daq, d.channels[i].nPoints, d.channels[i].timeout)], Ok(()))
  }

  // ---------------------------------------------------------------------------
  // Properties across calls

  /** A freshly set-up channel reads all points with timeout -1 (no limit). */
  lemma ReadDaqAfterInit(n: int, risingEdge: int, daq: int)
    requires 0 <= daq < n
    ensures ReadDaq(Init(n, risingEdge), daq).calls == [DaqRead(daq, 0, -1)]
  {
    InitDefaults(n, risingEdge, daq);
  }

  /** `daq_read` uses the last point count and timeout stored for the DAQ. */
  lemma ReadDaqUsesSettings(d: Digitizer, nPoints: int, timeout: int, daq: int)
    requires PyIndex(daq, |d.channels|).Some?
    ensures var d1 := SetNPoints(d, nPoints, daq).dig;
      var d2 := SetTimeout(d1, timeout, daq).dig;
      ReadDaq(d2, daq).calls == [DaqRead(daq, nPoints, timeout)]
  {
    var i := PyIndex(daq, |d.channels|).value;
    var d1 := SetNPoints(d, nPoints, daq).dig;
    assert Project(d1.channels[i], NPoints) == nPoints as real;
    var d2 := SetTimeout(d1, timeout, daq).dig;
    assert Project(d2.channels[i], Timeout) == timeout as real;
    assert Project(d2.channels[i], NPoints) == Project(d1.channels[i], NPoints);
  }

  /** `set_trigger_mode` and `set_daq_trigger_mode` share one shadow value:
      `get_trigger_mode` reports whichever was set last. */
  lemma TriggerModeAliasing(d: Digitizer, m1: int, m2: int, channel: int)
    requires PyIndex(channel, |d.channels|).Some?
    ensures GetTriggerMode(SetDaqTriggerMode(SetTriggerMode(d, m1, channel).dig, m2, channel).dig, channel) == Ok(m2)
    ensures GetTriggerMode(SetTriggerMode(SetDaqTriggerMode(d, m1, channel).dig, m2, channel).dig, channel) == Ok(m2)
  {
  }

  /** A mode stored by `set_trigger_mode` is the one the next DAQ
      configuration sends. */
  lemma TriggerModeReachesDaqConfig(d: Digitizer, mode: int, nCycles: int, channel: int)
    requires PyIndex(channel, |d.channels|).Some?
    ensures var d1 := SetTriggerMode(d, mode, channel).dig;
      SetNCycles(d1, nCycles, channel).calls[0].triggerMode == mode
  {
    var i := PyIndex(channel, |d.channels|).value;
    var d1 := SetTriggerMode(d, mode, channel).dig;
    assert Project(d1.channels[i], TriggerMode) == mode as real;
    var d2 := SetNCycles(d1, nCycles, channel).dig;
    assert Project(d2.channels[i], TriggerMode) == Project(d1.channels[i], TriggerMode);
  }

  /** `set_trigger_mode` does not send the mode: two different modes produce
      the same library call. */
  lemma TriggerModeNotSent(d: Digitizer, m1: int, m2: int, channel: int)
    ensures SetTriggerMode(d, m1, channel).calls == SetTriggerMode(d, m2, channel).calls
  {
    if PyIndex(channel, |d.channels|).Some? {
      var i := PyIndex(channel, |d.channels|).value;
      var a := SetTriggerMode(d, m1, channel).dig.channels[i];
      var b := SetTriggerMode(d, m2, channel).dig.channels[i];
      assert Project(a, AnalogTriggerMask) == Project(d.channels[i], AnalogTriggerMask) == Project(b, AnalogTriggerMask);
      assert Project(a, TriggerThreshold) == Project(d.channels[i], TriggerThreshold) == Project(b, TriggerThreshold);
    }
  }

  /** The input triple sent by one input setter carries the values the other
      two setters stored earlier. */
  lemma InputConfigCarriesEarlierSettings(d: Digitizer, impedance: int, coupling: int, fullScale: real, channel: int)
    requires PyIndex(channel, |d.channels|).Some?
    ensures var d1 := SetImpedance(d, impedance, channel).dig;
      var d2 := SetCoupling(d1, coupling, channel).dig;
      SetFullScale(d2, fullScale, channel).calls == [InputConfig(channel, fullScale, impedance, coupling)]
  {
    var i := PyIndex(channel, |d.channels|).value;
    var d1 := SetImpedance(d, impedance, channel).dig;
    assert Project(d1.channels[i], Impedance) == impedance as real;
    var d2 := SetCoupling(d1, coupling, channel).dig;
    assert Project(d2.channels[i], Coupling) == coupling as real;
    assert Project(d2.channels[i], Impedance) == Project(d1.channels[i], Impedance);
    var d3 := SetFullScale(d2, fullScale, channel).dig;
    assert Project(d3.channels[i], Impedance) == Project(d2.channels[i], Impedance);
    assert Project(d3.channels[i], Coupling) == Project(d2.channels[i], Coupling);
  }

  /** A getter that asks the library leaves the shadow as if the reported
      value had been set: the device's answer replaces what was stored. */
  lemma GetterOverridesSetter(d: Digitizer, stored: int, reported: int, channel: int)
    requires PyIndex(channel, |d.channels|).Some?
    ensures GetPrescaler(SetPrescaler(d, stored, channel).dig, channel, reported).dig
         == SetPrescaler(d, reported, channel).dig
  {
    var i := PyIndex(channel, |d.channels|).value;
    assert d.channels[i].(prescaler := stored).(prescaler := reported) == d.channels[i].(prescaler := reported);
    assert d.channels[i := d.channels[i].(prescaler := stored)][i := d.channels[i].(prescaler := reported)]
        == d.channels[i := d.channels[i].(prescaler := reported)];
  }

  /** As written, no trigger behaviour ever reaches the library: after any
      attempt to set it on a fresh digitizer, the external configuration
      still sends behaviour 0. */
  lemma ExtTriggerBehaviourNeverSent(n: int, risingEdge: int, behaviour: int, source: int, channel: int)
    requires 0 <= channel < n
    ensures var d := SetExtTriggerBehaviourAsWritten(Init(n, risingEdge), behaviour, channel).dig;
      SetExtTriggerSource(d, source, channel).calls == [DaqTriggerExternalConfig(channel, source, 0)]
  {
    InitDefaults(n, risingEdge, channel);
    var d := Init(n, risingEdge);
    var d1 := SetExtTriggerSource(d, source, channel).dig;
    assert Project(d1.channels[channel], TriggerBehaviour) == Project(d.channels[channel], TriggerBehaviour);
  }

  /** Corrected, the behaviour set is the one the external configuration
      sends, and the source sent is the one stored before. */
  lemma ExtTriggerBehaviourSent(d: Digitizer, behaviour: int, source: int, channel: int)
    requires PyIndex(channel, |d.channels|).Some?
    ensures var d1 := SetExtTriggerSource(d, source, channel).dig;
      SetExtTriggerBehaviour(d1, behaviour, channel).calls == [DaqTriggerExternalConfig(channel, source, behaviour)]
  {
    var i := PyIndex(channel, |d.channels|).value;
    var d1 := SetExtTriggerSource(d, source, channel).dig;
    assert Project(d1.channels[i], ExternalSource) == source as real;
    var d2 := SetExtTriggerBehaviour(d1, behaviour, channel).dig;
    assert Project(d2.channels[i], ExternalSource) == Project(d1.channels[i], ExternalSource);
  }
}
