/**
  The value-selection rule of one Kostal Piko sensor entity, as pure functions:
  which snapshot and which position a sensor type reads, and what one update
  does to the entity's state. The readings themselves are opaque (`T`).
 */
module Selection {
  import opened Optional
  import opened SensorTypes

  /** The positional arrays an update subscripts. */
  datatype Snapshot = Device | OwnConsumption | Info

  /** Python's `IndexError`: which array was subscripted, at which index, and its length. */
  datatype Error = IndexOutOfRange(snapshot: Snapshot, index: nat, length: nat)

  /** How one update ends: the value it returns, or the exception it raises. */
  datatype Outcome = Returned(value: Option<string>) | Raised(error: Error)

  /** What an own-consumption sensor reports when the meter is missing. */
  const NoOwnConsumptionSensor := "No BA sensor installed"

  /** Device tuples at least this long come from a three-string inverter. */
  const ThreeStringLength := 15

  /** What the rule decides: keep the state and return, or store the element at a position. */
  datatype Read<T> =
    | Keep(returned: Option<string>)
    | At(snapshot: Snapshot, values: seq<T>, offset: nat)

  /** An entity's state after an update, and how the update ended. */
  datatype Effect<T> = Effect(state: Option<T>, outcome: Outcome)

  /**
    Position of each own-consumption type in the own-consumption tuple. All four
    lie in 5..10, so a meter tuple of 11 elements serves every one of them.
   */
  function OwnConsumptionOffset(t: SensorType): (k: nat)
    requires IsOwnConsumption(t)
    ensures 5 <= k < 11
  {
    match t
    case SolarGeneratorPower => 5
    case ConsumptionPhase1 => 8
    case ConsumptionPhase2 => 9
    case ConsumptionPhase3 => 10
  }

  /**
    Position of each device type in a device tuple of length `n`; `None` when the
    type does not exist in that layout (string 3 of a two-string inverter).
   */
  function DeviceOffset(t: SensorType, n: nat): (r: Option<nat>)
    requires IsDevice(t)
    ensures r.None? <==> (t.String3Voltage? || t.String3Current?) && n < ThreeStringLength
    ensures r.Some? && n < ThreeStringLength ==> r.value < 14
    ensures r.Some? ==> r.value < 16
  {
    var threeStrings := n >= ThreeStringLength;
    match t
    case CurrentPower => Some(0)
    case TotalEnergy => Some(1)
    case DailyEnergy => Some(2)
    case String1Voltage => Some(3)
    case String1Current => Some(5)
    case String2Voltage => Some(7)
    case String2Current => Some(9)
    case String3Voltage => if threeStrings then Some(11) else None
    case String3Current => if threeStrings then Some(13) else None
    case L1Voltage => Some(4)
    case L1Power => Some(6)
    case L2Voltage => Some(8)
    case L2Power => Some(10)
    case L3Voltage => Some(if threeStrings then 12 else 11)
    case L3Power => Some(if threeStrings then 14 else 12)
    case Status => Some(if threeStrings then 15 else 13)
  }

  /**
    The rule: own-consumption types read `ba` when it holds more than one element,
    device types read `data` when it holds more than one element; an absent
    snapshot, a snapshot of length one or less, or a type missing from the
    layout keeps the state.
   */
  function Select<T>(t: SensorType, data: Option<seq<T>>, ba: Option<seq<T>>): (r: Read<T>)
    ensures r.At? ==> |r.values| > 1 && r.snapshot != Info
    ensures r.At? && r.snapshot == OwnConsumption ==> IsOwnConsumption(t) && ba == Some(r.values)
    ensures r.At? && r.snapshot == Device ==> IsDevice(t) && data == Some(r.values)
    ensures r.Keep? && r.returned.Some? <==> IsOwnConsumption(t) && ba.Some? && |ba.value| <= 1
  {
    if IsOwnConsumption(t) then
      match ba
      case None => Keep(None)
      case Some(b) =>
        if |b| > 1 then At(OwnConsumption, b, OwnConsumptionOffset(t))
        else Keep(Some(NoOwnConsumptionSensor))
    else if t.Other? then
      Keep(None)
    else
      match data
      case None => Keep(None)
      case Some(d) =>
        if |d| > 1 && DeviceOffset(t, |d|).Some? then At(Device, d, DeviceOffset(t, |d|).value)
        else Keep(None)
  }

  /** Carrying out a decision: a subscript past the end raises and leaves the state as it was. */
  function Apply<T>(r: Read<T>, st: Option<T>): Effect<T> {
    match r
    case Keep(v) => Effect(st, Returned(v))
    case At(s, values, k) =>
      if k < |values| then Effect(Some(values[k]), Returned(None))
      else Effect(st, Raised(IndexOutOfRange(s, k, |values|)))
  }

  /**
    One update of a sensor of type `t` over the given snapshots, from state `st`.
    The state changes only to an element of the type's own snapshot, and only in an
    update that returns None; a raise and the missing-meter return keep it.
   */
  function Step<T>(t: SensorType, data: Option<seq<T>>, ba: Option<seq<T>>, st: Option<T>): (e: Effect<T>)
    ensures e.state != st ==> e.outcome == Returned(None) && e.state.Some?
    ensures e.state != st && IsOwnConsumption(t) ==> ba.Some? && e.state.value in ba.value
    ensures e.state != st ==> !t.Other? && (IsDevice(t) ==> data.Some? && e.state.value in data.value)
    ensures e.outcome.Raised? ==> e.state == st && !t.Other?
    ensures e.outcome == Returned(Some(NoOwnConsumptionSensor)) ==> e.state == st
  {
    Apply(Select(t, data, ba), st)
  }

  /**
    Proof hint, not a property: unfolds the device branch of `Step` into the
    position that `DeviceOffset` gives, so that the branch chain of the device
    block checks against it one branch at a time.
   */
  lemma DeviceStep<T>(t: SensorType, d: seq<T>, ba: Option<seq<T>>, st: Option<T>)
    requires IsDevice(t)
    ensures |d| <= 1 || DeviceOffset(t, |d|).None? ==> Step(t, Some(d), ba, st) == Effect(st, Returned(None))
    ensures |d| > 1 && DeviceOffset(t, |d|).Some? ==>
      Step(t, Some(d), ba, st) == Apply(At(Device, d, DeviceOffset(t, |d|).value), st)
  {
  }

  /** Whether the update of a freshly created sensor of type `t` raises. */
  predicate Raises<T>(t: SensorType, data: Option<seq<T>>, ba: Option<seq<T>>) {
    Step(t, data, ba, None).outcome.Raised?
  }

  // ----- the offsets each type reads -----

  /** With a meter present, the own-consumption types read positions 5, 8, 9 and 10. */
  lemma OwnConsumptionReads<T>(t: SensorType, data: Option<seq<T>>, b: seq<T>)
    requires |b| > 1
    ensures t == SolarGeneratorPower ==> Select(t, data, Some(b)) == At(OwnConsumption, b, 5)
    ensures t == ConsumptionPhase1 ==> Select(t, data, Some(b)) == At(OwnConsumption, b, 8)
    ensures t == ConsumptionPhase2 ==> Select(t, data, Some(b)) == At(OwnConsumption, b, 9)
    ensures t == ConsumptionPhase3 ==> Select(t, data, Some(b)) == At(OwnConsumption, b, 10)
  {
  }

  /** A meter tuple of length one or less keeps the state and reports the missing meter. */
  lemma NoMeterKeepsState<T>(t: SensorType, data: Option<seq<T>>, b: seq<T>, st: Option<T>)
    requires IsOwnConsumption(t) && |b| <= 1
    ensures Step(t, data, Some(b), st) == Effect(st, Returned(Some(NoOwnConsumptionSensor)))
  {
  }

  /** An absent meter tuple keeps the state of an own-consumption type and returns nothing. */
  lemma AbsentMeterKeepsState<T>(t: SensorType, data: Option<seq<T>>, st: Option<T>)
    requires IsOwnConsumption(t)
    ensures Step(t, data, None, st) == Effect(st, Returned(None))
  {
  }

  /** An absent device tuple, or one of length one or less, keeps the state of every device type. */
  lemma ShortDeviceTupleKeepsState<T>(t: SensorType, data: Option<seq<T>>, ba: Option<seq<T>>, st: Option<T>)
    requires IsDevice(t) && (data.None? || |data.value| <= 1)
    ensures Step(t, data, ba, st) == Effect(st, Returned(None))
  {
  }

  /** String 3 is skipped on a two-string tuple and read at 11 / 13 on a three-string one. */
  lemma String3Reads<T>(d: seq<T>, ba: Option<seq<T>>, st: Option<T>)
    requires |d| > 1
    ensures |d| < ThreeStringLength ==>
      Step(String3Voltage, Some(d), ba, st) == Effect(st, Returned(None)) &&
      Step(String3Current, Some(d), ba, st) == Effect(st, Returned(None))
    ensures |d| >= ThreeStringLength ==>
      Select(String3Voltage, Some(d), ba) == At(Device, d, 11) &&
      Select(String3Current, Some(d), ba) == At(Device, d, 13)
  {
  }

  /** L3 voltage, L3 power and status move from 11 / 12 / 13 to 12 / 14 / 15 on a three-string tuple. */
  lemma LayoutShift<T>(d: seq<T>, ba: Option<seq<T>>)
    requires |d| > 1
    ensures |d| < ThreeStringLength ==>
      Select(L3Voltage, Some(d), ba) == At(Device, d, 11) &&
      Select(L3Power, Some(d), ba) == At(Device, d, 12) &&
      Select(Status, Some(d), ba) == At(Device, d, 13)
    ensures |d| >= ThreeStringLength ==>
      Select(L3Voltage, Some(d), ba) == At(Device, d, 12) &&
      Select(L3Power, Some(d), ba) == At(Device, d, 14) &&
      Select(Status, Some(d), ba) == At(Device, d, 15)
  {
  }

  /** Current power, total energy and daily energy read positions 0, 1 and 2 whatever the layout. */
  lemma EnergyReads<T>(d: seq<T>, ba: Option<seq<T>>)
    requires |d| > 1
    ensures Select(CurrentPower, Some(d), ba) == At(Device, d, 0)
    ensures Select(TotalEnergy, Some(d), ba) == At(Device, d, 1)
    ensures Select(DailyEnergy, Some(d), ba) == At(Device, d, 2)
  {
  }

  /** Strings 1 and 2 read voltage at 3 / 7 and current at 5 / 9 whatever the layout. */
  lemma String12Reads<T>(d: seq<T>, ba: Option<seq<T>>)
    requires |d| > 1
    ensures Select(String1Voltage, Some(d), ba) == At(Device, d, 3)
    ensures Select(String1Current, Some(d), ba) == At(Device, d, 5)
    ensures Select(String2Voltage, Some(d), ba) == At(Device, d, 7)
    ensures Select(String2Current, Some(d), ba) == At(Device, d, 9)
  {
  }

  /** Phases 1 and 2 read voltage at 4 / 8 and power at 6 / 10 whatever the layout. */
  lemma Phase12Reads<T>(d: seq<T>, ba: Option<seq<T>>)
    requires |d| > 1
    ensures Select(L1Voltage, Some(d), ba) == At(Device, d, 4)
    ensures Select(L1Power, Some(d), ba) == At(Device, d, 6)
    ensures Select(L2Voltage, Some(d), ba) == At(Device, d, 8)
    ensures Select(L2Power, Some(d), ba) == At(Device, d, 10)
  {
  }

  /**
    No two device types read the same position of one tuple; on a three-string
    tuple the sixteen types read positions 0 to 15, each exactly once.
   */
  lemma DevicePositionsDistinct(t: SensorType, u: SensorType, n: nat)
    requires IsDevice(t) && IsDevice(u) && t != u
    requires DeviceOffset(t, n).Some? && DeviceOffset(u, n).Some?
    ensures DeviceOffset(t, n).value != DeviceOffset(u, n).value
  {
  }

  /** A key no branch names keeps the state and returns nothing. */
  lemma UnnamedTypeKeepsState<T>(k: string, data: Option<seq<T>>, ba: Option<seq<T>>, st: Option<T>)
    ensures Step(Other(k), data, ba, st) == Effect(st, Returned(None))
  {
  }

  /** Own-consumption types never look at the device tuple, and device types never at the meter tuple. */
  lemma SnapshotsIndependent<T>(t: SensorType, d1: Option<seq<T>>, d2: Option<seq<T>>, b1: Option<seq<T>>, b2: Option<seq<T>>)
    ensures IsOwnConsumption(t) ==> Select(t, d1, b1) == Select(t, d2, b1)
    ensures IsDevice(t) ==> Select(t, d1, b1) == Select(t, d1, b2)
  {
  }

  /** With the empty snapshots a poller starts from, no sensor type leaves its initial `None`. */
  lemma InitialSnapshotsKeepNone<T>(t: SensorType)
    ensures Step<T>(t, Some([]), Some([]), None).state == None
  {
  }

  // ----- reads past the end -----

  /** The types whose position can lie beyond a tuple that passes the length guard. */
  predicate MayReadPastEnd(t: SensorType) {
    !t.Other? && !t.CurrentPower? && !t.TotalEnergy? && !t.String3Voltage? && !t.String3Current?
  }

  /**
    The guard "more than one element" does not keep reads in bounds: exactly the
    types of `MayReadPastEnd` raise on some pair of tuples that both pass it.
   */
  lemma LengthGuardAdmitsReadPastEnd<T>(t: SensorType, x: T)
    ensures (exists d: seq<T>, b: seq<T> :: |d| > 1 && |b| > 1 && Raises(t, Some(d), Some(b))) <==> MayReadPastEnd(t)
  {
    if MayReadPastEnd(t) {
      var two := [x, x];
      assert Raises(t, Some(two), Some(two));
    }
  }

  /** An own-consumption read raises exactly when the meter tuple does not reach the type's position. */
  lemma MeterReadRaisesIff<T>(t: SensorType, data: Option<seq<T>>, b: seq<T>)
    requires IsOwnConsumption(t) && |b| > 1
    ensures Raises(t, data, Some(b)) <==> |b| <= OwnConsumptionOffset(t)
  {
  }

  /** On a 15-element tuple only `status` raises: it reads position 15. */
  lemma FifteenElementsRaiseOnlyStatus<T>(t: SensorType, d: seq<T>, ba: Option<seq<T>>)
    requires IsDevice(t) && |d| == 15
    ensures Raises(t, Some(d), ba) <==> t == Status
    ensures t == Status ==> Step(t, Some(d), ba, None).outcome == Raised(IndexOutOfRange(Device, 15, 15))
  {
  }

  /** Device tuples of length 14, or of 16 and more, and meter tuples of 11 and more are read in bounds. */
  lemma FullTuplesInBounds<T>(t: SensorType, d: seq<T>, b: seq<T>)
    requires |d| == 14 || |d| >= 16
    requires |b| >= 11
    ensures !Raises(t, Some(d), Some(b))
  {
  }

  // ----- the sample tuple -----

  /** A three-string device tuple of 15 readings. */
  const Sample: seq<real> := [500.0, 12345.0, 42.0, 230.1, 231.0, 1.2, 229.9, 1.1, 230.5, 1.0, 231.2, 0.9, 231.5, 0.8, 2.0]

  /** On the 15-element sample: current power is 500, string 3 voltage is position 11, status raises. */
  lemma SampleThreeStrings()
    ensures Step(CurrentPower, Some(Sample), None, None) == Effect(Some(500.0), Returned(None))
    ensures Step(String3Voltage, Some(Sample), None, None) == Effect(Some(0.9), Returned(None))
    ensures Step(Status, Some(Sample), None, None) == Effect(None, Raised(IndexOutOfRange(Device, 15, 15)))
  {
    EnergyReads(Sample, None);
    String3Reads(Sample, None, None);
    LayoutShift(Sample, None);
  }

  /** On the sample cut to 13 elements: L3 voltage is position 11, string 3 is skipped, status raises. */
  lemma SampleTwoStrings(st: Option<real>)
    ensures Step(L3Voltage, Some(Sample[..13]), None, st) == Effect(Some(0.9), Returned(None))
    ensures Step(String3Voltage, Some(Sample[..13]), None, st) == Effect(st, Returned(None))
    ensures Step(String3Current, Some(Sample[..13]), None, st) == Effect(st, Returned(None))
    ensures Step(Status, Some(Sample[..13]), None, st) == Effect(st, Raised(IndexOutOfRange(Device, 13, 13)))
  {
    var cut := Sample[..13];
    assert |cut| == 13 && cut[11] == 0.9;
    String3Reads(cut, None, st);
    LayoutShift(cut, None);
  }

  // ----- a rule that keeps every read in bounds -----

  /** The rule with a read past the end treated like a missing reading: the state is kept. */
  function GuardedSelect<T>(t: SensorType, data: Option<seq<T>>, ba: Option<seq<T>>): (r: Read<T>)
    ensures r.At? ==> r.offset < |r.values|
    ensures Select(t, data, ba).At? && Select(t, data, ba).offset >= |Select(t, data, ba).values| ==> r == Keep(None)
  {
    var r := Select(t, data, ba);
    if r.At? && r.offset >= |r.values| then Keep(None) else r
  }

  /** The guarded rule never raises, and agrees with the written rule wherever that one does not raise. */
  lemma GuardedSelectSound<T>(t: SensorType, data: Option<seq<T>>, ba: Option<seq<T>>, st: Option<T>)
    ensures Apply(GuardedSelect(t, data, ba), st).outcome.Returned?
    ensures Step(t, data, ba, st).outcome.Returned? ==> Apply(GuardedSelect(t, data, ba), st) == Step(t, data, ba, st)
  {
  }
}
