/**
  The Kostal Piko sensor platform: the shared poller that holds the latest
  snapshots, and the sensor entity whose update overwrites its state from them.
 */
module Sensor {
  import opened Optional
  import opened SensorTypes
  import opened Selection

  /** Python's `"{} {}".format(a, b)` for two strings. */
  function Join(a: string, b: string): (r: string)
    ensures |r| == |a| + 1 + |b|
    ensures r[..|a|] == a && r[|a|] == ' ' && r[|a| + 1..] == b
  {
    a + " " + b
  }

  /** How `format` renders an optional string: `None` prints as "None". */
  function Format(v: Option<string>): string {
    match v
    case None => "None"
    case Some(s) => s
  }

  /** Joining onto the same prefix loses nothing of the suffix. */
  lemma JoinInjective(a: string, b: string, c: string)
    requires Join(a, b) == Join(a, c)
    ensures b == c
  {
  }

  /** What a fetch by the device client returns: the raw tuple and the own-consumption tuple. */
  datatype Fetch<T> = Fetch(raw: Option<seq<T>>, ownConsumption: Option<seq<T>>)

  /** The poller shared by all sensors of one inverter. */
  class PikoData<T> {
    var data: Option<seq<T>>
    var baData: Option<seq<T>>
    var info: seq<string>

    /** Starts from empty snapshots; `identity` is what the client's info call returns. */
    constructor (identity: seq<string>)
      ensures data == Some([]) && baData == Some([]) && info == identity
    {
      data := Some([]);
      baData := Some([]);
      info := identity;
    }

    /** One real fetch: both snapshots are replaced, the identity is kept. */
    method Update(raw: Option<seq<T>>, ownConsumption: Option<seq<T>>)
      modifies this`data, this`baData
      ensures data == raw && baData == ownConsumption
    {
      data := raw;
      baData := ownConsumption;
    }

    /** Replaces the identity with what the client's info call returns. */
    method InfoUpdate(identity: seq<string>)
      modifies this`info
      ensures info == identity
    {
      info := identity;
    }
  }

  /** One sensor entity: a sensor type of one inverter, with its last observed reading. */
  class PikoInverter<T> {
    var sensorLabel: string
    var deviceName: string
    var sensorType: SensorType
    var piko: PikoData<T>
    var state: Option<T>
    var unit: string
    var icon: string
    var serialNumber: Option<string>
    var model: Option<string>

    /**
      Builds the entity for configuration key `key`; `sensorLabel`, `unit` and `icon` are
      that key's entry in the descriptor table. Ends with one update, for which
      `fetch` says what the poller's throttled fetch returned (`None`: it did not run).
     */
    constructor (piko: PikoData<T>, key: string, deviceName: string,
                 sensorLabel: string, unit: string, icon: string, fetch: Option<Fetch<T>>)
      modifies piko`data, piko`baData
      ensures this.piko == piko && sensorType == Parse(key)
      ensures this.sensorLabel == sensorLabel && this.deviceName == deviceName
      ensures this.unit == unit && this.icon == icon
      ensures piko.data == (if fetch.Some? then fetch.value.raw else old(piko.data))
      ensures piko.baData == (if fetch.Some? then fetch.value.ownConsumption else old(piko.baData))
      ensures serialNumber == (if |piko.info| > 0 then Some(piko.info[0]) else None)
      ensures model == (if |piko.info| > 1 then Some(piko.info[1]) else None)
      ensures state == (if |piko.info| < 2 then None else Step(sensorType, piko.data, piko.baData, None).state)
    {
      this.sensorLabel := sensorLabel;
      this.deviceName := deviceName;
      this.sensorType := Parse(key);
      this.piko := piko;
      this.state := None;
      this.unit := unit;
      this.icon := icon;
      this.serialNumber := None;
      this.model := None;
      new;
      var initial := Update(fetch);
    }

    /** The entity's display name: the device name, then the sensor's sensorLabel. */
    function Name(): (r: string)
      reads this
      ensures |r| == |deviceName| + 1 + |sensorLabel|
      ensures r[..|deviceName|] == deviceName && r[|deviceName|] == ' '
      ensures r[|deviceName| + 1..] == sensorLabel
    {
      Join(deviceName, sensorLabel)
    }

    /** The entity's unique id: the serial number, then the sensor's sensorLabel. */
    function UniqueId(): (r: string)
      reads this
      ensures serialNumber.Some? ==>
        |r| == |serialNumber.value| + 1 + |sensorLabel| &&
        r[..|serialNumber.value|] == serialNumber.value && r[|serialNumber.value|] == ' '
      ensures serialNumber.None? ==> |r| == 5 + |sensorLabel| && r[..5] == "None "
      ensures |r| > |sensorLabel| && r[|r| - |sensorLabel|..] == sensorLabel
    {
      Join(Format(serialNumber), sensorLabel)
    }

    /** Python's `self._state = values[offset]`, raising when `offset` is past the end. */
    method StoreAt(snapshot: Snapshot, values: seq<T>, offset: nat) returns (outcome: Outcome)
      modifies this`state
      ensures offset < |values| ==> state == Some(values[offset]) && outcome == Returned(None)
      ensures offset >= |values| ==>
        state == old(state) && outcome == Raised(IndexOutOfRange(snapshot, offset, |values|))
    {
      if offset < |values| {
        state := Some(values[offset]);
        outcome := Returned(None);
      } else {
        outcome := Raised(IndexOutOfRange(snapshot, offset, |values|));
      }
    }

    /**
      The own-consumption block of an update: `stop` when the update returns from
      inside it, with a missing meter or a read past the end.
     */
    method UpdateFromMeter(ba: seq<T>) returns (outcome: Outcome, stop: bool)
      modifies this`state
      ensures IsOwnConsumption(sensorType) ==>
        Effect(state, outcome) == Step(sensorType, None, Some(ba), old(state)) &&
        (stop <==> outcome != Returned(None))
      ensures !IsOwnConsumption(sensorType) ==> state == old(state) && !stop
    {
      outcome, stop := Returned(None), false;
      if sensorType.SolarGeneratorPower? {
        if |ba| > 1 {
          outcome := StoreAt(OwnConsumption, ba, 5);
          stop := outcome.Raised?;
        } else {
          outcome, stop := Returned(Some(NoOwnConsumptionSensor)), true;
        }
      } else if sensorType.ConsumptionPhase1? {
        if |ba| > 1 {
          outcome := StoreAt(OwnConsumption, ba, 8);
          stop := outcome.Raised?;
        } else {
          outcome, stop := Returned(Some(NoOwnConsumptionSensor)), true;
        }
      } else if sensorType.ConsumptionPhase2? {
        if |ba| > 1 {
          outcome := StoreAt(OwnConsumption, ba, 9);
          stop := outcome.Raised?;
        } else {
          outcome, stop := Returned(Some(NoOwnConsumptionSensor)), true;
        }
      } else if sensorType.ConsumptionPhase3? {
        if |ba| > 1 {
          outcome := StoreAt(OwnConsumption, ba, 10);
          stop := outcome.Raised?;
        } else {
          outcome, stop := Returned(Some(NoOwnConsumptionSensor)), true;
        }
      }
    }

    /** The device block of an update. */
    method UpdateFromDevice(d: seq<T>) returns (outcome: Outcome)
      modifies this`state
      ensures IsDevice(sensorType) ==> Effect(state, outcome) == Step(sensorType, Some(d), None, old(state))
      ensures !IsDevice(sensorType) ==> state == old(state) && outcome == Returned(None)
    {
      if IsDevice(sensorType) {
        DeviceStep(sensorType, d, None, state);
      }
      if sensorType.CurrentPower? {
        if |d| > 1 { outcome := StoreAt(Device, d, 0); return; } else { return Returned(None); }
      } else if sensorType.TotalEnergy? {
        if |d| > 1 { outcome := StoreAt(Device, d, 1); return; } else { return Returned(None); }
      } else if sensorType.DailyEnergy? {
        if |d| > 1 { outcome := StoreAt(Device, d, 2); return; } else { return Returned(None); }
      } else if sensorType.String1Voltage? {
        if |d| > 1 { outcome := StoreAt(Device, d, 3); return; } else { return Returned(None); }
      } else if sensorType.String1Current? {
        // this branch has no `else`: a short tuple falls through to the final return
        if |d| > 1 { outcome := StoreAt(Device, d, 5); return; }
      } else if sensorType.String2Voltage? {
        if |d| > 1 { outcome := StoreAt(Device, d, 7); return; } else { return Returned(None); }
      } else if sensorType.String2Current? {
        if |d| > 1 { outcome := StoreAt(Device, d, 9); return; } else { return Returned(None); }
      } else if sensorType.String3Voltage? {
        if |d| > 1 {
          if |d| < ThreeStringLength {
            return Returned(None);  // string 3 not installed
          } else {
            outcome := StoreAt(Device, d, 11);
            return;
          }
        } else {
          return Returned(None);
        }
      } else if sensorType.String3Current? {
        if |d| > 1 {
          if |d| < ThreeStringLength {
            return Returned(None);  // string 3 not installed
          } else {
            outcome := StoreAt(Device, d, 13);
            return;
          }
        } else {
          return Returned(None);
        }
      } else if sensorType.L1Voltage? {
        if |d| > 1 { outcome := StoreAt(Device, d, 4); return; } else { return Returned(None); }
      } else if sensorType.L1Power? {
        if |d| > 1 { outcome := StoreAt(Device, d, 6); return; } else { return Returned(None); }
      } else if sensorType.L2Voltage? {
        if |d| > 1 { outcome := StoreAt(Device, d, 8); return; } else { return Returned(None); }
      } else if sensorType.L2Power? {
        if |d| > 1 { outcome := StoreAt(Device, d, 10); return; } else { return Returned(None); }
      } else if sensorType.L3Voltage? {
        if |d| > 1 {
          if |d| < ThreeStringLength {
            outcome := StoreAt(Device, d, 11);  // two strings
          } else {
            outcome := StoreAt(Device, d, 12);  // three strings
          }
          return;
        } else {
          return Returned(None);
        }
      } else if sensorType.L3Power? {
        if |d| > 1 {
          if |d| < ThreeStringLength {
            outcome := StoreAt(Device, d, 12);
          } else {
            outcome := StoreAt(Device, d, 14);
          }
          return;
        } else {
          return Returned(None);
        }
      } else if sensorType.Status? {
        if |d| > 1 {
          if |d| < ThreeStringLength {
            outcome := StoreAt(Device, d, 13);
          } else {
            outcome := StoreAt(Device, d, 15);
          }
          return;
        } else {
          return Returned(None);
        }
      }
      return Returned(None);
    }

    /**
      Polls through the shared poller, records the device identity, then applies the
      selection rule to the snapshots the poller now holds. Only the state, the
      serial number, the model and the poller's two snapshots can change.
     */
    method Update(fetch: Option<Fetch<T>>) returns (outcome: Outcome)
      modifies this`state, this`serialNumber, this`model, piko`data, piko`baData
      ensures piko.data == (if fetch.Some? then fetch.value.raw else old(piko.data))
      ensures piko.baData == (if fetch.Some? then fetch.value.ownConsumption else old(piko.baData))
      ensures serialNumber == (if |piko.info| > 0 then Some(piko.info[0]) else old(serialNumber))
      ensures model == (if |piko.info| > 1 then Some(piko.info[1]) else old(model))
      ensures |piko.info| < 2 ==>
        state == old(state) && outcome == Raised(IndexOutOfRange(Info, |piko.info|, |piko.info|))
      ensures |piko.info| >= 2 ==>
        Effect(state, outcome) == Step(sensorType, piko.data, piko.baData, old(state))
    {
      if fetch.Some? {
        piko.Update(fetch.value.raw, fetch.value.ownConsumption);
      }
      var data := piko.data;
      var baData := piko.baData;
      var info := piko.info;
      if |info| == 0 {
        return Raised(IndexOutOfRange(Info, 0, 0));
      }
      serialNumber := Some(info[0]);
      if |info| == 1 {
        return Raised(IndexOutOfRange(Info, 1, 1));
      }
      model := Some(info[1]);
      if baData.Some? {
        var stop;
        outcome, stop := UpdateFromMeter(baData.value);
        if stop { return; }
      }
      if data.Some? {
        outcome := UpdateFromDevice(data.value);
        return;
      }
      return Returned(None);
    }
  }

  /** Two sensors of one device with different labels have different unique ids. */
  lemma UniqueIdsDiffer<T>(s: PikoInverter<T>, u: PikoInverter<T>)
    requires s.serialNumber == u.serialNumber && s.sensorLabel != u.sensorLabel
    ensures s.UniqueId() != u.UniqueId()
  {
    if s.UniqueId() == u.UniqueId() {
      JoinInjective(Format(s.serialNumber), s.sensorLabel, u.sensorLabel);
    }
  }

  /** Two sensors of one device with different labels have different display names. */
  lemma NamesDiffer<T>(s: PikoInverter<T>, u: PikoInverter<T>)
    requires s.deviceName == u.deviceName && s.sensorLabel != u.sensorLabel
    ensures s.Name() != u.Name()
  {
    if s.Name() == u.Name() {
      JoinInjective(s.deviceName, s.sensorLabel, u.sensorLabel);
    }
  }

  /** Before any identity is recorded the unique id reads "None " followed by the sensorLabel. */
  lemma UniqueIdWithoutSerial<T>(s: PikoInverter<T>)
    requires s.serialNumber.None?
    ensures s.UniqueId() == "None " + s.sensorLabel
  {
  }

  /**
    All sensors of one poller see the same snapshots: two sensors updated one after
    the other, the second with the throttle closed, read the first one's fetch.
   */
  method UpdateTwoSensors<T>(s: PikoInverter<T>, u: PikoInverter<T>, fetch: Fetch<T>)
      returns (first: Outcome, second: Outcome)
    requires s.piko == u.piko && s != u
    modifies s`state, s`serialNumber, s`model, u`state, u`serialNumber, u`model, s.piko`data, s.piko`baData
    ensures s.piko.data == fetch.raw && s.piko.baData == fetch.ownConsumption
    ensures |s.piko.info| >= 2 ==>
      Effect(s.state, first) == Step(s.sensorType, fetch.raw, fetch.ownConsumption, old(s.state)) &&
      Effect(u.state, second) == Step(u.sensorType, fetch.raw, fetch.ownConsumption, old(u.state))
    ensures |s.piko.info| < 2 ==>
      s.state == old(s.state) && u.state == old(u.state) && first.Raised? && second.Raised?
  {
    first := s.Update(Some(fetch));
    second := u.Update(None);
  }
}
