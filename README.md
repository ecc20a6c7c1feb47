# Kostal Piko sensor platform — a Dafny model

This project models the sensor side of the Kostal Piko integration for a
home-automation platform. A poller object (`PikoData`) holds the latest two
snapshots fetched from the inverter: the device tuple (`data`) and the
own-consumption meter tuple (`ba_data`), plus the device identity (`info`).
Each configured sensor type gets one entity (`PikoInverter`). Its update polls
through the shared poller, records serial number and model, and then overwrites
its `_state` with one element of one snapshot at a fixed position. The position
depends on the sensor type and, for three types, on whether the device tuple
comes from a two-string or a three-string inverter. A length guard decides
whether the write happens at all.

Readings are an opaque type parameter `T`; no arithmetic is done on them.

Files:
- `optional.dfy` — `Option`, standing for Python's `None`.
- `sensor_types.dfy` — the sensor-type keys as a datatype, with the string keys the source compares against.
- `selection.dfy` — the selection rule as pure functions (`Select`, `Apply`, `Step`) and the lemmas about it.
- `sensor.dfy` — the classes `PikoData` and `PikoInverter`; `Update` is written as the source's branch chain and proved equal to `Step`.

Python's `IndexError` is modelled as an outcome, `Raised(IndexOutOfRange(..))`,
not as a precondition. The source does not keep its subscripts in bounds; it
raises, and the state written before the raise (serial number, model) stays.

Where the documented behaviour and the code disagree, the model follows the code.
For a 15-element sample tuple the documented values of `string3_voltage` and `status`
are those at positions 10 and 14; the code reads positions 11 and 15, and `data[15]`
raises on that tuple. `SampleThreeStrings` and `SampleTwoStrings` state what the code does.

## Model

| member | source | states |
|---|---|---|
| `SensorTypes.Parse` | custom_components/kostal/sensor.py:99-213 | A key selects a named type exactly when it is one of the twenty literals the update compares against; otherwise it stays an unnamed key |
| `SensorTypes.Key` | custom_components/kostal/sensor.py:47 | For a valid type, the key is one of the twenty literals the update compares against exactly when the type is a named one |
| `SensorTypes.KeyOfParse` | custom_components/kostal/sensor.py:47 | Parsing a configuration key keeps the key: the stored type gives back the string the source stores |
| `SensorTypes.ParseOfKey` | custom_components/kostal/sensor.py:99-213 | Every sensor type is recovered from its key string |
| `SensorTypes.KeyInjective` | custom_components/kostal/sensor.py:99-213 | Distinct sensor types are never confused by the string comparisons |
| `Selection.OwnConsumptionOffset` | custom_components/kostal/sensor.py:98-118 | Every own-consumption position lies in 5..10, so a meter tuple of 11 elements serves all four types |
| `Selection.DeviceOffset` | custom_components/kostal/sensor.py:119-220 | A device type has no position only for string 3 on a tuple shorter than 15; two-string positions lie below 14, three-string ones below 16 |
| `Selection.Select` | custom_components/kostal/sensor.py:98-223 | Any read hits a snapshot of more than one element; own-consumption types read only `ba_data`, device types only `data`; the "No BA sensor installed" return happens exactly for an own-consumption type with a meter tuple of length one or less |
| `Selection.Step` | custom_components/kostal/sensor.py:91-223 | An update changes the state only to an element of the type's own snapshot and only when it returns None; a raise, the missing-meter return and an unnamed key keep it |
| `Selection.OwnConsumptionReads` | custom_components/kostal/sensor.py:98-118 | With a meter tuple longer than one, solar generator power and consumption phases 1/2/3 read positions 5, 8, 9, 10 |
| `Selection.NoMeterKeepsState` | custom_components/kostal/sensor.py:100-103 | A meter tuple of length one or less keeps the state and returns "No BA sensor installed" |
| `Selection.AbsentMeterKeepsState` | custom_components/kostal/sensor.py:98-119 | With no meter tuple an own-consumption type keeps its state and returns None |
| `Selection.ShortDeviceTupleKeepsState` | custom_components/kostal/sensor.py:119-223 | Every device type keeps its state and returns None when `data` is None or has at most one element |
| `Selection.String3Reads` | custom_components/kostal/sensor.py:153-172 | String 3 voltage and current keep the state on a tuple of 2 to 14 elements and read positions 11 / 13 on one of 15 or more |
| `Selection.LayoutShift` | custom_components/kostal/sensor.py:193-220 | L3 voltage, L3 power and status read 11 / 12 / 13 below 15 elements and 12 / 14 / 15 from 15 elements on |
| `Selection.EnergyReads` | custom_components/kostal/sensor.py:120-134 | Current power, total energy and daily energy read positions 0, 1, 2 whatever the layout |
| `Selection.String12Reads` | custom_components/kostal/sensor.py:135-152 | String 1 and string 2 read voltage at 3 / 7 and current at 5 / 9 whatever the layout |
| `Selection.Phase12Reads` | custom_components/kostal/sensor.py:173-192 | L1 and L2 read voltage at 4 / 8 and power at 6 / 10 whatever the layout |
| `Selection.DevicePositionsDistinct` | custom_components/kostal/sensor.py:120-220 | No two device types read the same position of one tuple, in either layout |
| `Selection.UnnamedTypeKeepsState` | custom_components/kostal/sensor.py:98-223 | A type no branch names keeps its state and returns None |
| `Selection.SnapshotsIndependent` | custom_components/kostal/sensor.py:98-213 | An own-consumption type's result does not depend on `data` and a device type's not on `ba_data`, so the device branch never overwrites an own-consumption sensor |
| `Selection.InitialSnapshotsKeepNone` | custom_components/kostal/sensor.py:233-234 | With the poller's initial empty snapshots every sensor type leaves its initial None |
| `Selection.LengthGuardAdmitsReadPastEnd` | custom_components/kostal/sensor.py:98-220 | Tuples that pass the "more than one element" guard can still be read past their end, for exactly the named types other than current power, total energy and string 3 (never for an unnamed key) |
| `Selection.MeterReadRaisesIff` | custom_components/kostal/sensor.py:100-116 | An own-consumption read raises exactly when the meter tuple is no longer than the type's position |
| `Selection.FifteenElementsRaiseOnlyStatus` | custom_components/kostal/sensor.py:213-220 | On a 15-element device tuple status alone raises, at index 15 |
| `Selection.FullTuplesInBounds` | custom_components/kostal/sensor.py:120-220 | Device tuples of 14 elements or of 16 and more, with meter tuples of 11 and more, are never read past their end |
| `Selection.SampleThreeStrings` | custom_components/kostal/sensor.py:120-220 | On the 15-element sample: current power is 500, string 3 voltage is position 11, status raises |
| `Selection.SampleTwoStrings` | custom_components/kostal/sensor.py:193-220 | On the sample cut to 13 elements: L3 voltage is position 11, string 3 keeps the state, status raises at 13 |
| `Selection.GuardedSelect` | custom_components/kostal/sensor.py:119-223 | The rule with the read past the end replaced by keeping the state: every read it makes is in bounds |
| `Selection.GuardedSelectSound` | custom_components/kostal/sensor.py:119-223 | The guarded rule never raises and agrees with the written rule wherever that one does not raise |
| `Sensor.Join` | custom_components/kostal/sensor.py:59 | `"{} {}".format(a, b)`: the first string, one space, the second string, nothing else |
| `Sensor.JoinInjective` | custom_components/kostal/sensor.py:79 | Two joins with the same prefix are equal only when their suffixes are |
| `Sensor.PikoInverter.Name` | custom_components/kostal/sensor.py:57-59 | The name is the device name, one space and the sensor label, and nothing else |
| `Sensor.NamesDiffer` | custom_components/kostal/sensor.py:57-59 | Two sensors of one device with different labels get different names |
| `Sensor.PikoInverter.UniqueId` | custom_components/kostal/sensor.py:77-79 | The unique id is the serial number (or "None" when there is none), one space, and ends with the sensor label |
| `Sensor.UniqueIdsDiffer` | custom_components/kostal/sensor.py:77-79 | Two sensors of one serial number with different labels get different unique ids |
| `Sensor.UniqueIdWithoutSerial` | custom_components/kostal/sensor.py:77-79 | With no serial number recorded the unique id is "None " followed by the label |
| `Sensor.PikoData.constructor` | custom_components/kostal/sensor.py:229-236 | The poller starts with empty device and meter tuples and the fetched identity |
| `Sensor.PikoData.Update` | custom_components/kostal/sensor.py:239-243 | A real fetch replaces both snapshots and keeps the identity |
| `Sensor.PikoData.InfoUpdate` | custom_components/kostal/sensor.py:247-250 | The identity becomes what the client's info call returns |
| `Sensor.PikoInverter.constructor` | custom_components/kostal/sensor.py:43-54 | Fields come from the arguments, the type from parsing the key, state, serial number and model start at None, and one update runs |
| `Sensor.PikoInverter.StoreAt` | custom_components/kostal/sensor.py:101 | One subscripting assignment to `_state`, with the IndexError of a position past the end |
| `Sensor.PikoInverter.UpdateFromMeter` | custom_components/kostal/sensor.py:98-118 | The own-consumption block does what `Step` says for those four types and stops the update exactly when it returns or raises; other types pass through untouched |
| `Sensor.PikoInverter.UpdateFromDevice` | custom_components/kostal/sensor.py:119-223 | The device block does what `Step` says for the sixteen device types and leaves every other type's state alone, returning None |
| `Sensor.PikoInverter.Update` | custom_components/kostal/sensor.py:91-223 | After the optional fetch, serial number and model take `info[0]` and `info[1]` (an IndexError when `info` is shorter, with the state kept), then state and return value are exactly `Step` of the type on the poller's snapshots; nothing but state, serial number, model and the poller's snapshots can change |
| `Sensor.UpdateTwoSensors` | custom_components/kostal/sensor.py:31-36 | Two sensors sharing one poller both read the snapshot fetched by the first, even when the throttle skips the second fetch; the poller keeps that fetch even when the identity is too short and both updates raise |

## Findings

| source | as written | input that shows it | evidently intended | confidence | as-written member | corrected member |
|---|---|---|---|---|---|---|
| custom_components/kostal/sensor.py:119-220 | Every device read is guarded only by `len(data) > 1`, and the three-string branch starts at 15 elements, yet reads reach index 15 | `status` with a 15-element `data` reads `data[15]` and raises IndexError; `string1_voltage` with a 2-element `data` reads `data[3]` | A tuple that passes the guard is read only at positions it has, and a missing reading keeps the state | low, not executed: depends on the tuple lengths the device returns | `Selection.FifteenElementsRaiseOnlyStatus` | `Selection.GuardedSelectSound` |

The classes keep the behaviour as written; `GuardedSelect` is the corrected rule, offered beside it.

## Left out

- The throttle on the poller's fetch: its timing comes from a library that is not part of this model. Whether the fetch ran is the `fetch` parameter of `Update` (`None`: the throttle skipped it).
- The device client's network calls (raw content, own consumption, info): their results are inputs, and exceptions they raise are not modelled.
- Setting up the platform (`async_setup_entry` in both files, `async_setup`) and the configuration schema: host wiring and library validation. The one fact of the setup kept is that all entities of one entry share one poller, which `UpdateTwoSensors` uses.
- The descriptor table `SENSOR_TYPES` lives in const.py, which is not part of this model. Label, unit and icon are constructor arguments, and the KeyError for an unknown key is not modelled.
- `device_info`, the `state`, `unit_of_measurement` and `icon` getters (plain field reads), and logging.
- Sensor.PikoInverter.constructor: when the initial update raises, the source's construction fails; the model's constructor completes with the fields the partial update left.
- Sensor.PikoData.constructor: the source sets `info` to None before the first info call; the model goes straight to the fetched identity, which is taken to be a sequence of strings (a TypeError on a None identity is not modelled).
- Numeric meaning of the readings: they are opaque values.
