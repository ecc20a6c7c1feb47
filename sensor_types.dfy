/**
  The sensor-type keys of the Kostal Piko integration. The source keeps the key
  as a string and compares it with string literals; here it is a closed datatype,
  with `Other` for any key the update rule does not name, and `Key`/`Parse`
  translate between the two.
 */
module SensorTypes {

  datatype SensorType =
    // read from the own-consumption snapshot (`ba_data`)
    | SolarGeneratorPower | ConsumptionPhase1 | ConsumptionPhase2 | ConsumptionPhase3
    // read from the device snapshot (`data`)
    | CurrentPower | TotalEnergy | DailyEnergy
    | String1Voltage | String1Current | String2Voltage | String2Current
    | String3Voltage | String3Current
    | L1Voltage | L1Power | L2Voltage | L2Power | L3Voltage | L3Power
    | Status
    // a key no branch of the update rule compares against
    | Other(key: string)

  /** The four types whose value comes from the own-consumption meter. */
  predicate IsOwnConsumption(t: SensorType) {
    t.SolarGeneratorPower? || t.ConsumptionPhase1? || t.ConsumptionPhase2? || t.ConsumptionPhase3?
  }

  /** The sixteen types whose value comes from the inverter's own reading tuple. */
  predicate IsDevice(t: SensorType) {
    !IsOwnConsumption(t) && !t.Other?
  }

  /** The keys the update rule compares against. */
  const KnownKeys: set<string> := {
    "solar_generator_power", "consumption_phase_1", "consumption_phase_2", "consumption_phase_3",
    "current_power", "total_energy", "daily_energy",
    "string1_voltage", "string1_current", "string2_voltage", "string2_current",
    "string3_voltage", "string3_current",
    "l1_voltage", "l1_power", "l2_voltage", "l2_power", "l3_voltage", "l3_power",
    "status"
  }

  /** `Other` stands only for keys that no named type has. */
  predicate Valid(t: SensorType) {
    t.Other? ==> t.key !in KnownKeys
  }

  /** The configuration key of a sensor type. */
  function Key(t: SensorType): (k: string)
    ensures Valid(t) ==> (k in KnownKeys <==> !t.Other?)
  {
    match t
    case SolarGeneratorPower => "solar_generator_power"
    case ConsumptionPhase1 => "consumption_phase_1"
    case ConsumptionPhase2 => "consumption_phase_2"
    case ConsumptionPhase3 => "consumption_phase_3"
    case CurrentPower => "current_power"
    case TotalEnergy => "total_energy"
    case DailyEnergy => "daily_energy"
    case String1Voltage => "string1_voltage"
    case String1Current => "string1_current"
    case String2Voltage => "string2_voltage"
    case String2Current => "string2_current"
    case String3Voltage => "string3_voltage"
    case String3Current => "string3_current"
    case L1Voltage => "l1_voltage"
    case L1Power => "l1_power"
    case L2Voltage => "l2_voltage"
    case L2Power => "l2_power"
    case L3Voltage => "l3_voltage"
    case L3Power => "l3_power"
    case Status => "status"
    case Other(k) => k
  }

  /** The sensor type a configuration key selects, by exact string comparison. */
  function Parse(s: string): (t: SensorType)
    ensures Valid(t)
    ensures t.Other? <==> s !in KnownKeys
  {
    if s == "solar_generator_power" then SolarGeneratorPower
    else if s == "consumption_phase_1" then ConsumptionPhase1
    else if s == "consumption_phase_2" then ConsumptionPhase2
    else if s == "consumption_phase_3" then ConsumptionPhase3
    else if s == "current_power" then CurrentPower
    else if s == "total_energy" then TotalEnergy
    else if s == "daily_energy" then DailyEnergy
    else if s == "string1_voltage" then String1Voltage
    else if s == "string1_current" then String1Current
    else if s == "string2_voltage" then String2Voltage
    else if s == "string2_current" then String2Current
    else if s == "string3_voltage" then String3Voltage
    else if s == "string3_current" then String3Current
    else if s == "l1_voltage" then L1Voltage
    else if s == "l1_power" then L1Power
    else if s == "l2_voltage" then L2Voltage
    else if s == "l2_power" then L2Power
    else if s == "l3_voltage" then L3Voltage
    else if s == "l3_power" then L3Power
    else if s == "status" then Status
    else Other(s)
  }

  /** Parsing a key gives back the key it was parsed from. */
  lemma KeyOfParse(s: string)
    ensures Key(Parse(s)) == s
  {
    // one case per type keeps each string comparison its own small step
    match Parse(s)
    case SolarGeneratorPower =>
    case ConsumptionPhase1 =>
    case ConsumptionPhase2 =>
    case ConsumptionPhase3 =>
    case CurrentPower =>
    case TotalEnergy =>
    case DailyEnergy =>
    case String1Voltage =>
    case String1Current =>
    case String2Voltage =>
    case String2Current =>
    case String3Voltage =>
    case String3Current =>
    case L1Voltage =>
    case L1Power =>
    case L2Voltage =>
    case L2Power =>
    case L3Voltage =>
    case L3Power =>
    case Status =>
    case Other(k) =>
  }

  /** Every valid sensor type is recovered from its key. */
  lemma ParseOfKey(t: SensorType)
    requires Valid(t)
    ensures Parse(Key(t)) == t
  {
    // one case per type keeps each string comparison its own small step
    match t
    case SolarGeneratorPower =>
    case ConsumptionPhase1 =>
    case ConsumptionPhase2 =>
    case ConsumptionPhase3 =>
    case CurrentPower =>
    case TotalEnergy =>
    case DailyEnergy =>
    case String1Voltage =>
    case String1Current =>
    case String2Voltage =>
    case String2Current =>
    case String3Voltage =>
    case String3Current =>
    case L1Voltage =>
    case L1Power =>
    case L2Voltage =>
    case L2Power =>
    case L3Voltage =>
    case L3Power =>
    case Status =>
    case Other(k) =>
  }

  /** Distinct valid sensor types have distinct keys. */
  lemma KeyInjective(t: SensorType, u: SensorType)
    requires Valid(t) && Valid(u) && Key(t) == Key(u)
    ensures t == u
  {
    ParseOfKey(t);
    ParseOfKey(u);
  }
}
