/** The device state record `SaveConnectDeviceData` (__init__.py): nine
    scalar slots and one flag per alarm, each slot holding whatever value the
    last register update delivered for it. */
module Record {
  import Const
  import Text
  import opened Wrappers

  /** A register value as Python holds it: `None`, a bool, an int, a str, or
      a member of one of the vendor's enumerations. */
  datatype Value =
    | Null
    | Flag(b: bool)
    | Number(n: int)
    | Str(s: string)
    | Level(airflow: Const.Airflow)
    | Mode(mode: Const.UserMode)

  /** The alarm flags of the record, one per `alarm_*` attribute. */
  datatype Alarm =
    | SupplyAirFanControl
    | ExtractAirFanControl
    | FrostProtection
    | DefrostingMalfunction
    | SupplyAirFanRpm
    | ExtractAirFanRpm
    | FrostProtectionSensor
    | OutdoorAirTemperatureSensor
    | SupplyAirTemperatureSensor
    | RoomAirTemperatureSensor
    | ExtractAirTemperatureSensor
    | ExtraControllerTemperature
    | EfficiencyTemperature
    | OverheatTemperature
    | EmergencyThermostat
    | RotorGuardSensor
    | BypassDamperMalfunction
    | SecondaryAirDamperPosition
    | FilterChange
    | ExtraControllerMalfunction
    | ExternalStop
    | RelativeHumiditySensor
    | Co2Sensor
    | SupplyAirTemperatureLow
    | BypassDamperFeedback
    | BuiltinRelativeHumiditySensor
    | BuiltinExtractAirTemperature
    | ManualStop
    | OverheatTemperature2
    | FireAlarm
    | FilterWarning

  /** The slots of the record. */
  datatype Field =
    | DeviceModel
    | UserMode
    | AirflowLevel
    | MainBoardVersionMajor
    | MainBoardVersionMinor
    | MainBoardVersionBuild
    | IamVersionMajor
    | IamVersionMinor
    | IamVersionBuild
    | AlarmFlag(alarm: Alarm)

  /** The record. The alarm flags are kept in a map that WellFormed requires
      to be total. */
  datatype DeviceData = DeviceData(
    deviceModel: Value,
    userMode: Value,
    airflowLevel: Value,
    mainBoardVersionMajor: Value,
    mainBoardVersionMinor: Value,
    mainBoardVersionBuild: Value,
    iamVersionMajor: Value,
    iamVersionMinor: Value,
    iamVersionBuild: Value,
    alarms: map<Alarm, Value>)

  /** Every alarm, as a set. */
  function AllAlarms(): set<Alarm>
  {
    {SupplyAirFanControl, ExtractAirFanControl, FrostProtection, DefrostingMalfunction, SupplyAirFanRpm, ExtractAirFanRpm, FrostProtectionSensor, OutdoorAirTemperatureSensor, SupplyAirTemperatureSensor, RoomAirTemperatureSensor, ExtractAirTemperatureSensor, ExtraControllerTemperature, EfficiencyTemperature, OverheatTemperature, EmergencyThermostat, RotorGuardSensor, BypassDamperMalfunction, SecondaryAirDamperPosition, FilterChange, ExtraControllerMalfunction, ExternalStop, RelativeHumiditySensor, Co2Sensor, SupplyAirTemperatureLow, BypassDamperFeedback, BuiltinRelativeHumiditySensor, BuiltinExtractAirTemperature, ManualStop, OverheatTemperature2, FireAlarm, FilterWarning}
  }

  lemma AllAlarmsTotal()
    ensures forall a: Alarm :: a in AllAlarms()
  {
    forall a: Alarm ensures a in AllAlarms() {
      match a
      case SupplyAirFanControl => {}
      case ExtractAirFanControl => {}
      case FrostProtection => {}
      case DefrostingMalfunction => {}
      case SupplyAirFanRpm => {}
      case ExtractAirFanRpm => {}
      case FrostProtectionSensor => {}
      case OutdoorAirTemperatureSensor => {}
      case SupplyAirTemperatureSensor => {}
      case RoomAirTemperatureSensor => {}
      case ExtractAirTemperatureSensor => {}
      case ExtraControllerTemperature => {}
      case EfficiencyTemperature => {}
      case OverheatTemperature => {}
      case EmergencyThermostat => {}
      case RotorGuardSensor => {}
      case BypassDamperMalfunction => {}
      case SecondaryAirDamperPosition => {}
      case FilterChange => {}
      case ExtraControllerMalfunction => {}
      case ExternalStop => {}
      case RelativeHumiditySensor => {}
      case Co2Sensor => {}
      case SupplyAirTemperatureLow => {}
      case BypassDamperFeedback => {}
      case BuiltinRelativeHumiditySensor => {}
      case BuiltinExtractAirTemperature => {}
      case ManualStop => {}
      case OverheatTemperature2 => {}
      case FireAlarm => {}
      case FilterWarning => {}
    }
  }

  ghost predicate WellFormed(d: DeviceData)
  {
    forall a: Alarm :: a in d.alarms
  }

  /** `SaveConnectDeviceData()`: every scalar slot `None`, every alarm `False`. */
  function Fresh(): (d: DeviceData)
    ensures WellFormed(d)
    ensures forall f: Field :: !f.AlarmFlag? ==> Get(d, f) == Null
    ensures forall a: Alarm :: Get(d, AlarmFlag(a)) == Flag(false)
  {
    AllAlarmsTotal();
    DeviceData(Null, Null, Null, Null, Null, Null, Null, Null, Null,
      map a | a in AllAlarms() :: Flag(false))
  }

  /** Reading one slot: `getattr(state, name)`. */
  function Get(d: DeviceData, f: Field): Value
    requires WellFormed(d)
  {
    match f
    case DeviceModel => d.deviceModel
    case UserMode => d.userMode
    case AirflowLevel => d.airflowLevel
    case MainBoardVersionMajor => d.mainBoardVersionMajor
    case MainBoardVersionMinor => d.mainBoardVersionMinor
    case MainBoardVersionBuild => d.mainBoardVersionBuild
    case IamVersionMajor => d.iamVersionMajor
    case IamVersionMinor => d.iamVersionMinor
    case IamVersionBuild => d.iamVersionBuild
    case AlarmFlag(a) => d.alarms[a]
  }

  /** Writing one slot: `state.<name> = v`. Exactly that slot changes. */
  function With(d: DeviceData, f: Field, v: Value): (d': DeviceData)
    requires WellFormed(d)
    ensures WellFormed(d')
    ensures Get(d', f) == v
    ensures forall g: Field :: g != f ==> Get(d', g) == Get(d, g)
  {
    match f
    case DeviceModel => d.(deviceModel := v)
    case UserMode => d.(userMode := v)
    case AirflowLevel => d.(airflowLevel := v)
    case MainBoardVersionMajor => d.(mainBoardVersionMajor := v)
    case MainBoardVersionMinor => d.(mainBoardVersionMinor := v)
    case MainBoardVersionBuild => d.(mainBoardVersionBuild := v)
    case IamVersionMajor => d.(iamVersionMajor := v)
    case IamVersionMinor => d.(iamVersionMinor := v)
    case IamVersionBuild => d.(iamVersionBuild := v)
    case AlarmFlag(a) => d.(alarms := d.alarms[a := v])
  }

  /** The record's attribute name for each slot. */
  function FieldName(f: Field): string
  {
    match f
    case DeviceModel => "device_model"
    case UserMode => "user_mode"
    case AirflowLevel => "airflow_level"
    case MainBoardVersionMajor => "main_board_version_major"
    case MainBoardVersionMinor => "main_board_version_minor"
    case MainBoardVersionBuild => "main_board_version_build"
    case IamVersionMajor => "iam_version_major"
    case IamVersionMinor => "iam_version_minor"
    case IamVersionBuild => "iam_version_build"
    case AlarmFlag(a) => AlarmKey(a)
  }

  /** A name whose first two characters are not `al` does not start with
      `alarm_`. */
  lemma NotAlarmPrefix(name: string)
    requires |name| >= 2 && (name[0] != 'a' || name[1] != 'l')
    ensures !Text.HasPrefix(name, "alarm_")
  {
  }

  /** Only the alarm slots have names starting with `alarm_`. */
  lemma FieldNamePrefix(f: Field)
    ensures f.AlarmFlag? <==> Text.HasPrefix(FieldName(f), "alarm_")
  {
    if !f.AlarmFlag? {
      NotAlarmPrefix(FieldName(f));
    }
  }

  /** The attribute name of each alarm flag: `alarm_` followed by the
      alarm's words joined by underscores. */
  function AlarmKey(a: Alarm): (key: string)
    ensures Text.HasPrefix(key, "alarm_")
  {
    "alarm_" + Text.Join(AlarmWords(a), '_')
  }

  /** A character of a word in an attribute name. */
  type NameChar = c: char | 'a' <= c <= 'z' || '0' <= c <= '9' witness 'a'

  /** The words of each alarm's attribute name. */
  function AlarmWords(a: Alarm): (words: seq<seq<NameChar>>)
    ensures |words| >= 1
  {
    match a

    case SupplyAirFanControl => ["supply", "air", "fan", "control"]
    case ExtractAirFanControl => ["extract", "air", "fan", "control"]
    case FrostProtection => ["frost", "protection"]
    case DefrostingMalfunction => ["defrosting", "malfunction"]
    case SupplyAirFanRpm => ["supply", "air", "fan", "rpm"]
    case ExtractAirFanRpm => ["extract", "air", "fan", "rpm"]
    case FrostProtectionSensor => ["frost", "protection", "sensor"]
    case OutdoorAirTemperatureSensor => ["outdoor", "air", "temperature", "sensor"]
    case SupplyAirTemperatureSensor => ["supply", "air", "temperature", "sensor"]
    case RoomAirTemperatureSensor => ["room", "air", "temperature", "sensor"]
    case ExtractAirTemperatureSensor => ["extract", "air", "temperature", "sensor"]
    case ExtraControllerTemperature => ["extra", "controller", "temperature"]
    case EfficiencyTemperature => ["efficiency", "temperature"]
    case OverheatTemperature => ["overheat", "temperature"]
    case EmergencyThermostat => ["emergency", "thermostat"]
    case RotorGuardSensor => ["rotor", "guard", "sensor"]
    case BypassDamperMalfunction => ["bypass", "damper", "malfunction"]
    case SecondaryAirDamperPosition => ["secondary", "air", "damper", "position"]
    case FilterChange => ["filter", "change"]
    case ExtraControllerMalfunction => ["extra", "controller", "malfunction"]
    case ExternalStop => ["external", "stop"]
    case RelativeHumiditySensor => ["relative", "humidity", "sensor"]
    case Co2Sensor => ["co2", "sensor"]
    case SupplyAirTemperatureLow => ["supply", "air", "temperature", "low"]
    case BypassDamperFeedback => ["bypass", "damper", "feedback"]
    case BuiltinRelativeHumiditySensor => ["builtin", "relative", "humidity", "sensor"]
    case BuiltinExtractAirTemperature => ["builtin", "extract", "air", "temperature"]
    case ManualStop => ["manual", "stop"]
    case OverheatTemperature2 => ["overheat", "temperature2"]
    case FireAlarm => ["fire", "alarm"]
    case FilterWarning => ["filter", "warning"]
  }

  /** A word of an attribute name: no underscore, dash or space. */
  predicate PlainWord(w: string)
  {
    '_' !in w && '-' !in w && ' ' !in w
  }

  /** Words made of lower-case letters and digits are plain. */
  lemma WordsPlain(words: seq<seq<NameChar>>)
    ensures forall i :: 0 <= i < |words| ==> PlainWord(words[i])
  {
    forall i | 0 <= i < |words| ensures PlainWord(words[i]) {
      var w: seq<NameChar> := words[i];
      assert forall k :: 0 <= k < |w| ==> 'a' <= w[k] <= 'z' || '0' <= w[k] <= '9';
    }
  }

  /** `str(v)`, as an f-string renders a slot. The vendor enumerations are
      not part of this model; their members are assumed to render as their
      bare member name; no property proved here depends on that text. */
  function Render(v: Value): string
  {
    match v
    case Null => "None"
    case Flag(b) => if b then "True" else "False"
    case Number(n) => Text.IntToString(n)
    case Str(s) => s
    case Level(a) => AirflowName(a)
    case Mode(m) => ModeName(m)
  }

  function AirflowName(a: Const.Airflow): string
  {
    match a
    case Off => "OFF"
    case Minimum => "MINIMUM"
    case Low => "LOW"
    case Normal => "NORMAL"
    case High => "HIGH"
    case Maximum => "MAXIMUM"
  }

  function ModeName(m: Const.UserMode): string
  {
    match m
    case Auto => "AUTO"
    case Manual => "MANUAL"
    case Away => "AWAY"
    case Crowded => "CROWDED"
    case Fireplace => "FIREPLACE"
    case Holiday => "HOLIDAY"
    case OtherMode(code) => "MODE_" + Text.IntToString(code)
  }

  /** A version string `"<major>.<minor>.<build>"` built from three slots. */
  function VersionString(major: Value, minor: Value, build: Value): string
  {
    Render(major) + "." + Render(minor) + "." + Render(build)
  }

  /** The `iam_version` property: when the three parts render without a
      dot, the string splits on `.` back into them. */
  function IamVersion(d: DeviceData): (version: string)
    ensures DotFree(d.iamVersionMajor) && DotFree(d.iamVersionMinor) && DotFree(d.iamVersionBuild) ==>
              Text.Split(version, '.') == [Render(d.iamVersionMajor), Render(d.iamVersionMinor), Render(d.iamVersionBuild)]
  {
    if DotFree(d.iamVersionMajor) && DotFree(d.iamVersionMinor) && DotFree(d.iamVersionBuild) then
      VersionStringParts(d.iamVersionMajor, d.iamVersionMinor, d.iamVersionBuild);
      VersionString(d.iamVersionMajor, d.iamVersionMinor, d.iamVersionBuild)
    else
      VersionString(d.iamVersionMajor, d.iamVersionMinor, d.iamVersionBuild)
  }

  /** The `main_board_version` property, with the same round trip. */
  function MainBoardVersion(d: DeviceData): (version: string)
    ensures DotFree(d.mainBoardVersionMajor) && DotFree(d.mainBoardVersionMinor) && DotFree(d.mainBoardVersionBuild) ==>
              Text.Split(version, '.') == [Render(d.mainBoardVersionMajor), Render(d.mainBoardVersionMinor), Render(d.mainBoardVersionBuild)]
  {
    if DotFree(d.mainBoardVersionMajor) && DotFree(d.mainBoardVersionMinor) && DotFree(d.mainBoardVersionBuild) then
      VersionStringParts(d.mainBoardVersionMajor, d.mainBoardVersionMinor, d.mainBoardVersionBuild);
      VersionString(d.mainBoardVersionMajor, d.mainBoardVersionMinor, d.mainBoardVersionBuild)
    else
      VersionString(d.mainBoardVersionMajor, d.mainBoardVersionMinor, d.mainBoardVersionBuild)
  }

  /** A rendered value that holds no dot: `None`, a bool, an int. */
  predicate DotFree(v: Value)
  {
    v.Null? || v.Flag? || v.Number?
  }

  /** `None`, a bool and an int render without a dot. */
  lemma RenderDotFree(v: Value)
    requires DotFree(v)
    ensures '.' !in Render(v)
  {
    if v.Number? {
      var s := Text.IntToString(v.n);
      assert forall k :: 0 <= k < |s| ==> s[k] != '.';
    }
  }

  /** Splitting a version string on `.` gives back the three rendered parts
      whenever none of them holds a dot, as is so for `None` and ints. */
  lemma VersionStringParts(major: Value, minor: Value, build: Value)
    requires DotFree(major) && DotFree(minor) && DotFree(build)
    ensures Text.Split(VersionString(major, minor, build), '.') == [Render(major), Render(minor), Render(build)]
  {
    RenderDotFree(major);
    RenderDotFree(minor);
    RenderDotFree(build);
    Text.SplitThree(Render(major), Render(minor), Render(build), '.');
  }

  lemma JoinAlarm(words: seq<string>)
    requires |words| >= 1
    ensures Text.Join(["alarm"] + words, '_') == "alarm_" + Text.Join(words, '_')
  {
    var parts := ["alarm"] + words;
    assert parts[1..] == words;
    assert Text.Join(parts, '_') == parts[0] + ['_'] + Text.Join(parts[1..], '_');
    assert "alarm" + ['_'] == "alarm_";
  }

  lemma AlarmPartsPlain(words: seq<string>)
    requires forall i :: 0 <= i < |words| ==> PlainWord(words[i])
    ensures forall i :: 0 <= i < |["alarm"] + words| ==> PlainWord((["alarm"] + words)[i])
  {
    var parts := ["alarm"] + words;
    assert PlainWord(parts[0]);
    forall i | 0 <= i < |parts| ensures PlainWord(parts[i]) {
      if i > 0 { assert parts[i] == words[i - 1]; }
    }
  }

  /** A key made of `alarm` and plain words, joined by underscores, holds
      neither a dash nor a space and splits back into those words. */
  lemma KeyShape(words: seq<string>)
    requires |words| >= 1
    requires forall i :: 0 <= i < |words| ==> PlainWord(words[i])
    ensures '-' !in "alarm_" + Text.Join(words, '_')
    ensures ' ' !in "alarm_" + Text.Join(words, '_')
    ensures Text.Split("alarm_" + Text.Join(words, '_'), '_') == ["alarm"] + words
  {
    var parts := ["alarm"] + words;
    JoinAlarm(words);
    AlarmPartsPlain(words);
    Text.JoinAvoids(parts, '_', '-');
    Text.JoinAvoids(parts, '_', ' ');
    Text.SplitJoin(parts, '_');
  }

  /** An alarm's attribute name holds neither a dash nor a space, and
      splitting it on underscores gives `alarm` followed by its words. */
  lemma AlarmKeyShape(a: Alarm)
    ensures '-' !in AlarmKey(a) && ' ' !in AlarmKey(a)
    ensures Text.Split(AlarmKey(a), '_') == ["alarm"] + AlarmWords(a)
  {
    WordsPlain(AlarmWords(a));
    KeyShape(AlarmWords(a));
  }

  /** Reads an alarm back from its words. */
  function WordsToAlarm(words: seq<string>): Option<Alarm>
  {
    if |words| == 2 then TwoWords(words[0], words[1])
    else if |words| == 3 then ThreeWords(words[0], words[1], words[2])
    else if |words| == 4 then FourWords(words[0], words[1], words[2], words[3])
    else None
  }

  function TwoWords(w0: string, w1: string): Option<Alarm>
  {
    if w0 == "frost" && w1 == "protection" then Some(FrostProtection)
    else if w0 == "defrosting" && w1 == "malfunction" then Some(DefrostingMalfunction)
    else if w0 == "efficiency" && w1 == "temperature" then Some(EfficiencyTemperature)
    else if w0 == "overheat" && w1 == "temperature" then Some(OverheatTemperature)
    else if w0 == "emergency" && w1 == "thermostat" then Some(EmergencyThermostat)
    else if w0 == "filter" && w1 == "change" then Some(FilterChange)
    else if w0 == "external" && w1 == "stop" then Some(ExternalStop)
    else if w0 == "co2" && w1 == "sensor" then Some(Co2Sensor)
    else if w0 == "manual" && w1 == "stop" then Some(ManualStop)
    else if w0 == "overheat" && w1 == "temperature2" then Some(OverheatTemperature2)
    else if w0 == "fire" && w1 == "alarm" then Some(FireAlarm)
    else if w0 == "filter" && w1 == "warning" then Some(FilterWarning)
    else None
  }

  function ThreeWords(w0: string, w1: string, w2: string): Option<Alarm>
  {
    if w0 == "frost" && w1 == "protection" && w2 == "sensor" then Some(FrostProtectionSensor)
    else if w0 == "extra" && w1 == "controller" && w2 == "temperature" then Some(ExtraControllerTemperature)
    else if w0 == "rotor" && w1 == "guard" && w2 == "sensor" then Some(RotorGuardSensor)
    else if w0 == "bypass" && w1 == "damper" && w2 == "malfunction" then Some(BypassDamperMalfunction)
    else if w0 == "extra" && w1 == "controller" && w2 == "malfunction" then Some(ExtraControllerMalfunction)
    else if w0 == "relative" && w1 == "humidity" && w2 == "sensor" then Some(RelativeHumiditySensor)
    else if w0 == "bypass" && w1 == "damper" && w2 == "feedback" then Some(BypassDamperFeedback)
    else None
  }

  function FourWords(w0: string, w1: string, w2: string, w3: string): Option<Alarm>
  {
    if w0 == "supply" && w1 == "air" && w2 == "fan" && w3 == "control" then Some(SupplyAirFanControl)
    else if w0 == "extract" && w1 == "air" && w2 == "fan" && w3 == "control" then Some(ExtractAirFanControl)
    else if w0 == "supply" && w1 == "air" && w2 == "fan" && w3 == "rpm" then Some(SupplyAirFanRpm)
    else if w0 == "extract" && w1 == "air" && w2 == "fan" && w3 == "rpm" then Some(ExtractAirFanRpm)
    else if w0 == "outdoor" && w1 == "air" && w2 == "temperature" && w3 == "sensor" then Some(OutdoorAirTemperatureSensor)
    else if w0 == "supply" && w1 == "air" && w2 == "temperature" && w3 == "sensor" then Some(SupplyAirTemperatureSensor)
    else if w0 == "room" && w1 == "air" && w2 == "temperature" && w3 == "sensor" then Some(RoomAirTemperatureSensor)
    else if w0 == "extract" && w1 == "air" && w2 == "temperature" && w3 == "sensor" then Some(ExtractAirTemperatureSensor)
    else if w0 == "secondary" && w1 == "air" && w2 == "damper" && w3 == "position" then Some(SecondaryAirDamperPosition)
    else if w0 == "supply" && w1 == "air" && w2 == "temperature" && w3 == "low" then Some(SupplyAirTemperatureLow)
    else if w0 == "builtin" && w1 == "relative" && w2 == "humidity" && w3 == "sensor" then Some(BuiltinRelativeHumiditySensor)
    else if w0 == "builtin" && w1 == "extract" && w2 == "air" && w3 == "temperature" then Some(BuiltinExtractAirTemperature)
    else None
  }

  lemma WordsToAlarmPart1(a: Alarm)
    requires a == FrostProtection || a == DefrostingMalfunction || a == EfficiencyTemperature || a == OverheatTemperature || a == EmergencyThermostat || a == FilterChange
    ensures WordsToAlarm(AlarmWords(a)) == Some(a)
  {
  }

  lemma WordsToAlarmPart2(a: Alarm)
    requires a == ExternalStop || a == Co2Sensor || a == ManualStop || a == OverheatTemperature2 || a == FireAlarm || a == FilterWarning
    ensures WordsToAlarm(AlarmWords(a)) == Some(a)
  {
  }

  lemma WordsToAlarmPart3(a: Alarm)
    requires a == FrostProtectionSensor || a == ExtraControllerTemperature || a == RotorGuardSensor || a == BypassDamperMalfunction || a == ExtraControllerMalfunction || a == RelativeHumiditySensor || a == BypassDamperFeedback
    ensures WordsToAlarm(AlarmWords(a)) == Some(a)
  {
  }

  lemma WordsToAlarmPart4(a: Alarm)
    requires a == SupplyAirFanControl || a == ExtractAirFanControl || a == SupplyAirFanRpm || a == ExtractAirFanRpm || a == OutdoorAirTemperatureSensor || a == SupplyAirTemperatureSensor
    ensures WordsToAlarm(AlarmWords(a)) == Some(a)
  {
  }

  lemma WordsToAlarmPart5(a: Alarm)
    requires a == RoomAirTemperatureSensor || a == ExtractAirTemperatureSensor || a == SecondaryAirDamperPosition || a == SupplyAirTemperatureLow || a == BuiltinRelativeHumiditySensor || a == BuiltinExtractAirTemperature
    ensures WordsToAlarm(AlarmWords(a)) == Some(a)
  {
  }

  /** Each alarm is read back from its words. */
  lemma WordsToAlarmInverse(a: Alarm)
    ensures WordsToAlarm(AlarmWords(a)) == Some(a)
  {
    if a == FrostProtection || a == DefrostingMalfunction || a == EfficiencyTemperature || a == OverheatTemperature || a == EmergencyThermostat || a == FilterChange {
      WordsToAlarmPart1(a);
    } else if a == ExternalStop || a == Co2Sensor || a == ManualStop || a == OverheatTemperature2 || a == FireAlarm || a == FilterWarning {
      WordsToAlarmPart2(a);
    } else if a == FrostProtectionSensor || a == ExtraControllerTemperature || a == RotorGuardSensor || a == BypassDamperMalfunction || a == ExtraControllerMalfunction || a == RelativeHumiditySensor || a == BypassDamperFeedback {
      WordsToAlarmPart3(a);
    } else if a == SupplyAirFanControl || a == ExtractAirFanControl || a == SupplyAirFanRpm || a == ExtractAirFanRpm || a == OutdoorAirTemperatureSensor || a == SupplyAirTemperatureSensor {
      WordsToAlarmPart4(a);
    } else {
      WordsToAlarmPart5(a);
    }
  }

  /** Distinct alarms have distinct attribute names. */
  lemma AlarmKeyInjective(a: Alarm, b: Alarm)
    requires AlarmKey(a) == AlarmKey(b)
    ensures a == b
  {
    AlarmKeyShape(a);
    AlarmKeyShape(b);
    assert (["alarm"] + AlarmWords(a))[1..] == AlarmWords(a);
    assert (["alarm"] + AlarmWords(b))[1..] == AlarmWords(b);
    WordsToAlarmInverse(a);
    WordsToAlarmInverse(b);
  }
  /** Distinct slots have distinct attribute names. */
  lemma FieldNameInjective(f: Field, g: Field)
    requires FieldName(f) == FieldName(g)
    ensures f == g
  {
    FieldNamePrefix(f);
    FieldNamePrefix(g);
    if f.AlarmFlag? && g.AlarmFlag? {
      AlarmKeyInjective(f.alarm, g.alarm);
    }
  }


  /** A fresh record reports both versions as `"None.None.None"`. */
  lemma FreshVersions()
    ensures IamVersion(Fresh()) == "None.None.None"
    ensures MainBoardVersion(Fresh()) == "None.None.None"
  {
    var d := Fresh();
    assert d.iamVersionMajor == d.iamVersionMinor == d.iamVersionBuild == Null;
    assert d.mainBoardVersionMajor == d.mainBoardVersionMinor == d.mainBoardVersionBuild == Null;
  }
}
