/** The alarm binary sensors (binary_sensor.py): one description per
    `alarm_` attribute of a device's state record, a display name made of the
    key's capitalised parts, a value function that compares the stored value
    with `'active'`, and the sensor entities built from the descriptions. */
module BinarySensor {
  import opened Record
  import Text
  import Device

  const SaveConnectName := "SAVE Connect"

  /** An attribute `dir()` lists on a state record: a data field, or one of
      the two version properties. */
  datatype Attribute = Slot(field: Field) | IamVersionProperty | MainBoardVersionProperty

  function AttributeName(attr: Attribute): string
  {
    match attr
    case Slot(f) => FieldName(f)
    case IamVersionProperty => "iam_version"
    case MainBoardVersionProperty => "main_board_version"
  }

  /** Only the alarm flags have names starting with `alarm_`. */
  lemma AttributeNamePrefix(attr: Attribute)
    ensures Text.HasPrefix(AttributeName(attr), "alarm_") <==> attr.Slot? && attr.field.AlarmFlag?
  {
    match attr
    case Slot(f) => FieldNamePrefix(f);
    case IamVersionProperty => assert AttributeName(attr)[0] != "alarm_"[0];
    case MainBoardVersionProperty => assert AttributeName(attr)[0] != "alarm_"[0];
  }

  /** `getattr(state, name)` for an attribute of the record. */
  function AttributeValue(d: DeviceData, attr: Attribute): Value
    requires WellFormed(d)
  {
    match attr
    case Slot(f) => Get(d, f)
    case IamVersionProperty => Str(IamVersion(d))
    case MainBoardVersionProperty => Str(MainBoardVersion(d))
  }

  /** The i-th public attribute `dir()` lists on a state record, in its
      sorted order. */
  function AttributeAt(i: nat): Attribute
  {
    match i
    case 0 => Slot(AirflowLevel)
    case 1 => Slot(AlarmFlag(BuiltinExtractAirTemperature))
    case 2 => Slot(AlarmFlag(BuiltinRelativeHumiditySensor))
    case 3 => Slot(AlarmFlag(BypassDamperFeedback))
    case 4 => Slot(AlarmFlag(BypassDamperMalfunction))
    case 5 => Slot(AlarmFlag(Co2Sensor))
    case 6 => Slot(AlarmFlag(DefrostingMalfunction))
    case 7 => Slot(AlarmFlag(EfficiencyTemperature))
    case 8 => Slot(AlarmFlag(EmergencyThermostat))
    case 9 => Slot(AlarmFlag(ExternalStop))
    case 10 => Slot(AlarmFlag(ExtraControllerMalfunction))
    case 11 => Slot(AlarmFlag(ExtraControllerTemperature))
    case 12 => Slot(AlarmFlag(ExtractAirFanControl))
    case 13 => Slot(AlarmFlag(ExtractAirFanRpm))
    case 14 => Slot(AlarmFlag(ExtractAirTemperatureSensor))
    case 15 => Slot(AlarmFlag(FilterChange))
    case 16 => Slot(AlarmFlag(FilterWarning))
    case 17 => Slot(AlarmFlag(FireAlarm))
    case 18 => Slot(AlarmFlag(FrostProtection))
    case 19 => Slot(AlarmFlag(FrostProtectionSensor))
    case 20 => Slot(AlarmFlag(ManualStop))
    case 21 => Slot(AlarmFlag(OutdoorAirTemperatureSensor))
    case 22 => Slot(AlarmFlag(OverheatTemperature))
    case 23 => Slot(AlarmFlag(OverheatTemperature2))
    case 24 => Slot(AlarmFlag(RelativeHumiditySensor))
    case 25 => Slot(AlarmFlag(RoomAirTemperatureSensor))
    case 26 => Slot(AlarmFlag(RotorGuardSensor))
    case 27 => Slot(AlarmFlag(SecondaryAirDamperPosition))
    case 28 => Slot(AlarmFlag(SupplyAirFanControl))
    case 29 => Slot(AlarmFlag(SupplyAirFanRpm))
    case 30 => Slot(AlarmFlag(SupplyAirTemperatureLow))
    case 31 => Slot(AlarmFlag(SupplyAirTemperatureSensor))
    case 32 => Slot(DeviceModel)
    case 33 => IamVersionProperty
    case 34 => Slot(IamVersionBuild)
    case 35 => Slot(IamVersionMajor)
    case 36 => Slot(IamVersionMinor)
    case 37 => MainBoardVersionProperty
    case 38 => Slot(MainBoardVersionBuild)
    case 39 => Slot(MainBoardVersionMajor)
    case 40 => Slot(MainBoardVersionMinor)
    case _ => Slot(UserMode)
  }

  /** Where each attribute stands in that order. */
  function Position(attr: Attribute): (i: nat)
    ensures i < 42 && AttributeAt(i) == attr
  {
    match attr
    case Slot(AlarmFlag(a)) => (
      match a
      case BuiltinExtractAirTemperature => 1
      case BuiltinRelativeHumiditySensor => 2
      case BypassDamperFeedback => 3
      case BypassDamperMalfunction => 4
      case Co2Sensor => 5
      case DefrostingMalfunction => 6
      case EfficiencyTemperature => 7
      case EmergencyThermostat => 8
      case ExternalStop => 9
      case ExtraControllerMalfunction => 10
      case ExtraControllerTemperature => 11
      case ExtractAirFanControl => 12
      case ExtractAirFanRpm => 13
      case ExtractAirTemperatureSensor => 14
      case FilterChange => 15
      case FilterWarning => 16
      case FireAlarm => 17
      case FrostProtection => 18
      case FrostProtectionSensor => 19
      case ManualStop => 20
      case OutdoorAirTemperatureSensor => 21
      case OverheatTemperature => 22
      case OverheatTemperature2 => 23
      case RelativeHumiditySensor => 24
      case RoomAirTemperatureSensor => 25
      case RotorGuardSensor => 26
      case SecondaryAirDamperPosition => 27
      case SupplyAirFanControl => 28
      case SupplyAirFanRpm => 29
      case SupplyAirTemperatureLow => 30
      case SupplyAirTemperatureSensor => 31
    )
    case Slot(AirflowLevel) => 0
    case Slot(DeviceModel) => 32
    case IamVersionProperty => 33
    case Slot(IamVersionBuild) => 34
    case Slot(IamVersionMajor) => 35
    case Slot(IamVersionMinor) => 36
    case MainBoardVersionProperty => 37
    case Slot(MainBoardVersionBuild) => 38
    case Slot(MainBoardVersionMajor) => 39
    case Slot(MainBoardVersionMinor) => 40
    case Slot(UserMode) => 41
  }

  lemma PositionAtFrom0(k: nat)
    requires k < 6
    ensures Position(AttributeAt(0 + k)) == 0 + k
  {
    match k
    case 0 =>
    case 1 =>
    case 2 =>
    case 3 =>
    case 4 =>
    case _ =>
  }

  lemma PositionAtFrom6(k: nat)
    requires k < 6
    ensures Position(AttributeAt(6 + k)) == 6 + k
  {
    match k
    case 0 =>
    case 1 =>
    case 2 =>
    case 3 =>
    case 4 =>
    case _ =>
  }

  lemma PositionAtFrom12(k: nat)
    requires k < 6
    ensures Position(AttributeAt(12 + k)) == 12 + k
  {
    match k
    case 0 =>
    case 1 =>
    case 2 =>
    case 3 =>
    case 4 =>
    case _ =>
  }

  lemma PositionAtFrom18(k: nat)
    requires k < 6
    ensures Position(AttributeAt(18 + k)) == 18 + k
  {
    match k
    case 0 =>
    case 1 =>
    case 2 =>
    case 3 =>
    case 4 =>
    case _ =>
  }

  lemma PositionAtFrom24(k: nat)
    requires k < 6
    ensures Position(AttributeAt(24 + k)) == 24 + k
  {
    match k
    case 0 =>
    case 1 =>
    case 2 =>
    case 3 =>
    case 4 =>
    case _ =>
  }

  lemma PositionAtFrom30(k: nat)
    requires k < 6
    ensures Position(AttributeAt(30 + k)) == 30 + k
  {
    match k
    case 0 =>
    case 1 =>
    case 2 =>
    case 3 =>
    case 4 =>
    case _ =>
  }

  lemma PositionAtFrom36(k: nat)
    requires k < 6
    ensures Position(AttributeAt(36 + k)) == 36 + k
  {
    match k
    case 0 =>
    case 1 =>
    case 2 =>
    case 3 =>
    case 4 =>
    case _ =>
  }

  /** Position undoes AttributeAt: `dir()` lists each attribute once. */
  lemma PositionAt(i: nat)
    requires i < 42
    ensures Position(AttributeAt(i)) == i
  {
    if i < 6 {
      PositionAtFrom0(i);
    } else if i < 12 {
      PositionAtFrom6(i - 6);
    } else if i < 18 {
      PositionAtFrom12(i - 12);
    } else if i < 24 {
      PositionAtFrom18(i - 18);
    } else if i < 30 {
      PositionAtFrom24(i - 24);
    } else if i < 36 {
      PositionAtFrom30(i - 30);
    } else {
      PositionAtFrom36(i - 36);
    }
  }

  /** Attributes listed in `dir()` order, each at most once. */
  predicate InListingOrder(attrs: seq<Attribute>)
  {
    forall i, j :: 0 <= i < j < |attrs| ==> Position(attrs[i]) < Position(attrs[j])
  }

  /** The public attributes of a state record, as `dir()` lists them: each
      attribute exactly once, in sorted order. */
  function RecordAttributes(): (attrs: seq<Attribute>)
    ensures forall attr: Attribute :: attr in attrs
    ensures |attrs| == 42 && forall i :: 0 <= i < |attrs| ==> Position(attrs[i]) == i
    ensures InListingOrder(attrs)
  {
    var attrs := seq(42, i requires 0 <= i => AttributeAt(i));
    forall attr: Attribute ensures attr in attrs {
      assert attrs[Position(attr)] == attr;
    }
    forall i | 0 <= i < |attrs| ensures Position(attrs[i]) == i {
      PositionAt(i);
    }
    attrs
  }

  /** The names the list comprehension keeps: those starting with `alarm_`,
      in the order `dir()` gives them. */
  function SensorAttributes(attrs: seq<Attribute>): (selected: seq<Attribute>)
    ensures forall attr :: attr in selected <==> attr in attrs && Text.HasPrefix(AttributeName(attr), "alarm_")
    ensures |selected| <= |attrs|
  {
    if |attrs| == 0 then []
    else
      var init := SensorAttributes(attrs[..|attrs| - 1]);
      var last := attrs[|attrs| - 1];
      assert attrs == attrs[..|attrs| - 1] + [last];
      if Text.HasPrefix(AttributeName(last), "alarm_") then init + [last] else init
  }

  /** The selection keeps the listing order: from a listing without
      repeats it selects each kept attribute once, in that order. */
  lemma {:induction false} SensorAttributesOrder(attrs: seq<Attribute>)
    requires InListingOrder(attrs)
    ensures InListingOrder(SensorAttributes(attrs))
  {
    if |attrs| > 0 {
      var prior := attrs[..|attrs| - 1];
      var last := attrs[|attrs| - 1];
      var init := SensorAttributes(prior);
      SensorAttributesOrder(prior);
      assert SensorAttributes(attrs) == if Text.HasPrefix(AttributeName(last), "alarm_") then init + [last] else init;
      forall k | 0 <= k < |init| ensures Position(init[k]) < Position(last) {
        assert init[k] in prior;
        var j :| 0 <= j < |prior| && prior[j] == init[k];
        assert attrs[j] == prior[j];
      }
    }
  }

  /** On a state record the selection is exactly the alarm flags. */
  lemma RecordSensorAttributes()
    ensures forall attr :: attr in SensorAttributes(RecordAttributes()) <==> attr.Slot? && attr.field.AlarmFlag?
  {
    forall attr ensures attr in SensorAttributes(RecordAttributes()) <==> attr.Slot? && attr.field.AlarmFlag? {
      AttributeNamePrefix(attr);
    }
  }

  /** The alarm attributes of a state record, as the comprehension selects
      them. */
  function AlarmAttributes(): (attrs: seq<Attribute>)
    ensures forall attr :: attr in attrs <==> attr.Slot? && attr.field.AlarmFlag?
    ensures 1 <= |attrs| <= 42
    ensures AlarmsOnly(attrs)
    ensures InListingOrder(attrs)
  {
    RecordSensorAttributes();
    SensorAttributesOrder(RecordAttributes());
    var attrs := SensorAttributes(RecordAttributes());
    assert Slot(AlarmFlag(FireAlarm)) in attrs;
    attrs
  }

  /** `' '.join([x.capitalize() for x in key.split("_")])`. */
  function DisplayName(key: string): (name: string)
  {
    var parts := Text.Split(key, '_');
    Text.Join(seq(|parts|, i requires 0 <= i < |parts| => Text.Capitalize(parts[i])), ' ')
  }

  /** A key without spaces has a display name whose words are its parts,
      capitalised: as many words as the key has `_`-separated parts. */
  lemma DisplayNameWords(key: string)
    requires ' ' !in key
    ensures var parts := Text.Split(key, '_');
            var words := Text.Split(DisplayName(key), ' ');
            |words| == |parts| && forall i :: 0 <= i < |parts| ==> words[i] == Text.Capitalize(parts[i])
  {
    var parts := Text.Split(key, '_');
    var caps := seq(|parts|, i requires 0 <= i < |parts| => Text.Capitalize(parts[i]));
    forall i | 0 <= i < |parts| ensures ' ' !in caps[i] {
      if ' ' in parts[i] {
        Text.JoinContains(parts, '_', i, ' ');
        assert false;
      }
      Text.CapitalizeAvoidsSpace(parts[i]);
    }
    Text.SplitJoin(caps, ' ');
  }

  lemma CapitalizeAlarm()
    ensures Text.Capitalize("alarm") == "Alarm"
  {
    var r := Text.Capitalize("alarm");
    assert r[0] == 'A' && r[1] == 'l' && r[2] == 'a' && r[3] == 'r' && r[4] == 'm';
  }

  /** The display name of an alarm flag starts with the word "Alarm". */
  lemma AlarmDisplayNamePrefix(a: Alarm)
    ensures Text.HasPrefix(DisplayName(AlarmKey(a)), "Alarm ")
  {
    AlarmKeyShape(a);
    var parts := Text.Split(AlarmKey(a), '_');
    var caps := seq(|parts|, i requires 0 <= i < |parts| => Text.Capitalize(parts[i]));
    CapitalizeAlarm();
    assert caps[0] == "Alarm";
    Text.JoinHead(caps, ' ');
  }

  /** The display name of an alarm flag has one word more than the alarm:
      "Alarm" and one capitalised word per word of the alarm. */
  lemma AlarmDisplayNameWords(a: Alarm)
    ensures |Text.Split(DisplayName(AlarmKey(a)), ' ')| == 1 + |AlarmWords(a)|
  {
    AlarmKeyShape(a);
    DisplayNameWords(AlarmKey(a));
  }

  /** `wrap(dev, key)()`: the stored value compared with `'active'`. */
  predicate Active(v: Value)
  {
    v == Str("active")
  }

  /** A sensor description: the attribute it reads and the device whose
      state its value function reads. The list building below does not look
      at the attribute, so it is written for any attribute type. */
  datatype Description<A> = Description(attr: A, owner: Device.SaveConnectDevice)

  /** The description's key: the attribute's name. */
  function Key(d: Description<Attribute>): string
  {
    AttributeName(d.attr)
  }

  /** The description's display name, derived from its key. */
  function Name(d: Description<Attribute>): string
  {
    DisplayName(Key(d))
  }

  lemma MulSucc(n: nat, m: nat)
    ensures n * m + m == (n + 1) * m
  {
  }

  /** Every listed attribute is an alarm flag. */
  predicate AlarmsOnly(names: seq<Attribute>)
  {
    forall k :: 0 <= k < |names| ==> names[k].Slot? && names[k].field.AlarmFlag?
  }

  /** The descriptions the inner loop appends for one device: one per
      selected attribute, in order. */
  function DescriptionsFor<A>(device: Device.SaveConnectDevice, names: seq<A>): (ds: seq<Description<A>>)
    ensures |ds| == |names|
    ensures forall k :: 0 <= k < |ds| ==> ds[k].owner == device && ds[k].attr == names[k]
  {
    if |names| == 0 then []
    else DescriptionsFor(device, names[..|names| - 1]) + [Description(names[|names| - 1], device)]
  }

  /** The descriptions accumulated by the outer loop, over all devices. */
  function Accumulated<A>(devices: seq<Device.SaveConnectDevice>, names: seq<A>): (ds: seq<Description<A>>)
    ensures |ds| == |devices| * |names|
  {
    if |devices| == 0 then []
    else
      MulSucc(|devices| - 1, |names|);
      Accumulated(devices[..|devices| - 1], names) + DescriptionsFor(devices[|devices| - 1], names)
  }

  /** Every accumulated description is made for one of the devices, from
      one of the selected attributes. */
  lemma {:induction false} AccumulatedOwners<A>(devices: seq<Device.SaveConnectDevice>, names: seq<A>, d: Description<A>)
    requires d in Accumulated(devices, names)
    ensures d.owner in devices && d.attr in names
  {
    var init := devices[..|devices| - 1];
    assert Accumulated(devices, names) == Accumulated(init, names) + DescriptionsFor(devices[|devices| - 1], names);
    if d in Accumulated(init, names) {
      AccumulatedOwners(init, names, d);
      var i :| 0 <= i < |init| && init[i] == d.owner;
      assert devices[i] == d.owner;
    } else {
      var ds := DescriptionsFor(devices[|devices| - 1], names);
      var k :| 0 <= k < |ds| && ds[k] == d;
      assert d.attr == names[k];
    }
  }

  /** Every device's descriptions are all accumulated. */
  lemma {:induction false} AccumulatedHas<A>(devices: seq<Device.SaveConnectDevice>, names: seq<A>, i: nat, k: nat)
    requires i < |devices| && k < |names|
    ensures DescriptionsFor(devices[i], names)[k] in Accumulated(devices, names)
  {
    var init := devices[..|devices| - 1];
    var last := DescriptionsFor(devices[|devices| - 1], names);
    assert Accumulated(devices, names) == Accumulated(init, names) + last;
    if i < |init| {
      AccumulatedHas(init, names, i, k);
      assert init[i] == devices[i];
    } else {
      assert last[k] in last;
    }
  }

  /** A binary-sensor entity: the device it is attached to (its unique id
      and its coordinator) and its description (its key, its name and the
      device its value function reads). */
  datatype Sensor<A> = Sensor(device: Device.SaveConnectDevice, description: Description<A>)

  /** One entity per device, all for the same description. */
  function Row<A>(devices: seq<Device.SaveConnectDevice>, d: Description<A>): (row: seq<Sensor<A>>)
    ensures |row| == |devices|
    ensures forall j :: 0 <= j < |row| ==> row[j] == Sensor(devices[j], d)
  {
    if |devices| == 0 then []
    else Row(devices[..|devices| - 1], d) + [Sensor(devices[|devices| - 1], d)]
  }

  /** The entity list comprehension: for every description, one entity per
      device. */
  function Cross<A>(ds: seq<Description<A>>, devices: seq<Device.SaveConnectDevice>): (sensors: seq<Sensor<A>>)
    ensures |sensors| == |ds| * |devices|
  {
    if |ds| == 0 then []
    else
      MulSucc(|ds| - 1, |devices|);
      Cross(ds[..|ds| - 1], devices) + Row(devices, ds[|ds| - 1])
  }

  /** Every entity pairs one of the devices with one of the descriptions. */
  lemma {:induction false} CrossMember<A>(ds: seq<Description<A>>, devices: seq<Device.SaveConnectDevice>, s: Sensor<A>)
    requires s in Cross(ds, devices)
    ensures s.device in devices && s.description in ds
  {
    var init := ds[..|ds| - 1];
    var row := Row(devices, ds[|ds| - 1]);
    assert Cross(ds, devices) == Cross(init, devices) + row;
    if s in Cross(init, devices) {
      CrossMember(init, devices, s);
      var i :| 0 <= i < |init| && init[i] == s.description;
      assert ds[i] == s.description;
    } else {
      var j :| 0 <= j < |row| && row[j] == s;
      assert s.device == devices[j];
    }
  }

  /** Every description is paired with every device. */
  lemma {:induction false} CrossHas<A>(ds: seq<Description<A>>, devices: seq<Device.SaveConnectDevice>, i: nat, j: nat)
    requires i < |ds| && j < |devices|
    ensures Sensor(devices[j], ds[i]) in Cross(ds, devices)
  {
    var init := ds[..|ds| - 1];
    var row := Row(devices, ds[|ds| - 1]);
    assert Cross(ds, devices) == Cross(init, devices) + row;
    if i < |init| {
      CrossHas(init, devices, i, j);
      assert init[i] == ds[i];
    } else {
      assert row[j] == Sensor(devices[j], ds[i]);
    }
  }

  /** The inner loop of `async_setup_entry`: one description appended per
      selected attribute of one device. */
  method AppendDescriptions<A>(descriptions: seq<Description<A>>, device: Device.SaveConnectDevice, sensorNames: seq<A>)
    returns (result: seq<Description<A>>)
    ensures result == descriptions + DescriptionsFor(device, sensorNames)
  {
    ghost var mine := DescriptionsFor(device, sensorNames);
    result := descriptions;
    var k := 0;
    while k < |sensorNames|
      invariant 0 <= k <= |sensorNames|
      invariant result == descriptions + mine[..k]
    {
      assert mine[..k + 1] == mine[..k] + [Description(sensorNames[k], device)];
      result := result + [Description(sensorNames[k], device)];
      k := k + 1;
    }
    assert mine[..k] == mine;
  }

  /** `async_setup_entry` without the platform plumbing: the outer loop
      over the devices, then the entities. `attrs` is what `dir()` lists on
      a state record (`RecordAttributes()`). */
  method SetupEntry(devices: seq<Device.SaveConnectDevice>, attrs: seq<Attribute>)
    returns (descriptions: seq<Description<Attribute>>, sensors: seq<Sensor<Attribute>>)
    ensures descriptions == Accumulated(devices, SensorAttributes(attrs))
    ensures sensors == Cross(descriptions, devices)
  {
    ghost var names := SensorAttributes(attrs);
    descriptions := [];
    var i := 0;
    while i < |devices|
      invariant 0 <= i <= |devices|
      invariant descriptions == Accumulated(devices[..i], names)
    {
      var sensorNames := SensorAttributes(attrs);
      descriptions := AppendDescriptions(descriptions, devices[i], sensorNames);
      assert devices[..i + 1][..i] == devices[..i];
      assert Accumulated(devices[..i + 1], names) == Accumulated(devices[..i], names) + DescriptionsFor(devices[i], names);
      i := i + 1;
    }
    assert devices[..i] == devices;
    sensors := Cross(descriptions, devices);
  }

  /** `_attr_name`: the display name of the description's key, which for
      an alarm starts with `Alarm `. */
  function SensorName(s: Sensor<Attribute>): (name: string)
    ensures s.description.attr.Slot? && s.description.attr.field.AlarmFlag? ==> Text.HasPrefix(name, "Alarm ")
  {
    if s.description.attr.Slot? && s.description.attr.field.AlarmFlag? then
      var alarm := s.description.attr.field.alarm;
      assert Key(s.description) == AlarmKey(alarm);
      AlarmDisplayNamePrefix(alarm);
      Name(s.description)
    else
      Name(s.description)
  }

  /** `_attr_unique_id`: the integration name, the device id and the key,
      joined by dashes. */
  function UniqueId(s: Sensor<Attribute>): (id: string)
    ensures Text.HasPrefix(id, SaveConnectName + "-" + s.device.deviceId + "-")
    ensures |id| == |SaveConnectName| + |s.device.deviceId| + |Key(s.description)| + 2
    ensures Text.HasSuffix(id, Key(s.description))
  {
    SaveConnectName + "-" + s.device.deviceId + "-" + Key(s.description)
  }

  /** `is_on`: the description's value function, which reads the state of
      the device the description was made for. Only a string can read as
      `'active'`; a boolean flag never turns the sensor on. */
  function IsOn(s: Sensor<Attribute>): (on: bool)
    reads s.description.owner
    requires WellFormed(s.description.owner.state)
    ensures on ==> AttributeValue(s.description.owner.state, s.description.attr).Str?
    ensures AttributeValue(s.description.owner.state, s.description.attr).Flag? ==> !on
  {
    Active(AttributeValue(s.description.owner.state, s.description.attr))
  }

  /** Every sensor built from devices with fresh records is off: the
      default alarm value `False` is not `'active'`. */
  lemma FreshSensorsOff(devices: seq<Device.SaveConnectDevice>, s: Sensor<Attribute>)
    requires forall dev :: dev in devices ==> dev.state == Fresh()
    requires s in Cross(Accumulated(devices, AlarmAttributes()), devices)
    ensures WellFormed(s.description.owner.state) && !IsOn(s)
  {
    CrossMember(Accumulated(devices, AlarmAttributes()), devices, s);
    AccumulatedOwners(devices, AlarmAttributes(), s.description);
    assert AttributeValue(s.description.owner.state, s.description.attr) == Flag(false);
  }

  /** As written, two devices and one alarm attribute are enough for the
      second device to carry two entities with the same unique id, one of
      which reads the first device's state. */
  lemma SharedUniqueIds(devices: seq<Device.SaveConnectDevice>, names: seq<Attribute>)
    requires |devices| >= 2 && devices[0] != devices[1] && |names| >= 1
    ensures var sensors := Cross(Accumulated(devices, names), devices);
            var theirs := Sensor(devices[1], DescriptionsFor(devices[0], names)[0]);
            var own := Sensor(devices[1], DescriptionsFor(devices[1], names)[0]);
            theirs in sensors && own in sensors && theirs != own &&
            UniqueId(theirs) == UniqueId(own) && theirs.description.owner == devices[0]
  {
    var ds := Accumulated(devices, names);
    AccumulatedHas(devices, names, 0, 0);
    AccumulatedHas(devices, names, 1, 0);
    var i0 :| 0 <= i0 < |ds| && ds[i0] == DescriptionsFor(devices[0], names)[0];
    var i1 :| 0 <= i1 < |ds| && ds[i1] == DescriptionsFor(devices[1], names)[0];
    CrossHas(ds, devices, i0, 1);
    CrossHas(ds, devices, i1, 1);
    var theirs := DescriptionsFor(devices[0], names)[0];
    var own := DescriptionsFor(devices[1], names)[0];
    assert theirs.attr == own.attr && theirs.owner != own.owner;
    SameAttributeSameId(Sensor(devices[1], theirs), Sensor(devices[1], own));
  }

  /** Two entities of one device showing the same attribute get the same
      unique id, whatever device their descriptions read. */
  lemma SameAttributeSameId(s1: Sensor<Attribute>, s2: Sensor<Attribute>)
    requires s1.device == s2.device && s1.description.attr == s2.description.attr
    ensures UniqueId(s1) == UniqueId(s2)
  {
  }

  /** One entity per description, all attached to the same device. */
  function Attached<A>(device: Device.SaveConnectDevice, ds: seq<Description<A>>): (row: seq<Sensor<A>>)
    ensures |row| == |ds|
    ensures forall k :: 0 <= k < |row| ==> row[k] == Sensor(device, ds[k])
  {
    if |ds| == 0 then []
    else Attached(device, ds[..|ds| - 1]) + [Sensor(device, ds[|ds| - 1])]
  }

  /** With a single device, pairing descriptions with the device list is
      attaching them to that device. */
  lemma {:induction false} CrossSingle<A>(ds: seq<Description<A>>, device: Device.SaveConnectDevice)
    ensures Cross(ds, [device]) == Attached(device, ds)
  {
    if |ds| > 0 {
      CrossSingle(ds[..|ds| - 1], device);
      assert Row([device], ds[|ds| - 1]) == [Sensor(device, ds[|ds| - 1])];
    }
  }

  /** The evident intent: each device gets one entity per description made
      for it. */
  function OwnSensors<A>(devices: seq<Device.SaveConnectDevice>, names: seq<A>): (sensors: seq<Sensor<A>>)
    ensures |sensors| == |devices| * |names|
  {
    if |devices| == 0 then []
    else
      var last := devices[|devices| - 1];
      var ds := DescriptionsFor(last, names);
      MulSucc(|devices| - 1, |names|);
      OwnSensors(devices[..|devices| - 1], names) + Attached(last, ds)
  }

  /** For one device the corrected list is the list the source builds: the
      correction changes only set-ups with two or more devices. */
  lemma OneDeviceUnchanged<A>(device: Device.SaveConnectDevice, names: seq<A>)
    ensures Cross(Accumulated([device], names), [device]) == OwnSensors([device], names)
  {
    var ds := DescriptionsFor(device, names);
    assert [device][..0] == [];
    assert Accumulated([device], names) == Accumulated([], names) + ds == ds;
    assert OwnSensors([device], names) == OwnSensors([], names) + Attached(device, ds) == Attached(device, ds);
    CrossSingle(ds, device);
  }

  /** Every such entity belongs to one of the devices, reads that device's
      state, and shows one of the selected attributes. */
  lemma {:induction false} OwnSensorsMember<A>(devices: seq<Device.SaveConnectDevice>, names: seq<A>, s: Sensor<A>)
    requires s in OwnSensors(devices, names)
    ensures s.device in devices && s.description.owner == s.device && s.description.attr in names
  {
    var init := devices[..|devices| - 1];
    var last := devices[|devices| - 1];
    var ds := DescriptionsFor(last, names);
    var row := Attached(last, ds);
    assert OwnSensors(devices, names) == OwnSensors(init, names) + row;
    if s in OwnSensors(init, names) {
      OwnSensorsMember(init, names, s);
      var i :| 0 <= i < |init| && init[i] == s.device;
      assert devices[i] == s.device;
    } else {
      var k :| 0 <= k < |row| && row[k] == s;
      assert s == Sensor(last, ds[k]);
      assert ds[k] == Description(names[k], last);
    }
  }

  /** The unique id of an alarm entity names its device id and its alarm:
      the key has no dash, so the last dash separates the two. */
  lemma {:induction false} AlarmUniqueIds(s1: Sensor<Attribute>, s2: Sensor<Attribute>)
    requires s1.description.attr.Slot? && s1.description.attr.field.AlarmFlag?
    requires s2.description.attr.Slot? && s2.description.attr.field.AlarmFlag?
    requires UniqueId(s1) == UniqueId(s2)
    ensures s1.device.deviceId == s2.device.deviceId && Key(s1.description) == Key(s2.description)
  {
    AlarmKeyDashFree(s1.description);
    AlarmKeyDashFree(s2.description);
    IdSplit(s1.device.deviceId, Key(s1.description), s2.device.deviceId, Key(s2.description));
  }

  /** The key of an alarm description holds no dash. */
  lemma AlarmKeyDashFree(d: Description<Attribute>)
    requires d.attr.Slot? && d.attr.field.AlarmFlag?
    ensures '-' !in Key(d)
  {
    AlarmKeyShape(d.attr.field.alarm);
    assert Key(d) == AlarmKey(d.attr.field.alarm);
  }

  /** An id string built from a device id and a dash-free key determines
      both: the last dash separates them. */
  lemma IdSplit(deviceId1: string, key1: string, deviceId2: string, key2: string)
    requires '-' !in key1 && '-' !in key2
    requires SaveConnectName + "-" + deviceId1 + "-" + key1 == SaveConnectName + "-" + deviceId2 + "-" + key2
    ensures deviceId1 == deviceId2 && key1 == key2
  {
    var prefix := SaveConnectName + "-";
    var head1 := prefix + deviceId1;
    var head2 := prefix + deviceId2;
    Text.LastSeparator(head1, key1, head2, key2, '-');
    assert deviceId1 == head1[|prefix|..] == deviceId2;
  }

  /** With distinct device ids and alarm attributes only, two of these
      entities share a unique id only when they belong to the same device
      and have the same key. */
  lemma OwnSensorsUniqueIds(devices: seq<Device.SaveConnectDevice>, names: seq<Attribute>, s1: Sensor<Attribute>, s2: Sensor<Attribute>)
    requires forall i, j :: 0 <= i < j < |devices| ==> devices[i].deviceId != devices[j].deviceId
    requires AlarmsOnly(names)
    requires s1 in OwnSensors(devices, names) && s2 in OwnSensors(devices, names)
    requires UniqueId(s1) == UniqueId(s2)
    ensures s1.device == s2.device && Key(s1.description) == Key(s2.description)
  {
    OwnSensorsMember(devices, names, s1);
    OwnSensorsMember(devices, names, s2);
    AlarmUniqueIds(s1, s2);
    var i :| 0 <= i < |devices| && devices[i] == s1.device;
    var j :| 0 <= j < |devices| && devices[j] == s2.device;
    if i < j || j < i {
      assert false;
    }
  }

  /** Alarm entities differ in unique id as soon as they differ in device
      id or in attribute. */
  lemma AlarmIdsDiffer(s1: Sensor<Attribute>, s2: Sensor<Attribute>)
    requires s1.description.attr.Slot? && s1.description.attr.field.AlarmFlag?
    requires s2.description.attr.Slot? && s2.description.attr.field.AlarmFlag?
    requires s1.device.deviceId != s2.device.deviceId || s1.description.attr != s2.description.attr
    ensures UniqueId(s1) != UniqueId(s2)
  {
    if UniqueId(s1) == UniqueId(s2) {
      AlarmUniqueIds(s1, s2);
      AlarmKeyInjective(s1.description.attr.field.alarm, s2.description.attr.field.alarm);
      assert false;
    }
  }

  /** An entity of the earlier devices and an alarm entity of a device
      whose id none of them has differ in unique id. */
  lemma EarlierAndRowIdsDiffer(init: seq<Device.SaveConnectDevice>, last: Device.SaveConnectDevice, names: seq<Attribute>,
                               s1: Sensor<Attribute>, s2: Sensor<Attribute>)
    requires forall i :: 0 <= i < |init| ==> init[i].deviceId != last.deviceId
    requires AlarmsOnly(names)
    requires s1 in OwnSensors(init, names)
    requires s2.device == last && s2.description.attr.Slot? && s2.description.attr.field.AlarmFlag?
    ensures UniqueId(s1) != UniqueId(s2)
  {
    OwnSensorsMember(init, names, s1);
    var i :| 0 <= i < |init| && init[i] == s1.device;
    var j :| 0 <= j < |names| && names[j] == s1.description.attr;
    AlarmIdsDiffer(s1, s2);
  }

  /** Two entities of one device's row, for distinct alarm attributes,
      differ in unique id. */
  lemma RowIdsDiffer(last: Device.SaveConnectDevice, names: seq<Attribute>, k: nat, l: nat)
    requires AlarmsOnly(names)
    requires k < |names| && l < |names| && names[k] != names[l]
    ensures var ds := DescriptionsFor(last, names);
            UniqueId(Sensor(last, ds[k])) != UniqueId(Sensor(last, ds[l]))
  {
    var ds := DescriptionsFor(last, names);
    AlarmIdsDiffer(Sensor(last, ds[k]), Sensor(last, ds[l]));
  }

  /** No two entities of the list share a unique id. */
  predicate DistinctIds(sensors: seq<Sensor<Attribute>>)
  {
    forall p, q :: 0 <= p < q < |sensors| ==> UniqueId(sensors[p]) != UniqueId(sensors[q])
  }

  /** With distinct device ids and distinct alarm attributes, the entities
      of the corrected list all have distinct unique ids. */
  lemma {:induction false} OwnSensorsDistinctIds(devices: seq<Device.SaveConnectDevice>, names: seq<Attribute>)
    requires forall i, j :: 0 <= i < j < |devices| ==> devices[i].deviceId != devices[j].deviceId
    requires AlarmsOnly(names)
    requires forall k, l :: 0 <= k < l < |names| ==> names[k] != names[l]
    ensures DistinctIds(OwnSensors(devices, names))
  {
    if |devices| > 0 {
      var init := devices[..|devices| - 1];
      var last := devices[|devices| - 1];
      var ds := DescriptionsFor(last, names);
      var earlier := OwnSensors(init, names);
      var row := Attached(last, ds);
      var sensors := OwnSensors(devices, names);
      assert sensors == earlier + row;
      OwnSensorsDistinctIds(init, names);
      assert DistinctIds(earlier);
      forall i | 0 <= i < |init| ensures init[i].deviceId != last.deviceId {
        assert init[i] == devices[i];
      }
      forall k, l | 0 <= k < l < |row| ensures UniqueId(row[k]) != UniqueId(row[l]) {
        RowIdsDiffer(last, names, k, l);
      }
      forall s1, s2 | s1 in earlier && s2 in row ensures UniqueId(s1) != UniqueId(s2) {
        var l :| 0 <= l < |row| && row[l] == s2;
        EarlierAndRowIdsDiffer(init, last, names, s1, s2);
      }
      DistinctIdsConcat(earlier, row);
    }
  }

  /** Two lists without shared unique ids, none shared between them, make
      a list without shared unique ids. */
  lemma DistinctIdsConcat(a: seq<Sensor<Attribute>>, b: seq<Sensor<Attribute>>)
    requires DistinctIds(a) && DistinctIds(b)
    requires forall s1, s2 :: s1 in a && s2 in b ==> UniqueId(s1) != UniqueId(s2)
    ensures DistinctIds(a + b)
  {
    var ab := a + b;
    forall p, q | 0 <= p < q < |ab| ensures UniqueId(ab[p]) != UniqueId(ab[q]) {
      if q < |a| {
        assert ab[p] == a[p] && ab[q] == a[q];
      } else if p < |a| {
        assert ab[p] == a[p] && ab[q] == b[q - |a|];
      } else {
        assert ab[p] == b[p - |a|] && ab[q] == b[q - |a|];
      }
    }
  }

  /** A listing in order has no repeats. */
  lemma ListingOrderDistinct(attrs: seq<Attribute>)
    requires InListingOrder(attrs)
    ensures forall k, l :: 0 <= k < l < |attrs| ==> attrs[k] != attrs[l]
  {
    forall k, l | 0 <= k < l < |attrs| ensures attrs[k] != attrs[l] {
      assert Position(attrs[k]) < Position(attrs[l]);
    }
  }

  /** Built from a state record's alarm attributes for devices with
      distinct ids, the corrected list has no two entities sharing a unique
      id. */
  lemma AlarmSensorIdsDistinct(devices: seq<Device.SaveConnectDevice>)
    requires forall i, j :: 0 <= i < j < |devices| ==> devices[i].deviceId != devices[j].deviceId
    ensures DistinctIds(OwnSensors(devices, AlarmAttributes()))
  {
    var names := AlarmAttributes();
    ListingOrderDistinct(names);
    OwnSensorsDistinctIds(devices, names);
  }
}
