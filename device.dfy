/** The device object `SaveConnectDevice` (__init__.py): the register
    callback that projects vendor register updates onto the state record,
    the start-up pass over the registry, and the poll-failure counter behind
    `available`. */
module Device {
  import opened Record
  import opened Wrappers

  /** The vendor registers the callback recognises, and every other
      register, told apart by its name. */
  datatype Register =
    | UsermodeModeHmi
    | UsermodeHmiChangeRequest
    | UsermodeManualAirflowLevelSaf
    | SpeedIndicationApp
    | SystemUnitModel1
    | PuRunningVersionMajor
    | PuRunningVersionMinor
    | PuRunningVersionBuild
    | AlarmReg(code: AlarmCode)
    | Unlisted(name: string)

  /** The `REG_ALARM_*` registers. */
  datatype AlarmCode =
    | SafCtrlAlarm
    | EafCtrlAlarm
    | FrostProtAlarm
    | DefrostingAlarm
    | SafRpmAlarm
    | EafRpmAlarm
    | FptAlarm
    | OatAlarm
    | SatAlarm
    | RatAlarm
    | EatAlarm
    | EctAlarm
    | EftAlarm
    | OhtAlarm
    | EmtAlarm
    | RgsAlarm
    | BysAlarm
    | SecondaryAirAlarm
    | FilterAlarm
    | ExtraControllerAlarm
    | ExternalStopAlarm
    | RhAlarm
    | Co2Alarm
    | LowSatAlarm
    | ByfAlarm
    | PdmRhsAlarm
    | PdmEatAlarm
    | ManualFanStopAlarm
    | OverheatTemperatureAlarm
    | FireAlarmAlarm
    | FilterWarningAlarm


  /** The device-type tag `internalDeviceType` of the version registers. */
  const MainBoard := 1
  const IamModule := 2

  /** The three `REG_PU_RUNNING_VERSION_*` registers. */
  predicate VersionRegister(register: Register)
  {
    register == PuRunningVersionMajor || register == PuRunningVersionMinor || register == PuRunningVersionBuild
  }

  /** The `if`/`elif` chain of `set_update_callback`: the record slot that an
      update of `register` writes, if any. An update is dropped only for an
      unlisted register, or for a version register whose device-type tag is
      neither the main board nor the IAM module; the device-type tag matters
      for the version registers alone. */
  function Route(register: Register, deviceType: int): (slot: Option<Field>)
    ensures slot.None? <==> register.Unlisted? || (VersionRegister(register) && deviceType != MainBoard && deviceType != IamModule)
  {
    match register
    case UsermodeModeHmi => Some(UserMode)
    case UsermodeHmiChangeRequest => Some(UserMode)
    case UsermodeManualAirflowLevelSaf => Some(AirflowLevel)
    case SpeedIndicationApp => Some(AirflowLevel)
    case SystemUnitModel1 => Some(DeviceModel)
    case PuRunningVersionMajor =>
      if deviceType == MainBoard then Some(MainBoardVersionMajor)
      else if deviceType == IamModule then Some(IamVersionMajor)
      else None
    case PuRunningVersionMinor =>
      if deviceType == MainBoard then Some(MainBoardVersionMinor)
      else if deviceType == IamModule then Some(IamVersionMinor)
      else None
    case PuRunningVersionBuild =>
      if deviceType == MainBoard then Some(MainBoardVersionBuild)
      else if deviceType == IamModule then Some(IamVersionBuild)
      else None
    case AlarmReg(code) => Some(AlarmFlag(AlarmOfCode(code)))
    case Unlisted(_) => None
  }

  /** Outside the version registers the device-type tag does not matter. */
  lemma TagOnlyForVersions(register: Register, tag1: int, tag2: int)
    requires !VersionRegister(register)
    ensures Route(register, tag1) == Route(register, tag2)
  {
  }

  /** One register of each slot, with the device type it needs: the
      register the chain routes to that slot. */
  function Writer(f: Field): (w: (Register, int))
    ensures Route(w.0, w.1) == Some(f)
  {
    if f.AlarmFlag? then AlarmWriter(f.alarm) else ScalarWriter(f)
  }

  /** An alarm flag is written by its alarm register, with any tag. */
  function AlarmWriter(a: Alarm): (w: (Register, int))
    ensures Route(w.0, w.1) == Some(AlarmFlag(a))
  {
    var register := AlarmRegister(a);
    (register, 0)
  }

  /** A scalar slot's register, with the tag a version register needs. */
  function ScalarWriter(f: Field): (w: (Register, int))
    requires !f.AlarmFlag?
    ensures Route(w.0, w.1) == Some(f)
  {
    match f
    case DeviceModel => (SystemUnitModel1, 0)
    case UserMode => (UsermodeModeHmi, 0)
    case AirflowLevel => (UsermodeManualAirflowLevelSaf, 0)
    case MainBoardVersionMajor => (PuRunningVersionMajor, MainBoard)
    case MainBoardVersionMinor => (PuRunningVersionMinor, MainBoard)
    case MainBoardVersionBuild => (PuRunningVersionBuild, MainBoard)
    case IamVersionMajor => (PuRunningVersionMajor, IamModule)
    case IamVersionMinor => (PuRunningVersionMinor, IamModule)
    case IamVersionBuild => (PuRunningVersionBuild, IamModule)
  }

  /** The alarm flag each alarm register writes. */
  function AlarmOfCode(code: AlarmCode): Alarm
  {
    match code
    case SafCtrlAlarm => SupplyAirFanControl
    case EafCtrlAlarm => ExtractAirFanControl
    case FrostProtAlarm => FrostProtection
    case DefrostingAlarm => DefrostingMalfunction
    case SafRpmAlarm => SupplyAirFanRpm
    case EafRpmAlarm => ExtractAirFanRpm
    case FptAlarm => FrostProtectionSensor
    case OatAlarm => OutdoorAirTemperatureSensor
    case SatAlarm => SupplyAirTemperatureSensor
    case RatAlarm => RoomAirTemperatureSensor
    case EatAlarm => ExtractAirTemperatureSensor
    case EctAlarm => ExtraControllerTemperature
    case EftAlarm => EfficiencyTemperature
    case OhtAlarm => OverheatTemperature
    case EmtAlarm => EmergencyThermostat
    case RgsAlarm => RotorGuardSensor
    case BysAlarm => BypassDamperMalfunction
    case SecondaryAirAlarm => SecondaryAirDamperPosition
    case FilterAlarm => FilterChange
    case ExtraControllerAlarm => ExtraControllerMalfunction
    case ExternalStopAlarm => ExternalStop
    case RhAlarm => RelativeHumiditySensor
    case Co2Alarm => Co2Sensor
    case LowSatAlarm => SupplyAirTemperatureLow
    case ByfAlarm => BypassDamperFeedback
    case PdmRhsAlarm => BuiltinRelativeHumiditySensor
    case PdmEatAlarm => BuiltinExtractAirTemperature
    case ManualFanStopAlarm => ManualStop
    case OverheatTemperatureAlarm => OverheatTemperature2
    case FireAlarmAlarm => FireAlarm
    case FilterWarningAlarm => FilterWarning
  }

  /** The register of each alarm flag. */
  function AlarmRegister(a: Alarm): (register: Register)
    ensures register.AlarmReg? && AlarmOfCode(register.code) == a
  {
    AlarmReg(match a
      case SupplyAirFanControl => SafCtrlAlarm
      case ExtractAirFanControl => EafCtrlAlarm
      case FrostProtection => FrostProtAlarm
      case DefrostingMalfunction => DefrostingAlarm
      case SupplyAirFanRpm => SafRpmAlarm
      case ExtractAirFanRpm => EafRpmAlarm
      case FrostProtectionSensor => FptAlarm
      case OutdoorAirTemperatureSensor => OatAlarm
      case SupplyAirTemperatureSensor => SatAlarm
      case RoomAirTemperatureSensor => RatAlarm
      case ExtractAirTemperatureSensor => EatAlarm
      case ExtraControllerTemperature => EctAlarm
      case EfficiencyTemperature => EftAlarm
      case OverheatTemperature => OhtAlarm
      case EmergencyThermostat => EmtAlarm
      case RotorGuardSensor => RgsAlarm
      case BypassDamperMalfunction => BysAlarm
      case SecondaryAirDamperPosition => SecondaryAirAlarm
      case FilterChange => FilterAlarm
      case ExtraControllerMalfunction => ExtraControllerAlarm
      case ExternalStop => ExternalStopAlarm
      case RelativeHumiditySensor => RhAlarm
      case Co2Sensor => Co2Alarm
      case SupplyAirTemperatureLow => LowSatAlarm
      case BypassDamperFeedback => ByfAlarm
      case BuiltinRelativeHumiditySensor => PdmRhsAlarm
      case BuiltinExtractAirTemperature => PdmEatAlarm
      case ManualStop => ManualFanStopAlarm
      case OverheatTemperature2 => OverheatTemperatureAlarm
      case FireAlarm => FireAlarmAlarm
      case FilterWarning => FilterWarningAlarm
    )
  }

  /** Alarm registers and alarm flags are in one-to-one correspondence. */
  lemma AlarmCodeBijection(code: AlarmCode)
    ensures AlarmRegister(AlarmOfCode(code)) == AlarmReg(code)
  {
    match code
    case SafCtrlAlarm =>
    case EafCtrlAlarm =>
    case FrostProtAlarm =>
    case DefrostingAlarm =>
    case SafRpmAlarm =>
    case EafRpmAlarm =>
    case FptAlarm =>
    case OatAlarm =>
    case SatAlarm =>
    case RatAlarm =>
    case EatAlarm =>
    case EctAlarm =>
    case EftAlarm =>
    case OhtAlarm =>
    case EmtAlarm =>
    case RgsAlarm =>
    case BysAlarm =>
    case SecondaryAirAlarm =>
    case FilterAlarm =>
    case ExtraControllerAlarm =>
    case ExternalStopAlarm =>
    case RhAlarm =>
    case Co2Alarm =>
    case LowSatAlarm =>
    case ByfAlarm =>
    case PdmRhsAlarm =>
    case PdmEatAlarm =>
    case ManualFanStopAlarm =>
    case OverheatTemperatureAlarm =>
    case FireAlarmAlarm =>
    case FilterWarningAlarm =>
  }

  /** Each alarm register writes its own alarm flag and no other register
      writes it, whatever the device type. */
  lemma AlarmRouting(register: Register, deviceType: int, a: Alarm)
    ensures Route(register, deviceType) == Some(AlarmFlag(a)) <==> register == AlarmRegister(a)
  {
    if register.AlarmReg? {
      AlarmCodeBijection(register.code);
    }
  }

  /** `set_update_callback`: the record after one update. The routed slot
      takes the value; every other slot keeps its value; an update the
      chain does not route leaves the record as it was. */
  function Apply(d: DeviceData, register: Register, value: Value, deviceType: int): (d': DeviceData)
    requires WellFormed(d)
    ensures WellFormed(d')
    ensures forall f: Field :: Route(register, deviceType) == Some(f) ==> Get(d', f) == value
    ensures forall g: Field :: Route(register, deviceType) != Some(g) ==> Get(d', g) == Get(d, g)
    ensures Route(register, deviceType) == None ==> d' == d
  {
    match Route(register, deviceType)
    case None => d
    case Some(f) => With(d, f, value)
  }

  /** A register object of the device's registry: its identifier, its value
      and the device-type tag the callback receives as metadata. */
  datatype RegisterEntry = RegisterEntry(register: Register, value: Value, internalDeviceType: int)

  /** One registry attribute: `None` stands for a falsy register object. */
  function ApplySlot(d: DeviceData, slot: Option<RegisterEntry>): (d': DeviceData)
    requires WellFormed(d)
    ensures WellFormed(d')
  {
    match slot
    case None => d
    case Some(e) => Apply(d, e.register, e.value, e.internalDeviceType)
  }

  /** The record after the registry's attributes have been applied in order. */
  function ApplyAll(d: DeviceData, slots: seq<Option<RegisterEntry>>): (d': DeviceData)
    requires WellFormed(d)
    ensures WellFormed(d')
  {
    if |slots| == 0 then d else ApplySlot(ApplyAll(d, slots[..|slots| - 1]), slots[|slots| - 1])
  }

  /** The registry's truthy attributes, in order. */
  function Present(slots: seq<Option<RegisterEntry>>): (present: seq<Option<RegisterEntry>>)
    ensures |present| <= |slots|
    ensures forall i :: 0 <= i < |present| ==> present[i].Some? && present[i] in slots
    ensures forall i :: 0 <= i < |slots| && slots[i].Some? ==> slots[i] in present
  {
    if |slots| == 0 then []
    else
      var init := Present(slots[..|slots| - 1]);
      if slots[|slots| - 1].Some? then init + [slots[|slots| - 1]] else init
  }

  /** Every truthy attribute is kept, in order: the one at index `i` sits
      after the truthy attributes before it, and before those that follow. */
  lemma {:induction false} PresentPosition(slots: seq<Option<RegisterEntry>>, i: nat, j: nat)
    requires i < j <= |slots| && slots[i].Some?
    ensures |Present(slots[..i])| < |Present(slots[..j])|
    ensures Present(slots[..j])[|Present(slots[..i])|] == slots[i]
  {
    var prefix := slots[..j];
    var shorter := slots[..j - 1];
    assert prefix[..j - 1] == shorter;
    assert prefix[j - 1] == slots[j - 1];
    assert Present(prefix) == if slots[j - 1].Some? then Present(shorter) + [slots[j - 1]] else Present(shorter);
    if j > i + 1 {
      PresentPosition(slots, i, j - 1);
    }
  }

  /** Skipping the falsy attributes is all that `populate_state_data` does
      with them: applying the registry equals applying its truthy entries. */
  lemma {:induction false} SkipFalsy(d: DeviceData, slots: seq<Option<RegisterEntry>>)
    requires WellFormed(d)
    ensures ApplyAll(d, slots) == ApplyAll(d, Present(slots))
  {
    if |slots| > 0 {
      var init := slots[..|slots| - 1];
      SkipFalsy(d, init);
      var p := Present(init);
      if slots[|slots| - 1].Some? {
        assert (p + [slots[|slots| - 1]])[..|p|] == p;
      }
    }
  }

  /** The update carried by a slot writes field `f`. */
  predicate Writes(slot: Option<RegisterEntry>, f: Field)
  {
    slot.Some? && Route(slot.value.register, slot.value.internalDeviceType) == Some(f)
  }

  /** One registry attribute sets field `f` when it writes it and keeps
      it otherwise. */
  lemma ApplySlotGet(d: DeviceData, slot: Option<RegisterEntry>, f: Field)
    requires WellFormed(d)
    ensures Writes(slot, f) ==> Get(ApplySlot(d, slot), f) == slot.value.value
    ensures !Writes(slot, f) ==> Get(ApplySlot(d, slot), f) == Get(d, f)
  {
  }

  /** A slot that no entry of the registry writes keeps its value. */
  lemma {:induction false} Untouched(d: DeviceData, slots: seq<Option<RegisterEntry>>, f: Field)
    requires WellFormed(d)
    requires forall i :: 0 <= i < |slots| ==> !Writes(slots[i], f)
    ensures Get(ApplyAll(d, slots), f) == Get(d, f)
  {
    if |slots| > 0 {
      Untouched(d, slots[..|slots| - 1], f);
    }
  }

  /** The last entry of the registry that writes a slot decides its value. */
  lemma {:induction false} LastWriterWins(d: DeviceData, slots: seq<Option<RegisterEntry>>, f: Field, k: nat)
    requires WellFormed(d)
    requires k < |slots| && Writes(slots[k], f)
    requires forall j :: k < j < |slots| ==> !Writes(slots[j], f)
    ensures Get(ApplyAll(d, slots), f) == slots[k].value.value
  {
    var init := slots[..|slots| - 1];
    var last := slots[|slots| - 1];
    assert ApplyAll(d, slots) == ApplySlot(ApplyAll(d, init), last);
    ApplySlotGet(ApplyAll(d, init), last, f);
    if k < |slots| - 1 {
      assert init[k] == slots[k];
      LastWriterWins(d, init, f, k);
    }
  }

  /** Any record that receives a model, a user mode and one alarm shows
      exactly those three values, and every other slot as before. */
  lemma ThreeUpdatesOn(d: DeviceData, model: string, a: Alarm)
    requires WellFormed(d)
    ensures var slots := [Some(RegisterEntry(SystemUnitModel1, Str(model), 0)),
                          Some(RegisterEntry(UsermodeHmiChangeRequest, Mode(Const.Away), 0)),
                          Some(RegisterEntry(AlarmRegister(a), Str("active"), 0))];
            var d' := ApplyAll(d, slots);
            && Get(d', DeviceModel) == Str(model)
            && Get(d', UserMode) == Mode(Const.Away)
            && Get(d', AlarmFlag(a)) == Str("active")
            && forall f: Field :: f != DeviceModel && f != UserMode && f != AlarmFlag(a) ==> Get(d', f) == Get(d, f)
  {
    AlarmRouting(AlarmRegister(a), 0, a);
    var slots := [Some(RegisterEntry(SystemUnitModel1, Str(model), 0)),
                  Some(RegisterEntry(UsermodeHmiChangeRequest, Mode(Const.Away), 0)),
                  Some(RegisterEntry(AlarmRegister(a), Str("active"), 0))];
    assert Route(SystemUnitModel1, 0) == Some(DeviceModel);
    assert Route(UsermodeHmiChangeRequest, 0) == Some(UserMode);
    assert Route(AlarmRegister(a), 0) == Some(AlarmFlag(a));
    LastWriterWins(d, slots, DeviceModel, 0);
    LastWriterWins(d, slots, UserMode, 1);
    LastWriterWins(d, slots, AlarmFlag(a), 2);
    forall f: Field | f != DeviceModel && f != UserMode && f != AlarmFlag(a)
      ensures Get(ApplyAll(d, slots), f) == Get(d, f)
    {
      assert !Writes(slots[0], f) && !Writes(slots[1], f) && !Writes(slots[2], f);
      Untouched(d, slots, f);
    }
  }

  /** The start-up scenario of a device: a fresh record that receives its
      model, a user mode and one alarm shows exactly those three values. */
  lemma ThreeUpdates(model: string, a: Alarm)
    ensures var slots := [Some(RegisterEntry(SystemUnitModel1, Str(model), 0)),
                          Some(RegisterEntry(UsermodeHmiChangeRequest, Mode(Const.Away), 0)),
                          Some(RegisterEntry(AlarmRegister(a), Str("active"), 0))];
            var d := ApplyAll(Fresh(), slots);
            && Get(d, DeviceModel) == Str(model)
            && Get(d, UserMode) == Mode(Const.Away)
            && Get(d, AlarmFlag(a)) == Str("active")
            && forall f: Field :: f != DeviceModel && f != UserMode && f != AlarmFlag(a) ==> Get(d, f) == Get(Fresh(), f)
  {
    ThreeUpdatesOn(Fresh(), model, a);
  }

  /** The number of failed polls after which the device turns unavailable
      is one more than this. */
  const AvailableThreshold := 30

  /** `_async_update`: a successful poll resets the failure counter, a
      failed one adds one to it. */
  function NextCounter(counter: int, success: bool): (next: int)
    ensures success ==> next == 0
    ensures !success ==> next == counter + 1
  {
    if success then 0 else counter + 1
  }

  /** `available`. */
  predicate IsAvailable(counter: int)
  {
    counter <= AvailableThreshold
  }

  /** The counter after a run of polls, `true` for each success. */
  function CounterAfter(counter: int, polls: seq<bool>): int
  {
    if |polls| == 0 then counter else NextCounter(CounterAfter(counter, polls[..|polls| - 1]), polls[|polls| - 1])
  }

  /** The failed polls since the last successful one. */
  function TrailingFailures(polls: seq<bool>): (n: nat)
    ensures n <= |polls|
  {
    if |polls| == 0 || polls[|polls| - 1] then 0 else TrailingFailures(polls[..|polls| - 1]) + 1
  }

  /** The counter counts the failed polls since the last success, or since
      it started when there was none. */
  lemma {:induction false} CounterCountsFailures(counter: int, polls: seq<bool>)
    ensures CounterAfter(counter, polls) == if true in polls then TrailingFailures(polls) else counter + |polls|
  {
    if |polls| > 0 {
      var init := polls[..|polls| - 1];
      CounterCountsFailures(counter, init);
      assert polls == init + [polls[|polls| - 1]];
      assert true in polls <==> true in init || polls[|polls| - 1];
    }
  }

  /** From a fresh counter, the device stays available through 30
      consecutive failed polls and turns unavailable on the 31st; any
      success makes it available again. */
  lemma AvailabilityAfterFailures(n: nat, counter: int, polls: seq<bool>)
    ensures IsAvailable(CounterAfter(0, seq(n, _ => false))) <==> n <= AvailableThreshold
    ensures IsAvailable(CounterAfter(counter, polls + [true]))
  {
    var failures := seq(n, _ => false);
    CounterCountsFailures(0, failures);
    assert true !in failures;
  }

  const Manufacturer := "Systemair"

  /** A device of the vendor's cloud, with its state record and its
      poll-failure counter. */
  class SaveConnectDevice {
    var state: DeviceData
    var name: string
    var availableCounter: int
    const availableThreshold: int
    const deviceId: string

    ghost predicate Valid()
      reads this
    {
      WellFormed(state) && availableThreshold == AvailableThreshold
    }

    /** `__init__`: a fresh record filled from the device's registry, then
        the name derived from the model, then a zero failure counter. */
    constructor (deviceId: string, registry: seq<Option<RegisterEntry>>)
      ensures Valid()
      ensures state == ApplyAll(Fresh(), registry)
      ensures name == Manufacturer + " " + Render(state.deviceModel)
      ensures availableCounter == 0 && this.deviceId == deviceId
    {
      this.deviceId := deviceId;
      availableThreshold := AvailableThreshold;
      state := Fresh();
      name := "";
      availableCounter := 0;
      new;
      PopulateStateData(registry);
      name := Manufacturer + " " + Render(state.deviceModel);
    }

    /** `populate_state_data`: feeds every truthy registry attribute to the
        callback, in order. */
    method PopulateStateData(registry: seq<Option<RegisterEntry>>)
      requires Valid()
      modifies this`state
      ensures Valid()
      ensures state == ApplyAll(old(state), registry)
    {
      var i := 0;
      while i < |registry|
        invariant 0 <= i <= |registry|
        invariant Valid()
        invariant state == ApplyAll(old(state), registry[..i])
      {
        assert registry[..i + 1][..i] == registry[..i];
        var slot := registry[i];
        if slot.Some? {
          SetUpdateCallback(slot.value.register, slot.value.value, slot.value.internalDeviceType);
        }
        i := i + 1;
      }
      assert registry[..i] == registry;
    }

    /** `set_update_callback`: one register update written into the record. */
    method SetUpdateCallback(register: Register, value: Value, internalDeviceType: int)
      requires Valid()
      modifies this`state
      ensures Valid()
      ensures state == Apply(old(state), register, value, internalDeviceType)
    {
      match Route(register, internalDeviceType)
      case None =>
      case Some(f) => state := With(state, f, value);
    }

    /** `_async_update`, with the vendor poll's outcome as a parameter. */
    method AsyncUpdate(success: bool)
      modifies this`availableCounter
      ensures availableCounter == NextCounter(old(availableCounter), success)
    {
      if success {
        availableCounter := 0;
      } else {
        availableCounter := availableCounter + 1;
      }
    }

    /** `available`. */
    function Available(): (ok: bool)
      reads this
      ensures Valid() ==> (ok <==> IsAvailable(availableCounter))
    {
      availableCounter <= availableThreshold
    }

    /** `device_model`. */
    function DeviceModelValue(): Value
      reads this
    {
      state.deviceModel
    }
  }
}
