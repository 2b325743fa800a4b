/** The fan entity (fan.py): the airflow reading, the percentage and preset
    mappings, and the vendor command each handler issues. The vendor calls
    themselves are not modelled: a handler returns the command it issues
    and takes the vendor's success answer as a parameter. */
module Fan {
  import opened Const
  import opened Wrappers
  import Record
  import Device

  /** A vendor command the fan entity can issue. */
  datatype Command = SetAirflow(level: Airflow) | SetMode(mode: UserMode)

  /** What a handler does: the command it issues, if any, and whether it
      then asks the host coordinator for a refresh. */
  datatype Action = Action(command: Option<Command>, refresh: bool)

  /** `airflow_state` for a given `airflow_level` slot: no reading for
      `None`; the settable level for a reported level the table knows; and
      the `KeyError` of the table lookup for anything else. */
  function AirflowStateOf(airflowLevel: Record.Value): (state: Result<Option<Airflow>>)
    ensures state == Ok(None) <==> airflowLevel == Record.Null
    ensures state.Err? ==> state.error == KeyError
    ensures state.Ok? && state.value.Some? <==> airflowLevel.Level? && airflowLevel.airflow in AirflowToSettable()
    ensures state.Ok? && state.value.Some? ==>
      state.value.value in FanModes() && state.value.value == AirflowToSettable()[airflowLevel.airflow]
  {
    if airflowLevel.Null? then Ok(None)
    else if airflowLevel.Level? && airflowLevel.airflow in AirflowToSettable() then
      Ok(Some(AirflowToSettable()[airflowLevel.airflow]))
    else Err(KeyError)
  }

  /** A reported Low is not a key of the airflow table, so reading it raises. */
  lemma ReportedLowRaises()
    ensures AirflowStateOf(Record.Level(Low)) == Err(KeyError)
  {
  }

  /** `speed_count`. */
  function SpeedCount(): (n: int)
    ensures n == 3
  {
    |FanModes()| - 1
  }

  /** `SAVECONNECT_FAN_MODES.index(level)`. */
  function IndexOf(level: Airflow): (i: Result<nat>)
    ensures i.Ok? <==> level in FanModes()
    ensures i.Ok? ==> i.value < |FanModes()| && FanModes()[i.value] == level
    ensures i.Err? ==> i.error == ValueError
  {
    if level == Off then Ok(0)
    else if level == Low then Ok(1)
    else if level == Normal then Ok(2)
    else if level == High then Ok(3)
    else Err(ValueError)
  }

  /** `int(index * percentage_step)` with the host's step `100 / speed_count`:
      the percentage reported for a settable level. */
  function LevelPercentage(level: Airflow): (p: int)
    requires level in FanModes()
    ensures 0 <= p <= 100
    ensures p == 0 <==> level == Off
    ensures p == 100 <==> level == High
  {
    IndexOf(level).value * 100 / SpeedCount()
  }

  /** Reported percentages rise strictly with the level, and are 0, 33, 66
      and 100. */
  lemma LevelPercentageIncreasing(lower: Airflow, higher: Airflow)
    requires lower in FanModes() && higher in FanModes()
    requires IndexOf(lower).value < IndexOf(higher).value
    ensures LevelPercentage(lower) < LevelPercentage(higher)
    ensures LevelPercentage(Low) == 33 && LevelPercentage(Normal) == 66
  {
  }

  /** The `percentage` property for an airflow reading: `index(None)`
      raises `ValueError`, and a failed reading raises its `KeyError`. */
  function Percentage(state: Result<Option<Airflow>>): (p: Result<int>)
    ensures state.Ok? && state.value.Some? && state.value.value in FanModes() ==>
      p == Ok(LevelPercentage(state.value.value))
    ensures state == Ok(None) ==> p == Err(ValueError)
    ensures state.Err? ==> p == Err(state.error)
  {
    match state
    case Err(e) => Err(e)
    case Ok(None) => Err(ValueError)
    case Ok(Some(level)) =>
      match IndexOf(level)
      case Err(e) => Err(e)
      case Ok(i) => Ok(i * 100 / SpeedCount())
  }

  /** `ceil(percentage / step_size)` with step size `100 / speed_count`:
      the least option whose steps cover the percentage. */
  function PercentageIndex(percentage: int): (option: int)
    ensures option * 100 >= SpeedCount() * percentage
    ensures (option - 1) * 100 < SpeedCount() * percentage
  {
    (SpeedCount() * percentage + 99) / 100
  }

  /** `SAVECONNECT_FAN_MODES[option]` in `async_set_percentage`, with
      Python's list subscript: a negative option counts from the end, and
      an option outside the list raises `IndexError`. From 0 to 100 the
      percentage picks the lowest level whose reported percentage is at
      least the one requested. */
  function ModeForPercentage(percentage: int): (r: Result<Airflow>)
    ensures r.Err? <==> percentage > 100 || percentage < -166
    ensures r.Err? ==> r.error == IndexError
    ensures r.Ok? ==> r.value in FanModes()
    ensures 0 <= percentage <= 100 ==>
      && r.Ok?
      && LevelPercentage(r.value) >= percentage
      && forall other :: other in FanModes() && LevelPercentage(other) >= percentage ==>
           IndexOf(r.value).value <= IndexOf(other).value
  {
    var option := PercentageIndex(percentage);
    var modes := FanModes();
    if 0 <= option < |modes| then Ok(modes[option])
    else if -|modes| <= option < 0 then Ok(modes[|modes| + option])
    else Err(IndexError)
  }

  /** The four bands of the percentage scale. */
  lemma PercentageBands(percentage: int)
    requires 0 <= percentage <= 100
    ensures ModeForPercentage(percentage) == Ok(Off) <==> percentage == 0
    ensures ModeForPercentage(percentage) == Ok(Low) <==> 1 <= percentage <= 33
    ensures ModeForPercentage(percentage) == Ok(Normal) <==> 34 <= percentage <= 66
    ensures ModeForPercentage(percentage) == Ok(High) <==> 67 <= percentage <= 100
  {
  }

  /** Setting the percentage a settable level reports selects that level
      again. */
  lemma PercentageRoundTrip(level: Airflow)
    requires level in FanModes()
    ensures ModeForPercentage(LevelPercentage(level)) == Ok(level)
  {
  }

  /** `async_set_percentage`: the level command for the percentage, then a
      refresh whatever the vendor answered; no command for an option
      outside the list. */
  function SetPercentage(percentage: int): (action: Result<Action>)
    ensures action.Ok? <==> ModeForPercentage(percentage).Ok?
    ensures action.Ok? ==> action.value == Action(Some(SetAirflow(ModeForPercentage(percentage).value)), true)
    ensures action.Err? ==> action.error == IndexError
  {
    match ModeForPercentage(percentage)
    case Err(e) => Err(e)
    case Ok(level) => Ok(Action(Some(SetAirflow(level)), true))
  }

  /** `is_on`: anything but an Off reading counts as on, no reading too. */
  function IsOn(state: Result<Option<Airflow>>): (on: Result<bool>)
    ensures on == Ok(false) <==> state == Ok(Some(Off))
    ensures state == Ok(None) ==> on == Ok(true)
    ensures on.Err? <==> state.Err?
    ensures state.Err? ==> on == Err(state.error)
  {
    match state
    case Err(e) => Err(e)
    case Ok(level) => Ok(level != Some(Off))
  }

  /** `preset_mode`: the preset name of the current user mode, if it has one. */
  function PresetMode(userMode: Record.Value): (name: Option<string>)
    ensures name.Some? <==> userMode.Mode? && userMode.mode in ModeToPreset()
    ensures name.Some? ==> name.value in PresetToMode() && PresetToMode()[name.value] == userMode.mode
  {
    if userMode.Mode? && userMode.mode in ModeToPreset() then Some(ModeToPreset()[userMode.mode]) else None
  }

  /** What `_async_set_preset_mode_internal` did: the command it issued, if
      any, and its boolean result. */
  datatype PresetOutcome = PresetOutcome(command: Option<Command>, changed: bool)

  /** `_async_set_preset_mode_internal`: a name outside the preset
      vocabulary, or the current preset, issues nothing and reports no
      change; any other issues the mode command and reports the vendor's
      answer. */
  function SetPresetModeInternal(name: string, userMode: Record.Value, success: bool): (r: PresetOutcome)
    ensures r.command.Some? <==> name in PresetToMode() && PresetMode(userMode) != Some(name)
    ensures r.command.Some? ==> r.command.value == SetMode(PresetToMode()[name]) && r.changed == success
    ensures r.changed ==> r.command.Some? && success
  {
    if name !in PresetToMode() then PresetOutcome(None, false)
    else if Some(name) == PresetMode(userMode) then PresetOutcome(None, false)
    else PresetOutcome(Some(SetMode(PresetToMode()[name])), success)
  }

  /** `async_set_preset_mode`: a refresh follows exactly a reported change. */
  function SetPresetMode(name: string, userMode: Record.Value, success: bool): (action: Action)
    ensures action.refresh <==> SetPresetModeInternal(name, userMode, success).changed
    ensures action.command == SetPresetModeInternal(name, userMode, success).command
  {
    var r := SetPresetModeInternal(name, userMode, success);
    Action(r.command, r.changed)
  }

  /** Once the commanded mode is read back, the fan reports the preset that
      was asked for, and asking for it again issues nothing. */
  lemma PresetReadBack(name: string, userMode: Record.Value, success: bool)
    requires SetPresetModeInternal(name, userMode, success).command.Some?
    ensures var mode := SetPresetModeInternal(name, userMode, success).command.value.mode;
      && PresetMode(Record.Mode(mode)) == Some(name)
      && SetPresetModeInternal(name, Record.Mode(mode), success).command == None
  {
  }

  /** `async_turn_on`: only a fan that is off gets the Low command, and a
      refresh follows a successful command. The requested percentage and
      preset are not used. */
  function TurnOn(state: Result<Option<Airflow>>, success: bool): (action: Result<Action>)
    ensures action.Err? <==> state.Err?
    ensures action.Ok? && action.value.command.Some? <==> state == Ok(Some(Off))
    ensures action.Ok? && action.value.command.Some? ==> action.value == Action(Some(SetAirflow(Low)), success)
    ensures action.Ok? && action.value.command.None? ==> !action.value.refresh
  {
    match IsOn(state)
    case Err(e) => Err(e)
    case Ok(on) => if !on then Ok(Action(Some(SetAirflow(Low)), success)) else Ok(Action(None, false))
  }

  /** `async_turn_off`: only a fan that is on gets the Off command, and a
      refresh follows a successful command. */
  function TurnOff(state: Result<Option<Airflow>>, success: bool): (action: Result<Action>)
    ensures action.Err? <==> state.Err?
    ensures action.Ok? && action.value.command.Some? <==> state.Ok? && state.value != Some(Off)
    ensures action.Ok? && action.value.command.Some? ==> action.value == Action(Some(SetAirflow(Off)), success)
    ensures action.Ok? && action.value.command.None? ==> !action.value.refresh
  {
    match IsOn(state)
    case Err(e) => Err(e)
    case Ok(on) => if on then Ok(Action(Some(SetAirflow(Off)), success)) else Ok(Action(None, false))
  }

  /** Turning off a fan that reads Off, or on a fan that reads anything
      else, issues nothing; a fan whose reading shows the Off command took
      effect is off, and turning it off again issues nothing. */
  lemma OnOffSettle(state: Result<Option<Airflow>>, success: bool)
    requires state.Ok?
    ensures TurnOff(state, success).value.command.None? || TurnOn(state, success).value.command.None?
    ensures IsOn(AirflowStateOf(Record.Level(Off))) == Ok(false)
    ensures TurnOff(AirflowStateOf(Record.Level(Off)), success) == Ok(Action(None, false))
  {
  }

  /** The fan entity of one device. Reading `airflow_state` sets the
      entity's availability flag before the table lookup. */
  class SaveConnectDeviceFan {
    const device: Device.SaveConnectDevice
    var attrAvailable: bool

    constructor (device: Device.SaveConnectDevice)
      ensures this.device == device && attrAvailable
    {
      this.device := device;
      attrAvailable := true;
    }

    /** `airflow_state`. */
    method AirflowState() returns (state: Result<Option<Airflow>>)
      modifies this`attrAvailable
      ensures state == AirflowStateOf(device.state.airflowLevel)
      ensures attrAvailable <==> device.state.airflowLevel != Record.Null
    {
      var level := device.state.airflowLevel;
      if level.Null? {
        attrAvailable := false;
        return Ok(None);
      }
      attrAvailable := true;
      if level.Level? && level.airflow in AirflowToSettable() {
        state := Ok(Some(AirflowToSettable()[level.airflow]));
      } else {
        state := Err(KeyError);
      }
    }

    /** `async_turn_on`, reading the fan's state first. */
    method AsyncTurnOn(success: bool) returns (action: Result<Action>)
      modifies this`attrAvailable
      ensures action == TurnOn(AirflowStateOf(device.state.airflowLevel), success)
      ensures attrAvailable <==> device.state.airflowLevel != Record.Null
    {
      var state := AirflowState();
      action := TurnOn(state, success);
    }

    /** `async_turn_off`, reading the fan's state first. */
    method AsyncTurnOff(success: bool) returns (action: Result<Action>)
      modifies this`attrAvailable
      ensures action == TurnOff(AirflowStateOf(device.state.airflowLevel), success)
      ensures attrAvailable <==> device.state.airflowLevel != Record.Null
    {
      var state := AirflowState();
      action := TurnOff(state, success);
    }
  }
}
