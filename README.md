# Systemair SAVE Connect integration — a verified model of its core

This project models the logic of the Home Assistant integration for
Systemair SAVE Connect ventilation units: the translation layer between the
vendor's register values and the host's entities.

- `wrappers.dfy` (`Wrappers`): `Option`, `Result` and the three Python
  exceptions the core can raise (`KeyError`, `ValueError`, `IndexError`).
- `text.dfy` (`Text`): the Python string operations the core relies on
  (`startswith`, one-character `split` and `join`, ASCII `capitalize`,
  `str(int)`), with the split/join round trip.
- `const.dfy` (`Const`): the fan-mode list and the airflow and preset
  tables, and the fact that the two preset tables invert each other.
- `util.dfy` (`Util`): the host-version gate and the platform set-up call
  it selects.
- `record.dfy` (`Record`): the device state record — nine scalar slots and
  31 alarm flags — with reading and writing one slot, the slot names, and
  the two version strings.
- `device.dfy` (`Device`): the device object. The register callback is a
  routing function from (register, device-type tag) to the slot it writes;
  the start-up pass applies the registry in order; the poll-failure counter
  decides availability. The class `SaveConnectDevice` holds the record and
  the counter and its methods update them in place.
- `fan.dfy` (`Fan`): the fan entity — airflow reading, percentage in both
  directions, preset mode, and the vendor command each handler issues. The
  class `SaveConnectDeviceFan` keeps the entity's availability flag, which
  reading the airflow state updates.
- `binary_sensor.dfy` (`BinarySensor`): the alarm binary sensors — which
  attributes of the record become sensors, their display names, their
  unique ids, their value, and how the entity list is assembled from the
  devices.

Vendor calls (setting an airflow level or a user mode, polling the cloud)
are not modelled as calls: a handler returns the `Command` it would issue
and takes the vendor's success answer as a parameter. The host's MAJOR and
MINOR version numbers are parameters too.

Three behaviours of the code are worth stating up front:
- A requested percentage is not clamped. `ceil(percentage / step)` indexes
  the fan-mode list directly, so percentages above 100 raise `IndexError`,
  -166..-34 wrap around from the end of the list, and -33..-1 select off
  (`Fan.ModeForPercentage`).
- 34 % selects `normal`, not `low`: `ceil(34 / 33.33…)` is 2
  (`Fan.PercentageBands`).
- A preset name outside the vocabulary is logged and ignored, not raised:
  the handler returns without a command or a refresh
  (`Fan.SetPresetModeInternal`).

## Model

| member | source | states |
|---|---|---|
| Const.FanModes | custom_components/systemair/const.py:19 | four distinct settable levels, from off to high; minimum and maximum are not settable |
| Const.AirflowToSettable | custom_components/systemair/const.py:22-28 | keys are off, minimum, normal, high and maximum (low is not a key); every value is settable; minimum folds onto low and maximum onto high; settable keys map to themselves |
| Const.ModeToPreset | custom_components/systemair/const.py:30-37 | exactly the six named user modes have a preset name, and distinct modes have distinct names |
| Const.PresetToMode | custom_components/systemair/const.py:39-41 | the inverted table: its keys are the preset names, and it undoes the forward table in both directions |
| Const.PresetVocabulary | custom_components/systemair/const.py:30-41 | the preset vocabulary is exactly Auto, Manual, Away, Crowded, Fireplace and Holiday, each naming the user mode of the same name |
| Util.IsMinHaVersion | custom_components/systemair/util.py:4-9 | a higher major passes, a lower major fails, and an equal major passes iff the minor is at least the required one |
| Util.VersionOrder | custom_components/systemair/util.py:4-9 | the gate is a reflexive, total, antisymmetric and transitive order on (major, minor) |
| Util.PlatformSetupCall | custom_components/systemair/__init__.py:35-44 | forward_entry_setups is used iff the host is 2022.8 or newer, setup_platforms otherwise |
| Record.Fresh | custom_components/systemair/__init__.py:113-158 | a new record has every scalar slot None and every alarm flag False |
| Record.With | custom_components/systemair/__init__.py:210-292 | assigning one slot sets that slot and leaves every other slot unchanged |
| Record.AlarmKey | custom_components/systemair/__init__.py:128-158 | every alarm attribute name starts with `alarm_` |
| Record.FieldNamePrefix | custom_components/systemair/__init__.py:115-158 | a slot's name starts with `alarm_` iff the slot is an alarm flag |
| Record.AlarmKeyShape | custom_components/systemair/__init__.py:128-158 | an alarm attribute name has no dash and no space, and splits on `_` into `alarm` and the alarm's words |
| Record.FieldName | custom_components/systemair/__init__.py:115-158 | the record's attribute name for each slot: no contract of its own; Record.FieldNamePrefix and Record.FieldNameInjective state its properties |
| Record.FieldNameInjective | custom_components/systemair/__init__.py:115-158 | distinct slots have distinct attribute names |
| Record.Render | custom_components/systemair/__init__.py:161-167 | the f-string rendering of a slot value (`None`, `True`/`False`, decimal digits, the string itself): no contract of its own; Record.RenderDotFree states its property |
| Record.RenderDotFree | custom_components/systemair/__init__.py:161-167 | None, a bool and an int render without a dot |
| Record.Get | custom_components/systemair/binary_sensor.py:43 | `getattr(state, name)` on a slot: no contract of its own; Record.With states that it reads back the value last written |
| Record.IamVersion | custom_components/systemair/__init__.py:161-163 | when the three IAM version parts are None, bools or ints, the string splits on `.` back into their renderings |
| Record.MainBoardVersion | custom_components/systemair/__init__.py:165-167 | the same round trip for the three main-board version parts |
| Record.WordsToAlarmInverse | custom_components/systemair/__init__.py:128-158 | every alarm is read back from the words of its attribute name |
| Record.AlarmKeyInjective | custom_components/systemair/__init__.py:128-158 | distinct alarms have distinct attribute names |
| Record.VersionStringParts | custom_components/systemair/__init__.py:161-167 | a version string of None/bool/int parts splits on `.` back into its three rendered parts |
| Record.FreshVersions | custom_components/systemair/__init__.py:161-167 | a new record reports both versions as `None.None.None` |
| Device.Route | custom_components/systemair/__init__.py:210-292 | an update writes no slot iff its register is not in the chain, or it is a version register whose device-type tag is neither 1 (main board) nor 2 (IAM) |
| Device.TagOnlyForVersions | custom_components/systemair/__init__.py:210-292 | outside the three version registers the device-type tag does not change where an update goes |
| Device.Writer | custom_components/systemair/__init__.py:208-292 | every slot of the record is written by some register (with the device-type tag it needs) |
| Device.AlarmRegister | custom_components/systemair/__init__.py:231-292 | each alarm flag has an alarm register that maps back to it |
| Device.AlarmCodeBijection | custom_components/systemair/__init__.py:231-292 | alarm registers and alarm flags correspond one to one |
| Device.AlarmRouting | custom_components/systemair/__init__.py:231-292 | an update writes an alarm flag iff it comes from that flag's register, whatever the device-type tag |
| Device.Apply | custom_components/systemair/__init__.py:208-292 | one update sets the routed slot to the value, keeps every other slot, and leaves the record unchanged when the register or tag is not recognised |
| Device.ApplySlot | custom_components/systemair/__init__.py:202-206 | applying one registry attribute keeps every alarm flag present in the record |
| Device.ApplyAll | custom_components/systemair/__init__.py:201-206 | applying the registry in order keeps every alarm flag present in the record |
| Device.Present | custom_components/systemair/__init__.py:202-205 | the kept registry entries are truthy entries of the registry, no more of them, and every truthy entry is kept |
| Device.PresentPosition | custom_components/systemair/__init__.py:202-205 | every truthy entry is kept, at the position counted by the truthy entries before it, so the kept entries keep the registry's order |
| Device.SkipFalsy | custom_components/systemair/__init__.py:201-206 | applying the whole registry equals applying only its truthy entries |
| Device.Untouched | custom_components/systemair/__init__.py:201-206 | a slot no registry entry routes to keeps its value |
| Device.LastWriterWins | custom_components/systemair/__init__.py:201-206 | the last registry entry routed to a slot decides its value |
| Device.ThreeUpdatesOn | custom_components/systemair/__init__.py:201-292 | any record that receives a model, a user mode and one alarm shows exactly those values, every other slot as before |
| Device.ThreeUpdates | custom_components/systemair/__init__.py:201-292 | a new record filled with a model, a user mode and one alarm shows exactly those values and nothing else changed |
| Device.NextCounter | custom_components/systemair/__init__.py:302-310 | a successful poll resets the failure counter, a failed one increments it |
| Device.TrailingFailures | custom_components/systemair/__init__.py:302-310 | the failures since the last success never exceed the number of polls |
| Device.CounterCountsFailures | custom_components/systemair/__init__.py:302-310 | after any run of polls the counter equals the failures since the last success, or the start value plus all polls when none succeeded |
| Device.AvailabilityAfterFailures | custom_components/systemair/__init__.py:342-346 | from zero, the device is available after n consecutive failures iff n <= 30, and always after a success |
| Device.SaveConnectDevice.constructor | custom_components/systemair/__init__.py:173-199 | the record is the fresh record with the registry applied, the name is `Systemair <model>`, the counter is 0 |
| Device.SaveConnectDevice.PopulateStateData | custom_components/systemair/__init__.py:201-206 | the new record is the old one with the registry's entries applied in order |
| Device.SaveConnectDevice.SetUpdateCallback | custom_components/systemair/__init__.py:208-292 | the new record is the old one with the update applied |
| Device.SaveConnectDevice.AsyncUpdate | custom_components/systemair/__init__.py:302-310 | the counter becomes the next counter for the poll's outcome |
| Device.SaveConnectDevice.DeviceModelValue | custom_components/systemair/__init__.py:298-300 | `device_model`: the record's model slot; no contract of its own |
| Device.IsAvailable | custom_components/systemair/__init__.py:346 | the comparison `counter <= 30`: no contract of its own; Device.AvailabilityAfterFailures states when it holds |
| Device.SaveConnectDevice.Available | custom_components/systemair/__init__.py:342-346 | available iff the failure counter is at most the threshold of 30 |
| Fan.AirflowStateOf | custom_components/systemair/fan.py:117-126 | None gives no reading; a level the table knows gives its settable level; anything else raises KeyError |
| Fan.ReportedLowRaises | custom_components/systemair/fan.py:117-126 | a reported low level is not in the table, so reading it raises KeyError |
| Fan.SpeedCount | custom_components/systemair/fan.py:101-104 | the fan has three speeds |
| Fan.IndexOf | custom_components/systemair/fan.py:95 | finds the position of a settable level, and raises ValueError for any other |
| Fan.LevelPercentage | custom_components/systemair/fan.py:91-99 | a settable level reports a percentage in 0..100, 0 exactly for off and 100 exactly for high |
| Fan.LevelPercentageIncreasing | custom_components/systemair/fan.py:91-99 | reported percentages rise strictly with the level and are 0, 33, 66 and 100 |
| Fan.Percentage | custom_components/systemair/fan.py:91-99 | a settable reading gives its level's percentage; no reading raises ValueError; a failed reading passes its error on |
| Fan.PercentageIndex | custom_components/systemair/fan.py:80-81 | the option is the least integer whose steps of `100 / speed_count` cover the percentage, i.e. the ceiling |
| Fan.ModeForPercentage | custom_components/systemair/fan.py:78-83 | IndexError iff the percentage is above 100 or below -166; otherwise a settable level; from 0 to 100 the lowest level whose percentage reaches the request |
| Fan.PercentageBands | custom_components/systemair/fan.py:78-83 | 0 selects off, 1..33 low, 34..66 normal, 67..100 high, each in both directions |
| Fan.PercentageRoundTrip | custom_components/systemair/fan.py:78-99 | setting the percentage a settable level reports selects that level again |
| Fan.SetPercentage | custom_components/systemair/fan.py:78-89 | issues the level command for the percentage followed by a refresh, and raises IndexError exactly when the option is outside the list |
| Fan.IsOn | custom_components/systemair/fan.py:112-115 | the fan is off iff it reads off; no reading counts as on; a failed reading passes its error on unchanged |
| Fan.PresetMode | custom_components/systemair/fan.py:132-138 | a preset name exists iff the user mode has one, and that name maps back to the mode |
| Fan.SetPresetModeInternal | custom_components/systemair/fan.py:150-170 | a command is issued iff the name is a preset other than the current one; it is that preset's mode; the result is true only when a command was issued and succeeded |
| Fan.SetPresetMode | custom_components/systemair/fan.py:172-179 | refreshes iff the internal call reported a change, with the same command |
| Fan.PresetReadBack | custom_components/systemair/fan.py:150-170 | once the commanded mode is read back the fan shows the requested preset, and asking again issues nothing |
| Fan.TurnOn | custom_components/systemair/fan.py:181-196 | only a fan that reads off gets the low command; a refresh follows exactly a successful command; a failed reading raises |
| Fan.TurnOff | custom_components/systemair/fan.py:198-208 | only a fan that is on gets the off command; a refresh follows exactly a successful command; a failed reading raises |
| Fan.OnOffSettle | custom_components/systemair/fan.py:181-208 | for any reading at most one of turn-on and turn-off issues a command, and a fan that reads off stays untouched by turn-off |
| Fan.SaveConnectDeviceFan.constructor | custom_components/systemair/fan.py:64-76 | the entity is bound to its device |
| Fan.SaveConnectDeviceFan.AirflowState | custom_components/systemair/fan.py:117-126 | returns the airflow reading of the device's slot, and marks the entity available iff the slot is not None |
| Fan.SaveConnectDeviceFan.AsyncTurnOn | custom_components/systemair/fan.py:181-196 | reads the state, then acts as TurnOn on that reading |
| Fan.SaveConnectDeviceFan.AsyncTurnOff | custom_components/systemair/fan.py:198-208 | reads the state, then acts as TurnOff on that reading |
| Text.Split | custom_components/systemair/binary_sensor.py:47 | at least one part, no part holds the separator, and joining the parts gives the string back |
| Text.Join | custom_components/systemair/binary_sensor.py:47 | `sep.join(parts)`: a single part joins to itself |
| Text.SplitJoin | custom_components/systemair/binary_sensor.py:47 | splitting the join of separator-free parts gives the parts back |
| Text.Capitalize | custom_components/systemair/binary_sensor.py:47 | same length, first character upper-cased, the rest lower-cased, only letters changed |
| BinarySensor.AttributeNamePrefix | custom_components/systemair/binary_sensor.py:39 | an attribute of the record starts with `alarm_` iff it is an alarm flag (the version properties do not) |
| BinarySensor.PositionAt | custom_components/systemair/binary_sensor.py:39 | the listing position undoes the listing: each of the 42 positions holds an attribute listed there and only there |
| BinarySensor.RecordAttributes | custom_components/systemair/binary_sensor.py:39 | lists every public attribute of the record, properties included, exactly once each, in listing order |
| BinarySensor.SensorAttributesOrder | custom_components/systemair/binary_sensor.py:39 | the `alarm_` selection keeps the listing order, so from a listing without repeats it selects each attribute once |
| BinarySensor.SensorAttributes | custom_components/systemair/binary_sensor.py:39 | keeps exactly the listed attributes whose name starts with `alarm_` |
| BinarySensor.RecordSensorAttributes | custom_components/systemair/binary_sensor.py:39 | on a record the selection is exactly the alarm flags |
| BinarySensor.AlarmAttributes | custom_components/systemair/binary_sensor.py:39 | the selection on a record holds every alarm flag and nothing else, is not empty, and lists each in order without repeats |
| BinarySensor.Name | custom_components/systemair/binary_sensor.py:47 | a description's `name=`: the display name of its key; no contract of its own |
| BinarySensor.DisplayName | custom_components/systemair/binary_sensor.py:47 | `' '.join` of the capitalised `_`-separated parts: no contract of its own; BinarySensor.DisplayNameWords states its words |
| BinarySensor.DisplayNameWords | custom_components/systemair/binary_sensor.py:47 | the display name of a key without spaces has one word per `_`-separated part, each the capitalised part |
| BinarySensor.AlarmDisplayNamePrefix | custom_components/systemair/binary_sensor.py:47 | every alarm sensor's name starts with `Alarm ` |
| BinarySensor.AlarmDisplayNameWords | custom_components/systemair/binary_sensor.py:47 | an alarm sensor's name has one word more than the alarm has words |
| BinarySensor.DescriptionsFor | custom_components/systemair/binary_sensor.py:41-51 | one description per selected attribute, in order, each reading that device |
| BinarySensor.AppendDescriptions | custom_components/systemair/binary_sensor.py:41-51 | the inner loop appends exactly one device's descriptions |
| BinarySensor.Accumulated | custom_components/systemair/binary_sensor.py:36-51 | the outer loop accumulates one description per device and selected attribute |
| BinarySensor.AccumulatedOwners | custom_components/systemair/binary_sensor.py:36-51 | every accumulated description reads one of the devices and one of the selected attributes |
| BinarySensor.AccumulatedHas | custom_components/systemair/binary_sensor.py:36-51 | every device's descriptions are all accumulated |
| BinarySensor.Row | custom_components/systemair/binary_sensor.py:53-57 | one entity per device for a description, in device order |
| BinarySensor.Cross | custom_components/systemair/binary_sensor.py:53-57 | one entity per (description, device) pair |
| BinarySensor.CrossMember | custom_components/systemair/binary_sensor.py:53-57 | every entity pairs one of the devices with one of the descriptions |
| BinarySensor.CrossHas | custom_components/systemair/binary_sensor.py:53-57 | every description is paired with every device |
| BinarySensor.SetupEntry | custom_components/systemair/binary_sensor.py:36-57 | the descriptions are those accumulated over all devices and the entities pair each of them with each device |
| BinarySensor.Active | custom_components/systemair/binary_sensor.py:43 | a value reads as on iff it equals the string `'active'` |
| BinarySensor.SensorName | custom_components/systemair/binary_sensor.py:77 | the entity's name is the description's display name, which for an alarm starts with `Alarm ` |
| BinarySensor.AttributeValue | custom_components/systemair/binary_sensor.py:43 | `getattr(dev.state, key)`: a slot's value, or the version string for the two properties; no contract of its own |
| BinarySensor.UniqueId | custom_components/systemair/binary_sensor.py:78 | the id is the integration name, a dash, the device id, a dash, and then exactly the key |
| BinarySensor.IsOn | custom_components/systemair/binary_sensor.py:42-43 | only a string stored in the description's own device's record can read as on; a boolean flag never does |
| BinarySensor.FreshSensorsOff | custom_components/systemair/binary_sensor.py:81-83 | every alarm sensor over fresh records is off, since False is not `'active'` |
| BinarySensor.AlarmUniqueIds | custom_components/systemair/binary_sensor.py:78 | two alarm entities with the same unique id have the same device id and the same key |
| BinarySensor.SharedUniqueIds | custom_components/systemair/binary_sensor.py:36-57 | with two devices and one alarm attribute, the second device gets two distinct entities with one unique id, one of which reads the first device's state |
| BinarySensor.Attached | custom_components/systemair/binary_sensor.py:53-57 | one entity per description, all attached to one device |
| BinarySensor.OwnSensors | custom_components/systemair/binary_sensor.py:36-57 | each device gets one entity per selected attribute |
| BinarySensor.CrossSingle | custom_components/systemair/binary_sensor.py:53-57 | with one device, pairing the descriptions with the device list attaches each to that device, in order |
| BinarySensor.OneDeviceUnchanged | custom_components/systemair/binary_sensor.py:36-57 | for a single device the corrected list equals the list the source builds |
| BinarySensor.OwnSensorsMember | custom_components/systemair/binary_sensor.py:36-57 | every such entity reads the state of the device it is attached to |
| BinarySensor.OwnSensorsUniqueIds | custom_components/systemair/binary_sensor.py:36-57 | with distinct device ids, two such entities share a unique id only when they belong to the same device and have the same key |
| BinarySensor.AlarmIdsDiffer | custom_components/systemair/binary_sensor.py:78 | two alarm entities that differ in device id or in attribute differ in unique id |
| BinarySensor.OwnSensorsDistinctIds | custom_components/systemair/binary_sensor.py:36-57 | with distinct device ids and distinct alarm attributes, no two entities of the corrected list share a unique id |
| BinarySensor.AlarmSensorIdsDistinct | custom_components/systemair/binary_sensor.py:36-57 | built from a record's alarm attributes for devices with distinct ids, the corrected list has pairwise distinct unique ids |

## Left out

- The vendor client (authentication, the cloud API, the websocket push, the registry objects), `gateway.py`, `config_flow.py` and `sensor.py` are not part of this model.
- The async plumbing, the coordinator, logging, `device_info`, `extra_state_attributes` and `hass.data` lookups are left out; vendor answers and host versions are parameters.
- Floating point: the fan's step size `100 / 3` is a float in the source. The model uses integer arithmetic that gives the same results for the integer percentages involved (`int(i * 33.33…)` is 0, 33, 66, 100, and `ceil(p / 33.33…)` is taken as `ceil(3p / 100)`); for very large magnitudes float rounding could make the two differ.
- Text.Capitalize: Python's `capitalize` on non-ASCII text (title case, special casing) is not modelled; the names involved are ASCII.
- BinarySensor.RecordAttributes: `dir()` also lists dunder and other non-public names; none starts with `alarm_`, so they do not affect the selection and are left out.
- BinarySensor.Description: a description stores the attribute it reads rather than the key string; the key and the display name are derived from it.
- The vendor's `Airflow` and `UserModes` enumerations and the host's fan-mode strings are not part of this model. `Const.Airflow` stands for both the `SAVECONNECT_FAN_MODES` entries (host strings) and the vendor members the airflow table returns, so `Fan.IndexOf`, `Fan.IsOn` and `Fan.TurnOn` assume that a vendor member compares equal to the matching host string (fan.py:95, :115, :83-85 and :191 rely on it).
- The record's values: a pushed airflow level or user mode is delivered only as a vendor member (`Level`, `Mode`); a raw string or int that a string- or int-valued enumeration would also match in the airflow and preset tables is not modelled.
- Record.Render: how a vendor enumeration member renders in an f-string is assumed to be its member name (a plain `Enum` renders as `Airflow.LOW`, a `str`/`int` mixin as its value); no proved property depends on that text.
- BinarySensor.IsOn: `getattr` on the record is modelled for the record's own attributes only; `entity_registry_enabled_default`, `has_entity_name` and the coordinator link are not modelled.
- Fan.TurnOn: the `percentage` and `preset_mode` arguments of `async_turn_on` are accepted and ignored by the source; the model has no such parameters.
- Fan.SaveConnectDeviceFan.constructor: the fixed name `Ventilation`, the unique id and the supported-feature flags are not modelled.
- Device.SaveConnectDevice: `async_create_coordinator`, `device_id` (modelled as a constant field), `registry`, `async_set_fan_mode` and `async_set_mode` (vendor calls, modelled as `Fan.Command` values) are not modelled as members.
- Device.SaveConnectDevice.constructor: the vendor device's `add_update_callback` subscription is not modelled; later pushes are modelled by `SetUpdateCallback`.
- The source prints the counter in `available`; output is not modelled.

## Findings

| source | as written | input that shows it | evidently intended | confidence | as-written member | corrected member |
|---|---|---|---|---|---|---|
| custom_components/systemair/binary_sensor.py:36-57 | descriptions of all devices are accumulated in one list, then every description is paired with every device | two devices with distinct ids and at least one alarm attribute | each device gets entities only for the descriptions made for it, so every entity reads its own device and unique ids do not clash | not executed | BinarySensor.SharedUniqueIds | BinarySensor.OwnSensorsDistinctIds |
