/** The integration's constant tables (const.py), over the vendor client's
    airflow and user-mode enumerations. */
module Const {

  /** The vendor's airflow levels. Off, Low, Normal and High are the levels a
      caller can set; the unit may also report Minimum and Maximum. */
  datatype Airflow = Off | Minimum | Low | Normal | High | Maximum

  /** The vendor's user modes: the six with a preset name, and the vendor's
      remaining modes, told apart by their numeric code. */
  datatype UserMode = Auto | Manual | Away | Crowded | Fireplace | Holiday | OtherMode(code: int)

  /** `SAVECONNECT_FAN_MODES`: the settable levels in speed order. */
  function FanModes(): (modes: seq<Airflow>)
    ensures |modes| == 4
    ensures modes[0] == Off && modes[3] == High
    ensures forall i, j :: 0 <= i < j < |modes| ==> modes[i] != modes[j]
    ensures Minimum !in modes && Maximum !in modes
  {
    [Off, Low, Normal, High]
  }

  /** `SAVECONNECT_AIRFLOW_TO_STR_SETTABLE`: folds the five reported levels
      onto the settable ones. Low itself is not a key. */
  function AirflowToSettable(): (table: map<Airflow, Airflow>)
    ensures table.Keys == {Off, Minimum, Normal, High, Maximum}
    ensures Low !in table
    ensures forall a :: a in table ==> table[a] in FanModes()
    ensures table[Minimum] == Low && table[Maximum] == High
    ensures forall a :: a in table && a in FanModes() ==> table[a] == a
    ensures table[High] == table[Maximum]
  {
    map[Off := Off, Minimum := Low, Normal := Normal, High := High, Maximum := High]
  }

  /** `SAVECONNECT_MODE_TO_STR_SETTABLE`: display names of the six presets. */
  function ModeToPreset(): (table: map<UserMode, string>)
    ensures table.Keys == {Auto, Manual, Away, Crowded, Fireplace, Holiday}
    ensures forall code: int :: OtherMode(code) !in table
    ensures forall m, m' :: m in table && m' in table && m != m' ==> table[m] != table[m']
  {
    map[Auto := "Auto", Manual := "Manual", Away := "Away", Crowded := "Crowded",
        Fireplace := "Fireplace", Holiday := "Holiday"]
  }

  /** `STR_TO_SAVECONNECT_PROFILE_SETTABLE`, built by inverting
      ModeToPreset: the two tables undo each other in both directions. */
  function PresetToMode(): (table: map<string, UserMode>)
    ensures table.Keys == ModeToPreset().Values
    ensures forall m :: m in ModeToPreset() ==> table[ModeToPreset()[m]] == m
    ensures forall name :: name in table ==> table[name] in ModeToPreset() && ModeToPreset()[table[name]] == name
  {
    var forward := ModeToPreset();
    map m | m in forward.Keys :: forward[m] := m
  }

  /** The preset vocabulary is exactly the six display names, each naming
      the user mode of the same name. */
  lemma PresetVocabulary()
    ensures PresetToMode().Keys == {"Auto", "Manual", "Away", "Crowded", "Fireplace", "Holiday"}
    ensures PresetToMode()["Auto"] == Auto && PresetToMode()["Manual"] == Manual && PresetToMode()["Away"] == Away
    ensures PresetToMode()["Crowded"] == Crowded && PresetToMode()["Fireplace"] == Fireplace && PresetToMode()["Holiday"] == Holiday
  {
    var forward := ModeToPreset();
    assert forward[Auto] == "Auto" && forward[Manual] == "Manual" && forward[Away] == "Away";
    assert forward[Crowded] == "Crowded" && forward[Fireplace] == "Fireplace" && forward[Holiday] == "Holiday";
  }
}
