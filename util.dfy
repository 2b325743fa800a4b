/** The host-version gate (util.py). The host's MAJOR_VERSION and
    MINOR_VERSION are parameters. */
module Util {

  /** `is_min_ha_version`: the host release is at least the required one,
      comparing (major, minor) lexicographically. */
  function IsMinHaVersion(major: int, minor: int, minMajor: int, minMinor: int): (ok: bool)
    ensures major > minMajor ==> ok
    ensures major < minMajor ==> !ok
    ensures major == minMajor ==> (ok <==> minor >= minMinor)
  {
    major > minMajor || (major == minMajor && minor >= minMinor)
  }

  /** The gate is a total preorder on versions: reflexive, transitive and
      total, and two versions that pass each other's gate are equal. */
  lemma VersionOrder(a1: int, a2: int, b1: int, b2: int, c1: int, c2: int)
    ensures IsMinHaVersion(a1, a2, a1, a2)
    ensures IsMinHaVersion(a1, a2, b1, b2) || IsMinHaVersion(b1, b2, a1, a2)
    ensures IsMinHaVersion(a1, a2, b1, b2) && IsMinHaVersion(b1, b2, a1, a2) ==> a1 == b1 && a2 == b2
    ensures IsMinHaVersion(a1, a2, b1, b2) && IsMinHaVersion(b1, b2, c1, c2) ==> IsMinHaVersion(a1, a2, c1, c2)
  {
  }

  /** How the integration forwards its entity platforms to the host. */
  datatype PlatformSetup = ForwardEntrySetups | SetupPlatforms

  /** `async_setup_entity_platforms`: hosts from 2022.8 on get the
      `async_forward_entry_setups` call, older ones `async_setup_platforms`. */
  function PlatformSetupCall(major: int, minor: int): (call: PlatformSetup)
    ensures call == ForwardEntrySetups <==> (major > 2022 || (major == 2022 && minor >= 8))
  {
    if IsMinHaVersion(major, minor, 2022, 8) then ForwardEntrySetups else SetupPlatforms
  }
}
