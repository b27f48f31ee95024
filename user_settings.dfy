/** The persisted settings of Core/Models/UserSettings.cs. `DeviceProfiles`
    is a dictionary from device id to profile, but `Equals` compares it with
    `SequenceEqual`, that is, entry by entry in enumeration order; it is
    modelled as the sequence of its entries in that order. */
module UserSettingsModel {
  import opened Common
  import opened DeviceSettingsModel
  import App

  /** One dictionary entry, `KeyValuePair<string, DeviceSettings>`. */
  type Profile = (string, DeviceSettings)

  datatype UserSettings = UserSettings(
    deviceProfiles: seq<Profile>,
    currentDeviceId: string,
    isDefaultAudioDevice: bool,
    isProgressBarColorChangeEnabled: bool,
    launchOnStartup: bool,
    theme: string,
    selectedLocale: string)
  {
    /** `Equals(object? obj)`: false for `null` or another run-time type;
        otherwise the six scalar properties match and the profiles are
        `SequenceEqual`. */
    predicate Equals(obj: Object<UserSettings>)
      ensures Equals(obj) <==> obj == Instance(this)
    {
      obj.Instance? &&
      var other := obj.value;
      ProfilesSequenceEqualIsEquality(deviceProfiles, other.deviceProfiles);
      isProgressBarColorChangeEnabled == other.isProgressBarColorChangeEnabled &&
      currentDeviceId == other.currentDeviceId &&
      isDefaultAudioDevice == other.isDefaultAudioDevice &&
      launchOnStartup == other.launchOnStartup &&
      theme == other.theme &&
      selectedLocale == other.selectedLocale &&
      ProfilesSequenceEqual(deviceProfiles, other.deviceProfiles)
    }

    /** `GetHashCode()`: `HashCode.Combine` of the six scalar properties and
        of an in-order fold over the profiles. `combine` stands for the
        process-seeded `HashCode.Combine`, `stringHash` for the equally
        seeded `string.GetHashCode()`. */
    function GetHashCode(combine: seq<int> -> int, stringHash: string -> int): int
    {
      combine([
        HashBool(isProgressBarColorChangeEnabled),
        stringHash(currentDeviceId),
        HashBool(isDefaultAudioDevice),
        HashBool(launchOnStartup),
        stringHash(theme),
        stringHash(selectedLocale),
        Aggregate(0, deviceProfiles, combine, stringHash)])
    }
  }

  /** Equality of two dictionary entries: `KeyValuePair`'s default equality,
      the key by string equality and the value by `DeviceSettings.Equals`. */
  predicate EntryEquals(a: Profile, b: Profile)
    ensures EntryEquals(a, b) <==> a == b
  {
    a.0 == b.0 && a.1.Equals(Instance(b.1))
  }

  /** `Enumerable.SequenceEqual`: walks both sequences in lockstep. */
  predicate ProfilesSequenceEqual(p: seq<Profile>, q: seq<Profile>)
    ensures ProfilesSequenceEqual(p, q) ==> |p| == |q|
  {
    if p == [] || q == [] then p == [] && q == []
    else EntryEquals(p[0], q[0]) && ProfilesSequenceEqual(p[1..], q[1..])
  }

  /** `SequenceEqual` holds exactly when the two sequences have the same
      length and agree position by position, which for these entries is
      equality of the sequences. */
  lemma {:induction false} ProfilesSequenceEqualIsEquality(p: seq<Profile>, q: seq<Profile>)
    ensures ProfilesSequenceEqual(p, q) <==> p == q
    ensures ProfilesSequenceEqual(p, q) <==>
      |p| == |q| && forall i :: 0 <= i < |p| ==> EntryEquals(p[i], q[i])
  {
    if p != [] && q != [] {
      ProfilesSequenceEqualIsEquality(p[1..], q[1..]);
      assert p == [p[0]] + p[1..] && q == [q[0]] + q[1..];
      if |p| == |q| && forall i :: 0 <= i < |p| ==> EntryEquals(p[i], q[i]) {
        assert forall i :: 0 <= i < |p[1..]| ==> p[1..][i] == p[i + 1] && q[1..][i] == q[i + 1];
      }
    }
  }

  /** `DeviceProfiles.Aggregate(seed, (hash, kvp) => HashCode.Combine(hash,
      kvp.Key.GetHashCode(), kvp.Value.GetHashCode()))`. */
  function Aggregate(seed: int, p: seq<Profile>, combine: seq<int> -> int, stringHash: string -> int): int
    decreases |p|
  {
    if p == [] then seed
    else Aggregate(EntryHash(seed, p[0], combine, stringHash), p[1..], combine, stringHash)
  }

  function EntryHash(hash: int, e: Profile, combine: seq<int> -> int, stringHash: string -> int): int
  {
    combine([hash, stringHash(e.0), e.1.GetHashCode(combine)])
  }

  /** The fold is a left fold: appending an entry combines it with the hash
      of everything before it. */
  lemma {:induction false} AggregateAppend(seed: int, p: seq<Profile>, e: Profile, combine: seq<int> -> int, stringHash: string -> int)
    ensures Aggregate(seed, p + [e], combine, stringHash)
         == EntryHash(Aggregate(seed, p, combine, stringHash), e, combine, stringHash)
    decreases |p|
  {
    if p == [] {
      assert p + [e] == [e];
    } else {
      assert (p + [e])[1..] == p[1..] + [e];
      AggregateAppend(EntryHash(seed, p[0], combine, stringHash), p[1..], e, combine, stringHash);
    }
  }

  /** `new UserSettings()`: no profiles, empty device id and locale, every
      switch on, the default theme. */
  function NewUserSettings(): (u: UserSettings)
    ensures u.deviceProfiles == [] && u.currentDeviceId == "" && u.selectedLocale == ""
    ensures u.isDefaultAudioDevice && u.isProgressBarColorChangeEnabled && u.launchOnStartup
    ensures u.theme == "Default"
  {
    UserSettings([], "", true, true, true, App.DefaultThemeName, "")
  }

  lemma EqualsNullOrOtherType(u: UserSettings)
    ensures !u.Equals(Null) && !u.Equals(OtherInstance)
  {
  }

  lemma EqualsReflexive(u: UserSettings)
    ensures u.Equals(Instance(u))
  {
  }

  lemma EqualsSymmetric(a: UserSettings, b: UserSettings)
    ensures a.Equals(Instance(b)) == b.Equals(Instance(a))
  {
  }

  /** Equal settings hash alike, whatever the process's hash seeds. */
  lemma EqualsImpliesEqualHash(a: UserSettings, b: UserSettings, combine: seq<int> -> int, stringHash: string -> int)
    requires a.Equals(Instance(b))
    ensures a.GetHashCode(combine, stringHash) == b.GetHashCode(combine, stringHash)
  {
  }

  /** Profile comparison depends on order: the same two entries enumerated
      in the other order make the settings unequal. */
  lemma ProfileOrderMatters(k1: string, d1: DeviceSettings, k2: string, d2: DeviceSettings)
    requires k1 != k2
    ensures var a := NewUserSettings().(deviceProfiles := [(k1, d1), (k2, d2)]);
            var b := NewUserSettings().(deviceProfiles := [(k2, d2), (k1, d1)]);
            multiset(a.deviceProfiles) == multiset(b.deviceProfiles) && !a.Equals(Instance(b))
  {
  }
}
