/** The per-device profile of Core/Models/DeviceSettings.cs: two threshold
    volumes, the yellow-threshold switch, and the notification settings of
    each threshold. Equality is by value, as the hand-written `Equals`
    compares all nine properties. */
module DeviceSettingsModel {
  import opened Common

  datatype DeviceSettings = DeviceSettings(
    redThresholdVolume: int32,
    yellowThresholdVolume: int32,
    isYellowThresholdEnabled: bool,
    isRedPushNotificationEnabled: bool,
    isRedSoundNotificationEnabled: bool,
    redSoundNotificationVolume: int32,
    isYellowPushNotificationEnabled: bool,
    isYellowSoundNotificationEnabled: bool,
    yellowSoundNotificationVolume: int32)
  {
    /** `Equals(object? obj)`: false for `null` or another run-time type,
        otherwise the conjunction of the nine field comparisons. */
    predicate Equals(obj: Object<DeviceSettings>)
      ensures Equals(obj) <==> obj == Instance(this)
    {
      obj.Instance? &&
      var other := obj.value;
      redThresholdVolume == other.redThresholdVolume &&
      yellowThresholdVolume == other.yellowThresholdVolume &&
      isYellowThresholdEnabled == other.isYellowThresholdEnabled &&
      isRedPushNotificationEnabled == other.isRedPushNotificationEnabled &&
      isRedSoundNotificationEnabled == other.isRedSoundNotificationEnabled &&
      redSoundNotificationVolume == other.redSoundNotificationVolume &&
      isYellowPushNotificationEnabled == other.isYellowPushNotificationEnabled &&
      isYellowSoundNotificationEnabled == other.isYellowSoundNotificationEnabled &&
      yellowSoundNotificationVolume == other.yellowSoundNotificationVolume
    }

    /** `GetHashCode()`: `HashCode.Combine` of the first six fields and of a
        nested `Combine` of the last three. `HashCode.Combine` is seeded per
        process, so it is the parameter `combine`, applied to the element
        hashes (its arity is the length of the sequence). */
    function GetHashCode(combine: seq<int> -> int): int
    {
      combine([
        redThresholdVolume as int,
        yellowThresholdVolume as int,
        HashBool(isYellowThresholdEnabled),
        HashBool(isRedPushNotificationEnabled),
        HashBool(isRedSoundNotificationEnabled),
        redSoundNotificationVolume as int,
        combine([
          HashBool(isYellowPushNotificationEnabled),
          HashBool(isYellowSoundNotificationEnabled),
          yellowSoundNotificationVolume as int])])
    }
  }

  /** `bool.GetHashCode()`; `int.GetHashCode()` is the value itself. */
  function HashBool(b: bool): (h: int)
    ensures h == 0 || h == 1
    ensures h == 1 <==> b
  {
    if b then 1 else 0
  }

  /** `new DeviceSettings()`: no property has an initialiser, so every
      volume is 0 and every switch is off. */
  function NewDeviceSettings(): (d: DeviceSettings)
    ensures d.redThresholdVolume == 0 && d.yellowThresholdVolume == 0
    ensures d.redSoundNotificationVolume == 0 && d.yellowSoundNotificationVolume == 0
    ensures !d.isYellowThresholdEnabled
    ensures !d.isRedPushNotificationEnabled && !d.isRedSoundNotificationEnabled
    ensures !d.isYellowPushNotificationEnabled && !d.isYellowSoundNotificationEnabled
  {
    DeviceSettings(0, 0, false, false, false, 0, false, false, 0)
  }

  lemma EqualsNullOrOtherType(d: DeviceSettings)
    ensures !d.Equals(Null) && !d.Equals(OtherInstance)
  {
  }

  /** `Equals` is an equivalence relation on instances. */
  lemma EqualsReflexive(a: DeviceSettings)
    ensures a.Equals(Instance(a))
  {
  }

  lemma EqualsSymmetric(a: DeviceSettings, b: DeviceSettings)
    ensures a.Equals(Instance(b)) == b.Equals(Instance(a))
  {
  }

  lemma EqualsTransitive(a: DeviceSettings, b: DeviceSettings, c: DeviceSettings)
    requires a.Equals(Instance(b)) && b.Equals(Instance(c))
    ensures a.Equals(Instance(c))
  {
  }

  /** Equal profiles hash alike, whatever the process's hash seed. */
  lemma EqualsImpliesEqualHash(a: DeviceSettings, b: DeviceSettings, combine: seq<int> -> int)
    requires a.Equals(Instance(b))
    ensures a.GetHashCode(combine) == b.GetHashCode(combine)
  {
  }
}
