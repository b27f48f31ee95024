/** The logic of Core/Services/UserSettingsService.cs that does not touch the
    disk: repairing loaded profiles (`ValidateSettings`), the use made of it
    after loading, the locale fallback of `GetDefaultUserSettings`, and
    `SaveSettings` with the file write taken as a parameter. */
module Services {
  import opened Common
  import opened Errors
  import opened Results
  import opened DeviceSettingsModel
  import opened UserSettingsModel
  import App

  /** A volume that a slider can show. */
  predicate InVolumeRange(v: int32) { 0 <= v <= 100 }

  /** Thresholds that make sense together, or both at the fresh default. */
  predicate ThresholdsCoherent(d: DeviceSettings)
  {
    (1 <= d.redThresholdVolume <= 100 && 0 <= d.yellowThresholdVolume < d.redThresholdVolume)
    || (d.redThresholdVolume == 0 && d.yellowThresholdVolume == 0)
  }

  /** A profile that validation leaves as it is. */
  predicate ValidProfile(d: DeviceSettings)
  {
    ThresholdsCoherent(d) &&
    InVolumeRange(d.redSoundNotificationVolume) && InVolumeRange(d.yellowSoundNotificationVolume)
  }

  /** The repair of one profile, the body of the `foreach` loop: each
      out-of-range value is replaced by the value of a fresh `DeviceSettings`,
      and the yellow threshold is checked against the already repaired red. */
  function ValidateDevice(d: DeviceSettings): (r: DeviceSettings)
    ensures r.redThresholdVolume ==
      if 1 <= d.redThresholdVolume <= 100 && d.yellowThresholdVolume < d.redThresholdVolume
      then d.redThresholdVolume else 0
    ensures r.yellowThresholdVolume ==
      if 0 <= d.yellowThresholdVolume <= 99 && d.yellowThresholdVolume < r.redThresholdVolume
      then d.yellowThresholdVolume else 0
    ensures r.redSoundNotificationVolume ==
      if InVolumeRange(d.redSoundNotificationVolume) then d.redSoundNotificationVolume else 0
    ensures r.yellowSoundNotificationVolume ==
      if InVolumeRange(d.yellowSoundNotificationVolume) then d.yellowSoundNotificationVolume else 0
    ensures r.redThresholdVolume == 0 ==> r.yellowThresholdVolume == 0
    ensures r == d.(redThresholdVolume := r.redThresholdVolume,
                    yellowThresholdVolume := r.yellowThresholdVolume,
                    redSoundNotificationVolume := r.redSoundNotificationVolume,
                    yellowSoundNotificationVolume := r.yellowSoundNotificationVolume)
    ensures ValidProfile(r)
    ensures r == d <==> ValidProfile(d)
  {
    var defaults := NewDeviceSettings();
    var red :=
      if d.redThresholdVolume < 1 || d.redThresholdVolume > 100 || d.redThresholdVolume <= d.yellowThresholdVolume
      then defaults.redThresholdVolume else d.redThresholdVolume;
    var yellow :=
      if d.yellowThresholdVolume < 0 || d.yellowThresholdVolume > 99 || d.yellowThresholdVolume >= red
      then defaults.yellowThresholdVolume else d.yellowThresholdVolume;
    var redSound :=
      if d.redSoundNotificationVolume < 0 || d.redSoundNotificationVolume > 100
      then defaults.redSoundNotificationVolume else d.redSoundNotificationVolume;
    var yellowSound :=
      if d.yellowSoundNotificationVolume < 0 || d.yellowSoundNotificationVolume > 100
      then defaults.yellowSoundNotificationVolume else d.yellowSoundNotificationVolume;
    d.(redThresholdVolume := red, yellowThresholdVolume := yellow,
       redSoundNotificationVolume := redSound, yellowSoundNotificationVolume := yellowSound)
  }

  /** Every profile repaired, in the same order and under the same keys. */
  function ValidateProfiles(p: seq<Profile>): (r: seq<Profile>)
    ensures |r| == |p|
    ensures forall i :: 0 <= i < |p| ==> r[i].0 == p[i].0 && r[i].1 == ValidateDevice(p[i].1)
    ensures forall i :: 0 <= i < |p| ==> ValidProfile(r[i].1)
  {
    if p == [] then []
    else [(p[0].0, ValidateDevice(p[0].1))] + ValidateProfiles(p[1..])
  }

  /** The settings value that `ValidateSettings` leaves behind. */
  function Validated(s: UserSettings): (r: UserSettings)
    ensures r == s.(deviceProfiles := r.deviceProfiles)
    ensures |r.deviceProfiles| == |s.deviceProfiles|
    ensures forall i :: 0 <= i < |s.deviceProfiles| ==>
      r.deviceProfiles[i].0 == s.deviceProfiles[i].0 && ValidProfile(r.deviceProfiles[i].1) &&
      r.deviceProfiles[i].1 == ValidateDevice(s.deviceProfiles[i].1)
  {
    s.(deviceProfiles := ValidateProfiles(s.deviceProfiles))
  }

  /** After validation every profile has coherent thresholds: red in 1..100
      with yellow in 0..red-1, or both at 0. */
  lemma ValidatedThresholdsCoherent(s: UserSettings, i: int)
    requires 0 <= i < |s.deviceProfiles|
    ensures var d := Validated(s).deviceProfiles[i].1;
      (1 <= d.redThresholdVolume <= 100 && 0 <= d.yellowThresholdVolume < d.redThresholdVolume)
      || (d.redThresholdVolume == 0 && d.yellowThresholdVolume == 0)
  {
  }

  /** Validation changes nothing exactly when every profile is already valid. */
  lemma ValidatedFixedPoint(s: UserSettings)
    ensures Validated(s) == s <==> forall i :: 0 <= i < |s.deviceProfiles| ==> ValidProfile(s.deviceProfiles[i].1)
  {
  }

  /** Validating already validated settings changes nothing. */
  lemma ValidatedIdempotent(s: UserSettings)
    ensures Validated(Validated(s)) == Validated(s)
  {
    ValidatedFixedPoint(Validated(s));
  }

  /** A fresh profile and fresh settings are already valid. */
  lemma DefaultsAreValid()
    ensures ValidateDevice(NewDeviceSettings()) == NewDeviceSettings()
    ensures Validated(NewUserSettings()) == NewUserSettings()
  {
  }

  /** A settings object, a reference: validation updates the profiles it
      holds in place. */
  class SettingsRef {
    var value: UserSettings

    constructor (v: UserSettings)
      ensures value == v
    {
      value := v;
    }
  }

  /** `ValidateSettings`: repairs every profile of the object in place,
      entry by entry, and returns the very object it was given. */
  method ValidateSettings(settings: SettingsRef) returns (r: SettingsRef)
    modifies settings
    ensures r == settings
    ensures settings.value == Validated(old(settings.value))
  {
    var defaults := NewDeviceSettings();
    ghost var original := settings.value;
    var n := |settings.value.deviceProfiles|;
    var i := 0;
    while i < n
      invariant 0 <= i <= n
      invariant settings.value == original.(deviceProfiles := settings.value.deviceProfiles)
      invariant |settings.value.deviceProfiles| == n == |original.deviceProfiles|
      invariant forall j :: 0 <= j < i ==>
        settings.value.deviceProfiles[j] == (original.deviceProfiles[j].0, ValidateDevice(original.deviceProfiles[j].1))
      invariant forall j :: i <= j < n ==> settings.value.deviceProfiles[j] == original.deviceProfiles[j]
    {
      var (key, device) := settings.value.deviceProfiles[i];
      if device.redThresholdVolume < 1 ||
         device.redThresholdVolume > 100 ||
         device.redThresholdVolume <= device.yellowThresholdVolume
      {
        device := device.(redThresholdVolume := defaults.redThresholdVolume);
      }
      if device.yellowThresholdVolume < 0 ||
         device.yellowThresholdVolume > 99 ||
         device.yellowThresholdVolume >= device.redThresholdVolume
      {
        device := device.(yellowThresholdVolume := defaults.yellowThresholdVolume);
      }
      if device.redSoundNotificationVolume < 0 || device.redSoundNotificationVolume > 100 {
        device := device.(redSoundNotificationVolume := defaults.redSoundNotificationVolume);
      }
      if device.yellowSoundNotificationVolume < 0 || device.yellowSoundNotificationVolume > 100 {
        device := device.(yellowSoundNotificationVolume := defaults.yellowSoundNotificationVolume);
      }
      settings.value := settings.value.(deviceProfiles := settings.value.deviceProfiles[i := (key, device)]);
      i := i + 1;
    }
    assert settings.value.deviceProfiles == Validated(original).deviceProfiles;
    r := settings;
  }

  /** What `DeserializeSettingsFile` does with freshly deserialized settings:
      validate them, re-save when validation changed them, and return them.
      Because validation mutates and returns the same object, the comparison
      is between an object and itself, and the re-save never happens. */
  method AfterDeserialize(settings: SettingsRef) returns (resave: bool, loaded: ValueResult<UserSettings>)
    modifies settings
    ensures !resave
    ensures settings.value == Validated(old(settings.value))
    ensures loaded == ValueResult.Success(settings.value)
  {
    var validatedSettings := ValidateSettings(settings);
    resave := !settings.value.Equals(Instance(validatedSettings.value));
    loaded := ValueResult.Success(settings.value);
  }

  /** The evidently intended re-save condition: the loaded settings differ
      from their repaired form. */
  function NeedsResave(loaded: UserSettings): (b: bool)
    ensures b <==> exists i :: 0 <= i < |loaded.deviceProfiles| && !ValidProfile(loaded.deviceProfiles[i].1)
  {
    ValidatedFixedPoint(loaded);
    !loaded.Equals(Instance(Validated(loaded)))
  }

  /** Once repaired settings are saved, loading them again asks for no
      further save. */
  lemma NoResaveAfterRepair(s: UserSettings)
    ensures !NeedsResave(Validated(s))
  {
    ValidatedIdempotent(s);
  }

  /** A settings file whose red threshold is out of range: it needs the
      re-save that `AfterDeserialize` never performs. */
  lemma OutOfRangeRedNeedsResave()
    ensures NeedsResave(NewUserSettings().(deviceProfiles := [("speakers", NewDeviceSettings().(redThresholdVolume := 150))]))
  {
  }

  /** The same step with the intended comparison: a snapshot of the loaded
      value is compared with the repaired one. */
  method AfterDeserializeIntended(settings: SettingsRef) returns (resave: bool, loaded: ValueResult<UserSettings>)
    modifies settings
    ensures resave == NeedsResave(old(settings.value))
    ensures settings.value == Validated(old(settings.value))
    ensures loaded == ValueResult.Success(settings.value)
  {
    var before := settings.value;
    var validatedSettings := ValidateSettings(settings);
    resave := !before.Equals(Instance(validatedSettings.value));
    loaded := ValueResult.Success(settings.value);
  }

  /** `List.Find` over the supported culture names: the first whose name
      equals `name`, or `null`. */
  function FindCulture(cultures: seq<string>, name: string): (r: Option<string>)
    ensures r.Some? <==> name in cultures
    ensures r.Some? ==> r.value == name
  {
    if cultures == [] then None
    else if cultures[0] == name then Some(cultures[0])
    else FindCulture(cultures[1..], name)
  }

  /** `GetDefaultUserSettings()`: fresh settings whose locale is the system UI
      culture when the application supports it, else the first supported
      culture. The system culture is a parameter. */
  function GetDefaultUserSettings(systemCultureName: string): (u: UserSettings)
    ensures u.selectedLocale in App.SupportedCultures
    ensures systemCultureName in App.SupportedCultures ==> u.selectedLocale == systemCultureName
    ensures systemCultureName !in App.SupportedCultures ==> u.selectedLocale == App.SupportedCultures[0]
    ensures u == NewUserSettings().(selectedLocale := u.selectedLocale)
  {
    var appCulture := match FindCulture(App.SupportedCultures, systemCultureName)
                      case Some(c) => c
                      case None => App.SupportedCultures[0];
    NewUserSettings().(selectedLocale := appCulture)
  }

  /** How the write of the settings file ended, had it been attempted:
      written, or the exception it threw. */
  datatype WriteOutcome =
    | Written
    | JsonFailure(message: string)
    | AccessFailure(message: string)
    | IOFailure(message: string)
    | OtherFailure(message: string)

  /** `SaveSettings(userSettings)`: a `null` object fails with
      `InvalidUserSettings` before any lock or file is touched; otherwise
      the result is that of the write, each exception mapped to its code. */
  function SaveSettings(userSettings: Option<UserSettings>, write: WriteOutcome): (r: Result)
    ensures userSettings.None? ==>
      r == Result.Failure(From(InvalidUserSettings, "Settings object is null."))
    ensures userSettings.Some? ==> (r.IsSuccess() <==> write.Written?)
    ensures userSettings.Some? && write.AccessFailure? ==>
      r.GetError() == Some(From(SettingsDirectoryAccessError, write.message))
    ensures userSettings.Some? && !write.Written? && !write.AccessFailure? ==>
      r.GetError() == Some(From(UserSettingsSaveError, write.message))
  {
    if userSettings.None? then
      Result.Failure(From(InvalidUserSettings, "Settings object is null."))
    else
      match write
      case Written => Result.Success()
      case JsonFailure(m) => Result.Failure(From(UserSettingsSaveError, m))
      case AccessFailure(m) => ValueResult<UserSettings>.Failure(From(SettingsDirectoryAccessError, m)).AsResult()
      case IOFailure(m) => Result.Failure(From(UserSettingsSaveError, m))
      case OtherFailure(m) => Result.Failure(From(UserSettingsSaveError, m))
  }

  /** The `null` check does not depend on the disk at all. */
  lemma SaveNullIgnoresDisk(w1: WriteOutcome, w2: WriteOutcome)
    ensures SaveSettings(None, w1) == SaveSettings(None, w2)
    ensures SaveSettings(None, w1).GetError().value.code == InvalidUserSettings
  {
  }
}
