# EnweVolume settings and threshold model

EnweVolume is a Windows tray utility. It watches the output level of an audio
device and changes the colour of a volume bar and a tray icon when the level
crosses two per-device thresholds, a red one and an optional yellow one. This
project models the part of the program whose behaviour can be stated exactly:

- the per-device profile (`DeviceSettings`) and the persisted settings
  (`UserSettings`), with their hand-written value equality and hash codes;
- the repair of loaded profiles (`UserSettingsService.ValidateSettings`), the
  locale fallback of `GetDefaultUserSettings` and the `null` guard of
  `SaveSettings`;
- the `Result` / `Result<T>` success-or-failure wrappers, with the `Error`
  record and its two enumerations;
- the settings view-model: how the volume bar is coloured, and the change
  handlers that keep the yellow threshold below the red one and write each
  edited value through to the current profile;
- `AndConverter`, a binding converter that ANDs a list of boxed booleans.

Modules follow the source files. `Common` holds `Option` and `Object<T>`.
`Object<T>` models a .NET `object?` argument, which is either `null`, an
instance of exactly `T` or an instance of some other run-time type. The other
modules are `Errors`, `Results`, `App` (constants of `App.xaml.cs`),
`DeviceSettingsModel`, `UserSettingsModel`, `Services` (the settings service),
`ViewModels` (the settings view-model, a class) and `Converters`.

Modelling choices:

- `Dictionary<string, DeviceSettings>` becomes the sequence of its entries in
  enumeration order. `UserSettings.Equals` compares the profiles with
  `SequenceEqual`, which depends on that order.
- `HashCode.Combine` and `string.GetHashCode` are seeded per process. The hash
  functions therefore take them as parameters: `combine` receives the element
  hashes, and its arity is the length of that sequence. `bool` hashes to 1 or 0
  and `int` hashes to itself, as in .NET.
- The C# `ValidateSettings` mutates each profile object in place and returns
  the settings object it was given. `Services.SettingsRef` models that object
  as a reference, and `ValidateSettings` is a loop over its profiles that
  rewrites each entry. The pure function `Validated` is its specification.
- The view-model's observable properties are plain fields. Each handler is
  modelled as its own body, and a nested property assignment inside a handler
  is a plain field write. A threshold handler requires that its own field
  already holds the new value, as the generated setter writes it first. `currentDeviceSettings` is a given profile value.
- The result classes have protected constructors, so only the factory-built
  states exist; each class is a sum type. `Result<T>.Failure` stores
  `default(T)` as its value, which the model writes as `GetValue() == None`.
- `Error.From(code, message)` is not defined in any source file shown.
  It is modelled as an `Error` with that code, `ErrorType.Failure` and the
  message as its description. `ErrorType.Failure` is what `TrayManager.cs`
  uses for the errors it builds itself.
- The C# `int` volumes are the 32-bit `int32` type. The ±1 adjustments of the
  threshold handlers wrap around as C#'s unchecked arithmetic does (`Wrap32`).
- The system UI culture is a parameter of `GetDefaultUserSettings`. The
  outcome of the settings-file write is a parameter of `SaveSettings`.

`AudioMonitorServiceWindows.cs` is not part of this model: it wraps native
audio handles and timers.

## Model

| member | source | states |
|---|---|---|
| `Errors.ErrorCode.Value` | EnweVolume/Core/Enums/ErrorCode.cs:3-24 | the enum's integers fall into the documented hundreds groups: 0 unknown, 1xx validation, 2xx file I/O, 3xx device, 4xx access |
| `Errors.ValueInjective` | EnweVolume/Core/Enums/ErrorCode.cs:5-23 | no two error codes share an integer |
| `Errors.ErrorType.Value` | EnweVolume/Core/Enums/ErrorType.cs:3-10 | the types are numbered 0..4, with `Failure` the default 0 |
| `Errors.From` | EnweVolume/Core/Models/Error.cs:5 | the built error carries the requested code and the message as its description |
| `Results.Result.GetError` | EnweVolume/Core/Models/Result.cs:5-6 | the error is absent exactly on success |
| `Results.Result.Success` | EnweVolume/Core/Models/Result.cs:14 | `Success()` is successful and has no error |
| `Results.Result.Failure` | EnweVolume/Core/Models/Result.cs:16 | `Failure(e)` is unsuccessful and carries `e` |
| `Results.Result.Match` | EnweVolume/Core/Models/Result.cs:18-24 | runs `onSuccess` on success, otherwise `onFailure` with the stored error |
| `Results.ValueResult.GetError` | EnweVolume/Core/Models/Result.cs:6 | the error is absent exactly on success |
| `Results.ValueResult.GetValue` | EnweVolume/Core/Models/Result.cs:29 | a value is present exactly on success |
| `Results.ValueResult.AsResult` | EnweVolume/Core/Models/Result.cs:27-35 | viewed as its base class, a `Result<T>` keeps its success flag and error |
| `Results.ValueResult.Success` | EnweVolume/Core/Models/Result.cs:37 | `Success(v)` is successful, holds `v` and has no error |
| `Results.ValueResult.Failure` | EnweVolume/Core/Models/Result.cs:39-40 | `Failure(e)` is unsuccessful, holds the default value and carries `e` |
| `Results.ValueResult.Match` | EnweVolume/Core/Models/Result.cs:42-45 | `onSuccess` gets the value on success, `onFailure` gets the error otherwise |
| `Results.ValueResult.Bind` | EnweVolume/Core/Models/Result.cs:47-50 | on success the result is `func(value)`; on failure it is a failure with the same error |
| `Results.ValueResult.Map` | EnweVolume/Core/Models/Result.cs:52-55 | success flag and error are kept, and a successful value is `mapper(value)` |
| `Results.BindFailureIgnoresFunc` | EnweVolume/Core/Models/Result.cs:47-50 | binding a failure gives the same failure whatever function is passed, so the function is never consulted |
| `Results.BindLeftIdentity` | EnweVolume/Core/Models/Result.cs:47-50 | `Success(v).Bind(f) == f(v)` |
| `Results.BindRightIdentity` | EnweVolume/Core/Models/Result.cs:47-50 | `r.Bind(Success) == r` |
| `Results.BindAssociative` | EnweVolume/Core/Models/Result.cs:47-50 | `r.Bind(f).Bind(g) == r.Bind(x => f(x).Bind(g))` |
| `Results.MapIsBindSuccess` | EnweVolume/Core/Models/Result.cs:47-55 | `r.Map(f) == r.Bind(x => Success(f(x)))` |
| `Results.MapIdentity` | EnweVolume/Core/Models/Result.cs:52-55 | mapping the identity changes nothing |
| `Results.MapComposes` | EnweVolume/Core/Models/Result.cs:52-55 | `r.Map(f).Map(g) == r.Map(x => g(f(x)))` |
| `Results.MatchAgreesWithBase` | EnweVolume/Core/Models/Result.cs:18-45 | `Match` gives the same answer on a `Result<T>` and on its base-class view |
| `DeviceSettingsModel.DeviceSettings.Equals` | EnweVolume/Core/Models/DeviceSettings.cs:15-30 | true exactly when the argument is a `DeviceSettings` instance whose nine fields all match, i.e. the same value |
| `DeviceSettingsModel.DeviceSettings.GetHashCode` | EnweVolume/Core/Models/DeviceSettings.cs:32-47 | the hash is the seeded `Combine` of the first six fields and of a nested `Combine` of the last three; bools hash to 1/0, ints to themselves |
| `DeviceSettingsModel.HashBool` | EnweVolume/Core/Models/DeviceSettings.cs:37-43 | `bool.GetHashCode()` is 1 for true and 0 for false |
| `DeviceSettingsModel.NewDeviceSettings` | EnweVolume/Core/Models/DeviceSettings.cs:5-13 | a fresh profile has every volume at 0 and every switch off |
| `DeviceSettingsModel.EqualsNullOrOtherType` | EnweVolume/Core/Models/DeviceSettings.cs:17-18 | `null` and instances of other run-time types are never equal |
| `DeviceSettingsModel.EqualsReflexive` | EnweVolume/Core/Models/DeviceSettings.cs:20-29 | every profile equals itself |
| `DeviceSettingsModel.EqualsSymmetric` | EnweVolume/Core/Models/DeviceSettings.cs:20-29 | equality does not depend on argument order |
| `DeviceSettingsModel.EqualsTransitive` | EnweVolume/Core/Models/DeviceSettings.cs:20-29 | equality is transitive |
| `DeviceSettingsModel.EqualsImpliesEqualHash` | EnweVolume/Core/Models/DeviceSettings.cs:32-47 | equal profiles have equal hash codes for every hash seed |
| `UserSettingsModel.UserSettings.Equals` | EnweVolume/Core/Models/UserSettings.cs:13-26 | true exactly when the argument is a `UserSettings` instance with the same six scalars and `SequenceEqual` profiles, i.e. the same value |
| `UserSettingsModel.UserSettings.GetHashCode` | EnweVolume/Core/Models/UserSettings.cs:28-39 | the seeded `Combine` of the six scalars and of the in-order fold over the profiles |
| `UserSettingsModel.EntryEquals` | EnweVolume/Core/Models/UserSettings.cs:25 | `KeyValuePair` equality (key by string equality, value by `DeviceSettings.Equals`) holds iff the entries are the same value |
| `UserSettingsModel.ProfilesSequenceEqual` | EnweVolume/Core/Models/UserSettings.cs:25 | the lockstep walk of `SequenceEqual` only succeeds on sequences of equal length |
| `UserSettingsModel.Aggregate` | EnweVolume/Core/Models/UserSettings.cs:37 | the `Aggregate` fold from seed 0 over the profiles in enumeration order |
| `UserSettingsModel.EntryHash` | EnweVolume/Core/Models/UserSettings.cs:37 | one fold step: `Combine(hash, key hash, value hash)` |
| `UserSettingsModel.ProfilesSequenceEqualIsEquality` | EnweVolume/Core/Models/UserSettings.cs:25 | `SequenceEqual` holds iff the lengths agree and entries match position by position (key and `DeviceSettings.Equals`), iff the sequences are equal |
| `UserSettingsModel.AggregateAppend` | EnweVolume/Core/Models/UserSettings.cs:37 | the profile hash is an in-order left fold: a new last entry is combined with the hash of all earlier ones |
| `UserSettingsModel.NewUserSettings` | EnweVolume/Core/Models/UserSettings.cs:5-11 | fresh settings: no profiles, empty device id and locale, all three switches on, theme "Default" |
| `UserSettingsModel.EqualsNullOrOtherType` | EnweVolume/Core/Models/UserSettings.cs:15-16 | `null` and instances of other run-time types are never equal |
| `UserSettingsModel.EqualsReflexive` | EnweVolume/Core/Models/UserSettings.cs:18-25 | every settings object equals itself |
| `UserSettingsModel.EqualsSymmetric` | EnweVolume/Core/Models/UserSettings.cs:18-25 | equality does not depend on argument order |
| `UserSettingsModel.EqualsImpliesEqualHash` | EnweVolume/Core/Models/UserSettings.cs:28-39 | equal settings have equal hash codes for every hash seed |
| `UserSettingsModel.ProfileOrderMatters` | EnweVolume/Core/Models/UserSettings.cs:25 | the same two profiles in the other order (equal as multisets) make the settings unequal |
| `Services.ValidateDevice` | EnweVolume/Core/Services/UserSettingsService.cs:257-285 | red is kept iff 1 ≤ red ≤ 100 and red > yellow, else 0; yellow is kept iff 0 ≤ yellow ≤ 99 and below the new red, else 0; sound volumes are kept iff in 0..100, else 0; switches are untouched; the result is valid, and equals the input iff the input was valid |
| `Services.ValidateProfiles` | EnweVolume/Core/Services/UserSettingsService.cs:259-286 | every entry is repaired in place, keeping its key and position |
| `Services.Validated` | EnweVolume/Core/Services/UserSettingsService.cs:255-289 | only the profiles change: each keeps its key and position and becomes `ValidateDevice` of the old profile, which is valid; all top-level fields stay |
| `Services.ValidatedThresholdsCoherent` | EnweVolume/Core/Services/UserSettingsService.cs:259-286 | after validation each profile has 1 ≤ red ≤ 100 and 0 ≤ yellow < red, or red = yellow = 0 |
| `Services.ValidatedFixedPoint` | EnweVolume/Core/Services/UserSettingsService.cs:259-288 | validation changes nothing exactly when every profile is already valid |
| `Services.ValidatedIdempotent` | EnweVolume/Core/Services/UserSettingsService.cs:259-288 | validating validated settings changes nothing |
| `Services.DefaultsAreValid` | EnweVolume/Core/Services/UserSettingsService.cs:257 | fresh profiles and fresh settings pass validation unchanged |
| `Services.ValidateSettings` | EnweVolume/Core/Services/UserSettingsService.cs:255-289 | repairs the object's profiles in place to `Validated` of the old value and returns the same object |
| `Services.AfterDeserialize` | EnweVolume/Core/Services/UserSettingsService.cs:157-168 | the loaded object ends up validated and is returned as a success; the re-save branch is never taken |
| `Services.NeedsResave` | EnweVolume/Core/Services/UserSettingsService.cs:163-166 | loaded settings differ from their repaired form iff some profile is invalid |
| `Services.NoResaveAfterRepair` | EnweVolume/Core/Services/UserSettingsService.cs:163-166 | settings that were repaired once never need another save |
| `Services.OutOfRangeRedNeedsResave` | EnweVolume/Core/Services/UserSettingsService.cs:163-166 | a profile with red threshold 150 needs a re-save |
| `Services.AfterDeserializeIntended` | EnweVolume/Core/Services/UserSettingsService.cs:160-168 | compares a snapshot with the repaired settings and re-saves exactly when `NeedsResave` holds |
| `Services.FindCulture` | EnweVolume/Core/Services/UserSettingsService.cs:142-143 | a culture is found iff its name is in the list, and the one found has that name |
| `Services.GetDefaultUserSettings` | EnweVolume/Core/Services/UserSettingsService.cs:139-150 | fresh settings whose locale is the system culture if supported, else the first supported culture; always a supported culture |
| `Services.SaveSettings` | EnweVolume/Core/Services/UserSettingsService.cs:66-137 | `null` fails with `InvalidUserSettings`; otherwise success iff the write succeeded, access errors map to `SettingsDirectoryAccessError` and all others to `UserSettingsSaveError` |
| `Services.SaveNullIgnoresDisk` | EnweVolume/Core/Services/UserSettingsService.cs:68-73 | the `null` failure does not depend on the disk at all |
| `ViewModels.BarBrush` | EnweVolume/MVVM/ViewModels/SettingsViewModel.cs:230-253 | accent when colour change is off; otherwise red iff volume > red; with yellow on, yellow iff yellow ≤ volume ≤ red and green iff below both; with yellow off, green iff volume ≤ red |
| `ViewModels.RedStartsAboveThreshold` | EnweVolume/MVVM/ViewModels/SettingsViewModel.cs:238-252 | a volume equal to red is never red; one above it always is |
| `ViewModels.BrushMonotone` | EnweVolume/MVVM/ViewModels/SettingsViewModel.cs:232-252 | for every threshold pair and both switches, a higher volume never gets a cooler brush (accent, green, yellow, red) |
| `ViewModels.SettingsViewModel.constructor` | EnweVolume/MVVM/ViewModels/SettingsViewModel.cs:34-52 | observable properties start at their defaults, with the given profile and settings |
| `ViewModels.SettingsViewModel.UpdateBindedValues` | EnweVolume/MVVM/ViewModels/SettingsViewModel.cs:196-207 | the nine view fields become the current profile's nine fields |
| `ViewModels.SettingsViewModel.OnCurrentVolumeChanged` | EnweVolume/MVVM/ViewModels/SettingsViewModel.cs:230-253 | the bar brush becomes `BarBrush` of the volume and the current thresholds |
| `ViewModels.SettingsViewModel.OnRedThresholdVolumeChanged` | EnweVolume/MVVM/ViewModels/SettingsViewModel.cs:255-265 | with yellow on, a red at or below yellow sets yellow to red − 1 in 32-bit arithmetic, so yellow ends below red unless red is `int.MinValue`, where yellow wraps to `int.MaxValue`; the profile's red becomes the new value and nothing else in it changes |
| `ViewModels.SettingsViewModel.OnYellowThresholdVolumeChanged` | EnweVolume/MVVM/ViewModels/SettingsViewModel.cs:267-277 | with yellow on, a yellow at or above red sets red to yellow + 1 in 32-bit arithmetic, with no clamp at 100; red ends above yellow unless yellow is `int.MaxValue`, where red wraps to `int.MinValue`; the profile's yellow becomes the new value |
| `ViewModels.SettingsViewModel.OnYellowThresholdEnabledChanged` | EnweVolume/MVVM/ViewModels/SettingsViewModel.cs:279-292 | enabling with red ≤ yellow sets yellow to red − 1 in 32-bit arithmetic, so yellow ends below red unless red is `int.MinValue` (then yellow wraps to `int.MaxValue`); disabling moves nothing; the switch is written to the profile |
| `ViewModels.SettingsViewModel.OnRedPushNotificationEnabledChanged` | EnweVolume/MVVM/ViewModels/SettingsViewModel.cs:294-298 | writes exactly that field of the profile |
| `ViewModels.SettingsViewModel.OnRedSoundNotificationEnabledChanged` | EnweVolume/MVVM/ViewModels/SettingsViewModel.cs:300-304 | writes exactly that field of the profile |
| `ViewModels.SettingsViewModel.OnRedSoundNotificationVolumeChanged` | EnweVolume/MVVM/ViewModels/SettingsViewModel.cs:306-310 | writes exactly that field of the profile |
| `ViewModels.SettingsViewModel.OnYellowPushNotificationEnabledChanged` | EnweVolume/MVVM/ViewModels/SettingsViewModel.cs:312-316 | writes exactly that field of the profile |
| `ViewModels.SettingsViewModel.OnYellowSoundNotificationEnabledChanged` | EnweVolume/MVVM/ViewModels/SettingsViewModel.cs:318-322 | writes exactly that field of the profile |
| `ViewModels.SettingsViewModel.OnYellowSoundNotificationVolumeChanged` | EnweVolume/MVVM/ViewModels/SettingsViewModel.cs:324-328 | writes exactly that field of the profile |
| `ViewModels.SettingsViewModel.OnLaunchOnStartupChanged` | EnweVolume/MVVM/ViewModels/SettingsViewModel.cs:351-355 | writes exactly that field of the user settings |
| `ViewModels.SettingsViewModel.OnProgressBarColorChangeEnabledChanged` | EnweVolume/MVVM/ViewModels/SettingsViewModel.cs:357-361 | writes exactly that field of the user settings |
| `Converters.Convert` | EnweVolume/Core/Converters/AndConverter.cs:8-11 | true iff the array is non-null and every element is a boxed `true` |
| `Converters.AllTrue` | EnweVolume/Core/Converters/AndConverter.cs:10 | the in-order `All(v => v is bool b && b)` walk |
| `Converters.AllTrueMeansEveryElement` | EnweVolume/Core/Converters/AndConverter.cs:10 | the in-order `All` check agrees with "every element is a boxed `true`" |
| `Converters.ConvertEdgeCases` | EnweVolume/Core/Converters/AndConverter.cs:10 | `null` gives false, an empty array gives true, and a `null`, non-bool or `false` element gives false |
| `Converters.ConvertPermutationInvariant` | EnweVolume/Core/Converters/AndConverter.cs:10 | reordering the values never changes the result |
| `Converters.ConvertBack` | EnweVolume/Core/Converters/AndConverter.cs:13-16 | always throws `NotImplementedException` |

## Findings

| source | as written | input that shows it | evidently intended | confidence | as-written member | corrected member |
|---|---|---|---|---|---|---|
| EnweVolume/Core/Services/UserSettingsService.cs:161-166 | `ValidateSettings` repairs the deserialized object in place and returns that same object. `settings.Equals(validatedSettings)` therefore compares the object with itself and is always true, so repaired settings are never re-saved here. | a settings file with one profile whose `RedThresholdVolume` is 150 (`Services.OutOfRangeRedNeedsResave`) | re-save exactly when validation changed something, by comparing a snapshot taken before validation | medium; not executed. The running app hides the gap because `InitializeUserSettings` saves the settings unconditionally (SettingsViewModel.cs:153) | `Services.AfterDeserialize` | `Services.AfterDeserializeIntended` |

## Left out

- Audio monitoring (`AudioMonitorServiceWindows.cs`, `AudioMonitorService.cs`): native audio device handles and timer polling, with nothing to state without the operating system.
- `AudioLevelConverter`, `CurrentVolume = (int)(level * 100)` and the threshold line positions: floating-point arithmetic (log10, float clamps, double truncation).
- Settings file I/O: `GetSettings`, the write inside `SaveSettings`, `DeserializeSettingsFile` with its delete-and-regenerate retry, `GenerateSettings`, and the `SemaphoreSlim`. `SaveSettings` takes the outcome of the write as a parameter instead.
- Locale handling: `App.ApplyCulture`, `OnSelectedLocaleChanged` and the locale branch of `InitializeUserSettings` depend on `CultureInfo` and WPF resources. Culture names are plain strings, without .NET's canonical casing.
- Generated property setters: the `[ObservableProperty]` setters skip unchanged values and call the `On…Changed` hooks again on nested assignments. That code is generated, so the cascade is not modelled. For example, the `yellow := red - 1` write of `OnRedThresholdVolumeChanged` also reaches the profile in the real program.
- `SaveCurrentDeviceSettings` and `OnSelectedAudioDeviceChanged`: each calls `UpdateBindedValues` (modelled) and then restarts the save timer.
- `ResetSaveDebounceTimer`: it only stops and restarts the save timer.
- The save timer's tick and `SaveUserSettings`: they call `SaveSettings` (modelled) on the current settings and discard a failure; timers are not modelled.
- Timers and `Dispose` methods: dispatcher plumbing.
- Aliasing: `_currentDeviceSettings` is never assigned in the source. The model takes it as a given profile value and does not tie it to an entry of `DeviceProfiles`.
- `null` inside deserialized settings is not representable: a `null` `DeviceSettings` in `DeviceProfiles`, a `null` `DeviceProfiles` dictionary, or `null` strings. With a `null` dictionary or profile, `ValidateSettings` throws `NullReferenceException` (UserSettingsService.cs:259 for a `null` dictionary, 261 for a `null` profile), which the loader turns into a `UserSettingsLoadError` failure (UserSettingsService.cs:202-207). With a `null` dictionary, `UserSettings.Equals` throws inside `SequenceEqual` (UserSettings.cs:25).
- The uniqueness of dictionary keys is not represented; no modelled operation relies on it.
- Hash codes: `HashCode.Combine`, `string.GetHashCode` and 32-bit wrap-around are abstracted into the `combine` and `stringHash` parameters.
- Tray, toast, application service, window, dependency-injection glue and the interface files: thin wrappers over GUI libraries. This includes the `Error` constructor call in `TrayManager.cs`, whose arguments are in a different order from the record's.
- `AndConverter`: the `targetType`, `parameter` and `culture` arguments are ignored by the source and omitted.
