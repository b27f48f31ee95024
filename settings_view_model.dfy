/** The threshold logic of MVVM/ViewModels/SettingsViewModel.cs: the colour
    of the volume bar, and the change handlers that keep the yellow
    threshold below the red one and write each edited value through to the
    current device profile. */
module ViewModels {
  import opened Common
  import opened DeviceSettingsModel
  import opened UserSettingsModel

  /** The brushes the volume bar can be painted with. */
  datatype Brush = Accent | Green | Yellow | Red

  /** `OnCurrentVolumeChanged(value)`: the bar brush for a volume, given the
      thresholds and the two switches. */
  function BarBrush(volume: int, red: int, yellow: int, yellowEnabled: bool, colorChangeEnabled: bool): (b: Brush)
    ensures !colorChangeEnabled ==> b == Accent
    ensures colorChangeEnabled ==> b != Accent
    ensures colorChangeEnabled ==> (b == Red <==> volume > red)
    ensures colorChangeEnabled && yellowEnabled ==>
      (b == Yellow <==> yellow <= volume <= red) && (b == Green <==> volume < yellow && volume <= red)
    ensures colorChangeEnabled && !yellowEnabled ==> (b == Green <==> volume <= red) && b != Yellow
  {
    if !colorChangeEnabled then Accent
    else if volume <= red then
      if yellowEnabled && volume >= yellow then Yellow else Green
    else Red
  }

  /** A volume at the red threshold is never painted red; one just above
      always is, whatever the yellow settings. */
  lemma RedStartsAboveThreshold(red: int, yellow: int, yellowEnabled: bool)
    ensures BarBrush(red, red, yellow, yellowEnabled, true) != Red
    ensures BarBrush(red + 1, red, yellow, yellowEnabled, true) == Red
  {
  }

  /** Whatever the switches and thresholds (yellow above red included), a
      higher volume never gets a "cooler" brush. */
  lemma BrushMonotone(v1: int, v2: int, red: int, yellow: int, yellowEnabled: bool, colorChangeEnabled: bool)
    requires v1 <= v2
    ensures Rank(BarBrush(v1, red, yellow, yellowEnabled, colorChangeEnabled))
         <= Rank(BarBrush(v2, red, yellow, yellowEnabled, colorChangeEnabled))
  {
  }

  function Rank(b: Brush): int
  {
    match b
    case Accent => 0
    case Green => 1
    case Yellow => 2
    case Red => 3
  }

  /** The view-model's state that the handlers read and write. The
      observable properties are plain fields here; `currentDeviceSettings`
      and `userSettings` are the objects the handlers mutate, each a value
      the handler replaces. */
  class SettingsViewModel {
    var volumeBarBrush: Option<Brush>
    var progressBarColorChangeEnabled: bool
    var launchOnStartup: bool
    var redThresholdVolume: int32
    var redPushNotificationEnabled: bool
    var redSoundNotificationEnabled: bool
    var redSoundNotificationVolume: int32
    var yellowThresholdEnabled: bool
    var yellowThresholdVolume: int32
    var yellowPushNotificationEnabled: bool
    var yellowSoundNotificationEnabled: bool
    var yellowSoundNotificationVolume: int32
    var currentDeviceSettings: DeviceSettings
    var userSettings: UserSettings

    /** A new view-model: every observable property at its .NET default,
        with the given profile and settings to edit. */
    constructor (device: DeviceSettings, settings: UserSettings)
      ensures volumeBarBrush == None
      ensures ViewDeviceSettings() == NewDeviceSettings()
      ensures !progressBarColorChangeEnabled && !launchOnStartup
      ensures currentDeviceSettings == device && userSettings == settings
    {
      volumeBarBrush := None;
      progressBarColorChangeEnabled, launchOnStartup := false, false;
      redThresholdVolume, yellowThresholdVolume := 0, 0;
      yellowThresholdEnabled := false;
      redPushNotificationEnabled, redSoundNotificationEnabled, redSoundNotificationVolume := false, false, 0;
      yellowPushNotificationEnabled, yellowSoundNotificationEnabled, yellowSoundNotificationVolume := false, false, 0;
      currentDeviceSettings := device;
      userSettings := settings;
    }

    /** The nine profile fields as the view shows them. */
    function ViewDeviceSettings(): DeviceSettings
      reads this
    {
      DeviceSettings(
        redThresholdVolume, yellowThresholdVolume, yellowThresholdEnabled,
        redPushNotificationEnabled, redSoundNotificationEnabled, redSoundNotificationVolume,
        yellowPushNotificationEnabled, yellowSoundNotificationEnabled, yellowSoundNotificationVolume)
    }

    /** With the yellow threshold on, it lies strictly below the red one. */
    predicate ThresholdsOrdered()
      reads this
    {
      yellowThresholdEnabled ==> yellowThresholdVolume < redThresholdVolume
    }

    /** `UpdateBindedValues()`: the view shows the current profile. */
    method UpdateBindedValues()
      modifies this`redThresholdVolume, this`yellowThresholdVolume, this`yellowThresholdEnabled,
               this`redPushNotificationEnabled, this`redSoundNotificationEnabled, this`redSoundNotificationVolume,
               this`yellowPushNotificationEnabled, this`yellowSoundNotificationEnabled, this`yellowSoundNotificationVolume
      ensures ViewDeviceSettings() == currentDeviceSettings
    {
      redThresholdVolume := currentDeviceSettings.redThresholdVolume;
      yellowThresholdVolume := currentDeviceSettings.yellowThresholdVolume;
      yellowThresholdEnabled := currentDeviceSettings.isYellowThresholdEnabled;
      redPushNotificationEnabled := currentDeviceSettings.isRedPushNotificationEnabled;
      redSoundNotificationEnabled := currentDeviceSettings.isRedSoundNotificationEnabled;
      redSoundNotificationVolume := currentDeviceSettings.redSoundNotificationVolume;
      yellowPushNotificationEnabled := currentDeviceSettings.isYellowPushNotificationEnabled;
      yellowSoundNotificationEnabled := currentDeviceSettings.isYellowSoundNotificationEnabled;
      yellowSoundNotificationVolume := currentDeviceSettings.yellowSoundNotificationVolume;
    }

    /** `OnCurrentVolumeChanged(value)`: repaints the bar. */
    method OnCurrentVolumeChanged(value: int32)
      modifies this`volumeBarBrush
      ensures volumeBarBrush == Some(BarBrush(value as int, redThresholdVolume as int, yellowThresholdVolume as int,
                                              yellowThresholdEnabled, progressBarColorChangeEnabled))
    {
      if !progressBarColorChangeEnabled {
        volumeBarBrush := Some(Accent);
        return;
      }
      if value <= redThresholdVolume {
        if yellowThresholdEnabled && value >= yellowThresholdVolume {
          volumeBarBrush := Some(Yellow);
        } else {
          volumeBarBrush := Some(Green);
        }
      } else {
        volumeBarBrush := Some(Red);
      }
    }

    /** `OnRedThresholdVolumeChanged(value)`, run by the generated setter
        once the field holds `value`: a red threshold at or below an enabled
        yellow one pulls yellow down to `value - 1` in 32-bit arithmetic; the
        new red is written to the profile. */
    method OnRedThresholdVolumeChanged(value: int32)
      requires redThresholdVolume == value
      modifies this`yellowThresholdVolume, this`currentDeviceSettings
      ensures yellowThresholdVolume ==
        if yellowThresholdEnabled && value <= old(yellowThresholdVolume) then Wrap32(value as int - 1)
        else old(yellowThresholdVolume)
      ensures value as int > Int32Min ==> ThresholdsOrdered()
      ensures yellowThresholdEnabled && value as int == Int32Min ==> yellowThresholdVolume as int == Int32Max
      ensures currentDeviceSettings == old(currentDeviceSettings).(redThresholdVolume := value)
    {
      if yellowThresholdEnabled && value <= yellowThresholdVolume {
        yellowThresholdVolume := Wrap32(value as int - 1);
      }
      currentDeviceSettings := currentDeviceSettings.(redThresholdVolume := value);
    }

    /** `OnYellowThresholdVolumeChanged(value)`, run once the field holds
        `value`: an enabled yellow threshold at or above red pushes red up to
        `value + 1` in 32-bit arithmetic, with no clamp at 100; the new
        yellow is written to the profile. */
    method OnYellowThresholdVolumeChanged(value: int32)
      requires yellowThresholdVolume == value
      modifies this`redThresholdVolume, this`currentDeviceSettings
      ensures redThresholdVolume ==
        if yellowThresholdEnabled && value >= old(redThresholdVolume) then Wrap32(value as int + 1)
        else old(redThresholdVolume)
      ensures value as int < Int32Max ==> ThresholdsOrdered()
      ensures yellowThresholdEnabled && value as int == Int32Max ==> redThresholdVolume as int == Int32Min
      ensures currentDeviceSettings == old(currentDeviceSettings).(yellowThresholdVolume := value)
    {
      if yellowThresholdEnabled && value >= redThresholdVolume {
        redThresholdVolume := Wrap32(value as int + 1);
      }
      currentDeviceSettings := currentDeviceSettings.(yellowThresholdVolume := value);
    }

    /** `OnYellowThresholdEnabledChanged(value)`, run once the switch holds
        `value`: switching yellow on with yellow not below red pulls yellow
        down to `red - 1` in 32-bit arithmetic; switching it off moves
        nothing. The switch is written to the profile. */
    method OnYellowThresholdEnabledChanged(value: bool)
      requires yellowThresholdEnabled == value
      modifies this`yellowThresholdVolume, this`currentDeviceSettings
      ensures yellowThresholdVolume ==
        if value && redThresholdVolume <= old(yellowThresholdVolume) then Wrap32(redThresholdVolume as int - 1)
        else old(yellowThresholdVolume)
      ensures redThresholdVolume as int > Int32Min ==> ThresholdsOrdered()
      ensures value && redThresholdVolume as int == Int32Min ==> yellowThresholdVolume as int == Int32Max
      ensures currentDeviceSettings == old(currentDeviceSettings).(isYellowThresholdEnabled := value)
    {
      if value {
        if redThresholdVolume <= yellowThresholdVolume {
          yellowThresholdVolume := Wrap32(redThresholdVolume as int - 1);
        }
      }
      currentDeviceSettings := currentDeviceSettings.(isYellowThresholdEnabled := value);
    }

    /** The notification handlers each write their own field of the profile
        and nothing else. */
    method OnRedPushNotificationEnabledChanged(value: bool)
      modifies this`currentDeviceSettings
      ensures currentDeviceSettings == old(currentDeviceSettings).(isRedPushNotificationEnabled := value)
    {
      currentDeviceSettings := currentDeviceSettings.(isRedPushNotificationEnabled := value);
    }

    method OnRedSoundNotificationEnabledChanged(value: bool)
      modifies this`currentDeviceSettings
      ensures currentDeviceSettings == old(currentDeviceSettings).(isRedSoundNotificationEnabled := value)
    {
      currentDeviceSettings := currentDeviceSettings.(isRedSoundNotificationEnabled := value);
    }

    method OnRedSoundNotificationVolumeChanged(value: int32)
      modifies this`currentDeviceSettings
      ensures currentDeviceSettings == old(currentDeviceSettings).(redSoundNotificationVolume := value)
    {
      currentDeviceSettings := currentDeviceSettings.(redSoundNotificationVolume := value);
    }

    method OnYellowPushNotificationEnabledChanged(value: bool)
      modifies this`currentDeviceSettings
      ensures currentDeviceSettings == old(currentDeviceSettings).(isYellowPushNotificationEnabled := value)
    {
      currentDeviceSettings := currentDeviceSettings.(isYellowPushNotificationEnabled := value);
    }

    method OnYellowSoundNotificationEnabledChanged(value: bool)
      modifies this`currentDeviceSettings
      ensures currentDeviceSettings == old(currentDeviceSettings).(isYellowSoundNotificationEnabled := value)
    {
      currentDeviceSettings := currentDeviceSettings.(isYellowSoundNotificationEnabled := value);
    }

    method OnYellowSoundNotificationVolumeChanged(value: int32)
      modifies this`currentDeviceSettings
      ensures currentDeviceSettings == old(currentDeviceSettings).(yellowSoundNotificationVolume := value)
    {
      currentDeviceSettings := currentDeviceSettings.(yellowSoundNotificationVolume := value);
    }

    /** The two application-wide switches are written to the settings. */
    method OnLaunchOnStartupChanged(value: bool)
      modifies this`userSettings
      ensures userSettings == old(userSettings).(launchOnStartup := value)
    {
      userSettings := userSettings.(launchOnStartup := value);
    }

    method OnProgressBarColorChangeEnabledChanged(value: bool)
      modifies this`userSettings
      ensures userSettings == old(userSettings).(isProgressBarColorChangeEnabled := value)
    {
      userSettings := userSettings.(isProgressBarColorChangeEnabled := value);
    }
  }
}
