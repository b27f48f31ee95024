/** The error record and its two enumerations (Core/Models/Error.cs,
    Core/Enums/ErrorCode.cs, Core/Enums/ErrorType.cs). */
module Errors {
  import opened Common

  /** Application error codes, grouped by hundreds: validation, file I/O,
      audio device, access. */
  datatype ErrorCode =
    | Unknown
    | InvalidUserSettings
    | UserSettingsSaveError
    | UserSettingsLoadError
    | SettingsFileCorrupted
    | SettingsFileLockError
    | DeviceNotFound
    | DeviceAccessDenied
    | DefaultDeviceUnavailable
    | AccessDenied
    | SettingsDirectoryAccessError
  {
    /** The enum's underlying integer. */
    function Value(): (n: int)
      ensures 0 <= n < 500
      ensures n / 100 == 0 <==> this == Unknown
      ensures n / 100 == 1 <==> this == InvalidUserSettings
      ensures n / 100 == 2 <==> this in {UserSettingsSaveError, UserSettingsLoadError, SettingsFileCorrupted, SettingsFileLockError}
      ensures n / 100 == 3 <==> this in {DeviceNotFound, DeviceAccessDenied, DefaultDeviceUnavailable}
      ensures n / 100 == 4 <==> this in {AccessDenied, SettingsDirectoryAccessError}
    {
      match this
      case Unknown => 0
      case InvalidUserSettings => 100
      case UserSettingsSaveError => 200
      case UserSettingsLoadError => 201
      case SettingsFileCorrupted => 202
      case SettingsFileLockError => 203
      case DeviceNotFound => 300
      case DeviceAccessDenied => 301
      case DefaultDeviceUnavailable => 302
      case AccessDenied => 400
      case SettingsDirectoryAccessError => 401
    }
  }

  /** No two codes share an underlying integer. */
  lemma ValueInjective(a: ErrorCode, b: ErrorCode)
    requires a.Value() == b.Value()
    ensures a == b
  {
  }

  /** Coarse error classification. */
  datatype ErrorType = Failure | NotFound | Validation | Conflict | AccessForbidden
  {
    function Value(): (n: int)
      ensures 0 <= n <= 4
      ensures n == 0 <==> this == Failure
    {
      match this
      case Failure => 0
      case NotFound => 1
      case Validation => 2
      case Conflict => 3
      case AccessForbidden => 4
    }
  }

  /** `record Error(ErrorCode Code, ErrorType ErrorType, string? DebugDescription = null)`;
      records compare by value, as Dafny datatypes do. */
  datatype Error = Error(code: ErrorCode, errorType: ErrorType, debugDescription: Option<string>)

  /** `Error.From(code, message)`: an error with the given code whose
      description is the message; its type is the generic `Failure`. */
  function From(code: ErrorCode, message: string): (e: Error)
    ensures e.code == code
    ensures e.debugDescription == Some(message)
    ensures e.errorType == Failure
  {
    Error(code, Failure, Some(message))
  }
}
