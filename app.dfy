/** Application-wide constants of App.xaml.cs that the settings layer reads. */
module App {
  /** `App.DefaultThemeName`. */
  const DefaultThemeName: string := "Default"

  /** The names of `App.SupportedCultures`, in list order. */
  const SupportedCultures: seq<string> := ["en-US", "en-GB", "uk-UA", "ru-RU"]
}
