/** ThemeManager: the stored theme string decides the app-wide night mode. */
module ThemeManager {
  import opened Android
  import SettingsActivity

  datatype NightMode = ModeNightNo | ModeNightYes | ModeNightFollowSystem

  /** The theme applyTheme assumes when none is stored. */
  const DEFAULT_THEME: string := "system"

  /** The switch in applyTheme. */
  function NightModeFor(theme: string): (mode: NightMode)
    ensures mode == ModeNightNo <==> theme == "light"
    ensures mode == ModeNightYes <==> theme == "dark"
    ensures mode == ModeNightFollowSystem <==> theme != "light" && theme != "dark"
  {
    if theme == "light" then ModeNightNo
    else if theme == "dark" then ModeNightYes
    else ModeNightFollowSystem
  }

  /** applyTheme on the stored preferences. */
  function ApplyTheme(strings: map<string, string>): (mode: NightMode)
    ensures "theme" !in strings ==> mode == ModeNightFollowSystem
    ensures "theme" in strings ==> mode == NightModeFor(strings["theme"])
  {
    NightModeFor(if "theme" in strings then strings["theme"] else DEFAULT_THEME)
  }

  /** Every option of the settings dialog gets its own night mode, the one its caption
      names. */
  lemma ChosenThemeIsApplied(strings: map<string, string>, which: int)
    requires 0 <= which < |SettingsActivity.THEME_VALUES|
    ensures var mode := ApplyTheme(strings["theme" := SettingsActivity.THEME_VALUES[which]]);
      (mode == ModeNightNo <==> SettingsActivity.THEME_OPTIONS[which] == "Light")
      && (mode == ModeNightYes <==> SettingsActivity.THEME_OPTIONS[which] == "Dark")
      && (mode == ModeNightFollowSystem <==> SettingsActivity.THEME_OPTIONS[which] == "System")
  {
  }

  /** With no stored theme, and with any stored value other than the three options, the
      settings screen says "Dark" while the app follows the system. */
  lemma UnsetThemeShownDarkButFollowsSystem(strings: map<string, string>)
    requires "theme" !in strings || strings["theme"] !in SettingsActivity.THEME_VALUES
    ensures ApplyTheme(strings) == ModeNightFollowSystem
    ensures SettingsActivity.ThemeLabel(if "theme" in strings then strings["theme"] else SettingsActivity.DEFAULT_THEME) == "Dark"
  {
    if "theme" in strings {
      var t := strings["theme"];
      assert t != SettingsActivity.THEME_VALUES[0] && t != SettingsActivity.THEME_VALUES[1];
    }
  }
}
