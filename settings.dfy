/** SettingsActivity: the theme choice, the reminder switches and the default snooze
    duration, all kept in the default shared preferences. */
module SettingsActivity {
  import opened JavaLang
  import opened Android
  import AlarmScheduler

  const THEME_VALUES: seq<string> := ["light", "dark", "system"]
  const THEME_OPTIONS: seq<string> := ["Light", "Dark", "System"]
  /** The theme the settings screen assumes when none is stored. */
  const DEFAULT_THEME: string := "dark"

  /** The dialog's initial choice: the first value equal to the stored theme, else 1
      ("dark"). */
  method SelectedThemeIndex(currentTheme: string) returns (selectedIndex: int)
    ensures 0 <= selectedIndex < |THEME_VALUES|
    ensures currentTheme in THEME_VALUES ==>
      THEME_VALUES[selectedIndex] == currentTheme
      && forall j :: 0 <= j < selectedIndex ==> THEME_VALUES[j] != currentTheme
    ensures currentTheme !in THEME_VALUES ==> selectedIndex == 1
  {
    selectedIndex := 1;
    var i := 0;
    while i < |THEME_VALUES|
      invariant 0 <= i <= |THEME_VALUES|
      invariant forall j :: 0 <= j < i ==> THEME_VALUES[j] != currentTheme
      invariant selectedIndex == 1
    {
      if THEME_VALUES[i] == currentTheme {
        selectedIndex := i;
        break;
      }
      i := i + 1;
    }
  }

  /** updateCurrentThemeText: "Light" and "System" for their values, "Dark" for anything
      else. */
  function ThemeLabel(theme: string): (label': string)
    ensures theme == "light" ==> label' == "Light"
    ensures theme == "system" ==> label' == "System"
    ensures theme != "light" && theme != "system" ==> label' == "Dark"
  {
    if theme == "light" then "Light" else if theme == "system" then "System" else "Dark"
  }

  /** The label shown after choosing option which is the option's own caption. */
  lemma LabelMatchesOption(which: int)
    requires 0 <= which < |THEME_VALUES|
    ensures ThemeLabel(THEME_VALUES[which]) == THEME_OPTIONS[which]
  {
  }

  /** The four switches as the screen shows them. */
  datatype Switches = Switches(notifications: bool, sound: bool, vibration: bool, persistent: bool)

  function SwitchStates(booleans: map<string, bool>): (s: Switches)
    ensures "notifications" !in booleans ==> s.notifications
    ensures "sound" !in booleans ==> s.sound
    ensures "vibration" !in booleans ==> s.vibration
    ensures "persistent_notifications" !in booleans ==> !s.persistent
    ensures "notifications" in booleans ==> s.notifications == booleans["notifications"]
    ensures "sound" in booleans ==> s.sound == booleans["sound"]
    ensures "vibration" in booleans ==> s.vibration == booleans["vibration"]
    ensures "persistent_notifications" in booleans ==> s.persistent == booleans["persistent_notifications"]
  {
    Switches(
      if "notifications" in booleans then booleans["notifications"] else true,
      if "sound" in booleans then booleans["sound"] else true,
      if "vibration" in booleans then booleans["vibration"] else true,
      if "persistent_notifications" in booleans then booleans["persistent_notifications"] else false)
  }

  /** The notifications switch shows exactly what the alarm scheduler obeys. */
  lemma SwitchAgreesWithScheduler(booleans: map<string, bool>)
    ensures SwitchStates(booleans).notifications == AlarmScheduler.NotificationsEnabled(booleans)
  {
  }

  /** A flipped switch shows its new state when the screen is rebuilt, and the other
      switches keep theirs. */
  lemma SwitchShowsWhatWasSet(booleans: map<string, bool>, isChecked: bool)
    ensures SwitchStates(booleans["sound" := isChecked])
         == SwitchStates(booleans).(sound := isChecked)
    ensures SwitchStates(booleans["persistent_notifications" := isChecked])
         == SwitchStates(booleans).(persistent := isChecked)
  {
  }

  /** The snooze dialog's effect: nothing when either resource array is empty (no
      dialog); otherwise the value at `which` when it indexes the values array. */
  function SnoozeChoice(entries: seq<string>, values: seq<string>, which: int): (r: Option<string>)
    ensures r.Some? <==> entries != [] && values != [] && 0 <= which < |values|
    ensures r.Some? ==> r.value == values[which]
  {
    if entries == [] || values == [] || !(0 <= which < |values|) then None else Some(values[which])
  }

  class SettingsActivity {
    const prefs: SharedPreferences
    /** The text of the current-theme label. */
    var currentThemeText: string

    /** setupThemeSettings: the label shows the stored theme, "dark" when unset. */
    constructor(prefs: SharedPreferences)
      ensures this.prefs == prefs
      ensures currentThemeText == ThemeLabel(prefs.GetString("theme", DEFAULT_THEME))
    {
      this.prefs := prefs;
      currentThemeText := ThemeLabel(prefs.GetString("theme", DEFAULT_THEME));
    }

    /** Choosing option which in the theme dialog. */
    method ChooseTheme(which: int)
      requires 0 <= which < |THEME_VALUES|
      modifies prefs`strings, this`currentThemeText
      ensures prefs.strings == old(prefs.strings)["theme" := THEME_VALUES[which]]
      ensures currentThemeText == THEME_OPTIONS[which]
    {
      var selectedTheme := THEME_VALUES[which];
      prefs.PutString("theme", selectedTheme);
      currentThemeText := ThemeLabel(selectedTheme);
    }

    /** Flipping one of the four switches stores its new state. */
    method SetSwitch(key: string, isChecked: bool)
      requires key in {"notifications", "sound", "vibration", "persistent_notifications"}
      modifies prefs`booleans
      ensures prefs.booleans == old(prefs.booleans)[key := isChecked]
    {
      prefs.PutBoolean(key, isChecked);
    }

    /** Picking item which of the snooze dialog built from the two resource arrays. */
    method ChooseSnooze(entries: seq<string>, values: seq<string>, which: int)
      modifies prefs`strings
      ensures SnoozeChoice(entries, values, which).None? ==> prefs.strings == old(prefs.strings)
      ensures SnoozeChoice(entries, values, which).Some? ==>
        prefs.strings == old(prefs.strings)["snooze_duration" := values[which]]
    {
      if |entries| == 0 || |values| == 0 {
        return;
      }
      if which >= 0 && which < |values| {
        prefs.PutString("snooze_duration", values[which]);
      }
    }
  }
}
