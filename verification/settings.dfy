/** The settings screen (src/screens/settings/SettingsScreen.tsx): one
    handler per setting, each building the updated settings and saving them;
    the local copy changes only when the save succeeds. A theme change also
    goes to the theme context at once. API outcomes are inputs. */
module SettingsScreen {
  import opened Base
  import opened Types
  import Theme

  const LoadFailed := "Ayarlar yüklenirken bir hata oluştu."
  const SaveFailed := "Ayarlar kaydedilirken bir hata oluştu."
  const LogoutFailed := "Çıkış yapılırken bir hata oluştu."
  const ClearFailed := "Veriler temizlenirken bir hata oluştu."

  /** The settings shown before the stored ones arrive. */
  const Defaults := Settings(System, true, "en", 15, true)

  datatype Screen = Screen(
    settings: Settings,
    loading: bool,
    error: Option<string>,
    showLogoutDialog: bool,
    showClearDataDialog: bool,
    showLanguageDialog: bool,
    showSessionLengthDialog: bool)

  const Initial := Screen(Defaults, true, None, false, false, false, false)

  /** `loadSettings`: the stored settings replace the local ones; a failure keeps them. */
  function Load(s: Screen, answer: Result<Settings>): (r: Screen)
    ensures !r.loading
    ensures answer.Ok? ==> r.settings == answer.value && r.error.None?
    ensures answer.Err? ==> r.settings == s.settings && r.error == Some(LoadFailed)
  {
    match answer
    case Ok(v) => s.(settings := v, loading := false, error := None)
    case Err(_) => s.(loading := false, error := Some(LoadFailed))
  }

  /** `saveSettings`: the update is committed locally only when the call succeeds. */
  function Save(s: Screen, updated: Settings, succeeded: bool): (r: Screen)
    ensures !r.loading
    ensures succeeded ==> r.settings == updated && r.error.None?
    ensures !succeeded ==> r.settings == s.settings && r.error == Some(SaveFailed)
    ensures r.(settings := s.settings, loading := s.loading, error := s.error) == s
  {
    if succeeded then s.(settings := updated, loading := false, error := None)
    else s.(loading := false, error := Some(SaveFailed))
  }

  /** `handleThemeChange`: the theme context takes the new theme whatever the
      save does; the screen saves the settings with the new theme. */
  function ThemeChange(s: Screen, ctx: Theme.State, theme: ThemeType, succeeded: bool): (r: (Screen, Theme.State))
    ensures r.1 == Theme.SetTheme(ctx, theme)
    ensures succeeded ==> r.0.settings == s.settings.(theme := theme)
    ensures !succeeded ==> r.0.settings == s.settings
  {
    (Save(s, s.settings.(theme := theme), succeeded), Theme.SetTheme(ctx, theme))
  }

  function NotificationsToggle(s: Screen, succeeded: bool): (r: Screen)
    ensures succeeded ==> r.settings == s.settings.(notifications := !s.settings.notifications)
    ensures !succeeded ==> r.settings == s.settings
  {
    Save(s, s.settings.(notifications := !s.settings.notifications), succeeded)
  }

  /** `handleLanguageChange`: saves and closes the language dialog. */
  function LanguageChange(s: Screen, language: string, succeeded: bool): (r: Screen)
    ensures succeeded ==> r.settings == s.settings.(defaultLanguage := language)
    ensures !succeeded ==> r.settings == s.settings
    ensures !r.showLanguageDialog
  {
    Save(s, s.settings.(defaultLanguage := language), succeeded).(showLanguageDialog := false)
  }

  /** `handleSessionLengthChange`: saves and closes the session-length dialog. */
  function SessionLengthChange(s: Screen, minutes: int, succeeded: bool): (r: Screen)
    ensures succeeded ==> r.settings == s.settings.(sessionLength := minutes)
    ensures !succeeded ==> r.settings == s.settings
    ensures !r.showSessionLengthDialog
  {
    Save(s, s.settings.(sessionLength := minutes), succeeded).(showSessionLengthDialog := false)
  }

  function AutoPlayToggle(s: Screen, succeeded: bool): (r: Screen)
    ensures succeeded ==> r.settings == s.settings.(autoPlayPronunciation := !s.settings.autoPlayPronunciation)
    ensures !succeeded ==> r.settings == s.settings
  {
    Save(s, s.settings.(autoPlayPronunciation := !s.settings.autoPlayPronunciation), succeeded)
  }

  /** Each handler touches exactly one setting. */
  predicate DiffersOnlyIn(a: Settings, b: Settings, field: nat) {
    && (field != 0 ==> a.theme == b.theme)
    && (field != 1 ==> a.notifications == b.notifications)
    && (field != 2 ==> a.defaultLanguage == b.defaultLanguage)
    && (field != 3 ==> a.sessionLength == b.sessionLength)
    && (field != 4 ==> a.autoPlayPronunciation == b.autoPlayPronunciation)
  }

  lemma OneFieldEach(s: Screen, ctx: Theme.State, t: ThemeType, language: string, minutes: int, ok: bool)
    ensures DiffersOnlyIn(s.settings, ThemeChange(s, ctx, t, ok).0.settings, 0)
    ensures DiffersOnlyIn(s.settings, NotificationsToggle(s, ok).settings, 1)
    ensures DiffersOnlyIn(s.settings, LanguageChange(s, language, ok).settings, 2)
    ensures DiffersOnlyIn(s.settings, SessionLengthChange(s, minutes, ok).settings, 3)
    ensures DiffersOnlyIn(s.settings, AutoPlayToggle(s, ok).settings, 4)
  {
  }

  /** Toggling twice with both saves succeeding restores the setting. */
  lemma TogglesUndo(s: Screen)
    ensures NotificationsToggle(NotificationsToggle(s, true), true).settings == s.settings
    ensures AutoPlayToggle(AutoPlayToggle(s, true), true).settings == s.settings
  {
  }

  /** A failed save leaves the settings shown as they were, except that a theme
      change has already reached the context. */
  lemma FailedSaveKeepsSettings(s: Screen, ctx: Theme.State, t: ThemeType)
    ensures ThemeChange(s, ctx, t, false).0.settings == s.settings
    ensures ThemeChange(s, ctx, t, false).1.theme == t
    ensures NotificationsToggle(s, false).error == Some(SaveFailed)
  {
  }

  /** `handleLogout`: success closes the dialog; a failure shows a message. */
  function Logout(s: Screen, succeeded: bool): (r: Screen)
    ensures succeeded ==> r == s.(showLogoutDialog := false)
    ensures !succeeded ==> r == s.(error := Some(LogoutFailed))
  {
    if succeeded then s.(showLogoutDialog := false) else s.(error := Some(LogoutFailed))
  }

  /** `handleClearData`: success closes the dialog; a failure shows a message. */
  function ClearData(s: Screen, succeeded: bool): (r: Screen)
    ensures !r.loading && r.settings == s.settings
    ensures succeeded ==> !r.showClearDataDialog && r.error == s.error
    ensures !succeeded ==> r.error == Some(ClearFailed) && r.showClearDataDialog == s.showClearDataDialog
  {
    if succeeded then s.(loading := false, showClearDataDialog := false)
    else s.(error := Some(ClearFailed), loading := false)
  }

  /** Where apiService.ts evaluates the default export object (which reads
      `clearUserData`) and where it declares `clearUserData` with `const`. */
  const ExportLine := 993
  const ClearUserDataLine := 1086

  /** A top-level `const` holds its function when it is read only if its
      declaration ran first; before that, the read throws (or, once `const`
      is compiled to `var`, yields `undefined`, and the call throws). */
  predicate InitialisedBefore(declLine: nat, readLine: nat) {
    declLine < readLine
  }

  /** Whether `apiService.clearUserData()` can succeed: the exported member must
      hold the function, and the call itself must succeed. */
  predicate ClearCallSucceeds(declLine: nat, readLine: nat, succeeded: bool) {
    InitialisedBefore(declLine, readLine) && succeeded
  }

  /** `handleClearData` against the module as written: the export is read before
      `clearUserData` is declared, so the call throws whatever the service would do. */
  function ClearDataAsWritten(s: Screen, succeeded: bool): (r: Screen)
    ensures r.error == Some(ClearFailed) && r.showClearDataDialog == s.showClearDataDialog
    ensures !r.loading && r.settings == s.settings
  {
    ClearData(s, ClearCallSucceeds(ClearUserDataLine, ExportLine, succeeded))
  }

  /** With the dialog open, a clearing the service would complete still shows
      the failure message as written, while the intended handler closes the dialog. */
  lemma ClearDataNeverSucceeds(s: Screen)
    requires s.showClearDataDialog
    ensures ClearDataAsWritten(s, true).showClearDataDialog
    ensures !ClearData(s, true).showClearDataDialog
    ensures ClearDataAsWritten(s, true) != ClearData(s, true)
  {
  }

  /** The language names shown for the known codes. */
  const LanguageNames: map<string, string> := map[
    "en" := "İngilizce", "de" := "Almanca", "fr" := "Fransızca",
    "es" := "İspanyolca", "it" := "İtalyanca", "tr" := "Türkçe"]

  /** `getLanguageName`: a known code's name, any other code as it is. */
  function LanguageName(code: string): (r: string)
    ensures code in LanguageNames ==> r == LanguageNames[code]
    ensures code !in LanguageNames ==> r == code
  {
    if code in LanguageNames && LanguageNames[code] != "" then LanguageNames[code] else code
  }

  /** Different known codes show different names, and none shows as a bare code. */
  lemma LanguageNameInjective(a: string, b: string)
    requires a in LanguageNames && b in LanguageNames && a != b
    ensures LanguageName(a) != LanguageName(b)
    ensures LanguageName(a) !in LanguageNames
  {
    assert LanguageNames.Keys == {"en", "de", "fr", "es", "it", "tr"};
  }
}
