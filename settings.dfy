/** The settings page: the preference record, the spread merge of a partial
    update, the defaulting of a fetched row, and the page state that the
    fetch, the update and the theme-provider sync change. */
module Settings {
  import opened Wrappers

  /** `UserPreferences`. Language and theme are kept as strings: a fetched row
      or the theme provider can hold any string. */
  datatype Preferences = Preferences(language: string, theme: string, notifications: bool, autoSave: bool)

  /** The preferences the page starts with. */
  const InitialPreferences := Preferences("english", "light", true, true)

  /** `Partial<UserPreferences>`: `None` is a key the update does not carry. */
  datatype PartialPreferences = PartialPreferences(language: Option<string>, theme: Option<string>,
                                                   notifications: Option<bool>, autoSave: Option<bool>)

  const NoChange := PartialPreferences(None, None, None, None)

  /** `{ ...prefs, ...update }`: each field the update carries wins. */
  function Merge(prefs: Preferences, update: PartialPreferences): (r: Preferences)
    ensures r.language == (if update.language.Some? then update.language.value else prefs.language)
    ensures r.theme == (if update.theme.Some? then update.theme.value else prefs.theme)
    ensures r.notifications == (if update.notifications.Some? then update.notifications.value else prefs.notifications)
    ensures r.autoSave == (if update.autoSave.Some? then update.autoSave.value else prefs.autoSave)
  {
    Preferences(update.language.GetOr(prefs.language), update.theme.GetOr(prefs.theme),
                update.notifications.GetOr(prefs.notifications), update.autoSave.GetOr(prefs.autoSave))
  }

  /** Two updates in a row, the second winning: what `{ ...a, ...b }` is for partial records. */
  function Then(first: PartialPreferences, second: PartialPreferences): PartialPreferences {
    PartialPreferences(
      if second.language.Some? then second.language else first.language,
      if second.theme.Some? then second.theme else first.theme,
      if second.notifications.Some? then second.notifications else first.notifications,
      if second.autoSave.Some? then second.autoSave else first.autoSave)
  }

  /** An empty update changes nothing. */
  lemma MergeNoChange(prefs: Preferences)
    ensures Merge(prefs, NoChange) == prefs
  {
  }

  /** Applying the same update twice is applying it once. */
  lemma MergeIdempotent(prefs: Preferences, update: PartialPreferences)
    ensures Merge(Merge(prefs, update), update) == Merge(prefs, update)
  {
  }

  /** Two merges are one merge of the combined update. */
  lemma MergeThen(prefs: Preferences, first: PartialPreferences, second: PartialPreferences)
    ensures Merge(Merge(prefs, first), second) == Merge(prefs, Then(first, second))
  {
  }

  /** A single-field update changes that field and nothing else. */
  lemma MergeSingleField(prefs: Preferences, language: string, theme: string, on: bool)
    ensures Merge(prefs, NoChange.(language := Some(language))) == prefs.(language := language)
    ensures Merge(prefs, NoChange.(theme := Some(theme))) == prefs.(theme := theme)
    ensures Merge(prefs, NoChange.(notifications := Some(on))) == prefs.(notifications := on)
    ensures Merge(prefs, NoChange.(autoSave := Some(on))) == prefs.(autoSave := on)
  {
  }

  /** A JavaScript value as read from a fetched row: absent, null, or present. */
  datatype JsValue<T> = Undefined | Null | Value(v: T)

  /** `x || fallback` on a string value: absent, null and `""` are falsy. */
  function OrDefault(x: JsValue<string>, fallback: string): (r: string)
  {
    match x
    case Value(s) => if s != "" then s else fallback
    case _ => fallback
  }

  /** `x ?? fallback` on a boolean value: only absent and null take the fallback. */
  function Coalesce(x: JsValue<bool>, fallback: bool): (r: bool)
  {
    match x
    case Value(b) => b
    case _ => fallback
  }

  /** `||` keeps a present non-empty string; absent, null and "" take the fallback. */
  lemma OrDefaultTruthiness(s: string, fallback: string)
    ensures s != "" ==> OrDefault(Value(s), fallback) == s
    ensures OrDefault(Value(""), fallback) == fallback
    ensures OrDefault(Undefined, fallback) == fallback && OrDefault(Null, fallback) == fallback
  {
  }

  /** `||` never yields an empty string when its fallback is not empty. */
  lemma OrDefaultNonEmpty(x: JsValue<string>, fallback: string)
    requires fallback != ""
    ensures OrDefault(x, fallback) != ""
  {
  }

  /** `??` keeps an explicit `false`, where `||` would have replaced it. */
  lemma CoalesceKeepsFalse(fallback: bool)
    ensures Coalesce(Value(false), fallback) == false
    ensures Coalesce(Undefined, fallback) == fallback && Coalesce(Null, fallback) == fallback
  {
  }

  /** The `preferences` object of a user's row. */
  datatype StoredPreferences = StoredPreferences(language: JsValue<string>, theme: JsValue<string>,
                                                 notifications: JsValue<bool>, autoSave: JsValue<bool>)

  /** The preferences built from a fetched row in `fetchUserPreferences`. */
  function Normalize(stored: StoredPreferences): (r: Preferences)
    ensures r.language != "" && r.theme != ""
    ensures stored.notifications == Value(false) ==> !r.notifications
    ensures stored.autoSave == Value(false) ==> !r.autoSave
  {
    Preferences(OrDefault(stored.language, "english"), OrDefault(stored.theme, "light"),
                Coalesce(stored.notifications, true), Coalesce(stored.autoSave, true))
  }

  /** A row with nothing in it normalises to the initial preferences, and a row saved
      from any preferences with non-empty strings reads back unchanged. */
  lemma NormalizeRoundTrip(prefs: Preferences)
    requires prefs.language != "" && prefs.theme != ""
    ensures Normalize(StoredPreferences(Undefined, Undefined, Undefined, Undefined)) == InitialPreferences
    ensures Normalize(StoredPreferences(Value(prefs.language), Value(prefs.theme),
                                        Value(prefs.notifications), Value(prefs.autoSave))) == prefs
  {
  }

  /** The answer to the row query: an error, or a row whose `preferences` is read. */
  datatype FetchResult = FetchError | Row(preferences: JsValue<StoredPreferences>)

  /** The state of the settings page. `providerTheme` is the theme provider's value. */
  class SettingsPage {
    var preferences: Preferences
    var loading: bool
    var mounted: bool
    var providerTheme: JsValue<string>

    constructor (providerTheme: JsValue<string>)
      ensures preferences == InitialPreferences && !loading && !mounted
      ensures this.providerTheme == providerTheme
    {
      preferences := InitialPreferences;
      loading := false;
      mounted := false;
      this.providerTheme := providerTheme;
    }

    /** `fetchUserPreferences`: only a row holding a preferences object replaces the state. */
    method FetchUserPreferences(result: FetchResult)
      modifies this`preferences
      ensures result.Row? && result.preferences.Value? ==> preferences == Normalize(result.preferences.v)
      ensures !(result.Row? && result.preferences.Value?) ==> preferences == old(preferences)
    {
      if result.Row? && result.preferences.Value? {
        preferences := Normalize(result.preferences.v);
      }
    }

    /** The theme sync effect: once mounted, the theme follows the provider, `'light'` when it has none. */
    method SyncTheme()
      modifies this`preferences
      ensures mounted ==> preferences == old(preferences).(theme := OrDefault(providerTheme, "light"))
      ensures !mounted ==> preferences == old(preferences)
    {
      if mounted {
        preferences := preferences.(theme := OrDefault(providerTheme, "light"));
      }
    }

    /** The mount effect and the sync effect that `mounted` changing triggers. The sync
        runs on the re-render before the awaited select answers, so the fetched row is
        applied last: a stored theme then replaces the provider's theme on the page. */
    method Mount(hasUser: bool, result: FetchResult)
      modifies this`mounted, this`preferences
      ensures mounted
      ensures hasUser && result.Row? && result.preferences.Value? ==>
                preferences == Normalize(result.preferences.v)
      ensures !(hasUser && result.Row? && result.preferences.Value?) ==>
                preferences == old(preferences).(theme := OrDefault(providerTheme, "light"))
    {
      mounted := true;
      SyncTheme();
      if hasUser {
        FetchUserPreferences(result);
      }
    }

    /** `updatePreferences`: nothing without a user; otherwise the merge is kept only
        if the remote update succeeds, and loading ends false. */
    method UpdatePreferences(hasUser: bool, update: PartialPreferences, success: bool)
      modifies this`preferences, this`loading
      ensures !hasUser ==> preferences == old(preferences) && loading == old(loading)
      ensures hasUser && success ==> preferences == Merge(old(preferences), update) && !loading
      ensures hasUser && !success ==> preferences == old(preferences) && !loading
    {
      if !hasUser {
        return;
      }
      loading := true;
      var updatedPrefs := Merge(preferences, update);
      if success {
        preferences := updatedPrefs;
      }
      loading := false;
    }

    /** `handleThemeChange`: the provider takes the theme and the update is issued. The
        sync effect depends on the provider's theme, so it re-runs only when that theme
        actually changes; otherwise only a successful save shows the new theme. The
        control exists only once mounted. */
    method HandleThemeChange(hasUser: bool, newTheme: string, success: bool)
      requires mounted
      requires newTheme == "light" || newTheme == "dark"
      modifies this`preferences, this`loading, this`providerTheme
      ensures providerTheme == Value(newTheme)
      ensures old(providerTheme) != Value(newTheme) || (hasUser && success) ==>
                preferences == old(preferences).(theme := newTheme)
      ensures old(providerTheme) == Value(newTheme) && !(hasUser && success) ==>
                preferences == old(preferences)
      ensures hasUser ==> !loading
      ensures !hasUser ==> loading == old(loading)
    {
      var themeChanged := providerTheme != Value(newTheme);
      providerTheme := Value(newTheme);
      UpdatePreferences(hasUser, NoChange.(theme := Some(newTheme)), success);
      if themeChanged {
        SyncTheme();
      }
    }

    /** `handleLanguageChange`. */
    method HandleLanguageChange(hasUser: bool, language: string, success: bool)
      requires language == "english" || language == "hindi"
      modifies this`preferences, this`loading
      ensures hasUser && success ==> preferences == old(preferences).(language := language) && !loading
      ensures !(hasUser && success) ==> preferences == old(preferences)
      ensures hasUser ==> !loading
      ensures !hasUser ==> loading == old(loading)
    {
      UpdatePreferences(hasUser, NoChange.(language := Some(language)), success);
    }
  }
}
