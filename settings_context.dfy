/** The application settings of `SettingsProvider` (src/context/SettingsContext.tsx).
    The settings are the object the provider holds; `JSON.parse` of the stored text can
    give it any shape, so it is a plain object here, with the nested groups
    (`notifications`, `mapSettings`, `privacy`) as object values. Storage is the field
    `stored`, what `@app_settings` holds; a write either succeeds or throws, as the
    parameter `writeOk` says. */
module SettingsContext {
  import opened Wrappers
  import opened Json

  const SETTINGS_STORAGE_KEY: string := "@app_settings"
  const SAVE_ERROR: string := "Failed to save settings"
  const RESET_ERROR: string := "Failed to reset settings"

  /** The group names whose values are themselves objects. */
  const GROUPS: set<string> := {"notifications", "mapSettings", "privacy"}

  /** `defaultSettings`. */
  function DefaultSettings(): (s: Object)
    ensures s.Keys == {"theme", "language"} + GROUPS
    ensures forall g :: g in GROUPS ==> s[g].Obj?
    ensures Has(s, "theme", Str("system")) && Has(s, "language", Str("es"))
  {
    map[
      "theme" := Str("system"),
      "language" := Str("es"),
      "notifications" := Obj(map["enabled" := Bool(true), "alerts" := Bool(true),
                                 "reports" := Bool(true), "updates" := Bool(true)]),
      "mapSettings" := Obj(map["showTraffic" := Bool(true), "showDangerZones" := Bool(true),
                               "showIncidents" := Bool(true), "defaultZoom" := Num(15)]),
      "privacy" := Obj(map["shareLocation" := Bool(true), "anonymousReporting" := Bool(false),
                           "dataCollection" := Bool(true)])]
  }

  /** `{ ...settings, ...newSettings }`: a shallow merge. */
  function Updated(settings: Object, newSettings: Object): (r: Object)
    ensures r.Keys == settings.Keys + newSettings.Keys
    ensures forall k :: k in newSettings ==> r[k] == newSettings[k]
    ensures forall k :: k in settings && k !in newSettings ==> r[k] == settings[k]
  {
    Spread(settings, newSettings)
  }

  /** A group in the patch replaces the whole group: a patch that names only
      `notifications.enabled` drops the other notification switches. */
  lemma GroupsReplacedWhole()
    ensures var patch := map["notifications" := Obj(map["enabled" := Bool(false)])];
      var r := Updated(DefaultSettings(), patch);
      && r["notifications"] == Obj(map["enabled" := Bool(false)])
      && "alerts" in DefaultSettings()["notifications"].fields
      && "alerts" !in r["notifications"].fields
  {
    var patch := map["notifications" := Obj(map["enabled" := Bool(false)])];
    assert "notifications" in patch;
  }

  /** The same patch applied twice has the effect of once. */
  lemma UpdateIdempotent(settings: Object, newSettings: Object)
    ensures Updated(Updated(settings, newSettings), newSettings) == Updated(settings, newSettings)
  {
    SpreadIdempotent(settings, newSettings);
  }

  /** Two patches in a row are one patch with the later properties winning. */
  lemma UpdatesCompose(settings: Object, first: Object, second: Object)
    ensures Updated(Updated(settings, first), second) == Updated(settings, Spread(first, second))
  {
    SpreadAssociative(settings, first, second);
  }

  datatype State = State(settings: Object, isLoading: bool, stored: Option<Object>)

  class SettingsStore {
    var settings: Object
    var isLoading: bool
    var stored: Option<Object>

    function Snapshot(): State
      reads this
    {
      State(settings, isLoading, stored)
    }

    /** The initial state: the defaults, still loading, storage as found. */
    constructor(stored: Option<Object>)
      ensures Snapshot() == State(DefaultSettings(), true, stored)
    {
      settings := DefaultSettings();
      isLoading := true;
      this.stored := stored;
    }

    /** `loadSettings`: `storedText` is what storage returned (`None` for `null`),
        `parsed` what `JSON.parse` made of it (`None` when it throws), `readOk` whether
        the read succeeded. A stored value replaces the settings as it is, without the
        defaults filling in what it lacks; loading ends in every case. */
    method LoadSettings(storedText: Option<string>, parsed: Option<Object>, readOk: bool)
      modifies this
      ensures readOk && storedText.Some? && storedText.value != "" && parsed.Some? ==>
        Snapshot() == old(Snapshot()).(settings := parsed.value, isLoading := false)
      ensures !(readOk && storedText.Some? && storedText.value != "" && parsed.Some?) ==>
        Snapshot() == old(Snapshot()).(isLoading := false)
    {
      if readOk && storedText.Some? && storedText.value != "" && parsed.Some? {
        settings := parsed.value;
      }
      isLoading := false;
    }

    /** `updateSettings`: the merged settings are written first and become the state only
        when the write succeeds; otherwise nothing changes and the call fails. */
    method UpdateSettings(newSettings: Object, writeOk: bool) returns (r: Outcome<string>)
      modifies this
      ensures writeOk ==> r == Pass
      ensures writeOk ==> Snapshot() == old(Snapshot()).(settings := Updated(old(settings), newSettings),
                                                         stored := Some(Updated(old(settings), newSettings)))
      ensures !writeOk ==> r == Fail(SAVE_ERROR) && Snapshot() == old(Snapshot())
    {
      var updatedSettings := Updated(settings, newSettings);
      if !writeOk {
        return Fail(SAVE_ERROR);
      }
      stored := Some(updatedSettings);
      settings := updatedSettings;
      return Pass;
    }

    /** `resetSettings`: writes the defaults and then takes them; a failed write changes
        nothing and the call fails. */
    method ResetSettings(writeOk: bool) returns (r: Outcome<string>)
      modifies this
      ensures writeOk ==> r == Pass
      ensures writeOk ==> Snapshot() == old(Snapshot()).(settings := DefaultSettings(), stored := Some(DefaultSettings()))
      ensures !writeOk ==> r == Fail(RESET_ERROR) && Snapshot() == old(Snapshot())
    {
      if !writeOk {
        return Fail(RESET_ERROR);
      }
      stored := Some(DefaultSettings());
      settings := DefaultSettings();
      return Pass;
    }
  }
}
