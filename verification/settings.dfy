/**
 * App settings (utils/settings.js): a stored object merged over the
 * defaults on every read. The AsyncStorage item is the `stored` field of
 * `SettingsStore`; `None` is the state with no item.
 */
module Settings {
  import opened Options
  import opened Values

  /** `DEFAULT_SETTINGS`. */
  const DEFAULT_SETTINGS: Object :=
    map["showMoveLevelBadges" := Bool(true), "useMoveRotation" := Bool(true), "showMoveCounts" := Bool(true)]

  /** `getSettings` on a stored item: `{...DEFAULT_SETTINGS, ...settings}`, reading an absent item as the defaults. */
  function Merged(stored: Option<Object>): (r: Object)
    ensures DEFAULT_SETTINGS.Keys <= r.Keys
    ensures stored.None? ==> r == DEFAULT_SETTINGS
    ensures stored.Some? ==> r.Keys == DEFAULT_SETTINGS.Keys + stored.value.Keys
    ensures stored.Some? ==> forall k :: k in stored.value ==> r[k] == stored.value[k]
    ensures stored.Some? ==> forall k :: k in DEFAULT_SETTINGS && k !in stored.value ==> r[k] == DEFAULT_SETTINGS[k]
  {
    var settings := if stored.Some? then stored.value else DEFAULT_SETTINGS;
    DEFAULT_SETTINGS + settings
  }

  /** `getSetting`: `settings[key] ?? DEFAULT_SETTINGS[key]`. */
  function SettingOf(stored: Option<Object>, key: string): (r: Value)
    ensures stored.Some? && key in stored.value && !Nullish(stored.value[key]) ==> r == stored.value[key]
    ensures (stored.None? || key !in stored.value || Nullish(stored.value[key])) ==> r == Get(DEFAULT_SETTINGS, key)
  {
    var v := Get(Merged(stored), key);
    if Nullish(v) then Get(DEFAULT_SETTINGS, key) else v
  }

  /** After `updateSetting(key, value)` with a value that is neither null nor undefined, the setting reads as `value`. */
  lemma SettingAfterUpdate(stored: Option<Object>, key: string, value: Value)
    requires !Nullish(value)
    ensures SettingOf(Some(Merged(stored)[key := value]), key) == value
  {
  }

  /** `updateSetting(key, _)` leaves what every other key reads as. */
  lemma OtherSettingsAfterUpdate(stored: Option<Object>, key: string, value: Value, other: string)
    requires other != key
    ensures SettingOf(Some(Merged(stored)[key := value]), other) == SettingOf(stored, other)
  {
    var m := Merged(stored);
    assert DEFAULT_SETTINGS + m[key := value] == m[key := value];
    assert Get(m[key := value], other) == Get(m, other);
  }

  /** `updateSettings(updates)` makes each updated key read as its new value unless that is null or undefined, and keeps the rest. */
  lemma SettingsAfterBulkUpdate(stored: Option<Object>, updates: Object, key: string)
    ensures key in updates && !Nullish(updates[key]) ==> SettingOf(Some(Merged(stored) + updates), key) == updates[key]
    ensures key !in updates ==> SettingOf(Some(Merged(stored) + updates), key) == SettingOf(stored, key)
  {
    var m := Merged(stored);
    assert DEFAULT_SETTINGS + (m + updates) == m + updates;
    if key !in updates {
      assert Get(m + updates, key) == Get(m, key);
    }
  }

  class SettingsStore {
    /** The `@app_settings` item: `None` when nothing is stored. */
    var stored: Option<Object>

    constructor ()
      ensures stored == None
    {
      stored := None;
    }

    /** `getSettings`: every default is present; with nothing stored, exactly the defaults. */
    function GetSettings(): (r: Object)
      reads this
      ensures DEFAULT_SETTINGS.Keys <= r.Keys
      ensures stored.None? ==> r == DEFAULT_SETTINGS
    {
      Merged(stored)
    }

    /** `getSetting`: a setting that has a default never reads as null or undefined. */
    function GetSetting(key: string): (r: Value)
      reads this
      ensures key in DEFAULT_SETTINGS ==> !Nullish(r)
    {
      SettingOf(stored, key)
    }

    /** `updateSetting`: stores the merged settings with `key` set to `value`. */
    method UpdateSetting(key: string, value: Value) returns (ok: bool)
      modifies this
      ensures stored == Some(old(GetSettings())[key := value])
      ensures !Nullish(value) ==> GetSetting(key) == value
      ensures forall k :: k != key ==> GetSetting(k) == old(GetSetting(k))
      ensures ok
    {
      var settings := GetSettings();
      settings := settings[key := value];
      ghost var before := stored;
      stored := Some(settings);
      if !Nullish(value) {
        SettingAfterUpdate(before, key, value);
      }
      forall k | k != key ensures GetSetting(k) == SettingOf(before, k) {
        OtherSettingsAfterUpdate(before, key, value, k);
      }
      ok := true;
    }

    /** `updateSettings`: stores `{...settings, ...updates}`. */
    method UpdateSettings(updates: Object) returns (ok: bool)
      modifies this
      ensures stored == Some(old(GetSettings()) + updates)
      ensures forall k :: k !in updates ==> GetSetting(k) == old(GetSetting(k))
      ensures ok
    {
      var settings := GetSettings();
      ghost var before := stored;
      stored := Some(settings + updates);
      forall k | k !in updates ensures GetSetting(k) == SettingOf(before, k) {
        SettingsAfterBulkUpdate(before, updates, k);
      }
      ok := true;
    }

    /** `resetSettings`: stores the defaults, so every setting reads as its default. */
    method ResetSettings() returns (ok: bool)
      modifies this
      ensures stored == Some(DEFAULT_SETTINGS)
      ensures GetSettings() == DEFAULT_SETTINGS
      ensures ok
    {
      stored := Some(DEFAULT_SETTINGS);
      ok := true;
    }
  }
}
