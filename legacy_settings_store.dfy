/**
 * The older `SettingsHandler`: the same key/value mapping as `SettingsStore` without the
 * custom path, which is neither written nor read.
 */
module LegacySettingsStore {
  import opened Wrappers
  import opened JavaInt
  import opened Settings
  import opened Preferences
  import SettingsStore

  const SavedKeys: set<string> := SettingsStore.SavedKeys - {SettingsStore.PathCustomKey}

  /** The node's entries after `saveSettings` with the settings `c`. */
  function Saved(entries: map<string, string>, c: Config): map<string, string>
  {
    entries[SettingsStore.PathLiveKey := c.pathLive][SettingsStore.PathPtuKey := c.pathPtu]
           [SettingsStore.PathEptuKey := c.pathEptu][SettingsStore.PathHotfixKey := c.pathHotfix]
           [SettingsStore.PathTechPreviewKey := c.pathTechPreview][SettingsStore.HandleKey := c.handle]
           [SettingsStore.IntervalKey := IntToString(c.interval)]
  }

  /** The settings after the six string setters of `loadSettings`; `pathPtu` comes from the EPTU key. */
  function LoadedStrings(entries: map<string, string>, c: Config): Config
  {
    c.(pathLive := Lookup(entries, SettingsStore.PathLiveKey, DefaultPathLive),
       pathPtu := Lookup(entries, SettingsStore.PathEptuKey, DefaultPathEptu),
       pathEptu := Lookup(entries, SettingsStore.PathEptuKey, DefaultPathEptu),
       pathHotfix := Lookup(entries, SettingsStore.PathHotfixKey, DefaultPathHotfix),
       pathTechPreview := Lookup(entries, SettingsStore.PathTechPreviewKey, DefaultPathTechPreview),
       handle := Lookup(entries, SettingsStore.HandleKey, ""))
  }

  function Load(entries: map<string, string>, c: Config): SettingsStore.LoadResult
  {
    var strings := LoadedStrings(entries, c);
    match ParseInt(Lookup(entries, SettingsStore.IntervalKey, "1"))
    case Some(v) => SettingsStore.Applied(strings.(interval := v))
    case None => SettingsStore.IntervalInvalid(strings)
  }

  /** `saveSettings` writes exactly seven keys; whatever the node holds under PATH_CUSTOM stays. */
  lemma SavedExactly(entries: map<string, string>, c: Config)
    ensures Saved(entries, c).Keys == entries.Keys + SavedKeys
    ensures SettingsStore.PathCustomKey !in SavedKeys
    ensures forall k :: k in entries && k !in SavedKeys ==> Saved(entries, c)[k] == entries[k]
    ensures Saved(entries, c)[SettingsStore.PathLiveKey] == c.pathLive
    ensures Saved(entries, c)[SettingsStore.PathPtuKey] == c.pathPtu
    ensures Saved(entries, c)[SettingsStore.PathEptuKey] == c.pathEptu
    ensures Saved(entries, c)[SettingsStore.PathHotfixKey] == c.pathHotfix
    ensures Saved(entries, c)[SettingsStore.PathTechPreviewKey] == c.pathTechPreview
    ensures Saved(entries, c)[SettingsStore.HandleKey] == c.handle
    ensures Saved(entries, c)[SettingsStore.IntervalKey] == IntToString(c.interval)
  {
  }

  /**
   * Saving and then loading restores every field but three: `pathPtu` comes back as the saved
   * EPTU path, and the custom path and the selected channel stay what they were.
   */
  lemma SaveThenLoad(entries: map<string, string>, c: Config, current: Config)
    ensures Load(Saved(entries, c), current) ==
              SettingsStore.Applied(c.(pathPtu := c.pathEptu, pathCustom := current.pathCustom,
                                       selectedChannel := current.selectedChannel))
  {
    ParseIntToString(c.interval);
  }

  /** Loading never touches the custom path or the selected channel. */
  lemma LoadKeepsCustomAndChannel(entries: map<string, string>, c: Config)
    ensures Load(entries, c).config.pathCustom == c.pathCustom
    ensures Load(entries, c).config.selectedChannel == c.selectedChannel
  {
  }

  /** An empty node loads the install paths (EPTU for PTU), an empty handle and interval 1. */
  lemma LoadFromEmpty(c: Config)
    ensures Load(map[], c) == SettingsStore.Applied(
              Initial.(pathPtu := DefaultPathEptu, pathCustom := c.pathCustom, selectedChannel := c.selectedChannel))
  {
    assert ParseInt("1") == Some(1) by {
      ParseIntToString(1);
      assert IntToString(1) == "1";
    }
  }

  class SettingsHandler {
    const preferences: PreferencesNode

    constructor (preferences: PreferencesNode)
      ensures this.preferences == preferences
    {
      this.preferences := preferences;
    }

    /** `saveSettings`; a failing `flush` is only reported on the error stream. */
    method SaveSettings(settings: SettingsData)
      modifies preferences
      ensures preferences.entries == Saved(old(preferences.entries), settings.Snapshot())
    {
      preferences.Put(SettingsStore.PathLiveKey, settings.pathLive);
      preferences.Put(SettingsStore.PathPtuKey, settings.pathPtu);
      preferences.Put(SettingsStore.PathEptuKey, settings.pathEptu);
      preferences.Put(SettingsStore.PathHotfixKey, settings.pathHotfix);
      preferences.Put(SettingsStore.PathTechPreviewKey, settings.pathTechPreview);
      preferences.Put(SettingsStore.HandleKey, settings.handle);
      preferences.PutInt(SettingsStore.IntervalKey, settings.interval);
    }

    /** The six string setters of `loadSettings`, each notifying every listener. */
    method LoadStrings(settings: SettingsData, entries: map<string, string>)
      modifies settings
      ensures settings.Snapshot() == LoadedStrings(entries, old(settings.Snapshot()))
      ensures settings.listeners == old(settings.listeners)
      ensures settings.notified == old(settings.notified) + Repeat(settings.listeners, 6)
    {
      assert Repeat(settings.listeners, 0) == [];
      RepeatStep(old(settings.notified), settings.notified, settings.listeners, 0);
      settings.SetPathLive(Lookup(entries, SettingsStore.PathLiveKey, DefaultPathLive));
      RepeatStep(old(settings.notified), settings.notified, settings.listeners, 1);
      settings.SetPathPtu(Lookup(entries, SettingsStore.PathEptuKey, DefaultPathEptu));
      RepeatStep(old(settings.notified), settings.notified, settings.listeners, 2);
      settings.SetPathEptu(Lookup(entries, SettingsStore.PathEptuKey, DefaultPathEptu));
      RepeatStep(old(settings.notified), settings.notified, settings.listeners, 3);
      settings.SetPathHotfix(Lookup(entries, SettingsStore.PathHotfixKey, DefaultPathHotfix));
      RepeatStep(old(settings.notified), settings.notified, settings.listeners, 4);
      settings.SetPathTechPreview(Lookup(entries, SettingsStore.PathTechPreviewKey, DefaultPathTechPreview));
      RepeatStep(old(settings.notified), settings.notified, settings.listeners, 5);
      settings.SetHandle(Lookup(entries, SettingsStore.HandleKey, ""));
    }

    /** `loadSettings`: six string setters, then the interval, which ends the call if it does not parse. */
    method LoadSettings(settings: SettingsData) returns (result: SettingsStore.LoadResult)
      modifies settings
      ensures result == Load(preferences.entries, old(settings.Snapshot()))
      ensures settings.Snapshot() == result.config
      ensures settings.listeners == old(settings.listeners)
      ensures settings.notified == old(settings.notified) + Repeat(settings.listeners, if result.Applied? then 7 else 6)
    {
      var entries := preferences.entries;
      LoadStrings(settings, entries);
      var interval := ParseInt(Lookup(entries, SettingsStore.IntervalKey, "1"));
      if interval.None? {
        return SettingsStore.IntervalInvalid(settings.Snapshot());
      }
      settings.SetInterval(interval.value);
      result := SettingsStore.Applied(settings.Snapshot());
    }
  }
}
