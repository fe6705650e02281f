/**
 * Persisting the settings store in a preferences node: `saveSettings` writes eight keys,
 * `loadSettings` reads them back through the setters, with a default for every missing key.
 */
module SettingsStore {
  import opened Wrappers
  import opened JavaInt
  import opened Settings
  import opened Preferences

  const PathLiveKey := "PATH_LIVE"
  const PathPtuKey := "PATH_PTU"
  const PathEptuKey := "PATH_EPTU"
  const PathHotfixKey := "PATH_HOTFIX"
  const PathTechPreviewKey := "PATH_TECH_PREVIEW"
  const PathCustomKey := "PATH_CUSTOM"
  const HandleKey := "PLAYER_HANDLE"
  const IntervalKey := "SCAN_INTERVAL_SECONDS"

  /** The keys `saveSettings` writes; the selected channel has none. */
  const SavedKeys: set<string> := {PathLiveKey, PathPtuKey, PathEptuKey, PathHotfixKey, PathTechPreviewKey,
                                   PathCustomKey, HandleKey, IntervalKey}

  /** The node's entries after `saveSettings` with the settings `c`. */
  function Saved(entries: map<string, string>, c: Config): map<string, string>
  {
    entries[PathLiveKey := c.pathLive][PathPtuKey := c.pathPtu][PathEptuKey := c.pathEptu]
           [PathHotfixKey := c.pathHotfix][PathTechPreviewKey := c.pathTechPreview][PathCustomKey := c.pathCustom]
           [HandleKey := c.handle][IntervalKey := IntToString(c.interval)]
  }

  /** What `loadSettings` leaves in the store: every setter ran, or the interval text did not parse. */
  datatype LoadResult =
    | Applied(config: Config)
    | IntervalInvalid(config: Config)  // `Integer.parseInt` threw after the seven string setters had run

  /** The settings after the seven string setters of `loadSettings`; note `pathPtu` comes from the EPTU key. */
  function LoadedStrings(entries: map<string, string>, c: Config): Config
  {
    c.(pathLive := Lookup(entries, PathLiveKey, DefaultPathLive),
       pathPtu := Lookup(entries, PathEptuKey, DefaultPathEptu),
       pathEptu := Lookup(entries, PathEptuKey, DefaultPathEptu),
       pathHotfix := Lookup(entries, PathHotfixKey, DefaultPathHotfix),
       pathTechPreview := Lookup(entries, PathTechPreviewKey, DefaultPathTechPreview),
       pathCustom := Lookup(entries, PathCustomKey, ""),
       handle := Lookup(entries, HandleKey, ""))
  }

  function Load(entries: map<string, string>, c: Config): LoadResult
  {
    var strings := LoadedStrings(entries, c);
    match ParseInt(Lookup(entries, IntervalKey, "1"))
    case Some(v) => Applied(strings.(interval := v))
    case None => IntervalInvalid(strings)
  }

  /** `saveSettings` writes exactly its eight keys, each with the current value, and nothing else. */
  lemma SavedExactly(entries: map<string, string>, c: Config)
    ensures Saved(entries, c).Keys == entries.Keys + SavedKeys
    ensures forall k :: k in entries && k !in SavedKeys ==> Saved(entries, c)[k] == entries[k]
    ensures Saved(entries, c)[PathLiveKey] == c.pathLive
    ensures Saved(entries, c)[PathPtuKey] == c.pathPtu
    ensures Saved(entries, c)[PathEptuKey] == c.pathEptu
    ensures Saved(entries, c)[PathHotfixKey] == c.pathHotfix
    ensures Saved(entries, c)[PathTechPreviewKey] == c.pathTechPreview
    ensures Saved(entries, c)[PathCustomKey] == c.pathCustom
    ensures Saved(entries, c)[HandleKey] == c.handle
    ensures Saved(entries, c)[IntervalKey] == IntToString(c.interval)
  {
  }

  /**
   * Saving and then loading restores every field but two: `pathPtu` comes back as the saved
   * EPTU path, and the selected channel, never saved, stays what it was.
   */
  lemma SaveThenLoad(entries: map<string, string>, c: Config, current: Config)
    ensures Load(Saved(entries, c), current) == Applied(c.(pathPtu := c.pathEptu, selectedChannel := current.selectedChannel))
  {
    ParseIntToString(c.interval);
  }

  /** An empty node loads the install paths (EPTU for PTU), an empty custom path and handle, and interval 1. */
  lemma LoadFromEmpty(c: Config)
    ensures Load(map[], c) == Applied(Initial.(pathPtu := DefaultPathEptu, selectedChannel := c.selectedChannel))
  {
    assert ParseInt("1") == Some(1) by {
      ParseIntToString(1);
      assert IntToString(1) == "1";
    }
  }

  /** Loading never changes the selected channel, and always gives PTU the same path as EPTU. */
  lemma LoadKeepsChannel(entries: map<string, string>, c: Config)
    ensures Load(entries, c).config.selectedChannel == c.selectedChannel
    ensures Load(entries, c).config.pathPtu == Load(entries, c).config.pathEptu
  {
  }

  /** A stored interval that is not decimal text stops the load before the interval changes. */
  lemma NonNumericIntervalRejected(entries: map<string, string>, c: Config)
    requires IntervalKey in entries && |entries[IntervalKey]| > 1 && !IsDigit(entries[IntervalKey][1])
    ensures Load(entries, c) == IntervalInvalid(LoadedStrings(entries, c))
    ensures Load(entries, c).config.interval == c.interval
  {
    ParseIntRefusesNonDigits(entries[IntervalKey], 1);
  }

  /** One `SettingsHandler`, holding its preferences node. */
  class SettingsHandler {
    const preferences: PreferencesNode

    constructor (preferences: PreferencesNode)
      ensures this.preferences == preferences
    {
      this.preferences := preferences;
    }

    /** `saveSettings`; a failing `flush` is only logged. */
    method SaveSettings(settings: SettingsData)
      modifies preferences
      ensures preferences.entries == Saved(old(preferences.entries), settings.Snapshot())
    {
      preferences.Put(PathLiveKey, settings.pathLive);
      preferences.Put(PathPtuKey, settings.pathPtu);
      preferences.Put(PathEptuKey, settings.pathEptu);
      preferences.Put(PathHotfixKey, settings.pathHotfix);
      preferences.Put(PathTechPreviewKey, settings.pathTechPreview);
      preferences.Put(PathCustomKey, settings.pathCustom);
      preferences.Put(HandleKey, settings.handle);
      preferences.PutInt(IntervalKey, settings.interval);
    }

    /** The seven string setters of `loadSettings`, each notifying every listener. */
    method LoadStrings(settings: SettingsData, entries: map<string, string>)
      modifies settings
      ensures settings.Snapshot() == LoadedStrings(entries, old(settings.Snapshot()))
      ensures settings.listeners == old(settings.listeners)
      ensures settings.notified == old(settings.notified) + Repeat(settings.listeners, 7)
    {
      assert Repeat(settings.listeners, 0) == [];
      RepeatStep(old(settings.notified), settings.notified, settings.listeners, 0);
      settings.SetPathLive(Lookup(entries, PathLiveKey, DefaultPathLive));
      RepeatStep(old(settings.notified), settings.notified, settings.listeners, 1);
      settings.SetPathPtu(Lookup(entries, PathEptuKey, DefaultPathEptu));
      RepeatStep(old(settings.notified), settings.notified, settings.listeners, 2);
      settings.SetPathEptu(Lookup(entries, PathEptuKey, DefaultPathEptu));
      RepeatStep(old(settings.notified), settings.notified, settings.listeners, 3);
      settings.SetPathHotfix(Lookup(entries, PathHotfixKey, DefaultPathHotfix));
      RepeatStep(old(settings.notified), settings.notified, settings.listeners, 4);
      settings.SetPathTechPreview(Lookup(entries, PathTechPreviewKey, DefaultPathTechPreview));
      RepeatStep(old(settings.notified), settings.notified, settings.listeners, 5);
      settings.SetPathCustom(Lookup(entries, PathCustomKey, ""));
      RepeatStep(old(settings.notified), settings.notified, settings.listeners, 6);
      settings.SetHandle(Lookup(entries, HandleKey, ""));
    }

    /**
     * `loadSettings`: one setter per key, each notifying every listener. A failing `sync` is
     * only logged; an interval that does not parse ends the call after seven setters.
     */
    method LoadSettings(settings: SettingsData) returns (result: LoadResult)
      modifies settings
      ensures result == Load(preferences.entries, old(settings.Snapshot()))
      ensures settings.Snapshot() == result.config
      ensures settings.listeners == old(settings.listeners)
      ensures settings.notified == old(settings.notified) + Repeat(settings.listeners, if result.Applied? then 8 else 7)
    {
      var entries := preferences.entries;
      LoadStrings(settings, entries);
      var interval := ParseInt(Lookup(entries, IntervalKey, "1"));
      if interval.None? {
        return IntervalInvalid(settings.Snapshot());
      }
      settings.SetInterval(interval.value);
      result := Applied(settings.Snapshot());
    }
  }
}
