/**
 * The start screen: it shows the selected channel's log path, and its start button checks
 * the handle, the interval and the path, stores the handle and interval, saves the
 * settings and asks the main view to start scanning.
 */
module StartView {
  import opened Wrappers
  import opened JavaInt
  import opened Settings
  import opened Channels
  import opened Preferences
  import SettingsStore

  datatype StartOutcome =
    | HandleEmpty       // "Handle is empty"
    | IntervalEmpty     // "Interval is empty"
    | PathEmpty         // "Path is empty"
    | IntervalInvalid   // "Interval is invalid": `Integer.parseInt` threw
    | ScanStarted

  /** What the start button decides from the handle text, the interval text and the shown path. */
  function StartDecision(handle: string, intervalText: string, path: string): StartOutcome
  {
    if handle == "" then HandleEmpty
    else if intervalText == "" then IntervalEmpty
    else if path == "" then PathEmpty
    else if ParseInt(intervalText).None? then IntervalInvalid
    else ScanStarted
  }

  /** The scan starts exactly when all three inputs are present and the interval text is a 32-bit integer. */
  lemma StartsExactlyWhenValid(handle: string, intervalText: string, path: string)
    ensures StartDecision(handle, intervalText, path) == ScanStarted <==>
              handle != "" && intervalText != "" && path != "" && ParseInt(intervalText).Some?
    ensures handle == "" ==> StartDecision(handle, intervalText, path) == HandleEmpty
    ensures handle != "" && intervalText == "" ==> StartDecision(handle, intervalText, path) == IntervalEmpty
  {
  }

  /** Zero and negative intervals are accepted. */
  lemma NonPositiveIntervalAccepted(handle: string, path: string, v: Int32)
    requires handle != "" && path != "" && v <= 0
    ensures StartDecision(handle, IntToString(v), path) == ScanStarted
  {
    ParseIntToString(v);
  }

  /** A letter after the first character makes the interval invalid rather than empty. */
  lemma LetterInIntervalRejected(handle: string, intervalText: string, path: string, k: nat)
    requires handle != "" && path != "" && 0 < k < |intervalText| && !IsDigit(intervalText[k])
    ensures StartDecision(handle, intervalText, path) == IntervalInvalid
  {
    ParseIntRefusesNonDigits(intervalText, k);
  }

  class StartView {
    var inputHandle: string
    var inputInterval: string
    /** The channel picked in the combo box. */
    var channelSelection: string
    /** The text of the path label. */
    var selectedPathValue: string
    /** How often `mainViewController.onStartPressed()` was called. */
    var startRequests: nat
    /** This view as a registered settings listener. */
    const listener: Listener

    /** `initialize`: fill the inputs from the settings, show the path and register as a listener. */
    constructor (settings: SettingsData, listener: Listener)
      modifies settings
      ensures inputHandle == settings.handle && inputInterval == IntToString(settings.interval)
      ensures channelSelection == settings.selectedChannel
      ensures selectedPathValue == PathFor(settings.selectedChannel, settings.Snapshot())
      ensures startRequests == 0 && this.listener == listener
      ensures settings.Snapshot() == old(settings.Snapshot()) && settings.notified == old(settings.notified)
      ensures settings.listeners == old(settings.listeners) + [listener]
    {
      inputHandle := settings.handle;
      inputInterval := IntToString(settings.interval);
      channelSelection := settings.selectedChannel;
      selectedPathValue := PathFor(settings.selectedChannel, settings.Snapshot());
      startRequests := 0;
      this.listener := listener;
      new;
      settings.AddListener(listener);
    }

    /** `setSelectedPath`: show the path of the selected channel, the live path by default. */
    method SetSelectedPath(settings: SettingsData)
      modifies this
      ensures selectedPathValue == PathFor(settings.selectedChannel, settings.Snapshot())
      ensures inputHandle == old(inputHandle) && inputInterval == old(inputInterval)
      ensures channelSelection == old(channelSelection) && startRequests == old(startRequests)
    {
      selectedPathValue := PathFor(settings.selectedChannel, settings.Snapshot());
    }

    /** `settingsChanged`: any change to the settings recomputes the shown path. */
    method SettingsChanged(settings: SettingsData)
      modifies this
      ensures selectedPathValue == PathFor(settings.selectedChannel, settings.Snapshot())
      ensures inputHandle == old(inputHandle) && inputInterval == old(inputInterval)
      ensures channelSelection == old(channelSelection) && startRequests == old(startRequests)
    {
      SetSelectedPath(settings);
    }

    /** `onChannelSelection`: store the picked channel and show its path. */
    method OnChannelSelection(settings: SettingsData, picked: string)
      modifies this, settings
      ensures channelSelection == picked
      ensures settings.Snapshot() == old(settings.Snapshot()).(selectedChannel := picked)
      ensures selectedPathValue == PathFor(picked, settings.Snapshot())
      ensures settings.listeners == old(settings.listeners)
      ensures settings.notified == old(settings.notified) + settings.listeners
      ensures inputHandle == old(inputHandle) && inputInterval == old(inputInterval) && startRequests == old(startRequests)
    {
      channelSelection := picked;
      settings.SetSelectedChannel(channelSelection);
      SetSelectedPath(settings);
    }

    /**
     * `onStartButtonClicked`. The handle is stored before the interval is parsed, so an
     * invalid interval leaves the new handle in place; on success the settings are saved to
     * the preferences node before the scan is requested.
     */
    method OnStartButtonClicked(settings: SettingsData, node: PreferencesNode) returns (outcome: StartOutcome)
      modifies this, settings, node
      ensures outcome == StartDecision(old(inputHandle), old(inputInterval), old(selectedPathValue))
      ensures settings.Snapshot() ==
                match outcome
                case ScanStarted => old(settings.Snapshot()).(handle := old(inputHandle), interval := ParseInt(old(inputInterval)).value)
                case IntervalInvalid => old(settings.Snapshot()).(handle := old(inputHandle))
                case _ => old(settings.Snapshot())
      ensures node.entries == if outcome == ScanStarted then SettingsStore.Saved(old(node.entries), settings.Snapshot()) else old(node.entries)
      ensures startRequests == old(startRequests) + (if outcome == ScanStarted then 1 else 0)
      ensures settings.listeners == old(settings.listeners)
      ensures settings.notified == old(settings.notified) +
                Repeat(settings.listeners, match outcome case ScanStarted => 2 case IntervalInvalid => 1 case _ => 0)
      ensures inputHandle == old(inputHandle) && inputInterval == old(inputInterval)
      ensures selectedPathValue == old(selectedPathValue) && channelSelection == old(channelSelection)
    {
      assert Repeat(settings.listeners, 0) == [];
      if inputHandle == "" {
        return HandleEmpty;
      }
      if inputInterval == "" {
        return IntervalEmpty;
      }
      if selectedPathValue == "" {
        return PathEmpty;
      }
      settings.SetHandle(inputHandle);
      assert settings.notified == old(settings.notified) + Repeat(settings.listeners, 1);
      var interval := ParseInt(inputInterval);
      if interval.None? {
        return IntervalInvalid;
      }
      settings.SetInterval(interval.value);
      assert settings.notified == old(settings.notified) + Repeat(settings.listeners, 2);
      var handler := new SettingsStore.SettingsHandler(node);
      handler.SaveSettings(settings);
      startRequests := startRequests + 1;
      outcome := ScanStarted;
    }
  }
}
