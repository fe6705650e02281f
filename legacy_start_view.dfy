/**
 * The older start screen: no path check, no save, and a non-numeric interval escapes the
 * button handler as an uncaught `NumberFormatException` after the handle has been stored.
 */
module LegacyStartView {
  import opened Wrappers
  import opened JavaInt
  import opened Settings
  import opened Channels
  import Newer = StartView

  datatype StartOutcome =
    | HandleEmpty
    | IntervalEmpty
    | UncaughtNumberFormat  // `Integer.parseInt` threw out of the handler
    | ScanStarted

  function StartDecision(handle: string, intervalText: string): StartOutcome
  {
    if handle == "" then HandleEmpty
    else if intervalText == "" then IntervalEmpty
    else if ParseInt(intervalText).None? then UncaughtNumberFormat
    else ScanStarted
  }

  /**
   * The older screen starts a scan with an empty path where the newer one refuses, and both
   * agree on every input with a path.
   */
  lemma NoPathCheck(handle: string, v: Int32, path: string)
    requires handle != ""
    ensures StartDecision(handle, IntToString(v)) == ScanStarted
    ensures Newer.StartDecision(handle, IntToString(v), "") == Newer.PathEmpty
    ensures path != "" ==> Newer.StartDecision(handle, IntToString(v), path) == Newer.ScanStarted
  {
    ParseIntToString(v);
  }

  class StartView {
    var inputHandle: string
    var inputInterval: string
    var channelSelection: string
    var selectedPathValue: string
    var startRequests: nat
    const listener: Listener

    /** `initialize`: fill the inputs from the settings, show the path and register as a listener. */
    constructor (settings: SettingsData, listener: Listener)
      modifies settings
      ensures inputHandle == settings.handle && inputInterval == IntToString(settings.interval)
      ensures channelSelection == settings.selectedChannel
      ensures selectedPathValue == PathFor(settings.selectedChannel, settings.Snapshot())
      ensures startRequests == 0 && this.listener == listener
      ensures settings.Snapshot() == old(settings.Snapshot()) && settings.notified == old(settings.notified)
      ensures settings.listeners == old(settings.listeners) + [listener]
    {
      inputHandle := settings.handle;
      inputInterval := IntToString(settings.interval);
      channelSelection := settings.selectedChannel;
      selectedPathValue := PathFor(settings.selectedChannel, settings.Snapshot());
      startRequests := 0;
      this.listener := listener;
      new;
      settings.AddListener(listener);
    }

    /** `setSelectedPath`: show the path of the selected channel, the live path by default. */
    method SetSelectedPath(settings: SettingsData)
      modifies this
      ensures selectedPathValue == PathFor(settings.selectedChannel, settings.Snapshot())
      ensures inputHandle == old(inputHandle) && inputInterval == old(inputInterval)
      ensures channelSelection == old(channelSelection) && startRequests == old(startRequests)
    {
      selectedPathValue := PathFor(settings.selectedChannel, settings.Snapshot());
    }

    /** `settingsChanged`: any change to the settings recomputes the shown path. */
    method SettingsChanged(settings: SettingsData)
      modifies this
      ensures selectedPathValue == PathFor(settings.selectedChannel, settings.Snapshot())
      ensures inputHandle == old(inputHandle) && inputInterval == old(inputInterval)
      ensures channelSelection == old(channelSelection) && startRequests == old(startRequests)
    {
      SetSelectedPath(settings);
    }

    /** `onChannelSelection`: store the picked channel and show its path. */
    method OnChannelSelection(settings: SettingsData, picked: string)
      modifies this, settings
      ensures channelSelection == picked
      ensures settings.Snapshot() == old(settings.Snapshot()).(selectedChannel := picked)
      ensures selectedPathValue == PathFor(picked, settings.Snapshot())
      ensures settings.listeners == old(settings.listeners)
      ensures settings.notified == old(settings.notified) + settings.listeners
      ensures inputHandle == old(inputHandle) && inputInterval == old(inputInterval) && startRequests == old(startRequests)
    {
      channelSelection := picked;
      settings.SetSelectedChannel(channelSelection);
      SetSelectedPath(settings);
    }

    /** `onStartButtonClicked`: the handle is stored, then the interval, then the scan is requested. */
    method OnStartButtonClicked(settings: SettingsData) returns (outcome: StartOutcome)
      modifies this, settings
      ensures outcome == StartDecision(old(inputHandle), old(inputInterval))
      ensures settings.Snapshot() ==
                match outcome
                case ScanStarted => old(settings.Snapshot()).(handle := old(inputHandle), interval := ParseInt(old(inputInterval)).value)
                case UncaughtNumberFormat => old(settings.Snapshot()).(handle := old(inputHandle))
                case _ => old(settings.Snapshot())
      ensures startRequests == old(startRequests) + (if outcome == ScanStarted then 1 else 0)
      ensures settings.listeners == old(settings.listeners)
      ensures settings.notified == old(settings.notified) +
                Repeat(settings.listeners, match outcome case ScanStarted => 2 case UncaughtNumberFormat => 1 case _ => 0)
      ensures inputHandle == old(inputHandle) && inputInterval == old(inputInterval)
      ensures selectedPathValue == old(selectedPathValue) && channelSelection == old(channelSelection)
    {
      assert Repeat(settings.listeners, 0) == [];
      if inputHandle == "" {
        return HandleEmpty;
      }
      if inputInterval == "" {
        return IntervalEmpty;
      }
      settings.SetHandle(inputHandle);
      assert settings.notified == old(settings.notified) + Repeat(settings.listeners, 1);
      var interval := ParseInt(inputInterval);
      if interval.None? {
        return UncaughtNumberFormat;
      }
      settings.SetInterval(interval.value);
      assert settings.notified == old(settings.notified) + Repeat(settings.listeners, 2);
      startRequests := startRequests + 1;
      outcome := ScanStarted;
    }
  }
}
