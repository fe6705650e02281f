/**
 * The process-wide settings store: install paths per channel, a custom path, the player
 * handle, the scan interval and the selected channel, plus a list of listeners that every
 * setter notifies. The static fields of the original become one object.
 */
module Settings {
  import opened JavaInt

  const DefaultPathLive := "C:\\Program Files\\Roberts Space Industries\\StarCitizen\\LIVE\\game.log"
  const DefaultPathPtu := "C:\\Program Files\\Roberts Space Industries\\StarCitizen\\PTU\\game.log"
  const DefaultPathEptu := "C:\\Program Files\\Roberts Space Industries\\StarCitizen\\EPTU\\game.log"
  const DefaultPathHotfix := "C:\\Program Files\\Roberts Space Industries\\StarCitizen\\HOTFIX\\game.log"
  const DefaultPathTechPreview := "C:\\Program Files\\Roberts Space Industries\\StarCitizen\\TECH-PREVIEW\\game.log"

  /** The channel names; `Custom` is mixed case and the technical preview is spelled with a hyphen. */
  const Live := "LIVE"
  const Ptu := "PTU"
  const Eptu := "EPTU"
  const Hotfix := "HOTFIX"
  const TechPreview := "TECH-PREVIEW"
  const Custom := "Custom"

  /** The values held by the store, without its listeners. */
  datatype Config = Config(
    pathLive: string,
    pathPtu: string,
    pathEptu: string,
    pathHotfix: string,
    pathTechPreview: string,
    pathCustom: string,
    handle: string,
    interval: Int32,
    selectedChannel: string)

  /** The state before any setter runs. */
  const Initial := Config(DefaultPathLive, DefaultPathPtu, DefaultPathEptu, DefaultPathHotfix, DefaultPathTechPreview,
                          "", "", 1, Live)

  /** A registered `SettingsListener`, by identity. */
  type Listener = nat

  /** `List.remove(Object)`: drop the first occurrence of `x`, if any. */
  function RemoveFirst(s: seq<Listener>, x: Listener): (r: seq<Listener>)
    ensures x !in s ==> r == s
    ensures x in s ==> |r| == |s| - 1
  {
    if s == [] then []
    else
      assert s == [s[0]] + s[1..];
      if s[0] == x then s[1..] else [s[0]] + RemoveFirst(s[1..], x)
  }

  /** Removing a registered listener drops exactly one of its registrations and nothing else. */
  lemma {:induction false} RemoveFirstMultiset(s: seq<Listener>, x: Listener)
    requires x in s
    ensures multiset(RemoveFirst(s, x)) == multiset(s) - multiset{x}
  {
    assert s == [s[0]] + s[1..];
    if s[0] != x {
      RemoveFirstMultiset(s[1..], x);
    }
  }

  /** Exactly the first occurrence goes: everything before it and after it stays, in order. */
  lemma {:induction false} RemoveFirstAt(s: seq<Listener>, x: Listener, i: nat)
    requires i < |s| && s[i] == x && x !in s[..i]
    ensures RemoveFirst(s, x) == s[..i] + s[i + 1..]
  {
    if i == 0 {
      assert s[..0] + s[1..] == s[1..];
    } else {
      var tail := s[1..];
      assert s[0] == s[..i][0];
      assert RemoveFirst(s, x) == [s[0]] + RemoveFirst(tail, x);
      assert tail[..i - 1] == s[1..i];
      RemoveFirstAt(tail, x, i - 1);
      assert tail[i..] == s[i + 1..];
      assert s[..i] == [s[0]] + s[1..i];
    }
  }

  /** A listener added once and then removed leaves the list as it was before, so it is never notified. */
  lemma AddThenRemove(s: seq<Listener>, x: Listener)
    requires x !in s
    ensures RemoveFirst(s + [x], x) == s
  {
    RemoveFirstAt(s + [x], x, |s|);
    assert (s + [x])[..|s|] == s;
  }

  /** A listener added twice stays registered after one removal. */
  lemma AddedTwiceRemovedOnce(s: seq<Listener>, x: Listener)
    ensures x in RemoveFirst(s + [x, x], x)
  {
    assert multiset(s + [x, x])[x] >= 2;
    RemoveFirstMultiset(s + [x, x], x);
    assert multiset(RemoveFirst(s + [x, x], x))[x] >= 1;
  }

  /** The notifications of `calls` setter calls: every registration, once per call. */
  function Repeat(listeners: seq<Listener>, calls: nat): (r: seq<Listener>)
    ensures |r| == calls * |listeners|
  {
    if calls == 0 then [] else Repeat(listeners, calls - 1) + listeners
  }

  /** One more setter call extends the notifications by one round. */
  lemma RepeatStep(before: seq<Listener>, notified: seq<Listener>, listeners: seq<Listener>, calls: nat)
    requires notified == before + Repeat(listeners, calls)
    ensures notified + listeners == before + Repeat(listeners, calls + 1)
  {
  }

  class SettingsData {
    var pathLive: string
    var pathPtu: string
    var pathEptu: string
    var pathHotfix: string
    var pathTechPreview: string
    var pathCustom: string
    var handle: string
    var interval: Int32
    var selectedChannel: string
    var listeners: seq<Listener>
    /** Every `settingsChanged` call made so far, by receiving listener, in call order. */
    ghost var notified: seq<Listener>

    function Snapshot(): Config
      reads this
    {
      Config(pathLive, pathPtu, pathEptu, pathHotfix, pathTechPreview, pathCustom, handle, interval, selectedChannel)
    }

    constructor ()
      ensures Snapshot() == Initial && listeners == [] && notified == []
    {
      pathLive, pathPtu, pathEptu, pathHotfix, pathTechPreview := DefaultPathLive, DefaultPathPtu, DefaultPathEptu, DefaultPathHotfix, DefaultPathTechPreview;
      pathCustom, handle, interval, selectedChannel := "", "", 1, Live;
      listeners, notified := [], [];
    }

    /** `listeners.forEach(SettingsListener::settingsChanged)`: once per registration, in registration order. */
    method NotifyListeners()
      modifies this
      ensures notified == old(notified) + listeners
      ensures Snapshot() == old(Snapshot()) && listeners == old(listeners)
    {
      for i := 0 to |listeners|
        invariant notified == old(notified) + listeners[..i]
        invariant Snapshot() == old(Snapshot()) && listeners == old(listeners)
      {
        notified := notified + [listeners[i]];
      }
      assert listeners[..|listeners|] == listeners;
    }

    method SetPathLive(value: string)
      modifies this
      ensures Snapshot() == old(Snapshot()).(pathLive := value)
      ensures listeners == old(listeners) && notified == old(notified) + listeners
    {
      pathLive := value;
      NotifyListeners();
    }

    method SetPathPtu(value: string)
      modifies this
      ensures Snapshot() == old(Snapshot()).(pathPtu := value)
      ensures listeners == old(listeners) && notified == old(notified) + listeners
    {
      pathPtu := value;
      NotifyListeners();
    }

    method SetPathEptu(value: string)
      modifies this
      ensures Snapshot() == old(Snapshot()).(pathEptu := value)
      ensures listeners == old(listeners) && notified == old(notified) + listeners
    {
      pathEptu := value;
      NotifyListeners();
    }

    method SetPathHotfix(value: string)
      modifies this
      ensures Snapshot() == old(Snapshot()).(pathHotfix := value)
      ensures listeners == old(listeners) && notified == old(notified) + listeners
    {
      pathHotfix := value;
      NotifyListeners();
    }

    method SetPathTechPreview(value: string)
      modifies this
      ensures Snapshot() == old(Snapshot()).(pathTechPreview := value)
      ensures listeners == old(listeners) && notified == old(notified) + listeners
    {
      pathTechPreview := value;
      NotifyListeners();
    }

    method SetPathCustom(value: string)
      modifies this
      ensures Snapshot() == old(Snapshot()).(pathCustom := value)
      ensures listeners == old(listeners) && notified == old(notified) + listeners
    {
      pathCustom := value;
      NotifyListeners();
    }

    /** No validation: an empty handle is stored as given. */
    method SetHandle(value: string)
      modifies this
      ensures Snapshot() == old(Snapshot()).(handle := value)
      ensures listeners == old(listeners) && notified == old(notified) + listeners
    {
      handle := value;
      NotifyListeners();
    }

    /** No validation: zero and negative intervals are stored as given. */
    method SetInterval(value: Int32)
      modifies this
      ensures Snapshot() == old(Snapshot()).(interval := value)
      ensures listeners == old(listeners) && notified == old(notified) + listeners
    {
      interval := value;
      NotifyListeners();
    }

    method SetSelectedChannel(value: string)
      modifies this
      ensures Snapshot() == old(Snapshot()).(selectedChannel := value)
      ensures listeners == old(listeners) && notified == old(notified) + listeners
    {
      selectedChannel := value;
      NotifyListeners();
    }

    /** `listeners.add`: appended, without de-duplication. */
    method AddListener(listener: Listener)
      modifies this
      ensures listeners == old(listeners) + [listener]
      ensures Snapshot() == old(Snapshot()) && notified == old(notified)
    {
      listeners := listeners + [listener];
    }

    /** `listeners.remove`: the first registration of `listener` goes. */
    method RemoveListener(listener: Listener)
      modifies this
      ensures listeners == RemoveFirst(old(listeners), listener)
      ensures Snapshot() == old(Snapshot()) && notified == old(notified)
    {
      listeners := RemoveFirst(listeners, listener);
    }
  }

  /**
   * A listener registered around one channel change hears it exactly once, and removing it
   * afterwards restores the listener list.
   */
  method RegisteredListenerNotifiedOnce(settings: SettingsData, listener: Listener, channel: string)
    requires listener !in settings.listeners
    modifies settings
    ensures settings.selectedChannel == channel
    ensures settings.notified == old(settings.notified) + old(settings.listeners) + [listener]
    ensures multiset(settings.notified)[listener] == multiset(old(settings.notified))[listener] + 1
    ensures settings.listeners == old(settings.listeners)
  {
    settings.AddListener(listener);
    settings.SetSelectedChannel(channel);
    AddThenRemove(old(settings.listeners), listener);
    settings.RemoveListener(listener);
  }

  /** A listener removed before a channel change does not hear it. */
  method RemovedListenerNotNotified(settings: SettingsData, listener: Listener, channel: string)
    requires listener !in settings.listeners
    modifies settings
    ensures settings.selectedChannel == channel
    ensures settings.notified == old(settings.notified) + old(settings.listeners)
    ensures multiset(settings.notified)[listener] == multiset(old(settings.notified))[listener]
  {
    settings.AddListener(listener);
    AddThenRemove(settings.listeners[..|settings.listeners| - 1], listener);
    assert settings.listeners[..|settings.listeners| - 1] == old(settings.listeners);
    settings.RemoveListener(listener);
    settings.SetSelectedChannel(channel);
  }
}
