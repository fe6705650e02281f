/**
 * The scan screen of the older package: the same watermark scan as `ScanView`, reporting
 * freshly allocated `KillEvent` objects, which compare by identity.
 */
module LegacyScanView {
  import opened Wrappers
  import opened Time
  import opened Tokenizer
  import opened KillLog
  import opened Settings
  import opened Channels
  import opened LegacyKillEvent
  import Record = KillEventRecord
  import ScanView

  /** The field values of an event object. */
  function Fields(e: KillEvent): Record.KillEvent
  {
    Record.KillEvent(e.timestamp, e.killedPlayer, e.killer, e.weapon, e.damageType, e.zone)
  }

  function AllFields(s: seq<KillEvent>): (r: seq<Record.KillEvent>)
    ensures |r| == |s| && forall i :: 0 <= i < |s| ==> r[i] == Fields(s[i])
  {
    if s == [] then [] else AllFields(s[..|s| - 1]) + [Fields(s[|s| - 1])]
  }

  lemma AllFieldsAppend(a: seq<KillEvent>, b: seq<KillEvent>)
    ensures AllFields(a + b) == AllFields(a) + AllFields(b)
  {
    var l := AllFields(a + b);
    var r := AllFields(a) + AllFields(b);
    forall i | 0 <= i < |l| ensures l[i] == r[i] {
      if i < |a| {
        assert (a + b)[i] == a[i];
      } else {
        assert (a + b)[i] == b[i - |a|];
      }
    }
  }

  /** `parseKillEvent`: a new event object with the fields the newer parser finds, or nothing where it finds nothing. */
  method ParseKillEvent(line: string, parseDate: DateTimeParser) returns (r: Option<KillEvent>)
    ensures r.None? <==> ScanView.ParseKillEvent(line, parseDate).None?
    ensures r.Some? ==> fresh(r.value) && Fields(r.value) == ScanView.ParseKillEvent(line, parseDate).value
  {
    var timestamp := TimestampText(line);
    if timestamp.None? {
      return None;
    }
    var killedPlayer := ExtractValue(line, KilledPlayerToken, QuoteToken);
    var zone := ExtractValue(line, ZoneToken, QuoteToken);
    var killer := ExtractValue(line, KillerToken, QuoteToken);
    var weapon := ExtractValue(line, WeaponToken, QuoteToken);
    var damageType := ExtractValue(line, DamageTypeToken, QuoteToken);
    var t := parseDate(timestamp.value);
    if t.None? {
      return None;
    }
    var event := new KillEvent(t.value, killedPlayer, killer, weapon, damageType, zone);
    r := Some(event);
  }

  /** The body of the reading loop for one line: the new event object when the watermark lets it through, and the new watermark. */
  method ReadLine(line: string, handle: string, parseDate: DateTimeParser, lastTime: ScanView.Watermark)
    returns (shown: Option<KillEvent>)
    modifies lastTime
    ensures var found := ScanView.Detected(line, parseDate);
            if ScanView.Reportable(found, handle, old(lastTime.value)) then
              shown.Some? && fresh(shown.value) && Fields(shown.value) == found.value && lastTime.value == found.value.timestamp
            else
              shown.None? && lastTime.value == old(lastTime.value)
  {
    shown := None;
    if Contains(line, ActorDeathMarker) {
      var event := ParseKillEvent(line, parseDate);
      if event.Some? && event.value.killedPlayer == handle && IsAfter(event.value.timestamp, lastTime.value) {
        shown := event;
        lastTime.value := event.value.timestamp;
      }
    }
  }

  /** `extractKillEvents`: one pass, reporting new objects whose fields are what `ScanView` reports. */
  method ExtractKillEvents(file: LogFile, handle: string, parseDate: DateTimeParser, lastTime: ScanView.Watermark)
    returns (outcome: ScanView.PassOutcome, reported: seq<KillEvent>)
    modifies lastTime
    ensures AllFields(reported) == ScanView.Reports(ScanView.Detections(ReadLines(file), parseDate), handle, old(lastTime.value)).reported
    ensures lastTime.value == ScanView.Reports(ScanView.Detections(ReadLines(file), parseDate), handle, old(lastTime.value)).lastTime
    ensures forall e :: e in reported ==> fresh(e)
    ensures outcome == if file.Complete? then ScanView.Finished else ScanView.ReadFailed
  {
    ghost var start := lastTime.value;
    ghost var values: seq<Record.KillEvent> := [];
    var lines := ReadLines(file);
    reported := [];
    var i := 0;
    while i < |lines|
      invariant 0 <= i <= |lines|
      invariant lastTime.value == ScanView.Reports(ScanView.Detections(lines[..i], parseDate), handle, start).lastTime
      invariant values == ScanView.Reports(ScanView.Detections(lines[..i], parseDate), handle, start).reported
      invariant AllFields(reported) == values
      invariant forall e :: e in reported ==> fresh(e)
    {
      ScanView.ReadStep(lines, i, handle, parseDate, start);
      var shown := ReadLine(lines[i], handle, parseDate, lastTime);
      if shown.Some? {
        AllFieldsAppend(reported, [shown.value]);
        values := values + [Fields(shown.value)];
        reported := reported + [shown.value];
      }
      i := i + 1;
    }
    assert lines[..|lines|] == lines;
    outcome := if file.Complete? then ScanView.Finished else ScanView.ReadFailed;
  }

  datatype ScanOutcome =
    | NoLogPath
    | NoHandle
    | Interrupted(reported: seq<KillEvent>, lastTime: Timestamp)

  /** `startScan`: the same checks and polls as `ScanView.StartScan`, with event objects. */
  method StartScan(settings: SettingsData, now: Timestamp, minusOneYear: Timestamp -> Timestamp,
                   polls: seq<LogFile>, parseDate: DateTimeParser)
    returns (outcome: ScanOutcome)
    ensures ScanView.StartCheck(settings.Snapshot()) == Some(ScanView.NoLogPath) ==> outcome == NoLogPath
    ensures ScanView.StartCheck(settings.Snapshot()) == Some(ScanView.NoHandle) ==> outcome == NoHandle
    ensures ScanView.StartCheck(settings.Snapshot()).None? ==>
              var w := ScanView.Scans(polls, settings.handle, parseDate, minusOneYear(now));
              outcome.Interrupted? && AllFields(outcome.reported) == w.reported && outcome.lastTime == w.lastTime
  {
    var selectedPathValue := PathFor(settings.selectedChannel, settings.Snapshot());
    if selectedPathValue == "" {
      return NoLogPath;
    }
    if settings.handle == "" {
      return NoHandle;
    }
    var lastTime := new ScanView.Watermark(minusOneYear(now));
    var reported: seq<KillEvent> := [];
    ghost var values: seq<Record.KillEvent> := [];
    for i := 0 to |polls|
      invariant lastTime.value == ScanView.Scans(polls[..i], settings.handle, parseDate, minusOneYear(now)).lastTime
      invariant values == ScanView.Scans(polls[..i], settings.handle, parseDate, minusOneYear(now)).reported
      invariant AllFields(reported) == values
    {
      assert polls[..i + 1][..i] == polls[..i];
      var _, found := ExtractKillEvents(polls[i], settings.handle, parseDate, lastTime);
      AllFieldsAppend(reported, found);
      values := values + AllFields(found);
      reported := reported + found;
    }
    assert polls[..|polls|] == polls;
    outcome := Interrupted(reported, lastTime.value);
  }
}
