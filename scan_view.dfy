/**
 * The scan screen of the newer package: poll the log file of the selected channel and
 * report each event for the handle whose timestamp is strictly after a watermark, which
 * then moves to that timestamp.
 */
module ScanView {
  import opened Wrappers
  import opened Time
  import opened Tokenizer
  import opened KillLog
  import opened Settings
  import opened Channels
  import opened KillEventRecord

  /**
   * `parseKillEvent`: the six-component event when the timestamp span exists and parses;
   * missing field tokens give empty fields.
   */
  function ParseKillEvent(line: string, parseDate: DateTimeParser): (r: Option<KillEvent>)
    ensures r.Some? <==> TimestampText(line).Some? && parseDate(TimestampText(line).value).Some?
    ensures r.Some? ==> r.value.timestamp == parseDate(TimestampText(line).value).value
  {
    match TimestampText(line)
    case None => None
    case Some(text) =>
      match parseDate(text)
      case None => None
      case Some(t) =>
        Some(KillEvent(
          t,
          ExtractValue(line, KilledPlayerToken, QuoteToken),
          ExtractValue(line, KillerToken, QuoteToken),
          ExtractValue(line, WeaponToken, QuoteToken),
          ExtractValue(line, DamageTypeToken, QuoteToken),
          ExtractValue(line, ZoneToken, QuoteToken)))
  }

  /** The killed player is the text between the kill token and the next quote, "" without the token. */
  lemma KilledPlayerField(line: string, parseDate: DateTimeParser, s: int, e: int)
    requires ParseKillEvent(line, parseDate).Some?
    requires FirstAt(line, KilledPlayerToken, 0, s) && FirstAt(line, QuoteToken, s + |KilledPlayerToken|, e)
    ensures ParseKillEvent(line, parseDate).value.killedPlayer == line[s + |KilledPlayerToken|..e]
    ensures Absent(ParseKillEvent(line, parseDate).value.killedPlayer, QuoteToken, 0)
  {
  }

  /** The event a line yields in the pass: only lines holding the marker are parsed. */
  function Detected(line: string, parseDate: DateTimeParser): Option<KillEvent>
  {
    if IsKillLine(line) then ParseKillEvent(line, parseDate) else None
  }

  /** What each line of the file yields, line by line. */
  function Detections(lines: seq<string>, parseDate: DateTimeParser): (d: seq<Option<KillEvent>>)
    ensures |d| == |lines|
    ensures forall k :: 0 <= k < |lines| ==> d[k] == Detected(lines[k], parseDate)
  {
    if lines == [] then [] else Detections(lines[..|lines| - 1], parseDate) + [Detected(lines[|lines| - 1], parseDate)]
  }

  lemma DetectionsStep(lines: seq<string>, i: nat, parseDate: DateTimeParser)
    requires i < |lines|
    ensures Detections(lines[..i + 1], parseDate) == Detections(lines[..i], parseDate) + [Detected(lines[i], parseDate)]
  {
    assert lines[..i + 1][..i] == lines[..i];
  }

  lemma DetectionsAppend(a: seq<string>, b: seq<string>, parseDate: DateTimeParser)
    ensures Detections(a + b, parseDate) == Detections(a, parseDate) + Detections(b, parseDate)
  {
    var d := Detections(a + b, parseDate);
    var e := Detections(a, parseDate) + Detections(b, parseDate);
    assert |d| == |e|;
    forall k | 0 <= k < |d| ensures d[k] == e[k] {
      if k < |a| {
        assert (a + b)[k] == a[k];
      } else {
        assert (a + b)[k] == b[k - |a|];
      }
    }
  }

  /** The watermark and the events reported so far. */
  datatype Watch = Watch(lastTime: Timestamp, reported: seq<KillEvent>)

  /** Whether the watermark `lastTime` lets `found` through for `handle`. */
  predicate Reportable(found: Option<KillEvent>, handle: string, lastTime: Timestamp)
  {
    found.Some? && found.value.killedPlayer == handle && IsAfter(found.value.timestamp, lastTime)
  }

  /** What a pass over lines yielding `found` reports, starting from the watermark `lastTime`. */
  function Reports(found: seq<Option<KillEvent>>, handle: string, lastTime: Timestamp): Watch
    decreases |found|
  {
    if found == [] then Watch(lastTime, [])
    else
      var before := Reports(found[..|found| - 1], handle, lastTime);
      var last := found[|found| - 1];
      if Reportable(last, handle, before.lastTime) then Watch(last.value.timestamp, before.reported + [last.value])
      else before
  }

  /**
   * Reported events belong to the handle, come from the file and are after the starting
   * watermark; their timestamps strictly increase, and the watermark ends on the last one.
   */
  lemma {:induction false} WatermarkAdvances(found: seq<Option<KillEvent>>, handle: string, t: Timestamp)
    ensures var w := Reports(found, handle, t);
            forall i :: 0 <= i < |w.reported| ==>
              w.reported[i].killedPlayer == handle && IsAfter(w.reported[i].timestamp, t) && Some(w.reported[i]) in found
    ensures var w := Reports(found, handle, t);
            forall i, j :: 0 <= i < j < |w.reported| ==> IsAfter(w.reported[j].timestamp, w.reported[i].timestamp)
    ensures var w := Reports(found, handle, t);
            w.lastTime == if w.reported == [] then t else w.reported[|w.reported| - 1].timestamp
    decreases |found|
  {
    if found != [] {
      var prefix := found[..|found| - 1];
      WatermarkAdvances(prefix, handle, t);
      assert found == prefix + [found[|found| - 1]];
    }
  }

  /** Once a pass is over, no event of the handle in the file is after the watermark. */
  lemma {:induction false} WatermarkBoundsAll(found: seq<Option<KillEvent>>, handle: string, t: Timestamp)
    ensures !IsAfter(t, Reports(found, handle, t).lastTime)
    ensures forall e: KillEvent :: Some(e) in found && e.killedPlayer == handle ==>
              !IsAfter(e.timestamp, Reports(found, handle, t).lastTime)
    decreases |found|
  {
    if found != [] {
      var prefix := found[..|found| - 1];
      WatermarkBoundsAll(prefix, handle, t);
      assert found == prefix + [found[|found| - 1]];
    }
  }

  /** When nothing of the handle is after the watermark, a pass reports nothing and keeps the watermark. */
  lemma {:induction false} QuietWhenNothingLater(found: seq<Option<KillEvent>>, handle: string, t: Timestamp)
    requires forall e: KillEvent :: Some(e) in found && e.killedPlayer == handle ==> !IsAfter(e.timestamp, t)
    ensures Reports(found, handle, t) == Watch(t, [])
    decreases |found|
  {
    if found != [] {
      var prefix := found[..|found| - 1];
      assert found == prefix + [found[|found| - 1]];
      QuietWhenNothingLater(prefix, handle, t);
    }
  }

  /** Scanning the same lines again reports nothing new. */
  lemma RescanReportsNothing(found: seq<Option<KillEvent>>, handle: string, t: Timestamp)
    ensures var w := Reports(found, handle, t);
            Reports(found, handle, w.lastTime) == Watch(w.lastTime, [])
  {
    WatermarkBoundsAll(found, handle, t);
    QuietWhenNothingLater(found, handle, Reports(found, handle, t).lastTime);
  }

  /** Reading `a` and then `b` reports what one pass over `a + b` reports. */
  lemma {:induction false} ReportsAppend(a: seq<Option<KillEvent>>, b: seq<Option<KillEvent>>, handle: string, t: Timestamp)
    ensures var wa := Reports(a, handle, t);
            var wb := Reports(b, handle, wa.lastTime);
            Reports(a + b, handle, t) == Watch(wb.lastTime, wa.reported + wb.reported)
    decreases |b|
  {
    if b != [] {
      var prefix := b[..|b| - 1];
      ReportsAppend(a, prefix, handle, t);
      assert (a + b)[..|a + b| - 1] == a + prefix;
      assert (a + b)[|a + b| - 1] == b[|b| - 1];
    } else {
      assert a + b == a;
    }
  }

  /** `AtomicReference<ZonedDateTime>`: the watermark shared by the passes. */
  class Watermark {
    var value: Timestamp

    constructor (value: Timestamp)
      ensures this.value == value
    {
      this.value := value;
    }
  }

  datatype PassOutcome =
    | Finished
    | ReadFailed  // the file was missing or a read failed: an `IOException` left the pass

  lemma ReadStep(lines: seq<string>, i: nat, handle: string, parseDate: DateTimeParser, t: Timestamp)
    requires i < |lines|
    ensures var before := Reports(Detections(lines[..i], parseDate), handle, t);
            var found := Detected(lines[i], parseDate);
            Reports(Detections(lines[..i + 1], parseDate), handle, t) ==
              if Reportable(found, handle, before.lastTime) then Watch(found.value.timestamp, before.reported + [found.value])
              else before
  {
    DetectionsStep(lines, i, parseDate);
    var d := Detections(lines[..i], parseDate) + [Detected(lines[i], parseDate)];
    assert d[..i] == Detections(lines[..i], parseDate);
  }

  /**
   * `extractKillEvents(logFilePath, lastTime)`: one pass; `reported` are the events shown
   * and logged, in file order.
   */
  method ExtractKillEvents(file: LogFile, handle: string, parseDate: DateTimeParser, lastTime: Watermark)
    returns (outcome: PassOutcome, reported: seq<KillEvent>)
    modifies lastTime
    ensures reported == Reports(Detections(ReadLines(file), parseDate), handle, old(lastTime.value)).reported
    ensures lastTime.value == Reports(Detections(ReadLines(file), parseDate), handle, old(lastTime.value)).lastTime
    ensures outcome == if file.Complete? then Finished else ReadFailed
  {
    ghost var start := lastTime.value;
    var lines := ReadLines(file);
    reported := [];
    var i := 0;
    while i < |lines|
      invariant 0 <= i <= |lines|
      invariant lastTime.value == Reports(Detections(lines[..i], parseDate), handle, start).lastTime
      invariant reported == Reports(Detections(lines[..i], parseDate), handle, start).reported
    {
      var line := lines[i];
      ReadStep(lines, i, handle, parseDate, start);
      if Contains(line, ActorDeathMarker) {
        var event := ParseKillEvent(line, parseDate);
        if event.Some? && event.value.killedPlayer == handle && IsAfter(event.value.timestamp, lastTime.value) {
          reported := reported + [event.value];
          lastTime.value := event.value.timestamp;
        }
      }
      i := i + 1;
    }
    assert lines[..|lines|] == lines;
    outcome := if file.Complete? then Finished else ReadFailed;
  }

  /** What a run of polls reports: each pass starts from the watermark the previous one left. */
  function Scans(files: seq<LogFile>, handle: string, parseDate: DateTimeParser, t: Timestamp): Watch
    decreases |files|
  {
    if files == [] then Watch(t, [])
    else
      var before := Scans(files[..|files| - 1], handle, parseDate, t);
      var pass := Reports(Detections(ReadLines(files[|files| - 1]), parseDate), handle, before.lastTime);
      Watch(pass.lastTime, before.reported + pass.reported)
  }

  /** All lines the polls read, in reading order. */
  function AllLines(files: seq<LogFile>): seq<string>
  {
    if files == [] then [] else AllLines(files[..|files| - 1]) + ReadLines(files[|files| - 1])
  }

  /** A run of polls reports what one pass over everything they read reports. */
  lemma {:induction false} ScansAreOnePass(files: seq<LogFile>, handle: string, parseDate: DateTimeParser, t: Timestamp)
    ensures Scans(files, handle, parseDate, t) == Reports(Detections(AllLines(files), parseDate), handle, t)
    decreases |files|
  {
    if files != [] {
      var prefix := files[..|files| - 1];
      ScansAreOnePass(prefix, handle, parseDate, t);
      DetectionsAppend(AllLines(prefix), ReadLines(files[|files| - 1]), parseDate);
      ReportsAppend(Detections(AllLines(prefix), parseDate), Detections(ReadLines(files[|files| - 1]), parseDate), handle, t);
    }
  }

  /**
   * Across any run of polls, reported timestamps strictly increase and are all after the
   * starting watermark, so no event at or before an already reported time is shown again,
   * whatever its other fields.
   */
  lemma ScansStrictlyIncrease(files: seq<LogFile>, handle: string, parseDate: DateTimeParser, t: Timestamp)
    ensures var r := Scans(files, handle, parseDate, t).reported;
            (forall i, j :: 0 <= i < j < |r| ==> IsAfter(r[j].timestamp, r[i].timestamp)) &&
            (forall i :: 0 <= i < |r| ==> r[i].killedPlayer == handle && IsAfter(r[i].timestamp, t))
  {
    ScansAreOnePass(files, handle, parseDate, t);
    WatermarkAdvances(Detections(AllLines(files), parseDate), handle, t);
  }

  /** When the file only grows between two polls, the second reports only from the new lines. */
  lemma GrowingFileReportsOnlyNewLines(old_lines: seq<string>, new_lines: seq<string>, handle: string,
                                       parseDate: DateTimeParser, t: Timestamp)
    ensures var first := Reports(Detections(old_lines, parseDate), handle, t);
            Reports(Detections(old_lines + new_lines, parseDate), handle, first.lastTime) ==
              Reports(Detections(new_lines, parseDate), handle, first.lastTime)
  {
    var a := Detections(old_lines, parseDate);
    var b := Detections(new_lines, parseDate);
    var first := Reports(a, handle, t);
    DetectionsAppend(old_lines, new_lines, parseDate);
    ReportsAppend(a, b, handle, first.lastTime);
    RescanReportsNothing(a, handle, t);
  }

  datatype ScanOutcome =
    | NoLogPath   // "No log file path specified!": the process exits
    | NoHandle    // "No handle specified!": the process exits
    | Interrupted(reported: seq<KillEvent>, lastTime: Timestamp)  // the sleep between polls was interrupted

  /** Whether `startScan` runs its polls, from the path of the selected channel and the handle. */
  function StartCheck(c: Config): Option<ScanOutcome>
  {
    if PathFor(c.selectedChannel, c) == "" then Some(NoLogPath)
    else if c.handle == "" then Some(NoHandle)
    else None
  }

  /**
   * `startScan`: check the path of the selected channel, then the handle, then poll. The
   * watermark starts one year before `now`; `polls` are the file contents each poll reads
   * at that path before the thread is interrupted.
   */
  method StartScan(settings: SettingsData, now: Timestamp, minusOneYear: Timestamp -> Timestamp,
                   polls: seq<LogFile>, parseDate: DateTimeParser)
    returns (outcome: ScanOutcome)
    ensures StartCheck(settings.Snapshot()).Some? ==> outcome == StartCheck(settings.Snapshot()).value
    ensures StartCheck(settings.Snapshot()).None? ==>
              var w := Scans(polls, settings.handle, parseDate, minusOneYear(now));
              outcome == Interrupted(w.reported, w.lastTime)
  {
    var selectedPathValue := PathFor(settings.selectedChannel, settings.Snapshot());
    if selectedPathValue == "" {
      return NoLogPath;
    }
    if settings.handle == "" {
      return NoHandle;
    }
    var lastTime := new Watermark(minusOneYear(now));
    var reported: seq<KillEvent> := [];
    for i := 0 to |polls|
      invariant Watch(lastTime.value, reported) == Scans(polls[..i], settings.handle, parseDate, minusOneYear(now))
    {
      assert polls[..i + 1][..i] == polls[..i];
      var _, found := ExtractKillEvents(polls[i], settings.handle, parseDate, lastTime);
      reported := reported + found;
    }
    assert polls[..|polls|] == polls;
    outcome := Interrupted(reported, lastTime.value);
  }
}
