/**
 * The newest extraction pass: read the game log line by line, parse every `<Actor Death>`
 * line, prepend each event for the configured handle that the caller's list does not yet
 * hold, write it to the session file, and finally sort the list newest first.
 */
module KillEventExtractor {
  import opened Wrappers
  import opened Time
  import opened Tokenizer
  import opened KillLog

  /** The event as the extractor constructs it: seven components, all of which take part in equality. */
  datatype KillEvent = KillEvent(
    timestamp: Timestamp,
    killedPlayer: string,
    killer: string,
    weapon: string,
    weaponClass: string,
    damageType: string,
    zone: string)

  /**
   * `parseKillEvent`: the line yields an event exactly when its timestamp span exists and
   * parses as an ISO date-time; the other fields are whatever the tokenizer finds, "" when
   * a token is missing.
   */
  function ParseKillEvent(line: string, parseDate: DateTimeParser): (r: Option<KillEvent>)
    ensures r.Some? <==> TimestampText(line).Some? && parseDate(TimestampText(line).value).Some?
    ensures r.Some? ==> r.value.timestamp == parseDate(TimestampText(line).value).value
  {
    match TimestampText(line)
    case None => None
    case Some(text) =>
      match parseDate(text)
      case None => None
      case Some(t) =>
        Some(KillEvent(
          t,
          ExtractValue(line, KilledPlayerToken, QuoteToken),
          ExtractValue(line, KillerToken, QuoteToken),
          ExtractValue(line, WeaponToken, QuoteToken),
          ExtractValue(line, WeaponClassToken, ClassEndToken),
          ExtractValue(line, DamageTypeToken, QuoteToken),
          ExtractValue(line, ZoneToken, QuoteToken)))
  }

  /**
   * A missing field token never makes the line fail: with a readable timestamp the event
   * is produced, and each of the six text fields whose start token is absent is empty.
   */
  lemma MissingFieldIsEmpty(line: string, parseDate: DateTimeParser)
    requires TimestampText(line).Some? && parseDate(TimestampText(line).value).Some?
    ensures ParseKillEvent(line, parseDate).Some?
    ensures Absent(line, KilledPlayerToken, 0) ==> ParseKillEvent(line, parseDate).value.killedPlayer == ""
    ensures Absent(line, ZoneToken, 0) ==> ParseKillEvent(line, parseDate).value.zone == ""
    ensures Absent(line, KillerToken, 0) ==> ParseKillEvent(line, parseDate).value.killer == ""
    ensures Absent(line, WeaponToken, 0) ==> ParseKillEvent(line, parseDate).value.weapon == ""
    ensures Absent(line, WeaponClassToken, 0) ==> ParseKillEvent(line, parseDate).value.weaponClass == ""
    ensures Absent(line, DamageTypeToken, 0) ==> ParseKillEvent(line, parseDate).value.damageType == ""
  {
  }

  /** A marker line whose first `>` comes before its first `<` yields nothing. */
  lemma BracketsOutOfOrderFail(line: string, parseDate: DateTimeParser, open: int, close: int)
    requires FirstAt(line, "<", 0, open) && FirstAt(line, ">", 0, close) && close < open
    ensures ParseKillEvent(line, parseDate) == None
  {
  }

  /** The event a line yields in the pass: only lines holding the marker are parsed. */
  function Detected(line: string, parseDate: DateTimeParser): Option<KillEvent>
  {
    if IsKillLine(line) then ParseKillEvent(line, parseDate) else None
  }

  /** What each line of the file yields, line by line. */
  function Detections(lines: seq<string>, parseDate: DateTimeParser): (d: seq<Option<KillEvent>>)
    ensures |d| == |lines|
    ensures forall k :: 0 <= k < |lines| ==> d[k] == Detected(lines[k], parseDate)
  {
    if lines == [] then [] else Detections(lines[..|lines| - 1], parseDate) + [Detected(lines[|lines| - 1], parseDate)]
  }

  lemma DetectionsStep(lines: seq<string>, i: nat, parseDate: DateTimeParser)
    requires i < |lines|
    ensures Detections(lines[..i + 1], parseDate) == Detections(lines[..i], parseDate) + [Detected(lines[i], parseDate)]
  {
    assert lines[..i + 1][..i] == lines[..i];
  }

  /** The event a detection adds to the list `events`: one for the handle that the list does not already contain. */
  function Admitted(events: seq<KillEvent>, found: Option<KillEvent>, handle: string): Option<KillEvent>
  {
    if found.Some? && found.value.killedPlayer == handle && found.value !in events then found else None
  }

  /** The list after the lines yielding `found` have been read, before the sort. */
  function Collect(events: seq<KillEvent>, found: seq<Option<KillEvent>>, handle: string): seq<KillEvent>
    decreases |found|
  {
    if found == [] then events
    else
      var before := Collect(events, found[..|found| - 1], handle);
      match Admitted(before, found[|found| - 1], handle)
      case Some(e) => [e] + before
      case None => before
  }

  /** The events added while reading, in the order they were found (and written). */
  function Added(events: seq<KillEvent>, found: seq<Option<KillEvent>>, handle: string): seq<KillEvent>
    decreases |found|
  {
    if found == [] then []
    else
      var before := Collect(events, found[..|found| - 1], handle);
      var added := Added(events, found[..|found| - 1], handle);
      match Admitted(before, found[|found| - 1], handle)
      case Some(e) => added + [e]
      case None => added
  }

  function Reversed(s: seq<KillEvent>): (r: seq<KillEvent>)
    ensures multiset(r) == multiset(s)
  {
    if s == [] then []
    else
      assert s == s[..|s| - 1] + [s[|s| - 1]];
      [s[|s| - 1]] + Reversed(s[..|s| - 1])
  }

  lemma ReversedSnoc(s: seq<KillEvent>, e: KillEvent)
    ensures Reversed(s + [e]) == [e] + Reversed(s)
  {
    assert (s + [e])[..|s|] == s;
  }

  predicate Distinct(s: seq<KillEvent>)
  {
    forall i, j :: 0 <= i < j < |s| ==> s[i] != s[j]
  }

  // ---------------------------------------------------------------------------------------
  // The final sort: `killEvents.sort(Comparator.comparing(KillEvent::timestamp, Comparator.reverseOrder()))`,
  // a stable sort on the timestamp, newest first.

  predicate NewestFirst(s: seq<KillEvent>)
  {
    forall i, j :: 0 <= i < j < |s| ==> NotLater(s[j].timestamp, s[i].timestamp)
  }

  /** Insert `e` in front of the first element that is not later than it. */
  function Insert(e: KillEvent, s: seq<KillEvent>): (r: seq<KillEvent>)
    ensures multiset(r) == multiset(s) + multiset{e}
  {
    if s == [] || NotLater(s[0].timestamp, e.timestamp) then [e] + s
    else
      assert s == [s[0]] + s[1..];
      [s[0]] + Insert(e, s[1..])
  }

  lemma {:induction false} InsertSorted(e: KillEvent, s: seq<KillEvent>)
    requires NewestFirst(s)
    ensures NewestFirst(Insert(e, s))
  {
    if s != [] && !NotLater(s[0].timestamp, e.timestamp) {
      var rest := Insert(e, s[1..]);
      InsertSorted(e, s[1..]);
      forall j | 0 <= j < |rest|
        ensures NotLater(rest[j].timestamp, s[0].timestamp)
      {
        assert rest[j] in multiset(rest);
        if rest[j] != e {
          assert rest[j] in multiset(s[1..]);
          var k :| 0 <= k < |s[1..]| && s[1..][k] == rest[j];
          assert s[k + 1] == rest[j];
        }
      }
    }
  }

  /** The stable sort, newest first: a permutation of the input, ordered by timestamp. */
  function SortNewestFirst(s: seq<KillEvent>): (r: seq<KillEvent>)
    ensures multiset(r) == multiset(s)
    ensures NewestFirst(r)
  {
    if s == [] then []
    else
      assert s == [s[0]] + s[1..];
      var rest := SortNewestFirst(s[1..]);
      InsertSorted(s[0], rest);
      Insert(s[0], rest)
  }

  /** The events of `s` carrying exactly timestamp `t`, in their order in `s`. */
  function WithTimestamp(s: seq<KillEvent>, t: Timestamp): seq<KillEvent>
  {
    if s == [] then []
    else (if s[0].timestamp == t then [s[0]] else []) + WithTimestamp(s[1..], t)
  }

  lemma {:induction false} InsertStable(e: KillEvent, s: seq<KillEvent>, t: Timestamp)
    ensures WithTimestamp(Insert(e, s), t) == (if e.timestamp == t then [e] else []) + WithTimestamp(s, t)
  {
    if s == [] || NotLater(s[0].timestamp, e.timestamp) {
      assert ([e] + s)[1..] == s;
    } else {
      InsertStable(e, s[1..], t);
      assert s[0].timestamp != e.timestamp;
      assert ([s[0]] + Insert(e, s[1..]))[1..] == Insert(e, s[1..]);
    }
  }

  /** The sort is stable: events with the same timestamp keep their relative order. */
  lemma {:induction false} SortIsStable(s: seq<KillEvent>, t: Timestamp)
    ensures WithTimestamp(SortNewestFirst(s), t) == WithTimestamp(s, t)
  {
    if s != [] {
      SortIsStable(s[1..], t);
      InsertStable(s[0], SortNewestFirst(s[1..]), t);
    }
  }

  /** Sorting a list that is already newest first leaves it as it is. */
  lemma {:induction false} SortKeepsSorted(s: seq<KillEvent>)
    requires NewestFirst(s)
    ensures SortNewestFirst(s) == s
  {
    if s != [] {
      SortKeepsSorted(s[1..]);
      assert s == [s[0]] + s[1..];
    }
  }

  // ---------------------------------------------------------------------------------------
  // One pass over the file.

  /** The caller's list after one call, by what could be read of the file. */
  function PassResult(events: seq<KillEvent>, file: LogFile, handle: string, parseDate: DateTimeParser): seq<KillEvent>
  {
    match file
    case Missing => events
    case Complete(lines) => SortNewestFirst(Collect(events, Detections(lines, parseDate), handle))
    case BrokenAfter(lines) => Collect(events, Detections(lines, parseDate), handle)
  }

  /** The added events are prepended: the newest find sits at the front, the old list at the back. */
  lemma {:induction false} CollectShape(events: seq<KillEvent>, found: seq<Option<KillEvent>>, handle: string)
    ensures Collect(events, found, handle) == Reversed(Added(events, found, handle)) + events
    decreases |found|
  {
    if found != [] {
      var prefix := found[..|found| - 1];
      CollectShape(events, prefix, handle);
      match Admitted(Collect(events, prefix, handle), found[|found| - 1], handle)
      case Some(e) =>
        ReversedSnoc(Added(events, prefix, handle), e);
      case None =>
    }
  }

  /** Nothing is dropped: the list only grows while the file is read. */
  lemma {:induction false} CollectKeeps(events: seq<KillEvent>, found: seq<Option<KillEvent>>, handle: string, e: KillEvent)
    requires e in events
    ensures e in Collect(events, found, handle)
    decreases |found|
  {
    if found != [] {
      CollectKeeps(events, found[..|found| - 1], handle, e);
    }
  }

  /** What was added is new, belongs to the handle and was read from the file. */
  lemma {:induction false} AddedSound(events: seq<KillEvent>, found: seq<Option<KillEvent>>, handle: string, e: KillEvent)
    requires e in Added(events, found, handle)
    ensures e !in events && e.killedPlayer == handle && Some(e) in found
    decreases |found|
  {
    var n := |found| - 1;
    var prefix := found[..n];
    if e in Added(events, prefix, handle) {
      AddedSound(events, prefix, handle, e);
      assert Some(e) in found by { assert found == prefix + [found[n]]; }
    } else {
      assert found[n] == Some(e);
      assert e !in Collect(events, prefix, handle);
      if e in events {
        CollectKeeps(events, prefix, handle, e);
      }
    }
  }

  /** Every new event of the handle that the file yields is added. */
  lemma {:induction false} AddedComplete(events: seq<KillEvent>, found: seq<Option<KillEvent>>, handle: string, e: KillEvent)
    requires e !in events && e.killedPlayer == handle && Some(e) in found
    ensures e in Added(events, found, handle)
    decreases |found|
  {
    var n := |found| - 1;
    var prefix := found[..n];
    var added := Added(events, prefix, handle);
    if found[n] != Some(e) {
      assert found == prefix + [found[n]];
      AddedComplete(events, prefix, handle, e);
    } else if e !in added {
      CollectShape(events, prefix, handle);
      assert e !in multiset(Reversed(added));
    }
  }

  /**
   * An event is added exactly when it is new to the list, belongs to the handle and some
   * line of the file yields it.
   */
  lemma AddedExactly(events: seq<KillEvent>, found: seq<Option<KillEvent>>, handle: string, e: KillEvent)
    ensures e in Added(events, found, handle) <==> e !in events && e.killedPlayer == handle && Some(e) in found
  {
    if e in Added(events, found, handle) {
      AddedSound(events, found, handle, e);
    }
    if e !in events && e.killedPlayer == handle && Some(e) in found {
      AddedComplete(events, found, handle, e);
    }
  }

  /** A line yields an event exactly when it holds the marker and parses. */
  lemma DetectionsOfLines(lines: seq<string>, parseDate: DateTimeParser, e: KillEvent)
    ensures Some(e) in Detections(lines, parseDate) <==>
              exists k :: 0 <= k < |lines| && IsKillLine(lines[k]) && ParseKillEvent(lines[k], parseDate) == Some(e)
  {
    var d := Detections(lines, parseDate);
    if Some(e) in d {
      var k :| 0 <= k < |d| && d[k] == Some(e);
      assert IsKillLine(lines[k]) && ParseKillEvent(lines[k], parseDate) == Some(e);
    }
  }

  /** A list without duplicates keeps none: the pass never adds an event twice. */
  lemma {:induction false} CollectDistinct(events: seq<KillEvent>, found: seq<Option<KillEvent>>, handle: string)
    requires Distinct(events)
    ensures Distinct(Collect(events, found, handle))
    decreases |found|
  {
    if found != [] {
      var prefix := found[..|found| - 1];
      CollectDistinct(events, prefix, handle);
      var before := Collect(events, prefix, handle);
      match Admitted(before, found[|found| - 1], handle)
      case Some(e) =>
        var r := [e] + before;
        forall i, j | 0 <= i < j < |r| ensures r[i] != r[j] {
          if i > 0 {
            assert r[i] == before[i - 1] && r[j] == before[j - 1];
          } else {
            assert r[j] in before;
          }
        }
      case None =>
    }
  }

  /** A list without duplicates holds each event at most once, counted as a multiset. */
  lemma {:induction false} DistinctCounts(s: seq<KillEvent>)
    requires Distinct(s)
    ensures forall x :: multiset(s)[x] <= 1
  {
    if s != [] {
      var t := s[1..];
      assert Distinct(t) by {
        forall i, j | 0 <= i < j < |t| ensures t[i] != t[j] {
          assert t[i] == s[i + 1] && t[j] == s[j + 1];
        }
      }
      DistinctCounts(t);
      forall k | 0 <= k < |t| ensures t[k] != s[0] {
        assert t[k] == s[k + 1];
      }
      assert s == [s[0]] + t;
      assert multiset(s) == multiset{s[0]} + multiset(t);
    }
  }

  /** A list holding each event at most once, counted as a multiset, has no duplicates. */
  lemma {:induction false} CountsDistinct(s: seq<KillEvent>)
    requires forall x :: multiset(s)[x] <= 1
    ensures Distinct(s)
  {
    if s != [] {
      var t := s[1..];
      assert s == [s[0]] + t;
      assert multiset(s) == multiset{s[0]} + multiset(t);
      assert forall x :: multiset(t)[x] <= multiset(s)[x];
      CountsDistinct(t);
      assert s[0] !in multiset(t);
      forall i, j | 0 <= i < j < |s| ensures s[i] != s[j] {
        assert s[j] == t[j - 1];
        if i > 0 {
          assert s[i] == t[i - 1];
        } else {
          assert t[j - 1] in multiset(t);
        }
      }
    }
  }

  /**
   * The list `extractKillEvents` leaves holds no event twice, whatever the outcome: the
   * `contains` check keeps the collected list free of duplicates, and the sort only permutes it.
   */
  lemma PassResultDistinct(events: seq<KillEvent>, file: LogFile, handle: string, parseDate: DateTimeParser)
    requires Distinct(events)
    ensures Distinct(PassResult(events, file, handle, parseDate))
  {
    match file
    case Missing =>
    case BrokenAfter(lines) =>
      CollectDistinct(events, Detections(lines, parseDate), handle);
    case Complete(lines) =>
      var c := Collect(events, Detections(lines, parseDate), handle);
      CollectDistinct(events, Detections(lines, parseDate), handle);
      DistinctCounts(c);
      CountsDistinct(SortNewestFirst(c));
  }

  /** Every event of the handle the file yields is in the list once the file has been read. */
  lemma {:induction false} CollectCovers(events: seq<KillEvent>, found: seq<Option<KillEvent>>, handle: string, e: KillEvent)
    requires Some(e) in found && e.killedPlayer == handle
    ensures e in Collect(events, found, handle)
    decreases |found|
  {
    var n := |found| - 1;
    var prefix := found[..n];
    if found[n] != Some(e) {
      assert found == prefix + [found[n]];
      CollectCovers(events, prefix, handle, e);
    }
  }

  /** When the list already holds every event of the handle the file yields, reading it changes nothing. */
  lemma {:induction false} CollectSaturated(events: seq<KillEvent>, found: seq<Option<KillEvent>>, handle: string)
    requires forall e: KillEvent :: Some(e) in found && e.killedPlayer == handle ==> e in events
    ensures Collect(events, found, handle) == events
    ensures Added(events, found, handle) == []
    decreases |found|
  {
    if found != [] {
      var prefix := found[..|found| - 1];
      assert found == prefix + [found[|found| - 1]];
      CollectSaturated(events, prefix, handle);
    }
  }

  /** Lines without the `<Actor Death>` marker never change the list, whatever they contain. */
  lemma NonMarkerLinesIgnored(events: seq<KillEvent>, lines: seq<string>, handle: string, parseDate: DateTimeParser)
    requires forall k :: 0 <= k < |lines| ==> !IsKillLine(lines[k])
    ensures Collect(events, Detections(lines, parseDate), handle) == events
    ensures Added(events, Detections(lines, parseDate), handle) == []
  {
    CollectSaturated(events, Detections(lines, parseDate), handle);
  }

  /** After a complete pass the list is newest first and holds exactly the old events plus the added ones. */
  lemma PassSortedPermutation(events: seq<KillEvent>, lines: seq<string>, handle: string, parseDate: DateTimeParser)
    ensures var r := PassResult(events, Complete(lines), handle, parseDate);
            NewestFirst(r) && multiset(r) == multiset(events) + multiset(Added(events, Detections(lines, parseDate), handle))
  {
    CollectShape(events, Detections(lines, parseDate), handle);
  }

  /** A second complete pass over the same file adds nothing, writes nothing and leaves the list as it was. */
  lemma SecondPassChangesNothing(events: seq<KillEvent>, lines: seq<string>, handle: string, parseDate: DateTimeParser)
    ensures var first := PassResult(events, Complete(lines), handle, parseDate);
            PassResult(first, Complete(lines), handle, parseDate) == first &&
            Added(first, Detections(lines, parseDate), handle) == []
  {
    var d := Detections(lines, parseDate);
    var first := SortNewestFirst(Collect(events, d, handle));
    forall e: KillEvent | Some(e) in d && e.killedPlayer == handle ensures e in first {
      CollectCovers(events, d, handle, e);
      assert e in multiset(first);
    }
    CollectSaturated(first, d, handle);
    SortKeepsSorted(first);
  }

  /** The caller's `List<KillEvent>`, changed in place by the pass. */
  class EventList {
    var elements: seq<KillEvent>

    constructor (elements: seq<KillEvent>)
      ensures this.elements == elements
    {
      this.elements := elements;
    }
  }

  /** One `writeKillEventToFile(event, tag)` call. */
  datatype SessionWrite = SessionWrite(event: KillEvent, sessionTag: string)

  /** The session output file, as the sequence of writes made to it. */
  class SessionFile {
    ghost var writes: seq<SessionWrite>

    constructor ()
      ensures writes == []
    {
      writes := [];
    }
  }

  function WritesOf(events: seq<KillEvent>, sessionTag: string): (w: seq<SessionWrite>)
    ensures |w| == |events|
    ensures forall i :: 0 <= i < |w| ==> w[i] == SessionWrite(events[i], sessionTag)
  {
    if events == [] then [] else WritesOf(events[..|events| - 1], sessionTag) + [SessionWrite(events[|events| - 1], sessionTag)]
  }

  /** Writing one more event after `earlier` writes and the writes of `events`. */
  lemma WritesOfSnoc(earlier: seq<SessionWrite>, events: seq<KillEvent>, e: KillEvent, sessionTag: string)
    ensures earlier + WritesOf(events, sessionTag) + [SessionWrite(e, sessionTag)] == earlier + WritesOf(events + [e], sessionTag)
  {
    assert (events + [e])[..|events|] == events;
  }

  datatype PassOutcome =
    | Finished    // the file was read to the end, or it was not found (logged and swallowed)
    | ReadFailed  // an `IOException` other than `FileNotFoundException` left the method

  /** Reading the line that yields `found[i]`: the list and the added events grow by what it admits. */
  lemma ReadStep(events: seq<KillEvent>, found: seq<Option<KillEvent>>, i: nat, handle: string)
    requires i < |found|
    ensures var before := Collect(events, found[..i], handle);
            var admitted := Admitted(before, found[i], handle);
            Collect(events, found[..i + 1], handle) ==
              (if admitted.Some? then [admitted.value] + before else before) &&
            Added(events, found[..i + 1], handle) ==
              Added(events, found[..i], handle) + (if admitted.Some? then [admitted.value] else [])
  {
    assert found[..i + 1][..i] == found[..i];
  }

  /** One line of the reading loop: a marker line is parsed, and a new event of the handle is prepended and written. */
  method ReadLine(killEvents: EventList, line: string, handle: string, parseDate: DateTimeParser,
                  sessionTag: string, session: SessionFile)
    modifies killEvents, session
    ensures var admitted := Admitted(old(killEvents.elements), Detected(line, parseDate), handle);
            if admitted.Some? then
              killEvents.elements == [admitted.value] + old(killEvents.elements) &&
              session.writes == old(session.writes) + [SessionWrite(admitted.value, sessionTag)]
            else
              killEvents.elements == old(killEvents.elements) && session.writes == old(session.writes)
  {
    if Contains(line, ActorDeathMarker) {
      var event := ParseKillEvent(line, parseDate);
      if event.Some? && event.value.killedPlayer == handle && event.value !in killEvents.elements {
        killEvents.elements := [event.value] + killEvents.elements;
        session.writes := session.writes + [SessionWrite(event.value, sessionTag)];
      }
    }
  }

  /** The reading loop of `extractKillEvents`: prepend and write every new event of the handle. */
  method ReadKillEvents(killEvents: EventList, lines: seq<string>, handle: string, parseDate: DateTimeParser,
                        sessionTag: string, session: SessionFile)
    modifies killEvents, session
    ensures killEvents.elements == Collect(old(killEvents.elements), Detections(lines, parseDate), handle)
    ensures session.writes == old(session.writes) +
              WritesOf(Added(old(killEvents.elements), Detections(lines, parseDate), handle), sessionTag)
  {
    ghost var initial := killEvents.elements;
    ghost var found := Detections(lines, parseDate);
    ghost var added: seq<KillEvent> := [];
    var i := 0;
    while i < |lines|
      invariant 0 <= i <= |lines|
      invariant killEvents.elements == Collect(initial, found[..i], handle)
      invariant added == Added(initial, found[..i], handle)
      invariant session.writes == old(session.writes) + WritesOf(added, sessionTag)
    {
      ghost var admitted := Admitted(killEvents.elements, found[i], handle);
      ReadStep(initial, found, i, handle);
      assert found[i] == Detected(lines[i], parseDate);
      ReadLine(killEvents, lines[i], handle, parseDate, sessionTag, session);
      if admitted.Some? {
        WritesOfSnoc(old(session.writes), added, admitted.value, sessionTag);
        added := added + [admitted.value];
      }
      i := i + 1;
    }
    assert found[..|lines|] == found;
  }

  /**
   * `extractKillEvents(killEvents, inputFilePath, scanStartTime)`. Every write carries the
   * same session tag, formatted from `scanStartTime` with the pattern `yyMMdd-HHmmss`.
   */
  method ExtractKillEvents(killEvents: EventList, file: LogFile, handle: string, scanStartTime: Timestamp,
                           parseDate: DateTimeParser, sessionTagFormat: DateFormatter, session: SessionFile)
    returns (outcome: PassOutcome)
    modifies killEvents, session
    ensures outcome == if file.BrokenAfter? then ReadFailed else Finished
    ensures killEvents.elements == PassResult(old(killEvents.elements), file, handle, parseDate)
    ensures session.writes == old(session.writes) +
              WritesOf(Added(old(killEvents.elements), Detections(ReadLines(file), parseDate), handle),
                       sessionTagFormat(LocalNanos(scanStartTime)))
  {
    var sessionTag := sessionTagFormat(LocalNanos(scanStartTime));
    ReadKillEvents(killEvents, ReadLines(file), handle, parseDate, sessionTag, session);
    if file.Complete? {
      killEvents.elements := SortNewestFirst(killEvents.elements);
    }
    outcome := if file.BrokenAfter? then ReadFailed else Finished;
  }
}
