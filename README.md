# SC Kill Monitor, modelled in Dafny

SC Kill Monitor watches the Star Citizen game log for `<Actor Death>` lines. It parses each
such line into a kill event and shows the events in which the configured player handle was
killed. Two generations of the application live side by side in the repository: the older
`de.greluc.sc.sckillmonitor` package and the newer `de.greluc.sc.sckm` package. This project
models the core of both:

- **Kill-line parsing** (`KillLog`, `Tokenizer`). The marker test, the timestamp span between
  the first `<` and the first `>`, and `extractValue`, which returns the text between a start
  token and the next end token.
- **The batch extractor** (`KillEventExtractor`). One pass over a log file reads it line by
  line. It prepends to the caller's list every event of the handle that the list does not
  already contain, and writes each such event to the session file. After a complete read it
  sorts the list newest first, with a stable sort.
- **The live scan screens** (`ScanView`, `LegacyScanView`). `startScan` checks the path of
  the selected channel and the handle. It then polls the log, reporting each event of the
  handle whose timestamp is after a watermark, and moves the watermark forward.
- **The kill events** (`KillEventRecord`, `LegacyKillEvent`, `EventText`). The newer record
  compares by value. The older class compares by identity. Both render as a six-line text.
- **The settings store** (`Settings`, `Channels`). The paths per channel, the custom path, the
  handle, the scan interval and the selected channel, with listeners that every setter
  notifies.
- **Persistence** (`SettingsStore`, `LegacySettingsStore`, `Preferences`, `JavaInt`). The
  settings handlers write the store to a preferences node and read it back, parsing the
  interval as `Integer.parseInt` does.
- **The start screens** (`StartView`, `LegacyStartView`). The input checks of the start
  button, the channel picker and the path label kept current through the settings listener.

Java's static state becomes objects:

- the static `SettingsData` fields become one `Settings.SettingsData` object passed to each
  operation;
- an `AtomicReference<ZonedDateTime>` becomes `ScanView.Watermark`;
- the caller's `List<KillEvent>` becomes `KillEventExtractor.EventList`;
- the preferences node becomes `Preferences.PreferencesNode`.

Listener calls and session-file writes are recorded in ghost sequences (`notified`,
`writes`), so contracts can state who was told what and in which order.

Three pieces of the Java library are parameters: the ISO date-time parser
(`DateTimeParser`), the date formatters (`DateFormatter`) and `minusYears(1)`. A
`ZonedDateTime` is an instant in nanoseconds plus a UTC offset in seconds (`Time.Timestamp`):

- `isAfter` compares the instants only;
- `compareTo`, which the sort uses, compares the instants and then the local date-time.

A read of the log file is a `KillLog.LogFile`: missing, read to the end, or broken by an
`IOException` after some lines.

Source notes, where the code is followed rather than its documentation:

- The timestamp span uses `indexOf('<') + 1`. A line without `<` therefore starts the span at
  index 0 rather than failing. Only a missing `>`, or a `>` before the first `<`, makes the
  parse fail (`KillLog.TimestampText`).
- Both settings handlers load `pathPtu` from the `PATH_EPTU` key with the EPTU default. A
  saved PTU path therefore never comes back (`SettingsStore.SaveThenLoad`).
- The newer extractor builds its event from seven values, including the weapon class
  between `[Class ` and `]`. The newer `KillEvent` record declares six components. The
  extractor's event is modelled with the seven values it is built from
  (`KillEventExtractor.KillEvent`). The newer scan screen uses the six-component record.
- `src/main/java/de/greluc/sc/sckm/settings/SettingsHandler.java` declares the package
  `de.greluc.sc.sckillmonitor.settings` (line 21). It therefore writes the same static
  `SettingsData` that the older classes use. The newer `SettingsData` is not part of the
  repository files this model draws on. Both generations share the one `Settings.SettingsData`
  class, modelled on
  `src/main/java/de/greluc/sc/sckillmonitor/settings/SettingsData.java`.
- The newer `ScanViewController` uses `AtomicReference` without importing it. The model
  treats it as `java.util.concurrent.atomic.AtomicReference`.
- The newer start screen stores the handle before it parses the interval. An invalid
  interval therefore leaves the new handle in the settings and its listeners notified. The
  older screen does the same, but its `NumberFormatException` escapes the handler.

## Model

| member | source | states |
|---|---|---|
| KillLog.TimestampText | src/main/java/de/greluc/sc/sckm/data/KillEventExtractor.java:103 | No `>` gives failure. With first `<` at i and first `>` at j, the span is `line[i+1..j]` when i < j and failure otherwise. Without `<` it is `line[..j]`. |
| KillLog.KillLineHasBrackets | src/main/java/de/greluc/sc/sckm/data/KillEventExtractor.java:66 | A line containing `<Actor Death>` contains both `<` and `>`. |
| Tokenizer.IndexOf | src/main/java/de/greluc/sc/sckm/data/KillEventExtractor.java:138-143 | `indexOf(token, from)`: -1 exactly when the token does not occur at or after `from`, otherwise the first occurrence at or after `from`. |
| Tokenizer.ContainsMeansOccurs | src/main/java/de/greluc/sc/sckm/data/KillEventExtractor.java:66 | `contains` holds exactly when the token occurs somewhere in the text. |
| Tokenizer.ExtractValue | src/main/java/de/greluc/sc/sckm/data/KillEventExtractor.java:135-147 | Empty when the start token is absent, or the end token is absent after it. Otherwise it is the text between the first start token and the next end token. The result never contains a non-empty end token. |
| Tokenizer.ExtractValueRoundTrip | src/main/java/de/greluc/sc/sckm/data/KillEventExtractor.java:135-147 | Framing a value with the start and end tokens and extracting it gives the value back. This needs no earlier start token and no end token inside the value. |
| Tokenizer.ExtractValueExample | src/main/java/de/greluc/sc/sckm/data/KillEventExtractor.java:108 | The weapon-class tokens extract `B` from `A[Class B]C`. |
| KillEventExtractor.ParseKillEvent | src/main/java/de/greluc/sc/sckm/data/KillEventExtractor.java:101-124 | A line yields an event exactly when its timestamp span exists and parses. The event's timestamp is the parsed span. |
| KillEventExtractor.MissingFieldIsEmpty | src/main/java/de/greluc/sc/sckm/data/KillEventExtractor.java:104-109 | A missing field token does not fail the parse: with a readable timestamp the event is built, and each of the six text fields (killed player, zone, killer, weapon, weapon class, damage type) whose start token is absent is the empty string. |
| KillEventExtractor.BracketsOutOfOrderFail | src/main/java/de/greluc/sc/sckm/data/KillEventExtractor.java:103 | A line whose first `>` precedes its first `<` yields no event (the `substring` exception is caught). |
| KillEventExtractor.Detections | src/main/java/de/greluc/sc/sckm/data/KillEventExtractor.java:64-67 | Line k of the file yields an event only when it contains the marker and parses, and then yields exactly that event. |
| KillEventExtractor.DetectionsOfLines | src/main/java/de/greluc/sc/sckm/data/KillEventExtractor.java:66-67 | An event is found in the file exactly when some line contains the marker and parses to it. |
| KillEventExtractor.SortNewestFirst | src/main/java/de/greluc/sc/sckm/data/KillEventExtractor.java:82 | The sort by timestamp in reverse order gives a permutation of the list, ordered newest first by `compareTo`. |
| KillEventExtractor.SortIsStable | src/main/java/de/greluc/sc/sckm/data/KillEventExtractor.java:82 | Events with the same timestamp keep their relative order (the list sort is stable). |
| KillEventExtractor.SortKeepsSorted | src/main/java/de/greluc/sc/sckm/data/KillEventExtractor.java:82 | Sorting a list that is already newest first leaves it unchanged. |
| KillEventExtractor.CollectShape | src/main/java/de/greluc/sc/sckm/data/KillEventExtractor.java:70-72 | Before the sort, the list is the added events in reverse order of finding, followed by the old list. |
| KillEventExtractor.CollectKeeps | src/main/java/de/greluc/sc/sckm/data/KillEventExtractor.java:70-72 | No event already in the list is lost. |
| KillEventExtractor.AddedSound | src/main/java/de/greluc/sc/sckm/data/KillEventExtractor.java:70-72 | Every added event belongs to the handle, was not in the list before, and was read from the file. |
| KillEventExtractor.AddedComplete | src/main/java/de/greluc/sc/sckm/data/KillEventExtractor.java:70-72 | Every event of the handle in the file that was not in the list is added. |
| KillEventExtractor.AddedExactly | src/main/java/de/greluc/sc/sckm/data/KillEventExtractor.java:70-72 | An event is added exactly when it is in the file, belongs to the handle and was not in the list (both directions). |
| KillEventExtractor.CollectDistinct | src/main/java/de/greluc/sc/sckm/data/KillEventExtractor.java:71 | A list without duplicates stays without duplicates: the `contains` check stops any event being added twice, even when it appears twice in the file. |
| KillEventExtractor.PassResultDistinct | src/main/java/de/greluc/sc/sckm/data/KillEventExtractor.java:62-86 | A list without duplicates is still without duplicates after `extractKillEvents`, for a missing file, a broken read and a complete read whose sort only reorders it. |
| KillEventExtractor.CollectCovers | src/main/java/de/greluc/sc/sckm/data/KillEventExtractor.java:70-72 | After the pass, every event of the handle in the file is in the list. |
| KillEventExtractor.CollectSaturated | src/main/java/de/greluc/sc/sckm/data/KillEventExtractor.java:71 | When the list already holds every event of the handle in the file, the pass adds and writes nothing. |
| KillEventExtractor.NonMarkerLinesIgnored | src/main/java/de/greluc/sc/sckm/data/KillEventExtractor.java:66 | Lines without `<Actor Death>` never change the list or write anything. |
| KillEventExtractor.PassSortedPermutation | src/main/java/de/greluc/sc/sckm/data/KillEventExtractor.java:62-86 | After a complete read the list is newest first. As a multiset it is exactly the old list plus the added events. |
| KillEventExtractor.SecondPassChangesNothing | src/main/java/de/greluc/sc/sckm/data/KillEventExtractor.java:62-86 | Extracting again from the same file changes nothing and writes nothing: the pass is idempotent. |
| KillEventExtractor.ReadLine | src/main/java/de/greluc/sc/sckm/data/KillEventExtractor.java:66-79 | A line whose admitted event is new and of the handle puts that event at the front of the list and makes one session write. Any other line changes neither. |
| KillEventExtractor.ReadKillEvents | src/main/java/de/greluc/sc/sckm/data/KillEventExtractor.java:64-81 | The reading loop leaves the list as the fold `Collect` over the file's detections. The session writes are the added events in the order they were found, all with one tag. |
| KillEventExtractor.ExtractKillEvents | src/main/java/de/greluc/sc/sckm/data/KillEventExtractor.java:62-86 | The list changes by outcome: a missing file leaves it unchanged; a complete read collects then sorts; a broken read collects without sorting and fails. Writes are tagged with `scanStartTime` in its own offset. |
| Time.LocalOrderOnEqualInstants | src/main/java/de/greluc/sc/sckm/data/KillEventExtractor.java:82 | For equal instants the `compareTo` order is the order of the local date-times. |
| Time.NotLaterTotalOrder | src/main/java/de/greluc/sc/sckm/data/KillEventExtractor.java:82 | The timestamp order used by the sort is reflexive, total, antisymmetric up to equality and transitive. |
| Time.IsAfterImpliesLater | src/main/java/de/greluc/sc/sckm/controller/ScanViewController.java:201 | `isAfter` (instants only) implies being strictly later in the `compareTo` order. |
| EventText.LayoutLines | src/main/java/de/greluc/sc/sckm/data/KillEvent.java:63-69 | The rendered text splits into exactly six lines in the order header, killed player, zone, killer, weapon, damage type, with no trailing break. |
| KillEventRecord.ToStringLines | src/main/java/de/greluc/sc/sckm/data/KillEvent.java:62-70 | `toString` gives six labelled lines, each label followed by its value verbatim, so stripping the label gives the value back. |
| KillEventRecord.ToStringShowsLocalTime | src/main/java/de/greluc/sc/sckm/data/KillEvent.java:63 | The date line depends only on the local date-time of the timestamp. The `UTC` suffix is a literal, not a conversion. |
| LegacyKillEvent.KillEvent.constructor | src/main/java/de/greluc/sc/sckillmonitor/data/KillEvent.java:62-69 | The all-arguments constructor sets each of the six final fields. |
| LegacyKillEvent.ToStringLines | src/main/java/de/greluc/sc/sckillmonitor/data/KillEvent.java:73-79 | `toString` gives six lines starting with `KillEvent at Time `. |
| LegacyKillEvent.BuildTwice | src/main/java/de/greluc/sc/sckillmonitor/data/KillEvent.java:62-63 | Two events built from identical values are not equal, because `equals` is not overridden. |
| ScanView.ParseKillEvent | src/main/java/de/greluc/sc/sckm/controller/ScanViewController.java:235-250 | A line yields an event exactly when its timestamp span exists and parses. The event's timestamp is the parsed span. |
| ScanView.KilledPlayerField | src/main/java/de/greluc/sc/sckm/controller/ScanViewController.java:239 | The killed player is the text between the first `CActor::Kill: '` and the next quote, and it holds no quote. |
| ScanView.Detections | src/main/java/de/greluc/sc/sckm/controller/ScanViewController.java:196-198 | Line k yields an event only when it contains the marker and parses, and then yields exactly that event. |
| ScanView.WatermarkAdvances | src/main/java/de/greluc/sc/sckm/controller/ScanViewController.java:200-214 | Reported events belong to the handle, come from the file and are after the start watermark. Their timestamps strictly increase, and the watermark ends on the last one reported. |
| ScanView.WatermarkBoundsAll | src/main/java/de/greluc/sc/sckm/controller/ScanViewController.java:196-216 | After a pass, no event of the handle in the file is after the watermark, and the watermark never moves back. |
| ScanView.QuietWhenNothingLater | src/main/java/de/greluc/sc/sckm/controller/ScanViewController.java:200-201 | When no event of the handle is after the watermark, a pass reports nothing and keeps the watermark. |
| ScanView.RescanReportsNothing | src/main/java/de/greluc/sc/sckm/controller/ScanViewController.java:193-220 | Re-reading the same file from the watermark a pass left reports nothing. |
| ScanView.ReportsAppend | src/main/java/de/greluc/sc/sckm/controller/ScanViewController.java:196-216 | Reading lines a and then lines b from the watermark a left reports what one pass over a + b reports. |
| ScanView.Watermark.constructor | src/main/java/de/greluc/sc/sckm/controller/ScanViewController.java:163 | The watermark starts at the given time. |
| ScanView.ExtractKillEvents | src/main/java/de/greluc/sc/sckm/controller/ScanViewController.java:193-220 | One pass reports, in file order, the events the `Reports` fold gives, and moves the watermark to where the fold ends. It fails unless the file was read to the end. |
| ScanView.ScansAreOnePass | src/main/java/de/greluc/sc/sckm/controller/ScanViewController.java:164-179 | A run of polls reports what one pass over all the lines they read reports. |
| ScanView.ScansStrictlyIncrease | src/main/java/de/greluc/sc/sckm/controller/ScanViewController.java:163-179 | Across all polls, reported timestamps strictly increase and are all for the handle and after the start watermark, so no event is shown twice. |
| ScanView.GrowingFileReportsOnlyNewLines | src/main/java/de/greluc/sc/sckm/controller/ScanViewController.java:164-179 | When the log only grows between polls, the second poll reports exactly what its new lines alone would report. |
| ScanView.StartScan | src/main/java/de/greluc/sc/sckm/controller/ScanViewController.java:139-180 | `startScan` stops with no-path when the selected channel's path is empty, else with no-handle when the handle is empty. Otherwise it runs the polls from one year before now and reports what `Scans` gives. |
| LegacyScanView.ParseKillEvent | src/main/java/de/greluc/sc/sckillmonitor/controller/ScanViewController.java:165-180 | The older parser yields an event exactly when the newer one does, as a new object with the same six values. |
| LegacyScanView.ReadLine | src/main/java/de/greluc/sc/sckillmonitor/controller/ScanViewController.java:130-150 | A line passing the watermark yields a new event object with the detected values and moves the watermark to its time. Any other line yields nothing and keeps the watermark. |
| LegacyScanView.ExtractKillEvents | src/main/java/de/greluc/sc/sckillmonitor/controller/ScanViewController.java:127-154 | The older pass reports new objects whose values are exactly what the newer pass reports, and moves the watermark the same way. |
| LegacyScanView.StartScan | src/main/java/de/greluc/sc/sckillmonitor/controller/ScanViewController.java:75-116 | The older `startScan` makes the same checks and polls as the newer one, reporting event objects with the same values. |
| Settings.RemoveFirst | src/main/java/de/greluc/sc/sckillmonitor/settings/SettingsData.java:106-108 | `remove` leaves the list unchanged for an unregistered listener and makes it one shorter for a registered one. |
| Settings.RemoveFirstMultiset | src/main/java/de/greluc/sc/sckillmonitor/settings/SettingsData.java:106-108 | Removing a registered listener drops exactly one of its registrations and keeps every other registration. |
| Settings.RemoveFirstAt | src/main/java/de/greluc/sc/sckillmonitor/settings/SettingsData.java:106-108 | Exactly the first registration goes; the rest keep their order. |
| Settings.AddThenRemove | src/main/java/de/greluc/sc/sckillmonitor/settings/SettingsData.java:102-108 | Adding a new listener and removing it restores the list. |
| Settings.AddedTwiceRemovedOnce | src/main/java/de/greluc/sc/sckillmonitor/settings/SettingsData.java:102-108 | A listener added twice is still registered after one removal. |
| Settings.SettingsData.constructor | src/main/java/de/greluc/sc/sckillmonitor/settings/SettingsData.java:36-53 | The store starts with the install paths, empty custom path and handle, interval 1, channel `LIVE` and no listeners. |
| Settings.SettingsData.NotifyListeners | src/main/java/de/greluc/sc/sckillmonitor/settings/SettingsData.java:59 | Every registered listener is told once, in registration order, and nothing else changes. |
| Settings.SettingsData.SetPathLive | src/main/java/de/greluc/sc/sckillmonitor/settings/SettingsData.java:57-60 | Only the live path changes, and every listener is told once. |
| Settings.SettingsData.SetPathPtu | src/main/java/de/greluc/sc/sckillmonitor/settings/SettingsData.java:62-65 | Only the PTU path changes, and every listener is told once. |
| Settings.SettingsData.SetPathEptu | src/main/java/de/greluc/sc/sckillmonitor/settings/SettingsData.java:67-70 | Only the EPTU path changes, and every listener is told once. |
| Settings.SettingsData.SetPathHotfix | src/main/java/de/greluc/sc/sckillmonitor/settings/SettingsData.java:72-75 | Only the hotfix path changes, and every listener is told once. |
| Settings.SettingsData.SetPathTechPreview | src/main/java/de/greluc/sc/sckillmonitor/settings/SettingsData.java:77-80 | Only the tech-preview path changes, and every listener is told once. |
| Settings.SettingsData.SetPathCustom | src/main/java/de/greluc/sc/sckillmonitor/settings/SettingsData.java:82-85 | Only the custom path changes, and every listener is told once. |
| Settings.SettingsData.SetHandle | src/main/java/de/greluc/sc/sckillmonitor/settings/SettingsData.java:87-90 | Only the handle changes, and every listener is told once. |
| Settings.SettingsData.SetInterval | src/main/java/de/greluc/sc/sckillmonitor/settings/SettingsData.java:92-95 | Only the interval changes, and every listener is told once. |
| Settings.SettingsData.SetSelectedChannel | src/main/java/de/greluc/sc/sckillmonitor/settings/SettingsData.java:97-100 | Only the selected channel changes, and every listener is told once. |
| Settings.SettingsData.AddListener | src/main/java/de/greluc/sc/sckillmonitor/settings/SettingsData.java:102-104 | The listener is appended, even if already registered; the values are unchanged and nobody is told. |
| Settings.SettingsData.RemoveListener | src/main/java/de/greluc/sc/sckillmonitor/settings/SettingsData.java:106-108 | The listener list loses its first registration of the listener; the values are unchanged and nobody is told. |
| Settings.RegisteredListenerNotifiedOnce | src/test/java/de/greluc/sc/sckm/settings/SettingsDataTest.java:63-77 | A listener registered around one channel change is told exactly once, the channel is stored, and removing it restores the listener list. |
| Settings.RemovedListenerNotNotified | src/test/java/de/greluc/sc/sckm/settings/SettingsDataTest.java:80-92 | A listener added and removed before a channel change is not told of it. |
| Channels.PathFor | src/main/java/de/greluc/sc/sckm/controller/ScanViewController.java:140-147 | An unlisted channel reads the live path, and the result is always one of the six stored paths. |
| Channels.OwnPathSelected | src/main/java/de/greluc/sc/sckm/controller/StartViewController.java:169-190 | Each of the six channels shows its own path. |
| Channels.ExactSpellingOnly | src/main/java/de/greluc/sc/sckm/Constants.java:41-42 | The match is exact: `custom`, `TECH_PREVIEW` and the empty channel all fall back to the live path. |
| Channels.PathForReadsOnlyItsField | src/main/java/de/greluc/sc/sckm/controller/ScanViewController.java:140-147 | The shown path depends only on the selected channel's own path field. |
| JavaInt.ParseInt | src/main/java/de/greluc/sc/sckm/settings/SettingsHandler.java:126 | `Integer.parseInt` accepts only non-empty text, and unsigned text parses to a non-negative value. |
| JavaInt.InRange | src/main/java/de/greluc/sc/sckm/settings/SettingsHandler.java:126 | A magnitude, negated when signed `-`, is accepted exactly when the result fits in a 32-bit `int` (down to -2^31, up to 2^31 - 1), and the accepted value is that signed magnitude. |
| JavaInt.ParseDigits | src/main/java/de/greluc/sc/sckm/settings/SettingsHandler.java:126 | A non-empty string of digits parses, bare or after `+`, to its value, and after `-` to the negated value, each exactly when the result fits in an `int`. |
| JavaInt.ParseIntNonCanonical | src/main/java/de/greluc/sc/sckm/controller/StartViewController.java:124-133 | Text typed with a `+` sign or leading zeros parses to the value it spells, the same value the canonical `Integer.toString` text gives. |
| JavaInt.ParseIntOutOfRange | src/main/java/de/greluc/sc/sckm/settings/SettingsHandler.java:126 | Digits worth 2^31 or more are refused bare or after `+`; after `-` only values beyond 2^31 are refused, and exactly 2^31 gives the smallest `int`. |
| JavaInt.ParseIntJustTooLarge | src/main/java/de/greluc/sc/sckm/settings/SettingsHandler.java:126 | The digits of 2^31, one past the largest `int`, are refused. |
| JavaInt.ParseIntNeedsADigit | src/main/java/de/greluc/sc/sckm/controller/StartViewController.java:124-133 | Empty text and a lone `+` or `-` are refused. |
| JavaInt.ParseIntToString | src/main/java/de/greluc/sc/sckm/settings/SettingsHandler.java:76 | Parsing what `putInt` stored gives back the same 32-bit value. |
| JavaInt.ParseIntRefusesNonDigits | src/main/java/de/greluc/sc/sckm/controller/StartViewController.java:124-133 | Text with a non-digit after the first character is refused. |
| Preferences.LookupAfterPut | src/main/java/de/greluc/sc/sckm/settings/SettingsHandler.java:69-76 | `get` of a key just written by `put` returns the written value whatever the default; `get` of any other key is unaffected by the write. |
| Preferences.PreferencesNode.Put | src/main/java/de/greluc/sc/sckm/settings/SettingsHandler.java:69 | `put` overwrites exactly the given key. |
| Preferences.PreferencesNode.PutInt | src/main/java/de/greluc/sc/sckm/settings/SettingsHandler.java:76 | `putInt` stores the decimal text of the value under the key. |
| SettingsStore.SavedExactly | src/main/java/de/greluc/sc/sckm/settings/SettingsHandler.java:68-82 | Saving writes exactly the eight keys, each with its current value (the interval as its decimal text), and keeps every other entry. |
| SettingsStore.SaveThenLoad | src/main/java/de/greluc/sc/sckm/settings/SettingsHandler.java:113-127 | Saving then loading restores every value except two: PTU comes back as the EPTU path, and the channel, never saved, stays as it was. |
| SettingsStore.LoadFromEmpty | src/main/java/de/greluc/sc/sckm/settings/SettingsHandler.java:119-126 | An empty node loads the install paths (EPTU's for PTU), an empty custom path and handle, and interval 1. |
| SettingsStore.LoadKeepsChannel | src/main/java/de/greluc/sc/sckm/settings/SettingsHandler.java:119-126 | Loading never changes the selected channel, and always gives PTU the EPTU path. |
| SettingsStore.NonNumericIntervalRejected | src/main/java/de/greluc/sc/sckm/settings/SettingsHandler.java:126 | A stored interval that is not decimal text fails the load after the seven string setters, leaving the interval unchanged. |
| SettingsStore.SettingsHandler.constructor | src/main/java/de/greluc/sc/sckm/settings/SettingsHandler.java:47 | The handler holds the preferences node it reads and writes. |
| SettingsStore.SettingsHandler.SaveSettings | src/main/java/de/greluc/sc/sckm/settings/SettingsHandler.java:68-82 | The node's entries become `Saved` of the old entries and the current settings. |
| SettingsStore.SettingsHandler.LoadStrings | src/main/java/de/greluc/sc/sckm/settings/SettingsHandler.java:119-125 | The seven string setters set the loaded values and tell every listener seven times. |
| SettingsStore.SettingsHandler.LoadSettings | src/main/java/de/greluc/sc/sckm/settings/SettingsHandler.java:113-127 | The settings become `Load` of the node. Listeners are told eight times, or seven when the interval does not parse. |
| LegacySettingsStore.SavedExactly | src/main/java/de/greluc/sc/sckillmonitor/settings/SettingsHandler.java:34-41 | The older save writes exactly seven keys, each with its current value (the interval as its decimal text), never `PATH_CUSTOM`, and keeps every other entry. |
| LegacySettingsStore.SaveThenLoad | src/main/java/de/greluc/sc/sckillmonitor/settings/SettingsHandler.java:49-62 | Saving then loading restores every value except three: PTU gets the EPTU path, and the custom path and channel stay as they were. |
| LegacySettingsStore.LoadKeepsCustomAndChannel | src/main/java/de/greluc/sc/sckillmonitor/settings/SettingsHandler.java:55-61 | The older load never touches the custom path or the selected channel. |
| LegacySettingsStore.LoadFromEmpty | src/main/java/de/greluc/sc/sckillmonitor/settings/SettingsHandler.java:55-61 | An empty node loads the install paths (EPTU's for PTU), an empty handle and interval 1. |
| LegacySettingsStore.SettingsHandler.constructor | src/main/java/de/greluc/sc/sckillmonitor/settings/SettingsHandler.java:32 | The handler holds its preferences node. |
| LegacySettingsStore.SettingsHandler.SaveSettings | src/main/java/de/greluc/sc/sckillmonitor/settings/SettingsHandler.java:34-47 | The node's entries become the older `Saved` of the old entries and the current settings. |
| LegacySettingsStore.SettingsHandler.LoadStrings | src/main/java/de/greluc/sc/sckillmonitor/settings/SettingsHandler.java:55-60 | The six string setters set the loaded values and tell every listener six times. |
| LegacySettingsStore.SettingsHandler.LoadSettings | src/main/java/de/greluc/sc/sckillmonitor/settings/SettingsHandler.java:49-62 | The settings become the older `Load` of the node. Listeners are told seven times, or six when the interval does not parse. |
| StartView.StartsExactlyWhenValid | src/main/java/de/greluc/sc/sckm/controller/StartViewController.java:107-134 | The scan starts exactly when handle, interval text and path are all non-empty and the interval parses. An empty handle is reported before an empty interval. |
| StartView.NonPositiveIntervalAccepted | src/main/java/de/greluc/sc/sckm/controller/StartViewController.java:124-126 | Zero and negative intervals pass the checks. |
| StartView.LetterInIntervalRejected | src/main/java/de/greluc/sc/sckm/controller/StartViewController.java:124-133 | A non-digit after the first character gives "Interval is invalid", not a start. |
| StartView.StartView.constructor | src/main/java/de/greluc/sc/sckm/controller/StartViewController.java:73-82 | `initialize` fills the inputs from the settings, shows the selected channel's path and registers the view as a listener. |
| StartView.StartView.SetSelectedPath | src/main/java/de/greluc/sc/sckm/controller/StartViewController.java:169-190 | The label shows the selected channel's path, the live path by default. |
| StartView.StartView.SettingsChanged | src/main/java/de/greluc/sc/sckm/controller/StartViewController.java:217-219 | Any settings change recomputes the shown path. |
| StartView.StartView.OnChannelSelection | src/main/java/de/greluc/sc/sckm/controller/StartViewController.java:147-150 | The picked channel is stored, listeners are told once, and the label shows the picked channel's path. |
| StartView.StartView.OnStartButtonClicked | src/main/java/de/greluc/sc/sckm/controller/StartViewController.java:107-134 | The outcome is `StartDecision`. A start stores the handle and interval, saves them and requests the scan. An invalid interval leaves only the new handle stored. Listener calls match each case. |
| LegacyStartView.NoPathCheck | src/main/java/de/greluc/sc/sckillmonitor/controller/StartViewController.java:66-80 | The older screen starts with an empty path where the newer one refuses. The two agree when a path is present. |
| LegacyStartView.StartView.constructor | src/main/java/de/greluc/sc/sckillmonitor/controller/StartViewController.java:54-63 | `initialize` fills the inputs, shows the path and registers the view as a listener. |
| LegacyStartView.StartView.SetSelectedPath | src/main/java/de/greluc/sc/sckillmonitor/controller/StartViewController.java:88-109 | The label shows the selected channel's path, the live path by default. |
| LegacyStartView.StartView.SettingsChanged | src/main/java/de/greluc/sc/sckillmonitor/controller/StartViewController.java:116-118 | Any settings change recomputes the shown path. |
| LegacyStartView.StartView.OnChannelSelection | src/main/java/de/greluc/sc/sckillmonitor/controller/StartViewController.java:83-86 | The picked channel is stored, listeners are told once, and the label shows its path. |
| LegacyStartView.StartView.OnStartButtonClicked | src/main/java/de/greluc/sc/sckillmonitor/controller/StartViewController.java:66-80 | The older button checks only the handle and interval text. It stores the handle, then parses the interval; failure escapes as an uncaught exception. Nothing is saved. |

## Left out

- The JavaFX user interface is not modelled: text areas, scroll panes, alerts and `Platform.runLater`. What a scan pass shows is its `reported` sequence, and the start button's alerts are its `StartOutcome`.
- Threads, the executor service, `TimeUnit.SECONDS.sleep` and thread interruption are not modelled. The endless poll loop becomes a finite sequence of polls followed by an interruption.
- `System.exit(-1)` is not modelled; it becomes the `NoLogPath` and `NoHandle` outcomes.
- Logging (log4j, `System.err`) is not modelled; it has no effect on state.
- The file system is reduced to what a pass reads. Each read is a `LogFile` value: missing, complete, or broken after some lines. The path is not modelled.
- `writeKillEventToFile` (the newer `FileHandler`) is not part of this model. Its calls are recorded as `SessionWrite` values in the ghost `writes` sequence.
- `ZonedDateTime.parse` with `ISO_DATE_TIME`, `DateTimeFormatter.ofPattern` and `minusYears(1)` are parameters of the model. Region-based zone IDs and daylight-saving rules are not modelled; a timestamp carries a fixed offset.
- `Preferences` is reduced to a map. `sync` and `flush` are left out, with their `BackingStoreException`s, which are only logged. The key and value length limits are also left out.
- `JavaInt.ParseInt` accepts ASCII digits only. `Integer.parseInt` also accepts other Unicode decimal digits. Its own contract gives only non-emptiness and the sign; the value and the refused inputs are stated by `JavaInt.ParseDigits`, `JavaInt.ParseIntToString`, `JavaInt.ParseIntNonCanonical`, `JavaInt.ParseIntOutOfRange` and `JavaInt.ParseIntNeedsADigit`.
- Null strings are not modelled. `null` never reaches the modelled code from the modelled callers.
- The scan passes read the handle once per pass; the source re-reads it for every line. Nothing can change it during a pass in the model.
- Listener dispatch is recorded as the ghost `notified` sequence rather than calling the listeners. A start screen's reaction is its own `SettingsChanged` method.
- The settings screens (`SettingsViewController`), the main screen, `AlertHandler`, `FileHandler` and the application class are outside this model.
- KillEventExtractor.ParseKillEvent: the contract states when a line yields an event and its timestamp. The other six fields are stated through `Tokenizer.ExtractValue` and `KillEventExtractor.MissingFieldIsEmpty` rather than repeated in the contract.
- ScanView.ParseKillEvent: likewise, the fields are stated through `Tokenizer.ExtractValue` and `ScanView.KilledPlayerField`.
