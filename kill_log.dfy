/**
 * What the three kill-line parsers have in common: the `<Actor Death>` marker, the
 * timestamp span, the field tokens, and the game log as a sequence of lines.
 */
module KillLog {
  import opened Wrappers
  import opened Tokenizer

  const ActorDeathMarker := "<Actor Death>"

  const KilledPlayerToken := "CActor::Kill: '"
  const ZoneToken := "in zone '"
  const KillerToken := "killed by '"
  const WeaponToken := "using '"
  const WeaponClassToken := "[Class "
  const DamageTypeToken := "with damage type '"
  const QuoteToken := "'"
  const ClassEndToken := "]"

  /** `line.contains("<Actor Death>")`: only such lines are handed to a parser. */
  predicate IsKillLine(line: string)
  {
    Contains(line, ActorDeathMarker)
  }

  /**
   * `line.substring(line.indexOf('<') + 1, line.indexOf('>'))`; `None` is the
   * `StringIndexOutOfBoundsException` thrown when there is no `>` or the first `>` comes
   * before the first `<`. A line without `<` starts the span at index 0.
   */
  function TimestampText(line: string): (r: Option<string>)
    ensures Absent(line, ">", 0) ==> r == None
    ensures forall i, j {:trigger FirstAt(line, "<", 0, i), FirstAt(line, ">", 0, j)} ::
              FirstAt(line, "<", 0, i) && FirstAt(line, ">", 0, j) ==>
                (if i < j then r == Some(line[i + 1..j]) else r == None)
    ensures forall j :: Absent(line, "<", 0) && FirstAt(line, ">", 0, j) ==> r == Some(line[..j])
  {
    var open := IndexOf(line, "<", 0);
    var close := IndexOf(line, ">", 0);
    var begin := open + 1;
    if close == -1 || begin > close then None else Some(line[begin..close])
  }

  /** A marker line holds both brackets, so its timestamp span fails only when `>` comes first. */
  lemma KillLineHasBrackets(line: string)
    requires IsKillLine(line)
    ensures !Absent(line, "<", 0) && !Absent(line, ">", 0)
  {
    ContainsMeansOccurs(line, ActorDeathMarker);
    var m :| 0 <= m && OccursAt(line, ActorDeathMarker, m);
    assert line[m..m + 13] == ActorDeathMarker;
    assert line[m..m + 1] == line[m..m + 13][..1] == "<";
    assert OccursAt(line, "<", m);
    assert line[m + 12..m + 13] == line[m..m + 13][12..] == ">";
    assert OccursAt(line, ">", m + 12);
  }

  /** What one pass manages to read of the log file. */
  datatype LogFile =
    | Missing                          // `FileNotFoundException` when the file is opened
    | Complete(lines: seq<string>)     // read to the end
    | BrokenAfter(lines: seq<string>)  // `readLine` throws an `IOException` after these lines

  function ReadLines(file: LogFile): seq<string>
  {
    match file
    case Missing => []
    case Complete(lines) => lines
    case BrokenAfter(lines) => lines
  }
}
