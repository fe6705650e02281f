/**
 * The newer kill event: an immutable record whose equality is structural over all of its
 * components, with a `toString` that renders it as a six-line block.
 */
module KillEventRecord {
  import opened Time
  import opened EventText

  /** The six components as the record declares them. */
  datatype KillEvent = KillEvent(
    timestamp: Timestamp,
    killedPlayer: string,
    killer: string,
    weapon: string,
    damageType: string,
    zone: string)

  /** The header line: the date in the pattern `dd.MM.yy HH:mm:ss:SSS`, taken in the timestamp's own offset, and a literal " UTC". */
  function DateLine(e: KillEvent, formatDate: DateFormatter): string
  {
    "Kill Date = " + formatDate(LocalNanos(e.timestamp)) + " UTC"
  }

  /** `toString`: a pure function of the event and the date pattern. */
  function ToString(e: KillEvent, formatDate: DateFormatter): string
  {
    Layout(DateLine(e, formatDate), e.killedPlayer, e.zone, e.killer, e.weapon, e.damageType)
  }

  predicate PrintableOnOneLine(e: KillEvent, formatDate: DateFormatter)
  {
    NoNewline(formatDate(LocalNanos(e.timestamp))) && NoNewline(e.killedPlayer) && NoNewline(e.zone)
    && NoNewline(e.killer) && NoNewline(e.weapon) && NoNewline(e.damageType)
  }

  /**
   * The text is exactly six lines with no trailing line break, zone before killer, and
   * every value copied verbatim behind its label, so dropping the label gives it back.
   */
  lemma ToStringLines(e: KillEvent, formatDate: DateFormatter)
    requires PrintableOnOneLine(e, formatDate)
    ensures var lines := Lines(ToString(e, formatDate));
      && lines == [DateLine(e, formatDate), "Killed Player = " + e.killedPlayer, "Zone = " + e.zone,
                   "Killer = " + e.killer, "Used Method/Weapon = " + e.weapon, "Damage Type = " + e.damageType]
      && lines[1][16..] == e.killedPlayer && lines[2][7..] == e.zone && lines[3][9..] == e.killer
      && lines[4][21..] == e.weapon && lines[5][14..] == e.damageType
  {
    NoNewlineConcat("Kill Date = ", formatDate(LocalNanos(e.timestamp)));
    NoNewlineConcat("Kill Date = " + formatDate(LocalNanos(e.timestamp)), " UTC");
    LayoutLines(DateLine(e, formatDate), e.killedPlayer, e.zone, e.killer, e.weapon, e.damageType);
  }

  /** The date is printed as the local date-time of the timestamp's own offset, not converted to UTC. */
  lemma ToStringShowsLocalTime(e: KillEvent, t: Timestamp, formatDate: DateFormatter)
    requires LocalNanos(t) == LocalNanos(e.timestamp)
    ensures ToString(e.(timestamp := t), formatDate) == ToString(e, formatDate)
  {
  }
}
