/**
 * The older kill event: a final class whose six fields are set once by the all-arguments
 * constructor. It does not override `equals`, so two events are equal only when they are
 * the same object.
 */
module LegacyKillEvent {
  import opened Time
  import opened EventText

  class KillEvent {
    const timestamp: Timestamp
    const killedPlayer: string
    const killer: string
    const weapon: string
    const damageType: string
    const zone: string

    constructor (timestamp: Timestamp, killedPlayer: string, killer: string, weapon: string, damageType: string, zone: string)
      ensures this.timestamp == timestamp && this.killedPlayer == killedPlayer && this.killer == killer
      ensures this.weapon == weapon && this.damageType == damageType && this.zone == zone
    {
      this.timestamp := timestamp;
      this.killedPlayer := killedPlayer;
      this.killer := killer;
      this.weapon := weapon;
      this.damageType := damageType;
      this.zone := zone;
    }

    /** The header line: "KillEvent at Time ", the date in its own offset, and a literal " UTC". */
    function DateLine(formatDate: DateFormatter): string
    {
      "KillEvent at Time " + formatDate(LocalNanos(timestamp)) + " UTC"
    }

    /** `toString`: a pure function of the fields and the date pattern. */
    function ToString(formatDate: DateFormatter): string
    {
      Layout(DateLine(formatDate), killedPlayer, zone, killer, weapon, damageType)
    }
  }

  /**
   * The text is the header line followed by five labelled lines, Killed Player, Zone,
   * Killer, Used Method/Weapon and Damage Type, with no trailing line break.
   */
  lemma ToStringLines(e: KillEvent, formatDate: DateFormatter)
    requires NoNewline(formatDate(LocalNanos(e.timestamp))) && NoNewline(e.killedPlayer) && NoNewline(e.zone)
    requires NoNewline(e.killer) && NoNewline(e.weapon) && NoNewline(e.damageType)
    ensures var lines := Lines(e.ToString(formatDate));
      && lines == [e.DateLine(formatDate), "Killed Player = " + e.killedPlayer, "Zone = " + e.zone,
                   "Killer = " + e.killer, "Used Method/Weapon = " + e.weapon, "Damage Type = " + e.damageType]
      && lines[0][..18] == "KillEvent at Time "
  {
    NoNewlineConcat("KillEvent at Time ", formatDate(LocalNanos(e.timestamp)));
    NoNewlineConcat("KillEvent at Time " + formatDate(LocalNanos(e.timestamp)), " UTC");
    LayoutLines(e.DateLine(formatDate), e.killedPlayer, e.zone, e.killer, e.weapon, e.damageType);
  }

  /** Two events built separately from identical values are not equal: equality is identity. */
  method BuildTwice(timestamp: Timestamp, killedPlayer: string, killer: string, weapon: string, damageType: string, zone: string)
    returns (first: KillEvent, second: KillEvent, equal: bool)
    ensures first.timestamp == second.timestamp && first.killedPlayer == second.killedPlayer
    ensures first.killer == second.killer && first.weapon == second.weapon
    ensures first.damageType == second.damageType && first.zone == second.zone
    ensures !equal
  {
    first := new KillEvent(timestamp, killedPlayer, killer, weapon, damageType, zone);
    second := new KillEvent(timestamp, killedPlayer, killer, weapon, damageType, zone);
    equal := first == second;
  }
}
