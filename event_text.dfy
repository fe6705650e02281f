/**
 * The six-line text block both `KillEvent.toString` methods produce, and the splitting of
 * text into lines used to state its layout.
 */
module EventText {

  predicate NoNewline(s: string)
  {
    forall i :: 0 <= i < |s| ==> s[i] != '\n'
  }

  /** The lines of `s`: the pieces between line breaks, so a text without a trailing break ends in its last line. */
  function Lines(s: string): (r: seq<string>)
    ensures |r| >= 1
  {
    if s == [] then [""]
    else
      var rest := Lines(s[1..]);
      if s[0] == '\n' then [""] + rest else [[s[0]] + rest[0]] + rest[1..]
  }

  lemma {:induction false} LinesOfSingleLine(a: string)
    requires NoNewline(a)
    ensures Lines(a) == [a]
  {
    if a != [] {
      LinesOfSingleLine(a[1..]);
      assert [a[0]] + a[1..] == a;
    }
  }

  lemma {:induction false} LinesAfterBreak(a: string, b: string)
    requires NoNewline(a)
    ensures Lines(a + "\n" + b) == [a] + Lines(b)
  {
    if a == [] {
      assert a + "\n" + b == "\n" + b;
      assert ("\n" + b)[1..] == b;
    } else {
      LinesAfterBreak(a[1..], b);
      assert (a + "\n" + b)[1..] == a[1..] + "\n" + b;
      assert [a[0]] + a[1..] == a;
    }
  }

  /**
   * The text block of a kill event: a header line, then the killed player, zone, killer,
   * weapon and damage type, each behind its fixed label, joined by "\n" with no trailing
   * break. Values are inserted verbatim.
   */
  function Layout(header: string, killedPlayer: string, zone: string, killer: string, weapon: string, damageType: string): string
  {
    header + "\n" +
    ("Killed Player = " + killedPlayer + "\n" +
    ("Zone = " + zone + "\n" +
    ("Killer = " + killer + "\n" +
    ("Used Method/Weapon = " + weapon + "\n" +
    ("Damage Type = " + damageType)))))
  }

  lemma NoNewlineConcat(a: string, b: string)
    requires NoNewline(a) && NoNewline(b)
    ensures NoNewline(a + b)
  {
  }

  /**
   * When no value holds a line break, the block is exactly six lines, in the order
   * header, Killed Player, Zone, Killer, Used Method/Weapon, Damage Type.
   */
  lemma LayoutLines(header: string, killedPlayer: string, zone: string, killer: string, weapon: string, damageType: string)
    requires NoNewline(header) && NoNewline(killedPlayer) && NoNewline(zone)
    requires NoNewline(killer) && NoNewline(weapon) && NoNewline(damageType)
    ensures Lines(Layout(header, killedPlayer, zone, killer, weapon, damageType)) ==
              [header, "Killed Player = " + killedPlayer, "Zone = " + zone, "Killer = " + killer,
               "Used Method/Weapon = " + weapon, "Damage Type = " + damageType]
  {
    var l1, l2, l3 := "Killed Player = " + killedPlayer, "Zone = " + zone, "Killer = " + killer;
    var l4, l5 := "Used Method/Weapon = " + weapon, "Damage Type = " + damageType;
    NoNewlineConcat("Killed Player = ", killedPlayer);
    NoNewlineConcat("Zone = ", zone);
    NoNewlineConcat("Killer = ", killer);
    NoNewlineConcat("Used Method/Weapon = ", weapon);
    NoNewlineConcat("Damage Type = ", damageType);
    var t4 := l4 + "\n" + l5;
    var t3 := l3 + "\n" + t4;
    var t2 := l2 + "\n" + t3;
    var t1 := l1 + "\n" + t2;
    LinesOfSingleLine(l5);
    LinesAfterBreak(l4, l5);
    LinesAfterBreak(l3, t4);
    LinesAfterBreak(l2, t3);
    LinesAfterBreak(l1, t2);
    LinesAfterBreak(header, t1);
    assert Layout(header, killedPlayer, zone, killer, weapon, damageType) == header + "\n" + t1;
  }
}
