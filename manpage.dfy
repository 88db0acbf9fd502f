/** The `manpage` command: a random entry of the Linux-command table,
    shown with a colour, an emoji and, for the most dangerous commands, a
    warning field chosen by the entry's danger level. The random choice is
    an input; the table is kept as its danger levels, in table order (the
    command and description texts are not reproduced). */
module Manpage {
  import opened Common

  /** A danger level as the table uses them. */
  type Danger = d: int | 1 <= d <= 5 witness 1

  /** The danger level of each entry of `LINUX_COMMANDS`, in order; every
      element is checked against `Danger`'s range. */
  const DangerLevels: seq<Danger> :=
    [
     1, 5, 5, 5, 1, 1, 1, 1, 1, 1, 2, 5, 5, 5, 1, 1, 3, 1, 1, 1, 1, 3, 1, 1, 1, 1, 1, 1, 1, 1, 1, 1,
     2, 2, 1, 1, 1, 3, 1, 1, 1, 1, 1, 1, 1, 1, 1, 1, 1, 1, 1, 1, 1, 1, 1, 1, 1, 1, 1, 1, 1, 1, 2, 1,
     1, 1, 1, 1, 1, 1, 1, 1, 1, 1, 1, 1, 1, 1, 1, 1, 1, 1, 1, 1, 1, 1, 1, 1, 2, 3, 2, 2, 2, 1, 1, 1,
     1, 2, 1, 1, 1, 1, 1, 1, 1, 1, 1, 1, 1, 1, 1, 1, 1, 1, 1, 1, 1, 1, 1, 1, 1, 1, 1, 1, 1, 1, 1, 1,
     1, 1, 1, 1, 1, 1, 1, 1, 1, 1, 1, 1, 1, 1, 1, 2, 1, 1, 1, 1, 1, 1, 1, 1, 1, 1, 1, 1, 1, 1, 1, 1,
     1, 1, 1, 1, 1, 1, 1, 1, 1, 1, 1, 1, 1, 1, 1, 1, 2, 1, 1, 1, 1, 1, 1, 1, 1, 2, 2, 1, 2, 2, 2, 1,
     1, 1, 1, 2, 2, 1, 1, 2, 1, 2, 1, 2, 1, 1, 1, 1, 1, 1, 2, 2, 2, 2, 2, 2, 1, 1, 1, 1, 1, 1, 1, 1,
     1, 1, 1, 1, 1, 1, 4, 1, 2, 2, 3, 3, 3, 4, 3, 1, 1, 1, 1, 1, 1, 1, 1, 1, 1, 1, 1, 1, 1, 1, 1, 1,
     1, 1, 1, 1, 1, 1, 1, 1, 1, 1, 1, 1, 1, 1, 1, 1, 1, 1, 1, 1, 1, 1, 1, 1, 1, 1, 1, 1
    ]

  const Red: int := 0xFF0000
  const Orange: int := 0xFF6B00
  const Green: int := 0x00D166

  datatype Level = Dangerous | Caution | Safe

  /** Danger 4 and up is dangerous, 3 calls for caution, the rest is safe. */
  function Classify(danger: int): (l: Level)
    ensures l == Dangerous <==> danger >= 4
    ensures l == Caution <==> danger == 3
    ensures l == Safe <==> danger <= 2
  {
    if danger >= 4 then Dangerous else if danger >= 3 then Caution else Safe
  }

  function LevelColor(l: Level): int {
    match l
    case Dangerous => Red
    case Caution => Orange
    case Safe => Green
  }

  function LevelEmoji(l: Level): string {
    match l
    case Dangerous => "\U{2620}\U{FE0F}"
    case Caution => "\U{26A0}\U{FE0F}"
    case Safe => "\U{2705}"
  }

  const WarningField: Field :=
    Field("\U{26A0}\U{FE0F} WARNING \U{26A0}\U{FE0F}",
          "This command is dangerous! Do NOT run it unless you know exactly what you're doing!", false)

  /** The embed for one entry: the command in backticks, its description,
      and the warning field exactly when the colour is red. */
  function CommandEmbed(cmd: string, desc: string, danger: int): (e: Embed)
    ensures e.color == Some(Red) <==> danger >= 4
    ensures e.color == Some(Orange) <==> danger == 3
    ensures e.color == Some(Green) <==> danger <= 2
    ensures |e.fields| >= 2 && e.fields[0] == Field("Command", "`" + cmd + "`", false)
    ensures e.fields[1] == Field("Description", desc, false)
    ensures WarningField in e.fields <==> danger >= 4
    ensures EndsWith(e.title, " Random Linux Command")
  {
    var l := Classify(danger);
    var fields := [Field("Command", "`" + cmd + "`", false), Field("Description", desc, false)];
    Embed(LevelEmoji(l) + " Random Linux Command", "", None, Some(LevelColor(l)),
          if danger >= 4 then fields + [WarningField] else fields,
          Some("man page \U{2022} Use !manpage for more commands"))
  }

  /** Every entry of the table has a danger level from 1 to 5. */
  lemma DangerLevelsInRange()
    ensures |DangerLevels| == 284
    ensures forall i :: 0 <= i < |DangerLevels| ==> 1 <= DangerLevels[i] as int <= 5
  {
  }
}
