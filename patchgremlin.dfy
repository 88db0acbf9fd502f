/** The `patchgremlin` command: a random reminder from the table, coloured
    by its chaos level, with a footer meter of one fire emoji per level. The
    random choice is an input; the table is kept as its chaos levels, in
    table order (the message texts are not reproduced). */
module PatchGremlin {
  import opened Common

  /** A chaos level as the table uses them. */
  type Chaos = c: int | 1 <= c <= 5 witness 1

  /** The chaos level of each entry of `PATCH_GREMLINS`, in order; every
      element is checked against `Chaos`'s range. */
  const ChaosLevels: seq<Chaos> :=
    [3, 2, 3, 4, 2, 2, 3, 3, 3, 4, 3, 4, 5, 5, 2, 3, 3, 4, 5, 4,
     1, 1, 1, 1, 1, 2, 2, 1, 1, 1]

  const BrightRed: int := 0xFF1744
  const DeepOrange: int := 0xFF6F00
  const Yellow: int := 0xFFD600
  const BrightGreen: int := 0x00E676

  const Title: string := "\U{1F9CC} Patch Gremlin Alert"
  const Fire: char := '\U{1F525}'

  /** 4 and up is bright red, 3 orange, 2 yellow, anything lower green. */
  function ChaosColor(chaos: int): (color: int)
    ensures color == BrightRed <==> chaos >= 4
    ensures color == DeepOrange <==> chaos == 3
    ensures color == Yellow <==> chaos == 2
    ensures color == BrightGreen <==> chaos <= 1
  {
    if chaos >= 4 then BrightRed
    else if chaos >= 3 then DeepOrange
    else if chaos >= 2 then Yellow
    else BrightGreen
  }

  /** `"🔥" * chaos` (empty for a level below one, as Python's string
      repetition gives). */
  function Meter(chaos: int): (m: string)
    ensures |m| == if chaos > 0 then chaos else 0
    ensures forall i :: 0 <= i < |m| ==> m[i] == Fire
  {
    RepeatChar(Fire, if chaos > 0 then chaos else 0)
  }

  /** The embed: the constant title, the message, the chaos colour, and a
      footer that starts with the meter. */
  function GremlinEmbed(msg: string, chaos: int): (e: Embed)
    ensures e.title == Title && e.description == msg
    ensures e.color == Some(ChaosColor(chaos))
    ensures e.footer.Some? && StartsWith(e.footer.value, "Chaos Level: " + Meter(chaos) + " ")
  {
    var head := "Chaos Level: " + Meter(chaos) + " ";
    var footer := head + "\U{2022} Use !patchgremlin for more reminders";
    assert footer[..|head|] == head;
    Embed(Title, msg, None, Some(ChaosColor(chaos)), [], Some(footer))
  }

  /** Every entry of the table has a chaos level from 1 to 5, so its meter
      holds one to five flames. */
  lemma ChaosLevelsInRange()
    ensures |ChaosLevels| == 30
    ensures forall i :: 0 <= i < |ChaosLevels| ==> 1 <= |Meter(ChaosLevels[i])| <= 5
  {
  }
}
