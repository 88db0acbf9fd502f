/** The ham-radio cog's solar report: NOAA's R and G scales and the solar
    flux decide whether conditions are good, each HF band gets a rating by
    integer thresholds on the flux, the VHF lines follow the geomagnetic
    scale, and operating recommendations and a time-of-day suggestion are
    added. Also the auto-poster's persisted state and the commands that set
    it. The HTTP answers, the flux readings (floats in the API) and the
    clock are inputs. */
module Radiohead {
  import opened Common

  // ---------------------------------------------------------------------
  // Conditions

  /** A scale's `Scale` value as read from the JSON: `None` is a JSON null;
      a missing entry reads as "N/A". */
  type Scale = Option<string>

  /** `conditions_good`: the radio-blackout scale is 'R0' or 'N/A' and the
      geomagnetic scale is 'G0', 'G1' or 'N/A'. */
  predicate ConditionsGood(r: Scale, g: Scale) {
    (r == Some("R0") || r == Some("N/A")) && (g == Some("G0") || g == Some("N/A") || g == Some("G1"))
  }

  /** `sfi_value`: the solar flux as an integer, 100 when it is 'N/A' or
      does not read as an integer. */
  function SfiValue(sfi: string): (v: int)
    ensures sfi == "N/A" ==> v == 100
    ensures sfi != "N/A" && PyInt(sfi).None? ==> v == 100
    ensures IsDigits(sfi) ==> v == DigitsValue(sfi)
  {
    if sfi == "N/A" then 100
    else match PyInt(sfi)
      case Some(n) => n
      case None => 100
  }

  /** The numeric value of a scale: its digits when it is all digits
      (`str(None)` is not), else -1. */
  function ScaleValue(s: Scale): (v: int)
    ensures v >= -1
    ensures s.Some? && IsDigits(s.value) ==> v == DigitsValue(s.value)
    ensures !(s.Some? && IsDigits(s.value)) ==> v == -1
  {
    if s.Some? && IsDigits(s.value) then DigitsValue(s.value) else -1
  }

  /** A scale's status line: the calm text at 0, the warning above 0, and
      'N/A' for a scale that is not a number. */
  function ScaleStatus(v: int, calm: string, disturbed: string): (t: string)
    ensures v == 0 ==> t == "\U{2705} " + calm
    ensures v > 0 ==> t == "\U{26A0}\U{FE0F} " + disturbed
    ensures v < 0 ==> t == "N/A"
  {
    if v == 0 then "\U{2705} " + calm else if v > 0 then "\U{26A0}\U{FE0F} " + disturbed else "N/A"
  }

  /** The scale values the status lines count as clear ("0") are never
      the ones the good-conditions test accepts ('R0', 'G0', 'G1', 'N/A'):
      a blackout scale shown as clear never makes conditions good. */
  lemma ClearScaleNeverGood(r: Scale, g: Scale)
    requires ScaleValue(r) == 0
    ensures !ConditionsGood(r, g)
  {
    assert !IsDigit('R') && !IsDigit('N');
  }

  // ---------------------------------------------------------------------
  // HF bands

  datatype Band = B160 | B80 | B40 | B30 | B20 | B17 | B15 | B12 | B10 | B6

  /** The HF bands in the order the report lists them. */
  const HfBands: seq<Band> := [B160, B80, B40, B30, B20, B17, B15, B12, B10, B6]

  function BandName(b: Band): string {
    match b
    case B160 => "160m"
    case B80 => "80m"
    case B40 => "40m"
    case B30 => "30m"
    case B20 => "20m"
    case B17 => "17m"
    case B15 => "15m"
    case B12 => "12m"
    case B10 => "10m"
    case B6 => "6m"
  }

  /** A band's rating; 6m only ever says to check for Sporadic-E. */
  datatype Rating = Excellent | Good | Fair | Poor | Check

  /** Poor < Fair (and Check) < Good < Excellent. */
  function Rank(r: Rating): nat {
    match r
    case Poor => 0
    case Fair => 1
    case Check => 1
    case Good => 2
    case Excellent => 3
  }

  /** The band rules. 160m, 80m, 40m and 6m are fixed; the others need
      good conditions for their best rating and fall back on the flux
      alone. */
  function Rate(b: Band, good: bool, sfi: int): (r: Rating)
    ensures b == B160 ==> r == Good
    ensures b == B80 || b == B40 ==> r == Excellent
    ensures b == B6 ==> r == Check
    ensures b == B30 ==> (r == Good <==> good && sfi > 80) && (r != Good ==> r == Fair)
    ensures b == B20 ==> (r == Excellent <==> good && sfi > 100) && (r != Excellent ==> r == Fair)
    ensures b == B17 ==> (r == Good <==> good && sfi > 100) && (r != Good ==> r == Fair)
    ensures b == B15 ==> (r == Good <==> good && sfi > 120) && (r == Fair <==> !(good && sfi > 120) && sfi > 90)
                         && (r == Poor <==> sfi <= 90)
    ensures b == B12 ==> (r == Fair <==> good && sfi > 120) && (r != Fair ==> r == Poor)
    ensures b == B10 ==> (r == Good <==> good && sfi > 150) && (r == Fair <==> !(good && sfi > 150) && sfi > 120)
                         && (r == Poor <==> sfi <= 120)
  {
    match b
    case B160 => Good
    case B80 => Excellent
    case B40 => Excellent
    case B30 => if good && sfi > 80 then Good else Fair
    case B20 => if good && sfi > 100 then Excellent else Fair
    case B17 => if good && sfi > 100 then Good else Fair
    case B15 => if good && sfi > 120 then Good else if sfi > 90 then Fair else Poor
    case B12 => if good && sfi > 120 then Fair else Poor
    case B10 => if good && sfi > 150 then Good else if sfi > 120 then Fair else Poor
    case B6 => Check
  }

  /** A higher flux never makes a band's rating worse. */
  lemma RateMonotoneInFlux(b: Band, good: bool, sfi1: int, sfi2: int)
    requires sfi1 <= sfi2
    ensures Rank(Rate(b, good, sfi1)) <= Rank(Rate(b, good, sfi2))
  {
  }

  /** Good conditions never make a band's rating worse. */
  lemma RateMonotoneInConditions(b: Band, sfi: int)
    ensures Rank(Rate(b, false, sfi)) <= Rank(Rate(b, true, sfi))
  {
  }

  function RatingEmoji(r: Rating): string {
    match r
    case Excellent => "\U{1F7E2}"
    case Good => "\U{1F7E2}"
    case Fair => "\U{1F7E1}"
    case Check => "\U{1F7E1}"
    case Poor => "\U{1F534}"
  }

  function RatingWord(r: Rating): string {
    match r
    case Excellent => "Excellent"
    case Good => "Good"
    case Fair => "Fair"
    case Check => "Check"
    case Poor => "Poor"
  }

  /** The text after a band's rating. 20m's fair text depends on the flux. */
  function Remark(b: Band, r: Rating, sfi: int): string {
    match b
    case B160 => " (Night) - Regional/DX after dark"
    case B80 => " (Night) - Reliable day/night"
    case B40 => " - Works day and night"
    case B30 => if r == Good then " - Digital modes DX possible" else " - Try CW/digital for best results"
    case B20 =>
      if r == Excellent then " - Worldwide DX open!"
      else if sfi > 80 then " - DX possible with patience"
      else " - Limited to regional"
    case B17 => if r == Good then " - Try for DX" else " - May be open briefly"
    case B15 => if r == Good then " - Long path DX possible" else if r == Fair then " - Check for openings" else " - Likely closed"
    case B12 => if r == Fair then " - Worth checking" else " - Probably closed"
    case B10 => if r == Good then " - Magic band is open!" else if r == Fair then " - Possible short openings" else " - Closed, try WSPR"
    case B6 => " for Sporadic-E (summer) or aurora"
  }

  function BandHead(b: Band, r: Rating): string {
    "**" + BandName(b) + ":** " + RatingEmoji(r) + " " + RatingWord(r)
  }

  /** One band's line: its name, the rating's colour and word, then the remark. */
  function BandLine(b: Band, good: bool, sfi: int): (line: string)
    ensures StartsWith(line, BandHead(b, Rate(b, good, sfi)))
  {
    var head := BandHead(b, Rate(b, good, sfi));
    var line := head + Remark(b, Rate(b, good, sfi), sfi);
    assert line[..|head|] == head;
    line
  }

  /** `hf_predictions`: one line per HF band, in order, each headed by
      the band's rating. */
  function HfPredictions(good: bool, sfi: int): (lines: seq<string>)
    ensures |lines| == |HfBands|
    ensures forall i :: 0 <= i < |lines| ==> StartsWith(lines[i], BandHead(HfBands[i], Rate(HfBands[i], good, sfi)))
    ensures forall i :: 0 <= i < |lines| ==> lines[i] == BandLine(HfBands[i], good, sfi)
  {
    seq(|HfBands|, i requires 0 <= i < |HfBands| => BandLine(HfBands[i], good, sfi))
  }

  // ---------------------------------------------------------------------
  // VHF, recommendations, time of day

  const AuroraLine: string := "**2m:** \U{1F7E2} Good - Aurora possible! Try north"
  const TwoMetreNormal: string := "**2m:** \U{1F7E1} Normal - Line of sight, tropospheric"
  const SeventyCm: string := "**70cm:** \U{1F7E1} Normal - Line of sight, repeaters"

  /** `vhf_predictions`: 2m announces aurora iff the geomagnetic scale is
      a number of at least 3; 70cm is always normal. */
  function VhfPredictions(g: Scale): (lines: seq<string>)
    ensures |lines| == 2 && lines[1] == SeventyCm
    ensures lines[0] == AuroraLine <==> ScaleValue(g) >= 3
    ensures lines[0] != AuroraLine ==> lines[0] == TwoMetreNormal
  {
    var gVal := ScaleValue(g);
    [if gVal >= 3 then AuroraLine else TwoMetreNormal, SeventyCm]
  }

  const BlackoutRec: string :=
    "\U{26A0}\U{FE0F} **Radio Blackout Active:** Expect HF absorption, especially on higher frequencies"
  const AuroraRec: string := "\U{1F308} **Aurora Possible!** Check 6m/2m for aurora propagation"
  const StormTipRec: string := "\U{1F4A1} **Tip:** Lower bands (80m/40m) handle storms better"
  const HighFluxRec: string := "\U{1F389} **Excellent Solar Flux!** Higher bands (15m/10m) should be wide open"
  const LowFluxRec: string := "\U{1F4A1} **Low Solar Flux:** Stick to 40m/80m for best results"
  const GreatRec: string := "\U{2705} **Great Conditions Overall:** Good time for DX hunting on 20m!"
  const NormalRec: string := "\U{1F4E1} **Normal Conditions:** Standard band behavior expected"

  /** `g_scale.replace('G', '')`. */
  function RemoveG(s: string): (r: string)
    ensures 'G' !in r && |r| <= |s|
  {
    if s == [] then [] else (if s[0] == 'G' then [] else [s[0]]) + RemoveG(s[1..])
  }

  /** The storm level the recommendations read: the scale without its
      'G's when that is all digits, else 0. */
  function StormLevel(g: string): (v: nat)
    ensures IsDigits(RemoveG(g)) ==> v == DigitsValue(RemoveG(g))
    ensures !IsDigits(RemoveG(g)) ==> v == 0
  {
    if IsDigits(RemoveG(g)) then DigitsValue(RemoveG(g)) else 0
  }

  /** Whether the geomagnetic scale is stormy for the recommendations: set,
      non-empty, and neither 'G0' nor 'N/A'. */
  predicate Stormy(g: Scale) {
    Truthy(g) && g.value != "G0" && g.value != "N/A"
  }

  /** `recommendations`: a blackout warning unless the R scale is 'R0' or
      'N/A' (a null scale warns too); for a stormy G scale, an aurora note
      from level 3 and a tip; a note for flux above 150 or below 80; a note
      for good conditions; and "Normal Conditions" when nothing else
      applies, so the list is never empty. */
  function Recommendations(r: Scale, g: Scale, sfi: int): (recs: seq<string>)
    ensures recs != []
    ensures BlackoutRec in recs <==> r != Some("R0") && r != Some("N/A")
    ensures AuroraRec in recs <==> Stormy(g) && StormLevel(g.value) >= 3
    ensures StormTipRec in recs <==> Stormy(g)
    ensures HighFluxRec in recs <==> sfi > 150
    ensures LowFluxRec in recs <==> sfi < 80
    ensures GreatRec in recs <==> ConditionsGood(r, g)
    ensures NormalRec in recs <==> recs == [NormalRec]
    ensures recs == [NormalRec] <==>
              !(r != Some("R0") && r != Some("N/A")) && !Stormy(g) && 80 <= sfi <= 150 && !ConditionsGood(r, g)
  {
    var blackout := if r != Some("R0") && r != Some("N/A") then [BlackoutRec] else [];
    var storm := if Stormy(g) then (if StormLevel(g.value) >= 3 then [AuroraRec] else []) + [StormTipRec] else [];
    var flux := if sfi > 150 then [HighFluxRec] else if sfi < 80 then [LowFluxRec] else [];
    var great := if ConditionsGood(r, g) then [GreatRec] else [];
    var recs := blackout + storm + flux + great;
    if recs == [] then [NormalRec] else recs
  }

  /** Good conditions rule out the blackout warning. */
  lemma GoodMeansNoBlackout(r: Scale, g: Scale, sfi: int)
    requires ConditionsGood(r, g)
    ensures BlackoutRec !in Recommendations(r, g, sfi) && GreatRec in Recommendations(r, g, sfi)
  {
  }

  const DayBands: string := "**Best Now (Day):** 20m, 17m, 15m, 40m"
  const NightBands: string := "**Best Now (Night):** 80m, 40m, 30m"

  /** The day suggestion between 12:00 and 22:59 UTC, the night one otherwise. */
  function TimeSuggestion(hour: int): (s: string)
    ensures s == DayBands <==> 12 <= hour <= 22
    ensures s == NightBands <==> !(12 <= hour <= 22)
  {
    if 12 <= hour <= 22 then DayBands else NightBands
  }

  /** The report's colour: orange for good conditions, red otherwise. */
  function ReportColor(r: Scale, g: Scale): (c: int)
    ensures c == 0xFF9800 <==> ConditionsGood(r, g)
    ensures c == 0xF44336 <==> !ConditionsGood(r, g)
  {
    if ConditionsGood(r, g) then 0xFF9800 else 0xF44336
  }

  // ---------------------------------------------------------------------
  // The auto-poster's state

  /** The state file's values, after the `.get` defaults the cog applies. */
  datatype SolarState = SolarState(lastPosted: Option<string>, channelId: Option<int>, enabled: bool)

  const DefaultState: SolarState := SolarState(None, None, false)

  predicate ChannelSet(id: Option<int>) {
    id.Some? && id.value != 0
  }

  datatype Outcome = Denied | NoChannel | Done

  class SolarPoster {
    var lastPosted: Option<string>
    var channelId: Option<int>
    var enabled: bool

    /** `_load_state`: the saved state, or the default (nothing posted, no
        channel, disabled); then a channel id from `SOLAR_POST_CHANNEL_ID`
        when it is all digits. */
    constructor (saved: Option<SolarState>, envChannel: Option<string>)
      ensures var s := saved.GetOr(DefaultState);
              lastPosted == s.lastPosted && enabled == s.enabled
      ensures Truthy(envChannel) && IsDigits(envChannel.value) ==> channelId == Some(DigitsValue(envChannel.value))
      ensures !(Truthy(envChannel) && IsDigits(envChannel.value)) ==> channelId == saved.GetOr(DefaultState).channelId
    {
      var s := saved.GetOr(DefaultState);
      lastPosted := s.lastPosted;
      enabled := s.enabled;
      if Truthy(envChannel) && IsDigits(envChannel.value) {
        channelId := Some(DigitsValue(envChannel.value));
      } else {
        channelId := s.channelId;
      }
    }

    /** `solar_set_channel`: a member who may manage the server sets the
        channel (the given one, or the one the command was used in). */
    method SetChannel(permitted: bool, channel: int) returns (r: Outcome)
      modifies this
      ensures r == (if permitted then Done else Denied)
      ensures channelId == (if permitted then Some(channel) else old(channelId))
      ensures lastPosted == old(lastPosted) && enabled == old(enabled)
    {
      if !permitted {
        return Denied;
      }
      channelId := Some(channel);
      r := Done;
    }

    /** `solar_enable`: owner only, and refused without a channel; the flag
        is left alone when refused. */
    method Enable(isOwner: bool) returns (r: Outcome)
      modifies this
      ensures !isOwner ==> r == Denied
      ensures isOwner && !ChannelSet(old(channelId)) ==> r == NoChannel
      ensures r == Done <==> isOwner && ChannelSet(old(channelId))
      ensures enabled == (if r == Done then true else old(enabled))
      ensures lastPosted == old(lastPosted) && channelId == old(channelId)
    {
      if !isOwner {
        return Denied;
      }
      if !ChannelSet(channelId) {
        return NoChannel;
      }
      enabled := true;
      r := Done;
    }

    /** `solar_disable`: owner only; clears the flag. */
    method Disable(isOwner: bool) returns (r: Outcome)
      modifies this
      ensures r == (if isOwner then Done else Denied)
      ensures enabled == (if isOwner then false else old(enabled))
      ensures lastPosted == old(lastPosted) && channelId == old(channelId)
    {
      if !isOwner {
        return Denied;
      }
      enabled := false;
      r := Done;
    }
  }
}
