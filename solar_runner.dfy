/** The stand-alone solar runner: one pass that reads NOAA's space-weather
    scales and its daily geomagnetic indices, and posts a report with band
    recommendations for the hour. The environment, the two HTTP answers,
    the hour, the clock's timestamp and the Discord session are inputs. */
module SolarRunner {
  import opened Common
  import opened FeedItems
  import Secrets

  const NotAvailable: string := "N/A"

  /** A scale as reported: `current.get(X, {}).get('Scale', 'N/A') or 'N/A'`,
      so a missing, null or empty scale is 'N/A'. */
  function ScaleText(current: Option<map<string, Option<string>>>, letter: string): (t: string)
    ensures current.Some? && letter in current.value && Truthy(current.value[letter]) ==>
              t == current.value[letter].value
    ensures !(current.Some? && letter in current.value && Truthy(current.value[letter])) ==> t == NotAvailable
    ensures t != ""
  {
    if current.Some? && letter in current.value && Truthy(current.value[letter]) then current.value[letter].value
    else NotAvailable
  }

  /** The solar flux, A and K indices. */
  datatype Indices = Indices(sfi: string, aIndex: string, kIndex: string)

  const NoIndices: Indices := Indices(NotAvailable, NotAvailable, NotAvailable)

  /** Fields 3, 6 and 7 of a line of at least eight fields. */
  function LineIndices(fields: seq<string>): (r: Indices)
    ensures |fields| >= 8 ==> r == Indices(fields[3], fields[6], fields[7])
    ensures |fields| < 8 ==> r == NoIndices
  {
    if |fields| >= 8 then Indices(fields[3], fields[6], fields[7]) else NoIndices
  }

  /** The indices of the text file: fields 3, 6 and 7 of its last line,
      when the stripped text has more than one line and that line has at
      least eight fields. */
  function ParseIndices(text: string): (r: Indices)
    ensures |Split(Strip(text), '\n')| <= 1 ==> r == NoIndices
    ensures var lines := Split(Strip(text), '\n');
            |lines| > 1 ==> r == LineIndices(Words(lines[|lines| - 1]))
    ensures var lines := Split(Strip(text), '\n');
            var w := if |lines| > 1 then Words(lines[|lines| - 1]) else [];
            if |lines| > 1 && |w| >= 8 then r == Indices(w[3], w[6], w[7]) else r == NoIndices
  {
    var lines := Split(Strip(text), '\n');
    if |lines| > 1 then LineIndices(Words(lines[|lines| - 1])) else NoIndices
  }

  /** A report whose last line is eight or more space-separated fields,
      after a first line, yields that line's fields 3, 6 and 7. */
  lemma IndicesOfReport(header: string, fields: seq<string>)
    requires header != [] && !IsSpace(header[0]) && '\n' !in header
    requires |fields| >= 8 && forall i :: 0 <= i < |fields| ==> IsWord(fields[i])
    ensures ParseIndices(header + "\n" + JoinWith(fields, ' ')) == Indices(fields[3], fields[6], fields[7])
  {
    var line := JoinWith(fields, ' ');
    JoinWithAvoids(fields, ' ', '\n');
    LastWordEnds(fields);
    ReportLines(header, line);
    WordsOfJoin(fields);
  }

  /** Two lines that start and end without whitespace strip to themselves
      and split back into the two lines. */
  lemma ReportLines(header: string, line: string)
    requires header != [] && !IsSpace(header[0]) && '\n' !in header
    requires line != [] && !IsSpace(line[|line| - 1]) && '\n' !in line
    ensures Split(Strip(header + "\n" + line), '\n') == [header, line]
  {
    var text := header + "\n" + line;
    assert text[0] == header[0] && text[|text| - 1] == line[|line| - 1];
    StripUnchanged(text);
    SplitTwo(header, line, '\n');
  }

  /** Words joined by spaces end with the last word's last character. */
  lemma {:induction false} LastWordEnds(ws: seq<string>)
    requires ws != [] && forall i :: 0 <= i < |ws| ==> IsWord(ws[i])
    ensures var s := JoinWith(ws, ' '); s != [] && !IsSpace(s[0]) && !IsSpace(s[|s| - 1])
    decreases |ws|
  {
    if |ws| > 1 {
      LastWordEnds(ws[1..]);
    }
  }

  /** The report's values. */
  datatype SolarData = SolarData(rScale: string, sScale: string, gScale: string, indices: Indices)

  /** `fetch_solar_data`: None unless the scales answer is 200; the indices
      answer counts only when it is 200, and a request that fails outright
      raises, which also gives None. `scales` is the JSON's "0" entry when
      the answer is a dict that has one. */
  function FetchSolarData(scales: Response<Option<map<string, Option<string>>>>, indices: Response<string>)
    : (d: Option<SolarData>)
    ensures d.Some? <==> scales.Http? && scales.status == 200 && indices.Http?
    ensures d.Some? ==> d.value.rScale == ScaleText(scales.body, "R") && d.value.sScale == ScaleText(scales.body, "S")
                        && d.value.gScale == ScaleText(scales.body, "G")
    ensures d.Some? && indices.status != 200 ==> d.value.indices == NoIndices
    ensures d.Some? && indices.status == 200 ==> d.value.indices == ParseIndices(indices.body)
  {
    if scales.NetworkError? || scales.status != 200 || indices.NetworkError? then None
    else
      var ix := if indices.status == 200 then ParseIndices(indices.body) else NoIndices;
      Some(SolarData(ScaleText(scales.body, "R"), ScaleText(scales.body, "S"), ScaleText(scales.body, "G"), ix))
  }

  /** The day bands between 12:00 and 22:59 UTC, the night bands otherwise. */
  function BestBands(hour: int): (b: string)
    ensures 12 <= hour <= 22 <==> b == "**Best Bands:** 20m, 17m, 15m, 40m"
    ensures !(12 <= hour <= 22) <==> b == "**Best Bands:** 80m, 40m, 30m"
  {
    if 12 <= hour <= 22 then "**Best Bands:** 20m, 17m, 15m, 40m" else "**Best Bands:** 80m, 40m, 30m"
  }

  function Bold(value: string, note: string): string {
    "**" + value + "** - " + note
  }

  /** The report: the three scales and three indices in that order, then
      the recommended bands. */
  function SolarEmbed(d: SolarData, hour: int): (e: Embed)
    ensures |e.fields| == 7
    ensures e.fields[0].value == Bold(d.rScale, Notes[0])
    ensures e.fields[1].value == Bold(d.sScale, Notes[1])
    ensures e.fields[2].value == Bold(d.gScale, Notes[2])
    ensures e.fields[3].value == Bold(d.indices.sfi, Notes[3])
    ensures e.fields[4].value == Bold(d.indices.aIndex, Notes[4])
    ensures e.fields[5].value == Bold(d.indices.kIndex, Notes[5])
    ensures e.fields[6].value == BestBands(hour) && !e.fields[6].inline
    ensures forall i :: 0 <= i < 6 ==> e.fields[i].inline
  {
    Embed(ReportTitle, ReportDescription, None, Some(0xFF6F00),
          [Field(FieldNames[0], Bold(d.rScale, Notes[0]), true),
           Field(FieldNames[1], Bold(d.sScale, Notes[1]), true),
           Field(FieldNames[2], Bold(d.gScale, Notes[2]), true),
           Field(FieldNames[3], Bold(d.indices.sfi, Notes[3]), true),
           Field(FieldNames[4], Bold(d.indices.aIndex, Notes[4]), true),
           Field(FieldNames[5], Bold(d.indices.kIndex, Notes[5]), true),
           Field(FieldNames[6], BestBands(hour), false)],
          Some(ReportFooter))
  }

  const ReportTitle: string := "\U{2600}\U{FE0F} Solar Weather & Propagation Report"
  const ReportDescription: string := "Current space weather conditions from NOAA"
  const ReportFooter: string := "73 de Penguin Overlord! \U{2022} Use /solar for detailed info \U{2022} Posts every 12 hours"

  /** The notes after the six readings, in order. */
  const Notes: seq<string> := ["HF radio impacts", "Satellite/crew impacts", "Power grid/aurora",
                               "Higher is better for HF", "Geomagnetic activity", "Local magnetic field"]

  /** The report's field names, in order. */
  const FieldNames: seq<string> := [
    "\U{1F4E1} Radio Blackout (R-Scale)", "\U{1F6F0}\U{FE0F} Solar Radiation (S-Scale)",
    "\U{1F30D} Geomagnetic Storm (G-Scale)", "\U{1F4CA} Solar Flux Index (SFI)", "\U{1F9F2} A-Index",
    "\U{26A1} K-Index", "\U{1F4FB} Recommended Bands"]

  /** The exit value, the state left in the file, and the embed sent. */
  datatype Run = Run(ok: bool, state: map<string, string>, sent: Option<Embed>)

  /** `load_state` with no readable file is empty. */
  function LoadState(saved: Option<map<string, string>>): (s: map<string, string>)
    ensures saved.None? ==> s == map[]
    ensures saved.Some? ==> s == saved.value
  {
    saved.GetOr(map[])
  }

  /** `post_solar_update`: a missing token or channel, or a channel that is
      not an integer, fails before connecting. Once connected, the channel
      is resolved first and the data fetched second; the report is sent
      when both succeed, and only then is `last_posted` recorded. */
  function PostSolarUpdate(env: map<string, string>, saved: Option<map<string, string>>, data: Option<SolarData>,
                           hour: int, nowIso: string, d: Delivery): (r: Run)
    ensures !Truthy(Secrets.Getenv(env, "DISCORD_TOKEN")) || !Truthy(Secrets.Getenv(env, "SOLAR_POST_CHANNEL_ID")) ==>
              !r.ok && r.sent.None?
    ensures Truthy(Secrets.Getenv(env, "SOLAR_POST_CHANNEL_ID")) && PyInt(env["SOLAR_POST_CHANNEL_ID"]).None? ==>
              !r.ok && r.sent.None?
    ensures r.sent.Some? <==>
              && Truthy(Secrets.Getenv(env, "DISCORD_TOKEN")) && Truthy(Secrets.Getenv(env, "SOLAR_POST_CHANNEL_ID"))
              && PyInt(env["SOLAR_POST_CHANNEL_ID"]).Some? && d.channelFound && data.Some? && d.sendOk
    ensures r.sent.Some? ==> r.sent.value == SolarEmbed(data.value, hour)
                             && r.state == LoadState(saved)["last_posted" := nowIso]
    ensures r.sent.None? ==> r.state == LoadState(saved)
  {
    if !Truthy(Secrets.Getenv(env, "DISCORD_TOKEN")) then Run(false, LoadState(saved), None)
    else if !Truthy(Secrets.Getenv(env, "SOLAR_POST_CHANNEL_ID")) then Run(false, LoadState(saved), None)
    else if PyInt(env["SOLAR_POST_CHANNEL_ID"]).None? then Run(false, LoadState(saved), None)
    else if d.channelFound && data.Some? && d.sendOk then
      Run(d.clientOk, LoadState(saved)["last_posted" := nowIso], Some(SolarEmbed(data.value, hour)))
    else Run(d.clientOk, LoadState(saved), None)
  }
}
