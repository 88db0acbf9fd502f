/** The stand-alone comics runner: one pass that posts a tech comic at most
    once per UTC date. All three sources are fetched; the first that
    returned a comic, in the order XKCD, Joy of Tech, TurnOff.us, is posted.
    The environment, the saved file, today's date, the three fetch results
    and the Discord session are inputs. */
module ComicsRunner {
  import opened Common
  import Comics
  import Secrets

  datatype RunnerState = RunnerState(enabled: bool, lastPosted: Option<string>)

  /** `load_state` with no readable file. */
  const DefaultState: RunnerState := RunnerState(false, None)

  function LoadState(saved: Option<RunnerState>): (s: RunnerState)
    ensures saved.None? ==> !s.enabled && s.lastPosted.None?
    ensures saved.Some? ==> s == saved.value
  {
    saved.GetOr(DefaultState)
  }

  /** The first fetch that returned a comic; fetches that returned nothing
      or raised are `None`. */
  function FirstValid(results: seq<Option<Comics.TechComic>>): (c: Option<Comics.TechComic>)
    ensures c.None? <==> forall i :: 0 <= i < |results| ==> results[i].None?
    ensures c.Some? ==> exists i :: 0 <= i < |results| && results[i] == c
                                    && forall j :: 0 <= j < i ==> results[j].None?
  {
    if results == [] then None
    else if results[0].Some? then results[0]
    else
      var c := FirstValid(results[1..]);
      if c.Some? then
        ghost var i :| 0 <= i < |results[1..]| && results[1..][i] == c && forall j :: 0 <= j < i ==> results[1..][j].None?;
        assert results[i + 1] == c;
        c
      else
        assert forall i :: 1 <= i < |results| ==> results[i] == results[1..][i - 1];
        c
  }

  // The runner's emoji as its source file stores them (see `StoredBullet`):
  // an atom, a grinning face and a laptop as intended.
  const AtomIcon: string := "\U{201A}\U{00F6}\U{00F5}\U{00D4}\U{220F}\U{00E8}"
  const GrinIcon: string := "\U{F8FF}\U{00FC}\U{00F2}\U{00D1}"
  const LaptopIcon: string := "\U{F8FF}\U{00FC}\U{00ED}\U{00AA}"

  /** The runner's per-source emoji, display name and colour. An unknown
      source would be shown by `source.title()`; the model keeps the name
      as it is, because every comic the runner posts carries one of the
      three known sources (`Comics.SourceName`). */
  function SourceInfo(source: string): (info: (string, string, int))
    ensures source == "xkcd" ==> info == (AtomIcon, "XKCD", 0x96A8C8)
    ensures source == "joyoftech" ==> info == (GrinIcon, "Joy of Tech", 0xFF6B6B)
    ensures source == "turnoff" ==> info == (LaptopIcon, "TurnOff.us", 0x4ECDC4)
    ensures source !in ["xkcd", "joyoftech", "turnoff"] ==> info.0 == Comics.NewspaperIcon && info.2 == 0x95A5A6
  {
    if source == "xkcd" then (AtomIcon, "XKCD", 0x96A8C8)
    else if source == "joyoftech" then (GrinIcon, "Joy of Tech", 0xFF6B6B)
    else if source == "turnoff" then (LaptopIcon, "TurnOff.us", 0x4ECDC4)
    else (Comics.NewspaperIcon, source, 0x95A5A6)
  }

  /** The runner's embed: emoji and title, the comic's page, the source's
      colour, the alt text in italics when there is one, and a footer
      naming the source. */
  function RunnerEmbed(c: Comics.TechComic): (e: Embed)
    ensures e.title == SourceInfo(c.source).0 + " " + c.title
    ensures e.url == Some(c.url) && e.color == Some(SourceInfo(c.source).2)
    ensures Truthy(c.alt) ==> e.description == "_" + c.alt.value + "_"
    ensures !Truthy(c.alt) ==> e.description == ""
    ensures e.footer.Some? && StartsWith(e.footer.value, "Daily Tech Comic from " + SourceInfo(c.source).1)
  {
    var info := SourceInfo(c.source);
    var head := "Daily Tech Comic from " + info.1;
    var footer := head + " " + StoredBullet + " Use !comic for more";
    assert footer[..|head|] == head;
    Embed(info.0 + " " + c.title, if Truthy(c.alt) then "_" + c.alt.value + "_" else "", Some(c.url), Some(info.2), [],
          Some(footer))
  }

  /** The exit value, the state left in the file, and the embed sent. */
  datatype Run = Run(ok: bool, state: RunnerState, sent: Option<Embed>)

  /** `post_comic_update`. Both the disabled check and the once-a-day check
      come before the channel id is read as an integer. */
  function PostComicUpdate(env: map<string, string>, saved: Option<RunnerState>, today: string,
                           results: seq<Option<Comics.TechComic>>, d: Delivery): (r: Run)
    ensures r.sent.Some? <==>
              && Truthy(Secrets.Getenv(env, "DISCORD_TOKEN")) && Truthy(Secrets.Getenv(env, "COMIC_POST_CHANNEL_ID"))
              && LoadState(saved).enabled && LoadState(saved).lastPosted != Some(today)
              && PyInt(env["COMIC_POST_CHANNEL_ID"]).Some?
              && FirstValid(results).Some? && d.channelFound && d.sendOk
    ensures r.sent.Some? ==> r.sent.value == RunnerEmbed(FirstValid(results).value)
                             && r.state == LoadState(saved).(lastPosted := Some(today))
    ensures r.sent.None? ==> r.state == LoadState(saved)
    ensures !Truthy(Secrets.Getenv(env, "DISCORD_TOKEN")) || !Truthy(Secrets.Getenv(env, "COMIC_POST_CHANNEL_ID")) ==> !r.ok
    ensures Truthy(Secrets.Getenv(env, "DISCORD_TOKEN")) && Truthy(Secrets.Getenv(env, "COMIC_POST_CHANNEL_ID")) ==>
              && (!LoadState(saved).enabled ==> r.ok)
              && (LoadState(saved).lastPosted == Some(today) ==> r.ok)
              && (LoadState(saved).enabled && LoadState(saved).lastPosted != Some(today) ==>
                    && (PyInt(env["COMIC_POST_CHANNEL_ID"]).None? ==> !r.ok)
                    && (FirstValid(results).None? ==> !r.ok))
  {
    var state := LoadState(saved);
    if !Truthy(Secrets.Getenv(env, "DISCORD_TOKEN")) then Run(false, state, None)
    else if !Truthy(Secrets.Getenv(env, "COMIC_POST_CHANNEL_ID")) then Run(false, state, None)
    else if !state.enabled then Run(true, state, None)
    else if state.lastPosted == Some(today) then Run(true, state, None)
    else if PyInt(env["COMIC_POST_CHANNEL_ID"]).None? then Run(false, state, None)
    else
      var comic := FirstValid(results);
      if comic.None? then Run(false, state, None)
      else if d.channelFound && d.sendOk then
        Run(d.clientOk, state.(lastPosted := Some(today)), Some(RunnerEmbed(comic.value)))
      else Run(d.clientOk, state, None)
  }

  /** At most one post per UTC date: a second pass on the same day, on the
      state the first left, posts nothing and succeeds. */
  lemma OncePerDay(env: map<string, string>, saved: Option<RunnerState>, today: string,
                   results1: seq<Option<Comics.TechComic>>, results2: seq<Option<Comics.TechComic>>, d1: Delivery,
                   d2: Delivery)
    requires PostComicUpdate(env, saved, today, results1, d1).sent.Some?
    ensures var r2 := PostComicUpdate(env, Some(PostComicUpdate(env, saved, today, results1, d1).state), today, results2, d2);
            r2.ok && r2.sent.None?
  {
    var r1 := PostComicUpdate(env, saved, today, results1, d1);
    assert LoadState(Some(r1.state)).lastPosted == Some(today);
  }
}
