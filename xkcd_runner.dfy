/** The stand-alone XKCD runner: one pass that loads the saved state,
    checks its configuration, fetches the latest comic and posts it when it
    is newer than the last one posted, then saves the new number. The
    environment, the saved file, the fetch, the channel lookup, the send and
    the client's start are inputs; the pass returns its exit value together
    with the state it leaves in the file. */
module XkcdRunner {
  import opened Common
  import opened Xkcd
  import Secrets

  datatype RunnerState = RunnerState(enabled: bool, lastPosted: int)

  /** `load_state` with no readable file. */
  const DefaultState: RunnerState := RunnerState(false, 0)

  function LoadState(saved: Option<RunnerState>): (s: RunnerState)
    ensures saved.None? ==> !s.enabled && s.lastPosted == 0
    ensures saved.Some? ==> s == saved.value
  {
    saved.GetOr(DefaultState)
  }

  /** The exit value, the state left in the file, and the embed sent. */
  datatype Run = Run(ok: bool, state: RunnerState, sent: Option<Embed>)

  /** `post_xkcd_update`. The disabled check comes before the channel id is
      read as an integer, so a disabled runner succeeds whatever the id. */
  function PostXkcdUpdate(env: map<string, string>, saved: Option<RunnerState>, comic: Option<Comic>, d: Delivery)
    : (r: Run)
    ensures r.sent.None? ==> r.state == LoadState(saved)
    ensures !Truthy(Secrets.Getenv(env, "DISCORD_TOKEN")) || !Truthy(Secrets.Getenv(env, "XKCD_POST_CHANNEL_ID")) ==>
              !r.ok && r.sent.None?
    ensures Truthy(Secrets.Getenv(env, "DISCORD_TOKEN")) && Truthy(Secrets.Getenv(env, "XKCD_POST_CHANNEL_ID")) ==>
              && (!LoadState(saved).enabled ==> r.ok && r.sent.None?)
              && (LoadState(saved).enabled && PyInt(env["XKCD_POST_CHANNEL_ID"]).None? ==> !r.ok && r.sent.None?)
    ensures comic.None? ==> r.sent.None?
    ensures comic.Some? && comic.value.num <= LoadState(saved).lastPosted ==> r.sent.None?
    ensures r.sent.Some? <==>
              && Truthy(Secrets.Getenv(env, "DISCORD_TOKEN")) && Truthy(Secrets.Getenv(env, "XKCD_POST_CHANNEL_ID"))
              && LoadState(saved).enabled && PyInt(env["XKCD_POST_CHANNEL_ID"]).Some?
              && comic.Some? && comic.value.num > LoadState(saved).lastPosted && d.channelFound && d.sendOk
    ensures r.sent.Some? ==> r.sent.value == ComicEmbed(comic.value, Footer(comic.value, true))
    ensures r.sent.Some? ==> r.state.lastPosted == comic.value.num && r.state.lastPosted > LoadState(saved).lastPosted
  {
    var state := LoadState(saved);
    if !Truthy(Secrets.Getenv(env, "DISCORD_TOKEN")) then Run(false, state, None)
    else if !Truthy(Secrets.Getenv(env, "XKCD_POST_CHANNEL_ID")) then Run(false, state, None)
    else if !state.enabled then Run(true, state, None)
    else if PyInt(env["XKCD_POST_CHANNEL_ID"]).None? then Run(false, state, None)
    else if comic.None? then Run(false, state, None)
    else if comic.value.num <= state.lastPosted then Run(true, state, None)
    else if d.channelFound && d.sendOk then
      Run(d.clientOk, state.(lastPosted := comic.value.num), Some(ComicEmbed(comic.value, Footer(comic.value, true))))
    else Run(d.clientOk, state, None)
  }

  /** After a pass that posted, running again on the state it saved with
      the same latest comic posts nothing: each comic is posted once. */
  lemma PostsEachComicOnce(env: map<string, string>, saved: Option<RunnerState>, comic: Option<Comic>, d1: Delivery,
                           d2: Delivery)
    requires PostXkcdUpdate(env, saved, comic, d1).sent.Some?
    ensures PostXkcdUpdate(env, Some(PostXkcdUpdate(env, saved, comic, d1).state), comic, d2).sent.None?
  {
    var r1 := PostXkcdUpdate(env, saved, comic, d1);
    assert LoadState(Some(r1.state)).lastPosted == comic.value.num;
  }

  /** The saved last-posted number never decreases from one pass to the next. */
  lemma LastPostedMonotone(env: map<string, string>, saved: Option<RunnerState>, comic: Option<Comic>, d: Delivery)
    ensures PostXkcdUpdate(env, saved, comic, d).state.lastPosted >= LoadState(saved).lastPosted
    ensures PostXkcdUpdate(env, saved, comic, d).state.enabled == LoadState(saved).enabled
  {
  }
}
