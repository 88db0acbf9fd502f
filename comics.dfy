/** The tech-comics cog: the latest comic of XKCD, Joy of Tech or
    TurnOff.us on demand, explanations of XKCD comics, and a daily post at
    09:00 UTC to a configured channel. The feeds' regular-expression
    captures, HTML unescaping, the random choice of a source, the clock and
    Discord are inputs. */
module Comics {
  import opened Common
  import opened FeedItems
  import Xkcd

  /** The three comic sources. */
  datatype ComicSource = XkcdComics | JoyOfTech | TurnOff

  /** The name a source's comics carry. */
  function SourceName(s: ComicSource): (name: string)
    ensures name in ["xkcd", "joyoftech", "turnoff"]
  {
    match s
    case XkcdComics => "xkcd"
    case JoyOfTech => "joyoftech"
    case TurnOff => "turnoff"
  }

  /** A fetched comic: the source's name, title, page, image and, for
      XKCD, the alt text. */
  datatype TechComic = TechComic(source: string, title: string, url: string, img: string, alt: Option<string>)

  /** `_fetch_xkcd`: a 200 answer becomes a comic whose page is
      `https://xkcd.com/<num>/` and whose missing text fields are empty. */
  function FetchXkcd(resp: Response<Xkcd.Comic>): (c: Option<TechComic>)
    ensures c.Some? <==> resp.Http? && resp.status == 200
    ensures c.Some? ==> c.value.source == "xkcd" && c.value.alt == Some(resp.body.alt.GetOr(""))
                        && c.value.url == "https://xkcd.com/" + IntToString(resp.body.num) + "/"
  {
    if resp.NetworkError? || resp.status != 200 then None
    else
      var d := resp.body;
      Some(TechComic("xkcd", d.title, "https://xkcd.com/" + IntToString(d.num) + "/", d.img, Some(d.alt.GetOr(""))))
  }

  /** What the RSS sources' regular expressions capture: the first item's
      title and link, the description, and the first `<img src="...">` of
      that description (after HTML unescaping for TurnOff.us). */
  datatype RssCaptures = RssCaptures(title: Option<string>, link: Option<string>, description: Option<string>,
                                     img: Option<string>)

  /** `_fetch_joyoftech` and `_fetch_turnoff`: a comic only when a 200
      answer has all three captures and an image in the description; the
      title and link are stripped. */
  function FetchRss(source: ComicSource, resp: Response<RssCaptures>): (c: Option<TechComic>)
    requires source != XkcdComics
    ensures c.Some? <==> resp.Http? && resp.status == 200 && resp.body.title.Some? && resp.body.link.Some?
                         && resp.body.description.Some? && resp.body.img.Some?
    ensures c.Some? ==> c.value == TechComic(SourceName(source), Strip(resp.body.title.value),
                                             Strip(resp.body.link.value), resp.body.img.value, None)
  {
    if resp.NetworkError? || resp.status != 200 then None
    else
      var b := resp.body;
      if b.title.Some? && b.link.Some? && b.description.Some? && b.img.Some? then
        Some(TechComic(SourceName(source), Strip(b.title.value), Strip(b.link.value), b.img.value, None))
      else None
  }

  // ---------------------------------------------------------------------
  // Explanations

  const ExplainLimit: nat := 500

  /** An explanation longer than 500 characters is cut to its first 497
      and "..."; shorter ones are kept whole. */
  function ExplainText(extract: string): (r: string)
    ensures |r| <= ExplainLimit
    ensures |extract| <= ExplainLimit ==> r == extract
    ensures |extract| > ExplainLimit ==> |r| == ExplainLimit && r[..ExplainLimit - 3] == extract[..ExplainLimit - 3]
                                         && r[ExplainLimit - 3..] == "..."
  {
    if |extract| > ExplainLimit then extract[..ExplainLimit - 3] + "..." else extract
  }

  /** A page of the explainxkcd answer: its id and its extract (empty when
      absent). */
  datatype Page = Page(id: string, extract: string)

  /** `_fetch_xkcd_explain`: the first page whose id is not '-1', cut by
      `ExplainText`; None for another status or when every page is '-1'. */
  function FetchExplain(resp: Response<seq<Page>>): (r: Option<string>)
    ensures r.Some? <==> resp.Http? && resp.status == 200 && exists i :: 0 <= i < |resp.body| && resp.body[i].id != "-1"
    ensures r.Some? ==> exists i :: 0 <= i < |resp.body| && resp.body[i].id != "-1"
                         && (forall j :: 0 <= j < i ==> resp.body[j].id == "-1")
                         && r.value == ExplainText(resp.body[i].extract)
  {
    if resp.NetworkError? || resp.status != 200 then None else FirstPage(resp.body)
  }

  function FirstPage(pages: seq<Page>): (r: Option<string>)
    ensures r.Some? <==> exists i :: 0 <= i < |pages| && pages[i].id != "-1"
    ensures r.Some? ==> exists i :: 0 <= i < |pages| && pages[i].id != "-1"
                         && (forall j :: 0 <= j < i ==> pages[j].id == "-1")
                         && r.value == ExplainText(pages[i].extract)
  {
    if pages == [] then None
    else if pages[0].id != "-1" then Some(ExplainText(pages[0].extract))
    else
      var r := FirstPage(pages[1..]);
      if r.Some? then
        ghost var i :| 0 <= i < |pages[1..]| && pages[1..][i].id != "-1"
                       && (forall j :: 0 <= j < i ==> pages[1..][j].id == "-1")
                       && r.value == ExplainText(pages[1..][i].extract);
        assert pages[i + 1].id != "-1";
        r
      else
        assert forall i :: 1 <= i < |pages| ==> pages[i] == pages[1..][i - 1];
        r
  }

  /** `comic_trivia`: an explanation that is missing or empty is reported
      as not found. */
  function TriviaEmbed(number: int, explanation: Option<string>): (e: Option<Embed>)
    ensures e.Some? <==> Truthy(explanation)
    ensures e.Some? ==> e.value.description == explanation.value
                        && e.value.url == Some("https://www.explainxkcd.com/wiki/index.php/" + IntToString(number))
  {
    if !Truthy(explanation) then None
    else
      Some(Embed(NerdIcon + " XKCD #" + IntToString(number) + " Explanation", explanation.value,
                 Some("https://www.explainxkcd.com/wiki/index.php/" + IntToString(number)), Some(Green), [],
                 Some("Source: explainxkcd.com")))
  }

  // ---------------------------------------------------------------------
  // Embeds

  const Blue: int := 0x3498DB
  const Green: int := 0x2ECC71
  const AltLimit: nat := 200

  // The icons as the cog's source file stores them (see `StoredBullet`):
  // a nerd face, a laughing face, a wrench and a newspaper as intended.
  const NerdIcon: string := "\U{F8FF}\U{00FC}\U{00A7}\U{00EC}"
  const LaughIcon: string := "\U{F8FF}\U{00FC}\U{00F2}\U{00C7}"
  const WrenchIcon: string := "\U{F8FF}\U{00FC}\U{00EE}\U{00DF}"
  const NewspaperIcon: string := "\U{F8FF}\U{00FC}\U{00EC}\U{221E}"

  /** Each source's icon; anything else gets a newspaper. */
  function Icon(source: string): (icon: string)
    ensures source == "xkcd" ==> icon == NerdIcon
    ensures source == "joyoftech" ==> icon == LaughIcon
    ensures source == "turnoff" ==> icon == WrenchIcon
    ensures source !in ["xkcd", "joyoftech", "turnoff"] ==> icon == NewspaperIcon
  {
    if source == "xkcd" then NerdIcon
    else if source == "joyoftech" then LaughIcon
    else if source == "turnoff" then WrenchIcon
    else NewspaperIcon
  }

  /** The footer: XKCD's alt text cut to 200 characters when there is
      alt text; otherwise the source in capitals and the command that
      fetches more of it. */
  function ComicFooter(c: TechComic): (f: string)
    ensures c.source == "xkcd" && Truthy(c.alt) ==>
              f == "Alt: " + c.alt.value[..if |c.alt.value| <= AltLimit then |c.alt.value| else AltLimit]
    ensures !(c.source == "xkcd" && Truthy(c.alt)) ==>
              StartsWith(f, "Source: " + Upper(c.source)) && EndsWith(f, "Use !comic " + c.source + " for more")
  {
    if c.source == "xkcd" && Truthy(c.alt) then
      "Alt: " + c.alt.value[..if |c.alt.value| <= AltLimit then |c.alt.value| else AltLimit]
    else
      var head := "Source: " + Upper(c.source);
      var tail := "Use !comic " + c.source + " for more";
      var f := head + " " + StoredBullet + " " + tail;
      assert f[..|head|] == head;
      assert f[|f| - |tail|..] == tail;
      f
  }

  /** `_create_embed`: the icon and title, the comic's page, and the footer. */
  function ComicEmbed(c: TechComic): (e: Embed)
    ensures e.title == Icon(c.source) + " " + c.title
    ensures e.url == Some(c.url) && e.footer == Some(ComicFooter(c))
  {
    Embed(Icon(c.source) + " " + c.title, "", Some(c.url), Some(Blue), [], Some(ComicFooter(c)))
  }

  const DailyPrefix: string := NewspaperIcon + " Daily Tech Comic: "

  /** The daily post's embed: the comic embed under a "Daily Tech Comic" title. */
  function DailyEmbed(c: TechComic): (e: Embed)
    ensures e.title == DailyPrefix + ComicEmbed(c).title
    ensures e.(title := ComicEmbed(c).title) == ComicEmbed(c)
  {
    ComicEmbed(c).(title := DailyPrefix + ComicEmbed(c).title)
  }

  // ---------------------------------------------------------------------
  // The `comic` command

  /** A source argument after lower-casing: 'random' takes the random pick,
      'joy' and 'jot' mean Joy of Tech, 'turn' means TurnOff.us; anything
      else is unknown. */
  function ResolveSource(arg: string, pick: ComicSource): (s: Option<ComicSource>)
    ensures Lower(arg) == "random" ==> s == Some(pick)
    ensures Lower(arg) in ["joyoftech", "joy", "jot"] ==> s == Some(JoyOfTech)
    ensures Lower(arg) in ["turnoff", "turn"] ==> s == Some(TurnOff)
    ensures Lower(arg) == "xkcd" ==> s == Some(XkcdComics)
    ensures s.None? <==> Lower(arg) !in ["random", "xkcd", "joyoftech", "joy", "jot", "turnoff", "turn"]
  {
    var a := Lower(arg);
    if a == "random" then Some(pick)
    else if a == "xkcd" then Some(XkcdComics)
    else if a in ["joyoftech", "joy", "jot"] then Some(JoyOfTech)
    else if a in ["turnoff", "turn"] then Some(TurnOff)
    else None
  }

  /** Every source is reachable both by name and by the random pick. */
  lemma EverySourceReachable(s: ComicSource)
    ensures ResolveSource(SourceName(s), s) == Some(s)
    ensures ResolveSource("random", s) == Some(s)
  {
    assert Lower("random") == "random";
    match s
    case XkcdComics => assert Lower("xkcd") == "xkcd";
    case JoyOfTech => assert Lower("joyoftech") == "joyoftech";
    case TurnOff => assert Lower("turnoff") == "turnoff";
  }

  datatype ComicReply = UnknownSource | FetchFailed | NotPermitted | Show(embed: Embed)

  /** `comic`: an unknown source is refused before any fetch; `fetched` is
      what the resolved source's fetch returned. */
  function ComicCommand(arg: string, pick: ComicSource, fetched: Option<TechComic>): (r: ComicReply)
    ensures ResolveSource(arg, pick).None? <==> r == UnknownSource
    ensures ResolveSource(arg, pick).Some? && fetched.None? ==> r == FetchFailed
    ensures r != NotPermitted
    ensures r.Show? ==> fetched.Some? && r.embed == ComicEmbed(fetched.value)
    ensures ResolveSource(arg, pick).Some? && fetched.Some? ==> r == Show(ComicEmbed(fetched.value))
  {
    if ResolveSource(arg, pick).None? then UnknownSource
    else if fetched.None? then FetchFailed
    else Show(ComicEmbed(fetched.value))
  }

  // ---------------------------------------------------------------------
  // The daily schedule

  const MicrosPerSecond: int := 1000000
  const MicrosPerDay: int := 86400 * MicrosPerSecond
  const PostHour: int := 9

  /** A UTC time of day as `datetime` holds it. */
  datatype TimeOfDay = TimeOfDay(hour: int, minute: int, second: int, micro: int)

  predicate ValidTime(t: TimeOfDay) {
    0 <= t.hour < 24 && 0 <= t.minute < 60 && 0 <= t.second < 60 && 0 <= t.micro < MicrosPerSecond
  }

  function MicrosOfDay(t: TimeOfDay): int {
    ((t.hour * 60 + t.minute) * 60 + t.second) * MicrosPerSecond + t.micro
  }

  /** `before_daily_poster`: the wait, in microseconds, until 09:00 today
      when the hour is before 9, else until 09:00 tomorrow. It is positive,
      at most a day, and ends exactly at 09:00. */
  function WaitUntilPost(now: TimeOfDay): (wait: int)
    requires ValidTime(now)
    ensures 0 < wait <= MicrosPerDay
    ensures (MicrosOfDay(now) + wait) % MicrosPerDay == PostHour * 3600 * MicrosPerSecond
    ensures now.hour < PostHour <==> MicrosOfDay(now) + wait < MicrosPerDay
  {
    var target := PostHour * 3600 * MicrosPerSecond + (if now.hour >= PostHour then MicrosPerDay else 0);
    target - MicrosOfDay(now)
  }

  // ---------------------------------------------------------------------
  // The cog's state

  /** The state file's values, after the `.get` defaults the cog applies. */
  datatype ComicState = ComicState(lastPosted: Option<string>, channelId: Option<int>, enabled: bool, source: string)

  const DefaultState: ComicState := ComicState(None, None, true, "random")

  predicate ChannelSet(id: Option<int>) {
    id.Some? && id.value != 0
  }

  datatype Outcome = Denied | InvalidChannel | Done

  class ComicsCog {
    var lastPosted: Option<string>
    var channelId: Option<int>
    var enabled: bool
    var source: string

    /** `__init__`: the saved state, or the default; then a channel id from
        `COMIC_POST_CHANNEL_ID` when it is all digits. */
    constructor (saved: Option<ComicState>, envChannel: Option<string>)
      ensures var s := saved.GetOr(DefaultState);
              lastPosted == s.lastPosted && enabled == s.enabled && source == s.source
      ensures Truthy(envChannel) && IsDigits(envChannel.value) ==> channelId == Some(DigitsValue(envChannel.value))
      ensures !(Truthy(envChannel) && IsDigits(envChannel.value)) ==> channelId == saved.GetOr(DefaultState).channelId
    {
      var s := saved.GetOr(DefaultState);
      lastPosted := s.lastPosted;
      enabled := s.enabled;
      source := s.source;
      if Truthy(envChannel) && IsDigits(envChannel.value) {
        channelId := Some(DigitsValue(envChannel.value));
      } else {
        channelId := s.channelId;
      }
    }

    /** `daily_comic_poster`: nothing when disabled, without a channel, or
        when the channel does not resolve; otherwise the comic fetched from
        the randomly picked source is sent, and only a sent comic sets
        `lastPosted` to the current time `nowIso`. */
    method DailyPost(channelFound: bool, fetched: Option<TechComic>, sendOk: bool, nowIso: string)
      returns (sent: Option<Embed>)
      modifies this
      ensures sent.Some? <==> old(enabled) && ChannelSet(old(channelId)) && channelFound && fetched.Some? && sendOk
      ensures sent.Some? ==> sent.value == DailyEmbed(fetched.value) && lastPosted == Some(nowIso)
      ensures sent.None? ==> lastPosted == old(lastPosted)
      ensures channelId == old(channelId) && enabled == old(enabled) && source == old(source)
    {
      sent := None;
      if !enabled || !ChannelSet(channelId) || !channelFound {
        return;
      }
      if fetched.Some? && sendOk {
        sent := Some(DailyEmbed(fetched.value));
        lastPosted := Some(nowIso);
      }
    }

    /** `daily_comic`: the owner or a guild manager gets the daily embed in
        the invoking channel; the state is not touched. */
    method DailyCommand(permitted: bool, fetched: Option<TechComic>) returns (r: ComicReply)
      ensures !permitted ==> r == NotPermitted
      ensures permitted && fetched.None? ==> r == FetchFailed
      ensures r.Show? <==> permitted && fetched.Some?
      ensures r.Show? ==> r.embed == DailyEmbed(fetched.value)
    {
      if !permitted {
        return NotPermitted;
      }
      if fetched.None? {
        return FetchFailed;
      }
      r := Show(DailyEmbed(fetched.value));
    }

    /** `comic_set_channel`: a `<#id>` mention or a raw id, for the owner or
        a guild manager; anything else changes nothing. */
    method SetChannel(permitted: bool, arg: string) returns (r: Outcome)
      modifies this
      ensures !permitted ==> r == Denied
      ensures r == Done <==> permitted && ChannelArgument(arg).Some?
      ensures permitted && ChannelArgument(arg).None? ==> r == InvalidChannel
      ensures r == Done ==> channelId == ChannelArgument(arg)
      ensures r != Done ==> channelId == old(channelId)
      ensures lastPosted == old(lastPosted) && enabled == old(enabled) && source == old(source)
    {
      if !permitted {
        return Denied;
      }
      var id := ChannelArgument(arg);
      if id.None? {
        return InvalidChannel;
      }
      channelId := id;
      r := Done;
    }

    /** `comic_enable` and `comic_disable`: owner only. */
    method SetEnabled(isOwner: bool, on: bool) returns (r: Outcome)
      modifies this
      ensures r == (if isOwner then Done else Denied)
      ensures enabled == (if isOwner then on else old(enabled))
      ensures lastPosted == old(lastPosted) && channelId == old(channelId) && source == old(source)
    {
      if !isOwner {
        return Denied;
      }
      enabled := on;
      r := Done;
    }
  }
}
