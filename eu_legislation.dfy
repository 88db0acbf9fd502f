/** The EU-legislation cog: items cut out of the feed text, the first
    recent unposted item of a source, the per-source window of the last 50
    posted links, the auto-poster's walk over the enabled sources, and the
    `eulegislation` slash command.

    The regular expressions are inputs: a feed arrives as whether its text
    contains `<item>`, the `<item>` blocks and the `<entry>` blocks, each
    block as the captures the cog searches for. */
module EuLegislation {
  import opened Common
  import opened FeedItems
  import opened LinkWindow
  import NewsManager

  /** `LEGISLATION_SOURCES`, keys in declaration order. */
  const LegislationSources: Sources := Sources(
    ["eurlex_parliament_council", "eurlex_proposals", "eurlex_official_journal"],
    map["eurlex_parliament_council" := "https://eur-lex.europa.eu/EN/display-feed.rss?rssId=162",
        "eurlex_proposals" := "https://eur-lex.europa.eu/EN/display-feed.rss?rssId=161",
        "eurlex_official_journal" := "https://eur-lex.europa.eu/EN/display-feed.rss?rssId=222"])

  function ToEntries(bs: seq<Block>, url: string, now: int, maxDays: int): (es: seq<Entry>)
    ensures |es| == |bs|
    ensures forall i :: 0 <= i < |bs| ==>
              es[i] == Entry(IsRecent(bs[i].dateText, bs[i].parsed, now, maxDays), BlockTitle(bs[i]), BlockLink(bs[i], url),
                             BlockDescription(bs[i]))
  {
    seq(|bs|, i requires 0 <= i < |bs| =>
      Entry(IsRecent(bs[i].dateText, bs[i].parsed, now, maxDays), BlockTitle(bs[i]), BlockLink(bs[i], url), BlockDescription(bs[i])))
  }

  /** The entries one fetch examines: the first ten blocks of a 200 answer. */
  function Examined(fetch: Response<Body>, url: string, now: int, maxDays: int): (es: seq<Entry>)
    ensures |es| <= ItemsExamined
  {
    if fetch.Http? && fetch.status == 200 then Examine(ToEntries(Blocks(fetch.body), url, now, maxDays)) else []
  }

  /** The sources a pass fetches: those NewsManager leaves enabled, in
      table order. */
  function EnabledSources(keys: seq<string>, config: NewsManager.Config): (r: seq<string>)
    ensures |r| <= |keys|
    ensures forall k :: k in r <==> k in keys && NewsManager.IsSourceEnabled(config, "eu_legislation", k)
  {
    if keys == [] then []
    else
      var front := EnabledSources(keys[..|keys| - 1], config);
      var key := keys[|keys| - 1];
      assert forall k :: k in keys <==> k in keys[..|keys| - 1] || k == key;
      if NewsManager.IsSourceEnabled(config, "eu_legislation", key) then front + [key] else front
  }

  /** What each known source's fetch examines in a pass. */
  function ExaminedAll(sources: Sources, fetches: map<string, Response<Body>>, now: int): map<string, seq<Entry>> {
    map k | k in sources.urls :: Examined(AnswerFor(fetches, k), sources.urls[k], now, 7)
  }

  /** What a pass sends comes from enabled sources of the table, at most one
      item per source, and every disabled or unknown source keeps its
      window. */
  lemma AutoPostEnabledOnly(keys: seq<string>, config: NewsManager.Config, examined: map<string, seq<Entry>>,
                            posted: map<string, seq<string>>)
    ensures var p := Walk(EnabledSources(keys, config), examined, posted);
            && |p.found| <= |keys|
            && (forall f :: f in p.found ==> f.source in keys && NewsManager.IsSourceEnabled(config, "eu_legislation", f.source))
            && (forall k :: k in posted && !(k in keys && NewsManager.IsSourceEnabled(config, "eu_legislation", k)) ==>
                  k in p.posted && p.posted[k] == posted[k])
  {
    WalkFoundFromKeys(EnabledSources(keys, config), examined, posted);
    WalkKeepsOthers(EnabledSources(keys, config), examined, posted);
  }

  /** How the slash command answers. */
  datatype CommandReply = Posted(item: Found) | NothingNew(sourceName: string) | KeyFailure

  /** The choices the slash command offers. */
  const CommandChoices: seq<string> := ["eurlex", "europarl_news", "council_press"]

  class EuLegislationCog {
    /** The source table the cog reads (`LegislationSources` in the bot). */
    const sources: Sources
    var postedItems: map<string, seq<string>>

    constructor (table: Sources, saved: Option<map<string, seq<string>>>)
      ensures sources == table && postedItems == saved.GetOr(map[])
    {
      sources := table;
      postedItems := saved.GetOr(map[]);
    }

    /** `_fetch_rss_feed`: None for an unknown key, a failed request, or
        when no examined block is both recent and unposted; otherwise that
        item, whose link becomes the newest of the source's last 50. */
    method FetchRssFeed(key: string, fetch: Response<Body>, now: int, maxDays: int) returns (r: Option<Found>)
      modifies this
      ensures key !in sources.urls ==> r.None? && postedItems == old(postedItems)
      ensures key in sources.urls ==>
                var es := Examined(fetch, sources.urls[key], now, maxDays);
                && postedItems == After(old(postedItems), key, es)
                && (r.Some? <==> FirstFresh(es, Window(old(postedItems), key)).Some?)
                && (r.Some? ==> var e := es[FirstFresh(es, Window(old(postedItems), key)).value];
                                r.value == Found(e.title, e.link, e.description, key))
    {
      if key !in sources.urls {
        return None;
      }
      var es := Examined(fetch, sources.urls[key], now, maxDays);
      var posted := postedItems;
      var idx, sawRecent := Scan(es, Window(posted, key));
      AfterSteps(posted, key, es, idx, sawRecent);
      posted := Touched(posted, key, sawRecent);
      match idx {
        case None =>
          r := None;
        case Some(i) =>
          posted := posted[key := AppendKeepLast(Window(posted, key), es[i].link, WindowSize)];
          r := Some(Found(es[i].title, es[i].link, es[i].description, key));
      }
      postedItems := posted;
    }

    /** `legislation_auto_poster`: nothing unless the news configuration's
        'eu_legislation' entry is enabled with a channel that resolves; then
        every source NewsManager leaves enabled is fetched once, in table
        order, and what is found is sent. */
    method AutoPost(config: NewsManager.Config, channelFound: bool, fetches: map<string, Response<Body>>, now: int)
      returns (sent: seq<Found>)
      modifies this
      ensures var c := NewsManager.CategoryConfig(config, "eu_legislation");
              !(NewsManager.IsEnabled(c) && NewsManager.HasChannel(c) && channelFound) ==>
                sent == [] && postedItems == old(postedItems)
      ensures var c := NewsManager.CategoryConfig(config, "eu_legislation");
              NewsManager.IsEnabled(c) && NewsManager.HasChannel(c) && channelFound ==>
                Pass(sent, postedItems)
                == Walk(EnabledSources(sources.keys, config), ExaminedAll(sources, fetches, now), old(postedItems))
    {
      sent := [];
      var c := NewsManager.CategoryConfig(config, "eu_legislation");
      if !(NewsManager.IsEnabled(c) && NewsManager.HasChannel(c) && channelFound) {
        return;
      }
      var examined := ExaminedAll(sources, fetches, now);
      var keys := sources.keys;
      var i := 0;
      while i < |keys|
        invariant 0 <= i <= |keys|
        invariant Pass(sent, postedItems) == Walk(EnabledSources(keys[..i], config), examined, old(postedItems))
      {
        assert keys[..i + 1][..i] == keys[..i];
        if NewsManager.IsSourceEnabled(config, "eu_legislation", keys[i]) {
          WalkAppend(EnabledSources(keys[..i], config), keys[i], examined, old(postedItems));
          var r := FetchRssFeed(keys[i], AnswerFor(fetches, keys[i]), now, 7);
          if r.Some? {
            sent := sent + [r.value];
          }
        }
        i := i + 1;
      }
      assert keys[..i] == keys;
    }

    /** `fetch_legislation`: the fetch, then on no result the reply names the
        source by looking its key up in the table, which raises KeyError for a
        key the table lacks. */
    method Command(choice: string, fetch: Response<Body>, now: int) returns (reply: CommandReply)
      modifies this
      ensures choice !in sources.urls ==> reply == KeyFailure && postedItems == old(postedItems)
      ensures choice in sources.urls ==> reply != KeyFailure
      ensures reply.Posted? ==> reply.item.source == choice
    {
      var r := FetchRssFeed(choice, fetch, now, 7);
      if r.Some? {
        return Posted(r.value);
      }
      if choice !in sources.urls {
        return KeyFailure;
      }
      reply := NothingNew(choice);
    }
  }

  /** As written, none of the slash command's choices is a table key, so
      every use of the command ends in KeyError. */
  lemma ChoicesMissTable()
    ensures forall ch :: ch in CommandChoices ==> ch !in LegislationSources.urls
  {
  }

  /** The choices the command evidently means are the table's own keys;
      with those, every choice is known to the fetch and the command never
      raises. */
  const IntendedChoices: seq<string> := LegislationSources.keys

  lemma IntendedChoicesInTable()
    ensures forall ch :: ch in IntendedChoices ==> ch in LegislationSources.urls
  {
  }
}
