/** The general-news cog: RSS/Atom items parsed with an XML tree, the first
    recent unposted item of a source, the per-source window of the last 50
    posted links, and the auto-poster's walk over the sources.

    The XML tree is an input: a feed arrives as its Atom entries and its RSS
    items, each item as the texts of the elements the cog looks for. */
module GeneralNews {
  import opened Common
  import opened FeedItems
  import opened LinkWindow
  import NewsManager

  /** The source table (`NEWS_SOURCES`), keys in declaration order. */
  const NewsSources: Sources := Sources(
    ["npr_news", "pbs_economy", "financial_times", "pew_research", "nyt_homepage", "foreign_affairs",
     "politico", "bbc_health", "bbc_uk", "bbc_world", "bbc_news", "bbc_politics"],
    map["npr_news" := "https://feeds.npr.org/1001/rss.xml",
        "pbs_economy" := "https://www.pbs.org/newshour/feeds/rss/economy",
        "financial_times" := "https://www.ft.com/news-feed?format=rss",
        "pew_research" := "https://www.pewresearch.org/feed/",
        "nyt_homepage" := "https://rss.nytimes.com/services/xml/rss/nyt/HomePage.xml",
        "foreign_affairs" := "https://www.foreignaffairs.com/rss.xml",
        "politico" := "https://www.politico.com/rss/politicopicks.xml",
        "bbc_health" := "http://feeds.bbci.co.uk/news/health/rss.xml",
        "bbc_uk" := "http://feeds.bbci.co.uk/news/uk/rss.xml",
        "bbc_world" := "http://feeds.bbci.co.uk/news/world/rss.xml",
        "bbc_news" := "http://feeds.bbci.co.uk/news/rss.xml",
        "bbc_politics" := "http://feeds.bbci.co.uk/news/politics/rss.xml"])

  function ToEntry(item: XmlItem, url: string, now: int, maxDays: int): (e: Entry)
    ensures e.recent == IsRecent(item.dateText, item.parsed, now, maxDays)
    ensures e.title == XmlTitle(item) && e.link == XmlLink(item, url) && e.description == XmlDescription(item)
  {
    Entry(IsRecent(item.dateText, item.parsed, now, maxDays), XmlTitle(item), XmlLink(item, url), XmlDescription(item))
  }

  function ToEntries(items: seq<XmlItem>, url: string, now: int, maxDays: int): (es: seq<Entry>)
    ensures |es| == |items|
    ensures forall i :: 0 <= i < |items| ==> es[i] == ToEntry(items[i], url, now, maxDays)
  {
    seq(|items|, i requires 0 <= i < |items| => ToEntry(items[i], url, now, maxDays))
  }

  /** The entries one fetch examines: the first ten items of a well-formed
      200 answer; none otherwise. */
  function Examined(fetch: Response<Xml>, url: string, now: int, maxDays: int): (es: seq<Entry>)
    ensures |es| <= ItemsExamined
  {
    if fetch.Http? && fetch.status == 200 && fetch.body.Tree? then
      Examine(ToEntries(Items(fetch.body), url, now, maxDays))
    else []
  }

  /** `news_auto_poster`'s per-source test: with the switches NewsManager
      stores (`sources` maps keys to booleans), a source whose entry is false
      is skipped. See `SourceCheckAsWritten` for what the code does. */
  predicate SourceEnabled(flags: map<string, bool>, key: string) {
    !(key in flags && !flags[key])
  }

  /** The test as written: `sources_config[key].get('enabled', True)` is a
      method call on a boolean, so any source with an entry raises
      AttributeError, which ends the whole pass. */
  datatype Check = Proceed | Raises

  function SourceCheckAsWritten(flags: map<string, bool>, key: string): (c: Check)
    ensures c == Raises <==> key in flags
  {
    if key in flags then Raises else Proceed
  }

  /** The sources a pass reaches: those before the first key with an entry
      in `sources`, where the test raises and the pass ends. */
  function Reached(keys: seq<string>, flags: map<string, bool>): (r: seq<string>)
    ensures |r| <= |keys| && r == keys[..|r|]
    ensures forall k :: k in r ==> SourceCheckAsWritten(flags, k) == Proceed
    ensures |r| < |keys| ==> SourceCheckAsWritten(flags, keys[|r|]) == Raises
  {
    if keys == [] || keys[0] in flags then [] else [keys[0]] + Reached(keys[1..], flags)
  }

  /** What each known source's fetch examines in a pass. */
  function ExaminedAll(sources: Sources, fetches: map<string, Response<Xml>>, now: int): map<string, seq<Entry>> {
    map k | k in sources.urls :: Examined(AnswerFor(fetches, k), sources.urls[k], now, 7)
  }

  /** Switching a general-news source through NewsManager once (either way)
      makes every later pass raise at that source. */
  lemma ToggledSourceRaises(config: NewsManager.Config, key: string)
    requires "general_news" in config && config["general_news"].sources.Some?
    ensures var c := NewsManager.CategoryConfig(NewsManager.Toggle(config, "general_news", key), "general_news");
            SourceCheckAsWritten(c.sources.GetOr(map[]), key) == Raises
  {
  }

  /** The intended test agrees with NewsManager's `is_source_enabled`. */
  lemma SourceEnabledMatchesManager(config: NewsManager.Config, key: string)
    requires "general_news" in config
    ensures SourceEnabled(NewsManager.CategoryConfig(config, "general_news").sources.GetOr(map[]), key)
            == NewsManager.IsSourceEnabled(config, "general_news", key)
  {
  }

  /** The cog's persisted state: the posted links per source. */
  class GeneralNewsCog {
    /** The source table the cog reads (`NewsSources` in the bot). */
    const sources: Sources
    var postedItems: map<string, seq<string>>

    /** `_load_state`: the saved map, or an empty one. */
    constructor (table: Sources, saved: Option<map<string, seq<string>>>)
      ensures sources == table && postedItems == saved.GetOr(map[])
    {
      sources := table;
      postedItems := saved.GetOr(map[]);
    }

    /** `_fetch_rss_feed`: None for an unknown key, a failed request or
        document, or when no examined item is both recent and unposted;
        otherwise that item, whose link becomes the newest of the source's
        last 50. */
    method FetchRssFeed(key: string, fetch: Response<Xml>, now: int, maxDays: int) returns (r: Option<Found>)
      modifies this
      ensures key !in sources.urls ==> r.None? && postedItems == old(postedItems)
      ensures key in sources.urls ==>
                var es := Examined(fetch, sources.urls[key], now, maxDays);
                && postedItems == After(old(postedItems), key, es)
                && (r.Some? <==> FirstFresh(es, Window(old(postedItems), key)).Some?)
                && (r.Some? ==> var e := es[FirstFresh(es, Window(old(postedItems), key)).value];
                                r.value == Found(e.title, e.link, e.description, key))
    {
      if key !in sources.urls {
        return None;
      }
      var es := Examined(fetch, sources.urls[key], now, maxDays);
      var posted := postedItems;
      var idx, sawRecent := Scan(es, Window(posted, key));
      AfterSteps(posted, key, es, idx, sawRecent);
      posted := Touched(posted, key, sawRecent);
      match idx {
        case None =>
          r := None;
        case Some(i) =>
          posted := posted[key := AppendKeepLast(Window(posted, key), es[i].link, WindowSize)];
          r := Some(Found(es[i].title, es[i].link, es[i].description, key));
      }
      postedItems := posted;
    }

    /** `news_auto_poster`: nothing unless the news configuration's
        'general_news' entry is enabled with a channel; then the sources are
        fetched once each, in table order, until the first one with an entry
        in `sources`, where the per-source test raises and the pass ends.
        The result lists the items found; each is sent when the channel
        resolves, and its link is recorded either way. */
    method AutoPost(config: NewsManager.Config, fetches: map<string, Response<Xml>>, now: int)
      returns (found: seq<Found>)
      modifies this
      ensures var c := NewsManager.CategoryConfig(config, "general_news");
              !(NewsManager.IsEnabled(c) && NewsManager.HasChannel(c)) ==> found == [] && postedItems == old(postedItems)
      ensures var c := NewsManager.CategoryConfig(config, "general_news");
              NewsManager.IsEnabled(c) && NewsManager.HasChannel(c) ==>
                Pass(found, postedItems)
                == Walk(Reached(sources.keys, c.sources.GetOr(map[])), ExaminedAll(sources, fetches, now), old(postedItems))
    {
      found := [];
      var c := NewsManager.CategoryConfig(config, "general_news");
      if !(NewsManager.IsEnabled(c) && NewsManager.HasChannel(c)) {
        return;
      }
      var flags := c.sources.GetOr(map[]);
      var examined := ExaminedAll(sources, fetches, now);
      var keys := sources.keys;
      var i := 0;
      while i < |keys| && SourceCheckAsWritten(flags, keys[i]) == Proceed
        invariant 0 <= i <= |keys|
        invariant forall j :: 0 <= j < i ==> keys[j] !in flags
        invariant Pass(found, postedItems) == Walk(keys[..i], examined, old(postedItems))
      {
        var r := FetchRssFeed(keys[i], AnswerFor(fetches, keys[i]), now, 7);
        if r.Some? {
          found := found + [r.value];
        }
        WalkSnoc(keys, i, examined, old(postedItems));
        i := i + 1;
      }
      ReachedIs(keys, flags, i);
    }
  }

  /** A prefix with no flagged key, followed by a flagged key or the end, is
      what a pass reaches. */
  lemma {:induction false} ReachedIs(keys: seq<string>, flags: map<string, bool>, i: nat)
    requires i <= |keys|
    requires forall j :: 0 <= j < i ==> keys[j] !in flags
    requires i == |keys| || keys[i] in flags
    ensures Reached(keys, flags) == keys[..i]
  {
    if i > 0 {
      ReachedIs(keys[1..], flags, i - 1);
      assert keys[..i] == [keys[0]] + keys[1..][..i - 1];
    }
  }

  /** What a pass finds comes from sources it reached, at most one item per
      source, and every source it does not reach keeps its window. */
  lemma AutoPostReach(keys: seq<string>, flags: map<string, bool>, examined: map<string, seq<Entry>>,
                      posted: map<string, seq<string>>)
    ensures var p := Walk(Reached(keys, flags), examined, posted);
            && (forall f :: f in p.found ==> f.source in keys && f.source !in flags)
            && (forall k :: k in posted && k !in Reached(keys, flags) ==> k in p.posted && p.posted[k] == posted[k])
  {
    var r := Reached(keys, flags);
    WalkFoundFromKeys(r, examined, posted);
    WalkKeepsOthers(r, examined, posted);
    assert forall k :: k in r ==> k in keys;
  }
}
