/** The four news cogs that remember one link per source (cybersecurity,
    tech, gaming, Apple/Google). They differ only in the news category they
    read from NewsManager, their source table, and how they read a feed:
    cybersecurity and tech cut the text with regular expressions, gaming
    and Apple/Google parse it as XML. Each fetch takes the feed's first
    item; the poster sends it unless its link is the one last posted for
    that source. */
module LastLinkNews {
  import opened Common
  import opened FeedItems
  import NewsManager

  /** A few entries of the Apple/Google table: two keys share one feed. */
  const AppleGoogleSample: Sources := Sources(
    ["9to5mac", "9to5toys_apple", "9to5google", "9to5toys_google"],
    map["9to5mac" := "https://9to5mac.com/feed/",
        "9to5toys_apple" := "https://9to5toys.com/feed/",
        "9to5google" := "https://9to5google.com/feed/",
        "9to5toys_google" := "https://9to5toys.com/feed/"])

  /** `_fetch_rss_feed` of the cybersecurity and tech cogs: the first block
      of a 200 answer, None (the `(None, None, None)` triple) for an unknown
      key, another status, a failed request or a text without blocks. */
  function RegexFirstArticle(sources: Sources, key: string, resp: Response<Body>): (a: Option<Article>)
    ensures key !in sources.urls ==> a.None?
    ensures a.Some? <==> key in sources.urls && resp.Http? && resp.status == 200 && Blocks(resp.body) != []
    ensures a.Some? ==> a.value == BlockArticle(Blocks(resp.body)[0], sources.urls[key])
    ensures a.Some? ==> ShortDescription(a.value.description)
  {
    if key !in sources.urls then None
    else if resp.NetworkError? || resp.status != 200 then None
    else
      var bs := Blocks(resp.body);
      if bs == [] then None else Some(BlockArticle(bs[0], sources.urls[key]))
  }

  /** `_fetch_rss_feed` of the gaming and Apple/Google cogs: the first Atom
      entry, else the first RSS item, of a well-formed 200 answer; None for an
      unknown key, another status, a parse error or an empty feed. */
  function XmlFirstArticle(sources: Sources, key: string, resp: Response<Xml>): (a: Option<Article>)
    ensures key !in sources.urls ==> a.None?
    ensures resp.Http? && resp.body.Malformed? ==> a.None?
    ensures a.Some? <==> key in sources.urls && resp.Http? && resp.status == 200 && resp.body.Tree? && Items(resp.body) != []
    ensures a.Some? ==> a.value == XmlArticle(Items(resp.body)[0], sources.urls[key])
    ensures a.Some? && resp.body.atomEntries != [] ==> a.value == XmlArticle(resp.body.atomEntries[0], sources.urls[key])
  {
    if key !in sources.urls then None
    else if resp.NetworkError? || resp.status != 200 || resp.body.Malformed? then None
    else
      var items := Items(resp.body);
      if items == [] then None else Some(XmlArticle(items[0], sources.urls[key]))
  }

  /** `title` and `link` both non-empty. */
  predicate Postable(a: Option<Article>) {
    a.Some? && a.value.title != "" && a.value.link != ""
  }

  function LastFor(last: map<string, string>, key: string): Option<string> {
    if key in last then Some(last[key]) else None
  }

  /** A source's article is sent iff NewsManager leaves the source enabled,
      the article has a title and a link, and the link is not the one last
      posted for that source. */
  predicate ShouldSend(config: NewsManager.Config, category: string, last: map<string, string>, key: string,
                       a: Option<Article>) {
    NewsManager.IsSourceEnabled(config, category, key) && Postable(a) && LastFor(last, key) != Some(a.value.link)
  }

  /** The poster runs only when the category is enabled with a channel that
      resolves. */
  predicate Gate(config: NewsManager.Config, category: string, channelFound: bool) {
    var c := NewsManager.CategoryConfig(config, category);
    NewsManager.IsEnabled(c) && NewsManager.HasChannel(c) && channelFound
  }

  predicate Distinct(s: seq<string>) {
    forall i, j :: 0 <= i < j < |s| ==> s[i] != s[j]
  }

  function ArticleFor(fetched: map<string, Option<Article>>, key: string): Option<Article> {
    if key in fetched then fetched[key] else None
  }

  /** The last link a source has after a pass: the sent link when the send
      went through, the old one otherwise. */
  function NewLast(config: NewsManager.Config, category: string, last: map<string, string>, key: string,
                   a: Option<Article>, failing: set<string>): (r: Option<string>)
    ensures ShouldSend(config, category, last, key, a) && key !in failing ==> r == Some(a.value.link)
    ensures !(ShouldSend(config, category, last, key, a) && key !in failing) ==> r == LastFor(last, key)
  {
    if ShouldSend(config, category, last, key, a) && key !in failing then Some(a.value.link) else LastFor(last, key)
  }

  /** A cog's persisted `last_posted` map and what it is configured with. */
  class LastLinkCog {
    /** The NewsManager category: 'cybersecurity', 'tech', 'gaming' or 'apple_google'. */
    const category: string
    const sources: Sources
    var lastPosted: map<string, string>

    /** `_load_state` with no file: nothing posted yet. */
    constructor (category: string, sources: Sources, saved: Option<map<string, string>>)
      ensures this.category == category && this.sources == sources
      ensures lastPosted == saved.GetOr(map[])
    {
      this.category := category;
      this.sources := sources;
      lastPosted := saved.GetOr(map[]);
    }

    /** `news_auto_poster`: with the gate open, each source in table order
        is fetched (`fetched` holds what each fetch returned) and sent when
        `ShouldSend`; a send that raises (`failing`) is logged and leaves that
        source's last link alone. The result lists the sources sent. */
    method AutoPost(config: NewsManager.Config, channelFound: bool, fetched: map<string, Option<Article>>,
                    failing: set<string>) returns (sent: seq<string>)
      requires Distinct(sources.keys)
      modifies this
      ensures !Gate(config, category, channelFound) ==> sent == [] && lastPosted == old(lastPosted)
      ensures Gate(config, category, channelFound) ==>
                forall k :: k in sources.keys ==>
                  && (k in sent <==> ShouldSend(config, category, old(lastPosted), k, ArticleFor(fetched, k)) && k !in failing)
                  && LastFor(lastPosted, k) == NewLast(config, category, old(lastPosted), k, ArticleFor(fetched, k), failing)
      ensures forall k :: k !in sources.keys ==> LastFor(lastPosted, k) == LastFor(old(lastPosted), k)
    {
      sent := [];
      if !Gate(config, category, channelFound) {
        return;
      }
      var keys := sources.keys;
      var last := lastPosted;
      var i := 0;
      while i < |keys|
        invariant 0 <= i <= |keys|
        invariant forall k :: k in keys[..i] ==>
                    && (k in sent <==> ShouldSend(config, category, lastPosted, k, ArticleFor(fetched, k)) && k !in failing)
                    && LastFor(last, k) == NewLast(config, category, lastPosted, k, ArticleFor(fetched, k), failing)
        invariant forall k :: k !in keys[..i] ==> LastFor(last, k) == LastFor(lastPosted, k) && k !in sent
      {
        var key := keys[i];
        assert key !in keys[..i] by {
          assert forall j :: 0 <= j < i ==> keys[j] != keys[i];
        }
        var a := ArticleFor(fetched, key);
        if ShouldSend(config, category, last, key, a) && key !in failing {
          sent := sent + [key];
          last := last[key := a.value.link];
        }
        assert keys[..i + 1] == keys[..i] + [key];
        i := i + 1;
      }
      assert keys[..i] == keys;
      lastPosted := last;
    }

    /** The slash command: an unknown key is refused before any fetch; an
        article without a title is reported as a failed fetch. */
    method Command(key: string, fetched: Option<Article>) returns (reply: CommandReply)
      ensures key !in sources.urls ==> reply == UnknownSource
      ensures key in sources.urls && (fetched.None? || fetched.value.title == "") ==> reply == FetchFailed
      ensures reply.Show? ==> key in sources.urls && Some(reply.article) == fetched && reply.article.title != ""
    {
      if key !in sources.urls {
        return UnknownSource;
      }
      if fetched.None? || fetched.value.title == "" {
        return FetchFailed;
      }
      reply := Show(fetched.value);
    }
  }

  datatype CommandReply = UnknownSource | FetchFailed | Show(article: Article)

  /** Once a link is posted for a source, the same article is not sent for
      that source again until its feed shows another link. */
  lemma NoRepostOfLastLink(config: NewsManager.Config, category: string, last: map<string, string>, key: string,
                           a: Option<Article>, failing: set<string>, next: Option<Article>)
    requires ShouldSend(config, category, last, key, a) && key !in failing
    requires next.Some? && next.value.link == a.value.link
    ensures !ShouldSend(config, category, last[key := NewLast(config, category, last, key, a, failing).value], key, next)
  {
  }

  /** Dedup is per source key: two keys reading the same feed (Apple/Google's
      '9to5toys_apple' and '9to5toys_google') each send the same article once. */
  lemma SharedFeedPostsTwice(config: NewsManager.Config, last: map<string, string>, a: Article)
    requires NewsManager.IsSourceEnabled(config, "apple_google", "9to5toys_apple")
    requires NewsManager.IsSourceEnabled(config, "apple_google", "9to5toys_google")
    requires a.title != "" && a.link != ""
    requires "9to5toys_apple" !in last && "9to5toys_google" !in last
    ensures AppleGoogleSample.urls["9to5toys_apple"] == AppleGoogleSample.urls["9to5toys_google"]
    ensures ShouldSend(config, "apple_google", last, "9to5toys_apple", Some(a))
    ensures ShouldSend(config, "apple_google", last, "9to5toys_google", Some(a))
  {
  }
}
