/** The shared feed fetcher behind the news cogs: conditional requests with
    stored validators (If-None-Match / If-Modified-Since, sections 13.1.2 and
    13.1.3 of RFC 9110, with 304 Not Modified of section 15.4.5 read as "no new
    content"), the choice of the first unseen RSS `<item>` or Atom `<entry>`,
    and a per-URL window of the last 50 GUIDs.

    The regular expressions, `html.unescape` and the HTML parser are not
    modelled: a feed arrives as the blocks they would find, each block as the
    text its patterns capture. */
module NewsFetcher {
  import opened Common

  const GuidWindow: nat := 50
  const ItemsExamined: nat := 5
  const DescriptionLimit: nat := 300
  const TitleLimit: nat := 100
  const DefaultConcurrency: int := 5
  const FallbackTitle: string := "Latest Update"

  /** One `<item>` or `<entry>` block, as its patterns capture it:
      - `guid`: the `<guid>` group, else the `<id>` group;
      - `title`: the `<title>` group, entities decoded and tags removed;
      - `fallback`: the `<content>` group, else the `<summary>` group, tags
        removed, stripped and entities decoded;
      - `link`: the `<link>…</link>` group, else the `href` of `<link href="…">`;
      - `description`: the `<description>`, else `<summary>`, else `<content>`
        group, entities decoded and reduced to its text by the HTML parser. */
  datatype Block = Block(
    guid: Option<string>,
    title: Option<string>,
    fallback: Option<string>,
    link: Option<string>,
    description: Option<string>)

  /** A downloaded feed: whether the text contains `<item>`, and the RSS and
      Atom blocks found in it. */
  datatype Feed = Feed(hasItemTag: bool, items: seq<Block>, entries: seq<Block>)

  /** What the HTTP request produced: a reply, or an exception (timeout,
      connection error). */
  datatype Response =
    | Reply(status: int, etag: Option<string>, lastModified: Option<string>, feed: Feed)
    | Raised

  /** The tuple (title, link, description, guid) a fetch returns. */
  datatype Entry = Entry(title: string, link: string, description: string, guid: string)

  datatype Source = Source(url: string, name: string)

  /** One element of the list `fetch_multiple_feeds` returns. */
  datatype NewItem = NewItem(entry: Entry, source: Source)

  /** The persisted cache file's three maps. */
  datatype Cache = Cache(
    etags: map<string, string>,
    lastModified: map<string, string>,
    lastGuids: map<string, seq<string>>)

  // ---------------------------------------------------------------------
  // Text clean-up

  /** No two whitespace characters in a row. */
  predicate NoRuns(s: string) {
    forall i :: 0 <= i < |s| - 1 ==> !(IsSpace(s[i]) && IsSpace(s[i + 1]))
  }

  /** No whitespace run and no whitespace at either end. */
  predicate Tidy(s: string) {
    NoRuns(s) && (s == [] || (!IsSpace(s[0]) && !IsSpace(s[|s| - 1])))
  }

  /** `re.sub(r'\s+', ' ', s)`: every maximal whitespace run becomes one space. */
  function CollapseSpaces(s: string): (r: string)
    ensures NoRuns(r)
    ensures forall i :: 0 <= i < |r| && IsSpace(r[i]) ==> r[i] == ' '
    ensures s == [] <==> r == []
    ensures s != [] && !IsSpace(s[0]) ==> r[0] == s[0]
    ensures s != [] ==> (IsSpace(r[0]) <==> IsSpace(s[0]))
    ensures s != [] ==> (IsSpace(r[|r| - 1]) <==> IsSpace(s[|s| - 1]))
    decreases |s|
  {
    if s == [] then []
    else if IsSpace(s[0]) then
      StripLeftIsSuffix(s);
      " " + CollapseSpaces(StripLeft(s))
    else [s[0]] + CollapseSpaces(s[1..])
  }

  /** A word at the front passes through collapsing unchanged. */
  lemma {:induction false} CollapseSpacesWord(w: string, rest: string)
    requires IsWord(w)
    ensures CollapseSpaces(w + rest) == w + CollapseSpaces(rest)
    decreases |w|
  {
    var s := w + rest;
    assert s[0] == w[0];
    assert s[1..] == w[1..] + rest;
    CollapseSpacesCons(s);
    if |w| > 1 {
      CollapseSpacesWord(w[1..], rest);
      assert [w[0]] + (w[1..] + CollapseSpaces(rest)) == w + CollapseSpaces(rest);
    } else {
      assert w[1..] + rest == rest;
    }
  }

  lemma CollapseSpacesCons(s: string)
    requires s != [] && !IsSpace(s[0])
    ensures CollapseSpaces(s) == [s[0]] + CollapseSpaces(s[1..])
  {
  }

  /** Leading whitespace does not change `split()`. */
  lemma WordsOfStripLeft(s: string)
    ensures Words(StripLeft(s)) == Words(s)
  {
    var t := StripLeft(s);
    assert StripLeft(t) == t;
  }

  /** A word followed by whitespace or nothing is the first of the words. */
  lemma WordsAfterWord(w: string, rest: string)
    requires IsWord(w) && (rest == [] || IsSpace(rest[0]))
    ensures Words(w + rest) == [w] + Words(rest)
  {
    var s := w + rest;
    assert s[0] == w[0];
    assert StripLeft(s) == s;
    WordLengthOfWord(w, rest);
    assert s[..|w|] == w;
    assert s[|w|..] == rest;
  }

  /** Collapsing whitespace keeps the words: `split()` gives the same list
      before and after. */
  lemma {:induction false} CollapseSpacesWords(s: string)
    ensures Words(CollapseSpaces(s)) == Words(s)
    decreases |s|
  {
    if s == [] {
    } else if IsSpace(s[0]) {
      var t := StripLeft(s);
      assert t == StripLeft(s[1..]);
      CollapseSpacesWords(t);
      var c := CollapseSpaces(t);
      assert StripLeft(" " + c) == StripLeft(c) by {
        assert (" " + c)[1..] == c;
      }
      WordsOfStripLeft(c);
      WordsOfStripLeft(" " + c);
      WordsOfStripLeft(s);
    } else {
      var n := WordLength(s);
      var w := s[..n];
      var rest := s[n..];
      assert s == w + rest;
      CollapseSpacesWord(w, rest);
      CollapseSpacesWords(rest);
      WordsAfterWord(w, CollapseSpaces(rest));
      WordsAfterWord(w, rest);
    }
  }

  /** True at a `[.!?]` followed by whitespace, where `re.split(r'[.!?]\s+', …)`
      cuts. */
  predicate SentenceBreakAt(s: string, i: int) {
    0 <= i < |s| - 1 && (s[i] == '.' || s[i] == '!' || s[i] == '?') && IsSpace(s[i + 1])
  }

  /** `re.split(r'[.!?]\s+', s)[0]`: the text before the first sentence break. */
  function FirstSentence(s: string): (r: string)
    ensures |r| <= |s| && r == s[..|r|]
    ensures forall i :: 0 <= i < |r| ==> !SentenceBreakAt(s, i)
    ensures |r| < |s| ==> SentenceBreakAt(s, |r|)
  {
    FirstSentenceFrom(s, 0)
  }

  function FirstSentenceFrom(s: string, i: nat): (r: string)
    requires i <= |s|
    requires forall j :: 0 <= j < i ==> !SentenceBreakAt(s, j)
    ensures i <= |r| <= |s| && r == s[..|r|]
    ensures forall j :: 0 <= j < |r| ==> !SentenceBreakAt(s, j)
    ensures |r| < |s| ==> SentenceBreakAt(s, |r|)
    decreases |s| - i
  {
    if i == |s| then s
    else if SentenceBreakAt(s, i) then s[..i]
    else FirstSentenceFrom(s, i + 1)
  }

  // ---------------------------------------------------------------------
  // Fields of an entry

  /** The explicit GUID of a block, stripped; an empty one counts as absent,
      as Python's truthiness does in both places the code tests it. */
  function ExplicitGuid(b: Block): Option<string> {
    if b.guid.Some? && Strip(b.guid.value) != "" then Some(Strip(b.guid.value)) else None
  }

  /** A block is skipped only when it carries an explicit GUID already in the window. */
  predicate IsSeen(b: Block, seen: seq<string>) {
    ExplicitGuid(b).Some? && ExplicitGuid(b).value in seen
  }

  /** The title: the `<title>` text, else the first sentence of the content
      or summary cut at 100 characters, else "Latest Update". */
  function EntryTitle(b: Block): (r: string)
    ensures r != ""
    ensures b.title.Some? && Strip(b.title.value) != "" ==> r == Strip(b.title.value)
    ensures (b.title.None? || Strip(b.title.value) == "") && b.fallback.None? ==> r == FallbackTitle
    ensures (b.title.None? || Strip(b.title.value) == "") && b.fallback.Some? ==>
              r == if FirstSentence(b.fallback.value) == "" then FallbackTitle
                   else Truncate(FirstSentence(b.fallback.value), TitleLimit)
  {
    var fromTitle := if b.title.Some? then Strip(b.title.value) else "";
    if fromTitle != "" then fromTitle
    else
      var fromContent := if b.fallback.Some? then Truncate(FirstSentence(b.fallback.value), TitleLimit) else "";
      if fromContent != "" then fromContent else FallbackTitle
  }

  /** The link: the `<link>` text or `href`, stripped, else the feed URL. */
  function EntryLink(b: Block, url: string): (r: string)
    ensures b.link.None? ==> r == url
    ensures b.link.Some? ==> r == Strip(b.link.value)
  {
    if b.link.Some? then Strip(b.link.value) else url
  }

  /** The description: whitespace collapsed and stripped, then cut at 300
      characters with "..." appended; empty when the block has none. */
  function EntryDescription(b: Block): (r: string)
    ensures b.description.None? ==> r == ""
    ensures b.description.Some? ==>
              r == Truncate(Strip(CollapseSpaces(b.description.value)), DescriptionLimit)
    ensures Tidy(r)
    ensures |r| <= DescriptionLimit + 3
  {
    if b.description.None? then ""
    else
      var cleaned := Strip(CollapseSpaces(b.description.value));
      StripKeepsNoRuns(CollapseSpaces(b.description.value));
      TruncateKeepsTidy(cleaned, DescriptionLimit);
      Truncate(cleaned, DescriptionLimit)
  }

  lemma NoRunsSlice(s: string, i: nat, j: nat)
    requires NoRuns(s) && i <= j <= |s|
    ensures NoRuns(s[i..j])
  {
    var t := s[i..j];
    forall k | 0 <= k < |t| - 1 ensures !(IsSpace(t[k]) && IsSpace(t[k + 1])) {
      assert t[k] == s[i + k] && t[k + 1] == s[i + k + 1];
    }
  }

  lemma StripKeepsNoRuns(s: string)
    requires NoRuns(s)
    ensures Tidy(Strip(s))
  {
    var l := StripLeft(s);
    StripLeftIsSuffix(s);
    NoRunsSlice(s, |s| - |l|, |s|);
    var r := StripRight(l);
    StripRightIsPrefix(l);
    NoRunsSlice(l, 0, |r|);
  }

  lemma TruncateKeepsTidy(s: string, n: nat)
    requires Tidy(s) && n > 0
    ensures Tidy(Truncate(s, n))
  {
    if |s| > n {
      NoRunsSlice(s, 0, n);
      var r := Truncate(s, n);
      assert r == s[..n] + "...";
      forall k | 0 <= k < |r| - 1 ensures !(IsSpace(r[k]) && IsSpace(r[k + 1])) {
        if k + 1 < n {
          assert r[k] == s[..n][k] && r[k + 1] == s[..n][k + 1];
        } else {
          assert r[k + 1] == '.';
        }
      }
      assert r[0] == s[0];
      assert r[|r| - 1] == '.';
    }
  }

  /** The entry built from a block that was picked: the GUID falls back to the link. */
  function MakeEntry(b: Block, url: string): (e: Entry)
    ensures e.title != "" && Tidy(e.description)
    ensures ExplicitGuid(b).Some? ==> e.guid == ExplicitGuid(b).value
    ensures ExplicitGuid(b).None? ==> e.guid == e.link
  {
    var link := EntryLink(b, url);
    Entry(EntryTitle(b), link, EntryDescription(b),
          if ExplicitGuid(b).Some? then ExplicitGuid(b).value else link)
  }

  // ---------------------------------------------------------------------
  // Which block is picked

  /** RSS blocks when the text contains `<item>`, else Atom blocks. */
  function Blocks(feed: Feed): seq<Block> {
    if feed.hasItemTag then feed.items else feed.entries
  }

  /** `items[:5]`. */
  function Examined(feed: Feed): (r: seq<Block>)
    ensures |r| <= ItemsExamined && |r| <= |Blocks(feed)|
    ensures r == Blocks(feed)[..|r|]
  {
    var b := Blocks(feed);
    if |b| > ItemsExamined then b[..ItemsExamined] else b
  }

  /** Index of the first block not already seen. */
  function FirstNew(blocks: seq<Block>, seen: seq<string>): (r: Option<nat>)
    ensures r.Some? ==> r.value < |blocks| && !IsSeen(blocks[r.value], seen)
    ensures r.Some? ==> forall j :: 0 <= j < r.value ==> IsSeen(blocks[j], seen)
    ensures r.None? ==> forall j :: 0 <= j < |blocks| ==> IsSeen(blocks[j], seen)
  {
    if blocks == [] then None
    else if !IsSeen(blocks[0], seen) then Some(0)
    else
      var tail := blocks[1..];
      match FirstNew(tail, seen)
      case None =>
        assert forall j :: 0 < j < |blocks| ==> IsSeen(blocks[j], seen) by {
          forall j | 0 < j < |blocks| ensures IsSeen(blocks[j], seen) {
            assert blocks[j] == tail[j - 1];
          }
        }
        None
      case Some(k) =>
        assert forall j :: 0 < j <= k ==> IsSeen(blocks[j], seen) by {
          forall j | 0 < j <= k ensures IsSeen(blocks[j], seen) {
            assert blocks[j] == tail[j - 1];
          }
        }
        Some(k + 1)
  }

  /** The entry a parse returns for the examined blocks, given the window. */
  function Pick(blocks: seq<Block>, url: string, seen: seq<string>): Option<Entry> {
    match FirstNew(blocks, seen)
    case None => None
    case Some(k) => Some(MakeEntry(blocks[k], url))
  }

  /** The GUID windows after a parse that returned `r`: the returned GUID
      appended to the URL's window, of which the last 50 are kept. */
  function Remember(guids: map<string, seq<string>>, url: string, r: Option<Entry>): map<string, seq<string>> {
    if r.Some? then guids[url := AppendKeepLast(WindowOf(guids, url), r.value.guid, GuidWindow)] else guids
  }

  /** The window stored for a URL, `last_guids.get(url, [])`. */
  function WindowOf(guids: map<string, seq<string>>, url: string): seq<string> {
    if url in guids then guids[url] else []
  }

  /** The response a key was given; a key without one stands for a request
      that raised. */
  function ResponseFor(responses: map<string, Response>, key: string): Response {
    if key in responses then responses[key] else Raised
  }

  /** What `fetch_feed_optimized` returns for a response, given the stored
      cache: nothing unless the status is 200, else the pick among the first
      five blocks. */
  function FeedAnswer(c: Cache, url: string, resp: Response): Option<Entry> {
    if resp.Raised? || resp.status != 200 then None
    else Pick(Examined(resp.feed), url, WindowOf(c.lastGuids, url))
  }

  /** The cache after `fetch_feed_optimized`: untouched unless the status is
      200; then the validators the response carries are stored (when caching
      is on) and the returned GUID is remembered. */
  function CacheAfter(c: Cache, url: string, useCache: bool, resp: Response): Cache {
    if resp.Raised? || resp.status != 200 then c
    else
      Cache(if useCache && resp.etag.Some? then c.etags[url := resp.etag.value] else c.etags,
            if useCache && resp.lastModified.Some? then c.lastModified[url := resp.lastModified.value]
            else c.lastModified,
            Remember(c.lastGuids, url, FeedAnswer(c, url, resp)))
  }

  /** The new items of `fetch_multiple_feeds` over `keys`, taken one after the
      other from the cache `c`, and the cache afterwards. Keys missing from
      `sources` are skipped. */
  function Gathered(sources: map<string, Source>, keys: seq<string>, useCache: bool,
                    responses: map<string, Response>, c: Cache): (seq<NewItem>, Cache)
    decreases |keys|
  {
    if keys == [] then ([], c)
    else GatherStep(sources, keys[|keys| - 1], useCache, responses,
                    Gathered(sources, keys[..|keys| - 1], useCache, responses, c))
  }

  /** One key of the pass: its source's new item is added, if any. */
  function GatherStep(sources: map<string, Source>, key: string, useCache: bool,
                      responses: map<string, Response>, before: (seq<NewItem>, Cache)): (seq<NewItem>, Cache)
  {
    if key !in sources then before
    else
      var source := sources[key];
      var resp := ResponseFor(responses, key);
      var e := FeedAnswer(before.1, source.url, resp);
      (if e.Some? then before.0 + [NewItem(e.value, source)] else before.0,
       CacheAfter(before.1, source.url, useCache, resp))
  }

  lemma GatheredPrefixStep(sources: map<string, Source>, keys: seq<string>, n: nat, useCache: bool,
                           responses: map<string, Response>, c: Cache)
    requires n < |keys|
    ensures Gathered(sources, keys[..n + 1], useCache, responses, c)
            == GatherStep(sources, keys[n], useCache, responses, Gathered(sources, keys[..n], useCache, responses, c))
  {
    assert keys[..n + 1][..n] == keys[..n];
  }

  /** The sources the keys name. */
  function SourcesOf(keys: seq<string>, sources: map<string, Source>): set<Source> {
    set k | k in keys && k in sources :: sources[k]
  }

  /** Each item is paired with the source of one of the keys. */
  predicate FromSources(items: seq<NewItem>, keys: seq<string>, sources: map<string, Source>) {
    forall i :: 0 <= i < |items| ==> items[i].source in SourcesOf(keys, sources)
  }

  lemma FromSourcesWiden(items: seq<NewItem>, init: seq<string>, keys: seq<string>, sources: map<string, Source>)
    requires FromSources(items, init, sources) && forall k :: k in init ==> k in keys
    ensures FromSources(items, keys, sources)
  {
    assert SourcesOf(init, sources) <= SourcesOf(keys, sources);
  }

  lemma FromSourcesSnoc(items: seq<NewItem>, it: NewItem, keys: seq<string>, sources: map<string, Source>, key: string)
    requires FromSources(items, keys, sources) && key in keys && key in sources && it.source == sources[key]
    ensures FromSources(items + [it], keys, sources)
  {
    var all := items + [it];
    forall i | 0 <= i < |all| ensures all[i].source in SourcesOf(keys, sources) {
      if i < |items| {
        assert all[i] == items[i];
      }
    }
  }

  /** A pass yields at most one item per key, each paired with the source of
      one of the keys. */
  lemma {:induction false} GatheredFromSources(sources: map<string, Source>, keys: seq<string>, useCache: bool,
                                               responses: map<string, Response>, c: Cache)
    ensures |Gathered(sources, keys, useCache, responses, c).0| <= |keys|
    ensures FromSources(Gathered(sources, keys, useCache, responses, c).0, keys, sources)
    decreases |keys|
  {
    if keys == [] {
      assert Gathered(sources, keys, useCache, responses, c).0 == [];
    } else {
      var init := keys[..|keys| - 1];
      GatheredFromSources(sources, init, useCache, responses, c);
      var g := Gathered(sources, init, useCache, responses, c);
      var before := g.0;
      var items := Gathered(sources, keys, useCache, responses, c).0;
      var key := keys[|keys| - 1];
      assert key in keys;
      var added := key in sources && FeedAnswer(g.1, sources[key].url, ResponseFor(responses, key)).Some?;
      assert added ==> items == before + [NewItem(FeedAnswer(g.1, sources[key].url, ResponseFor(responses, key)).value, sources[key])];
      assert !added ==> items == before;
      FromSourcesWiden(before, init, keys, sources);
      if added {
        FromSourcesSnoc(before, items[|items| - 1], keys, sources, key);
        assert items == before + [items[|items| - 1]];
      }
    }
  }

  /** When no source answers 200, a pass finds nothing and leaves the cache
      as it was. */
  lemma {:induction false} GatheredAllFailed(sources: map<string, Source>, keys: seq<string>, useCache: bool,
                                             responses: map<string, Response>, c: Cache)
    requires forall k :: k in responses ==> responses[k].Raised? || responses[k].status != 200
    ensures Gathered(sources, keys, useCache, responses, c) == ([], c)
    decreases |keys|
  {
    if keys != [] {
      GatheredAllFailed(sources, keys[..|keys| - 1], useCache, responses, c);
    }
  }

  /** The first unseen block is the one after a run of seen blocks. */
  lemma FirstNewIs(blocks: seq<Block>, seen: seq<string>, i: nat)
    requires i < |blocks| && !IsSeen(blocks[i], seen)
    requires forall j :: 0 <= j < i ==> IsSeen(blocks[j], seen)
    ensures FirstNew(blocks, seen) == Some(i)
  {
  }

  /** The pick is the entry of the first unseen block. */
  lemma PickAt(blocks: seq<Block>, url: string, seen: seq<string>, i: nat)
    requires i < |blocks| && !IsSeen(blocks[i], seen)
    requires forall j :: 0 <= j < i ==> IsSeen(blocks[j], seen)
    ensures Pick(blocks, url, seen) == Some(MakeEntry(blocks[i], url))
  {
    FirstNewIs(blocks, seen, i);
  }

  /** Nothing is picked when every block was seen. */
  lemma PickNone(blocks: seq<Block>, url: string, seen: seq<string>)
    requires forall j :: 0 <= j < |blocks| ==> IsSeen(blocks[j], seen)
    ensures Pick(blocks, url, seen) == None
  {
  }

  /** A block with no explicit GUID is never skipped: if it is among the
      first five, the pick stops at it or earlier, even when its link is
      already in the window. */
  lemma {:induction false} NoGuidIsReEmitted(blocks: seq<Block>, seen: seq<string>, k: nat)
    requires k < |blocks| && ExplicitGuid(blocks[k]).None?
    ensures FirstNew(blocks, seen).Some? && FirstNew(blocks, seen).value <= k
  {
    if k > 0 && IsSeen(blocks[0], seen) {
      NoGuidIsReEmitted(blocks[1..], seen, k - 1);
    }
  }

  /** A GUID already in the window is never returned again from a block
      that carries it explicitly. */
  lemma SeenGuidNotReturned(feed: Feed, url: string, seen: seq<string>)
    requires FirstNew(Examined(feed), seen).Some?
    ensures var b := Examined(feed)[FirstNew(Examined(feed), seen).value];
            ExplicitGuid(b).Some? ==> MakeEntry(b, url).guid !in seen
  {
  }

  // ---------------------------------------------------------------------
  // The fetcher object

  /** Collects the text chunks of an HTML document, dropping the tags. */
  class HtmlStripper {
    var text: seq<string>

    constructor ()
      ensures text == []
    {
      text := [];
    }

    /** `handle_data`: one more chunk of text. */
    method HandleData(data: string)
      modifies this
      ensures text == old(text) + [data]
      ensures GetText() == old(GetText()) + data
    {
      text := text + [data];
      assert text[..|text| - 1] == old(text);
    }

    /** `get_text`: the chunks in the order they were seen. */
    function GetText(): string
      reads this
    {
      Join(text)
    }
  }

  class Fetcher {
    var etags: map<string, string>
    var lastModified: map<string, string>
    var lastGuids: map<string, seq<string>>
    var concurrencyLimit: int

    /** `_load_cache`: the stored cache, or three empty maps when there is no
        readable cache file. The concurrency limit starts at 5. */
    constructor (stored: Option<Cache>)
      ensures stored.None? ==> etags == map[] && lastModified == map[] && lastGuids == map[]
      ensures stored.Some? ==> etags == stored.value.etags && lastModified == stored.value.lastModified
                               && lastGuids == stored.value.lastGuids
      ensures concurrencyLimit == DefaultConcurrency
    {
      concurrencyLimit := DefaultConcurrency;
      match stored
      case None =>
        etags, lastModified, lastGuids := map[], map[], map[];
      case Some(c) =>
        etags, lastModified, lastGuids := c.etags, c.lastModified, c.lastGuids;
    }

    method SetConcurrencyLimit(limit: int)
      modifies this`concurrencyLimit
      ensures concurrencyLimit == limit
    {
      concurrencyLimit := limit;
    }

    /** The conditional-request headers: each validator is sent exactly when
        caching is on and one is stored for the URL. */
    function ConditionalHeaders(url: string, useCache: bool): (h: map<string, string>)
      reads this
      ensures "If-None-Match" in h <==> useCache && url in etags
      ensures "If-Modified-Since" in h <==> useCache && url in lastModified
      ensures "If-None-Match" in h ==> h["If-None-Match"] == etags[url]
      ensures "If-Modified-Since" in h ==> h["If-Modified-Since"] == lastModified[url]
      ensures forall k :: k in h ==> k == "If-None-Match" || k == "If-Modified-Since"
    {
      var h0: map<string, string> := map[];
      var h1 := if useCache && url in etags then h0["If-None-Match" := etags[url]] else h0;
      if useCache && url in lastModified then h1["If-Modified-Since" := lastModified[url]] else h1
    }

    /** `_parse_feed_content`: the first of the first five blocks that is not
        already seen; its GUID is appended to the URL's window, which keeps its
        last 50 entries. Nothing changes when every examined block was seen. */
    method ParseFeedContent(feed: Feed, url: string) returns (r: Option<Entry>)
      modifies this`lastGuids
      ensures r == Pick(Examined(feed), url, WindowOf(old(lastGuids), url))
      ensures lastGuids == Remember(old(lastGuids), url, r)
    {
      var blocks := Examined(feed);
      var seen := WindowOf(lastGuids, url);
      var i := 0;
      while i < |blocks| && IsSeen(blocks[i], seen)
        invariant 0 <= i <= |blocks|
        invariant forall j :: 0 <= j < i ==> IsSeen(blocks[j], seen)
      {
        i := i + 1;
      }
      if i == |blocks| {
        PickNone(blocks, url, seen);
        r := None;
      } else {
        PickAt(blocks, url, seen, i);
        r := Some(MakeEntry(blocks[i], url));
        lastGuids := lastGuids[url := AppendKeepLast(seen, r.value.guid, GuidWindow)];
      }
    }

    /** `fetch_feed_optimized`: an exception, a 304 or any other non-200 status
        yields nothing and changes nothing; a 200 stores the validators the
        response carries (when caching is on) and then parses the feed. */
    method FetchFeed(url: string, useCache: bool, resp: Response) returns (r: Option<Entry>)
      modifies this`etags, this`lastModified, this`lastGuids
      ensures resp.Raised? || resp.status != 200 ==>
                r.None? && etags == old(etags) && lastModified == old(lastModified) && lastGuids == old(lastGuids)
      ensures resp.Reply? && resp.status == 200 ==>
                && etags == (if useCache && resp.etag.Some? then old(etags)[url := resp.etag.value] else old(etags))
                && lastModified == (if useCache && resp.lastModified.Some?
                                    then old(lastModified)[url := resp.lastModified.value] else old(lastModified))
      ensures resp.Reply? && resp.status == 200 ==>
                && r == Pick(Examined(resp.feed), url, WindowOf(old(lastGuids), url))
                && lastGuids == Remember(old(lastGuids), url, r)
    {
      if resp.Raised? || resp.status == 304 || resp.status != 200 {
        return None;
      }
      if useCache {
        if resp.etag.Some? {
          etags := etags[url := resp.etag.value];
        }
        if resp.lastModified.Some? {
          lastModified := lastModified[url := resp.lastModified.value];
        }
      }
      r := ParseFeedContent(resp.feed, url);
    }

    /** `fetch_multiple_feeds`, with the concurrent requests run one after the
        other in `enabled` order. Keys missing from `sources` are skipped; a
        key without a response stands for a request that raised. The cache is
        saved exactly when some item is new. `picked[i]` is the position in
        `enabled` of the source of `items[i]`. */
    method FetchMultiple(sources: map<string, Source>, enabled: seq<string>, useCache: bool,
                         responses: map<string, Response>)
      returns (items: seq<NewItem>, saved: bool)
      modifies this`etags, this`lastModified, this`lastGuids
      ensures saved <==> items != []
      ensures (items, Cache(etags, lastModified, lastGuids))
              == Gathered(sources, enabled, useCache, responses, old(Cache(etags, lastModified, lastGuids)))
    {
      items := [];
      var n := 0;
      ghost var c0 := Cache(etags, lastModified, lastGuids);
      while n < |enabled|
        invariant 0 <= n <= |enabled|
        invariant (items, Cache(etags, lastModified, lastGuids))
                  == Gathered(sources, enabled[..n], useCache, responses, c0)
      {
        var key := enabled[n];
        GatheredPrefixStep(sources, enabled, n, useCache, responses, c0);
        if key in sources {
          var item := FetchSource(sources[key], ResponseFor(responses, key), useCache);
          if item.Some? {
            items := items + [item.value];
          }
        }
        n := n + 1;
      }
      assert enabled[..n] == enabled;
      saved := items != [];
    }

    /** One task of `fetch_multiple_feeds`: the source's new entry, if any,
        paired with the source. */
    method FetchSource(source: Source, resp: Response, useCache: bool) returns (item: Option<NewItem>)
      modifies this`etags, this`lastModified, this`lastGuids
      ensures item.Some? ==> item.value.source == source
      ensures var e := FeedAnswer(old(Cache(etags, lastModified, lastGuids)), source.url, resp);
              item == if e.Some? then Some(NewItem(e.value, source)) else None
      ensures Cache(etags, lastModified, lastGuids)
              == CacheAfter(old(Cache(etags, lastModified, lastGuids)), source.url, useCache, resp)
    {
      var result := FetchFeed(source.url, useCache, resp);
      item := if result.Some? then Some(NewItem(result.value, source)) else None;
    }
  }
}
