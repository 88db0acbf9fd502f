/** How the news cogs read one feed item, in the two styles they use:
    regular-expression captures over the item's text (EU legislation,
    cybersecurity, tech) and an XML tree (general news, gaming,
    Apple/Google). The regex engine, the XML parser, tag removal and HTML
    unescaping are not modelled: an item arrives as the captures or element
    texts the cog looks for. Also the recency test on publication dates. */
module FeedItems {
  import opened Common

  const DescriptionLimit: nat := 300
  const SecondsPerDay: int := 86400

  /** A news source table: its keys in declaration order and each key's
      feed URL. */
  datatype Sources = Sources(keys: seq<string>, urls: map<string, string>)

  /** An HTTP exchange for a feed: the status and the decoded body, or a
      failure to get an answer (timeout, connection error). */
  datatype Response<T> = Http(status: int, body: T) | NetworkError

  /** The answer a pass receives for a key: the recorded one, or a failed
      request when none was recorded. */
  function AnswerFor<T>(fetches: map<string, Response<T>>, key: string): Response<T> {
    if key in fetches then fetches[key] else NetworkError
  }

  /** The title, link and description the cogs take from an item. */
  datatype Article = Article(title: string, link: string, description: string)

  /** `desc[:300] + "..." if len(desc) > 300 else desc`. */
  predicate ShortDescription(d: string) {
    |d| <= DescriptionLimit || (|d| == DescriptionLimit + 3 && d[DescriptionLimit..] == "...")
  }

  // ---------------------------------------------------------------------
  // Publication dates

  /** A publication time as parsed: seconds since the epoch, and whether
      the text carried a zone (a zoneless time cannot be compared with the
      zone-aware cutoff; the comparison raises). */
  datatype Timestamp = Timestamp(seconds: int, aware: bool)

  /** `_is_recent`: `dateText` is the first of pubDate, published, updated
      and dc:date found in the item, stripped; `parsed` is what the RFC 2822
      or ISO 8601 parser made of it. An item without a date, with one that
      does not parse, or whose comparison raises counts as recent; otherwise
      it is recent iff it is later than `max_days` days before now. */
  function IsRecent(dateText: Option<string>, parsed: Option<Timestamp>, now: int, maxDays: int): (r: bool)
    ensures !r <==> Truthy(dateText) && parsed.Some? && parsed.value.aware
                    && parsed.value.seconds <= now - maxDays * SecondsPerDay
  {
    if !Truthy(dateText) then true
    else if parsed.None? then true
    else if !parsed.value.aware then true
    else parsed.value.seconds > now - maxDays * SecondsPerDay
  }

  // ---------------------------------------------------------------------
  // Regular-expression style

  /** One `<item>`/`<entry>` block: its date (see `IsRecent`), the
      `<title>` capture, the `<link>` capture, the `<link href="...">`
      capture, and the `<description>` (else `<summary>`) capture after tag
      removal and unescaping. */
  datatype Block = Block(dateText: Option<string>, parsed: Option<Timestamp>, title: Option<string>,
                         link: Option<string>, href: Option<string>, description: Option<string>)

  /** The feed text, as whether it contains `<item>` and its two lists of blocks. */
  datatype Body = Body(hasItemTag: bool, itemBlocks: seq<Block>, entryBlocks: seq<Block>)

  /** Blocks are cut on `<item>` when the text contains it, else on `<entry>`. */
  function Blocks(body: Body): (bs: seq<Block>)
    ensures body.hasItemTag ==> bs == body.itemBlocks
    ensures !body.hasItemTag ==> bs == body.entryBlocks
  {
    if body.hasItemTag then body.itemBlocks else body.entryBlocks
  }

  /** A found `<title>` is used even when empty; "No title" only without one. */
  function BlockTitle(b: Block): (t: string)
    ensures b.title.None? ==> t == "No title"
    ensures b.title.Some? ==> t == Strip(b.title.value)
    ensures b.title == Some("") ==> t == ""
  {
    if b.title.Some? then Strip(b.title.value) else "No title"
  }

  /** The `<link>` text, else the `href`, else the source's URL. */
  function BlockLink(b: Block, url: string): (l: string)
    ensures b.link.None? && b.href.None? ==> l == url
    ensures b.link.Some? ==> l == Strip(b.link.value)
  {
    if b.link.Some? then Strip(b.link.value)
    else if b.href.Some? then Strip(b.href.value)
    else url
  }

  function BlockDescription(b: Block): (d: string)
    ensures ShortDescription(d)
    ensures b.description.None? ==> d == ""
  {
    if b.description.Some? then Truncate(Strip(b.description.value), DescriptionLimit) else ""
  }

  function BlockArticle(b: Block, url: string): (a: Article)
    ensures a.title == BlockTitle(b) && a.link == BlockLink(b, url) && a.description == BlockDescription(b)
  {
    Article(BlockTitle(b), BlockLink(b, url), BlockDescription(b))
  }

  // ---------------------------------------------------------------------
  // XML-tree style

  /** One item element as the cogs read it:
      - the publication date text and its parse (see `IsRecent`);
      - `title`: the text of the Atom `title`, else the `title` child, when
        that element exists and has text;
      - `href`: the `href` of the Atom `link` element, when it has one;
      - `linkText`: the text of the `link` child, when it exists and has text;
      - `summary`: the Atom `summary`, else `description`, text after tag
        removal and unescaping, when that element has text. */
  datatype XmlItem = XmlItem(dateText: Option<string>, parsed: Option<Timestamp>, title: Option<string>,
                             href: Option<string>, linkText: Option<string>, summary: Option<string>)

  /** The parsed document: its Atom entries and its RSS items. */
  datatype Xml = Malformed | Tree(atomEntries: seq<XmlItem>, rssItems: seq<XmlItem>)

  /** Atom entries are preferred; RSS items are used when there are none. */
  function Items(doc: Xml): (items: seq<XmlItem>)
    requires doc.Tree?
    ensures doc.atomEntries != [] ==> items == doc.atomEntries
    ensures doc.atomEntries == [] ==> items == doc.rssItems
  {
    if doc.atomEntries != [] then doc.atomEntries else doc.rssItems
  }

  /** The title element's stripped text; "No title" when the element is
      missing or has no text. */
  function XmlTitle(item: XmlItem): (t: string)
    ensures !Truthy(item.title) ==> t == "No title"
    ensures Truthy(item.title) ==> t == Strip(item.title.value)
  {
    if Truthy(item.title) then Strip(item.title.value) else "No title"
  }

  /** The Atom `href`, else the `link` text, else the feed's URL. */
  function XmlLink(item: XmlItem, url: string): (l: string)
    ensures item.href.Some? ==> l == Strip(item.href.value)
    ensures item.href.None? && Truthy(item.linkText) ==> l == Strip(item.linkText.value)
    ensures item.href.None? && !Truthy(item.linkText) ==> l == url
  {
    if item.href.Some? then Strip(item.href.value)
    else if Truthy(item.linkText) then Strip(item.linkText.value)
    else url
  }

  function XmlDescription(item: XmlItem): (d: string)
    ensures ShortDescription(d)
    ensures !Truthy(item.summary) ==> d == ""
  {
    if Truthy(item.summary) then Truncate(Strip(item.summary.value), DescriptionLimit) else ""
  }

  function XmlArticle(item: XmlItem, url: string): (a: Article)
    ensures a.title == XmlTitle(item) && a.link == XmlLink(item, url) && a.description == XmlDescription(item)
  {
    Article(XmlTitle(item), XmlLink(item, url), XmlDescription(item))
  }
}
