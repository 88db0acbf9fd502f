# Penguin Overlord, modelled in Dafny

Penguin Overlord is a Discord bot for a Linux and ham-radio community, with a
companion stream announcer that posts to Discord webhooks and Matrix rooms.
This project models the deterministic bookkeeping under its network calls and
proves properties of it:

- **Feed deduplication.** The shared news fetcher sends conditional requests
  with stored validators (If-None-Match and If-Modified-Since, sections
  13.1.2 and 13.1.3 of RFC 9110) and reads 304 Not Modified as "nothing new".
  It picks the first unseen RSS item or Atom entry and keeps a window of the
  last 50 GUIDs per URL. The news cogs use three simpler schemes:
  - the last 50 links per source (general news, EU legislation);
  - the last link per source (cybersecurity, tech, gaming, Apple/Google);
  - a set of posted CVE IDs, persisted as at most 1000 entries.
- **Configuration state.** The news manager keeps per-category channel,
  switch, interval, per-source toggles and approved roles. The XKCD, comics
  and solar posters persist their own state, and the stand-alone runners
  guard their single pass. Configuration values and secrets resolve through
  fixed priority chains over the environment and the secret back-ends.
- **Lists and pages.** The tech-quote author list tallies, sorts by count
  and packs lines greedily into pages of at most 900 characters. The event
  pinger loads CSV rows, filters by days and type, sorts, buckets by week,
  pages five at a time and searches. Both have a paginator view.
- **Decision rules.** HF band ratings follow solar-flux thresholds and a
  good-conditions flag. Other rules cover the VHF lines, the operating
  recommendations, the solar indices parsed from NOAA's text report, the
  CVE severity emoji, and the manpage and patch-gremlin colours.
- **Social platforms.** Discord webhook posts, edits and the life cycle of
  the tracked live-stream messages. Matrix log-in and formatted posts. Host
  and domain matching of URLs (the host of section 3.2.2 of RFC 3986).

The model follows the source's form:
- Objects whose methods update fields are classes. Examples are the news
  fetcher's cache, the cogs' persisted state, the Discord and Matrix
  platforms, and the paginator views.
- Loops are methods with invariants, proved against a specification function.
- Pure derivations are functions with lemmas.

The network, the clock, the random choices, the regular-expression, XML and
HTML engines, JSON, date parsing and the secret back-ends' answers are
parameters of the operations.

Four news cogs share one of two fetch-and-post shapes, and one module
(`LastLinkNews`) models both. `cybersecurity_news.py` and `tech_news.py`
cut the first `<item>` or `<entry>` out of the text with regular
expressions. `gaming_news.py` and `apple_google_news.py` read the first
element of the parsed XML. The table cites one cog of each pair. The other
cog's lines are the same code with its own source table and category name.

`comics.py`, `comics_runner.py` and `social/discord.py` hold their emoji and
the bullet " • " as the characters their UTF-8 bytes read as in Mac Roman
(the newspaper is stored as U+F8FF U+00FC U+00EC U+221E, the bullet as
U+201A U+00C4 U+00A2). Those characters are what the bot sends, so the model
states them by their code points, named after the glyph they were meant to
be (`Common.StoredBullet`, `Comics.NewspaperIcon`, `Discord.PurpleDot`, …).

## Model

| member | source | states |
|---|---|---|
| Common.Truncate | penguin-overlord/utils/news_fetcher.py:251 | a text of at most n characters is kept; a longer one becomes its first n characters followed by "..." |
| Common.AppendKeepLast | penguin-overlord/utils/news_fetcher.py:262-263 | appending to a bounded window then keeping the last n: the new entry is last, the length is min(old+1, n) and the result is a suffix of window + [x] |
| Common.AppendKeepLastKeepsOrder | penguin-overlord/utils/news_fetcher.py:262-263 | every older entry that survives the trim keeps its relative position before the new one |
| Common.Strip | penguin-overlord/utils/news_fetcher.py:248 | `str.strip()`: the result neither starts nor ends with whitespace and is no longer than the input |
| Common.StripIsTrimmed | penguin-overlord/utils/news_fetcher.py:248 | what `str.strip()` keeps is one slice of the input, and every character outside that slice is whitespace |
| Common.StripIdempotent | penguin-overlord/utils/news_fetcher.py:248 | stripping twice is stripping once |
| Common.Lower | penguin-overlord/cogs/cve.py:205 | `str.lower()` maps every character through the ASCII lower-case table and keeps the length |
| Common.LowerIdempotent | penguin-overlord/cogs/cve.py:205 | lower-casing twice is lower-casing once |
| Common.ParseInt | penguin-overlord/cogs/xkcd_poster.py:182 | `int(s)`: it parses iff the text is digits, or a `-` or `+` followed by digits; the digits read as their decimal value, negated after `-`; any other text, the empty string included, does not parse |
| Common.IntToStringRoundTrip | penguin-overlord/cogs/xkcd_poster.py:182 | printing a number and parsing it back gives the number |
| Common.ChannelArgument | penguin-overlord/cogs/xkcd_poster.py:169-182 | a `<#…>` mention is accepted exactly when the text between `<#` and `>` is all digits, any other argument exactly when it is all digits itself; the id is the value of those digits, so never negative |
| Common.ChannelMention | penguin-overlord/cogs/xkcd_poster.py:169-182 | the mention `<#N>` of any channel number N resolves to N |
| Common.ChannelMentionDigits | penguin-overlord/cogs/xkcd_poster.py:170-182 | the mention of any string of digits, leading zeros included, resolves to the value of those digits |
| Common.Split | penguin-overlord/solar_runner.py:102 | splitting on a separator gives at least one piece and no piece contains the separator |
| Common.SplitJoins | penguin-overlord/solar_runner.py:102 | joining the pieces with the separator gives the input back |
| Common.SplitFirst | penguin-overlord/solar_runner.py:102 | the first piece is the text before the first separator |
| Common.Words | penguin-overlord/solar_runner.py:102 | `str.split()` gives non-empty runs without whitespace |
| Common.WordsOfJoin | penguin-overlord/solar_runner.py:102 | words joined by single spaces split back into the same words |
| NewsFetcher.HtmlStripper.HandleData | penguin-overlord/utils/news_fetcher.py:33-37 | each chunk of text is appended, so the collected text is the old text followed by the chunk |
| NewsFetcher.Fetcher.constructor | penguin-overlord/utils/news_fetcher.py:43-63 | with no cache file the etag, last-modified and GUID maps start empty; otherwise they are the stored ones; the concurrency limit starts at 5 |
| NewsFetcher.Fetcher.SetConcurrencyLimit | penguin-overlord/utils/news_fetcher.py:80-85 | the limit becomes the given value and nothing else changes |
| NewsFetcher.Fetcher.ConditionalHeaders | penguin-overlord/utils/news_fetcher.py:111-116 | `If-None-Match` / `If-Modified-Since` are sent iff caching is on and the URL has a stored ETag / Last-Modified, carrying that stored value, and no other header is added |
| NewsFetcher.Fetcher.FetchFeed | penguin-overlord/utils/news_fetcher.py:96-148 | an exception, a 304 or any non-200 status gives None with every validator unchanged; a 200 with caching overwrites only the validators the reply carries, then parses |
| NewsFetcher.Fetcher.ParseFeedContent | penguin-overlord/utils/news_fetcher.py:150-268 | the result is the first of the first five blocks not skipped by the URL's GUID window; the window gains the returned GUID as in `AppendKeepLast` with 50 and no other URL's window changes |
| NewsFetcher.Fetcher.FetchSource | penguin-overlord/utils/news_fetcher.py:297-318 | one source's fetch: the item is the fetch's answer for a 200 (the first unskipped of the first five blocks) paired with that same source, None for any other status or an exception; the cache becomes what that fetch leaves, validators and GUID window included |
| NewsFetcher.Fetcher.FetchMultiple | penguin-overlord/utils/news_fetcher.py:275-325 | the items and the cache are those of fetching the enabled keys one after the other from the old cache (`Gathered`), skipping keys missing from the sources; the cache is saved iff some item is new |
| NewsFetcher.GatheredFromSources | penguin-overlord/utils/news_fetcher.py:275-325 | a pass yields at most one item per key, each paired with the source of one of the keys |
| NewsFetcher.GatheredAllFailed | penguin-overlord/utils/news_fetcher.py:297-318 | when no source answers 200 a pass finds nothing and leaves the cache as it was |
| NewsFetcher.CollapseSpaces | penguin-overlord/utils/news_fetcher.py:247 | every whitespace run becomes one space: no two whitespace characters in a row, the only whitespace left is ' ', empty iff the input is empty, and it starts and ends with whitespace iff the input does |
| NewsFetcher.CollapseSpacesWords | penguin-overlord/utils/news_fetcher.py:247 | collapsing keeps the text's words: `split()` gives the same list before and after |
| NewsFetcher.FirstSentence | penguin-overlord/utils/news_fetcher.py:196-201 | the text up to the first `[.!?]` followed by whitespace: a prefix with no break inside and a break right after it unless it is the whole text |
| NewsFetcher.EntryTitle | penguin-overlord/utils/news_fetcher.py:189-206 | the title is never empty: the stripped `<title>` when non-blank; otherwise, when there is content, its first sentence cut at 100 (+"..."), or "Latest Update" when that sentence is empty |
| NewsFetcher.EntryLink | penguin-overlord/utils/news_fetcher.py:208-213 | the stripped link when present, else the feed URL |
| NewsFetcher.EntryDescription | penguin-overlord/utils/news_fetcher.py:215-251 | with a description: it collapsed, stripped and cut at 300 (+"..."), so without whitespace runs or whitespace at either end; empty when the block has none |
| NewsFetcher.StripKeepsNoRuns | penguin-overlord/utils/news_fetcher.py:247-248 | stripping a text without whitespace runs leaves it tidy |
| NewsFetcher.TruncateKeepsTidy | penguin-overlord/utils/news_fetcher.py:248-251 | cutting a tidy text at 300 and adding "..." keeps it tidy |
| NewsFetcher.MakeEntry | penguin-overlord/utils/news_fetcher.py:189-256 | the returned entry has a non-empty title and a tidy description; its GUID is the explicit GUID, or the link when there is none |
| NewsFetcher.Examined | penguin-overlord/utils/news_fetcher.py:158-167 | the examined blocks are a prefix of at most five of the RSS items, or of the Atom entries when the text has no `<item>` |
| NewsFetcher.FirstNew | penguin-overlord/utils/news_fetcher.py:167-178 | the index picked is the first block that is not skipped; every earlier block is skipped; None only when all are skipped |
| NewsFetcher.FirstNewIs | penguin-overlord/utils/news_fetcher.py:167-178 | a block preceded only by skipped blocks is the one picked |
| NewsFetcher.NoGuidIsReEmitted | penguin-overlord/utils/news_fetcher.py:173-178 | a block without an explicit GUID is never skipped, so a pick always happens at or before it even when its link is in the window |
| NewsFetcher.SeenGuidNotReturned | penguin-overlord/utils/news_fetcher.py:176-178 | the block picked never carries an explicit GUID already in the URL's window |
| Common.PyInt | penguin-overlord/solar_runner.py:137 | `int(s)`: the text with surrounding whitespace stripped, read as `ParseInt` reads it; a string of digits reads as its value; a blank string does not parse |
| Common.NatToString | penguin-overlord/cogs/eventpinger.py:240 | `str(n)` of a natural number is a string of digits whose value is n, a single digit iff n is below 10 |
| Common.IntToString | penguin-overlord/cogs/eventpinger.py:240 | `str(n)`: the digits of the magnitude, with '-' in front of a negative number |
| Common.Pad2 | penguin-overlord/cogs/xkcd.py:82 | `f"{n:02d}"` of 0..99 is two digits with value n; 10 and above, or a negative number, print as `str(n)` |
| Common.Upper | penguin-overlord/social/discord.py:350 | `str.upper()` keeps the length and upper-cases each ASCII letter |
| NewsFetcher.HtmlStripper.constructor | penguin-overlord/utils/news_fetcher.py:26-31 | the stripper starts with no text |
| NewsManager.CategoryConfig | penguin-overlord/cogs/news_manager.py:99-101 | a category's entry, or the empty entry when the category is missing |
| NewsManager.AnyApproved | penguin-overlord/cogs/news_manager.py:111-114 | true iff some role of the user is in the approved list |
| NewsManager.HasPermission | penguin-overlord/cogs/news_manager.py:107-114 | administrators always; otherwise iff some role id of the user is approved for the category; for an unknown category only administrators |
| NewsManager.IsSourceEnabled | penguin-overlord/cogs/news_manager.py:103-105 | true for an unknown category or source; false only when the category's `sources` map holds a false switch for it |
| NewsManager.ChannelFromEnv | penguin-overlord/cogs/news_manager.py:30-44 | a channel id exists iff the secret (when non-empty), else the environment variable, is all digits; it is that number |
| NewsManager.DefaultsShape | penguin-overlord/cogs/news_manager.py:46-88 | the defaults are exactly the eight categories, each disabled with no sources, no approved roles and the ETag cache on |
| NewsManager.DefaultSchedule | penguin-overlord/cogs/news_manager.py:65-88 | the staggered schedule: CVE every 6 hours with concurrency 3, the legislation feeds hourly with 3, every interval within 1..24 and every offset below 60 |
| NewsManager.LoadedChannelOverride | penguin-overlord/cogs/news_manager.py:50-57 | a loaded file keeps its categories; an entry's channel changes only to an all-digit secret or environment id, and nothing else in the entry changes |
| NewsManager.ToggleFlips | penguin-overlord/cogs/news_manager.py:252-255 | toggling flips the answer `is_source_enabled` gives for that source and changes it for no other source or category |
| NewsManager.ToggleTwice | penguin-overlord/cogs/news_manager.py:103-105 | toggling twice restores every answer |
| NewsManager.IndexOf | penguin-overlord/cogs/news_manager.py:327 | the position of the first occurrence |
| NewsManager.RemoveFirst | penguin-overlord/cogs/news_manager.py:327 | `list.remove` drops exactly the first occurrence |
| NewsManager.RemoveFirstFromDistinct | penguin-overlord/cogs/news_manager.py:320-327 | removing a role from a duplicate-free list leaves a duplicate-free list without it and keeps every other role |
| NewsManager.AddKeepsDistinct | penguin-overlord/cogs/news_manager.py:283-293 | appending a role not yet approved keeps the list duplicate-free |
| NewsManager.Manager.constructor | penguin-overlord/cogs/news_manager.py:25-88 | the configuration is the loaded file with the channel overrides, or the defaults when there is no file |
| NewsManager.Manager.SetChannel | penguin-overlord/cogs/news_manager.py:124-146 | without permission nothing changes; a category missing from the configuration ends in KeyError with nothing changed; otherwise only that category's channel is set |
| NewsManager.Manager.Enable | penguin-overlord/cogs/news_manager.py:148-176 | administrators only; it succeeds iff the category exists and has a channel, setting `enabled` and nothing else; every refusal leaves the configuration unchanged |
| NewsManager.Manager.Disable | penguin-overlord/cogs/news_manager.py:178-202 | administrators only; clears `enabled` of an existing category and nothing else |
| NewsManager.Manager.SetInterval | penguin-overlord/cogs/news_manager.py:204-236 | administrators only; hours outside 1..24 are refused without change; otherwise only the interval changes |
| NewsManager.Manager.ToggleSource | penguin-overlord/cogs/news_manager.py:238-267 | with permission on an existing category the source's switch becomes the negation of `is_source_enabled`; otherwise nothing changes |
| NewsManager.Manager.AddRole | penguin-overlord/cogs/news_manager.py:269-304 | administrators only; an already approved role is refused without change; otherwise it is appended |
| NewsManager.Manager.RemoveRole | penguin-overlord/cogs/news_manager.py:306-335 | administrators only; a role not approved is refused without change; otherwise its first occurrence is removed |
| NewsManager.Manager.SetChannelPrefix | penguin-overlord/cogs/news_manager.py:443-479 | a category outside the fixed eight is refused before the configuration is touched; otherwise only the channel changes |
| NewsManager.Manager.EnablePrefix | penguin-overlord/cogs/news_manager.py:481-521 | administrators only; an unknown category or one missing from the configuration is refused without change; otherwise `enabled` is set |
| NewsManager.Manager.DisablePrefix | penguin-overlord/cogs/news_manager.py:523-555 | the same guards as enabling; otherwise `enabled` is cleared |
| NewsRunner.LoadConfig | penguin-overlord/news_runner.py:75-109 | without an all-digit secrets/environment channel the file's configuration is kept as is; with one, the category's entry gets that channel and is created with the runner defaults when missing, and no other entry changes |
| NewsRunner.Init | penguin-overlord/news_runner.py:55-73 | construction fails (ValueError) iff the category has no entry or an empty one; otherwise the fetcher's concurrency limit is the entry's, default 5 |
| NewsRunner.EnvChannelMakesRunner | penguin-overlord/news_runner.py:89-107 | a secrets/environment channel always yields a runner whose entry carries that channel |
| NewsRunner.SourceModule | penguin-overlord/news_runner.py:111-129 | a source module exists exactly for the categories of the module map |
| NewsRunner.GetSources | penguin-overlord/news_runner.py:111-139 | ValueError exactly for a category outside the module map; an unavailable module gives an empty table; an available one gives its own source table |
| NewsRunner.EnabledKeys | penguin-overlord/news_runner.py:141-150 | the kept keys are at most the table's keys |
| NewsRunner.EnabledKeysMembers | penguin-overlord/news_runner.py:141-150 | a key is kept iff it is in the table and its switch is absent or true |
| NewsRunner.EnabledKeysAllEnabled | penguin-overlord/news_runner.py:141-150 | with no switch off, every key is kept in table order |
| NewsRunner.FlagIsSourceEnabled | penguin-overlord/news_runner.py:143-147 | the runner's filter gives the same answer as the bot's `is_source_enabled` for a configured category |
| NewsRunner.GetEnabledSources | penguin-overlord/news_runner.py:141-150 | the loop returns exactly the enabled keys in table order |
| NewsRunner.ResolveToken | penguin-overlord/news_runner.py:164-172 | the token is never empty; there is none iff the secret, `DISCORD_BOT_TOKEN` and `DISCORD_TOKEN` are all empty or missing |
| NewsRunner.Decide | penguin-overlord/news_runner.py:152-184 | fetching happens iff the category is enabled, has a channel, a token exists and the table is non-empty; the guards are checked in that order; the cache flag defaults to true |
| NewsRunner.FetchAndPost | penguin-overlord/news_runner.py:152-195 | the plan is the guards' decision; a skipped run fetches nothing and leaves the fetcher untouched; a fetching run yields exactly the items and cache of fetching the enabled sources in table order (`Gathered`), with the cache flag of the plan |
| Cve.NvdSeverity | penguin-overlord/cogs/cve.py:119-121 | 'UNKNOWN' when there is no `cvssMetricV31` entry, else the first entry's base severity |
| Cve.NvdItem | penguin-overlord/cogs/cve.py:110-134 | the id defaults to 'Unknown'; the title is "CVE " + id; the link is the NVD detail URL of the id; the description is the English one cut at 300 (+"..."), or the no-description text; the severity is `NvdSeverity`; the date is the published one, empty when missing; the source is 'nvd' |
| Cve.NvdItems | penguin-overlord/cogs/cve.py:110-134 | one item per vulnerability, position by position |
| Cve.FetchNvd | penguin-overlord/cogs/cve.py:87-141 | a failed request gives no items; otherwise one item per vulnerability among the first five, in order |
| Cve.BeforeColon | penguin-overlord/cogs/cve.py:168 | `title.split(':')[0]`: a colon-free prefix followed by a colon unless it is the whole title |
| Cve.UbuntuItem | penguin-overlord/cogs/cve.py:160-186 | severity always 'MEDIUM', source 'ubuntu'; the id is the first CVE id in the title, else the text before the first colon; the description is the block's cut at 300 (+"...") when non-empty, else the no-description text |
| Cve.UbuntuItems | penguin-overlord/cogs/cve.py:157-186 | at most one item per block |
| Cve.UbuntuItemsFromUsable | penguin-overlord/cogs/cve.py:161-186 | every Ubuntu item comes from a block with both title and link and has severity 'MEDIUM' |
| Cve.FetchUbuntu | penguin-overlord/cogs/cve.py:143-193 | a failed request gives no items; otherwise the items of the usable blocks among the first five, so at most five |
| Cve.FetchCves | penguin-overlord/cogs/cve.py:195-201 | 'nvd' gives the NVD fetch's items and 'ubuntu' the Ubuntu fetch's; any other key gives none; at most five, all from the requested source |
| Cve.SeverityEmoji | penguin-overlord/cogs/cve.py:203-215 | CRITICAL/HIGH/MEDIUM/LOW, in any letter case, give four distinct emoji and every other string gives ⚪ (both directions) |
| Cve.SeverityEmojiIgnoresCase | penguin-overlord/cogs/cve.py:205 | lower-casing a severity first never changes its emoji |
| Cve.CveCommand | penguin-overlord/cogs/cve.py:218-282 | an unknown source is rejected by name; a named source shows `Shown` of that source's items; no source shows `Shown` of the NVD items followed by the Ubuntu items; a shown list has one to five items, all from the requested source |
| Cve.Shown | penguin-overlord/cogs/cve.py:247-252 | "no CVEs" iff nothing was fetched; otherwise the first five of the fetched items, or all of them when fewer |
| Cve.FetchEach | penguin-overlord/cogs/cve.py:242-245 | the loop concatenates the items of the chosen sources in order |
| Cve.FetchedSources | penguin-overlord/cogs/cve.py:195-201 | every item fetched for a key carries that key as its source |
| Cve.Ids | penguin-overlord/cogs/cve.py:320-324 | the ids of the items, position by position |
| Cve.Extend | penguin-overlord/cogs/cve.py:311 | building the posted set keeps what was known in front, holds exactly the known and added ids, and has no repeats |
| Cve.Pass | penguin-overlord/cogs/cve.py:316-355 | a pass sends at most one message per candidate |
| Cve.PassKnown | penguin-overlord/cogs/cve.py:324-353 | the posted set after a pass is the old one followed by the ids sent |
| Cve.PassKnownDistinct | penguin-overlord/cogs/cve.py:324-353 | starting from posted ids without repeats, the posted ids after a pass still have no repeats |
| Cve.PassSendsFresh | penguin-overlord/cogs/cve.py:324-353 | never re-send: a sent id was not posted before and no id is sent twice in one pass |
| Cve.PassSendsAllNew | penguin-overlord/cogs/cve.py:316-355 | when no send failed, an id is sent iff it is among the candidates and was not posted before |
| Cve.PassAbortStays | penguin-overlord/cogs/cve.py:348-362 | once a send raises, the rest of the candidates change nothing |
| Cve.Cap | penguin-overlord/cogs/cve.py:357 | the saved list has at most 1000 entries, all from the posted set, and keeps everything when there are at most 1000 |
| Cve.SavedPosted | penguin-overlord/cogs/cve.py:311-357 | what a pass saves is at most 1000 distinct ids, each previously posted or sent in the pass |
| Cve.SendNew | penguin-overlord/cogs/cve.py:316-355 | the item loop sends exactly what the pass function sends and extends the posted ids by them |
| Cve.CveState.constructor | penguin-overlord/cogs/cve.py:53-66 | with no state file nothing is posted, no check happened and no channel or switch is set |
| Cve.CveState.AutoPost | penguin-overlord/cogs/cve.py:284-363 | gated by the news configuration's 'cve' entry alone; when the gate is closed nothing is sent or saved; the cog's own `enabled` and channel are never read or changed |
| Cve.CveState.SetChannel | penguin-overlord/cogs/cve.py:372-391 | with Manage Server the channel is set, otherwise nothing changes |
| Cve.CveState.Enable | penguin-overlord/cogs/cve.py:393-418 | the owner can enable iff a channel is set; nothing else changes |
| Cve.CveState.Disable | penguin-overlord/cogs/cve.py:420-438 | the owner clears `enabled`; nothing else changes |
| FeedItems.IsRecent | penguin-overlord/cogs/general_news.py:130-172 | an item counts as old iff a date was found, it parsed, and it is not after now minus `max_days`; a missing or unparseable date counts as recent |
| FeedItems.Blocks | penguin-overlord/cogs/eu_legislation.py:155-160 | blocks are cut on `<item>` when the text contains it, else on `<entry>` |
| FeedItems.BlockTitle | penguin-overlord/cogs/cybersecurity_news.py:203-205 | a found `<title>` is used stripped, even when that leaves it empty; "No title" only when there is none |
| FeedItems.BlockLink | penguin-overlord/cogs/cybersecurity_news.py:208-212 | the stripped `<link>` text, else the `href`, else the source's URL |
| FeedItems.BlockDescription | penguin-overlord/cogs/cybersecurity_news.py:216-224 | empty without a description; otherwise at most 300 characters, or exactly 300 followed by "..." |
| FeedItems.BlockArticle | penguin-overlord/cogs/cybersecurity_news.py:196-226 | the article is the block's title, link and description as above |
| FeedItems.Items | penguin-overlord/cogs/gaming_news.py:157-159 | Atom entries are used when there are any, else RSS items |
| FeedItems.XmlTitle | penguin-overlord/cogs/gaming_news.py:165-169 | the title element's text, stripped, when it has any; "No title" when the element is missing or has no text |
| FeedItems.XmlLink | penguin-overlord/cogs/gaming_news.py:171-177 | the Atom `href`, else the `link` text, else the feed URL |
| FeedItems.XmlDescription | penguin-overlord/cogs/gaming_news.py:179-188 | empty without a summary; otherwise at most 300 characters or 300 + "..." |
| FeedItems.XmlArticle | penguin-overlord/cogs/gaming_news.py:163-190 | the article is the element's title, link and description as above |
| LinkWindow.Examine | penguin-overlord/cogs/general_news.py:214 | `items[:10]`: a prefix of at most ten, the whole list when it is that short |
| LinkWindow.FirstFresh | penguin-overlord/cogs/general_news.py:214-241 | the index picked is the first entry that is recent and not in the source's posted list; every earlier entry is old or posted; None only when no entry qualifies |
| LinkWindow.After | penguin-overlord/cogs/general_news.py:236-257 | a fetch changes only its own source's list (creating it at the first recent item), which stays within 50 links |
| LinkWindow.Scan | penguin-overlord/cogs/general_news.py:214-260 | the loop finds exactly the first fresh entry, and reports whether it reached a recent one (where the list is created) |
| LinkWindow.FirstFreshIs | penguin-overlord/cogs/general_news.py:214-241 | a fresh entry preceded only by stale ones is the one picked |
| LinkWindow.FirstFreshNone | penguin-overlord/cogs/general_news.py:214-260 | with no fresh entry nothing is picked |
| LinkWindow.AfterSteps | penguin-overlord/cogs/general_news.py:236-257 | creating the list and then appending the chosen link and keeping 50 gives the map the fetch leaves |
| LinkWindow.ChosenLinkRecorded | penguin-overlord/cogs/general_news.py:240-257 | the chosen link was not posted for the source before and is the newest entry of its list afterwards |
| LinkWindow.NoImmediateRepost | penguin-overlord/cogs/general_news.py:240-257 | the next fetch for the same source cannot return the link just posted |
| LinkWindow.NothingFreshRecordsNothing | penguin-overlord/cogs/general_news.py:236-260 | a fetch that finds nothing fresh leaves the source's links as they were |
| LinkWindow.WalkFoundFromKeys | penguin-overlord/cogs/general_news.py:325-334 | an auto-poster pass finds at most one item per source it visits, each from a visited source the table knows |
| LinkWindow.WalkKeepsOthers | penguin-overlord/cogs/general_news.py:325-334 | a pass leaves the links of every source it does not fetch as they were |
| LinkWindow.WalkKeepsBound | penguin-overlord/cogs/general_news.py:255-257 | a pass keeps every source's list within 50 links |
| LinkWindow.WalkRecordsFound | penguin-overlord/cogs/general_news.py:240-257 | when each source is visited once, the link of every item a pass finds is the newest of its source's list afterwards |
| GeneralNews.ToEntry | penguin-overlord/cogs/general_news.py:214-253 | an XML item becomes an entry with its recency and its title, link and description |
| GeneralNews.ToEntries | penguin-overlord/cogs/general_news.py:214-253 | one entry per item, position by position |
| GeneralNews.Examined | penguin-overlord/cogs/general_news.py:182-214 | at most ten entries are examined |
| GeneralNews.SourceCheckAsWritten | penguin-overlord/cogs/general_news.py:327-329 | as written the per-source test raises exactly when the source has an entry in the `sources` map |
| GeneralNews.ToggledSourceRaises | penguin-overlord/cogs/general_news.py:327-329 | after one toggle of a general-news source through NewsManager, every pass raises at that source |
| GeneralNews.SourceEnabledMatchesManager | penguin-overlord/cogs/general_news.py:325-330 | the corrected test agrees with NewsManager's `is_source_enabled` |
| GeneralNews.GeneralNewsCog.constructor | penguin-overlord/cogs/general_news.py:105-113 | the posted links are the saved map, or empty |
| GeneralNews.GeneralNewsCog.FetchRssFeed | penguin-overlord/cogs/general_news.py:174-270 | None for an unknown key with nothing changed; otherwise the first examined entry that is recent and unposted, whose link becomes the newest of that source's last 50, and no other source's list changes |
| GeneralNews.GeneralNewsCog.AutoPost | penguin-overlord/cogs/general_news.py:303-336 | nothing happens unless the 'general_news' entry is enabled with a channel; then the items found and the posted links are exactly those of fetching, in table order, the sources before the first one with an entry in `sources`, where the check raises and the pass ends |
| GeneralNews.Reached | penguin-overlord/cogs/general_news.py:325-334 | the sources a pass reaches: the longest prefix of the table with no entry in `sources`, followed by a source that has one or by the end |
| GeneralNews.ReachedIs | penguin-overlord/cogs/general_news.py:325-334 | any prefix without flagged sources that is followed by a flagged source or the end is what a pass reaches |
| GeneralNews.AutoPostReach | penguin-overlord/cogs/general_news.py:325-334 | what a pass finds comes from table sources without an entry, and every source it does not reach keeps its links |
| EuLegislation.ToEntries | penguin-overlord/cogs/eu_legislation.py:162-194 | one entry per block with its recency, title, link and description |
| EuLegislation.Examined | penguin-overlord/cogs/eu_legislation.py:146-162 | at most ten entries are examined |
| EuLegislation.EuLegislationCog.constructor | penguin-overlord/cogs/eu_legislation.py:62-70 | the posted links are the saved map, or empty |
| EuLegislation.EuLegislationCog.FetchRssFeed | penguin-overlord/cogs/eu_legislation.py:131-211 | None for an unknown key with nothing changed; otherwise the first recent unposted entry, whose link becomes the newest of that source's last 50 |
| EuLegislation.EuLegislationCog.AutoPost | penguin-overlord/cogs/eu_legislation.py:214-262 | nothing unless the 'eu_legislation' entry is enabled with a resolvable channel; then what is sent and the posted links are exactly those of fetching, in table order, the sources NewsManager leaves enabled |
| EuLegislation.EnabledSources | penguin-overlord/cogs/eu_legislation.py:239-242 | a source is fetched iff it is in the table and NewsManager leaves it enabled |
| EuLegislation.AutoPostEnabledOnly | penguin-overlord/cogs/eu_legislation.py:237-258 | what a pass sends comes from enabled table sources, at most one item each, and disabled or unknown sources keep their links |
| EuLegislation.EuLegislationCog.Command | penguin-overlord/cogs/eu_legislation.py:270-297 | a choice that is not a table key ends in KeyError with nothing changed; a table key never does; a posted item comes from the chosen source |
| EuLegislation.ChoicesMissTable | penguin-overlord/cogs/eu_legislation.py:273 | none of the three slash-command choices is a key of the source table |
| EuLegislation.IntendedChoicesInTable | penguin-overlord/cogs/eu_legislation.py:24-40 | the corrected choices, the table's own keys, are all keys |
| LastLinkNews.RegexFirstArticle | penguin-overlord/cogs/cybersecurity_news.py:178-231 | None for an unknown key, a failed request or an empty feed; otherwise the first block's article with a short description |
| LastLinkNews.XmlFirstArticle | penguin-overlord/cogs/gaming_news.py:131-197 | None for an unknown key, a failed request, malformed XML or no items; otherwise the first item's article, the first Atom entry when there is one |
| LastLinkNews.NewLast | penguin-overlord/cogs/cybersecurity_news.py:259-288 | a source's last link becomes the article's link iff the article is sent and the send succeeds; otherwise it stays |
| LastLinkNews.LastLinkCog.constructor | penguin-overlord/cogs/cybersecurity_news.py:155-167 | `last_posted` is the saved map, or empty |
| LastLinkNews.LastLinkCog.AutoPost | penguin-overlord/cogs/cybersecurity_news.py:233-292 | nothing unless the category is enabled with a resolvable channel; then a source is sent iff NewsManager enables it, title and link are non-empty and the link differs from its last one; sources outside the table are untouched |
| LastLinkNews.LastLinkCog.Command | penguin-overlord/cogs/cybersecurity_news.py:301-330 | an unknown key is refused before any fetch; a missing title is a fetch failure; a shown article is the fetched one |
| LastLinkNews.NoRepostOfLastLink | penguin-overlord/cogs/cybersecurity_news.py:269-286 | after a link is posted for a source, an article with the same link is not sent for it again |
| LastLinkNews.SharedFeedPostsTwice | penguin-overlord/cogs/apple_google_news.py:331-345 | two keys reading the same feed both post the same article, because dedup is per key |
| Secrets.DopplerValue | penguin-overlord/utils/secrets.py:114 | the `computed` value when present, else `raw`, else "" |
| Secrets.Find | penguin-overlord/utils/secrets.py:163-175 | a listing lookup finds a name's secret iff some entry has that name |
| Secrets.Getenv | penguin-overlord/utils/secrets.py:204-206 | `os.getenv` yields a value iff the name is set |
| Secrets.EnvKey | penguin-overlord/utils/secrets.py:162 | the name is `PLATFORM_KEY` upper-cased |
| Secrets.LoadFromAws | penguin-overlord/utils/secrets.py:17-35 | the secret's object, or empty when the store has no such secret |
| Secrets.LoadFromVault | penguin-overlord/utils/secrets.py:38-67 | empty without `SECRETS_VAULT_URL`, without `SECRETS_VAULT_TOKEN` or when the token does not authenticate; otherwise the data stored at the path |
| Secrets.Suffix | penguin-overlord/utils/secrets.py:113 | the name after the platform and its underscore, lower-cased; empty when nothing follows |
| Secrets.PrefixFilterWinner | penguin-overlord/utils/secrets.py:108-114 | a suffix is stored with the value of the last matching entry that has it |
| Secrets.PrefixFilterKeys | penguin-overlord/utils/secrets.py:108-114 | every stored suffix comes from some matching entry |
| Secrets.LoadFromDoppler | penguin-overlord/utils/secrets.py:70-126 | empty without a Doppler token or when the listing fails; otherwise exactly the prefix-filtered dictionary |
| Secrets.NonEmpty | penguin-overlord/utils/secrets.py:166-175 | a lookup counts only a present, non-empty value |
| Secrets.FromDoppler | penguin-overlord/utils/secrets.py:161-177 | `PLATFORM_KEY` first, then `KEY`, each only when non-empty; the result is never empty |
| Secrets.FromManager | penguin-overlord/utils/secrets.py:182-201 | nothing unless `SECRETS_MANAGER` is 'aws' or 'vault'; then the store named by the given variable, looked up by key; never empty |
| Secrets.GetSecret | penguin-overlord/utils/secrets.py:129-212 | the chain Doppler, then the secrets manager, then `PLATFORM_KEY` from the environment: a non-empty Doppler value wins; without one, the manager's value wins over the environment's, which is taken only when the manager has none; the result is never empty and is None only when the environment variable is empty too |
| Secrets.AwsIgnoresVault | penguin-overlord/utils/secrets.py:182-192 | with the manager set to 'aws', what Vault holds makes no difference |
| Secrets.VaultIgnoresAws | penguin-overlord/utils/secrets.py:182-201 | with the manager set to 'vault', what AWS holds makes no difference |
| Config.SecretNamesAgree | penguin-overlord/utils/config.py:78-79 | a sectioned config name is the same string the secrets module builds for platform and key |
| Config.UsableSecret | penguin-overlord/utils/config.py:94-99 | a listed secret counts iff it exists, is non-empty and does not start with `YOUR_` |
| Config.ConfigFromDoppler | penguin-overlord/utils/config.py:81-112 | a Doppler answer needs a token and a listing, and is never a placeholder |
| Config.GetConfig | penguin-overlord/utils/config.py:55-125 | Doppler wins when it answers; otherwise `KEY` from the environment when set, else `SECTION_KEY`, else the default |
| Config.GetBoolConfig | penguin-overlord/utils/config.py:128-150 | the default when nothing is configured; otherwise true iff the lower-cased value is one of the true words |
| Config.GetIntConfig | penguin-overlord/utils/config.py:153-174 | the default when nothing is configured or the stripped value does not read as an integer; otherwise the integer the stripped value reads as (signed values included) |
| Config.FromStore | penguin-overlord/utils/config.py:252-272 | a store's dictionary looked up by `key`, `KEY`, then `SECTION_KEY`; only usable values count and the first usable one wins |
| Config.SecretFromDoppler | penguin-overlord/utils/config.py:205-240 | nothing without a Doppler token; the injected `SECTION_KEY` variable wins when usable |
| Config.SecretFromAws | penguin-overlord/utils/config.py:242-277 | taken only when `Secrets.aws_enabled` is true; never a placeholder |
| Config.SecretFromVault | penguin-overlord/utils/config.py:279-316 | taken only when `Secrets.vault_enabled` is true and both the Vault URL and token are configured |
| Config.GetSecret | penguin-overlord/utils/config.py:177-330 | Doppler, then AWS, then Vault, then `get_config`, each step taken only when every earlier one gives nothing; the result is the default or a usable value, never a placeholder |
| Config.Environment.constructor | penguin-overlord/utils/config.py:29-52 | nothing is loaded yet and the environment is the given one |
| Config.Environment.LoadConfig | penguin-overlord/utils/config.py:29-52 | once loaded it answers True at once; a missing file answers False; a file's entries are added without overriding any variable already set |
| Xkcd.ComicUrl | penguin-overlord/cogs/xkcd.py:27-37 | a missing or zero number asks for the latest comic's JSON; any other number asks for that comic's own JSON |
| Xkcd.RandomChoices | penguin-overlord/cogs/xkcd.py:112-130 | the random number is drawn from exactly 1..latest |
| Xkcd.DateText | penguin-overlord/cogs/xkcd.py:79-82 | the year followed by month and day as two zero-padded digits each |
| Xkcd.Footer | penguin-overlord/cogs/xkcd.py:78-83 | when the three date fields are there and read as integers the footer is "Published: " and their `DateText`, in either setting; in the command cog's strict setting the footer exists exactly then, so a missing field leaves it off |
| Xkcd.FooterMissingOrNotInteger | penguin-overlord/cogs/xkcd_poster.py:107-113 | with the default, three missing fields read as the date 0-00-00; a field that does not read as an integer leaves the footer off |
| Xkcd.ComicEmbed | penguin-overlord/cogs/xkcd.py:66-76 | title "#num: title", URL the comic's page, the alt text in italics (or nothing), and the given footer |
| Xkcd.CommandEmbed | penguin-overlord/cogs/xkcd.py:56-85 | the command's embed exists iff the date reads, and is the comic embed with that footer |
| Xkcd.ComicReply | penguin-overlord/cogs/xkcd.py:89-158 | no comic gives "not found" naming a requested number, or the latest-failed message; a fetched comic is shown iff its command embed exists, and then the reply is exactly that embed; otherwise the reply is the raised error |
| Xkcd.SearchStart | penguin-overlord/cogs/xkcd.py:181 | the oldest comic searched is at least 1 and at most 99 below the latest |
| Xkcd.Hits | penguin-overlord/cogs/xkcd.py:185-188 | every hit is in the window, matches the keyword case-insensitively, and the hits are newest first |
| Xkcd.HitsExtend | penguin-overlord/cogs/xkcd.py:185-192 | scanning further down only appends hits |
| Xkcd.HitsComplete | penguin-overlord/cogs/xkcd.py:185-192 | every matching number in the window is a hit |
| Xkcd.Search | penguin-overlord/cogs/xkcd.py:160-208 | the loop returns the first five hits of the window, newest first |
| Xkcd.SearchResults | penguin-overlord/cogs/xkcd.py:185-192 | at most five results, each a match in the window, newest first; with fewer than five, every match in the window is among them |
| Xkcd.OtherMatches | penguin-overlord/cogs/xkcd.py:199-206 | no field for one match or none; otherwise the "Other matches" field, not inline, whose value is "#n" for each match after the first, in order, joined by ", " |
| Xkcd.Tags | penguin-overlord/cogs/xkcd.py:201 | one "#n" per number, position by position |
| XkcdPoster.PosterEmbed | penguin-overlord/cogs/xkcd_poster.py:97-113 | title "#num: title" linking to the comic's page in blue, the alt text in underscores (or nothing); three missing date fields give the footer of 0-00-00, any field that does not read as an integer leaves the footer off, and all-digit fields give "Published: y-mm-dd" |
| XkcdPoster.PostedOnce | penguin-overlord/cogs/xkcd_poster.py:126-144 | once a comic is posted, the same comic does not pass the guard again |
| XkcdPoster.XkcdPosterCog.constructor | penguin-overlord/cogs/xkcd_poster.py:39-67 | the saved state or the default (nothing posted, no channel, enabled); an all-digit environment channel replaces the saved one |
| XkcdPoster.XkcdPosterCog.Poll | penguin-overlord/cogs/xkcd_poster.py:116-152 | posts iff enabled, a channel is set and found, the latest comic is newer than the last posted and the send succeeds; the last posted number then becomes the comic's and never decreases |
| XkcdPoster.XkcdPosterCog.SetChannel | penguin-overlord/cogs/xkcd_poster.py:161-183 | without permission, or with an argument that is not a mention or all digits, nothing changes; otherwise the channel becomes the id |
| XkcdPoster.XkcdPosterCog.SetEnabled | penguin-overlord/cogs/xkcd_poster.py:185-205 | only the owner switches posting on or off; nothing else changes |
| XkcdPoster.XkcdPosterCog.PostNow | penguin-overlord/cogs/xkcd_poster.py:207-240 | refused without permission; a failed fetch changes nothing; otherwise the embed goes to the configured channel when it resolves, else to the invoking one, and the comic becomes the last posted iff that send returned; a raising send leaves the last posted number as it was |
| XkcdRunner.LoadState | penguin-overlord/xkcd_runner.py:51-60 | with no readable file the runner is disabled with nothing posted |
| XkcdRunner.PostXkcdUpdate | penguin-overlord/xkcd_runner.py:85-180 | without the token or channel variable nothing is posted; no comic or one not newer than the last posted sends nothing; a post sends the comic's embed and records its number, which is larger than before |
| XkcdRunner.PostsEachComicOnce | penguin-overlord/xkcd_runner.py:117-165 | a second pass on the saved state does not post the same comic again |
| XkcdRunner.LastPostedMonotone | penguin-overlord/xkcd_runner.py:117-165 | the saved last posted number never decreases and the switch is never changed |
| Comics.SourceName | penguin-overlord/cogs/comics.py:106-175 | every comic carries one of the three source names |
| Comics.FetchXkcd | penguin-overlord/cogs/comics.py:97-115 | a comic iff the answer is a 200; it is tagged 'xkcd' and carries the alt text, empty when missing |
| Comics.FetchRss | penguin-overlord/cogs/comics.py:117-183 | a comic iff a 200 answer has the title, link and description captures and the description holds an `<img … src="…">`; it carries the source's name, the stripped title, the stripped link and that image |
| Comics.ExplainText | penguin-overlord/cogs/comics.py:198-201 | an explanation of at most 500 characters is kept; a longer one is cut to 497 characters followed by "...", so never more than 500 |
| Comics.FetchExplain | penguin-overlord/cogs/comics.py:185-205 | an explanation iff the answer is a 200 with some page whose id is not '-1' |
| Comics.FirstPage | penguin-overlord/cogs/comics.py:194-202 | the first page whose id is not '-1' is taken; None iff there is none |
| Comics.TriviaEmbed | penguin-overlord/cogs/comics.py:272-294 | an embed iff the explanation is present and non-empty, and it shows that explanation |
| Comics.Icon | penguin-overlord/cogs/comics.py:207-214 | xkcd, joyoftech and turnoff each get their own icon, any other source the newspaper, each as the code points the source file stores |
| Comics.ComicFooter | penguin-overlord/cogs/comics.py:224-231 | XKCD's alt text cut to 200 characters when there is one, else the source line |
| Comics.ComicEmbed | penguin-overlord/cogs/comics.py:207-232 | the source's stored icon and the title, the comic's page, and that footer |
| Comics.DailyEmbed | penguin-overlord/cogs/comics.py:324-328 | the comic embed with the stored newspaper and "Daily Tech Comic: " in front of its title and nothing else changed |
| Comics.ResolveSource | penguin-overlord/cogs/comics.py:248-262 | 'random' takes the random pick; the aliases joy/jot and turn name their sources; exactly the other arguments are refused |
| Comics.EverySourceReachable | penguin-overlord/cogs/comics.py:248-262 | every source is reachable both by its name and by the random pick |
| Comics.ComicCommand | penguin-overlord/cogs/comics.py:235-270 | an unknown source is refused before any fetch; for a known source a failed fetch is reported and a fetched comic is always shown, as that comic's embed |
| Comics.WaitUntilPost | penguin-overlord/cogs/comics.py:336-347 | the wait is positive, at most a day, and ends at 09:00 UTC; it ends today iff the time is before 09:00 |
| Comics.ComicsCog.constructor | penguin-overlord/cogs/comics.py:49-75 | the saved state or the default (enabled, random source, nothing posted); an all-digit environment channel replaces the saved one |
| Comics.ComicsCog.DailyPost | penguin-overlord/cogs/comics.py:296-334 | posts iff enabled, a channel is set and found, a comic is fetched and the send succeeds; only then is the post time recorded |
| Comics.ComicsCog.DailyCommand | penguin-overlord/cogs/comics.py:352-379 | the owner or a guild manager gets the daily embed of the fetched comic; anyone else is refused |
| Comics.ComicsCog.SetChannel | penguin-overlord/cogs/comics.py:381-403 | without permission or with an argument that is not a mention or all digits nothing changes; otherwise the channel becomes the id |
| Comics.ComicsCog.SetEnabled | penguin-overlord/cogs/comics.py:405-428 | only the owner switches the daily post on or off; nothing else changes |
| ComicsRunner.LoadState | penguin-overlord/comics_runner.py:53-62 | with no readable file the runner is disabled with nothing posted |
| ComicsRunner.FirstValid | penguin-overlord/comics_runner.py:197-207 | the first fetch that returned a comic; None iff every fetch failed |
| ComicsRunner.SourceInfo | penguin-overlord/comics_runner.py:228-233 | each source's emoji (as the code points the source file stores), name and colour; any other source gets the stored newspaper and grey |
| ComicsRunner.RunnerEmbed | penguin-overlord/comics_runner.py:228-248 | the source's stored emoji and title, the comic's page and colour, the alt text in italics, and a "Daily Tech Comic from" footer |
| ComicsRunner.PostComicUpdate | penguin-overlord/comics_runner.py:157-265 | without the token or channel variable it fails; it posts iff enabled, not yet posted today, the channel id is numeric and some fetch succeeded; a post sends the first valid comic and records today |
| ComicsRunner.OncePerDay | penguin-overlord/comics_runner.py:176-180 | a second pass on the same day, on the state the first one saved, posts nothing |
| SolarRunner.ScaleText | penguin-overlord/solar_runner.py:82-90 | a scale's reported value when present and non-empty, else 'N/A'; never empty |
| SolarRunner.ParseIndices | penguin-overlord/solar_runner.py:94-106 | fields 3, 6 and 7 (flux, A, K) of the stripped text's last line when the text has more than one line and that line has at least eight whitespace-separated fields; 'N/A' for all three otherwise |
| SolarRunner.LineIndices | penguin-overlord/solar_runner.py:102-106 | fields 3, 6 and 7 when the line has at least eight fields, else "N/A" for all three |
| SolarRunner.IndicesOfReport | penguin-overlord/solar_runner.py:100-106 | a report whose last line has at least eight fields yields its fields 3, 6 and 7 as flux, A and K |
| SolarRunner.FetchSolarData | penguin-overlord/solar_runner.py:74-120 | data iff the scales answer is a 200 and the indices request returned; the scales are the reported ones; a non-200 indices answer leaves the indices 'N/A' |
| SolarRunner.BestBands | penguin-overlord/solar_runner.py:215-219 | the day bands iff the UTC hour is 12..22, the night bands otherwise |
| SolarRunner.SolarEmbed | penguin-overlord/solar_runner.py:170-224 | seven fields: the three scales and the three indices inline in that order, then the best bands |
| SolarRunner.LoadState | penguin-overlord/solar_runner.py:52-61 | the saved state, or empty without a readable file |
| SolarRunner.PostSolarUpdate | penguin-overlord/solar_runner.py:123-245 | a missing token or channel, or a channel that is not an integer, fails; it sends iff the channel is found, the data was fetched and the send succeeds; only then is `last_posted` recorded, and the report sent is that data's embed |
| Radiohead.SfiValue | penguin-overlord/cogs/radiohead.py:296-300 | the solar flux as an integer; 100 when it is 'N/A' or does not parse |
| Radiohead.ScaleValue | penguin-overlord/cogs/radiohead.py:322-324 | a scale's integer when it is all digits, else -1 |
| Radiohead.ScaleStatus | penguin-overlord/cogs/radiohead.py:326-344 | the calm text at 0, the warning above 0, 'N/A' below |
| Radiohead.ClearScaleNeverGood | penguin-overlord/cogs/radiohead.py:291-330 | a radio-blackout scale the status line calls clear ("0") never counts as good conditions, since those need 'R0' or 'N/A' |
| Radiohead.Rate | penguin-overlord/cogs/radiohead.py:350-398 | 160m good, 80m and 40m excellent, 6m check; the other bands need good conditions and a flux above the band's threshold (80, 100, 100, 120, 120, 150), with the fair fallbacks as written |
| Radiohead.RateMonotoneInFlux | penguin-overlord/cogs/radiohead.py:350-398 | a higher flux never makes a band's rating worse |
| Radiohead.RateMonotoneInConditions | penguin-overlord/cogs/radiohead.py:350-398 | good conditions never make a band's rating worse |
| Radiohead.BandLine | penguin-overlord/cogs/radiohead.py:350-398 | each band's line starts with its name and its rating |
| Radiohead.HfPredictions | penguin-overlord/cogs/radiohead.py:347-404 | one line per HF band in the report's order, each that band's full line: its name, the rating's colour and word, and the remark for that rating and flux |
| Radiohead.VhfPredictions | penguin-overlord/cogs/radiohead.py:407-422 | two lines; 2m announces aurora iff the geomagnetic scale reads 3 or more; 70cm is always normal |
| Radiohead.RemoveG | penguin-overlord/cogs/radiohead.py:432 | `replace('G', '')` leaves no 'G' |
| Radiohead.StormLevel | penguin-overlord/cogs/radiohead.py:432 | the scale without 'G' as an integer when it is all digits, else 0 |
| Radiohead.Recommendations | penguin-overlord/cogs/radiohead.py:425-450 | never empty; the blackout warning iff R is not 'R0' or 'N/A'; aurora iff stormy at level 3 or more; the storm tip iff stormy; the flux notes iff above 150 / below 80; the great-conditions note iff conditions are good; the normal note iff nothing else applies |
| Radiohead.GoodMeansNoBlackout | penguin-overlord/cogs/radiohead.py:428-443 | good conditions rule out the blackout warning and bring the great-conditions note |
| Radiohead.TimeSuggestion | penguin-overlord/cogs/radiohead.py:455-460 | the day suggestion iff the UTC hour is 12..22 |
| Radiohead.ReportColor | penguin-overlord/cogs/radiohead.py:306 | orange iff conditions are good, red otherwise |
| Radiohead.SolarPoster.constructor | penguin-overlord/cogs/radiohead.py:96-122 | the saved state or the default (nothing posted, no channel, disabled); an all-digit environment channel replaces the saved one |
| Radiohead.SolarPoster.SetChannel | penguin-overlord/cogs/radiohead.py:578-594 | a permitted member sets the channel; nothing else changes |
| Radiohead.SolarPoster.Enable | penguin-overlord/cogs/radiohead.py:595-620 | owner only, and refused without a channel; then the flag is set and nothing else changes |
| Radiohead.SolarPoster.Disable | penguin-overlord/cogs/radiohead.py:621-632 | owner only; clears the flag and nothing else |
| Manpage.Classify | penguin-overlord/cogs/manpage.py:349-358 | dangerous iff the level is 4 or more, caution iff exactly 3, safe iff 2 or less |
| Manpage.CommandEmbed | penguin-overlord/cogs/manpage.py:347-376 | red / orange / green exactly for the dangerous / caution / safe levels; the command in backticks and the description come first; the warning field is there iff the level is 4 or more |
| Manpage.DangerLevelsInRange | penguin-overlord/cogs/manpage.py:18-328 | the command table has 284 entries, each with a danger level from 1 to 5 |
| PatchGremlin.ChaosColor | penguin-overlord/cogs/patchgremlin.py:72-80 | bright red iff chaos is 4 or more, orange iff 3, yellow iff 2, green iff 1 or less |
| PatchGremlin.Meter | penguin-overlord/cogs/patchgremlin.py:89 | exactly `chaos` flames (none for a level of 0 or below, as Python's string repetition gives) |
| PatchGremlin.GremlinEmbed | penguin-overlord/cogs/patchgremlin.py:70-92 | the alert title, the message as description, the chaos colour, and a footer that starts with the chaos meter |
| PatchGremlin.ChaosLevelsInRange | penguin-overlord/cogs/patchgremlin.py:18-51 | the reminder table has 30 entries, each meter holding one to five flames |
| Links.UrlPrefix | penguin-overlord/social/discord.py:109 | a match of `https?://[^\s]+` at the start of the text is a URL and ends at whitespace or the end |
| Links.UrlPrefixOfUrl | penguin-overlord/social/discord.py:109 | a scheme followed by a word matches exactly as far as the word goes |
| Links.FindUrl | penguin-overlord/social/discord.py:110 | the leftmost position from the start point where the pattern matches; none iff it matches nowhere |
| Links.FirstUrl | penguin-overlord/social/discord.py:109-111 | `re.search(...).group()`: a URL that occurs in the text; none iff the pattern matches nowhere |
| Links.SubstituteNoUrl | penguin-overlord/social/matrix.py:178 | `re.sub` leaves a text with no match unchanged |
| Links.SubstituteUrl | penguin-overlord/social/matrix.py:178 | `re.sub` replaces a leading URL by the replacement and carries on after it |
| Links.SubstituteSpace | penguin-overlord/social/matrix.py:178 | `re.sub` keeps a leading whitespace character and carries on after it |
| Links.Hostname | penguin-overlord/social/discord.py:33-34 | `urlparse(url).hostname`: when present it is non-empty, lower-case and free of '/', '?', '#', '@' and ':' |
| Links.NetLocOfUrl | penguin-overlord/social/discord.py:33 | for an http(s) URL whose host has no '/', '?' or '#' and whose path is empty or starts with '/', the parsed network location is the host |
| Links.HostnameOfUrl | penguin-overlord/social/discord.py:33-34 | an http(s) URL whose host has none of those characters has that host as its hostname |
| Links.HostMatchesSuffix | penguin-overlord/social/discord.py:21-40 | a host ending in the domain matches iff it is the domain or the part before it ends with a dot, so a look-alike such as "eviltwitch.tv" does not match |
| Discord.UrlForDomain | penguin-overlord/social/discord.py:21-40 | an http(s) URL is for a domain iff its host is the domain or a sub-domain of it; a look-alike host that merely ends in the domain's letters is not |
| Discord.Grouped | penguin-overlord/social/discord.py:164 | `f"{n:,}"`: the digits of the magnitude grouped by three, with a leading '-' for a negative count |
| Discord.GroupedNat | penguin-overlord/social/discord.py:164 | below 1000 the plain digits; otherwise a comma, then the last three digits zero-padded |
| Discord.Pad3 | penguin-overlord/social/discord.py:164 | a group below the first is always three digits and has the group's value |
| Discord.BaseName | penguin-overlord/social/discord.py:192 | the lower-cased platform name up to its first '-', which holds no '-' |
| Discord.BaseNameOfSuffixed | penguin-overlord/social/discord.py:192 | a suffixed name such as "twitch-clips" has the base name of "twitch" |
| Discord.Announcement | penguin-overlord/social/discord.py:200-208 | the request goes to the webhook with wait=true added, carries the message with its role mention, and has an embed exactly when the message has a URL and stream data are given |
| Discord.PostContent | penguin-overlord/social/discord.py:188-198 | the message, then the platform's own role (looked up by base name) when it has one, else the default role when set, else nothing |
| Discord.SuffixedPlatformSharesRole | penguin-overlord/social/discord.py:190-198 | a suffixed platform name pings the same role as its base name |
| Discord.EndRole | penguin-overlord/social/discord.py:412-418 | the ended message's role is looked up by the whole lower-cased platform name, else the default role, else none |
| Discord.EndRoleDiffersFromPost | penguin-overlord/social/discord.py:412-418 | for any lower-case base name with a suffix (such as "twitch-live"), a role for the base and a default role, the announcement pings the base's role while the ended message shows the default role |
| Discord.EndRoleIntended | penguin-overlord/social/discord.py:412-418 | the ended message's role looked up by base name, as the announcement does |
| Discord.EndRoleIntendedMatchesPost | penguin-overlord/social/discord.py:412-418 | with that lookup, the ended message keeps exactly the role the announcement used, for every platform name |
| Discord.AppendQuery | penguin-overlord/social/discord.py:208 | the URL, then '&' if it already has a query or '?' if not, then the parameter |
| Discord.AppendQueryStartsQuery | penguin-overlord/social/discord.py:208 | a URL without '?' gets exactly one '?', the one that starts the new query |
| Discord.WithWait | penguin-overlord/social/discord.py:208 | the webhook URL extended with `wait=true` |
| Discord.CacheBusted | penguin-overlord/social/discord.py:294-296 | the thumbnail URL extended with `_t=` and the current time |
| Discord.StatsFields | penguin-overlord/social/discord.py:158-172 | a viewers field iff the count is present (first, grouped), a category field named with the stored game-controller glyph iff the game is non-empty (last) |
| Discord.PostEmbed | penguin-overlord/social/discord.py:114-185 | linked to the first URL, titles carrying the stored emoji code points; Twitch purple, YouTube red (video or live title), Kick green "Live on Kick", TikTok cyan "New TikTok", otherwise purple "Live Stream"; video uploads get no fields and "Click to watch!", streams the stats and "Click to watch the stream!"; the title, its default when missing, or "New video uploaded!"/"Stream is live!" when empty; the thumbnail as image when given |
| Discord.LiveSite | penguin-overlord/social/discord.py:247-258 | Twitch iff the URL is twitch.tv's or the key is "twitch"; YouTube only for a YouTube URL or key |
| Discord.UpdateEmbed | penguin-overlord/social/discord.py:246-299 | the stream's link and stats, its title or "Live Stream", a cache-busted thumbnail iff one is given, the update-time footer with the stored bullet, and the site's colour and title with its stored emoji |
| Discord.EndedMessage | penguin-overlord/social/discord.py:349-358 | the platform's own ended message when set and non-empty; else `DISCORD_ENDED_MESSAGE` when set and non-empty; else the built-in text ending in the stored purple heart; never empty |
| Discord.EndEmbed | penguin-overlord/social/discord.py:360-410 | the ended message above the bold title ("Stream" by default), the stored stop-sign "Stream Ended" heading per site, peak-viewer stats, the last thumbnail as it was, the end-time footer with the stored bullet; grey iff the site is none of the three |
| Discord.ContentField | penguin-overlord/social/discord.py:202-204 | the payload's content is left out iff it is empty |
| Discord.ConfiguredSettings | penguin-overlord/social/discord.py:63-80 | a platform has a setting iff it is one of the four and its key holds a non-empty value, and the setting is that value |
| Discord.CollectSettings | penguin-overlord/social/discord.py:63-80 | the loop over the four platforms collects exactly those settings |
| Discord.ChooseWebhook | penguin-overlord/social/discord.py:96-101 | the platform's own webhook (by lower-cased name) when configured, else the default |
| Discord.DiscordPlatform.constructor | penguin-overlord/social/discord.py:46-53 | disabled, with no webhooks, no roles and no tracked messages |
| Discord.DiscordPlatform.Authenticate | penguin-overlord/social/discord.py:55-88 | fails untouched when posting is off; otherwise reads the webhooks, succeeds iff any webhook is configured, and only then reads the roles and enables; tracked messages never change |
| Discord.DiscordPlatform.Post | penguin-overlord/social/discord.py:90-230 | a request is sent iff enabled with a webhook; it goes to that webhook with `wait=true`, the content with its role and the embed when there is a URL and stream data; a 200 returns the id and, with an id and a platform name, tracks the message under the lower-cased name |
| Discord.DiscordPlatform.UpdateStream | penguin-overlord/social/discord.py:232-324 | a PATCH of the tracked message iff enabled, named and tracked, keeping its original content; true iff it answers 200; nothing changes |
| Discord.DiscordPlatform.ClearStream | penguin-overlord/social/discord.py:326-331 | forgets the platform's tracked message and nothing else |
| Discord.DiscordPlatform.EndStream | penguin-overlord/social/discord.py:333-440 | a PATCH to the ended card iff enabled, named and tracked; the card's role is looked up by the whole lower-cased platform name, as written, which can differ from the announcement's (see Findings); the message stops being tracked iff the edit answers 200 |
| Matrix.SameAsDiscordForLowerCaseDomain | penguin-overlord/social/matrix.py:22-57 | the Matrix domain check, which lower-cases the domain, agrees with the Discord one on the lower-cased domain |
| Matrix.Localpart | penguin-overlord/social/matrix.py:124-128 | a name without '@' is used whole; from '@name:server' the part before the first ':' is kept |
| Matrix.LocalpartOfUserId | penguin-overlord/social/matrix.py:124-128 | the local part of a full user id '@name:server' is its name |
| Matrix.LoginToken | penguin-overlord/social/matrix.py:120-156 | a token iff the log-in answers 200 with a non-empty token, and then that token |
| Matrix.ServerUrl | penguin-overlord/social/matrix.py:89-91 | the home server always starts with "http"; one that already does is kept as it is |
| Matrix.Anchor | penguin-overlord/social/matrix.py:178 | the link shows the URL it points to |
| Matrix.SecondUrlLost | penguin-overlord/social/matrix.py:169-178 | with two different URLs, the substitution as written links both to the first and loses the second, unlike the intended body |
| Matrix.FirstOfTwo | penguin-overlord/social/matrix.py:169-170 | a message that starts with a URL has that URL as its first |
| Matrix.AnchorsDiffer | penguin-overlord/social/matrix.py:178 | links to different URLs differ |
| Matrix.LinkedBodyIntended | penguin-overlord/social/matrix.py:174-178 | a message without a URL is its own HTML body |
| Matrix.EachUrlLinksToItself | penguin-overlord/social/matrix.py:178 | in the corrected body each URL becomes a link to itself and the rest is linked the same way |
| Matrix.Styled | penguin-overlord/social/matrix.py:180-186 | the Twitch heading wraps the body for a twitch.tv URL; a URL of none of the three sites leaves it plain |
| Matrix.HtmlBody | penguin-overlord/social/matrix.py:172-186 | a message without a URL is its own HTML body; otherwise the heading for the first URL's site over the body in which every URL becomes a link to the first URL, as written (see Findings) |
| Matrix.EveryUrlLinksToFirst | penguin-overlord/social/matrix.py:178 | each URL of the body is replaced by the same link, to the first URL |
| Matrix.HtmlBodyOfTwoUrls | penguin-overlord/social/matrix.py:172-186 | a message of two URLs becomes two links to the first one under its heading |
| Matrix.PercentByte | penguin-overlord/social/matrix.py:205 | a byte escapes to '%' and two upper-case hexadecimal digits |
| Matrix.Utf8 | penguin-overlord/social/matrix.py:205 | a character's UTF-8 encoding has one to four bytes, and an ASCII character is its own byte |
| Matrix.PercentBytes | penguin-overlord/social/matrix.py:205 | three characters of escape per byte, each '%' or a hexadecimal digit |
| Matrix.QuoteIsSafe | penguin-overlord/social/matrix.py:205 | `quote` leaves only unreserved characters and escapes in the URL path |
| Matrix.QuoteRoomId | penguin-overlord/social/matrix.py:205 | a room id '!local:server' of plain characters quotes to '%21local%3Aserver' |
| Matrix.QuoteConcat | penguin-overlord/social/matrix.py:205 | quoting keeps a prefix of unreserved characters as it is |
| Matrix.MatrixPlatform.constructor | penguin-overlord/social/matrix.py:67-74 | disabled, with no server, token, room or log-in |
| Matrix.MatrixPlatform.Authenticate | penguin-overlord/social/matrix.py:76-118 | fails untouched when posting is off; succeeds iff server and room are set and either user and password log in with a token or, without them, an access token is configured; a log-in request (to the server's login path, with the local part) is made iff user and password are set |
| Matrix.MatrixPlatform.Post | penguin-overlord/social/matrix.py:158-222 | a request iff enabled with server, token and room; it goes to the quoted room's send path with the bearer token, the plain body and the HTML body (every URL linked to the first one, as written, see Findings), and a reply reference iff one is given; the event id of a 200 answer is returned |
| EventPinger.DaysUntilOfClock | penguin-overlord/cogs/eventpinger.py:175-179 | `(start_date - now).days` floors: an event starting on a later date counts one day fewer once the clock is past midnight, so one starting today counts as -1 |
| EventPinger.RowEventCases | penguin-overlord/cogs/eventpinger.py:130-161 | a row is skipped iff 'Start Date' or 'Event' is missing, a date does not parse or the event ended before today; a blank end date is the start date; optional columns take their defaults |
| EventPinger.LoadedRowsSound | penguin-overlord/cogs/eventpinger.py:130-161 | every loaded event comes from a row of the file |
| EventPinger.LoadedRowsComplete | penguin-overlord/cogs/eventpinger.py:130-161 | every row that yields an event has it loaded |
| EventPinger.LoadedFilesSound | penguin-overlord/cogs/eventpinger.py:122-165 | every loaded event comes from a row of some file and has not ended before today |
| EventPinger.LoadedFilesComplete | penguin-overlord/cogs/eventpinger.py:122-165 | every row of every file that yields an event has it loaded |
| EventPinger.InsertPerm | penguin-overlord/cogs/eventpinger.py:188 | inserting keeps every entry and adds the new one |
| EventPinger.InsertSorted | penguin-overlord/cogs/eventpinger.py:188 | inserting into a list sorted by start date keeps it sorted |
| EventPinger.InsertStable | penguin-overlord/cogs/eventpinger.py:188 | inserting places the new entry after those with the same start date |
| EventPinger.SortByStartSorted | penguin-overlord/cogs/eventpinger.py:188 | `list.sort(key=start_date)`: sorted, a permutation, and stable (the entries of each start date keep their order) |
| EventPinger.SortByStartMembers | penguin-overlord/cogs/eventpinger.py:188 | sorting keeps exactly the same entries |
| EventPinger.Window | penguin-overlord/cogs/eventpinger.py:178-185 | exactly the events 0 to `days_ahead` days away, each annotated with its day count |
| EventPinger.UpcomingExactly | penguin-overlord/cogs/eventpinger.py:173-189 | the upcoming list is sorted by start date and holds exactly the events 0 to `days_ahead` days away with their day counts |
| EventPinger.StartingTodayNotUpcoming | penguin-overlord/cogs/eventpinger.py:179-182 | past midnight, an event starting today is never upcoming |
| EventPinger.Bucket | penguin-overlord/cogs/eventpinger.py:196-207 | the events of week w are exactly those a non-negative number of days away whose floor-division by 7 is w |
| EventPinger.WeekOfDays | penguin-overlord/cogs/eventpinger.py:202 | week w holds days 7w to 7w + 6 |
| EventPinger.BucketsAreWeeks | penguin-overlord/cogs/eventpinger.py:191-208 | a week has an entry iff it is below the limit and has events, and its entry is that week's events |
| EventPinger.FilterOf | penguin-overlord/cogs/eventpinger.py:225-237 | no filter without a type; ham radio iff the type mentions 'ham' or 'radio'; otherwise cybersecurity iff it mentions 'cyber' or 'security'; otherwise the lower-cased type as a substring |
| EventPinger.FilterByType | penguin-overlord/cogs/eventpinger.py:225-237 | keeps exactly the entries whose type the filter accepts, in order, so a sorted list stays sorted |
| EventPinger.FilterLabel | penguin-overlord/cogs/eventpinger.py:229-240 | the lower-cased label of the no-events message: "all", "ham radio", "cybersecurity", or the custom type |
| EventPinger.Hits | penguin-overlord/cogs/eventpinger.py:541-553 | exactly the events whose name, city or state contains the lower-cased query, past ones included, with their day counts |
| EventPinger.SearchExactly | penguin-overlord/cogs/eventpinger.py:538-560 | the search results are sorted by start date and are exactly the matching events |
| EventPinger.AtThreshold | penguin-overlord/cogs/eventpinger.py:638 | exactly the entries the threshold's number of days away |
| EventPinger.OnlyDayBeforeReminds | penguin-overlord/cogs/eventpinger.py:636-638 | as written, the seven-day and three-day reminders are always empty, because the pass only looks one day ahead |
| EventPinger.WeekAwayMissed | penguin-overlord/cogs/eventpinger.py:636-638 | an event a week away gets no seven-day reminder as written, but does as intended |
| EventPinger.IntendedRemindersExactly | penguin-overlord/cogs/eventpinger.py:626-646 | as intended, each threshold reminds of exactly the events that many days away |
| EventPinger.NextEvent | penguin-overlord/cogs/eventpinger.py:442-447 | none iff nothing happens in the coming year |
| EventPinger.NextEventIsEarliest | penguin-overlord/cogs/eventpinger.py:442-447 | the next event is upcoming and starts no later than any event of the coming year |
| EventPinger.NextEventColor | penguin-overlord/cogs/eventpinger.py:451-463 | red iff today, orange iff tomorrow, amber iff within the week (or negative), green iff further |
| EventPinger.EventPingerCog.constructor | penguin-overlord/cogs/eventpinger.py:88-95 | the cog starts with the events its files load |
| EventPinger.EventPingerCog.LoadEvents | penguin-overlord/cogs/eventpinger.py:102-171 | the event list is reset and then holds exactly the loaded events of all files in order |
| EventPinger.EventPingerCog.LoadRows | penguin-overlord/cogs/eventpinger.py:130-161 | one file appends exactly the events of its rows, in order |
| EventPinger.EventPingerCog.GetUpcomingEvents | penguin-overlord/cogs/eventpinger.py:173-189 | the upcoming list of the cog's events, sorted by start date |
| EventPinger.EventPingerCog.GetEventsByTimeframe | penguin-overlord/cogs/eventpinger.py:191-208 | the cog's events bucketed by week from now |
| EventPinger.EventPingerCog.EventsList | penguin-overlord/cogs/eventpinger.py:210-309 | the no-events message with the filter's label iff nothing passes the filter; otherwise the first ten shown and all of them counted |
| EventPinger.EventPingerCog.AllEvents | penguin-overlord/cogs/eventpinger.py:312-431 | the no-events message (with the filter's label) iff nothing passes the filter; otherwise exactly the pages of five of the filtered events, with the paginator iff there are more than five |
| EventPinger.EventPingerCog.SearchEvent | penguin-overlord/cogs/eventpinger.py:538-560 | the matching events, annotated and sorted by start date |
| EventPinger.Paginate | penguin-overlord/cogs/eventpinger.py:357-363 | `ceil(n / 5)` pages of one to five entries, page p holding entries 5p to 5p + 4, at least one page when there is an event (the ceiling arithmetic is the helper lemma PageCount) |
| EventPinger.EventPaginatorView.constructor | penguin-overlord/cogs/eventpinger.py:23-30 | on the first page with the buttons set for it |
| EventPinger.EventPaginatorView.UpdateButtons | penguin-overlord/cogs/eventpinger.py:32-37 | first and previous are disabled iff on the first page, next and last iff on or past the last |
| EventPinger.EventPaginatorView.FirstPage | penguin-overlord/cogs/eventpinger.py:39-44 | goes to the first page and keeps the buttons in step |
| EventPinger.EventPaginatorView.PrevPage | penguin-overlord/cogs/eventpinger.py:46-51 | steps back, never below the first page |
| EventPinger.EventPaginatorView.NextPage | penguin-overlord/cogs/eventpinger.py:53-58 | steps on, never past the last page |
| EventPinger.EventPaginatorView.LastPage | penguin-overlord/cogs/eventpinger.py:60-65 | goes to the last page and keeps the buttons in step |
| TechQuote.AuthorText | penguin-overlord/cogs/techquote.py:4368-4371 | a dash and the author, then the bio in italics on its own line iff the entry has a non-empty bio |
| TechQuote.QuoteEmbed | penguin-overlord/cogs/techquote.py:4361-4392 | the quote in double quotes, the entry's colour or blurple, the author field first, and a second "Learn More" field iff the entry has a non-empty wiki link |
| TechQuote.SampleEmbeds | penguin-overlord/cogs/techquote.py:4361-4392 | an entry with a wiki link gets two fields; one without gets one |
| TechQuote.ByAuthor | penguin-overlord/cogs/techquote.py:4419 | exactly the author's entries, as many as the author has |
| TechQuote.AuthorQuote | penguin-overlord/cogs/techquote.py:4410-4492 | the "No quotes from … found!" text iff the author has no entry; otherwise the embed of one of the author's entries |
| TechQuote.CountAbsent | penguin-overlord/cogs/techquote.py:4505-4512 | an author with no entry counts 0 |
| TechQuote.AuthorsOf | penguin-overlord/cogs/techquote.py:4504-4512 | the authors in first-appearance order: exactly those with an entry, each once, none iff there are no entries |
| TechQuote.FirstBioSnoc | penguin-overlord/cogs/techquote.py:4507-4511 | an author's bio is taken from their first entry and a later entry never changes it |
| TechQuote.SumCountsBump | penguin-overlord/cogs/techquote.py:4512 | bumping one author's count raises the total by one |
| TechQuote.TalliedSeen | penguin-overlord/cogs/techquote.py:4505-4512 | an entry by a known author bumps only that author's count |
| TechQuote.Record | penguin-overlord/cogs/techquote.py:4506-4512 | one turn of the dictionary loop keeps the dictionary equal to the tally of the entries seen so far, each author mapped to their own entry, and adds one to the total count |
| TechQuote.TalliedFresh | penguin-overlord/cogs/techquote.py:4505-4512 | an entry by a new author appends that author with the entry's bio ('Tech legend' when it has none) and a count of 1 |
| TechQuote.Tally | penguin-overlord/cogs/techquote.py:4503-4512 | the dictionary loop yields, in insertion order, each author once with the first entry's bio and their number of entries; the counts add up to the number of entries |
| TechQuote.InsertByCountPerm | penguin-overlord/cogs/techquote.py:4515 | inserting keeps every entry and adds the new one |
| TechQuote.InsertByCountSorted | penguin-overlord/cogs/techquote.py:4515 | inserting into a list ordered by descending count keeps it ordered |
| TechQuote.FewerCounts | penguin-overlord/cogs/techquote.py:4515 | a list ordered by descending count has no entry above its first |
| TechQuote.InsertByCountStable | penguin-overlord/cogs/techquote.py:4515 | inserting places the new entry after the entries with the same count |
| TechQuote.SortByCountSorted | penguin-overlord/cogs/techquote.py:4515 | `sorted(…, key=count, reverse=True)`: descending by count, a permutation, and stable (authors with equal counts keep their order) |
| TechQuote.AuthorLine | penguin-overlord/cogs/techquote.py:4518-4520 | the bold author, the bio and the count; the plural "quotes" iff the count is above 1 |
| TechQuote.AuthorLines | penguin-overlord/cogs/techquote.py:4517-4520 | one line per author, in order |
| TechQuote.CloseStep | penguin-overlord/cogs/techquote.py:4531-4534 | a line that would take a non-empty open page past 900 characters closes that page and starts the next with the line, keeping every page rule |
| TechQuote.ExtendStep | penguin-overlord/cogs/techquote.py:4535-4536 | any other line joins the open page, whose counted size grows by the line and its newline, keeping every page rule |
| TechQuote.PageLines | penguin-overlord/cogs/techquote.py:4522-4540 | the pages hold exactly the lines in order; no page is empty; a page stays within 900 characters unless it is a single line; each page but the last was closed because the next line would have overflowed it; no pages iff no lines |
| TechQuote.QuoteList | penguin-overlord/cogs/techquote.py:4495-4559 | the authors tallied and sorted by count; no page iff the table is empty; otherwise the pages hold exactly the author lines in order, each within 900 characters unless it is a single line and each closed only when the next line would overflow it, with the paginator iff there is more than one page |
| TechQuote.PaginatorView.constructor | penguin-overlord/cogs/techquote.py:4297-4302 | on the first page with the buttons set for it |
| TechQuote.PaginatorView.UpdateButtons | penguin-overlord/cogs/techquote.py:4304-4309 | first and previous are disabled iff on the first page, next and last iff on the last |
| TechQuote.PaginatorView.FirstPage | penguin-overlord/cogs/techquote.py:4311-4316 | goes to the first page, buttons in step |
| TechQuote.PaginatorView.PrevPage | penguin-overlord/cogs/techquote.py:4318-4323 | one page back without clamping; from a page whose previous button is enabled it stays on a page |
| TechQuote.PaginatorView.NextPage | penguin-overlord/cogs/techquote.py:4325-4330 | one page on without clamping; from a page whose next button is enabled it stays on a page |
| TechQuote.PrevFromFirstLeavesPages | penguin-overlord/cogs/techquote.py:4318-4323 | the previous step does not clamp: pressed on the first of three pages it moves the index to -1, outside 0..2, and `self.pages[-1]` then shows the last page, since Python counts a negative index from the end |
| TechQuote.ShownPage | penguin-overlord/cogs/techquote.py:4323 | `pages[i]` for an index from -n to n - 1 is a page below n: the index itself when it is not negative, n + i when it is |
| TechQuote.PaginatorView.LastPage | penguin-overlord/cogs/techquote.py:4332-4337 | goes to the last page, buttons in step |

## Left out

- Network, Discord and Matrix I/O, the clock, `random.choice`, file reads and writes, and the secret back-ends (Doppler, AWS Secrets Manager, Vault) are parameters. Their failures are modelled as answers, not as exceptions raised at a particular point.
- Regular expressions over feed text, ElementTree and the HTML parser, `html.unescape`, tag stripping, JSON decoding and `strptime` are inputs. A feed item arrives as the captures or element texts the cog reads, and a date as a day number.
- Python's `str.isdigit`, `lower`, `upper` and `strip` are modelled on ASCII only. Unicode digits, case mappings and whitespace are not modelled.
- Concurrency is modelled as sequential: `fetch_multiple_feeds`' concurrent fetches under its semaphore run in enabled order, and the `tasks.loop` schedules and `asyncio.sleep` pauses are not modelled.
- Logging, the embed footers and titles of cogs other than the ones whose embeds the table lists, and the status and list embeds of the configuration commands are not modelled.
- NewsFetcher.EntryTitle: `html.unescape` is an input, so titles and descriptions arrive already unescaped; the order in which the fetcher unescapes and strips (and the same in `MakeEntry`) is not visible in the model.
- The image of an embed (`set_image`, a Discord embed's `image`) is modelled only for the webhook embeds; the XKCD and comic embeds' images are not part of the common embed.
- EuLegislation.EuLegislationCog.AutoPost: a `channel.send` that raises ends the pass in the source; the model takes every send to succeed.
- Cve.Cap: `list(posted)[-1000:]` slices a Python set, whose iteration order is not specified. The model keeps the last 1000 of the posted IDs in insertion order and proves only the bound and the membership.
- Floating-point readings, namely the NOAA A index and the flux in the radio report's API, are carried as strings or integers. Only the integer thresholds the rules use are modelled.
- The static text tables are not reproduced: the radio cog's `HAM_TRIVIA` and `FREQUENCY_TRIVIA`, the tech-quote entries beyond three samples, and the texts of `LINUX_COMMANDS` and `PATCH_GREMLINS`. The last two are kept as their sequences of levels, which is all the colour rules read.
- `urlparse` is modelled only as far as the host: the network location after the scheme's "//", after the last '@' and before the first ':'. Bracketed IPv6 hosts are not modelled.
- Common.Strip: its own contract states only the trimmed ends and the length bound; the slice of the input it keeps is stated by the lemma `StripIsTrimmed`, so that callers' proofs do not carry slice equalities.
- FeedItems.BlockDescription and FeedItems.XmlDescription: the regex and XML cogs strip the captured text before removing tags and unescaping; the model receives the text already cleaned and strips it after, so whitespace that only tag removal or unescaping brings to either end is kept by the cogs but not by the model.
- FeedItems.BlockTitle: the regex cogs strip the captured title and then unescape it; the model receives the title already unescaped and strips it, so whitespace that only unescaping brings to either end is kept by the cogs but not by the model.
- FeedItems.XmlTitle: the same unescape-then-strip order as BlockTitle, for the XML cogs' title element.
- ComicsRunner.OncePerDay: the runner and the comics cog both default to `data/comic_state.json` under the working directory. The cog writes `enabled: true` and an ISO date-time as `last_posted`, and the runner compares `last_posted` with a bare date. A runner reading the cog's file is therefore enabled, and its once-a-day guard never matches a post made by the cog. The model gives the two their own states, so this interplay is not captured.
- Common.ParseInt: Python's `int()` also accepts surrounding whitespace and `_` between digits ("1_000"); the model reads those spellings as not parsing.
- Matrix.Styled: the contract states the Twitch heading and the unstyled case. The YouTube and Kick headings are in the body only.
- Matrix.HtmlBody: `re.sub` reads its replacement as a template, so a first URL holding a backslash (which `[^\s]+` lets through) would be escape-processed or raise `re.error`; the model inserts the URL as it is.
- Discord.Announcement: stream data are either given or not; an empty dictionary, which `if first_url and stream_data` treats as absent, is not distinguished from given data, so the model attaches an embed where the source sends none.
- TechQuote.AuthorQuote: does not state which of the author's entries the random index selects, only that it is one of them.
- Discord's `last_update` timestamps of tracked messages are not modelled (nothing reads them). Message and event ids are opaque strings.
- The event pinger's embed rendering (date strings, emoji per type) and the `delete` and `on_timeout` buttons of both paginator views are not modelled.
- `search_event` reads the clock once per matching event. The model uses one `now` for the whole search.
- A CSV file that fails partway contributes the rows read before the failure. The model takes each file as the rows it yields.
- `quote_list` on an empty quote table would index an empty embed list and raise. It is modelled as the reply `NoPage`.
- The daily reminder pass is never started and only logs, because its channel is still a TODO. The model states which events each threshold selects.

## Findings

| source | as written | input that shows it | evidently intended | confidence | as-written member | corrected member |
|---|---|---|---|---|---|---|
| penguin-overlord/cogs/eu_legislation.py:273 | the slash command offers the choices 'eurlex', 'europarl_news' and 'council_press', none of which is a key of the source table, so the fetch returns None and the reply's table lookup raises KeyError | `/eulegislation source:eurlex` | the choices are the table's keys | high, not executed | EuLegislation.ChoicesMissTable | EuLegislation.IntendedChoicesInTable |
| penguin-overlord/cogs/general_news.py:328 | `sources_config[key].get('enabled', True)` is called on the boolean the news manager stores, so any source with an entry raises AttributeError and ends the pass | toggle any general-news source once, then run the auto-poster | skip a source whose stored switch is false, as `is_source_enabled` does | high, not executed | GeneralNews.ToggledSourceRaises | GeneralNews.SourceEnabledMatchesManager |
| penguin-overlord/social/discord.py:414 | `end_stream` looks up the role by the whole lower-cased platform name, while `post` used the base name before the first '-' | platform "twitch-live" with a role for "twitch" and a default role: the announcement pings the twitch role, the ended message shows the default one | keep the role the announcement used | medium, not executed | Discord.EndRoleDiffersFromPost | Discord.EndRoleIntendedMatchesPost |
| penguin-overlord/social/matrix.py:178 | every URL of the message is replaced by a link to, and showing, the message's first URL | "https://a https://b" becomes two links to https://a | each URL becomes a link to itself | medium, not executed | Matrix.SecondUrlLost | Matrix.EachUrlLinksToItself |
| penguin-overlord/cogs/eventpinger.py:637 | each reminder threshold queries only the events of the next day, so the 7-day and 3-day reminders can never fire | an event starting 7 days from now | each threshold looks as far ahead as itself | high, not executed | EventPinger.OnlyDayBeforeReminds | EventPinger.IntendedRemindersExactly |
