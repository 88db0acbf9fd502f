/** The CVE cog: shaping of the NVD and Ubuntu feeds into items, the
    severity emoji, the `cve` command's source choice, and the auto-poster
    pass that sends each CVE ID once and persists at most 1000 posted IDs.

    JSON decoding and the regular expressions over the Ubuntu RSS text are
    inputs: an NVD vulnerability arrives as the fields the cog reads, an
    Ubuntu `<item>` as its already-cleaned title, link and description
    captures and the first `CVE-YYYY-N` found in the title. */
module Cve {
  import opened Common
  import NewsManager

  const MaxItems: nat := 5
  const DescriptionLimit: nat := 300
  const PostedCap: nat := 1000
  const NvdDetailUrl := "https://nvd.nist.gov/vuln/detail/"
  const NoDescription := "No description"

  /** An item as the fetchers build it. */
  datatype CveItem = CveItem(cveId: string, title: string, description: string, severity: string,
                             dateAdded: string, source: string, link: string)

  // ---------------------------------------------------------------------
  // NVD

  /** One `vulnerabilities[*].cve` object: `id`, the first English
      description, the `baseSeverity` of each `cvssMetricV31` entry (None
      where an entry lacks it) and `published`. */
  datatype NvdVuln = NvdVuln(id: Option<string>, englishDescription: Option<string>,
                             cvssV31: seq<Option<string>>, published: Option<string>)

  /** The NVD answer: status 200 with its vulnerabilities, or anything else
      (another status, a network error, bad JSON). */
  datatype NvdResponse = NvdOk(vulns: seq<NvdVuln>) | NvdFailed

  function NvdSeverity(cvss: seq<Option<string>>): (s: string)
    ensures cvss == [] ==> s == "UNKNOWN"
    ensures cvss != [] && cvss[0].Some? ==> s == cvss[0].value
    ensures cvss != [] && cvss[0].None? ==> s == "UNKNOWN"
  {
    if cvss == [] then "UNKNOWN" else cvss[0].GetOr("UNKNOWN")
  }

  /** The item for one vulnerability. */
  function NvdItem(v: NvdVuln): (item: CveItem)
    ensures item.cveId == v.id.GetOr("Unknown")
    ensures item.link == NvdDetailUrl + item.cveId
    ensures item.title == "CVE " + item.cveId
    ensures item.source == "nvd"
    ensures v.englishDescription.Some? ==> item.description == Truncate(v.englishDescription.value, DescriptionLimit)
    ensures v.englishDescription.None? ==> item.description == NoDescription
    ensures item.severity == NvdSeverity(v.cvssV31)
    ensures item.dateAdded == v.published.GetOr("")
  {
    var id := v.id.GetOr("Unknown");
    CveItem(id, "CVE " + id, Truncate(v.englishDescription.GetOr(NoDescription), DescriptionLimit),
            NvdSeverity(v.cvssV31), v.published.GetOr(""), "nvd", NvdDetailUrl + id)
  }

  /** The items of the given vulnerabilities, in order. */
  function NvdItems(vulns: seq<NvdVuln>): (items: seq<CveItem>)
    ensures |items| == |vulns|
    ensures forall i :: 0 <= i < |items| ==> items[i] == NvdItem(vulns[i])
  {
    if vulns == [] then [] else NvdItems(vulns[..|vulns| - 1]) + [NvdItem(vulns[|vulns| - 1])]
  }

  /** What the NVD fetch yields for an answer: the items of the first five
      vulnerabilities, none on failure. */
  function NvdAnswer(resp: NvdResponse): seq<CveItem> {
    if resp.NvdFailed? then []
    else NvdItems(if |resp.vulns| < MaxItems then resp.vulns else resp.vulns[..MaxItems])
  }

  /** `_fetch_nvd_cves`: one item per vulnerability among the first five;
      none when the request fails. */
  method FetchNvd(resp: NvdResponse) returns (items: seq<CveItem>)
    ensures resp.NvdFailed? ==> items == []
    ensures resp.NvdOk? ==> |items| == if |resp.vulns| < MaxItems then |resp.vulns| else MaxItems
    ensures resp.NvdOk? ==> forall i :: 0 <= i < |items| ==> items[i] == NvdItem(resp.vulns[i])
    ensures items == NvdAnswer(resp)
  {
    items := [];
    if resp.NvdFailed? {
      return;
    }
    var vulns := resp.vulns;
    if |vulns| > MaxItems {
      vulns := vulns[..MaxItems];
    }
    var i := 0;
    while i < |vulns|
      invariant 0 <= i <= |vulns|
      invariant |items| == i
      invariant forall j :: 0 <= j < i ==> items[j] == NvdItem(vulns[j])
    {
      items := items + [NvdItem(vulns[i])];
      i := i + 1;
    }
    assert items == NvdItems(vulns);
  }

  // ---------------------------------------------------------------------
  // Ubuntu

  /** One `<item>` block: the title capture after tag removal and
      unescaping, the raw link capture, the cleaned description capture,
      and the first `CVE-YYYY-N` in the title. */
  datatype UbuntuBlock = UbuntuBlock(title: Option<string>, link: Option<string>,
                                     description: Option<string>, cveInTitle: Option<string>)

  datatype UbuntuResponse = UbuntuOk(blocks: seq<UbuntuBlock>) | UbuntuFailed

  /** `title.split(':')[0]`: the text before the first colon. */
  function BeforeColon(s: string): (r: string)
    ensures StartsWith(s, r)
    ensures ':' !in r
    ensures |r| < |s| ==> s[|r|] == ':'
  {
    if s == [] || s[0] == ':' then [] else [s[0]] + BeforeColon(s[1..])
  }

  /** The CVE ID of a notice: the first CVE ID in its title, else the title
      up to its first colon. */
  function UbuntuCveId(title: string, cveInTitle: Option<string>): string {
    if cveInTitle.Some? then cveInTitle.value else BeforeColon(title)
  }

  predicate Usable(b: UbuntuBlock) {
    b.title.Some? && b.link.Some?
  }

  function UbuntuItem(b: UbuntuBlock): (item: CveItem)
    requires Usable(b)
    ensures item.severity == "MEDIUM" && item.source == "ubuntu" && item.dateAdded == ""
    ensures item.title == b.title.value && item.link == Strip(b.link.value)
    ensures item.cveId == UbuntuCveId(b.title.value, b.cveInTitle)
    ensures b.description.Some? && b.description.value != "" ==>
              item.description == Truncate(b.description.value, DescriptionLimit)
    ensures b.description.None? || b.description.value == "" ==> item.description == NoDescription
  {
    var desc := Truncate(b.description.GetOr(""), DescriptionLimit);
    CveItem(UbuntuCveId(b.title.value, b.cveInTitle), b.title.value,
            if desc == "" then NoDescription else desc, "MEDIUM", "", "ubuntu", Strip(b.link.value))
  }

  /** The items of the given blocks, in order, skipping unusable ones. */
  function UbuntuItems(blocks: seq<UbuntuBlock>): (items: seq<CveItem>)
    ensures |items| <= |blocks|
  {
    if blocks == [] then []
    else
      var last := blocks[|blocks| - 1];
      UbuntuItems(blocks[..|blocks| - 1]) + (if Usable(last) then [UbuntuItem(last)] else [])
  }

  /** One more block adds its item when it is usable. */
  lemma UbuntuItemsStep(blocks: seq<UbuntuBlock>, i: nat)
    requires i < |blocks|
    ensures UbuntuItems(blocks[..i + 1])
            == UbuntuItems(blocks[..i]) + (if Usable(blocks[i]) then [UbuntuItem(blocks[i])] else [])
  {
    assert blocks[..i + 1][..i] == blocks[..i];
  }

  /** Every Ubuntu item comes from a usable block and has severity MEDIUM. */
  lemma {:induction false} UbuntuItemsFromUsable(blocks: seq<UbuntuBlock>, item: CveItem)
    requires item in UbuntuItems(blocks)
    ensures exists i :: 0 <= i < |blocks| && Usable(blocks[i]) && item == UbuntuItem(blocks[i])
    ensures item.severity == "MEDIUM"
  {
    var init := blocks[..|blocks| - 1];
    var last := blocks[|blocks| - 1];
    if item in UbuntuItems(init) {
      UbuntuItemsFromUsable(init, item);
      var i :| 0 <= i < |init| && Usable(init[i]) && item == UbuntuItem(init[i]);
      assert blocks[i] == init[i];
    } else {
      assert Usable(last) && item == UbuntuItem(last);
    }
  }

  /** What the Ubuntu fetch yields for an answer: the items of the usable
      blocks among the first five, none on failure. */
  function UbuntuAnswer(resp: UbuntuResponse): seq<CveItem> {
    if resp.UbuntuFailed? then []
    else UbuntuItems(if |resp.blocks| < MaxItems then resp.blocks else resp.blocks[..MaxItems])
  }

  /** `_fetch_ubuntu_cves`: the usable blocks among the first five. */
  method FetchUbuntu(resp: UbuntuResponse) returns (items: seq<CveItem>)
    ensures resp.UbuntuFailed? ==> items == []
    ensures resp.UbuntuOk? ==>
              items == UbuntuItems(if |resp.blocks| < MaxItems then resp.blocks else resp.blocks[..MaxItems])
    ensures items == UbuntuAnswer(resp)
    ensures |items| <= MaxItems
  {
    items := [];
    if resp.UbuntuFailed? {
      return;
    }
    var blocks := resp.blocks;
    if |blocks| > MaxItems {
      blocks := blocks[..MaxItems];
    }
    var i := 0;
    while i < |blocks|
      invariant 0 <= i <= |blocks|
      invariant items == UbuntuItems(blocks[..i])
    {
      UbuntuItemsStep(blocks, i);
      if Usable(blocks[i]) {
        items := items + [UbuntuItem(blocks[i])];
      }
      i := i + 1;
    }
    assert blocks[..i] == blocks;
  }

  /** `_fetch_cves`: the NVD items for "nvd", the Ubuntu items for
      "ubuntu", and none for any other key. */
  method FetchCves(key: string, nvd: NvdResponse, ubuntu: UbuntuResponse) returns (items: seq<CveItem>)
    ensures key == "nvd" ==> items == NvdAnswer(nvd)
    ensures key == "ubuntu" ==> items == UbuntuAnswer(ubuntu)
    ensures key != "nvd" && key != "ubuntu" ==> items == []
    ensures |items| <= MaxItems
    ensures forall it :: it in items ==> it.source == key
  {
    if key == "nvd" {
      items := FetchNvd(nvd);
    } else if key == "ubuntu" {
      items := FetchUbuntu(ubuntu);
      forall it | it in items
        ensures it.source == key
      {
        UbuntuItemsFromUsable(if |ubuntu.blocks| < MaxItems then ubuntu.blocks else ubuntu.blocks[..MaxItems], it);
      }
    } else {
      items := [];
    }
  }

  // ---------------------------------------------------------------------
  // Severity

  /** `_get_severity_emoji`: four distinct emoji for the four named levels,
      compared after upper-casing; a white circle otherwise. */
  function SeverityEmoji(severity: string): (e: string)
    ensures e == "🔴" <==> Upper(severity) == "CRITICAL"
    ensures e == "🟠" <==> Upper(severity) == "HIGH"
    ensures e == "🟡" <==> Upper(severity) == "MEDIUM"
    ensures e == "🟢" <==> Upper(severity) == "LOW"
    ensures e == "⚪" <==> Upper(severity) !in {"CRITICAL", "HIGH", "MEDIUM", "LOW"}
  {
    var s := Upper(severity);
    if s == "CRITICAL" then "🔴"
    else if s == "HIGH" then "🟠"
    else if s == "MEDIUM" then "🟡"
    else if s == "LOW" then "🟢"
    else "⚪"
  }

  lemma UpperLowerChar(c: char)
    ensures UpperChar(LowerChar(c)) == UpperChar(c)
  {
  }

  /** The emoji does not depend on the letter case of the severity. */
  lemma SeverityEmojiIgnoresCase(severity: string)
    ensures SeverityEmoji(Lower(severity)) == SeverityEmoji(severity)
  {
    forall i | 0 <= i < |severity|
      ensures Upper(Lower(severity))[i] == Upper(severity)[i]
    {
      UpperLowerChar(severity[i]);
    }
    assert Upper(Lower(severity)) == Upper(severity);
  }

  // ---------------------------------------------------------------------
  // The `cve` command

  datatype CommandReply = UnknownSource(name: string) | NoCves | Show(items: seq<CveItem>)

  /** The items `_fetch_cves` yields for one key. */
  function CvesFor(key: string, nvd: NvdResponse, ubuntu: UbuntuResponse): seq<CveItem> {
    if key == "nvd" then NvdAnswer(nvd) else if key == "ubuntu" then UbuntuAnswer(ubuntu) else []
  }

  /** The items of the keys, fetched one after the other and concatenated. */
  function FetchedAll(keys: seq<string>, nvd: NvdResponse, ubuntu: UbuntuResponse): seq<CveItem> {
    if keys == [] then [] else FetchedAll(keys[..|keys| - 1], nvd, ubuntu) + CvesFor(keys[|keys| - 1], nvd, ubuntu)
  }

  /** Fetching one more key appends that key's items. */
  lemma FetchedAllStep(keys: seq<string>, i: nat, nvd: NvdResponse, ubuntu: UbuntuResponse)
    requires i < |keys|
    ensures FetchedAll(keys[..i + 1], nvd, ubuntu) == FetchedAll(keys[..i], nvd, ubuntu) + CvesFor(keys[i], nvd, ubuntu)
  {
    assert keys[..i + 1][..i] == keys[..i];
  }

  /** The fetch over one key or over both keys in order. */
  lemma FetchedAllOf(keys: seq<string>, nvd: NvdResponse, ubuntu: UbuntuResponse)
    requires |keys| == 1 || keys == ["nvd", "ubuntu"]
    ensures |keys| == 1 ==> FetchedAll(keys, nvd, ubuntu) == CvesFor(keys[0], nvd, ubuntu)
    ensures |keys| == 2 ==> FetchedAll(keys, nvd, ubuntu) == NvdAnswer(nvd) + UbuntuAnswer(ubuntu)
  {
    assert keys[..|keys| - 1][..0] == [];
    if |keys| == 2 {
      assert keys[..1] == ["nvd"];
    }
  }

  /** Every item fetched for a key comes from that key's source. */
  lemma FetchedSources(key: string, nvd: NvdResponse, ubuntu: UbuntuResponse)
    ensures forall it :: it in CvesFor(key, nvd, ubuntu) ==> it.source == key
  {
    if key == "ubuntu" && ubuntu.UbuntuOk? {
      var blocks := if |ubuntu.blocks| < MaxItems then ubuntu.blocks else ubuntu.blocks[..MaxItems];
      forall it | it in CvesFor(key, nvd, ubuntu) ensures it.source == key {
        UbuntuItemsFromUsable(blocks, it);
      }
    }
  }

  /** The reply for the items fetched: the "no CVEs" message when there are
      none, else the first five. */
  function Shown(all: seq<CveItem>): (reply: CommandReply)
    ensures reply == NoCves <==> all == []
    ensures reply.Show? ==> 0 < |reply.items| <= MaxItems && |reply.items| <= |all| && reply.items == all[..|reply.items|]
    ensures reply.Show? && |reply.items| < MaxItems ==> reply.items == all
    ensures reply.Show? ==> forall it :: it in reply.items ==> it in all
  {
    if all == [] then NoCves else Show(if |all| > MaxItems then all[..MaxItems] else all)
  }

  /** The command's loop over the chosen sources, extending the list with
      each one's items. */
  method FetchEach(keys: seq<string>, nvd: NvdResponse, ubuntu: UbuntuResponse) returns (all: seq<CveItem>)
    ensures all == FetchedAll(keys, nvd, ubuntu)
  {
    all := [];
    var i := 0;
    while i < |keys|
      invariant 0 <= i <= |keys|
      invariant all == FetchedAll(keys[..i], nvd, ubuntu)
    {
      var items := FetchCves(keys[i], nvd, ubuntu);
      assert items == CvesFor(keys[i], nvd, ubuntu);
      FetchedAllStep(keys, i, nvd, ubuntu);
      all := all + items;
      i := i + 1;
    }
    assert keys[..i] == keys;
  }

  /** The `cve` command: a given (non-empty) source is lower-cased and must
      be `nvd` or `ubuntu`; without one both are fetched, NVD first. At most
      five items are shown. */
  method CveCommand(source: Option<string>, nvd: NvdResponse, ubuntu: UbuntuResponse) returns (reply: CommandReply)
    ensures Truthy(source) && Lower(source.value) !in {"nvd", "ubuntu"} ==> reply == UnknownSource(Lower(source.value))
    ensures reply.Show? ==> 0 < |reply.items| <= MaxItems
    ensures reply.Show? && Truthy(source) ==> forall it :: it in reply.items ==> it.source == Lower(source.value)
    ensures Truthy(source) && Lower(source.value) == "nvd" ==> reply == Shown(NvdAnswer(nvd))
    ensures Truthy(source) && Lower(source.value) == "ubuntu" ==> reply == Shown(UbuntuAnswer(ubuntu))
    ensures !Truthy(source) ==> reply == Shown(NvdAnswer(nvd) + UbuntuAnswer(ubuntu))
  {
    var keys: seq<string>;
    if Truthy(source) {
      var name := Lower(source.value);
      if name != "nvd" && name != "ubuntu" {
        return UnknownSource(name);
      }
      keys := [name];
    } else {
      keys := ["nvd", "ubuntu"];
    }
    var all := FetchEach(keys, nvd, ubuntu);
    FetchedAllOf(keys, nvd, ubuntu);
    reply := Shown(all);
    if reply.Show? && Truthy(source) {
      FetchedSources(keys[0], nvd, ubuntu);
    }
  }

  // ---------------------------------------------------------------------
  // Auto-poster dedup

  function Ids(items: seq<CveItem>): (ids: seq<string>)
    ensures |ids| == |items|
    ensures forall i :: 0 <= i < |items| ==> ids[i] == items[i].cveId
  {
    if items == [] then [] else Ids(items[..|items| - 1]) + [items[|items| - 1].cveId]
  }

  predicate Distinct(s: seq<string>) {
    forall i, j :: 0 <= i < j < |s| ==> s[i] != s[j]
  }

  /** The IDs of `s` without repeats, first occurrences kept: `set(list)`
      with its iteration order taken to be first-insertion order. */
  function Extend(known: seq<string>, ids: seq<string>): (r: seq<string>)
    ensures Distinct(known) ==> Distinct(r)
    ensures forall x :: x in r <==> x in known || x in ids
    ensures |known| <= |r| && r[..|known|] == known
  {
    if ids == [] then known
    else
      var k := Extend(known, ids[..|ids| - 1]);
      assert forall x :: x in ids <==> x in ids[..|ids| - 1] || x == ids[|ids| - 1] by {
        assert ids == ids[..|ids| - 1] + [ids[|ids| - 1]];
      }
      if ids[|ids| - 1] in k then k else k + [ids[|ids| - 1]]
  }

  /** The outcome of one auto-post pass over a list of candidate items:
      what was sent, the posted IDs after it, and whether a send raised
      (which ends the pass before anything is saved). */
  lemma IdsSnoc(items: seq<CveItem>, it: CveItem)
    ensures Ids(items + [it]) == Ids(items) + [it.cveId]
  {
    assert (items + [it])[..|items|] == items;
  }

  datatype Run = Run(sent: seq<CveItem>, known: seq<string>, aborted: bool)

  /** The pass over `items` starting from the posted IDs `known`; a send of
      an ID in `failing` raises. */
  function Pass(known: seq<string>, items: seq<CveItem>, failing: set<string>): (r: Run)
    ensures |r.sent| <= |items|
  {
    if items == [] then Run([], known, false)
    else Step(Pass(known, items[..|items| - 1], failing), items[|items| - 1], failing)
  }

  /** One candidate of the pass: skipped after a raise or when its ID is
      known, a raise when its send fails, and otherwise sent and known. */
  function Step(r: Run, it: CveItem, failing: set<string>): (next: Run)
    ensures |next.sent| <= |r.sent| + 1
  {
    if r.aborted || it.cveId in r.known then r
    else if it.cveId in failing then r.(aborted := true)
    else Run(r.sent + [it], r.known + [it.cveId], false)
  }

  /** The pass over one more candidate is one more step. */
  lemma PassPrefixStep(known: seq<string>, items: seq<CveItem>, failing: set<string>, i: nat)
    requires i < |items|
    ensures Pass(known, items[..i + 1], failing) == Step(Pass(known, items[..i], failing), items[i], failing)
  {
    assert items[..i + 1][..i] == items[..i];
  }

  /** A pass only ever adds the IDs it sent, after the ones it started from. */
  lemma {:induction false} PassKnown(known: seq<string>, items: seq<CveItem>, failing: set<string>)
    ensures Pass(known, items, failing).known == known + Ids(Pass(known, items, failing).sent)
  {
    if items != [] {
      var init := items[..|items| - 1];
      PassKnown(known, init, failing);
      var r := Pass(known, init, failing);
      var it := items[|items| - 1];
      assert Pass(known, items, failing) == Step(r, it, failing);
      if !(r.aborted || it.cveId in r.known) && it.cveId !in failing {
        IdsSnoc(r.sent, it);
        assert known + Ids(r.sent + [it]) == (known + Ids(r.sent)) + [it.cveId];
      }
    }
  }

  /** Never re-send: a sent ID was not posted before, and no ID is sent
      twice in one pass. */
  lemma PassSendsFresh(known: seq<string>, items: seq<CveItem>, failing: set<string>)
    requires Distinct(known)
    ensures var r := Pass(known, items, failing);
            Distinct(r.known) && Distinct(Ids(r.sent))
            && forall i :: 0 <= i < |r.sent| ==> r.sent[i].cveId !in known
  {
    var r := Pass(known, items, failing);
    PassKnown(known, items, failing);
    PassKnownDistinct(known, items, failing);
    DistinctParts(known, Ids(r.sent));
  }

  /** The posted IDs stay free of repeats through a pass. */
  lemma {:induction false} PassKnownDistinct(known: seq<string>, items: seq<CveItem>, failing: set<string>)
    requires Distinct(known)
    ensures Distinct(Pass(known, items, failing).known)
  {
    if items != [] {
      var init := items[..|items| - 1];
      PassKnownDistinct(known, init, failing);
      var r := Pass(known, init, failing);
      var it := items[|items| - 1];
      if !(r.aborted || it.cveId in r.known) && it.cveId !in failing {
        DistinctSnoc(r.known, it.cveId);
      }
    }
  }

  /** Appending a new value keeps a sequence free of repeats. */
  lemma DistinctSnoc(s: seq<string>, x: string)
    requires Distinct(s) && x !in s
    ensures Distinct(s + [x])
  {
    var t := s + [x];
    forall i, j | 0 <= i < j < |t|
      ensures t[i] != t[j]
    {
      if j == |s| {
        assert t[i] == s[i] && s[i] in s;
      } else {
        assert t[i] == s[i] && t[j] == s[j];
      }
    }
  }

  /** The parts of a sequence without repeats have none, and share none. */
  lemma DistinctParts(a: seq<string>, b: seq<string>)
    requires Distinct(a + b)
    ensures Distinct(b) && forall i :: 0 <= i < |b| ==> b[i] !in a
  {
    var t := a + b;
    forall i, j | 0 <= i < j < |b|
      ensures b[i] != b[j]
    {
      assert b[i] == t[|a| + i] && b[j] == t[|a| + j];
    }
    forall i, k | 0 <= i < |b| && 0 <= k < |a|
      ensures a[k] != b[i]
    {
      assert a[k] == t[k] && b[i] == t[|a| + i];
    }
  }

  /** Send once: when no send raised, every candidate whose ID was not
      already posted has its ID sent, and only those IDs are sent. */
  lemma {:induction false} PassSendsAllNew(known: seq<string>, items: seq<CveItem>, failing: set<string>, id: string)
    requires !Pass(known, items, failing).aborted
    ensures id in Ids(Pass(known, items, failing).sent) <==> id !in known && id in Ids(items)
  {
    PassKnown(known, items, failing);
    if items != [] {
      var init := items[..|items| - 1];
      var r := Pass(known, init, failing);
      var it := items[|items| - 1];
      assert !r.aborted;
      PassSendsAllNew(known, init, failing, id);
      PassKnown(known, init, failing);
      assert Ids(items) == Ids(init) + [it.cveId];
      if !(it.cveId in r.known) {
        IdsSnoc(r.sent, it);
      }
    }
  }

  /** `list(posted)[-1000:]`. */
  function Cap(known: seq<string>): (r: seq<string>)
    ensures |r| <= PostedCap
    ensures forall x :: x in r ==> x in known
    ensures |known| <= PostedCap ==> r == known
    ensures Distinct(known) ==> Distinct(r)
  {
    if |known| > PostedCap then known[|known| - PostedCap..] else known
  }

  /** The candidates of one pass: the items of each source the news
      configuration enables, NVD first. */
  function Candidates(config: NewsManager.Config, nvd: seq<CveItem>, ubuntu: seq<CveItem>): seq<CveItem> {
    (if NewsManager.IsSourceEnabled(config, "cve", "nvd") then nvd else [])
    + (if NewsManager.IsSourceEnabled(config, "cve", "ubuntu") then ubuntu else [])
  }

  /** The pass runs only when the news configuration's 'cve' entry is
      enabled with a channel and that channel resolves. */
  predicate Gate(config: NewsManager.Config, channelFound: bool) {
    var c := NewsManager.CategoryConfig(config, "cve");
    NewsManager.IsEnabled(c) && NewsManager.HasChannel(c) && channelFound
  }

  /** The item loop of one auto-post pass: each candidate whose ID is not
      yet known is sent and becomes known; a raising send ends the loop. */
  method SendNew(known: seq<string>, items: seq<CveItem>, failing: set<string>)
    returns (sent: seq<CveItem>, aborted: bool)
    ensures Pass(known, items, failing) == Run(sent, known + Ids(sent), aborted)
  {
    sent := [];
    aborted := false;
    var i := 0;
    while i < |items| && !aborted
      invariant 0 <= i <= |items|
      invariant Pass(known, items[..i], failing) == Run(sent, known + Ids(sent), aborted)
      invariant aborted ==> Pass(known, items, failing) == Pass(known, items[..i], failing)
    {
      SendStep(known, items, failing, i, sent);
      var id := items[i].cveId;
      if id !in known + Ids(sent) {
        if id in failing {
          aborted := true;
        } else {
          sent := sent + [items[i]];
        }
      }
      i := i + 1;
    }
    if !aborted {
      assert items[..i] == items;
    }
  }

  /** What the pass does with candidate `i` after sending `sent` without
      a raise: skip a known ID, raise on a failing one (and then stop for
      good), or send it. */
  lemma SendStep(known: seq<string>, items: seq<CveItem>, failing: set<string>, i: nat, sent: seq<CveItem>)
    requires i < |items|
    requires Pass(known, items[..i], failing) == Run(sent, known + Ids(sent), false)
    ensures var id := items[i].cveId;
      && (id in known + Ids(sent) ==> Pass(known, items[..i + 1], failing) == Run(sent, known + Ids(sent), false))
      && (id !in known + Ids(sent) && id in failing ==>
            Pass(known, items[..i + 1], failing) == Run(sent, known + Ids(sent), true)
            && Pass(known, items, failing) == Pass(known, items[..i + 1], failing))
      && (id !in known + Ids(sent) && id !in failing ==>
            Pass(known, items[..i + 1], failing) == Run(sent + [items[i]], known + Ids(sent + [items[i]]), false))
  {
    PassPrefixStep(known, items, failing, i);
    var id := items[i].cveId;
    var before := Run(sent, known + Ids(sent), false);
    if id in known + Ids(sent) {
      assert Step(before, items[i], failing) == before;
    } else if id in failing {
      assert Step(before, items[i], failing) == before.(aborted := true);
      PassAbortStays(known, items, failing, i + 1);
    } else {
      IdsSnoc(sent, items[i]);
      assert known + Ids(sent + [items[i]]) == (known + Ids(sent)) + [id];
      assert Step(before, items[i], failing) == Run(sent + [items[i]], (known + Ids(sent)) + [id], false);
    }
  }

  /** The cog's persisted state. */
  class CveState {
    var postedCves: seq<string>
    var lastCheck: Option<int>
    var channelId: Option<int>
    var enabled: Option<bool>

    /** `_load_state` with no file: nothing posted, no check yet. */
    constructor ()
      ensures postedCves == [] && lastCheck == None && channelId == None && enabled == None
    {
      postedCves := [];
      lastCheck := None;
      channelId := None;
      enabled := None;
    }

    /** `cve_auto_poster`: gated by the news configuration alone (the
        cog's own `enabled` plays no part); sends each candidate whose ID is
        not yet posted, then keeps the last 1000 posted IDs and the check
        time. A raising send ends the pass with nothing saved. */
    method AutoPost(config: NewsManager.Config, channelFound: bool, nvd: seq<CveItem>, ubuntu: seq<CveItem>,
                    failing: set<string>, now: int) returns (sent: seq<CveItem>)
      modifies this
      ensures channelId == old(channelId) && enabled == old(enabled)
      ensures !Gate(config, channelFound) ==> sent == [] && postedCves == old(postedCves) && lastCheck == old(lastCheck)
      ensures Gate(config, channelFound) ==>
                var r := Pass(Extend([], old(postedCves)), Candidates(config, nvd, ubuntu), failing);
                && sent == r.sent
                && (r.aborted ==> postedCves == old(postedCves) && lastCheck == old(lastCheck))
                && (!r.aborted ==> postedCves == Cap(r.known) && lastCheck == Some(now))
    {
      sent := [];
      if !Gate(config, channelFound) {
        return;
      }
      var known := Extend([], postedCves);
      var aborted;
      sent, aborted := SendNew(known, Candidates(config, nvd, ubuntu), failing);
      if !aborted {
        postedCves := Cap(known + Ids(sent));
        lastCheck := Some(now);
      }
    }

    /** `cve_set_channel` (needs Manage Server): the invoking or named channel. */
    method SetChannel(manageGuild: bool, channel: int)
      modifies this
      ensures manageGuild ==> channelId == Some(channel)
      ensures !manageGuild ==> channelId == old(channelId)
      ensures postedCves == old(postedCves) && lastCheck == old(lastCheck) && enabled == old(enabled)
    {
      if manageGuild {
        channelId := Some(channel);
      }
    }

    /** `cve_enable` (bot owner): refused while no channel is set. */
    method Enable(isOwner: bool) returns (ok: bool)
      modifies this
      ensures ok <==> isOwner && channelId.Some? && channelId.value != 0
      ensures ok ==> enabled == Some(true)
      ensures !ok ==> enabled == old(enabled)
      ensures postedCves == old(postedCves) && lastCheck == old(lastCheck) && channelId == old(channelId)
    {
      ok := isOwner && channelId.Some? && channelId.value != 0;
      if ok {
        enabled := Some(true);
      }
    }

    /** `cve_disable` (bot owner). */
    method Disable(isOwner: bool)
      modifies this
      ensures isOwner ==> enabled == Some(false)
      ensures !isOwner ==> enabled == old(enabled)
      ensures postedCves == old(postedCves) && lastCheck == old(lastCheck) && channelId == old(channelId)
    {
      if isOwner {
        enabled := Some(false);
      }
    }
  }

  /** Once a pass aborts, later candidates change nothing. */
  lemma {:induction false} PassAbortStays(known: seq<string>, items: seq<CveItem>, failing: set<string>, n: nat)
    requires n <= |items|
    requires Pass(known, items[..n], failing).aborted
    ensures Pass(known, items, failing) == Pass(known, items[..n], failing)
  {
    if n < |items| {
      var init := items[..|items| - 1];
      assert init[..n] == items[..n];
      PassAbortStays(known, init, failing, n);
    } else {
      assert items[..n] == items;
    }
  }

  /** What a completed pass saves: at most 1000 distinct IDs, each posted
      now or before, and no sent ID was posted before the pass. */
  lemma SavedPosted(old_: seq<string>, items: seq<CveItem>, failing: set<string>)
    ensures var k := Extend([], old_);
            var r := Pass(k, items, failing);
            var saved := Cap(r.known);
            |saved| <= PostedCap && Distinct(saved)
            && (forall x :: x in saved ==> x in old_ || x in Ids(r.sent))
            && (forall i :: 0 <= i < |r.sent| ==> r.sent[i].cveId !in old_)
  {
    var k := Extend([], old_);
    PassSendsFresh(k, items, failing);
    PassKnown(k, items, failing);
  }
}
