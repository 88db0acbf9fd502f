/** The XKCD commands: fetch a comic by number (or the latest), a random
    one, and a keyword search over the latest hundred comics; and the embed
    every XKCD poster builds from the JSON the API returns. HTTP is an
    input: a fetch is the comic it returned, or nothing. */
module Xkcd {
  import opened Common

  const ApiBase: string := "https://xkcd.com"

  /** The fields of the API's JSON the bot reads. `year`, `month` and `day`
      are the strings the API sends (absent when missing). */
  datatype Comic = Comic(num: int, title: string, img: string, alt: Option<string>,
                         year: Option<string>, month: Option<string>, day: Option<string>)

  /** `_fetch_comic`'s URL: a comic's own JSON for a truthy number, the
      latest comic's for none or 0. */
  function ComicUrl(n: Option<int>): (url: string)
    ensures n.None? || n == Some(0) ==> url == ApiBase + "/info.0.json"
    ensures n.Some? && n.value != 0 ==> url == ApiBase + "/" + IntToString(n.value) + "/info.0.json"
  {
    if n.Some? && n.value != 0 then ApiBase + "/" + IntToString(n.value) + "/info.0.json"
    else ApiBase + "/info.0.json"
  }

  /** The numbers `xkcd_random` draws from: `random.randint(1, latest)`. */
  function RandomChoices(latest: int): (s: seq<int>)
    ensures forall n :: n in s <==> 1 <= n <= latest
    ensures |s| == (if latest < 1 then 0 else latest) && forall i :: 0 <= i < |s| ==> s[i] == i + 1
    decreases latest
  {
    if latest < 1 then [] else RandomChoices(latest - 1) + [latest]
  }

  /** `{year}-{month:02d}-{day:02d}`: the year, then month and day as two
      digits each, joined by dashes; every part reads back as its number. */
  function DateText(year: int, month: int, day: int): (t: string)
    ensures 0 <= month < 100 && 0 <= day < 100 ==>
              && |t| == |IntToString(year)| + 6
              && t[..|t| - 6] == IntToString(year) && ParseInt(t[..|t| - 6]) == Some(year)
              && t[|t| - 6] == '-' && t[|t| - 3] == '-'
              && IsDigits(t[|t| - 5..|t| - 3]) && DigitsValue(t[|t| - 5..|t| - 3]) == month
              && IsDigits(t[|t| - 2..]) && DigitsValue(t[|t| - 2..]) == day
  {
    var y, m, d := IntToString(year), Pad2(month), Pad2(day);
    if 0 <= month < 100 && 0 <= day < 100 then
      IntToStringRoundTrip(year);
      DashedParts(y, m, d);
      y + "-" + m + "-" + d
    else y + "-" + m + "-" + d
  }

  /** Where the parts of `a-p-q` sit when `p` and `q` have two characters. */
  lemma DashedParts(a: string, p: string, q: string)
    requires |p| == 2 && |q| == 2
    ensures var t := a + "-" + p + "-" + q;
      && |t| == |a| + 6 && t[..|t| - 6] == a && t[|t| - 6] == '-' && t[|t| - 3] == '-'
      && t[|t| - 5..|t| - 3] == p && t[|t| - 2..] == q
  {
    var t := a + "-" + p + "-" + q;
    assert t == (a + "-") + (p + "-" + q);
    assert t[..|a|] == a;
    assert t[|a| + 1..|a| + 3] == p;
    assert t[|a| + 4..] == q;
  }

  /** The date footer: None when a field does not read as an integer. A
      missing field counts as 0 where the code defaults it (`getDefault`),
      and is an error where it does not. */
  function Footer(c: Comic, getDefault: bool): (f: Option<string>)
    ensures !getDefault && (c.year.None? || c.month.None? || c.day.None?) ==> f.None?
    ensures f.Some? ==> StartsWith(f.value, "Published: ")
    ensures ReadsAsDate(c) ==>
              f == Some("Published: " + DateText(PyInt(c.year.value).value, PyInt(c.month.value).value,
                                                 PyInt(c.day.value).value))
    ensures !getDefault ==> (f.Some? <==> ReadsAsDate(c))
  {
    var y := if c.year.Some? then PyInt(c.year.value) else if getDefault then Some(0) else None;
    var m := if c.month.Some? then PyInt(c.month.value) else if getDefault then Some(0) else None;
    var d := if c.day.Some? then PyInt(c.day.value) else if getDefault then Some(0) else None;
    if y.Some? && m.Some? && d.Some? then
      var f := "Published: " + DateText(y.value, m.value, d.value);
      assert f[..11] == "Published: ";
      Some(f)
    else None
  }

  /** All three date fields are there and read as integers. */
  predicate ReadsAsDate(c: Comic) {
    && c.year.Some? && PyInt(c.year.value).Some?
    && c.month.Some? && PyInt(c.month.value).Some?
    && c.day.Some? && PyInt(c.day.value).Some?
  }

  /** A date field that is there but does not read as an integer. */
  predicate NotInteger(field: Option<string>) {
    field.Some? && PyInt(field.value).None?
  }

  /** The two ends of the footer: with the default, three missing fields
      read as the date 0-00-00; a field that does not read as an integer
      leaves the footer off either way. */
  lemma FooterMissingOrNotInteger(c: Comic, getDefault: bool)
    ensures getDefault && c.year.None? && c.month.None? && c.day.None? ==>
              Footer(c, getDefault) == Some("Published: " + DateText(0, 0, 0))
    ensures NotInteger(c.year) || NotInteger(c.month) || NotInteger(c.day) ==> Footer(c, getDefault).None?
  {
  }

  /** The comic embed: "#num: title", the comic's page, the alt text in
      italics when there is one, and the date footer. */
  function ComicEmbed(c: Comic, footer: Option<string>): (e: Embed)
    ensures e.url == Some(ApiBase + "/" + IntToString(c.num))
    ensures e.title == "#" + IntToString(c.num) + ": " + c.title
    ensures Truthy(c.alt) ==> e.description == "_" + c.alt.value + "_"
    ensures !Truthy(c.alt) ==> e.description == ""
    ensures e.footer == footer
  {
    Embed("#" + IntToString(c.num) + ": " + c.title, if Truthy(c.alt) then "_" + c.alt.value + "_" else "",
          Some(ApiBase + "/" + IntToString(c.num)), Some(BlurpleBlue), [], footer)
  }

  /** `discord.Color.blue()`. */
  const BlurpleBlue: int := 0x3498DB

  /** `_create_comic_embed` of the command cog: a date field that is
      missing or not an integer raises, so no embed. */
  function CommandEmbed(c: Comic): (e: Option<Embed>)
    ensures e.Some? <==> Footer(c, false).Some?
    ensures e.Some? ==> e.value == ComicEmbed(c, Footer(c, false))
  {
    if Footer(c, false).Some? then Some(ComicEmbed(c, Footer(c, false))) else None
  }

  /** What `xkcd`, `xkcd_latest` and `xkcd_random` send. */
  datatype Reply = NotFound(number: int) | LatestFailed | Show(embed: Embed) | Raised

  /** Sending a fetched comic: no comic is a "not found" message naming a
      truthy number and the generic one otherwise; a comic whose date does
      not read is an exception. */
  function ComicReply(number: Option<int>, fetched: Option<Comic>): (r: Reply)
    ensures fetched.None? && number.Some? && number.value != 0 ==> r == NotFound(number.value)
    ensures fetched.None? && (number.None? || number == Some(0)) ==> r == LatestFailed
    ensures fetched.Some? ==> (r.Show? <==> CommandEmbed(fetched.value).Some?)
    ensures r.Show? ==> r.embed.title == "#" + IntToString(fetched.value.num) + ": " + fetched.value.title
    ensures fetched.Some? && r.Show? ==> r.embed == CommandEmbed(fetched.value).value
    ensures fetched.Some? && !r.Show? ==> r == Raised
  {
    if fetched.None? then
      if number.Some? && number.value != 0 then NotFound(number.value) else LatestFailed
    else
      match CommandEmbed(fetched.value)
      case Some(e) => Show(e)
      case None => Raised
  }

  // ---------------------------------------------------------------------
  // Search

  const SearchSpan: int := 100
  const MaxMatches: nat := 5

  /** `max(1, latest - 99)`: the oldest comic searched. */
  function SearchStart(latest: int): (lo: int)
    ensures lo >= 1 && lo >= latest - (SearchSpan - 1)
    ensures latest >= 1 ==> latest - lo < SearchSpan
  {
    if latest - (SearchSpan - 1) > 1 then latest - (SearchSpan - 1) else 1
  }

  /** A fetched comic whose title contains the keyword, ignoring case. */
  predicate Matches(fetched: map<int, Comic>, keyword: string, n: int) {
    n in fetched && Contains(Lower(fetched[n].title), Lower(keyword))
  }

  /** Every matching number from `hi` down to `lo`, newest first. */
  function Hits(fetched: map<int, Comic>, keyword: string, hi: int, lo: int): (r: seq<int>)
    ensures forall i :: 0 <= i < |r| ==> lo <= r[i] <= hi && Matches(fetched, keyword, r[i])
    ensures forall i, j :: 0 <= i < j < |r| ==> r[i] > r[j]
    decreases hi - lo + 1
  {
    if lo > hi then []
    else
      var r := Hits(fetched, keyword, hi, lo + 1);
      if Matches(fetched, keyword, lo) then r + [lo] else r
  }

  /** Scanning further down only appends to the hits found so far. */
  lemma {:induction false} HitsExtend(fetched: map<int, Comic>, keyword: string, hi: int, lo: int, lo2: int)
    requires lo <= lo2
    ensures |Hits(fetched, keyword, hi, lo2)| <= |Hits(fetched, keyword, hi, lo)|
    ensures Hits(fetched, keyword, hi, lo2) == Hits(fetched, keyword, hi, lo)[..|Hits(fetched, keyword, hi, lo2)|]
    decreases lo2 - lo
  {
    if lo < lo2 && lo <= hi {
      HitsExtend(fetched, keyword, hi, lo + 1, lo2);
    }
  }

  /** A matching number in range is among the hits. */
  lemma {:induction false} HitsComplete(fetched: map<int, Comic>, keyword: string, hi: int, lo: int, n: int)
    requires lo <= n <= hi && Matches(fetched, keyword, n)
    ensures n in Hits(fetched, keyword, hi, lo)
    decreases hi - lo + 1
  {
    if lo < n {
      HitsComplete(fetched, keyword, hi, lo + 1, n);
    }
  }

  /** `xkcd_search`'s loop: from the latest comic down to `SearchStart`,
      keep the comics whose title contains the keyword, stopping at five.
      The result is the first five hits of the whole window. */
  method Search(fetched: map<int, Comic>, keyword: string, latest: int) returns (matches: seq<int>)
    ensures var all := Hits(fetched, keyword, latest, SearchStart(latest));
            matches == if |all| <= MaxMatches then all else all[..MaxMatches]
  {
    var start := SearchStart(latest);
    matches := [];
    var num := latest;
    while num >= start
      invariant start - 1 <= num <= latest || (num == latest && latest < start)
      invariant matches == Hits(fetched, keyword, latest, num + 1)
      invariant |matches| < MaxMatches
    {
      if Matches(fetched, keyword, num) {
        matches := matches + [num];
        if |matches| >= MaxMatches {
          HitsExtend(fetched, keyword, latest, start, num);
          return;
        }
      }
      num := num - 1;
    }
    if num != start - 1 {
      assert Hits(fetched, keyword, latest, num + 1) == [] == Hits(fetched, keyword, latest, start);
    }
  }

  /** At most five results, each in the window, newest first; with fewer
      than five, every matching comic of the window is there. */
  lemma SearchResults(fetched: map<int, Comic>, keyword: string, latest: int, matches: seq<int>)
    requires var all := Hits(fetched, keyword, latest, SearchStart(latest));
             matches == if |all| <= MaxMatches then all else all[..MaxMatches]
    ensures |matches| <= MaxMatches
    ensures forall i :: 0 <= i < |matches| ==>
              SearchStart(latest) <= matches[i] <= latest && Matches(fetched, keyword, matches[i])
    ensures forall i, j :: 0 <= i < j < |matches| ==> matches[i] > matches[j]
    ensures |matches| < MaxMatches ==>
              forall n :: SearchStart(latest) <= n <= latest && Matches(fetched, keyword, n) ==> n in matches
  {
    if |matches| < MaxMatches {
      forall n | SearchStart(latest) <= n <= latest && Matches(fetched, keyword, n)
        ensures n in matches
      {
        HitsComplete(fetched, keyword, latest, SearchStart(latest), n);
      }
    }
  }

  /** The "Other matches" field: every match after the first, as "#n"
      joined with ", "; no field for a single match. */
  function OtherMatches(matches: seq<int>): (f: Option<Field>)
    ensures |matches| <= 1 <==> f.None?
    ensures |matches| > 1 ==> f == Some(Field("Other matches", JoinWithComma(Tags(matches[1..])), false))
  {
    if |matches| <= 1 then None
    else
      var tags := seq(|matches| - 1, i requires 0 <= i < |matches| - 1 => "#" + IntToString(matches[i + 1]));
      assert tags == Tags(matches[1..]);
      Some(Field("Other matches", JoinWithComma(tags), false))
  }

  /** `f"#{n}"` for each number, in order. */
  function Tags(ns: seq<int>): (tags: seq<string>)
    ensures |tags| == |ns|
    ensures forall i :: 0 <= i < |ns| ==> tags[i] == "#" + IntToString(ns[i])
  {
    if ns == [] then [] else ["#" + IntToString(ns[0])] + Tags(ns[1..])
  }

  /** `", ".join(parts)`. */
  function JoinWithComma(parts: seq<string>): string {
    if parts == [] then "" else if |parts| == 1 then parts[0] else parts[0] + ", " + JoinWithComma(parts[1..])
  }
}
