/** The tech-quote commands: the quote embed, the per-author commands, and
    `quote_list`, which tallies the quotes per author, orders the authors
    by their number of quotes, cuts the author lines into pages of at most
    900 characters and pages through them with a button view. The random
    choice is an input: an index into the candidates. */
module TechQuote {
  import opened Common

  /** One entry of the quote table. `bio` is None when the entry has no
      "bio" key; `wiki` is None for a missing key or a null value. */
  datatype Quote = Quote(quote: string, author: string, bio: Option<string>, wiki: Option<string>, color: Option<int>)

  /** A few entries of the table. */
  const SampleQuotes: seq<Quote> := [
    Quote("Talk is cheap. Show me the code.", "Linus Torvalds", Some("Creator of Linux and Git"),
          Some("https://en.wikipedia.org/wiki/Linus_Torvalds"), Some(0xFCC624)),
    Quote("The best way to predict the future is to invent it.", "Alan Kay",
          Some("Computer scientist and pioneer of object-oriented programming"),
          Some("https://en.wikipedia.org/wiki/Alan_Kay"), Some(0xE67E22)),
    Quote("First, solve the problem. Then, write the code.", "John Johnson",
          Some("Software developer and problem solver"), None, Some(0x95A5A6))
  ]

  const DefaultColor: int := 0x5865F2

  // ---------------------------------------------------------------- the embed

  /** The author line: a dash and the name, then the bio in italics on its
      own line when the entry has a non-empty one. */
  function AuthorText(q: Quote): (t: string)
    ensures !Truthy(q.bio) <==> t == "\U{2014} " + q.author
    ensures Truthy(q.bio) ==> StartsWith(t, "\U{2014} " + q.author) && EndsWith(t, "\n*" + q.bio.value + "*")
  {
    var head := "\U{2014} " + q.author;
    if Truthy(q.bio) then
      var t := head + "\n*" + q.bio.value + "*";
      assert t[..|head|] == head;
      assert t[|t| - |"\n*" + q.bio.value + "*"|..] == "\n*" + q.bio.value + "*";
      t
    else head
  }

  /** `_create_quote_embed`: the quote in double quotes, the author line,
      a "Learn More" link exactly when the entry has a wiki link, and the
      entry's colour or Discord blurple. */
  function QuoteEmbed(q: Quote): (e: Embed)
    ensures e.description == "\"" + q.quote + "\""
    ensures e.color == Some(if q.color.Some? then q.color.value else DefaultColor)
    ensures |e.fields| >= 1 && e.fields[0] == Field("", AuthorText(q), false)
    ensures |e.fields| == 2 <==> Truthy(q.wiki)
    ensures |e.fields| <= 2
    ensures Truthy(q.wiki) ==>
              e.fields[1] == Field("\U{1F4D6} Learn More", "[Read about " + q.author + "](" + q.wiki.value + ")", false)
  {
    var learn := if Truthy(q.wiki) then
                   [Field("\U{1F4D6} Learn More", "[Read about " + q.author + "](" + q.wiki.value + ")", false)]
                 else [];
    Embed("\U{1F4A1} Tech Quote of the Day", "\"" + q.quote + "\"", None,
          Some(if q.color.Some? then q.color.value else DefaultColor),
          [Field("", AuthorText(q), false)] + learn,
          Some("\U{1F427} Penguin Overlord | Tech Wisdom"))
  }

  /** An entry without a wiki link gets no "Learn More" field; one with a
      link does. */
  lemma SampleEmbeds()
    ensures |QuoteEmbed(SampleQuotes[0]).fields| == 2
    ensures |QuoteEmbed(SampleQuotes[2]).fields| == 1
  {
  }

  /** The quotes of one author, in table order. */
  function ByAuthor(quotes: seq<Quote>, author: string): (r: seq<Quote>)
    ensures forall q :: q in r <==> q in quotes && q.author == author
    ensures |r| == Count(quotes, author)
    decreases |quotes|
  {
    if quotes == [] then []
    else
      var init := quotes[..|quotes| - 1];
      var x := quotes[|quotes| - 1];
      assert quotes == init + [x];
      ByAuthor(init, author) + (if x.author == author then [x] else [])
  }

  /** `quote_linus` and its siblings: the embed of the chosen quote of the
      author, or the "not found" text when the table has none. */
  function AuthorQuote(quotes: seq<Quote>, author: string, pick: nat): (r: Result)
    ensures r.NotFound? <==> Count(quotes, author) == 0
    ensures r.NotFound? ==> r.message == "No quotes from " + author + " found!"
    ensures r.Found? ==> exists q :: q in quotes && q.author == author && r.embed == QuoteEmbed(q)
  {
    var candidates := ByAuthor(quotes, author);
    if candidates == [] then NotFound("No quotes from " + author + " found!")
    else
      var q := candidates[pick % |candidates|];
      assert q in candidates;
      Found(QuoteEmbed(q))
  }

  datatype Result = Found(embed: Embed) | NotFound(message: string)

  // ---------------------------------------------------------------- tally

  /** How many entries an author has. */
  function Count(quotes: seq<Quote>, author: string): nat
    decreases |quotes|
  {
    if quotes == [] then 0
    else Count(quotes[..|quotes| - 1], author) + (if quotes[|quotes| - 1].author == author then 1 else 0)
  }

  /** An author with no entry has no quotes. */
  lemma {:induction false} CountAbsent(quotes: seq<Quote>, author: string)
    requires forall k :: 0 <= k < |quotes| ==> quotes[k].author != author
    ensures Count(quotes, author) == 0
    decreases |quotes|
  {
    if quotes != [] {
      CountAbsent(quotes[..|quotes| - 1], author);
    }
  }

  /** The authors in order of first appearance: the dictionary's keys. */
  function AuthorsOf(quotes: seq<Quote>): (authors: seq<string>)
    ensures forall a :: a in authors <==> exists k :: 0 <= k < |quotes| && quotes[k].author == a
    ensures forall i, j :: 0 <= i < j < |authors| ==> authors[i] != authors[j]
    ensures authors == [] <==> quotes == []
    decreases |quotes|
  {
    if quotes == [] then []
    else
      var init := quotes[..|quotes| - 1];
      var x := quotes[|quotes| - 1];
      var authors := AuthorsOf(init);
      assert forall k :: 0 <= k < |init| ==> init[k] == quotes[k];
      if x.author in authors then authors else authors + [x.author]
  }

  /** `quote.get('bio', 'Tech legend')`. */
  function BioOf(q: Quote): string {
    if q.bio.Some? then q.bio.value else "Tech legend"
  }

  /** The bio of the author's first entry. */
  function FirstBio(quotes: seq<Quote>, author: string): string
    decreases |quotes|
  {
    if quotes == [] then "Tech legend"
    else if quotes[0].author == author then BioOf(quotes[0])
    else FirstBio(quotes[1..], author)
  }

  /** A later entry does not change the bio of an author already seen; an
      author's first entry sets it. */
  lemma {:induction false} FirstBioSnoc(quotes: seq<Quote>, x: Quote, author: string)
    ensures (exists k :: 0 <= k < |quotes| && quotes[k].author == author) ==>
              FirstBio(quotes + [x], author) == FirstBio(quotes, author)
    ensures (forall k :: 0 <= k < |quotes| ==> quotes[k].author != author) && x.author == author ==>
              FirstBio(quotes + [x], author) == BioOf(x)
    decreases |quotes|
  {
    if quotes == [] {
      assert [] + [x] == [x];
    } else {
      assert (quotes + [x])[1..] == quotes[1..] + [x];
      FirstBioSnoc(quotes[1..], x, author);
      if quotes[0].author != author {
        if exists k :: 0 <= k < |quotes| && quotes[k].author == author {
          var k :| 0 <= k < |quotes| && quotes[k].author == author;
          assert quotes[1..][k - 1] == quotes[k];
        }
      }
    }
  }

  /** An author's dictionary entry. */
  datatype AuthorEntry = AuthorEntry(author: string, bio: string, count: nat)

  function SumCounts(items: seq<AuthorEntry>): nat
    decreases |items|
  {
    if items == [] then 0 else SumCounts(items[..|items| - 1]) + items[|items| - 1].count
  }

  /** Adding one to an entry's count adds one to the total. */
  lemma {:induction false} SumCountsBump(items: seq<AuthorEntry>, k: int)
    requires 0 <= k < |items|
    ensures SumCounts(items[k := items[k].(count := items[k].count + 1)]) == SumCounts(items) + 1
    decreases |items|
  {
    var bumped := items[k := items[k].(count := items[k].count + 1)];
    assert bumped[..|items| - 1] == if k < |items| - 1 then items[..|items| - 1][k := items[k].(count := items[k].count + 1)]
                                    else items[..|items| - 1];
    if k < |items| - 1 {
      SumCountsBump(items[..|items| - 1], k);
    }
  }

  /** One entry per author in order of first appearance, with the first
      entry's bio and that author's number of quotes. */
  function Tallied(quotes: seq<Quote>): seq<AuthorEntry> {
    var authors := AuthorsOf(quotes);
    seq(|authors|, k requires 0 <= k < |authors| => AuthorEntry(authors[k], FirstBio(quotes, authors[k]), Count(quotes, authors[k])))
  }

  lemma AuthorsSnoc(seen: seq<Quote>, q: Quote)
    ensures AuthorsOf(seen + [q]) == AuthorsOf(seen) + (if q.author in AuthorsOf(seen) then [] else [q.author])
    ensures forall a :: Count(seen + [q], a) == Count(seen, a) + (if q.author == a then 1 else 0)
  {
    assert (seen + [q])[..|seen|] == seen;
  }

  /** An author already tallied keeps the bio of their first entry. */
  lemma KeepsBio(seen: seq<Quote>, q: Quote, j: int)
    requires 0 <= j < |AuthorsOf(seen)|
    ensures FirstBio(seen + [q], AuthorsOf(seen)[j]) == FirstBio(seen, AuthorsOf(seen)[j])
  {
    var a := AuthorsOf(seen)[j];
    assert a in AuthorsOf(seen);
    FirstBioSnoc(seen, q, a);
  }

  /** A quote by an author already tallied at position k adds one to that
      entry and changes nothing else. */
  lemma TalliedSeen(seen: seq<Quote>, q: Quote, k: int)
    requires 0 <= k < |AuthorsOf(seen)| && AuthorsOf(seen)[k] == q.author
    ensures Tallied(seen + [q]) == Tallied(seen)[k := Tallied(seen)[k].(count := Tallied(seen)[k].count + 1)]
  {
    AuthorsSnoc(seen, q);
    var authors := AuthorsOf(seen);
    assert AuthorsOf(seen + [q]) == authors;
    var before := Tallied(seen);
    var after := Tallied(seen + [q]);
    var bumped := before[k := before[k].(count := before[k].count + 1)];
    forall j | 0 <= j < |authors|
      ensures after[j] == bumped[j]
    {
      var a := authors[j];
      assert FirstBio(seen + [q], a) == FirstBio(seen, a) by {
        KeepsBio(seen, q, j);
      }
      assert Count(seen + [q], a) == Count(seen, a) + (if j == k then 1 else 0) by {
        assert j != k ==> a != q.author;
      }
      assert after[j] == AuthorEntry(a, FirstBio(seen + [q], a), Count(seen + [q], a));
      assert before[j] == AuthorEntry(a, FirstBio(seen, a), Count(seen, a));
    }
  }

  /** A quote by a new author appends that author with one quote and the
      quote's bio. */
  lemma TalliedFresh(seen: seq<Quote>, q: Quote)
    requires q.author !in AuthorsOf(seen)
    ensures Tallied(seen + [q]) == Tallied(seen) + [AuthorEntry(q.author, BioOf(q), 1)]
  {
    AuthorsSnoc(seen, q);
    var authors := AuthorsOf(seen);
    assert AuthorsOf(seen + [q]) == authors + [q.author];
    var before := Tallied(seen);
    var after := Tallied(seen + [q]);
    var grown := before + [AuthorEntry(q.author, BioOf(q), 1)];
    forall j | 0 <= j < |authors|
      ensures after[j] == grown[j]
    {
      var a := authors[j];
      KeepsBio(seen, q, j);
      assert after[j] == AuthorEntry(a, FirstBio(seen + [q], a), Count(seen + [q], a));
      assert a != q.author;
      assert Count(seen + [q], a) == Count(seen, a);
    }
    FirstBioSnoc(seen, q, q.author);
    CountAbsent(seen, q.author);
    assert after[|authors|] == grown[|authors|];
  }

  /** The loop state after some quotes: the entries so far, and a map from
      each author seen to the position of their entry. */
  ghost predicate TallyState(seen: seq<Quote>, items: seq<AuthorEntry>, index: map<string, nat>) {
    items == Tallied(seen) && TallyIndex(seen, items, index)
  }

  /** The map's keys are the authors seen, each mapped to its entry. */
  ghost predicate TallyIndex(seen: seq<Quote>, items: seq<AuthorEntry>, index: map<string, nat>) {
    && (forall a :: a in index <==> a in AuthorsOf(seen))
    && (forall a :: a in index ==> index[a] < |items| && items[index[a]].author == a)
  }

  /** One step of the tally loop: `counts.setdefault(author, ...)` then
      `+= 1`. */
  method Record(ghost seen: seq<Quote>, q: Quote, items: seq<AuthorEntry>, index: map<string, nat>)
    returns (items': seq<AuthorEntry>, index': map<string, nat>)
    requires TallyState(seen, items, index)
    ensures TallyState(seen + [q], items', index')
    ensures SumCounts(items') == SumCounts(items) + 1
  {
    items', index' := items, index;
    if q.author !in index' {
      RecordFresh(seen, q, items, index);
      index' := index'[q.author := |items'|];
      assert (items' + [AuthorEntry(q.author, BioOf(q), 0)])[..|items'|] == items';
      items' := items' + [AuthorEntry(q.author, BioOf(q), 0)];
    } else {
      RecordSeen(seen, q, items, index);
    }
    var k := index'[q.author];
    SumCountsBump(items', k);
    items' := items'[k := items'[k].(count := items'[k].count + 1)];
  }

  /** A new author's entry, appended with no quotes and then bumped, keeps
      the tally state. */
  lemma RecordFresh(seen: seq<Quote>, q: Quote, items: seq<AuthorEntry>, index: map<string, nat>)
    requires TallyState(seen, items, index) && q.author !in index
    ensures var grown := items + [AuthorEntry(q.author, BioOf(q), 0)];
            var bumped := grown[|items| := grown[|items|].(count := grown[|items|].count + 1)];
            TallyState(seen + [q], bumped, index[q.author := |items|])
  {
    var grown := items + [AuthorEntry(q.author, BioOf(q), 0)];
    var bumped := grown[|items| := grown[|items|].(count := grown[|items|].count + 1)];
    assert bumped == items + [AuthorEntry(q.author, BioOf(q), 1)];
    assert q.author !in AuthorsOf(seen);
    TalliedFresh(seen, q);
    IndexFresh(seen, q, items, index);
  }

  lemma IndexFresh(seen: seq<Quote>, q: Quote, items: seq<AuthorEntry>, index: map<string, nat>)
    requires TallyIndex(seen, items, index) && q.author !in index
    ensures TallyIndex(seen + [q], items + [AuthorEntry(q.author, BioOf(q), 1)], index[q.author := |items|])
  {
    var grown := items + [AuthorEntry(q.author, BioOf(q), 1)];
    var index' := index[q.author := |items|];
    assert AuthorsOf(seen + [q]) == AuthorsOf(seen) + [q.author] by {
      AuthorsSnoc(seen, q);
    }
    forall a | a in index'
      ensures index'[a] < |grown| && grown[index'[a]].author == a
    {
      if a != q.author {
        assert grown[index[a]] == items[index[a]];
      }
    }
  }

  /** A seen author's entry, bumped in place, keeps the tally state. */
  lemma RecordSeen(seen: seq<Quote>, q: Quote, items: seq<AuthorEntry>, index: map<string, nat>)
    requires TallyState(seen, items, index) && q.author in index
    ensures var k := index[q.author];
            TallyState(seen + [q], items[k := items[k].(count := items[k].count + 1)], index)
  {
    var k := index[q.author];
    assert Tallied(seen)[k].author == q.author;
    TalliedSeen(seen, q, k);
    IndexSeen(seen, q, items, index);
  }

  lemma IndexSeen(seen: seq<Quote>, q: Quote, items: seq<AuthorEntry>, index: map<string, nat>)
    requires TallyIndex(seen, items, index) && q.author in index
    ensures var k := index[q.author];
            TallyIndex(seen + [q], items[k := items[k].(count := items[k].count + 1)], index)
  {
    var k := index[q.author];
    var bumped := items[k := items[k].(count := items[k].count + 1)];
    assert AuthorsOf(seen + [q]) == AuthorsOf(seen) by {
      AuthorsSnoc(seen, q);
    }
    forall a | a in index
      ensures index[a] < |bumped| && bumped[index[a]].author == a
    {
      assert bumped[index[a]].author == items[index[a]].author;
    }
  }

  /** The tally loop of `quote_list`, with the dictionary as a list of
      entries in insertion order and a map from author to position; the
      counts add up to the size of the table. */
  method Tally(quotes: seq<Quote>) returns (items: seq<AuthorEntry>)
    ensures items == Tallied(quotes)
    ensures SumCounts(items) == |quotes|
  {
    items := [];
    var index: map<string, nat> := map[];
    var i := 0;
    while i < |quotes|
      invariant 0 <= i <= |quotes|
      invariant TallyState(quotes[..i], items, index)
      invariant SumCounts(items) == i
    {
      assert quotes[..i + 1] == quotes[..i] + [quotes[i]];
      items, index := Record(quotes[..i], quotes[i], items, index);
      i := i + 1;
    }
    assert quotes[..i] == quotes;
  }

  // ---------------------------------------------------------------- ordering

  predicate ByCountDescending(s: seq<AuthorEntry>) {
    forall i, j :: 0 <= i < j < |s| ==> s[i].count >= s[j].count
  }

  /** Places x after every entry with at least as many quotes. */
  function InsertByCount(s: seq<AuthorEntry>, x: AuthorEntry): seq<AuthorEntry> {
    if s == [] || x.count > s[0].count then [x] + s else [s[0]] + InsertByCount(s[1..], x)
  }

  /** `sorted(..., key=count, reverse=True)`: descending and stable. */
  function SortByCount(s: seq<AuthorEntry>): seq<AuthorEntry>
    decreases |s|
  {
    if s == [] then [] else InsertByCount(SortByCount(s[..|s| - 1]), s[|s| - 1])
  }

  /** The entries with exactly c quotes, in order. */
  function WithCount(s: seq<AuthorEntry>, c: int): seq<AuthorEntry>
    decreases |s|
  {
    if s == [] then [] else (if s[0].count == c then [s[0]] else []) + WithCount(s[1..], c)
  }

  lemma {:induction false} WithCountAppend(a: seq<AuthorEntry>, b: seq<AuthorEntry>, c: int)
    ensures WithCount(a + b, c) == WithCount(a, c) + WithCount(b, c)
    decreases |a|
  {
    if a != [] {
      assert (a + b)[1..] == a[1..] + b;
      WithCountAppend(a[1..], b, c);
    } else {
      assert a + b == b;
    }
  }

  lemma {:induction false} InsertByCountPerm(s: seq<AuthorEntry>, x: AuthorEntry)
    ensures multiset(InsertByCount(s, x)) == multiset(s) + multiset{x}
    decreases |s|
  {
    if s != [] && x.count <= s[0].count {
      InsertByCountPerm(s[1..], x);
      assert s == [s[0]] + s[1..];
    }
  }

  lemma {:induction false} InsertByCountSorted(s: seq<AuthorEntry>, x: AuthorEntry)
    requires ByCountDescending(s)
    ensures ByCountDescending(InsertByCount(s, x))
    decreases |s|
  {
    if s != [] && x.count <= s[0].count {
      InsertByCountSorted(s[1..], x);
      InsertByCountPerm(s[1..], x);
      var r := InsertByCount(s[1..], x);
      forall i | 0 <= i < |r| ensures s[0].count >= r[i].count {
        assert r[i] in multiset(r);
        assert r[i] in multiset(s[1..]) || r[i] == x;
      }
    }
  }

  /** In a descending sequence whose first entry has fewer than c quotes,
      nothing has c. */
  lemma {:induction false} FewerCounts(s: seq<AuthorEntry>, c: int)
    requires ByCountDescending(s) && s != [] && c > s[0].count
    ensures WithCount(s, c) == []
    decreases |s|
  {
    if |s| > 1 {
      FewerCounts(s[1..], c);
    }
  }

  lemma {:induction false} InsertByCountStable(s: seq<AuthorEntry>, x: AuthorEntry, c: int)
    requires ByCountDescending(s)
    ensures WithCount(InsertByCount(s, x), c) == WithCount(s, c) + (if x.count == c then [x] else [])
    decreases |s|
  {
    if s == [] || x.count > s[0].count {
      assert ([x] + s)[1..] == s;
      if x.count == c && s != [] {
        FewerCounts(s, c);
      }
    } else {
      InsertByCountStable(s[1..], x, c);
      assert ([s[0]] + InsertByCount(s[1..], x))[1..] == InsertByCount(s[1..], x);
    }
  }

  /** The author order is by count descending, a permutation of the tally,
      and stable: authors with equal counts keep their first-appearance
      order. */
  lemma {:induction false} SortByCountSorted(s: seq<AuthorEntry>)
    ensures ByCountDescending(SortByCount(s))
    ensures multiset(SortByCount(s)) == multiset(s)
    ensures forall c :: WithCount(SortByCount(s), c) == WithCount(s, c)
  {
    SortByCountDescending(s);
    SortByCountPerm(s);
    SortByCountStable(s);
  }

  lemma {:induction false} SortByCountDescending(s: seq<AuthorEntry>)
    ensures ByCountDescending(SortByCount(s))
    decreases |s|
  {
    if s != [] {
      SortByCountDescending(s[..|s| - 1]);
      InsertByCountSorted(SortByCount(s[..|s| - 1]), s[|s| - 1]);
    }
  }

  lemma {:induction false} SortByCountPerm(s: seq<AuthorEntry>)
    ensures multiset(SortByCount(s)) == multiset(s)
    decreases |s|
  {
    if s != [] {
      var init := s[..|s| - 1];
      SortByCountPerm(init);
      InsertByCountPerm(SortByCount(init), s[|s| - 1]);
      assert s == init + [s[|s| - 1]];
    }
  }

  lemma {:induction false} SortByCountStable(s: seq<AuthorEntry>)
    ensures forall c :: WithCount(SortByCount(s), c) == WithCount(s, c)
    decreases |s|
  {
    if s != [] {
      var init := s[..|s| - 1];
      var x := s[|s| - 1];
      SortByCountStable(init);
      SortByCountDescending(init);
      assert s == init + [x];
      forall c ensures WithCount(SortByCount(s), c) == WithCount(s, c) {
        InsertByCountStable(SortByCount(init), x, c);
        WithCountAppend(init, [x], c);
        assert [x][1..] == [];
      }
    }
  }

  // ---------------------------------------------------------------- pages

  const MaxChars: int := 900

  /** `**author** — bio (n quote)`, with "quotes" for more than one. */
  function AuthorLine(e: AuthorEntry): (line: string)
    ensures StartsWith(line, "**" + e.author + "** \U{2014} " + e.bio + " (" + IntToString(e.count) + " quote")
    ensures e.count > 1 <==> EndsWith(line, "s)")
  {
    var head := "**" + e.author + "** \U{2014} " + e.bio + " (" + IntToString(e.count) + " quote";
    var line := head + (if e.count > 1 then "s" else "") + ")";
    assert line[..|head|] == head;
    if e.count > 1 then
      assert line[|line| - 2..] == "s)";
      line
    else
      assert line[|line| - 2..] == [head[|head| - 1], ')'];
      line
  }

  function AuthorLines(entries: seq<AuthorEntry>): (lines: seq<string>)
    ensures |lines| == |entries|
    ensures forall k :: 0 <= k < |entries| ==> lines[k] == AuthorLine(entries[k])
  {
    seq(|entries|, k requires 0 <= k < |entries| => AuthorLine(entries[k]))
  }

  /** A page's size as the paging loop counts it: each line plus its
      newline. */
  function Weight(page: seq<string>): nat
    decreases |page|
  {
    if page == [] then 0 else Weight(page[..|page| - 1]) + |page[|page| - 1]| + 1
  }

  /** The lines of the pages, page after page. */
  function Flatten(pages: seq<seq<string>>): seq<string>
    decreases |pages|
  {
    if pages == [] then [] else Flatten(pages[..|pages| - 1]) + pages[|pages| - 1]
  }

  /** No page is empty, and a page stays within 900 characters unless it
      is a single line. */
  ghost predicate PagesFit(pages: seq<seq<string>>) {
    forall p :: 0 <= p < |pages| ==> pages[p] != [] && (Weight(pages[p]) <= MaxChars || |pages[p]| == 1)
  }

  /** Each page but the last was closed because the next page's first line
      would have taken it over 900 characters. */
  ghost predicate ClosedOnOverflow(pages: seq<seq<string>>)
    requires PagesFit(pages)
  {
    forall q {:trigger pages[q][0]} :: 1 <= q < |pages| ==> Weight(pages[q - 1]) + |pages[q][0]| + 1 > MaxChars
  }

  /** Closing a page keeps both properties when the page fits and, after an
      earlier page, its first line overflowed that page. */
  lemma ClosePage(pages: seq<seq<string>>, current: seq<string>)
    requires PagesFit(pages) && ClosedOnOverflow(pages)
    requires current != [] && (Weight(current) <= MaxChars || |current| == 1)
    requires pages != [] ==> Weight(pages[|pages| - 1]) + |current[0]| + 1 > MaxChars
    ensures PagesFit(pages + [current]) && ClosedOnOverflow(pages + [current])
  {
    var all := pages + [current];
    assert all[..|pages|] == pages;
    forall p | 0 <= p < |all|
      ensures all[p] != [] && (Weight(all[p]) <= MaxChars || |all[p]| == 1)
    {
      if p < |pages| {
        assert all[p] == pages[p];
      }
    }
    forall q | 1 <= q < |all|
      ensures Weight(all[q - 1]) + |all[q][0]| + 1 > MaxChars
    {
      assert all[q - 1] == pages[q - 1];
      if q < |pages| {
        assert all[q] == pages[q];
        assert pages[q][0] == all[q][0];
      }
    }
  }

  lemma FlattenSnoc(pages: seq<seq<string>>, page: seq<string>)
    ensures Flatten(pages + [page]) == Flatten(pages) + page
  {
    assert (pages + [page])[..|pages|] == pages;
  }

  /** The state of the paging loop after the first i lines: the closed
      pages and the open one hold those lines, and every page so far obeys
      the size and closing rules. */
  ghost predicate Paging(lines: seq<string>, i: int, pages: seq<seq<string>>, current: seq<string>) {
    && 0 <= i <= |lines|
    && Flatten(pages) + current == lines[..i]
    && (current == [] <==> i == 0)
    && (current != [] ==> Weight(current) <= MaxChars || |current| == 1)
    && PagesFit(pages) && ClosedOnOverflow(pages)
    && (pages != [] && current != [] ==> Weight(pages[|pages| - 1]) + |current[0]| + 1 > MaxChars)
  }

  /** A line that would take the open page over 900 characters closes it
      and opens the next page. */
  lemma CloseStep(lines: seq<string>, i: int, pages: seq<seq<string>>, current: seq<string>)
    requires Paging(lines, i, pages, current) && i < |lines|
    requires Weight(current) + |lines[i]| + 1 > MaxChars && current != []
    ensures Paging(lines, i + 1, pages + [current], [] + [lines[i]])
    ensures Weight([] + [lines[i]]) == |lines[i]| + 1
  {
    var open := [] + [lines[i]];
    assert open == [lines[i]];
    assert Weight(open) == |lines[i]| + 1 by {
      assert open[..0] == [];
    }
    assert Flatten(pages + [current]) + open == lines[..i + 1] by {
      FlattenSnoc(pages, current);
      assert lines[..i + 1] == lines[..i] + [lines[i]];
    }
    assert (pages + [current])[|pages|] == current;
    ClosePage(pages, current);
  }

  /** Any other line joins the open page. */
  lemma ExtendStep(lines: seq<string>, i: int, pages: seq<seq<string>>, current: seq<string>)
    requires Paging(lines, i, pages, current) && i < |lines|
    requires Weight(current) + |lines[i]| + 1 <= MaxChars || current == []
    ensures Paging(lines, i + 1, pages, current + [lines[i]])
    ensures Weight(current + [lines[i]]) == Weight(current) + |lines[i]| + 1
  {
    assert lines[..i + 1] == lines[..i] + [lines[i]];
    var open := current + [lines[i]];
    assert open[..|current|] == current;
    if current != [] {
      assert open[0] == current[0];
    }
  }

  /** The greedy paging of `quote_list`: the pages hold the lines in order;
      no page is empty; a page stays within 900 characters unless it is a
      single line; and a page is closed only when the next line would have
      taken it over 900. */
  method PageLines(lines: seq<string>) returns (pages: seq<seq<string>>)
    ensures Flatten(pages) == lines
    ensures pages == [] <==> lines == []
    ensures PagesFit(pages) && ClosedOnOverflow(pages)
  {
    pages := [];
    var current: seq<string> := [];
    var currentLength := 0;
    var i := 0;
    while i < |lines|
      invariant Paging(lines, i, pages, current)
      invariant currentLength == Weight(current)
    {
      var lineLength := |lines[i]| + 1;
      if currentLength + lineLength > MaxChars && current != [] {
        CloseStep(lines, i, pages, current);
        pages := pages + [current];
        current := [];
        currentLength := 0;
      } else {
        ExtendStep(lines, i, pages, current);
      }
      current := current + [lines[i]];
      currentLength := currentLength + lineLength;
      i := i + 1;
    }
    FinishPaging(lines, pages, current);
    if current != [] {
      pages := pages + [current];
    }
  }

  /** After the last line the open page, if any, is closed. */
  lemma FinishPaging(lines: seq<string>, pages: seq<seq<string>>, current: seq<string>)
    requires Paging(lines, |lines|, pages, current)
    ensures var all := if current != [] then pages + [current] else pages;
            && Flatten(all) == lines && (all == [] <==> lines == [])
            && PagesFit(all) && ClosedOnOverflow(all)
  {
    assert lines[..|lines|] == lines;
    if current != [] {
      ClosePage(pages, current);
      FlattenSnoc(pages, current);
    }
  }

  /** The reply of `quote_list`: the pages of author lines and whether the
      button view is attached. An empty table leaves no first page to
      send, and the command fails. */
  datatype ListReply = NoPage | Paged(pages: seq<seq<string>>, withView: bool)

  /** `quote_list`: tally, order, lines, pages; the view only for more than
      one page. */
  method QuoteList(quotes: seq<Quote>) returns (reply: ListReply, authors: seq<AuthorEntry>)
    ensures authors == SortByCount(Tallied(quotes))
    ensures reply.NoPage? <==> quotes == []
    ensures reply.Paged? ==> Flatten(reply.pages) == AuthorLines(authors) && (reply.withView <==> |reply.pages| > 1)
    ensures reply.Paged? ==> PagesFit(reply.pages) && ClosedOnOverflow(reply.pages)
  {
    var items := Tally(quotes);
    authors := SortByCount(items);
    SortByCountSorted(items);
    assert |authors| == |items| by {
      assert |multiset(authors)| == |multiset(items)|;
    }
    var pages := PageLines(AuthorLines(authors));
    if pages == [] {
      reply := NoPage;
    } else {
      reply := Paged(pages, |pages| > 1);
    }
  }

  // ---------------------------------------------------------------- the view

  /** `PaginatorView`: the page shown and the four navigation buttons'
      disabled flags. The steps do not clamp: the index stays on a page
      only as long as disabled buttons are not pressed. */
  class PaginatorView {
    const pageCount: nat
    var currentPage: int
    var firstDisabled: bool
    var prevDisabled: bool
    var nextDisabled: bool
    var lastDisabled: bool

    /** The buttons match the page: first/previous are off on the first
        page, next/last on the last. */
    predicate ButtonsMatch()
      reads this
    {
      && firstDisabled == (currentPage == 0) && prevDisabled == (currentPage == 0)
      && nextDisabled == (currentPage == pageCount - 1) && lastDisabled == (currentPage == pageCount - 1)
    }

    predicate OnAPage()
      reads this
    {
      0 <= currentPage < pageCount
    }

    constructor (pages: nat)
      ensures pageCount == pages && currentPage == 0 && ButtonsMatch()
    {
      pageCount := pages;
      currentPage := 0;
      new;
      UpdateButtons();
    }

    /** `_update_buttons`. */
    method UpdateButtons()
      modifies this
      ensures currentPage == old(currentPage) && ButtonsMatch()
    {
      firstDisabled := currentPage == 0;
      prevDisabled := currentPage == 0;
      nextDisabled := currentPage == pageCount - 1;
      lastDisabled := currentPage == pageCount - 1;
    }

    method FirstPage()
      modifies this
      ensures currentPage == 0 && ButtonsMatch()
    {
      currentPage := 0;
      UpdateButtons();
    }

    /** One page back; from a page whose "previous" button is enabled the
        index stays on a page. */
    method PrevPage()
      modifies this
      ensures currentPage == old(currentPage) - 1 && ButtonsMatch()
      ensures old(OnAPage() && ButtonsMatch() && !prevDisabled) ==> OnAPage()
    {
      currentPage := currentPage - 1;
      UpdateButtons();
    }

    /** One page on; from a page whose "next" button is enabled the index
        stays on a page. */
    method NextPage()
      modifies this
      ensures currentPage == old(currentPage) + 1 && ButtonsMatch()
      ensures old(OnAPage() && ButtonsMatch() && !nextDisabled) ==> OnAPage()
    {
      currentPage := currentPage + 1;
      UpdateButtons();
    }

    method LastPage()
      modifies this
      ensures currentPage == pageCount - 1 && ButtonsMatch()
      ensures pageCount > 0 ==> OnAPage()
    {
      currentPage := pageCount - 1;
      UpdateButtons();
    }
  }

  /** The page `pages[i]` shows for an index within `-n..n - 1`: Python
      counts a negative index from the end. */
  function ShownPage(i: int, n: nat): (p: nat)
    requires 0 <= i + n && i < n
    ensures p < n
    ensures 0 <= i ==> p == i
    ensures i < 0 ==> p + (-i) == n
  {
    if i < 0 then n + i else i
  }

  /** Pressing "previous" on the first page of three, were the button
      enabled, leaves the index range 0..2: the index becomes -1, and the
      edited message then shows `pages[-1]`, which Python reads as the last
      page. */
  method PrevFromFirstLeavesPages() returns (page: int, onAPage: bool, shown: nat)
    ensures page == -1 && !onAPage
    ensures shown == 2
  {
    var view := new PaginatorView(3);
    view.PrevPage();
    page, onAPage := view.currentPage, view.OnAPage();
    shown := ShownPage(page, 3);
  }
}
