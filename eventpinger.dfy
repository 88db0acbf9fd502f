/** The event pinger: conferences loaded from CSV rows, the upcoming-events
    window, weekly buckets, the type filter, the five-per-page listing and
    its paginator, the search command and the daily reminder pass. The
    clock is an input (`now`, in seconds since a local-time epoch whose day
    0 starts at midnight), and so is `strptime('%Y-%m-%d')`, as a function
    from a date string to its day number. */
module EventPinger {
  import opened Common

  const SecondsPerDay: int := 86400

  /** A CSV row as `csv.DictReader` yields it: the columns it has. */
  type Row = map<string, string>

  /** An event as `load_events` stores it; dates are day numbers. */
  datatype Event = Event(name: string, start: int, end: int, city: string, state: string, url: string,
                         source: string, kind: string, dateStatus: string)

  /** The copy of an event annotated with its `days_until`. */
  datatype Upcoming = Upcoming(event: Event, daysUntil: int)

  function Get(row: Row, key: string, default: string): string {
    if key in row then row[key] else default
  }

  /** `x // d` is q exactly when q*d <= x < q*d + d. */
  lemma DivIs(x: int, d: int, q: int)
    requires d > 0 && q * d <= x < q * d + d
    ensures x / d == q
  {
    var r := x / d;
    assert x == d * r + x % d && 0 <= x % d < d;
    MulStep(r, q, d);
    MulStep(q, r, d);
  }

  lemma {:induction false} MulStep(a: int, b: int, d: int)
    requires d > 0
    ensures a < b ==> a * d + d <= b * d
    decreases b - a
  {
    if a + 1 < b {
      MulStep(a + 1, b, d);
      assert (a + 1) * d == a * d + d;
    }
  }

  /** `datetime.now().date()`. */
  function Today(now: int): int {
    now / SecondsPerDay
  }

  /** `(start_date - datetime.now()).days`: timedelta's day count floors. */
  function DaysUntil(start: int, now: int): int {
    (start * SecondsPerDay - now) / SecondsPerDay
  }

  /** Counting from a midnight start date to a clock reading, the day count
      is the difference of the two dates, less one whenever the clock is
      past midnight: an event starting today counts as -1 days away except
      at the stroke of midnight. */
  lemma DaysUntilOfClock(start: int, day: int, seconds: int)
    requires 0 <= seconds < SecondsPerDay
    ensures Today(day * SecondsPerDay + seconds) == day
    ensures DaysUntil(start, day * SecondsPerDay + seconds) == start - day - (if seconds == 0 then 0 else 1)
  {
    DivIs(day * SecondsPerDay + seconds, SecondsPerDay, day);
    var q := start - day - (if seconds == 0 then 0 else 1);
    var x := start * SecondsPerDay - (day * SecondsPerDay + seconds);
    assert x == (start - day) * SecondsPerDay - seconds;
    if seconds == 0 {
      assert x == q * SecondsPerDay;
    } else {
      assert x == q * SecondsPerDay + (SecondsPerDay - seconds);
    }
    DivIs(x, SecondsPerDay, q);
  }

  // ---------------------------------------------------------------- loading

  /** The end date of a row whose start date parsed: a blank or missing
      'End Date' is the start date; otherwise it must parse. */
  function EndDate(row: Row, start: int, parseDate: string -> Option<int>): Option<int> {
    var text := Strip(Get(row, "End Date", ""));
    if text != [] then parseDate(text) else Some(start)
  }

  /** One row of `load_events`. */
  function RowEvent(row: Row, today: int, parseDate: string -> Option<int>): Option<Event> {
    if "Start Date" !in row then None
    else
      var start := parseDate(row["Start Date"]);
      if start.None? then None
      else
        var end := EndDate(row, start.value, parseDate);
        if end.None? || end.value < today then None
        else if "Event" !in row then None
        else Some(Event(row["Event"], start.value, end.value, Get(row, "City", "Unknown"), Get(row, "State", "Unknown"),
                        Get(row, "URL", ""), Get(row, "Source", "Unknown"), Get(row, "Type", "Event"),
                        Get(row, "Date Status", "Unknown")))
  }

  /** A row is skipped exactly when 'Start Date' or 'Event' is missing, a
      date does not parse, or the event ended before today; a kept row's
      optional columns take their defaults. */
  lemma RowEventCases(row: Row, today: int, parseDate: string -> Option<int>)
    ensures var e := RowEvent(row, today, parseDate);
            && (e.Some? <==>
                  && "Start Date" in row && "Event" in row && parseDate(row["Start Date"]).Some?
                  && EndDate(row, parseDate(row["Start Date"]).value, parseDate).Some?
                  && EndDate(row, parseDate(row["Start Date"]).value, parseDate).value >= today)
            && (e.Some? ==>
                  && e.value.name == row["Event"] && Some(e.value.start) == parseDate(row["Start Date"])
                  && Some(e.value.end) == EndDate(row, e.value.start, parseDate) && e.value.end >= today
                  && e.value.city == Get(row, "City", "Unknown") && e.value.state == Get(row, "State", "Unknown")
                  && e.value.url == Get(row, "URL", "") && e.value.kind == Get(row, "Type", "Event")
                  && e.value.dateStatus == Get(row, "Date Status", "Unknown"))
  {
  }

  /** The events of one file's rows, in row order. */
  function LoadedRows(rows: seq<Row>, today: int, parseDate: string -> Option<int>): seq<Event>
    decreases |rows|
  {
    if rows == [] then []
    else
      LoadedRows(rows[..|rows| - 1], today, parseDate) + Kept(RowEvent(rows[|rows| - 1], today, parseDate))
  }

  /** The event a row yields, as the list of what is appended. */
  function Kept(e: Option<Event>): seq<Event> {
    if e.Some? then [e.value] else []
  }

  /** The events of every file, file after file. */
  function LoadedFiles(files: seq<seq<Row>>, today: int, parseDate: string -> Option<int>): seq<Event>
    decreases |files|
  {
    if files == [] then []
    else LoadedFiles(files[..|files| - 1], today, parseDate) + LoadedRows(files[|files| - 1], today, parseDate)
  }

  /** Every event a file yields comes from one of its rows. */
  lemma {:induction false} LoadedRowsSound(rows: seq<Row>, today: int, parseDate: string -> Option<int>, e: Event)
    requires e in LoadedRows(rows, today, parseDate)
    ensures exists j :: 0 <= j < |rows| && RowEvent(rows[j], today, parseDate) == Some(e)
    decreases |rows|
  {
    var init := rows[..|rows| - 1];
    if e in LoadedRows(init, today, parseDate) {
      LoadedRowsSound(init, today, parseDate, e);
      var j :| 0 <= j < |init| && RowEvent(init[j], today, parseDate) == Some(e);
      assert rows[j] == init[j];
    } else {
      assert RowEvent(rows[|rows| - 1], today, parseDate) == Some(e);
    }
  }

  /** Every row's event is in the file's events. */
  lemma {:induction false} LoadedRowsComplete(rows: seq<Row>, today: int, parseDate: string -> Option<int>, j: int)
    requires 0 <= j < |rows| && RowEvent(rows[j], today, parseDate).Some?
    ensures RowEvent(rows[j], today, parseDate).value in LoadedRows(rows, today, parseDate)
    decreases |rows|
  {
    var init := rows[..|rows| - 1];
    if j < |init| {
      assert init[j] == rows[j];
      LoadedRowsComplete(init, today, parseDate, j);
    }
  }

  /** `load_events` keeps an event exactly when some row of some file
      yields it; so no loaded event ended before the day it was loaded. */
  lemma {:induction false} LoadedFilesSound(files: seq<seq<Row>>, today: int, parseDate: string -> Option<int>, e: Event)
    requires e in LoadedFiles(files, today, parseDate)
    ensures exists i, j :: 0 <= i < |files| && 0 <= j < |files[i]| && RowEvent(files[i][j], today, parseDate) == Some(e)
    ensures e.end >= today
    decreases |files|
  {
    var init := files[..|files| - 1];
    var last := files[|files| - 1];
    if e in LoadedFiles(init, today, parseDate) {
      LoadedFilesSound(init, today, parseDate, e);
      var i, j :| 0 <= i < |init| && 0 <= j < |init[i]| && RowEvent(init[i][j], today, parseDate) == Some(e);
      assert files[i] == init[i];
    } else {
      LoadedRowsSound(last, today, parseDate, e);
      var j :| 0 <= j < |last| && RowEvent(last[j], today, parseDate) == Some(e);
      RowEventCases(last[j], today, parseDate);
    }
  }

  /** Every row of every file that yields an event has it loaded. */
  lemma {:induction false} LoadedFilesComplete(files: seq<seq<Row>>, today: int, parseDate: string -> Option<int>, i: int, j: int)
    requires 0 <= i < |files| && 0 <= j < |files[i]| && RowEvent(files[i][j], today, parseDate).Some?
    ensures RowEvent(files[i][j], today, parseDate).value in LoadedFiles(files, today, parseDate)
    decreases |files|
  {
    var init := files[..|files| - 1];
    if i < |init| {
      assert init[i] == files[i];
      LoadedFilesComplete(init, today, parseDate, i, j);
    } else {
      LoadedRowsComplete(files[i], today, parseDate, j);
    }
  }

  // ---------------------------------------------------------------- ordering

  predicate SortedByStart(s: seq<Upcoming>) {
    forall i, j :: 0 <= i < j < |s| ==> s[i].event.start <= s[j].event.start
  }

  /** Places x after every entry that does not start later than it. */
  function Insert(s: seq<Upcoming>, x: Upcoming): seq<Upcoming> {
    if s == [] || x.event.start < s[0].event.start then [x] + s else [s[0]] + Insert(s[1..], x)
  }

  /** `list.sort(key=lambda x: x['start_date'])`: Python's sort is stable. */
  function SortByStart(s: seq<Upcoming>): seq<Upcoming>
    decreases |s|
  {
    if s == [] then [] else Insert(SortByStart(s[..|s| - 1]), s[|s| - 1])
  }

  /** The entries starting on day k, in order. */
  function OnDay(s: seq<Upcoming>, k: int): seq<Upcoming>
    decreases |s|
  {
    if s == [] then [] else (if s[0].event.start == k then [s[0]] else []) + OnDay(s[1..], k)
  }

  lemma {:induction false} OnDayAppend(a: seq<Upcoming>, b: seq<Upcoming>, k: int)
    ensures OnDay(a + b, k) == OnDay(a, k) + OnDay(b, k)
    decreases |a|
  {
    if a != [] {
      assert (a + b)[1..] == a[1..] + b;
      OnDayAppend(a[1..], b, k);
    } else {
      assert a + b == b;
    }
  }

  lemma {:induction false} InsertPerm(s: seq<Upcoming>, x: Upcoming)
    ensures multiset(Insert(s, x)) == multiset(s) + multiset{x}
    decreases |s|
  {
    if s != [] && x.event.start >= s[0].event.start {
      InsertPerm(s[1..], x);
      assert s == [s[0]] + s[1..];
    }
  }

  lemma {:induction false} InsertSorted(s: seq<Upcoming>, x: Upcoming)
    requires SortedByStart(s)
    ensures SortedByStart(Insert(s, x))
    decreases |s|
  {
    if s != [] && x.event.start >= s[0].event.start {
      InsertSorted(s[1..], x);
      InsertPerm(s[1..], x);
      var r := Insert(s[1..], x);
      forall i | 0 <= i < |r| ensures s[0].event.start <= r[i].event.start {
        assert r[i] in multiset(r);
        assert r[i] in multiset(s[1..]) || r[i] == x;
      }
    }
  }

  lemma {:induction false} InsertStable(s: seq<Upcoming>, x: Upcoming, k: int)
    requires SortedByStart(s)
    ensures OnDay(Insert(s, x), k) == OnDay(s, k) + (if x.event.start == k then [x] else [])
    decreases |s|
  {
    if s == [] || x.event.start < s[0].event.start {
      assert ([x] + s)[1..] == s;
      if x.event.start == k && s != [] {
        LaterDays(s, k);
      }
    } else {
      InsertStable(s[1..], x, k);
      assert ([s[0]] + Insert(s[1..], x))[1..] == Insert(s[1..], x);
    }
  }

  /** In a sorted sequence that starts after day k, nothing is on day k. */
  lemma {:induction false} LaterDays(s: seq<Upcoming>, k: int)
    requires SortedByStart(s) && s != [] && k < s[0].event.start
    ensures OnDay(s, k) == []
    decreases |s|
  {
    if |s| > 1 {
      LaterDays(s[1..], k);
    }
  }

  /** The sort orders by start date, is a permutation, and is stable: the
      entries of any one day keep their relative order. */
  lemma {:induction false} SortByStartSorted(s: seq<Upcoming>)
    ensures SortedByStart(SortByStart(s))
    ensures multiset(SortByStart(s)) == multiset(s)
    ensures forall k :: OnDay(SortByStart(s), k) == OnDay(s, k)
  {
    SortByStartOrdered(s);
    SortByStartPerm(s);
    SortByStartStable(s);
  }

  lemma {:induction false} SortByStartOrdered(s: seq<Upcoming>)
    ensures SortedByStart(SortByStart(s))
    decreases |s|
  {
    if s != [] {
      SortByStartOrdered(s[..|s| - 1]);
      InsertSorted(SortByStart(s[..|s| - 1]), s[|s| - 1]);
    }
  }

  lemma {:induction false} SortByStartPerm(s: seq<Upcoming>)
    ensures multiset(SortByStart(s)) == multiset(s)
    decreases |s|
  {
    if s != [] {
      var init := s[..|s| - 1];
      SortByStartPerm(init);
      InsertPerm(SortByStart(init), s[|s| - 1]);
      assert s == init + [s[|s| - 1]];
    }
  }

  lemma {:induction false} SortByStartStable(s: seq<Upcoming>)
    ensures forall k :: OnDay(SortByStart(s), k) == OnDay(s, k)
    decreases |s|
  {
    if s != [] {
      var init := s[..|s| - 1];
      var x := s[|s| - 1];
      SortByStartStable(init);
      SortByStartOrdered(init);
      assert s == init + [x];
      forall k ensures OnDay(SortByStart(s), k) == OnDay(s, k) {
        InsertStable(SortByStart(init), x, k);
        OnDayAppend(init, [x], k);
        assert [x][1..] == [];
      }
    }
  }

  lemma SortByStartMembers(s: seq<Upcoming>, u: Upcoming)
    ensures u in SortByStart(s) <==> u in s
  {
    SortByStartSorted(s);
    assert u in SortByStart(s) <==> u in multiset(SortByStart(s));
  }

  // ---------------------------------------------------------------- queries

  /** The annotated events with 0 <= days_until <= daysAhead, in order. */
  function Window(events: seq<Event>, now: int, daysAhead: int): (us: seq<Upcoming>)
    ensures forall u :: u in us <==>
              u.event in events && u.daysUntil == DaysUntil(u.event.start, now) && 0 <= u.daysUntil <= daysAhead
    decreases |events|
  {
    if events == [] then []
    else
      var init := Window(events[..|events| - 1], now, daysAhead);
      var e := events[|events| - 1];
      var d := DaysUntil(e.start, now);
      assert events == events[..|events| - 1] + [e];
      if 0 <= d <= daysAhead then init + [Upcoming(e, d)] else init
  }

  /** `get_upcoming_events` as a value. */
  function UpcomingOf(events: seq<Event>, now: int, daysAhead: int): seq<Upcoming> {
    SortByStart(Window(events, now, daysAhead))
  }

  /** The upcoming list is sorted by start date and holds exactly the
      events starting 0 to daysAhead days from now, each annotated with its
      day count. */
  lemma UpcomingExactly(events: seq<Event>, now: int, daysAhead: int, u: Upcoming)
    ensures SortedByStart(UpcomingOf(events, now, daysAhead))
    ensures u in UpcomingOf(events, now, daysAhead) <==>
              u.event in events && u.daysUntil == DaysUntil(u.event.start, now) && 0 <= u.daysUntil <= daysAhead
  {
    SortByStartSorted(Window(events, now, daysAhead));
    SortByStartMembers(Window(events, now, daysAhead), u);
  }

  /** An event that starts today is left out of every upcoming list unless
      the clock reads exactly midnight. */
  lemma StartingTodayNotUpcoming(events: seq<Event>, day: int, seconds: int, daysAhead: int, u: Upcoming)
    requires 0 < seconds < SecondsPerDay && u.event.start == day
    ensures u !in UpcomingOf(events, day * SecondsPerDay + seconds, daysAhead)
  {
    DaysUntilOfClock(day, day, seconds);
    UpcomingExactly(events, day * SecondsPerDay + seconds, daysAhead, u);
  }

  /** The events falling in week w from now, in order. */
  function Bucket(events: seq<Event>, now: int, w: int): (es: seq<Event>)
    ensures forall e :: e in es <==> e in events && DaysUntil(e.start, now) >= 0 && DaysUntil(e.start, now) / 7 == w
    decreases |events|
  {
    if events == [] then []
    else
      var init := Bucket(events[..|events| - 1], now, w);
      var e := events[|events| - 1];
      var d := DaysUntil(e.start, now);
      assert events == events[..|events| - 1] + [e];
      if d >= 0 && d / 7 == w then init + [e] else init
  }

  /** Week w of a non-negative day count d holds days 7w to 7w + 6. */
  lemma WeekOfDays(d: int, w: int)
    requires d >= 0
    ensures d / 7 == w <==> 7 * w <= d < 7 * w + 7
  {
    if 7 * w <= d < 7 * w + 7 {
      DivIs(d, 7, w);
    } else {
      DivIs(d, 7, d / 7);
    }
  }

  /** `get_events_by_timeframe`'s dictionary, built event by event. */
  function Buckets(events: seq<Event>, now: int, weeks: int): map<int, seq<Event>>
    decreases |events|
  {
    if events == [] then map[]
    else
      var m := Buckets(events[..|events| - 1], now, weeks);
      var e := events[|events| - 1];
      var d := DaysUntil(e.start, now);
      if d < 0 || d / 7 >= weeks then m
      else m[d / 7 := (if d / 7 in m then m[d / 7] else []) + [e]]
  }

  /** The dictionary has a key for each of the first `weeks` weeks that has
      an event, and that key holds exactly that week's events in order. */
  lemma {:induction false} BucketsAreWeeks(events: seq<Event>, now: int, weeks: int)
    ensures forall w :: w in Buckets(events, now, weeks) <==> 0 <= w < weeks && Bucket(events, now, w) != []
    ensures forall w :: w in Buckets(events, now, weeks) ==> Buckets(events, now, weeks)[w] == Bucket(events, now, w)
    decreases |events|
  {
    if events != [] {
      var init := events[..|events| - 1];
      BucketsAreWeeks(init, now, weeks);
      var e := events[|events| - 1];
      var d := DaysUntil(e.start, now);
      if d >= 0 {
        assert 0 <= d / 7;
      }
      forall w ensures Bucket(events, now, w) == Bucket(init, now, w) + (if d >= 0 && d / 7 == w then [e] else []) {
      }
    }
  }

  /** The keyword a type filter looks for, from the command's argument. */
  datatype TypeFilter = AllTypes | HamRadio | Cybersecurity | Custom(query: string)

  predicate Mentions(s: string, a: string, b: string) {
    Contains(Lower(s), a) || Contains(Lower(s), b)
  }

  /** The filter a command argument selects: none for a missing or empty
      argument; ham radio when it mentions "ham" or "radio"; else
      cybersecurity when it mentions "cyber" or "security"; else a
      lower-cased substring. */
  function FilterOf(eventType: Option<string>): (f: TypeFilter)
    ensures f == AllTypes <==> !Truthy(eventType)
    ensures f == HamRadio <==> Truthy(eventType) && Mentions(eventType.value, "ham", "radio")
    ensures f == Cybersecurity <==>
              Truthy(eventType) && !Mentions(eventType.value, "ham", "radio") && Mentions(eventType.value, "cyber", "security")
    ensures f.Custom? ==> f.query == Lower(eventType.value)
  {
    if !Truthy(eventType) then AllTypes
    else if Mentions(eventType.value, "ham", "radio") then HamRadio
    else if Mentions(eventType.value, "cyber", "security") then Cybersecurity
    else Custom(Lower(eventType.value))
  }

  /** Whether an event's type passes a filter; every test is on the
      lower-cased type. */
  predicate Keeps(f: TypeFilter, kind: string) {
    match f
    case AllTypes => true
    case HamRadio => Mentions(kind, "ham", "radio")
    case Cybersecurity => Mentions(kind, "cyber", "security")
    case Custom(q) => Contains(Lower(kind), q)
  }

  /** The list comprehension over the upcoming events. */
  function FilterByType(us: seq<Upcoming>, f: TypeFilter): (r: seq<Upcoming>)
    ensures forall u :: u in r <==> u in us && Keeps(f, u.event.kind)
    ensures |r| <= |us|
    ensures SortedByStart(us) ==> SortedByStart(r)
    decreases |us|
  {
    if us == [] then []
    else
      var rest := FilterByType(us[1..], f);
      assert forall u :: u in us <==> u == us[0] || u in us[1..];
      if Keeps(f, us[0].event.kind) then
        assert SortedByStart(us) ==> forall u :: u in rest ==> us[0].event.start <= u.event.start by {
          if SortedByStart(us) {
            forall u | u in rest ensures us[0].event.start <= u.event.start {
              var j :| 0 <= j < |us[1..]| && us[1..][j] == u;
              assert us[j + 1] == u;
            }
          }
        }
        [us[0]] + rest
      else rest
  }

  /** The label in the "no events" reply: `type_filter.lower()`. For a
      custom filter `title()` then `lower()` gives back the lower-cased
      argument. */
  function FilterLabel(f: TypeFilter): (name: string)
    ensures f.Custom? ==> name == f.query
    ensures !f.Custom? ==> name in {"all", "ham radio", "cybersecurity"}
  {
    match f
    case AllTypes => "all"
    case HamRadio => "ham radio"
    case Cybersecurity => "cybersecurity"
    case Custom(q) => q
  }

  /** A listing reply: a "nothing found" message, or the events it shows
      (`events`: the first ten of `total`; `allevents`: pages). */
  datatype Listing =
    | NoneFound(message: string)
    | Shown(first: seq<Upcoming>, total: nat)
    | Pages(pages: seq<seq<Upcoming>>, paginated: bool)

  function Min(a: int, b: int): int {
    if a <= b then a else b
  }

  /** The name, city and state test of `searchevent`. */
  predicate SearchMatches(e: Event, query: string) {
    Contains(Lower(e.name), Lower(query)) || Contains(Lower(e.city), Lower(query)) || Contains(Lower(e.state), Lower(query))
  }

  /** The annotated events the search keeps, in order; past events too. */
  function Hits(events: seq<Event>, query: string, now: int): (us: seq<Upcoming>)
    ensures forall u :: u in us <==>
              u.event in events && SearchMatches(u.event, query) && u.daysUntil == DaysUntil(u.event.start, now)
    decreases |events|
  {
    if events == [] then []
    else
      var init := Hits(events[..|events| - 1], query, now);
      var e := events[|events| - 1];
      assert events == events[..|events| - 1] + [e];
      if SearchMatches(e, query) then init + [Upcoming(e, DaysUntil(e.start, now))] else init
  }

  /** The search results are sorted by start date and are exactly the
      matching events. */
  lemma SearchExactly(events: seq<Event>, query: string, now: int, u: Upcoming)
    ensures SortedByStart(SortByStart(Hits(events, query, now)))
    ensures u in SortByStart(Hits(events, query, now)) <==>
              u.event in events && SearchMatches(u.event, query) && u.daysUntil == DaysUntil(u.event.start, now)
  {
    SortByStartSorted(Hits(events, query, now));
    SortByStartMembers(Hits(events, query, now), u);
  }

  /** The ceiling arithmetic behind the page count of `Paginate`: ceil(n / 5)
      pages of five cover n entries with fewer than five to spare, and
      there is a page as soon as there is an entry. */
  lemma PageCount(n: nat)
    ensures (n + 4) / 5 * 5 >= n && (n + 4) / 5 * 5 < n + 5
    ensures n > 0 ==> (n + 4) / 5 >= 1
  {
    DivIs(n + 4, 5, (n + 4) / 5);
  }

  // ---------------------------------------------------------------- reminders

  const Thresholds: seq<int> := [7, 3, 1]

  /** The entries exactly t days away. */
  function AtThreshold(us: seq<Upcoming>, t: int): (r: seq<Upcoming>)
    ensures forall u :: u in r <==> u in us && u.daysUntil == t
    decreases |us|
  {
    if us == [] then []
    else
      assert us == us[..|us| - 1] + [us[|us| - 1]];
      AtThreshold(us[..|us| - 1], t) + (if us[|us| - 1].daysUntil == t then [us[|us| - 1]] else [])
  }

  /** `check_upcoming_events` as written: for each threshold it asks for
      the events of the next day only, then keeps those the threshold's
      number of days away. */
  function RemindersAsWritten(events: seq<Event>, now: int): seq<seq<Upcoming>> {
    seq(|Thresholds|, i requires 0 <= i < |Thresholds| => AtThreshold(UpcomingOf(events, now, 1), Thresholds[i]))
  }

  /** The pass as intended: each threshold looks as far ahead as itself. */
  function RemindersIntended(events: seq<Event>, now: int): seq<seq<Upcoming>> {
    seq(|Thresholds|, i requires 0 <= i < |Thresholds| =>
      AtThreshold(UpcomingOf(events, now, Thresholds[i]), Thresholds[i]))
  }

  /** As written, the seven-day and three-day reminders can never fire. */
  lemma OnlyDayBeforeReminds(events: seq<Event>, now: int)
    ensures |RemindersAsWritten(events, now)| == 3
    ensures RemindersAsWritten(events, now)[0] == [] && RemindersAsWritten(events, now)[1] == []
  {
    var r := RemindersAsWritten(events, now);
    forall i | 0 <= i < 2 ensures r[i] == [] {
      if r[i] != [] {
        var u := r[i][0];
        assert u in r[i];
        UpcomingExactly(events, now, 1, u);
        assert false;
      }
    }
  }

  /** A conference a week away: the written pass stays silent where the
      intended one reminds. */
  lemma WeekAwayMissed()
    ensures var e := Event("DEF CON", 7, 10, "Las Vegas", "NV", "", "Unknown", "Cybersecurity", "Confirmed");
            RemindersAsWritten([e], 0)[0] == [] && RemindersIntended([e], 0)[0] == [Upcoming(e, 7)]
  {
    var e := Event("DEF CON", 7, 10, "Las Vegas", "NV", "", "Unknown", "Cybersecurity", "Confirmed");
    OnlyDayBeforeReminds([e], 0);
    assert DaysUntil(7, 0) == 7;
    assert Window([e], 0, 7) == [Upcoming(e, 7)] by {
      assert [e][..0] == [];
    }
    assert SortByStart([Upcoming(e, 7)]) == [Upcoming(e, 7)] by {
      assert [Upcoming(e, 7)][..0] == [];
    }
    var s := [Upcoming(e, 7)];
    assert s[..0] == [];
    assert AtThreshold(s, 7) == AtThreshold([], 7) + [Upcoming(e, 7)];
  }

  /** As intended, threshold t reminds of exactly the events t days away. */
  lemma IntendedRemindersExactly(events: seq<Event>, now: int, i: int, u: Upcoming)
    requires 0 <= i < |Thresholds|
    ensures u in RemindersIntended(events, now)[i] <==>
              u.event in events && u.daysUntil == Thresholds[i] && DaysUntil(u.event.start, now) == Thresholds[i]
  {
    UpcomingExactly(events, now, Thresholds[i], u);
  }

  /** The next event: the first entry of the next year's upcoming list. */
  function NextEvent(events: seq<Event>, now: int): (n: Option<Upcoming>)
    ensures n.None? <==> UpcomingOf(events, now, 365) == []
  {
    var us := UpcomingOf(events, now, 365);
    if us == [] then None else Some(us[0])
  }

  /** The next event starts no later than any event of the coming year. */
  lemma NextEventIsEarliest(events: seq<Event>, now: int, u: Upcoming)
    requires u in UpcomingOf(events, now, 365)
    ensures NextEvent(events, now).Some? && NextEvent(events, now).value.event.start <= u.event.start
    ensures NextEvent(events, now).value in UpcomingOf(events, now, 365)
  {
    UpcomingExactly(events, now, 365, u);
  }

  /** `nextevent`'s colour by days away: today, tomorrow, this week, later. */
  function NextEventColor(daysUntil: int): (c: int)
    ensures daysUntil == 0 <==> c == 0xFF0000
    ensures daysUntil == 1 <==> c == 0xFF6B00
    ensures (daysUntil < 0 || 2 <= daysUntil <= 7) <==> c == 0xFFB300
    ensures daysUntil > 7 <==> c == 0x4CAF50
  {
    if daysUntil == 0 then 0xFF0000
    else if daysUntil == 1 then 0xFF6B00
    else if daysUntil <= 7 then 0xFFB300
    else 0x4CAF50
  }

  // ---------------------------------------------------------------- the cog

  /** The cog: its one field is the list of loaded events. */
  class EventPingerCog {
    var events: seq<Event>

    /** The cog loads the events when it is created. */
    constructor (files: seq<seq<Row>>, now: int, parseDate: string -> Option<int>)
      ensures events == LoadedFiles(files, Today(now), parseDate)
    {
      events := [];
      new;
      LoadEvents(files, now, parseDate);
    }

    /** `load_events`: the list is reset, then each file's rows are read in
        turn. A file that cannot be read contributes the rows read before
        the failure, given here as its rows. */
    method LoadEvents(files: seq<seq<Row>>, now: int, parseDate: string -> Option<int>)
      modifies this
      ensures events == LoadedFiles(files, Today(now), parseDate)
    {
      var today := Today(now);
      events := [];
      var i := 0;
      while i < |files|
        invariant 0 <= i <= |files|
        invariant events == LoadedFiles(files[..i], today, parseDate)
      {
        LoadRows(files[i], today, parseDate);
        assert files[..i + 1][..i] == files[..i];
        i := i + 1;
      }
      assert files[..i] == files;
    }

    /** One file of `load_events`: each row that yields an event appends it. */
    method LoadRows(rows: seq<Row>, today: int, parseDate: string -> Option<int>)
      modifies this
      ensures events == old(events) + LoadedRows(rows, today, parseDate)
    {
      var j := 0;
      while j < |rows|
        invariant 0 <= j <= |rows|
        invariant events == old(events) + LoadedRows(rows[..j], today, parseDate)
      {
        var e := RowEvent(rows[j], today, parseDate);
        assert rows[..j + 1][..j] == rows[..j];
        assert LoadedRows(rows[..j + 1], today, parseDate) == LoadedRows(rows[..j], today, parseDate) + Kept(e);
        if e.Some? {
          events := events + [e.value];
        }
        j := j + 1;
      }
      assert rows[..j] == rows;
    }

    /** `get_upcoming_events`: annotated copies in a new list, sorted; the
        cog's events are left as they were. */
    method GetUpcomingEvents(daysAhead: int, now: int) returns (upcoming: seq<Upcoming>)
      ensures upcoming == UpcomingOf(events, now, daysAhead)
    {
      upcoming := [];
      var i := 0;
      while i < |events|
        invariant 0 <= i <= |events|
        invariant upcoming == Window(events[..i], now, daysAhead)
      {
        var e := events[i];
        var d := DaysUntil(e.start, now);
        assert events[..i + 1][..i] == events[..i];
        if 0 <= d <= daysAhead {
          upcoming := upcoming + [Upcoming(e, d)];
        }
        i := i + 1;
      }
      assert events[..i] == events;
      upcoming := SortByStart(upcoming);
    }

    /** `get_events_by_timeframe`. */
    method GetEventsByTimeframe(weeks: int, now: int) returns (byWeek: map<int, seq<Event>>)
      ensures byWeek == Buckets(events, now, weeks)
    {
      byWeek := map[];
      var i := 0;
      while i < |events|
        invariant 0 <= i <= |events|
        invariant byWeek == Buckets(events[..i], now, weeks)
      {
        var e := events[i];
        var d := DaysUntil(e.start, now);
        assert events[..i + 1][..i] == events[..i];
        if d >= 0 {
          var w := d / 7;
          if w < weeks {
            if w !in byWeek {
              byWeek := byWeek[w := []];
            }
            byWeek := byWeek[w := byWeek[w] + [e]];
          }
        }
        i := i + 1;
      }
      assert events[..i] == events;
    }

    /** `events`: the next `days` days through the type filter; at most ten
        are shown, and the footer counts them all. */
    method EventsList(days: int, eventType: Option<string>, now: int) returns (reply: Listing)
      ensures var shown := FilterByType(UpcomingOf(events, now, days), FilterOf(eventType));
              && (reply.NoneFound? <==> shown == [])
              && (reply.NoneFound? ==>
                    reply.message == "\U{1F4C5} No " + FilterLabel(FilterOf(eventType)) + " events found in the next "
                                     + IntToString(days) + " days.")
              && (!reply.NoneFound? ==> reply == Shown(shown[..Min(10, |shown|)], |shown|))
    {
      var upcoming := GetUpcomingEvents(days, now);
      var f := FilterOf(eventType);
      upcoming := FilterByType(upcoming, f);
      if upcoming == [] {
        reply := NoneFound("\U{1F4C5} No " + FilterLabel(f) + " events found in the next " + IntToString(days) + " days.");
      } else {
        reply := Shown(upcoming[..Min(10, |upcoming|)], |upcoming|);
      }
    }

    /** `allevents`: the coming year's events through the type filter, cut
        into pages of five; the paginator is attached only for more than
        one page. */
    method AllEvents(eventType: Option<string>, now: int) returns (reply: Listing)
      ensures var shown := FilterByType(UpcomingOf(events, now, 365), FilterOf(eventType));
              && (reply.NoneFound? <==> shown == [])
              && (reply.NoneFound? ==>
                    reply.message == "\U{1F4C5} No " + FilterLabel(FilterOf(eventType)) + " events found in the database.")
              && (reply.Pages? ==> reply.pages == PagesOf(shown) && (reply.paginated <==> |shown| > 5))
              && (shown != [] ==> reply == Pages(PagesOf(shown), |shown| > 5))
    {
      var upcoming := GetUpcomingEvents(365, now);
      var f := FilterOf(eventType);
      upcoming := FilterByType(upcoming, f);
      if upcoming == [] {
        reply := NoneFound("\U{1F4C5} No " + FilterLabel(f) + " events found in the database.");
      } else {
        var pages := Paginate(upcoming);
        PageCount(|upcoming|);
        reply := Pages(pages, |pages| > 1);
      }
    }

    /** `searchevent`: the matching events, annotated and sorted. */
    method SearchEvent(query: string, now: int) returns (matches: seq<Upcoming>)
      ensures matches == SortByStart(Hits(events, query, now))
    {
      matches := [];
      var i := 0;
      while i < |events|
        invariant 0 <= i <= |events|
        invariant matches == Hits(events[..i], query, now)
      {
        var e := events[i];
        assert events[..i + 1][..i] == events[..i];
        if SearchMatches(e, query) {
          matches := matches + [Upcoming(e, DaysUntil(e.start, now))];
        }
        i := i + 1;
      }
      assert events[..i] == events;
      matches := SortByStart(matches);
    }
  }

  /** The pages of `allevents`: page p holds entries 5p to 5p + 4. */
  function PagesOf(us: seq<Upcoming>): seq<seq<Upcoming>> {
    seq((|us| + 4) / 5, p requires 0 <= p < (|us| + 4) / 5 => us[5 * p..Min(5 * p + 5, |us|)])
  }

  /** The page loop `for page_num in range(0, len(upcoming), 5)`: ceil(n/5)
      pages, each a non-empty run of at most five entries in order. */
  method Paginate(us: seq<Upcoming>) returns (pages: seq<seq<Upcoming>>)
    ensures pages == PagesOf(us)
    ensures |pages| == (|us| + 4) / 5
    ensures |us| > 0 ==> |pages| >= 1
    ensures forall p :: 0 <= p < |pages| ==> 1 <= |pages[p]| <= 5
  {
    pages := [];
    var pageNum := 0;
    while pageNum < |us|
      invariant pageNum == 5 * |pages| && pageNum <= |us| + 4
      invariant forall p :: 0 <= p < |pages| ==> 5 * p < |us| && pages[p] == us[5 * p..Min(5 * p + 5, |us|)]
    {
      pages := pages + [us[pageNum..Min(pageNum + 5, |us|)]];
      pageNum := pageNum + 5;
    }
    DivIs(|us| + 4, 5, |pages|);
  }

  /** `EventPaginatorView`: the page shown and the four navigation
      buttons' disabled flags. */
  class EventPaginatorView {
    const pageCount: int
    var currentPage: int
    var firstDisabled: bool
    var prevDisabled: bool
    var nextDisabled: bool
    var lastDisabled: bool

    /** The buttons match the page, and while there is a page the index
        stays on one. */
    predicate Valid()
      reads this
    {
      && firstDisabled == (currentPage == 0) && prevDisabled == (currentPage == 0)
      && nextDisabled == (currentPage >= pageCount - 1) && lastDisabled == (currentPage >= pageCount - 1)
      && (pageCount >= 1 ==> 0 <= currentPage < pageCount)
    }

    constructor (embeds: nat)
      ensures pageCount == embeds && currentPage == 0 && Valid()
    {
      pageCount := embeds;
      currentPage := 0;
      new;
      UpdateButtons();
    }

    /** `_update_buttons`. */
    method UpdateButtons()
      modifies this
      ensures currentPage == old(currentPage)
      ensures firstDisabled == (currentPage == 0) && prevDisabled == (currentPage == 0)
      ensures nextDisabled == (currentPage >= pageCount - 1) && lastDisabled == (currentPage >= pageCount - 1)
    {
      firstDisabled := currentPage == 0;
      prevDisabled := currentPage == 0;
      nextDisabled := currentPage >= pageCount - 1;
      lastDisabled := currentPage >= pageCount - 1;
    }

    method FirstPage()
      requires Valid()
      modifies this
      ensures Valid() && currentPage == 0
    {
      currentPage := 0;
      UpdateButtons();
    }

    /** Steps back, never below the first page. */
    method PrevPage()
      requires Valid()
      modifies this
      ensures Valid() && currentPage == if old(currentPage) - 1 < 0 then 0 else old(currentPage) - 1
    {
      currentPage := if currentPage - 1 < 0 then 0 else currentPage - 1;
      UpdateButtons();
    }

    /** Steps on, never past the last page. */
    method NextPage()
      requires Valid()
      modifies this
      ensures Valid()
      ensures currentPage == Min(pageCount - 1, old(currentPage) + 1)
    {
      currentPage := Min(pageCount - 1, currentPage + 1);
      UpdateButtons();
    }

    method LastPage()
      requires Valid()
      modifies this
      ensures Valid() && currentPage == pageCount - 1
    {
      currentPage := pageCount - 1;
      UpdateButtons();
    }
  }
}
