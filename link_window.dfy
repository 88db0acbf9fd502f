/** The "last 50 links per source" scheme the general-news and
    EU-legislation cogs share: the recency test on an item's publication
    date, the choice of the first recent item whose link has not been
    posted, and the per-source window of posted links. */
module LinkWindow {
  import opened Common
  import opened FeedItems

  const WindowSize: nat := 50
  const ItemsExamined: nat := 10

  /** An item once its fields are resolved: recency, title, link and the
      truncated description. */
  datatype Entry = Entry(recent: bool, title: string, link: string, description: string)

  /** What `_fetch_rss_feed` returns: the item's title, link, description
      and the source's key. */
  datatype Found = Found(title: string, link: string, description: string, source: string)

  /** The links posted for a source so far (none when it has no list). */
  function Window(posted: map<string, seq<string>>, key: string): seq<string> {
    if key in posted then posted[key] else []
  }

  /** `items[:10]`. */
  function Examine<T>(items: seq<T>): (r: seq<T>)
    ensures |r| <= ItemsExamined && |r| <= |items| && r == items[..|r|]
    ensures |items| <= ItemsExamined ==> r == items
  {
    if |items| > ItemsExamined then items[..ItemsExamined] else items
  }

  predicate Fresh(e: Entry, window: seq<string>) {
    e.recent && e.link !in window
  }

  /** The index of the first recent entry whose link is not in the window. */
  function FirstFresh(entries: seq<Entry>, window: seq<string>): (r: Option<nat>)
    ensures r.Some? ==> r.value < |entries| && Fresh(entries[r.value], window)
    ensures r.Some? ==> forall j :: 0 <= j < r.value ==> !Fresh(entries[j], window)
    ensures r.None? ==> forall j :: 0 <= j < |entries| ==> !Fresh(entries[j], window)
  {
    if entries == [] then None
    else if Fresh(entries[0], window) then Some(0)
    else
      match FirstFresh(entries[1..], window)
      case None => None
      case Some(i) => Some(i + 1)
  }

  /** Some entry among the first `n` is recent; reaching a recent entry is
      what creates the source's (possibly empty) list. */
  predicate RecentAmong(entries: seq<Entry>, n: nat) {
    exists j :: 0 <= j < n && j < |entries| && entries[j].recent
  }

  /** The posted-links map after one fetch that examined `entries`. */
  function After(posted: map<string, seq<string>>, key: string, entries: seq<Entry>): (r: map<string, seq<string>>)
    ensures r.Keys == posted.Keys || r.Keys == posted.Keys + {key}
    ensures forall k :: k in posted && k != key ==> k in r && r[k] == posted[k]
    ensures |Window(posted, key)| <= WindowSize ==> |Window(r, key)| <= WindowSize
  {
    match FirstFresh(entries, Window(posted, key))
    case Some(i) => posted[key := AppendKeepLast(Window(posted, key), entries[i].link, WindowSize)]
    case None => if key !in posted && RecentAmong(entries, |entries|) then posted[key := []] else posted
  }

  /** The item loop of `_fetch_rss_feed`: skip entries that are not recent,
      then those whose link is already posted; stop at the first other one.
      `sawRecent` tells whether a recent entry was reached before stopping. */
  method Scan(entries: seq<Entry>, window: seq<string>) returns (r: Option<nat>, sawRecent: bool)
    ensures r == FirstFresh(entries, window)
    ensures sawRecent <==> RecentAmong(entries, if r.Some? then r.value + 1 else |entries|)
  {
    var i := 0;
    sawRecent := false;
    while i < |entries|
      invariant 0 <= i <= |entries|
      invariant forall j :: 0 <= j < i ==> !Fresh(entries[j], window)
      invariant sawRecent <==> RecentAmong(entries, i)
    {
      if entries[i].recent {
        sawRecent := true;
        if entries[i].link !in window {
          r := Some(i);
          FirstFreshIs(entries, window, i);
          return;
        }
      }
      i := i + 1;
    }
    r := None;
    FirstFreshNone(entries, window);
  }

  lemma {:induction false} FirstFreshIs(entries: seq<Entry>, window: seq<string>, i: nat)
    requires i < |entries| && Fresh(entries[i], window)
    requires forall j :: 0 <= j < i ==> !Fresh(entries[j], window)
    ensures FirstFresh(entries, window) == Some(i)
  {
    if i > 0 {
      FirstFreshIs(entries[1..], window, i - 1);
    }
  }

  lemma {:induction false} FirstFreshNone(entries: seq<Entry>, window: seq<string>)
    requires forall j :: 0 <= j < |entries| ==> !Fresh(entries[j], window)
    ensures FirstFresh(entries, window) == None
  {
    if entries != [] {
      FirstFreshNone(entries[1..], window);
    }
  }

  /** The fetch's two updates, in the order the loop makes them: reaching
      a recent entry creates the source's list, choosing an entry appends its
      link and keeps the last 50. Together they are `After`. */
  function Touched(posted: map<string, seq<string>>, key: string, sawRecent: bool): map<string, seq<string>> {
    if sawRecent && key !in posted then posted[key := []] else posted
  }

  lemma AfterSteps(posted: map<string, seq<string>>, key: string, es: seq<Entry>, idx: Option<nat>, sawRecent: bool)
    requires idx == FirstFresh(es, Window(posted, key))
    requires sawRecent <==> RecentAmong(es, if idx.Some? then idx.value + 1 else |es|)
    ensures var p1 := Touched(posted, key, sawRecent);
            After(posted, key, es)
            == if idx.Some? then p1[key := AppendKeepLast(Window(p1, key), es[idx.value].link, WindowSize)] else p1
  {
    if idx.Some? {
      AfterChosen(posted, key, es, idx.value, sawRecent);
    }
  }

  lemma AfterChosen(posted: map<string, seq<string>>, key: string, es: seq<Entry>, i: nat, sawRecent: bool)
    requires Some(i) == FirstFresh(es, Window(posted, key))
    ensures var p1 := Touched(posted, key, sawRecent);
            After(posted, key, es) == p1[key := AppendKeepLast(Window(p1, key), es[i].link, WindowSize)]
  {
    var p1 := Touched(posted, key, sawRecent);
    assert Window(p1, key) == Window(posted, key);
    var w := AppendKeepLast(Window(posted, key), es[i].link, WindowSize);
    assert After(posted, key, es) == posted[key := w];
    OverwriteKey(posted, key, sawRecent && key !in posted, w);
  }

  /** Setting a key forgets whether it was set to `[]` just before. */
  lemma OverwriteKey(m: map<string, seq<string>>, key: string, touched: bool, w: seq<string>)
    ensures (if touched then m[key := []] else m)[key := w] == m[key := w]
  {
    if touched {
      var a, b := m[key := []][key := w], m[key := w];
      assert a.Keys == b.Keys;
      assert forall k :: k in a ==> a[k] == b[k];
    }
  }

  /** Never re-post: the chosen link was not posted for the source before,
      and afterwards it is the newest entry of a window of at most 50. */
  lemma ChosenLinkRecorded(posted: map<string, seq<string>>, key: string, entries: seq<Entry>)
    requires FirstFresh(entries, Window(posted, key)).Some?
    ensures var i := FirstFresh(entries, Window(posted, key)).value;
            var w := Window(After(posted, key, entries), key);
            && entries[i].link !in Window(posted, key)
            && |w| <= WindowSize && |w| > 0 && w[|w| - 1] == entries[i].link
  {
  }

  /** The next fetch for the same source cannot return the link just
      posted, whatever its feed then contains. */
  lemma {:induction false} NoImmediateRepost(posted: map<string, seq<string>>, key: string,
                                             entries: seq<Entry>, next: seq<Entry>)
    requires FirstFresh(entries, Window(posted, key)).Some?
    requires FirstFresh(next, Window(After(posted, key, entries), key)).Some?
    ensures var i := FirstFresh(entries, Window(posted, key)).value;
            var k := FirstFresh(next, Window(After(posted, key, entries), key)).value;
            next[k].link != entries[i].link
  {
    var i := FirstFresh(entries, Window(posted, key)).value;
    var w := Window(After(posted, key, entries), key);
    assert w[|w| - 1] == entries[i].link;
  }

  /** A fetch that finds nothing fresh records no link: the source's list is
      unchanged, apart from being created empty. */
  lemma NothingFreshRecordsNothing(posted: map<string, seq<string>>, key: string, entries: seq<Entry>)
    requires FirstFresh(entries, Window(posted, key)).None?
    ensures Window(After(posted, key, entries), key) == Window(posted, key)
  {
  }

  /** Where an auto-poster pass stands: the items found so far and the
      posted-links map. */
  datatype Pass = Pass(found: seq<Found>, posted: map<string, seq<string>>)

  /** One source's turn: a key with examined entries is fetched, what it
      finds is added to the results and its window is updated; a key the
      table does not know changes nothing. */
  function PassStep(p: Pass, key: string, examined: map<string, seq<Entry>>): Pass {
    if key !in examined then p
    else
      var es := examined[key];
      match FirstFresh(es, Window(p.posted, key))
      case Some(i) => Pass(p.found + [Found(es[i].title, es[i].link, es[i].description, key)], After(p.posted, key, es))
      case None => Pass(p.found, After(p.posted, key, es))
  }

  /** A pass over `keys`, in order, from the posted-links map `posted`. */
  function Walk(keys: seq<string>, examined: map<string, seq<Entry>>, posted: map<string, seq<string>>): Pass
    decreases |keys|
  {
    if keys == [] then Pass([], posted)
    else PassStep(Walk(keys[..|keys| - 1], examined, posted), keys[|keys| - 1], examined)
  }

  lemma WalkSnoc(keys: seq<string>, i: nat, examined: map<string, seq<Entry>>, posted: map<string, seq<string>>)
    requires i < |keys|
    ensures Walk(keys[..i + 1], examined, posted) == PassStep(Walk(keys[..i], examined, posted), keys[i], examined)
  {
    assert keys[..i + 1][..i] == keys[..i];
  }

  lemma WalkAppend(front: seq<string>, key: string, examined: map<string, seq<Entry>>, posted: map<string, seq<string>>)
    ensures Walk(front + [key], examined, posted) == PassStep(Walk(front, examined, posted), key, examined)
  {
    assert (front + [key])[..|front|] == front;
  }

  /** Every item a pass finds comes from a visited key the table knows,
      and a pass finds at most one item per visited key. */
  lemma {:induction false} WalkFoundFromKeys(keys: seq<string>, examined: map<string, seq<Entry>>, posted: map<string, seq<string>>)
    ensures |Walk(keys, examined, posted).found| <= |keys|
    ensures forall f :: f in Walk(keys, examined, posted).found ==> f.source in keys && f.source in examined
  {
    if keys != [] {
      var front := keys[..|keys| - 1];
      WalkFoundFromKeys(front, examined, posted);
      assert forall k :: k in front ==> k in keys;
    }
  }

  /** A pass leaves the window of every source it does not fetch as it
      was. */
  lemma {:induction false} WalkKeepsOthers(keys: seq<string>, examined: map<string, seq<Entry>>, posted: map<string, seq<string>>)
    ensures forall k :: k in posted && !(k in keys && k in examined) ==>
              k in Walk(keys, examined, posted).posted && Walk(keys, examined, posted).posted[k] == posted[k]
  {
    if keys != [] {
      var front := keys[..|keys| - 1];
      WalkKeepsOthers(front, examined, posted);
      assert forall k :: k in front ==> k in keys;
    }
  }

  /** A pass keeps every window within 50 links. */
  lemma {:induction false} WalkKeepsBound(keys: seq<string>, examined: map<string, seq<Entry>>, posted: map<string, seq<string>>)
    requires forall k :: k in posted ==> |posted[k]| <= WindowSize
    ensures forall k :: k in Walk(keys, examined, posted).posted ==> |Walk(keys, examined, posted).posted[k]| <= WindowSize
  {
    if keys != [] {
      var front, key := keys[..|keys| - 1], keys[|keys| - 1];
      WalkKeepsBound(front, examined, posted);
      var before := Walk(front, examined, posted).posted;
      if key in examined {
        StepKeepsBound(before, key, examined[key]);
      }
    }
  }

  lemma StepKeepsBound(before: map<string, seq<string>>, key: string, es: seq<Entry>)
    requires forall k :: k in before ==> |before[k]| <= WindowSize
    ensures forall k :: k in After(before, key, es) ==> |After(before, key, es)[k]| <= WindowSize
  {
    var after := After(before, key, es);
    forall k | k in after
      ensures |after[k]| <= WindowSize
    {
      if k == key {
        assert |Window(before, key)| <= WindowSize;
        assert after[k] == Window(after, key);
      } else {
        assert k in before;
      }
    }
  }

  /** Never re-post within a pass: when every source is visited once,
      the link of each item found is the newest of its source's window
      once the pass is over. */
  lemma {:induction false} WalkRecordsFound(keys: seq<string>, examined: map<string, seq<Entry>>, posted: map<string, seq<string>>)
    requires forall i, j :: 0 <= i < j < |keys| ==> keys[i] != keys[j]
    ensures forall f :: f in Walk(keys, examined, posted).found ==>
              var w := Window(Walk(keys, examined, posted).posted, f.source); |w| > 0 && w[|w| - 1] == f.link
  {
    if keys != [] {
      var front, key := keys[..|keys| - 1], keys[|keys| - 1];
      WalkRecordsFound(front, examined, posted);
      WalkFoundFromKeys(front, examined, posted);
      var p := Walk(front, examined, posted);
      assert key !in front;
      if key in examined {
        var es := examined[key];
        var after := After(p.posted, key, es);
        forall f | f in p.found
          ensures Window(after, f.source) == Window(p.posted, f.source)
        {
          assert f.source != key;
          assert f.source in p.posted;
        }
        if FirstFresh(es, Window(p.posted, key)).Some? {
          ChosenLinkRecorded(p.posted, key, es);
        }
      }
    }
  }
}
