/** URLs in the social platforms' messages: the pattern `https?://[^\s]+`
    (find the first match, or replace every match), and the hostname
    `urllib.parse.urlparse` reports for a URL. */
module Links {
  import opened Common

  /** The scheme the pattern accepts at the start of `s`: "https://" or
      "http://" (8 or 7 characters), else 0. */
  function SchemeLength(s: string): (k: nat)
    ensures k == 0 || k == 7 || k == 8
    ensures k > 0 ==> k <= |s| && StartsWith(s, "http")
  {
    if StartsWith(s, "https://") then
      assert s[..8][..4] == s[..4];
      8
    else if StartsWith(s, "http://") then
      assert s[..7][..4] == s[..4];
      7
    else 0
  }

  /** The length of the pattern's match at the start of `s`, 0 for none:
      the scheme and then every non-whitespace character that follows, at
      least one. */
  function UrlPrefix(s: string): (n: nat)
    ensures n <= |s|
    ensures n > 0 ==> IsUrl(s[..n]) && (n == |s| || IsSpace(s[n]))
  {
    var k := SchemeLength(s);
    if k == 0 then 0
    else
      var w := WordLength(s[k..]);
      if w == 0 then 0
      else
        assert s[..k + w][..4] == s[..4];
        assert forall j :: 0 <= j < k ==> s[j] == s[..k][j];
        k + w
  }

  /** A whole match of the pattern: a scheme, at least one more character,
      and no whitespace. */
  predicate IsUrl(u: string) {
    && |u| > 7 && StartsWith(u, "http")
    && forall j :: 0 <= j < |u| ==> !IsSpace(u[j])
  }

  /** A match starts with "http://" or "https://" and runs to the next
      whitespace or the end. */
  lemma {:induction false} UrlPrefixOfUrl(scheme: string, w: string, rest: string)
    requires scheme == "http://" || scheme == "https://"
    requires IsWord(w) && (rest == [] || IsSpace(rest[0]))
    ensures UrlPrefix(scheme + w + rest) == |scheme| + |w|
  {
    var s := scheme + w + rest;
    assert s[..|scheme|] == scheme;
    assert SchemeLength(s) == |scheme| by {
      if scheme == "http://" {
        assert s[4] == ':';
        assert !StartsWith(s, "https://") by { assert s[..8][4] == ':'; }
      }
    }
    assert s[|scheme|..] == w + rest;
    WordLengthOfWord(w, rest);
  }

  /** `re.search`: the position of the first match at or after `from`. */
  function FindUrl(s: string, from: nat): (r: Option<nat>)
    requires from <= |s|
    ensures r.Some? ==> from <= r.value < |s| && UrlPrefix(s[r.value..]) > 0
    ensures r.Some? ==> forall j :: from <= j < r.value ==> NoUrlAt(s, j)
    ensures r.None? ==> forall j :: from <= j < |s| ==> NoUrlAt(s, j)
    decreases |s| - from
  {
    if from == |s| then None
    else if UrlPrefix(s[from..]) > 0 then Some(from)
    else FindUrl(s, from + 1)
  }

  /** No match of the pattern starts at position `j`. */
  predicate NoUrlAt(s: string, j: nat)
    requires j <= |s|
  {
    UrlPrefix(s[j..]) == 0
  }

  /** The first URL of a message, if it has one. */
  function FirstUrl(s: string): (u: Option<string>)
    ensures u.Some? ==> IsUrl(u.value) && exists i :: 0 <= i < |s| && OccursAt(s, u.value, i)
    ensures u.None? <==> forall j :: 0 <= j < |s| ==> NoUrlAt(s, j)
  {
    match FindUrl(s, 0)
    case None => None
    case Some(i) =>
      var n := UrlPrefix(s[i..]);
      assert !NoUrlAt(s, i);
      assert s[i..][..n] == s[i..i + n];
      assert OccursAt(s, s[i..i + n], i);
      Some(s[i..i + n])
  }

  /** `re.sub(pattern, f(match), s)`: every match, left to right and not
      overlapping, replaced by `f` of its text. */
  function Substitute(s: string, f: string -> string): (r: string)
    decreases |s|
  {
    if s == [] then []
    else
      var n := UrlPrefix(s);
      if n > 0 then f(s[..n]) + Substitute(s[n..], f) else [s[0]] + Substitute(s[1..], f)
  }

  /** A text without a URL is left as it is. */
  lemma {:induction false} SubstituteNoUrl(s: string, f: string -> string)
    requires forall j :: 0 <= j < |s| ==> NoUrlAt(s, j)
    ensures Substitute(s, f) == s
    decreases |s|
  {
    if s != [] {
      assert NoUrlAt(s, 0);
      assert s[0..] == s;
      forall j | 0 <= j < |s[1..]|
        ensures NoUrlAt(s[1..], j)
      {
        assert NoUrlAt(s, j + 1);
        assert s[1..][j..] == s[j + 1..];
      }
      SubstituteNoUrl(s[1..], f);
    }
  }

  /** A URL at the start, followed by whitespace or nothing, is replaced
      whole. */
  lemma SubstituteUrl(scheme: string, w: string, rest: string, f: string -> string)
    requires scheme == "http://" || scheme == "https://"
    requires IsWord(w) && (rest == [] || IsSpace(rest[0]))
    ensures Substitute(scheme + w + rest, f) == f(scheme + w) + Substitute(rest, f)
  {
    var s := scheme + w + rest;
    UrlPrefixOfUrl(scheme, w, rest);
    assert s[..|scheme| + |w|] == scheme + w;
    assert s[|scheme| + |w|..] == rest;
  }

  /** A whitespace character is copied. */
  lemma SubstituteSpace(c: char, rest: string, f: string -> string)
    requires IsSpace(c)
    ensures Substitute([c] + rest, f) == [c] + Substitute(rest, f)
  {
    assert ([c] + rest)[1..] == rest;
    assert UrlPrefix([c] + rest) == 0 by {
      assert !StartsWith([c] + rest, "http") by { assert ([c] + rest)[0] == c; }
    }
  }

  // ---------------------------------------------------------------------
  // urlparse(url).hostname

  predicate IsAsciiLetter(c: char) {
    'a' <= c <= 'z' || 'A' <= c <= 'Z'
  }

  /** The characters `urlsplit` accepts in a scheme. */
  predicate IsSchemeChar(c: char) {
    IsAsciiLetter(c) || IsDigit(c) || c == '+' || c == '-' || c == '.'
  }

  /** What follows the scheme and its colon; the whole text when the part
      before the first colon is not a scheme (empty, not starting with a
      letter, or holding another character). */
  function AfterScheme(url: string): (rest: string)
    ensures |rest| <= |url|
  {
    if ':' in url then
      var i := FirstIndex(url, ':');
      if i > 0 && IsAsciiLetter(url[0]) && forall j :: 0 <= j < i ==> IsSchemeChar(url[j]) then url[i + 1..]
      else url
    else url
  }

  /** The index of the first character of `s` in `stops`, or `|s|`. */
  function FirstOf(s: string, stops: set<char>): (i: nat)
    ensures i <= |s| && (i < |s| ==> s[i] in stops)
    ensures forall j :: 0 <= j < i ==> s[j] !in stops
  {
    if s == [] then 0
    else if s[0] in stops then 0
    else 1 + FirstOf(s[1..], stops)
  }

  /** The network location: after "//", up to the first '/', '?' or '#';
      empty without "//". */
  function NetLoc(url: string): (n: string)
    ensures '/' !in n && '?' !in n && '#' !in n
  {
    Authority(AfterScheme(url))
  }

  /** The authority at the head of what follows the scheme. */
  function Authority(rest: string): (n: string)
    ensures '/' !in n && '?' !in n && '#' !in n
  {
    if StartsWith(rest, "//") then
      var tail := rest[2..];
      tail[..FirstOf(tail, {'/', '?', '#'})]
    else ""
  }

  /** The part of `s` after its last `c`, the whole of `s` without one
      (`rpartition(c)[2]`). */
  function AfterLast(s: string, c: char): (r: string)
    ensures c !in r
    ensures |r| <= |s| && r == s[|s| - |r|..]
    decreases |s|
  {
    if s == [] then []
    else if s[|s| - 1] == c then []
    else
      var r := AfterLast(s[..|s| - 1], c);
      r + [s[|s| - 1]]
  }

  /** The part of `s` before its first `c` (`partition(c)[0]`). */
  function BeforeFirst(s: string, c: char): (r: string)
    ensures c !in r && StartsWith(s, r)
    ensures c !in s ==> r == s
  {
    if c in s then
      var i := FirstIndex(s, c);
      assert s[..i][..i] == s[..i];
      s[..i]
    else s
  }

  /** `urlparse(url).hostname`: the network location without user
      information and port, in lower case; None when empty. */
  function Hostname(url: string): (h: Option<string>)
    ensures h.Some? ==> h.value != "" && Lower(h.value) == h.value
    ensures h.Some? ==> forall c :: c in h.value ==> c !in {'/', '?', '#', '@', ':'}
  {
    var host := BeforeFirst(AfterLast(NetLoc(url), '@'), ':');
    if host == "" then None
    else
      LowerIdempotent(host);
      Some(Lower(host))
  }

  /** A lower-case host name (no '/', '?', '#', '@' or ':') right after
      "http://" or "https://" and followed by a path, or nothing, is the
      URL's hostname. */
  lemma HostnameOfUrl(scheme: string, host: string, path: string)
    requires scheme == "http://" || scheme == "https://"
    requires host != "" && Lower(host) == host
    requires forall c :: c in host ==> c !in {'/', '?', '#', '@', ':'}
    requires path == [] || path[0] == '/'
    ensures Hostname(scheme + host + path) == Some(host)
  {
    NetLocOfUrl(scheme, host, path);
    assert '@' !in host && ':' !in host;
    AfterLastAbsent(host, '@');
  }

  /** The network location of such a URL is its host. */
  lemma NetLocOfUrl(scheme: string, host: string, path: string)
    requires scheme == "http://" || scheme == "https://"
    requires forall c :: c in host ==> c !in {'/', '?', '#'}
    requires path == [] || path[0] == '/'
    ensures NetLoc(scheme + host + path) == host
  {
    var tail := host + path;
    assert scheme + host + path == scheme + tail;
    AfterHttpScheme(scheme, tail);
    NetLocOfHost(host, path);
  }

  /** "http:" and "https:" are schemes. */
  lemma AfterHttpScheme(scheme: string, tail: string)
    requires scheme == "http://" || scheme == "https://"
    ensures AfterScheme(scheme + tail) == "//" + tail
  {
    var url := scheme + tail;
    var k := |scheme| - 3;
    assert url[k] == ':';
    assert url[..k] == scheme[..k] && ':' !in scheme[..k];
    assert forall i :: 0 <= i < k ==> url[i] == url[..k][i];
    assert forall j :: 0 <= j < k ==> IsSchemeChar(url[j]);
    assert IsAsciiLetter(url[0]);
    assert url[k + 1..] == "//" + tail;
  }

  /** The network location after "//" ends where the host does. */
  lemma NetLocOfHost(host: string, path: string)
    requires forall c :: c in host ==> c !in {'/', '?', '#'}
    requires path == [] || path[0] == '/'
    ensures Authority("//" + (host + path)) == host
  {
    var tail := host + path;
    assert ("//" + tail)[2..] == tail;
    forall j | 0 <= j < |host|
      ensures tail[j] !in {'/', '?', '#'}
    {
      assert tail[j] == host[j] && host[j] in host;
    }
    FirstOfIs(tail, {'/', '?', '#'}, |host|);
    assert tail[..|host|] == host;
  }

  /** The first stop is where the scan ends. */
  lemma {:induction false} FirstOfIs(s: string, stops: set<char>, i: nat)
    requires i <= |s| && (i < |s| ==> s[i] in stops)
    requires forall j :: 0 <= j < i ==> s[j] !in stops
    ensures FirstOf(s, stops) == i
    decreases i
  {
    if i > 0 {
      FirstOfIs(s[1..], stops, i - 1);
    }
  }

  lemma {:induction false} AfterLastAbsent(s: string, c: char)
    requires c !in s
    ensures AfterLast(s, c) == s
    decreases |s|
  {
    if s != [] {
      assert c !in s[..|s| - 1];
      AfterLastAbsent(s[..|s| - 1], c);
      assert s[..|s| - 1] + [s[|s| - 1]] == s;
    }
  }

  /** `_is_url_for_domain` of the Discord platform: the hostname is the
      domain or a sub-domain of it. No hostname, no match. */
  predicate HostMatches(h: Option<string>, domain: string) {
    h.Some? && (h.value == domain || EndsWith(h.value, "." + domain))
  }

  /** A host that ends with the domain matches exactly when the domain is
      the whole host or what comes before it ends with a dot: so
      "www.twitch.tv" matches "twitch.tv" and "eviltwitch.tv" does not. */
  lemma HostMatchesSuffix(p: string, domain: string)
    requires domain != ""
    ensures HostMatches(Some(p + domain), domain) <==> p == "" || EndsWith(p, ".")
  {
    var h := p + domain;
    if p != "" {
      assert h != domain by { assert |h| > |domain|; }
      if EndsWith(p, ".") {
        assert h[|h| - |domain| - 1..] == [p[|p| - 1]] + domain;
      }
      if EndsWith(h, "." + domain) {
        assert p[|p| - 1..] == [h[|h| - |domain| - 1]];
        assert h[|h| - |domain| - 1] == ("." + domain)[0];
      }
    }
  }
}
