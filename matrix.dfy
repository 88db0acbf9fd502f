/** The Matrix platform of the stream announcer: it logs in (with a user
    and password, else a fixed access token) and posts one formatted
    message per announcement; Matrix messages are never edited. The
    secrets and the HTTP answers are inputs. */
module Matrix {
  import opened Common
  import opened Links
  import opened FeedItems
  import Secrets
  import Discord

  /** Matrix's `_is_url_for_domain`: as the Discord one, with host and
      domain compared in lower case. */
  predicate IsUrlForDomain(url: string, domain: string) {
    var h := Hostname(url);
    h.Some? && (Lower(h.value) == Lower(domain) || EndsWith(Lower(h.value), "." + Lower(domain)))
  }

  /** For a lower-case domain the two platforms agree; for any other they
      differ only in case. */
  lemma SameAsDiscordForLowerCaseDomain(url: string, domain: string)
    ensures IsUrlForDomain(url, domain) <==> Discord.IsUrlForDomain(url, Lower(domain))
  {
    var h := Hostname(url);
    if h.Some? {
      assert Lower(h.value) == h.value;
    }
  }

  // ---------------------------------------------------------------------
  // Log-in

  /** `@name:server` logs in as `name`; a name without '@' is used whole. */
  function Localpart(username: string): (name: string)
    ensures !StartsWith(username, "@") ==> name == username
    ensures StartsWith(username, "@") ==> ':' !in name
  {
    if StartsWith(username, "@") then Split(username[1..], ':')[0] else username
  }

  /** The local part of a full Matrix user id is its name. */
  lemma LocalpartOfUserId(name: string, server: string)
    requires ':' !in name
    ensures Localpart("@" + name + ":" + server) == name
  {
    var u := "@" + name + ":" + server;
    assert u[..1] == "@";
    assert u[1..] == name + [':'] + server;
    SplitFirst(name, server, ':');
  }

  /** `_login_and_get_token`: the token of a 200 answer that has one;
      nothing otherwise (another status, no token, or a failed request). */
  function LoginToken(answer: Response<Option<string>>): (token: Option<string>)
    ensures token.Some? <==> answer.Http? && answer.status == 200 && Truthy(answer.body)
    ensures token.Some? ==> token == answer.body
  {
    if answer.Http? && answer.status == 200 && Truthy(answer.body) then answer.body else None
  }

  /** The log-in request: where it goes, the user and the password. */
  datatype LoginRequest = LoginRequest(url: string, user: string, password: string)

  /** The home server as configured, with "https://" in front when it does
      not start with "http". */
  function ServerUrl(homeserver: string): (u: string)
    ensures StartsWith(u, "http")
    ensures StartsWith(homeserver, "http") ==> u == homeserver
  {
    if StartsWith(homeserver, "http") then homeserver
    else
      var u := "https://" + homeserver;
      assert u[..4] == "http";
      u
  }

  // ---------------------------------------------------------------------
  // Messages

  /** The link the HTML body puts in place of a URL. */
  function Anchor(url: string): (a: string)
    ensures |a| == 9 + 2 + |url| + |url| + 4 && a[9..9 + |url|] == url
  {
    var a := "<a href=\"" + url + "\">" + url + "</a>";
    assert a[9..9 + |url|] == url;
    a
  }

  /** The HTML body as written: every URL of the message becomes a link to,
      and showing, the message's FIRST URL. */
  function LinkedBody(message: string, first: string): string {
    Substitute(message, (_: string) => Anchor(first))
  }

  /** The HTML body evidently intended: every URL becomes a link to itself. */
  function LinkedBodyIntended(message: string): (html: string)
    ensures FirstUrl(message).None? ==> html == message
  {
    if FirstUrl(message).None? then
      SubstituteNoUrl(message, Anchor);
      Substitute(message, Anchor)
    else Substitute(message, Anchor)
  }

  /** With two different URLs, the body as written shows the first twice
      and loses the second. */
  lemma SecondUrlLost(w1: string, w2: string)
    requires IsWord(w1) && IsWord(w2) && w1 != w2
    ensures var u1 := "https://" + w1;
            var u2 := "https://" + w2;
            var message := u1 + " " + u2;
            && FirstUrl(message) == Some(u1)
            && LinkedBody(message, u1) == Anchor(u1) + " " + Anchor(u1)
            && LinkedBodyIntended(message) == Anchor(u1) + " " + Anchor(u2)
            && LinkedBody(message, u1) != LinkedBodyIntended(message)
  {
    var u1 := "https://" + w1;
    var u2 := "https://" + w2;
    FirstOfTwo(w1, u2);
    TwoUrls("https://", w1, w2, (_: string) => Anchor(u1));
    TwoUrls("https://", w1, w2, Anchor);
    AnchorsDiffer(w1, w2);
    var a := Anchor(u1) + " ";
    assert (a + Anchor(u1))[|a|..] == Anchor(u1) && (a + Anchor(u2))[|a|..] == Anchor(u2);
  }

  /** A message that starts with a URL has that URL first. */
  lemma FirstOfTwo(w1: string, rest: string)
    requires IsWord(w1)
    ensures FirstUrl(("https://" + w1) + " " + rest) == Some("https://" + w1)
  {
    var u1 := "https://" + w1;
    var message := u1 + " " + rest;
    UrlPrefixOfUrl("https://", w1, " " + rest);
    assert message == "https://" + w1 + (" " + rest);
    assert message[0..] == message;
    assert FindUrl(message, 0) == Some(0);
    assert message[0..0 + |u1|] == u1;
  }

  /** Links to different URLs differ. */
  lemma AnchorsDiffer(w1: string, w2: string)
    requires w1 != w2
    ensures Anchor("https://" + w1) != Anchor("https://" + w2)
  {
    var u1 := "https://" + w1;
    var u2 := "https://" + w2;
    assert u1 != u2 by { assert u1[8..] == w1 && u2[8..] == w2; }
    if |u1| == |u2| {
      assert Anchor(u1)[9..9 + |u1|] == u1 && Anchor(u2)[9..9 + |u2|] == u2;
    }
  }

  /** Substitution over "URL space URL". */
  lemma TwoUrls(scheme: string, w1: string, w2: string, f: string -> string)
    requires scheme == "http://" || scheme == "https://"
    requires IsWord(w1) && IsWord(w2)
    ensures Substitute((scheme + w1) + " " + (scheme + w2), f) == f(scheme + w1) + " " + f(scheme + w2)
  {
    var u2 := scheme + w2;
    assert (scheme + w1) + " " + u2 == scheme + w1 + (" " + u2);
    assert " " + u2 == [' '] + u2;
    assert (" " + u2)[0] == ' ';
    SubstituteUrl(scheme, w1, " " + u2, f);
    SubstituteSpace(' ', u2, f);
    assert u2 == scheme + w2 + [];
    SubstituteUrl(scheme, w2, [], f);
  }

  /** The corrected body links each URL to itself: a URL followed by
      whitespace or nothing becomes its own link, and the rest of the text
      is linked the same way. */
  lemma EachUrlLinksToItself(scheme: string, w: string, rest: string)
    requires scheme == "http://" || scheme == "https://"
    requires IsWord(w) && (rest == [] || IsSpace(rest[0]))
    ensures LinkedBodyIntended(scheme + w + rest) == Anchor(scheme + w) + LinkedBodyIntended(rest)
  {
    SubstituteUrl(scheme, w, rest, Anchor);
  }

  /** The heading the HTML body gets for the first URL's site. */
  function Styled(first: string, html: string): (s: string)
    ensures Discord.IsUrlForDomain(first, "twitch.tv") ==>
              s == "<p><strong>\U{1F7E3} Live on Twitch!</strong></p><p>" + html + "</p>"
    ensures (!IsUrlForDomain(first, "twitch.tv") && !IsUrlForDomain(first, "youtube.com")
             && !IsUrlForDomain(first, "youtu.be") && !IsUrlForDomain(first, "kick.com")) ==> s == html
  {
    SameAsDiscordForLowerCaseDomain(first, "twitch.tv");
    assert Lower("twitch.tv") == "twitch.tv";
    if IsUrlForDomain(first, "twitch.tv") then "<p><strong>\U{1F7E3} Live on Twitch!</strong></p><p>" + html + "</p>"
    else if IsUrlForDomain(first, "youtube.com") || IsUrlForDomain(first, "youtu.be") then
      "<p><strong>\U{1F534} Live on YouTube!</strong></p><p>" + html + "</p>"
    else if IsUrlForDomain(first, "kick.com") then "<p><strong>\U{1F7E2} Live on Kick!</strong></p><p>" + html + "</p>"
    else html
  }

  /** The formatted body of a message: the text itself when it has no URL;
      otherwise the text with every URL replaced by a link to the first
      one, under the heading for the first URL's site. */
  function HtmlBody(message: string): (html: string)
    ensures FirstUrl(message).None? ==> html == message
    ensures FirstUrl(message).Some? ==>
              html == Styled(FirstUrl(message).value, LinkedBody(message, FirstUrl(message).value))
  {
    match FirstUrl(message)
    case None => message
    case Some(first) => Styled(first, LinkedBody(message, first))
  }

  /** As written, every URL of the text becomes a link to the first URL: a
      URL followed by whitespace or nothing is replaced by that link, and
      the rest of the text is linked the same way. */
  lemma EveryUrlLinksToFirst(scheme: string, w: string, rest: string, first: string)
    requires scheme == "http://" || scheme == "https://"
    requires IsWord(w) && (rest == [] || IsSpace(rest[0]))
    ensures LinkedBody(scheme + w + rest, first) == Anchor(first) + LinkedBody(rest, first)
  {
    SubstituteUrl(scheme, w, rest, (_: string) => Anchor(first));
  }

  /** A message with two different URLs gets an HTML body whose two links
      both point at the first URL. */
  lemma HtmlBodyOfTwoUrls(w1: string, w2: string)
    requires IsWord(w1) && IsWord(w2) && w1 != w2
    ensures var u1 := "https://" + w1;
            HtmlBody(u1 + " " + ("https://" + w2)) == Styled(u1, Anchor(u1) + " " + Anchor(u1))
  {
    SecondUrlLost(w1, w2);
  }

  /** A room message event: the plain body, the HTML body, and the event
      it replies to. */
  datatype MessageEvent = MessageEvent(body: string, formattedBody: string, inReplyTo: Option<string>)

  /** The send request: where it goes, the bearer token, the event. */
  datatype SendRequest = SendRequest(url: string, token: string, event: MessageEvent)

  /** The characters `urllib.parse.quote` leaves as they are: ASCII letters,
      digits, "_.-~" and the default safe character '/'. */
  predicate IsUnreserved(c: char) {
    IsAsciiLetter(c) || IsDigit(c) || c == '_' || c == '.' || c == '-' || c == '~' || c == '/'
  }

  const HexDigits: string := "0123456789ABCDEF"

  /** A byte as "%XX", upper-case hexadecimal. */
  function PercentByte(b: int): (s: string)
    requires 0 <= b < 256
    ensures |s| == 3 && s[0] == '%' && s[1] in HexDigits && s[2] in HexDigits
  {
    ['%', HexDigits[b / 16], HexDigits[b % 16]]
  }

  /** The UTF-8 bytes of a character. */
  function Utf8(c: char): (bytes: seq<int>)
    ensures 1 <= |bytes| <= 4 && forall i :: 0 <= i < |bytes| ==> 0 <= bytes[i] < 256
    ensures (c as int) < 0x80 ==> bytes == [c as int]
  {
    var n := c as int;
    if n < 0x80 then [n]
    else if n < 0x800 then [0xC0 + n / 64, 0x80 + n % 64]
    else if n < 0x10000 then [0xE0 + n / 4096, 0x80 + (n / 64) % 64, 0x80 + n % 64]
    else [0xF0 + n / 262144, 0x80 + (n / 4096) % 64, 0x80 + (n / 64) % 64, 0x80 + n % 64]
  }

  function PercentBytes(bytes: seq<int>): (s: string)
    requires forall i :: 0 <= i < |bytes| ==> 0 <= bytes[i] < 256
    ensures |s| == 3 * |bytes| && forall i :: 0 <= i < |s| ==> s[i] == '%' || s[i] in HexDigits
    decreases |bytes|
  {
    if bytes == [] then [] else PercentByte(bytes[0]) + PercentBytes(bytes[1..])
  }

  /** `urllib.parse.quote`: unreserved characters kept, every other one
      written as the percent-escapes of its UTF-8 bytes. */
  function Quote(s: string): string {
    if s == [] then []
    else (if IsUnreserved(s[0]) then [s[0]] else PercentBytes(Utf8(s[0]))) + Quote(s[1..])
  }

  /** Quoted text holds only unreserved characters and escapes. */
  lemma {:induction false} QuoteIsSafe(s: string)
    ensures forall i :: 0 <= i < |Quote(s)| ==> IsUnreserved(Quote(s)[i]) || Quote(s)[i] == '%' || Quote(s)[i] in HexDigits
  {
    if s != [] {
      QuoteIsSafe(s[1..]);
      var head := if IsUnreserved(s[0]) then [s[0]] else PercentBytes(Utf8(s[0]));
      assert Quote(s) == head + Quote(s[1..]);
    }
  }

  /** A room id's '!' and ':' are escaped. */
  lemma QuoteRoomId(localId: string, server: string)
    requires forall i :: 0 <= i < |localId| ==> IsUnreserved(localId[i])
    requires forall i :: 0 <= i < |server| ==> IsUnreserved(server[i])
    ensures Quote("!" + localId + ":" + server) == "%21" + localId + "%3A" + server
  {
    var tail := [':'] + server;
    var room := ['!'] + (localId + tail);
    Regroup("!", localId, ":", server);
    QuoteEscapes(':', server);
    QuoteConcat(server, []);
    assert server + [] == server;
    assert Quote(tail) == PercentBytes(Utf8(':')) + server;
    QuoteConcat(localId, tail);
    QuoteEscapes('!', localId + tail);
    assert Quote(room) == PercentBytes(Utf8('!')) + (localId + (PercentBytes(Utf8(':')) + server));
    EscapedPunctuation();
    assert Quote(room) == "%21" + (localId + ("%3A" + server));
    Regroup("%21", localId, "%3A", server);
  }

  lemma Regroup(a: string, b: string, c: string, d: string)
    ensures a + (b + (c + d)) == a + b + c + d
  {
  }

  lemma EscapedPunctuation()
    ensures PercentBytes(Utf8('!')) == "%21" && PercentBytes(Utf8(':')) == "%3A"
  {
    assert Utf8('!') == [33] && Utf8(':') == [58];
    assert PercentBytes([33]) == PercentByte(33) + PercentBytes([]);
    assert PercentBytes([58]) == PercentByte(58) + PercentBytes([]);
  }

  /** Any other character is escaped. */
  lemma QuoteEscapes(c: char, rest: string)
    requires !IsUnreserved(c)
    ensures Quote([c] + rest) == PercentBytes(Utf8(c)) + Quote(rest)
  {
    assert ([c] + rest)[1..] == rest;
  }

  /** Quoting unreserved text and then the rest is quoting the whole. */
  lemma {:induction false} QuoteConcat(a: string, b: string)
    requires forall i :: 0 <= i < |a| ==> IsUnreserved(a[i])
    ensures Quote(a + b) == a + Quote(b)
    decreases |a|
  {
    if a != [] {
      var t := a[1..];
      assert a + b == [a[0]] + (t + b);
      QuoteKeeps(a[0], t + b);
      forall i | 0 <= i < |t|
        ensures IsUnreserved(t[i])
      {
        assert t[i] == a[i + 1];
      }
      QuoteConcat(t, b);
      assert [a[0]] + (t + Quote(b)) == a + Quote(b);
    } else {
      assert a + b == b;
    }
  }

  /** An unreserved character is copied. */
  lemma QuoteKeeps(c: char, rest: string)
    requires IsUnreserved(c)
    ensures Quote([c] + rest) == [c] + Quote(rest)
  {
    assert ([c] + rest)[1..] == rest;
  }

  // ---------------------------------------------------------------------
  // The platform

  class MatrixPlatform {
    var enabled: bool
    var homeserver: Option<string>
    var accessToken: Option<string>
    var roomId: Option<string>
    var username: Option<string>
    var password: Option<string>

    constructor ()
      ensures !enabled && homeserver.None? && accessToken.None? && roomId.None? && username.None? && password.None?
    {
      enabled := false;
      homeserver, accessToken, roomId := None, None, None;
      username, password := None, None;
    }

    /** `authenticate`: server and room are required; a user and password
        log in (and their token is used), else the configured access token
        is. The log-in answer is an input; the log-in request, when one is
        made, is returned. */
    method Authenticate(enablePosting: bool, secrets: map<string, string>, answer: Response<Option<string>>)
      returns (ok: bool, login: Option<LoginRequest>)
      modifies this
      ensures !enablePosting ==> !ok && login.None? && unchanged(this)
      ensures ok <==>
                && enablePosting
                && Truthy(Secrets.Getenv(secrets, "homeserver")) && Truthy(Secrets.Getenv(secrets, "room_id"))
                && (if Truthy(Secrets.Getenv(secrets, "username")) && Truthy(Secrets.Getenv(secrets, "password"))
                    then LoginToken(answer).Some?
                    else Truthy(Secrets.Getenv(secrets, "access_token")))
      ensures login.Some? <==>
                && enablePosting
                && Truthy(Secrets.Getenv(secrets, "homeserver")) && Truthy(Secrets.Getenv(secrets, "room_id"))
                && Truthy(Secrets.Getenv(secrets, "username")) && Truthy(Secrets.Getenv(secrets, "password"))
      ensures login.Some? ==>
                login.value == LoginRequest(ServerUrl(secrets["homeserver"]) + "/_matrix/client/r0/login",
                                            Localpart(secrets["username"]), secrets["password"])
      ensures ok ==> enabled && homeserver == Some(ServerUrl(secrets["homeserver"])) && roomId == Some(secrets["room_id"])
      ensures ok && login.Some? ==> accessToken == LoginToken(answer)
      ensures ok && login.None? ==> accessToken == Some(secrets["access_token"])
      ensures !ok ==> enabled == old(enabled)
    {
      login := None;
      if !enablePosting {
        return false, None;
      }
      homeserver := Secrets.Getenv(secrets, "homeserver");
      roomId := Secrets.Getenv(secrets, "room_id");
      if !Truthy(homeserver) || !Truthy(roomId) {
        return false, None;
      }
      homeserver := Some(ServerUrl(homeserver.value));
      username := Secrets.Getenv(secrets, "username");
      password := Secrets.Getenv(secrets, "password");
      if Truthy(username) && Truthy(password) {
        login := Some(LoginRequest(homeserver.value + "/_matrix/client/r0/login", Localpart(username.value), password.value));
        accessToken := LoginToken(answer);
        if accessToken.None? {
            return false, login;
        }
      } else {
        accessToken := Secrets.Getenv(secrets, "access_token");
        if !Truthy(accessToken) {
            return false, login;
        }
      }
      enabled := true;
      ok := true;
    }

    /** `post`: send the message to the room as an HTML-formatted event,
        replying to `replyTo` when given; the event id of a 200 answer is
        returned. Nothing is sent when disabled or without server, token
        and room. */
    method Post(message: string, replyTo: Option<string>, answer: Response<Option<string>>)
      returns (eventId: Option<string>, request: Option<SendRequest>)
      ensures request.Some? <==> enabled && Truthy(homeserver) && Truthy(accessToken) && Truthy(roomId)
      ensures request.Some? ==>
                request.value == SendRequest(
                  homeserver.value + "/_matrix/client/r0/rooms/" + Quote(roomId.value) + "/send/m.room.message",
                  accessToken.value, MessageEvent(message, HtmlBody(message), if Truthy(replyTo) then replyTo else None))
      ensures request.Some? ==> (request.value.event.inReplyTo.Some? <==> Truthy(replyTo))
      ensures eventId == (if request.Some? && answer.Http? && answer.status == 200 then answer.body else None)
    {
      if !enabled || !(Truthy(homeserver) && Truthy(accessToken) && Truthy(roomId)) {
        return None, None;
      }
      var event := MessageEvent(message, HtmlBody(message), if Truthy(replyTo) then replyTo else None);
      request := Some(SendRequest(homeserver.value + "/_matrix/client/r0/rooms/" + Quote(roomId.value) + "/send/m.room.message",
                                  accessToken.value, event));
      eventId := if answer.Http? && answer.status == 200 then answer.body else None;
    }
  }
}
