/** The Discord webhook platform of the stream announcer: one default
    webhook and role, optional per-platform ones, and the live-stream
    messages it has posted and may still edit (`active_messages`). The
    HTTP answers, the clock and the secrets are inputs. */
module Discord {
  import opened Common
  import opened Links
  import opened FeedItems
  import Secrets

  /** The platforms that can have their own webhook and role. */
  const Platforms: seq<string> := ["youtube", "tiktok", "twitch", "kick"]

  /** `_is_url_for_domain`: the URL's hostname is the domain or one of its
      sub-domains. */
  predicate IsUrlForDomain(url: string, domain: string) {
    HostMatches(Hostname(url), domain)
  }

  /** A URL of a sub-domain, and of no look-alike domain, is for the domain. */
  lemma UrlForDomain(scheme: string, p: string, domain: string, path: string)
    requires scheme == "http://" || scheme == "https://"
    requires domain != "" && Lower(p + domain) == p + domain
    requires forall c :: c in p + domain ==> c !in {'/', '?', '#', '@', ':'}
    requires path == [] || path[0] == '/'
    ensures IsUrlForDomain(scheme + p + domain + path, domain) <==> p == "" || EndsWith(p, ".")
  {
    assert scheme + p + domain + path == scheme + (p + domain) + path;
    HostnameOfUrl(scheme, p + domain, path);
    HostMatchesSuffix(p, domain);
  }

  // ---------------------------------------------------------------------
  // Text the messages are made of

  /** `f"{n:,}"`: the decimal digits grouped by three with commas. */
  function Grouped(n: int): (s: string)
    ensures n >= 0 ==> s == GroupedNat(n)
    ensures n < 0 ==> s == "-" + GroupedNat(-n)
  {
    if n < 0 then "-" + GroupedNat(-n) else GroupedNat(n)
  }

  /** Below a thousand, the plain digits; from a thousand, the thousands
      grouped, a comma and the last three digits. */
  function GroupedNat(n: nat): (s: string)
    ensures n < 1000 ==> s == NatToString(n)
    ensures n >= 1000 ==> |s| >= 5 && s[|s| - 4] == ',' && s[|s| - 3..] == Pad3(n % 1000)
  {
    if n < 1000 then NatToString(n)
    else
      var head := GroupedNat(n / 1000);
      var s := head + "," + Pad3(n % 1000);
      assert s[|s| - 3..] == Pad3(n % 1000);
      s
  }

  /** Three digits, zero-padded. */
  function Pad3(k: int): (s: string)
    requires 0 <= k < 1000
    ensures |s| == 3 && IsDigits(s) && DigitsValue(s) == k
  {
    if k < 100 then
      var t := Pad2(k);
      LeadingZero(t);
      "0" + t
    else
      ThreeDigits(k);
      NatToString(k)
  }

  lemma ThreeDigits(k: nat)
    requires 100 <= k < 1000
    ensures |NatToString(k)| == 3
  {
    assert |NatToString(k / 10)| == 2 by { assert |NatToString(k / 100)| == 1; }
  }

  /** A leading zero does not change a number's value. */
  lemma {:induction false} LeadingZero(s: string)
    requires forall i :: 0 <= i < |s| ==> IsDigit(s[i])
    ensures DigitsValue("0" + s) == DigitsValue(s)
    decreases |s|
  {
    if s != [] {
      var t := "0" + s;
      assert t[..|t| - 1] == "0" + s[..|s| - 1];
      LeadingZero(s[..|s| - 1]);
    }
  }

  /** A role mention, `<@&id>`. */
  function Mention(roleId: string): string {
    "<@&" + roleId + ">"
  }

  /** A platform name without its suffix: `-videos` and `-livestreams`
      variants share their platform's webhook-less settings. */
  function BaseName(platformName: string): (b: string)
    ensures '-' !in b
  {
    Split(Lower(platformName), '-')[0]
  }

  /** A suffix after a dash does not change the base name. */
  lemma BaseNameOfSuffixed(base: string, suffix: string)
    requires '-' !in base
    ensures BaseName(base + "-" + suffix) == BaseName(base)
  {
    var l := Lower(base + "-" + suffix);
    assert l == Lower(base) + "-" + Lower(suffix) by {
      assert |l| == |Lower(base) + "-" + Lower(suffix)|;
      forall i | 0 <= i < |l|
        ensures l[i] == (Lower(base) + "-" + Lower(suffix))[i]
      {
        if i < |base| {
          assert (base + "-" + suffix)[i] == base[i];
        } else if i > |base| {
          assert (base + "-" + suffix)[i] == suffix[i - |base| - 1];
        }
      }
    }
    assert '-' !in Lower(base) by {
      forall i | 0 <= i < |base|
        ensures Lower(base)[i] != '-'
      {
        assert base[i] != '-' by { assert base[i] in base; }
      }
    }
    SplitFirst(Lower(base), Lower(suffix), '-');
  }

  /** The message text a post carries: the announcement, then the role of
      the platform's base name, or else the default role. */
  function PostContent(message: string, platformName: Option<string>, roleMentions: map<string, string>,
                       roleId: Option<string>): (c: string)
    ensures StartsWith(c, message)
    ensures Truthy(platformName) && BaseName(platformName.value) != "" && BaseName(platformName.value) in roleMentions ==>
              c == message + " " + Mention(roleMentions[BaseName(platformName.value)])
    ensures !(Truthy(platformName) && BaseName(platformName.value) != "" && BaseName(platformName.value) in roleMentions) ==>
              c == message + (if Truthy(roleId) then " " + Mention(roleId.value) else "")
  {
    var suffix := if Truthy(platformName) && BaseName(platformName.value) != "" && BaseName(platformName.value) in roleMentions
                  then " " + Mention(roleMentions[BaseName(platformName.value)])
                  else if Truthy(roleId) then " " + Mention(roleId.value) else "";
    assert (message + suffix)[..|message|] == message;
    message + suffix
  }

  /** "twitch-clips" pings the same role as "twitch". */
  lemma SuffixedPlatformSharesRole(message: string, base: string, suffix: string, roleMentions: map<string, string>,
                                   roleId: Option<string>)
    requires base != "" && '-' !in base
    ensures PostContent(message, Some(base + "-" + suffix), roleMentions, roleId)
         == PostContent(message, Some(base), roleMentions, roleId)
  {
    BaseNameOfSuffixed(base, suffix);
  }

  /** The role `end_stream` keeps on the message, looked up by the whole
      lower-cased platform name. */
  function EndRole(platformKey: string, roleMentions: map<string, string>, roleId: Option<string>): (c: string)
    ensures platformKey in roleMentions ==> c == Mention(roleMentions[platformKey])
    ensures platformKey !in roleMentions && Truthy(roleId) ==> c == Mention(roleId.value)
    ensures platformKey !in roleMentions && !Truthy(roleId) ==> c == ""
  {
    if platformKey in roleMentions then Mention(roleMentions[platformKey])
    else if Truthy(roleId) then Mention(roleId.value)
    else ""
  }

  /** As written, a suffixed platform's ended message shows the default
      role although its announcement pinged the platform's own: for
      "twitch-live" with a role for "twitch", say. */
  lemma EndRoleDiffersFromPost(message: string, base: string, suffix: string, role: string, defaultRole: string)
    requires base != "" && '-' !in base && Lower(base) == base
    requires defaultRole != ""
    ensures PostContent(message, Some(base + "-" + suffix), map[base := role], Some(defaultRole))
            == message + " " + Mention(role)
    ensures EndRole(Lower(base + "-" + suffix), map[base := role], Some(defaultRole)) == Mention(defaultRole)
  {
    BaseNameOfSuffixed(base, suffix);
    SplitFirst(base, "", '-');
    assert BaseName(base) == base;
    var key := Lower(base + "-" + suffix);
    assert key !in map[base := role] by { assert |key| != |base|; }
  }

  /** A text without capital letters is its own lower case. */
  lemma LowerOfLowerCase(s: string)
    requires forall i :: 0 <= i < |s| ==> !('A' <= s[i] <= 'Z')
    ensures Lower(s) == s
  {
  }

  /** The role the ended message evidently means to keep: the one the
      announcement used, looked up by base name. */
  function EndRoleIntended(platformKey: string, roleMentions: map<string, string>, roleId: Option<string>): (c: string)
    ensures BaseName(platformKey) != "" && BaseName(platformKey) in roleMentions ==>
              c == Mention(roleMentions[BaseName(platformKey)])
    ensures !(BaseName(platformKey) != "" && BaseName(platformKey) in roleMentions) ==>
              c == (if Truthy(roleId) then Mention(roleId.value) else "")
  {
    var base := BaseName(platformKey);
    if base != "" && base in roleMentions then Mention(roleMentions[base])
    else if Truthy(roleId) then Mention(roleId.value)
    else ""
  }

  /** With the base-name lookup, the ended message keeps exactly the role
      the announcement pinged, for every platform name. */
  lemma EndRoleIntendedMatchesPost(message: string, platformName: string, roleMentions: map<string, string>,
                                   roleId: Option<string>)
    requires platformName != ""
    ensures var r := EndRoleIntended(Lower(platformName), roleMentions, roleId);
            PostContent(message, Some(platformName), roleMentions, roleId) == message + (if r == "" then "" else " " + r)
  {
    LowerIdempotent(platformName);
    assert BaseName(Lower(platformName)) == BaseName(platformName);
  }

  // ---------------------------------------------------------------------
  // Query strings

  /** A query parameter added to a URL: after '&' when the URL already has
      a query, after '?' otherwise. */
  function AppendQuery(url: string, param: string): (r: string)
    ensures |r| == |url| + 1 + |param| && r[..|url|] == url && EndsWith(r, param)
    ensures '?' in url ==> r[|url|] == '&'
    ensures '?' !in url ==> r[|url|] == '?'
  {
    var r := url + [if '?' in url then '&' else '?'] + param;
    assert r[|r| - |param|..] == param;
    r
  }

  /** A URL without a query gets exactly one '?', before the parameter. */
  lemma AppendQueryStartsQuery(url: string, param: string)
    requires '?' !in url && '?' !in param
    ensures var r := AppendQuery(url, param); '?' !in r[..|url|] && r[|url|] == '?' && '?' !in r[|url| + 1..]
  {
    var r := AppendQuery(url, param);
    assert r[|url| + 1..] == param;
  }

  /** `?wait=true` makes Discord answer with the message it created. */
  function WithWait(webhook: string): (u: string)
    ensures StartsWith(u, webhook) && EndsWith(u, "wait=true")
  {
    AppendQuery(webhook, "wait=true")
  }

  /** The thumbnail with a timestamp parameter, so Discord fetches it anew. */
  function CacheBusted(thumbnail: string, now: int): (u: string)
    ensures StartsWith(u, thumbnail) && EndsWith(u, "_t=" + IntToString(now))
  {
    AppendQuery(thumbnail, "_t=" + IntToString(now))
  }

  // ---------------------------------------------------------------------
  // Embeds

  /** The keys of `stream_data` the embeds read; None for a missing key. */
  datatype StreamData = StreamData(title: Option<string>, viewerCount: Option<int>, thumbnailUrl: Option<string>,
                                   gameName: Option<string>)

  // The embeds' emoji as the platform's source file stores them (see
  // `StoredBullet`): purple, red and green circles, a clapper board, a
  // phone, two people, a game controller, a purple heart and a stop sign
  // as intended.
  const PurpleDot: string := "\U{F8FF}\U{00FC}\U{00FC}\U{00A3}"
  const RedDot: string := "\U{F8FF}\U{00FC}\U{00EE}\U{00A5}"
  const GreenDot: string := "\U{F8FF}\U{00FC}\U{00FC}\U{00A2}"
  const FilmIcon: string := "\U{F8FF}\U{00FC}\U{00E9}\U{00A8}"
  const PhoneIcon: string := "\U{F8FF}\U{00FC}\U{00EC}\U{00B1}"
  const PeopleIcon: string := "\U{F8FF}\U{00FC}\U{00EB}\U{2022}"
  const GamepadIcon: string := "\U{F8FF}\U{00FC}\U{00E9}\U{00C6}"
  const PurpleHeart: string := "\U{F8FF}\U{00FC}\U{00ED}\U{00FA}"
  const StopIcon: string := "\U{201A}\U{00E8}\U{03C0}\U{00D4}\U{220F}\U{00E8}"

  /** A webhook embed: the common embed and an image. */
  datatype WebhookEmbed = WebhookEmbed(title: string, description: string, url: string, color: int,
                                       fields: seq<Field>, image: Option<string>, footer: string)

  /** The viewers field when the count is there, then the category field
      when the game is named. */
  function StatsFields(s: StreamData, viewersLabel: string): (fs: seq<Field>)
    ensures |fs| == (if s.viewerCount.Some? then 1 else 0) + (if Truthy(s.gameName) then 1 else 0)
    ensures s.viewerCount.Some? ==> fs[0] == Field(viewersLabel, Grouped(s.viewerCount.value), true)
    ensures Truthy(s.gameName) ==> fs[|fs| - 1] == Field(GamepadIcon + " Category", s.gameName.value, true)
  {
    (if s.viewerCount.Some? then [Field(viewersLabel, Grouped(s.viewerCount.value), true)] else [])
    + (if Truthy(s.gameName) then [Field(GamepadIcon + " Category", s.gameName.value, true)] else [])
  }

  const ViewersLabel: string := PeopleIcon + " Viewers"

  /** A post is a video upload when its base platform name is YouTube's or
      TikTok's. */
  predicate IsVideoUpload(platformName: Option<string>) {
    Truthy(platformName) && BaseName(platformName.value) in ["youtube", "tiktok"]
  }

  /** The announcement's embed, by the first URL's site. */
  function PostEmbed(firstUrl: string, platformName: Option<string>, s: StreamData): (e: WebhookEmbed)
    ensures e.url == firstUrl
    ensures IsUrlForDomain(firstUrl, "twitch.tv") ==> e.title == PurpleDot + " Live on Twitch" && e.color == 0x9146FF
    ensures !IsUrlForDomain(firstUrl, "twitch.tv") && (IsUrlForDomain(firstUrl, "youtube.com") || IsUrlForDomain(firstUrl, "youtu.be")) ==>
              e.color == 0xFF0000
              && e.title == (if IsVideoUpload(platformName) then FilmIcon + " New YouTube Video" else RedDot + " Live on YouTube")
    ensures var youTube := IsUrlForDomain(firstUrl, "youtube.com") || IsUrlForDomain(firstUrl, "youtu.be");
            !IsUrlForDomain(firstUrl, "twitch.tv") && !youTube ==>
              if IsUrlForDomain(firstUrl, "kick.com") then e.color == 0x53FC18 && e.title == GreenDot + " Live on Kick"
              else if IsUrlForDomain(firstUrl, "tiktok.com") then e.color == 0x00F2EA && e.title == PhoneIcon + " New TikTok"
              else e.color == 0x9146FF && e.title == "Live Stream"
    ensures IsVideoUpload(platformName) ==> e.fields == [] && e.footer == "Click to watch!"
    ensures !IsVideoUpload(platformName) ==> e.fields == StatsFields(s, ViewersLabel) && e.footer == "Click to watch the stream!"
    ensures Truthy(s.title) ==> e.description == s.title.value
    ensures s.title.None? ==> e.description == (if IsVideoUpload(platformName) then "New Video" else "Live Stream")
    ensures s.title == Some("") ==> e.description == (if IsVideoUpload(platformName) then "New video uploaded!" else "Stream is live!")
    ensures e.image == (if Truthy(s.thumbnailUrl) then s.thumbnailUrl else None)
  {
    var video := IsVideoUpload(platformName);
    var site :=
      if IsUrlForDomain(firstUrl, "twitch.tv") then (0x9146FF, PurpleDot + " Live on Twitch")
      else if IsUrlForDomain(firstUrl, "youtube.com") || IsUrlForDomain(firstUrl, "youtu.be") then
        (0xFF0000, if video then FilmIcon + " New YouTube Video" else RedDot + " Live on YouTube")
      else if IsUrlForDomain(firstUrl, "kick.com") then (0x53FC18, GreenDot + " Live on Kick")
      else if IsUrlForDomain(firstUrl, "tiktok.com") then (0x00F2EA, PhoneIcon + " New TikTok")
      else (0x9146FF, "Live Stream");
    var title := s.title.GetOr(if video then "New Video" else "Live Stream");
    WebhookEmbed(site.1, if title != "" then title else if video then "New video uploaded!" else "Stream is live!",
                 firstUrl, site.0, if video then [] else StatsFields(s, ViewersLabel),
                 if Truthy(s.thumbnailUrl) then s.thumbnailUrl else None,
                 if video then "Click to watch!" else "Click to watch the stream!")
  }

  /** The live site of an edit: by the stream URL or by the platform key. */
  datatype Site = Twitch | YouTube | Kick | OtherSite

  function LiveSite(streamUrl: string, platformKey: string): (site: Site)
    ensures IsUrlForDomain(streamUrl, "twitch.tv") || platformKey == "twitch" <==> site == Twitch
    ensures site == YouTube ==> IsUrlForDomain(streamUrl, "youtube.com") || IsUrlForDomain(streamUrl, "youtu.be")
                                || platformKey == "youtube"
  {
    if IsUrlForDomain(streamUrl, "twitch.tv") || platformKey == "twitch" then Twitch
    else if IsUrlForDomain(streamUrl, "youtube.com") || IsUrlForDomain(streamUrl, "youtu.be") || platformKey == "youtube" then YouTube
    else if IsUrlForDomain(streamUrl, "kick.com") || platformKey == "kick" then Kick
    else OtherSite
  }

  /** The refreshed embed of a live stream: new counts, a thumbnail that
      defeats Discord's cache, and the time of the refresh. */
  function UpdateEmbed(streamUrl: string, platformKey: string, s: StreamData, now: int, clock: string): (e: WebhookEmbed)
    ensures e.url == streamUrl && e.fields == StatsFields(s, ViewersLabel)
    ensures e.description == s.title.GetOr("Live Stream")
    ensures Truthy(s.thumbnailUrl) ==> e.image == Some(CacheBusted(s.thumbnailUrl.value, now))
    ensures !Truthy(s.thumbnailUrl) ==> e.image.None?
    ensures e.footer == "Last updated: " + clock + " " + StoredBullet + " Click to watch!"
    ensures LiveSite(streamUrl, platformKey) == Twitch ==> e.color == 0x9146FF && e.title == PurpleDot + " Live on Twitch"
    ensures LiveSite(streamUrl, platformKey) == YouTube ==> e.color == 0xFF0000 && e.title == RedDot + " Live on YouTube"
    ensures LiveSite(streamUrl, platformKey) == Kick ==> e.color == 0x53FC18 && e.title == GreenDot + " Live on Kick"
    ensures LiveSite(streamUrl, platformKey) == OtherSite ==> e.color == 0x9146FF && e.title == "Live Stream"
  {
    var site := match LiveSite(streamUrl, platformKey)
      case Twitch => (0x9146FF, PurpleDot + " Live on Twitch")
      case YouTube => (0xFF0000, RedDot + " Live on YouTube")
      case Kick => (0x53FC18, GreenDot + " Live on Kick")
      case OtherSite => (0x9146FF, "Live Stream");
    WebhookEmbed(site.1, s.title.GetOr("Live Stream"), streamUrl, site.0, StatsFields(s, ViewersLabel),
                 if Truthy(s.thumbnailUrl) then Some(CacheBusted(s.thumbnailUrl.value, now)) else None,
                 "Last updated: " + clock + " " + StoredBullet + " Click to watch!")
  }

  const DefaultEndedMessage: string := "Thanks for joining! Tune in next time " + PurpleHeart

  /** The ended message: the platform's own setting, else the general one,
      else the built-in text. */
  function EndedMessage(env: map<string, string>, platformKey: string): (m: string)
    ensures m != ""
    ensures Truthy(Secrets.Getenv(env, "DISCORD_ENDED_MESSAGE_" + Upper(platformKey))) ==>
              m == env["DISCORD_ENDED_MESSAGE_" + Upper(platformKey)]
    ensures (!Truthy(Secrets.Getenv(env, "DISCORD_ENDED_MESSAGE_" + Upper(platformKey)))
             && !Truthy(Secrets.Getenv(env, "DISCORD_ENDED_MESSAGE"))) ==> m == DefaultEndedMessage
    ensures (!Truthy(Secrets.Getenv(env, "DISCORD_ENDED_MESSAGE_" + Upper(platformKey)))
             && Truthy(Secrets.Getenv(env, "DISCORD_ENDED_MESSAGE"))) ==> m == env["DISCORD_ENDED_MESSAGE"]
  {
    var own := Secrets.Getenv(env, "DISCORD_ENDED_MESSAGE_" + Upper(platformKey));
    var general := Secrets.Getenv(env, "DISCORD_ENDED_MESSAGE");
    if Truthy(own) then own.value else if Truthy(general) then general.value else DefaultEndedMessage
  }

  /** The final embed of an ended stream, in muted colours: the ended
      message above the stream's title, peak viewers, the last thumbnail
      as it was, and the time it ended. */
  function EndEmbed(streamUrl: string, platformKey: string, s: StreamData, endedMessage: string, clock: string)
    : (e: WebhookEmbed)
    ensures e.url == streamUrl && e.fields == StatsFields(s, PeopleIcon + " Peak Viewers")
    ensures e.description == endedMessage + "\n\n**" + s.title.GetOr("Stream") + "**"
    ensures e.image == (if Truthy(s.thumbnailUrl) then s.thumbnailUrl else None)
    ensures e.footer == "Stream ended at " + clock + " " + StoredBullet + " Click for VOD"
    ensures LiveSite(streamUrl, platformKey) == OtherSite <==> e.color == 0x808080
    ensures LiveSite(streamUrl, platformKey) == Twitch ==> e.color == 0x6441A5 && e.title == StopIcon + " Stream Ended - Twitch"
    ensures LiveSite(streamUrl, platformKey) == YouTube ==> e.color == 0xCC0000 && e.title == StopIcon + " Stream Ended - YouTube"
    ensures LiveSite(streamUrl, platformKey) == Kick ==> e.color == 0x42C814 && e.title == StopIcon + " Stream Ended - Kick"
    ensures LiveSite(streamUrl, platformKey) == OtherSite ==> e.title == "Stream Ended"
  {
    var site := match LiveSite(streamUrl, platformKey)
      case Twitch => (0x6441A5, StopIcon + " Stream Ended - Twitch")
      case YouTube => (0xCC0000, StopIcon + " Stream Ended - YouTube")
      case Kick => (0x42C814, StopIcon + " Stream Ended - Kick")
      case OtherSite => (0x808080, "Stream Ended");
    WebhookEmbed(site.1, endedMessage + "\n\n**" + s.title.GetOr("Stream") + "**", streamUrl, site.0,
                 StatsFields(s, PeopleIcon + " Peak Viewers"),
                 if Truthy(s.thumbnailUrl) then s.thumbnailUrl else None,
                 "Stream ended at " + clock + " " + StoredBullet + " Click for VOD")
  }

  // ---------------------------------------------------------------------
  // The platform

  /** What the platform keeps about a message it may edit. */
  datatype ActiveMessage = ActiveMessage(messageId: string, webhookUrl: string, originalContent: string)

  /** A request sent to a webhook: the URL and the JSON payload's
      "content" (absent when empty) and embed. */
  datatype Request =
    | PostRequest(url: string, content: Option<string>, embed: Option<WebhookEmbed>)
    | PatchRequest(url: string, content: Option<string>, edited: WebhookEmbed)

  /** The payload's "content": left out when empty. */
  function ContentField(c: string): (f: Option<string>)
    ensures f.None? <==> c == ""
    ensures f.Some? ==> f.value == c
  {
    if c == "" then None else Some(c)
  }

  /** The settings found under `prefix + p` for the platforms `ps`, by
      platform. */
  function Configured(secrets: map<string, string>, prefix: string, ps: seq<string>): map<string, string> {
    if ps == [] then map[]
    else
      var m := Configured(secrets, prefix, ps[..|ps| - 1]);
      var p := ps[|ps| - 1];
      if Truthy(Secrets.Getenv(secrets, prefix + p)) then m[p := secrets[prefix + p]] else m
  }

  /** A platform has a setting exactly when it is listed and its key holds
      a non-empty value, and the setting is that value. */
  lemma {:induction false} ConfiguredSettings(secrets: map<string, string>, prefix: string, ps: seq<string>)
    ensures var m := Configured(secrets, prefix, ps);
            && (forall p :: p in m <==> p in ps && Truthy(Secrets.Getenv(secrets, prefix + p)))
            && (forall p :: p in m ==> prefix + p in secrets && m[p] == secrets[prefix + p])
  {
    if ps != [] {
      ConfiguredSettings(secrets, prefix, ps[..|ps| - 1]);
      assert forall q :: q in ps <==> q in ps[..|ps| - 1] || q == ps[|ps| - 1];
    }
  }

  /** Only the four platforms get settings. */
  lemma ConfiguredPlatforms(secrets: map<string, string>, prefix: string)
    ensures forall p :: p in Configured(secrets, prefix, Platforms) ==> p in Platforms
  {
    ConfiguredSettings(secrets, prefix, Platforms);
  }

  /** Adding settings for known platforms keeps every key a known platform. */
  lemma MergeKeepsPlatforms(m: map<string, string>, found: map<string, string>)
    requires forall p :: p in m ==> p in Platforms
    requires forall p :: p in found ==> p in Platforms
    ensures forall p :: p in m + found ==> p in Platforms
  {
  }

  /** The webhook a post goes to: the platform's own, else the default. */
  function ChooseWebhook(platformName: Option<string>, webhookUrls: map<string, string>, webhookUrl: Option<string>)
    : (w: Option<string>)
    ensures Truthy(platformName) && Lower(platformName.value) in webhookUrls ==>
              w == Some(webhookUrls[Lower(platformName.value)])
    ensures !(Truthy(platformName) && Lower(platformName.value) in webhookUrls) ==> w == webhookUrl
  {
    if Truthy(platformName) && Lower(platformName.value) in webhookUrls then Some(webhookUrls[Lower(platformName.value)])
    else webhookUrl
  }

  /** The edit URL of a posted message. */
  function MessageUrl(m: ActiveMessage): string {
    m.webhookUrl + "/messages/" + m.messageId
  }

  /** The request `post` sends through a webhook: the webhook with
      `wait=true`, the content with its role, and the embed when the
      message has a URL and stream data was given. */
  function Announcement(message: string, platformName: Option<string>, stream: Option<StreamData>, webhook: string,
                        roleMentions: map<string, string>, roleId: Option<string>): (r: Request)
    ensures r.PostRequest? && StartsWith(r.url, webhook) && EndsWith(r.url, "wait=true")
    ensures r.content == ContentField(PostContent(message, platformName, roleMentions, roleId))
    ensures r.embed.Some? <==> FirstUrl(message).Some? && stream.Some?
    ensures r.embed.Some? ==> r.embed.value == PostEmbed(FirstUrl(message).value, platformName, stream.value)
  {
    var first := FirstUrl(message);
    var embed := if first.Some? && stream.Some? then Some(PostEmbed(first.value, platformName, stream.value)) else None;
    PostRequest(WithWait(webhook), ContentField(PostContent(message, platformName, roleMentions, roleId)), embed)
  }

  class DiscordPlatform {
    var enabled: bool
    var webhookUrl: Option<string>
    var webhookUrls: map<string, string>
    var roleId: Option<string>
    var roleMentions: map<string, string>
    var activeMessages: map<string, ActiveMessage>

    /** Per-platform settings exist only for the four platforms, and every
        tracked message has a webhook to edit it through. */
    predicate Valid()
      reads this
    {
      && (forall p :: p in webhookUrls ==> p in Platforms)
      && (forall p :: p in roleMentions ==> p in Platforms)
      && (forall k :: k in activeMessages ==> activeMessages[k].webhookUrl != "")
    }

    constructor ()
      ensures Valid()
      ensures !enabled && webhookUrl.None? && webhookUrls == map[] && roleId.None? && roleMentions == map[]
      ensures activeMessages == map[]
    {
      enabled := false;
      webhookUrl := None;
      webhookUrls := map[];
      roleId := None;
      roleMentions := map[];
      activeMessages := map[];
    }

    /** `authenticate`: read the default webhook and the per-platform ones;
        without any webhook, fail (the webhooks read stay set). Then read
        the roles and enable. Per-platform entries are added to those
        already there. */
    method Authenticate(enablePosting: bool, secrets: map<string, string>) returns (ok: bool)
      requires Valid()
      modifies this
      ensures Valid()
      ensures !enablePosting ==> !ok && unchanged(this)
      ensures enablePosting ==> webhookUrl == Secrets.Getenv(secrets, "webhook_url")
                                && webhookUrls == old(webhookUrls) + Configured(secrets, "webhook_", Platforms)
      ensures ok <==> enablePosting && (Truthy(webhookUrl) || webhookUrls != map[])
      ensures ok ==> enabled && roleId == Secrets.Getenv(secrets, "role")
                     && roleMentions == old(roleMentions) + Configured(secrets, "role_", Platforms)
      ensures !ok ==> enabled == old(enabled) && roleId == old(roleId) && roleMentions == old(roleMentions)
      ensures activeMessages == old(activeMessages)
    {
      if !enablePosting {
        return false;
      }
      webhookUrl := Secrets.Getenv(secrets, "webhook_url");
      var found := CollectSettings(secrets, "webhook_");
      ConfiguredPlatforms(secrets, "webhook_");
      MergeKeepsPlatforms(webhookUrls, found);
      webhookUrls := webhookUrls + found;
      if !Truthy(webhookUrl) && webhookUrls == map[] {
        return false;
      }
      roleId := Secrets.Getenv(secrets, "role");
      var roles := CollectSettings(secrets, "role_");
      ConfiguredPlatforms(secrets, "role_");
      MergeKeepsPlatforms(roleMentions, roles);
      roleMentions := roleMentions + roles;
      enabled := true;
      ok := true;
    }

    /** `post`: send the announcement (with its embed when the message
        has a URL and stream data was given) to the platform's webhook;
        on 200, return the message id and, with a platform name, remember
        the message for later edits. */
    method Post(message: string, platformName: Option<string>, stream: Option<StreamData>,
                response: Response<Option<string>>) returns (id: Option<string>, request: Option<Request>)
      requires Valid()
      modifies this
      ensures Valid()
      ensures var w := ChooseWebhook(platformName, webhookUrls, webhookUrl);
              request.Some? <==> enabled && Truthy(w)
      ensures request.Some? ==>
                request.value == Announcement(message, platformName, stream,
                                              ChooseWebhook(platformName, webhookUrls, webhookUrl).value, roleMentions, roleId)
      ensures id == (if request.Some? && response.Http? && response.status == 200 then response.body else None)
      ensures activeMessages ==
                if request.Some? && response.Http? && response.status == 200 && Truthy(response.body) && Truthy(platformName)
                then old(activeMessages)[Lower(platformName.value) := ActiveMessage(response.body.value,
                       ChooseWebhook(platformName, webhookUrls, webhookUrl).value,
                       PostContent(message, platformName, roleMentions, roleId))]
                else old(activeMessages)
      ensures enabled == old(enabled) && webhookUrl == old(webhookUrl) && webhookUrls == old(webhookUrls)
      ensures roleId == old(roleId) && roleMentions == old(roleMentions)
    {
      id, request := None, None;
      if !enabled {
        return;
      }
      var webhook := ChooseWebhook(platformName, webhookUrls, webhookUrl);
      if !Truthy(webhook) {
        return;
      }
      request := Some(Announcement(message, platformName, stream, webhook.value, roleMentions, roleId));
      if response.Http? && response.status == 200 {
        id := response.body;
        if Truthy(id) && Truthy(platformName) {
          var content := PostContent(message, platformName, roleMentions, roleId);
          activeMessages := activeMessages[Lower(platformName.value) := ActiveMessage(id.value, webhook.value, content)];
        }
      }
    }

    /** `update_stream`: edit the tracked message of a platform with fresh
        counts; False when disabled, unnamed or untracked, and when the
        edit does not answer 200. The tracked messages do not change. */
    method UpdateStream(platformName: string, stream: StreamData, streamUrl: string, now: int, clock: string,
                        status: Option<int>) returns (ok: bool, request: Option<Request>)
      requires Valid()
      ensures request.Some? <==> enabled && platformName != "" && Lower(platformName) in activeMessages
      ensures request.Some? ==>
                var m := activeMessages[Lower(platformName)];
                request.value == PatchRequest(MessageUrl(m), ContentField(m.originalContent),
                                              UpdateEmbed(streamUrl, Lower(platformName), stream, now, clock))
      ensures ok <==> request.Some? && status == Some(200)
    {
      request := None;
      if !enabled || platformName == "" {
        return false, None;
      }
      var key := Lower(platformName);
      if key !in activeMessages {
        return false, None;
      }
      var m := activeMessages[key];
      request := Some(PatchRequest(MessageUrl(m), ContentField(m.originalContent),
                                   UpdateEmbed(streamUrl, key, stream, now, clock)));
      ok := status == Some(200);
    }

    /** `clear_stream`: forget the platform's tracked message. */
    method ClearStream(platformName: string)
      requires Valid()
      modifies this
      ensures Valid()
      ensures activeMessages == old(activeMessages) - {Lower(platformName)}
      ensures enabled == old(enabled) && webhookUrl == old(webhookUrl) && webhookUrls == old(webhookUrls)
      ensures roleId == old(roleId) && roleMentions == old(roleMentions)
    {
      var key := Lower(platformName);
      if key in activeMessages {
        activeMessages := activeMessages - {key};
      }
    }

    /** `end_stream`: turn the tracked message into the ended card and
        stop tracking it once the edit answers 200. The card's role comes
        from the lookup by the whole platform name (`EndRole`), which for a
        suffixed platform can differ from the announcement's role
        (`EndRoleDiffersFromPost`). */
    method EndStream(platformName: string, stream: StreamData, streamUrl: string, env: map<string, string>,
                     clock: string, status: Option<int>) returns (ok: bool, request: Option<Request>)
      requires Valid()
      modifies this
      ensures Valid()
      ensures request.Some? <==> old(enabled) && platformName != "" && Lower(platformName) in old(activeMessages)
      ensures request.Some? ==>
                var key := Lower(platformName);
                var m := old(activeMessages)[key];
                request.value == PatchRequest(MessageUrl(m), ContentField(EndRole(key, roleMentions, roleId)),
                                              EndEmbed(streamUrl, key, stream, EndedMessage(env, key), clock))
      ensures ok <==> request.Some? && status == Some(200)
      ensures activeMessages == if ok then old(activeMessages) - {Lower(platformName)} else old(activeMessages)
      ensures enabled == old(enabled) && webhookUrl == old(webhookUrl) && webhookUrls == old(webhookUrls)
      ensures roleId == old(roleId) && roleMentions == old(roleMentions)
    {
      if !enabled || platformName == "" {
        return false, None;
      }
      var key := Lower(platformName);
      if key !in activeMessages {
        return false, None;
      }
      var m := activeMessages[key];
      request := Some(PatchRequest(MessageUrl(m), ContentField(EndRole(key, roleMentions, roleId)),
                                   EndEmbed(streamUrl, key, stream, EndedMessage(env, key), clock)));
      ok := status == Some(200);
      if ok {
        activeMessages := activeMessages - {key};
      }
    }
  }

  /** The loop over the four platforms that reads one setting each. */
  method CollectSettings(secrets: map<string, string>, prefix: string) returns (found: map<string, string>)
    ensures found == Configured(secrets, prefix, Platforms)
  {
    found := map[];
    var i := 0;
    while i < |Platforms|
      invariant 0 <= i <= |Platforms|
      invariant found == Configured(secrets, prefix, Platforms[..i])
    {
      var p := Platforms[i];
      var setting := Secrets.Getenv(secrets, prefix + p);
      if Truthy(setting) {
        found := found[p := setting.value];
      }
      assert Platforms[..i + 1][..i] == Platforms[..i];
      i := i + 1;
    }
    assert Platforms[..i] == Platforms;
  }
}
