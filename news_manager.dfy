/** The news configuration cog: one configuration entry per news category
    (posting channel, on/off switch, interval, per-source switches, roles
    allowed to manage it) and the commands that change it.

    The persisted JSON is modelled as a map from category name to a
    `Category` record. Keys a hand-written file may lack are `Option`s; a
    command that indexes a missing category or key raises KeyError in the bot,
    modelled as the reply `KeyFailure` with the configuration unchanged. */
module NewsManager {
  import opened Common

  /** The category names the commands accept. */
  const Categories: seq<string> := ["cybersecurity", "tech", "gaming", "apple_google", "cve",
                                    "us_legislation", "eu_legislation", "general_news"]

  datatype Category = Category(
    enabled: Option<bool>,
    channelId: Option<int>,
    intervalHours: Option<int>,
    minuteOffset: Option<int>,
    sources: Option<map<string, bool>>,
    approvedRoles: Option<seq<int>>,
    concurrencyLimit: Option<int>,
    useEtagCache: Option<bool>)

  type Config = map<string, Category>

  /** An entry with no keys at all, `{}`, which Python treats as false. */
  predicate IsEmptyEntry(c: Category) {
    c == Category(None, None, None, None, None, None, None, None)
  }

  /** `get_category_config`: the category's entry, or `{}` when it has none. */
  function CategoryConfig(config: Config, category: string): (c: Category)
    ensures category in config ==> c == config[category]
    ensures category !in config ==> IsEmptyEntry(c)
  {
    if category in config then config[category] else Category(None, None, None, None, None, None, None, None)
  }

  /** The member running a command: guild permissions and role IDs. */
  datatype Member = Member(isAdmin: bool, manageGuild: bool, roleIds: seq<int>)

  /** How a command ends. */
  datatype Reply =
    | Done
    | Denied
    | NoChannel
    | BadInterval
    | AlreadyApproved
    | NotApproved
    | InvalidCategory
    | NotInConfig
    | KeyFailure

  /** Where channel IDs may come from: the secrets manager's answers by key
      name, and the process environment. */
  datatype Env = Env(secrets: map<string, string>, vars: map<string, string>)

  function Lookup(m: map<string, string>, k: string): Option<string> {
    if k in m then Some(m[k]) else None
  }

  // ---------------------------------------------------------------------
  // Reads

  /** `enabled` is truthy. */
  predicate IsEnabled(c: Category) {
    c.enabled == Some(true)
  }

  /** `channel_id` is truthy: present and not 0. */
  predicate HasChannel(c: Category) {
    c.channelId.Some? && c.channelId.value != 0
  }

  function ApprovedRoles(config: Config, category: string): seq<int> {
    if category in config && config[category].approvedRoles.Some? then config[category].approvedRoles.value else []
  }

  /** `any(role_id in approved for role_id in roles)`. */
  function AnyApproved(roles: seq<int>, approved: seq<int>): (r: bool)
    ensures r <==> exists i :: 0 <= i < |roles| && roles[i] in approved
  {
    if roles == [] then false
    else roles[0] in approved || AnyApproved(roles[1..], approved)
  }

  /** `has_permission`: administrators always; others when one of their
      roles is approved for the category. */
  function HasPermission(config: Config, user: Member, category: string): (r: bool)
    ensures r <==> user.isAdmin || exists i :: 0 <= i < |user.roleIds| && user.roleIds[i] in ApprovedRoles(config, category)
    ensures category !in config ==> (r <==> user.isAdmin)
  {
    user.isAdmin || AnyApproved(user.roleIds, ApprovedRoles(config, category))
  }

  /** `is_source_enabled`: the stored switch, True for an unknown category,
      a category without a sources map, or an unknown source. */
  function IsSourceEnabled(config: Config, category: string, source: string): (r: bool)
    ensures category !in config ==> r
    ensures category in config && config[category].sources.Some? && source in config[category].sources.value ==>
              r == config[category].sources.value[source]
    ensures !r ==> category in config && config[category].sources.Some? && source in config[category].sources.value
  {
    if category in config && config[category].sources.Some? && source in config[category].sources.value
    then config[category].sources.value[source]
    else true
  }

  // ---------------------------------------------------------------------
  // Loading

  /** `_get_channel_id_from_env`: the secret if it is non-empty, else the
      environment variable; used only when it is all digits. */
  function ChannelFromEnv(secret: Option<string>, envVar: Option<string>): (r: Option<int>)
    ensures r.Some? <==> (if Truthy(secret) then IsDigits(secret.value) else Truthy(envVar) && IsDigits(envVar.value))
    ensures r.Some? ==> r.value >= 0
    ensures Truthy(secret) && IsDigits(secret.value) ==> r == Some(DigitsValue(secret.value))
  {
    var text := if Truthy(secret) then secret else envVar;
    if Truthy(text) && IsDigits(text.value) then Some(DigitsValue(text.value)) else None
  }

  /** The channel a category gets from the secret `{CATEGORY}_CHANNEL_ID`
      of section NEWS, else from `NEWS_{CATEGORY}_CHANNEL_ID`. */
  function EnvChannel(env: Env, category: string): Option<int> {
    ChannelFromEnv(Lookup(env.secrets, Upper(category) + "_CHANNEL_ID"),
                   Lookup(env.vars, "NEWS_" + Upper(category) + "_CHANNEL_ID"))
  }

  function DefaultCategory(env: Env, name: string, hours: int, offset: int, concurrency: int): Category {
    Category(Some(false), EnvChannel(env, name), Some(hours), Some(offset), Some(map[]), Some([]), Some(concurrency), Some(true))
  }

  /** The staggered schedule of the defaults: (interval hours, minute
      offset, concurrency limit) per category. */
  function Schedule(name: string): (int, int, int) {
    if name == "cybersecurity" then (3, 1, 5)
    else if name == "tech" then (4, 30, 5)
    else if name == "gaming" then (2, 15, 5)
    else if name == "apple_google" then (3, 45, 5)
    else if name == "cve" then (6, 0, 3)
    else if name == "us_legislation" then (1, 5, 3)
    else if name == "eu_legislation" then (1, 10, 3)
    else (2, 20, 5)
  }

  /** The configuration used when there is no readable file: one default
      entry per category. */
  function DefaultConfig(env: Env): Config {
    map c | c in Categories :: DefaultCategory(env, c, Schedule(c).0, Schedule(c).1, Schedule(c).2)
  }

  /** `_load_config`: the file's entries with the channel replaced wherever
      the secrets or environment give a non-zero all-digit ID; the defaults
      when there is no readable file. */
  function LoadConfig(file: Option<Config>, env: Env): Config {
    match file
    case None => DefaultConfig(env)
    case Some(f) =>
      map c | c in f :: if EnvChannel(env, c).Some? && EnvChannel(env, c).value != 0
                        then f[c].(channelId := EnvChannel(env, c)) else f[c]
  }

  /** The eight defaults: all disabled, no sources, no approved roles, ETag
      caching on, the channel from the secrets or environment, and the
      staggered schedule of the bot. */
  lemma DefaultsShape(env: Env)
    ensures DefaultConfig(env).Keys == set c | c in Categories
    ensures forall c :: c in DefaultConfig(env) ==>
              var d := DefaultConfig(env)[c];
              d.enabled == Some(false) && d.sources == Some(map[]) && d.approvedRoles == Some([]) && d.useEtagCache == Some(true)
              && d.channelId == EnvChannel(env, c)
              && (d.intervalHours, d.minuteOffset, d.concurrencyLimit)
                 == (Some(Schedule(c).0), Some(Schedule(c).1), Some(Schedule(c).2))
  {
  }

  /** The staggered schedule: CVE every 6 hours and the legislation feeds
      every hour, those three with concurrency 3 and the others with 5. */
  lemma DefaultSchedule()
    ensures Schedule("cybersecurity") == (3, 1, 5) && Schedule("tech") == (4, 30, 5)
    ensures Schedule("gaming") == (2, 15, 5) && Schedule("apple_google") == (3, 45, 5)
    ensures Schedule("cve") == (6, 0, 3) && Schedule("us_legislation") == (1, 5, 3)
    ensures Schedule("eu_legislation") == (1, 10, 3) && Schedule("general_news") == (2, 20, 5)
    ensures forall c :: c in Categories ==> 1 <= Schedule(c).0 <= 24 && 0 <= Schedule(c).1 < 60
  {
  }

  /** A loaded file keeps its categories; an entry's channel changes only to
      a non-zero all-digit ID from the secrets or the environment. */
  lemma LoadedChannelOverride(file: Config, env: Env, c: string)
    requires c in file
    ensures c in LoadConfig(Some(file), env)
    ensures var e := LoadConfig(Some(file), env)[c];
            e.channelId != file[c].channelId ==>
              var secret := Lookup(env.secrets, Upper(c) + "_CHANNEL_ID");
              var envVar := Lookup(env.vars, "NEWS_" + Upper(c) + "_CHANNEL_ID");
              (Truthy(secret) && IsDigits(secret.value)) || (Truthy(envVar) && IsDigits(envVar.value))
    ensures LoadConfig(Some(file), env)[c] == file[c].(channelId := LoadConfig(Some(file), env)[c].channelId)
  {
  }

  // ---------------------------------------------------------------------
  // Pure updates the commands perform

  /** The config after `toggle_source`: the source's switch set to the
      negation of what `is_source_enabled` answered. */
  function Toggle(config: Config, category: string, source: string): Config
    requires category in config && config[category].sources.Some?
  {
    var c := config[category];
    config[category := c.(sources := Some(c.sources.value[source := !IsSourceEnabled(config, category, source)]))]
  }

  /** Toggling flips the answer for that source and for no other. */
  lemma ToggleFlips(config: Config, category: string, source: string, other: string, otherCategory: string)
    requires category in config && config[category].sources.Some?
    ensures IsSourceEnabled(Toggle(config, category, source), category, source) == !IsSourceEnabled(config, category, source)
    ensures other != source ==>
              IsSourceEnabled(Toggle(config, category, source), category, other) == IsSourceEnabled(config, category, other)
    ensures otherCategory != category ==>
              IsSourceEnabled(Toggle(config, category, source), otherCategory, other) == IsSourceEnabled(config, otherCategory, other)
  {
  }

  /** Toggling twice restores the answer `is_source_enabled` gives. */
  lemma ToggleTwice(config: Config, category: string, source: string, other: string)
    requires category in config && config[category].sources.Some?
    ensures var once := Toggle(config, category, source);
            IsSourceEnabled(Toggle(once, category, source), category, other) == IsSourceEnabled(config, category, other)
  {
    var once := Toggle(config, category, source);
    ToggleFlips(config, category, source, other, category);
    ToggleFlips(once, category, source, other, category);
  }

  predicate Distinct(s: seq<int>) {
    forall i, j :: 0 <= i < j < |s| ==> s[i] != s[j]
  }

  /** Position of the first occurrence of x. */
  function IndexOf(s: seq<int>, x: int): (k: nat)
    requires x in s
    ensures k < |s| && s[k] == x && x !in s[..k]
  {
    if s[0] == x then 0
    else
      var k := IndexOf(s[1..], x);
      assert s[..k + 1] == [s[0]] + s[1..][..k];
      k + 1
  }

  /** `list.remove(x)`: the list without its first occurrence of x. */
  function RemoveFirst(s: seq<int>, x: int): (r: seq<int>)
    requires x in s
    ensures r == s[..IndexOf(s, x)] + s[IndexOf(s, x) + 1..]
  {
    if s[0] == x then s[1..]
    else
      var tail := RemoveFirst(s[1..], x);
      var k := IndexOf(s[1..], x);
      assert s[..k + 1] == [s[0]] + s[1..][..k];
      assert s[k + 2..] == s[1..][k + 1..];
      [s[0]] + tail
  }

  /** Position j of the shortened list is position j of the original
      before the removed occurrence and position j + 1 after it. */
  lemma RemoveFirstAt(s: seq<int>, x: int, j: int)
    requires x in s && 0 <= j < |s| - 1
    ensures |RemoveFirst(s, x)| == |s| - 1
    ensures RemoveFirst(s, x)[j] == s[if j < IndexOf(s, x) then j else j + 1]
  {
    var k := IndexOf(s, x);
    var front, back := s[..k], s[k + 1..];
    assert RemoveFirst(s, x) == front + back;
    if j < k {
      assert (front + back)[j] == front[j];
    } else {
      assert (front + back)[j] == back[j - k];
    }
  }

  /** Removing an approved role from a duplicate-free list leaves a
      duplicate-free list without that role. */
  lemma RemoveFirstFromDistinct(s: seq<int>, x: int)
    requires x in s && Distinct(s)
    ensures Distinct(RemoveFirst(s, x)) && x !in RemoveFirst(s, x)
    ensures forall y :: y in s && y != x ==> y in RemoveFirst(s, x)
  {
    var k := IndexOf(s, x);
    var r := RemoveFirst(s, x);
    assert |r| == |s| - 1;
    forall i, j | 0 <= i < j < |r|
      ensures r[i] != r[j]
    {
      RemoveFirstAt(s, x, i);
      RemoveFirstAt(s, x, j);
    }
    forall j | 0 <= j < |r|
      ensures r[j] != x
    {
      RemoveFirstAt(s, x, j);
    }
    forall y | y in s && y != x ensures y in r {
      var j :| 0 <= j < |s| && s[j] == y;
      if j < k {
        RemoveFirstAt(s, x, j);
      } else {
        RemoveFirstAt(s, x, j - 1);
      }
    }
  }

  /** Adding a role that is not yet approved keeps the approved list free
      of duplicates. */
  lemma AddKeepsDistinct(roles: seq<int>, role: int)
    requires Distinct(roles) && role !in roles
    ensures Distinct(roles + [role])
  {
  }

  // ---------------------------------------------------------------------
  // The cog

  class Manager {
    var config: Config

    constructor (file: Option<Config>, env: Env)
      ensures config == LoadConfig(file, env)
    {
      config := LoadConfig(file, env);
    }

    /** `/news set_channel`: approved roles or administrators. */
    method SetChannel(user: Member, category: string, channelId: int) returns (reply: Reply)
      modifies this
      ensures !HasPermission(old(config), user, category) ==> reply == Denied && config == old(config)
      ensures HasPermission(old(config), user, category) && category !in old(config) ==>
                reply == KeyFailure && config == old(config)
      ensures HasPermission(old(config), user, category) && category in old(config) ==>
                reply == Done && config == old(config)[category := old(config)[category].(channelId := Some(channelId))]
    {
      if !HasPermission(config, user, category) {
        return Denied;
      }
      if category !in config {
        return KeyFailure;
      }
      config := config[category := config[category].(channelId := Some(channelId))];
      reply := Done;
    }

    /** `/news enable`: administrators only, and only once a channel is set. */
    method Enable(user: Member, category: string) returns (reply: Reply)
      modifies this
      ensures reply != Done ==> config == old(config)
      ensures !user.isAdmin ==> reply == Denied
      ensures reply == Done <==> user.isAdmin && category in old(config) && HasChannel(old(config)[category])
      ensures user.isAdmin && category in old(config) && !HasChannel(old(config)[category]) ==> reply == NoChannel
      ensures reply == Done ==> config == old(config)[category := old(config)[category].(enabled := Some(true))]
    {
      if !user.isAdmin {
        return Denied;
      }
      if category !in config {
        return KeyFailure;
      }
      if !HasChannel(config[category]) {
        return NoChannel;
      }
      config := config[category := config[category].(enabled := Some(true))];
      reply := Done;
    }

    /** `/news disable`: administrators only. */
    method Disable(user: Member, category: string) returns (reply: Reply)
      modifies this
      ensures reply != Done ==> config == old(config)
      ensures reply == Done <==> user.isAdmin && category in old(config)
      ensures reply == Done ==> config == old(config)[category := old(config)[category].(enabled := Some(false))]
    {
      if !user.isAdmin {
        return Denied;
      }
      if category !in config {
        return KeyFailure;
      }
      config := config[category := config[category].(enabled := Some(false))];
      reply := Done;
    }

    /** `/news set_interval`: administrators only, hours within 1..24. */
    method SetInterval(user: Member, category: string, hours: int) returns (reply: Reply)
      modifies this
      ensures reply != Done ==> config == old(config)
      ensures user.isAdmin && !(1 <= hours <= 24) ==> reply == BadInterval
      ensures reply == Done <==> user.isAdmin && 1 <= hours <= 24 && category in old(config)
      ensures reply == Done ==> config == old(config)[category := old(config)[category].(intervalHours := Some(hours))]
    {
      if !user.isAdmin {
        return Denied;
      }
      if !(1 <= hours <= 24) {
        return BadInterval;
      }
      if category !in config {
        return KeyFailure;
      }
      config := config[category := config[category].(intervalHours := Some(hours))];
      reply := Done;
    }

    /** `/news toggle_source`: approved roles or administrators; the switch
        becomes the negation of `is_source_enabled`. */
    method ToggleSource(user: Member, category: string, source: string) returns (reply: Reply)
      modifies this
      ensures reply != Done ==> config == old(config)
      ensures reply == Done <==> HasPermission(old(config), user, category) && category in old(config)
                                 && old(config)[category].sources.Some?
      ensures reply == Done ==> config == Toggle(old(config), category, source)
    {
      if !HasPermission(config, user, category) {
        return Denied;
      }
      if category !in config || config[category].sources.None? {
        return KeyFailure;
      }
      config := Toggle(config, category, source);
      reply := Done;
    }

    /** `/news add_role`: administrators only; creates the list when the
        entry has none, and refuses a role that is already approved. */
    method AddRole(user: Member, category: string, role: int) returns (reply: Reply)
      modifies this
      ensures !user.isAdmin ==> reply == Denied && config == old(config)
      ensures user.isAdmin && category !in old(config) ==> reply == KeyFailure && config == old(config)
      ensures user.isAdmin && category in old(config) ==>
                var roles := ApprovedRoles(old(config), category);
                && (role in roles ==> reply == AlreadyApproved && config == old(config))
                && (role !in roles ==>
                      reply == Done
                      && config == old(config)[category := old(config)[category].(approvedRoles := Some(roles + [role]))])
    {
      if !user.isAdmin {
        return Denied;
      }
      if category !in config {
        return KeyFailure;
      }
      var roles := if config[category].approvedRoles.Some? then config[category].approvedRoles.value else [];
      if role in roles {
        return AlreadyApproved;
      }
      config := config[category := config[category].(approvedRoles := Some(roles + [role]))];
      reply := Done;
    }

    /** `/news remove_role`: administrators only; refuses a role that is not
        approved, and otherwise removes its first occurrence. */
    method RemoveRole(user: Member, category: string, role: int) returns (reply: Reply)
      modifies this
      ensures !user.isAdmin ==> reply == Denied && config == old(config)
      ensures user.isAdmin && category !in old(config) ==> reply == KeyFailure && config == old(config)
      ensures user.isAdmin && category in old(config) ==>
                var roles := ApprovedRoles(old(config), category);
                && (role !in roles ==> reply == NotApproved && config == old(config))
                && (role in roles ==>
                      reply == Done
                      && config == old(config)[category := old(config)[category].(approvedRoles := Some(RemoveFirst(roles, role)))])
    {
      if !user.isAdmin {
        return Denied;
      }
      if category !in config {
        return KeyFailure;
      }
      var roles := ApprovedRoles(config, category);
      if role !in roles {
        return NotApproved;
      }
      config := config[category := config[category].(approvedRoles := Some(RemoveFirst(roles, role)))];
      reply := Done;
    }

    /** `!news_set_channel`: Manage Server is required to run it at all; the
        category must be one of the eight; then the slash command's
        permission rule applies. */
    method SetChannelPrefix(user: Member, category: string, channelId: int) returns (reply: Reply)
      modifies this
      ensures reply != Done ==> config == old(config)
      ensures user.manageGuild && category !in Categories ==> reply == InvalidCategory
      ensures reply == Done <==> user.manageGuild && category in Categories
                                 && HasPermission(old(config), user, category) && category in old(config)
      ensures reply == Done ==> config == old(config)[category := old(config)[category].(channelId := Some(channelId))]
    {
      if !user.manageGuild {
        return Denied;
      }
      if category !in Categories {
        return InvalidCategory;
      }
      if !user.isAdmin && !AnyApproved(user.roleIds, ApprovedRoles(config, category)) {
        return Denied;
      }
      if category !in config {
        return KeyFailure;
      }
      config := config[category := config[category].(channelId := Some(channelId))];
      reply := Done;
    }

    /** `!news_enable`: administrators; a known category that is present in
        the configuration and has a channel. */
    method EnablePrefix(user: Member, category: string) returns (reply: Reply)
      modifies this
      ensures reply != Done ==> config == old(config)
      ensures user.isAdmin && category !in Categories ==> reply == InvalidCategory
      ensures user.isAdmin && category in Categories && category !in old(config) ==> reply == NotInConfig
      ensures reply == Done <==> user.isAdmin && category in Categories && category in old(config)
                                 && HasChannel(old(config)[category])
      ensures reply == Done ==> config == old(config)[category := old(config)[category].(enabled := Some(true))]
    {
      if !user.isAdmin {
        return Denied;
      }
      if category !in Categories {
        return InvalidCategory;
      }
      if category !in config {
        return NotInConfig;
      }
      if !HasChannel(config[category]) {
        return NoChannel;
      }
      config := config[category := config[category].(enabled := Some(true))];
      reply := Done;
    }

    /** `!news_disable`: administrators; a known category present in the
        configuration. */
    method DisablePrefix(user: Member, category: string) returns (reply: Reply)
      modifies this
      ensures reply != Done ==> config == old(config)
      ensures user.isAdmin && category !in Categories ==> reply == InvalidCategory
      ensures reply == Done <==> user.isAdmin && category in Categories && category in old(config)
      ensures reply == Done ==> config == old(config)[category := old(config)[category].(enabled := Some(false))]
    {
      if !user.isAdmin {
        return Denied;
      }
      if category !in Categories {
        return InvalidCategory;
      }
      if category !in config {
        return NotInConfig;
      }
      config := config[category := config[category].(enabled := Some(false))];
      reply := Done;
    }
  }
}
