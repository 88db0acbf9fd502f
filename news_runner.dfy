/** The standalone runner that fetches one news category outside the bot:
    its configuration load with the secrets/environment channel override,
    the table of source modules, the filter of enabled sources, and the
    guards that decide whether a fetch happens at all. */
module NewsRunner {
  import opened Common
  import opened NewsManager
  import NewsFetcher

  const DefaultConcurrencyLimit: int := 5

  /** The entry created for a category missing from the file when the
      secrets or environment supply its channel. */
  const RunnerDefault: Category :=
    Category(Some(false), None, Some(3), None, Some(map[]), None, Some(5), None)

  /** `_load_config`: the file's configuration (empty when there is none);
      when the secrets or environment give an all-digit channel ID, the
      category gets that channel, its entry created first when missing. */
  function LoadConfig(file: Option<Config>, env: Env, category: string): (config: Config)
    ensures EnvChannel(env, category).None? ==> config == file.GetOr(map[])
    ensures EnvChannel(env, category).Some? ==>
              && category in config
              && config[category].channelId == EnvChannel(env, category)
              && config == file.GetOr(map[])[category := config[category]]
    ensures EnvChannel(env, category).Some? && category !in file.GetOr(map[]) ==>
              config[category] == RunnerDefault.(channelId := EnvChannel(env, category))
    ensures EnvChannel(env, category).Some? && category in file.GetOr(map[]) ==>
              config[category] == file.GetOr(map[])[category].(channelId := EnvChannel(env, category))
  {
    var loaded := file.GetOr(map[]);
    match EnvChannel(env, category)
    case None => loaded
    case Some(id) =>
      var base := if category in loaded then loaded[category] else RunnerDefault;
      loaded[category := base.(channelId := Some(id))]
  }

  /** A constructed runner: its category, whole configuration, the
      category's entry, and the fetcher's concurrency limit. */
  datatype Runner = Runner(category: string, config: Config, categoryConfig: Category, concurrencyLimit: int)

  /** `__init__`: ValueError (None) when the category has no entry or an
      empty one; otherwise the concurrency limit is the entry's, default 5. */
  function Init(category: string, file: Option<Config>, env: Env): (r: Option<Runner>)
    ensures var config := LoadConfig(file, env, category);
            r.None? <==> category !in config || IsEmptyEntry(config[category])
    ensures r.Some? ==> r.value.config == LoadConfig(file, env, category)
                        && r.value.categoryConfig == LoadConfig(file, env, category)[category]
                        && r.value.concurrencyLimit == r.value.categoryConfig.concurrencyLimit.GetOr(DefaultConcurrencyLimit)
  {
    var config := LoadConfig(file, env, category);
    if category !in config || IsEmptyEntry(config[category]) then None
    else Some(Runner(category, config, config[category], config[category].concurrencyLimit.GetOr(DefaultConcurrencyLimit)))
  }

  /** A secrets/environment channel always yields a runner: the entry it
      creates or updates is not empty. */
  lemma EnvChannelMakesRunner(category: string, file: Option<Config>, env: Env)
    requires EnvChannel(env, category).Some?
    ensures Init(category, file, env).Some?
    ensures Init(category, file, env).value.categoryConfig.channelId == EnvChannel(env, category)
  {
  }

  /** The categories `_get_sources` knows, with the module holding each
      category's source table. */
  function SourceModule(category: string): (m: Option<string>)
    ensures m.Some? <==> category in {"cybersecurity", "tech", "gaming", "apple_google", "cve", "kev",
                                      "us_legislation", "eu_legislation", "uk_legislation", "general_news"}
  {
    if category == "cybersecurity" then Some("cogs.cybersecurity_news")
    else if category == "tech" then Some("cogs.tech_news")
    else if category == "gaming" then Some("cogs.gaming_news")
    else if category == "apple_google" then Some("cogs.apple_google_news")
    else if category == "cve" then Some("cogs.cve")
    else if category == "kev" then Some("cogs.kev")
    else if category == "us_legislation" then Some("cogs.us_legislation")
    else if category == "eu_legislation" then Some("cogs.eu_legislation")
    else if category == "uk_legislation" then Some("cogs.uk_legislation")
    else if category == "general_news" then Some("cogs.general_news")
    else None
  }

  /** A source table: its keys in insertion order and the entry of each. */
  datatype SourceTable = SourceTable(keys: seq<string>, entries: map<string, NewsFetcher.Source>)

  datatype SourcesResult = Sources(table: SourceTable) | UnknownCategory

  /** `_get_sources`: ValueError for a category outside the module map; the
      module's table when it imports (`tables`, by module name), and an empty
      table when the import fails. */
  function GetSources(category: string, tables: map<string, SourceTable>): (r: SourcesResult)
    ensures r.UnknownCategory? <==> SourceModule(category).None?
    ensures r.Sources? && SourceModule(category).value !in tables ==> r.table.keys == []
    ensures SourceModule(category).Some? && SourceModule(category).value in tables ==>
              r == Sources(tables[SourceModule(category).value])
  {
    match SourceModule(category)
    case None => UnknownCategory
    case Some(m) => Sources(if m in tables then tables[m] else SourceTable([], map[]))
  }

  /** `disabled.get(key, True)`. */
  predicate Flag(flags: map<string, bool>, key: string) {
    if key in flags then flags[key] else true
  }

  /** The enabled keys, in table order. */
  function EnabledKeys(keys: seq<string>, flags: map<string, bool>): (r: seq<string>)
    ensures |r| <= |keys|
  {
    if keys == [] then []
    else EnabledKeys(keys[..|keys| - 1], flags) + (if Flag(flags, keys[|keys| - 1]) then [keys[|keys| - 1]] else [])
  }

  /** A key is kept iff it is in the table and its switch is not false. */
  lemma {:induction false} EnabledKeysMembers(keys: seq<string>, flags: map<string, bool>, k: string)
    ensures k in EnabledKeys(keys, flags) <==> k in keys && Flag(flags, k)
  {
    if keys != [] {
      var init := keys[..|keys| - 1];
      EnabledKeysMembers(init, flags, k);
      assert keys == init + [keys[|keys| - 1]];
    }
  }

  /** With no switch turned off, every key is kept, in table order. */
  lemma {:induction false} EnabledKeysAllEnabled(keys: seq<string>, flags: map<string, bool>)
    requires forall k :: k in keys ==> Flag(flags, k)
    ensures EnabledKeys(keys, flags) == keys
  {
    if keys != [] {
      EnabledKeysAllEnabled(keys[..|keys| - 1], flags);
      assert keys == keys[..|keys| - 1] + [keys[|keys| - 1]];
    }
  }

  /** The switches the category entry stores, `get('sources', {})`. */
  function SourceFlags(c: Category): map<string, bool> {
    c.sources.GetOr(map[])
  }

  /** The runner's filter agrees with the bot's `is_source_enabled`. */
  lemma FlagIsSourceEnabled(config: Config, category: string, key: string)
    requires category in config
    ensures Flag(SourceFlags(config[category]), key) == IsSourceEnabled(config, category, key)
  {
  }

  /** `_get_enabled_sources`. */
  method GetEnabledSources(table: SourceTable, c: Category) returns (enabled: seq<string>)
    ensures enabled == EnabledKeys(table.keys, SourceFlags(c))
  {
    var flags := SourceFlags(c);
    enabled := [];
    var i := 0;
    while i < |table.keys|
      invariant 0 <= i <= |table.keys|
      invariant enabled == EnabledKeys(table.keys[..i], flags)
    {
      var key := table.keys[i];
      assert table.keys[..i + 1][..i] == table.keys[..i];
      if Flag(flags, key) {
        enabled := enabled + [key];
      }
      i := i + 1;
    }
    assert table.keys[..i] == table.keys;
  }

  /** Why `fetch_and_post` stops before fetching. */
  datatype Stop = Disabled | NoChannel | NoToken | NoSources

  datatype Plan = Skip(reason: Stop) | Fetch(useCache: bool)

  /** The bot token: the DISCORD/BOT_TOKEN secret, else `DISCORD_BOT_TOKEN`,
      else `DISCORD_TOKEN`, each only when non-empty. */
  function ResolveToken(secret: Option<string>, vars: map<string, string>): (t: Option<string>)
    ensures t.Some? ==> t.value != ""
    ensures t.None? <==> !Truthy(secret) && !Truthy(Lookup(vars, "DISCORD_BOT_TOKEN")) && !Truthy(Lookup(vars, "DISCORD_TOKEN"))
  {
    if Truthy(secret) then secret
    else if Truthy(Lookup(vars, "DISCORD_BOT_TOKEN")) then Lookup(vars, "DISCORD_BOT_TOKEN")
    else if Truthy(Lookup(vars, "DISCORD_TOKEN")) then Lookup(vars, "DISCORD_TOKEN")
    else None
  }

  /** The guards of `fetch_and_post`, in order. */
  function Decide(c: Category, token: Option<string>, table: SourceTable): (p: Plan)
    ensures p.Fetch? <==> IsEnabled(c) && HasChannel(c) && token.Some? && table.keys != []
    ensures !IsEnabled(c) ==> p == Skip(Disabled)
    ensures IsEnabled(c) && !HasChannel(c) ==> p == Skip(Stop.NoChannel)
    ensures p.Fetch? ==> p.useCache == c.useEtagCache.GetOr(true)
  {
    if !IsEnabled(c) then Skip(Disabled)
    else if !HasChannel(c) then Skip(Stop.NoChannel)
    else if token.None? then Skip(NoToken)
    else if table.keys == [] then Skip(NoSources)
    else Fetch(c.useEtagCache.GetOr(true))
  }

  /** `fetch_and_post` up to the posting: the guards, then one batch fetch
      of the enabled sources. Nothing is fetched, and the fetcher's cache is
      untouched, unless every guard passes. */
  method FetchAndPost(r: Runner, fetcher: NewsFetcher.Fetcher, token: Option<string>, table: SourceTable,
                      responses: map<string, NewsFetcher.Response>)
    returns (plan: Plan, items: seq<NewsFetcher.NewItem>)
    modifies fetcher
    ensures plan == Decide(r.categoryConfig, token, table)
    ensures plan.Skip? ==> items == [] && unchanged(fetcher)
    ensures plan.Fetch? ==>
              (items, NewsFetcher.Cache(fetcher.etags, fetcher.lastModified, fetcher.lastGuids))
              == NewsFetcher.Gathered(table.entries, EnabledKeys(table.keys, SourceFlags(r.categoryConfig)),
                                      plan.useCache, responses,
                                      old(NewsFetcher.Cache(fetcher.etags, fetcher.lastModified, fetcher.lastGuids)))
    ensures fetcher.concurrencyLimit == old(fetcher.concurrencyLimit)
  {
    plan := Decide(r.categoryConfig, token, table);
    items := [];
    if plan.Skip? {
      return;
    }
    var enabled := GetEnabledSources(table, r.categoryConfig);
    var saved;
    items, saved := fetcher.FetchMultiple(table.entries, enabled, plan.useCache, responses);
  }
}
