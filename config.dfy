/** `utils/config.py`: configuration values looked up by section and key.
    Doppler is asked first when a Doppler token is set, then the
    environment; secrets also consult AWS Secrets Manager and HashiCorp
    Vault, and template placeholders starting with 'YOUR_' are refused.
    The process environment is a map that `load_config` fills from the
    `.env` file; what each back-end would answer is an input. */
module Config {
  import opened Common
  import opened Secrets

  const Placeholder: string := "YOUR_"

  /** `value and not value.startswith('YOUR_')`. */
  predicate Usable(v: Option<string>) {
    Truthy(v) && !StartsWith(v.value, Placeholder)
  }

  /** `key.upper()`. */
  function SimpleKey(key: string): string {
    Upper(key)
  }

  /** `f"{section}_{key}".upper()`, the name secrets are stored under. */
  function SectionedKey(section: string, key: string): string {
    Upper(section + "_" + key)
  }

  /** The two modules name a secret the same way: `utils/secrets.py`'s
      `PLATFORM_KEY` is this module's `SECTION_KEY`. */
  lemma SecretNamesAgree(section: string, key: string)
    ensures SectionedKey(section, key) == EnvKey(section, key)
  {
  }

  /** A listed secret's value when it is usable. */
  function UsableSecret(entries: seq<DopplerEntry>, name: string): (v: Option<string>)
    ensures v.Some? ==> Usable(v)
    ensures v.Some? <==> Find(entries, name).Some? && Usable(Some(DopplerValue(Find(entries, name).value)))
  {
    var s := Find(entries, name);
    if s.Some? && Usable(Some(DopplerValue(s.value))) then Some(DopplerValue(s.value)) else None
  }

  /** The Doppler step of `get_config`: the sectioned name first, then the
      simple one; only a usable value counts. */
  function ConfigFromDoppler(env: map<string, string>, doppler: Option<seq<DopplerEntry>>, section: string, key: string)
    : (v: Option<string>)
    ensures v.Some? ==> Usable(v) && Truthy(Getenv(env, "DOPPLER_TOKEN")) && doppler.Some?
  {
    if !Truthy(Getenv(env, "DOPPLER_TOKEN")) || doppler.None? then None
    else
      var s := UsableSecret(doppler.value, SectionedKey(section, key));
      if s.Some? then s else UsableSecret(doppler.value, SimpleKey(key))
  }

  /** `get_config`: Doppler, then `KEY` from the environment, then
      `SECTION_KEY`, then the default. An environment value is returned as
      it is, even when empty. */
  function GetConfig(env: map<string, string>, doppler: Option<seq<DopplerEntry>>, section: string, key: string,
                     default: Option<string>): (r: Option<string>)
    ensures ConfigFromDoppler(env, doppler, section, key).Some? ==> r == ConfigFromDoppler(env, doppler, section, key)
    ensures ConfigFromDoppler(env, doppler, section, key).None? ==>
              r == (if SimpleKey(key) in env then Some(env[SimpleKey(key)])
                    else if SectionedKey(section, key) in env then Some(env[SectionedKey(section, key)])
                    else default)
    ensures r.None? ==> default.None?
  {
    var d := ConfigFromDoppler(env, doppler, section, key);
    if d.Some? then d
    else if SimpleKey(key) in env then Some(env[SimpleKey(key)])
    else if SectionedKey(section, key) in env then Some(env[SectionedKey(section, key)])
    else default
  }

  /** The strings `get_bool_config` reads as true. */
  const TrueWords: set<string> := {"true", "1", "yes", "on", "enabled"}

  /** `get_bool_config`: the default when nothing is configured; otherwise
      whether the lower-cased value is one of the true words. */
  function GetBoolConfig(env: map<string, string>, doppler: Option<seq<DopplerEntry>>, section: string, key: string,
                         default: bool): (b: bool)
    ensures GetConfig(env, doppler, section, key, None).None? ==> b == default
    ensures GetConfig(env, doppler, section, key, None).Some? ==>
              (b <==> Lower(GetConfig(env, doppler, section, key, None).value) in TrueWords)
  {
    var v := GetConfig(env, doppler, section, key, None);
    if v.None? then default else Lower(v.value) in TrueWords
  }

  /** `get_int_config`: the default when nothing is configured or the value
      is not an integer. */
  function GetIntConfig(env: map<string, string>, doppler: Option<seq<DopplerEntry>>, section: string, key: string,
                        default: int): (n: int)
    ensures GetConfig(env, doppler, section, key, None).None? ==> n == default
    ensures var v := GetConfig(env, doppler, section, key, None);
            v.Some? && ParseInt(Strip(v.value)).None? ==> n == default
    ensures var v := GetConfig(env, doppler, section, key, None);
            v.Some? && ParseInt(Strip(v.value)).Some? ==> n == ParseInt(Strip(v.value)).value
    ensures var v := GetConfig(env, doppler, section, key, None);
            v.Some? && IsDigits(v.value) ==> n == DigitsValue(v.value)
  {
    var v := GetConfig(env, doppler, section, key, None);
    if v.None? then default
    else
      // A string of digits is the `Some` case of the match below, taken
      // apart so that its value can be named.
      if IsDigits(v.value) then StripDigits(v.value); DigitsValue(v.value)
      else
        match ParseInt(Strip(v.value))
        case Some(n) => n
        case None => default
  }

  /** What the secret stores would answer: the AWS secret JSON per secret
      id, and the Vault data per path (an absent id or path stands for a
      failing call). */
  datatype Stores = Stores(aws: map<string, map<string, string>>, vault: map<string, map<string, string>>)

  /** A store's dict looked up by `key`, `KEY`, then `SECTION_KEY`; only a
      usable value counts. */
  function FromStore(data: map<string, string>, section: string, key: string): (v: Option<string>)
    ensures v.Some? ==> Usable(v)
    ensures Usable(Getenv(data, key)) ==> v == Getenv(data, key)
  {
    if Usable(Getenv(data, key)) then Getenv(data, key)
    else if Usable(Getenv(data, Upper(key))) then Getenv(data, Upper(key))
    else if Usable(Getenv(data, SectionedKey(section, key))) then Getenv(data, SectionedKey(section, key))
    else None
  }

  /** The Doppler step of `get_secret`: the injected environment variable,
      then the listed secret, each only when usable. */
  function SecretFromDoppler(env: map<string, string>, doppler: Option<seq<DopplerEntry>>, section: string, key: string)
    : (v: Option<string>)
    ensures v.Some? ==> Usable(v)
    ensures Truthy(Getenv(env, "DOPPLER_TOKEN")) && Usable(Getenv(env, SectionedKey(section, key))) ==>
              v == Getenv(env, SectionedKey(section, key))
    ensures !Truthy(Getenv(env, "DOPPLER_TOKEN")) ==> v.None?
  {
    var name := SectionedKey(section, key);
    if !Truthy(Getenv(env, "DOPPLER_TOKEN")) then None
    else if Usable(Getenv(env, name)) then Getenv(env, name)
    else if doppler.Some? then UsableSecret(doppler.value, name)
    else None
  }

  /** The AWS step, taken when `Secrets.aws_enabled` is true; the secret id
      is `<Secrets.aws_secret_name, default 'boon-tube'>/<section lower-cased>`. */
  function SecretFromAws(env: map<string, string>, doppler: Option<seq<DopplerEntry>>, stores: Stores, section: string,
                         key: string): (v: Option<string>)
    ensures v.Some? ==> Usable(v) && GetBoolConfig(env, doppler, "Secrets", "aws_enabled", false)
  {
    if !GetBoolConfig(env, doppler, "Secrets", "aws_enabled", false) then None
    else
      var name := GetConfig(env, doppler, "Secrets", "aws_secret_name", Some("boon-tube")).value;
      var id := name + "/" + Lower(section);
      if id in stores.aws then FromStore(stores.aws[id], section, key) else None
  }

  /** The Vault step, taken when `Secrets.vault_enabled` is true and both
      `Secrets.vault_url` and `Secrets.vault_token` are set; the path is
      `<Secrets.vault_path, default 'secret/boon-tube'>/<section lower-cased>`. */
  function SecretFromVault(env: map<string, string>, doppler: Option<seq<DopplerEntry>>, stores: Stores, section: string,
                           key: string): (v: Option<string>)
    ensures v.Some? ==> Usable(v) && GetBoolConfig(env, doppler, "Secrets", "vault_enabled", false)
    ensures !Truthy(GetConfig(env, doppler, "Secrets", "vault_url", None)) ==> v.None?
    ensures !Truthy(GetConfig(env, doppler, "Secrets", "vault_token", None)) ==> v.None?
  {
    if !GetBoolConfig(env, doppler, "Secrets", "vault_enabled", false) then None
    else if !Truthy(GetConfig(env, doppler, "Secrets", "vault_url", None)) then None
    else if !Truthy(GetConfig(env, doppler, "Secrets", "vault_token", None)) then None
    else
      var base := GetConfig(env, doppler, "Secrets", "vault_path", Some("secret/boon-tube")).value;
      var path := base + "/" + Lower(section);
      if path in stores.vault then FromStore(stores.vault[path], section, key) else None
  }

  /** `get_secret`: Doppler, AWS, Vault, then `get_config`; a value that is
      empty or a 'YOUR_' placeholder is never returned, the default is
      returned instead. */
  function GetSecret(env: map<string, string>, doppler: Option<seq<DopplerEntry>>, stores: Stores, section: string,
                     key: string, default: Option<string>): (r: Option<string>)
    ensures r == default || Usable(r)
    ensures SecretFromDoppler(env, doppler, section, key).Some? ==> r == SecretFromDoppler(env, doppler, section, key)
    ensures var c := GetConfig(env, doppler, section, key, default);
            && SecretFromDoppler(env, doppler, section, key).None?
            && SecretFromAws(env, doppler, stores, section, key).None?
            && SecretFromVault(env, doppler, stores, section, key).None?
            ==> r == (if Usable(c) then c else default)
    ensures SecretFromDoppler(env, doppler, section, key).None? && SecretFromAws(env, doppler, stores, section, key).Some? ==>
              r == SecretFromAws(env, doppler, stores, section, key)
    ensures SecretFromDoppler(env, doppler, section, key).None? && SecretFromAws(env, doppler, stores, section, key).None?
            && SecretFromVault(env, doppler, stores, section, key).Some? ==>
              r == SecretFromVault(env, doppler, stores, section, key)
  {
    var d := SecretFromDoppler(env, doppler, section, key);
    if d.Some? then d
    else
      var a := SecretFromAws(env, doppler, stores, section, key);
      if a.Some? then a
      else
        var v := SecretFromVault(env, doppler, stores, section, key);
        if v.Some? then v
        else
          var c := GetConfig(env, doppler, section, key, default);
          if Usable(c) then c else default
  }

  /** The process environment and whether the `.env` file has been loaded. */
  class Environment {
    var loaded: bool
    var env: map<string, string>

    constructor (env: map<string, string>)
      ensures !loaded && this.env == env
    {
      loaded := false;
      this.env := env;
    }

    /** `load_config`: once loaded, True at once; otherwise the file's
        variables are added without overriding those already set (what
        `load_dotenv` does by default), or False when there is no file. */
    method LoadConfig(file: Option<map<string, string>>) returns (ok: bool)
      modifies this
      ensures old(loaded) ==> ok && loaded && env == old(env)
      ensures !old(loaded) && file.None? ==> !ok && !loaded && env == old(env)
      ensures !old(loaded) && file.Some? ==> ok && loaded && env == file.value + old(env)
      ensures forall k :: k in old(env) ==> k in env && env[k] == old(env)[k]
    {
      if loaded {
        return true;
      }
      if file.None? {
        return false;
      }
      env := file.value + env;
      loaded := true;
      ok := true;
    }
  }
}
