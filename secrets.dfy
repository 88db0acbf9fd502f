/** `utils/secrets.py`: where a platform secret comes from. Doppler is
    asked first when a Doppler token is set, then AWS Secrets Manager or
    HashiCorp Vault (whichever `SECRETS_MANAGER` names), then the
    environment. The process environment is a map; what each back-end would
    answer is an input (a missing answer stands for the SDK raising). */
module Secrets {
  import opened Common

  /** A Doppler secret as the SDK lists it: its `computed` and `raw` values. */
  datatype DopplerSecret = DopplerSecret(computed: Option<string>, raw: Option<string>)

  datatype DopplerEntry = DopplerEntry(name: string, secret: DopplerSecret)

  /** `secret.get('computed', secret.get('raw', ''))`. */
  function DopplerValue(s: DopplerSecret): (v: string)
    ensures s.computed.Some? ==> v == s.computed.value
    ensures s.computed.None? && s.raw.None? ==> v == ""
  {
    if s.computed.Some? then s.computed.value else s.raw.GetOr("")
  }

  /** A name's secret in a Doppler listing (a dict, so names are distinct
      and the first match is the only one). */
  function Find(entries: seq<DopplerEntry>, name: string): (r: Option<DopplerSecret>)
    ensures r.None? <==> forall i :: 0 <= i < |entries| ==> entries[i].name != name
    ensures r.Some? ==> exists i :: 0 <= i < |entries| && entries[i] == DopplerEntry(name, r.value)
  {
    if entries == [] then None
    else if entries[0].name == name then Some(entries[0].secret)
    else
      var r := Find(entries[1..], name);
      assert forall i :: 0 <= i < |entries[1..]| ==> entries[1..][i] == entries[i + 1];
      r
  }

  /** `os.getenv(name)`. */
  function Getenv(env: map<string, string>, name: string): (v: Option<string>)
    ensures v.Some? <==> name in env
  {
    if name in env then Some(env[name]) else None
  }

  /** `f"{platform.upper()}_{key.upper()}"`. */
  function EnvKey(platform: string, key: string): (k: string)
    ensures k == Upper(platform + "_" + key)
  {
    var k := Upper(platform) + "_" + Upper(key);
    assert forall i :: 0 <= i < |k| ==> k[i] == UpperChar((platform + "_" + key)[i]);
    k
  }

  // ---------------------------------------------------------------------
  // Back-end loaders

  /** `load_secrets_from_aws`: the secret's JSON object, or {} when the call
      fails. `aws` holds the answer for each secret id that has one. */
  function LoadFromAws(aws: map<string, map<string, string>>, secretName: string): (r: map<string, string>)
    ensures secretName !in aws ==> r == map[]
  {
    if secretName in aws then aws[secretName] else map[]
  }

  /** What the Vault client would do: whether the token authenticates, and
      the data stored at each readable path. */
  datatype Vault = Vault(authenticated: bool, paths: map<string, map<string, string>>)

  /** `load_secrets_from_vault`: {} without `SECRETS_VAULT_URL` or
      `SECRETS_VAULT_TOKEN`, when authentication fails, or when the read
      fails; otherwise the data at the path. */
  function LoadFromVault(env: map<string, string>, vault: Vault, path: string): (r: map<string, string>)
    ensures !Truthy(Getenv(env, "SECRETS_VAULT_URL")) ==> r == map[]
    ensures !Truthy(Getenv(env, "SECRETS_VAULT_TOKEN")) ==> r == map[]
    ensures !vault.authenticated ==> r == map[]
    ensures r != map[] ==> path in vault.paths && r == vault.paths[path]
  {
    if !Truthy(Getenv(env, "SECRETS_VAULT_URL")) || !Truthy(Getenv(env, "SECRETS_VAULT_TOKEN")) then map[]
    else if !vault.authenticated then map[]
    else if path in vault.paths then vault.paths[path]
    else map[]
  }

  /** A listed name belongs to the platform when its upper-case form starts
      with the platform's. */
  predicate HasPrefix(entryName: string, platform: string) {
    StartsWith(Upper(entryName), Upper(platform))
  }

  /** `secret_key[len(name)+1:].lower()`: the name after the platform and
      its separator (empty when there is nothing after). */
  function Suffix(entryName: string, platform: string): (s: string)
    ensures |entryName| <= |platform| + 1 ==> s == ""
    ensures |entryName| > |platform| + 1 ==> s == Lower(entryName[|platform| + 1..])
  {
    if |entryName| > |platform| + 1 then Lower(entryName[|platform| + 1..]) else ""
  }

  /** The dict `load_secrets_from_doppler` builds from a listing: each
      matching entry stored under its suffix, a later entry overwriting an
      earlier one with the same suffix. */
  function PrefixFilter(entries: seq<DopplerEntry>, platform: string): map<string, string> {
    if entries == [] then map[]
    else
      var m := PrefixFilter(entries[..|entries| - 1], platform);
      var e := entries[|entries| - 1];
      if HasPrefix(e.name, platform) then m[Suffix(e.name, platform) := DopplerValue(e.secret)] else m
  }

  /** The entry that wins a suffix: it matches, has that suffix, and no
      later matching entry has the same one. */
  predicate Wins(entries: seq<DopplerEntry>, platform: string, i: int, k: string) {
    && 0 <= i < |entries|
    && HasPrefix(entries[i].name, platform) && Suffix(entries[i].name, platform) == k
    && forall j :: i < j < |entries| && HasPrefix(entries[j].name, platform) ==> Suffix(entries[j].name, platform) != k
  }

  /** A suffix is stored iff some entry wins it, and it then holds that
      entry's value. */
  lemma {:induction false} PrefixFilterWinner(entries: seq<DopplerEntry>, platform: string, k: string, i: int)
    requires Wins(entries, platform, i, k)
    ensures k in PrefixFilter(entries, platform)
    ensures PrefixFilter(entries, platform)[k] == DopplerValue(entries[i].secret)
  {
    var n := |entries| - 1;
    var init := entries[..n];
    if i < n {
      assert Wins(init, platform, i, k) by {
        assert forall j :: i < j < |init| ==> init[j] == entries[j];
      }
      PrefixFilterWinner(init, platform, k, i);
    }
  }

  /** Every stored suffix has a winning entry. */
  lemma {:induction false} PrefixFilterKeys(entries: seq<DopplerEntry>, platform: string, k: string)
    requires k in PrefixFilter(entries, platform)
    ensures exists i :: Wins(entries, platform, i, k)
  {
    var n := |entries| - 1;
    var init := entries[..n];
    var e := entries[n];
    if HasPrefix(e.name, platform) && Suffix(e.name, platform) == k {
      assert Wins(entries, platform, n, k);
    } else {
      PrefixFilterKeys(init, platform, k);
      var i :| Wins(init, platform, i, k);
      assert forall j :: i < j < |init| ==> init[j] == entries[j];
      assert Wins(entries, platform, i, k);
    }
  }

  /** `load_secrets_from_doppler`: {} without a Doppler token or when the
      listing fails; otherwise the entries whose name starts with the
      platform, walked in listing order. */
  method LoadFromDoppler(env: map<string, string>, listing: Option<seq<DopplerEntry>>, platform: string)
    returns (secrets: map<string, string>)
    ensures !Truthy(Getenv(env, "DOPPLER_TOKEN")) || listing.None? ==> secrets == map[]
    ensures Truthy(Getenv(env, "DOPPLER_TOKEN")) && listing.Some? ==> secrets == PrefixFilter(listing.value, platform)
  {
    secrets := map[];
    if !Truthy(Getenv(env, "DOPPLER_TOKEN")) || listing.None? {
      return;
    }
    var entries := listing.value;
    var i := 0;
    while i < |entries|
      invariant 0 <= i <= |entries|
      invariant secrets == PrefixFilter(entries[..i], platform)
    {
      var e := entries[i];
      if HasPrefix(e.name, platform) {
        secrets := secrets[Suffix(e.name, platform) := DopplerValue(e.secret)];
      }
      assert entries[..i + 1][..i] == entries[..i];
      i := i + 1;
    }
    assert entries[..i] == entries;
  }

  // ---------------------------------------------------------------------
  // get_secret

  /** A dict lookup that counts only a non-empty value. */
  function NonEmpty(m: map<string, string>, key: string): (v: Option<string>)
    ensures v.Some? <==> key in m && m[key] != ""
    ensures v.Some? ==> v.value == m[key]
  {
    if key in m && m[key] != "" then Some(m[key]) else None
  }

  /** The Doppler step: `PLATFORM_KEY`, then `KEY`, each only when its value
      is non-empty. */
  function FromDoppler(entries: seq<DopplerEntry>, platform: string, key: string): (v: Option<string>)
    ensures v.Some? ==> v.value != ""
    ensures var s := Find(entries, EnvKey(platform, key));
            s.Some? && DopplerValue(s.value) != "" ==> v == Some(DopplerValue(s.value))
    ensures var s := Find(entries, EnvKey(platform, key));
            var t := Find(entries, Upper(key));
            !(s.Some? && DopplerValue(s.value) != "") ==>
              v == (if t.Some? && DopplerValue(t.value) != "" then Some(DopplerValue(t.value)) else None)
  {
    var s := Find(entries, EnvKey(platform, key));
    if s.Some? && DopplerValue(s.value) != "" then Some(DopplerValue(s.value))
    else
      var t := Find(entries, Upper(key));
      if t.Some? && DopplerValue(t.value) != "" then Some(DopplerValue(t.value)) else None
  }

  /** `os.getenv('SECRETS_MANAGER', 'none').lower()`. */
  function Manager(env: map<string, string>): string {
    Lower(Getenv(env, "SECRETS_MANAGER").GetOr("none"))
  }

  /** The secrets-manager step: AWS when the manager is 'aws' and the
      secret-name variable is given and set, Vault when it is 'vault' and
      the path variable is given and set; never both. */
  function FromManager(env: map<string, string>, aws: map<string, map<string, string>>, vault: Vault, key: string,
                       secretNameEnv: string, secretPathEnv: string): (v: Option<string>)
    ensures v.Some? ==> v.value != ""
    ensures Manager(env) != "aws" && Manager(env) != "vault" ==> v.None?
    ensures Manager(env) == "aws" && secretNameEnv != "" && Truthy(Getenv(env, secretNameEnv)) ==>
              v == NonEmpty(LoadFromAws(aws, env[secretNameEnv]), key)
    ensures Manager(env) == "vault" && secretPathEnv != "" && Truthy(Getenv(env, secretPathEnv)) ==>
              v == NonEmpty(LoadFromVault(env, vault, env[secretPathEnv]), key)
  {
    var manager := Manager(env);
    if manager == "aws" && secretNameEnv != "" then
      var name := Getenv(env, secretNameEnv);
      if Truthy(name) then NonEmpty(LoadFromAws(aws, name.value), key) else None
    else if manager == "vault" && secretPathEnv != "" then
      var path := Getenv(env, secretPathEnv);
      if Truthy(path) then NonEmpty(LoadFromVault(env, vault, path.value), key) else None
    else None
  }

  /** `get_secret`: Doppler first (when `DOPPLER_TOKEN` is set and the
      listing succeeds), then the secrets manager, then `PLATFORM_KEY` from
      the environment; an empty value is never returned. The optional
      environment-variable names are "" when not given. */
  function GetSecret(env: map<string, string>, doppler: Option<seq<DopplerEntry>>, aws: map<string, map<string, string>>,
                     vault: Vault, platform: string, key: string, secretNameEnv: string, secretPathEnv: string)
    : (r: Option<string>)
    ensures r.Some? ==> r.value != ""
    ensures Truthy(Getenv(env, "DOPPLER_TOKEN")) && doppler.Some? && FromDoppler(doppler.value, platform, key).Some? ==>
              r == FromDoppler(doppler.value, platform, key)
    ensures !Truthy(Getenv(env, "DOPPLER_TOKEN")) && Manager(env) != "aws" && Manager(env) != "vault" ==>
              r == (if Truthy(Getenv(env, EnvKey(platform, key))) then Getenv(env, EnvKey(platform, key)) else None)
    ensures r.None? ==> !Truthy(Getenv(env, EnvKey(platform, key)))
    ensures var m := FromManager(env, aws, vault, key, secretNameEnv, secretPathEnv);
            !(Truthy(Getenv(env, "DOPPLER_TOKEN")) && doppler.Some? && FromDoppler(doppler.value, platform, key).Some?) ==>
              r == (if m.Some? then m
                    else if Truthy(Getenv(env, EnvKey(platform, key))) then Getenv(env, EnvKey(platform, key))
                    else None)
  {
    var fromDoppler := if Truthy(Getenv(env, "DOPPLER_TOKEN")) && doppler.Some? then FromDoppler(doppler.value, platform, key) else None;
    if fromDoppler.Some? then fromDoppler
    else
      var fromManager := FromManager(env, aws, vault, key, secretNameEnv, secretPathEnv);
      if fromManager.Some? then fromManager
      else
        var v := Getenv(env, EnvKey(platform, key));
        if Truthy(v) then v else None
  }

  /** With the manager set to 'aws', what Vault holds makes no difference. */
  lemma AwsIgnoresVault(env: map<string, string>, doppler: Option<seq<DopplerEntry>>, aws: map<string, map<string, string>>,
                        v1: Vault, v2: Vault, platform: string, key: string, secretNameEnv: string, secretPathEnv: string)
    requires Manager(env) == "aws"
    ensures GetSecret(env, doppler, aws, v1, platform, key, secretNameEnv, secretPathEnv)
            == GetSecret(env, doppler, aws, v2, platform, key, secretNameEnv, secretPathEnv)
  {
  }

  /** With the manager set to 'vault', what AWS holds makes no difference. */
  lemma VaultIgnoresAws(env: map<string, string>, doppler: Option<seq<DopplerEntry>>, a1: map<string, map<string, string>>,
                        a2: map<string, map<string, string>>, vault: Vault, platform: string, key: string,
                        secretNameEnv: string, secretPathEnv: string)
    requires Manager(env) == "vault"
    ensures GetSecret(env, doppler, a1, vault, platform, key, secretNameEnv, secretPathEnv)
            == GetSecret(env, doppler, a2, vault, platform, key, secretNameEnv, secretPathEnv)
  {
  }
}
