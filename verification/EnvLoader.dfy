/** Reading credentials from the environment and laying them over the configuration
    (app/utils/env_loader.py). The process environment is an input map, read after any
    `.env` file has been loaded into it; path normalisation and the file test are oracles. */
module EnvLoader {
  import opened Util
  import opened Settings

  const APSTRA_USERNAME := "APSTRA_USERNAME"
  const APSTRA_PASSWORD := "APSTRA_PASSWORD"
  const REMOTE_USERNAME := "REMOTE_USERNAME"
  const REMOTE_PASSWORD := "REMOTE_PASSWORD"
  const SSH_KEY_PATH := "SSH_KEY_PATH"
  const SSH_KEY_PASSPHRASE := "SSH_KEY_PASSPHRASE"

  const DEFAULT_REQUIRED := [APSTRA_USERNAME, APSTRA_PASSWORD]
  const DEFAULT_OPTIONAL := [REMOTE_USERNAME, REMOTE_PASSWORD, SSH_KEY_PATH, SSH_KEY_PASSPHRASE]

  /** The collected variables, each mapped to its value or to `None` when unset. */
  type EnvVars = map<string, Option<string>>

  /** `env_vars.get(name)`. */
  function EnvGet(vars: EnvVars, name: string): (r: Option<string>)
    ensures name !in vars ==> r.None?
    ensures name in vars ==> r == vars[name]
  {
    if name in vars then vars[name] else None
  }

  /** The required variables that are unset or empty, in the order they are required. */
  function MissingVars(required: seq<string>, vars: EnvVars): (missing: seq<string>)
    ensures forall v :: v in missing <==> v in required && !Truthy(EnvGet(vars, v))
    ensures |missing| <= |required|
    decreases |required|
  {
    if required == [] then []
    else
      var last := required[|required| - 1];
      var prefix := MissingVars(required[..|required| - 1], vars);
      assert required == required[..|required| - 1] + [last];
      prefix + (if Truthy(EnvGet(vars, last)) then [] else [last])
  }

  /** The names in `names[..n]`, as a set. */
  function NamesUpTo(names: seq<string>, n: nat): set<string>
    requires n <= |names|
  {
    set k | 0 <= k < n :: names[k]
  }

  /** `load_environment_variables` after the `.env` search: every required and optional
      name is looked up, and the result is successful exactly when every required one is set
      and non-empty. An omitted list takes its default. */
  method LoadEnvironmentVariables(environ: map<string, string>, requiredVars: Option<seq<string>>,
                                  optionalVars: Option<seq<string>>)
    returns (vars: EnvVars, ok: bool)
    ensures var names := requiredVars.GetOr(DEFAULT_REQUIRED) + optionalVars.GetOr(DEFAULT_OPTIONAL);
            forall n :: n in vars <==> n in names
    ensures forall n :: n in vars ==> vars[n] == Lookup(environ, n)
    ensures ok <==> forall v :: v in requiredVars.GetOr(DEFAULT_REQUIRED) ==> Truthy(Lookup(environ, v))
    ensures ok <==> MissingVars(requiredVars.GetOr(DEFAULT_REQUIRED), vars) == []
  {
    var required := requiredVars.GetOr(DEFAULT_REQUIRED);
    var optional := optionalVars.GetOr(DEFAULT_OPTIONAL);
    vars := CollectVars(environ, required + optional);
    var missing := MissingVars(required, vars);
    assert forall v :: v in required ==> EnvGet(vars, v) == Lookup(environ, v);
    assert missing != [] ==> missing[0] in missing;
    ok := missing == [];
  }

  /** The collecting loop of `load_environment_variables`: each name mapped to its value in
      the environment, or `None`. */
  method CollectVars(environ: map<string, string>, names: seq<string>) returns (vars: EnvVars)
    ensures forall n :: n in vars <==> n in names
    ensures forall n :: n in vars ==> vars[n] == Lookup(environ, n)
  {
    vars := map[];
    for i := 0 to |names|
      invariant vars.Keys == NamesUpTo(names, i)
      invariant forall n :: n in vars ==> vars[n] == Lookup(environ, n)
    {
      vars := vars[names[i] := Lookup(environ, names[i])];
    }
    assert forall n :: n in names ==> n in NamesUpTo(names, |names|);
  }

  // ---------------------------------------------------------------------------------
  // apply_env_to_config
  // ---------------------------------------------------------------------------------

  /** The key path made absolute: kept when absolute, home-expanded when it starts with `~`,
      else resolved against the working directory. */
  function NormalizeKeyPath(path: string, expandUser: string -> string, absPath: string -> string): (r: string)
    ensures StartsWith(path, "/") ==> r == path
    ensures !StartsWith(path, "/") && StartsWith(path, "~") ==> r == expandUser(path)
    ensures !StartsWith(path, "/") && !StartsWith(path, "~") ==> r == absPath(path)
  {
    if StartsWith(path, "/") then path
    else if StartsWith(path, "~") then expandUser(path)
    else absPath(path)
  }

  /** Normalising a path that came out absolute changes it no more. */
  lemma NormalizeKeyPathStable(path: string, expandUser: string -> string, absPath: string -> string)
    requires StartsWith(NormalizeKeyPath(path, expandUser, absPath), "/")
    ensures var once := NormalizeKeyPath(path, expandUser, absPath);
            NormalizeKeyPath(once, expandUser, absPath) == once
  {
  }

  /** Both API credentials are set and non-empty. */
  predicate HasApiCredentials(env: EnvVars) {
    Truthy(EnvGet(env, APSTRA_USERNAME)) && Truthy(EnvGet(env, APSTRA_PASSWORD))
  }

  /** What `apply_env_to_config` does to a present `api` section: both credentials are
      written, and only when both are set and non-empty. */
  function ApiOverlay(api: ApiSettings, env: EnvVars): (r: ApiSettings)
    ensures r.server == api.server && r.endpoint == api.endpoint && r.blueprints == api.blueprints
    ensures HasApiCredentials(env) ==>
              r.username == EnvGet(env, APSTRA_USERNAME) && r.password == EnvGet(env, APSTRA_PASSWORD)
    ensures !HasApiCredentials(env) ==> r == api
  {
    if HasApiCredentials(env) then
      api.(username := EnvGet(env, APSTRA_USERNAME), password := EnvGet(env, APSTRA_PASSWORD))
    else api
  }

  /** The key path written, if any: the normalised `SSH_KEY_PATH`, provided it names an
      existing file. */
  function KeyPathOverlay(env: EnvVars, isFile: string -> bool, expandUser: string -> string,
                          absPath: string -> string): (r: Option<string>)
    ensures r.Some? ==> && Truthy(EnvGet(env, SSH_KEY_PATH)) && isFile(r.value)
                        && r.value == NormalizeKeyPath(EnvGet(env, SSH_KEY_PATH).value, expandUser, absPath)
    ensures r.None? && Truthy(EnvGet(env, SSH_KEY_PATH)) ==>
              !isFile(NormalizeKeyPath(EnvGet(env, SSH_KEY_PATH).value, expandUser, absPath))
  {
    if !Truthy(EnvGet(env, SSH_KEY_PATH)) then None
    else
      var p := NormalizeKeyPath(EnvGet(env, SSH_KEY_PATH).value, expandUser, absPath);
      if isFile(p) then Some(p) else None
  }

  /** What `apply_env_to_config` does to a present `transfer` section: user and password are
      overwritten only by non-empty values, the key path only by an existing normalised
      file, the passphrase only when it and the key path variable are both non-empty; the
      other settings stay. */
  function TransferOverlay(t: TransferSettings, env: EnvVars, isFile: string -> bool,
                           expandUser: string -> string, absPath: string -> string): (r: TransferSettings)
    ensures && r.host == t.host && r.port == t.port
            && r.remoteDirectory == t.remoteDirectory && r.transferMethod == t.transferMethod
    ensures r.username == (if Truthy(EnvGet(env, REMOTE_USERNAME)) then EnvGet(env, REMOTE_USERNAME) else t.username)
    ensures r.password == (if Truthy(EnvGet(env, REMOTE_PASSWORD)) then EnvGet(env, REMOTE_PASSWORD) else t.password)
    ensures r.sshKeyPath == (if KeyPathOverlay(env, isFile, expandUser, absPath).Some?
                             then KeyPathOverlay(env, isFile, expandUser, absPath) else t.sshKeyPath)
    ensures r.sshKeyPassphrase == (if Truthy(EnvGet(env, SSH_KEY_PASSPHRASE)) && Truthy(EnvGet(env, SSH_KEY_PATH))
                                   then EnvGet(env, SSH_KEY_PASSPHRASE) else t.sshKeyPassphrase)
  {
    var keyPath := KeyPathOverlay(env, isFile, expandUser, absPath);
    TransferSettings(
      t.host, t.port,
      if Truthy(EnvGet(env, REMOTE_USERNAME)) then EnvGet(env, REMOTE_USERNAME) else t.username,
      if Truthy(EnvGet(env, REMOTE_PASSWORD)) then EnvGet(env, REMOTE_PASSWORD) else t.password,
      if keyPath.Some? then keyPath else t.sshKeyPath,
      if Truthy(EnvGet(env, SSH_KEY_PASSPHRASE)) && Truthy(EnvGet(env, SSH_KEY_PATH))
      then EnvGet(env, SSH_KEY_PASSPHRASE) else t.sshKeyPassphrase,
      t.remoteDirectory, t.transferMethod)
  }

  /** Applying the environment a second time changes nothing more. */
  lemma OverlayIdempotent(api: ApiSettings, t: TransferSettings, env: EnvVars, isFile: string -> bool,
                          expandUser: string -> string, absPath: string -> string)
    ensures ApiOverlay(ApiOverlay(api, env), env) == ApiOverlay(api, env)
    ensures var once := TransferOverlay(t, env, isFile, expandUser, absPath);
            TransferOverlay(once, env, isFile, expandUser, absPath) == once
  {
  }

  /** The `api` part of `apply_env_to_config`, on the section object itself. */
  method OverlayApiSection(api: ApiSection, env: EnvVars)
    modifies api
    ensures api.View() == ApiOverlay(old(api.View()), env)
  {
    if Truthy(EnvGet(env, APSTRA_USERNAME)) && Truthy(EnvGet(env, APSTRA_PASSWORD)) {
      api.username := EnvGet(env, APSTRA_USERNAME);
      api.password := EnvGet(env, APSTRA_PASSWORD);
    }
  }

  /** The `transfer` part of `apply_env_to_config`, on the section object itself. */
  method OverlayTransferSection(transfer: TransferSection, env: EnvVars, isFile: string -> bool,
                                expandUser: string -> string, absPath: string -> string)
    modifies transfer
    ensures transfer.View() == TransferOverlay(old(transfer.View()), env, isFile, expandUser, absPath)
  {
    ghost var before := transfer.View();
    ghost var keyPath := KeyPathOverlay(env, isFile, expandUser, absPath);
    if Truthy(EnvGet(env, REMOTE_USERNAME)) {
      transfer.username := EnvGet(env, REMOTE_USERNAME);
    }
    if Truthy(EnvGet(env, REMOTE_PASSWORD)) {
      transfer.password := EnvGet(env, REMOTE_PASSWORD);
    }
    if Truthy(EnvGet(env, SSH_KEY_PATH)) {
      var sshKeyPath := EnvGet(env, SSH_KEY_PATH).value;
      if !StartsWith(sshKeyPath, "/") {
        if StartsWith(sshKeyPath, "~") {
          sshKeyPath := expandUser(sshKeyPath);
        } else {
          sshKeyPath := absPath(sshKeyPath);
        }
      }
      assert sshKeyPath == NormalizeKeyPath(EnvGet(env, SSH_KEY_PATH).value, expandUser, absPath);
      if isFile(sshKeyPath) {
        transfer.sshKeyPath := Some(sshKeyPath);
      }
    }
    assert transfer.sshKeyPath == if keyPath.Some? then keyPath else before.sshKeyPath;
    if Truthy(EnvGet(env, SSH_KEY_PASSPHRASE)) && Truthy(EnvGet(env, SSH_KEY_PATH)) {
      transfer.sshKeyPassphrase := EnvGet(env, SSH_KEY_PASSPHRASE);
    }
  }

  /** `apply_env_to_config`: a new top level that shares the `api` and `transfer` sections
      with `config`, those sections overlaid in place. The caller's own configuration
      therefore changes as well. */
  method ApplyEnvToConfig(config: AppConfig, env: EnvVars, isFile: string -> bool,
                          expandUser: string -> string, absPath: string -> string)
    returns (updated: AppConfig)
    modifies config.api, config.transfer
    ensures fresh(updated)
    ensures updated.api == config.api && updated.transfer == config.transfer && updated.backup == config.backup
    ensures config.api != null ==> ApiOf(updated) == ApiOverlay(old(ApiOf(config)), env)
    ensures config.transfer != null ==>
              TransferOf(updated) == TransferOverlay(old(TransferOf(config)), env, isFile, expandUser, absPath)
    ensures ApiOf(config) == ApiOf(updated) && TransferOf(config) == TransferOf(updated)
  {
    updated := new AppConfig.ShallowCopy(config);
    if updated.api != null {
      OverlayApiSection(updated.api, env);
    }
    if updated.transfer != null {
      OverlayTransferSection(updated.transfer, env, isFile, expandUser, absPath);
    }
  }
}
