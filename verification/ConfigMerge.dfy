/** The older configuration path (app/utils/config.py): reading the five credential
    variables and merging them into the configuration. The environment is an input map. */
module ConfigMerge {
  import opened Util
  import opened Settings
  import opened EnvLoader

  /** `get_environment_variables`: the five credential variables, each mapped to its value
      or `None`, and the essential ones that are unset or empty, in order. The warning text
      it logs is not modelled. */
  method GetEnvironmentVariables(environ: map<string, string>) returns (vars: EnvVars, missing: seq<string>)
    ensures vars.Keys == {APSTRA_USERNAME, APSTRA_PASSWORD, REMOTE_USERNAME, REMOTE_PASSWORD, SSH_KEY_PATH}
    ensures forall n :: n in vars ==> vars[n] == Lookup(environ, n)
    ensures missing == MissingVars(DEFAULT_REQUIRED, vars)
    ensures forall v :: v in missing <==> v in DEFAULT_REQUIRED && !Truthy(Lookup(environ, v))
  {
    vars := map[
      APSTRA_USERNAME := Lookup(environ, APSTRA_USERNAME),
      APSTRA_PASSWORD := Lookup(environ, APSTRA_PASSWORD),
      REMOTE_USERNAME := Lookup(environ, REMOTE_USERNAME),
      REMOTE_PASSWORD := Lookup(environ, REMOTE_PASSWORD),
      SSH_KEY_PATH := Lookup(environ, SSH_KEY_PATH)];
    missing := [];
    if !Truthy(vars[APSTRA_USERNAME]) {
      missing := missing + [APSTRA_USERNAME];
    }
    if !Truthy(vars[APSTRA_PASSWORD]) {
      missing := missing + [APSTRA_PASSWORD];
    }
    assert DEFAULT_REQUIRED[..1] == [APSTRA_USERNAME];
    assert DEFAULT_REQUIRED[..1][..0] == [];
  }

  /** What `merge_config_with_env` does to a present `api` section: both credentials are
      overwritten with the environment's values, even when those are unset. */
  function MergeApi(api: ApiSettings, env: EnvVars): (r: ApiSettings)
    ensures r.username == EnvGet(env, APSTRA_USERNAME) && r.password == EnvGet(env, APSTRA_PASSWORD)
    ensures r.server == api.server && r.endpoint == api.endpoint && r.blueprints == api.blueprints
  {
    api.(username := EnvGet(env, APSTRA_USERNAME), password := EnvGet(env, APSTRA_PASSWORD))
  }

  /** What `merge_config_with_env` does to a present `transfer` section: user, password and
      key path are overwritten only by non-empty values, the key path as given. */
  function MergeTransfer(t: TransferSettings, env: EnvVars): (r: TransferSettings)
    ensures r == t.(username := r.username, password := r.password, sshKeyPath := r.sshKeyPath)
    ensures r.username == (if Truthy(EnvGet(env, REMOTE_USERNAME)) then EnvGet(env, REMOTE_USERNAME) else t.username)
    ensures r.password == (if Truthy(EnvGet(env, REMOTE_PASSWORD)) then EnvGet(env, REMOTE_PASSWORD) else t.password)
    ensures r.sshKeyPath == (if Truthy(EnvGet(env, SSH_KEY_PATH)) then EnvGet(env, SSH_KEY_PATH) else t.sshKeyPath)
  {
    t.(username := if Truthy(EnvGet(env, REMOTE_USERNAME)) then EnvGet(env, REMOTE_USERNAME) else t.username,
       password := if Truthy(EnvGet(env, REMOTE_PASSWORD)) then EnvGet(env, REMOTE_PASSWORD) else t.password,
       sshKeyPath := if Truthy(EnvGet(env, SSH_KEY_PATH)) then EnvGet(env, SSH_KEY_PATH) else t.sshKeyPath)
  }

  /** With both API credentials set, the merge and the environment overlay agree on the
      `api` section, and they always agree on the remote user and password. */
  lemma MergeAgreesWithOverlay(api: ApiSettings, t: TransferSettings, env: EnvVars, isFile: string -> bool,
                               expandUser: string -> string, absPath: string -> string)
    ensures HasApiCredentials(env) ==> MergeApi(api, env) == ApiOverlay(api, env)
    ensures MergeTransfer(t, env).username == TransferOverlay(t, env, isFile, expandUser, absPath).username
    ensures MergeTransfer(t, env).password == TransferOverlay(t, env, isFile, expandUser, absPath).password
  {
  }

  /** Where they differ: with a credential unset, the overlay keeps the configured
      credentials but the merge erases them. */
  lemma MergeErasesWhereOverlayKeeps(api: ApiSettings, env: EnvVars)
    requires Truthy(api.username) && !Truthy(EnvGet(env, APSTRA_USERNAME))
    ensures ApiOverlay(api, env).username == api.username
    ensures !Truthy(MergeApi(api, env).username)
  {
  }

  /** The `api` part of `merge_config_with_env`, on the section object itself. */
  method MergeApiSection(api: ApiSection, env: EnvVars)
    modifies api
    ensures api.View() == MergeApi(old(api.View()), env)
  {
    api.username := EnvGet(env, APSTRA_USERNAME);
    api.password := EnvGet(env, APSTRA_PASSWORD);
  }

  /** The `transfer` part of `merge_config_with_env`, on the section object itself. */
  method MergeTransferSection(transfer: TransferSection, env: EnvVars)
    modifies transfer
    ensures transfer.View() == MergeTransfer(old(transfer.View()), env)
  {
    if Truthy(EnvGet(env, REMOTE_USERNAME)) {
      transfer.username := EnvGet(env, REMOTE_USERNAME);
    }
    if Truthy(EnvGet(env, REMOTE_PASSWORD)) {
      transfer.password := EnvGet(env, REMOTE_PASSWORD);
    }
    if Truthy(EnvGet(env, SSH_KEY_PATH)) {
      transfer.sshKeyPath := EnvGet(env, SSH_KEY_PATH);
    }
  }

  /** `merge_config_with_env`: a new top level sharing the `api` and `transfer` sections with
      `config`, the transfer credentials merged and then the API credentials written. The
      caller's own configuration changes as well. The warnings it logs are not modelled. */
  method MergeConfigWithEnv(config: AppConfig, env: EnvVars) returns (merged: AppConfig)
    modifies config.api, config.transfer
    ensures fresh(merged)
    ensures merged.api == config.api && merged.transfer == config.transfer && merged.backup == config.backup
    ensures config.api != null ==> ApiOf(merged) == MergeApi(old(ApiOf(config)), env)
    ensures config.transfer != null ==> TransferOf(merged) == MergeTransfer(old(TransferOf(config)), env)
    ensures ApiOf(config) == ApiOf(merged) && TransferOf(config) == TransferOf(merged)
  {
    merged := new AppConfig.ShallowCopy(config);
    if merged.transfer != null {
      MergeTransferSection(merged.transfer, env);
    }
    if merged.api != null {
      MergeApiSection(merged.api, env);
    }
  }

  /** The scenario of the configuration test: a configuration with an `api` and a `transfer`
      section, merged with all four credentials set. The test's own configuration is
      changed too. */
  method MergeTestScenario() returns (original: AppConfig, merged: AppConfig)
    ensures ApiOf(merged).username == Some("test_user") && ApiOf(merged).password == Some("test_pass")
    ensures TransferOf(merged).username == Some("remote_user") && TransferOf(merged).password == Some("remote_pass")
    ensures ApiOf(original) == ApiOf(merged) && TransferOf(original) == TransferOf(merged)
  {
    var api := new ApiSection(ApiSettings(Some("test.server.com"), None, None, Some("/api/test"), None));
    var transfer := new TransferSection(
      TransferSettings(Some("remote.test.com"), Some(2222), None, None, None, None, None, Some("scp")));
    original := new AppConfig(api, transfer, BackupSettings(None, None));
    var env := map[
      APSTRA_USERNAME := Some("test_user"),
      APSTRA_PASSWORD := Some("test_pass"),
      REMOTE_USERNAME := Some("remote_user"),
      REMOTE_PASSWORD := Some("remote_pass")];
    merged := MergeConfigWithEnv(original, env);
  }
}
