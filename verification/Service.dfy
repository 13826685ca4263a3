/** The service's main loop (app/main.py): what one polling iteration does with the changes
    it detects, how a backup of one blueprint is run, and how the persistent state is
    committed afterwards. The backup run, the file tests, the remote host and the clock are
    inputs bundled in a `BackupEnv`. */
module Service {
  import opened Util
  import opened Settings
  import opened Transfer
  import opened Poller
  import opened BackupTrigger

  const DEFAULT_BACKUP_SCRIPT := "/usr/sbin/aos_backup"
  const BLUEPRINT_FLAG := "--blueprint"

  /** What a run of the backup script reports: success and its printed output. */
  datatype BackupRun = BackupRun(success: bool, output: string)

  /** The outside world of one backup: the script runner, the two file tests of the backup
      lookup, the remote host of the upload and the timestamp the upload is named with. */
  datatype BackupEnv = BackupEnv(
    runScript: (string, seq<string>) -> BackupRun,
    pathExists: string -> bool,
    isFile: string -> bool,
    remote: RemoteHost,
    timestamp: string)

  // ---------------------------------------------------------------------------------
  // One backup (process_blueprint_changes)
  // ---------------------------------------------------------------------------------

  /** The script to run: the configured one if set and non-empty, else the default. */
  function BackupScript(backup: BackupSettings): (r: string)
    ensures Truthy(backup.scriptPath) ==> r == backup.scriptPath.value
    ensures !Truthy(backup.scriptPath) ==> r == DEFAULT_BACKUP_SCRIPT
    ensures r != ""
  {
    if Truthy(backup.scriptPath) then backup.scriptPath.value else DEFAULT_BACKUP_SCRIPT
  }

  /** The script's arguments: the configured ones, followed by `--blueprint <id>` unless the
      flag already occurs in them joined with spaces. */
  function BackupParams(configured: seq<string>, blueprintId: string): seq<string> {
    if Contains(Join(configured, " "), BLUEPRINT_FLAG) then configured
    else configured + [BLUEPRINT_FLAG, blueprintId]
  }

  /** The arguments always name a blueprint, start with the configured ones, and gain the
      blueprint id only when the flag was absent. */
  lemma BackupParamsNameABlueprint(configured: seq<string>, blueprintId: string)
    ensures Contains(Join(BackupParams(configured, blueprintId), " "), BLUEPRINT_FLAG)
    ensures var r := BackupParams(configured, blueprintId);
            |configured| <= |r| && r[..|configured|] == configured
    ensures BackupParams(configured, blueprintId) == configured
            <==> Contains(Join(configured, " "), BLUEPRINT_FLAG)
  {
    var r := BackupParams(configured, blueprintId);
    assert r[..|configured|] == configured;
    if !Contains(Join(configured, " "), BLUEPRINT_FLAG) {
      FlagJoined(configured, blueprintId);
    }
  }

  /** Appending the flag and an id makes the flag occur in the joined arguments. */
  lemma FlagJoined(configured: seq<string>, blueprintId: string)
    ensures Contains(Join(configured + [BLUEPRINT_FLAG, blueprintId], " "), BLUEPRINT_FLAG)
  {
    var before := if configured == [] then "" else Join(configured, " ") + " ";
    JoinAppend(configured, BLUEPRINT_FLAG, " ");
    assert configured + [BLUEPRINT_FLAG, blueprintId] == (configured + [BLUEPRINT_FLAG]) + [blueprintId];
    JoinAppend(configured + [BLUEPRINT_FLAG], blueprintId, " ");
    assert Join(configured + [BLUEPRINT_FLAG], " ") == before + BLUEPRINT_FLAG;
    assert Join(configured + [BLUEPRINT_FLAG, blueprintId], " ") == before + BLUEPRINT_FLAG + (" " + blueprintId);
    ContainsMiddle(before, BLUEPRINT_FLAG, " " + blueprintId);
  }

  /** Building the arguments twice adds nothing the second time. */
  lemma BackupParamsIdempotent(configured: seq<string>, blueprintId: string, otherId: string)
    ensures BackupParams(BackupParams(configured, blueprintId), otherId) == BackupParams(configured, blueprintId)
  {
    BackupParamsNameABlueprint(configured, blueprintId);
  }

  /** Whether `process_blueprint_changes` succeeds: the script succeeded, a backup file was
      found in its output, and the upload of that file succeeded. */
  predicate BackupSucceeds(backup: BackupSettings, transfer: TransferSettings, blueprintId: string,
                           blueprintName: Option<string>, env: BackupEnv)
  {
    var run := env.runScript(BackupScript(backup), BackupParams(backup.parameters.GetOr([]), blueprintId));
    var backupFile := GetLatestBackupFile(run.output, env.pathExists, env.isFile);
    && run.success && Truthy(backupFile)
    && TransferSucceeds(transfer, backupFile.value, Some(blueprintId), blueprintName, env.timestamp, env.remote)
  }

  /** `process_blueprint_changes`: run the script with the built arguments, look up the
      backup file in its output, upload it; true only when all three succeed. */
  method ProcessBlueprintChanges(config: AppConfig, blueprintId: string, blueprintName: Option<string>,
                                 env: BackupEnv)
    returns (ok: bool)
    ensures ok == BackupSucceeds(config.backup, TransferOf(config), blueprintId, blueprintName, env)
    ensures ok ==> env.runScript(BackupScript(config.backup),
                                 BackupParams(config.backup.parameters.GetOr([]), blueprintId)).success
  {
    var backupScript := if Truthy(config.backup.scriptPath) then config.backup.scriptPath.value
                        else DEFAULT_BACKUP_SCRIPT;
    var backupParams := config.backup.parameters.GetOr([]);
    if !Contains(Join(backupParams, " "), BLUEPRINT_FLAG) {
      backupParams := backupParams + [BLUEPRINT_FLAG, blueprintId];
    }
    var run := env.runScript(backupScript, backupParams);
    if !run.success {
      return false;
    }
    var backupFile := GetLatestBackupFile(run.output, env.pathExists, env.isFile);
    if !Truthy(backupFile) {
      return false;
    }
    var session;
    ok, session := TransferFile(config, backupFile.value, Some(blueprintId), blueprintName, env.timestamp, env.remote);
  }

  // ---------------------------------------------------------------------------------
  // Start-up: the legacy single-blueprint configuration
  // ---------------------------------------------------------------------------------

  /** The `api` section after the legacy conversion: an `endpoint` without `blueprints`
      gains the one default blueprint for that endpoint. */
  function LegacyConverted(api: ApiSettings): (r: ApiSettings)
    ensures r == api.(blueprints := r.blueprints)
    ensures r.blueprints.Some? <==> api.blueprints.Some? || api.endpoint.Some?
    ensures api.blueprints.None? && api.endpoint.Some? ==>
              r.blueprints == Some([BlueprintConfig(Some("default"), Some("Default Blueprint"), api.endpoint)])
    ensures !(api.endpoint.Some? && api.blueprints.None?) ==> r == api
  {
    if api.endpoint.Some? && api.blueprints.None? then
      api.(blueprints := Some([BlueprintConfig(Some("default"), Some("Default Blueprint"), api.endpoint)]))
    else api
  }

  /** The conversion at start-up and the fallback inside the poll pick the same blueprint
      for a non-empty legacy endpoint, so converting changes nothing that is polled. */
  lemma LegacyConversionAgreesWithFallback(api: ApiSettings)
    requires api.blueprints.None? && Truthy(api.endpoint)
    ensures PollList(LegacyConverted(api)) == PollList(api)
    ensures |PollList(api)| == 1 && PollList(api)[0].id == Some("default")
  {
  }

  /** The legacy conversion, done in place on the `api` section. */
  method ConvertLegacyConfig(config: AppConfig)
    modifies config.api
    ensures config.api == old(config.api) && config.transfer == old(config.transfer)
    ensures config.api != null ==> config.api.View() == LegacyConverted(old(config.api.View()))
  {
    if config.api != null && config.api.endpoint.Some? && config.api.blueprints.None? {
      config.api.blueprints := Some([BlueprintConfig(Some("default"), Some("Default Blueprint"), config.api.endpoint)]);
    }
  }

  // ---------------------------------------------------------------------------------
  // The commit step of one iteration
  // ---------------------------------------------------------------------------------

  /** The name the loop passes on: the record's stored name, or the id without a record. */
  function ChangedName(table: map<string, BlueprintState>, id: string): Option<string> {
    if id in table then table[id].blueprintName else Some(id)
  }

  /** Whether the backup of a blueprint succeeds, for the names recorded in a polled table. */
  function BackupOk(backup: BackupSettings, transfer: TransferSettings, table: map<string, BlueprintState>,
                    env: BackupEnv): string -> bool
  {
    id => BackupSucceeds(backup, transfer, id, ChangedName(table, id), env)
  }

  /** The ids, in order, whose change flag is set and whose backup succeeded. */
  function Succeeded(changes: seq<Change>, ok: string -> bool): (ids: seq<string>)
    ensures forall id :: id in ids ==> exists c :: c in changes && c.id == id && c.hasNew
    decreases |changes|
  {
    if changes == [] then []
    else
      var c := changes[|changes| - 1];
      var prefix := Succeeded(changes[..|changes| - 1], ok);
      assert forall d :: d in changes[..|changes| - 1] ==> d in changes;
      prefix + (if c.hasNew && ok(c.id) then [c.id] else [])
  }

  /** Every succeeded id passed the backup test. */
  lemma {:induction false} SucceededSound(changes: seq<Change>, ok: string -> bool, id: string)
    requires id in Succeeded(changes, ok)
    ensures ok(id)
    decreases |changes|
  {
    var prefix := Succeeded(changes[..|changes| - 1], ok);
    if id in prefix {
      SucceededSound(changes[..|changes| - 1], ok, id);
    }
  }

  /** Every flagged blueprint whose backup succeeded is among the succeeded ids. */
  lemma {:induction false} SucceededComplete(changes: seq<Change>, ok: string -> bool, c: Change)
    requires c in changes && c.hasNew && ok(c.id)
    ensures c.id in Succeeded(changes, ok)
    decreases |changes|
  {
    if c != changes[|changes| - 1] {
      assert changes == changes[..|changes| - 1] + [changes[|changes| - 1]];
      SucceededComplete(changes[..|changes| - 1], ok, c);
    }
  }

  /** The loop that processes the flagged blueprints in order, collecting the ids whose
      backup succeeded. */
  method RunBackups(config: AppConfig, changes: seq<Change>, table: map<string, BlueprintState>, env: BackupEnv)
    returns (updated: seq<string>)
    ensures updated == Succeeded(changes, BackupOk(config.backup, TransferOf(config), table, env))
  {
    ghost var ok := BackupOk(config.backup, TransferOf(config), table, env);
    updated := [];
    for i := 0 to |changes|
      invariant updated == Succeeded(changes[..i], ok)
    {
      assert changes[..i + 1][..i] == changes[..i];
      var change := changes[i];
      if change.hasNew {
        var name := if change.id in table then table[change.id].blueprintName else Some(change.id);
        var succeeded := ProcessBlueprintChanges(config, change.id, name, env);
        assert succeeded == ok(change.id);
        if succeeded {
          updated := updated + [change.id];
        }
      }
    }
    assert changes[..|changes|] == changes;
  }

  /** `base` with the entries of `ids` taken from `source`, one after the other. */
  function Override(base: map<string, BlueprintState>, source: map<string, BlueprintState>, ids: seq<string>)
    : (r: map<string, BlueprintState>)
    requires forall id :: id in ids ==> id in source
    ensures forall k :: k in r <==> k in base || k in ids
    decreases |ids|
  {
    if ids == [] then base
    else
      var id := ids[|ids| - 1];
      assert forall k :: k in ids[..|ids| - 1] ==> k in ids;
      var prefix := Override(base, source, ids[..|ids| - 1]);
      assert ids == ids[..|ids| - 1] + [id];
      prefix[id := source[id]]
  }

  /** The overridden entries come from `source`, the others stay as in `base`. */
  lemma {:induction false} OverrideAt(base: map<string, BlueprintState>, source: map<string, BlueprintState>,
                                      ids: seq<string>, k: string)
    requires forall id :: id in ids ==> id in source
    ensures k in ids ==> Override(base, source, ids)[k] == source[k]
    ensures k !in ids && k in base ==> Override(base, source, ids)[k] == base[k]
    decreases |ids|
  {
    if ids != [] {
      assert forall j :: j in ids[..|ids| - 1] ==> j in ids;
      OverrideAt(base, source, ids[..|ids| - 1], k);
      assert ids == ids[..|ids| - 1] + [ids[|ids| - 1]];
    }
  }

  /** Copying entries of a table onto itself changes nothing. */
  lemma OverrideSelf(table: map<string, BlueprintState>, ids: seq<string>)
    requires forall id :: id in ids ==> id in table
    ensures Override(table, table, ids) == table
  {
    forall k | k in table
      ensures Override(table, table, ids)[k] == table[k]
    {
      OverrideAt(table, table, ids, k);
    }
  }

  /** The value of a state dictionary, as `!=` compares it. */
  datatype StateValue = StateValue(fields: map<string, Option<string>>, blueprints: Option<map<string, BlueprintState>>)

  function ValueOf(state: PollState): StateValue
    reads state, state.blueprints
  {
    StateValue(state.fields, if state.blueprints == null then None else Some(state.blueprints.entries))
  }

  /** The ids a completed sweep reports all have a record in its table. */
  lemma SweepChangesRecorded(bps: seq<BlueprintConfig>, table: map<string, BlueprintState>, fetch: Fetch, now: string)
    requires !SweepOf(bps, table, fetch, now).raised
    ensures var s := SweepOf(bps, table, fetch, now);
            forall c :: c in s.changes ==> c.id in s.table
  {
    var s := SweepOf(bps, table, fetch, now);
    SweepKeys(bps, table, fetch, now);
    forall c | c in s.changes
      ensures c.id in s.table
    {
      ChangeIdsMember(s.changes, c.id);
    }
  }

  /** Succeeded ids are ids of changes, so they have a record wherever the changes do. */
  lemma SucceededRecorded(changes: seq<Change>, ok: string -> bool, table: map<string, BlueprintState>)
    requires forall c :: c in changes ==> c.id in table
    ensures forall id :: id in Succeeded(changes, ok) ==> id in table
  {
    forall id | id in Succeeded(changes, ok)
      ensures id in table
    {
      var c :| c in changes && c.id == id && c.hasNew;
    }
  }

  /** The commit block of the main loop: process the flagged blueprints; if any succeeded,
      copy exactly their records from the polled state into the persistent one, otherwise
      replace the persistent state by the polled one when their values differ. `saved`
      reports whether the state file is written. */
  method CommitChanges(config: AppConfig, state: PollState, changes: seq<Change>, newState: PollState, env: BackupEnv)
    returns (stateOut: PollState, updated: seq<string>, saved: bool)
    requires state.blueprints != null && newState.blueprints != null
    requires forall c :: c in changes ==> c.id in newState.blueprints.entries
    modifies state.blueprints
    ensures updated == Succeeded(changes, BackupOk(config.backup, TransferOf(config), old(newState.blueprints.entries), env))
    ensures updated != [] ==>
              && stateOut == state && saved
              && (forall id :: id in updated ==> id in old(newState.blueprints.entries))
              && state.blueprints.entries
                 == Override(old(state.blueprints.entries), old(newState.blueprints.entries), updated)
    ensures updated == [] ==>
              && state.blueprints.entries == old(state.blueprints.entries)
              && saved == (old(ValueOf(newState)) != old(ValueOf(state)))
              && stateOut == (if saved then newState else state)
  {
    updated := RunBackups(config, changes, newState.blueprints.entries, env);
    if updated != [] {
      ghost var base := state.blueprints.entries;
      ghost var source := newState.blueprints.entries;
      SucceededRecorded(changes, BackupOk(config.backup, TransferOf(config), source, env), source);
      CopyRecords(state.blueprints, newState.blueprints, updated);
      stateOut, saved := state, true;
    } else if ValueOf(newState) != ValueOf(state) {
      stateOut, saved := newState, true;
    } else {
      stateOut, saved := state, false;
    }
  }

  /** The copying loop of the commit: the records of `ids` go from the polled table into
      the persistent one, which may be the same object. */
  method CopyRecords(target: BlueprintTable, source: BlueprintTable, ids: seq<string>)
    requires forall id :: id in ids ==> id in source.entries
    modifies target
    ensures target.entries == Override(old(target.entries), old(source.entries), ids)
  {
    ghost var base := target.entries;
    ghost var from := source.entries;
    for i := 0 to |ids|
      invariant source != target ==> source.entries == from
      invariant source != target ==> target.entries == Override(base, from, ids[..i])
      invariant source == target ==> target.entries == base
    {
      assert forall k :: k in ids[..i + 1] ==> k in ids;
      assert ids[..i + 1][..i] == ids[..i];
      var id := ids[i];
      target.entries := target.entries[id := source.entries[id]];
      if source == target {
        assert target.entries == base;
      }
    }
    assert ids[..|ids|] == ids;
    if source == target {
      OverrideSelf(base, ids);
    }
  }

  // ---------------------------------------------------------------------------------
  // One iteration, as written and as intended
  // ---------------------------------------------------------------------------------

  /** One iteration of the main loop as written: poll, then commit when anything was
      polled. The persistent state always has a `blueprints` table (start-up adds one), so
      the poll's shallow copy shares it; the poll therefore writes every polled record into
      the persistent table, the commit copies records onto themselves, and the polled state
      never differs from the persistent one. Whatever the backups do, the persistent table
      ends up as the poll left it. */
  method Iterate(config: AppConfig, state: PollState, token: Option<string>, fetch: Fetch, now: string, env: BackupEnv)
    returns (raised: bool, stateOut: PollState, updated: seq<string>)
    requires state.blueprints != null
    modifies state.blueprints
    ensures stateOut == state
    ensures state.blueprints.entries
            == if PollRuns(ApiOf(config), token)
               then SweepOf(PollList(ApiOf(config)), old(state.blueprints.entries), fetch, now).table
               else old(state.blueprints.entries)
  {
    ghost var api := ApiOf(config);
    ghost var sweep := SweepOf(PollList(api), state.blueprints.entries, fetch, now);
    var changes, newState, tokenOut;
    raised, changes, newState, tokenOut := PollApi(config, state, token, fetch, now);
    if raised || changes == [] {
      return raised, state, [];
    }
    assert newState.blueprints == state.blueprints && state.blueprints.entries == sweep.table;
    assert changes == sweep.changes;
    SweepChangesRecorded(PollList(api), old(state.blueprints.entries), fetch, now);
    assert ValueOf(newState) == ValueOf(state);
    var saved;
    stateOut, updated, saved := CommitChanges(config, state, changes, newState, env);
    if updated != [] {
      OverrideSelf(sweep.table, updated);
    }
  }

  /** The commit as intended: records of successful backups are copied; the whole polled
      table is taken only when no blueprint needed a backup; a failed backup leaves its
      record as it was, so the change is detected again on the next iteration. */
  function IntendedCommit(stored: map<string, BlueprintState>, polled: map<string, BlueprintState>,
                          changes: seq<Change>, updated: seq<string>): map<string, BlueprintState>
    requires forall id :: id in updated ==> id in polled
  {
    if changes == [] then stored
    else if updated != [] then Override(stored, polled, updated)
    else if forall c :: c in changes ==> !c.hasNew then polled
    else stored
  }

  /** The intended commit after a sweep that got through. */
  function CommitAfterSweep(stored: map<string, BlueprintState>, sweep: Sweep, backup: BackupSettings,
                            transfer: TransferSettings, env: BackupEnv): map<string, BlueprintState>
    requires forall c :: c in sweep.changes ==> c.id in sweep.table
  {
    var ok := BackupOk(backup, transfer, sweep.table, env);
    SucceededRecorded(sweep.changes, ok, sweep.table);
    IntendedCommit(stored, sweep.table, sweep.changes, Succeeded(sweep.changes, ok))
  }

  /** One iteration as intended: poll into a copy of the table, then commit as intended. An
      exception in the poll leaves the stored table alone. */
  function IntendedIteration(api: ApiSettings, stored: map<string, BlueprintState>, token: Option<string>,
                             fetch: Fetch, now: string, backup: BackupSettings, transfer: TransferSettings,
                             env: BackupEnv): map<string, BlueprintState>
  {
    if !PollRuns(api, token) then stored
    else
      var sweep := SweepOf(PollList(api), stored, fetch, now);
      if sweep.raised then stored
      else
        SweepChangesRecorded(PollList(api), stored, fetch, now);
        CommitAfterSweep(stored, sweep, backup, transfer, env)
  }

  /** One iteration with the evident intent: poll into a copy of the persistent table, run
      the backups, then commit as `IntendedCommit` says. */
  method IterateIntended(config: AppConfig, state: PollState, token: Option<string>, fetch: Fetch, now: string,
                         env: BackupEnv)
    returns (raised: bool, updated: seq<string>)
    requires state.blueprints != null
    modifies state.blueprints
    ensures state.blueprints.entries
            == IntendedIteration(ApiOf(config), old(state.blueprints.entries), token, fetch, now,
                                 config.backup, TransferOf(config), env)
  {
    ghost var stored := state.blueprints.entries;
    ghost var api := ApiOf(config);
    var changes, polled;
    raised, changes, polled := PollIntoCopy(config, state, token, fetch, now);
    updated := [];
    if !PollRuns(ApiOf(config), token) || raised {
      return;
    }
    IntendedIterationAfterSweep(api, stored, token, fetch, now, config.backup, TransferOf(config), env);
    if changes == [] {
      return;
    }
    updated := BackupAndCommit(config, state.blueprints, polled, changes, env);
  }

  /** The rest of an intended iteration once something was polled: run the backups, then
      commit into the distinct persistent table. */
  method BackupAndCommit(config: AppConfig, target: BlueprintTable, polled: BlueprintTable, changes: seq<Change>,
                         env: BackupEnv)
    returns (updated: seq<string>)
    requires target != polled
    requires changes != []
    requires forall c :: c in changes ==> c.id in polled.entries
    modifies target
    ensures forall id :: id in updated ==> id in polled.entries
    ensures updated == Succeeded(changes, BackupOk(config.backup, TransferOf(config), polled.entries, env))
    ensures target.entries == IntendedCommit(old(target.entries), polled.entries, changes, updated)
  {
    updated := RunBackups(config, changes, polled.entries, env);
    SucceededRecorded(changes, BackupOk(config.backup, TransferOf(config), polled.entries, env), polled.entries);
    CommitIntended(target, polled, changes, updated);
  }

  /** After a sweep that got through, the intended iteration is the intended commit of the
      succeeded backups, every reported id having a polled record. */
  lemma IntendedIterationAfterSweep(api: ApiSettings, stored: map<string, BlueprintState>, token: Option<string>,
                                    fetch: Fetch, now: string, backup: BackupSettings, transfer: TransferSettings,
                                    env: BackupEnv)
    requires PollRuns(api, token) && !SweepOf(PollList(api), stored, fetch, now).raised
    ensures var sweep := SweepOf(PollList(api), stored, fetch, now);
            && (forall c :: c in sweep.changes ==> c.id in sweep.table)
            && (forall id :: id in Succeeded(sweep.changes, BackupOk(backup, transfer, sweep.table, env)) ==> id in sweep.table)
            && IntendedIteration(api, stored, token, fetch, now, backup, transfer, env)
               == IntendedCommit(stored, sweep.table, sweep.changes,
                                 Succeeded(sweep.changes, BackupOk(backup, transfer, sweep.table, env)))
  {
    var sweep := SweepOf(PollList(api), stored, fetch, now);
    SweepChangesRecorded(PollList(api), stored, fetch, now);
    SucceededRecorded(sweep.changes, BackupOk(backup, transfer, sweep.table, env), sweep.table);
  }

  /** The poll as intended: into a fresh copy of the persistent table, which the poll
      therefore leaves alone. */
  method PollIntoCopy(config: AppConfig, state: PollState, token: Option<string>, fetch: Fetch, now: string)
    returns (raised: bool, changes: seq<Change>, polled: BlueprintTable)
    requires state.blueprints != null
    ensures fresh(polled)
    ensures !PollRuns(ApiOf(config), token) ==> !raised
    ensures PollRuns(ApiOf(config), token) ==>
              var sweep := SweepOf(PollList(ApiOf(config)), state.blueprints.entries, fetch, now);
              && raised == sweep.raised && polled.entries == sweep.table
              && (!raised ==> changes == sweep.changes)
  {
    var copy := new BlueprintTable(state.blueprints.entries);
    var polling := new PollState(state.fields, copy);
    var newState, tokenOut;
    raised, changes, newState, tokenOut := PollApi(config, polling, token, fetch, now);
    polled := newState.blueprints;
  }

  /** The commit as intended, from a polled table into a distinct persistent one, once the
      backups have run: the table ends as `IntendedCommit` says. */
  method CommitIntended(target: BlueprintTable, polled: BlueprintTable, changes: seq<Change>, updated: seq<string>)
    requires target != polled
    requires changes != []
    requires forall id :: id in updated ==> id in polled.entries
    modifies target
    ensures target.entries == IntendedCommit(old(target.entries), polled.entries, changes, updated)
  {
    if updated != [] {
      CopyRecords(target, polled, updated);
    } else if forall c :: c in changes ==> !c.hasNew {
      target.entries := polled.entries;
    }
  }

  /** The intended commit keeps the stored record of a flagged blueprint whose backup
      failed, and takes the polled record of one whose backup succeeded. */
  lemma IntendedCommitKeepsFailed(stored: map<string, BlueprintState>, polled: map<string, BlueprintState>,
                                  changes: seq<Change>, ok: string -> bool, c: Change)
    requires forall d :: d in changes ==> d.id in polled
    requires c in changes && c.hasNew
    ensures var result := IntendedCommit(stored, polled, changes, Succeeded(changes, ok));
            if ok(c.id) then c.id in result && result[c.id] == polled[c.id]
            else (c.id in result <==> c.id in stored) && (c.id in stored ==> result[c.id] == stored[c.id])
  {
    var updated := Succeeded(changes, ok);
    SucceededRecorded(changes, ok, polled);
    OverrideAt(stored, polled, updated, c.id);
    if ok(c.id) {
      SucceededComplete(changes, ok, c);
    } else if c.id in updated {
      SucceededSound(changes, ok, c.id);
    }
  }

  /** The intended property of an iteration: a blueprint flagged as changed whose backup
      failed keeps its stored record (or stays without one), and one whose backup
      succeeded gets the polled record. */
  lemma IntendedIterationKeepsFailed(api: ApiSettings, stored: map<string, BlueprintState>, token: Option<string>,
                                     fetch: Fetch, now: string, backup: BackupSettings,
                                     transfer: TransferSettings, env: BackupEnv, c: Change)
    requires PollRuns(api, token) && !SweepOf(PollList(api), stored, fetch, now).raised
    requires c in SweepOf(PollList(api), stored, fetch, now).changes && c.hasNew
    ensures var sweep := SweepOf(PollList(api), stored, fetch, now);
            var result := IntendedIteration(api, stored, token, fetch, now, backup, transfer, env);
            if BackupOk(backup, transfer, sweep.table, env)(c.id)
            then c.id in sweep.table && c.id in result && result[c.id] == sweep.table[c.id]
            else (c.id in result <==> c.id in stored) && (c.id in stored ==> result[c.id] == stored[c.id])
  {
    var sweep := SweepOf(PollList(api), stored, fetch, now);
    SweepChangesRecorded(PollList(api), stored, fetch, now);
    assert IntendedIteration(api, stored, token, fetch, now, backup, transfer, env)
           == CommitAfterSweep(stored, sweep, backup, transfer, env);
    IntendedCommitKeepsFailed(stored, sweep.table, sweep.changes, BackupOk(backup, transfer, sweep.table, env), c);
  }

  /** The discrepancy, on one blueprint stored at revision 5 whose controller now reports
      revision 7, with a backup script that fails: the iteration as written stores
      revision 7 (see `Iterate`), so the next iteration reports no change and the backup is
      never retried; the intended iteration keeps revision 5. */
  lemma FailedBackupStillAdvances(backup: BackupSettings, transfer: TransferSettings, env: BackupEnv)
    requires forall script: string, params: seq<string> :: !env.runScript(script, params).success
    ensures var bp := BlueprintConfig(Some("bp1"), Some("DC1"), Some("/api/blueprints/bp1/revisions"));
            var api := ApiSettings(Some("apstra"), Some("admin"), Some("secret"), None, Some([bp]));
            var stored := map["bp1" := BlueprintState(Some(5), Some("t0"), Some("bp1"), Some("DC1"))];
            var fetch: Fetch := endpoint => [Revision(Some(7), map[])];
            var sweep := SweepOf(PollList(api), stored, fetch, "t1");
            && PollRuns(api, Some("token"))
            && sweep.changes == [Change("bp1", true)] && !sweep.raised
            && sweep.table == map["bp1" := BlueprintState(Some(7), Some("t1"), Some("bp1"), Some("DC1"))]
            && !BackupOk(backup, transfer, sweep.table, env)("bp1")
            && IntendedIteration(api, stored, Some("token"), fetch, "t1", backup, transfer, env) == stored
  {
    var bp := BlueprintConfig(Some("bp1"), Some("DC1"), Some("/api/blueprints/bp1/revisions"));
    var api := ApiSettings(Some("apstra"), Some("admin"), Some("secret"), None, Some([bp]));
    var stored := map["bp1" := BlueprintState(Some(5), Some("t0"), Some("bp1"), Some("DC1"))];
    var fetch: Fetch := endpoint => [Revision(Some(7), map[])];
    var revs := Fetched("/api/blueprints/bp1/revisions", fetch);
    assert revs == [Revision(Some(7), map[])];
    assert LatestRevision(revs) == Some(Revision(Some(7), map[]));
    assert CheckForNewRevision(bp.endpoint, Some(5), fetch) == Checked(true, Some(Revision(Some(7), map[])));
    var next := BlueprintState(Some(7), Some("t1"), Some("bp1"), Some("DC1"));
    assert PollBlueprint(bp, stored["bp1"], fetch, "t1") == Polled(true, next);
    assert PollList(api) == [bp];
    assert [bp][..0] == [];
    assert SweepOf([bp][..0], stored, fetch, "t1") == Sweep([], stored, false);
    assert SetChange([], "bp1", true) == [Change("bp1", true)];
    assert Step(Sweep([], stored, false), bp, fetch, "t1") == Sweep([Change("bp1", true)], stored["bp1" := next], false);
    var sweep := SweepOf(PollList(api), stored, fetch, "t1");
    assert sweep == Sweep([Change("bp1", true)], stored["bp1" := next], false);
    assert stored["bp1" := next] == map["bp1" := next];
    var ok := BackupOk(backup, transfer, sweep.table, env);
    assert !ok("bp1");
    assert Succeeded(sweep.changes, ok) == [];
  }
}
