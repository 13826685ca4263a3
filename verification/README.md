# apstra_commit_backup in Dafny

This project models the decision logic of a small Python service. The service polls an
Apstra controller for new revisions of its blueprints. When it sees one, it runs a backup
script, finds the archive the script reports, and copies the archive to a remote host over
SCP. The model covers the following parts:

- `Transfer`: composing the remote filename, the local source path and the remote path, and
  choosing the credentials. The secure-shell session is a class whose methods record what
  the transfer asked of it.
- `Poller`: normalising the endpoint, choosing the latest revision, deciding whether it is
  new, and building the per-blueprint record. The `poll_api` loop writes into a blueprint
  table object that it shares with its caller.
- `BackupTrigger`: finding the backup file in the script's output. It covers
  `splitlines()`, the `New AOS snapshot:` lines and the `/[/\w\.-]+` fallback, with
  existence and file tests as oracles.
- `EnvLoader` and `ConfigMerge`: collecting the environment variables, checking the required
  ones, and laying credentials over the `api` and `transfer` sections. Those sections are
  objects that the shallow copies of the configuration share.
- `Service`: the backup of one blueprint and the legacy-configuration conversion in
  `main.py`. It also has the commit step of the polling loop, both as written and as
  evidently intended.
- `Settings` and `Util`: the configuration sections and the Python built-ins the code relies
  on (truthiness, `in` on strings, `join`, `strip`, `basename`).

Inputs of the model:

- The controller's answers are inputs: the login token is a parameter, and `fetch` gives
  the revision list of a normalised endpoint.
- The remote host is a `RemoteHost` value: which logins it accepts, what a command prints,
  and whether a copy succeeds.
- The backup script is a function from script and arguments to success and output.
- The clock is a timestamp parameter.
- The environment is a map.

## Model

| member | source | states |
|---|---|---|
| Util.StripMeaning | app/services/backup_trigger.py:89 | Stripping cuts a run of whitespace from each end and nothing else; the result neither starts nor ends with whitespace |
| Util.StripIdempotent | app/services/backup_trigger.py:89 | Stripping twice is stripping once |
| Settings.AppConfig.ShallowCopy | app/utils/env_loader.py:116 | The copy is a new top level whose sections are the very same objects |
| Transfer.NameComponent | app/services/transfer.py:33-37 | The blueprint name if it is non-empty and not "Default Blueprint"; else the id if it is non-empty and not "default"; else nothing, exactly when neither qualifies |
| Transfer.CustomFilename | app/services/transfer.py:30-43 | The prefix is component + "-" + timestamp, or the timestamp alone when there is no component; it always ends with the timestamp, and is non-empty whenever the timestamp is non-empty |
| Transfer.CustomFilenameExamples | app/services/transfer.py:33-43 | The sentinel name and the sentinel id give the bare timestamp; a real name leads the prefix |
| Transfer.Basename | app/services/transfer.py:44 | The basename has no '/', is a suffix of the path, and is preceded by '/' when shorter than the path |
| Transfer.BasenameOfJoin | app/services/transfer.py:44 | The basename of dir + "/" + name is name when name has no '/' |
| Transfer.SourcePath | app/services/transfer.py:86 | The uploaded file is the staging directory, the segment, then "/aos.data.tar.gz"; the segment can be read back from the path |
| Transfer.SourceIgnoresDirectory | app/services/transfer.py:86 | The uploaded file depends only on the basename of the backup path, never on its directory |
| Transfer.SourceIsBackupPathOnlyOnce | app/services/transfer.py:86 | The uploaded file equals the backup path exactly when the backup path is the staging archive itself |
| Transfer.RemoteFilename | app/services/transfer.py:88-92 | The remote name ends in "-aos.data.tar.gz" after the custom prefix when it is non-empty, else after the basename of the backup path |
| Transfer.NormalizeRemoteDir | app/services/transfer.py:120-122 | The directory ends in '/', extends the input by at most that '/', and is unchanged when it already ends in '/' |
| Transfer.NormalizeRemoteDirIdempotent | app/services/transfer.py:120-122 | Normalising twice is normalising once |
| Transfer.RemoteDir | app/services/transfer.py:78 | The configured remote directory, "~/" by default, with a trailing '/' (its properties are NormalizeRemoteDir's) |
| Transfer.ResolveRemotePath | app/services/transfer.py:124-131 | Under "~/": the stripped home, '/', the directory below "~/" and the filename; otherwise the directory followed by the filename; either way the path ends with the filename |
| Transfer.ResolvedDirectoryEndsWithSlash | app/services/transfer.py:120-131 | For a normalised directory, what precedes the filename ends with '/' and is the directory, or the home followed by the part below "~/" |
| Transfer.StripTrailingNewline | app/services/transfer.py:127-128 | A home directory printed as one line with its newline strips back to the directory |
| Transfer.ResolveRemotePathUnderHome | app/services/transfer.py:120-129 | "~/backups/" with a printed home of "/home/svc" resolves to "/home/svc/backups/" followed by the filename |
| Transfer.ResolveRemotePathAbsolute | app/services/transfer.py:120-131 | "/srv/backups" gains its '/' and resolves to "/srv/backups/" followed by the filename |
| Transfer.SelectAuth | app/services/transfer.py:105-112 | Key file if a key path is set, else password if set, else default keys exactly when neither is set |
| Transfer.ConnectRequestFor | app/services/transfer.py:99-112 | Host and user as configured, port defaulting to 22, credentials as SelectAuth chooses |
| Transfer.Ready | app/services/transfer.py:80 | A connection is attempted only when host and user are both non-empty (TransferScp and TransferFile state the consequences) |
| Transfer.PlannedUpload | app/services/transfer.py:84-136 | The upload copies the staging source path to the resolved remote path of the normalised directory and the remote filename, which ends in that filename |
| Transfer.SshSession.Connect | app/services/transfer.py:114-115 | A login attempt is recorded; the session is connected exactly when the remote end accepts it |
| Transfer.SshSession.OpenScp | app/services/transfer.py:117-118 | The copy channel opens on a connected session; nothing else changes |
| Transfer.SshSession.Exec | app/services/transfer.py:127-128 | The command is recorded and its output is the remote end's answer |
| Transfer.SshSession.Put | app/services/transfer.py:135-136 | The upload is recorded and succeeds as the remote end says |
| Transfer.SshSession.CloseScp | app/services/transfer.py:139 | The copy channel is marked closed; nothing else changes |
| Transfer.SshSession.Close | app/services/transfer.py:140 | The session is marked closed; nothing else changes |
| Transfer.TransferScp | app/services/transfer.py:60-153 | Without host or user: false and no session is created. Otherwise exactly one login attempt; the home query only when the directory needs it; at most the one planned upload. True exactly when login, home lookup and copy succeed; the session is closed only then |
| Transfer.CopyOverSession | app/services/transfer.py:117-143 | After login: the commands, the uploads and the result follow from the normalised directory and the remote answers; both channels are closed exactly on success |
| Transfer.TransferFile | app/services/transfer.py:16-58 | True exactly when the SCP transfer of the basename with the composed prefix succeeds; no session without host and user |
| Poller.LatestIndex | app/services/api_poller.py:108-116 | The chosen position holds a largest key, and every earlier position a strictly smaller one; this is what a stable descending sort puts first |
| Poller.LatestRevision | app/services/api_poller.py:95-116 | None exactly for an empty list; otherwise a member of the list at its first maximal key, a missing id counting as 0 |
| Poller.FirstMaximumUnique | app/services/api_poller.py:108-116 | The first-maximum conditions determine the chosen revision uniquely |
| Poller.NormalizeEndpoint | app/services/api_poller.py:65-67 | The endpoint starts with '/', ends with the input, and is unchanged if it already started with '/' |
| Poller.NormalizeEndpointIdempotent | app/services/api_poller.py:65-67 | Normalising twice is normalising once |
| Poller.CheckForNewRevision | app/services/api_poller.py:118-155 | Raises exactly for a missing endpoint, or a non-empty latest revision without an id checked against a last id. (false, none) when nothing was retrieved or the latest is empty; otherwise the latest is the first maximum; new on the first run, else exactly when its id exceeds the last id |
| Poller.NewRevisionIffNewerExists | app/services/api_poller.py:143-155 | Against a last id, a change is reported exactly when some retrieved revision has a larger key |
| Poller.DisplayName | app/services/api_poller.py:172 | The configured name, else the id |
| Poller.PollBlueprint | app/services/api_poller.py:157-197 | Raises exactly when the check raises; reports the check's flag. With a latest revision the record is replaced by its id, the poll time, the id and the display name; without one the record is unchanged |
| Poller.PollAdvances | app/services/api_poller.py:143-193 | A reported change moves the stored id strictly forward, to the largest key among the retrieved revisions |
| Poller.RepollReportsNoChange | app/services/api_poller.py:143-197 | Re-polling with the same answers reports no change and keeps the stored id |
| Poller.SetChange | app/services/api_poller.py:268 | Setting a key adds it to the dictionary's keys and stores the new flag |
| Poller.ChangeIdsMember | app/services/api_poller.py:268 | A key of the changes dictionary is the id of one of its entries, and conversely |
| Poller.SetChangeKeepsOthers | app/services/api_poller.py:268 | Setting a key keeps the keys distinct and leaves the other entries alone |
| Poller.PollList | app/services/api_poller.py:217-225 | The configured blueprints; or, when there are none and an endpoint is set, the single default entry; else nothing |
| Poller.InitialState | app/services/api_poller.py:253-258 | The record a blueprint without one starts from: no revision, no poll time, its id and its configured name or id (used by Step) |
| Poller.Step | app/services/api_poller.py:246-268 | One iteration: skip an entry without an id, poll it against its record, store the record and the flag, or stop on an exception (SweepLastWins states the outcome) |
| Poller.SweepOf | app/services/api_poller.py:245-268 | The loop as steps over the list (SweepKeys, SweepLastWins, SweepUntouched and SweepStopsWhenRaised state its properties) |
| Poller.SweepKeys | app/services/api_poller.py:246-268 | After a loop that got through: the changes have exactly the polled ids, each once, and the table gains exactly those ids |
| Poller.SweepLastWins | app/services/api_poller.py:246-268 | After a loop that got through, a polled id holds the record and the flag the poll of its LAST entry produced, against the table the earlier entries left |
| Poller.SweepUntouched | app/services/api_poller.py:246-268 | Records of ids that are not polled keep their value, even when an exception escaped |
| Poller.SweepStopsWhenRaised | app/services/api_poller.py:246-268 | Once an exception escapes, the rest of the list changes nothing |
| Poller.PollState.ShallowCopy | app/services/api_poller.py:239 | The copy has new top-level fields but shares the blueprint table |
| Poller.SweepInto | app/services/api_poller.py:246-268 | The loop ends with the table and the raised flag of the sweep over the list; when nothing raised, the changes are the sweep's |
| Poller.PollApi | app/services/api_poller.py:199-270 | Incomplete configuration or no token: nothing is polled and the state is returned. Otherwise the returned state is new but shares an existing blueprint table. The table ends as the loop leaves it, even on an exception, and the changes are the loop's |
| BackupTrigger.LineLength | app/services/backup_trigger.py:87 | The first line has no boundary and is followed by one, or by the end |
| BackupTrigger.SplitLines | app/services/backup_trigger.py:87 | No lines exactly for the empty text; no line contains a line boundary (where lines split: SplitLinesAtBoundary) |
| BackupTrigger.SplitLinesAtBoundary | app/services/backup_trigger.py:87 | A boundary-free line, one boundary ("\r\n" counting as one) and the rest split as that line followed by the lines of the rest |
| BackupTrigger.SplitLinesOfLine | app/services/backup_trigger.py:87 | A non-empty text without boundaries is one line |
| BackupTrigger.LineLengthOfLine | app/services/backup_trigger.py:87 | The first line of a text is what precedes its first boundary |
| BackupTrigger.SplitLinesLosesOnlyBreaks | app/services/backup_trigger.py:87 | The lines put back together are the text with its boundaries removed |
| BackupTrigger.ColonIndex | app/services/backup_trigger.py:89 | The position of the first colon: no colon before it, a colon at it, or the length when there is none |
| BackupTrigger.TextAfterColon | app/services/backup_trigger.py:89 | Nothing exactly when the line has no colon; else the line ends with ':' and that text, and no colon comes before that one |
| BackupTrigger.ColonIndexSkips | app/services/backup_trigger.py:89 | Colon-free text in front shifts the first colon by its length |
| BackupTrigger.TextAfterColonSkips | app/services/backup_trigger.py:89 | Text before the first colon does not affect the result |
| BackupTrigger.SnapshotText | app/services/backup_trigger.py:88-89 | On a snapshot line the text after the first colon is the text after the marker |
| BackupTrigger.Candidate | app/services/backup_trigger.py:88-90 | The candidate is "var/lib/aos/snapshot/" + the stripped text after the marker |
| BackupTrigger.FirstWhere | app/services/backup_trigger.py:87-93 | The position of the first item that passes the test, or the length when none does |
| BackupTrigger.FindSnapshot | app/services/backup_trigger.py:87-93 | The candidate of the first snapshot line whose candidate exists; nothing exactly when no line qualifies |
| BackupTrigger.RunLength | app/services/backup_trigger.py:97-98 | The longest prefix of path characters |
| BackupTrigger.PathMatches | app/services/backup_trigger.py:96-99 | Every match is a whole token of the pattern (which tokens, in what order: PathMatchesDecompose) |
| BackupTrigger.PathMatchesDecompose | app/services/backup_trigger.py:97-99 | Leftmost, longest, contiguous: in a + m + b, with no match starting in a, m a token and b not continuing it, the matches are m and then those of b |
| BackupTrigger.PathMatchAtFront | app/services/backup_trigger.py:97-99 | A token at the front not followed by a class character is matched whole, and the search resumes after it |
| BackupTrigger.PathMatchesSkip | app/services/backup_trigger.py:97-99 | Text in which no match starts contributes no match |
| BackupTrigger.NoMatchStartNoMatch | app/services/backup_trigger.py:97-99 | A text in which no match starts has no matches |
| BackupTrigger.RunLengthThen | app/services/backup_trigger.py:97 | The greedy run of class characters stops at the first other character |
| BackupTrigger.PathMatchesOccur | app/services/backup_trigger.py:97-99 | Every match occurs in the output |
| BackupTrigger.SingleTokenMatches | app/services/backup_trigger.py:97-99 | An output that is one token matches as a whole |
| BackupTrigger.NoSlashNoMatch | app/services/backup_trigger.py:97-98 | An output without '/' has no matches |
| BackupTrigger.FirstFile | app/services/backup_trigger.py:98-102 | The first match that is a file; nothing exactly when none is |
| BackupTrigger.GetLatestBackupFile | app/services/backup_trigger.py:72-105 | A usable snapshot line wins; otherwise the first match that is a file; any result is an existing snapshot path or a matched token that is a file; nothing exactly when both passes fail |
| EnvLoader.MissingVars | app/utils/env_loader.py:75 | A name is missing exactly when it is required and its value is unset or empty |
| EnvLoader.CollectVars | app/utils/env_loader.py:71-72 | The collected dictionary has exactly the listed names, each mapped to its environment value or none |
| EnvLoader.LoadEnvironmentVariables | app/utils/env_loader.py:35-102 | The result has exactly the required and optional names, each mapped to its environment value or none; success exactly when every required value is non-empty, that is when nothing is missing |
| EnvLoader.NormalizeKeyPath | app/utils/env_loader.py:147-153 | Absolute paths are kept, "~" paths are expanded, other paths are made absolute |
| EnvLoader.NormalizeKeyPathStable | app/utils/env_loader.py:147-153 | A path that came out absolute is not changed again |
| EnvLoader.ApiOverlay | app/utils/env_loader.py:124-128 | Both API credentials are written only when both are non-empty; the other settings stay |
| EnvLoader.KeyPathOverlay | app/utils/env_loader.py:144-160 | A key path is written only when the variable is non-empty and its normalised path is a file |
| EnvLoader.TransferOverlay | app/utils/env_loader.py:130-165 | User and password are overwritten only by non-empty values; the key path by the existing normalised file when there is one and otherwise kept; the passphrase only when it and the key path variable are set; host, port, directory and method stay |
| EnvLoader.OverlayIdempotent | app/utils/env_loader.py:124-165 | Applying the environment twice is applying it once |
| EnvLoader.OverlayApiSection | app/utils/env_loader.py:125-127 | The section object ends as ApiOverlay of its old value |
| EnvLoader.OverlayTransferSection | app/utils/env_loader.py:131-165 | The section object ends as TransferOverlay of its old value |
| EnvLoader.ApplyEnvToConfig | app/utils/env_loader.py:104-167 | A new top level sharing the sections; the sections are overlaid in place, so the caller's configuration sees the same values |
| ConfigMerge.GetEnvironmentVariables | app/utils/config.py:34-92 | Exactly the five names with their environment values; the missing list names the unset or empty ones among APSTRA_USERNAME and APSTRA_PASSWORD, in that order |
| ConfigMerge.MergeApi | app/utils/config.py:159-162 | Both API credentials are overwritten with the environment's values, even unset ones; the rest stays |
| ConfigMerge.MergeTransfer | app/utils/config.py:125-136 | User, password and key path are overwritten only by non-empty values, the key path as given; the rest stays |
| ConfigMerge.MergeAgreesWithOverlay | app/utils/config.py:125-162 | With both API credentials set, merge and overlay agree on the api section; they always agree on the remote user and password |
| ConfigMerge.MergeErasesWhereOverlayKeeps | app/utils/config.py:159-162 | With an API credential unset, the overlay keeps the configured user but the merge erases it |
| ConfigMerge.MergeApiSection | app/utils/config.py:160-162 | The section object ends as MergeApi of its old value |
| ConfigMerge.MergeTransferSection | app/utils/config.py:126-136 | The section object ends as MergeTransfer of its old value |
| ConfigMerge.MergeConfigWithEnv | app/utils/config.py:94-164 | A new top level sharing the sections, merged in place, transfer first; the caller's configuration changes too |
| ConfigMerge.MergeTestScenario | tests/test_config.py:50-69 | Merging the test's variables gives the API and transfer credentials the test expects, and the original configuration shows them too |
| Service.BackupScript | app/main.py:92 | The configured script when it is non-empty, else "/usr/sbin/aos_backup" |
| Service.BackupParams | app/main.py:94-97 | The configured arguments, with "--blueprint" and the id appended when the joined arguments lack the flag (BackupParamsNameABlueprint states its properties) |
| Service.BackupParamsNameABlueprint | app/main.py:94-97 | The arguments always contain "--blueprint" and start with the configured list; they equal it exactly when the flag already occurred |
| Service.FlagJoined | app/main.py:96-97 | Appending the flag and an id makes the flag occur in the joined arguments |
| Service.BackupParamsIdempotent | app/main.py:95-97 | Building the arguments again adds nothing |
| Service.ProcessBlueprintChanges | app/main.py:76-120 | True exactly when the script succeeds, a backup file is found in its output and its transfer succeeds |
| Service.LegacyConverted | app/main.py:165-174 | An endpoint without blueprints gains exactly the one default entry; nothing else changes |
| Service.LegacyConversionAgreesWithFallback | app/main.py:167-174 | For a non-empty legacy endpoint, the conversion and the poll's own fallback poll the same single default blueprint |
| Service.ConvertLegacyConfig | app/main.py:165-174 | The api section object ends as LegacyConverted of its old value |
| Service.Succeeded | app/main.py:189-203 | Only ids of changes whose flag is set are recorded |
| Service.ChangedName | app/main.py:193-194 | The name the loop passes on: the record's stored name, or the id without a record |
| Service.SucceededSound | app/main.py:189-203 | Every recorded id passed its backup |
| Service.SucceededComplete | app/main.py:189-203 | Every flagged id whose backup succeeded is recorded |
| Service.RunBackups | app/main.py:188-203 | The loop records exactly the flagged ids whose backup succeeded, in order |
| Service.Override | app/main.py:208-209 | The keys are the old keys plus the copied ids |
| Service.OverrideAt | app/main.py:208-209 | Copied ids take the polled record; others keep their own |
| Service.OverrideSelf | app/main.py:208-209 | Copying records of a table onto itself changes nothing |
| Service.CopyRecords | app/main.py:208-209 | The persistent table takes exactly the copied ids' records, even when it is the polled table itself |
| Service.SweepChangesRecorded | app/main.py:193-209 | Every id the poll reports has a record in the polled table |
| Service.SucceededRecorded | app/main.py:193-209 | Every recorded id has a record in the polled table |
| Service.CommitChanges | app/main.py:188-214 | If a backup succeeded, exactly those ids are copied and the state is saved. Otherwise the table is unchanged, and the state is replaced and saved exactly when its value differs from the polled one |
| Service.Iterate | app/main.py:178-214 | As written: the persistent table always ends as the poll left it, whatever the backups did |
| Service.FailedBackupStillAdvances | app/main.py:181-214 | A blueprint at revision 5 whose controller reports 7 and whose backup fails: the polled table, which Iterate stores, holds 7, while the intended iteration keeps 5 |
| Service.IterateIntended | app/main.py:178-214 | The corrected iteration ends with the table IntendedIteration describes |
| Service.IntendedIterationAfterSweep | app/main.py:181-214 | After a poll that got through, the intended iteration commits exactly the succeeded backups of the polled changes |
| Service.PollIntoCopy | app/services/api_poller.py:239-268 | Polling into a fresh copy of the table: the copy ends as the sweep says, and the raised flag and the changes are the sweep's |
| Service.CommitIntended | app/main.py:201-214 | The distinct persistent table ends as the intended commit of the polled table says |
| Service.BackupAndCommit | app/main.py:188-214 | The backups record exactly the flagged ids that succeeded, and the persistent table ends as the intended commit says |
| Service.IntendedCommitKeepsFailed | app/main.py:201-214 | Intended commit: a flagged id whose backup failed keeps its stored record, or stays without one; one that succeeded takes the polled record |
| Service.IntendedIterationKeepsFailed | app/main.py:201-214 | The same for a whole intended iteration |

## Left out

- Network and login: `authenticate` and the HTTP request of `get_revisions` are not part
  of this model. Their results are inputs: a token, and a revision list per normalised
  endpoint, with an empty list for every failed request. The list is a function of the
  endpoint, so two polls of the same endpoint within one iteration see the same answer.
- SSH and SCP: the paramiko and scp libraries are not modelled. The remote end is a
  `RemoteHost` value, and a library exception is a failed login, command or copy.
  `AutoAddPolicy` is not modelled.
- Closing the session: `transfer_scp` closes the session only on success, and the model
  says so. Nothing is claimed about release on error paths.
- The backup script: `run_backup_script` is subprocess I/O and is not part of this model.
  When the script is missing it returns a failure triple
  (app/services/backup_trigger.py:22-24), which `process_blueprint_changes` unpacks at
  app/main.py:99 and answers with false; the model covers that path as a failed run. The
  two other returns, at app/services/backup_trigger.py:38 and :43, are bare booleans, which
  that three-way unpacking cannot take. The model treats the script run as an abstract
  function returning success and output, and does not model the exception those two
  returns cause.
- State and configuration files: app/utils/state.py (JSON load and save) is not part of
  this model. Neither are YAML loading, the `.env` file search, `load_dotenv`, logging,
  argument parsing, signal handling, or the sleep between polls. No warning or help text is
  modelled.
- Other inputs: `datetime.now()` is a timestamp parameter. `os.path.exists`, `isfile`,
  `expanduser` and `abspath` are oracle functions.
- Commented-out code: the SFTP and FTP branches.
- The import at app/utils/config.py:7 is malformed (`from from dotenv ...`), so as written
  neither that module nor app/main.py, which imports it, nor the configuration test can
  be imported. The model takes the function bodies of config.py and main.py as they would
  run with a working import.
- Absent versus null: a key that is absent and a key that holds `None` are both `None` in
  the model. So the legacy conversion's `"endpoint" in api` test is modelled as "endpoint
  set".
- Value types: configuration values have fixed types (strings, an integer port); YAML
  values of other types are not modelled.
- Python character classes: `\w`, `isspace` and `strip` use ASCII classes.
- Revision ids: a revision id is an integer, so `int()` on a non-numeric id is not
  modelled. Raising on a missing id is modelled.
- Service.IterateIntended: this corrected iteration has a different interface from the
  code. It polls into a private copy of the table, then updates the persistent table in
  place rather than rebinding `state`.
- Service.Iterate: the exception that a failed backup call raises inside the loop is not
  modelled, and neither is the save to disk, which is only reported as a flag by
  `CommitChanges`.
- Dictionary order: the changes dictionary keeps insertion order as a sequence. The
  blueprint table is a map, whose order the code never uses.

## Findings

| source | as written | input that shows it | evidently intended | confidence | as-written member | corrected member |
|---|---|---|---|---|---|---|
| app/main.py:155-214 with app/services/api_poller.py:239-267 | `main` always gives `state` a `blueprints` table, and `poll_api`'s shallow `state.copy()` shares it, so the poll writes the new revision ids straight into the persistent table; `new_state != state` is then never true, and the commit copies records onto themselves | one blueprint stored at revision 5, the controller reports revision 7, the backup script fails: after the iteration the stored revision is 7, so the next poll reports no change and the backup is never retried | a blueprint whose backup failed keeps its stored revision, so the change is seen again on the next poll (the comment at app/main.py:202, "Update state only for successful backup") | high; not executed | Service.Iterate, Service.FailedBackupStillAdvances | Service.IterateIntended, Service.IntendedIterationKeepsFailed |
