/** The upload of a backup archive to the remote host (app/services/transfer.py): how the
    remote filename, the local source path and the remote path are composed, which
    credentials are offered, and the order in which the secure-shell session is driven.
    The session's remote end (does it accept the login, what does a command print, does the
    copy succeed) is an input value. */
module Transfer {
  import opened Util
  import opened Settings

  const DEFAULT_BLUEPRINT_NAME := "Default Blueprint"
  const DEFAULT_BLUEPRINT_ID := "default"
  const ARCHIVE_SUFFIX := "-aos.data.tar.gz"
  const SNAPSHOT_STAGING := "/var/lib/aos/snapshot/"
  const ARCHIVE_FILE := "aos.data.tar.gz"
  const ARCHIVE_NAME := "/" + ARCHIVE_FILE
  const DEFAULT_PORT := 22
  const DEFAULT_REMOTE_DIRECTORY := "~/"
  const HOME_QUERY := "echo $HOME"

  // ---------------------------------------------------------------------------------
  // Filename composition (transfer_file)
  // ---------------------------------------------------------------------------------

  /** The blueprint part of the remote filename, by first match: a usable name, else a
      usable id, else nothing. The sentinels mark the legacy single-blueprint entry. */
  function NameComponent(blueprintId: Option<string>, blueprintName: Option<string>): (r: Option<string>)
    ensures Truthy(blueprintName) && blueprintName.value != DEFAULT_BLUEPRINT_NAME ==> r == blueprintName
    ensures (&& !(Truthy(blueprintName) && blueprintName.value != DEFAULT_BLUEPRINT_NAME)
             && Truthy(blueprintId) && blueprintId.value != DEFAULT_BLUEPRINT_ID)
            ==> r == blueprintId
    ensures r.None? <==> !(Truthy(blueprintName) && blueprintName.value != DEFAULT_BLUEPRINT_NAME)
                         && !(Truthy(blueprintId) && blueprintId.value != DEFAULT_BLUEPRINT_ID)
  {
    if Truthy(blueprintName) && blueprintName.value != DEFAULT_BLUEPRINT_NAME then blueprintName
    else if Truthy(blueprintId) && blueprintId.value != DEFAULT_BLUEPRINT_ID then blueprintId
    else None
  }

  /** The prefix handed to the SCP transfer: the name component, if any, and the timestamp,
      joined with `-`. */
  function CustomFilename(blueprintId: Option<string>, blueprintName: Option<string>, timestamp: string): (r: string)
    ensures NameComponent(blueprintId, blueprintName).Some? ==>
              r == NameComponent(blueprintId, blueprintName).value + "-" + timestamp
    ensures NameComponent(blueprintId, blueprintName).None? ==> r == timestamp
    ensures EndsWith(r, timestamp)
    ensures timestamp != "" ==> r != ""
  {
    var parts := match NameComponent(blueprintId, blueprintName)
      case Some(part) => [part]
      case None => [];
    var r := Join(parts + [timestamp], "-");
    JoinAppend(parts, timestamp, "-");
    assert r[|r| - |timestamp|..] == timestamp;
    r
  }

  /** Examples of the composer's first-match policy: the two sentinels fall through to the
      timestamp alone, and a usable name leads the prefix. */
  lemma CustomFilenameExamples(timestamp: string)
    ensures CustomFilename(None, Some("Default Blueprint"), timestamp) == timestamp
    ensures CustomFilename(Some("default"), None, timestamp) == timestamp
    ensures StartsWith(CustomFilename(Some("b1"), Some("My Blueprint"), timestamp), "My Blueprint-")
  {
    var r := CustomFilename(Some("b1"), Some("My Blueprint"), timestamp);
    assert r == "My Blueprint" + "-" + timestamp;
    assert r[..|"My Blueprint-"|] == "My Blueprint-";
  }

  // ---------------------------------------------------------------------------------
  // Paths (transfer_scp)
  // ---------------------------------------------------------------------------------

  /** POSIX `os.path.basename`: everything after the last `/`. */
  function Basename(path: string): (r: string)
    ensures '/' !in r
    ensures EndsWith(path, r)
    ensures |r| < |path| ==> path[|path| - |r| - 1] == '/'
    decreases |path|
  {
    if |path| == 0 || path[|path| - 1] == '/' then ""
    else
      var init := path[..|path| - 1];
      var b := Basename(init);
      var r := b + [path[|path| - 1]];
      assert path == init + [path[|path| - 1]];
      assert path[|path| - |r|..] == init[|init| - |b|..] + [path[|path| - 1]];
      assert |r| < |path| ==> path[|path| - |r| - 1] == init[|init| - |b| - 1];
      r
  }

  /** The basename of `dir/name` is `name` whenever `name` holds no `/`. */
  lemma {:induction false} BasenameOfJoin(dir: string, name: string)
    requires '/' !in name
    ensures Basename(dir + "/" + name) == name
    decreases |name|
  {
    var p := dir + "/" + name;
    if name != [] {
      var init := name[..|name| - 1];
      assert p[..|p| - 1] == dir + "/" + init;
      assert name == init + [name[|name| - 1]];
      BasenameOfJoin(dir, init);
    }
  }

  /** The local file that is uploaded: a fixed staging location around `segment`. */
  function SourcePath(segment: string): (r: string)
    ensures StartsWith(r, SNAPSHOT_STAGING) && EndsWith(r, ARCHIVE_NAME)
    ensures |r| == |SNAPSHOT_STAGING| + |segment| + |ARCHIVE_NAME|
    ensures r[|SNAPSHOT_STAGING|..|r| - |ARCHIVE_NAME|] == segment
  {
    SNAPSHOT_STAGING + segment + ARCHIVE_NAME
  }

  /** The uploaded file depends only on the basename of the backup path: its directory is
      ignored. */
  lemma SourceIgnoresDirectory(dir: string, name: string)
    requires '/' !in name
    ensures SourcePath(Basename(dir + "/" + name)) == SourcePath(name)
  {
    BasenameOfJoin(dir, name);
  }

  /** The uploaded file is the backup path itself for exactly one path: the staging
      location of a snapshot that is itself named like the archive. */
  lemma SourceIsBackupPathOnlyOnce(fullPath: string)
    ensures SourcePath(Basename(fullPath)) == fullPath <==> fullPath == SourcePath(ARCHIVE_FILE)
  {
    assert '/' !in ARCHIVE_FILE;
    if SourcePath(Basename(fullPath)) == fullPath {
      var b := Basename(fullPath);
      assert fullPath == (SNAPSHOT_STAGING + b) + "/" + ARCHIVE_FILE;
      BasenameOfJoin(SNAPSHOT_STAGING + b, ARCHIVE_FILE);
    }
    if fullPath == SourcePath(ARCHIVE_FILE) {
      assert fullPath == (SNAPSHOT_STAGING + ARCHIVE_FILE) + "/" + ARCHIVE_FILE;
      BasenameOfJoin(SNAPSHOT_STAGING + ARCHIVE_FILE, ARCHIVE_FILE);
    }
  }

  /** The remote filename: the custom prefix when one is given, else the basename of the
      backup path, followed by the archive suffix. */
  function RemoteFilename(customFilename: Option<string>, fullPath: string): (r: string)
    ensures EndsWith(r, ARCHIVE_SUFFIX)
    ensures Truthy(customFilename) ==> r[..|r| - |ARCHIVE_SUFFIX|] == customFilename.value
    ensures !Truthy(customFilename) ==> r[..|r| - |ARCHIVE_SUFFIX|] == Basename(fullPath)
  {
    var stem := if Truthy(customFilename) then customFilename.value else Basename(fullPath);
    var r := stem + ARCHIVE_SUFFIX;
    assert r[..|r| - |ARCHIVE_SUFFIX|] == stem;
    r
  }

  /** The remote directory with a trailing `/`. */
  function NormalizeRemoteDir(dir: string): (r: string)
    ensures EndsWith(r, "/")
    ensures StartsWith(r, dir) && |r| <= |dir| + 1
    ensures EndsWith(dir, "/") ==> r == dir
  {
    if EndsWith(dir, "/") then dir else dir + "/"
  }

  /** Normalising twice changes nothing more. */
  lemma NormalizeRemoteDirIdempotent(dir: string)
    ensures NormalizeRemoteDir(NormalizeRemoteDir(dir)) == NormalizeRemoteDir(dir)
  {
  }

  /** The full remote path for a normalised directory: a leading `~/` is replaced by the
      remote home directory (what `echo $HOME` printed, stripped) followed by `/`. */
  function ResolveRemotePath(dir: string, homeOutput: string, remoteFilename: string): (r: string)
    ensures EndsWith(r, remoteFilename)
    ensures StartsWith(dir, "~/") ==> r == Strip(homeOutput) + "/" + dir[2..] + remoteFilename
    ensures !StartsWith(dir, "~/") ==> r == dir + remoteFilename
  {
    if StartsWith(dir, "~/") then
      var home := Strip(homeOutput) + "/";
      var r := home + dir[2..] + remoteFilename;
      assert r == home + (dir[2..] + remoteFilename);
      assert r[|r| - |remoteFilename|..] == remoteFilename;
      r
    else
      var r := dir + remoteFilename;
      assert r[|r| - |remoteFilename|..] == remoteFilename;
      r
  }

  /** Resolving a normalised directory puts the filename in a path component of its own:
      what precedes it ends with `/`, and is the directory itself, or the remote home
      followed by the directory's part below `~/`. */
  lemma ResolvedDirectoryEndsWithSlash(d: string, homeOutput: string, remoteFilename: string)
    requires EndsWith(d, "/")
    ensures var r := ResolveRemotePath(d, homeOutput, remoteFilename);
            var prefix := r[..|r| - |remoteFilename|];
            && EndsWith(prefix, "/")
            && (StartsWith(d, "~/") ==> prefix == Strip(homeOutput) + "/" + d[2..])
            && (!StartsWith(d, "~/") ==> prefix == d)
  {
    var home := Strip(homeOutput);
    var prefix := if StartsWith(d, "~/") then home + "/" + d[2..] else d;
    SlashEndedPrefix(d, home, prefix);
    PrefixBeforeName(prefix, remoteFilename);
  }

  /** The directory part is slash-ended when the directory is. */
  lemma SlashEndedPrefix(d: string, home: string, prefix: string)
    requires EndsWith(d, "/")
    requires prefix == if StartsWith(d, "~/") then home + "/" + d[2..] else d
    ensures EndsWith(prefix, "/")
  {
    assert d[|d| - 1] == '/';
    if StartsWith(d, "~/") {
      if |d| == 2 {
        assert prefix == home + "/";
      } else {
        assert prefix[|prefix| - 1] == d[2..][|d| - 3];
      }
    }
  }

  /** What precedes a name appended to a path is that path. */
  lemma PrefixBeforeName(prefix: string, name: string)
    ensures (prefix + name)[..|prefix + name| - |name|] == prefix
  {
  }

  /** The remote home as the shell prints it, one line with its newline, strips to the path. */
  lemma StripTrailingNewline(home: string)
    requires home != [] && !IsSpace(home[0]) && !IsSpace(home[|home| - 1])
    ensures Strip(home + "\n") == home
  {
    var printed := home + "\n";
    assert printed[0] == home[0];
    assert TrimStart(printed) == printed;
    assert printed[..|printed| - 1] == home;
    assert TrimEnd(home) == home;
  }

  /** A directory under the remote home, `~/backups/`, with a home of `/home/svc`. */
  lemma ResolveRemotePathUnderHome(remoteFilename: string)
    ensures ResolveRemotePath(NormalizeRemoteDir("~/backups/"), "/home/svc\n", remoteFilename)
            == "/home/svc/backups/" + remoteFilename
  {
    var dir := NormalizeRemoteDir("~/backups/");
    assert EndsWith("~/backups/", "/");
    assert dir == "~/backups/";
    assert StartsWith(dir, "~/");
    StripTrailingNewline("/home/svc");
    assert dir[2..] == "backups/";
    assert "/home/svc" + "/" + "backups/" == "/home/svc/backups/";
  }

  /** An absolute directory without its trailing separator, `/srv/backups`. */
  lemma ResolveRemotePathAbsolute(remoteFilename: string)
    ensures ResolveRemotePath(NormalizeRemoteDir("/srv/backups"), "", remoteFilename)
            == "/srv/backups/" + remoteFilename
  {
    var dir := NormalizeRemoteDir("/srv/backups");
    assert "/srv/backups"[|"/srv/backups"| - 1] == 's';
    assert dir == "/srv/backups/";
    assert dir[..2][0] == '/';
    assert !StartsWith(dir, "~/");
  }

  // ---------------------------------------------------------------------------------
  // Session and credentials
  // ---------------------------------------------------------------------------------

  datatype Auth = KeyFile(path: string) | Password(secret: string) | DefaultKeys

  /** The keyword arguments given to `SSHClient.connect`. */
  datatype ConnectRequest = ConnectRequest(hostname: string, port: int, username: string, auth: Auth)

  datatype Upload = Upload(source: string, target: string)

  /** How the remote end answers: whether a login is accepted, what a command prints
      (`None` when running it fails) and whether a copy succeeds. */
  datatype RemoteHost = RemoteHost(
    accepts: ConnectRequest -> bool,
    exec: string -> Option<string>,
    put: Upload -> bool)

  /** The credentials offered: the key file if one is configured, else the password if one
      is configured, else the client's default keys. */
  function SelectAuth(cfg: TransferSettings): (a: Auth)
    ensures Truthy(cfg.sshKeyPath) ==> a == KeyFile(cfg.sshKeyPath.value)
    ensures !Truthy(cfg.sshKeyPath) && Truthy(cfg.password) ==> a == Password(cfg.password.value)
    ensures a.DefaultKeys? <==> !Truthy(cfg.sshKeyPath) && !Truthy(cfg.password)
  {
    if Truthy(cfg.sshKeyPath) then KeyFile(cfg.sshKeyPath.value)
    else if Truthy(cfg.password) then Password(cfg.password.value)
    else DefaultKeys
  }

  /** Host and user are both required before any connection is made. */
  predicate Ready(cfg: TransferSettings) {
    Truthy(cfg.host) && Truthy(cfg.username)
  }

  /** The connection request for a ready configuration; the port defaults to 22. */
  function ConnectRequestFor(cfg: TransferSettings): (req: ConnectRequest)
    requires Ready(cfg)
    ensures req.hostname == cfg.host.value && req.username == cfg.username.value
    ensures req.port == (if cfg.port.Some? then cfg.port.value else DEFAULT_PORT)
    ensures req.auth == SelectAuth(cfg)
  {
    ConnectRequest(cfg.host.value, cfg.port.GetOr(DEFAULT_PORT), cfg.username.value, SelectAuth(cfg))
  }

  /** The normalised remote directory; it defaults to the home shorthand. */
  function RemoteDir(cfg: TransferSettings): string {
    NormalizeRemoteDir(cfg.remoteDirectory.GetOr(DEFAULT_REMOTE_DIRECTORY))
  }

  predicate NeedsHome(cfg: TransferSettings) {
    StartsWith(RemoteDir(cfg), "~/")
  }

  /** The upload `transfer_scp` performs once it knows the remote home directory. */
  function PlannedUpload(cfg: TransferSettings, localFilePath: string, fullPath: string,
                         customFilename: Option<string>, homeOutput: string): (u: Upload)
    ensures u.source == SourcePath(localFilePath)
    ensures EndsWith(u.target, RemoteFilename(customFilename, fullPath))
    ensures u.target == ResolveRemotePath(RemoteDir(cfg), homeOutput, RemoteFilename(customFilename, fullPath))
  {
    Upload(SourcePath(localFilePath),
           ResolveRemotePath(RemoteDir(cfg), homeOutput, RemoteFilename(customFilename, fullPath)))
  }

  /** A secure-shell client session (`SSHClient` with its `SCPClient`): it records what the
      transfer asked of it, and answers as its remote end does. */
  class SshSession {
    const remote: RemoteHost
    var attempts: seq<ConnectRequest>
    var connected: bool
    var scpOpen: bool
    var commands: seq<string>
    var uploads: seq<Upload>
    var scpClosed: bool
    var sshClosed: bool

    constructor (remote: RemoteHost)
      ensures this.remote == remote
      ensures attempts == [] && commands == [] && uploads == []
      ensures !connected && !scpOpen && !scpClosed && !sshClosed
    {
      this.remote := remote;
      attempts, commands, uploads := [], [], [];
      connected, scpOpen, scpClosed, sshClosed := false, false, false, false;
    }

    method Connect(req: ConnectRequest) returns (ok: bool)
      modifies this
      ensures ok == remote.accepts(req) && connected == ok
      ensures attempts == old(attempts) + [req]
      ensures commands == old(commands) && uploads == old(uploads) && scpOpen == old(scpOpen)
      ensures scpClosed == old(scpClosed) && sshClosed == old(sshClosed)
    {
      ok := remote.accepts(req);
      connected := ok;
      attempts := attempts + [req];
    }

    method OpenScp()
      requires connected
      modifies this
      ensures scpOpen
      ensures attempts == old(attempts) && connected == old(connected)
      ensures commands == old(commands) && uploads == old(uploads)
      ensures scpClosed == old(scpClosed) && sshClosed == old(sshClosed)
    {
      scpOpen := true;
    }

    method Exec(command: string) returns (output: Option<string>)
      requires connected
      modifies this
      ensures output == remote.exec(command)
      ensures commands == old(commands) + [command]
      ensures attempts == old(attempts) && connected == old(connected) && scpOpen == old(scpOpen)
      ensures uploads == old(uploads) && scpClosed == old(scpClosed) && sshClosed == old(sshClosed)
    {
      output := remote.exec(command);
      commands := commands + [command];
    }

    method Put(u: Upload) returns (ok: bool)
      requires scpOpen
      modifies this
      ensures ok == remote.put(u)
      ensures uploads == old(uploads) + [u]
      ensures attempts == old(attempts) && connected == old(connected) && scpOpen == old(scpOpen)
      ensures commands == old(commands) && scpClosed == old(scpClosed) && sshClosed == old(sshClosed)
    {
      ok := remote.put(u);
      uploads := uploads + [u];
    }

    method CloseScp()
      modifies this
      ensures scpClosed
      ensures attempts == old(attempts) && connected == old(connected) && scpOpen == old(scpOpen)
      ensures commands == old(commands) && uploads == old(uploads) && sshClosed == old(sshClosed)
    {
      scpClosed := true;
    }

    method Close()
      modifies this
      ensures sshClosed
      ensures attempts == old(attempts) && connected == old(connected) && scpOpen == old(scpOpen)
      ensures commands == old(commands) && uploads == old(uploads) && scpClosed == old(scpClosed)
    {
      sshClosed := true;
    }
  }

  /** Whether the remote end accepts the login `transfer_scp` offers. */
  predicate Connects(cfg: TransferSettings, remote: RemoteHost)
    requires Ready(cfg)
  {
    remote.accepts(ConnectRequestFor(cfg))
  }

  /** What the remote home query yields when the directory needs it (`None`: the query
      failed); a directory that does not need it yields an unused empty home. */
  function HomeLookup(cfg: TransferSettings, remote: RemoteHost): Option<string> {
    if NeedsHome(cfg) then remote.exec(HOME_QUERY) else Some("")
  }

  /** `transfer_scp`: validate, compose names, connect, resolve the remote path, copy, and
      close the session, which happens only on the success path. `ssh` is the session it
      created, `null` when validation failed before any was created. */
  method TransferScp(cfg: TransferSettings, localFilePath: string, fullPath: string,
                     customFilename: Option<string>, remote: RemoteHost)
    returns (ok: bool, ssh: SshSession?)
    ensures !Ready(cfg) ==> !ok && ssh == null
    ensures Ready(cfg) ==> ssh != null && fresh(ssh)
    ensures ssh != null ==> Ready(cfg) && ssh.remote == remote && ssh.attempts == [ConnectRequestFor(cfg)]
    ensures ssh != null ==>
              ssh.commands == (if Connects(cfg, remote) && NeedsHome(cfg) then [HOME_QUERY] else [])
    ensures ssh != null ==>
              ssh.uploads == (if Connects(cfg, remote) && HomeLookup(cfg, remote).Some?
                              then [PlannedUpload(cfg, localFilePath, fullPath, customFilename,
                                                  HomeLookup(cfg, remote).value)]
                              else [])
    ensures ok <==> && ssh != null && Connects(cfg, remote) && HomeLookup(cfg, remote).Some?
                    && remote.put(PlannedUpload(cfg, localFilePath, fullPath, customFilename,
                                                HomeLookup(cfg, remote).value))
    ensures ssh != null ==> ssh.scpClosed == ok && ssh.sshClosed == ok
  {
    var host := cfg.host;
    var port := cfg.port.GetOr(DEFAULT_PORT);
    var username := cfg.username;
    var password := cfg.password;
    var sshKeyPath := cfg.sshKeyPath;
    var remoteDir := cfg.remoteDirectory.GetOr(DEFAULT_REMOTE_DIRECTORY);

    if !(Truthy(host) && Truthy(username)) {
      return false, null;
    }

    var fullAosPath := SourcePath(localFilePath);
    var remoteFilename := RemoteFilename(customFilename, fullPath);

    ssh := new SshSession(remote);
    var auth;
    if Truthy(sshKeyPath) {
      auth := KeyFile(sshKeyPath.value);
    } else if Truthy(password) {
      auth := Password(password.value);
    } else {
      auth := DefaultKeys;
    }
    assert ConnectRequest(host.value, port, username.value, auth) == ConnectRequestFor(cfg);
    var connected := ssh.Connect(ConnectRequest(host.value, port, username.value, auth));
    if !connected {
      return false, ssh;
    }
    ok := CopyOverSession(ssh, remoteDir, remoteFilename, fullAosPath);
  }

  /** The part of `transfer_scp` after a successful login: open the copy channel, give the
      remote directory its trailing `/`, ask for the remote home when the directory starts
      with `~/`, copy the file, and close both channels only when the copy succeeded. */
  method CopyOverSession(ssh: SshSession, remoteDir: string, remoteFilename: string, source: string)
    returns (ok: bool)
    requires ssh.connected
    modifies ssh
    ensures ssh.attempts == old(ssh.attempts) && ssh.connected && ssh.scpOpen
    ensures var dir := NormalizeRemoteDir(remoteDir);
            var home := if StartsWith(dir, "~/") then ssh.remote.exec(HOME_QUERY) else Some("");
            && ssh.commands == old(ssh.commands) + (if StartsWith(dir, "~/") then [HOME_QUERY] else [])
            && ssh.uploads == old(ssh.uploads)
                              + (if home.Some? then [Upload(source, ResolveRemotePath(dir, home.value, remoteFilename))]
                                 else [])
            && ok == (home.Some? && ssh.remote.put(Upload(source, ResolveRemotePath(dir, home.value, remoteFilename))))
    ensures ok ==> ssh.scpClosed && ssh.sshClosed
    ensures !ok ==> ssh.scpClosed == old(ssh.scpClosed) && ssh.sshClosed == old(ssh.sshClosed)
  {
    ssh.OpenScp();
    var dir := remoteDir;
    if !EndsWith(dir, "/") {
      dir := dir + "/";
    }
    var homeOutput := "";
    if StartsWith(dir, "~/") {
      var output := ssh.Exec(HOME_QUERY);
      if output.None? {
        return false;
      }
      homeOutput := output.value;
    }
    var remotePath := ResolveRemotePath(dir, homeOutput, remoteFilename);
    ok := ssh.Put(Upload(source, remotePath));
    if ok {
      ssh.CloseScp();
      ssh.Close();
    }
  }

  /** Whether the upload of `transfer_file` succeeds: the configuration is ready, the login
      is accepted, the remote home is known when needed and the copy of the planned upload
      succeeds. */
  predicate TransferSucceeds(cfg: TransferSettings, fullPath: string, blueprintId: Option<string>,
                             blueprintName: Option<string>, timestamp: string, remote: RemoteHost)
  {
    && Ready(cfg) && Connects(cfg, remote) && HomeLookup(cfg, remote).Some?
    && remote.put(PlannedUpload(cfg, Basename(fullPath), fullPath,
                                Some(CustomFilename(blueprintId, blueprintName, timestamp)),
                                HomeLookup(cfg, remote).value))
  }

  /** `transfer_file`: compose the prefix from the blueprint and the timestamp (the clock is
      a parameter) and hand the configured `transfer` section to the SCP transfer, the only
      method the code dispatches to. */
  method TransferFile(config: AppConfig, fullPath: string, blueprintId: Option<string>,
                      blueprintName: Option<string>, timestamp: string, remote: RemoteHost)
    returns (ok: bool, ssh: SshSession?)
    ensures ok == TransferSucceeds(TransferOf(config), fullPath, blueprintId, blueprintName, timestamp, remote)
    ensures var cfg := TransferOf(config);
            && (!Ready(cfg) ==> !ok && ssh == null)
            && (Ready(cfg) ==> ssh != null && fresh(ssh) && ssh.attempts == [ConnectRequestFor(cfg)])
    ensures ok ==> && ssh != null && HomeLookup(TransferOf(config), remote).Some?
                   && ssh.uploads == [PlannedUpload(TransferOf(config), Basename(fullPath), fullPath,
                                                    Some(CustomFilename(blueprintId, blueprintName, timestamp)),
                                                    HomeLookup(TransferOf(config), remote).value)]
  {
    var customFilename := CustomFilename(blueprintId, blueprintName, timestamp);
    var localFilePath := Basename(fullPath);
    var cfg := TransferOf(config);
    ok, ssh := TransferScp(cfg, localFilePath, fullPath, Some(customFilename), remote);
  }
}
