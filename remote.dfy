/**
 * Remote operations: the per-server context, the paths of appgarden's files under the app root,
 * and the command and file helpers over a connected host.
 *
 * The host is a `Host` object: its files, its app directories and the log of what was done to it
 * change; which commands fail, what they print and which paths cannot be written are fixed when
 * the host is created (the failure oracle). SSH, pyinfra, rsync and JSON are not modelled.
 */
module Remote {
  import opened Wrappers
  import opened Strings
  import opened Dict
  import opened State
  import Config

  const DefaultAppRoot := "/srv/appgarden"
  const RootUser := "root"

  /** Per-server settings for remote operations. */
  datatype RemoteContext = RemoteContext(appRoot: string, needsSudo: bool)

  /** `make_remote_context`: the configured app root (or the default one), and sudo unless logging in as root. */
  function MakeRemoteContext(server: Config.ServerConfig): (r: RemoteContext)
    ensures Config.Given(server.appRoot) ==> r.appRoot == server.appRoot.value
    ensures !Config.Given(server.appRoot) ==> r.appRoot == DefaultAppRoot
    ensures r.needsSudo <==> server.sshUser != RootUser
  {
    RemoteContext(
      if Config.Given(server.appRoot) then server.appRoot.value else DefaultAppRoot,
      server.sshUser != RootUser)
  }

  // ---------------------------------------------------------------------------------------
  // Paths
  // ---------------------------------------------------------------------------------------

  const GardenFileName := "/garden.json"
  const PortsFileName := "/ports.json"
  const CaddyAppsName := "/caddy/apps"
  const CaddyTunnelsName := "/caddy/tunnels"
  const AppsName := "/apps/"
  const SourceName := "/source"
  const TunnelsFileName := "/tunnels/active.json"

  /** `ctx.app_root if ctx else DEFAULT_APP_ROOT` (a RemoteContext object is always truthy). */
  function Root(ctx: Option<RemoteContext>): string {
    if ctx.Some? then ctx.value.appRoot else DefaultAppRoot
  }

  function GardenStatePath(ctx: Option<RemoteContext>): string { Root(ctx) + GardenFileName }
  function PortsPath(ctx: Option<RemoteContext>): string { Root(ctx) + PortsFileName }
  function CaddyAppsDir(ctx: Option<RemoteContext>): string { Root(ctx) + CaddyAppsName }
  function CaddyTunnelsDir(ctx: Option<RemoteContext>): string { Root(ctx) + CaddyTunnelsName }
  function AppDir(ctx: Option<RemoteContext>, name: string): string { Root(ctx) + AppsName + name }
  function SourceDir(ctx: Option<RemoteContext>, name: string): string { AppDir(ctx, name) + SourceName }
  function TunnelsStatePath(ctx: Option<RemoteContext>): string { Root(ctx) + TunnelsFileName }

  /** The module-level constants GARDEN_STATE_PATH and PORTS_PATH. */
  const GardenStatePathDefault := DefaultAppRoot + GardenFileName
  const PortsPathDefault := DefaultAppRoot + PortsFileName

  /** The three JSON documents of a server live in three different files, whatever the app root. */
  lemma StatePathsDistinct(ctx: Option<RemoteContext>, ctx': Option<RemoteContext>)
    ensures GardenStatePath(ctx) != PortsPath(ctx')
    ensures GardenStatePath(ctx) != TunnelsStatePath(ctx')
    ensures PortsPath(ctx) != TunnelsStatePath(ctx')
  {
    CommonEnding(Root(ctx), GardenFileName, Root(ctx'), PortsFileName);
    CommonEnding(Root(ctx), GardenFileName, Root(ctx'), TunnelsFileName);
    CommonEnding(Root(ctx), PortsFileName, Root(ctx'), TunnelsFileName);
  }

  /** Different apps have different app directories (and so different source directories). */
  lemma AppDirInjective(ctx: Option<RemoteContext>, a: string, b: string)
    ensures AppDir(ctx, a) == AppDir(ctx, b) ==> a == b
    ensures SourceDir(ctx, a) == SourceDir(ctx, b) ==> a == b
  {
    var prefix := Root(ctx) + AppsName;
    if AppDir(ctx, a) == AppDir(ctx, b) {
      assert a == (prefix + a)[|prefix|..];
      assert b == (prefix + b)[|prefix|..];
    }
    if SourceDir(ctx, a) == SourceDir(ctx, b) {
      assert AppDir(ctx, a) == SourceDir(ctx, a)[..|SourceDir(ctx, a)| - |SourceName|];
      assert AppDir(ctx, b) == SourceDir(ctx, b)[..|SourceDir(ctx, b)| - |SourceName|];
      assert a == (prefix + a)[|prefix|..];
      assert b == (prefix + b)[|prefix|..];
    }
  }

  // ---------------------------------------------------------------------------------------
  // Sudo
  // ---------------------------------------------------------------------------------------

  const SudoFlag := "_sudo"

  /** `_sudo_kwargs`: `{"_sudo": True}` exactly when a context asks for sudo, `{}` otherwise. */
  function SudoKwargs(ctx: Option<RemoteContext>): (r: Dict<string, bool>)
    ensures HasKey(r, SudoFlag) <==> ctx.Some? && ctx.value.needsSudo
    ensures HasKey(r, SudoFlag) ==> r == [(SudoFlag, true)]
    ensures !HasKey(r, SudoFlag) ==> r == []
  {
    if ctx.Some? && ctx.value.needsSudo then
      SingletonDistinct(SudoFlag, true);
      [(SudoFlag, true)]
    else []
  }

  /** Whether pyinfra runs a command given these keyword arguments under sudo. */
  function Sudo(kwargs: Dict<string, bool>): bool {
    Get(kwargs, SudoFlag) == Some(true)
  }

  // ---------------------------------------------------------------------------------------
  // Commands and the host
  // ---------------------------------------------------------------------------------------

  /** The shell commands appgarden runs on a server. */
  datatype Cmd =
    | Systemctl(action: string, unit: string)       // systemctl <action> <unit>
    | DaemonReload                                  // systemctl daemon-reload
    | RemoveFile(path: string)                      // rm -f <path>
    | RemoveTree(path: string)                      // rm -rf <path>
    | PruneExceptData(dir: string)                  // find <dir> -mindepth 1 -maxdepth 1 ! -name data -exec rm -rf {} +
    | MakeDirs(path: string)                        // mkdir -p <path>
    | GitClone(branch: Option<string>, source: string, dest: string)
    | GitPull(dir: string, branch: Option<string>)
    | DockerBuild(image: string, dir: string)
    | TestFile(path: string)                        // test -f <path>
    | PortProbe(port: int)                          // ss -tln | grep -q ':<port> ' && echo active || echo inactive
    | Journal(unit: string, lines: int)             // journalctl -u <unit> --no-pager -n <lines>

  /** The command line of a command, as the error message quotes it. */
  function CmdText(c: Cmd): string {
    match c
    case Systemctl(action, unit) => "systemctl " + action + " " + unit
    case DaemonReload => "systemctl daemon-reload"
    case RemoveFile(path) => "rm -f " + path
    case RemoveTree(path) => "rm -rf " + path
    case PruneExceptData(dir) => "find " + dir + " -mindepth 1 -maxdepth 1 ! -name data -exec rm -rf {} +"
    case MakeDirs(path) => "mkdir -p " + path
    case GitClone(branch, source, dest) =>
      "rm -rf " + dest + " && git clone " + (if branch.Some? && branch.value != [] then "-b " + branch.value else "")
      + " " + source + " " + dest
    case GitPull(dir, branch) =>
      "cd " + dir + " && git pull" + (if branch.Some? then " origin " + branch.value else "")
    case DockerBuild(image, dir) => "docker build -t " + image + " " + dir
    case TestFile(path) => "test -f " + path
    case PortProbe(port) => "ss -tln | grep -q ':" + IntToString(port) + " ' && echo active || echo inactive"
    case Journal(unit, lines) => "journalctl -u " + unit + " --no-pager -n " + IntToString(lines)
  }

  /** What was done to a host, in order. */
  datatype Action =
    | Ran(cmd: Cmd, sudo: bool)
    | Wrote(path: string)
    | Uploaded(local: string, remote: string)

  const DataDir := "data"

  /** Whether `p` is the path `dir` or lies anywhere below it. */
  predicate Within(p: string, dir: string) {
    p == dir || dir + "/" <= p
  }

  /** Whether the prune of `dir` deletes `p`: anything below `dir` except the entry `data` and what it holds. */
  predicate Pruned(p: string, dir: string) {
    dir + "/" <= p && !Within(p, dir + "/" + DataDir)
  }

  /** The files left when every path for which `gone` holds is deleted. */
  function Without(files: map<string, File>, gone: string -> bool): (r: map<string, File>)
    ensures forall p :: p in r <==> p in files && !gone(p)
    ensures forall p | p in r :: r[p] == files[p]
  {
    map p | p in files && !gone(p) :: files[p]
  }

  /**
   * The files left after a command succeeds: `rm -f` deletes one file; `rm -rf` and the
   * `rm -rf` before a clone delete the directory and everything below it; the prune deletes
   * everything below the directory except `data`. What a clone creates is not tracked.
   */
  function FilesAfter(files: map<string, File>, c: Cmd): (r: map<string, File>)
    ensures forall p | p in r :: p in files && r[p] == files[p]
    ensures c.RemoveFile? ==> forall p | p in files :: p in r <==> p != c.path
    ensures c.RemoveTree? ==> forall p | p in files :: p in r <==> !Within(p, c.path)
    ensures c.GitClone? ==> forall p | p in files :: p in r <==> !Within(p, c.dest)
    ensures c.PruneExceptData? ==> forall p | p in files :: p in r <==> !Pruned(p, c.dir)
    ensures !(c.RemoveFile? || c.RemoveTree? || c.GitClone? || c.PruneExceptData?) ==> r == files
  {
    match c
    case RemoveFile(path) => files - {path}
    case RemoveTree(path) => Without(files, p => Within(p, path))
    case GitClone(_, _, dest) => Without(files, p => Within(p, dest))
    case PruneExceptData(dir) => Without(files, p => Pruned(p, dir))
    case _ => files
  }

  /** The app directories (with their top-level entries) left after a command succeeds. */
  function DirsAfter(dirs: map<string, set<string>>, c: Cmd): map<string, set<string>> {
    match c
    case RemoveTree(path) => dirs - {path}
    case PruneExceptData(dir) => if dir in dirs then dirs[dir := dirs[dir] * {DataDir}] else dirs
    case _ => dirs
  }

  /** A connected server. */
  class Host {
    var files: map<string, File>
    var dirs: map<string, set<string>>
    var log: seq<Action>
    const failing: set<Cmd>
    const stdout: map<Cmd, string>
    const stderr: map<Cmd, string>
    const unwritable: set<string>
    const uploadFailing: set<string>

    constructor (files: map<string, File>, dirs: map<string, set<string>>, failing: set<Cmd>,
                 stdout: map<Cmd, string>, stderr: map<Cmd, string>, unwritable: set<string>,
                 uploadFailing: set<string>)
      ensures this.files == files && this.dirs == dirs && this.log == []
      ensures this.failing == failing && this.stdout == stdout && this.stderr == stderr
      ensures this.unwritable == unwritable && this.uploadFailing == uploadFailing
    {
      this.files := files;
      this.dirs := dirs;
      this.log := [];
      this.failing := failing;
      this.stdout := stdout;
      this.stderr := stderr;
      this.unwritable := unwritable;
      this.uploadFailing := uploadFailing;
    }

    function Out(c: Cmd): string {
      if c in stdout then stdout[c] else ""
    }

    function Err(c: Cmd): string {
      if c in stderr then stderr[c] else ""
    }

    /** pyinfra's `run_shell_command`: whether the command succeeded, with its output. */
    method RunShell(c: Cmd, sudo: bool) returns (ok: bool, out: string, err: string)
      modifies this
      ensures ok <==> c !in failing
      ensures out == Out(c) && err == Err(c)
      ensures log == old(log) + [Ran(c, sudo)]
      ensures files == (if ok then FilesAfter(old(files), c) else old(files))
      ensures dirs == (if ok then DirsAfter(old(dirs), c) else old(dirs))
    {
      ok := c !in failing;
      out := Out(c);
      err := Err(c);
      log := log + [Ran(c, sudo)];
      if ok {
        files := FilesAfter(files, c);
        dirs := DirsAfter(dirs, c);
      }
    }

    /** pyinfra's `get_file`: the file, or nothing when it cannot be fetched. */
    method GetFile(path: string) returns (r: Option<File>)
      ensures r == if path in files then Some(files[path]) else None
    {
      r := if path in files then Some(files[path]) else None;
    }

    /** pyinfra's `put_file`: whether the file was written. */
    method PutFile(path: string, f: File) returns (ok: bool)
      modifies this
      ensures ok <==> path !in unwritable
      ensures files == (if ok then old(files)[path := f] else old(files))
      ensures dirs == old(dirs) && log == old(log) + [Wrote(path)]
    {
      ok := path !in unwritable;
      log := log + [Wrote(path)];
      if ok {
        files := files[path := f];
      }
    }

    /** The local `rsync` of a directory to `remote`: whether it exited successfully. */
    method Rsync(local: string, remote: string) returns (ok: bool)
      modifies this
      ensures ok <==> remote !in uploadFailing
      ensures files == old(files) && dirs == old(dirs) && log == old(log) + [Uploaded(local, remote)]
    {
      ok := remote !in uploadFailing;
      log := log + [Uploaded(local, remote)];
    }
  }

  // ---------------------------------------------------------------------------------------
  // Command and file helpers
  // ---------------------------------------------------------------------------------------

  const CommandFailedPrefix := "Remote command failed: "
  const ReadFailedPrefix := "Failed to read remote file: "
  const WriteFailedPrefix := "Failed to write remote file: "

  function CommandFailed(c: Cmd, stderr: string): Error {
    RuntimeError(CommandFailedPrefix + CmdText(c) + "\n" + stderr)
  }

  function ReadFailed(path: string): Error {
    RuntimeError(ReadFailedPrefix + path)
  }

  function WriteFailed(path: string): Error {
    RuntimeError(WriteFailedPrefix + path)
  }

  /** What running `c` returns on `host`: its output, or the error naming the command and its stderr. */
  function CommandResult(host: Host, c: Cmd): Result<string> {
    if c in host.failing then Err(CommandFailed(c, host.Err(c))) else Ok(host.Out(c))
  }

  /** `run_remote_command` and `run_sudo_command`: run `c`, raise RuntimeError when it fails. */
  method Run(host: Host, c: Cmd, sudo: bool) returns (r: Result<string>)
    modifies host
    ensures r == CommandResult(host, c)
    ensures r.Ok? <==> c !in host.failing
    ensures host.log == old(host.log) + [Ran(c, sudo)]
    ensures host.files == (if r.Ok? then FilesAfter(old(host.files), c) else old(host.files))
    ensures host.dirs == (if r.Ok? then DirsAfter(old(host.dirs), c) else old(host.dirs))
  {
    var ok, out, err := host.RunShell(c, sudo);
    if !ok {
      return Err(CommandFailed(c, err));
    }
    return Ok(out);
  }

  /** `run_remote_command`: no sudo. */
  method RunRemoteCommand(host: Host, c: Cmd) returns (r: Result<string>)
    modifies host
    ensures r == CommandResult(host, c)
    ensures host.log == old(host.log) + [Ran(c, false)]
    ensures host.files == (if r.Ok? then FilesAfter(old(host.files), c) else old(host.files))
    ensures host.dirs == (if r.Ok? then DirsAfter(old(host.dirs), c) else old(host.dirs))
  {
    r := Run(host, c, false);
  }

  /** Whether `run_sudo_command` runs under sudo for this context. */
  function NeedsSudo(ctx: Option<RemoteContext>): bool {
    ctx.Some? && ctx.value.needsSudo
  }

  /** `run_sudo_command`: sudo exactly when `_sudo_kwargs(ctx)` asks for it. */
  method RunSudoCommand(host: Host, c: Cmd, ctx: Option<RemoteContext>) returns (r: Result<string>)
    modifies host
    ensures r == CommandResult(host, c)
    ensures host.log == old(host.log) + [Ran(c, NeedsSudo(ctx))]
    ensures host.files == (if r.Ok? then FilesAfter(old(host.files), c) else old(host.files))
    ensures host.dirs == (if r.Ok? then DirsAfter(old(host.dirs), c) else old(host.dirs))
  {
    var kw := SudoKwargs(ctx);
    r := Run(host, c, Sudo(kw));
  }

  /** `read_remote_file`: the file, or RuntimeError when it cannot be fetched. */
  method ReadRemoteFile(host: Host, path: string) returns (r: Result<File>)
    ensures path in host.files ==> r == Ok(host.files[path])
    ensures path !in host.files ==> r == Err(ReadFailed(path))
  {
    var f := host.GetFile(path);
    if f.None? {
      return Err(ReadFailed(path));
    }
    return Ok(f.value);
  }

  /** `write_remote_file`: store the file, or RuntimeError when it cannot be written. */
  method WriteRemoteFile(host: Host, path: string, f: File) returns (r: Result<()>)
    modifies host
    ensures r.Ok? <==> path !in host.unwritable
    ensures r.Err? ==> r.error == WriteFailed(path)
    ensures host.files == (if r.Ok? then old(host.files)[path := f] else old(host.files))
    ensures host.dirs == old(host.dirs) && host.log == old(host.log) + [Wrote(path)]
  {
    var ok := host.PutFile(path, f);
    if !ok {
      return Err(WriteFailed(path));
    }
    return Ok(());
  }

  /** The garden document at `path`: RuntimeError when it cannot be read, JSONDecodeError when it is not one. */
  function GardenAt(files: map<string, File>, path: string): (r: Result<Garden>)
    ensures r.Ok? <==> path in files && files[path].GardenFile?
    ensures r.Ok? ==> files[path] == GardenFile(r.value)
    ensures path !in files ==> r == Err(ReadFailed(path))
  {
    if path !in files then Err(ReadFailed(path))
    else if files[path].GardenFile? then Ok(files[path].garden)
    else Err(JsonDecodeError(path))
  }

  /** The ports document at `path`, with the same failure modes as `GardenAt`. */
  function PortsAt(files: map<string, File>, path: string): (r: Result<PortsState>)
    ensures r.Ok? <==> path in files && files[path].PortsFile?
    ensures r.Ok? ==> files[path] == PortsFile(r.value)
    ensures path !in files ==> r == Err(ReadFailed(path))
  {
    if path !in files then Err(ReadFailed(path))
    else if files[path].PortsFile? then Ok(files[path].ports)
    else Err(JsonDecodeError(path))
  }

  /** Two file maps that agree at `path` read the same documents there. */
  lemma SameDocumentsAt(a: map<string, File>, b: map<string, File>, path: string)
    requires (path in a <==> path in b) && (path in a ==> a[path] == b[path])
    ensures PortsAt(a, path) == PortsAt(b, path) && GardenAt(a, path) == GardenAt(b, path)
  {
  }

  /** The tunnels document at `path`, with the same failure modes as `GardenAt`. */
  function TunnelsAt(files: map<string, File>, path: string): (r: Result<TunnelsState>)
    ensures r.Ok? <==> path in files && files[path].TunnelsFile?
    ensures r.Ok? ==> files[path] == TunnelsFile(r.value)
    ensures path !in files ==> r == Err(ReadFailed(path))
  {
    if path !in files then Err(ReadFailed(path))
    else if files[path].TunnelsFile? then Ok(files[path].tunnels)
    else Err(JsonDecodeError(path))
  }

  /** `read_garden_state`. */
  method ReadGardenState(host: Host, ctx: Option<RemoteContext>) returns (r: Result<Garden>)
    ensures r == GardenAt(host.files, GardenStatePath(ctx))
  {
    var f := ReadRemoteFile(host, GardenStatePath(ctx));
    if f.Err? {
      return Err(f.error);
    }
    if !f.value.GardenFile? {
      return Err(JsonDecodeError(GardenStatePath(ctx)));
    }
    return Ok(f.value.garden);
  }

  /** `write_garden_state`. */
  method WriteGardenState(host: Host, g: Garden, ctx: Option<RemoteContext>) returns (r: Result<()>)
    modifies host
    ensures r.Ok? <==> GardenStatePath(ctx) !in host.unwritable
    ensures r.Err? ==> r.error == WriteFailed(GardenStatePath(ctx))
    ensures host.files == (if r.Ok? then old(host.files)[GardenStatePath(ctx) := GardenFile(g)] else old(host.files))
    ensures host.dirs == old(host.dirs) && host.log == old(host.log) + [Wrote(GardenStatePath(ctx))]
  {
    r := WriteRemoteFile(host, GardenStatePath(ctx), GardenFile(g));
  }

  /** `read_ports_state`. */
  method ReadPortsState(host: Host, ctx: Option<RemoteContext>) returns (r: Result<PortsState>)
    ensures r == PortsAt(host.files, PortsPath(ctx))
  {
    var f := ReadRemoteFile(host, PortsPath(ctx));
    if f.Err? {
      return Err(f.error);
    }
    if !f.value.PortsFile? {
      return Err(JsonDecodeError(PortsPath(ctx)));
    }
    return Ok(f.value.ports);
  }

  /** `write_ports_state`. */
  method WritePortsState(host: Host, p: PortsState, ctx: Option<RemoteContext>) returns (r: Result<()>)
    modifies host
    ensures r.Ok? <==> PortsPath(ctx) !in host.unwritable
    ensures r.Err? ==> r.error == WriteFailed(PortsPath(ctx))
    ensures host.files == (if r.Ok? then old(host.files)[PortsPath(ctx) := PortsFile(p)] else old(host.files))
    ensures host.dirs == old(host.dirs) && host.log == old(host.log) + [Wrote(PortsPath(ctx))]
  {
    r := WriteRemoteFile(host, PortsPath(ctx), PortsFile(p));
  }

  /** Writing a garden document and reading it back gives the same document. */
  lemma GardenWriteRead(files: map<string, File>, g: Garden, ctx: Option<RemoteContext>)
    ensures GardenAt(files[GardenStatePath(ctx) := GardenFile(g)], GardenStatePath(ctx)) == Ok(g)
  {
  }

  /** Writing a ports document and reading it back gives the same document; the garden document is untouched. */
  lemma PortsWriteRead(files: map<string, File>, p: PortsState, ctx: Option<RemoteContext>, ctx': Option<RemoteContext>)
    ensures PortsAt(files[PortsPath(ctx) := PortsFile(p)], PortsPath(ctx)) == Ok(p)
    ensures GardenAt(files[PortsPath(ctx) := PortsFile(p)], GardenStatePath(ctx')) == GardenAt(files, GardenStatePath(ctx'))
  {
    StatePathsDistinct(ctx', ctx);
  }

  const UploadFailedPrefix := "rsync to "

  /** The rsync source: the local directory with a trailing `/`, so that its contents are copied. */
  function WithTrailingSlash(local: string): (r: string)
    ensures EndsWith(r, "/") && StartsWith(r, local)
    ensures EndsWith(local, "/") ==> r == local
  {
    if EndsWith(local, "/") then local else local + "/"
  }

  /**
   * `upload_directory`: resolve the server's address, which raises as `resolve_host` does, then
   * rsync the local directory (with a trailing `/`) to `<remote>/`; CalledProcessError on failure.
   * The outcome of the Hetzner CLI lookup, when one is made, is a parameter.
   */
  method UploadDirectory(host: Host, server: Config.ServerConfig, hcloud: Config.HcloudOutcome, local: string,
                         remote: string)
    returns (r: Result<()>)
    modifies host
    ensures var addr := Config.ResolveHost(server, hcloud);
      && (addr.Err? ==> r == Err(addr.error) && host.log == old(host.log))
      && (addr.Ok? ==>
            && (r.Ok? <==> remote !in host.uploadFailing)
            && (r.Err? ==> r.error == CalledProcessError(UploadFailedPrefix + remote))
            && host.log == old(host.log) + [Uploaded(WithTrailingSlash(local), remote)])
    ensures host.files == old(host.files) && host.dirs == old(host.dirs)
  {
    var _ :- Config.ResolveHost(server, hcloud);
    var src := WithTrailingSlash(local);
    var ok := host.Rsync(src, remote);
    if !ok {
      return Err(CalledProcessError(UploadFailedPrefix + remote));
    }
    return Ok(());
  }

  // ---------------------------------------------------------------------------------------
  // Where the files lie
  // ---------------------------------------------------------------------------------------

  /** A path whose part after `root` starts differently from a directory's is not inside that directory. */
  lemma OutsideByRoot(root: string, tail: string, dirTail: string)
    requires 1 < |tail| && 1 < |dirTail| && tail[1] != dirTail[1]
    ensures !Within(root + tail, root + dirTail)
  {
    var p, d := root + tail, root + dirTail;
    assert p[|root| + 1] == tail[1];
    assert d[|root| + 1] == dirTail[1];
    assert (d + "/")[|root| + 1] == dirTail[1];
  }

  /** Whatever the app name, the state files and the Caddy files of a root lie outside its app directories. */
  lemma SharedFilesOutsideAppDir(ctx: Option<RemoteContext>, name: string, file: string)
    ensures !Within(GardenStatePath(ctx), AppDir(ctx, name))
    ensures !Within(PortsPath(ctx), AppDir(ctx, name))
    ensures !Within(TunnelsStatePath(ctx), AppDir(ctx, name))
    ensures !Within(CaddyAppsDir(ctx) + "/" + file, AppDir(ctx, name))
  {
    var root := Root(ctx);
    assert AppDir(ctx, name) == root + (AppsName + name);
    assert GardenStatePath(ctx) == root + GardenFileName;
    OutsideByRoot(root, GardenFileName, AppsName + name);
    OutsideByRoot(root, PortsFileName, AppsName + name);
    OutsideByRoot(root, TunnelsFileName, AppsName + name);
    assert CaddyAppsDir(ctx) + "/" + file == root + (CaddyAppsName + "/" + file);
    OutsideByRoot(root, CaddyAppsName + "/" + file, AppsName + name);
  }

  /** The source directory lies inside the app directory. */
  lemma SourceWithinAppDir(ctx: Option<RemoteContext>, name: string, p: string)
    ensures Within(p, SourceDir(ctx, name)) ==> Within(p, AppDir(ctx, name))
  {
    var a := AppDir(ctx, name);
    if Within(p, SourceDir(ctx, name)) {
      assert (a + SourceName)[..|a| + 1] == a + "/";
      if p != a + SourceName {
        assert (a + SourceName + "/")[..|a| + 1] == a + "/";
      }
    }
  }
}
