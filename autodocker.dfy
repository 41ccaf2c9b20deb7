/**
 * Automatic Docker deployment: detect a project's runtime from the indicator files in its
 * source, generate a Dockerfile for it, and deploy the app as a Docker Compose service.
 */
module AutoDocker {
  import opened Wrappers
  import opened Strings
  import opened Dict
  import opened State
  import opened Remote
  import Config
  import Routing
  import Ports
  import Deploy
  import Apps

  // ---------------------------------------------------------------------------------------
  // Runtimes
  // ---------------------------------------------------------------------------------------

  /** A project runtime: its base image, its default setup command and the files copied before setup. */
  datatype Runtime = Runtime(name: string, baseImage: string, setupCmd: string, copyFirst: Option<string>)

  const NodeIndicator := "package.json"
  const PipIndicator := "requirements.txt"
  const PyprojectIndicator := "pyproject.toml"
  const RubyIndicator := "Gemfile"
  const GoIndicator := "go.mod"
  const RustIndicator := "Cargo.toml"

  const NodeRuntime := Runtime("nodejs", "node:22", "npm install", Some("package*.json"))
  const PipRuntime := Runtime("python-pip", "python:3.12", "pip install -r requirements.txt", Some("requirements.txt"))
  const PyprojectRuntime := Runtime("python", "python:3.12", "pip install .", Some("pyproject.toml"))
  const RubyRuntime := Runtime("ruby", "ruby:3.3", "bundle install", Some("Gemfile*"))
  const GoRuntime := Runtime("go", "golang:1.23", "go build -o /app/server .", Some("go.*"))
  const RustRuntime := Runtime("rust", "rust:1.83", "cargo build --release", Some("Cargo.*"))

  /** `RUNTIMES`: indicator files with their runtimes, in the order they are tried. */
  const Runtimes: seq<(string, Runtime)> := [
    (NodeIndicator, NodeRuntime),
    (PipIndicator, PipRuntime),
    (PyprojectIndicator, PyprojectRuntime),
    (RubyIndicator, RubyRuntime),
    (GoIndicator, GoRuntime),
    (RustIndicator, RustRuntime)
  ]

  /** The index of the first entry of `rs` whose indicator is present, or `|rs|` when there is none. */
  function FirstPresent(rs: seq<(string, Runtime)>, present: set<string>): (k: nat)
    ensures k <= |rs|
    ensures k < |rs| ==> rs[k].0 in present
    ensures forall j :: 0 <= j < k ==> rs[j].0 !in present
  {
    if rs == [] then 0
    else if rs[0].0 in present then 0
    else 1 + FirstPresent(rs[1..], present)
  }

  /**
   * `detect_runtime`: the runtime of the first indicator, in `RUNTIMES` order, among the files
   * `present` in the source directory; `None` when no indicator is present.
   */
  function DetectRuntime(present: set<string>): (r: Option<Runtime>)
    ensures r.None? <==> forall i :: 0 <= i < |Runtimes| ==> Runtimes[i].0 !in present
    ensures r.Some? ==> exists i :: 0 <= i < |Runtimes| && Runtimes[i].0 in present && r.value == Runtimes[i].1
  {
    var k := FirstPresent(Runtimes, present);
    if k < |Runtimes| then Some(Runtimes[k].1) else None
  }

  /** No two runtimes share an indicator file. */
  lemma IndicatorsDistinct(i: int, j: int)
    requires 0 <= i < j < |Runtimes|
    ensures Runtimes[i].0 != Runtimes[j].0
  {
    assert Runtimes[0].0[0] == 'p' && Runtimes[1].0[0] == 'r' && Runtimes[2].0[0] == 'p';
    assert Runtimes[3].0[0] == 'G' && Runtimes[4].0[0] == 'g' && Runtimes[5].0[0] == 'C';
    assert Runtimes[0].0[1] == 'a' && Runtimes[2].0[1] == 'y';
  }

  /** Detection finds the runtime of an indicator that is present alone. */
  lemma DetectsEachRuntime(i: int)
    requires 0 <= i < |Runtimes|
    ensures DetectRuntime({Runtimes[i].0}) == Some(Runtimes[i].1)
  {
    var k := FirstPresent(Runtimes, {Runtimes[i].0});
    if k < i {
      IndicatorsDistinct(k, i);
    }
  }

  /** An earlier indicator wins: with `package.json` present the runtime is Node.js whatever else is there. */
  lemma NodeTakesPriority(present: set<string>)
    requires NodeIndicator in present
    ensures DetectRuntime(present) == Some(NodeRuntime)
  {
  }

  /** More generally, detection never picks a runtime listed after a present indicator. */
  lemma EarliestIndicatorWins(present: set<string>, i: int)
    requires 0 <= i < |Runtimes| && Runtimes[i].0 in present
    ensures FirstPresent(Runtimes, present) <= i
    ensures DetectRuntime(present) == Some(Runtimes[FirstPresent(Runtimes, present)].1)
  {
  }

  /** `infer_setup_command`: the runtime's default setup command. */
  function InferSetupCommand(rt: Runtime): string {
    rt.setupCmd
  }

  /** `generate_dockerfile`: a setup command that is given and non-empty replaces the runtime's default. */
  function GenerateDockerfile(rt: Runtime, containerPort: int, cmd: string, setupCmd: Option<string>): Dockerfile {
    Dockerfile(rt.baseImage, rt.copyFirst, Config.IfGiven(setupCmd).GetOr(InferSetupCommand(rt)), containerPort, cmd)
  }

  /** The generated Dockerfile builds on the runtime's image, exposes the port and runs `cmd`. */
  lemma DockerfileFollowsRuntime(rt: Runtime, containerPort: int, cmd: string, setupCmd: Option<string>)
    ensures var d := GenerateDockerfile(rt, containerPort, cmd, setupCmd);
      && d.baseImage == rt.baseImage && d.copyFirst == rt.copyFirst
      && d.containerPort == containerPort && d.cmd == cmd
      && (setupCmd.Some? && setupCmd.value != [] ==> d.setupCmd == setupCmd.value)
      && (setupCmd.None? || setupCmd.value == [] ==> d.setupCmd == rt.setupCmd)
  {
  }

  // ---------------------------------------------------------------------------------------
  // Remote detection
  // ---------------------------------------------------------------------------------------

  /** The indicators of `rs` that `test -f` finds in the source directory `sp` on `host`. */
  function PresentOn(failing: set<Cmd>, sp: string, rs: seq<(string, Runtime)>): set<string> {
    set p | p in rs && TestFile(sp + "/" + p.0) !in failing :: p.0
  }

  lemma PresentOnMember(failing: set<Cmd>, sp: string, rs: seq<(string, Runtime)>, i: int)
    requires 0 <= i < |rs|
    ensures rs[i].0 in PresentOn(failing, sp, rs) <==> TestFile(sp + "/" + rs[i].0) !in failing
  {
    if TestFile(sp + "/" + rs[i].0) !in failing {
      assert rs[i] in rs;
    }
  }

  /** The indicator files of `RUNTIMES` present in `sp` on `host`. */
  function RemotePresent(host: Host, sp: string): set<string> {
    PresentOn(host.failing, sp, Runtimes)
  }

  /** The `test -f` probes of the indicators of `rs`, in order. */
  function Probes(sp: string, rs: seq<(string, Runtime)>): seq<Action> {
    if rs == [] then []
    else Probes(sp, rs[..|rs| - 1]) + [Ran(TestFile(sp + "/" + rs[|rs| - 1].0), false)]
  }

  /** How many of `rs` a scan probes: up to and including the first hit. */
  function ProbeCount(rs: seq<(string, Runtime)>, present: set<string>): nat {
    var k := FirstPresent(rs, present);
    if k < |rs| then k + 1 else k
  }

  /** The index of the first indicator of `rs` whose `test -f` in `sp` succeeds, or `|rs|`. */
  function FirstFound(failing: set<Cmd>, sp: string, rs: seq<(string, Runtime)>): (k: nat)
    ensures k <= |rs|
  {
    if rs == [] then 0
    else if TestFile(sp + "/" + rs[0].0) !in failing then 0
    else 1 + FirstFound(failing, sp, rs[1..])
  }

  /** Probing finds the first indicator that is present. */
  lemma {:induction false} FoundIsPresent(failing: set<Cmd>, sp: string, rs: seq<(string, Runtime)>, present: set<string>)
    requires forall i :: 0 <= i < |rs| ==> (rs[i].0 in present <==> TestFile(sp + "/" + rs[i].0) !in failing)
    ensures FirstFound(failing, sp, rs) == FirstPresent(rs, present)
  {
    if rs != [] {
      assert rs[0].0 in present <==> TestFile(sp + "/" + rs[0].0) !in failing;
      forall i | 0 <= i < |rs[1..]|
        ensures rs[1..][i].0 in present <==> TestFile(sp + "/" + rs[1..][i].0) !in failing
      {
        assert rs[1..][i] == rs[i + 1];
      }
      FoundIsPresent(failing, sp, rs[1..], present);
    }
  }

  lemma ProbesSnoc(sp: string, rs: seq<(string, Runtime)>, k: int)
    requires 0 <= k < |rs|
    ensures Probes(sp, rs[..k + 1]) == Probes(sp, rs[..k]) + [Ran(TestFile(sp + "/" + rs[k].0), false)]
  {
    assert rs[..k + 1][..k] == rs[..k];
  }

  /** The probe loop: `test -f` each indicator of `rs` in order; the index of the first that exists. */
  method ScanIndicators(host: Host, sp: string, rs: seq<(string, Runtime)>) returns (k: nat)
    modifies host
    ensures k == FirstFound(host.failing, sp, rs)
    ensures host.log == old(host.log) + Probes(sp, rs[..if k < |rs| then k + 1 else k])
    ensures host.files == old(host.files) && host.dirs == old(host.dirs)
  {
    k := 0;
    while k < |rs|
      invariant 0 <= k <= |rs|
      invariant FirstFound(host.failing, sp, rs) == k + FirstFound(host.failing, sp, rs[k..])
      invariant host.log == old(host.log) + Probes(sp, rs[..k])
      invariant host.files == old(host.files) && host.dirs == old(host.dirs)
    {
      var probed := RunRemoteCommand(host, TestFile(sp + "/" + rs[k].0));
      ProbesSnoc(sp, rs, k);
      assert rs[k..][0] == rs[k];
      if probed.Ok? {
        return;
      }
      assert rs[k..][1..] == rs[k + 1..];
      k := k + 1;
    }
  }

  /**
   * The remote half of runtime detection in `deploy_auto`: probe each indicator in order and
   * stop at the first one that exists.
   */
  method DetectRemoteRuntime(host: Host, sp: string) returns (rt: Option<Runtime>)
    modifies host
    ensures rt == DetectRuntime(RemotePresent(host, sp))
    ensures host.log == old(host.log) + Probes(sp, Runtimes[..ProbeCount(Runtimes, RemotePresent(host, sp))])
    ensures host.files == old(host.files) && host.dirs == old(host.dirs)
  {
    var k := ScanIndicators(host, sp, Runtimes);
    forall i | 0 <= i < |Runtimes|
      ensures Runtimes[i].0 in RemotePresent(host, sp) <==> TestFile(sp + "/" + Runtimes[i].0) !in host.failing
    {
      PresentOnMember(host.failing, sp, Runtimes, i);
    }
    FoundIsPresent(host.failing, sp, Runtimes, RemotePresent(host, sp));
    rt := if k < |Runtimes| then Some(Runtimes[k].1) else None;
  }

  /**
   * The runtime `deploy_auto` settles on: what the local files show for a local source, and
   * otherwise (a git URL, or nothing detected locally) what the remote probes find.
   */
  function ChosenRuntime(host: Host, source: string, localFiles: set<string>, sp: string): Option<Runtime> {
    var local := if Deploy.IsGitUrl(source) then None else DetectRuntime(localFiles);
    if local.Some? then local else DetectRuntime(RemotePresent(host, sp))
  }

  /** A local detection is final; a git source is only ever probed remotely; nothing found means no indicator anywhere. */
  lemma ChosenRuntimeSources(host: Host, source: string, localFiles: set<string>, sp: string)
    ensures !Deploy.IsGitUrl(source) && DetectRuntime(localFiles).Some? ==>
      ChosenRuntime(host, source, localFiles, sp) == DetectRuntime(localFiles)
    ensures Deploy.IsGitUrl(source) ==> ChosenRuntime(host, source, localFiles, sp) == DetectRuntime(RemotePresent(host, sp))
    ensures ChosenRuntime(host, source, localFiles, sp).None? <==>
      && (Deploy.IsGitUrl(source) || DetectRuntime(localFiles).None?)
      && forall i :: 0 <= i < |Runtimes| ==> TestFile(sp + "/" + Runtimes[i].0) in host.failing
  {
    forall i | 0 <= i < |Runtimes| {
      PresentOnMember(host.failing, sp, Runtimes, i);
    }
  }

  /** Runtime detection in `deploy_auto`; the local files are the names in the local source directory. */
  method ChooseRuntime(host: Host, source: string, localFiles: set<string>, sp: string) returns (rt: Option<Runtime>)
    modifies host
    ensures rt == ChosenRuntime(host, source, localFiles, sp)
    ensures host.files == old(host.files) && host.dirs == old(host.dirs)
  {
    rt := None;
    if !Deploy.IsGitUrl(source) {
      rt := DetectRuntime(localFiles);
    }
    if rt.None? {
      rt := DetectRemoteRuntime(host, sp);
    }
  }

  // ---------------------------------------------------------------------------------------
  // deploy_auto
  // ---------------------------------------------------------------------------------------

  const NoRuntimePrefix := "Could not detect runtime for '"
  const NoRuntimeSuffix := "'. Provide a Dockerfile or use --method dockerfile."

  function NoRuntimeError(name: string): Error {
    RuntimeError(NoRuntimePrefix + name + NoRuntimeSuffix)
  }

  /** The port `allocate_port` would hand out from the ports document in `files`. */
  function AllocationFor(files: map<string, File>, name: string): Result<(PortsState, int)> {
    var before := PortsAt(files, PortsPath(None));
    if before.Err? then Err(before.error) else Ports.Allocated(before.value, name)
  }

  /** The port step of `deploy_auto`: a given port is used as it is; only a missing one is allocated. */
  method ChoosePort(host: Host, name: string, port: Option<int>) returns (r: Result<int>)
    modifies host
    ensures port.Some? ==> r == Ok(port.value) && host.files == old(host.files) && host.log == old(host.log)
    ensures port.None? && r.Ok? ==>
      && AllocationFor(old(host.files), name).Ok?
      && r.value == AllocationFor(old(host.files), name).value.1
      && host.files == old(host.files)[PortsPath(None) := PortsFile(AllocationFor(old(host.files), name).value.0)]
    ensures host.dirs == old(host.dirs)
  {
    if port.Some? {
      return Ok(port.value);
    }
    r := Ports.AllocatePort(host, name);
  }

  const DockerfileName := "/Dockerfile"
  const ComposeName := "/docker-compose.yml"

  function DockerfilePath(ctx: RemoteContext, name: string): string {
    SourceDir(Some(ctx), name) + DockerfileName
  }

  function ComposePath(ctx: RemoteContext, name: string): string {
    AppDir(Some(ctx), name) + ComposeName
  }

  /** Write the Dockerfile into the source directory, then `docker build` the app's image from it. */
  method BuildImage(host: Host, name: string, d: Dockerfile, ctx: RemoteContext) returns (r: Result<()>)
    modifies host
    ensures var build := DockerBuild(Deploy.ImageName(name), SourceDir(Some(ctx), name));
      && (r.Ok? <==> DockerfilePath(ctx, name) !in host.unwritable && build !in host.failing)
      && (r.Ok? ==>
            && host.files == old(host.files)[DockerfilePath(ctx, name) := DockerfileFile(d)]
            && host.log == old(host.log) + [Wrote(DockerfilePath(ctx, name)), Ran(build, false)])
    ensures host.dirs == old(host.dirs)
  {
    var written := WriteRemoteFile(host, DockerfilePath(ctx, name), DockerfileFile(d));
    if written.Err? {
      return Err(written.error);
    }
    var built := RunRemoteCommand(host, DockerBuild(Deploy.ImageName(name), SourceDir(Some(ctx), name)));
    if built.Err? {
      return Err(built.error);
    }
    return Ok(());
  }

  const BuildLine := "    build: ."
  const ImagePrefix := "    image: "

  /** The rendered compose file with its `build: .` line pointing at the prebuilt image instead. */
  function ComposeWithImage(compose: string, name: string): string {
    Replace(compose, BuildLine, ImagePrefix + Deploy.ImageName(name))
  }

  /** A compose text without a `build: .` line is written as rendered; the line itself becomes the image line. */
  lemma ComposeImageLine(compose: string, name: string)
    ensures !Contains(compose, BuildLine) ==> ComposeWithImage(compose, name) == compose
    ensures ComposeWithImage(BuildLine, name) == ImagePrefix + Deploy.ImageName(name)
  {
    if !Contains(compose, BuildLine) {
      ReplaceAbsent(compose, BuildLine, ImagePrefix + Deploy.ImageName(name));
    }
    ReplaceWhole(BuildLine, ImagePrefix + Deploy.ImageName(name));
  }

  /**
   * Write `docker-compose.yml` and install the systemd unit; returns the unit's name. The
   * definition of `_deploy_systemd_unit` is not part of this model: here it writes the unit
   * file and names the unit as the app commands expect.
   */
  method InstallService(host: Host, name: string, compose: string, unit: string, ctx: RemoteContext)
    returns (r: Result<string>)
    modifies host
    ensures r.Ok? <==> ComposePath(ctx, name) !in host.unwritable && Apps.UnitPath(name) !in host.unwritable
    ensures r.Ok? ==>
      && r.value == Deploy.UnitName(name)
      && host.files == old(host.files)[ComposePath(ctx, name) := TextFile(ComposeWithImage(compose, name))]
                                      [Apps.UnitPath(name) := TextFile(unit)]
      && host.log == old(host.log) + [Wrote(ComposePath(ctx, name)), Wrote(Apps.UnitPath(name))]
    ensures host.dirs == old(host.dirs)
  {
    var written := WriteRemoteFile(host, ComposePath(ctx, name), TextFile(ComposeWithImage(compose, name)));
    if written.Err? {
      return Err(written.error);
    }
    var installed := WriteRemoteFile(host, Apps.UnitPath(name), TextFile(unit));
    if installed.Err? {
      return Err(installed.error);
    }
    return Ok(Deploy.UnitName(name));
  }

  /** The registry record of an auto-deployed app. */
  function AutoEntry(name: string, url: string, path: Option<string>, sourceType: string, source: string,
                     ctx: RemoteContext, port: int, containerPort: int, branch: Option<string>, unit: string,
                     runtime: Runtime, now: string): AppEntry {
    AppEntry(
      name := Some(name),
      deployMethod := Some(Deploy.AutoMethod),
      url := Some(url),
      routing := Some(if path.Some? && path.value != [] then Deploy.SubdirectoryRouting else Deploy.SubdomainRouting),
      port := Some(port),
      containerPort := Some(containerPort),
      sourceType := Some(sourceType),
      source := Some(source),
      sourcePath := Some(SourceDir(Some(ctx), name)),
      branch := Config.IfGiven(branch),
      systemdUnit := Some(unit),
      autoDetectedRuntime := Some(runtime.name),
      createdAt := Some(now),
      updatedAt := Some(now))
  }

  /** The last steps of `deploy_auto`: read the registry, deploy a proxy to the port, register the app. */
  method RouteAndRegister(host: Host, name: string, domain: string, path: Option<string>, port: int, e: AppEntry,
                          ctx: RemoteContext)
    returns (r: Result<()>)
    modifies host
    ensures var g := GardenAt(old(host.files), GardenStatePath(Some(ctx)));
      r.Ok? ==>
        && g.Ok? && g.value.apps.Some?
        && host.files == Routing.ChangedFiles(old(host.files),
                           Routing.DeployChange(g.value, name, domain, Some(port), path, Routing.CommandMethod, None))
                           [GardenStatePath(Some(ctx)) := GardenFile(Deploy.WithApp(g.value, name, e).value)]
                           [Deploy.AppRecordPath(Some(ctx), name) := AppRecordFile(e)]
    ensures host.dirs == old(host.dirs)
  {
    var garden :- ReadGardenState(host, Some(ctx));
    ghost var ch := Routing.DeployChange(garden, name, domain, Some(port), path, Routing.CommandMethod, None);
    var routed := Routing.DeployCaddyConfig(host, name, domain, Some(port), path, Routing.CommandMethod, None, Some(garden));
    Routing.AppliedOutcome(host, old(host.files), old(host.dirs), old(host.log), ch, routed);
    if routed.Err? {
      return Err(routed.error);
    }
    r := Deploy.RegisterApp(host, name, garden, e, Some(ctx));
  }

  /** The files `deploy_auto` writes under a context are different files from each other and from the shared state files. */
  lemma DockerfilePathDistinct(ctx: RemoteContext, name: string, domain: string)
    ensures var dp := DockerfilePath(ctx, name);
      && dp != ComposePath(ctx, name) && dp != Apps.UnitPath(name)
      && dp != Routing.CaddyFilePath(name) && dp != Routing.DomainCaddyFilePath(domain)
      && dp != GardenStatePath(Some(ctx)) && dp != Deploy.AppRecordPath(Some(ctx), name) && dp != PortsPath(None)
  {
    var sp := SourceDir(Some(ctx), name);
    CommonEnding(sp, DockerfileName, AppDir(Some(ctx), name), ComposeName);
    CommonEnding(sp, DockerfileName, Deploy.UnitDir + "/" + Deploy.UnitPrefix + name, Deploy.UnitSuffix);
    CommonEnding(sp, DockerfileName, CaddyAppsDir(None) + "/" + name, Routing.CaddySuffix);
    CommonEnding(sp, DockerfileName, CaddyAppsDir(None) + "/" + Routing.SubdirMarker + Routing.SafeDomain(domain),
                 Routing.CaddySuffix);
    CommonEnding(sp, DockerfileName, Root(Some(ctx)), GardenFileName);
    CommonEnding(sp, DockerfileName, AppDir(Some(ctx), name), Deploy.AppRecordName);
    CommonEnding(sp, DockerfileName, Root(None), PortsFileName);
  }

  lemma ComposePathDistinct(ctx: RemoteContext, name: string, domain: string)
    ensures var cp := ComposePath(ctx, name);
      && cp != Apps.UnitPath(name) && cp != Routing.CaddyFilePath(name) && cp != Routing.DomainCaddyFilePath(domain)
      && cp != GardenStatePath(Some(ctx)) && cp != Deploy.AppRecordPath(Some(ctx), name) && cp != PortsPath(None)
  {
    var ad := AppDir(Some(ctx), name);
    CommonEnding(ad, ComposeName, Deploy.UnitDir + "/" + Deploy.UnitPrefix + name, Deploy.UnitSuffix);
    CommonEnding(ad, ComposeName, CaddyAppsDir(None) + "/" + name, Routing.CaddySuffix);
    CommonEnding(ad, ComposeName, CaddyAppsDir(None) + "/" + Routing.SubdirMarker + Routing.SafeDomain(domain),
                 Routing.CaddySuffix);
    CommonEnding(ad, ComposeName, Root(Some(ctx)), GardenFileName);
    CommonEnding(ad, ComposeName, ad, Deploy.AppRecordName);
    CommonEnding(ad, ComposeName, Root(None), PortsFileName);
  }

  lemma RecordPathDistinct(ctx: RemoteContext, name: string, domain: string)
    ensures var ap := Deploy.AppRecordPath(Some(ctx), name);
      && ap != Apps.UnitPath(name) && ap != Routing.CaddyFilePath(name) && ap != Routing.DomainCaddyFilePath(domain)
  {
    var ad := AppDir(Some(ctx), name);
    CommonEnding(ad, Deploy.AppRecordName, Deploy.UnitDir + "/" + Deploy.UnitPrefix + name, Deploy.UnitSuffix);
    CommonEnding(ad, Deploy.AppRecordName, CaddyAppsDir(None) + "/" + name, Routing.CaddySuffix);
    CommonEnding(ad, Deploy.AppRecordName, CaddyAppsDir(None) + "/" + Routing.SubdirMarker + Routing.SafeDomain(domain),
                 Routing.CaddySuffix);
  }

  lemma RecordPathIsNotState(ctx: RemoteContext, name: string, domain: string)
    ensures var ap := Deploy.AppRecordPath(Some(ctx), name);
      ap != GardenStatePath(Some(ctx)) && ap != PortsPath(None)
    ensures Apps.UnitPath(name) != GardenStatePath(Some(ctx)) && Apps.UnitPath(name) != PortsPath(None)
    ensures Apps.UnitPath(name) != Routing.CaddyFilePath(name) && Apps.UnitPath(name) != Routing.DomainCaddyFilePath(domain)
  {
    var ad := AppDir(Some(ctx), name);
    CommonEnding(ad, Deploy.AppRecordName, Root(Some(ctx)), GardenFileName);
    CommonEnding(ad, Deploy.AppRecordName, Root(None), PortsFileName);
    Apps.UnitPathIsNotOther(name, name, domain, Some(ctx));
  }

  lemma SharedPathsDistinct(ctx: RemoteContext, name: string, domain: string)
    ensures Routing.CaddyFilePath(name) != GardenStatePath(Some(ctx)) && Routing.CaddyFilePath(name) != PortsPath(None)
    ensures Routing.DomainCaddyFilePath(domain) != GardenStatePath(Some(ctx))
    ensures Routing.DomainCaddyFilePath(domain) != PortsPath(None)
    ensures GardenStatePath(Some(ctx)) != PortsPath(None)
  {
    Routing.CaddyPathsAreNotStatePaths(name, domain, Some(ctx));
    Routing.CaddyPathsAreNotStatePaths(name, domain, None);
    StatePathsDistinct(Some(ctx), None);
  }

  /** The source type `upload_source` reports for `source`. */
  function SourceTypeOf(source: string): string {
    if Deploy.IsGitUrl(source) then Deploy.GitSource else Deploy.LocalSource
  }

  /** The arguments of `deploy_auto` besides the server. */
  datatype AutoArgs = AutoArgs(
    name: string,
    source: string,
    cmd: string,
    url: string,
    port: Option<int>,
    containerPort: int,
    setupCmd: Option<string>,
    branch: Option<string>)

  /**
   * What a successful `deploy_auto` leaves in `files`, starting from `files0`, once the runtime
   * is known: the port is the given one or a fresh allocation recorded in the ports document;
   * the Dockerfile, the compose file and the unit are written; the URL is routed to the port;
   * and the registry and `app.json` hold the app's record. Every other file is as it was.
   */
  ghost predicate AutoDeployed(files: map<string, File>, files0: map<string, File>, ctx: RemoteContext, domain: string,
                               path: Option<string>, a: AutoArgs, sourceType: string, rt: Runtime, compose: string,
                               unit: string, now: string)
  {
    var name := a.name;
    var alloc := AllocationFor(files0, name);
    var before := GardenAt(files0, GardenStatePath(Some(ctx)));
    && (a.port.None? ==> alloc.Ok?)
    && before.Ok?
    && var p := if a.port.Some? then a.port.value else alloc.value.1;
       var e := AutoEntry(name, a.url, path, sourceType, a.source, ctx, p, a.containerPort, a.branch,
                          Deploy.UnitName(name), rt, now);
       var ch := Routing.DeployChange(before.value, name, domain, Some(p), path, Routing.CommandMethod, None);
       && GardenAt(files, GardenStatePath(Some(ctx))) == Deploy.WithApp(before.value, name, e)
       && Deploy.AppRecordPath(Some(ctx), name) in files
       && files[Deploy.AppRecordPath(Some(ctx), name)] == AppRecordFile(e)
       && ch.path in files && files[ch.path] == CaddyFile(ch.config)
       && DockerfilePath(ctx, name) in files
       && files[DockerfilePath(ctx, name)] == DockerfileFile(GenerateDockerfile(rt, a.containerPort, a.cmd, a.setupCmd))
       && ComposePath(ctx, name) in files && files[ComposePath(ctx, name)] == TextFile(ComposeWithImage(compose, name))
       && Apps.UnitPath(name) in files && files[Apps.UnitPath(name)] == TextFile(unit)
       && (a.port.None? ==> PortsPath(None) in files && files[PortsPath(None)] == PortsFile(alloc.value.0))
       && forall q | q !in AutoWrittenPaths(ctx, name, ch.path, a.port.None?) ::
            (q in files <==> q in files0) && (q in files ==> files[q] == files0[q])
  }

  /** The files a successful `deploy_auto` writes after the upload; `ports.json` only when it allocates. */
  function AutoWrittenPaths(ctx: RemoteContext, name: string, caddyPath: string, allocates: bool): set<string> {
    {DockerfilePath(ctx, name), ComposePath(ctx, name), Apps.UnitPath(name), caddyPath,
     GardenStatePath(Some(ctx)), Deploy.AppRecordPath(Some(ctx), name)}
    + (if allocates then {PortsPath(None)} else {})
  }

  /** The files after the port step: the ports document gains the allocation unless a port was given. */
  function Ported(files0: map<string, File>, a: AutoArgs): map<string, File>
    requires a.port.None? ==> AllocationFor(files0, a.name).Ok?
  {
    if a.port.Some? then files0 else files0[PortsPath(None) := PortsFile(AllocationFor(files0, a.name).value.0)]
  }

  /** The port, image and service steps of `deploy_auto`; returns the port. The registry is left alone. */
  method PrepareService(host: Host, ctx: RemoteContext, a: AutoArgs, rt: Runtime, compose: string, unit: string)
    returns (r: Result<int>)
    modifies host
    ensures r.Ok? ==>
      && (a.port.None? ==> AllocationFor(old(host.files), a.name).Ok?)
      && r.value == (if a.port.Some? then a.port.value else AllocationFor(old(host.files), a.name).value.1)
      && host.files == Ported(old(host.files), a)
                         [DockerfilePath(ctx, a.name) := DockerfileFile(GenerateDockerfile(rt, a.containerPort, a.cmd, a.setupCmd))]
                         [ComposePath(ctx, a.name) := TextFile(ComposeWithImage(compose, a.name))]
                         [Apps.UnitPath(a.name) := TextFile(unit)]
      && GardenAt(host.files, GardenStatePath(Some(ctx))) == GardenAt(old(host.files), GardenStatePath(Some(ctx)))
    ensures host.dirs == old(host.dirs)
  {
    var name := a.name;
    var p :- ChoosePort(host, name, a.port);
    var built := BuildImage(host, name, GenerateDockerfile(rt, a.containerPort, a.cmd, a.setupCmd), ctx);
    if built.Err? {
      return Err(built.error);
    }
    var unitName :- InstallService(host, name, compose, unit, ctx);
    DockerfilePathDistinct(ctx, name, "");
    ComposePathDistinct(ctx, name, "");
    RecordPathIsNotState(ctx, name, "");
    SharedPathsDistinct(ctx, name, "");
    return Ok(p);
  }

  /** Reading back a sequence of writes to six different files, on top of `f`. */
  lemma SixWrites(f: map<string, File>, other: string, k1: string, k2: string, k3: string, k4: string, k5: string,
                  k6: string, v1: File, v2: File, v3: File, v4: File, v5: File, v6: File)
    requires k1 != k2 && k1 != k3 && k1 != k4 && k1 != k5 && k1 != k6
    requires k2 != k3 && k2 != k4 && k2 != k5 && k2 != k6
    requires k3 != k4 && k3 != k5 && k3 != k6
    requires k4 != k5 && k4 != k6 && k5 != k6
    requires other != k1 && other != k2 && other != k3 && other != k4 && other != k5 && other != k6
    ensures var g := f[k1 := v1][k2 := v2][k3 := v3][k4 := v4][k5 := v5][k6 := v6];
      && g[k1] == v1 && g[k2] == v2 && g[k3] == v3 && g[k4] == v4 && g[k5] == v5 && g[k6] == v6
      && (other in g <==> other in f) && (other in f ==> g[other] == f[other])
  {
  }

  /** `deploy_auto` from the port step on, once the source is uploaded and the runtime detected. */
  method DeployDetected(host: Host, ctx: RemoteContext, domain: string, path: Option<string>, a: AutoArgs,
                        sourceType: string, rt: Runtime, compose: string, unit: string, now: string)
    returns (r: Result<()>)
    modifies host
    ensures r.Ok? ==> AutoDeployed(host.files, old(host.files), ctx, domain, path, a, sourceType, rt, compose, unit, now)
    ensures host.dirs == old(host.dirs)
  {
    var p :- PrepareService(host, ctx, a, rt, compose, unit);
    var e := AutoEntry(a.name, a.url, path, sourceType, a.source, ctx, p, a.containerPort, a.branch,
                       Deploy.UnitName(a.name), rt, now);
    r := RouteAndRegister(host, a.name, domain, path, p, e, ctx);
    if r.Ok? {
      DeployedFiles(old(host.files), host.files, ctx, domain, path, a, sourceType, rt, compose, unit, now, p);
    }
  }

  /** The files the steps of `deploy_auto` write, read back. */
  lemma DeployedFiles(files0: map<string, File>, files: map<string, File>, ctx: RemoteContext, domain: string,
                      path: Option<string>, a: AutoArgs, sourceType: string, rt: Runtime, compose: string,
                      unit: string, now: string, p: int)
    requires a.port.None? ==> AllocationFor(files0, a.name).Ok?
    requires p == (if a.port.Some? then a.port.value else AllocationFor(files0, a.name).value.1)
    requires GardenAt(files0, GardenStatePath(Some(ctx))).Ok?
    requires GardenAt(files0, GardenStatePath(Some(ctx))).value.apps.Some?
    requires var g := GardenAt(files0, GardenStatePath(Some(ctx))).value;
      var e := AutoEntry(a.name, a.url, path, sourceType, a.source, ctx, p, a.containerPort, a.branch,
                         Deploy.UnitName(a.name), rt, now);
      files == Routing.ChangedFiles(
                 Ported(files0, a)
                   [DockerfilePath(ctx, a.name) := DockerfileFile(GenerateDockerfile(rt, a.containerPort, a.cmd, a.setupCmd))]
                   [ComposePath(ctx, a.name) := TextFile(ComposeWithImage(compose, a.name))]
                   [Apps.UnitPath(a.name) := TextFile(unit)],
                 Routing.DeployChange(g, a.name, domain, Some(p), path, Routing.CommandMethod, None))
               [GardenStatePath(Some(ctx)) := GardenFile(Deploy.WithApp(g, a.name, e).value)]
               [Deploy.AppRecordPath(Some(ctx), a.name) := AppRecordFile(e)]
    ensures AutoDeployed(files, files0, ctx, domain, path, a, sourceType, rt, compose, unit, now)
  {
    var g := GardenAt(files0, GardenStatePath(Some(ctx))).value;
    var e := AutoEntry(a.name, a.url, path, sourceType, a.source, ctx, p, a.containerPort, a.branch,
                       Deploy.UnitName(a.name), rt, now);
    var ch := Routing.DeployChange(g, a.name, domain, Some(p), path, Routing.CommandMethod, None);
    DockerfilePathDistinct(ctx, a.name, domain);
    ComposePathDistinct(ctx, a.name, domain);
    RecordPathDistinct(ctx, a.name, domain);
    RecordPathIsNotState(ctx, a.name, domain);
    SharedPathsDistinct(ctx, a.name, domain);
    SixWrites(Ported(files0, a), PortsPath(None),
              DockerfilePath(ctx, a.name), ComposePath(ctx, a.name), Apps.UnitPath(a.name), ch.path,
              GardenStatePath(Some(ctx)), Deploy.AppRecordPath(Some(ctx), a.name),
              DockerfileFile(GenerateDockerfile(rt, a.containerPort, a.cmd, a.setupCmd)),
              TextFile(ComposeWithImage(compose, a.name)), TextFile(unit), CaddyFile(ch.config),
              GardenFile(Deploy.WithApp(g, a.name, e).value), AppRecordFile(e));
    forall q | q !in AutoWrittenPaths(ctx, a.name, ch.path, a.port.None?)
      ensures (q in files <==> q in files0) && (q in files ==> files[q] == files0[q])
    {
      SixWrites(Ported(files0, a), q,
                DockerfilePath(ctx, a.name), ComposePath(ctx, a.name), Apps.UnitPath(a.name), ch.path,
                GardenStatePath(Some(ctx)), Deploy.AppRecordPath(Some(ctx), a.name),
                DockerfileFile(GenerateDockerfile(rt, a.containerPort, a.cmd, a.setupCmd)),
                TextFile(ComposeWithImage(compose, a.name)), TextFile(unit), CaddyFile(ch.config),
                GardenFile(Deploy.WithApp(g, a.name, e).value), AppRecordFile(e));
    }
  }

  /**
   * `deploy_auto`: upload the source, detect the runtime, allocate a port unless one is given,
   * write and build the Dockerfile, write the compose file and the unit, route the URL to the
   * port and register the app. The local files of the source directory and the rendered compose
   * and unit templates are parameters; so is the clock.
   */
  method DeployAuto(host: Host, server: Config.ServerConfig, hcloud: Config.HcloudOutcome, a: AutoArgs,
                    localFiles: set<string>, compose: string, unit: string, now: string)
    returns (r: Result<()>)
    modifies host
    ensures var ctx := MakeRemoteContext(server);
      !Deploy.UploadSucceeds(host, server, hcloud, a.name, a.source, a.branch, Some(ctx)) ==>
        r.Err? && host.files == old(host.files)
    ensures var ctx := MakeRemoteContext(server);
      var uploaded := Deploy.UploadedFiles(old(host.files), a.name, a.source, a.branch, Some(ctx));
      Deploy.UploadSucceeds(host, server, hcloud, a.name, a.source, a.branch, Some(ctx))
      && ChosenRuntime(host, a.source, localFiles, SourceDir(Some(ctx), a.name)).None? ==>
        r == Err(NoRuntimeError(a.name)) && host.files == uploaded
    ensures var ctx := MakeRemoteContext(server);
      var rt := ChosenRuntime(host, a.source, localFiles, SourceDir(Some(ctx), a.name));
      var uploaded := Deploy.UploadedFiles(old(host.files), a.name, a.source, a.branch, Some(ctx));
      r.Ok? ==>
        && Deploy.UploadSucceeds(host, server, hcloud, a.name, a.source, a.branch, Some(ctx))
        && rt.Some?
        && AutoDeployed(host.files, uploaded, ctx, Routing.ParseUrl(a.url).0, Routing.ParseUrl(a.url).1, a,
                        SourceTypeOf(a.source), rt.value, compose, unit, now)
    ensures host.dirs == old(host.dirs)
  {
    var ctx := MakeRemoteContext(server);
    var (domain, path) := Routing.ParseUrl(a.url);
    var sourceType :- Deploy.UploadSource(host, server, hcloud, a.name, a.source, a.branch, Some(ctx));
    var runtime := ChooseRuntime(host, a.source, localFiles, SourceDir(Some(ctx), a.name));
    if runtime.None? {
      return Err(NoRuntimeError(a.name));
    }
    r := DeployDetected(host, ctx, domain, path, a, sourceType, runtime.value, compose, unit, now);
  }
}
