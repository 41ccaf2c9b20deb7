/**
 * App lifecycle management: listing the registered apps with their live status, the status of
 * one app, starting, stopping and restarting its service, fetching its logs, removing an app
 * with everything it owns on the server, and redeploying it.
 */
module Apps {
  import opened Wrappers
  import opened Strings
  import opened Dict
  import opened State
  import opened Remote
  import Config
  import Routing
  import Ports
  import Deploy

  const UnknownMethod := "unknown"
  const Serving := "serving"
  const Inactive := "inactive"
  const IsActiveAction := "is-active"
  const StopAction := "stop"
  const StartAction := "start"
  const RestartAction := "restart"
  const DisableAction := "disable"
  /** The number of journal lines `app_logs` fetches unless told otherwise. */
  const DefaultLogLines := 50

  /** The deployment method a record names, `"unknown"` when it names none. */
  function MethodOf(e: AppEntry): string {
    e.deployMethod.GetOr(UnknownMethod)
  }

  // ---------------------------------------------------------------------------------------
  // list_apps
  // ---------------------------------------------------------------------------------------

  /** `AppInfo`: one line of the app listing. */
  datatype AppInfo = AppInfo(name: string, deployMethod: string, url: string, routing: string,
                             port: Option<int>, status: Option<string>)

  /** The listing line of one registry record, before its status is known. */
  function InfoOf(name: string, e: AppEntry): AppInfo {
    AppInfo(name, MethodOf(e), e.url.GetOr([]), e.routing.GetOr([]), e.port, None)
  }

  /** The listing: one line per registry entry, in registry order. */
  function AppInfos(apps: seq<(string, AppEntry)>): (r: seq<AppInfo>)
    ensures |r| == |apps|
    ensures forall i | 0 <= i < |apps| :: r[i] == InfoOf(apps[i].0, apps[i].1)
  {
    if apps == [] then [] else [InfoOf(apps[0].0, apps[0].1)] + AppInfos(apps[1..])
  }

  /** Every registered app is listed exactly once, and nothing else is listed. */
  lemma ListingNamesApps(apps: Dict<string, AppEntry>, n: string)
    ensures (exists i | 0 <= i < |AppInfos(apps)| :: AppInfos(apps)[i].name == n) <==> HasKey(apps, n)
    ensures forall i, j | 0 <= i < j < |AppInfos(apps)| :: AppInfos(apps)[i].name != AppInfos(apps)[j].name
  {
    HasKeyAt(apps, n);
    var infos := AppInfos(apps);
    if HasKey(apps, n) {
      var i :| 0 <= i < |apps| && apps[i].0 == n;
      assert infos[i].name == n;
    } else {
      forall i | 0 <= i < |infos| ensures infos[i].name != n {
        assert infos[i].name == apps[i].0;
      }
    }
    forall i, j | 0 <= i < j < |apps| ensures apps[i].0 != apps[j].0 {
      KeysDistinctAt(apps, i, j);
    }
  }

  /** `list_apps`: the listing of the registry read from the server. */
  method ListApps(host: Host, ctx: Option<RemoteContext>) returns (r: Result<seq<AppInfo>>)
    ensures var g := GardenAt(host.files, GardenStatePath(ctx));
      r == if g.Err? then Err(g.error) else Ok(AppInfos(AppsOf(g.value)))
  {
    var state :- ReadGardenState(host, ctx);
    var apps := AppsOf(state);
    var infos: seq<AppInfo> := [];
    var i := 0;
    while i < |apps|
      invariant 0 <= i <= |apps|
      invariant |infos| == i
      invariant forall k | 0 <= k < i :: infos[k] == InfoOf(apps[k].0, apps[k].1)
    {
      infos := infos + [InfoOf(apps[i].0, apps[i].1)];
      i := i + 1;
    }
    assert infos == AppInfos(apps);
    return Ok(infos);
  }

  // ---------------------------------------------------------------------------------------
  // Live status
  // ---------------------------------------------------------------------------------------

  function IsActive(name: string): Cmd {
    Systemctl(IsActiveAction, Deploy.UnitName(name))
  }

  /**
   * The status shown for an app: "serving" for a static site, otherwise the stripped output of
   * `systemctl is-active`, or "inactive" when that command fails.
   */
  function StatusOf(host: Host, name: string, deployMethod: string): string {
    if deployMethod == Routing.StaticMethod then Serving
    else
      match CommandResult(host, IsActive(name))
      case Ok(out) => Strip(out)
      case Err(_) => Inactive
  }

  /** A reported status never carries surrounding whitespace, and a failed probe reads "inactive". */
  lemma StatusIsTrimmed(host: Host, name: string, deployMethod: string)
    ensures var s := StatusOf(host, name, deployMethod); s != [] ==> !IsSpace(s[0]) && !IsSpace(s[|s| - 1])
    ensures deployMethod != Routing.StaticMethod && IsActive(name) in host.failing ==> StatusOf(host, name, deployMethod) == Inactive
  {
    if deployMethod != Routing.StaticMethod && IsActive(name) !in host.failing {
      StripTrims(host.Out(IsActive(name)));
    }
  }

  /** The commands a status probe runs: none for a static site. */
  function Probe(name: string, deployMethod: string, ctx: Option<RemoteContext>): seq<Action> {
    if deployMethod == Routing.StaticMethod then [] else [Ran(IsActive(name), NeedsSudo(ctx))]
  }

  /** Find the status of one app, running `systemctl is-active` unless it is a static site. */
  method ProbeStatus(host: Host, name: string, deployMethod: string, ctx: Option<RemoteContext>) returns (status: string)
    modifies host
    ensures status == StatusOf(host, name, deployMethod)
    ensures host.log == old(host.log) + Probe(name, deployMethod, ctx)
    ensures host.files == old(host.files) && host.dirs == old(host.dirs)
  {
    if deployMethod == Routing.StaticMethod {
      return Serving;
    }
    var result := RunSudoCommand(host, IsActive(name), ctx);
    if result.Err? {
      return Inactive;
    }
    return Strip(result.value);
  }

  /** The listing with every line's status filled in. */
  function WithStatuses(host: Host, infos: seq<AppInfo>): (r: seq<AppInfo>)
    ensures |r| == |infos|
    ensures forall i | 0 <= i < |infos| ::
      r[i] == infos[i].(status := Some(StatusOf(host, infos[i].name, infos[i].deployMethod)))
  {
    if infos == [] then []
    else
      var last := infos[|infos| - 1];
      WithStatuses(host, infos[..|infos| - 1]) + [last.(status := Some(StatusOf(host, last.name, last.deployMethod)))]
  }

  /** The probes of a listing, in order. */
  function StatusProbes(infos: seq<AppInfo>, ctx: Option<RemoteContext>): seq<Action> {
    if infos == [] then []
    else StatusProbes(infos[..|infos| - 1], ctx) + Probe(infos[|infos| - 1].name, infos[|infos| - 1].deployMethod, ctx)
  }

  /** Only services are probed, each with its own unit: a static site never runs a command. */
  lemma {:induction false} ProbesAreServices(infos: seq<AppInfo>, ctx: Option<RemoteContext>)
    ensures forall a | a in StatusProbes(infos, ctx) ::
      exists i | 0 <= i < |infos| :: infos[i].deployMethod != Routing.StaticMethod && a == Ran(IsActive(infos[i].name), NeedsSudo(ctx))
    ensures (forall i | 0 <= i < |infos| :: infos[i].deployMethod == Routing.StaticMethod) ==> StatusProbes(infos, ctx) == []
  {
    if infos != [] {
      var init := infos[..|infos| - 1];
      ProbesAreServices(init, ctx);
      forall a | a in StatusProbes(infos, ctx)
        ensures exists i | 0 <= i < |infos| :: infos[i].deployMethod != Routing.StaticMethod && a == Ran(IsActive(infos[i].name), NeedsSudo(ctx))
      {
        if a in StatusProbes(init, ctx) {
          var i :| 0 <= i < |init| && init[i].deployMethod != Routing.StaticMethod && a == Ran(IsActive(init[i].name), NeedsSudo(ctx));
          assert infos[i] == init[i];
        } else {
          assert infos[|infos| - 1].deployMethod != Routing.StaticMethod;
        }
      }
      if forall i | 0 <= i < |infos| :: infos[i].deployMethod == Routing.StaticMethod {
        assert forall i | 0 <= i < |init| :: init[i] == infos[i];
      }
    }
  }

  /** Probe every line of a listing in turn. */
  method ProbeAll(host: Host, infos: seq<AppInfo>, ctx: Option<RemoteContext>) returns (out: seq<AppInfo>)
    modifies host
    ensures out == WithStatuses(host, infos)
    ensures host.log == old(host.log) + StatusProbes(infos, ctx)
    ensures host.files == old(host.files) && host.dirs == old(host.dirs)
  {
    out := [];
    var i := 0;
    while i < |infos|
      invariant 0 <= i <= |infos|
      invariant out == WithStatuses(host, infos[..i])
      invariant host.log == old(host.log) + StatusProbes(infos[..i], ctx)
      invariant host.files == old(host.files) && host.dirs == old(host.dirs)
    {
      var status := ProbeStatus(host, infos[i].name, infos[i].deployMethod, ctx);
      assert infos[..i + 1][..i] == infos[..i];
      out := out + [infos[i].(status := Some(status))];
      i := i + 1;
    }
    assert infos[..|infos|] == infos;
  }

  /** `list_apps_with_status`: the listing, then one status probe per service. */
  method ListAppsWithStatus(host: Host, ctx: Option<RemoteContext>) returns (r: Result<seq<AppInfo>>)
    modifies host
    ensures var g := GardenAt(old(host.files), GardenStatePath(ctx));
      && (g.Err? ==> r == Err(g.error) && host.log == old(host.log))
      && (g.Ok? ==>
            && r == Ok(WithStatuses(host, AppInfos(AppsOf(g.value))))
            && host.log == old(host.log) + StatusProbes(AppInfos(AppsOf(g.value)), ctx))
    ensures host.files == old(host.files) && host.dirs == old(host.dirs)
  {
    var infos :- ListApps(host, ctx);
    var out := ProbeAll(host, infos, ctx);
    return Ok(out);
  }

  // ---------------------------------------------------------------------------------------
  // app_status
  // ---------------------------------------------------------------------------------------

  /** `AppStatus`: the detailed status of one app. */
  datatype AppStatus = AppStatus(name: string, deployMethod: string, url: string, routing: string,
                                 port: Option<int>, status: string, source: Option<string>,
                                 sourceType: Option<string>, createdAt: Option<string>, updatedAt: Option<string>)

  const NotFoundPrefix := "App '"
  const NotFoundSuffix := "' not found"

  function NotFoundMessage(name: string): string {
    NotFoundPrefix + name + NotFoundSuffix
  }

  function StatusRecord(host: Host, name: string, e: AppEntry): AppStatus {
    AppStatus(name, MethodOf(e), e.url.GetOr([]), e.routing.GetOr([]), e.port, StatusOf(host, name, MethodOf(e)),
              e.source, e.sourceType, e.createdAt, e.updatedAt)
  }

  /** The detailed status of a listed app agrees with its line in the listing with statuses. */
  lemma StatusAgreesWithListing(host: Host, apps: Dict<string, AppEntry>, i: nat)
    requires i < |apps|
    ensures var line := WithStatuses(host, AppInfos(apps))[i];
      var rec := StatusRecord(host, apps[i].0, apps[i].1);
      && Get(apps, apps[i].0) == Some(apps[i].1)
      && line.name == rec.name && line.deployMethod == rec.deployMethod && line.url == rec.url
      && line.routing == rec.routing && line.port == rec.port && line.status == Some(rec.status)
  {
    GetAt(apps, i);
  }

  /** `app_status`: ValueError for an app the registry does not hold. */
  method GetAppStatus(host: Host, name: string, ctx: Option<RemoteContext>) returns (r: Result<AppStatus>)
    modifies host
    ensures var g := GardenAt(old(host.files), GardenStatePath(ctx));
      && (g.Err? ==> r == Err(g.error) && host.log == old(host.log))
      && (g.Ok? && !HasKey(AppsOf(g.value), name) ==>
            r == Err(ValueError(NotFoundMessage(name))) && host.log == old(host.log))
      && (g.Ok? && HasKey(AppsOf(g.value), name) ==>
            var e := Get(AppsOf(g.value), name).value;
            && r == Ok(StatusRecord(host, name, e))
            && host.log == old(host.log) + Probe(name, MethodOf(e), ctx))
    ensures host.files == old(host.files) && host.dirs == old(host.dirs)
  {
    var state :- ReadGardenState(host, ctx);
    var apps := AppsOf(state);
    if !HasKey(apps, name) {
      return Err(ValueError(NotFoundMessage(name)));
    }
    var e := Get(apps, name).value;
    var status := ProbeStatus(host, name, MethodOf(e), ctx);
    return Ok(AppStatus(name, MethodOf(e), e.url.GetOr([]), e.routing.GetOr([]), e.port, status,
                        e.source, e.sourceType, e.createdAt, e.updatedAt));
  }

  // ---------------------------------------------------------------------------------------
  // start / stop / restart / logs
  // ---------------------------------------------------------------------------------------

  /** `systemctl <action> <unit>` under sudo as the context asks. */
  method ControlService(host: Host, name: string, action: string, ctx: Option<RemoteContext>) returns (r: Result<()>)
    modifies host
    ensures var c := Systemctl(action, Deploy.UnitName(name));
      && (r.Ok? <==> c !in host.failing)
      && (r.Err? ==> r.error == CommandFailed(c, host.Err(c)))
      && host.log == old(host.log) + [Ran(c, NeedsSudo(ctx))]
    ensures host.files == old(host.files) && host.dirs == old(host.dirs)
  {
    var done := RunSudoCommand(host, Systemctl(action, Deploy.UnitName(name)), ctx);
    if done.Err? {
      return Err(done.error);
    }
    return Ok(());
  }

  /** `stop_app`. */
  method StopApp(host: Host, name: string, ctx: Option<RemoteContext>) returns (r: Result<()>)
    modifies host
    ensures var c := Systemctl(StopAction, Deploy.UnitName(name));
      && (r.Ok? <==> c !in host.failing) && host.log == old(host.log) + [Ran(c, NeedsSudo(ctx))]
    ensures host.files == old(host.files) && host.dirs == old(host.dirs)
  {
    r := ControlService(host, name, StopAction, ctx);
  }

  /** `start_app`. */
  method StartApp(host: Host, name: string, ctx: Option<RemoteContext>) returns (r: Result<()>)
    modifies host
    ensures var c := Systemctl(StartAction, Deploy.UnitName(name));
      && (r.Ok? <==> c !in host.failing) && host.log == old(host.log) + [Ran(c, NeedsSudo(ctx))]
    ensures host.files == old(host.files) && host.dirs == old(host.dirs)
  {
    r := ControlService(host, name, StartAction, ctx);
  }

  /** `restart_app`. */
  method RestartApp(host: Host, name: string, ctx: Option<RemoteContext>) returns (r: Result<()>)
    modifies host
    ensures var c := Systemctl(RestartAction, Deploy.UnitName(name));
      && (r.Ok? <==> c !in host.failing) && host.log == old(host.log) + [Ran(c, NeedsSudo(ctx))]
    ensures host.files == old(host.files) && host.dirs == old(host.dirs)
  {
    r := ControlService(host, name, RestartAction, ctx);
  }

  /** `app_logs`: the last `lines` journal lines of the app's unit. */
  method AppLogs(host: Host, name: string, lines: int, ctx: Option<RemoteContext>) returns (r: Result<string>)
    modifies host
    ensures var c := Journal(Deploy.UnitName(name), lines);
      && r == CommandResult(host, c)
      && host.log == old(host.log) + [Ran(c, NeedsSudo(ctx))]
    ensures host.files == old(host.files) && host.dirs == old(host.dirs)
  {
    r := RunSudoCommand(host, Journal(Deploy.UnitName(name), lines), ctx);
  }

  // ---------------------------------------------------------------------------------------
  // remove_app
  // ---------------------------------------------------------------------------------------

  /** The unit file of an app's service. */
  function UnitPath(name: string): string {
    Deploy.UnitDir + "/" + Deploy.UnitName(name)
  }

  /** The unit file is none of the documents and Caddy files `remove_app` writes afterwards. */
  lemma UnitPathIsNotOther(name: string, app: string, domain: string, ctx: Option<RemoteContext>)
    ensures UnitPath(name) != GardenStatePath(ctx) && UnitPath(name) != PortsPath(None)
    ensures UnitPath(name) != Routing.CaddyFilePath(app) && UnitPath(name) != Routing.DomainCaddyFilePath(domain)
  {
    var u := Deploy.UnitDir + "/" + Deploy.UnitPrefix + name;
    assert UnitPath(name) == u + Deploy.UnitSuffix;
    CommonEnding(u, Deploy.UnitSuffix, Root(ctx), GardenFileName);
    CommonEnding(u, Deploy.UnitSuffix, Root(None), PortsFileName);
    CommonEnding(u, Deploy.UnitSuffix, CaddyAppsDir(None) + "/" + app, Routing.CaddySuffix);
    CommonEnding(u, Deploy.UnitSuffix, CaddyAppsDir(None) + "/" + Routing.SubdirMarker + Routing.SafeDomain(domain),
                 Routing.CaddySuffix);
  }

  /**
   * Step 1 of `remove_app` for a service: stop and disable it, ignoring failures, then delete
   * its unit file and reload systemd, which may fail.
   */
  method RemoveService(host: Host, name: string, ctx: Option<RemoteContext>) returns (r: Result<()>)
    modifies host
    ensures var unit := Deploy.UnitName(name);
      var sudo := NeedsSudo(ctx);
      var rm := RemoveFile(UnitPath(name));
      && host.log == old(host.log) + [Ran(Systemctl(StopAction, unit), sudo), Ran(Systemctl(DisableAction, unit), sudo), Ran(rm, sudo)]
                     + (if rm in host.failing then [] else [Ran(DaemonReload, sudo)])
      && r == (if rm in host.failing then Err(CommandFailed(rm, host.Err(rm)))
               else if DaemonReload in host.failing then Err(CommandFailed(DaemonReload, host.Err(DaemonReload)))
               else Ok(()))
      && host.files == (if rm in host.failing then old(host.files) else old(host.files) - {UnitPath(name)})
    ensures host.dirs == old(host.dirs)
  {
    var unit := Deploy.UnitName(name);
    var stopped := RunSudoCommand(host, Systemctl(StopAction, unit), ctx);
    var disabled := RunSudoCommand(host, Systemctl(DisableAction, unit), ctx);
    var removed := RunSudoCommand(host, RemoveFile(UnitPath(name)), ctx);
    if removed.Err? {
      return Err(removed.error);
    }
    var reloaded := RunSudoCommand(host, DaemonReload, ctx);
    if reloaded.Err? {
      return Err(reloaded.error);
    }
    return Ok(());
  }

  /** The commands step 1 of `remove_app` runs for a service when it succeeds. */
  function ServiceRemovalLog(name: string, ctx: Option<RemoteContext>): seq<Action> {
    var unit := Deploy.UnitName(name);
    var sudo := NeedsSudo(ctx);
    [Ran(Systemctl(StopAction, unit), sudo), Ran(Systemctl(DisableAction, unit), sudo),
     Ran(RemoveFile(UnitPath(name)), sudo), Ran(DaemonReload, sudo)]
  }

  /** The `ports.json` that `release_port` finds, and its release of `name`. */
  function QuietRelease(files: map<string, File>, name: string): Option<PortsState> {
    var before := PortsAt(files, PortsPath(None));
    if before.Ok? && Ports.Released(before.value, name).Ok? then Some(Ports.Released(before.value, name).value) else None
  }

  /** Whether step 3 of `remove_app` gets past the release: it succeeds or raises a ValueError. */
  predicate QuietReleaseSucceeds(host: Host, files: map<string, File>, name: string) {
    var before := PortsAt(files, PortsPath(None));
    if before.Err? then IsValueError(before.error)
    else Ports.Released(before.value, name).Err? || PortsPath(None) !in host.unwritable
  }

  /** The files after step 3 of `remove_app` succeeds: the app's port released, or nothing changed after a ValueError. */
  function QuietlyReleased(files: map<string, File>, name: string): map<string, File> {
    var released := QuietRelease(files, name);
    if released.Some? then files[PortsPath(None) := PortsFile(released.value)] else files
  }

  /**
   * Step 3 of `remove_app`: release the app's port, ignoring a ValueError, which covers an app
   * holding no port and a `ports.json` that is not JSON; a RuntimeError still propagates.
   */
  method ReleaseQuietly(host: Host, name: string) returns (r: Result<()>)
    modifies host
    ensures r.Ok? <==> QuietReleaseSucceeds(host, old(host.files), name)
    ensures r.Err? ==> !IsValueError(r.error)
    ensures r.Ok? ==>
      && host.files == QuietlyReleased(old(host.files), name)
      && host.log == old(host.log) + (if QuietRelease(old(host.files), name).Some? then [Wrote(PortsPath(None))] else [])
    ensures host.files - {PortsPath(None)} == old(host.files) - {PortsPath(None)}
    ensures host.dirs == old(host.dirs)
  {
    var released := Ports.ReleasePort(host, name);
    if released.Err? && IsValueError(released.error) {
      return Ok(());
    }
    return released;
  }

  /** The files after step 1 of `remove_app` succeeds: the unit file of a service is deleted. */
  function ServiceRemoved(files: map<string, File>, name: string, e: AppEntry): map<string, File> {
    if MethodOf(e) != Routing.StaticMethod then files - {UnitPath(name)} else files
  }

  /** The files after steps 1 and 2 succeed: the Caddy change computed from the registry read at the start. */
  function Unrouted(files: map<string, File>, name: string, e: AppEntry, g: Garden): map<string, File> {
    var (domain, path) := Routing.ParseUrl(e.url.GetOr([]));
    Routing.ChangedFiles(ServiceRemoved(files, name, e), Routing.RemovalChange(g, name, domain, path))
  }

  /** The files after steps 1 to 3 succeed; the port is released only when the record has one. */
  function ResourcesRemoved(files: map<string, File>, name: string, e: AppEntry, g: Garden): map<string, File> {
    var f := Unrouted(files, name, e, g);
    if e.port.Some? then QuietlyReleased(f, name) else f
  }

  /** What steps 1 to 3 run and write when they succeed. */
  function ResourcesRemovalLog(files: map<string, File>, name: string, e: AppEntry, g: Garden,
                               ctx: Option<RemoteContext>): seq<Action> {
    var (domain, path) := Routing.ParseUrl(e.url.GetOr([]));
    var ch := Routing.RemovalChange(g, name, domain, path);
    (if MethodOf(e) != Routing.StaticMethod then ServiceRemovalLog(name, ctx) else [])
    + [Routing.ChangeAction(ch), Ran(Routing.ReloadCaddy, false)]
    + (if e.port.Some? && QuietRelease(Unrouted(files, name, e, g), name).Some? then [Wrote(PortsPath(None))] else [])
  }

  /**
   * Whether steps 1 to 3 succeed: the `rm -f` of the unit and `daemon-reload` for a service (the
   * stop and the disable may fail), the Caddy change and its reload, and the quiet release.
   */
  predicate ResourcesRemovalSucceeds(host: Host, files: map<string, File>, name: string, e: AppEntry, g: Garden) {
    var (domain, path) := Routing.ParseUrl(e.url.GetOr([]));
    && (MethodOf(e) != Routing.StaticMethod ==> RemoveFile(UnitPath(name)) !in host.failing && DaemonReload !in host.failing)
    && Routing.ChangeSucceeds(host, Routing.RemovalChange(g, name, domain, path))
    && Routing.ReloadCaddy !in host.failing
    && (e.port.Some? ==> QuietReleaseSucceeds(host, Unrouted(files, name, e, g), name))
  }

  /** Step 1 of `remove_app`, which only a service has. */
  method RemoveServiceIfAny(host: Host, name: string, e: AppEntry, ctx: Option<RemoteContext>) returns (r: Result<()>)
    modifies host
    ensures r.Ok? <==>
      (MethodOf(e) != Routing.StaticMethod ==> RemoveFile(UnitPath(name)) !in host.failing && DaemonReload !in host.failing)
    ensures r.Ok? ==>
      && host.files == ServiceRemoved(old(host.files), name, e)
      && host.log == old(host.log) + (if MethodOf(e) != Routing.StaticMethod then ServiceRemovalLog(name, ctx) else [])
    ensures host.dirs == old(host.dirs)
  {
    if MethodOf(e) != Routing.StaticMethod {
      r := RemoveService(host, name, ctx);
    } else {
      r := Ok(());
    }
  }

  /** Step 3 of `remove_app`, which only an app with a port has. */
  method ReleaseIfHeld(host: Host, name: string, e: AppEntry) returns (r: Result<()>)
    modifies host
    ensures r.Ok? <==> (e.port.Some? ==> QuietReleaseSucceeds(host, old(host.files), name))
    ensures r.Ok? ==>
      && host.files == (if e.port.Some? then QuietlyReleased(old(host.files), name) else old(host.files))
      && host.log == old(host.log)
                     + (if e.port.Some? && QuietRelease(old(host.files), name).Some? then [Wrote(PortsPath(None))] else [])
    ensures host.dirs == old(host.dirs)
  {
    if e.port.Some? {
      r := ReleaseQuietly(host, name);
    } else {
      r := Ok(());
    }
  }

  /** Step 2 of `remove_app`: the Caddy change computed from the registry read at the start, then the reload. */
  method UnrouteApp(host: Host, name: string, e: AppEntry, state: Garden) returns (r: Result<()>)
    modifies host
    ensures var (domain, path) := Routing.ParseUrl(e.url.GetOr([]));
      var ch := Routing.RemovalChange(state, name, domain, path);
      && (r.Ok? <==> Routing.ChangeSucceeds(host, ch) && Routing.ReloadCaddy !in host.failing)
      && (r.Ok? ==>
            && host.files == Routing.ChangedFiles(old(host.files), ch)
            && host.log == old(host.log) + [Routing.ChangeAction(ch), Ran(Routing.ReloadCaddy, false)])
    ensures host.dirs == old(host.dirs)
  {
    var (domain, path) := Routing.ParseUrl(e.url.GetOr([]));
    r := Routing.RemoveCaddyConfig(host, name, domain, path, Some(state));
    Routing.AppliedOutcome(host, old(host.files), old(host.dirs), old(host.log),
                           Routing.RemovalChange(state, name, domain, path), r);
  }

  /** Steps 1 to 3 of `remove_app`: the service, the Caddy route and the port. */
  method RemoveResources(host: Host, name: string, e: AppEntry, state: Garden, ctx: Option<RemoteContext>)
    returns (r: Result<()>)
    modifies host
    ensures r.Ok? <==> ResourcesRemovalSucceeds(host, old(host.files), name, e, state)
    ensures r.Ok? ==>
      && host.files == ResourcesRemoved(old(host.files), name, e, state)
      && host.log == old(host.log) + ResourcesRemovalLog(old(host.files), name, e, state, ctx)
    ensures host.dirs == old(host.dirs)
  {
    ghost var files0, log0 := host.files, host.log;
    var stopped := RemoveServiceIfAny(host, name, e, ctx);
    if stopped.Err? {
      return Err(stopped.error);
    }
    ghost var log1 := host.log;
    var unrouted := UnrouteApp(host, name, e, state);
    if unrouted.Err? {
      return Err(unrouted.error);
    }
    assert host.files == Unrouted(files0, name, e, state);
    ghost var files2, log2 := host.files, host.log;
    r := ReleaseIfHeld(host, name, e);
    if r.Ok? {
      RemovalLogComposes(log0, log1, log2, host.log, files0, name, e, state, ctx);
    }
  }

  /** The log of steps 1 to 3 is the logs of the three steps, one after the other. */
  lemma RemovalLogComposes(log0: seq<Action>, log1: seq<Action>, log2: seq<Action>, log3: seq<Action>,
                           files0: map<string, File>, name: string, e: AppEntry, g: Garden, ctx: Option<RemoteContext>)
    requires log1 == log0 + (if MethodOf(e) != Routing.StaticMethod then ServiceRemovalLog(name, ctx) else [])
    requires var (domain, path) := Routing.ParseUrl(e.url.GetOr([]));
      log2 == log1 + [Routing.ChangeAction(Routing.RemovalChange(g, name, domain, path)), Ran(Routing.ReloadCaddy, false)]
    requires log3 == log2 + (if e.port.Some? && QuietRelease(Unrouted(files0, name, e, g), name).Some?
                             then [Wrote(PortsPath(None))] else [])
    ensures log3 == log0 + ResourcesRemovalLog(files0, name, e, g, ctx)
  {
    var (domain, path) := Routing.ParseUrl(e.url.GetOr([]));
    var a := if MethodOf(e) != Routing.StaticMethod then ServiceRemovalLog(name, ctx) else [];
    var b := [Routing.ChangeAction(Routing.RemovalChange(g, name, domain, path)), Ran(Routing.ReloadCaddy, false)];
    var c := if e.port.Some? && QuietRelease(Unrouted(files0, name, e, g), name).Some? then [Wrote(PortsPath(None))] else [];
    assert ResourcesRemovalLog(files0, name, e, g, ctx) == a + b + c;
    assert log3 == log0 + a + b + c;
    Routing.ConcatAssoc(log0 + a, b, c);
    Routing.ConcatAssoc(log0, a, b + c);
    Routing.ConcatAssoc(a, b, c);
  }

  /** The last step of `remove_app`: `rm -rf` of the app directory, or with `keepData` the prune that spares `data`. */
  function CleanupCommand(ctx: Option<RemoteContext>, name: string, keepData: bool): Cmd {
    if keepData then PruneExceptData(AppDir(ctx, name)) else RemoveTree(AppDir(ctx, name))
  }

  /** Step 5 of `remove_app`: delete the app directory, or with `keepData` everything in it but `data`. */
  method RemoveAppFiles(host: Host, ctx: Option<RemoteContext>, name: string, keepData: bool) returns (r: Result<()>)
    modifies host
    ensures var c := CleanupCommand(ctx, name, keepData);
      && r == (if c in host.failing then Err(CommandFailed(c, host.Err(c))) else Ok(()))
      && host.log == old(host.log) + [Ran(c, false)]
      && host.files == (if r.Ok? then FilesAfter(old(host.files), c) else old(host.files))
    ensures var adir := AppDir(ctx, name);
      && (r.Ok? && !keepData ==> adir !in host.dirs)
      && (r.Ok? && keepData && adir in old(host.dirs) ==>
            adir in host.dirs && host.dirs[adir] == old(host.dirs)[adir] * {DataDir})
      && (forall d | d in old(host.dirs) && d != adir :: d in host.dirs && host.dirs[d] == old(host.dirs)[d])
  {
    var cleaned := RunRemoteCommand(host, CleanupCommand(ctx, name, keepData));
    if cleaned.Err? {
      return Err(cleaned.error);
    }
    return Ok(());
  }

  /** The files a successful `remove_app` leaves, from the files and the registry it started with. */
  function AppRemoved(files: map<string, File>, g: Garden, name: string, keepData: bool, ctx: Option<RemoteContext>)
    : map<string, File>
    requires HasKey(AppsOf(g), name)
  {
    var e := Get(AppsOf(g), name).value;
    FilesAfter(ResourcesRemoved(files, name, e, g)[GardenStatePath(ctx) := GardenFile(Garden(Some(Remove(AppsOf(g), name))))],
               CleanupCommand(ctx, name, keepData))
  }

  /**
   * `remove_app`: ValueError for an app the registry does not hold; otherwise remove its
   * service, route and port, drop it from the registry read at the start, and delete its
   * directory, or with `keepData` everything in it but `data`.
   */
  method RemoveApp(host: Host, name: string, keepData: bool, ctx: Option<RemoteContext>) returns (r: Result<()>)
    modifies host
    ensures var g := GardenAt(old(host.files), GardenStatePath(ctx));
      && (g.Err? ==> r == Err(g.error) && host.files == old(host.files) && host.log == old(host.log))
      && (g.Ok? && !HasKey(AppsOf(g.value), name) ==>
            r == Err(ValueError(NotFoundMessage(name))) && host.files == old(host.files) && host.log == old(host.log))
      && (g.Ok? && HasKey(AppsOf(g.value), name) ==>
            var e := Get(AppsOf(g.value), name).value;
            && (r.Ok? <==>
                  && ResourcesRemovalSucceeds(host, old(host.files), name, e, g.value)
                  && GardenStatePath(ctx) !in host.unwritable
                  && CleanupCommand(ctx, name, keepData) !in host.failing)
            && (r.Ok? ==>
                  && host.files == AppRemoved(old(host.files), g.value, name, keepData, ctx)
                  && host.log == old(host.log) + ResourcesRemovalLog(old(host.files), name, e, g.value, ctx)
                                 + [Wrote(GardenStatePath(ctx)), Ran(CleanupCommand(ctx, name, keepData), false)]))
    ensures r.Ok? && !keepData ==> AppDir(ctx, name) !in host.dirs
    ensures r.Ok? && keepData && AppDir(ctx, name) in old(host.dirs) ==>
      AppDir(ctx, name) in host.dirs && host.dirs[AppDir(ctx, name)] == old(host.dirs)[AppDir(ctx, name)] * {DataDir}
    ensures forall d | d in old(host.dirs) && d != AppDir(ctx, name) :: d in host.dirs && host.dirs[d] == old(host.dirs)[d]
  {
    var state :- ReadGardenState(host, ctx);
    if !HasKey(AppsOf(state), name) {
      return Err(ValueError(NotFoundMessage(name)));
    }
    var apps := AppsOf(state);
    var e := Get(apps, name).value;
    var removed := RemoveResources(host, name, e, state, ctx);
    if removed.Err? {
      return Err(removed.error);
    }
    ghost var log1 := host.log;
    var written := WriteGardenState(host, Garden(Some(Remove(apps, name))), ctx);
    if written.Err? {
      return Err(written.error);
    }
    r := RemoveAppFiles(host, ctx, name, keepData);
    if r.Ok? {
      AppendPair(log1, Wrote(GardenStatePath(ctx)), Ran(CleanupCommand(ctx, name, keepData), false));
    }
  }

  /** Appending two actions one at a time is appending the pair. */
  lemma AppendPair<T>(s: seq<T>, a: T, b: T)
    ensures s + [a] + [b] == s + [a, b]
  {
    assert [a] + [b] == [a, b];
    Routing.ConcatAssoc(s, [a], [b]);
  }

  /** The final cleanup leaves every file outside the app directory as it was. */
  lemma CleanupKeepsOutside(files: map<string, File>, ctx: Option<RemoteContext>, name: string, keepData: bool, p: string)
    requires !Within(p, AppDir(ctx, name))
    ensures var f := FilesAfter(files, CleanupCommand(ctx, name, keepData));
      (p in f <==> p in files) && (p in f ==> f[p] == files[p])
  {
  }

  /** Steps 1 to 3 leave the registry and `ports.json` as the release makes it, and never bring back a deleted file. */
  lemma ResourcesRemovedFiles(files: map<string, File>, name: string, e: AppEntry, g: Garden, ctx: Option<RemoteContext>)
    ensures var after := ResourcesRemoved(files, name, e, g);
      var (domain, path) := Routing.ParseUrl(e.url.GetOr([]));
      && (MethodOf(e) != Routing.StaticMethod ==> UnitPath(name) !in after)
      && (path.None? ==> Routing.CaddyFilePath(name) !in after)
      && (path.Some? ==>
            var ch := Routing.SubdirectoryRemoval(g, name, domain);
            && (ch.WriteConfig? ==> ch.path in after && after[ch.path] == CaddyFile(ch.config))
            && (ch.DeleteConfig? ==> ch.path !in after))
      && (e.port.Some? && QuietRelease(files, name).Some? ==> PortsAt(after, PortsPath(None)) == Ok(QuietRelease(files, name).value))
      && (e.port.None? ==> PortsAt(after, PortsPath(None)) == PortsAt(files, PortsPath(None)))
  {
    var (domain, path) := Routing.ParseUrl(e.url.GetOr([]));
    var f2 := Unrouted(files, name, e, g);
    UnroutedFiles(files, name, e, g);
    ResourcesRemovedPorts(files, name, e, g);
    if e.port.Some? {
      UnitPathIsNotOther(name, name, domain, ctx);
      Routing.CaddyPathsAreNotStatePaths(name, domain, None);
      assert ResourcesRemoved(files, name, e, g) == QuietlyReleased(f2, name);
      QuietlyReleasedKeeps(f2, name, UnitPath(name));
      QuietlyReleasedKeeps(f2, name, Routing.CaddyFilePath(name));
      QuietlyReleasedKeeps(f2, name, Routing.DomainCaddyFilePath(domain));
      Routing.RemovalChangePath(g, name, domain, path);
    }
  }

  /** The quiet release writes `ports.json` and no other file. */
  lemma QuietlyReleasedKeeps(files: map<string, File>, name: string, p: string)
    requires p != PortsPath(None)
    ensures var f := QuietlyReleased(files, name);
      (p in f <==> p in files) && (p in f ==> f[p] == files[p])
  {
  }

  /** Steps 1 to 3 leave `ports.json` with the app's port released, or as it was when the record has no port. */
  lemma ResourcesRemovedPorts(files: map<string, File>, name: string, e: AppEntry, g: Garden)
    ensures var after := ResourcesRemoved(files, name, e, g);
      && (e.port.Some? && QuietRelease(files, name).Some? ==> PortsAt(after, PortsPath(None)) == Ok(QuietRelease(files, name).value))
      && (e.port.None? ==> PortsAt(after, PortsPath(None)) == PortsAt(files, PortsPath(None)))
  {
    var pp := PortsPath(None);
    var f2 := Unrouted(files, name, e, g);
    UnroutedFiles(files, name, e, g);
    SameDocumentsAt(f2, files, pp);
    if e.port.Some? {
      assert QuietRelease(f2, name) == QuietRelease(files, name);
      assert ResourcesRemoved(files, name, e, g) == QuietlyReleased(f2, name);
    }
  }

  /** Steps 1 and 2 delete the unit of a service and apply the Caddy change, and leave `ports.json` as it was. */
  lemma UnroutedFiles(files: map<string, File>, name: string, e: AppEntry, g: Garden)
    ensures var f := Unrouted(files, name, e, g);
      var (domain, path) := Routing.ParseUrl(e.url.GetOr([]));
      var pp := PortsPath(None);
      && (MethodOf(e) != Routing.StaticMethod ==> UnitPath(name) !in f)
      && (path.None? ==> Routing.CaddyFilePath(name) !in f)
      && (path.Some? ==>
            var ch := Routing.SubdirectoryRemoval(g, name, domain);
            && (ch.WriteConfig? ==> ch.path in f && f[ch.path] == CaddyFile(ch.config))
            && (ch.DeleteConfig? ==> ch.path !in f))
      && (pp in f <==> pp in files) && (pp in f ==> f[pp] == files[pp])
  {
    var (domain, path) := Routing.ParseUrl(e.url.GetOr([]));
    var pp := PortsPath(None);
    var ch := Routing.RemovalChange(g, name, domain, path);
    var f1 := ServiceRemoved(files, name, e);
    UnitPathIsNotOther(name, name, domain, None);
    Routing.CaddyPathsAreNotStatePaths(name, domain, None);
    Routing.RemovalChangePath(g, name, domain, path);
    Routing.ChangedFilesAt(f1, ch, pp);
    Routing.ChangedFilesAt(f1, ch, UnitPath(name));
    Routing.ChangedFilesAt(f1, ch, ch.path);
  }

  /**
   * What a successful `remove_app` leaves: no unit file for a service and no file of its own
   * for a subdomain app; the registry without the app; nothing in the app directory, or with
   * `keepData` nothing in it outside `data`. Outside the app directory, the domain's merged
   * file is the one the removal computes from the registry read at the start, and `ports.json`
   * has the app's port released, or is as it was when the record has no port.
   */
  lemma AppRemovedOutcome(files: map<string, File>, g: Garden, name: string, keepData: bool, ctx: Option<RemoteContext>)
    requires HasKey(AppsOf(g), name)
    ensures var e := Get(AppsOf(g), name).value;
      var (domain, path) := Routing.ParseUrl(e.url.GetOr([]));
      var after := AppRemoved(files, g, name, keepData, ctx);
      var adir := AppDir(ctx, name);
      && (MethodOf(e) != Routing.StaticMethod ==> UnitPath(name) !in after)
      && (path.None? ==> Routing.CaddyFilePath(name) !in after)
      && GardenAt(after, GardenStatePath(ctx)) == Ok(Garden(Some(Remove(AppsOf(g), name))))
      && (forall p :: (if keepData then Pruned(p, adir) else Within(p, adir)) ==> p !in after)
      && (path.Some? && !Within(Routing.DomainCaddyFilePath(domain), adir) ==>
            var ch := Routing.SubdirectoryRemoval(g, name, domain);
            && (ch.WriteConfig? ==> ch.path in after && after[ch.path] == CaddyFile(ch.config))
            && (ch.DeleteConfig? ==> ch.path !in after))
      && (e.port.Some? && QuietRelease(files, name).Some? && !Within(PortsPath(None), adir) ==>
            PortsAt(after, PortsPath(None)) == Ok(QuietRelease(files, name).value))
      && (e.port.None? && !Within(PortsPath(None), adir) ==>
            PortsAt(after, PortsPath(None)) == PortsAt(files, PortsPath(None)))
  {
    var e := Get(AppsOf(g), name).value;
    var (domain, path) := Routing.ParseUrl(e.url.GetOr([]));
    var gp := GardenStatePath(ctx);
    var r := ResourcesRemoved(files, name, e, g);
    var m := r[gp := GardenFile(Garden(Some(Remove(AppsOf(g), name))))];
    ResourcesRemovedFiles(files, name, e, g, ctx);
    UnitPathIsNotOther(name, name, domain, ctx);
    Routing.CaddyPathsAreNotStatePaths(name, domain, ctx);
    SharedFilesOutsideAppDir(ctx, name, "");
    CleanupKeepsOutside(m, ctx, name, keepData, gp);
    AppRemovedMergedFile(files, g, name, keepData, ctx);
    AppRemovedPorts(files, g, name, keepData, ctx);
  }

  /** The part of `AppRemovedOutcome` about the domain's merged Caddy file. */
  lemma AppRemovedMergedFile(files: map<string, File>, g: Garden, name: string, keepData: bool, ctx: Option<RemoteContext>)
    requires HasKey(AppsOf(g), name)
    ensures var e := Get(AppsOf(g), name).value;
      var (domain, path) := Routing.ParseUrl(e.url.GetOr([]));
      var after := AppRemoved(files, g, name, keepData, ctx);
      (path.Some? && !Within(Routing.DomainCaddyFilePath(domain), AppDir(ctx, name)) ==>
         var ch := Routing.SubdirectoryRemoval(g, name, domain);
         && (ch.WriteConfig? ==> ch.path in after && after[ch.path] == CaddyFile(ch.config))
         && (ch.DeleteConfig? ==> ch.path !in after))
  {
    var e := Get(AppsOf(g), name).value;
    var (domain, path) := Routing.ParseUrl(e.url.GetOr([]));
    var dp := Routing.DomainCaddyFilePath(domain);
    var r := ResourcesRemoved(files, name, e, g);
    var m := r[GardenStatePath(ctx) := GardenFile(Garden(Some(Remove(AppsOf(g), name))))];
    if path.Some? && !Within(dp, AppDir(ctx, name)) {
      ResourcesRemovedFiles(files, name, e, g, ctx);
      Routing.CaddyPathsAreNotStatePaths(name, domain, ctx);
      Routing.RemovalChangePath(g, name, domain, path);
      assert (dp in m <==> dp in r) && (dp in m ==> m[dp] == r[dp]);
      CleanupKeepsOutside(m, ctx, name, keepData, dp);
    }
  }

  /** The part of `AppRemovedOutcome` about `ports.json`. */
  lemma AppRemovedPorts(files: map<string, File>, g: Garden, name: string, keepData: bool, ctx: Option<RemoteContext>)
    requires HasKey(AppsOf(g), name)
    ensures var e := Get(AppsOf(g), name).value;
      var after := AppRemoved(files, g, name, keepData, ctx);
      && (e.port.Some? && QuietRelease(files, name).Some? && !Within(PortsPath(None), AppDir(ctx, name)) ==>
            PortsAt(after, PortsPath(None)) == Ok(QuietRelease(files, name).value))
      && (e.port.None? && !Within(PortsPath(None), AppDir(ctx, name)) ==>
            PortsAt(after, PortsPath(None)) == PortsAt(files, PortsPath(None)))
  {
    var e := Get(AppsOf(g), name).value;
    var pp := PortsPath(None);
    var r := ResourcesRemoved(files, name, e, g);
    var m := r[GardenStatePath(ctx) := GardenFile(Garden(Some(Remove(AppsOf(g), name))))];
    if !Within(pp, AppDir(ctx, name)) {
      ResourcesRemovedPorts(files, name, e, g);
      StatePathsDistinct(ctx, None);
      assert (pp in m <==> pp in r) && (pp in m ==> m[pp] == r[pp]);
      CleanupKeepsOutside(m, ctx, name, keepData, pp);
      SameDocumentsAt(AppRemoved(files, g, name, keepData, ctx), r, pp);
    }
  }

  /** Under the default app root, the merged Caddy files and `ports.json` lie outside every app directory. */
  lemma SharedFilesOutsideDefaultAppDir(ctx: Option<RemoteContext>, name: string, domain: string)
    requires Root(ctx) == DefaultAppRoot
    ensures !Within(Routing.DomainCaddyFilePath(domain), AppDir(ctx, name))
    ensures !Within(PortsPath(None), AppDir(ctx, name))
  {
    assert AppDir(ctx, name) == AppDir(None, name);
    SharedFilesOutsideAppDir(None, name, Routing.SubdirMarker + Routing.SafeDomain(domain) + Routing.CaddySuffix);
    assert Routing.DomainCaddyFilePath(domain)
        == CaddyAppsDir(None) + "/" + (Routing.SubdirMarker + Routing.SafeDomain(domain) + Routing.CaddySuffix);
  }

  // ---------------------------------------------------------------------------------------
  // redeploy_app
  // ---------------------------------------------------------------------------------------

  /** The source update: `git pull` for a git source, a fresh rsync for a local one, nothing otherwise. */
  function SourceUpdate(name: string, e: AppEntry, ctx: RemoteContext): seq<Action> {
    var sp := SourceDir(Some(ctx), name);
    if e.sourceType == Some(Deploy.GitSource) then [Ran(GitPull(sp, Config.IfGiven(e.branch)), false)]
    else if e.sourceType == Some(Deploy.LocalSource) && Config.IfGiven(e.source).Some? then [Uploaded(WithTrailingSlash(e.source.value), sp)]
    else []
  }

  predicate IsDockerMethod(deployMethod: string) {
    deployMethod == Deploy.DockerfileMethod || deployMethod == Deploy.AutoMethod
  }

  /** The image rebuild, for the Docker-based methods only. */
  function Rebuild(name: string, e: AppEntry, ctx: RemoteContext): seq<Action> {
    if IsDockerMethod(MethodOf(e)) then [Ran(DockerBuild(Deploy.ImageName(name), SourceDir(Some(ctx), name)), false)] else []
  }

  /** The last step: restart the service, or reload Caddy for a static site. */
  function ServiceCommand(name: string, e: AppEntry): Cmd {
    if MethodOf(e) != Routing.StaticMethod then Systemctl(RestartAction, Deploy.UnitName(name)) else Routing.ReloadCaddy
  }

  /** Everything a redeploy runs before it rewrites the registry, when every step succeeds. */
  function RedeploySteps(name: string, e: AppEntry, ctx: RemoteContext): seq<Action> {
    SourceUpdate(name, e, ctx) + Rebuild(name, e, ctx) + [Ran(ServiceCommand(name, e), ctx.needsSudo)]
  }

  /**
   * A redeploy ends by restarting the app's service, or by reloading Caddy for a static site,
   * which is never restarted; it rebuilds an image exactly for the Docker-based methods, and
   * touches the source exactly for a git source or a local source it knows the path of.
   */
  lemma RedeployStepsShape(name: string, e: AppEntry, ctx: RemoteContext)
    ensures var steps := RedeploySteps(name, e, ctx);
      && steps != []
      && (MethodOf(e) != Routing.StaticMethod ==> steps[|steps| - 1] == Ran(Systemctl(RestartAction, Deploy.UnitName(name)), ctx.needsSudo))
      && (MethodOf(e) == Routing.StaticMethod ==>
            steps[|steps| - 1] == Ran(Routing.ReloadCaddy, ctx.needsSudo)
            && forall a | a in steps :: a.Ran? ==> a.cmd != Systemctl(RestartAction, Deploy.UnitName(name)))
      && ((exists a | a in steps :: a.Ran? && a.cmd.DockerBuild?) <==> IsDockerMethod(MethodOf(e)))
      && (SourceUpdate(name, e, ctx) != [] <==>
            e.sourceType == Some(Deploy.GitSource) || (e.sourceType == Some(Deploy.LocalSource) && Config.IfGiven(e.source).Some?))
  {
    var src, build, last := SourceUpdate(name, e, ctx), Rebuild(name, e, ctx), Ran(ServiceCommand(name, e), ctx.needsSudo);
    var steps := src + build + [last];
    assert steps == RedeploySteps(name, e, ctx);
    assert forall a | a in steps :: a in src || a in build || a == last;
    assert forall a | a in src :: a.Ran? ==> a.cmd.GitPull?;
    if IsDockerMethod(MethodOf(e)) {
      assert steps[|src|] == build[0] && build[0].cmd.DockerBuild?;
    } else {
      assert build == [] && !last.cmd.DockerBuild?;
    }
  }

  /** Whether step 1 of `redeploy_app` succeeds: the pull, or the address lookup and the rsync. */
  predicate SourceUpdateSucceeds(host: Host, server: Config.ServerConfig, hcloud: Config.HcloudOutcome, name: string,
                                 e: AppEntry, ctx: RemoteContext) {
    var sp := SourceDir(Some(ctx), name);
    if e.sourceType == Some(Deploy.GitSource) then GitPull(sp, Config.IfGiven(e.branch)) !in host.failing
    else if e.sourceType == Some(Deploy.LocalSource) && Config.IfGiven(e.source).Some? then
      Config.ResolveHost(server, hcloud).Ok? && sp !in host.uploadFailing
    else true
  }

  /** Step 1 of `redeploy_app`: `git pull` for a git source, a fresh upload for a local one, nothing otherwise. */
  method UpdateSource(host: Host, server: Config.ServerConfig, hcloud: Config.HcloudOutcome, name: string,
                      e: AppEntry, ctx: RemoteContext)
    returns (r: Result<()>)
    modifies host
    ensures r.Ok? <==> SourceUpdateSucceeds(host, server, hcloud, name, e, ctx)
    ensures var sp := SourceDir(Some(ctx), name);
      && (e.sourceType == Some(Deploy.GitSource) && r.Err? ==>
            r.error == CommandFailed(GitPull(sp, Config.IfGiven(e.branch)), host.Err(GitPull(sp, Config.IfGiven(e.branch)))))
      && (e.sourceType != Some(Deploy.GitSource) && Config.ResolveHost(server, hcloud).Err? && r.Err? ==>
            r == Err(Config.ResolveHost(server, hcloud).error) && host.log == old(host.log))
      && (e.sourceType != Some(Deploy.GitSource) && Config.ResolveHost(server, hcloud).Ok? && r.Err? ==>
            r.error == CalledProcessError(UploadFailedPrefix + sp))
    ensures r.Ok? || e.sourceType == Some(Deploy.GitSource) || Config.ResolveHost(server, hcloud).Ok? ==>
      host.log == old(host.log) + SourceUpdate(name, e, ctx)
    ensures host.files == old(host.files) && host.dirs == old(host.dirs)
  {
    var sp := SourceDir(Some(ctx), name);
    if e.sourceType == Some(Deploy.GitSource) {
      var pulled := RunRemoteCommand(host, GitPull(sp, Config.IfGiven(e.branch)));
      if pulled.Err? {
        return Err(pulled.error);
      }
    } else if e.sourceType == Some(Deploy.LocalSource) && Config.IfGiven(e.source).Some? {
      r := UploadDirectory(host, server, hcloud, e.source.value, sp);
      return;
    }
    return Ok(());
  }

  /** Steps 2 and 3 of `redeploy_app`: each command that fails raises and stops the redeploy. */
  method RebuildAndRestart(host: Host, name: string, e: AppEntry, ctx: RemoteContext) returns (r: Result<()>)
    modifies host
    ensures var build := DockerBuild(Deploy.ImageName(name), SourceDir(Some(ctx), name));
      var svc := ServiceCommand(name, e);
      if IsDockerMethod(MethodOf(e)) && build in host.failing then
        r == Err(CommandFailed(build, host.Err(build))) && host.log == old(host.log) + Rebuild(name, e, ctx)
      else
        && r == (if svc in host.failing then Err(CommandFailed(svc, host.Err(svc))) else Ok(()))
        && host.log == old(host.log) + Rebuild(name, e, ctx) + [Ran(svc, ctx.needsSudo)]
    ensures host.files == old(host.files) && host.dirs == old(host.dirs)
  {
    if IsDockerMethod(MethodOf(e)) {
      var built := RunRemoteCommand(host, DockerBuild(Deploy.ImageName(name), SourceDir(Some(ctx), name)));
      if built.Err? {
        return Err(built.error);
      }
    }
    var restarted := RunSudoCommand(host, ServiceCommand(name, e), Some(ctx));
    if restarted.Err? {
      return Err(restarted.error);
    }
    return Ok(());
  }

  /**
   * Whether every step of `redeploy_app` after the registry read succeeds: the source update,
   * the image build for a Docker method, the restart or reload, and the registry write.
   */
  predicate RedeploySucceeds(host: Host, server: Config.ServerConfig, hcloud: Config.HcloudOutcome, name: string,
                             e: AppEntry, ctx: RemoteContext) {
    && SourceUpdateSucceeds(host, server, hcloud, name, e, ctx)
    && !(IsDockerMethod(MethodOf(e)) && DockerBuild(Deploy.ImageName(name), SourceDir(Some(ctx), name)) in host.failing)
    && ServiceCommand(name, e) !in host.failing
    && GardenStatePath(Some(ctx)) !in host.unwritable
  }

  /**
   * `redeploy_app`: with no context given, the server's own; ValueError for an app the registry
   * does not hold; otherwise update the source, rebuild, restart, and store the record again
   * with the new update time and nothing else changed.
   */
  method RedeployApp(host: Host, server: Config.ServerConfig, hcloud: Config.HcloudOutcome, name: string,
                     ctx: Option<RemoteContext>, now: string)
    returns (r: Result<()>)
    modifies host
    ensures var c := if ctx.Some? then ctx.value else MakeRemoteContext(server);
      var g := GardenAt(old(host.files), GardenStatePath(Some(c)));
      && (g.Err? ==> r == Err(g.error) && host.files == old(host.files) && host.log == old(host.log))
      && (g.Ok? && !HasKey(AppsOf(g.value), name) ==>
            r == Err(ValueError(NotFoundMessage(name))) && host.files == old(host.files) && host.log == old(host.log))
      && (r.Ok? ==>
            && g.Ok? && g.value.apps.Some? && HasKey(g.value.apps.value, name)
            && var e := Get(g.value.apps.value, name).value;
               && host.log == old(host.log) + RedeploySteps(name, e, c) + [Wrote(GardenStatePath(Some(c)))]
               && host.files == old(host.files)[GardenStatePath(Some(c)) :=
                                  GardenFile(Garden(Some(Set(g.value.apps.value, name, e.(updatedAt := Some(now))))))])
    ensures var c := if ctx.Some? then ctx.value else MakeRemoteContext(server);
      var g := GardenAt(old(host.files), GardenStatePath(Some(c)));
      g.Ok? && HasKey(AppsOf(g.value), name) ==>
        (r.Ok? <==> RedeploySucceeds(host, server, hcloud, name, Get(AppsOf(g.value), name).value, c))
    ensures r.Err? ==> host.files == old(host.files)
    ensures host.dirs == old(host.dirs)
  {
    var c := if ctx.Some? then ctx.value else MakeRemoteContext(server);
    var state :- ReadGardenState(host, Some(c));
    if !HasKey(AppsOf(state), name) {
      return Err(ValueError(NotFoundMessage(name)));
    }
    var apps := state.apps.value;
    var e := Get(apps, name).value;
    var updated := UpdateSource(host, server, hcloud, name, e, c);
    if updated.Err? {
      return Err(updated.error);
    }
    var restarted := RebuildAndRestart(host, name, e, c);
    if restarted.Err? {
      return Err(restarted.error);
    }
    assert host.log == old(host.log) + RedeploySteps(name, e, c);
    var written := WriteGardenState(host, Garden(Some(Set(apps, name, e.(updatedAt := Some(now))))), Some(c));
    if written.Err? {
      return Err(written.error);
    }
    return Ok(());
  }

  /** A redeploy keeps the registry's order and every other app's record. */
  lemma RedeployKeepsRegistry(apps: Dict<string, AppEntry>, name: string, now: string)
    requires HasKey(apps, name)
    ensures var after := Set(apps, name, Get(apps, name).value.(updatedAt := Some(now)));
      && Keys(after) == Keys(apps)
      && Get(after, name).Some? && Get(after, name).value.updatedAt == Some(now)
      && Get(after, name).value.(updatedAt := Get(apps, name).value.updatedAt) == Get(apps, name).value
      && forall other | other != name :: Get(after, other) == Get(apps, other)
  {
    SetShape(apps, name, Get(apps, name).value.(updatedAt := Some(now)));
  }
}
