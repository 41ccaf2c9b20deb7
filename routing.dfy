/**
 * Caddy routing: splitting an app URL into domain and path, choosing the Caddy template, and
 * writing or deleting the per-app and per-domain `.caddy` files on the server.
 * A rendered snippet is a `CaddyConfig`: the template that was chosen with its parameters.
 */
module Routing {
  import opened Wrappers
  import opened Strings
  import opened Dict
  import opened State
  import opened Remote

  // ---------------------------------------------------------------------------------------
  // parse_url
  // ---------------------------------------------------------------------------------------

  const HttpsPrefix := "https://"
  const HttpPrefix := "http://"

  /** The scheme prefix the loop over `("https://", "http://")` removes: the first that matches, or none. */
  function SchemeOf(u: string): (r: string)
    ensures r == [] || r == HttpsPrefix || r == HttpPrefix
    ensures StartsWith(u, r)
  {
    if StartsWith(u, HttpsPrefix) then HttpsPrefix else if StartsWith(u, HttpPrefix) then HttpPrefix else []
  }

  /** The URL once stripped of surrounding whitespace, at most one scheme prefix and every trailing `/`. */
  function Normalized(url: string): string {
    var t := Strip(url);
    RStripChar(t[|SchemeOf(t)|..], '/')
  }

  /** Only `/` characters are dropped from the end, and none is left there. */
  lemma NormalizedShape(url: string)
    ensures var t := Strip(url)[|SchemeOf(Strip(url))|..];
      var r := Normalized(url);
      && |r| <= |t| && r == t[..|r|]
      && (forall i | |r| <= i < |t| :: t[i] == '/')
      && (r != [] ==> r[|r| - 1] != '/')
  {
  }

  /** `domain, path = url.split("/", 1)` when the URL has a `/`. */
  function SplitAtSlash(s: string): (string, Option<string>) {
    match IndexOf(s, '/')
    case None => (s, None)
    case Some(i) => (s[..i], Some(s[i + 1..]))
  }

  /** `parse_url`: `(domain, None)` for subdomain routing, `(domain, path)` when a `/` remains. */
  function ParseUrl(url: string): (string, Option<string>) {
    SplitAtSlash(Normalized(url))
  }

  /** Splitting at the first `/` gives a domain without `/`, and the two parts rejoin to the input. */
  lemma SplitAtSlashShape(s: string)
    requires s != [] ==> s[|s| - 1] != '/'
    ensures var r := SplitAtSlash(s);
      && (r.1.None? <==> '/' !in s)
      && (r.1.None? ==> r.0 == s)
      && (r.1.Some? ==>
            && '/' !in r.0
            && r.0 + "/" + r.1.value == s
            && r.1.value != []
            && r.1.value[|r.1.value| - 1] != '/')
  {
    var i := IndexOf(s, '/');
    if i.Some? {
      var j := i.value;
      assert s == s[..j] + "/" + s[j + 1..];
      assert j + 1 < |s|;
    }
  }

  /**
   * Without a `/` the normalized URL is the domain; otherwise it is split at its first `/`
   * into a domain without `/` and a non-empty path that does not end in `/`.
   */
  lemma ParseUrlSplits(url: string)
    ensures var s := Normalized(url);
      var r := ParseUrl(url);
      && (r.1.None? <==> '/' !in s)
      && (r.1.None? ==> r.0 == s)
      && (r.1.Some? ==>
            && '/' !in r.0
            && r.0 + "/" + r.1.value == s
            && r.1.value != []
            && r.1.value[|r.1.value| - 1] != '/')
  {
    NormalizedShape(url);
    SplitAtSlashShape(Normalized(url));
  }

  // ---------------------------------------------------------------------------------------
  // generate_caddy_config
  // ---------------------------------------------------------------------------------------

  const StaticMethod := "static"
  const CommandMethod := "command"

  /** `generate_caddy_config`: which template is rendered, with which parameters. */
  function GenerateCaddyConfig(domain: string, port: Option<int>, path: Option<string>, deployMethod: string,
                               sourcePath: Option<string>, apps: Option<seq<Route>>): (r: CaddyConfig)
    ensures r.domain == domain
    ensures r.SubdirectoryConfig? <==> apps.Some? || path.Some?
    ensures r.StaticConfig? <==> apps.None? && path.None? && deployMethod == StaticMethod
    ensures r.ProxyConfig? <==> apps.None? && path.None? && deployMethod != StaticMethod
    ensures r.StaticConfig? ==> r.sourcePath == sourcePath
    ensures r.ProxyConfig? ==> r.port == port
    ensures apps.Some? ==> r.apps == apps.value
    ensures apps.None? && path.Some? ==> r.apps == [Route(None, path.value, port, deployMethod, sourcePath)]
  {
    if apps.Some? then SubdirectoryConfig(domain, apps.value)
    else if deployMethod == StaticMethod && path.None? then StaticConfig(domain, sourcePath)
    else if path.None? then ProxyConfig(domain, port)
    else SubdirectoryConfig(domain, [Route(None, path.value, port, deployMethod, sourcePath)])
  }

  // ---------------------------------------------------------------------------------------
  // Config file paths
  // ---------------------------------------------------------------------------------------

  const CaddySuffix := ".caddy"
  const SubdirMarker := "_subdir_"

  /** `_caddy_file_path`: one file per subdomain app. */
  function CaddyFilePath(app: string): string {
    CaddyAppsDir(None) + "/" + app + CaddySuffix
  }

  /** The domain with every `.` replaced by `_`. */
  function SafeDomain(domain: string): string {
    Replace(domain, ".", "_")
  }

  /** `_domain_caddy_file_path`: one merged file per domain, named after the domain alone. */
  function DomainCaddyFilePath(domain: string): string {
    CaddyAppsDir(None) + "/" + SubdirMarker + SafeDomain(domain) + CaddySuffix
  }

  /** Distinct apps get distinct subdomain files. */
  lemma CaddyFilePathInjective(a: string, b: string)
    ensures CaddyFilePath(a) == CaddyFilePath(b) ==> a == b
  {
    if CaddyFilePath(a) == CaddyFilePath(b) {
      var n := |CaddyAppsDir(None) + "/"|;
      assert |a| == |b|;
      assert a == CaddyFilePath(a)[n..n + |a|];
      assert b == CaddyFilePath(b)[n..n + |b|];
    }
  }

  /** Replacing a one-character pattern leaves no occurrence of it when the replacement differs. */
  lemma {:induction false} ReplaceCharRemoves(s: string, c: char, d: char)
    requires c != d
    ensures c !in Replace(s, [c], [d])
    decreases |s|
  {
    if |s| >= 1 {
      ReplaceCharRemoves(s[1..], c, d);
    }
  }

  /** The merged file's name carries no `.` from the domain. */
  lemma SafeDomainHasNoDots(domain: string)
    ensures '.' !in SafeDomain(domain)
  {
    ReplaceCharRemoves(domain, '.', '_');
  }

  /**
   * The encoding is not injective, and the merged file is also the subdomain file of an app
   * named `_subdir_<safe domain>`: `a.b` and `a_b` share one file.
   */
  lemma DomainFilesCanCoincide(domain: string)
    ensures DomainCaddyFilePath(domain) == CaddyFilePath(SubdirMarker + SafeDomain(domain))
    ensures DomainCaddyFilePath("a.b") == DomainCaddyFilePath("a_b")
  {
    assert "a.b"[..1] == "a" && "a.b"[1..] == ".b";
    assert ".b"[..1] == "." && ".b"[1..] == "b";
    assert "a_b"[..1] == "a" && "a_b"[1..] == "_b";
    assert "_b"[..1] == "_" && "_b"[1..] == "b";
    assert "b"[..1] == "b" && "b"[1..] == [];
    assert Replace("a.b", ".", "_") == "a_b";
    assert Replace("a_b", ".", "_") == "a_b";
  }

  /** Caddy files never overwrite the JSON state documents. */
  lemma CaddyPathsAreNotStatePaths(app: string, domain: string, ctx: Option<RemoteContext>)
    ensures CaddyFilePath(app) != GardenStatePath(ctx) && CaddyFilePath(app) != PortsPath(ctx)
    ensures CaddyFilePath(app) != TunnelsStatePath(ctx)
    ensures DomainCaddyFilePath(domain) != GardenStatePath(ctx) && DomainCaddyFilePath(domain) != PortsPath(ctx)
    ensures DomainCaddyFilePath(domain) != TunnelsStatePath(ctx)
  {
    var a, d := CaddyAppsDir(None) + "/" + app, CaddyAppsDir(None) + "/" + SubdirMarker + SafeDomain(domain);
    CommonEnding(a, CaddySuffix, Root(ctx), GardenFileName);
    CommonEnding(a, CaddySuffix, Root(ctx), PortsFileName);
    CommonEnding(a, CaddySuffix, Root(ctx), TunnelsFileName);
    CommonEnding(d, CaddySuffix, Root(ctx), GardenFileName);
    CommonEnding(d, CaddySuffix, Root(ctx), PortsFileName);
    CommonEnding(d, CaddySuffix, Root(ctx), TunnelsFileName);
  }

  // ---------------------------------------------------------------------------------------
  // _collect_subdirectory_apps
  // ---------------------------------------------------------------------------------------

  /** The path under which an entry is served on `domain`, if it is a subdirectory app there. */
  function PathOn(e: AppEntry, domain: string): Option<string> {
    var (d, p) := ParseUrl(e.url.GetOr([]));
    if d == domain then p else None
  }

  /** The dictionary built for one collected app. */
  function RouteOf(name: string, e: AppEntry, path: string): Route {
    Route(Some(name), path, e.port, e.deployMethod.GetOr(CommandMethod), e.sourcePath)
  }

  /** The route one registry entry contributes on `domain`: none, or one. */
  function EntryRoutes(entry: (string, AppEntry), domain: string): seq<Route> {
    var p := PathOn(entry.1, domain);
    if p.Some? then [RouteOf(entry.0, entry.1, p.value)] else []
  }

  /** The subdirectory apps on `domain`, in registry order. */
  function SubdirectoryApps(apps: seq<(string, AppEntry)>, domain: string): seq<Route> {
    if apps == [] then [] else EntryRoutes(apps[0], domain) + SubdirectoryApps(apps[1..], domain)
  }

  /** One more registry entry scanned: the collected prefix grows by that entry's routes. */
  lemma CollectStep(apps: seq<(string, AppEntry)>, domain: string, i: nat, routes: seq<Route>)
    requires i < |apps|
    requires routes + SubdirectoryApps(apps[i..], domain) == SubdirectoryApps(apps, domain)
    ensures (routes + EntryRoutes(apps[i], domain)) + SubdirectoryApps(apps[i + 1..], domain) == SubdirectoryApps(apps, domain)
  {
    assert apps[i..][0] == apps[i];
    assert apps[i..][1..] == apps[i + 1..];
    ConcatAssoc(routes, EntryRoutes(apps[i], domain), SubdirectoryApps(apps[i + 1..], domain));
  }

  /** What one entry contributes, in the terms `_collect_subdirectory_apps` tests. */
  lemma EntryRoutesParsed(entry: (string, AppEntry), domain: string)
    ensures var p := ParseUrl(entry.1.url.GetOr([]));
      EntryRoutes(entry, domain) == if p.0 == domain && p.1.Some? then [RouteOf(entry.0, entry.1, p.1.value)] else []
  {
  }

  /** How an entry's routes count and find `name`. */
  lemma EntryRoutesNamed(entry: (string, AppEntry), domain: string, name: string)
    ensures var listed := entry.0 == name && PathOn(entry.1, domain).Some?;
      && CountNamed(EntryRoutes(entry, domain), name) == (if listed then 1 else 0)
      && FindRoute(EntryRoutes(entry, domain), name) ==
           (if listed then Some(RouteOf(name, entry.1, PathOn(entry.1, domain).value)) else None)
  {
    var routes := EntryRoutes(entry, domain);
    if routes != [] {
      assert routes[1..] == [];
    }
  }

  lemma ConcatAssoc<T>(a: seq<T>, b: seq<T>, c: seq<T>)
    ensures (a + b) + c == a + (b + c)
  {
  }

  /** `_collect_subdirectory_apps`: loop over the registry and append the matching apps. */
  method CollectSubdirectoryApps(garden: Garden, domain: string) returns (routes: seq<Route>)
    ensures routes == SubdirectoryApps(AppsOf(garden), domain)
  {
    var apps := AppsOf(garden);
    routes := [];
    var i := 0;
    assert apps[0..] == apps;
    while i < |apps|
      invariant 0 <= i <= |apps|
      invariant routes + SubdirectoryApps(apps[i..], domain) == SubdirectoryApps(apps, domain)
    {
      var (name, entry) := apps[i];
      var (appDomain, appPath) := ParseUrl(entry.url.GetOr([]));
      CollectStep(apps, domain, i, routes);
      EntryRoutesParsed(apps[i], domain);
      if appDomain == domain && appPath.Some? {
        routes := routes + [RouteOf(name, entry, appPath.value)];
      } else {
        assert routes + [] == routes;
      }
      i := i + 1;
    }
    assert apps[i..] == [];
    assert routes + [] == routes;
  }

  /** How many routes carry the name `name`. */
  function CountNamed(routes: seq<Route>, name: string): nat {
    if routes == [] then 0 else (if routes[0].name == Some(name) then 1 else 0) + CountNamed(routes[1..], name)
  }

  /** The first route named `name`: what `any(a["name"] == name ...)` looks for. */
  function FindRoute(routes: seq<Route>, name: string): (r: Option<Route>)
    ensures r.None? <==> CountNamed(routes, name) == 0
    ensures r.Some? ==> r.value in routes && r.value.name == Some(name)
  {
    if routes == [] then None
    else if routes[0].name == Some(name) then Some(routes[0])
    else FindRoute(routes[1..], name)
  }

  /**
   * The collected list holds each registered app at most once: exactly once when it is a
   * subdirectory app on the domain, and then with the fields of its registry entry.
   */
  lemma {:induction false} SubdirectoryAppsExactly(apps: Dict<string, AppEntry>, domain: string, name: string)
    ensures CountNamed(SubdirectoryApps(apps, domain), name) ==
      if HasKey(apps, name) && PathOn(Get(apps, name).value, domain).Some? then 1 else 0
    ensures FindRoute(SubdirectoryApps(apps, domain), name) ==
      if HasKey(apps, name) && PathOn(Get(apps, name).value, domain).Some? then
        Some(RouteOf(name, Get(apps, name).value, PathOn(Get(apps, name).value, domain).value))
      else None
    decreases |apps|
  {
    if apps != [] {
      SubdirectoryAppsExactly(apps[1..], domain, name);
      FirstKeyUnique(apps);
      EntryRoutesNamed(apps[0], domain, name);
      CountAppend(EntryRoutes(apps[0], domain), SubdirectoryApps(apps[1..], domain), name);
      FindAppend(EntryRoutes(apps[0], domain), SubdirectoryApps(apps[1..], domain), name);
    }
  }

  lemma {:induction false} CountAppend(a: seq<Route>, b: seq<Route>, name: string)
    ensures CountNamed(a + b, name) == CountNamed(a, name) + CountNamed(b, name)
    decreases |a|
  {
    if a != [] {
      assert (a + b)[1..] == a[1..] + b;
      CountAppend(a[1..], b, name);
    } else {
      assert a + b == b;
    }
  }

  lemma {:induction false} FindAppend(a: seq<Route>, b: seq<Route>, name: string)
    ensures FindRoute(a + b, name) == if FindRoute(a, name).Some? then FindRoute(a, name) else FindRoute(b, name)
    decreases |a|
  {
    if a != [] {
      assert (a + b)[1..] == a[1..] + b;
      FindAppend(a[1..], b, name);
    } else {
      assert a + b == b;
    }
  }

  /** `[a for a in apps if a["name"] != name]`. */
  function WithoutApp(routes: seq<Route>, name: string): (r: seq<Route>)
    ensures CountNamed(r, name) == 0
    ensures forall other :: other != name ==> CountNamed(r, other) == CountNamed(routes, other)
    ensures forall x :: x in r <==> x in routes && x.name != Some(name)
  {
    if routes == [] then []
    else if routes[0].name == Some(name) then WithoutApp(routes[1..], name)
    else
      var rest := WithoutApp(routes[1..], name);
      assert ([routes[0]] + rest)[1..] == rest;
      [routes[0]] + rest
  }

  /** The deploying app joins the collected list only when no entry carries its name. */
  function Merged(collected: seq<Route>, app: string, route: Route): seq<Route> {
    if FindRoute(collected, app).Some? then collected else collected + [route]
  }

  // ---------------------------------------------------------------------------------------
  // deploy_caddy_config / remove_caddy_config
  // ---------------------------------------------------------------------------------------

  /** What happens to a Caddy file: it is written with a config, or deleted with `rm -f`. */
  datatype CaddyChange =
    | WriteConfig(path: string, config: CaddyConfig)
    | DeleteConfig(path: string)

  /** Deploying a subdomain app writes its own file with the single-app template. */
  function SubdomainDeploy(app: string, domain: string, port: Option<int>, deployMethod: string,
                           sourcePath: Option<string>): (ch: CaddyChange)
    ensures ch.WriteConfig? && ch.path == CaddyFilePath(app)
    ensures ch.config == GenerateCaddyConfig(domain, port, None, deployMethod, sourcePath, None)
    ensures !ch.config.SubdirectoryConfig?
  {
    WriteConfig(CaddyFilePath(app), GenerateCaddyConfig(domain, port, None, deployMethod, sourcePath, None))
  }

  /** Deploying a subdirectory app rewrites the domain's merged file from the registry plus the app. */
  function SubdirectoryDeploy(garden: Garden, app: string, domain: string, path: string, port: Option<int>,
                              deployMethod: string, sourcePath: Option<string>): CaddyChange
  {
    var apps := SubdirectoryApps(AppsOf(garden), domain);
    var merged := Merged(apps, app, Route(Some(app), path, port, deployMethod, sourcePath));
    WriteConfig(DomainCaddyFilePath(domain), GenerateCaddyConfig(domain, None, None, CommandMethod, None, Some(merged)))
  }

  /**
   * The merged file lists the deploying app exactly once, with its registry entry when it is
   * already registered on the domain and with the given parameters otherwise; every other app
   * is listed as it is collected.
   */
  lemma SubdirectoryDeployListsAppOnce(garden: Garden, app: string, domain: string, path: string, port: Option<int>,
                                       deployMethod: string, sourcePath: Option<string>)
    ensures var ch := SubdirectoryDeploy(garden, app, domain, path, port, deployMethod, sourcePath);
      var e := Get(AppsOf(garden), app);
      var stored := e.Some? && PathOn(e.value, domain).Some?;
      && ch.WriteConfig? && ch.path == DomainCaddyFilePath(domain)
      && ch.config.SubdirectoryConfig? && ch.config.domain == domain
      && CountNamed(ch.config.apps, app) == 1
      && FindRoute(ch.config.apps, app) ==
           Some(if stored then RouteOf(app, e.value, PathOn(e.value, domain).value)
                else Route(Some(app), path, port, deployMethod, sourcePath))
      && (forall other :: other != app ==>
            CountNamed(ch.config.apps, other) == CountNamed(SubdirectoryApps(AppsOf(garden), domain), other))
  {
    var apps := SubdirectoryApps(AppsOf(garden), domain);
    var route := Route(Some(app), path, port, deployMethod, sourcePath);
    SubdirectoryAppsExactly(AppsOf(garden), domain, app);
    if FindRoute(apps, app).None? {
      CountAppend(apps, [route], app);
      FindAppend(apps, [route], app);
      forall other | other != app
        ensures CountNamed(apps + [route], other) == CountNamed(apps, other)
      {
        CountAppend(apps, [route], other);
      }
    }
  }

  /** Removing a subdomain app deletes its own file. */
  function SubdomainRemoval(app: string): (ch: CaddyChange)
    ensures ch.DeleteConfig? && ch.path == CaddyFilePath(app)
  {
    DeleteConfig(CaddyFilePath(app))
  }

  /** Removing a subdirectory app rewrites the domain's merged file without it, or deletes the file when no app is left. */
  function SubdirectoryRemoval(garden: Garden, app: string, domain: string): CaddyChange {
    var apps := WithoutApp(SubdirectoryApps(AppsOf(garden), domain), app);
    if apps != [] then
      WriteConfig(DomainCaddyFilePath(domain), GenerateCaddyConfig(domain, None, None, CommandMethod, None, Some(apps)))
    else
      DeleteConfig(DomainCaddyFilePath(domain))
  }

  /**
   * The regenerated file lists every other subdirectory app on the domain exactly once and not
   * the removed one; it is deleted exactly when no other app is left on the domain.
   */
  lemma SubdirectoryRemovalListsOthers(garden: Garden, app: string, domain: string, other: string)
    requires other != app
    ensures var ch := SubdirectoryRemoval(garden, app, domain);
      var e := Get(AppsOf(garden), other);
      var listed := e.Some? && PathOn(e.value, domain).Some?;
      && ch.path == DomainCaddyFilePath(domain)
      && (listed ==> ch.WriteConfig?)
      && (ch.WriteConfig? ==>
            && ch.config.SubdirectoryConfig? && ch.config.domain == domain
            && CountNamed(ch.config.apps, app) == 0
            && CountNamed(ch.config.apps, other) == (if listed then 1 else 0))
  {
    var rest := WithoutApp(SubdirectoryApps(AppsOf(garden), domain), app);
    SubdirectoryAppsExactly(AppsOf(garden), domain, other);
    if rest == [] {
      assert CountNamed(rest, other) == 0;
    }
  }

  /** The merged file is deleted exactly when the removed app is the only subdirectory app collected on the domain. */
  lemma SubdirectoryRemovalDeletesWhenAlone(garden: Garden, app: string, domain: string)
    ensures SubdirectoryRemoval(garden, app, domain).DeleteConfig? <==>
      forall x | x in SubdirectoryApps(AppsOf(garden), domain) :: x.name == Some(app)
  {
    var apps := SubdirectoryApps(AppsOf(garden), domain);
    var rest := WithoutApp(apps, app);
    if rest != [] {
      assert rest[0] in rest;
    }
  }

  /** The change `deploy_caddy_config` makes: the domain's merged file for a path, the app's own file otherwise. */
  function DeployChange(garden: Garden, app: string, domain: string, port: Option<int>, path: Option<string>,
                        deployMethod: string, sourcePath: Option<string>): CaddyChange {
    if path.Some? then SubdirectoryDeploy(garden, app, domain, path.value, port, deployMethod, sourcePath)
    else SubdomainDeploy(app, domain, port, deployMethod, sourcePath)
  }

  /** The change `remove_caddy_config` makes. */
  function RemovalChange(garden: Garden, app: string, domain: string, path: Option<string>): CaddyChange {
    if path.Some? then SubdirectoryRemoval(garden, app, domain) else SubdomainRemoval(app)
  }

  /** The file a removal touches: the domain's merged file for a subdirectory app, its own file otherwise. */
  lemma RemovalChangePath(garden: Garden, app: string, domain: string, path: Option<string>)
    ensures RemovalChange(garden, app, domain, path).path == (if path.Some? then DomainCaddyFilePath(domain) else CaddyFilePath(app))
  {
    if path.Some? {
      var apps := WithoutApp(SubdirectoryApps(AppsOf(garden), domain), app);
      if apps != [] {
        assert SubdirectoryRemoval(garden, app, domain).path == DomainCaddyFilePath(domain);
      }
    }
  }

  const ReloadCaddy := Systemctl("reload", "caddy")

  /** Whether the write or the `rm -f` of a change succeeds on `host`. */
  predicate ChangeSucceeds(host: Host, ch: CaddyChange) {
    match ch
    case WriteConfig(path, _) => path !in host.unwritable
    case DeleteConfig(path) => RemoveFile(path) !in host.failing
  }

  /** The error raised when a change fails. */
  function ChangeError(host: Host, ch: CaddyChange): Error {
    match ch
    case WriteConfig(path, _) => WriteFailed(path)
    case DeleteConfig(path) => CommandFailed(RemoveFile(path), host.Err(RemoveFile(path)))
  }

  /** The files once a change has succeeded. */
  function ChangedFiles(files: map<string, File>, ch: CaddyChange): map<string, File> {
    match ch
    case WriteConfig(path, config) => files[path := CaddyFile(config)]
    case DeleteConfig(path) => files - {path}
  }

  /** A change writes or deletes its own path and leaves every other path as it was. */
  lemma ChangedFilesAt(files: map<string, File>, ch: CaddyChange, p: string)
    ensures var f := ChangedFiles(files, ch);
      && (p == ch.path && ch.WriteConfig? ==> p in f && f[p] == CaddyFile(ch.config))
      && (p == ch.path && ch.DeleteConfig? ==> p !in f)
      && (p != ch.path ==> (p in f <==> p in files) && (p in f ==> f[p] == files[p]))
  {
  }

  function ChangeAction(ch: CaddyChange): Action {
    match ch
    case WriteConfig(path, _) => Wrote(path)
    case DeleteConfig(path) => Ran(RemoveFile(path), false)
  }

  /**
   * The host after a change followed by `systemctl reload caddy`: a failed change raises and
   * skips the reload, a failed reload raises after the change is made.
   */
  ghost predicate Applied(host: Host, files0: map<string, File>, dirs0: map<string, set<string>>, log0: seq<Action>,
                          ch: CaddyChange, r: Result<()>)
    reads host
  {
    var ok := ChangeSucceeds(host, ch);
    && host.dirs == dirs0
    && host.log == log0 + [ChangeAction(ch)] + (if ok then [Ran(ReloadCaddy, false)] else [])
    && host.files == (if ok then ChangedFiles(files0, ch) else files0)
    && r == (if !ok then Err(ChangeError(host, ch))
             else if ReloadCaddy in host.failing then Err(CommandFailed(ReloadCaddy, host.Err(ReloadCaddy)))
             else Ok(()))
  }

  /** What an applied change leaves behind, in the shape callers compose further steps with. */
  lemma AppliedOutcome(host: Host, files0: map<string, File>, dirs0: map<string, set<string>>, log0: seq<Action>,
                       ch: CaddyChange, r: Result<()>)
    requires Applied(host, files0, dirs0, log0, ch, r)
    ensures host.dirs == dirs0
    ensures r.Ok? ==> host.files == ChangedFiles(files0, ch) && host.log == log0 + [ChangeAction(ch), Ran(ReloadCaddy, false)]
    ensures r.Err? ==> host.files == files0 || host.files == ChangedFiles(files0, ch)
  {
  }

  /** Write or delete the file, then reload Caddy. */
  method ApplyChange(host: Host, ch: CaddyChange) returns (r: Result<()>)
    modifies host
    ensures Applied(host, old(host.files), old(host.dirs), old(host.log), ch, r)
  {
    if ch.WriteConfig? {
      var written := WriteRemoteFile(host, ch.path, CaddyFile(ch.config));
      if written.Err? {
        return Err(written.error);
      }
    } else {
      var removed := RunRemoteCommand(host, RemoveFile(ch.path));
      if removed.Err? {
        return Err(removed.error);
      }
    }
    var reloaded := RunRemoteCommand(host, ReloadCaddy);
    if reloaded.Err? {
      return Err(reloaded.error);
    }
    return Ok(());
  }

  /** The garden document a routing call works from: the one passed in, or the one read from the server. */
  function GardenFor(files: map<string, File>, given: Option<Garden>): Result<Garden> {
    if given.Some? then Ok(given.value) else GardenAt(files, GardenStatePath(None))
  }

  /** `deploy_caddy_config`. */
  method DeployCaddyConfig(host: Host, app: string, domain: string, port: Option<int>, path: Option<string>,
                           deployMethod: string, sourcePath: Option<string>, gardenState: Option<Garden>)
    returns (r: Result<()>)
    modifies host
    ensures var garden := GardenFor(old(host.files), gardenState);
      && (path.Some? && garden.Err? ==>
            r == Err(garden.error) && host.files == old(host.files) && host.dirs == old(host.dirs) && host.log == old(host.log))
      && (path.Some? && garden.Ok? ==>
            Applied(host, old(host.files), old(host.dirs), old(host.log),
                    SubdirectoryDeploy(garden.value, app, domain, path.value, port, deployMethod, sourcePath), r))
      && (path.None? ==>
            Applied(host, old(host.files), old(host.dirs), old(host.log),
                    SubdomainDeploy(app, domain, port, deployMethod, sourcePath), r))
    ensures gardenState.Some? ==>
      Applied(host, old(host.files), old(host.dirs), old(host.log),
              DeployChange(gardenState.value, app, domain, port, path, deployMethod, sourcePath), r)
  {
    var ch;
    if path.Some? {
      var garden: Garden;
      if gardenState.None? {
        var read := ReadGardenState(host, None);
        if read.Err? {
          return Err(read.error);
        }
        garden := read.value;
      } else {
        garden := gardenState.value;
      }
      var apps := CollectSubdirectoryApps(garden, domain);
      if FindRoute(apps, app).None? {
        apps := apps + [Route(Some(app), path.value, port, deployMethod, sourcePath)];
      }
      ch := WriteConfig(DomainCaddyFilePath(domain), GenerateCaddyConfig(domain, None, None, CommandMethod, None, Some(apps)));
    } else {
      ch := WriteConfig(CaddyFilePath(app), GenerateCaddyConfig(domain, port, None, deployMethod, sourcePath, None));
    }
    r := ApplyChange(host, ch);
  }

  /** `remove_caddy_config`. */
  method RemoveCaddyConfig(host: Host, app: string, domain: string, path: Option<string>, gardenState: Option<Garden>)
    returns (r: Result<()>)
    modifies host
    ensures var garden := GardenFor(old(host.files), gardenState);
      && (path.Some? && garden.Err? ==>
            r == Err(garden.error) && host.files == old(host.files) && host.dirs == old(host.dirs) && host.log == old(host.log))
      && (path.Some? && garden.Ok? ==>
            Applied(host, old(host.files), old(host.dirs), old(host.log), SubdirectoryRemoval(garden.value, app, domain), r))
      && (path.None? ==>
            Applied(host, old(host.files), old(host.dirs), old(host.log), SubdomainRemoval(app), r))
    ensures gardenState.Some? ==>
      Applied(host, old(host.files), old(host.dirs), old(host.log), RemovalChange(gardenState.value, app, domain, path), r)
  {
    var ch;
    if path.Some? {
      var garden: Garden;
      if gardenState.None? {
        var read := ReadGardenState(host, None);
        if read.Err? {
          return Err(read.error);
        }
        garden := read.value;
      } else {
        garden := gardenState.value;
      }
      var collected := CollectSubdirectoryApps(garden, domain);
      var apps := WithoutApp(collected, app);
      if apps != [] {
        ch := WriteConfig(DomainCaddyFilePath(domain), GenerateCaddyConfig(domain, None, None, CommandMethod, None, Some(apps)));
      } else {
        ch := DeleteConfig(DomainCaddyFilePath(domain));
      }
    } else {
      ch := DeleteConfig(CaddyFilePath(app));
    }
    r := ApplyChange(host, ch);
  }
}
