/**
 * Deployment helpers: telling git URLs from local paths, the app and source directories,
 * uploading or cloning the source, and the static-site deployment that registers an app.
 */
module Deploy {
  import opened Wrappers
  import opened Strings
  import opened Dict
  import opened State
  import opened Remote
  import Routing
  import Config

  // ---------------------------------------------------------------------------------------
  // is_git_url
  // ---------------------------------------------------------------------------------------

  const SshGitPrefix := "git@"
  const GitProtocolPrefix := "git://"
  const GitSuffix := ".git"

  /** `is_git_url`: a URL scheme a git remote uses, or a `.git` ending. */
  predicate IsGitUrl(source: string) {
    || StartsWith(source, Routing.HttpsPrefix)
    || StartsWith(source, Routing.HttpPrefix)
    || StartsWith(source, SshGitPrefix)
    || StartsWith(source, GitProtocolPrefix)
    || EndsWith(source, GitSuffix)
  }

  /** Absolute and relative local paths are not git URLs unless they end in `.git`. */
  lemma LocalPathsAreNotGit(source: string)
    requires source != [] && (source[0] == '/' || source[0] == '.')
    requires !EndsWith(source, GitSuffix)
    ensures !IsGitUrl(source)
  {
    assert source[0] != 'h' && source[0] != 'g';
  }

  // ---------------------------------------------------------------------------------------
  // Directories and names
  // ---------------------------------------------------------------------------------------

  const SourceSuffix := "/source"

  /** `_app_dir`: the app's directory under the default root. */
  function DefaultAppDir(name: string): string {
    DefaultAppRoot + AppsName + name
  }

  /** `_source_dir`: the app's source directory under the default root. */
  function DefaultSourceDir(name: string): string {
    DefaultAppDir(name) + SourceSuffix
  }

  /** The deployment module's directories are the remote path builders without a context. */
  lemma DefaultDirsAgree(name: string)
    ensures DefaultAppDir(name) == AppDir(None, name)
    ensures DefaultSourceDir(name) == SourceDir(None, name)
    ensures DefaultSourceDir(name) == DefaultAppDir(name) + "/source"
  {
  }

  /**
   * The systemd unit of an app and the directory unit files live in. The definitions of
   * `_systemd_unit_name` and `SYSTEMD_UNIT_DIR`, which the app commands import from the
   * deployment module, are not part of this model; these are the names the app commands and
   * the application's tests use.
   */
  const UnitPrefix := "appgarden-"
  const UnitSuffix := ".service"
  const UnitDir := "/etc/systemd/system"

  function UnitName(name: string): string {
    UnitPrefix + name + UnitSuffix
  }

  /** Distinct apps have distinct units. */
  lemma UnitNameInjective(a: string, b: string)
    ensures UnitName(a) == UnitName(b) ==> a == b
  {
    if UnitName(a) == UnitName(b) {
      assert |a| == |b|;
      assert a == UnitName(a)[|UnitPrefix|..|UnitPrefix| + |a|];
      assert b == UnitName(b)[|UnitPrefix|..|UnitPrefix| + |b|];
    }
  }

  /** `appgarden-<name>`: the Docker image of an app. */
  function ImageName(name: string): string {
    UnitPrefix + name
  }

  // ---------------------------------------------------------------------------------------
  // upload_source
  // ---------------------------------------------------------------------------------------

  const GitSource := "git"
  const LocalSource := "local"

  /**
   * What `upload_source` does when every step succeeds: `mkdir -p` of the source directory, then
   * a fresh clone for a git URL or an rsync of the local directory.
   */
  function UploadActions(name: string, source: string, branch: Option<string>, ctx: Option<RemoteContext>): seq<Action> {
    var sp := SourceDir(ctx, name);
    [Ran(MakeDirs(sp), false)]
    + (if IsGitUrl(source) then [Ran(GitClone(Config.IfGiven(branch), source, sp), false)]
       else [Uploaded(WithTrailingSlash(source), sp)])
  }

  /** Whether every step of `upload_source` succeeds on `host`; a local upload first resolves the server's address. */
  predicate UploadSucceeds(host: Host, server: Config.ServerConfig, hcloud: Config.HcloudOutcome, name: string,
                           source: string, branch: Option<string>, ctx: Option<RemoteContext>) {
    var sp := SourceDir(ctx, name);
    && MakeDirs(sp) !in host.failing
    && (if IsGitUrl(source) then GitClone(Config.IfGiven(branch), source, sp) !in host.failing
        else Config.ResolveHost(server, hcloud).Ok? && sp !in host.uploadFailing)
  }

  /** The files after a successful `upload_source`: a clone first deletes the old source directory. */
  function UploadedFiles(files: map<string, File>, name: string, source: string, branch: Option<string>,
                         ctx: Option<RemoteContext>): map<string, File> {
    if IsGitUrl(source) then FilesAfter(files, GitClone(Config.IfGiven(branch), source, SourceDir(ctx, name))) else files
  }

  /** An upload leaves every file outside the app's directory as it was. */
  lemma UploadKeepsOutside(files: map<string, File>, name: string, source: string, branch: Option<string>,
                           ctx: Option<RemoteContext>, p: string)
    requires !Within(p, AppDir(ctx, name))
    ensures var f := UploadedFiles(files, name, source, branch, ctx);
      (p in f <==> p in files) && (p in f ==> f[p] == files[p])
  {
    SourceWithinAppDir(ctx, name, p);
  }

  /** An upload deletes everything that was in the source directory, unless it was a local one. */
  lemma CloneClearsSource(files: map<string, File>, name: string, source: string, branch: Option<string>,
                          ctx: Option<RemoteContext>, p: string)
    requires IsGitUrl(source) && Within(p, SourceDir(ctx, name))
    ensures p !in UploadedFiles(files, name, source, branch, ctx)
  {
  }

  /**
   * `upload_source`: returns "git" exactly when the source is a git URL, "local" otherwise.
   * `deploy_static` calls it without a context and gets the default root; the app commands
   * pass their context, so the context is a parameter here and `None` gives the default root.
   */
  method UploadSource(host: Host, server: Config.ServerConfig, hcloud: Config.HcloudOutcome, name: string,
                      source: string, branch: Option<string>, ctx: Option<RemoteContext>)
    returns (r: Result<string>)
    modifies host
    ensures var sp := SourceDir(ctx, name);
      && (MakeDirs(sp) in host.failing ==>
            r == Err(CommandFailed(MakeDirs(sp), host.Err(MakeDirs(sp)))) && host.log == old(host.log) + [Ran(MakeDirs(sp), false)])
      && (MakeDirs(sp) !in host.failing && IsGitUrl(source) ==>
            && host.log == old(host.log) + UploadActions(name, source, branch, ctx)
            && r == (if GitClone(Config.IfGiven(branch), source, sp) in host.failing
                     then Err(CommandFailed(GitClone(Config.IfGiven(branch), source, sp), host.Err(GitClone(Config.IfGiven(branch), source, sp))))
                     else Ok(GitSource)))
      && (MakeDirs(sp) !in host.failing && !IsGitUrl(source) && Config.ResolveHost(server, hcloud).Err? ==>
            r == Err(Config.ResolveHost(server, hcloud).error) && host.log == old(host.log) + [Ran(MakeDirs(sp), false)])
      && (MakeDirs(sp) !in host.failing && !IsGitUrl(source) && Config.ResolveHost(server, hcloud).Ok? ==>
            && host.log == old(host.log) + UploadActions(name, source, branch, ctx)
            && r == (if sp in host.uploadFailing then Err(CalledProcessError(UploadFailedPrefix + sp)) else Ok(LocalSource)))
    ensures r.Ok? <==> UploadSucceeds(host, server, hcloud, name, source, branch, ctx)
    ensures r.Ok? ==> (r.value == GitSource <==> IsGitUrl(source)) && (r.value == LocalSource <==> !IsGitUrl(source))
    ensures host.files == (if r.Ok? then UploadedFiles(old(host.files), name, source, branch, ctx) else old(host.files))
    ensures host.dirs == old(host.dirs)
  {
    var remoteSource := SourceDir(ctx, name);
    var made := RunRemoteCommand(host, MakeDirs(remoteSource));
    if made.Err? {
      return Err(made.error);
    }
    if IsGitUrl(source) {
      var cloned := RunRemoteCommand(host, GitClone(Config.IfGiven(branch), source, remoteSource));
      if cloned.Err? {
        return Err(cloned.error);
      }
      return Ok(GitSource);
    } else {
      var uploaded := UploadDirectory(host, server, hcloud, source, remoteSource);
      if uploaded.Err? {
        return Err(uploaded.error);
      }
      return Ok(LocalSource);
    }
  }

  // ---------------------------------------------------------------------------------------
  // deploy_static
  // ---------------------------------------------------------------------------------------

  const DockerfileMethod := "dockerfile"
  const AutoMethod := "auto"
  const SubdirectoryRouting := "subdirectory"
  const SubdomainRouting := "subdomain"
  const AppsKey := "apps"
  const AppRecordName := "/app.json"

  /** The registry record `deploy_static` builds; `branch` is recorded only when one is given. */
  function StaticEntry(name: string, url: string, path: Option<string>, sourceType: string, source: string,
                       sourcePath: string, now: string, branch: Option<string>): AppEntry {
    AppEntry(
      name := Some(name),
      deployMethod := Some(Routing.StaticMethod),
      url := Some(url),
      routing := Some(if path.Some? && path.value != [] then SubdirectoryRouting else SubdomainRouting),
      port := None,
      containerPort := None,
      sourceType := Some(sourceType),
      source := Some(source),
      sourcePath := Some(sourcePath),
      branch := Config.IfGiven(branch),
      systemdUnit := None,
      autoDetectedRuntime := None,
      createdAt := Some(now),
      updatedAt := Some(now))
  }

  /**
   * A static record says "static", routes by subdirectory exactly when the normalized URL has a
   * `/`, carries one timestamp as both creation and update time, and a branch only when one is given.
   */
  lemma StaticEntryShape(name: string, url: string, sourceType: string, source: string, sourcePath: string,
                         now: string, branch: Option<string>)
    ensures var e := StaticEntry(name, url, Routing.ParseUrl(url).1, sourceType, source, sourcePath, now, branch);
      && e.deployMethod == Some(Routing.StaticMethod)
      && (e.routing == Some(SubdirectoryRouting) <==> '/' in Routing.Normalized(url))
      && (e.routing == Some(SubdomainRouting) <==> '/' !in Routing.Normalized(url))
      && e.createdAt == e.updatedAt == Some(now)
      && (e.branch.Some? <==> branch.Some? && branch.value != [])
      && e.port.None? && e.systemdUnit.None?
  {
    Routing.ParseUrlSplits(url);
  }

  /** `garden_state["apps"][name] = entry`: KeyError when the document has no `apps` table. */
  function WithApp(g: Garden, name: string, e: AppEntry): (r: Result<Garden>)
    ensures r.Ok? <==> g.apps.Some?
    ensures r.Ok? ==> r.value.apps.Some? && Get(r.value.apps.value, name) == Some(e)
    ensures r.Ok? ==> forall other :: other != name ==> Get(r.value.apps.value, other) == Get(g.apps.value, other)
  {
    if g.apps.None? then Err(KeyError(AppsKey)) else Ok(Garden(Some(Set(g.apps.value, name, e))))
  }

  /** The Caddy change a static deployment makes, given the registry it read. */
  function StaticRouting(g: Garden, name: string, url: string, sourcePath: string): Routing.CaddyChange {
    var (domain, path) := Routing.ParseUrl(url);
    Routing.DeployChange(g, name, domain, None, path, Routing.StaticMethod, Some(sourcePath))
  }

  /** The static routing always serves the app's source directory as a static site or a static subdirectory. */
  lemma StaticRoutingServesSource(g: Garden, name: string, url: string)
    ensures var ch := StaticRouting(g, name, url, DefaultSourceDir(name));
      && ch.WriteConfig?
      && (Routing.ParseUrl(url).1.None? ==>
            ch.path == Routing.CaddyFilePath(name) && ch.config == StaticConfig(Routing.ParseUrl(url).0, Some(DefaultSourceDir(name))))
      && (Routing.ParseUrl(url).1.Some? ==> ch.path == Routing.DomainCaddyFilePath(Routing.ParseUrl(url).0))
  {
  }

  /** `<app dir>/app.json`: the per-app copy of the registry record. */
  function AppRecordPath(ctx: Option<RemoteContext>, name: string): string {
    AppDir(ctx, name) + AppRecordName
  }

  /**
   * Steps 3 and 4 of `deploy_static`: store the record in the registry read earlier, write the
   * registry back, then write `app.json`. A registry without an `apps` table is a KeyError
   * before anything is written. The auto deployment's `_register_app`, whose definition is
   * not part of this model, is taken to do the same under its context.
   */
  method RegisterApp(host: Host, name: string, garden: Garden, e: AppEntry, ctx: Option<RemoteContext>)
    returns (r: Result<()>)
    modifies host
    ensures garden.apps.None? ==> r == Err(KeyError(AppsKey)) && host.files == old(host.files) && host.log == old(host.log)
    ensures r.Ok? ==>
      && garden.apps.Some?
      && host.files == old(host.files)[GardenStatePath(ctx) := GardenFile(WithApp(garden, name, e).value)]
                                      [AppRecordPath(ctx, name) := AppRecordFile(e)]
      && host.log == old(host.log) + [Wrote(GardenStatePath(ctx)), Wrote(AppRecordPath(ctx, name))]
    ensures host.dirs == old(host.dirs)
  {
    var updated :- WithApp(garden, name, e);
    var written := WriteGardenState(host, updated, ctx);
    if written.Err? {
      return Err(written.error);
    }
    var recorded := WriteRemoteFile(host, AppRecordPath(ctx, name), AppRecordFile(e));
    if recorded.Err? {
      return Err(recorded.error);
    }
    return Ok(());
  }

  /**
   * Steps 2 to 4 of `deploy_static`, once the source is uploaded and the registry read: the
   * Caddy change, then the registration.
   */
  method RouteAndRegister(host: Host, name: string, domain: string, path: Option<string>, garden: Garden, e: AppEntry)
    returns (r: Result<()>)
    modifies host
    ensures var ch := Routing.DeployChange(garden, name, domain, None, path, Routing.StaticMethod, Some(DefaultSourceDir(name)));
      r.Ok? ==>
        && garden.apps.Some?
        && host.files == Routing.ChangedFiles(old(host.files), ch)
                           [GardenStatePath(None) := GardenFile(WithApp(garden, name, e).value)]
                           [AppRecordPath(None, name) := AppRecordFile(e)]
        && host.log == old(host.log) + [Routing.ChangeAction(ch), Ran(Routing.ReloadCaddy, false),
                                        Wrote(GardenStatePath(None)), Wrote(AppRecordPath(None, name))]
    ensures garden.apps.None? ==>
      r.Err? && (GardenStatePath(None) in old(host.files) ==>
                   GardenStatePath(None) in host.files && host.files[GardenStatePath(None)] == old(host.files)[GardenStatePath(None)])
  {
    var sourcePath := DefaultSourceDir(name);
    ghost var ch := Routing.DeployChange(garden, name, domain, None, path, Routing.StaticMethod, Some(sourcePath));
    var routed := Routing.DeployCaddyConfig(host, name, domain, None, path, Routing.StaticMethod, Some(sourcePath), Some(garden));
    Routing.AppliedOutcome(host, old(host.files), old(host.dirs), old(host.log), ch, routed);
    Routing.CaddyPathsAreNotStatePaths(name, domain, None);
    assert ch.WriteConfig? && ch.path != GardenStatePath(None);
    if routed.Err? {
      return Err(routed.error);
    }
    r := RegisterApp(host, name, garden, e, None);
    if r.Ok? {
      Routing.ConcatAssoc(old(host.log), [Routing.ChangeAction(ch), Ran(Routing.ReloadCaddy, false)],
                          [Wrote(GardenStatePath(None)), Wrote(AppRecordPath(None, name))]);
    }
  }

  /**
   * `deploy_static`: upload the source, deploy the Caddy config from the registry read at that
   * point, register the app, and write its `app.json`. The clock value is a parameter.
   */
  method DeployStatic(host: Host, server: Config.ServerConfig, hcloud: Config.HcloudOutcome, name: string,
                      source: string, url: string, branch: Option<string>, now: string)
    returns (r: Result<()>)
    modifies host
    ensures var before := GardenAt(old(host.files), GardenStatePath(None));
      r.Ok? ==>
        && UploadSucceeds(host, server, hcloud, name, source, branch, None)
        && before.Ok? && before.value.apps.Some?
        && var sourceType := if IsGitUrl(source) then GitSource else LocalSource;
           var e := StaticEntry(name, url, Routing.ParseUrl(url).1, sourceType, source, DefaultSourceDir(name), now, branch);
           var ch := StaticRouting(before.value, name, url, DefaultSourceDir(name));
           && host.files == Routing.ChangedFiles(UploadedFiles(old(host.files), name, source, branch, None), ch)
                              [GardenStatePath(None) := GardenFile(WithApp(before.value, name, e).value)]
                              [AppRecordPath(None, name) := AppRecordFile(e)]
           && host.log == old(host.log) + UploadActions(name, source, branch, None)
                          + [Routing.ChangeAction(ch), Ran(Routing.ReloadCaddy, false), Wrote(GardenStatePath(None)),
                             Wrote(AppRecordPath(None, name))]
    ensures !UploadSucceeds(host, server, hcloud, name, source, branch, None) ==> r.Err? && host.files == old(host.files)
    ensures GardenAt(old(host.files), GardenStatePath(None)).Err? ==>
      r.Err? && host.files == (if UploadSucceeds(host, server, hcloud, name, source, branch, None)
                               then UploadedFiles(old(host.files), name, source, branch, None) else old(host.files))
    ensures var before := GardenAt(old(host.files), GardenStatePath(None));
      before.Ok? && before.value.apps.None? ==>
        && r.Err? && GardenStatePath(None) in host.files
        && host.files[GardenStatePath(None)] == old(host.files)[GardenStatePath(None)]
  {
    var sourceType :- UploadSource(host, server, hcloud, name, source, branch, None);
    assert sourceType == if IsGitUrl(source) then GitSource else LocalSource;
    ghost var logU := host.log;
    assert logU == old(host.log) + UploadActions(name, source, branch, None);
    DefaultDirsAgree(name);
    SharedFilesOutsideAppDir(None, name, "");
    UploadKeepsOutside(old(host.files), name, source, branch, None, GardenStatePath(None));
    var garden :- ReadGardenState(host, None);
    var (domain, path) := Routing.ParseUrl(url);
    var e := StaticEntry(name, url, path, sourceType, source, DefaultSourceDir(name), now, branch);
    r := RouteAndRegister(host, name, domain, path, garden, e);
  }
}
