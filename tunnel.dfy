/**
 * Tunnels: a reverse SSH tunnel exposes a local port under a public URL through the server's
 * Caddy. Opening one allocates a server port under the tunnel id, writes a Caddy snippet that
 * proxies the URL to that port, and records the tunnel in `tunnels/active.json`; closing one
 * undoes the three steps, each of them tolerant of what an earlier failure left behind.
 *
 * Every step is described by a function from the host's failure oracle, its files and its log
 * to an `Outcome`: the files and the log afterwards, and what the call returns or raises. The
 * methods, which change the host, are proved to do what the functions say; the properties are
 * lemmas about the functions.
 */
module Tunnel {
  import opened Wrappers
  import opened Strings
  import opened Dict
  import opened State
  import opened Remote
  import Config
  import Routing
  import Ports

  const TunnelsKey := "tunnels"
  const InactiveWord := "inactive"
  const SshNotFoundMessage := "'ssh' command not found. Ensure OpenSSH is installed."

  /** What one call leaves on a host: its files and its log afterwards, and the call's result. */
  datatype Outcome<T> = Outcome(files: map<string, File>, log: seq<Action>, result: Result<T>)

  // ---------------------------------------------------------------------------------------
  // Paths
  // ---------------------------------------------------------------------------------------

  /** `_tunnel_caddy_path`: `<caddy tunnels dir>/<id>.caddy`; without a context the default root's. */
  function TunnelCaddyPath(id: string, ctx: Option<RemoteContext>): string {
    CaddyTunnelsDir(ctx) + "/" + id + Routing.CaddySuffix
  }

  /** Different tunnels have different Caddy files. */
  lemma TunnelCaddyPathInjective(a: string, b: string, ctx: Option<RemoteContext>)
    ensures TunnelCaddyPath(a, ctx) == TunnelCaddyPath(b, ctx) ==> a == b
  {
    if TunnelCaddyPath(a, ctx) == TunnelCaddyPath(b, ctx) {
      var n := |CaddyTunnelsDir(ctx) + "/"|;
      assert |a| == |b|;
      assert a == TunnelCaddyPath(a, ctx)[n..n + |a|];
      assert b == TunnelCaddyPath(b, ctx)[n..n + |b|];
    }
  }

  /** A tunnel's Caddy file is none of the JSON documents, whatever the app roots. */
  lemma TunnelPathsDistinct(id: string, ctx: Option<RemoteContext>, ctx': Option<RemoteContext>)
    ensures TunnelCaddyPath(id, ctx) != PortsPath(ctx')
    ensures TunnelCaddyPath(id, ctx) != TunnelsStatePath(ctx')
    ensures TunnelCaddyPath(id, ctx) != GardenStatePath(ctx')
  {
    var stem := CaddyTunnelsDir(ctx) + "/" + id;
    assert TunnelCaddyPath(id, ctx) == stem + Routing.CaddySuffix;
    CommonEnding(stem, Routing.CaddySuffix, Root(ctx'), PortsFileName);
    CommonEnding(stem, Routing.CaddySuffix, Root(ctx'), TunnelsFileName);
    CommonEnding(stem, Routing.CaddySuffix, Root(ctx'), GardenFileName);
  }

  // ---------------------------------------------------------------------------------------
  // The registry
  // ---------------------------------------------------------------------------------------

  /**
   * `_read_tunnels_state`: the document in `tunnels/active.json`, or an empty registry when the
   * file cannot be read (RuntimeError) or is not a tunnels document (JSONDecodeError).
   */
  function RegistryOf(files: map<string, File>, ctx: Option<RemoteContext>): TunnelsState {
    var p := TunnelsStatePath(ctx);
    if p in files && files[p].TunnelsFile? then files[p].tunnels else TunnelsState(Some([]))
  }

  /** The entries of `state.get("tunnels", {})`. */
  function Entries(st: TunnelsState): Dict<string, TunnelEntry> {
    st.tunnels.GetOr([])
  }

  /** `_read_tunnels_state`: both failures of the read fall back to an empty registry. */
  method ReadTunnelsState(host: Host, ctx: Option<RemoteContext>) returns (st: TunnelsState)
    ensures st == RegistryOf(host.files, ctx)
    ensures TunnelsAt(host.files, TunnelsStatePath(ctx)).Ok? ==> st == TunnelsAt(host.files, TunnelsStatePath(ctx)).value
    ensures TunnelsAt(host.files, TunnelsStatePath(ctx)).Err? ==> st == TunnelsState(Some([]))
  {
    var f := ReadRemoteFile(host, TunnelsStatePath(ctx));
    if f.Err? || !f.value.TunnelsFile? {
      return TunnelsState(Some([]));
    }
    return f.value.tunnels;
  }

  /** The outcome of `write_remote_file` of `f` at `p`. */
  function Written(host: Host, files: map<string, File>, log: seq<Action>, p: string, f: File): Outcome<()> {
    if p in host.unwritable then Outcome(files, log + [Wrote(p)], Err(WriteFailed(p)))
    else Outcome(files[p := f], log + [Wrote(p)], Ok(()))
  }

  /** `_write_tunnels_state`. */
  method WriteTunnelsState(host: Host, st: TunnelsState, ctx: Option<RemoteContext>) returns (r: Result<()>)
    modifies host
    ensures var o := Written(host, old(host.files), old(host.log), TunnelsStatePath(ctx), TunnelsFile(st));
      host.files == o.files && host.log == o.log && r == o.result
    ensures host.dirs == old(host.dirs)
  {
    var written := WriteRemoteFile(host, TunnelsStatePath(ctx), TunnelsFile(st));
    if written.Err? {
      return Err(written.error);
    }
    return Ok(());
  }

  /** The record `_register_tunnel` stores. */
  function TunnelRecord(url: string, localPort: int, remotePort: int, now: string): TunnelEntry {
    TunnelEntry(Some(url), Some(localPort), Some(remotePort), Some(now))
  }

  /** `state["tunnels"][id] = e`: KeyError when the document has no `tunnels` table. */
  function Registered(st: TunnelsState, id: string, e: TunnelEntry): (r: Result<TunnelsState>)
    ensures r.Err? <==> st.tunnels.None?
    ensures r.Err? ==> r.error == KeyError(TunnelsKey)
    ensures r.Ok? ==> r.value.tunnels.Some? && Get(r.value.tunnels.value, id) == Some(e)
    ensures r.Ok? ==> forall k :: k != id ==> Get(r.value.tunnels.value, k) == Get(st.tunnels.value, k)
  {
    if st.tunnels.None? then Err(KeyError(TunnelsKey))
    else Ok(TunnelsState(Some(Set(st.tunnels.value, id, e))))
  }

  /**
   * `state["tunnels"].pop(id, None)`: KeyError when the document has no `tunnels` table; an
   * absent id leaves the document as it is, so unregistering twice is unregistering once.
   */
  function Unregistered(st: TunnelsState, id: string): (r: Result<TunnelsState>)
    ensures r.Err? <==> st.tunnels.None?
    ensures r.Err? ==> r.error == KeyError(TunnelsKey)
    ensures r.Ok? ==> r.value.tunnels.Some? && !HasKey(r.value.tunnels.value, id)
    ensures r.Ok? ==> forall k :: k != id ==> Get(r.value.tunnels.value, k) == Get(st.tunnels.value, k)
    ensures r.Ok? && !HasKey(st.tunnels.value, id) ==> r.value == st
  {
    if st.tunnels.None? then Err(KeyError(TunnelsKey))
    else
      RemoveShape(st.tunnels.value, id);
      Ok(TunnelsState(Some(Remove(st.tunnels.value, id))))
  }

  /** Registering a new tunnel and unregistering it gives the registry back. */
  lemma RegisterThenUnregister(st: TunnelsState, id: string, e: TunnelEntry)
    requires st.tunnels.Some? && !HasKey(st.tunnels.value, id)
    ensures Registered(st, id, e).Ok?
    ensures Unregistered(Registered(st, id, e).value, id) == Ok(st)
  {
    RemoveSetFresh(st.tunnels.value, id, e);
  }

  /** `_register_tunnel`: read the registry, record the tunnel, write the registry. */
  function RegisterStep(host: Host, files: map<string, File>, log: seq<Action>, id: string, url: string,
                        localPort: int, remotePort: int, now: string, ctx: Option<RemoteContext>): Outcome<()> {
    match Registered(RegistryOf(files, ctx), id, TunnelRecord(url, localPort, remotePort, now))
    case Err(e) => Outcome(files, log, Err(e))
    case Ok(st) => Written(host, files, log, TunnelsStatePath(ctx), TunnelsFile(st))
  }

  /** `_unregister_tunnel`: read the registry, drop the tunnel, write the registry. */
  function UnregisterStep(host: Host, files: map<string, File>, log: seq<Action>, id: string,
                          ctx: Option<RemoteContext>): Outcome<()> {
    match Unregistered(RegistryOf(files, ctx), id)
    case Err(e) => Outcome(files, log, Err(e))
    case Ok(st) => Written(host, files, log, TunnelsStatePath(ctx), TunnelsFile(st))
  }

  /** `_register_tunnel`. */
  method RegisterTunnel(host: Host, id: string, url: string, localPort: int, remotePort: int, now: string,
                        ctx: Option<RemoteContext>)
    returns (r: Result<()>)
    modifies host
    ensures var o := RegisterStep(host, old(host.files), old(host.log), id, url, localPort, remotePort, now, ctx);
      host.files == o.files && host.log == o.log && r == o.result
    ensures host.dirs == old(host.dirs)
  {
    var st := ReadTunnelsState(host, ctx);
    var updated := Registered(st, id, TunnelRecord(url, localPort, remotePort, now));
    if updated.Err? {
      return Err(updated.error);
    }
    r := WriteTunnelsState(host, updated.value, ctx);
  }

  /** `_unregister_tunnel`. */
  method UnregisterTunnel(host: Host, id: string, ctx: Option<RemoteContext>) returns (r: Result<()>)
    modifies host
    ensures var o := UnregisterStep(host, old(host.files), old(host.log), id, ctx);
      host.files == o.files && host.log == o.log && r == o.result
    ensures host.dirs == old(host.dirs)
  {
    var st := ReadTunnelsState(host, ctx);
    var updated := Unregistered(st, id);
    if updated.Err? {
      return Err(updated.error);
    }
    r := WriteTunnelsState(host, updated.value, ctx);
  }

  // ---------------------------------------------------------------------------------------
  // The Caddy snippet
  // ---------------------------------------------------------------------------------------

  /** The snippet of a tunnel: `generate_caddy_config` with only the domain and the port. */
  function TunnelCaddyConfig(domain: string, remotePort: int): (c: CaddyConfig)
    ensures c == ProxyConfig(domain, Some(remotePort))
  {
    Routing.GenerateCaddyConfig(domain, Some(remotePort), None, Routing.CommandMethod, None, None)
  }

  /** What `systemctl reload caddy` raises, if anything. */
  function Reloaded(host: Host): Result<()> {
    if Routing.ReloadCaddy in host.failing then Err(CommandFailed(Routing.ReloadCaddy, host.Err(Routing.ReloadCaddy)))
    else Ok(())
  }

  /** `_deploy_tunnel_caddy`: write the snippet, then reload Caddy under sudo as the context asks. */
  function DeployCaddyStep(host: Host, files: map<string, File>, log: seq<Action>, id: string, domain: string,
                           remotePort: int, ctx: Option<RemoteContext>): Outcome<()> {
    var w := Written(host, files, log, TunnelCaddyPath(id, ctx), CaddyFile(TunnelCaddyConfig(domain, remotePort)));
    if w.result.Err? then w
    else Outcome(w.files, w.log + [Ran(Routing.ReloadCaddy, NeedsSudo(ctx))], Reloaded(host))
  }

  /** `_remove_tunnel_caddy`: `rm -f` the snippet and reload Caddy; a failure of either is swallowed. */
  function CaddyRemovalStep(host: Host, files: map<string, File>, log: seq<Action>, id: string,
                            ctx: Option<RemoteContext>): Outcome<()> {
    var rm := RemoveFile(TunnelCaddyPath(id, ctx));
    if rm in host.failing then Outcome(files, log + [Ran(rm, false)], Ok(()))
    else Outcome(files - {TunnelCaddyPath(id, ctx)}, log + [Ran(rm, false)] + [Ran(Routing.ReloadCaddy, NeedsSudo(ctx))],
                 Ok(()))
  }

  /** `_deploy_tunnel_caddy`. */
  method DeployTunnelCaddy(host: Host, id: string, domain: string, remotePort: int, ctx: Option<RemoteContext>)
    returns (r: Result<()>)
    modifies host
    ensures var o := DeployCaddyStep(host, old(host.files), old(host.log), id, domain, remotePort, ctx);
      host.files == o.files && host.log == o.log && r == o.result
    ensures host.dirs == old(host.dirs)
  {
    var config := TunnelCaddyConfig(domain, remotePort);
    var written := WriteRemoteFile(host, TunnelCaddyPath(id, ctx), CaddyFile(config));
    if written.Err? {
      return Err(written.error);
    }
    var reloaded := RunSudoCommand(host, Routing.ReloadCaddy, ctx);
    if reloaded.Err? {
      return Err(reloaded.error);
    }
    return Ok(());
  }

  /** `_remove_tunnel_caddy`. */
  method RemoveTunnelCaddy(host: Host, id: string, ctx: Option<RemoteContext>)
    modifies host
    ensures var o := CaddyRemovalStep(host, old(host.files), old(host.log), id, ctx);
      host.files == o.files && host.log == o.log
    ensures host.dirs == old(host.dirs)
  {
    var removed := RunRemoteCommand(host, RemoveFile(TunnelCaddyPath(id, ctx)));
    if removed.Ok? {
      var reloaded := RunSudoCommand(host, Routing.ReloadCaddy, ctx);
    }
  }

  // ---------------------------------------------------------------------------------------
  // Ports
  // ---------------------------------------------------------------------------------------

  /** `allocate_port(host, app)`: the port, from `ports.json` under the default root. */
  function AllocateStep(host: Host, files: map<string, File>, log: seq<Action>, app: string): Outcome<int> {
    var pp := PortsPath(None);
    match PortsAt(files, pp)
    case Err(e) => Outcome(files, log, Err(e))
    case Ok(ports) =>
      match Ports.Allocated(ports, app)
      case Err(e) => Outcome(files, log, Err(e))
      case Ok(allocation) =>
        var w := Written(host, files, log, pp, PortsFile(allocation.0));
        Outcome(w.files, w.log, if w.result.Err? then Err(w.result.error) else Ok(allocation.1))
  }

  /**
   * `release_port(host, app)` inside `except (ValueError, RuntimeError): pass`: every error it can
   * raise is one of the two, so nothing propagates.
   */
  function ReleaseStep(host: Host, files: map<string, File>, log: seq<Action>, app: string): Outcome<()> {
    var pp := PortsPath(None);
    var before := PortsAt(files, pp);
    if before.Err? || Ports.Released(before.value, app).Err? then Outcome(files, log, Ok(()))
    else
      var w := Written(host, files, log, pp, PortsFile(Ports.Released(before.value, app).value));
      Outcome(w.files, w.log, Ok(()))
  }

  /** The port release of `_cleanup_tunnel`. */
  method ReleaseIgnoringErrors(host: Host, app: string)
    modifies host
    ensures var o := ReleaseStep(host, old(host.files), old(host.log), app);
      host.files == o.files && host.log == o.log
    ensures host.dirs == old(host.dirs)
  {
    var released := Ports.ReleasePort(host, app);
    assert released.Err? ==> IsValueError(released.error) || released.error.RuntimeError?;
  }

  // ---------------------------------------------------------------------------------------
  // Cleanup, open and close
  // ---------------------------------------------------------------------------------------

  /** `_cleanup_tunnel`: remove the snippet, release the port held by `app`, unregister the tunnel, in this order. */
  function Cleanup(host: Host, files: map<string, File>, log: seq<Action>, id: string, app: string,
                   ctx: RemoteContext): Outcome<()> {
    var removal := CaddyRemovalStep(host, files, log, id, Some(ctx));
    var release := ReleaseStep(host, removal.files, removal.log, app);
    UnregisterStep(host, release.files, release.log, id, Some(ctx))
  }

  /** The context `_cleanup_tunnel` works under: the one passed in, or the server's. */
  function CleanupContext(server: Config.ServerConfig, ctx: Option<RemoteContext>): RemoteContext {
    if ctx.Some? then ctx.value else MakeRemoteContext(server)
  }

  /** `_cleanup_tunnel`; the connection it opens is to the same host. */
  method CleanupTunnel(host: Host, server: Config.ServerConfig, id: string, app: string, ctx: Option<RemoteContext>)
    returns (r: Result<()>)
    modifies host
    ensures var o := Cleanup(host, old(host.files), old(host.log), id, app, CleanupContext(server, ctx));
      host.files == o.files && host.log == o.log && r == o.result
    ensures host.dirs == old(host.dirs)
  {
    var c := CleanupContext(server, ctx);
    RemoveTunnelCaddy(host, id, Some(c));
    ReleaseIgnoringErrors(host, app);
    r := UnregisterTunnel(host, id, Some(c));
  }

  /** `close_tunnel`: clean up the tunnel, whose port is held under its own id. */
  method CloseTunnel(host: Host, server: Config.ServerConfig, id: string) returns (r: Result<()>)
    modifies host
    ensures var o := Cleanup(host, old(host.files), old(host.log), id, id, MakeRemoteContext(server));
      host.files == o.files && host.log == o.log && r == o.result
    ensures host.dirs == old(host.dirs)
  {
    var ctx := MakeRemoteContext(server);
    r := CleanupTunnel(host, server, id, id, Some(ctx));
  }

  /** Step 1 of `open_tunnel`: allocate a port under the tunnel id, deploy the snippet, register the tunnel. */
  function Setup(host: Host, files: map<string, File>, log: seq<Action>, id: string, url: string, localPort: int,
                 now: string, ctx: RemoteContext): Outcome<int> {
    var allocation := AllocateStep(host, files, log, id);
    if allocation.result.Err? then allocation
    else
      var port := allocation.result.value;
      var caddy := DeployCaddyStep(host, allocation.files, allocation.log, id, url, port, Some(ctx));
      if caddy.result.Err? then Outcome(caddy.files, caddy.log, Err(caddy.result.error))
      else
        var register := RegisterStep(host, caddy.files, caddy.log, id, url, localPort, port, now, Some(ctx));
        Outcome(register.files, register.log, if register.result.Err? then Err(register.result.error) else Ok(port))
  }

  /** How the local `ssh -N -R` process ends: it exits, the user interrupts it, or there is no `ssh` to run. */
  datatype SshExit = Exited | Interrupted | SshMissing

  /**
   * `open_tunnel`: a failed setup raises without cleaning up; once set up, the tunnel is cleaned up
   * however ssh ends. A missing `ssh` raises RuntimeError unless the cleanup raises in its place.
   */
  function Open(host: Host, files: map<string, File>, log: seq<Action>, id: string, url: string, localPort: int,
                now: string, ctx: RemoteContext, exit: SshExit): Outcome<()> {
    var setup := Setup(host, files, log, id, url, localPort, now, ctx);
    if setup.result.Err? then Outcome(setup.files, setup.log, Err(setup.result.error))
    else
      var cleanup := Cleanup(host, setup.files, setup.log, id, id, ctx);
      Outcome(cleanup.files, cleanup.log,
              if cleanup.result.Err? then cleanup.result
              else if exit == SshMissing then Err(RuntimeError(SshNotFoundMessage))
              else Ok(()))
  }

  /** Step 1 of `open_tunnel`. */
  method SetUpTunnel(host: Host, id: string, url: string, localPort: int, now: string, ctx: RemoteContext)
    returns (r: Result<int>)
    modifies host
    ensures var o := Setup(host, old(host.files), old(host.log), id, url, localPort, now, ctx);
      host.files == o.files && host.log == o.log && r == o.result
    ensures host.dirs == old(host.dirs)
  {
    var port := Ports.AllocatePort(host, id);
    if port.Err? {
      return Err(port.error);
    }
    var caddy := DeployTunnelCaddy(host, id, url, port.value, Some(ctx));
    if caddy.Err? {
      return Err(caddy.error);
    }
    var registered := RegisterTunnel(host, id, url, localPort, port.value, now, Some(ctx));
    if registered.Err? {
      return Err(registered.error);
    }
    return Ok(port.value);
  }

  /**
   * `open_tunnel`, with the tunnel id, the clock, the way ssh ends and the `hcloud` lookup as
   * parameters. The address for ssh is resolved before anything touches the server, so a failed
   * lookup changes nothing; once the tunnel is set up, cleanup runs however ssh ends.
   */
  method OpenTunnel(host: Host, server: Config.ServerConfig, hcloud: Config.HcloudOutcome, localPort: int,
                    url: string, id: string, now: string, exit: SshExit)
    returns (r: Result<()>)
    modifies host
    ensures Config.ResolveHost(server, hcloud).Err? ==>
      r == Err(Config.ResolveHost(server, hcloud).error) && host.files == old(host.files) && host.log == old(host.log)
    ensures Config.ResolveHost(server, hcloud).Ok? ==>
      var o := Open(host, old(host.files), old(host.log), id, url, localPort, now, MakeRemoteContext(server), exit);
      host.files == o.files && host.log == o.log && r == o.result
    ensures host.dirs == old(host.dirs)
  {
    var ctx := MakeRemoteContext(server);
    var _ :- Config.ResolveHost(server, hcloud);
    var port := SetUpTunnel(host, id, url, localPort, now, ctx);
    if port.Err? {
      return Err(port.error);
    }
    var cleaned := CleanupTunnel(host, server, id, id, Some(ctx));
    if cleaned.Err? {
      return cleaned;
    }
    if exit == SshMissing {
      return Err(RuntimeError(SshNotFoundMessage));
    }
    return Ok(());
  }

  // ---------------------------------------------------------------------------------------
  // What cleanup leaves behind
  // ---------------------------------------------------------------------------------------

  /** After cleanup the tunnel's snippet is gone, unless its `rm -f` failed. */
  lemma CleanupRemovesSnippet(host: Host, files: map<string, File>, log: seq<Action>, id: string, app: string,
                              ctx: RemoteContext)
    requires RemoveFile(TunnelCaddyPath(id, Some(ctx))) !in host.failing
    ensures TunnelCaddyPath(id, Some(ctx)) !in Cleanup(host, files, log, id, app, ctx).files
  {
    TunnelPathsDistinct(id, Some(ctx), None);
    TunnelPathsDistinct(id, Some(ctx), Some(ctx));
  }

  /** Cleanup releases the port the app holds in the `ports.json` it finds, when that file can be written. */
  lemma CleanupReleasesPort(host: Host, files: map<string, File>, log: seq<Action>, id: string, app: string,
                            ctx: RemoteContext)
    requires PortsAt(files, PortsPath(None)).Ok?
    requires Ports.Released(PortsAt(files, PortsPath(None)).value, app).Ok?
    requires PortsPath(None) !in host.unwritable
    ensures PortsAt(Cleanup(host, files, log, id, app, ctx).files, PortsPath(None))
         == Ports.Released(PortsAt(files, PortsPath(None)).value, app)
  {
    TunnelPathsDistinct(id, Some(ctx), None);
    StatePathsDistinct(None, Some(ctx));
  }

  /**
   * Cleanup fails exactly when the registry has no `tunnels` table or cannot be written; otherwise
   * it leaves the registry it found without the tunnel.
   */
  lemma CleanupUnregisters(host: Host, files: map<string, File>, log: seq<Action>, id: string, app: string,
                           ctx: RemoteContext)
    ensures var o := Cleanup(host, files, log, id, app, ctx);
      var st := RegistryOf(files, Some(ctx));
      && (o.result.Ok? <==> st.tunnels.Some? && TunnelsStatePath(Some(ctx)) !in host.unwritable)
      && (o.result.Err? ==> o.result.error == (if st.tunnels.None? then KeyError(TunnelsKey) else WriteFailed(TunnelsStatePath(Some(ctx)))))
      && (o.result.Ok? ==> RegistryOf(o.files, Some(ctx)) == Unregistered(st, id).value)
  {
    TunnelPathsDistinct(id, Some(ctx), Some(ctx));
    StatePathsDistinct(None, Some(ctx));
    var removal := CaddyRemovalStep(host, files, log, id, Some(ctx));
    assert RegistryOf(removal.files, Some(ctx)) == RegistryOf(files, Some(ctx));
    var release := ReleaseStep(host, removal.files, removal.log, app);
    assert RegistryOf(release.files, Some(ctx)) == RegistryOf(files, Some(ctx));
  }

  /** The ports document and the registry after a successful setup, in terms of those before it. */
  lemma SetupOutcome(host: Host, files: map<string, File>, log: seq<Action>, id: string, url: string, localPort: int,
                     now: string, ctx: RemoteContext)
    requires Setup(host, files, log, id, url, localPort, now, ctx).result.Ok?
    ensures var o := Setup(host, files, log, id, url, localPort, now, ctx);
      && PortsAt(files, PortsPath(None)).Ok?
      && Ports.Allocated(PortsAt(files, PortsPath(None)).value, id).Ok?
      && var (q, port) := Ports.Allocated(PortsAt(files, PortsPath(None)).value, id).value;
      && o.result.value == port
      && PortsAt(o.files, PortsPath(None)) == Ok(q)
      && Registered(RegistryOf(files, Some(ctx)), id, TunnelRecord(url, localPort, port, now)).Ok?
      && RegistryOf(o.files, Some(ctx)) == Registered(RegistryOf(files, Some(ctx)), id, TunnelRecord(url, localPort, port, now)).value
      && o.files[TunnelCaddyPath(id, Some(ctx))] == CaddyFile(ProxyConfig(url, Some(port)))
  {
    TunnelPathsDistinct(id, Some(ctx), None);
    TunnelPathsDistinct(id, Some(ctx), Some(ctx));
    StatePathsDistinct(None, Some(ctx));
  }

  /**
   * Open, however ssh ends, gives back the registry and the port allocations it started from,
   * with the port counter advanced by one, and leaves no snippet when its removal succeeds: the
   * tunnel leaves nothing behind.
   */
  lemma OpenLeavesNothingBehind(host: Host, files: map<string, File>, log: seq<Action>, id: string, url: string,
                                localPort: int, now: string, ctx: RemoteContext, exit: SshExit)
    requires Setup(host, files, log, id, url, localPort, now, ctx).result.Ok?
    requires PortsAt(files, PortsPath(None)).Ok? && Ports.Bounded(PortsAt(files, PortsPath(None)).value)
    requires !HasKey(Entries(RegistryOf(files, Some(ctx))), id)
    requires TunnelsStatePath(Some(ctx)) !in host.unwritable
    ensures var o := Open(host, files, log, id, url, localPort, now, ctx, exit);
      var before := PortsAt(files, PortsPath(None)).value;
      && RegistryOf(o.files, Some(ctx)) == RegistryOf(files, Some(ctx))
      && PortsAt(o.files, PortsPath(None)) == Ok(PortsState(before.nextPort + 1, before.allocations))
      && (RemoveFile(TunnelCaddyPath(id, Some(ctx))) !in host.failing ==> TunnelCaddyPath(id, Some(ctx)) !in o.files)
      && (o.result.Ok? <==> exit != SshMissing)
  {
    var setup := Setup(host, files, log, id, url, localPort, now, ctx);
    SetupOutcome(host, files, log, id, url, localPort, now, ctx);
    var before := PortsAt(files, PortsPath(None)).value;
    var port := setup.result.value;
    var e := TunnelRecord(url, localPort, port, now);
    Ports.AllocateThenRelease(before, id);
    CleanupReleasesPort(host, setup.files, setup.log, id, id, ctx);
    RegisterThenUnregister(RegistryOf(files, Some(ctx)), id, e);
    CleanupUnregisters(host, setup.files, setup.log, id, id, ctx);
    if RemoveFile(TunnelCaddyPath(id, Some(ctx))) !in host.failing {
      CleanupRemovesSnippet(host, setup.files, setup.log, id, id, ctx);
    }
  }

  // ---------------------------------------------------------------------------------------
  // list_tunnels
  // ---------------------------------------------------------------------------------------

  /** What `list_tunnels` reports about one tunnel. */
  datatype TunnelInfo = TunnelInfo(tunnelId: string, url: string, localPort: int, remotePort: int, createdAt: string)

  /** `list_tunnels`: one record per registered tunnel, in registry order, with `""` and `0` for missing fields. */
  method ListTunnels(host: Host, ctx: Option<RemoteContext>) returns (infos: seq<TunnelInfo>)
    ensures var d := Entries(RegistryOf(host.files, ctx));
      && |infos| == |d|
      && (forall i | 0 <= i < |d| ::
            && infos[i].tunnelId == d[i].0
            && infos[i].url == d[i].1.url.GetOr("")
            && infos[i].localPort == d[i].1.localPort.GetOr(0)
            && infos[i].remotePort == d[i].1.remotePort.GetOr(0)
            && infos[i].createdAt == d[i].1.createdAt.GetOr(""))
      && (forall id :: HasKey(d, id) <==> exists i | 0 <= i < |infos| :: infos[i].tunnelId == id)
  {
    var st := ReadTunnelsState(host, ctx);
    var d := Entries(st);
    infos := [];
    var i := 0;
    while i < |d|
      invariant 0 <= i <= |d| && |infos| == i
      invariant forall j | 0 <= j < i ::
        && infos[j].tunnelId == d[j].0
        && infos[j].url == d[j].1.url.GetOr("")
        && infos[j].localPort == d[j].1.localPort.GetOr(0)
        && infos[j].remotePort == d[j].1.remotePort.GetOr(0)
        && infos[j].createdAt == d[j].1.createdAt.GetOr("")
    {
      var (tid, data) := d[i];
      infos := infos + [TunnelInfo(tid, data.url.GetOr(""), data.localPort.GetOr(0), data.remotePort.GetOr(0),
                                   data.createdAt.GetOr(""))];
      i := i + 1;
    }
    forall id ensures HasKey(d, id) <==> exists j | 0 <= j < |infos| :: infos[j].tunnelId == id {
      HasKeyAt(d, id);
    }
  }

  // ---------------------------------------------------------------------------------------
  // cleanup_stale_tunnels
  // ---------------------------------------------------------------------------------------

  /** A tunnel with a remote port whose probe fails or reports nothing listening. */
  predicate IsStale(host: Host, e: TunnelEntry) {
    e.remotePort.Some? &&
    var probe := PortProbe(e.remotePort.value);
    probe in host.failing || Contains(host.Out(probe), InactiveWord)
  }

  /** The ids of the stale tunnels among `s`, in order. */
  function StaleIds(host: Host, s: seq<(string, TunnelEntry)>): seq<string> {
    if s == [] then []
    else StaleIds(host, s[..|s| - 1]) + (if IsStale(host, s[|s| - 1].1) then [s[|s| - 1].0] else [])
  }

  /** A tunnel is reported exactly when it is registered and stale. */
  lemma {:induction false} StaleIdsExactly(host: Host, d: Dict<string, TunnelEntry>, id: string)
    ensures id in StaleIds(host, d) <==> HasKey(d, id) && IsStale(host, Get(d, id).value)
    decreases |d|
  {
    if d != [] {
      var n := |d|;
      var prefix := d[..n - 1];
      PrefixDistinct(d, n - 1);
      StaleIdsExactly(host, prefix, id);
      LastKeyUnique(d);
      assert d == prefix + [d[n - 1]];
      GetSnoc(prefix, d[n - 1], id);
    }
  }

  /** No tunnel is reported twice. */
  lemma {:induction false} StaleIdsDistinct(host: Host, d: Dict<string, TunnelEntry>)
    ensures forall i, j | 0 <= i < j < |StaleIds(host, d)| :: StaleIds(host, d)[i] != StaleIds(host, d)[j]
    decreases |d|
  {
    if d != [] {
      var n := |d|;
      PrefixDistinct(d, n - 1);
      StaleIdsDistinct(host, d[..n - 1]);
      LastKeyUnique(d);
      StaleIdsExactly(host, d[..n - 1], d[n - 1].0);
    }
  }

  /** `a` is `b` with some elements left out. */
  predicate IsSubsequence<T(==)>(a: seq<T>, b: seq<T>)
    decreases |b|
  {
    if a == [] then true
    else if b == [] then false
    else (a[|a| - 1] == b[|b| - 1] && IsSubsequence(a[..|a| - 1], b[..|b| - 1])) || IsSubsequence(a, b[..|b| - 1])
  }

  /** The keys of a sequence of entries with one more entry at the end. */
  lemma KeysSnoc(s: seq<(string, TunnelEntry)>)
    requires s != []
    ensures Keys(s) == Keys(s[..|s| - 1]) + [s[|s| - 1].0]
  {
    KeysAt(s);
    KeysAt(s[..|s| - 1]);
  }

  /** The reported tunnels come in registry order. */
  lemma {:induction false} StaleIdsInOrder(host: Host, s: seq<(string, TunnelEntry)>)
    ensures IsSubsequence(StaleIds(host, s), Keys(s))
    decreases |s|
  {
    if s != [] {
      var n := |s|;
      var prefix := s[..n - 1];
      StaleIdsInOrder(host, prefix);
      KeysSnoc(s);
      var ks := Keys(s);
      assert ks[..|ks| - 1] == Keys(prefix);
      assert ks[|ks| - 1] == s[n - 1].0;
      var r := StaleIds(host, s);
      if IsStale(host, s[n - 1].1) {
        assert r == StaleIds(host, prefix) + [s[n - 1].0];
        assert r[..|r| - 1] == StaleIds(host, prefix);
        assert r[|r| - 1] == ks[|ks| - 1];
      } else {
        assert r == StaleIds(host, prefix);
      }
    }
  }

  /** One iteration of `cleanup_stale_tunnels`: whether the tunnel was cleaned up. */
  function SweepEntry(host: Host, files: map<string, File>, log: seq<Action>, entry: (string, TunnelEntry),
                      ctx: RemoteContext): Outcome<bool> {
    var (tid, data) := entry;
    if data.remotePort.None? then Outcome(files, log, Ok(false))
    else
      var probe := PortProbe(data.remotePort.value);
      var probed := CommandResult(host, probe);
      if probed.Ok? && !Contains(probed.value, InactiveWord) then Outcome(files, log + [Ran(probe, false)], Ok(false))
      else
        var first := Cleanup(host, files, log + [Ran(probe, false)], tid, tid, ctx);
        if probed.Ok? && first.result.Err? && first.result.error.RuntimeError? then
          // A RuntimeError of the cleanup inside the `try` is caught, and the handler cleans up again.
          var second := Cleanup(host, first.files, first.log, tid, tid, ctx);
          Outcome(second.files, second.log, if second.result.Err? then Err(second.result.error) else Ok(true))
        else
          Outcome(first.files, first.log, if first.result.Err? then Err(first.result.error) else Ok(true))
  }

  /** An iteration that completes reports the tunnel exactly when it is stale. */
  lemma SweepEntryReportsStale(host: Host, files: map<string, File>, log: seq<Action>, entry: (string, TunnelEntry),
                               ctx: RemoteContext)
    requires SweepEntry(host, files, log, entry, ctx).result.Ok?
    ensures SweepEntry(host, files, log, entry, ctx).result.value == IsStale(host, entry.1)
  {
  }

  /** `cleanup_stale_tunnels` over the entries `s`, stopping at the first error. */
  function Sweep(host: Host, files: map<string, File>, log: seq<Action>, s: seq<(string, TunnelEntry)>,
                 ctx: RemoteContext): Outcome<seq<string>>
  {
    if s == [] then Outcome(files, log, Ok([]))
    else
      var o := Sweep(host, files, log, s[..|s| - 1], ctx);
      if o.result.Err? then o
      else
        var e := SweepEntry(host, o.files, o.log, s[|s| - 1], ctx);
        Outcome(e.files, e.log,
                if e.result.Err? then Err(e.result.error)
                else if e.result.value then Ok(o.result.value + [s[|s| - 1].0]) else o.result)
  }

  /** A sweep that completes reports exactly the stale tunnels, in order. */
  lemma {:induction false} SweepReportsStale(host: Host, files: map<string, File>, log: seq<Action>,
                                             s: seq<(string, TunnelEntry)>, ctx: RemoteContext)
    requires Sweep(host, files, log, s, ctx).result.Ok?
    ensures Sweep(host, files, log, s, ctx).result.value == StaleIds(host, s)
    decreases |s|
  {
    if s != [] {
      var o := Sweep(host, files, log, s[..|s| - 1], ctx);
      SweepReportsStale(host, files, log, s[..|s| - 1], ctx);
      SweepEntryReportsStale(host, o.files, o.log, s[|s| - 1], ctx);
    }
  }

  /** Once the sweep has failed, the remaining entries are not visited. */
  lemma {:induction false} SweepStopsAtError(host: Host, files: map<string, File>, log: seq<Action>,
                                             s: seq<(string, TunnelEntry)>, k: nat, ctx: RemoteContext)
    requires k <= |s|
    requires Sweep(host, files, log, s[..k], ctx).result.Err?
    ensures Sweep(host, files, log, s, ctx) == Sweep(host, files, log, s[..k], ctx)
    decreases |s| - k
  {
    if k < |s| {
      var p := s[..|s| - 1];
      assert p[..k] == s[..k];
      SweepStopsAtError(host, files, log, p, k, ctx);
    } else {
      assert s[..k] == s;
    }
  }

  /** One more entry: the sweep so far, then the iteration on that entry. */
  lemma SweepExtends(host: Host, files: map<string, File>, log: seq<Action>, s: seq<(string, TunnelEntry)>, i: nat,
                     ctx: RemoteContext)
    requires i < |s| && Sweep(host, files, log, s[..i], ctx).result.Ok?
    ensures var o := Sweep(host, files, log, s[..i], ctx);
      var e := SweepEntry(host, o.files, o.log, s[i], ctx);
      Sweep(host, files, log, s[..i + 1], ctx)
        == Outcome(e.files, e.log,
                   if e.result.Err? then Err(e.result.error)
                   else if e.result.value then Ok(o.result.value + [s[i].0]) else o.result)
  {
    assert s[..i + 1][..i] == s[..i];
  }

  /** One iteration of `cleanup_stale_tunnels`. */
  method SweepTunnel(host: Host, server: Config.ServerConfig, entry: (string, TunnelEntry)) returns (r: Result<bool>)
    modifies host
    ensures var o := SweepEntry(host, old(host.files), old(host.log), entry, MakeRemoteContext(server));
      host.files == o.files && host.log == o.log && r == o.result
    ensures host.dirs == old(host.dirs)
  {
    var (tid, data) := entry;
    if data.remotePort.None? {
      return Ok(false);
    }
    var probed := RunRemoteCommand(host, PortProbe(data.remotePort.value));
    if probed.Ok? && !Contains(probed.value, InactiveWord) {
      return Ok(false);
    }
    var closed := CloseTunnel(host, server, tid);
    if probed.Ok? && closed.Err? && closed.error.RuntimeError? {
      closed := CloseTunnel(host, server, tid);
    }
    if closed.Err? {
      return Err(closed.error);
    }
    return Ok(true);
  }

  /**
   * `cleanup_stale_tunnels`: probe the remote port of every tunnel registered when it starts and
   * close those that nothing listens on; the ids of the closed tunnels.
   */
  method CleanupStaleTunnels(host: Host, server: Config.ServerConfig) returns (r: Result<seq<string>>)
    modifies host
    ensures var ctx := MakeRemoteContext(server);
      var o := Sweep(host, old(host.files), old(host.log), Entries(RegistryOf(old(host.files), Some(ctx))), ctx);
      host.files == o.files && host.log == o.log && r == o.result
    ensures host.dirs == old(host.dirs)
  {
    var ctx := MakeRemoteContext(server);
    var st := ReadTunnelsState(host, Some(ctx));
    var entries := Entries(st);
    ghost var files0, log0 := host.files, host.log;
    var cleaned := [];
    var i := 0;
    while i < |entries|
      invariant 0 <= i <= |entries|
      invariant var o := Sweep(host, files0, log0, entries[..i], ctx);
        host.files == o.files && host.log == o.log && o.result == Ok(cleaned)
      invariant host.dirs == old(host.dirs)
    {
      var swept := SweepTunnel(host, server, entries[i]);
      SweepExtends(host, files0, log0, entries, i, ctx);
      if swept.Err? {
        SweepStopsAtError(host, files0, log0, entries, i + 1, ctx);
        return Err(swept.error);
      }
      if swept.value {
        cleaned := cleaned + [entries[i].0];
      }
      i := i + 1;
    }
    assert entries[..i] == entries;
    return Ok(cleaned);
  }
}
