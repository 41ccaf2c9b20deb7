# appgarden, modelled in Dafny

appgarden deploys web apps to a server it reaches over SSH. Each app is served behind Caddy, either on its own subdomain or under a path of a shared domain, and most apps run as systemd services. This project models the core of the deployment tool and proves properties of that model:

- the local configuration of servers (`config.toml`);
- the remote layer: paths, sudo, file transfer and running commands;
- the port registry (`ports.json`);
- Caddy routing;
- static and auto-detected Docker deployments;
- the app commands (list, status, stop/start/restart, logs, remove, redeploy);
- project environments (`appgarden.toml`);
- reverse SSH tunnels.

## How the model is built

- **Values:** a parsed TOML or JSON value is `Values.Value`. Any Python dict whose iteration order matters is a `Dict.Dict`, an ordered association list with distinct keys. `Set` keeps an existing key in its place and appends a new one; `Remove` drops a key.
- **The server:** modelled as the class `Remote.Host`.
  - It has three mutable fields: `files` (path to the document or text stored there), `dirs` (app directories and their top-level entries) and `log` (every command run, with its sudo flag, and every file written).
  - It has constant fields that fix in advance how the outside world answers: which commands fail, what they print, which paths cannot be written, and which uploads fail.
  - Every remote operation is a `method` with `modifies host`. Its `ensures` state the new `files`, `dirs` and `log`, and the result or the raised error.
- **JSON:** `json.dumps`/`json.loads` are taken to store the parsed document itself, as the datatypes of `State`. A file holding a document of another kind plays the part of a JSONDecodeError. That error is a ValueError, which matters where the source catches ValueError.
- **Errors:** an exception is a `Wrappers.Result` error carrying its Python class and message.
- **Specifications:** where the source computes a value with a loop, the method is proved equal to a recursive specification function. The properties are then lemmas about that function. Examples: `Config.LoadConfig` against `LoadedConfig`, `Ports.AllocateInState` against `Allocated`, `Routing.CollectSubdirectoryApps` against `SubdirectoryApps`, and `Environments.Deduplicated` against `Unique`.
- **Central properties:**
  - saving a configuration and loading it back gives the same configuration (`Config.SaveLoadRoundTrip`);
  - the port bound invariant holds, and a released port is not handed out again (`Ports.OperationsKeepBounded`, `Ports.ReleasedPortNotReused`);
  - a merged subdirectory Caddy file lists each app exactly once (`Routing.SubdirectoryDeployListsAppOnce`, `Routing.SubdirectoryRemovalListsOthers`);
  - an opened tunnel leaves nothing behind (`Tunnel.OpenLeavesNothingBehind`);
  - resolving an environment gives the layered configuration: overrides, unions, deduplicated lists and placeholder substitution (`Environments.ResolveEnvironment`).
- **Where the code and its documentation disagree:**
  - `_allocate_port` raises ValueError when the app already holds a port, although the tests expect idempotence. The model follows the code.
  - `_domain_caddy_file_path` is not injective: `a.b` and `a_b` share one merged file. That file is also the subdomain file of an app named `_subdir_<domain with _>` (`Routing.DomainFilesCanCoincide`).
  - When `close_tunnel` raises a RuntimeError inside the `try` of `cleanup_stale_tunnels`, the handler closes the tunnel a second time. The model does the same.

## Model

| member | source | states |
|---|---|---|
| Config.GetServer | pts/appgarden/00_config.pct.py:184-195 | the named server, else the default server; ValueError when neither is given, and ValueError naming the server when it is not registered; Ok exactly when the chosen name is registered; the result is that name and its entry |
| Config.GetServerFindsRegistered | pts/appgarden/00_config.pct.py:184-195 | every registered server is found by its own name, and passing no name is the same as passing the default server's name |
| Config.ResolveHost | pts/appgarden/00_config.pct.py:152-180 | a non-empty `host` wins; with neither host nor both hcloud fields, ValueError; otherwise the stripped stdout of the hcloud lookup, a ValueError naming the server and carrying the stripped stderr (or "unknown error") when it fails, or ValueError when the CLI is missing |
| Config.ParseInit | pts/appgarden/00_config.pct.py:100-101 | an absent or falsy `init` gives the default InitConfig; an accepted truthy one is a table holding exactly the `skip` key, and the InitConfig's `skip` is the list stored there |
| Config.UnknownKeys | pts/appgarden/00_config.pct.py:103-108 | sorted, and holds exactly the keys of the server table that are not ServerConfig fields |
| Config.UnknownNone | pts/appgarden/00_config.pct.py:103-108 | a table whose every key is a ServerConfig field has no unknown keys |
| Config.RequiredStr | pts/appgarden/00_config.pct.py:109 | a required field is present exactly when the model accepts it as a string (a missing one is the TypeError of a missing argument), and the result is that string |
| Config.OptionalStr | pts/appgarden/00_config.pct.py:109 | an absent optional field is None; a present string is read as given; the model rejects a present non-string value |
| Config.ParseServer | pts/appgarden/00_config.pct.py:97-109 | a server table with unknown keys is rejected with a ValueError that names the server and lists those keys; an accepted table has no unknown keys and its three required strings are the server's fields |
| Config.ParseServers | pts/appgarden/00_config.pct.py:97-109 | a successful parse has exactly the server names of the `servers` table |
| Config.ParseServersFirstError | pts/appgarden/00_config.pct.py:97-109 | the first server table that fails to parse decides the error of the whole load |
| Config.LoadedConfig | pts/appgarden/00_config.pct.py:86-115 | a missing file gives the empty configuration; a loaded one has exactly the server names of the file's `servers` table |
| Config.LoadConfig | pts/appgarden/00_config.pct.py:86-115 | the loop over the `[servers.*]` tables computes the LoadedConfig specification |
| Config.SetIfPresent | pts/appgarden/00_config.pct.py:131-141 | only the given key changes, and only when the field is not None |
| Config.StrArray | pts/appgarden/00_config.pct.py:131-141 | a TOML array of the same length holding the strings in order |
| Config.ServerTables | pts/appgarden/00_config.pct.py:131-141 | the saved `servers` table has exactly the configured server names |
| Config.SavedDocumentKeys | pts/appgarden/00_config.pct.py:119-145 | `default_server`, `defaults` and `servers` are each written exactly when they have content |
| Config.SavedDocumentGet | pts/appgarden/00_config.pct.py:119-145 | what the saved document holds under each top-level key |
| Config.SaveServers | pts/appgarden/00_config.pct.py:131-141 | the save loop over the servers builds the ServerTables specification |
| Config.SaveConfig | pts/appgarden/00_config.pct.py:119-145 | builds the SavedDocument specification, the document given to the TOML writer |
| Config.ServerTableGet | pts/appgarden/00_config.pct.py:131-141 | a saved server table holds the non-None fields, plus `init` exactly when `skip` is non-empty |
| Config.SavedInitRoundTrip | pts/appgarden/00_config.pct.py:100-101 | the saved `init` sub-table, or its absence, parses back to the same InitConfig |
| Config.SavedKeysValid | pts/appgarden/00_config.pct.py:103-108 | a saved server table never trips the unknown-key check |
| Config.SavedFields | pts/appgarden/00_config.pct.py:109 | once `init` is popped, a saved server table holds each field as saved |
| Config.ServerRoundTrip | pts/appgarden/00_config.pct.py:97-141 | a saved server table parses back to the same ServerConfig |
| Config.ParseServersSnoc | pts/appgarden/00_config.pct.py:97-109 | one more table at the end of `servers` adds its parsed server under its name |
| Config.ServersRoundTrip | pts/appgarden/00_config.pct.py:97-141 | loading the saved `servers` table gives back the same servers, in the same order |
| Config.SaveLoadRoundTrip | pts/appgarden/00_config.pct.py:86-145 | saving a configuration and then loading it gives back the same configuration |
| Remote.MakeRemoteContext | pts/appgarden/01_remote.pct.py:59-64 | the app root is the server's `app_root` when given and `/srv/appgarden` otherwise; sudo is needed exactly when the SSH user is not `root` |
| Remote.StatePathsDistinct | pts/appgarden/01_remote.pct.py:73-98 | `garden.json`, `ports.json` and `tunnels/active.json` are three different files, under any two app roots |
| Remote.AppDirInjective | pts/appgarden/01_remote.pct.py:89-94 | different apps get different app directories and different source directories |
| Remote.SudoKwargs | pts/appgarden/01_remote.pct.py:109-113 | `{"_sudo": True}` exactly when a context is given that needs sudo, and `{}` otherwise |
| Remote.FilesAfter | pts/appgarden/06_apps.pct.py:230-236 | a successful command never adds or rewrites a file; `rm -f` deletes its path, `rm -rf` and `rm -rf … && git clone` delete every file at or under their directory, the `find … ! -name data` prune deletes every file under the app directory except what is under `data`, and other commands change no file |
| Remote.Host.constructor | pts/appgarden/01_remote.pct.py:225-234 | a host with the given files, app directories, failing commands, outputs and unwritable paths, and an empty log |
| Remote.Host.RunShell | pts/appgarden/01_remote.pct.py:225-234 | a command succeeds exactly when it is not a failing one, returns its stdout and stderr, and is logged with its sudo flag; only a successful command changes the host, and then the files as FilesAfter says and the directories as the command does |
| Remote.Host.GetFile | pts/appgarden/01_remote.pct.py:204-211 | the file at the path, or nothing when there is none |
| Remote.Host.PutFile | pts/appgarden/01_remote.pct.py:215-221 | the file is stored exactly when the path is writable; the write is logged and nothing else changes |
| Remote.Host.Rsync | pts/appgarden/01_remote.pct.py:277-293 | the upload succeeds exactly when its destination does not fail; it is logged and leaves the host's tracked files unchanged |
| Remote.Run | pts/appgarden/01_remote.pct.py:117-127 | the command's stdout, or a RuntimeError quoting the command and its stderr; Ok exactly when the command does not fail; the run is logged and its effect applied only on success |
| Remote.RunRemoteCommand | pts/appgarden/01_remote.pct.py:225-234 | as `Run`, without sudo |
| Remote.RunSudoCommand | pts/appgarden/01_remote.pct.py:117-127 | as `Run`, under sudo exactly when the context's keyword arguments ask for it |
| Remote.ReadRemoteFile | pts/appgarden/01_remote.pct.py:204-211 | the stored file, or a RuntimeError naming the path when there is none |
| Remote.WriteRemoteFile | pts/appgarden/01_remote.pct.py:215-221 | the file is stored exactly when the path is writable, otherwise a RuntimeError naming the path; no other file changes |
| Remote.GardenAt | pts/appgarden/01_remote.pct.py:241-244 | the garden document at a path: Ok exactly when a garden document is stored there, RuntimeError when nothing is |
| Remote.PortsAt | pts/appgarden/01_remote.pct.py:258-261 | the same for the ports document |
| Remote.TunnelsAt | pts/appgarden/09_tunnel.pct.py:72-79 | the same for the tunnels document |
| Remote.ReadGardenState | pts/appgarden/01_remote.pct.py:241-244 | reads the garden document at the context's `garden.json` |
| Remote.WriteGardenState | pts/appgarden/01_remote.pct.py:248-251 | stores the garden document at the context's `garden.json` exactly when it is writable, otherwise RuntimeError; nothing else changes |
| Remote.ReadPortsState | pts/appgarden/01_remote.pct.py:258-261 | reads the ports document at the context's `ports.json` |
| Remote.WritePortsState | pts/appgarden/01_remote.pct.py:265-268 | stores the ports document at the context's `ports.json` exactly when it is writable, otherwise RuntimeError; nothing else changes |
| Remote.GardenWriteRead | pts/appgarden/01_remote.pct.py:241-251 | a garden document that was written reads back unchanged |
| Remote.PortsWriteRead | pts/appgarden/01_remote.pct.py:258-268 | a ports document that was written reads back unchanged, and writing it leaves the garden document as it was |
| Remote.WithTrailingSlash | pts/appgarden/01_remote.pct.py:283-285 | the local path with `/` appended unless it already ends in one |
| Remote.UploadDirectory | pts/appgarden/01_remote.pct.py:277-293 | the server's address is resolved first, and a failed lookup raises its ValueError with nothing run; otherwise the local directory is rsynced with a trailing `/`, CalledProcessError exactly when the upload fails; no tracked file changes |
| Remote.SharedFilesOutsideAppDir | pts/appgarden/01_remote.pct.py:73-98 | `garden.json`, `ports.json`, `tunnels/active.json` and the Caddy files lie outside every app directory under the same root |
| Remote.SourceWithinAppDir | pts/appgarden/05_deploy.pct.py:63-71 | everything in an app's source directory is in its app directory |
| Ports.EmptyPortsState | pts/appgarden/02_ports.pct.py:50-52 | the counter starts at 10000 with no allocations, and the empty document satisfies the bound invariant (every allocated port below the counter) |
| Ports.OwnedPort | pts/appgarden/02_ports.pct.py:63-65 | nothing exactly when no allocation belongs to the app; otherwise a port that the app holds |
| Ports.OwnedPortGet | pts/appgarden/02_ports.pct.py:136-142 | the found port maps to the app in the allocations |
| Ports.AllocateInState | pts/appgarden/02_ports.pct.py:56-70 | the scan-then-take loop of `_allocate_port` computes the Allocated specification |
| Ports.AllocateFresh | pts/appgarden/02_ports.pct.py:67-70 | an app without a port gets the counter, the counter goes up by one, no other allocation changes, and the app then owns that port |
| Ports.OwnedPortAfterSet | pts/appgarden/02_ports.pct.py:68 | assigning a port to an app that held none makes it the port the app owns |
| Ports.AllocateHeld | pts/appgarden/02_ports.pct.py:63-65 | an app that already holds a port is refused with a ValueError naming that port |
| Ports.ReleaseInState | pts/appgarden/02_ports.pct.py:74-84 | the loop of `_release_port` computes the Released specification |
| Ports.ReleaseHeld | pts/appgarden/02_ports.pct.py:80-83 | releasing deletes exactly the app's port, keeps every other allocation, and leaves the counter alone |
| Ports.ReleaseUnheld | pts/appgarden/02_ports.pct.py:84 | releasing for an app that holds no port raises the ValueError naming the app, and no new document is produced |
| Ports.ReleasedPortNotReused | pts/appgarden/02_ports.pct.py:67-84 | under the bound invariant, a released port is not the one the next allocation hands out |
| Ports.Registered | pts/appgarden/02_ports.pct.py:88-102 | a port in use is refused with a ValueError naming its owner; otherwise it is mapped to the app, nothing else changes, and the counter moves past it when needed |
| Ports.OperationsKeepBounded | pts/appgarden/02_ports.pct.py:56-102 | allocate, release and register keep every allocated port below the counter; allocation advances the counter, release keeps it, registration never lowers it |
| Ports.AllocatePort | pts/appgarden/02_ports.pct.py:111-116 | a failed read or a refused allocation leaves the host unchanged; otherwise `ports.json` is written with the allocated document and the port is returned, or the write error is raised |
| Ports.ReleasePort | pts/appgarden/02_ports.pct.py:120-124 | the same read-change-write outcome for `_release_port` |
| Ports.RegisterPort | pts/appgarden/02_ports.pct.py:128-132 | the same read-change-write outcome for `_register_port` |
| Ports.GetAppPort | pts/appgarden/02_ports.pct.py:136-142 | the read error, or the first port the app holds, or None |
| Ports.AllocateThenRelease | pts/appgarden/02_ports.pct.py:56-84 | allocating and then releasing an app's port restores the allocations; only the counter has moved on |
| Ports.AllocateThenGet | pts/appgarden/02_ports.pct.py:56-70 | after a successful allocation, `get_app_port` finds the allocated port |
| Routing.SchemeOf | pts/appgarden/03_routing.pct.py:67-70 | the removed prefix is `https://`, `http://` or nothing, and the URL starts with it |
| Routing.NormalizedShape | pts/appgarden/03_routing.pct.py:66-73 | stripping drops only `/` characters from the end of the scheme-less URL and leaves none there |
| Routing.SplitAtSlashShape | pts/appgarden/03_routing.pct.py:75-78 | with no `/` the whole string is the domain; otherwise the domain has no `/`, the two parts rejoin with `/` to the input, and the path is non-empty and does not end in `/` |
| Routing.ParseUrlSplits | pts/appgarden/03_routing.pct.py:58-78 | `parse_url` gives `(domain, None)` exactly when the normalized URL has no `/`; otherwise a domain without `/` and a non-empty path without trailing `/` that rejoin to the normalized URL |
| Routing.GenerateCaddyConfig | pts/appgarden/03_routing.pct.py:87-123 | the merged subdirectory template exactly when apps or a path are given (a lone path becomes a one-app list), the static template for a static app on a subdomain, the proxy template otherwise; each carries the domain and its own parameters |
| Routing.CaddyFilePathInjective | pts/appgarden/03_routing.pct.py:134-136 | different apps get different subdomain Caddy files |
| Routing.ReplaceCharRemoves | pts/appgarden/03_routing.pct.py:142 | replacing a character by a different one leaves no occurrence of it |
| Routing.SafeDomainHasNoDots | pts/appgarden/03_routing.pct.py:140-143 | the merged file's name keeps no `.` from the domain |
| Routing.DomainFilesCanCoincide | pts/appgarden/03_routing.pct.py:134-143 | the merged file of a domain is also the subdomain file of the app named `_subdir_<safe domain>`, and `a.b` and `a_b` share one merged file |
| Routing.CaddyPathsAreNotStatePaths | pts/appgarden/03_routing.pct.py:134-143 | no Caddy file is one of the JSON state documents |
| Routing.CollectStep | pts/appgarden/03_routing.pct.py:150-160 | one more registry entry scanned extends the collected prefix by that entry's route |
| Routing.EntryRoutesParsed | pts/appgarden/03_routing.pct.py:151-160 | an entry contributes its route exactly when its URL parses to this domain with a path |
| Routing.EntryRoutesNamed | pts/appgarden/03_routing.pct.py:151-160 | how many routes an entry contributes under a name, and which one is found |
| Routing.CollectSubdirectoryApps | pts/appgarden/03_routing.pct.py:147-161 | the loop over the registry computes the SubdirectoryApps specification, in registry order |
| Routing.FindRoute | pts/appgarden/03_routing.pct.py:187 | nothing exactly when no route carries the name; otherwise a listed route with that name |
| Routing.SubdirectoryAppsExactly | pts/appgarden/03_routing.pct.py:147-161 | every registered app is collected at most once: exactly once, with its registry fields, when it is a subdirectory app on the domain |
| Routing.CountAppend | pts/appgarden/03_routing.pct.py:187-194 | counting by name distributes over concatenation |
| Routing.FindAppend | pts/appgarden/03_routing.pct.py:187-194 | a name is looked up in the first part before the second |
| Routing.WithoutApp | pts/appgarden/03_routing.pct.py:233-234 | the filtered list holds no route of the removed app, every other route as before, and the same count for every other name |
| Routing.SubdomainDeploy | pts/appgarden/03_routing.pct.py:198-204 | a subdomain app's own file gets the single-app template |
| Routing.SubdirectoryDeployListsAppOnce | pts/appgarden/03_routing.pct.py:180-197 | the domain's merged file lists the deploying app exactly once (its registry entry when already present, the given parameters otherwise) and every other app as collected |
| Routing.SubdomainRemoval | pts/appgarden/03_routing.pct.py:241-245 | removing a subdomain app deletes its own file |
| Routing.SubdirectoryRemovalListsOthers | pts/appgarden/03_routing.pct.py:229-240 | the regenerated merged file lists every other subdirectory app of the domain once and the removed one not at all |
| Routing.SubdirectoryRemovalDeletesWhenAlone | pts/appgarden/03_routing.pct.py:237-240 | the merged file is deleted exactly when the removed app is the only one collected on the domain |
| Routing.AppliedOutcome | pts/appgarden/03_routing.pct.py:206-207 | after a write or delete and a Caddy reload, success means the change was made and both steps were logged; a failure leaves the files either as before or changed |
| Routing.ApplyChange | pts/appgarden/03_routing.pct.py:206-207 | writes or deletes the file, then reloads Caddy; a failed change raises and skips the reload |
| Routing.DeployCaddyConfig | pts/appgarden/03_routing.pct.py:165-207 | a subdirectory app whose garden document cannot be read raises with nothing changed; otherwise the change is the merged-file rewrite for a path and the app's own file otherwise, then the reload |
| Routing.RemoveCaddyConfig | pts/appgarden/03_routing.pct.py:216-247 | the same for removal: the merged-file rewrite or delete for a path, the app's own file deleted otherwise, then the reload |
| Deploy.LocalPathsAreNotGit | pts/appgarden/05_deploy.pct.py:48-56 | an absolute or relative local path is not taken for a git URL unless it ends in `.git` |
| Deploy.DefaultDirsAgree | pts/appgarden/05_deploy.pct.py:63-71 | `_app_dir` and `_source_dir` are the remote path builders without a context, and the source directory is `<app dir>/source` |
| Deploy.UnitNameInjective | pts/appgarden/06_apps.pct.py:201-211 | different apps get different systemd units |
| Deploy.UploadKeepsOutside | pts/appgarden/05_deploy.pct.py:75-99 | an upload leaves every file outside the app's directory as it was |
| Deploy.CloneClearsSource | pts/appgarden/05_deploy.pct.py:88-95 | after a git upload no file that was in the source directory is left |
| Deploy.UploadSource | pts/appgarden/05_deploy.pct.py:75-99 | a failing `mkdir -p` raises before anything else; a git URL is cloned fresh (with `-b` for a given branch), after deleting the old source directory; a local path is rsynced once the address resolves, and a failed lookup raises its ValueError after the `mkdir`; "git" exactly for a git URL and "local" otherwise; Ok exactly when every step succeeds |
| Deploy.StaticEntryShape | pts/appgarden/05_deploy.pct.py:141-154 | the static record says "static", routes by subdirectory exactly when the normalized URL has a `/`, uses one timestamp for creation and update, and records a branch only when a non-empty one is given |
| Deploy.WithApp | pts/appgarden/05_deploy.pct.py:156 | storing the record needs an `apps` table (KeyError otherwise), sets the app's record and leaves every other app's record as it was |
| Deploy.StaticRoutingServesSource | pts/appgarden/05_deploy.pct.py:134-138 | a static deployment serves the app's source directory: its own file with the static template on a subdomain, the domain's merged file for a path |
| Deploy.RegisterApp | pts/appgarden/05_deploy.pct.py:156-161 | with no `apps` table, KeyError before anything is written; on success the registry holds the record and `app.json` holds its copy, written in that order |
| Deploy.RouteAndRegister | pts/appgarden/05_deploy.pct.py:134-161 | on success the Caddy change, the reload, the registry write and the `app.json` write happen in that order with those contents; with no `apps` table the stored registry is left as it was |
| Deploy.DeployStatic | pts/appgarden/05_deploy.pct.py:109-163 | success needs the upload to succeed and a readable registry with an `apps` table; the host then carries the uploaded source, the static Caddy config, the registry with the static record and `app.json`, in that order; a failed upload changes no file; an unreadable registry leaves only the upload's effect; a registry without `apps` is not overwritten |
| Apps.AppInfos | pts/appgarden/06_apps.pct.py:58-70 | one listing line per registry record, in registry order, with the defaults `"unknown"` and `""` for missing fields |
| Apps.ListingNamesApps | pts/appgarden/06_apps.pct.py:58-70 | every registered app is listed, nothing else is, and no name is listed twice |
| Apps.ListApps | pts/appgarden/06_apps.pct.py:58-70 | the listing of the registry read from the server, or the read error |
| Apps.StatusIsTrimmed | pts/appgarden/06_apps.pct.py:76-85 | a reported status never has surrounding whitespace, and a failed probe of a service reads "inactive" |
| Apps.ProbeStatus | pts/appgarden/06_apps.pct.py:76-85 | "serving" for a static site with no command run; otherwise `systemctl is-active` of the app's unit is run once, and files stay unchanged |
| Apps.WithStatuses | pts/appgarden/06_apps.pct.py:74-86 | the same listing with each line's status filled in |
| Apps.ProbesAreServices | pts/appgarden/06_apps.pct.py:76-85 | every command a listing runs is the `is-active` probe of a listed service, and a listing of static sites runs none |
| Apps.ProbeAll | pts/appgarden/06_apps.pct.py:76-86 | the loop fills in every status and runs the probes in listing order |
| Apps.ListAppsWithStatus | pts/appgarden/06_apps.pct.py:74-86 | the read error with no command run, or the listing with statuses after one probe per service; no file changes |
| Apps.StatusAgreesWithListing | pts/appgarden/06_apps.pct.py:74-141 | the detailed status of a listed app agrees with its line in the listing with statuses |
| Apps.GetAppStatus | pts/appgarden/06_apps.pct.py:109-141 | ValueError for an app the registry does not hold, with no command run; otherwise the detailed status after one probe |
| Apps.ControlService | pts/appgarden/06_apps.pct.py:146-165 | runs `systemctl <action>` on the app's unit once, under sudo as the context asks; succeeds exactly when that command does |
| Apps.StopApp | pts/appgarden/06_apps.pct.py:146-151 | runs `systemctl stop` on the app's unit once; succeeds exactly when that command does |
| Apps.StartApp | pts/appgarden/06_apps.pct.py:153-158 | runs `systemctl start` on the app's unit once; succeeds exactly when that command does |
| Apps.RestartApp | pts/appgarden/06_apps.pct.py:160-165 | runs `systemctl restart` on the app's unit once; succeeds exactly when that command does |
| Apps.AppLogs | pts/appgarden/06_apps.pct.py:170-181 | the output of `journalctl -u <unit> --no-pager -n <lines>`, or its error |
| Apps.UnitPathIsNotOther | pts/appgarden/06_apps.pct.py:211-223 | the unit file is none of the documents or Caddy files that `remove_app` writes afterwards |
| Apps.RemoveService | pts/appgarden/06_apps.pct.py:200-212 | stop and disable run with their failures ignored; the unit file is deleted, and systemd reloaded only when that succeeded; the first failure of those two is raised |
| Apps.ReleaseQuietly | pts/appgarden/06_apps.pct.py:219-223 | succeeds exactly when `ports.json` is unreadable with a ValueError, the app holds no port, or the file is writable; a held port is then released in `ports.json` and its write logged, otherwise nothing changes; an error still raised is not a ValueError; only `ports.json` can change |
| Apps.RemoveServiceIfAny | pts/appgarden/06_apps.pct.py:200-212 | only a non-static app has its service removed; it succeeds exactly when the `rm -f` and the `daemon-reload` do, and then the unit file is the only file deleted and the four commands are logged |
| Apps.UnrouteApp | pts/appgarden/06_apps.pct.py:214-216 | the Caddy removal computed from the registry read at the start: succeeds exactly when the change and the reload do, and then applies that change and logs it and the reload |
| Apps.ReleaseIfHeld | pts/appgarden/06_apps.pct.py:218-223 | only a record with a port has it released; otherwise nothing runs and nothing changes |
| Apps.RemoveResources | pts/appgarden/06_apps.pct.py:200-223 | succeeds exactly when the unit's `rm -f` and `daemon-reload` (for a service), the Caddy change and its reload, and the quiet release succeed; the files are then those with the unit deleted, the Caddy change computed from the registry read at the start applied, and the port released when the record has one; the log is the service commands, the Caddy change and reload, and the `ports.json` write |
| Apps.RemoveAppFiles | pts/appgarden/06_apps.pct.py:230-236 | runs `rm -rf` of the app directory, or with `keep_data` the prune that spares `data`, once and without sudo; on success the files under it are gone as FilesAfter says, and only its directory entry changes |
| Apps.CleanupKeepsOutside | pts/appgarden/06_apps.pct.py:230-236 | the cleanup never touches a file outside the app directory |
| Apps.ResourcesRemovedFiles | pts/appgarden/06_apps.pct.py:200-223 | after steps 1 to 3 the unit file of a service is gone, a subdomain app's own Caddy file is gone, the domain's merged file is rewritten without the app or deleted when it was the last, and `ports.json` has the port released, or is as it was when the record has no port |
| Apps.UnroutedFiles | pts/appgarden/06_apps.pct.py:199-216 | after steps 1 and 2 the unit file of a service is gone, a subdomain app's own Caddy file is gone, the domain's merged file is rewritten or deleted as the removal computes, and `ports.json` is as it was |
| Apps.ResourcesRemovedPorts | pts/appgarden/06_apps.pct.py:218-223 | after steps 1 to 3 `ports.json` holds the document with the app's port released, or is as it was when the record has no port |
| Apps.RemoveApp | pts/appgarden/06_apps.pct.py:188-236 | read errors and an unknown app change nothing; otherwise success exactly when steps 1 to 3, the registry write and the cleanup succeed, and then the files are AppRemoved and the log is the removal log, the registry write and the cleanup |
| Apps.AppRemovedOutcome | pts/appgarden/06_apps.pct.py:188-236 | what a successful removal leaves: no unit file for a service, no own Caddy file for a subdomain app, the registry without the app, nothing in the app directory (or nothing outside `data` with `keep_data`); outside the app directory, the merged file the removal computes and `ports.json` with the port released or as it was |
| Apps.AppRemovedMergedFile | pts/appgarden/06_apps.pct.py:188-236 | when the domain's merged Caddy file lies outside the app directory, a successful removal of a subdirectory app leaves it rewritten without the app, or deleted when no app is left |
| Apps.AppRemovedPorts | pts/appgarden/06_apps.pct.py:188-236 | when `ports.json` lies outside the app directory, a successful removal leaves it with the app's port released, or as it was when the record has no port |
| Apps.SharedFilesOutsideDefaultAppDir | pts/appgarden/06_apps.pct.py:215-236 | under the default app root, the domain's merged Caddy file and `ports.json` lie outside the app directory, so the cleanup never deletes them |
| Apps.RedeployStepsShape | pts/appgarden/06_apps.pct.py:259-284 | a redeploy ends by restarting a service, or by reloading Caddy for a static site, which is never restarted; it builds an image exactly for Docker methods and updates the source exactly for a git source or a local source with a recorded path |
| Apps.UpdateSource | pts/appgarden/06_apps.pct.py:259-269 | succeeds exactly when the `git pull` (with the branch when recorded) or the upload succeeds, or nothing is to be done; the failures are the pull's error, the address lookup's ValueError with nothing run, or the upload's CalledProcessError; no file changes |
| Apps.RebuildAndRestart | pts/appgarden/06_apps.pct.py:272-284 | for a Docker method the image build runs first and a failure raises at once; then the restart, or the Caddy reload for a static site, runs and its failure is raised; no file changes |
| Apps.RedeployApp | pts/appgarden/06_apps.pct.py:245-290 | uses the server's context when none is given; read errors and an unknown app change nothing; for a registered app it succeeds exactly when the source update, the image build (Docker methods only), the restart or reload and the registry write all succeed; a failure leaves every file as it was; success means all the steps were taken in order and the registry stores the record with only its update time replaced |
| Apps.RedeployKeepsRegistry | pts/appgarden/06_apps.pct.py:287-290 | the redeployed registry keeps its order and every other record, and the app's record differs only in its update time |
| AutoDocker.FirstPresent | pts/appgarden/07_auto_docker.pct.py:89-92 | the index of the first entry whose indicator is present, every earlier one absent, or the length when none is present |
| AutoDocker.DetectRuntime | pts/appgarden/07_auto_docker.pct.py:83-92 | None exactly when no indicator of `RUNTIMES` is present; otherwise the runtime of a present indicator |
| AutoDocker.IndicatorsDistinct | pts/appgarden/07_auto_docker.pct.py:42-79 | no two runtimes share an indicator file |
| AutoDocker.DetectsEachRuntime | pts/appgarden/07_auto_docker.pct.py:42-92 | an indicator present alone is detected as its own runtime |
| AutoDocker.NodeTakesPriority | pts/appgarden/07_auto_docker.pct.py:42-92 | with `package.json` present the runtime is Node.js whatever else is there |
| AutoDocker.EarliestIndicatorWins | pts/appgarden/07_auto_docker.pct.py:89-92 | detection never picks a runtime listed after a present indicator, and picks the first present one |
| AutoDocker.DockerfileFollowsRuntime | pts/appgarden/07_auto_docker.pct.py:105-123 | the Dockerfile uses the runtime's base image and copy pattern, the port and the command; a non-empty setup command replaces the runtime's default (`infer_setup_command`, 96-98) |
| AutoDocker.PresentOnMember | pts/appgarden/07_auto_docker.pct.py:180-186 | an indicator counts as present on the server exactly when its `test -f` succeeds |
| AutoDocker.FoundIsPresent | pts/appgarden/07_auto_docker.pct.py:180-186 | the probe loop stops at the first indicator that is present |
| AutoDocker.ProbesSnoc | pts/appgarden/07_auto_docker.pct.py:180-186 | one more probe extends the probe log by its `test -f` |
| AutoDocker.ScanIndicators | pts/appgarden/07_auto_docker.pct.py:180-186 | the loop stops at the first indicator found and has run exactly the probes up to it, changing no file |
| AutoDocker.DetectRemoteRuntime | pts/appgarden/07_auto_docker.pct.py:178-186 | the remote detection agrees with `detect_runtime` on the files present on the server, and probes up to and including the first hit |
| AutoDocker.ChosenRuntimeSources | pts/appgarden/07_auto_docker.pct.py:174-192 | a local detection is final; a git source is only probed remotely; no runtime exactly when neither the local files (for a local source) nor the remote probes find an indicator |
| AutoDocker.ChooseRuntime | pts/appgarden/07_auto_docker.pct.py:174-186 | the runtime `deploy_auto` settles on, with no file changed |
| AutoDocker.ChoosePort | pts/appgarden/07_auto_docker.pct.py:196-198 | a given port is used as it is and nothing changes; a missing one is the port `allocate_port` hands out, recorded in `ports.json` |
| AutoDocker.BuildImage | pts/appgarden/07_auto_docker.pct.py:201-215 | succeeds exactly when the Dockerfile can be written and `docker build` succeeds; on success the Dockerfile is written and then the image built |
| AutoDocker.ComposeImageLine | pts/appgarden/07_auto_docker.pct.py:228-231 | a compose text without a `build: .` line is kept as rendered, and the line itself becomes `image: appgarden-<name>` |
| AutoDocker.InstallService | pts/appgarden/07_auto_docker.pct.py:220-246 | succeeds exactly when both files are writable; writes the compose file with the image line and the unit file, and names the unit `appgarden-<name>.service` |
| AutoDocker.RouteAndRegister | pts/appgarden/07_auto_docker.pct.py:248-263 | on success the registry read here was readable with `apps`, the URL is routed to the port by a proxy config, and the registry and `app.json` hold the record |
| AutoDocker.DockerfilePathDistinct | pts/appgarden/07_auto_docker.pct.py:206-263 | the Dockerfile is a different file from everything else `deploy_auto` writes |
| AutoDocker.ComposePathDistinct | pts/appgarden/07_auto_docker.pct.py:232-263 | the compose file is a different file from the unit, the Caddy files and the state documents |
| AutoDocker.RecordPathDistinct | pts/appgarden/07_auto_docker.pct.py:246-263 | `app.json` is a different file from the unit and the Caddy files |
| AutoDocker.RecordPathIsNotState | pts/appgarden/07_auto_docker.pct.py:246-263 | `app.json` and the unit file are neither of the state documents, and the unit is not a Caddy file |
| AutoDocker.SharedPathsDistinct | pts/appgarden/07_auto_docker.pct.py:248-263 | the Caddy files and the two state documents are pairwise different files |
| AutoDocker.PrepareService | pts/appgarden/07_auto_docker.pct.py:196-246 | on success returns the given or allocated port, and the files hold the allocation, the Dockerfile, the compose file and the unit, with the registry untouched |
| AutoDocker.DeployDetected | pts/appgarden/07_auto_docker.pct.py:196-263 | once the runtime is known, success leaves every file `deploy_auto` promises (port, Dockerfile, compose, unit, route, registry, `app.json`) and every other file as it was |
| AutoDocker.DeployedFiles | pts/appgarden/07_auto_docker.pct.py:196-263 | the sequence of writes the steps make reads back as the promised end state, with every file outside the written ones unchanged |
| AutoDocker.DeployAuto | pts/appgarden/07_auto_docker.pct.py:149-265 | a failed upload raises with no file changed; with no runtime detected, RuntimeError after the upload; on success the upload succeeded, a runtime was detected, and starting from the uploaded files every promised file holds its content and every other file is as it was |
| Environments.DerivedNamesDistinct | pts/appgarden/08_environments.pct.py:113-121 | different environments of one app deploy under different names, and only production deploys under the base name |
| Environments.JoinContains | pts/appgarden/08_environments.pct.py:135 | every part occurs in the joined list |
| Environments.ContainsSuffix | pts/appgarden/08_environments.pct.py:136-139 | text found at the end of the message is found in the message |
| Environments.NotFoundListsAll | pts/appgarden/08_environments.pct.py:134-139 | the error for an undefined environment names every defined environment, and says `(none)` when there is none |
| Environments.FirstIndex | pts/appgarden/08_environments.pct.py:160-163 | the position of the first occurrence of an element |
| Environments.FirstIndexSnoc | pts/appgarden/08_environments.pct.py:160-163 | appending an element does not move an earlier first occurrence |
| Environments.UniqueDeduplicates | pts/appgarden/08_environments.pct.py:155-173 | the deduplicated list holds every pattern once, in order of first occurrence, and nothing else |
| Environments.Deduplicated | pts/appgarden/08_environments.pct.py:158-163 | the `seen`-set loop computes the deduplicated list |
| Environments.OverlaidGet | pts/appgarden/08_environments.pct.py:175-178 | after the overlay a key has the environment's value when it has one and is not one of `env`, `meta`, `exclude`, `volumes`; otherwise the default's |
| Environments.OverlayEnvironment | pts/appgarden/08_environments.pct.py:176-178 | the overlay loop computes the Overlaid specification |
| Environments.SubstitutionLiteral | pts/appgarden/08_environments.pct.py:184-192 | a text without placeholders is left as it is, and each placeholder on its own becomes its value (`{app.slug}` falling back to the app name) |
| Environments.SubstitutedAll | pts/appgarden/08_environments.pct.py:189-197 | every key keeps its value, substituted when it is a string |
| Environments.SubstitutedAllAt | pts/appgarden/08_environments.pct.py:189-197 | the substitution keeps every entry in its place |
| Environments.SubstituteStrings | pts/appgarden/08_environments.pct.py:189-197 | the substitution loops compute the SubstitutedAll specification |
| Environments.MergedScalars | pts/appgarden/08_environments.pct.py:142-193 | each merged scalar is the environment's value when it has the key, else the default's, substituted |
| Environments.SubstitutedStrings | pts/appgarden/08_environments.pct.py:194-197 | substituting an all-string `env` table leaves it all strings |
| Environments.ScalarsOf | pts/appgarden/08_environments.pct.py:199-220 | the record's scalar fields are the environment's value or the surviving default, substituted, and `gitignore` is true unless a layer sets it |
| Environments.CollectionsOf | pts/appgarden/08_environments.pct.py:145-173 | `env` and `meta` are the union of the layers with the environment winning (only `env` substituted); `exclude` and `volumes` are the app's entries then the environment's, each once, in first-occurrence order |
| Environments.TableRead | pts/appgarden/08_environments.pct.py:146-153 | a table read that succeeds gives the table stored there |
| Environments.StringsRead | pts/appgarden/08_environments.pct.py:156-167 | a `list()` read that succeeds gives the strings the specification works with |
| Environments.StringListsCharacters | pts/appgarden/08_environments.pct.py:156-168 | `list()` of a string is its characters, each a string of its own |
| Environments.TableListsKeys | pts/appgarden/08_environments.pct.py:156-168 | `list()` of a table is its keys, in order |
| Environments.ResolveEnvironment | pts/appgarden/08_environments.pct.py:128-220 | an undefined environment is the ValueError listing the defined ones; otherwise success exactly when the layers are well shaped, a TypeError otherwise, and a success is the resolution (every scalar and collection as above) |
| Environments.KeysHaveKeys | pts/appgarden/08_environments.pct.py:229 | the listed keys are exactly the defined ones |
| Environments.ListEnvironments | pts/appgarden/08_environments.pct.py:227-229 | sorted, a permutation of the defined environment names, and holding exactly those names |
| Environments.ResolveAllEnvironments | pts/appgarden/08_environments.pct.py:236-238 | succeeds exactly when every environment is well shaped, and then resolves each in sorted order; otherwise the TypeError of the first badly shaped one |
| Environments.TabledGet | pts/appgarden/08_environments.pct.py:97-99 | each environment table is copied under its name, and the copy fails exactly when some value is not a table |
| Environments.LoadProjectConfig | pts/appgarden/08_environments.pct.py:73-106 | the file is the path itself when it is a file, else `appgarden.toml` in it; a missing file is FileNotFoundError, otherwise the parsed document is shaped into a project configuration |
| Environments.LoadRequiresName | pts/appgarden/08_environments.pct.py:91-94 | a project loads only with a non-empty `[app] name`, which becomes the app name; a missing or empty one is the ValueError |
| Environments.LoadShapes | pts/appgarden/08_environments.pct.py:91-106 | a loaded project keeps every `[app]` key other than name and slug as a default, records a slug exactly when one is given, and every environment table under its name |
| Tunnel.TunnelCaddyPathInjective | pts/appgarden/09_tunnel.pct.py:93-96 | different tunnels get different Caddy files |
| Tunnel.TunnelPathsDistinct | pts/appgarden/09_tunnel.pct.py:93-96 | a tunnel's Caddy file is none of the JSON documents, under any app roots |
| Tunnel.ReadTunnelsState | pts/appgarden/09_tunnel.pct.py:72-79 | the stored tunnels document, or `{"tunnels": {}}` when it cannot be read or is not a tunnels document |
| Tunnel.WriteTunnelsState | pts/appgarden/09_tunnel.pct.py:83-87 | writes the document to `tunnels/active.json`, with the outcome of `write_remote_file` |
| Tunnel.Registered | pts/appgarden/09_tunnel.pct.py:126-131 | KeyError exactly when the document has no `tunnels` table; otherwise the tunnel's record is set and every other record kept |
| Tunnel.Unregistered | pts/appgarden/09_tunnel.pct.py:139 | KeyError exactly when there is no `tunnels` table; otherwise the tunnel is gone, every other record kept, and an absent tunnel leaves the document unchanged |
| Tunnel.RegisterThenUnregister | pts/appgarden/09_tunnel.pct.py:123-140 | registering a new tunnel and unregistering it gives back the registry it started from |
| Tunnel.RegisterTunnel | pts/appgarden/09_tunnel.pct.py:123-132 | read the registry, record the tunnel with its URL, ports and creation time, write the registry back |
| Tunnel.UnregisterTunnel | pts/appgarden/09_tunnel.pct.py:136-140 | read the registry, drop the tunnel, write the registry back |
| Tunnel.TunnelCaddyConfig | pts/appgarden/09_tunnel.pct.py:102-105 | the snippet is the reverse-proxy template for the domain and the tunnel's remote port |
| Tunnel.DeployTunnelCaddy | pts/appgarden/09_tunnel.pct.py:100-108 | writes the snippet, then reloads Caddy; a failed write raises before the reload |
| Tunnel.RemoveTunnelCaddy | pts/appgarden/09_tunnel.pct.py:112-119 | `rm -f` of the snippet, then the Caddy reload, with a failure of either swallowed |
| Tunnel.ReleaseIgnoringErrors | pts/appgarden/09_tunnel.pct.py:152-155 | releases the port held under the app name; every error it can raise is swallowed |
| Tunnel.CleanupTunnel | pts/appgarden/09_tunnel.pct.py:147-157 | under the given or the server's context: remove the snippet, release the port, unregister, in that order |
| Tunnel.CloseTunnel | pts/appgarden/09_tunnel.pct.py:215-219 | the cleanup of the tunnel under the server's context, its port being held under the tunnel id |
| Tunnel.SetUpTunnel | pts/appgarden/09_tunnel.pct.py:170-178 | allocate a port under the tunnel id, deploy the snippet, register the tunnel; the first failure stops the setup |
| Tunnel.OpenTunnel | pts/appgarden/09_tunnel.pct.py:164-207 | an address lookup that fails raises its ValueError before anything touches the server; a failed setup raises without cleaning up; once set up, the tunnel is cleaned up however ssh ends, and a missing `ssh` raises RuntimeError unless the cleanup raises instead |
| Tunnel.CleanupRemovesSnippet | pts/appgarden/09_tunnel.pct.py:147-157 | after cleanup the snippet is gone unless its `rm -f` failed |
| Tunnel.CleanupReleasesPort | pts/appgarden/09_tunnel.pct.py:152-155 | cleanup releases the app's port in the `ports.json` it finds, when that file can be written |
| Tunnel.CleanupUnregisters | pts/appgarden/09_tunnel.pct.py:147-157 | cleanup fails exactly when the registry has no `tunnels` table (KeyError) or cannot be written; otherwise the registry it found is left without the tunnel |
| Tunnel.SetupOutcome | pts/appgarden/09_tunnel.pct.py:170-178 | a successful setup allocated the next port under the tunnel id, stored the allocation, proxied the URL to that port and registered the tunnel with it |
| Tunnel.OpenLeavesNothingBehind | pts/appgarden/09_tunnel.pct.py:164-207 | however ssh ends, an opened tunnel gives back the registry and port allocations it started from (only the counter has moved on), removes its snippet when `rm -f` works, and fails exactly when `ssh` is missing |
| Tunnel.ListTunnels | pts/appgarden/09_tunnel.pct.py:226-238 | one record per registered tunnel, in registry order, with `""` and `0` for missing fields, and every registered tunnel listed |
| Tunnel.StaleIdsExactly | pts/appgarden/09_tunnel.pct.py:252-270 | a tunnel is reported exactly when it is registered and has a remote port that nothing listens on or whose probe fails |
| Tunnel.StaleIdsDistinct | pts/appgarden/09_tunnel.pct.py:252-270 | no tunnel is reported twice |
| Tunnel.KeysSnoc | pts/appgarden/09_tunnel.pct.py:252 | the keys of the entries with one more entry at the end |
| Tunnel.StaleIdsInOrder | pts/appgarden/09_tunnel.pct.py:252-270 | the reported tunnels come in registry order |
| Tunnel.SweepEntryReportsStale | pts/appgarden/09_tunnel.pct.py:253-270 | an iteration that completes reports its tunnel exactly when it is stale |
| Tunnel.SweepReportsStale | pts/appgarden/09_tunnel.pct.py:245-270 | a sweep that completes reports exactly the stale tunnels, in order |
| Tunnel.SweepStopsAtError | pts/appgarden/09_tunnel.pct.py:252-270 | once an iteration raises, no later tunnel is visited |
| Tunnel.SweepExtends | pts/appgarden/09_tunnel.pct.py:252-270 | one more entry means the sweep so far followed by that entry's iteration |
| Tunnel.SweepTunnel | pts/appgarden/09_tunnel.pct.py:253-270 | skips a tunnel without a remote port; probes the port, and closes and reports the tunnel when it is inactive or the probe fails |
| Tunnel.CleanupStaleTunnels | pts/appgarden/09_tunnel.pct.py:245-270 | sweeps the tunnels registered when it starts, with the outcome the Sweep specification gives |
| Strings.StripTrims | pts/appgarden/00_config.pct.py:180 | `strip()` leaves no whitespace at either end |
| Strings.ReplaceAbsent | pts/appgarden/08_environments.pct.py:191-192 | `replace` leaves a text without the pattern unchanged |
| Strings.ReplaceWhole | pts/appgarden/08_environments.pct.py:191-192 | `replace` turns the pattern on its own into the replacement |
| Strings.Sort | pts/appgarden/08_environments.pct.py:229 | `sorted` gives a sorted permutation of its input |
| Strings.InsertProperties | pts/appgarden/08_environments.pct.py:229 | inserting into a sorted list keeps it sorted and adds exactly the element |

## Left out

- `ssh_connect` (`pts/appgarden/01_remote.pct.py:153-192`): the pyinfra connection and its retry loop are transport. The model sees the server only through `Remote.Host`, whose constant fields say in advance which commands fail and what they print.
- `write_system_file` (`pts/appgarden/01_remote.pct.py:131-142`): no core operation modelled here calls it. Files are written with `Remote.Host.PutFile`.
- `upload_directory`: the model keeps the address lookup (`resolve_host`), the trailing-slash rule and the effect on `dirs`. The ssh key path and the `user@host` destination only shape the rsync command line and are left out.
- `resolve_host` inside `ssh_connect`: the connection resolves the address before there is a host, so a modelled `Remote.Host` stands for a connection whose lookup succeeded. The later lookups in `upload_directory` and `open_tunnel` take the `hcloud` answer as a parameter (`Config.HcloudOutcome`).
- Remote.Host.RunShell: `files` tracks only the documents and configuration files the core writes itself. The files a clone or an rsync brings in are not tracked, and neither are the deletions `rsync --delete` makes inside the source directory. A failed `rm -rf … && git clone` is modelled as changing no file, although the shell may already have deleted the old source directory.
- pyinfra, rsync, the `hcloud` CLI, `journalctl` and `systemctl`: their answers come from the host's failure oracle, not from a model of those tools.
- `config_dir`, `config_path`, `mkdir` and `chmod` of the local configuration: file-system bookkeeping without a property to state. The configuration file is a parameter, present or absent.
- `shlex.quote` and shell quoting: commands are datatype values, not strings.
- TOML and JSON parsing and serialisation: these are foreign libraries. Documents are stored as typed values, and a file of the wrong kind stands for a decode error.
- Jinja templates: the rendered Caddy file is the datatype `State.CaddyConfig`. The compose file and the systemd unit text are parameters of the deployments.
- The clock (`created_at`, `updated_at`) and `uuid` tunnel ids: these are parameters.
- `open_tunnel`'s ssh subprocess, its signal handlers, `proc.terminate` and the console output: how ssh ends is a parameter of `Tunnel.OpenTunnel`.
- `_systemd_unit_name`, `SYSTEMD_UNIT_DIR`, `_register_app`, `_write_env_file`, `_deploy_systemd_unit` and `privileged_systemctl`: their definitions are not part of this model. They are modelled from how their callers use them. `privileged_systemctl` is a `systemctl` command run under sudo as the context asks.
- The `ctx` arguments: several definitions in `pts/appgarden/03_routing.pct.py` and `pts/appgarden/05_deploy.pct.py` take no `ctx` argument, although their callers in 06 and 07 pass one. Each helper follows one side:
  - `_app_dir` and `_source_dir` (`pts/appgarden/05_deploy.pct.py:63-71`) follow the callers. `remove_app`, `redeploy_app` and `deploy_auto` use the context's app root (`Remote.AppDir(ctx, name)`, `Remote.SourceDir(ctx, name)`). `deploy_static` calls them without one and gets the default root.
  - `upload_source` (`pts/appgarden/05_deploy.pct.py:75-81`) follows the callers. `Deploy.UploadSource` takes the context: `deploy_auto` passes its own and `deploy_static` passes none.
  - `deploy_caddy_config` and `remove_caddy_config` (`pts/appgarden/03_routing.pct.py:165-225`) follow the definitions. The Caddy files live under the default Caddy directory, a registry they read themselves is the default `garden.json`, and the reload runs without sudo.
  - `_register_app`, whose definition is not part of this model, follows its caller in `deploy_auto`. The registry and `app.json` are those of the context.
- `app_logs`'s `follow` flag: a streaming read with no result to state. Only the `-n` form is modelled.
- The env file that `deploy_auto` writes (`pts/appgarden/07_auto_docker.pct.py:218`): the definition of `_write_env_file` is not part of this model, so the step is left out. Its path only reaches the compose text, which is a parameter.
- `cleanup_stale_tunnels` opening its own `ssh_connect` to the same host: the model uses the one host.
- `Path.resolve` and `Path.is_file`: abstracted to membership in the host's `files`. Paths are joined with `/` without normalisation.
- Config.RequiredStr: a present value that is not a string is rejected with a TypeError. Python's dataclass would keep the value as read, but `ServerConfig` holds strings.
- Config.OptionalStr: the same for `host`, `hcloud_name`, `hcloud_context` and `app_root`.
- Config.ParseDefaultServer: a `default_server` that is not a string is rejected with a TypeError. Python would keep it as read.
- Config.ParseInit: a `skip` that is not a list of strings is rejected with a TypeError. Python's `InitConfig(**init_data)` would keep it as read.
- Environments.LoadProjectConfig: a truthy `[app] name` or a `slug` that is not a string is rejected with a TypeError. Python would keep the value as read, but `ProjectConfig` holds strings.
- `pts/appgarden/04_server.pct.py` and `pts/appgarden/10_cli.pct.py` are not part of this model, nor is the locking (`flock`) that appears only in the tests.
- Environments.ResolveEnvironment: a badly shaped input gives "a TypeError". Python's message texts are not modelled, and an AttributeError is modelled as a TypeError. For `exclude` and `volumes`, `list()` of a string gives its characters and `list()` of a table its keys, as in Python. A list holding a non-string value is rejected with a TypeError, although Python's `list()` would keep any hashable items.
- Environments.ResolveAllEnvironments: the same weakening as `ResolveEnvironment` for badly shaped inputs.
- Apps.RemoveResources: when a step fails, the contract says that the removal failed but not which files and log entries the earlier steps had already produced.
- Apps.RemoveApp: the same for a failure after the registry read.
- Deploy.DeployStatic: after a failure, the contract states the files only for a failed upload, an unreadable registry and a registry without `apps`. It never states the log.
- Deploy.RouteAndRegister: the contract states the success state and selected failure cases.
- AutoDocker.RouteAndRegister: the contract states the files on success and selected failure cases, but not the command log of a success.
- AutoDocker.DeployDetected: the contract states the files on success and selected failure cases, but not the command log of a success.
- AutoDocker.DeployAuto: the contract states the files on success and selected failure cases, but not the command log of a success.
- Tunnel.SweepTunnel: the remote port is a typed integer, so the ValueError that `int(remote_port)` can raise (`pts/appgarden/09_tunnel.pct.py:258`) has no counterpart.
- Config.ParseDefaults: a `defaults` value that is a list of key/value pairs, which Python's `dict()` accepts (`pts/appgarden/00_config.pct.py:114`), is rejected; only a table is accepted.
- Config.ParseServer: a server value that is not a table is rejected with a TypeError. Python's `dict(sdata)` (`pts/appgarden/00_config.pct.py:98`) accepts a list of key/value pairs and builds the server from it, raises ValueError for a non-empty string, and turns an empty string into an empty table. A `servers` value that is not a table is Python's AttributeError from `.items()` (`pts/appgarden/00_config.pct.py:97`); the model reports it as a TypeError. `Config.LoadedConfig` and `Config.LoadConfig` inherit both narrowings.
- Registry and tunnel records (`State.AppEntry`, `State.TunnelEntry`, read by `Tunnel.ListTunnels` and `Tunnel.SweepTunnel`): a field is either absent or holds a value of its type, so a JSON `null` reads as absent and gets the `.get` default (`"unknown"`, `""`, `0`). Python's `.get(k, default)` returns `None` for a stored `null`, and a later use such as `parse_url(None)` raises; that case is not modelled.
- Environments.TabledGet: an environment value that is a list of key/value pairs, which `dict()` accepts (`pts/appgarden/08_environments.pct.py:99`), is rejected; only a table is accepted.
