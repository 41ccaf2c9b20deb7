/**
 * The JSON documents and other files that appgarden keeps on a server, as the application sees
 * them once `json.loads` has parsed them. Serialisation is not modelled: a file holds the parsed
 * document itself, so writing a document and reading it back gives the same document.
 */
module State {
  import opened Wrappers
  import opened Dict

  /** One entry of `garden.json`'s `apps` table; a key absent from the JSON object is `None`. */
  datatype AppEntry = AppEntry(
    name: Option<string>,
    deployMethod: Option<string>,
    url: Option<string>,
    routing: Option<string>,
    port: Option<int>,
    containerPort: Option<int>,
    sourceType: Option<string>,
    source: Option<string>,
    sourcePath: Option<string>,
    branch: Option<string>,
    systemdUnit: Option<string>,
    autoDetectedRuntime: Option<string>,
    createdAt: Option<string>,
    updatedAt: Option<string>)

  /** `garden.json`: the registry of deployed apps, `None` when the `apps` key is absent. */
  datatype Garden = Garden(apps: Option<Dict<string, AppEntry>>)

  /** `state.get("apps", {})`. */
  function AppsOf(g: Garden): Dict<string, AppEntry> {
    g.apps.GetOr([])
  }

  /**
   * `ports.json`: the next port to hand out and the allocated ports with their owners.
   * The JSON object is keyed by `str(port)`; `str` is injective on integers, so the keys are the ports.
   */
  datatype PortsState = PortsState(nextPort: int, allocations: Dict<int, string>)

  /** One entry of `tunnels/active.json`; a key absent from the JSON object is `None`. */
  datatype TunnelEntry = TunnelEntry(
    url: Option<string>,
    localPort: Option<int>,
    remotePort: Option<int>,
    createdAt: Option<string>)

  /** `tunnels/active.json`, `None` when the `tunnels` key is absent. */
  datatype TunnelsState = TunnelsState(tunnels: Option<Dict<string, TunnelEntry>>)

  /** One app of a merged subdirectory Caddy config: the dictionary handed to the template. */
  datatype Route = Route(
    name: Option<string>,
    path: string,
    port: Option<int>,
    deployMethod: string,
    sourcePath: Option<string>)

  /** A rendered Caddy snippet: the template that was chosen and the parameters it was given. */
  datatype CaddyConfig =
    | SubdirectoryConfig(domain: string, apps: seq<Route>)
    | StaticConfig(domain: string, sourcePath: Option<string>)
    | ProxyConfig(domain: string, port: Option<int>)

  /** A rendered Dockerfile: the parameters the `Dockerfile.j2` template was given. */
  datatype Dockerfile = Dockerfile(
    baseImage: string,
    copyFirst: Option<string>,
    setupCmd: string,
    containerPort: int,
    cmd: string)

  /** What a file on the server holds. */
  datatype File =
    | GardenFile(garden: Garden)
    | PortsFile(ports: PortsState)
    | TunnelsFile(tunnels: TunnelsState)
    | CaddyFile(config: CaddyConfig)
      /** An app's `app.json`: its registry entry on its own. */
    | AppRecordFile(entry: AppEntry)
    | DockerfileFile(dockerfile: Dockerfile)
    | TextFile(text: string)
}
