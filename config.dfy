/**
 * Local configuration: server definitions and defaults kept in `~/.config/appgarden/config.toml`.
 * The TOML file is seen through its parsed document (a `Dict<string, Value>`); reading and
 * writing the bytes is not part of this model.
 */
module Config {
  import opened Wrappers
  import opened Strings
  import opened Dict
  import opened Values

  /** Per-server init step configuration. */
  datatype InitConfig = InitConfig(skip: seq<string>)

  /** One `[servers.<name>]` table. */
  datatype ServerConfig = ServerConfig(
    sshUser: string,
    sshKey: string,
    domain: string,
    host: Option<string>,
    hcloudName: Option<string>,
    hcloudContext: Option<string>,
    appRoot: Option<string>,
    init: InitConfig)

  datatype AppGardenConfig = AppGardenConfig(
    defaultServer: Option<string>,
    servers: Dict<string, ServerConfig>,
    defaults: Dict<string, Value>)

  /** The configuration of a missing file: no default, no servers, no defaults. */
  const EmptyConfig := AppGardenConfig(None, [], [])

  // The keys of the configuration file.
  const SshUserKey := "ssh_user"
  const SshKeyKey := "ssh_key"
  const DomainKey := "domain"
  const HcloudNameKey := "hcloud_name"
  const HcloudContextKey := "hcloud_context"
  const AppRootKey := "app_root"
  const HostKey := "host"
  const InitKey := "init"
  const SkipKey := "skip"
  const DefaultServerKey := "default_server"
  const DefaultsKey := "defaults"
  const ServersKey := "servers"

  /** The dataclass field names of ServerConfig, sorted as `sorted(valid_keys)` lists them. */
  const ValidKeys: seq<string> :=
    [AppRootKey, DomainKey, HcloudContextKey, HcloudNameKey, HostKey, InitKey, SshKeyKey, SshUserKey]

  // ---------------------------------------------------------------------------------------
  // Server lookup and host resolution
  // ---------------------------------------------------------------------------------------

  const NoServerMessage := "No server specified and no default server configured"

  function ServerNotFoundMessage(name: string): string {
    "Server '" + name + "' not found in configuration"
  }

  /** `get_server`: the requested server, or the default one when no name is given. */
  function GetServer(config: AppGardenConfig, name: Option<string>): (r: Result<(string, ServerConfig)>)
    ensures var chosen := if name.Some? then name else config.defaultServer;
      && (chosen.None? ==> r == Err(ValueError(NoServerMessage)))
      && (chosen.Some? && !HasKey(config.servers, chosen.value) ==>
            r == Err(ValueError(ServerNotFoundMessage(chosen.value))))
      && (r.Ok? <==> chosen.Some? && HasKey(config.servers, chosen.value))
      && (r.Ok? ==> r.value.0 == chosen.value && Get(config.servers, r.value.0) == Some(r.value.1))
  {
    var n := if name.Some? then name else config.defaultServer;
    if n.None? then Err(ValueError(NoServerMessage))
    else match Get(config.servers, n.value)
      case None => Err(ValueError(ServerNotFoundMessage(n.value)))
      case Some(s) => Ok((n.value, s))
  }

  /** A registered server is found by its name, and no name means the default name. */
  lemma GetServerFindsRegistered(config: AppGardenConfig, i: nat)
    requires i < |config.servers|
    ensures GetServer(config, Some(config.servers[i].0)) == Ok(config.servers[i])
    ensures GetServer(config, None) == GetServer(config, config.defaultServer)
  {
    GetAt(config.servers, i);
  }

  /** What the `hcloud --context <c> server ip <n>` subprocess did. */
  datatype HcloudOutcome =
    | HcloudMissing
    | HcloudFailed(stderr: string)
    | HcloudPrinted(stdout: string)

  /** Python truthiness of an optional string field. */
  predicate Given(o: Option<string>) {
    o.Some? && o.value != []
  }

  /** A string option as Python's truthiness sees it: an empty string counts as absent. */
  function IfGiven(o: Option<string>): Option<string> {
    if Given(o) then o else None
  }

  const NoAddressMessage := "Server must have either 'host' or both 'hcloud_name' and 'hcloud_context'"
  const HcloudMissingMessage := "'hcloud' CLI not found. Install it from https://github.com/hetznercloud/cli"
  const UnknownHcloudError := "unknown error"

  /** The error `resolve_host` raises when `hcloud` exits with an error. */
  function HcloudFailure(server: ServerConfig, stderr: string): Error
    requires server.hcloudName.Some? && server.hcloudContext.Some?
  {
    var detail := if Strip(stderr) != [] then Strip(stderr) else UnknownHcloudError;
    ValueError("Failed to resolve IP for hcloud server '" + server.hcloudName.value
               + "' (context '" + server.hcloudContext.value + "'): " + detail)
  }

  /** `resolve_host`: the configured host, or the IP that the Hetzner CLI prints. */
  function ResolveHost(server: ServerConfig, hcloud: HcloudOutcome): (r: Result<string>)
    ensures Given(server.host) ==> r == Ok(server.host.value)
    ensures !Given(server.host) && !(Given(server.hcloudName) && Given(server.hcloudContext)) ==>
      r == Err(ValueError(NoAddressMessage))
    ensures !Given(server.host) && Given(server.hcloudName) && Given(server.hcloudContext) ==>
      r == match hcloud
        case HcloudPrinted(stdout) => Ok(Strip(stdout))
        case HcloudFailed(stderr) => Err(HcloudFailure(server, stderr))
        case HcloudMissing => Err(ValueError(HcloudMissingMessage))
  {
    if Given(server.host) then Ok(server.host.value)
    else if !Given(server.hcloudName) || !Given(server.hcloudContext) then
      Err(ValueError(NoAddressMessage))
    else match hcloud
      case HcloudMissing =>
        Err(ValueError(HcloudMissingMessage))
      case HcloudFailed(stderr) => Err(HcloudFailure(server, stderr))
      case HcloudPrinted(stdout) => Ok(Strip(stdout))
  }

  // ---------------------------------------------------------------------------------------
  // load_config
  // ---------------------------------------------------------------------------------------

  // Python's TypeError and AttributeError texts for TOML values of the wrong shape.
  const UnexpectedKeyword := "got an unexpected keyword argument"
  const NotStringList := "expected a list of strings"
  const NotMapping := "argument must be a mapping"
  const MissingArgument := "missing required argument"
  const NotString := "expected a string"

  /** The server table keys are pairwise different strings. */
  lemma ServerKeysDistinct()
    ensures SshUserKey != SshKeyKey && SshUserKey != DomainKey && SshUserKey != HostKey && SshUserKey != HcloudNameKey
    ensures SshUserKey != HcloudContextKey && SshUserKey != AppRootKey && SshUserKey != InitKey
    ensures SshKeyKey != DomainKey && SshKeyKey != HostKey && SshKeyKey != HcloudNameKey && SshKeyKey != HcloudContextKey
    ensures SshKeyKey != AppRootKey && SshKeyKey != InitKey
    ensures DomainKey != HostKey && DomainKey != HcloudNameKey && DomainKey != HcloudContextKey && DomainKey != AppRootKey
    ensures DomainKey != InitKey
    ensures HostKey != HcloudNameKey && HostKey != HcloudContextKey && HostKey != AppRootKey && HostKey != InitKey
    ensures HcloudNameKey != HcloudContextKey && HcloudNameKey != AppRootKey && HcloudNameKey != InitKey
    ensures HcloudContextKey != AppRootKey && HcloudContextKey != InitKey
    ensures AppRootKey != InitKey
  {
  }

  /** The top-level keys of the configuration file are pairwise different strings. */
  lemma TopKeysDistinct()
    ensures DefaultServerKey != DefaultsKey && DefaultServerKey != ServersKey && DefaultsKey != ServersKey
  {
  }

  /** `InitConfig(**init_data) if init_data else InitConfig()`. */
  function ParseInit(initData: Option<Value>): (r: Result<InitConfig>)
    ensures (initData.None? || !Truthy(initData.value)) ==> r == Ok(InitConfig([]))
    ensures r.Ok? && initData.Some? && Truthy(initData.value) ==>
      && initData.value.Table? && |initData.value.entries| == 1 && initData.value.entries[0].0 == SkipKey
      && initData.value.entries[0].1 == StrArray(r.value.skip)
  {
    if initData.None? || !Truthy(initData.value) then Ok(InitConfig([]))
    else match initData.value
      case Table(t) =>
        if exists i | 0 <= i < |t| :: t[i].0 != SkipKey then Err(TypeError(UnexpectedKeyword))
        else
          assert |t| == 1;
          (match t[0].1
           case Arr(xs) =>
             if forall i | 0 <= i < |xs| :: xs[i].Str? then
               assert StrArray(AsStrings(xs)) == Arr(xs);
               Ok(InitConfig(AsStrings(xs)))
             else Err(TypeError(NotStringList))
           case _ => Err(TypeError(NotStringList)))
      case _ => Err(TypeError(NotMapping))
  }

  /** The keys of a server table (with `init` already popped) that are not ServerConfig fields, sorted. */
  function UnknownKeys(sdata: Dict<string, Value>): (r: seq<string>)
    ensures Sorted(r)
    ensures forall k :: k in r <==> HasKey(sdata, k) && k !in ValidKeys
  {
    Sort(Unknown(sdata))
  }

  /** The keys of `entries` that are not ServerConfig fields, in order. */
  function Unknown(entries: seq<(string, Value)>): (r: seq<string>)
    ensures forall k :: k in r <==> HasKey(entries, k) && k !in ValidKeys
  {
    if entries == [] then []
    else (if entries[0].0 in ValidKeys then [] else [entries[0].0]) + Unknown(entries[1..])
  }

  /** Entries whose keys are all ServerConfig fields have no unknown keys. */
  lemma {:induction false} UnknownNone(entries: seq<(string, Value)>)
    requires forall k :: HasKey(entries, k) ==> k in ValidKeys
    ensures Unknown(entries) == []
  {
    if entries != [] {
      assert HasKey(entries, entries[0].0);
      forall k | HasKey(entries[1..], k) ensures HasKey(entries, k) {
        if entries[0].0 != k {
          assert Get(entries, k) == Get(entries[1..], k);
        }
      }
      UnknownNone(entries[1..]);
    }
  }

  /** A required `str` field of ServerConfig. */
  function RequiredStr(sdata: Dict<string, Value>, key: string): (r: Result<string>)
    ensures r.Ok? <==> Get(sdata, key).Some? && Get(sdata, key).value.Str?
    ensures r.Ok? ==> Get(sdata, key) == Some(Str(r.value))
  {
    match Get<string, Value>(sdata, key)
    case None => Err(TypeError(MissingArgument))
    case Some(Str(s)) => Ok(s)
    case Some(_) => Err(TypeError(NotString))
  }

  /** An optional `str | None` field of ServerConfig. */
  function OptionalStr(sdata: Dict<string, Value>, key: string): (r: Result<Option<string>>)
    ensures Get(sdata, key).None? ==> r == Ok(None)
    ensures r.Ok? && r.value.Some? ==> Get(sdata, key) == Some(Str(r.value.value))
    ensures r.Err? <==> Get(sdata, key).Some? && !Get(sdata, key).value.Str?
  {
    match Get<string, Value>(sdata, key)
    case None => Ok(None)
    case Some(Str(s)) => Ok(Some(s))
    case Some(_) => Err(TypeError(NotString))
  }

  const UnknownKeyPrefix := "Unknown key(s) in [servers."
  const ValidKeysPrefix := ". Valid keys: "

  function UnknownKeyMessage(name: string, unknown: seq<string>): string {
    UnknownKeyPrefix + name + "]: " + Join(unknown, ", ") + ValidKeysPrefix + Join(ValidKeys, ", ")
  }

  /** The body of the per-server loop of `load_config`: pop `init`, reject unknown keys, build the server. */
  function ParseServer(name: string, sdata: Value): (r: Result<ServerConfig>)
    ensures sdata.Table? && ParseInit(Get(sdata.entries, InitKey)).Ok?
            && UnknownKeys(Remove(sdata.entries, InitKey)) != [] ==>
      r == Err(ValueError(UnknownKeyMessage(name, UnknownKeys(Remove(sdata.entries, InitKey)))))
    ensures r.Ok? ==> sdata.Table? && UnknownKeys(Remove(sdata.entries, InitKey)) == []
    ensures r.Ok? ==> (Get(sdata.entries, SshUserKey) == Some(Str(r.value.sshUser))
      && Get(sdata.entries, SshKeyKey) == Some(Str(r.value.sshKey))
      && Get(sdata.entries, DomainKey) == Some(Str(r.value.domain)))
  {
    ServerKeysDistinct();
    if !sdata.Table? then Err(TypeError(NotMapping))
    else
      var init :- ParseInit(Get(sdata.entries, InitKey));
      var rest := Remove(sdata.entries, InitKey);
      var unknown := UnknownKeys(rest);
      if unknown != [] then Err(ValueError(UnknownKeyMessage(name, unknown)))
      else
        var sshUser :- RequiredStr(rest, SshUserKey);
        var sshKey :- RequiredStr(rest, SshKeyKey);
        var domain :- RequiredStr(rest, DomainKey);
        var host :- OptionalStr(rest, HostKey);
        var hcloudName :- OptionalStr(rest, HcloudNameKey);
        var hcloudContext :- OptionalStr(rest, HcloudContextKey);
        var appRoot :- OptionalStr(rest, AppRootKey);
        Ok(ServerConfig(sshUser, sshKey, domain, host, hcloudName, hcloudContext, appRoot, init))
  }

  /** The `servers` dict that the loop of `load_config` builds from the tables in `entries`. */
  function ParseServers(entries: seq<(string, Value)>): (r: Result<Dict<string, ServerConfig>>)
    ensures r.Ok? ==> forall k :: HasKey(r.value, k) <==> HasKey(entries, k)
    decreases |entries|
  {
    if entries == [] then Ok([])
    else
      var last := entries[|entries| - 1];
      var prefix := entries[..|entries| - 1];
      assert entries == prefix + [last];
      forall k ensures HasKey(entries, k) <==> HasKey(prefix, k) || k == last.0 {
        GetSnoc(prefix, last, k);
      }
      var prev :- ParseServers(prefix);
      var server :- ParseServer(last.0, last.1);
      Ok(Set(prev, last.0, server))
  }

  /** The `default_server` entry; a non-string value is rejected. */
  function ParseDefaultServer(raw: Dict<string, Value>): Result<Option<string>> {
    match Get<string, Value>(raw, DefaultServerKey)
    case None => Ok(None)
    case Some(Str(s)) => Ok(Some(s))
    case Some(_) => Err(TypeError(NotString))
  }

  /** `dict(raw.get(DefaultsKey, {}))`. */
  function ParseDefaults(raw: Dict<string, Value>): Result<Dict<string, Value>> {
    match Get<string, Value>(raw, DefaultsKey)
    case None => Ok([])
    case Some(Table(t)) => Ok(t)
    case Some(_) => Err(TypeError(NotMapping))
  }

  /** The `servers` table of a parsed file, `{}` when absent. */
  function ServersTable(raw: Dict<string, Value>): Value {
    Get(raw, ServersKey).GetOr(Table([]))
  }

  /** What `load_config` returns (or raises) for the parsed file; `None` when the file does not exist. */
  function LoadedConfig(doc: Option<Dict<string, Value>>): (r: Result<AppGardenConfig>)
    ensures doc.None? ==> r == Ok(EmptyConfig)
    ensures r.Ok? && doc.Some? ==>
      && ServersTable(doc.value).Table?
      && (forall k :: HasKey(r.value.servers, k) <==> HasKey(ServersTable(doc.value).entries, k))
  {
    if doc.None? then Ok(EmptyConfig)
    else
      var raw := doc.value;
      var table := ServersTable(raw);
      if !table.Table? then Err(TypeError(NotMapping))
      else
        var servers :- ParseServers(table.entries);
        var defaultServer :- ParseDefaultServer(raw);
        var defaults :- ParseDefaults(raw);
        Ok(AppGardenConfig(defaultServer, servers, defaults))
  }

  /** `load_config`: the loop over the `[servers.*]` tables, then the top-level fields. */
  method LoadConfig(doc: Option<Dict<string, Value>>) returns (r: Result<AppGardenConfig>)
    ensures r == LoadedConfig(doc)
  {
    if doc.None? {
      return Ok(EmptyConfig);
    }
    var raw := doc.value;
    var table := ServersTable(raw);
    if !table.Table? {
      return Err(TypeError(NotMapping));
    }
    var entries := table.entries;
    var servers: Dict<string, ServerConfig> := [];
    var i := 0;
    while i < |entries|
      invariant 0 <= i <= |entries|
      invariant ParseServers(entries[..i]) == Ok(servers)
    {
      var server := ParseServer(entries[i].0, entries[i].1);
      if server.Err? {
        ParseServersFirstError(entries, i);
        return Err(server.error);
      }
      ParseServersSnoc(entries[..i], entries[i], servers, server.value);
      assert entries[..i] + [entries[i]] == entries[..i + 1];
      servers := Set(servers, entries[i].0, server.value);
      i := i + 1;
    }
    assert entries[..i] == entries;
    var defaultServer := ParseDefaultServer(raw);
    if defaultServer.Err? {
      return Err(defaultServer.error);
    }
    var defaults := ParseDefaults(raw);
    if defaults.Err? {
      return Err(defaults.error);
    }
    return Ok(AppGardenConfig(defaultServer.value, servers, defaults.value));
  }

  /** The first server that fails to parse decides the error of the whole file. */
  lemma {:induction false} ParseServersFirstError(entries: seq<(string, Value)>, i: nat)
    requires i < |entries|
    requires ParseServers(entries[..i]).Ok?
    requires ParseServer(entries[i].0, entries[i].1).Err?
    ensures ParseServers(entries) == Err(ParseServer(entries[i].0, entries[i].1).error)
    decreases |entries|
  {
    var prefix := entries[..|entries| - 1];
    if i < |entries| - 1 {
      assert prefix[..i] == entries[..i];
      ParseServersFirstError(prefix, i);
    } else {
      assert prefix == entries[..i];
    }
  }

  // ---------------------------------------------------------------------------------------
  // save_config
  // ---------------------------------------------------------------------------------------

  /** `d[key] = v` for a field whose value is not None. */
  function SetIfPresent(d: Dict<string, Value>, key: string, v: Option<string>): (r: Dict<string, Value>)
    ensures forall k :: Get(r, k) == if k == key && v.Some? then Some(Str(v.value)) else Get(d, k)
  {
    if v.Some? then Set(d, key, Str(v.value)) else d
  }

  /** A list of strings as a TOML array. */
  function StrArray(xs: seq<string>): (r: Value)
    ensures r.Arr? && |r.items| == |xs|
    ensures forall i | 0 <= i < |xs| :: r.items[i] == Str(xs[i])
  {
    Arr(seq(|xs|, i requires 0 <= i < |xs| => Str(xs[i])))
  }

  /** The `[servers.<name>.init]` sub-table. */
  function InitTable(init: InitConfig): Value {
    Table(Set([], SkipKey, StrArray(init.skip)))
  }

  /** `asdict(srv)` with the None fields dropped and `init` kept only when `skip` is non-empty. */
  function ServerTable(srv: ServerConfig): Dict<string, Value> {
    var d0 := Set(Set(Set([], SshUserKey, Str(srv.sshUser)), SshKeyKey, Str(srv.sshKey)), DomainKey, Str(srv.domain));
    var d1 := SetIfPresent(SetIfPresent(SetIfPresent(SetIfPresent(d0,
                HostKey, srv.host), HcloudNameKey, srv.hcloudName), HcloudContextKey, srv.hcloudContext),
                AppRootKey, srv.appRoot);
    if srv.init.skip != [] then Set(d1, InitKey, InitTable(srv.init)) else d1
  }

  /** The `servers` table written by the save loop for the servers in `servers`. */
  function ServerTables(servers: seq<(string, ServerConfig)>): (r: Dict<string, Value>)
    ensures forall k :: HasKey(r, k) <==> HasKey(servers, k)
    decreases |servers|
  {
    if servers == [] then []
    else
      var last := servers[|servers| - 1];
      var prefix := servers[..|servers| - 1];
      assert servers == prefix + [last];
      forall k ensures HasKey(servers, k) <==> HasKey(prefix, k) || k == last.0 {
        GetSnoc(prefix, last, k);
      }
      Set(ServerTables(prefix), last.0, Table(ServerTable(last.1)))
  }

  /** The document that `save_config` hands to the TOML writer. */
  function SavedDocument(config: AppGardenConfig): Dict<string, Value> {
    var r0: Dict<string, Value> := [];
    var r1 := if config.defaultServer.Some? then Set(r0, DefaultServerKey, Str(config.defaultServer.value)) else r0;
    var r2 := if config.defaults != [] then Set(r1, DefaultsKey, Table(config.defaults)) else r1;
    if config.servers != [] then Set(r2, ServersKey, Table(ServerTables(config.servers))) else r2
  }

  /** The top-level keys of the saved document: each one is written exactly when its field has content. */
  lemma SavedDocumentKeys(config: AppGardenConfig)
    ensures HasKey(SavedDocument(config), DefaultServerKey) <==> config.defaultServer.Some?
    ensures HasKey(SavedDocument(config), DefaultsKey) <==> config.defaults != []
    ensures HasKey(SavedDocument(config), ServersKey) <==> config.servers != []
  {
    TopKeysDistinct();
  }

  /** The `for name, srv in config.servers.items()` loop of `save_config`. */
  method SaveServers(servers: Dict<string, ServerConfig>) returns (tables: Dict<string, Value>)
    ensures tables == ServerTables(servers)
  {
    tables := [];
    var i := 0;
    while i < |servers|
      invariant 0 <= i <= |servers|
      invariant tables == ServerTables(servers[..i])
    {
      assert servers[..i + 1][..i] == servers[..i];
      tables := Set(tables, servers[i].0, Table(ServerTable(servers[i].1)));
      i := i + 1;
    }
    assert servers[..i] == servers;
  }

  /** `save_config`, up to the TOML writer. */
  method SaveConfig(config: AppGardenConfig) returns (raw: Dict<string, Value>)
    ensures raw == SavedDocument(config)
  {
    raw := [];
    if config.defaultServer.Some? {
      raw := Set(raw, DefaultServerKey, Str(config.defaultServer.value));
    }
    if config.defaults != [] {
      raw := Set(raw, DefaultsKey, Table(config.defaults));
    }
    if config.servers != [] {
      var servers := SaveServers(config.servers);
      raw := Set(raw, ServersKey, Table(servers));
    }
  }

  /** What a saved server table holds under each key: the non-None fields, and `init` when `skip` is non-empty. */
  function SavedField(srv: ServerConfig, k: string): Option<Value> {
    if k == SshUserKey then Some(Str(srv.sshUser))
    else if k == SshKeyKey then Some(Str(srv.sshKey))
    else if k == DomainKey then Some(Str(srv.domain))
    else if k == HostKey then (if srv.host.Some? then Some(Str(srv.host.value)) else None)
    else if k == HcloudNameKey then (if srv.hcloudName.Some? then Some(Str(srv.hcloudName.value)) else None)
    else if k == HcloudContextKey then (if srv.hcloudContext.Some? then Some(Str(srv.hcloudContext.value)) else None)
    else if k == AppRootKey then (if srv.appRoot.Some? then Some(Str(srv.appRoot.value)) else None)
    else if k == InitKey then (if srv.init.skip != [] then Some(InitTable(srv.init)) else None)
    else None
  }

  lemma ServerTableGet(srv: ServerConfig, k: string)
    ensures Get(ServerTable(srv), k) == SavedField(srv, k)
  {
    ServerKeysDistinct();
  }

  /** The saved `init` sub-table (or its absence) parses back to the same InitConfig. */
  lemma SavedInitRoundTrip(srv: ServerConfig)
    ensures ParseInit(Get(ServerTable(srv), InitKey)) == Ok(srv.init)
  {
    ServerTableGet(srv, InitKey);
    if srv.init.skip != [] {
      assert AsStrings(StrArray(srv.init.skip).items) == srv.init.skip;
    }
  }

  /** Apart from `init`, a saved server table holds ServerConfig field names only. */
  lemma SavedKeysValid(srv: ServerConfig)
    ensures UnknownKeys(Remove(ServerTable(srv), InitKey)) == []
  {
    var rest := Remove(ServerTable(srv), InitKey);
    forall k | HasKey(rest, k) ensures k in ValidKeys {
      ServerTableGet(srv, k);
    }
    UnknownNone(rest);
  }

  /** The fields of a saved server table other than `init`, with `init` popped. */
  lemma SavedFields(srv: ServerConfig)
    ensures var rest := Remove(ServerTable(srv), InitKey);
      && Get(rest, SshUserKey) == Some(Str(srv.sshUser))
      && Get(rest, SshKeyKey) == Some(Str(srv.sshKey))
      && Get(rest, DomainKey) == Some(Str(srv.domain))
      && Get(rest, HostKey) == SavedField(srv, HostKey)
      && Get(rest, HcloudNameKey) == SavedField(srv, HcloudNameKey)
      && Get(rest, HcloudContextKey) == SavedField(srv, HcloudContextKey)
      && Get(rest, AppRootKey) == SavedField(srv, AppRootKey)
  {
    ServerKeysDistinct();
    ServerTableGet(srv, SshUserKey);
    ServerTableGet(srv, SshKeyKey);
    ServerTableGet(srv, DomainKey);
    ServerTableGet(srv, HostKey);
    ServerTableGet(srv, HcloudNameKey);
    ServerTableGet(srv, HcloudContextKey);
    ServerTableGet(srv, AppRootKey);
  }

  /** A saved server table parses back to the same server. */
  lemma ServerRoundTrip(name: string, srv: ServerConfig)
    ensures ParseServer(name, Table(ServerTable(srv))) == Ok(srv)
  {
    SavedInitRoundTrip(srv);
    SavedKeysValid(srv);
    SavedFields(srv);
    ServerKeysDistinct();
  }

  /** One more table at the end of the `servers` table: the load loop parses it and assigns the result. */
  lemma ParseServersSnoc(entries: seq<(string, Value)>, e: (string, Value), prev: Dict<string, ServerConfig>, srv: ServerConfig)
    requires ParseServers(entries) == Ok(prev)
    requires ParseServer(e.0, e.1) == Ok(srv)
    ensures ParseServers(entries + [e]) == Ok(Set(prev, e.0, srv))
  {
    assert (entries + [e])[..|entries|] == entries;
  }

  /** The save loop's tables, parsed back by the load loop, give the servers that were saved. */
  lemma {:induction false} ServersRoundTrip(servers: Dict<string, ServerConfig>)
    ensures ParseServers(ServerTables(servers)) == Ok(servers)
    decreases |servers|
  {
    if servers != [] {
      var n := |servers| - 1;
      var last := servers[n];
      PrefixDistinct(servers, n);
      var prefix: Dict<string, ServerConfig> := servers[..n];
      assert servers == prefix + [last];
      ServersRoundTrip(prefix);
      LastKeyUnique(servers);
      var entry := (last.0, Table(ServerTable(last.1)));
      SetShape(ServerTables(prefix), entry.0, entry.1);
      SetShape(prefix, last.0, last.1);
      ServerRoundTrip(last.0, last.1);
      ParseServersSnoc(ServerTables(prefix), entry, prefix, last.1);
    }
  }

  /** Saving a configuration and loading the file back gives the same configuration. */
  lemma SaveLoadRoundTrip(config: AppGardenConfig)
    ensures LoadedConfig(Some(SavedDocument(config))) == Ok(config)
  {
    var doc := SavedDocument(config);
    SavedDocumentGet(config);
    ServersRoundTrip(config.servers);
    assert ParseServers(ServersTable(doc).entries) == Ok(config.servers);
    assert ParseDefaultServer(doc) == Ok(config.defaultServer);
    assert ParseDefaults(doc) == Ok(config.defaults);
  }

  /** What the saved document holds under each top-level key. */
  lemma SavedDocumentGet(config: AppGardenConfig)
    ensures Get(SavedDocument(config), DefaultServerKey) ==
      if config.defaultServer.Some? then Some(Str(config.defaultServer.value)) else None
    ensures Get(SavedDocument(config), DefaultsKey) == if config.defaults != [] then Some(Table(config.defaults)) else None
    ensures ServersTable(SavedDocument(config)) == Table(ServerTables(config.servers))
  {
    TopKeysDistinct();
  }
}
