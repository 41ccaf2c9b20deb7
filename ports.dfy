/**
 * Port allocation: `ports.json` keeps the next port to hand out and which app holds each port.
 * `_allocate_port`, `_release_port` and `_register_port` transform a ports document that the
 * remote-aware functions read from the server and write back.
 */
module Ports {
  import opened Wrappers
  import opened Strings
  import opened Dict
  import opened State
  import opened Remote

  const PortRangeStart := 10000

  /** `empty_ports_state`. */
  function EmptyPortsState(): (r: PortsState)
    ensures r.nextPort == PortRangeStart && r.allocations == []
    ensures Bounded(r)
  {
    PortsState(PortRangeStart, [])
  }

  /** Every allocated port lies below the counter, so the counter is never a port in use. */
  ghost predicate Bounded(p: PortsState) {
    forall port :: HasKey(p.allocations, port) ==> port < p.nextPort
  }

  /** The first port (in iteration order) held by `app`, as the loops over `ports["allocated"].items()` find it. */
  function OwnedPort(allocations: seq<(int, string)>, app: string): (r: Option<int>)
    ensures r.None? <==> forall i | 0 <= i < |allocations| :: allocations[i].1 != app
    ensures r.Some? ==> exists i | 0 <= i < |allocations| :: allocations[i] == (r.value, app)
  {
    if allocations == [] then None
    else if allocations[0].1 == app then Some(allocations[0].0)
    else
      var r := OwnedPort(allocations[1..], app);
      if r.Some? then
        var i :| 0 <= i < |allocations[1..]| && allocations[1..][i] == (r.value, app);
        assert allocations[i + 1] == (r.value, app);
        r
      else
        assert forall i | 1 <= i < |allocations| :: allocations[i] == allocations[1..][i - 1];
        r
  }

  /** A port found by `OwnedPort` is mapped to the app. */
  lemma OwnedPortGet(allocations: Dict<int, string>, app: string)
    requires OwnedPort(allocations, app).Some?
    ensures Get(allocations, OwnedPort(allocations, app).value) == Some(app)
  {
    var i :| 0 <= i < |allocations| && allocations[i] == (OwnedPort(allocations, app).value, app);
    GetAt(allocations, i);
  }

  // ---------------------------------------------------------------------------------------
  // _allocate_port
  // ---------------------------------------------------------------------------------------

  function AlreadyHasPortMessage(app: string, port: int): string {
    "App '" + app + "' already has port " + IntToString(port) + " allocated"
  }

  /** What `_allocate_port` returns: the updated document and the port, or ValueError when the app holds a port. */
  function Allocated(ports: PortsState, app: string): Result<(PortsState, int)> {
    match OwnedPort(ports.allocations, app)
    case Some(held) => Err(ValueError(AlreadyHasPortMessage(app, held)))
    case None =>
      Ok((PortsState(ports.nextPort + 1, Set(ports.allocations, ports.nextPort, app)), ports.nextPort))
  }

  /** `_allocate_port`: scan the allocations for the app, then take the counter and advance it. */
  method AllocateInState(ports: PortsState, app: string) returns (r: Result<(PortsState, int)>)
    ensures r == Allocated(ports, app)
  {
    var i := 0;
    while i < |ports.allocations|
      invariant 0 <= i <= |ports.allocations|
      invariant OwnedPort(ports.allocations, app) == OwnedPort(ports.allocations[i..], app)
    {
      var (portKey, name) := ports.allocations[i];
      if name == app {
        return Err(ValueError(AlreadyHasPortMessage(app, portKey)));
      }
      assert ports.allocations[i..][1..] == ports.allocations[i + 1..];
      i := i + 1;
    }
    var port := ports.nextPort;
    var allocations := Set(ports.allocations, port, app);
    return Ok((PortsState(port + 1, allocations), port));
  }

  /** An app without a port gets the counter, the counter moves up by one, and no other entry changes. */
  lemma AllocateFresh(ports: PortsState, app: string)
    requires OwnedPort(ports.allocations, app).None?
    ensures Allocated(ports, app).Ok?
    ensures var (q, port) := Allocated(ports, app).value;
      && port == ports.nextPort
      && q.nextPort == ports.nextPort + 1
      && Get(q.allocations, port) == Some(app)
      && (forall k :: k != port ==> Get(q.allocations, k) == Get(ports.allocations, k))
      && OwnedPort(q.allocations, app) == Some(port)
  {
    var q := Set(ports.allocations, ports.nextPort, app);
    OwnedPortAfterSet(ports.allocations, ports.nextPort, app);
  }

  /** Assigning `k` to an app that held nothing makes `k` the app's only port. */
  lemma {:induction false} OwnedPortAfterSet(d: Dict<int, string>, k: int, app: string)
    requires OwnedPort(d, app).None?
    ensures OwnedPort(Set(d, k, app), app) == Some(k)
    decreases |d|
  {
    if d != [] && d[0].0 != k {
      assert d[0].1 != app;
      OwnedPortAfterSet(d[1..], k, app);
      FirstKeyUnique(d);
      assert Set(d, k, app)[1..] == Set(d[1..], k, app);
    }
  }

  /** An app that already holds a port is refused, and the document is not changed. */
  lemma AllocateHeld(ports: PortsState, app: string)
    requires OwnedPort(ports.allocations, app).Some?
    ensures Allocated(ports, app) == Err(ValueError(AlreadyHasPortMessage(app, OwnedPort(ports.allocations, app).value)))
  {
  }

  // ---------------------------------------------------------------------------------------
  // _release_port
  // ---------------------------------------------------------------------------------------

  function NoPortMessage(app: string): string {
    "No port allocated for app '" + app + "'"
  }

  /** What `_release_port` returns: the document without the app's port, or ValueError when it holds none. */
  function Released(ports: PortsState, app: string): Result<PortsState> {
    match OwnedPort(ports.allocations, app)
    case None => Err(ValueError(NoPortMessage(app)))
    case Some(held) => Ok(PortsState(ports.nextPort, Remove(ports.allocations, held)))
  }

  /** `_release_port`: delete the first entry held by the app. */
  method ReleaseInState(ports: PortsState, app: string) returns (r: Result<PortsState>)
    ensures r == Released(ports, app)
  {
    var i := 0;
    while i < |ports.allocations|
      invariant 0 <= i <= |ports.allocations|
      invariant OwnedPort(ports.allocations, app) == OwnedPort(ports.allocations[i..], app)
    {
      var (portKey, name) := ports.allocations[i];
      if name == app {
        return Ok(PortsState(ports.nextPort, Remove(ports.allocations, portKey)));
      }
      assert ports.allocations[i..][1..] == ports.allocations[i + 1..];
      i := i + 1;
    }
    return Err(ValueError(NoPortMessage(app)));
  }

  /** Releasing deletes exactly the app's port and keeps the counter. */
  lemma ReleaseHeld(ports: PortsState, app: string)
    requires OwnedPort(ports.allocations, app).Some?
    ensures Released(ports, app).Ok?
    ensures var held := OwnedPort(ports.allocations, app).value;
      var q := Released(ports, app).value;
      && Get(ports.allocations, held) == Some(app)
      && q.nextPort == ports.nextPort
      && !HasKey(q.allocations, held)
      && (forall k :: k != held ==> Get(q.allocations, k) == Get(ports.allocations, k))
  {
    OwnedPortGet(ports.allocations, app);
  }

  /** Releasing for an app that holds no port is the ValueError, and there is no new document. */
  lemma ReleaseUnheld(ports: PortsState, app: string)
    requires OwnedPort(ports.allocations, app).None?
    ensures Released(ports, app) == Err(ValueError(NoPortMessage(app)))
  {
  }

  /** A freed port is not handed out again by the next allocation. */
  lemma ReleasedPortNotReused(ports: PortsState, app: string, other: string)
    requires Bounded(ports)
    requires Released(ports, app).Ok?
    requires Allocated(Released(ports, app).value, other).Ok?
    ensures Allocated(Released(ports, app).value, other).value.1 != OwnedPort(ports.allocations, app).value
  {
    OwnedPortGet(ports.allocations, app);
    assert HasKey(ports.allocations, OwnedPort(ports.allocations, app).value);
  }

  // ---------------------------------------------------------------------------------------
  // _register_port
  // ---------------------------------------------------------------------------------------

  function PortTakenMessage(port: int, owner: string): string {
    "Port " + IntToString(port) + " already allocated to '" + owner + "'"
  }

  /** `_register_port`: take a chosen port unless it is in use, moving the counter past it when needed. */
  function Registered(ports: PortsState, port: int, app: string): (r: Result<PortsState>)
    ensures HasKey(ports.allocations, port) <==> r.Err?
    ensures r.Err? ==> r.error == ValueError(PortTakenMessage(port, Get(ports.allocations, port).value))
    ensures r.Ok? ==>
      && Get(r.value.allocations, port) == Some(app)
      && (forall k :: k != port ==> Get(r.value.allocations, k) == Get(ports.allocations, k))
      && r.value.nextPort == (if port >= ports.nextPort then port + 1 else ports.nextPort)
  {
    match Get(ports.allocations, port)
    case Some(owner) => Err(ValueError(PortTakenMessage(port, owner)))
    case None =>
      var next := if port >= ports.nextPort then port + 1 else ports.nextPort;
      Ok(PortsState(next, Set(ports.allocations, port, app)))
  }

  // ---------------------------------------------------------------------------------------
  // The invariant
  // ---------------------------------------------------------------------------------------

  /** Allocation, release and registration keep every allocated port below the counter and never lower it. */
  lemma OperationsKeepBounded(ports: PortsState, app: string, port: int)
    requires Bounded(ports)
    ensures Allocated(ports, app).Ok? ==>
      Bounded(Allocated(ports, app).value.0) && Allocated(ports, app).value.0.nextPort > ports.nextPort
    ensures Released(ports, app).Ok? ==>
      Bounded(Released(ports, app).value) && Released(ports, app).value.nextPort == ports.nextPort
    ensures Registered(ports, port, app).Ok? ==>
      Bounded(Registered(ports, port, app).value) && Registered(ports, port, app).value.nextPort >= ports.nextPort
  {
    if Allocated(ports, app).Ok? {
      var q := Allocated(ports, app).value.0;
      forall k | HasKey(q.allocations, k) ensures k < q.nextPort {
        if k != ports.nextPort {
          assert HasKey(ports.allocations, k);
        }
      }
    }
    if Released(ports, app).Ok? {
      var q := Released(ports, app).value;
      forall k | HasKey(q.allocations, k) ensures k < q.nextPort {
        assert HasKey(ports.allocations, k);
      }
    }
    if Registered(ports, port, app).Ok? {
      var q := Registered(ports, port, app).value;
      forall k | HasKey(q.allocations, k) ensures k < q.nextPort {
        if k != port {
          assert HasKey(ports.allocations, k);
        }
      }
    }
  }

  // ---------------------------------------------------------------------------------------
  // Remote-aware functions
  // ---------------------------------------------------------------------------------------

  /** `allocate_port`: read `ports.json`, allocate, write it back and return the port. */
  method AllocatePort(host: Host, app: string) returns (r: Result<int>)
    modifies host
    ensures var before := PortsAt(old(host.files), PortsPath(None));
      && (before.Err? ==> r == Err(before.error) && host.files == old(host.files) && host.log == old(host.log))
      && (before.Ok? && Allocated(before.value, app).Err? ==>
            r == Err(Allocated(before.value, app).error) && host.files == old(host.files) && host.log == old(host.log))
      && (before.Ok? && Allocated(before.value, app).Ok? ==>
            var (q, port) := Allocated(before.value, app).value;
            && host.log == old(host.log) + [Wrote(PortsPath(None))]
            && (PortsPath(None) in host.unwritable ==> r == Err(WriteFailed(PortsPath(None))) && host.files == old(host.files))
            && (PortsPath(None) !in host.unwritable ==> r == Ok(port) && host.files == old(host.files)[PortsPath(None) := PortsFile(q)]))
    ensures host.dirs == old(host.dirs)
  {
    var ports := ReadPortsState(host, None);
    if ports.Err? {
      return Err(ports.error);
    }
    var outcome := AllocateInState(ports.value, app);
    if outcome.Err? {
      return Err(outcome.error);
    }
    var (q, port) := outcome.value;
    var written := WritePortsState(host, q, None);
    if written.Err? {
      return Err(written.error);
    }
    return Ok(port);
  }

  /** `release_port`: read `ports.json`, release the app's port and write it back. */
  method ReleasePort(host: Host, app: string) returns (r: Result<()>)
    modifies host
    ensures var before := PortsAt(old(host.files), PortsPath(None));
      && (before.Err? ==> r == Err(before.error) && host.files == old(host.files) && host.log == old(host.log))
      && (before.Ok? && Released(before.value, app).Err? ==>
            r == Err(Released(before.value, app).error) && host.files == old(host.files) && host.log == old(host.log))
      && (before.Ok? && Released(before.value, app).Ok? ==>
            && host.log == old(host.log) + [Wrote(PortsPath(None))]
            && (PortsPath(None) in host.unwritable ==> r == Err(WriteFailed(PortsPath(None))) && host.files == old(host.files))
            && (PortsPath(None) !in host.unwritable ==>
                  r == Ok(()) && host.files == old(host.files)[PortsPath(None) := PortsFile(Released(before.value, app).value)]))
    ensures host.dirs == old(host.dirs)
  {
    var ports := ReadPortsState(host, None);
    if ports.Err? {
      return Err(ports.error);
    }
    var released := ReleaseInState(ports.value, app);
    if released.Err? {
      return Err(released.error);
    }
    var written := WritePortsState(host, released.value, None);
    if written.Err? {
      return Err(written.error);
    }
    return Ok(());
  }

  /** `register_port`: read `ports.json`, register the chosen port and write it back. */
  method RegisterPort(host: Host, port: int, app: string) returns (r: Result<()>)
    modifies host
    ensures var before := PortsAt(old(host.files), PortsPath(None));
      && (before.Err? ==> r == Err(before.error) && host.files == old(host.files) && host.log == old(host.log))
      && (before.Ok? && Registered(before.value, port, app).Err? ==>
            r == Err(Registered(before.value, port, app).error) && host.files == old(host.files) && host.log == old(host.log))
      && (before.Ok? && Registered(before.value, port, app).Ok? ==>
            && host.log == old(host.log) + [Wrote(PortsPath(None))]
            && (PortsPath(None) in host.unwritable ==> r == Err(WriteFailed(PortsPath(None))) && host.files == old(host.files))
            && (PortsPath(None) !in host.unwritable ==>
                  r == Ok(()) && host.files == old(host.files)[PortsPath(None) := PortsFile(Registered(before.value, port, app).value)]))
    ensures host.dirs == old(host.dirs)
  {
    var ports := ReadPortsState(host, None);
    if ports.Err? {
      return Err(ports.error);
    }
    var registered := Registered(ports.value, port, app);
    if registered.Err? {
      return Err(registered.error);
    }
    var written := WritePortsState(host, registered.value, None);
    if written.Err? {
      return Err(written.error);
    }
    return Ok(());
  }

  /** `get_app_port`: the first port held by the app, `None` when it holds none. */
  method GetAppPort(host: Host, app: string) returns (r: Result<Option<int>>)
    ensures var before := PortsAt(host.files, PortsPath(None));
      && (before.Err? ==> r == Err(before.error))
      && (before.Ok? ==> r == Ok(OwnedPort(before.value.allocations, app)))
  {
    var ports := ReadPortsState(host, None);
    if ports.Err? {
      return Err(ports.error);
    }
    var allocations := ports.value.allocations;
    var i := 0;
    while i < |allocations|
      invariant 0 <= i <= |allocations|
      invariant OwnedPort(allocations, app) == OwnedPort(allocations[i..], app)
    {
      if allocations[i].1 == app {
        return Ok(Some(allocations[i].0));
      }
      assert allocations[i..][1..] == allocations[i + 1..];
      i := i + 1;
    }
    return Ok(None);
  }

  /** Allocating a port to an app and releasing it again restores the allocations; only the counter moves on. */
  lemma AllocateThenRelease(ports: PortsState, app: string)
    requires Bounded(ports)
    requires OwnedPort(ports.allocations, app).None?
    ensures Allocated(ports, app).Ok?
    ensures Released(Allocated(ports, app).value.0, app) == Ok(PortsState(ports.nextPort + 1, ports.allocations))
  {
    AllocateFresh(ports, app);
    assert !HasKey(ports.allocations, ports.nextPort);
    RemoveSetFresh(ports.allocations, ports.nextPort, app);
  }

  /** After a successful allocation, `get_app_port` finds the allocated port. */
  lemma AllocateThenGet(ports: PortsState, app: string)
    requires Allocated(ports, app).Ok?
    ensures OwnedPort(Allocated(ports, app).value.0.allocations, app) == Some(Allocated(ports, app).value.1)
  {
    AllocateFresh(ports, app);
  }
}
