/** The backend's client for one sandbox container
  * (backend/app/infrastructure/external/sandbox/docker_sandbox.py):
  * address derivation, the sandbox id, container address selection, the
  * bounded readiness poll, the resolver, `create`/`get` and `destroy`.
  * The Docker engine, DNS and the control plane's HTTP replies are inputs. */
module DockerSandbox {
  import opened Wrappers
  import opened PyStr

  // ---------------------------------------------------------------------
  // Addresses and the id

  /** `str(ip)` inside an f-string: a missing address prints as "None". */
  function Show(ip: Option<string>): string
  {
    if ip.None? then "None" else ip.value
  }

  /** `http://{ip}:{port}`. */
  function HttpUrl(ip: Option<string>, port: string): (r: string)
    ensures |r| == 8 + |Show(ip)| + |port|
    ensures StartsWith(r, "http://") && EndsWith(r, ":" + port)
    ensures r[7..|r| - |port| - 1] == Show(ip)
  {
    var r := "http://" + Show(ip) + ":" + port;
    assert r[7..|r| - |port| - 1] == Show(ip);
    assert r[..7] == "http://";
    assert r[|r| - |port| - 1..] == ":" + port;
    r
  }

  /** The control plane, `http://{ip}:8080`. */
  function BaseUrl(ip: Option<string>): (r: string)
    ensures |r| == 12 + |Show(ip)|
    ensures StartsWith(r, "http://") && EndsWith(r, ":8080") && r[7..|r| - 5] == Show(ip)
  {
    HttpUrl(ip, "8080")
  }

  /** Chrome's debugging endpoint, `http://{ip}:9222`. */
  function CdpUrl(ip: Option<string>): (r: string)
    ensures |r| == 12 + |Show(ip)|
    ensures StartsWith(r, "http://") && EndsWith(r, ":9222") && r[7..|r| - 5] == Show(ip)
  {
    HttpUrl(ip, "9222")
  }

  /** The VNC endpoint, `ws://{ip}:5901`. */
  function VncUrl(ip: Option<string>): (r: string)
    ensures |r| == 10 + |Show(ip)|
    ensures StartsWith(r, "ws://") && EndsWith(r, ":5901") && r[5..|r| - 5] == Show(ip)
  {
    var r := "ws://" + Show(ip) + ":5901";
    assert r[5..|r| - 5] == Show(ip);
    assert r[..5] == "ws://";
    assert r[|r| - 5..] == ":5901";
    r
  }

  /** The `id` property: the container name, or "dev-sandbox" when there is
    * none (a missing or empty name). */
  function SandboxId(containerName: Option<string>): (r: string)
    ensures r != ""
    ensures containerName.Some? && containerName.value != "" ==> r == containerName.value
    ensures (containerName.None? || containerName.value == "") ==> r == "dev-sandbox"
  {
    if containerName.None? || containerName.value == "" then "dev-sandbox" else containerName.value
  }

  /** The name of a new container: the prefix, "-" and the first 8
    * characters of a uuid's text. */
  function ContainerName(prefix: string, uuid: string): (r: string)
    ensures |r| == |prefix| + 1 + (if |uuid| < 8 then |uuid| else 8)
    ensures StartsWith(r, prefix + "-")
    ensures r[|prefix| + 1..] == uuid[..|r| - |prefix| - 1]
  {
    var r := prefix + "-" + Take(uuid, 8);
    assert r[..|prefix| + 1] == prefix + "-";
    assert r[|prefix| + 1..] == Take(uuid, 8);
    r
  }

  // ---------------------------------------------------------------------
  // Container address selection

  /** One entry of `NetworkSettings.Networks`; `ipAddress` is `None` when
    * the key is absent. */
  datatype NetworkConfig = NetworkConfig(name: string, ipAddress: Option<string>)

  /** `container.attrs['NetworkSettings']`: the primary address and, when
    * the key is present, the attached networks in iteration order. */
  datatype NetworkSettings = NetworkSettings(ipAddress: string, networks: Option<seq<NetworkConfig>>)

  /** A network whose `IPAddress` is present and non-empty. */
  predicate HasAddress(n: NetworkConfig)
  {
    n.ipAddress.Some? && n.ipAddress.value != ""
  }

  /** The first network at or after `from` that has an address, `|nets|`
    * when none does. */
  function FirstAddressed(nets: seq<NetworkConfig>, from: nat): (k: nat)
    requires from <= |nets|
    ensures from <= k <= |nets|
    ensures forall j :: from <= j < k ==> !HasAddress(nets[j])
    ensures k < |nets| ==> HasAddress(nets[k])
    decreases |nets| - from
  {
    if from == |nets| then from
    else if HasAddress(nets[from]) then from
    else FirstAddressed(nets, from + 1)
  }

  /** The address `_get_container_ip` picks: the primary one when
    * non-empty, else the first network's that has one, else the (empty)
    * primary value. */
  function ContainerIpSpec(ns: NetworkSettings): (r: string)
    ensures ns.ipAddress != "" ==> r == ns.ipAddress
    ensures r == "" <==> ns.ipAddress == "" && (ns.networks.None? || forall j :: 0 <= j < |ns.networks.value| ==> !HasAddress(ns.networks.value[j]))
    ensures ns.ipAddress == "" && r != "" ==>
              var k := FirstAddressed(ns.networks.value, 0);
              k < |ns.networks.value| && Some(r) == ns.networks.value[k].ipAddress
  {
    if ns.ipAddress != "" || ns.networks.None? then ns.ipAddress
    else
      var nets := ns.networks.value;
      var k := FirstAddressed(nets, 0);
      if k < |nets| then nets[k].ipAddress.value else ns.ipAddress
  }

  /** `_get_container_ip`: the loop over the networks that stops at the
    * first address. */
  method ContainerIp(ns: NetworkSettings) returns (ip: string)
    ensures ip == ContainerIpSpec(ns)
  {
    ip := ns.ipAddress;
    if ip == "" && ns.networks.Some? {
      var nets := ns.networks.value;
      var i := 0;
      while i < |nets|
        invariant 0 <= i <= |nets|
        invariant forall j :: 0 <= j < i ==> !HasAddress(nets[j])
        invariant ip == ""
      {
        if nets[i].ipAddress.Some? && nets[i].ipAddress.value != "" {
          assert FirstAddressed(nets, 0) == i;
          ip := nets[i].ipAddress.value;
          break;
        }
        i := i + 1;
      }
    }
  }

  // ---------------------------------------------------------------------
  // The readiness poll

  /** One service of the supervisor's status reply; a key the reply lacks
    * is `None`. */
  datatype Service = Service(name: Option<string>, statename: Option<string>)

  /** One poll of `/api/v1/supervisor/status`: the request or decoding
    * raised, or the reply's `success` flag and `data` list. */
  datatype Poll = PollRaised | PollReply(success: bool, data: Option<seq<Service>>)

  const MaxRetries: nat := 30
  const RetryInterval: nat := 2

  /** `service.get("statename", "")`. */
  function StateName(s: Service): string
  {
    if s.statename.Some? then s.statename.value else ""
  }

  predicate Running(s: Service)
  {
    StateName(s) == "RUNNING"
  }

  /** `tool_result.data or []`. */
  function Services(p: Poll): seq<Service>
    requires p.PollReply?
  {
    if p.data.None? then [] else p.data.value
  }

  /** A poll that ends the wait: a successful reply listing at least one
    * service, every one of them RUNNING. */
  predicate Ready(p: Poll)
  {
    p.PollReply? && p.success && |Services(p)| > 0
    && forall i :: 0 <= i < |Services(p)| ==> Running(Services(p)[i])
  }

  /** `{name}({statename})`, the name defaulting to "unknown". */
  function Describe(s: Service): string
  {
    (if s.name.Some? then s.name.value else "unknown") + "(" + StateName(s) + ")"
  }

  /** The services that are not RUNNING, described, in order. */
  function NonRunning(services: seq<Service>): (r: seq<string>)
    ensures r == [] <==> forall i :: 0 <= i < |services| ==> Running(services[i])
    ensures |r| <= |services|
  {
    if services == [] then []
    else
      var rest := NonRunning(services[1..]);
      assert forall i :: 0 <= i < |services| - 1 ==> services[1..][i] == services[i + 1];
      if Running(services[0]) then rest else [Describe(services[0])] + rest
  }

  lemma {:induction false} NonRunningSnoc(services: seq<Service>, s: Service)
    ensures NonRunning(services + [s]) == NonRunning(services) + (if Running(s) then [] else [Describe(s)])
    decreases |services|
  {
    if services == [] {
      assert [s][1..] == [];
    } else {
      assert (services + [s])[1..] == services[1..] + [s];
      NonRunningSnoc(services[1..], s);
    }
  }

  lemma NonRunningStep(services: seq<Service>, i: nat)
    requires i < |services|
    ensures NonRunning(services[..i + 1])
            == NonRunning(services[..i]) + (if Running(services[i]) then [] else [Describe(services[i])])
  {
    assert services[..i + 1] == services[..i] + [services[i]];
    NonRunningSnoc(services[..i], services[i]);
  }

  /** The loop over the services of one reply. */
  method CheckServices(services: seq<Service>) returns (allRunning: bool, nonRunning: seq<string>)
    ensures nonRunning == NonRunning(services)
    ensures allRunning <==> forall i :: 0 <= i < |services| ==> Running(services[i])
  {
    allRunning := true;
    nonRunning := [];
    var i := 0;
    while i < |services|
      invariant 0 <= i <= |services|
      invariant nonRunning == NonRunning(services[..i])
      invariant allRunning <==> nonRunning == []
    {
      NonRunningStep(services, i);
      if !Running(services[i]) {
        allRunning := false;
        nonRunning := nonRunning + [Describe(services[i])];
      }
      i := i + 1;
    }
    assert services[..i] == services;
  }

  /** The first of the allowed polls at or after `from` that is ready,
    * `MaxRetries` when none is. */
  function FirstReady(poll: nat -> Poll, from: nat): (k: nat)
    requires from <= MaxRetries
    ensures from <= k <= MaxRetries
    ensures forall j :: from <= j < k ==> !Ready(poll(j))
    ensures k < MaxRetries ==> Ready(poll(k))
    decreases MaxRetries - from
  {
    if from == MaxRetries then from
    else if Ready(poll(from)) then from
    else FirstReady(poll, from + 1)
  }

  /** `ensure_sandbox`, with `poll(k)` the outcome of attempt `k`: at most
    * 30 attempts, stopping at the first ready one, with a 2-second sleep
    * after every other attempt. Running out of attempts does not raise. */
  method EnsureSandbox(poll: nat -> Poll) returns (attempts: nat, ready: bool, slept: nat)
    ensures ready <==> FirstReady(poll, 0) < MaxRetries
    ensures attempts == (if ready then FirstReady(poll, 0) + 1 else MaxRetries)
    ensures 1 <= attempts <= MaxRetries
    ensures ready ==> Ready(poll(attempts - 1)) && forall k :: 0 <= k < attempts - 1 ==> !Ready(poll(k))
    ensures !ready ==> forall k :: 0 <= k < MaxRetries ==> !Ready(poll(k))
    ensures slept == RetryInterval * (if ready then attempts - 1 else attempts)
  {
    attempts := 0;
    slept := 0;
    ready := false;
    var attempt := 0;
    while attempt < MaxRetries
      invariant 0 <= attempt <= MaxRetries
      invariant attempts == attempt && slept == RetryInterval * attempt
      invariant forall k :: 0 <= k < attempt ==> !Ready(poll(k))
    {
      attempts := attempts + 1;
      var p := poll(attempt);
      if p.PollRaised? || !p.success {
        slept := slept + RetryInterval;
        attempt := attempt + 1;
        continue;
      }
      var services := Services(p);
      if services == [] {
        slept := slept + RetryInterval;
        attempt := attempt + 1;
        continue;
      }
      var allRunning, _ := CheckServices(services);
      if allRunning {
        assert FirstReady(poll, 0) == attempt;
        ready := true;
        return;
      }
      slept := slept + RetryInterval;
      attempt := attempt + 1;
    }
  }

  // ---------------------------------------------------------------------
  // The resolver

  /** `_resolve_hostname_to_ip` (both definitions are the same; the second
    * is the one bound). `inetPton` says whether `socket.inet_pton` accepts
    * the text as an IPv4 address; `lookup` is `getaddrinfo`'s IPv4
    * addresses, `None` when it raises. */
  function Resolve(hostname: string, inetPton: string -> bool, lookup: string -> Option<seq<string>>): (r: Option<string>)
    ensures inetPton(hostname) ==> r == Some(hostname)
    ensures !inetPton(hostname) ==>
              (r.Some? <==> lookup(hostname).Some? && |lookup(hostname).value| > 0)
    ensures !inetPton(hostname) && r.Some? ==> r.value == lookup(hostname).value[0]
  {
    if inetPton(hostname) then Some(hostname)
    else
      var info := lookup(hostname);
      if info.None? || |info.value| == 0 then None else Some(info.value[0])
  }

  /** A resolved literal resolves to itself, without a lookup. */
  lemma {:induction false} ResolveLiteralFixed(hostname: string, inetPton: string -> bool,
                                               lookup: string -> Option<seq<string>>,
                                               other: string -> Option<seq<string>>)
    requires Resolve(hostname, inetPton, lookup).Some?
    requires inetPton(Resolve(hostname, inetPton, lookup).value)
    ensures var ip := Resolve(hostname, inetPton, lookup).value;
            Resolve(ip, inetPton, other) == Some(ip)
  {
    var ip := Resolve(hostname, inetPton, lookup).value;
    assert inetPton(ip);
  }

  // ---------------------------------------------------------------------
  // Destroying a sandbox

  /** `destroy` as written: after closing the client it reads
    * `self.container_name`, an attribute the class never sets, and the
    * `AttributeError` makes it return False on every sandbox. */
  function DestroyAsWritten(containerName: Option<string>, remove: string -> bool): (ok: bool)
    ensures !ok
  {
    false
  }

  /** `destroy` as intended: with no container name there is nothing to
    * remove; otherwise the result is whether the forced removal succeeded. */
  function DestroyResult(containerName: Option<string>, remove: string -> bool): (ok: bool)
    ensures containerName.None? || containerName.value == "" ==> ok
    ensures containerName.Some? && containerName.value != "" ==> (ok <==> remove(containerName.value))
  {
    if containerName.None? || containerName.value == "" then true else remove(containerName.value)
  }

  /** The as-written `destroy` reports failure for a static-mode sandbox,
    * which has no container to remove and whose intended result is True. */
  lemma DestroyFinding(remove: string -> bool)
    ensures !DestroyAsWritten(None, remove)
    ensures DestroyResult(None, remove)
  {
  }

  // ---------------------------------------------------------------------
  // Sandboxes and how they are obtained

  class Sandbox {
    const ip: Option<string>
    const containerName: Option<string>
    const baseUrl: string
    const vncUrl: string
    const cdpUrl: string
    /** Whether the HTTP client is still open. */
    var clientOpen: bool

    /** `DockerSandbox(ip, container_name)`: the three addresses are fixed here. */
    constructor(ip: Option<string>, containerName: Option<string>)
      ensures this.ip == ip && this.containerName == containerName
      ensures baseUrl == BaseUrl(ip) && vncUrl == VncUrl(ip) && cdpUrl == CdpUrl(ip)
      ensures clientOpen
    {
      this.ip := ip;
      this.containerName := containerName;
      baseUrl := BaseUrl(ip);
      vncUrl := VncUrl(ip);
      cdpUrl := CdpUrl(ip);
      clientOpen := true;
    }

    function Id(): (r: string)
      ensures r == SandboxId(containerName)
    {
      SandboxId(containerName)
    }

    /** `destroy` as written: closes the client, then reads the missing
      * attribute `container_name`, so the removal is never reached and the
      * `except` reports failure. `remove` is the Docker engine's forced
      * removal, which `DestroyResult` would call. */
    method Destroy(remove: string -> bool) returns (ok: bool)
      modifies this
      ensures !clientOpen
      ensures ok == DestroyAsWritten(containerName, remove)
    {
      clientOpen := false;
      ok := false;
    }
  }

  /** The settings `create` and `get` read: the fixed sandbox address
    * (static mode when non-empty) and the container name prefix. */
  datatype Settings = Settings(address: Option<string>, namePrefix: string)

  predicate StaticMode(s: Settings)
  {
    s.address.Some? && s.address.value != ""
  }

  /** `create` and the memoized `get`. `resolve` is the resolver with its
    * collaborators fixed; `inspect` is the network settings of a running
    * container (`None` when the container cannot be found); `run` starts a
    * container of the given name and gives its network settings (`Err`
    * when the engine raises). */
  class Provider {
    const settings: Settings
    const resolve: string -> Option<string>
    const inspect: string -> Option<NetworkSettings>
    const run: string -> Result<NetworkSettings, string>
    /** The memo of `get`, by id. */
    var cache: map<string, Sandbox>

    constructor(settings: Settings, resolve: string -> Option<string>,
                inspect: string -> Option<NetworkSettings>,
                run: string -> Result<NetworkSettings, string>)
      ensures this.settings == settings && this.resolve == resolve
      ensures this.inspect == inspect && this.run == run
      ensures cache == map[]
    {
      this.settings := settings;
      this.resolve := resolve;
      this.inspect := inspect;
      this.run := run;
      cache := map[];
    }

    /** `create`: in static mode a sandbox at the resolved address with no
      * container name, hence id "dev-sandbox"; otherwise a new container
      * named from the prefix and `uuid`. */
    method Create(uuid: string) returns (r: Result<Sandbox, string>)
      ensures StaticMode(settings) ==>
                r.Ok? && fresh(r.value) && r.value.ip == resolve(settings.address.value)
                && r.value.containerName.None? && r.value.Id() == "dev-sandbox"
      ensures !StaticMode(settings) ==>
                var name := ContainerName(settings.namePrefix, uuid);
                (r.Err? <==> run(name).Err?)
                && (r.Err? ==> r.error == "Failed to create Docker sandbox: " + run(name).error)
                && (r.Ok? ==> fresh(r.value) && r.value.containerName == Some(name)
                              && r.value.ip == Some(ContainerIpSpec(run(name).value))
                              && r.value.Id() == name)
    {
      if StaticMode(settings) {
        var ip := resolve(settings.address.value);
        var s := new Sandbox(ip, None);
        return Ok(s);
      }
      var name := ContainerName(settings.namePrefix, uuid);
      var started := run(name);
      if started.Err? {
        return Err("Failed to create Docker sandbox: " + started.error);
      }
      var ip := ContainerIp(started.value);
      var s := new Sandbox(Some(ip), Some(name));
      return Ok(s);
    }

    /** `get`: the memoized sandbox for `id`, otherwise a new one named
      * `id` (at the fixed address in static mode, at the container's own
      * address otherwise), remembered for later calls. A failed lookup
      * raises and is not remembered. */
    method Get(id: string) returns (r: Result<Sandbox, string>)
      modifies this
      ensures id in old(cache) ==> r == Ok(old(cache)[id]) && cache == old(cache)
      ensures id !in old(cache) && r.Ok? ==>
                fresh(r.value) && cache == old(cache)[id := r.value]
                && r.value.containerName == Some(id)
                && (StaticMode(settings) ==> r.value.ip == resolve(settings.address.value))
                && (!StaticMode(settings) ==>
                      inspect(id).Some? && r.value.ip == Some(ContainerIpSpec(inspect(id).value)))
      ensures id !in old(cache) && r.Err? ==>
                !StaticMode(settings) && inspect(id).None? && cache == old(cache)
      ensures StaticMode(settings) ==> r.Ok?
    {
      if id in cache {
        return Ok(cache[id]);
      }
      var s;
      if StaticMode(settings) {
        s := new Sandbox(resolve(settings.address.value), Some(id));
      } else {
        var found := inspect(id);
        if found.None? {
          return Err("container not found: " + id);
        }
        var ip := ContainerIp(found.value);
        s := new Sandbox(Some(ip), Some(id));
      }
      cache := cache[id := s];
      return Ok(s);
    }
  }

  /** Two calls of `get` with the same id give the same sandbox object. */
  method GetTwice(p: Provider, id: string) returns (a: Result<Sandbox, string>, b: Result<Sandbox, string>)
    modifies p
    ensures a.Ok? ==> b == a
  {
    a := p.Get(id);
    b := p.Get(id);
  }
}
