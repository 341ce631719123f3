/** The ports of the Service in front of NGINX: collected from the listeners without duplicates, named,
    and sorted so that the same set of listeners always gives the same list. */
module ServicePorts {
  import opened Gateways
  import opened Ordering
  import opened Decimal
  import opened Wrappers

  datatype Protocol = TCP | UDP

  datatype Entry = Entry(port: int, protocol: Protocol)

  datatype ServicePort = ServicePort(name: string, port: int, targetPort: int, protocol: Protocol, nodePort: int)

  const DEFAULT_PROBE_PORT := 8081

  function EntryOf(l: Listener): (e: Entry) {
    Entry(l.port, if l.protocol == "UDP" then UDP else TCP)
  }

  // ---- Collecting ----

  function AppendUnique(ports: seq<Entry>, e: Entry): (r: seq<Entry>) {
    if e in ports then ports else ports + [e]
  }

  function PortsOf(ls: seq<Listener>): (r: seq<Entry>) {
    if ls == [] then [] else AppendUnique(PortsOf(ls[..|ls| - 1]), EntryOf(ls[|ls| - 1]))
  }

  /** buildPortsFromListeners. */
  method BuildPortsFromListeners(ls: seq<Listener>) returns (ports: seq<Entry>)
    ensures ports == PortsOf(ls)
  {
    var seen: set<Entry> := {};
    ports := [];
    for i := 0 to |ls|
      invariant ports == PortsOf(ls[..i]) && seen == Elements(ports)
    {
      assert ls[..i + 1][..i] == ls[..i];
      var protocol := TCP;
      if ls[i].protocol == "UDP" { protocol := UDP; }
      var entry := Entry(ls[i].port, protocol);
      if entry !in seen {
        seen := seen + {entry};
        ports := ports + [entry];
      }
    }
    assert ls[..|ls|] == ls;
  }

  lemma {:induction false} PortsOfContents(ls: seq<Listener>)
    ensures NoDuplicates(PortsOf(ls))
    ensures forall e :: e in PortsOf(ls) ==> exists i :: 0 <= i < |ls| && EntryOf(ls[i]) == e
    ensures forall i :: 0 <= i < |ls| ==> EntryOf(ls[i]) in PortsOf(ls)
  {
    if ls != [] {
      var init := ls[..|ls| - 1];
      PortsOfContents(init);
      forall e | e in PortsOf(init) ensures exists i :: 0 <= i < |ls| && EntryOf(ls[i]) == e {
        var i :| 0 <= i < |init| && EntryOf(init[i]) == e;
        assert EntryOf(ls[i]) == e;
      }
      forall i | 0 <= i < |ls| ensures EntryOf(ls[i]) in PortsOf(ls) {
        if i < |init| { assert EntryOf(init[i]) in PortsOf(init); }
      }
    }
  }

  /** The unchanged key set decides the set of entries. */
  lemma SameKeysSameEntries(a: seq<Listener>, b: seq<Listener>)
    requires KeySet(a) == KeySet(b)
    ensures Elements(PortsOf(a)) == Elements(PortsOf(b))
  {
    EntriesFromKeys(a, b);
    EntriesFromKeys(b, a);
  }

  lemma EntriesFromKeys(a: seq<Listener>, b: seq<Listener>)
    requires KeySet(a) <= KeySet(b)
    ensures Elements(PortsOf(a)) <= Elements(PortsOf(b))
  {
    PortsOfContents(a);
    PortsOfContents(b);
    forall e | e in PortsOf(a) ensures e in PortsOf(b) {
      var i :| 0 <= i < |a| && EntryOf(a[i]) == e;
      assert KeyOf(a[i]) in KeySet(b);
      var j :| 0 <= j < |b| && KeyOf(b[j]) == KeyOf(a[i]);
      assert EntryOf(b[j]) == e;
    }
  }

  // ---- Naming ----

  function CountPort(ports: seq<Entry>, p: int): (n: nat) {
    if ports == [] then 0 else CountPort(ports[..|ports| - 1], p) + if ports[|ports| - 1].port == p then 1 else 0
  }

  function Lower(p: Protocol): (s: string) {
    match p case TCP => "tcp" case UDP => "udp"
  }

  function PortName(e: Entry, shared: bool, healthcheckPort: int): (s: string) {
    if healthcheckPort > 0 && e == Entry(healthcheckPort, TCP) then "health"
    else if shared then "port-" + Render(e.port) + "-" + Lower(e.protocol)
    else "port-" + Render(e.port)
  }

  /** The last matching node port wins. */
  function NodePortFor(nodePorts: seq<NodePort>, p: int): (r: int) {
    if nodePorts == [] then 0
    else if nodePorts[|nodePorts| - 1].listenerPort == p then nodePorts[|nodePorts| - 1].port
    else NodePortFor(nodePorts[..|nodePorts| - 1], p)
  }

  /** The configuration of the Service that the ports depend on. */
  datatype Cfg = Cfg(healthcheckPort: int, clusterIP: bool, nodePorts: seq<NodePort>)

  function PortFor(cfg: Cfg, shared: bool, e: Entry): (r: ServicePort) {
    ServicePort(PortName(e, shared, cfg.healthcheckPort), e.port, e.port, e.protocol,
                if cfg.clusterIP then 0 else NodePortFor(cfg.nodePorts, e.port))
  }

  function Named(cfg: Cfg, ports: seq<Entry>): (r: seq<ServicePort>) {
    seq(|ports|, i requires 0 <= i < |ports| => PortFor(cfg, CountPort(ports, ports[i].port) > 1, ports[i]))
  }

  predicate ByPort(a: ServicePort, b: ServicePort) {
    a.port < b.port || (a.port == b.port && (a.protocol.TCP? || b.protocol.UDP?))
  }

  lemma ByPortIsTotal()
    ensures TotalPreorder(ByPort)
  {
  }

  ghost predicate IsServicePorts(out: seq<ServicePort>, cfg: Cfg, ports: seq<Entry>) {
    IsSortOf(out, Named(cfg, ports), ByPort)
  }

  /** How many protocols use each port number. */
  method CountProtocols(ports: seq<Entry>) returns (perPort: map<int, nat>)
    ensures forall p :: CountPort(ports, p) == if p in perPort then perPort[p] else 0
  {
    perPort := map[];
    for i := 0 to |ports|
      invariant forall p :: CountPort(ports[..i], p) == if p in perPort then perPort[p] else 0
    {
      assert ports[..i + 1][..i] == ports[..i];
      var p := ports[i].port;
      perPort := perPort[p := 1 + if p in perPort then perPort[p] else 0];
    }
    assert ports[..|ports|] == ports;
  }

  method BuildPort(cfg: Cfg, entry: Entry, protocols: nat) returns (port: ServicePort)
    ensures port == PortFor(cfg, protocols > 1, entry)
  {
    var name := "port-" + Render(entry.port);
    if protocols > 1 { name := "port-" + Render(entry.port) + "-" + Lower(entry.protocol); }
    if cfg.healthcheckPort > 0 && entry.port == cfg.healthcheckPort && entry.protocol == TCP { name := "health"; }
    var nodePort := 0;
    if !cfg.clusterIP { nodePort := FindNodePort(cfg.nodePorts, entry.port); }
    port := ServicePort(name, entry.port, entry.port, entry.protocol, nodePort);
  }

  /** buildServicePorts; the contract leaves the sorting algorithm open. */
  method BuildServicePorts(cfg: Cfg, ports: seq<Entry>) returns (out: seq<ServicePort>)
    ensures IsServicePorts(out, cfg, ports)
  {
    var perPort := CountProtocols(ports);
    var named: seq<ServicePort> := [];
    for i := 0 to |ports|
      invariant named == Named(cfg, ports)[..i]
    {
      CountsItself(ports, i);
      var port := BuildPort(cfg, ports[i], perPort[ports[i].port]);
      assert port == Named(cfg, ports)[i];
      named := named + [port];
    }
    assert named == Named(cfg, ports);
    ByPortIsTotal();
    SortSorts(named, ByPort);
    out := Sort(named, ByPort);
  }

  method FindNodePort(nodePorts: seq<NodePort>, p: int) returns (nodePort: int)
    ensures nodePort == NodePortFor(nodePorts, p)
  {
    nodePort := 0;
    for i := 0 to |nodePorts|
      invariant nodePort == NodePortFor(nodePorts[..i], p)
    {
      assert nodePorts[..i + 1][..i] == nodePorts[..i];
      if nodePorts[i].listenerPort == p { nodePort := nodePorts[i].port; }
    }
    assert nodePorts[..|nodePorts|] == nodePorts;
  }

  lemma {:induction false} CountsItself(ports: seq<Entry>, i: nat)
    requires i < |ports|
    ensures CountPort(ports, ports[i].port) >= 1
  {
    if i < |ports| - 1 { CountsItself(ports[..|ports| - 1], i); }
  }

  // ---- What a set of entries decides ----

  /** A port number is shared exactly when both protocols use it. */
  ghost predicate Shared(es: set<Entry>, p: int) {
    Entry(p, TCP) in es && Entry(p, UDP) in es
  }

  lemma {:induction false} CountOfDistinct(ports: seq<Entry>, p: int)
    requires NoDuplicates(ports)
    ensures CountPort(ports, p) ==
            (if Entry(p, TCP) in ports then 1 else 0) + (if Entry(p, UDP) in ports then 1 else 0)
  {
    if ports != [] {
      var init, last := ports[..|ports| - 1], ports[|ports| - 1];
      CountOfDistinct(init, p);
      assert ports == init + [last];
      forall e ensures e in ports <==> e in init || e == last {}
      assert last !in init by { assert forall i :: 0 <= i < |init| ==> init[i] == ports[i] != ports[|ports| - 1]; }
      match last.protocol
      case TCP => assert last == Entry(last.port, TCP);
      case UDP => assert last == Entry(last.port, UDP);
    }
  }

  /** The port list of a set of entries, independent of any order. */
  ghost function SpecPort(cfg: Cfg, es: set<Entry>): (f: Entry -> ServicePort) {
    (e: Entry) => PortFor(cfg, Shared(es, e.port), e)
  }

  lemma NamedByElements(cfg: Cfg, ports: seq<Entry>)
    requires NoDuplicates(ports)
    ensures Named(cfg, ports) == Map(SpecPort(cfg, Elements(ports)), ports)
  {
    forall i | 0 <= i < |ports| ensures Named(cfg, ports)[i] == SpecPort(cfg, Elements(ports))(ports[i]) {
      CountOfDistinct(ports, ports[i].port);
    }
  }

  lemma OutSeparated(out: seq<ServicePort>, cfg: Cfg, ports: seq<Entry>)
    requires IsServicePorts(out, cfg, ports) && NoDuplicates(ports)
    ensures NoDuplicates(out) && Separates(out, ByPort)
  {
    var named := Named(cfg, ports);
    forall i, j | 0 <= i < j < |named| ensures named[i] != named[j] { assert ports[i] != ports[j]; }
    PermutationKeepsDistinct(out, named);
    SameElements(out, named);
    forall i, j | 0 <= i < |out| && 0 <= j < |out| && ByPort(out[i], out[j]) && ByPort(out[j], out[i])
      ensures out[i] == out[j]
    {
      assert out[i] in named && out[j] in named;
      var a :| 0 <= a < |named| && named[a] == out[i];
      var b :| 0 <= b < |named| && named[b] == out[j];
      assert ports[a] == ports[b];
    }
  }

  /** The built list depends only on the set of entries, not on their order nor on how it is sorted. */
  lemma ServicePortsAreCanonical(cfg: Cfg, a: seq<Entry>, b: seq<Entry>, out: seq<ServicePort>, out': seq<ServicePort>)
    requires NoDuplicates(a) && NoDuplicates(b) && Elements(a) == Elements(b)
    requires IsServicePorts(out, cfg, a) && IsServicePorts(out', cfg, b)
    ensures out == out'
  {
    DistinctSameSet(a, b);
    NamedByElements(cfg, a);
    NamedByElements(cfg, b);
    MapPermutes(SpecPort(cfg, Elements(a)), a, b);
    OutSeparated(out, cfg, a);
    SortedIsUnique(out, out', ByPort);
  }

  predicate IsHealth(e: Entry, hc: int) {
    hc > 0 && e == Entry(hc, TCP)
  }

  /** The three forms of a name are told apart by their first and last characters. */
  lemma NameForms(e: Entry, shared: bool, hc: int)
    ensures var n := PortName(e, shared, hc);
            && n != [] && (n[0] == 'h' <==> IsHealth(e, hc))
            && (!IsHealth(e, hc) ==> (n[|n| - 1] == 'p' <==> shared))
            && (!IsHealth(e, hc) && !shared ==> n[5..] == Render(e.port))
            && (!IsHealth(e, hc) && shared ==> n[5..|n| - 4] == Render(e.port) && n[|n| - 3..] == Lower(e.protocol))
  {
    RenderInjective(e.port, e.port);
    var r, n := Render(e.port), PortName(e, shared, hc);
    if !IsHealth(e, hc) {
      if shared {
        assert n == "port-" + r + "-" + Lower(e.protocol);
      } else {
        assert n == "port-" + r && n[|n| - 1] == r[|r| - 1];
      }
    }
  }

  lemma NameDetermines(e: Entry, f: Entry, es: set<Entry>, hc: int)
    requires e in es && f in es
    requires PortName(e, Shared(es, e.port), hc) == PortName(f, Shared(es, f.port), hc)
    ensures e == f
  {
    NameForms(e, Shared(es, e.port), hc);
    NameForms(f, Shared(es, f.port), hc);
    RenderInjective(e.port, f.port);
    assert Lower(TCP)[0] != Lower(UDP)[0];
    assert !IsHealth(e, hc) ==> e.port == f.port;
    assert e.protocol == f.protocol || Shared(es, e.port) || e.port != f.port by {
      assert e == Entry(e.port, e.protocol) && f == Entry(f.port, f.protocol);
    }
  }

  /** The list is strictly increasing in port and protocol, its names are pairwise distinct, and it exposes
      exactly the given entries. */
  lemma ServicePortsShape(cfg: Cfg, ports: seq<Entry>, out: seq<ServicePort>)
    requires NoDuplicates(ports) && IsServicePorts(out, cfg, ports)
    ensures forall i, j :: 0 <= i < j < |out| ==> ByPort(out[i], out[j]) && !ByPort(out[j], out[i])
    ensures forall i, j :: 0 <= i < j < |out| ==> out[i].name != out[j].name
    ensures forall k :: 0 <= k < |out| ==>
              && out[k].targetPort == out[k].port
              && out[k].nodePort == if cfg.clusterIP then 0 else NodePortFor(cfg.nodePorts, out[k].port)
    ensures forall e :: e in ports <==> exists k :: 0 <= k < |out| && Entry(out[k].port, out[k].protocol) == e
  {
    OutSeparated(out, cfg, ports);
    NamedByElements(cfg, ports);
    var named := Named(cfg, ports);
    SameElements(out, named);
    forall k | 0 <= k < |out|
      ensures exists a :: 0 <= a < |ports| && out[k] == SpecPort(cfg, Elements(ports))(ports[a])
    {
      assert out[k] in named;
      var a :| 0 <= a < |named| && named[a] == out[k];
      assert named[a] == Map(SpecPort(cfg, Elements(ports)), ports)[a];
    }
    forall i, j | 0 <= i < j < |out| ensures out[i].name != out[j].name {
      var a :| 0 <= a < |ports| && out[i] == SpecPort(cfg, Elements(ports))(ports[a]);
      var b :| 0 <= b < |ports| && out[j] == SpecPort(cfg, Elements(ports))(ports[b]);
      assert out[i] != out[j];
      if out[i].name == out[j].name { NameDetermines(ports[a], ports[b], Elements(ports), cfg.healthcheckPort); }
    }
    forall e | e in ports ensures exists k :: 0 <= k < |out| && Entry(out[k].port, out[k].protocol) == e {
      var a :| 0 <= a < |ports| && ports[a] == e;
      assert named[a] in out;
    }
  }

  /** Of several node ports given for a listener port the last one is used; without one there is none. */
  lemma {:induction false} LastNodePortWins(nodePorts: seq<NodePort>, p: int, i: nat)
    requires i <= |nodePorts|
    requires forall j :: i <= j < |nodePorts| ==> nodePorts[j].listenerPort != p
    ensures i == 0 ==> NodePortFor(nodePorts, p) == 0
    ensures i > 0 && nodePorts[i - 1].listenerPort == p ==> NodePortFor(nodePorts, p) == nodePorts[i - 1].port
  {
    if i < |nodePorts| { LastNodePortWins(nodePorts[..|nodePorts| - 1], p, i); }
  }

  // ---- From the Gateway to the Service ----

  /** The readiness probe of the workload that is configured, Deployment first. */
  function ProbeOf(gw: Gateway): (r: Option<Probe>) {
    if gw.proxy.None? || gw.proxy.value.kubernetes.None? then None
    else
      var k := gw.proxy.value.kubernetes.value;
      if k.deployment.Some? then k.deployment.value.probe
      else if k.daemonSet.Some? then k.daemonSet.value.probe
      else None
  }

  predicate ProbeExposed(gw: Gateway) {
    ProbeOf(gw).Some? && ProbeOf(gw).value.expose == Some(true)
  }

  function ProbePort(gw: Gateway): (p: int) {
    if ProbeOf(gw).Some? && ProbeOf(gw).value.port.Some? then ProbeOf(gw).value.port.value else DEFAULT_PROBE_PORT
  }

  function CfgOf(gw: Gateway): (r: Cfg) {
    var service :=
      if gw.proxy.Some? && gw.proxy.value.kubernetes.Some? then gw.proxy.value.kubernetes.value.service else None;
    Cfg(if ProbeExposed(gw) then ProbePort(gw) else 0,
        service.Some? && service.value.serviceType == Some("ClusterIP"),
        if service.Some? then service.value.nodePorts else [])
  }

  function EntriesOf(gw: Gateway): (r: seq<Entry>) {
    var ports := PortsOf(gw.listeners);
    if ProbeExposed(gw) then AppendUnique(ports, Entry(ProbePort(gw), TCP)) else ports
  }

  /** The ports of the Service built for a Gateway. */
  method BuildPortsForGateway(gw: Gateway) returns (out: seq<ServicePort>)
    ensures IsServicePorts(out, CfgOf(gw), EntriesOf(gw))
  {
    var ports := BuildPortsFromListeners(gw.listeners);
    if ProbeExposed(gw) { ports := AppendUnique(ports, Entry(ProbePort(gw), TCP)); }
    out := BuildServicePorts(CfgOf(gw), ports);
  }

  lemma SkippedSameCfg(was: Gateway, now: Gateway)
    requires !Differs(Some(was), now)
    ensures CfgOf(was) == CfgOf(now) && ProbeExposed(was) == ProbeExposed(now) && ProbePort(was) == ProbePort(now)
  {
  }

  lemma AppendUniqueElements(ports: seq<Entry>, e: Entry)
    ensures Elements(AppendUnique(ports, e)) == Elements(ports) + {e}
    ensures NoDuplicates(ports) ==> NoDuplicates(AppendUnique(ports, e))
  {
  }

  lemma SkippedSameEntries(was: Gateway, now: Gateway)
    requires !Differs(Some(was), now)
    ensures Elements(EntriesOf(was)) == Elements(EntriesOf(now))
    ensures NoDuplicates(EntriesOf(was)) && NoDuplicates(EntriesOf(now))
  {
    SkippedSameCfg(was, now);
    SameKeysSameEntries(was.listeners, now.listeners);
    PortsOfContents(was.listeners);
    PortsOfContents(now.listeners);
    var e := Entry(ProbePort(was), TCP);
    AppendUniqueElements(PortsOf(was.listeners), e);
    AppendUniqueElements(PortsOf(now.listeners), e);
  }

  /** A Gateway the provisioner skips as unchanged would have got exactly the Service ports it already has,
      whatever the order and the repetitions of its listeners. */
  lemma SkippingIsSound(was: Gateway, now: Gateway, out: seq<ServicePort>, out': seq<ServicePort>)
    requires !Differs(Some(was), now)
    requires IsServicePorts(out, CfgOf(was), EntriesOf(was)) && IsServicePorts(out', CfgOf(now), EntriesOf(now))
    ensures out == out'
  {
    SkippedSameCfg(was, now);
    SkippedSameEntries(was, now);
    ServicePortsAreCanonical(CfgOf(was), EntriesOf(was), EntriesOf(now), out, out');
  }

  // ---- The Service from the fields of the Gateway ----

  /** The Kubernetes section of the effective NginxProxy, empty if there is none. */
  function Section(gw: Gateway): (k: Kubernetes) {
    if gw.proxy.Some? && gw.proxy.value.kubernetes.Some? then gw.proxy.value.kubernetes.value
    else Kubernetes(None, None, None)
  }

  /** The Deployment's readiness probe, or the DaemonSet's if there is no Deployment, is to be exposed on the port. */
  ghost predicate ExposesProbe(gw: Gateway, port: int) {
    var k := Section(gw);
    exists p :: && IsProbe(k, p) && p.expose == Some(true)
                && port == if p.port.Some? then p.port.value else 8081
  }

  predicate IsProbe(k: Kubernetes, p: Probe) {
    || (k.deployment.Some? && k.deployment.value.probe == Some(p))
    || (k.deployment.None? && k.daemonSet.Some? && k.daemonSet.value.probe == Some(p))
  }

  /** A listener of the Gateway uses the port, with UDP if it says so and with TCP otherwise. */
  ghost predicate ListensOn(gw: Gateway, e: Entry) {
    exists i :: 0 <= i < |gw.listeners| && gw.listeners[i].port == e.port &&
                (gw.listeners[i].protocol == "UDP" <==> e.protocol == UDP)
  }

  lemma ProbeIff(gw: Gateway, port: int)
    ensures ProbeExposed(gw) && ProbePort(gw) == port <==> ExposesProbe(gw, port)
  {
    var k := Section(gw);
    assert forall p :: IsProbe(k, p) <==> ProbeOf(gw) == Some(p);
    if ProbeExposed(gw) && ProbePort(gw) == port { assert IsProbe(k, ProbeOf(gw).value); }
  }

  /** The entries are the listeners' ports and the exposed probe's. */
  lemma EntriesIff(gw: Gateway, e: Entry)
    ensures e in EntriesOf(gw) <==> Uses(gw, e)
    ensures NoDuplicates(EntriesOf(gw))
  {
    PortsOfContents(gw.listeners);
    ProbeIff(gw, e.port);
    AppendUniqueElements(PortsOf(gw.listeners), Entry(ProbePort(gw), TCP));
    assert e in PortsOf(gw.listeners) <==> ListensOn(gw, e) by {
      if e in PortsOf(gw.listeners) {
        var i :| 0 <= i < |gw.listeners| && EntryOf(gw.listeners[i]) == e;
      }
      if i :| 0 <= i < |gw.listeners| && gw.listeners[i].port == e.port &&
              (gw.listeners[i].protocol == "UDP" <==> e.protocol == UDP) {
        assert EntryOf(gw.listeners[i]) == e;
      }
    }
    assert e in EntriesOf(gw) <==> e in Elements(EntriesOf(gw));
  }

  /** The node port of a Service port: none for a ClusterIP Service or without a Service section, otherwise the last
      one configured for the port, if any. */
  ghost predicate HasNodePort(gw: Gateway, port: ServicePort) {
    var service := Section(gw).service;
    if service.None? || service.value.serviceType == Some("ClusterIP") then port.nodePort == 0
    else
      var given := service.value.nodePorts;
      && ((forall i :: 0 <= i < |given| ==> given[i].listenerPort != port.port) ==> port.nodePort == 0)
      && (forall i :: 0 <= i < |given| && given[i].listenerPort == port.port &&
                      (forall j :: i < j < |given| ==> given[j].listenerPort != port.port)
                      ==> port.nodePort == given[i].port)
  }

  /** The Gateway uses the port with the protocol, for a listener or for the probe. */
  ghost predicate Uses(gw: Gateway, e: Entry) {
    ListensOn(gw, e) || (e.protocol == TCP && ExposesProbe(gw, e.port))
  }

  ghost function NameIn(gw: Gateway, port: ServicePort): (s: string) {
    if port.protocol == TCP && port.port > 0 && ExposesProbe(gw, port.port) then "health"
    else OrdinaryName(port.port, port.protocol, Uses(gw, Entry(port.port, TCP)) && Uses(gw, Entry(port.port, UDP)))
  }

  /** The Service of a Gateway, from its fields: a port for exactly each listener port and protocol and for the exposed
      probe, with the node port its Service section gives it; the probe's port is called health, any other by its
      number, with the protocol if both protocols use it. */
  lemma ServiceOfGateway(gw: Gateway, out: seq<ServicePort>)
    requires IsServicePorts(out, CfgOf(gw), EntriesOf(gw))
    ensures forall e: Entry ::
              (exists k :: 0 <= k < |out| && out[k].port == e.port && out[k].protocol == e.protocol)
              <==> Uses(gw, e)
    ensures forall k :: 0 <= k < |out| ==> HasNodePort(gw, out[k])
    ensures forall k :: 0 <= k < |out| ==> out[k].targetPort == out[k].port && out[k].name == NameIn(gw, out[k])
  {
    var cfg, entries := CfgOf(gw), EntriesOf(gw);
    EntriesIff(gw, Entry(0, TCP));
    ServicePortsShape(cfg, entries, out);
    forall e: Entry
      ensures (exists k :: 0 <= k < |out| && out[k].port == e.port && out[k].protocol == e.protocol)
              <==> Uses(gw, e)
    {
      EntriesIff(gw, e);
    }
    forall k | 0 <= k < |out| ensures HasNodePort(gw, out[k]) { NodePortGiven(gw, out[k].port, out[k]); }
    forall k | 0 <= k < |out| ensures out[k].name == NameIn(gw, out[k]) {
      NamedAs(cfg, entries, out, k);
      ProbeIff(gw, out[k].port);
      EntriesIff(gw, Entry(out[k].port, TCP));
      EntriesIff(gw, Entry(out[k].port, UDP));
    }
  }

  lemma NodePortGiven(gw: Gateway, p: int, port: ServicePort)
    requires port.port == p
    requires port.nodePort == if CfgOf(gw).clusterIP then 0 else NodePortFor(CfgOf(gw).nodePorts, p)
    ensures HasNodePort(gw, port)
  {
    var given := CfgOf(gw).nodePorts;
    if forall i :: 0 <= i < |given| ==> given[i].listenerPort != p { LastNodePortWins(given, p, 0); }
    forall i | 0 <= i < |given| && given[i].listenerPort == p &&
               (forall j :: i < j < |given| ==> given[j].listenerPort != p)
      ensures NodePortFor(given, p) == given[i].port
    {
      LastNodePortWins(given, p, i + 1);
    }
  }

  /** What a port is called that is not the health check's: the protocol is added if both use the number. */
  function OrdinaryName(port: int, protocol: Protocol, both: bool): (s: string) {
    "port-" + Render(port) + if !both then "" else if protocol == TCP then "-tcp" else "-udp"
  }

  lemma NamedAs(cfg: Cfg, ports: seq<Entry>, out: seq<ServicePort>, k: nat)
    requires NoDuplicates(ports) && IsServicePorts(out, cfg, ports) && k < |out|
    ensures out[k].name ==
            if cfg.healthcheckPort > 0 && out[k].port == cfg.healthcheckPort && out[k].protocol == TCP then "health"
            else
              var both := Entry(out[k].port, TCP) in ports && Entry(out[k].port, UDP) in ports;
              OrdinaryName(out[k].port, out[k].protocol, both)
  {
    var named := Named(cfg, ports);
    SameElements(out, named);
    assert out[k] in named;
    var a :| 0 <= a < |named| && named[a] == out[k];
    var port, protocol := out[k].port, out[k].protocol;
    CountOfDistinct(ports, port);
    assert ports[a] == Entry(port, protocol) && ports[a] in ports;
    assert "port-" + Render(port) + "" == "port-" + Render(port);
    assert "port-" + Render(port) + "-" + Lower(protocol) == "port-" + Render(port) + ("-" + Lower(protocol));
    assert "-" + Lower(protocol) == if protocol == TCP then "-tcp" else "-udp";
  }
}
