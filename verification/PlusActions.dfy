/** NGINX Plus API actions: how the updater builds them from upstreams and decides that nothing has to be
    sent because the stored ones are the same. */
module PlusActions {
  import opened Ordering
  import opened Decimal

  /** A protobuf value; only string values are built here, the other kinds carry an arbitrary payload. */
  datatype Value = StringValue(s: string) | OtherValue(payload: int)

  type Struct = map<string, Value>

  datatype Action =
    | UpdateHttp(name: string, servers: seq<Struct>)
    | UpdateStream(name: string, servers: seq<Struct>)
    | OtherAction(payload: int)

  // ---- Comparison ----

  predicate ValuesEqual(a: Value, b: Value) {
    match a
    case StringValue(s) => b.StringValue? && s == b.s
    case OtherValue(_) => false
  }

  predicate StructsEqual(a: Struct, b: Struct) {
    |a| == |b| && forall k :: k in a ==> k in b && ValuesEqual(a[k], b[k])
  }

  predicate ServersEqual(a: seq<Struct>, b: seq<Struct>) {
    |a| == |b| && forall i :: 0 <= i < |a| ==> StructsEqual(a[i], b[i])
  }

  predicate ActionEqual(a: Action, b: Action) {
    match a
    case UpdateHttp(n, s) => b.UpdateHttp? && n == b.name && ServersEqual(s, b.servers)
    case UpdateStream(n, s) => b.UpdateStream? && n == b.name && ServersEqual(s, b.servers)
    case OtherAction(_) => false
  }

  predicate ActionsEqual(a: seq<Action>, b: seq<Action>) {
    |a| == |b| && forall i :: 0 <= i < |a| ==> ActionEqual(a[i], b[i])
  }

  ghost predicate ComparableStruct(s: Struct) {
    forall k :: k in s ==> s[k].StringValue?
  }

  /** What the comparison can see through: the two upstream updates, with string fields only. */
  ghost predicate Comparable(a: Action) {
    !a.OtherAction? && forall i :: 0 <= i < |a.servers| ==> ComparableStruct(a.servers[i])
  }

  /** Equal sizes and inclusion one way are equality. */
  lemma StructsEqualExact(a: Struct, b: Struct)
    ensures StructsEqual(a, b) <==> a == b && ComparableStruct(a)
  {
    if StructsEqual(a, b) {
      assert a.Keys <= b.Keys && |a.Keys| == |b.Keys|;
      SubsetOfSameSize(a.Keys, b.Keys);
    }
  }

  lemma SubsetOfSameSize<T>(a: set<T>, b: set<T>)
    requires a <= b && |a| == |b|
    ensures a == b
  {
    assert |b - a| == 0;
  }

  lemma ServersEqualExact(a: seq<Struct>, b: seq<Struct>)
    ensures ServersEqual(a, b) <==> a == b && forall i :: 0 <= i < |a| ==> ComparableStruct(a[i])
  {
    forall i | 0 <= i < |a| && i < |b| ensures StructsEqual(a[i], b[i]) <==> a[i] == b[i] && ComparableStruct(a[i]) {
      StructsEqualExact(a[i], b[i]);
    }
  }

  /** actionsEqual is equality on exactly the lists it can see through, and false on every other list. */
  lemma ActionsEqualExact(a: seq<Action>, b: seq<Action>)
    ensures ActionsEqual(a, b) <==> a == b && forall i :: 0 <= i < |a| ==> Comparable(a[i])
  {
    forall i | 0 <= i < |a| && i < |b| ensures ActionEqual(a[i], b[i]) <==> a[i] == b[i] && Comparable(a[i]) {
      if !a[i].OtherAction? && !b[i].OtherAction? { ServersEqualExact(a[i].servers, b[i].servers); }
    }
  }

  // ---- Construction ----

  datatype Endpoint = Endpoint(address: string, port: int, ipv6: bool, resolve: bool)

  datatype Upstream = Upstream(name: string, endpoints: seq<Endpoint>)

  const NGINX_503_SERVER := "unix:/var/run/nginx/nginx-503-server.sock"

  function Address(e: Endpoint): (s: string) {
    var port := if e.port != 0 then ":" + Render(e.port) else "";
    (if e.ipv6 then "[" + e.address + "]" else e.address) + port
  }

  /** The rendered server in each case: brackets for IPv6, and the port unless it is zero. */
  lemma AddressCases(e: Endpoint)
    ensures !e.ipv6 && e.port == 0 ==> Address(e) == e.address
    ensures !e.ipv6 && e.port != 0 ==> Address(e) == e.address + ":" + Render(e.port)
    ensures e.ipv6 && e.port == 0 ==> Address(e) == "[" + e.address + "]"
    ensures e.ipv6 && e.port != 0 ==> Address(e) == "[" + e.address + "]:" + Render(e.port)
  {
    assert "[" + e.address + "]" + (":" + Render(e.port)) == "[" + e.address + "]:" + Render(e.port);
    assert e.address + "" == e.address && "[" + e.address + "]" + "" == "[" + e.address + "]";
  }

  /** Where the first separator stands, or the end. */
  function Until(s: string, c: char): (n: nat)
    ensures n <= |s|
  {
    if s == "" || s[0] == c then 0 else 1 + Until(s[1..], c)
  }

  lemma {:induction false} UntilIs(a: string, x: string, c: char)
    requires c !in a && (x == "" || x[0] == c)
    ensures Until(a + x, c) == |a|
  {
    if a != "" {
      assert a[0] in a && (a + x)[1..] == a[1..] + x;
      UntilIs(a[1..], x, c);
    } else {
      assert a + x == x;
    }
  }

  /** An IPv6 address has no closing bracket; another address has no colon and does not open with a bracket. */
  predicate Plain(e: Endpoint) {
    if e.ipv6 then ']' !in e.address else ':' !in e.address && (e.address == "" || e.address[0] != '[')
  }

  function PortPart(port: int): (s: string) {
    if port != 0 then ":" + Render(port) else ""
  }

  /** An endpoint read back from its rendering: the bracket tells IPv6, and the first separator ends the address. */
  lemma AddressReadsBack(e: Endpoint)
    requires Plain(e)
    ensures e.ipv6 <==> Address(e) != "" && Address(e)[0] == '['
    ensures var s := if e.ipv6 then Address(e)[1..] else Address(e);
            var n := Until(s, if e.ipv6 then ']' else ':');
            e.address == s[..n] && PortPart(e.port) == if e.ipv6 then s[n..][1..] else s[n..]
  {
    AddressCases(e);
    var port := PortPart(e.port);
    if e.ipv6 {
      var s := Address(e)[1..];
      assert s == e.address + ("]" + port);
      UntilIs(e.address, "]" + port, ']');
      assert s[|e.address|..] == "]" + port;
    } else {
      assert Address(e) == e.address + port;
      UntilIs(e.address, port, ':');
      assert Address(e)[|e.address|..] == port;
    }
  }

  /** Different endpoints are different servers. */
  lemma AddressDetermines(e: Endpoint, f: Endpoint)
    requires Plain(e) && Plain(f) && Address(e) == Address(f)
    ensures e.address == f.address && e.port == f.port && e.ipv6 == f.ipv6
  {
    AddressReadsBack(e);
    AddressReadsBack(f);
    assert PortPart(e.port) == PortPart(f.port);
    RenderInjective(e.port, f.port);
    if e.port != 0 && f.port != 0 {
      assert PortPart(e.port)[1..] == Render(e.port) && PortPart(f.port)[1..] == Render(f.port);
    }
  }

  function Server(address: string): (r: Struct) {
    map["server" := StringValue(address)]
  }

  /** Fields["server"].GetStringValue(), empty if there is no such string. */
  function ServerOf(s: Struct): (r: string) {
    if "server" in s && s["server"].StringValue? then s["server"].s else ""
  }

  predicate ByServer(a: Struct, b: Struct) {
    StringLe(ServerOf(a), ServerOf(b))
  }

  function Servers(es: seq<Endpoint>): (r: seq<Struct>) {
    Map(ServerFor, es)
  }

  function ServerFor(e: Endpoint): (r: Struct) {
    Server(Address(e))
  }

  /** buildUpstreamServers. Its contract leaves open how the servers are sorted. */
  method BuildUpstreamServers(u: Upstream) returns (servers: seq<Struct>)
    ensures IsServerList(servers, u)
  {
    if |u.endpoints| == 0 {
      return [Server(NGINX_503_SERVER)];
    }
    servers := [];
    for i := 0 to |u.endpoints|
      invariant servers == Servers(u.endpoints[..i])
    {
      servers := servers + [Server(Address(u.endpoints[i]))];
      assert servers[i] == ServerFor(u.endpoints[..i + 1][i]);
    }
    assert u.endpoints[..|u.endpoints|] == u.endpoints;
    ByServerIsTotal();
    SortSorts(servers, ByServer);
    servers := Sort(servers, ByServer);
  }

  ghost predicate IsServerList(servers: seq<Struct>, u: Upstream) {
    if u.endpoints == [] then servers == [Server(NGINX_503_SERVER)]
    else IsSortOf(servers, Servers(u.endpoints), ByServer)
  }

  /** An upstream without endpoints gets the one server that answers with 503. */
  lemma NoEndpoints(u: Upstream, servers: seq<Struct>)
    requires u.endpoints == [] && IsServerList(servers, u)
    ensures servers == [map["server" := StringValue("unix:/var/run/nginx/nginx-503-server.sock")]]
  {
  }

  lemma ByServerIsTotal()
    ensures TotalPreorder(ByServer)
  {
    StringLeIsTotalOrder();
  }

  lemma BuiltServersAreSeparated(servers: seq<Struct>, es: seq<Endpoint>)
    requires multiset(servers) == multiset(Servers(es))
    ensures Separates(servers, ByServer)
    ensures forall i :: 0 <= i < |servers| ==> ComparableStruct(servers[i])
  {
    SameElements(servers, Servers(es));
    forall i | 0 <= i < |servers| ensures servers[i] == Server(ServerOf(servers[i])) {
      assert servers[i] in Servers(es);
      var j :| 0 <= j < |es| && Servers(es)[j] == servers[i];
      assert servers[i] == ServerFor(es[j]);
    }
    StringLeIsTotalOrder();
  }

  /** Permuting the endpoints of an upstream does not change its server list, whichever way it is sorted. */
  lemma ServerListIsCanonical(u: Upstream, v: Upstream, a: seq<Struct>, b: seq<Struct>)
    requires multiset(u.endpoints) == multiset(v.endpoints)
    requires IsServerList(a, u) && IsServerList(b, v)
    ensures a == b
  {
    SameElements(u.endpoints, v.endpoints);
    if u.endpoints != [] {
      MapPermutes(ServerFor, u.endpoints, v.endpoints);
      BuiltServersAreSeparated(a, u.endpoints);
      SortedIsUnique(a, b, ByServer);
    }
  }

  predicate HasResolveServers(u: Upstream) {
    exists i :: 0 <= i < |u.endpoints| && u.endpoints[i].resolve
  }

  function Sendable(us: seq<Upstream>): (r: seq<Upstream>) {
    if us == [] then []
    else Sendable(us[..|us| - 1]) + if HasResolveServers(us[|us| - 1]) then [] else [us[|us| - 1]]
  }

  /** Upstreams with a server that NGINX resolves itself are left out, and the others keep their order. */
  lemma {:induction false} SendableSplits(us: seq<Upstream>, u: Upstream, vs: seq<Upstream>)
    ensures Sendable(us + [u] + vs)
            == Sendable(us) + (if exists e :: e in u.endpoints && e.resolve then [] else [u]) + Sendable(vs)
  {
    var all := us + [u] + vs;
    if vs == [] {
      assert all == us + [u] && all[..|all| - 1] == us;
      assert HasResolveServers(u) <==> exists e :: e in u.endpoints && e.resolve;
    } else {
      var init := vs[..|vs| - 1];
      assert all[..|all| - 1] == us + [u] + init;
      SendableSplits(us, u, init);
    }
  }

  ghost predicate AreHttp(actions: seq<Action>, us: seq<Upstream>) {
    |actions| == |us| && forall i :: 0 <= i < |us| ==>
      actions[i].UpdateHttp? && actions[i].name == us[i].name && IsServerList(actions[i].servers, us[i])
  }

  ghost predicate AreStream(actions: seq<Action>, us: seq<Upstream>) {
    |actions| == |us| && forall i :: 0 <= i < |us| ==>
      actions[i].UpdateStream? && actions[i].name == us[i].name && IsServerList(actions[i].servers, us[i])
  }

  /** The lists UpdateUpstreamServers can produce for a configuration. */
  ghost predicate IsActionList(actions: seq<Action>, http: seq<Upstream>, stream: seq<Upstream>) {
    var n := |Sendable(http)|;
    n <= |actions| && AreHttp(actions[..n], Sendable(http)) && AreStream(actions[n..], Sendable(stream))
  }

  method BuildActions(http: seq<Upstream>, stream: seq<Upstream>) returns (actions: seq<Action>)
    ensures IsActionList(actions, http, stream)
  {
    actions := [];
    for i := 0 to |http|
      invariant AreHttp(actions, Sendable(http[..i]))
    {
      assert http[..i + 1][..i] == http[..i];
      if !HasResolveServers(http[i]) {
        var servers := BuildUpstreamServers(http[i]);
        actions := actions + [UpdateHttp(http[i].name, servers)];
      }
    }
    assert http[..|http|] == http;
    ghost var httpActions := actions;
    for i := 0 to |stream|
      invariant |httpActions| <= |actions| && actions[..|httpActions|] == httpActions
      invariant AreStream(actions[|httpActions|..], Sendable(stream[..i]))
    {
      assert stream[..i + 1][..i] == stream[..i];
      if !HasResolveServers(stream[i]) {
        var servers := BuildUpstreamServers(stream[i]);
        var action := UpdateStream(stream[i].name, servers);
        assert (actions + [action])[|httpActions|..] == actions[|httpActions|..] + [action];
        actions := actions + [action];
      }
    }
    assert stream[..|stream|] == stream;
  }

  /** Built lists are within reach of the comparison, so on them the cache test is plain equality. */
  lemma BuiltActionsCompareExactly(a: seq<Action>, b: seq<Action>, http: seq<Upstream>, stream: seq<Upstream>)
    requires IsActionList(a, http, stream)
    ensures ActionsEqual(a, b) <==> a == b
  {
    ActionsEqualExact(a, b);
    var n := |Sendable(http)|;
    forall i | 0 <= i < |a| ensures Comparable(a[i]) {
      assert i < n ==> a[i] == a[..n][i];
      assert i >= n ==> a[i] == a[n..][i - n];
      var u := if i < n then Sendable(http)[i] else Sendable(stream)[i - n];
      if u.endpoints != [] { BuiltServersAreSeparated(a[i].servers, u.endpoints); }
    }
  }

  /** The same upstreams with their endpoints in any other order. */
  ghost predicate SameUpToEndpointOrder(a: seq<Upstream>, b: seq<Upstream>) {
    |a| == |b| && forall i :: 0 <= i < |a| ==>
      a[i].name == b[i].name && multiset(a[i].endpoints) == multiset(b[i].endpoints)
  }

  lemma {:induction false} SendableUpToOrder(a: seq<Upstream>, b: seq<Upstream>)
    requires SameUpToEndpointOrder(a, b)
    ensures SameUpToEndpointOrder(Sendable(a), Sendable(b))
  {
    if a != [] {
      var u, v := a[|a| - 1], b[|b| - 1];
      SendableUpToOrder(a[..|a| - 1], b[..|b| - 1]);
      SameElements(u.endpoints, v.endpoints);
      assert HasResolveServers(u) <==> exists e :: e in u.endpoints && e.resolve;
      assert HasResolveServers(v) <==> exists e :: e in v.endpoints && e.resolve;
    }
  }

  /** A reconciliation that only reorders endpoints finds its actions in the cache and sends nothing. */
  lemma ReorderedEndpointsHitTheCache(
      http: seq<Upstream>, stream: seq<Upstream>, http': seq<Upstream>, stream': seq<Upstream>,
      a: seq<Action>, b: seq<Action>)
    requires SameUpToEndpointOrder(http, http') && SameUpToEndpointOrder(stream, stream')
    requires IsActionList(a, http, stream) && IsActionList(b, http', stream')
    ensures a == b && ActionsEqual(a, b)
  {
    SendableUpToOrder(http, http');
    SendableUpToOrder(stream, stream');
    var n := |Sendable(http)|;
    SameServers(a[..n], b[..n], Sendable(http), Sendable(http'));
    SameServers(a[n..], b[n..], Sendable(stream), Sendable(stream'));
    assert a == a[..n] + a[n..] && b == b[..n] + b[n..];
    BuiltActionsCompareExactly(a, b, http, stream);
  }

  lemma SameServers(a: seq<Action>, b: seq<Action>, us: seq<Upstream>, vs: seq<Upstream>)
    requires SameUpToEndpointOrder(us, vs)
    requires (AreHttp(a, us) && AreHttp(b, vs)) || (AreStream(a, us) && AreStream(b, vs))
    ensures a == b
  {
    forall i | 0 <= i < |us| ensures a[i] == b[i] {
      ServerListIsCanonical(us[i], vs[i], a[i].servers, b[i].servers);
    }
  }
}
