/** The gate that withholds the configuration of a Gateway while a WAF bundle it needs is pending, and the list
    of deployments that a WAF policy reaches. */
module WafGate {
  import opened Ordering

  /** A namespaced name. */
  type Name = string

  datatype Kind = GatewayKind | HTTPRouteKind | GRPCRouteKind | OtherKind

  datatype RouteType = HTTP | GRPC | NoType

  datatype TargetRef = TargetRef(kind: Kind, name: Name)

  datatype Route = Route(valid: bool, parents: seq<Name>)

  datatype Gateway = Gateway(valid: bool, listeners: nat, deployment: Name, failOpen: bool)

  datatype WafState = NoState | State(bundlePending: bool)

  datatype Policy = Policy(state: WafState, targets: seq<TargetRef>, invalidFor: set<Name>)

  datatype PolicyKey = PolicyKey(waf: bool, name: Name)

  datatype Graph = Graph(
    gateways: map<Name, Gateway>,
    routes: map<(RouteType, Name), Route>,
    policies: map<PolicyKey, Policy>)

  function RouteTypeFor(kind: Kind): (r: RouteType) {
    match kind
    case HTTPRouteKind => HTTP
    case GRPCRouteKind => GRPC
    case _ => NoType
  }

  /** The Gateways that a target stands for: itself, or the parents of a valid route. */
  function GatewaysOf(gr: Graph, ref: TargetRef): (r: seq<Name>) {
    if ref.kind == GatewayKind then [ref.name]
    else if ref.kind == OtherKind then []
    else
      var key := (RouteTypeFor(ref.kind), ref.name);
      if key in gr.routes && gr.routes[key].valid then gr.routes[key].parents else []
  }

  predicate Reaches(gr: Graph, refs: seq<TargetRef>, g: Name) {
    exists i :: 0 <= i < |refs| && g in GatewaysOf(gr, refs[i])
  }

  predicate Pending(gr: Graph, key: PolicyKey) {
    key in gr.policies && key.waf && gr.policies[key].state.State? && gr.policies[key].state.bundlePending
  }

  /** A pending WAF policy that is not invalid for the Gateway targets it, directly or through a route. */
  predicate Holds(gr: Graph, key: PolicyKey, g: Name) {
    Pending(gr, key) && g !in gr.policies[key].invalidFor && Reaches(gr, gr.policies[key].targets, g)
  }

  /** Some such policy holds the Gateway back. */
  ghost predicate HasPending(gr: Graph, g: Name) {
    exists key :: Holds(gr, key, g)
  }

  // ---- The collected list ----

  function AddGateway(gr: Graph, invalidFor: set<Name>, ds: seq<Name>, g: Name): (r: seq<Name>) {
    if g in invalidFor || g !in gr.gateways || !gr.gateways[g].valid || gr.gateways[g].deployment in ds then ds
    else ds + [gr.gateways[g].deployment]
  }

  function AddAll(gr: Graph, invalidFor: set<Name>, ds: seq<Name>, gs: seq<Name>): (r: seq<Name>) {
    if gs == [] then ds else AddGateway(gr, invalidFor, AddAll(gr, invalidFor, ds, gs[..|gs| - 1]), gs[|gs| - 1])
  }

  function Collected(gr: Graph, refs: seq<TargetRef>, invalidFor: set<Name>): (r: seq<Name>) {
    if refs == [] then []
    else AddAll(gr, invalidFor, Collected(gr, refs[..|refs| - 1], invalidFor), GatewaysOf(gr, refs[|refs| - 1]))
  }

  /** Gateway g is good to collect and runs as deployment d. */
  predicate Runs(gr: Graph, invalidFor: set<Name>, g: Name, d: Name) {
    g !in invalidFor && RunsAs(gr, g, d)
  }

  lemma {:induction false} AddAllAdds(gr: Graph, invalidFor: set<Name>, ds: seq<Name>, gs: seq<Name>, d: Name)
    requires NoDuplicates(ds)
    ensures NoDuplicates(AddAll(gr, invalidFor, ds, gs))
    ensures d in AddAll(gr, invalidFor, ds, gs)
            <==> d in ds || exists i :: 0 <= i < |gs| && Runs(gr, invalidFor, gs[i], d)
  {
    if gs != [] {
      var init, g := gs[..|gs| - 1], gs[|gs| - 1];
      AddAllAdds(gr, invalidFor, ds, init, d);
      var before := AddAll(gr, invalidFor, ds, init);
      assert forall i :: 0 <= i < |init| ==> gs[i] == init[i];
      assert d in AddGateway(gr, invalidFor, before, g) <==> d in before || Runs(gr, invalidFor, g, d);
    }
  }

  /** The collected list names each deployment once, and exactly the deployments of the valid Gateways that the
      targets reach and the policy is not invalid for. */
  lemma {:induction false} CollectedIsExact(gr: Graph, refs: seq<TargetRef>, invalidFor: set<Name>, d: Name)
    ensures NoDuplicates(Collected(gr, refs, invalidFor))
    ensures d in Collected(gr, refs, invalidFor) <==> exists g :: Runs(gr, invalidFor, g, d) && Reaches(gr, refs, g)
  {
    if refs != [] {
      var init, ref := refs[..|refs| - 1], refs[|refs| - 1];
      CollectedIsExact(gr, init, invalidFor, d);
      var gs := GatewaysOf(gr, ref);
      AddAllAdds(gr, invalidFor, Collected(gr, init, invalidFor), gs, d);
      forall g ensures Reaches(gr, refs, g) <==> Reaches(gr, init, g) || g in gs {
        assert forall i :: 0 <= i < |init| ==> refs[i] == init[i];
        if Reaches(gr, init, g) {
          var i :| 0 <= i < |init| && g in GatewaysOf(gr, init[i]);
          assert g in GatewaysOf(gr, refs[i]);
        }
        if g in gs {
          assert g in GatewaysOf(gr, refs[|refs| - 1]);
        }
      }
    }
  }

  // ---- The gate against the list ----

  /** Some pending WAF policy's collected list names the deployment. */
  ghost predicate Awaited(gr: Graph, d: Name) {
    exists key :: Pending(gr, key) && d in Collected(gr, gr.policies[key].targets, gr.policies[key].invalidFor)
  }

  /** A valid Gateway of the graph that runs as deployment d. */
  predicate RunsAs(gr: Graph, g: Name, d: Name) {
    g in gr.gateways && gr.gateways[g].valid && gr.gateways[g].deployment == d
  }

  /** A deployment is awaited exactly if some valid Gateway that runs as it has a pending bundle. */
  lemma AwaitedIffSomeGatewayPending(gr: Graph, d: Name)
    ensures Awaited(gr, d)
            <==> exists g :: RunsAs(gr, g, d) && HasPending(gr, g)
  {
    if Awaited(gr, d) {
      var key :| Pending(gr, key) && d in Collected(gr, gr.policies[key].targets, gr.policies[key].invalidFor);
      CollectedIsExact(gr, gr.policies[key].targets, gr.policies[key].invalidFor, d);
      var g :| Runs(gr, gr.policies[key].invalidFor, g, d) && Reaches(gr, gr.policies[key].targets, g);
      assert Holds(gr, key, g);
    }
    if g :| RunsAs(gr, g, d) && HasPending(gr, g) {
      var key :| Holds(gr, key, g);
      CollectedIsExact(gr, gr.policies[key].targets, gr.policies[key].invalidFor, d);
      assert Runs(gr, gr.policies[key].invalidFor, g, d);
    }
  }

  /** No other valid Gateway runs as g's deployment. */
  ghost predicate OwnDeployment(gr: Graph, g: Name)
    requires g in gr.gateways
  {
    forall h :: RunsAs(gr, h, gr.gateways[g].deployment) ==> h == g
  }

  /** For a valid Gateway with a deployment of its own, the gate and the lists agree. */
  lemma GateAgrees(gr: Graph, g: Name)
    requires g in gr.gateways && gr.gateways[g].valid && OwnDeployment(gr, g)
    ensures HasPending(gr, g) <==> Awaited(gr, gr.gateways[g].deployment)
  {
    AwaitedIffSomeGatewayPending(gr, gr.gateways[g].deployment);
  }

  /** In any graph they agree on a valid Gateway exactly if no other valid Gateway with the same deployment has
      a pending bundle that this one does not have. */
  lemma GateAgreesIff(gr: Graph, g: Name)
    requires g in gr.gateways && gr.gateways[g].valid
    ensures (HasPending(gr, g) <==> Awaited(gr, gr.gateways[g].deployment))
            <==> HasPending(gr, g)
                 || forall h :: RunsAs(gr, h, gr.gateways[g].deployment) ==> !HasPending(gr, h)
  {
    AwaitedIffSomeGatewayPending(gr, gr.gateways[g].deployment);
  }

  const SHARED := Graph(
    map["a" := Gateway(true, 1, "nginx", false), "b" := Gateway(true, 1, "nginx", false)],
    map[],
    map[PolicyKey(true, "p") := Policy(State(true), [TargetRef(GatewayKind, "a")], {})])

  /** Two valid Gateways that share a deployment: the policy awaits the deployment for "a", and the gate lets
      the configuration of "b" through to it. */
  lemma SharedDeploymentPassesTheGate()
    ensures Awaited(SHARED, "nginx") && HasPending(SHARED, "a") && !HasPending(SHARED, "b")
    ensures OutcomeOf(SHARED, "b") == Pushed
  {
    var key := PolicyKey(true, "p");
    var refs := [TargetRef(GatewayKind, "a")];
    assert SHARED.policies[key].targets == refs;
    assert "a" in GatewaysOf(SHARED, refs[0]);
    assert Pending(SHARED, key) && Reaches(SHARED, refs, "a");
    assert Holds(SHARED, key, "a");
    AwaitedIffSomeGatewayPending(SHARED, "nginx");
    forall k | Pending(SHARED, k) ensures !Reaches(SHARED, SHARED.policies[k].targets, "b") {
      assert k == key;
      assert "b" !in ["a"];
    }
  }

  // ---- The gate and the list from the fields of the graph ----

  /** The target is the Gateway, or a valid HTTPRoute or GRPCRoute that has it as a parent. */
  ghost predicate IsTarget(gr: Graph, ref: TargetRef, g: Name) {
    || (ref.kind == GatewayKind && ref.name == g)
    || (ref.kind == HTTPRouteKind && (HTTP, ref.name) in gr.routes &&
        gr.routes[(HTTP, ref.name)].valid && g in gr.routes[(HTTP, ref.name)].parents)
    || (ref.kind == GRPCRouteKind && (GRPC, ref.name) in gr.routes &&
        gr.routes[(GRPC, ref.name)].valid && g in gr.routes[(GRPC, ref.name)].parents)
  }

  ghost predicate AnyTarget(gr: Graph, refs: seq<TargetRef>, g: Name) {
    exists i :: 0 <= i < |refs| && IsTarget(gr, refs[i], g)
  }

  lemma ReachesIff(gr: Graph, refs: seq<TargetRef>, g: Name)
    ensures Reaches(gr, refs, g) <==> AnyTarget(gr, refs, g)
  {
    forall i | 0 <= i < |refs| ensures g in GatewaysOf(gr, refs[i]) <==> IsTarget(gr, refs[i], g) {
      TargetIff(gr, refs[i], g);
    }
  }

  lemma TargetIff(gr: Graph, ref: TargetRef, g: Name)
    ensures g in GatewaysOf(gr, ref) <==> IsTarget(gr, ref, g)
  {
  }

  /** The WAF policy under the key waits for its bundle and is not invalid for the Gateway, which it targets. */
  ghost predicate WaitsFor(gr: Graph, key: PolicyKey, g: Name) {
    && key in gr.policies && key.waf && gr.policies[key].state == State(true)
    && g !in gr.policies[key].invalidFor && AnyTarget(gr, gr.policies[key].targets, g)
  }

  /** The gate is closed exactly if some WAF policy with a pending bundle, not invalid for the Gateway, targets it or
      a valid route of the right type with the Gateway as a parent. */
  lemma PendingIff(gr: Graph, g: Name)
    ensures HasPending(gr, g) <==> exists key :: WaitsFor(gr, key, g)
  {
    forall key ensures Holds(gr, key, g) <==> WaitsFor(gr, key, g) {
      if key in gr.policies { ReachesIff(gr, gr.policies[key].targets, g); }
    }
  }

  /** A deployment is collected exactly if a valid Gateway runs as it that the policy is not invalid for and targets,
      or has a valid route of the right type as a parent of. */
  lemma CollectedIff(gr: Graph, refs: seq<TargetRef>, invalidFor: set<Name>, d: Name)
    ensures d in Collected(gr, refs, invalidFor)
            <==> exists g :: && g in gr.gateways && gr.gateways[g].valid && gr.gateways[g].deployment == d
                             && g !in invalidFor && AnyTarget(gr, refs, g)
  {
    CollectedIsExact(gr, refs, invalidFor, d);
    forall g ensures Reaches(gr, refs, g) <==> AnyTarget(gr, refs, g) { ReachesIff(gr, refs, g); }
  }

  // ---- Sending ----

  /** What the handler does with a Gateway: no configuration for an invalid one or one without listeners, none
      while a bundle is pending and fail-open is off, a push otherwise. */
  datatype Outcome = NotConfigured | Withheld | Pushed

  ghost function OutcomeOf(gr: Graph, g: Name): (r: Outcome)
    requires g in gr.gateways
  {
    var gw := gr.gateways[g];
    if gw.listeners == 0 || !gw.valid then NotConfigured
    else if HasPending(gr, g) && !gw.failOpen then Withheld
    else Pushed
  }

  /** With fail-open off a push goes out only if no pending policy awaits the Gateway's deployment; a push held
      back always has such a policy. */
  lemma FailClosed(gr: Graph, g: Name)
    requires g in gr.gateways && OwnDeployment(gr, g) && !gr.gateways[g].failOpen
    ensures OutcomeOf(gr, g) == Pushed ==> !Awaited(gr, gr.gateways[g].deployment)
    ensures OutcomeOf(gr, g) == Withheld
            <==> gr.gateways[g].valid && gr.gateways[g].listeners > 0 && Awaited(gr, gr.gateways[g].deployment)
  {
    if gr.gateways[g].valid { GateAgrees(gr, g); }
  }

  /** A configuration goes out exactly to a valid Gateway with listeners that fails open or has no policy waiting. */
  lemma PushedIff(gr: Graph, g: Name)
    requires g in gr.gateways
    ensures OutcomeOf(gr, g) == Pushed
            <==> && gr.gateways[g].valid && gr.gateways[g].listeners > 0
                 && (gr.gateways[g].failOpen || !exists key :: WaitsFor(gr, key, g))
    ensures OutcomeOf(gr, g) == NotConfigured <==> !gr.gateways[g].valid || gr.gateways[g].listeners == 0
  {
    PendingIff(gr, g);
  }

  /** One object of the status queue. */
  datatype Status = Status(deployment: Name, gateway: Name, outcome: Outcome)

  ghost function StatusOf(gr: Graph, g: Name): (r: Status)
    requires g in gr.gateways
  {
    Status(gr.gateways[g].deployment, g, OutcomeOf(gr, g))
  }

  method HasPendingBundle(gr: Graph, g: Name) returns (pending: bool)
    ensures pending == HasPending(gr, g)
  {
    var keys := gr.policies.Keys;
    while keys != {}
      invariant keys <= gr.policies.Keys
      invariant forall key :: Holds(gr, key, g) ==> key in keys
    {
      var key :| key in keys;
      var policy := gr.policies[key];
      if Pending(gr, key) && g !in policy.invalidFor {
        for i := 0 to |policy.targets|
          invariant forall j :: 0 <= j < i ==> g !in GatewaysOf(gr, policy.targets[j])
        {
          if g in GatewaysOf(gr, policy.targets[i]) {
            assert Holds(gr, key, g);
            return true;
          }
        }
      }
      keys := keys - {key};
    }
    return false;
  }

  method CollectDeployments(gr: Graph, refs: seq<TargetRef>, invalidFor: set<Name>) returns (ds: seq<Name>)
    ensures ds == Collected(gr, refs, invalidFor)
  {
    ds := [];
    var seen: set<Name> := {};
    for i := 0 to |refs|
      invariant ds == Collected(gr, refs[..i], invalidFor)
      invariant forall d :: d in seen <==> d in ds
    {
      var gs := GatewaysOf(gr, refs[i]);
      ghost var before := ds;
      for j := 0 to |gs|
        invariant ds == AddAll(gr, invalidFor, before, gs[..j])
        invariant forall d :: d in seen <==> d in ds
      {
        assert gs[..j + 1][..j] == gs[..j];
        var g := gs[j];
        if g !in invalidFor && g in gr.gateways && gr.gateways[g].valid && gr.gateways[g].deployment !in seen {
          seen := seen + {gr.gateways[g].deployment};
          ds := ds + [gr.gateways[g].deployment];
        }
      }
      assert gs[..|gs|] == gs && refs[..i + 1][..i] == refs[..i];
    }
    assert refs[..|refs|] == refs;
  }

  /** Every Gateway is handled once, in some order, and leaves one object in the status queue. */
  method SendNginxConfig(gr: Graph) returns (queue: seq<Status>)
    ensures |queue| == |gr.gateways|
    ensures forall i, j :: 0 <= i < j < |queue| ==> queue[i].gateway != queue[j].gateway
    ensures forall i :: 0 <= i < |queue| ==>
              && queue[i].gateway in gr.gateways
              && queue[i] == StatusOf(gr, queue[i].gateway)
  {
    queue := [];
    var keys := gr.gateways.Keys;
    while keys != {}
      invariant keys <= gr.gateways.Keys
      invariant |queue| + |keys| == |gr.gateways|
      invariant forall i, j :: 0 <= i < j < |queue| ==> queue[i].gateway != queue[j].gateway
      invariant forall i :: 0 <= i < |queue| ==>
                  && queue[i].gateway in gr.gateways && queue[i].gateway !in keys
                  && queue[i] == StatusOf(gr, queue[i].gateway)
    {
      var g :| g in keys;
      keys := keys - {g};
      var gw := gr.gateways[g];
      if gw.listeners == 0 || !gw.valid {
        queue := queue + [Status(gw.deployment, g, NotConfigured)];
      } else {
        var pending := HasPendingBundle(gr, g);
        queue := queue + [Status(gw.deployment, g, if pending && !gw.failOpen then Withheld else Pushed)];
      }
    }
  }
}
