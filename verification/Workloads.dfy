/** Reconciling the workload of a Gateway: what the latest Gateway no longer asks for is deleted, what it
    asks for is created or updated, and a record of what was created is kept per Gateway. */
module Workloads {
  import opened Gateways
  import opened Wrappers

  type Name = string

  datatype Kind = Deployment | DaemonSet | HPA | PDB

  /** NginxResources: the Gateway last registered and the kinds whose metadata is recorded. */
  datatype Tracked = Tracked(gateway: Option<Gateway>, kinds: set<Kind>)

  /** The provisioner's store, and the objects that exist in the cluster under each Gateway's resource name. */
  datatype World = World(store: map<Name, Tracked>, live: set<(Name, Kind)>)

  /** The outcome of the API calls of one registration. `upToDate` are the objects that an update finds
      up to date; the last three are failures on objects other than the four kinds. */
  datatype Api = Api(
    failDelete: set<Kind>,
    failPut: set<Kind>,
    upToDate: set<Kind>,
    failBeforeWorkload: bool,
    failDeletingService: bool,
    failDeletingRest: bool)

  predicate AllSucceed(api: Api) {
    api.failDelete == {} && api.failPut == {} && !api.failBeforeWorkload && !api.failDeletingService
        && !api.failDeletingRest
  }

  // ---- What a Gateway asks for ----

  function KubernetesOf(gw: Gateway): (r: Option<Kubernetes>) {
    if gw.proxy.Some? then gw.proxy.value.kubernetes else None
  }

  predicate AutoscalingEnabled(d: Option<DeploymentSpec>) {
    d.Some? && d.value.autoscaling.Some? && d.value.autoscaling.value.enable
  }

  predicate WantsDaemonSet(gw: Gateway) {
    KubernetesOf(gw).Some? && KubernetesOf(gw).value.daemonSet.Some?
  }

  predicate WantsHPA(gw: Gateway) {
    KubernetesOf(gw).Some? && AutoscalingEnabled(KubernetesOf(gw).value.deployment)
  }

  predicate WantsPDB(gw: Gateway) {
    KubernetesOf(gw).Some? && KubernetesOf(gw).value.deployment.Some?
        && KubernetesOf(gw).value.deployment.value.pdb.Some?
  }

  /** The workload objects in the order in which they are installed. */
  function Objects(gw: Gateway): (r: seq<Kind>) {
    [if WantsDaemonSet(gw) then DaemonSet else Deployment]
    + (if WantsHPA(gw) then [HPA] else [])
    + (if WantsPDB(gw) then [PDB] else [])
  }

  predicate Provisionable(gw: Gateway) {
    gw.valid && |gw.listeners| > 0
  }

  ghost function Asked(gw: Gateway): (r: set<Kind>) {
    if Provisionable(gw) then set k | k in Objects(gw) else {}
  }

  /** The API admits a NginxProxy with at most one of the two. */
  predicate BothConfigured(gw: Gateway) {
    KubernetesOf(gw).Some? && KubernetesOf(gw).value.deployment.Some? && KubernetesOf(gw).value.daemonSet.Some?
  }

  // ---- What has to go ----

  predicate NeedToDeleteDeployment(t: Tracked) {
    Deployment in t.kinds && t.gateway.Some? && KubernetesOf(t.gateway.value).Some? &&
    KubernetesOf(t.gateway.value).value.daemonSet.Some?
  }

  predicate NeedToDeleteDaemonSet(t: Tracked) {
    DaemonSet in t.kinds && t.gateway.Some? &&
    var k := KubernetesOf(t.gateway.value);
    ((k.Some? && k.value.deployment.Some?) || k.None? || k.value.daemonSet.None?)
  }

  predicate NeedToDeleteHPA(t: Tracked) {
    HPA in t.kinds && t.gateway.Some? &&
    var k := KubernetesOf(t.gateway.value);
    ((k.Some? && !AutoscalingEnabled(k.value.deployment)) || k.None?)
  }

  predicate NeedToDeletePDB(t: Tracked) {
    PDB in t.kinds && t.gateway.Some? &&
    var k := KubernetesOf(t.gateway.value);
    ((k.Some? && (k.value.deployment.None? || k.value.deployment.value.pdb.None?)) || k.None?)
  }

  /** handleObjectDeletion looks at the Deployment only if the DaemonSet stays. */
  function Obsolete(t: Tracked): (r: set<Kind>) {
    (if NeedToDeleteDaemonSet(t) then {DaemonSet} else if NeedToDeleteDeployment(t) then {Deployment} else {})
    + (if NeedToDeleteHPA(t) then {HPA} else {})
    + (if NeedToDeletePDB(t) then {PDB} else {})
  }

  function Delete(w: World, n: Name, ks: set<Kind>): (r: World) {
    w.(live := w.live - set k | k in ks :: (n, k))
  }

  function Track(w: World, n: Name, k: Kind): (r: World) {
    var t := if n in w.store then w.store[n] else Tracked(None, {});
    w.(store := w.store[n := t.(kinds := t.kinds + {k})])
  }

  /** CreateOrUpdate of one object: it is recorded unless it existed and was up to date. */
  function Put(w: World, n: Name, k: Kind, api: Api): (r: World) {
    if (n, k) in w.live && k in api.upToDate then w else Track(w.(live := w.live + {(n, k)}), n, k)
  }

  /** The object loop of provisionNginx; the first failure ends it. */
  function PutAll(w: World, n: Name, ks: seq<Kind>, api: Api): (r: World)
    decreases |ks|
  {
    if ks == [] || ks[0] in api.failPut then w else PutAll(Put(w, n, ks[0], api), n, ks[1..], api)
  }

  /** deprovisionNginxForInvalidGateway: in order, stopping at the first failure; the record goes last. */
  function Deprovision(w: World, n: Name, api: Api): (r: World) {
    if Deployment in api.failDelete then w
    else if DaemonSet in api.failDelete then Delete(w, n, {Deployment})
    else if api.failDeletingService then Delete(w, n, {Deployment, DaemonSet})
    else if HPA in api.failDelete then Delete(w, n, {Deployment, DaemonSet})
    else if PDB in api.failDelete then Delete(w, n, {Deployment, DaemonSet, HPA})
    else if api.failDeletingRest then Delete(w, n, {Deployment, DaemonSet, HPA, PDB})
    else var d := Delete(w, n, {Deployment, DaemonSet, HPA, PDB}); d.(store := d.store - {n})
  }

  predicate Skips(w: World, n: Name, gw: Gateway) {
    n in w.store && !Differs(w.store[n].gateway, gw)
  }

  function Remember(w: World, n: Name, gw: Gateway): (r: World) {
    w.(store := w.store[n := if n in w.store then w.store[n].(gateway := Some(gw)) else Tracked(Some(gw), {})])
  }

  /** RegisterGateway, by the leader. */
  function Register(w: World, n: Name, gw: Gateway, api: Api): (r: World) {
    var m := Remember(w, n, gw);
    if Skips(w, n, gw) then m
    else if Provisionable(gw) then
      var d := Delete(m, n, Obsolete(m.store[n]) - api.failDelete);
      if api.failBeforeWorkload then d else PutAll(d, n, Objects(gw), api)
    else Deprovision(m, n, api)
  }

  // ---- Properties of one call ----

  ghost function LiveOf(w: World, n: Name): (r: set<Kind>) {
    set k | (n, k) in w.live
  }

  /** Whatever exists is on record. */
  ghost predicate EverythingTracked(w: World) {
    forall n, k :: (n, k) in w.live ==> n in w.store && k in w.store[n].kinds
  }

  /** Other Gateways are not touched. */
  ghost predicate OthersUntouched(w: World, w': World, n: Name) {
    && (forall m, k :: m != n ==> ((m, k) in w.live <==> (m, k) in w'.live))
    && (forall m :: m != n ==> (m in w.store <==> m in w'.store) && (m in w.store ==> w.store[m] == w'.store[m]))
  }

  lemma {:induction false} PutAllEffect(w: World, n: Name, ks: seq<Kind>, api: Api)
    requires EverythingTracked(w) && n in w.store
    ensures var p := PutAll(w, n, ks, api);
            && EverythingTracked(p) && OthersUntouched(w, p, n)
            && n in p.store && p.store[n].gateway == w.store[n].gateway
            && LiveOf(w, n) <= LiveOf(p, n)
            && (api.failPut == {} ==> LiveOf(p, n) == LiveOf(w, n) + set k | k in ks)
    decreases |ks|
  {
    if ks != [] && ks[0] !in api.failPut {
      var q := Put(w, n, ks[0], api);
      assert LiveOf(q, n) == LiveOf(w, n) + {ks[0]};
      PutAllEffect(q, n, ks[1..], api);
      assert (set k | k in ks) == {ks[0]} + set k | k in ks[1..];
    }
  }

  /** An object that is created or updated is live and on record; one found up to date is left alone. */
  lemma PutCases(w: World, n: Name, k: Kind, api: Api)
    ensures (n, k) in w.live && k in api.upToDate ==> Put(w, n, k, api) == w
    ensures !((n, k) in w.live && k in api.upToDate) ==>
              var p := Put(w, n, k, api); (n, k) in p.live && n in p.store && k in p.store[n].kinds
  {
  }

  lemma DeleteEffect(w: World, n: Name, ks: set<Kind>)
    requires EverythingTracked(w)
    ensures var d := Delete(w, n, ks);
            EverythingTracked(d) && OthersUntouched(w, d, n) && d.store == w.store && LiveOf(d, n) == LiveOf(w, n) - ks
  {
  }

  lemma DeprovisionEffect(w: World, n: Name, api: Api)
    requires EverythingTracked(w) && n in w.store
    ensures var d := Deprovision(w, n, api);
            && EverythingTracked(d) && OthersUntouched(w, d, n)
            && (n in d.store ==> d.store[n] == w.store[n])
            && (AllSucceed(api) ==> LiveOf(d, n) == {} && n !in d.store)
  {
    DeleteEffect(w, n, {Deployment, DaemonSet, HPA, PDB});
    var all := Delete(w, n, {Deployment, DaemonSet, HPA, PDB});
    forall k | k in LiveOf(w, n) ensures k in {Deployment, DaemonSet, HPA, PDB} {
      match k case Deployment => case DaemonSet => case HPA => case PDB =>
    }
    assert LiveOf(all, n) == {};
    DeleteEffect(w, n, {Deployment});
    DeleteEffect(w, n, {Deployment, DaemonSet});
    DeleteEffect(w, n, {Deployment, DaemonSet, HPA});
  }

  // ---- What a failure leaves ----

  /** The object loop reached the kind: neither it nor one before it failed. */
  predicate Installed(ks: seq<Kind>, k: Kind, api: Api) {
    exists i :: 0 <= i < |ks| && ks[i] == k && forall j :: 0 <= j <= i ==> ks[j] !in api.failPut
  }

  /** Installing stops at the first failure: exactly the objects before it are live besides those that were. */
  lemma {:induction false} PutAllStops(w: World, n: Name, ks: seq<Kind>, api: Api, k: Kind)
    ensures k in LiveOf(PutAll(w, n, ks, api), n) <==> k in LiveOf(w, n) || Installed(ks, k, api)
    decreases |ks|
  {
    if ks != [] && ks[0] !in api.failPut {
      var q, rest := Put(w, n, ks[0], api), ks[1..];
      PutAllStops(q, n, rest, api, k);
      assert k in LiveOf(q, n) <==> k in LiveOf(w, n) || k == ks[0];
      InstalledCons(ks, k, api);
    }
  }

  lemma InstalledCons(ks: seq<Kind>, k: Kind, api: Api)
    requires ks != [] && ks[0] !in api.failPut
    ensures Installed(ks, k, api) <==> k == ks[0] || Installed(ks[1..], k, api)
  {
    var rest := ks[1..];
    if Installed(rest, k, api) {
      var i :| 0 <= i < |rest| && rest[i] == k && forall j :: 0 <= j <= i ==> rest[j] !in api.failPut;
      assert forall j :: 0 < j <= i + 1 ==> ks[j] == rest[j - 1];
      assert ks[i + 1] == k;
    }
    if Installed(ks, k, api) {
      var i :| 0 <= i < |ks| && ks[i] == k && forall j :: 0 <= j <= i ==> ks[j] !in api.failPut;
      if i > 0 { assert rest[i - 1] == k && forall j :: 0 <= j <= i - 1 ==> rest[j] == ks[j + 1]; }
    }
  }

  /** The deletions of a deprovisioning in order; the Service goes third and everything else last. */
  predicate FailsAt(api: Api, i: nat) {
    || (i == 0 && Deployment in api.failDelete) || (i == 1 && DaemonSet in api.failDelete)
    || (i == 2 && api.failDeletingService) || (i == 3 && HPA in api.failDelete)
    || (i == 4 && PDB in api.failDelete) || (i == 5 && api.failDeletingRest)
  }

  function Turn(k: Kind): (i: nat) {
    match k case Deployment => 0 case DaemonSet => 1 case HPA => 3 case PDB => 4
  }

  /** Deprovisioning stops at the first failure: an object stays exactly if its own deletion or one before it fails,
      and the record stays exactly if any fails. */
  lemma DeprovisionStops(w: World, n: Name, api: Api, k: Kind)
    ensures k in LiveOf(Deprovision(w, n, api), n)
            <==> k in LiveOf(w, n) && exists i :: 0 <= i <= Turn(k) && FailsAt(api, i)
    ensures n in Deprovision(w, n, api).store <==> n in w.store && exists i :: 0 <= i <= 5 && FailsAt(api, i)
  {
    assert FailsAt(api, 0) <==> Deployment in api.failDelete;
    assert FailsAt(api, 1) <==> DaemonSet in api.failDelete;
    assert FailsAt(api, 2) <==> api.failDeletingService;
    assert FailsAt(api, 3) <==> HPA in api.failDelete;
    assert FailsAt(api, 4) <==> PDB in api.failDelete;
    assert FailsAt(api, 5) <==> api.failDeletingRest;
    match k case Deployment => case DaemonSet => case HPA => case PDB =>
  }

  /** A registration that is not skipped, of a Gateway to provision, whatever fails: an object is live exactly if it was
      and is not obsolete or could not be deleted, or if it was installed. */
  lemma RegisterLeaves(w: World, n: Name, gw: Gateway, api: Api, k: Kind)
    requires !Skips(w, n, gw) && Provisionable(gw)
    ensures k in LiveOf(Register(w, n, gw, api), n)
            <==> || (k in LiveOf(w, n) && (k !in Obsolete(Remember(w, n, gw).store[n]) || k in api.failDelete))
                 || (!api.failBeforeWorkload && Installed(Objects(gw), k, api))
  {
    var m := Remember(w, n, gw);
    var d := Delete(m, n, Obsolete(m.store[n]) - api.failDelete);
    assert k in LiveOf(d, n) <==> k in LiveOf(w, n) && k !in Obsolete(m.store[n]) - api.failDelete;
    PutAllStops(d, n, Objects(gw), api, k);
  }

  lemma RememberEffect(w: World, n: Name, gw: Gateway)
    requires EverythingTracked(w)
    ensures var m := Remember(w, n, gw);
            && EverythingTracked(m) && OthersUntouched(w, m, n) && m.live == w.live
            && n in m.store && m.store[n].gateway == Some(gw)
            && m.store[n].kinds == (if n in w.store then w.store[n].kinds else {})
  {
  }

  /** The one case that the if-else of handleObjectDeletion misses: the DaemonSet check hides the
      Deployment. It takes a Gateway with both configured. */
  ghost predicate DeploymentIsMissed(w: World, n: Name, gw: Gateway) {
    BothConfigured(gw) && n in w.store && DaemonSet in w.store[n].kinds && (n, Deployment) in w.live
  }

  lemma ObsoleteIsWhatIsNotAsked(m: World, n: Name, gw: Gateway)
    requires EverythingTracked(m) && n in m.store && m.store[n].gateway == Some(gw) && Provisionable(gw)
    ensures LiveOf(m, n) - Obsolete(m.store[n]) <= Asked(gw) <==> !DeploymentIsMissed(m, n, gw)
  {
    var left := LiveOf(m, n) - Obsolete(m.store[n]);
    var objects := Objects(gw);
    assert objects[0] == if WantsDaemonSet(gw) then DaemonSet else Deployment;
    assert HPA in objects <==> WantsHPA(gw);
    assert PDB in objects <==> WantsPDB(gw);
    assert Deployment in objects <==> !WantsDaemonSet(gw);
    assert DaemonSet in objects <==> WantsDaemonSet(gw);
    assert HPA in left ==> HPA in Asked(gw);
    assert PDB in left ==> PDB in Asked(gw);
    assert DaemonSet in left ==> DaemonSet in Asked(gw);
    assert Deployment in left && Deployment !in Asked(gw) <==> DeploymentIsMissed(m, n, gw);
    forall k | k in left && k != Deployment ensures k in Asked(gw) {
      match k case Deployment => case DaemonSet => case HPA => case PDB =>
    }
  }

  /** Any API failures: what exists stays on record and other Gateways are untouched. */
  lemma RegisterKeepsTrack(w: World, n: Name, gw: Gateway, api: Api)
    requires EverythingTracked(w)
    ensures EverythingTracked(Register(w, n, gw, api)) && OthersUntouched(w, Register(w, n, gw, api), n)
    ensures n in Register(w, n, gw, api).store ==> Register(w, n, gw, api).store[n].gateway == Some(gw)
    ensures Skips(w, n, gw) ==> Register(w, n, gw, api).live == w.live
  {
    RememberEffect(w, n, gw);
    var m := Remember(w, n, gw);
    if !Skips(w, n, gw) {
      if Provisionable(gw) {
        DeleteEffect(m, n, Obsolete(m.store[n]) - api.failDelete);
        var d := Delete(m, n, Obsolete(m.store[n]) - api.failDelete);
        if !api.failBeforeWorkload { PutAllEffect(d, n, Objects(gw), api); }
      } else {
        DeprovisionEffect(m, n, api);
      }
    }
  }

  /** A call that is not skipped and whose API calls succeed leaves exactly the kinds the Gateway asks for,
      none if it is invalid or has no listeners, whatever failed before; the only exception is the missed
      Deployment. */
  lemma RegisterConvergesIff(w: World, n: Name, gw: Gateway, api: Api)
    requires EverythingTracked(w) && !Skips(w, n, gw) && AllSucceed(api)
    ensures LiveOf(Register(w, n, gw, api), n) == Asked(gw) <==> !(Provisionable(gw) && DeploymentIsMissed(w, n, gw))
    ensures n in Register(w, n, gw, api).store <==> Provisionable(gw)
  {
    RememberEffect(w, n, gw);
    var m := Remember(w, n, gw);
    if Provisionable(gw) {
      var d := Delete(m, n, Obsolete(m.store[n]) - api.failDelete);
      assert Obsolete(m.store[n]) - api.failDelete == Obsolete(m.store[n]);
      DeleteEffect(m, n, Obsolete(m.store[n]));
      PutAllEffect(d, n, Objects(gw), api);
      ObsoleteIsWhatIsNotAsked(m, n, gw);
      assert LiveOf(Register(w, n, gw, api), n) == LiveOf(d, n) + Asked(gw);
    } else {
      DeprovisionEffect(m, n, api);
    }
  }

  // ---- Runs ----

  datatype Call = Call(name: Name, gateway: Gateway, api: Api)

  function Run(calls: seq<Call>): (r: World) {
    if calls == [] then World(map[], {})
    else
      var c := calls[|calls| - 1];
      Register(Run(calls[..|calls| - 1]), c.name, c.gateway, c.api)
  }

  /** Over any sequence of registrations with any failures, every live object is on record. */
  lemma {:induction false} RunTracksEverything(calls: seq<Call>)
    ensures EverythingTracked(Run(calls))
  {
    if calls != [] {
      RunTracksEverything(calls[..|calls| - 1]);
      var c := calls[|calls| - 1];
      RegisterKeepsTrack(Run(calls[..|calls| - 1]), c.name, c.gateway, c.api);
    }
  }

  function Latest(calls: seq<Call>, n: Name): (r: Option<Gateway>) {
    if calls == [] then None
    else if calls[|calls| - 1].name == n then Some(calls[|calls| - 1].gateway)
    else Latest(calls[..|calls| - 1], n)
  }

  ghost function AskedLast(calls: seq<Call>, n: Name): (r: set<Kind>) {
    if Latest(calls, n).Some? then Asked(Latest(calls, n).value) else {}
  }

  ghost predicate Orderly(calls: seq<Call>) {
    forall i :: 0 <= i < |calls| ==> AllSucceed(calls[i].api) && !BothConfigured(calls[i].gateway)
  }

  /** A Gateway with nothing on record asks for nothing; one on record is recorded as last registered. */
  ghost predicate Settled(w: World, calls: seq<Call>, n: Name) {
    && LiveOf(w, n) == AskedLast(calls, n)
    && (n in w.store ==> Latest(calls, n).Some? && w.store[n].gateway == Latest(calls, n))
  }

  lemma SkippedAsksTheSame(was: Gateway, now: Gateway)
    requires !Differs(Some(was), now)
    ensures Asked(was) == Asked(now)
  {
    assert Objects(was) == Objects(now);
  }

  /** With succeeding API calls and at most one of Deployment and DaemonSet configured, after each call the
      live kinds of every Gateway are exactly those its latest registration asks for. */
  lemma {:induction false} RunConverges(calls: seq<Call>, n: Name)
    requires Orderly(calls)
    ensures Settled(Run(calls), calls, n)
  {
    if calls == [] {
      assert LiveOf(Run(calls), n) == {};
    } else {
      var before, c := calls[..|calls| - 1], calls[|calls| - 1];
      var w := Run(before);
      RunTracksEverything(before);
      RunConverges(before, n);
      RegisterKeepsTrack(w, c.name, c.gateway, c.api);
      if c.name != n {
        assert LiveOf(Run(calls), n) == LiveOf(w, n);
      } else if Skips(w, n, c.gateway) {
        SkippedAsksTheSame(w.store[n].gateway.value, c.gateway);
      } else {
        RegisterConvergesIff(w, n, c.gateway, c.api);
      }
    }
  }

  // ---- What a Gateway asks for, from its fields ----

  /** The Kubernetes section of the effective NginxProxy, empty if there is none. */
  function Section(gw: Gateway): (k: Kubernetes) {
    if gw.proxy.Some? && gw.proxy.value.kubernetes.Some? then gw.proxy.value.kubernetes.value
    else Kubernetes(None, None, None)
  }

  lemma AskedIff(gw: Gateway)
    ensures var k, on := Section(gw), gw.valid && gw.listeners != [];
            && (DaemonSet in Asked(gw) <==> on && k.daemonSet.Some?)
            && (Deployment in Asked(gw) <==> on && k.daemonSet.None?)
            && (HPA in Asked(gw) <==> on && k.deployment.Some? && k.deployment.value.autoscaling.Some?
                                      && k.deployment.value.autoscaling.value.enable)
            && (PDB in Asked(gw) <==> on && k.deployment.Some? && k.deployment.value.pdb.Some?)
  {
    var objects := Objects(gw);
    assert objects[0] == if WantsDaemonSet(gw) then DaemonSet else Deployment;
    assert HPA in objects <==> WantsHPA(gw);
    assert PDB in objects <==> WantsPDB(gw);
    assert DaemonSet in objects <==> WantsDaemonSet(gw);
    assert Deployment in objects <==> !WantsDaemonSet(gw);
  }

  /** After every orderly run each object of a Gateway is live exactly if its latest registration is of a valid
      Gateway with a listener whose proxy calls for it: a DaemonSet if one is configured and a Deployment otherwise, an
      HPA if the Deployment has autoscaling enabled, a PDB if the Deployment has one. */
  lemma LiveIff(calls: seq<Call>, n: Name)
    requires Orderly(calls)
    ensures Latest(calls, n).None? ==> forall k :: (n, k) !in Run(calls).live
    ensures Latest(calls, n).Some? ==>
              var gw, live := Latest(calls, n).value, Run(calls).live;
              var k, on := Section(gw), gw.valid && gw.listeners != [];
              && ((n, DaemonSet) in live <==> on && k.daemonSet.Some?)
              && ((n, Deployment) in live <==> on && k.daemonSet.None?)
              && ((n, HPA) in live <==> on && k.deployment.Some? && k.deployment.value.autoscaling.Some?
                                        && k.deployment.value.autoscaling.value.enable)
              && ((n, PDB) in live <==> on && k.deployment.Some? && k.deployment.value.pdb.Some?)
  {
    RunConverges(calls, n);
    forall k ensures (n, k) in Run(calls).live <==> k in AskedLast(calls, n) {
      assert k in LiveOf(Run(calls), n) <==> (n, k) in Run(calls).live;
    }
    if Latest(calls, n).Some? { AskedIff(Latest(calls, n).value); }
  }

  // ---- What does not converge ----

  const QUIET := Api({}, {}, {}, false, false, false)

  function Sample(deployment: bool, daemonSet: bool, source: string): (r: Gateway) {
    Gateway(true, source,
            Some(Proxy(Some(Kubernetes(if deployment then Some(DeploymentSpec(None, None, None, "")) else None,
                                       if daemonSet then Some(DaemonSetSpec(None, "")) else None, None)), "")),
            [Listener("http", 80, "HTTP", None)])
  }

  /** A successful call for one Gateway whose only object is its workload. */
  lemma RegisterOne(w: World, gw: Gateway, k: Kind)
    requires !Skips(w, "gw", gw) && Provisionable(gw) && Objects(gw) == [k]
    ensures var m := Remember(w, "gw", gw);
            Register(w, "gw", gw, QUIET) == Put(Delete(m, "gw", Obsolete(m.store["gw"])), "gw", k, QUIET)
  {
    var m := Remember(w, "gw", gw);
    assert Obsolete(m.store["gw"]) - QUIET.failDelete == Obsolete(m.store["gw"]);
    var d := Delete(m, "gw", Obsolete(m.store["gw"]));
    assert [k][1..] == [];
    assert PutAll(d, "gw", [k], QUIET) == PutAll(Put(d, "gw", k, QUIET), "gw", [], QUIET);
  }

  ghost predicate Stands(w: World, gw: Gateway, live: set<(Name, Kind)>, kinds: set<Kind>) {
    w.live == live && w.store.Keys == {"gw"} && w.store["gw"].kinds == kinds && w.store["gw"].gateway == Some(gw)
  }

  lemma FirstDaemonSet(w: World)
    requires w == World(map[], {})
    ensures var gw := Sample(false, true, "1");
            Stands(Register(w, "gw", gw, QUIET), gw, {("gw", DaemonSet)}, {DaemonSet})
  {
    var gw := Sample(false, true, "1");
    assert Objects(gw) == [DaemonSet] && Obsolete(Tracked(Some(gw), {})) == {};
    RegisterOne(w, gw, DaemonSet);
  }

  lemma ThenDeployment(w: World)
    requires Stands(w, Sample(false, true, "1"), {("gw", DaemonSet)}, {DaemonSet})
    ensures var gw := Sample(true, false, "2");
            Stands(Register(w, "gw", gw, QUIET), gw, {("gw", Deployment)}, {DaemonSet, Deployment})
  {
    var gw := Sample(true, false, "2");
    assert Objects(gw) == [Deployment] && Obsolete(Tracked(Some(gw), {DaemonSet})) == {DaemonSet};
    assert gw.source != Sample(false, true, "1").source;
    RegisterOne(w, gw, Deployment);
  }

  lemma ThenBoth(w: World)
    requires Stands(w, Sample(true, false, "2"), {("gw", Deployment)}, {DaemonSet, Deployment})
    ensures LiveOf(Register(w, "gw", Sample(true, true, "3"), QUIET), "gw") == {Deployment, DaemonSet}
  {
    var gw := Sample(true, true, "3");
    assert Objects(gw) == [DaemonSet] && Obsolete(Tracked(Some(gw), {DaemonSet, Deployment})) == {DaemonSet};
    assert gw.source != Sample(true, false, "2").source;
    RegisterOne(w, gw, DaemonSet);
    assert Register(w, "gw", gw, QUIET).live == {("gw", Deployment), ("gw", DaemonSet)};
  }

  /** DaemonSet, then Deployment, then both: two workloads are left running. */
  lemma BothConfiguredLeavesTwo()
    ensures LiveOf(Run([Call("gw", Sample(false, true, "1"), QUIET), Call("gw", Sample(true, false, "2"), QUIET),
                        Call("gw", Sample(true, true, "3"), QUIET)]), "gw") == {Deployment, DaemonSet}
  {
    var g1, g2, g3 := Sample(false, true, "1"), Sample(true, false, "2"), Sample(true, true, "3");
    var c1, c2, c3 := Call("gw", g1, QUIET), Call("gw", g2, QUIET), Call("gw", g3, QUIET);
    assert [c1, c2, c3][..2] == [c1, c2] && [c1, c2][..1] == [c1] && [c1][..0] == [];
    var w0 := World(map[], {});
    FirstDaemonSet(w0);
    var w1 := Register(w0, "gw", g1, QUIET);
    ThenDeployment(w1);
    var w2 := Register(w1, "gw", g2, QUIET);
    ThenBoth(w2);
    var w3 := Register(w2, "gw", g3, QUIET);
    assert Run([]) == w0 && Run([c1]) == w1 && Run([c1, c2]) == w2 && Run([c1, c2, c3]) == w3;
  }

  /** From any state, whatever failed before: a call whose API calls succeed leaves exactly the kinds asked for, if and
      only if it is not skipped and no Deployment is missed, or is skipped and they were there already. */
  lemma CallRepairsIff(w: World, n: Name, gw: Gateway, api: Api)
    requires EverythingTracked(w) && AllSucceed(api)
    ensures LiveOf(Register(w, n, gw, api), n) == Asked(gw)
            <==> if Skips(w, n, gw) then LiveOf(w, n) == Asked(gw)
                 else !(Provisionable(gw) && DeploymentIsMissed(w, n, gw))
    ensures !BothConfigured(gw) ==>
              (LiveOf(Register(w, n, gw, api), n) == Asked(gw) <==> !Skips(w, n, gw) || LiveOf(w, n) == Asked(gw))
  {
    RegisterKeepsTrack(w, n, gw, api);
    if Skips(w, n, gw) {
      assert LiveOf(Register(w, n, gw, api), n) == LiveOf(w, n);
    } else {
      RegisterConvergesIff(w, n, gw, api);
    }
  }

  /** Registering the same Gateway again never changes what is live, whatever failed the first time and whatever
      succeeds now: the second call is skipped as unchanged, or finds everything gone already. */
  lemma RepeatingChangesNothing(w: World, n: Name, gw: Gateway, api: Api, api': Api)
    requires EverythingTracked(w)
    ensures var once := Register(w, n, gw, api); LiveOf(Register(once, n, gw, api'), n) == LiveOf(once, n)
  {
    var once := Register(w, n, gw, api);
    RegisterKeepsTrack(w, n, gw, api);
    if n in once.store {
      assert Skips(once, n, gw);
      RegisterKeepsTrack(once, n, gw, api');
      assert LiveOf(Register(once, n, gw, api'), n) == LiveOf(once, n);
    } else {
      assert LiveOf(once, n) == {} && !Provisionable(gw) by { RemembersUnlessInvalid(w, n, gw, api); }
      RememberEffect(once, n, gw);
      DeprovisionShrinks(Remember(once, n, gw), n, api');
    }
  }

  lemma RemembersUnlessInvalid(w: World, n: Name, gw: Gateway, api: Api)
    requires EverythingTracked(w) && n !in Register(w, n, gw, api).store
    ensures !Provisionable(gw) && LiveOf(Register(w, n, gw, api), n) == {}
  {
    RememberEffect(w, n, gw);
    var m := Remember(w, n, gw);
    if !Skips(w, n, gw) && Provisionable(gw) && !api.failBeforeWorkload {
      DeleteEffect(m, n, Obsolete(m.store[n]) - api.failDelete);
      PutAllEffect(Delete(m, n, Obsolete(m.store[n]) - api.failDelete), n, Objects(gw), api);
    }
    RegisterKeepsTrack(w, n, gw, api);
  }

  lemma DeprovisionShrinks(w: World, n: Name, api: Api)
    ensures LiveOf(Deprovision(w, n, api), n) <= LiveOf(w, n)
  {
    forall k | k in LiveOf(Deprovision(w, n, api), n) ensures k in LiveOf(w, n) { }
  }

  /** A failed registration is not made up for by registering the same Gateway again: the second call is
      skipped as unchanged. */
  lemma FailureIsNotRetried(n: Name, gw: Gateway, api: Api)
    requires Provisionable(gw) && api.failBeforeWorkload
    ensures LiveOf(Run([Call(n, gw, api), Call(n, gw, QUIET)]), n) == {} != Asked(gw)
  {
    var c1, c2 := Call(n, gw, api), Call(n, gw, QUIET);
    assert [c1, c2][..1] == [c1] && [c1][..0] == [];
    var w1 := Register(World(map[], {}), n, gw, api);
    assert Run([]) == World(map[], {});
    assert Run([c1]) == w1;
    assert w1.store == map[n := Tracked(Some(gw), {})] && w1.live == {};
    assert Skips(w1, n, gw);
    assert Run([c1, c2]) == Register(w1, n, gw, QUIET);
    assert Register(w1, n, gw, QUIET).live == {};
    assert Objects(gw)[0] in Asked(gw);
  }

  // ---- The provisioner as the program runs it ----

  class Provisioner {
    var leader: bool
    var store: map<Name, Tracked>
    var live: set<(Name, Kind)>

    ghost function Now(): (r: World)
      reads this
    {
      World(store, live)
    }

    constructor ()
      ensures !leader && Now() == World(map[], {})
    {
      leader, store, live := false, map[], {};
    }

    method DeleteObject(n: Name, k: Kind, api: Api)
      modifies this`live
      ensures live == old(live) - if k in api.failDelete then {} else {(n, k)}
    {
      if k !in api.failDelete { live := live - {(n, k)}; }
    }

    method HandleObjectDeletion(n: Name, api: Api)
      requires n in store
      modifies this`live
      ensures Now() == Delete(old(Now()), n, Obsolete(store[n]) - api.failDelete)
    {
      var t := store[n];
      if NeedToDeleteDaemonSet(t) {
        DeleteObject(n, DaemonSet, api);
      } else if NeedToDeleteDeployment(t) {
        DeleteObject(n, Deployment, api);
      }
      if NeedToDeleteHPA(t) { DeleteObject(n, HPA, api); }
      if NeedToDeletePDB(t) { DeleteObject(n, PDB, api); }
    }

    method RegisterResource(n: Name, k: Kind)
      modifies this`store
      ensures Now() == Track(old(Now()), n, k)
    {
      if n !in store {
        store := store[n := Tracked(None, {} + {k})];
      } else {
        store := store[n := store[n].(kinds := store[n].kinds + {k})];
      }
    }

    method ProvisionNginx(n: Name, objects: seq<Kind>, api: Api) returns (failed: bool)
      modifies this`store, this`live
      ensures Now() == PutAll(old(Now()), n, objects, api)
      ensures failed <==> exists k :: k in objects && k in api.failPut
    {
      failed := false;
      for i := 0 to |objects|
        invariant forall k :: k in objects[..i] ==> k !in api.failPut
        invariant PutAll(Now(), n, objects[i..], api) == PutAll(old(Now()), n, objects, api)
      {
        var k := objects[i];
        assert objects[i..][1..] == objects[i + 1..];
        if k in api.failPut { return true; }
        if (n, k) in live && k in api.upToDate { continue; }
        live := live + {(n, k)};
        RegisterResource(n, k);
      }
    }

    method DeprovisionNginx(n: Name, api: Api) returns (failed: bool)
      modifies this`store, this`live
      ensures Now() == Deprovision(old(Now()), n, api)
      ensures (!failed ==> n !in store) && (AllSucceed(api) ==> !failed)
    {
      failed := true;
      if Deployment in api.failDelete { return; }
      live := live - {(n, Deployment)};
      if DaemonSet in api.failDelete { return; }
      live := live - {(n, DaemonSet)};
      if api.failDeletingService || HPA in api.failDelete { return; }
      live := live - {(n, HPA)};
      if PDB in api.failDelete { return; }
      live := live - {(n, PDB)};
      if api.failDeletingRest { return; }
      store := store - {n};
      failed := false;
    }

    /** Only the leader acts; an unchanged Gateway is recorded and nothing else happens. */
    method RegisterGateway(n: Name, gw: Gateway, api: Api) returns (failed: bool)
      modifies this`store, this`live
      ensures Now() == if leader then Register(old(Now()), n, gw, api) else old(Now())
    {
      if !leader { return false; }
      var updated := true;
      if n in store {
        updated := GatewayChanged(store[n].gateway, gw);
        store := store[n := store[n].(gateway := Some(gw))];
      } else {
        store := store[n := Tracked(Some(gw), {})];
      }
      if !updated { return false; }
      if gw.valid && |gw.listeners| > 0 {
        HandleObjectDeletion(n, api);
        if api.failBeforeWorkload { return true; }
        failed := ProvisionNginx(n, Objects(gw), api);
      } else {
        failed := DeprovisionNginx(n, api);
      }
    }
  }
}
