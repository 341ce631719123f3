/** The parts of a Gateway and of its effective NginxProxy that decide which resources the provisioner
    creates, and the test by which it skips a Gateway that has not changed. */
module Gateways {
  import opened Wrappers

  datatype Listener = Listener(name: string, port: int, protocol: string, hostname: Option<string>)

  datatype Probe = Probe(expose: Option<bool>, port: Option<int>)

  datatype Autoscaling = Autoscaling(enable: bool, rest: string)

  /** `rest` stands for the fields that are copied into the objects unseen. */
  datatype DeploymentSpec = DeploymentSpec(
    probe: Option<Probe>,
    autoscaling: Option<Autoscaling>,
    pdb: Option<string>,
    rest: string)

  datatype DaemonSetSpec = DaemonSetSpec(probe: Option<Probe>, rest: string)

  datatype NodePort = NodePort(listenerPort: int, port: int)

  datatype ServiceSpec = ServiceSpec(serviceType: Option<string>, nodePorts: seq<NodePort>, rest: string)

  datatype Kubernetes = Kubernetes(
    deployment: Option<DeploymentSpec>,
    daemonSet: Option<DaemonSetSpec>,
    service: Option<ServiceSpec>)

  datatype Proxy = Proxy(kubernetes: Option<Kubernetes>, rest: string)

  datatype Gateway = Gateway(valid: bool, source: string, proxy: Option<Proxy>, listeners: seq<Listener>)

  // ---- Change detection ----

  datatype ListenerKey = ListenerKey(name: string, port: int, protocol: string, hostname: string)

  function KeyOf(l: Listener): (k: ListenerKey) {
    ListenerKey(l.name, l.port, l.protocol, if l.hostname.Some? then l.hostname.value else "")
  }

  function KeySet(ls: seq<Listener>): (r: set<ListenerKey>) {
    set i | 0 <= i < |ls| :: KeyOf(ls[i])
  }

  predicate ListenersDiffer(original: seq<Listener>, updated: seq<Listener>) {
    |original| != |updated| || KeySet(original) != KeySet(updated)
  }

  predicate Differs(original: Option<Gateway>, updated: Gateway) {
    original.None? ||
    original.value.valid != updated.valid ||
    original.value.source != updated.source ||
    original.value.proxy != updated.proxy ||
    ListenersDiffer(original.value.listeners, updated.listeners)
  }

  method BuildKeySet(ls: seq<Listener>) returns (keys: set<ListenerKey>)
    ensures keys == KeySet(ls)
  {
    keys := {};
    for i := 0 to |ls|
      invariant keys == KeySet(ls[..i])
    {
      var hostname := "";
      if ls[i].hostname.Some? { hostname := ls[i].hostname.value; }
      keys := keys + {ListenerKey(ls[i].name, ls[i].port, ls[i].protocol, hostname)};
      assert ls[..i + 1] == ls[..i] + [ls[i]];
      KeySetSnoc(ls[..i], ls[i]);
    }
    assert ls[..|ls|] == ls;
  }

  lemma KeySetSnoc(ls: seq<Listener>, l: Listener)
    ensures KeySet(ls + [l]) == KeySet(ls) + {KeyOf(l)}
  {
    var all := ls + [l];
    forall k | k in KeySet(ls) + {KeyOf(l)} ensures k in KeySet(all) {
      if k == KeyOf(l) {
        assert KeyOf(all[|ls|]) == k;
      } else {
        var i :| 0 <= i < |ls| && KeyOf(ls[i]) == k;
        assert KeyOf(all[i]) == k;
      }
    }
  }

  /** Some listener of the list has the same name, port, protocol and hostname, an unset hostname being empty. */
  ghost predicate HasListener(ls: seq<Listener>, l: Listener) {
    exists i :: 0 <= i < |ls| && SameListener(ls[i], l)
  }

  predicate SameListener(a: Listener, b: Listener) {
    && a.name == b.name && a.port == b.port && a.protocol == b.protocol
    && (if a.hostname.Some? then a.hostname.value else "") == (if b.hostname.Some? then b.hostname.value else "")
  }

  lemma KeySetHas(ls: seq<Listener>, l: Listener)
    ensures KeyOf(l) in KeySet(ls) <==> HasListener(ls, l)
  {
    if KeyOf(l) in KeySet(ls) {
      var i :| 0 <= i < |ls| && KeyOf(ls[i]) == KeyOf(l);
      assert SameListener(ls[i], l);
    }
    if i :| 0 <= i < |ls| && SameListener(ls[i], l) {
      assert KeyOf(ls[i]) == KeyOf(l);
    }
  }

  /** A Gateway is skipped exactly if it was registered before with the same source, validity and effective proxy and
      with as many listeners, each of either list having its like in the other. */
  lemma SkippedIff(original: Option<Gateway>, updated: Gateway)
    ensures !Differs(original, updated)
            <==> && original.Some? && original.value.source == updated.source
                 && original.value.valid == updated.valid && original.value.proxy == updated.proxy
                 && |original.value.listeners| == |updated.listeners|
                 && (forall l :: l in original.value.listeners ==> HasListener(updated.listeners, l))
                 && (forall l :: l in updated.listeners ==> HasListener(original.value.listeners, l))
  {
    if original.Some? {
      KeysWithinIff(original.value.listeners, updated.listeners);
      KeysWithinIff(updated.listeners, original.value.listeners);
    }
  }

  lemma KeysWithinIff(a: seq<Listener>, b: seq<Listener>)
    ensures KeySet(a) <= KeySet(b) <==> forall l :: l in a ==> HasListener(b, l)
  {
    forall l ensures KeyOf(l) in KeySet(b) <==> HasListener(b, l) { KeySetHas(b, l); }
    if KeySet(a) <= KeySet(b) {
      forall l | l in a ensures HasListener(b, l) {
        var i :| 0 <= i < |a| && a[i] == l;
        assert KeyOf(a[i]) in KeySet(a);
      }
    }
    if forall l :: l in a ==> HasListener(b, l) {
      forall k | k in KeySet(a) ensures k in KeySet(b) {
        var i :| 0 <= i < |a| && KeyOf(a[i]) == k;
        assert a[i] in a;
      }
    }
  }

  /** gatewayChanged and listenersChanged. */
  method GatewayChanged(original: Option<Gateway>, updated: Gateway) returns (changed: bool)
    ensures changed <==> Differs(original, updated)
  {
    if original.None? { return true; }
    var was := original.value;
    if was.valid != updated.valid || was.source != updated.source || was.proxy != updated.proxy { return true; }
    if |was.listeners| != |updated.listeners| { return true; }
    var before := BuildKeySet(was.listeners);
    var after := BuildKeySet(updated.listeners);
    return before != after;
  }
}
