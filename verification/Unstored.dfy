/** Kinds without a store, such as EndpointSlices. Their events leave the cluster state alone, but the configuration
    that is pushed for a graph is resolved from what the cluster has of them, so an event that is missed leaves
    NGINX with stale endpoints. */
module Unstored {
  import opened ChangeProcessor
  import opened Wrappers

  /** What the cluster has of the kinds without a store, as the events report it. */
  function ApplyOutside(cfg: Config, o: Store, e: Event): (r: Store)
    requires Supported(cfg, e)
  {
    match e
    case Upsert(obj) => if cfg[obj.kind].persisted then o else o[(obj.kind, obj.name) := obj]
    case Delete(k, n) => if cfg[k].persisted then o else o - {(k, n)}
    case ForceRebuild => o
  }

  function Outside(cfg: Config, run: seq<Action>): (o: Store)
    requires SupportedRun(cfg, run)
  {
    if run == [] then map[]
    else
      var a := run[|run| - 1];
      assert a in run;
      var before := Outside(cfg, run[..|run| - 1]);
      if a.Captured? then ApplyOutside(cfg, before, a.e) else before
  }

  /** What the last rebuild, and the push that followed it, found outside. */
  function Seen<G>(cfg: Config, b: Builder<G>, run: seq<Action>): (o: Store)
    requires SupportedRun(cfg, run)
  {
    if run == [] then map[]
    else
      var before := run[..|run| - 1];
      if run[|run| - 1].Processed? && Run(cfg, b, before).changed then Outside(cfg, before) else Seen(cfg, b, before)
  }

  /** The configuration pushed last is the one that a rebuild of the store, with the bundles last used, and a
      resolution of what is outside now would give. */
  ghost predicate PushAgrees<G, C>(cfg: Config, b: Builder<G>, resolve: (G, Store) -> C, run: seq<Action>)
    requires SupportedRun(cfg, run)
  {
    var st := Run(cfg, b, run);
    st.graph.Some? && !st.changed ==>
      resolve(st.graph.value, Seen(cfg, b, run)) == resolve(b.build(st.store, st.used), Outside(cfg, run))
  }

  ghost predicate PushAgreesOnEveryRun<G(!new), C(!new)>(cfg: Config, b: Builder<G>, resolve: (G, Store) -> C) {
    forall run :: SupportedRun(cfg, run) ==> PushAgrees(cfg, b, resolve, run)
  }

  /** An event on an object without a store that the graph does not refer to. */
  ghost predicate HarmlessOutside<G>(cfg: Config, b: Builder<G>, g: G, e: Event)
    requires Supported(cfg, e)
  {
    match e
    case Upsert(o) =>
      !cfg[o.kind].persisted && cfg[o.kind].counts == WhenRelevant && !b.relevant(g, o.kind, o.name, Some(o))
    case Delete(k, n) => !cfg[k].persisted && cfg[k].counts == WhenRelevant && !b.relevant(g, k, n, None)
    case ForceRebuild => false
  }

  ghost predicate OutsideWellFormed(cfg: Config, o: Store) {
    forall k :: k in o ==> o[k].kind == k.0 && o[k].name == k.1 && k.0 in cfg && !cfg[k.0].persisted
  }

  /** The frame hypothesis outside: the configuration of a graph does not depend on objects it does not refer to. */
  ghost predicate OutsideFrame<G(!new), C(!new)>(cfg: Config, b: Builder<G>, resolve: (G, Store) -> C) {
    forall s: Store, w: Bundles, o: Store, e: Event {:trigger b.build(s, w), ApplyOutside(cfg, o, e)} ::
      WellFormed(cfg, s) && OutsideWellFormed(cfg, o) && Supported(cfg, e) && HarmlessOutside(cfg, b, b.build(s, w), e)
      ==> resolve(b.build(s, w), ApplyOutside(cfg, o, e)) == resolve(b.build(s, w), o)
  }

  lemma UnflaggedOutside<G>(cfg: Config, b: Builder<G>, g: G, s: Store, o: Store, e: Event)
    requires Supported(cfg, e) && !Flags(cfg, b, Some(g), s, e)
    ensures HarmlessOutside(cfg, b, g, e) || ApplyOutside(cfg, o, e) == o
  {
  }

  lemma {:induction false} RunPushAgrees<G(!new), C(!new)>(
      cfg: Config, b: Builder<G>, resolve: (G, Store) -> C, run: seq<Action>)
    requires Frame(cfg, b) && OutsideFrame(cfg, b, resolve) && SupportedRun(cfg, run)
    ensures OutsideWellFormed(cfg, Outside(cfg, run)) && PushAgrees(cfg, b, resolve, run)
  {
    RunAgrees(cfg, b, run);
    if run != [] {
      var before, a := run[..|run| - 1], run[|run| - 1];
      assert a in run;
      RunPushAgrees(cfg, b, resolve, before);
      RunAgrees(cfg, b, before);
      var st, o := Run(cfg, b, before), Outside(cfg, before);
      if a.Captured? && st.graph.Some? && !st.changed && !Flags(cfg, b, st.graph, st.store, a.e) {
        UnflaggedOutside(cfg, b, st.graph.value, st.store, o, a.e);
        assert st.graph.value == b.build(st.store, st.used);
        assert resolve(st.graph.value, ApplyOutside(cfg, o, a.e)) == resolve(st.graph.value, o);
      }
    }
  }

  lemma OutsideSnoc(cfg: Config, run: seq<Action>, a: Action)
    requires SupportedRun(cfg, run) && (a.Captured? ==> Supported(cfg, a.e))
    ensures SupportedRun(cfg, run + [a])
    ensures Outside(cfg, run + [a])
            == if a.Captured? then ApplyOutside(cfg, Outside(cfg, run), a.e) else Outside(cfg, run)
  {
    assert (run + [a])[..|run|] == run;
  }

  lemma SeenSnoc<G>(cfg: Config, b: Builder<G>, run: seq<Action>, a: Action)
    requires SupportedRun(cfg, run) && (a.Captured? ==> Supported(cfg, a.e))
    ensures SupportedRun(cfg, run + [a])
    ensures Seen(cfg, b, run + [a])
            == if a.Processed? && Run(cfg, b, run).changed then Outside(cfg, run) else Seen(cfg, b, run)
  {
    assert (run + [a])[..|run|] == run;
  }

  lemma {:induction false} StoredKindsAreNotOutside(cfg: Config, es: seq<Event>)
    requires SupportedEvents(cfg, es) && forall e :: e in es ==> e.Upsert? && cfg[e.obj.kind].persisted
    ensures SupportedRun(cfg, Captures(es)) && Outside(cfg, Captures(es)) == map[]
  {
    if es != [] {
      var init, e := es[..|es| - 1], es[|es| - 1];
      assert e in es && forall x :: x in init ==> x in es;
      StoredKindsAreNotOutside(cfg, init);
      assert Captures(es) == Captures(init) + [Captured(e)];
      OutsideSnoc(cfg, Captures(init), Captured(e));
    }
  }

  /** Some run has reported any given objects outside, stored any given store, and built no graph. */
  lemma {:induction false} OutsideIsReachable<G>(cfg: Config, b: Builder<G>, s: Store, o: Store)
    returns (run: seq<Action>)
    requires WellFormed(cfg, s) && OutsideWellFormed(cfg, o)
    ensures SupportedRun(cfg, run) && Outside(cfg, run) == o
    ensures Run(cfg, b, run).store == s && Run(cfg, b, run).graph.None?
    decreases |o|
  {
    if o == map[] {
      var es := Fill(cfg, s);
      run := Captures(es);
      RunCaptures(cfg, b, [], es);
      assert [] + run == run;
      CaptureAllStore<G>(cfg, b, Initial(), es);
      StoredKindsAreNotOutside(cfg, es);
    } else {
      var k :| k in o;
      var before := OutsideIsReachable(cfg, b, s, o - {k});
      var a := Captured(Upsert(o[k]));
      RunSnoc(cfg, b, before, a);
      OutsideSnoc(cfg, before, a);
      run := before + [a];
      assert (o - {k})[k := o[k]] == o;
    }
  }

  /** Some run has just built a given store with given bundles, with given objects outside. */
  lemma BuiltWithOutside<G>(cfg: Config, b: Builder<G>, s: Store, w: Bundles, o: Store) returns (built: seq<Action>)
    requires WellFormed(cfg, s) && OutsideWellFormed(cfg, o)
    ensures SupportedRun(cfg, built) && Run(cfg, b, built) == State(s, false, Some(b.build(s, w)), w)
    ensures Outside(cfg, built) == o && Seen(cfg, b, built) == o
  {
    var run := OutsideIsReachable(cfg, b, s, o);
    var force, process := Captured(ForceRebuild), Processed(w);
    RunSnoc(cfg, b, run, force);
    OutsideSnoc(cfg, run, force);
    RunSnoc(cfg, b, run + [force], process);
    OutsideSnoc(cfg, run + [force], process);
    SeenSnoc(cfg, b, run + [force], process);
    built := run + [force] + [process];
    assert map[] + w == w;
  }

  lemma PushAgreementNeedsFrame<G(!new), C(!new)>(
      cfg: Config, b: Builder<G>, resolve: (G, Store) -> C, s: Store, w: Bundles, o: Store, e: Event)
    requires PushAgreesOnEveryRun(cfg, b, resolve)
    requires WellFormed(cfg, s) && OutsideWellFormed(cfg, o) && Supported(cfg, e)
    requires HarmlessOutside(cfg, b, b.build(s, w), e)
    ensures resolve(b.build(s, w), ApplyOutside(cfg, o, e)) == resolve(b.build(s, w), o)
  {
    var built := BuiltWithOutside(cfg, b, s, w, o);
    RunSnoc(cfg, b, built, Captured(e));
    OutsideSnoc(cfg, built, Captured(e));
    SeenSnoc(cfg, b, built, Captured(e));
    assert PushAgrees(cfg, b, resolve, built + [Captured(e)]);
  }

  /** In every run the cached graph agrees with the store and the pushed configuration with what is outside, exactly
      if neither an ignored event on a stored object changes the build nor one on an object without a store changes
      the configuration. */
  lemma PushAgreesIffFrames<G(!new), C(!new)>(cfg: Config, b: Builder<G>, resolve: (G, Store) -> C)
    ensures AgreesOnEveryRun(cfg, b) && PushAgreesOnEveryRun(cfg, b, resolve)
            <==> Frame(cfg, b) && OutsideFrame(cfg, b, resolve)
  {
    CacheAgreesIffFrame(cfg, b);
    if Frame(cfg, b) && OutsideFrame(cfg, b, resolve) {
      forall run | SupportedRun(cfg, run) ensures PushAgrees(cfg, b, resolve, run) {
        RunPushAgrees(cfg, b, resolve, run);
      }
    }
    if PushAgreesOnEveryRun(cfg, b, resolve) {
      forall s: Store, w: Bundles, o: Store, e: Event {:trigger b.build(s, w), ApplyOutside(cfg, o, e)} |
        && WellFormed(cfg, s) && OutsideWellFormed(cfg, o) && Supported(cfg, e)
        && HarmlessOutside(cfg, b, b.build(s, w), e)
        ensures resolve(b.build(s, w), ApplyOutside(cfg, o, e)) == resolve(b.build(s, w), o)
      {
        PushAgreementNeedsFrame(cfg, b, resolve, s, w, o, e);
      }
    }
  }

  // ---- Which batches bring a new graph ----

  /** The event is on an object of a kind that counts by relevance and to which the graph refers; a delete of a stored
      kind must find its object. */
  predicate Refers<G>(cfg: Config, b: Builder<G>, g: G, s: Store, e: Event)
    requires Supported(cfg, e)
  {
    match e
    case Upsert(o) => cfg[o.kind].counts == WhenRelevant && b.relevant(g, o.kind, o.name, Some(o))
    case Delete(k, n) =>
      cfg[k].counts == WhenRelevant && b.relevant(g, k, n, None) && (cfg[k].persisted ==> (k, n) in s)
    case ForceRebuild => false
  }

  /** Whether stored or not: a batch with an event on an object that the latest graph refers to brings a new graph. */
  lemma {:induction false} ReferredEventCounts<G>(cfg: Config, b: Builder<G>, st: State<G>, es: seq<Event>, i: nat)
    requires SupportedEvents(cfg, es) && st.graph.Some? && i < |es|
    requires SupportedEvents(cfg, es[..i]) && Supported(cfg, es[i])
    requires Refers(cfg, b, st.graph.value, ApplyAll(cfg, st.store, es[..i]), es[i])
    ensures CaptureAll(cfg, b, st, es).changed
  {
    var init := es[..|es| - 1];
    CaptureAllStore(cfg, b, st, init);
    if i < |es| - 1 {
      assert init[..i] == es[..i];
      ReferredEventCounts(cfg, b, st, init, i);
    }
  }

  /** A batch of events on objects without a store that the latest graph does not refer to brings none. */
  lemma {:induction false} UnreferredEventsDoNotCount<G>(cfg: Config, b: Builder<G>, st: State<G>, es: seq<Event>)
    requires SupportedEvents(cfg, es) && st.graph.Some? && !st.changed
    requires forall e :: e in es ==> HarmlessOutside(cfg, b, st.graph.value, e)
    ensures CaptureAll(cfg, b, st, es) == st
  {
    if es != [] {
      assert es[|es| - 1] in es;
      UnreferredEventsDoNotCount(cfg, b, st, es[..|es| - 1]);
    }
  }

  predicate CountsByRelevance(cfg: Config, e: Event)
    requires Supported(cfg, e)
  {
    match e
    case Upsert(o) => cfg[o.kind].counts == WhenRelevant
    case Delete(k, _) => cfg[k].counts == WhenRelevant
    case ForceRebuild => false
  }

  /** Before there is a graph nothing is relevant: such events alone never bring the first one. */
  lemma {:induction false} NothingIsRelevantYet<G>(cfg: Config, b: Builder<G>, st: State<G>, es: seq<Event>)
    requires SupportedEvents(cfg, es) && st.graph.None?
    requires forall e :: e in es ==> CountsByRelevance(cfg, e)
    ensures CaptureAll(cfg, b, st, es).changed == st.changed
  {
    if es != [] {
      assert es[|es| - 1] in es;
      CaptureAllStore(cfg, b, st, es[..|es| - 1]);
      NothingIsRelevantYet(cfg, b, st, es[..|es| - 1]);
    }
  }

  /** Any other upsert brings the first graph, unless it repeats a stored version of a kind that counts by version. */
  lemma {:induction false} FirstGraphComes<G>(cfg: Config, b: Builder<G>, st: State<G>, es: seq<Event>, i: nat)
    requires SupportedEvents(cfg, es) && i < |es| && SupportedEvents(cfg, es[..i]) && es[i].Upsert?
    requires var o, s := es[i].obj, ApplyAll(cfg, st.store, es[..i]);
             && o.kind in cfg && cfg[o.kind].counts != WhenRelevant
             && (cfg[o.kind].counts == WhenVersionChanges && (o.kind, o.name) in s && cfg[o.kind].persisted
                 ==> s[(o.kind, o.name)].version != o.version)
    ensures CaptureAll(cfg, b, st, es).changed
  {
    var init := es[..|es| - 1];
    CaptureAllStore(cfg, b, st, init);
    if i < |es| - 1 {
      assert init[..i] == es[..i];
      FirstGraphComes(cfg, b, st, init, i);
    }
  }
}
