/** The change processor: captured upserts and deletes go into the cluster state, a flag remembers whether
    any of them can matter, and the graph is rebuilt only if the flag is set. */
module ChangeProcessor {
  import opened Wrappers

  type Kind = string
  type Name = string

  /** A resource. `version` is the value of the annotation that the CRD predicate watches, empty if unset. */
  datatype Object = Object(kind: Kind, name: Name, version: string, spec: string)

  type Store = map<(Kind, Name), Object>
  type Bundles = map<string, string>

  /** How an event of a kind counts as a change. */
  datatype ChangePredicate =
    | Always             // no predicate: every event
    | WhenRelevant       // funcPredicate over the latest graph
    | WhenVersionChanges // annotationChangedPredicate

  /** Kinds without a store (EndpointSlices) are not persisted. */
  datatype KindCfg = KindCfg(persisted: bool, counts: ChangePredicate)

  type Config = map<Kind, KindCfg>

  /** The graph builder and the questions the processor asks of a graph. `relevant` stands for
      IsReferenced and IsNGFPolicyRelevant; on a delete they get no object, only its kind and name. */
  datatype Builder<!G> = Builder(
    build: (Store, Bundles) -> G,
    bundles: G -> Bundles,
    relevant: (G, Kind, Name, Option<Object>) -> bool)

  datatype Event =
    | Upsert(obj: Object)
    | Delete(kind: Kind, name: Name)
    | ForceRebuild

  predicate Supported(cfg: Config, e: Event) {
    match e
    case Upsert(o) => o.kind in cfg
    case Delete(k, _) => k in cfg
    case ForceRebuild => true
  }

  // ---- Specification ----

  datatype State<G> = State(store: Store, changed: bool, graph: Option<G>, used: Bundles)

  function Apply(cfg: Config, s: Store, e: Event): (r: Store)
    requires Supported(cfg, e)
  {
    match e
    case Upsert(o) => if cfg[o.kind].persisted then s[(o.kind, o.name) := o] else s
    case Delete(k, n) => if cfg[k].persisted then s - {(k, n)} else s
    case ForceRebuild => s
  }

  /** Whether the event sets the changed flag, given the latest graph and the store before the event. */
  predicate Flags<G>(cfg: Config, b: Builder<G>, graph: Option<G>, s: Store, e: Event)
    requires Supported(cfg, e)
  {
    match e
    case Upsert(o) =>
      (match cfg[o.kind].counts
       case Always => true
       case WhenRelevant => graph.Some? && b.relevant(graph.value, o.kind, o.name, Some(o))
       case WhenVersionChanges =>
         !cfg[o.kind].persisted || (o.kind, o.name) !in s || s[(o.kind, o.name)].version != o.version)
    case Delete(k, n) =>
      if cfg[k].persisted && (k, n) !in s then false
      else (match cfg[k].counts
            case Always => true
            case WhenRelevant => graph.Some? && b.relevant(graph.value, k, n, None)
            case WhenVersionChanges => true)
    case ForceRebuild => true
  }

  function Capture<G>(cfg: Config, b: Builder<G>, st: State<G>, e: Event): (r: State<G>)
    requires Supported(cfg, e)
  {
    st.(store := Apply(cfg, st.store, e), changed := st.changed || Flags(cfg, b, st.graph, st.store, e))
  }

  /** mergedWAFBundles: what the last graph had, overlaid by what the pollers fetched. */
  function MergedBundles<G>(b: Builder<G>, graph: Option<G>, polled: Bundles): (r: Bundles) {
    (if graph.Some? then b.bundles(graph.value) else map[]) + polled
  }

  function Process<G>(b: Builder<G>, st: State<G>, polled: Bundles): (r: State<G>) {
    if !st.changed then st
    else
      var used := MergedBundles(b, st.graph, polled);
      State(st.store, false, Some(b.build(st.store, used)), used)
  }

  /** A run mixes captures with Process calls, each with the bundles the pollers then have. */
  datatype Action = Captured(e: Event) | Processed(polled: Bundles)

  function Act<G>(cfg: Config, b: Builder<G>, st: State<G>, a: Action): (r: State<G>)
    requires a.Captured? ==> Supported(cfg, a.e)
  {
    match a
    case Captured(e) => Capture(cfg, b, st, e)
    case Processed(polled) => Process(b, st, polled)
  }

  predicate SupportedRun(cfg: Config, run: seq<Action>) {
    forall a :: a in run && a.Captured? ==> Supported(cfg, a.e)
  }

  function Initial<G>(): (r: State<G>) {
    State(map[], false, None, map[])
  }

  function Run<G>(cfg: Config, b: Builder<G>, run: seq<Action>): (r: State<G>)
    requires SupportedRun(cfg, run)
  {
    if run == [] then Initial()
    else
      var a := run[|run| - 1];
      assert a in run;
      Act(cfg, b, Run(cfg, b, run[..|run| - 1]), a)
  }

  // ---- The frame hypothesis and what it is worth ----

  ghost predicate WellFormed(cfg: Config, s: Store) {
    forall k :: k in s ==> s[k].kind == k.0 && s[k].name == k.1 && k.0 in cfg && cfg[k.0].persisted
  }

  /** Events the predicates take to be harmless: an object the graph does not refer to is stored or
      removed, or a stored object is replaced by one with the same version annotation. */
  ghost predicate Harmless<G>(cfg: Config, b: Builder<G>, g: G, s: Store, e: Event)
    requires Supported(cfg, e)
  {
    match e
    case Upsert(o) =>
      cfg[o.kind].persisted &&
      (match cfg[o.kind].counts
       case Always => false
       case WhenRelevant => !b.relevant(g, o.kind, o.name, Some(o))
       case WhenVersionChanges => (o.kind, o.name) in s && s[(o.kind, o.name)].version == o.version)
    case Delete(k, n) =>
      cfg[k].persisted && (k, n) in s && cfg[k].counts.WhenRelevant? && !b.relevant(g, k, n, None)
    case ForceRebuild => false
  }

  /** The frame hypothesis: a harmless event does not change the build. */
  ghost predicate Frame<G(!new)>(cfg: Config, b: Builder<G>) {
    forall s: Store, w: Bundles, e: Event {:trigger b.build(s, w), Apply(cfg, s, e)} ::
      WellFormed(cfg, s) && Supported(cfg, e) && Harmless(cfg, b, b.build(s, w), s, e)
      ==> b.build(Apply(cfg, s, e), w) == b.build(s, w)
  }

  /** The cached graph is what a rebuild of the current store with the bundles last used would give. */
  ghost predicate CacheAgrees<G>(b: Builder<G>, st: State<G>) {
    st.graph.Some? && !st.changed ==> st.graph.value == b.build(st.store, st.used)
  }

  lemma UnflaggedEventKeepsBuild<G(!new)>(cfg: Config, b: Builder<G>, s: Store, w: Bundles, e: Event)
    requires Frame(cfg, b) && WellFormed(cfg, s) && Supported(cfg, e)
    requires !Flags(cfg, b, Some(b.build(s, w)), s, e)
    ensures b.build(Apply(cfg, s, e), w) == b.build(s, w)
  {
    if e.Delete? && (e.kind, e.name) !in s { assert s - {(e.kind, e.name)} == s; }
    assert Harmless(cfg, b, b.build(s, w), s, e) || Apply(cfg, s, e) == s;
  }

  lemma {:induction false} RunAgrees<G(!new)>(cfg: Config, b: Builder<G>, run: seq<Action>)
    requires Frame(cfg, b) && SupportedRun(cfg, run)
    ensures WellFormed(cfg, Run(cfg, b, run).store)
    ensures CacheAgrees(b, Run(cfg, b, run))
  {
    if run != [] {
      var before, a := run[..|run| - 1], run[|run| - 1];
      RunAgrees(cfg, b, before);
      var st := Run(cfg, b, before);
      assert a in run;
      if a.Captured? && st.graph.Some? && !st.changed && !Flags(cfg, b, st.graph, st.store, a.e) {
        UnflaggedEventKeepsBuild(cfg, b, st.store, st.used, a.e);
      }
    }
  }

  ghost predicate AgreesOnEveryRun<G(!new)>(cfg: Config, b: Builder<G>) {
    forall run :: SupportedRun(cfg, run) ==> CacheAgrees(b, Run(cfg, b, run))
  }

  lemma RunSnoc<G>(cfg: Config, b: Builder<G>, run: seq<Action>, a: Action)
    requires SupportedRun(cfg, run) && (a.Captured? ==> Supported(cfg, a.e))
    ensures SupportedRun(cfg, run + [a])
    ensures Run(cfg, b, run + [a]) == Act(cfg, b, Run(cfg, b, run), a)
  {
    assert (run + [a])[..|run|] == run;
  }

  /** Some run without a graph has stored any given well-formed store. */
  lemma StoreIsReachable<G>(cfg: Config, b: Builder<G>, s: Store) returns (run: seq<Action>)
    requires WellFormed(cfg, s)
    ensures SupportedRun(cfg, run) && Run(cfg, b, run).store == s && Run(cfg, b, run).graph.None?
  {
    var es := Fill(cfg, s);
    run := Captures(es);
    RunCaptures(cfg, b, [], es);
    assert [] + run == run;
    CaptureAllStore<G>(cfg, b, Initial(), es);
  }

  /** Some run has just built a given store with given bundles. */
  lemma BuiltIsReachable<G>(cfg: Config, b: Builder<G>, s: Store, w: Bundles) returns (built: seq<Action>)
    requires WellFormed(cfg, s)
    ensures SupportedRun(cfg, built) && Run(cfg, b, built) == State(s, false, Some(b.build(s, w)), w)
  {
    var run := StoreIsReachable(cfg, b, s);
    RunSnoc(cfg, b, run, Captured(ForceRebuild));
    var forced := run + [Captured(ForceRebuild)];
    RunSnoc(cfg, b, forced, Processed(w));
    built := forced + [Processed(w)];
    assert map[] + w == w;
  }

  /** From any store and any bundles, an event that is not flagged must not change the build if the cache
      is to agree on the run that produces them. */
  lemma AgreementNeedsFrame<G(!new)>(cfg: Config, b: Builder<G>, s: Store, w: Bundles, e: Event)
    requires AgreesOnEveryRun(cfg, b)
    requires WellFormed(cfg, s) && Supported(cfg, e)
    requires !Flags(cfg, b, Some(b.build(s, w)), s, e)
    ensures b.build(Apply(cfg, s, e), w) == b.build(s, w)
  {
    var built := BuiltIsReachable(cfg, b, s, w);
    RunSnoc(cfg, b, built, Captured(e));
    assert CacheAgrees(b, Run(cfg, b, built + [Captured(e)]));
  }

  /** The cache agrees with always rebuilding, in every run, exactly when the frame hypothesis holds. */
  lemma CacheAgreesIffFrame<G(!new)>(cfg: Config, b: Builder<G>)
    ensures AgreesOnEveryRun(cfg, b) <==> Frame(cfg, b)
  {
    if Frame(cfg, b) {
      forall run | SupportedRun(cfg, run) ensures CacheAgrees(b, Run(cfg, b, run)) { RunAgrees(cfg, b, run); }
    }
    if AgreesOnEveryRun(cfg, b) {
      forall s: Store, w: Bundles, e: Event {:trigger b.build(s, w), Apply(cfg, s, e)} |
        WellFormed(cfg, s) && Supported(cfg, e) && Harmless(cfg, b, b.build(s, w), s, e)
        ensures b.build(Apply(cfg, s, e), w) == b.build(s, w)
      {
        AgreementNeedsFrame(cfg, b, s, w, e);
      }
    }
  }

  // ---- Batching ----

  /** A batch of events and the bundles the pollers have when it is processed. */
  datatype Batch = Batch(events: seq<Event>, polled: Bundles)

  predicate SupportedEvents(cfg: Config, es: seq<Event>) {
    forall e :: e in es ==> Supported(cfg, e)
  }

  function CaptureAll<G>(cfg: Config, b: Builder<G>, st: State<G>, es: seq<Event>): (r: State<G>)
    requires SupportedEvents(cfg, es)
  {
    if es == [] then st
    else
      var e := es[|es| - 1];
      assert e in es;
      Capture(cfg, b, CaptureAll(cfg, b, st, es[..|es| - 1]), e)
  }

  /** HandleEventBatch: capture every event, then process once. */
  function Handle<G>(cfg: Config, b: Builder<G>, st: State<G>, batch: Batch): (r: State<G>)
    requires SupportedEvents(cfg, batch.events)
  {
    Process(b, CaptureAll(cfg, b, st, batch.events), batch.polled)
  }

  function Events(bs: seq<Batch>): (r: seq<Event>) {
    if bs == [] then [] else Events(bs[..|bs| - 1]) + bs[|bs| - 1].events
  }

  function HandleAll<G>(cfg: Config, b: Builder<G>, bs: seq<Batch>): (r: State<G>)
    requires SupportedEvents(cfg, Events(bs))
  {
    if bs == [] then Initial()
    else Handle(cfg, b, HandleAll(cfg, b, bs[..|bs| - 1]), bs[|bs| - 1])
  }

  /** The store `s` after the events. */
  function ApplyAll(cfg: Config, s: Store, es: seq<Event>): (r: Store)
    requires SupportedEvents(cfg, es)
  {
    if es == [] then s
    else
      var e := es[|es| - 1];
      assert e in es;
      Apply(cfg, ApplyAll(cfg, s, es[..|es| - 1]), e)
  }

  /** Whether the events call for a first graph: some event counts as a change with no graph to ask. */
  predicate Triggered<G>(cfg: Config, b: Builder<G>, es: seq<Event>)
    requires SupportedEvents(cfg, es)
  {
    es != [] &&
    var e := es[|es| - 1];
    assert e in es;
    (Triggered(cfg, b, es[..|es| - 1]) || Flags(cfg, b, None, ApplyAll(cfg, map[], es[..|es| - 1]), e))
  }

  lemma {:induction false} CaptureAllStore<G>(cfg: Config, b: Builder<G>, st: State<G>, es: seq<Event>)
    requires SupportedEvents(cfg, es)
    ensures var c := CaptureAll(cfg, b, st, es);
            c.store == ApplyAll(cfg, st.store, es) && c.graph == st.graph && c.used == st.used
  {
    if es != [] { CaptureAllStore(cfg, b, st, es[..|es| - 1]); }
  }

  lemma ApplySnoc(cfg: Config, s: Store, es: seq<Event>, e: Event)
    requires SupportedEvents(cfg, es) && Supported(cfg, e)
    ensures SupportedEvents(cfg, es + [e])
    ensures ApplyAll(cfg, s, es + [e]) == Apply(cfg, ApplyAll(cfg, s, es), e)
  {
    assert (es + [e])[..|es|] == es;
  }

  /** Upserts that fill the empty store. */
  lemma {:induction false} Fill(cfg: Config, s: Store) returns (es: seq<Event>)
    requires WellFormed(cfg, s)
    ensures SupportedEvents(cfg, es) && ApplyAll(cfg, map[], es) == s
    ensures forall e :: e in es ==> e.Upsert? && cfg[e.obj.kind].persisted
    decreases |s|
  {
    if s == map[] {
      es := [];
    } else {
      var k :| k in s;
      var before := Fill(cfg, s - {k});
      ApplySnoc(cfg, map[], before, Upsert(s[k]));
      es := before + [Upsert(s[k])];
      assert (s - {k})[k := s[k]] == s;
    }
  }

  function Captures(es: seq<Event>): (run: seq<Action>) {
    seq(|es|, i requires 0 <= i < |es| => Captured(es[i]))
  }

  /** Capturing events one by one is a run. */
  lemma {:induction false} RunCaptures<G>(cfg: Config, b: Builder<G>, run: seq<Action>, es: seq<Event>)
    requires SupportedRun(cfg, run) && SupportedEvents(cfg, es)
    ensures SupportedRun(cfg, run + Captures(es))
    ensures Run(cfg, b, run + Captures(es)) == CaptureAll(cfg, b, Run(cfg, b, run), es)
  {
    if es == [] {
      assert run + Captures(es) == run;
    } else {
      var init, e := es[..|es| - 1], es[|es| - 1];
      RunCaptures(cfg, b, run, init);
      assert e in es;
      RunSnoc(cfg, b, run + Captures(init), Captured(e));
      assert run + Captures(es) == run + Captures(init) + [Captured(e)];
    }
  }

  // ---- The processor as the program runs it ----

  class Processor<G(!new)> {
    const cfg: Config
    const builder: Builder<G>
    var store: Store
    var changed: bool
    var latestGraph: Option<G>
    ghost var used: Bundles

    ghost function Now(): (r: State<G>)
      reads this
    {
      State(store, changed, latestGraph, used)
    }

    constructor (cfg: Config, builder: Builder<G>)
      ensures this.cfg == cfg && this.builder == builder && Now() == Initial()
    {
      this.cfg, this.builder := cfg, builder;
      store, changed, latestGraph, used := map[], false, None, map[];
    }

    /** The updater works only with the kinds it was configured for and panics on others. */
    method CaptureUpsertChange(obj: Object)
      requires obj.kind in cfg
      modifies this`store, this`changed
      ensures Now() == Capture(cfg, builder, old(Now()), Upsert(obj))
    {
      var key := (obj.kind, obj.name);
      var oldObj := None;
      if cfg[obj.kind].persisted {
        if key in store { oldObj := Some(store[key]); }
        store := store[key := obj];
      }
      var changing := true;
      match cfg[obj.kind].counts {
        case Always =>
        case WhenRelevant =>
          changing := latestGraph.Some? && builder.relevant(latestGraph.value, obj.kind, obj.name, Some(obj));
        case WhenVersionChanges =>
          changing := oldObj.None? || oldObj.value.version != obj.version;
      }
      changed := changed || changing;
    }

    method CaptureDeleteChange(kind: Kind, name: Name)
      requires kind in cfg
      modifies this`store, this`changed
      ensures Now() == Capture(cfg, builder, old(Now()), Delete(kind, name))
    {
      if cfg[kind].persisted {
        if (kind, name) !in store {
          assert store - {(kind, name)} == store;
          return;
        }
        store := store - {(kind, name)};
      }
      var changing := true;
      match cfg[kind].counts {
        case Always =>
        case WhenRelevant =>
          changing := latestGraph.Some? && builder.relevant(latestGraph.value, kind, name, None);
        case WhenVersionChanges =>
      }
      changed := changed || changing;
    }

    method ForceRebuildNow()
      modifies this`changed
      ensures Now() == Capture(cfg, builder, old(Now()), ForceRebuild)
    {
      changed := true;
    }

    /** Process: the new graph, or nothing if no change was captured since the last call. */
    method ProcessChanges(polled: Bundles) returns (g: Option<G>)
      modifies this`changed, this`latestGraph, this`used
      ensures Now() == Process(builder, old(Now()), polled)
      ensures g == if old(changed) then latestGraph else None
    {
      if !changed { return None; }
      changed := false;
      var bundles := MergeWAFBundles(polled);
      latestGraph := Some(builder.build(store, bundles));
      used := bundles;
      g := latestGraph;
    }

    /** Polled bundles are laid over those of the latest graph. */
    method MergeWAFBundles(polled: Bundles) returns (merged: Bundles)
      ensures merged == MergedBundles(builder, latestGraph, polled)
    {
      var cached: Bundles := map[];
      if latestGraph.Some? { cached := builder.bundles(latestGraph.value); }
      merged := map[];
      var todo := cached.Keys;
      while todo != {}
        invariant todo <= cached.Keys && merged == cached - todo
        decreases todo
      {
        var k :| k in todo;
        todo := todo - {k};
        merged := merged[k := cached[k]];
      }
      assert merged == cached;
      todo := polled.Keys;
      while todo != {}
        invariant todo <= polled.Keys && merged == cached + (polled - todo)
        decreases todo
      {
        var k :| k in todo;
        todo := todo - {k};
        merged := merged[k := polled[k]];
      }
      assert polled - {} == polled;
    }

    /** HandleEventBatch up to the graph. */
    method HandleBatch(batch: Batch) returns (g: Option<G>)
      requires SupportedEvents(cfg, batch.events)
      modifies this
      ensures Now() == Handle(cfg, builder, old(Now()), batch)
      ensures g.Some? ==> g == latestGraph
      ensures g.None? ==> latestGraph == old(latestGraph)
      ensures g.Some? <==> CaptureAll(cfg, builder, old(Now()), batch.events).changed
    {
      for i := 0 to |batch.events|
        invariant Now() == CaptureAll(cfg, builder, old(Now()), batch.events[..i])
        invariant latestGraph == old(latestGraph)
      {
        assert batch.events[..i + 1][..i] == batch.events[..i];
        assert batch.events[i] in batch.events;
        match batch.events[i]
        case Upsert(o) => CaptureUpsertChange(o);
        case Delete(k, n) => CaptureDeleteChange(k, n);
        case ForceRebuild => ForceRebuildNow();
      }
      assert batch.events[..|batch.events|] == batch.events;
      g := ProcessChanges(batch.polled);
    }
  }
}
