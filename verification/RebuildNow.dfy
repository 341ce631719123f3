/** Whether the cached graph is what the processor would build at this very moment, with the bundles of that
    graph and of the pollers at hand. */
module RebuildNow {
  import opened Batching
  import opened ChangeProcessor
  import opened Wrappers

  predicate SteadyRun(run: seq<Action>, polled: Bundles) {
    forall i :: 0 <= i < |run| && run[i].Processed? ==> run[i].polled == polled
  }

  /** The cached graph is what Process would build now if it were made to. */
  ghost predicate AgreesNow<G>(b: Builder<G>, st: State<G>, polled: Bundles) {
    st.graph.Some? && !st.changed ==> st.graph.value == b.build(st.store, MergedBundles(b, st.graph, polled))
  }

  ghost predicate AllWellFormed(cfg: Config, stores: seq<Store>) {
    forall i :: 0 <= i < |stores| ==> WellFormed(cfg, stores[i])
  }

  /** The bundles a build is handed after builds of the given stores, one after the other. */
  function Handed<G>(b: Builder<G>, polled: Bundles, stores: seq<Store>): (w: Bundles) {
    if stores == [] then polled
    else b.bundles(b.build(stores[|stores| - 1], Handed(b, polled, stores[..|stores| - 1]))) + polled
  }

  /** Building store `s` once more changes nothing, and neither does an event that is not counted. */
  ghost predicate StableAt<G>(cfg: Config, b: Builder<G>, polled: Bundles, stores: seq<Store>, s: Store) {
    var g := b.build(s, Handed(b, polled, stores));
    && b.build(s, b.bundles(g) + polled) == g
    && (forall e :: Supported(cfg, e) && Harmless(cfg, b, g, s, e)
                    ==> b.build(Apply(cfg, s, e), b.bundles(g) + polled) == g)
  }

  ghost predicate Stable<G(!new)>(cfg: Config, b: Builder<G>, polled: Bundles) {
    forall stores, s :: AllWellFormed(cfg, stores) && WellFormed(cfg, s) ==> StableAt(cfg, b, polled, stores, s)
  }

  ghost predicate AgreesNowOnEveryRun<G(!new)>(cfg: Config, b: Builder<G>, polled: Bundles) {
    forall run :: SupportedRun(cfg, run) && SteadyRun(run, polled) ==> AgreesNow(b, Run(cfg, b, run), polled)
  }

  /** The graph of a run is the last of a chain of builds. */
  ghost predicate Chained<G>(cfg: Config, b: Builder<G>, polled: Bundles, st: State<G>, stores: seq<Store>, s: Store) {
    && WellFormed(cfg, st.store) && AllWellFormed(cfg, stores) && WellFormed(cfg, s)
    && (st.graph.Some? ==> st.graph.value == b.build(s, Handed(b, polled, stores)))
    && AgreesNow(b, st, polled)
  }

  lemma HandedSnoc<G>(b: Builder<G>, polled: Bundles, stores: seq<Store>, s: Store)
    ensures Handed(b, polled, stores + [s]) == b.bundles(b.build(s, Handed(b, polled, stores))) + polled
  {
    assert (stores + [s])[..|stores|] == stores;
  }

  lemma CaptureKeepsChain<G(!new)>(
      cfg: Config, b: Builder<G>, polled: Bundles, st: State<G>, stores: seq<Store>, s: Store, e: Event)
    requires Stable(cfg, b, polled) && Chained(cfg, b, polled, st, stores, s) && Supported(cfg, e)
    ensures Chained(cfg, b, polled, Capture(cfg, b, st, e), stores, s)
  {
    ApplyWellFormed(cfg, st.store, e);
    if st.graph.Some? && !st.changed && !Flags(cfg, b, st.graph, st.store, e) {
      var g, longer := st.graph.value, stores + [s];
      HandedSnoc(b, polled, stores, s);
      assert AllWellFormed(cfg, longer) && StableAt(cfg, b, polled, longer, st.store);
      if e.Delete? && (e.kind, e.name) !in st.store { assert st.store - {(e.kind, e.name)} == st.store; }
      assert Harmless(cfg, b, g, st.store, e) || Apply(cfg, st.store, e) == st.store;
    }
  }

  lemma ProcessKeepsChain<G(!new)>(
      cfg: Config, b: Builder<G>, polled: Bundles, st: State<G>, stores: seq<Store>, s: Store)
    returns (stores': seq<Store>, s': Store)
    requires Stable(cfg, b, polled) && Chained(cfg, b, polled, st, stores, s)
    ensures Chained(cfg, b, polled, Process(b, st, polled), stores', s')
  {
    if !st.changed {
      stores', s' := stores, s;
    } else {
      stores', s' := if st.graph.Some? then stores + [s] else [], st.store;
      HandedSnoc(b, polled, stores, s);
      assert map[] + polled == polled;
      assert AllWellFormed(cfg, stores') && StableAt(cfg, b, polled, stores', s');
    }
  }

  lemma {:induction false} RunIsChained<G(!new)>(cfg: Config, b: Builder<G>, polled: Bundles, run: seq<Action>)
    returns (stores: seq<Store>, s: Store)
    requires Stable(cfg, b, polled) && SupportedRun(cfg, run) && SteadyRun(run, polled)
    ensures Chained(cfg, b, polled, Run(cfg, b, run), stores, s)
  {
    if run == [] {
      stores, s := [], map[];
    } else {
      var before, a := run[..|run| - 1], run[|run| - 1];
      stores, s := RunIsChained(cfg, b, polled, before);
      assert a in run;
      match a
      case Captured(e) => CaptureKeepsChain(cfg, b, polled, Run(cfg, b, before), stores, s, e);
      case Processed(_) => stores, s := ProcessKeepsChain(cfg, b, polled, Run(cfg, b, before), stores, s);
    }
  }

  lemma ForcedCapture<G>(cfg: Config, b: Builder<G>, st: State<G>, es: seq<Event>)
    requires SupportedEvents(cfg, es) && es != [] && es[|es| - 1] == ForceRebuild
    ensures CaptureAll(cfg, b, st, es).changed
  {
  }

  lemma RunToStore<G>(cfg: Config, b: Builder<G>, polled: Bundles, run: seq<Action>, s: Store)
    returns (longer: seq<Action>)
    requires SupportedRun(cfg, run) && SteadyRun(run, polled)
    requires WellFormed(cfg, s) && WellFormed(cfg, Run(cfg, b, run).store)
    ensures SupportedRun(cfg, longer) && SteadyRun(longer, polled)
    ensures var w := MergedBundles(b, Run(cfg, b, run).graph, polled);
            Run(cfg, b, longer) == State(s, false, Some(b.build(s, w)), w)
  {
    var st := Run(cfg, b, run);
    var es := Lead(cfg, st.store, s);
    CaptureAllEffect(cfg, b, st, es);
    ForcedCapture(cfg, b, st, es);
    var captured := run + Captures(es);
    RunCaptures(cfg, b, run, es);
    RunSnoc(cfg, b, captured, Processed(polled));
    longer := captured + [Processed(polled)];
  }

  /** Every chain of builds is that of some run. */
  lemma {:induction false} ChainIsReachable<G>(
      cfg: Config, b: Builder<G>, polled: Bundles, stores: seq<Store>, s: Store)
    returns (run: seq<Action>)
    requires AllWellFormed(cfg, stores) && WellFormed(cfg, s)
    ensures SupportedRun(cfg, run) && SteadyRun(run, polled)
    ensures var w := Handed(b, polled, stores); Run(cfg, b, run) == State(s, false, Some(b.build(s, w)), w)
    decreases |stores|
  {
    var before: seq<Action> := [];
    if stores != [] {
      before := ChainIsReachable(cfg, b, polled, stores[..|stores| - 1], stores[|stores| - 1]);
    }
    assert map[] + polled == polled;
    run := RunToStore(cfg, b, polled, before, s);
  }

  lemma AgreementNeedsStability<G(!new)>(cfg: Config, b: Builder<G>, polled: Bundles, stores: seq<Store>, s: Store)
    requires AgreesNowOnEveryRun(cfg, b, polled) && AllWellFormed(cfg, stores) && WellFormed(cfg, s)
    ensures StableAt(cfg, b, polled, stores, s)
  {
    var run := ChainIsReachable(cfg, b, polled, stores, s);
    assert AgreesNow(b, Run(cfg, b, run), polled);
    var g := b.build(s, Handed(b, polled, stores));
    forall e | Supported(cfg, e) && Harmless(cfg, b, g, s, e)
      ensures b.build(Apply(cfg, s, e), b.bundles(g) + polled) == g
    {
      RunSnoc(cfg, b, run, Captured(e));
      var longer := run + [Captured(e)];
      assert SteadyRun(longer, polled) && AgreesNow(b, Run(cfg, b, longer), polled);
    }
  }

  /** With steady pollers, the cached graph is in every run what a rebuild at that moment would give, exactly if
      every build a run can come to is stable: building once more with its own bundles changes nothing, before
      and after an event that is not counted. */
  lemma AgreesNowIffStable<G(!new)>(cfg: Config, b: Builder<G>, polled: Bundles)
    ensures AgreesNowOnEveryRun(cfg, b, polled) <==> Stable(cfg, b, polled)
  {
    if Stable(cfg, b, polled) {
      forall run | SupportedRun(cfg, run) && SteadyRun(run, polled) ensures AgreesNow(b, Run(cfg, b, run), polled) {
        var stores, s := RunIsChained(cfg, b, polled, run);
      }
    }
    if AgreesNowOnEveryRun(cfg, b, polled) {
      forall stores, s | AllWellFormed(cfg, stores) && WellFormed(cfg, s) ensures StableAt(cfg, b, polled, stores, s) {
        AgreementNeedsStability(cfg, b, polled, stores, s);
      }
    }
  }

  lemma {:induction false} HandedHasPolled<G>(b: Builder<G>, polled: Bundles, stores: seq<Store>)
    ensures Handed(b, polled, stores) + polled == Handed(b, polled, stores)
  {
  }

  /** The stale-bundle fallback is stable whatever the pollers have, although its graphs depend on the batching. */
  lemma FallbackAgreesNow(polled: Bundles)
    ensures AgreesNowOnEveryRun(FALLBACK_CFG, FallbackBuilder(), polled)
  {
    var b := FallbackBuilder();
    FallbackKeepsFrame();
    forall stores, s | AllWellFormed(FALLBACK_CFG, stores) && WellFormed(FALLBACK_CFG, s)
      ensures StableAt(FALLBACK_CFG, b, polled, stores, s)
    {
      FallbackIsStable(polled, stores, s);
    }
    AgreesNowIffStable(FALLBACK_CFG, b, polled);
  }

  lemma FallbackIsStable(polled: Bundles, stores: seq<Store>, s: Store)
    requires WellFormed(FALLBACK_CFG, s)
    ensures StableAt(FALLBACK_CFG, FallbackBuilder(), polled, stores, s)
  {
    var b := FallbackBuilder();
    var w := Handed(b, polled, stores);
    HandedHasPolled(b, polled, stores);
    var g := b.build(s, w);
    assert "p" in polled ==> "p" in w && (w + polled)["p"] == polled["p"];
    assert b.build(s, b.bundles(g) + polled) == g;
    FallbackKeepsFrame();
  }
}
