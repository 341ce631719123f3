/** Whether it matters how the event loop cuts the events into batches. A batch ends in a Process call, and a
    rebuild is handed the bundles of the graph before it, so the cuts could show in the graph. */
module Batching {
  import opened ChangeProcessor
  import opened Wrappers

  /** The pollers have the same bundles throughout; none at all if they do not run. */
  predicate Steady(bs: seq<Batch>, polled: Bundles) {
    forall i :: 0 <= i < |bs| ==> bs[i].polled == polled
  }

  /** Some event of the stretch counts as a change for the graph, the store being `s` before it. */
  predicate FlagsAny<G>(cfg: Config, b: Builder<G>, graph: G, s: Store, es: seq<Event>)
    requires SupportedEvents(cfg, es)
  {
    es != [] &&
    var e := es[|es| - 1];
    assert e in es;
    (FlagsAny(cfg, b, graph, s, es[..|es| - 1]) || Flags(cfg, b, Some(graph), ApplyAll(cfg, s, es[..|es| - 1]), e))
  }

  /** What the events come to if they arrive in a single batch. */
  function AllAtOnce<G>(cfg: Config, b: Builder<G>, polled: Bundles, es: seq<Event>): (r: Option<G>)
    requires SupportedEvents(cfg, es)
  {
    if Triggered(cfg, b, es) then Some(b.build(ApplyAll(cfg, map[], es), polled)) else None
  }

  // ---- Stretches of captures ----

  lemma HandleAllSnoc<G>(cfg: Config, b: Builder<G>, bs: seq<Batch>, batch: Batch)
    requires SupportedEvents(cfg, Events(bs)) && SupportedEvents(cfg, batch.events)
    ensures Events(bs + [batch]) == Events(bs) + batch.events
    ensures HandleAll(cfg, b, bs + [batch]) == Handle(cfg, b, HandleAll(cfg, b, bs), batch)
  {
    assert (bs + [batch])[..|bs|] == bs;
  }

  lemma HandleOne<G>(cfg: Config, b: Builder<G>, batch: Batch)
    requires SupportedEvents(cfg, batch.events)
    ensures Events([batch]) == batch.events
    ensures HandleAll(cfg, b, [batch]) == Handle(cfg, b, Initial(), batch)
  {
    var none: seq<Batch> := [];
    assert Events(none) == [];
    assert [batch][..0] == none;
    assert Events([batch]) == [] + batch.events == batch.events;
  }

  lemma {:induction false} CaptureAllEffect<G>(cfg: Config, b: Builder<G>, st: State<G>, es: seq<Event>)
    requires SupportedEvents(cfg, es)
    ensures var c := CaptureAll(cfg, b, st, es);
            && c.store == ApplyAll(cfg, st.store, es) && c.graph == st.graph && c.used == st.used
            && (st.graph.Some? ==> (c.changed <==> st.changed || FlagsAny(cfg, b, st.graph.value, st.store, es)))
  {
    if es != [] { CaptureAllEffect(cfg, b, st, es[..|es| - 1]); }
  }

  /** Before there is a graph the flag says whether the events so far call for one. */
  lemma {:induction false} CaptureAllTriggers<G>(
      cfg: Config, b: Builder<G>, st: State<G>, es: seq<Event>, more: seq<Event>)
    requires SupportedEvents(cfg, es) && SupportedEvents(cfg, more) && SupportedEvents(cfg, es + more)
    requires st.graph.None? && st.store == ApplyAll(cfg, map[], es) && (st.changed <==> Triggered(cfg, b, es))
    ensures var c := CaptureAll(cfg, b, st, more);
            c.store == ApplyAll(cfg, map[], es + more) && (c.changed <==> Triggered(cfg, b, es + more))
  {
    if more == [] {
      assert es + more == es;
    } else {
      var init, e := more[..|more| - 1], more[|more| - 1];
      assert (es + more)[..|es + more| - 1] == es + init && (es + more)[|es + more| - 1] == e;
      CaptureAllTriggers(cfg, b, st, es, init);
      CaptureAllEffect(cfg, b, st, init);
    }
  }

  lemma {:induction false} ApplySplit(cfg: Config, s: Store, es: seq<Event>, more: seq<Event>)
    requires SupportedEvents(cfg, es) && SupportedEvents(cfg, more) && SupportedEvents(cfg, es + more)
    ensures ApplyAll(cfg, s, es + more) == ApplyAll(cfg, ApplyAll(cfg, s, es), more)
  {
    if more == [] {
      assert es + more == es;
    } else {
      assert (es + more)[..|es + more| - 1] == es + more[..|more| - 1];
      ApplySplit(cfg, s, es, more[..|more| - 1]);
    }
  }

  lemma {:induction false} TriggeredGrows<G>(cfg: Config, b: Builder<G>, es: seq<Event>, more: seq<Event>)
    requires SupportedEvents(cfg, es) && SupportedEvents(cfg, more) && SupportedEvents(cfg, es + more)
    requires Triggered(cfg, b, es)
    ensures Triggered(cfg, b, es + more)
  {
    if more == [] {
      assert es + more == es;
    } else {
      assert (es + more)[..|es + more| - 1] == es + more[..|more| - 1];
      TriggeredGrows(cfg, b, es, more[..|more| - 1]);
    }
  }

  lemma SupportedParts(cfg: Config, es: seq<Event>, more: seq<Event>)
    ensures SupportedEvents(cfg, es + more) <==> SupportedEvents(cfg, es) && SupportedEvents(cfg, more)
  {
    if SupportedEvents(cfg, es + more) {
      forall e | e in es ensures Supported(cfg, e) { assert e in es + more; }
      forall e | e in more ensures Supported(cfg, e) { assert e in es + more; }
    }
  }

  // ---- One cut ----

  /** Cutting `es + more` once, after `es`, makes no difference: if the second part counts as a change the
      rebuild comes out as without the bundles of the first graph, and otherwise the first graph still fits. */
  predicate CutAgrees<G(==)>(cfg: Config, b: Builder<G>, polled: Bundles, es: seq<Event>, more: seq<Event>)
    requires SupportedEvents(cfg, es) && SupportedEvents(cfg, more)
  {
    Triggered(cfg, b, es) ==>
      var s := ApplyAll(cfg, map[], es);
      var first, last := b.build(s, polled), ApplyAll(cfg, s, more);
      b.build(last, polled)
      == if FlagsAny(cfg, b, first, s, more) then b.build(last, b.bundles(first) + polled) else first
  }

  lemma HandleRest<G>(cfg: Config, b: Builder<G>, polled: Bundles, st: State<G>, es: seq<Event>, more: seq<Event>)
    requires SupportedEvents(cfg, es) && SupportedEvents(cfg, more) && SupportedEvents(cfg, es + more)
    requires st.store == ApplyAll(cfg, map[], es) && st.graph == AllAtOnce(cfg, b, polled, es) && !st.changed
    ensures var r := Handle(cfg, b, st, Batch(more, polled));
            && r.store == ApplyAll(cfg, map[], es + more) && !r.changed
            && (CutAgrees(cfg, b, polled, es, more) <==> r.graph == AllAtOnce(cfg, b, polled, es + more))
  {
    ApplySplit(cfg, map[], es, more);
    CaptureAllEffect(cfg, b, st, more);
    if Triggered(cfg, b, es) {
      TriggeredGrows(cfg, b, es, more);
    } else {
      CaptureAllTriggers(cfg, b, st, es, more);
      assert map[] + polled == polled;
    }
  }

  // ---- All cuts ----

  predicate AgreesAt<G(==)>(cfg: Config, b: Builder<G>, polled: Bundles, es: seq<Event>, i: nat, j: nat)
    requires i <= j <= |es|
  {
    SupportedEvents(cfg, es[..i]) && SupportedEvents(cfg, es[i..j]) && CutAgrees(cfg, b, polled, es[..i], es[i..j])
  }

  ghost predicate CutsAgree<G>(cfg: Config, b: Builder<G>, polled: Bundles, es: seq<Event>)
    requires SupportedEvents(cfg, es)
  {
    forall i, j :: 0 <= i <= j <= |es| ==> AgreesAt(cfg, b, polled, es, i, j)
  }

  ghost predicate SameOutcome<G>(cfg: Config, b: Builder<G>, bs: seq<Batch>, bs': seq<Batch>)
    requires SupportedEvents(cfg, Events(bs)) && SupportedEvents(cfg, Events(bs'))
  {
    && HandleAll(cfg, b, bs).store == HandleAll(cfg, b, bs').store
    && HandleAll(cfg, b, bs).graph == HandleAll(cfg, b, bs').graph
  }

  /** However the events that have come so far, any first part of `es`, are cut into batches: same store, same graph. */
  ghost predicate BatchingAgrees<G(!new)>(cfg: Config, b: Builder<G>, polled: Bundles, es: seq<Event>) {
    forall bs, bs' ::
      Steady(bs, polled) && Steady(bs', polled) && Events(bs) == Events(bs') && Events(bs) <= es
      ==> SupportedEvents(cfg, Events(bs)) ==> SameOutcome(cfg, b, bs, bs')
  }

  /** The store is that of all events in order, whatever the batches, the pollers and the builder. */
  lemma {:induction false} StoreIsApplied<G>(cfg: Config, b: Builder<G>, bs: seq<Batch>)
    requires SupportedEvents(cfg, Events(bs))
    ensures HandleAll(cfg, b, bs).store == ApplyAll(cfg, map[], Events(bs))
  {
    if bs != [] {
      var before, batch := bs[..|bs| - 1], bs[|bs| - 1];
      SupportedParts(cfg, Events(before), batch.events);
      StoreIsApplied(cfg, b, before);
      CaptureAllEffect(cfg, b, HandleAll(cfg, b, before), batch.events);
      ApplySplit(cfg, map[], Events(before), batch.events);
    }
  }

  /** In whatever batches the events came, the store is that of all of them in order and the graph that of a
      single batch. */
  lemma {:induction false} HandleAllSettles<G>(
      cfg: Config, b: Builder<G>, polled: Bundles, es: seq<Event>, bs: seq<Batch>)
    requires SupportedEvents(cfg, es) && CutsAgree(cfg, b, polled, es)
    requires Steady(bs, polled) && Events(bs) <= es
    ensures SupportedEvents(cfg, Events(bs))
    ensures var st := HandleAll(cfg, b, bs);
            && st.store == ApplyAll(cfg, map[], Events(bs)) && !st.changed
            && st.graph == AllAtOnce(cfg, b, polled, Events(bs))
  {
    SupportedParts(cfg, Events(bs), es[|Events(bs)|..]);
    assert es == Events(bs) + es[|Events(bs)|..];
    if bs != [] {
      var before, batch := bs[..|bs| - 1], bs[|bs| - 1];
      var i, j := |Events(before)|, |Events(bs)|;
      assert es[..i] == Events(before) && es[i..j] == batch.events && AgreesAt(cfg, b, polled, es, i, j);
      HandleAllSettles(cfg, b, polled, es, before);
      HandleRest(cfg, b, polled, HandleAll(cfg, b, before), Events(before), batch.events);
      assert batch == Batch(batch.events, polled);
    }
  }

  lemma OneBatch<G>(cfg: Config, b: Builder<G>, polled: Bundles, es: seq<Event>)
    requires SupportedEvents(cfg, es)
    ensures var bs := [Batch(es, polled)];
            && Steady(bs, polled) && Events(bs) == es
            && HandleAll(cfg, b, bs).store == ApplyAll(cfg, map[], es) && !HandleAll(cfg, b, bs).changed
            && HandleAll(cfg, b, bs).graph == AllAtOnce(cfg, b, polled, es)
  {
    HandleOne(cfg, b, Batch(es, polled));
    var none: seq<Event> := [];
    assert none + es == es;
    CaptureAllTriggers<G>(cfg, b, Initial(), none, es);
    CaptureAllEffect<G>(cfg, b, Initial(), es);
    assert map[] + polled == polled;
  }

  lemma TwoBatches<G>(cfg: Config, b: Builder<G>, polled: Bundles, es: seq<Event>, more: seq<Event>)
    requires SupportedEvents(cfg, es) && SupportedEvents(cfg, more) && SupportedEvents(cfg, es + more)
    ensures var bs := [Batch(es, polled), Batch(more, polled)];
            && Steady(bs, polled) && Events(bs) == es + more
            && (CutAgrees(cfg, b, polled, es, more)
                <==> HandleAll(cfg, b, bs).graph == AllAtOnce(cfg, b, polled, es + more))
  {
    var first, second := Batch(es, polled), Batch(more, polled);
    OneBatch(cfg, b, polled, es);
    HandleAllSnoc(cfg, b, [first], second);
    assert [first] + [second] == [first, second];
    HandleRest(cfg, b, polled, HandleAll(cfg, b, [first]), es, more);
  }

  /** For any events and any steady bundles: how the events that have come are cut never matters, whatever the
      cuts and however many, exactly if no single cut does. The condition is a finite test of the builder on the
      stores that the events pass through. */
  lemma BatchingAgreesIffCutsAgree<G(!new)>(cfg: Config, b: Builder<G>, polled: Bundles, es: seq<Event>)
    requires SupportedEvents(cfg, es)
    ensures BatchingAgrees(cfg, b, polled, es) <==> CutsAgree(cfg, b, polled, es)
  {
    if CutsAgree(cfg, b, polled, es) { CutsSuffice(cfg, b, polled, es); }
    if BatchingAgrees(cfg, b, polled, es) { CutsAreNeeded(cfg, b, polled, es); }
  }

  lemma CutsSuffice<G(!new)>(cfg: Config, b: Builder<G>, polled: Bundles, es: seq<Event>)
    requires SupportedEvents(cfg, es) && CutsAgree(cfg, b, polled, es)
    ensures BatchingAgrees(cfg, b, polled, es)
  {
    forall bs, bs' | Steady(bs, polled) && Steady(bs', polled) && Events(bs) == Events(bs') && Events(bs) <= es
      ensures SupportedEvents(cfg, Events(bs)) && SameOutcome(cfg, b, bs, bs')
    {
      HandleAllSettles(cfg, b, polled, es, bs);
      HandleAllSettles(cfg, b, polled, es, bs');
    }
  }

  lemma CutsAreNeeded<G(!new)>(cfg: Config, b: Builder<G>, polled: Bundles, es: seq<Event>)
    requires SupportedEvents(cfg, es) && BatchingAgrees(cfg, b, polled, es)
    ensures CutsAgree(cfg, b, polled, es)
  {
    forall i, j | 0 <= i <= j <= |es|
      ensures AgreesAt(cfg, b, polled, es, i, j)
    {
      CutMustAgree(cfg, b, polled, es, i, j);
    }
  }

  lemma CutMustAgree<G(!new)>(cfg: Config, b: Builder<G>, polled: Bundles, es: seq<Event>, i: nat, j: nat)
    requires SupportedEvents(cfg, es) && BatchingAgrees(cfg, b, polled, es) && i <= j <= |es|
    ensures AgreesAt(cfg, b, polled, es, i, j)
  {
    var first, second := es[..i], es[i..j];
    assert first + second == es[..j] && es[..j] + es[j..] == es;
    SupportedParts(cfg, es[..j], es[j..]);
    SupportedParts(cfg, first, second);
    var apart, together := CutBatches(cfg, b, polled, first, second);
    assert SameOutcome(cfg, b, apart, together);
  }

  lemma CutBatches<G>(cfg: Config, b: Builder<G>, polled: Bundles, es: seq<Event>, more: seq<Event>)
    returns (apart: seq<Batch>, together: seq<Batch>)
    requires SupportedEvents(cfg, es) && SupportedEvents(cfg, more) && SupportedEvents(cfg, es + more)
    ensures Steady(apart, polled) && Steady(together, polled)
    ensures Events(apart) == Events(together) == es + more
    ensures SameOutcome(cfg, b, apart, together) ==> CutAgrees(cfg, b, polled, es, more)
  {
    OneBatch(cfg, b, polled, es + more);
    TwoBatches(cfg, b, polled, es, more);
    apart, together := [Batch(es, polled), Batch(more, polled)], [Batch(es + more, polled)];
  }

  // ---- Builders with the frame property ----

  lemma ApplyWellFormed(cfg: Config, s: Store, e: Event)
    requires WellFormed(cfg, s) && Supported(cfg, e)
    ensures WellFormed(cfg, Apply(cfg, s, e))
  {
  }

  lemma {:induction false} ApplyAllWellFormed(cfg: Config, s: Store, es: seq<Event>)
    requires WellFormed(cfg, s) && SupportedEvents(cfg, es)
    ensures WellFormed(cfg, ApplyAll(cfg, s, es))
  {
    if es != [] {
      ApplyAllWellFormed(cfg, s, es[..|es| - 1]);
      assert es[|es| - 1] in es;
      ApplyWellFormed(cfg, ApplyAll(cfg, s, es[..|es| - 1]), es[|es| - 1]);
    }
  }

  /** The frame hypothesis for builds that are handed `polled` only. */
  ghost predicate FrameAt<G(!new)>(cfg: Config, b: Builder<G>, polled: Bundles) {
    forall s: Store, e: Event {:trigger b.build(s, polled), Apply(cfg, s, e)} ::
      WellFormed(cfg, s) && Supported(cfg, e) && Harmless(cfg, b, b.build(s, polled), s, e)
      ==> b.build(Apply(cfg, s, e), polled) == b.build(s, polled)
  }

  /** A graph that nothing in a stretch of events counts for still fits after it. */
  lemma {:induction false} UnflaggedStretchKeepsBuild<G(!new)>(
      cfg: Config, b: Builder<G>, polled: Bundles, s: Store, es: seq<Event>)
    requires FrameAt(cfg, b, polled) && WellFormed(cfg, s) && SupportedEvents(cfg, es)
    requires !FlagsAny(cfg, b, b.build(s, polled), s, es)
    ensures b.build(ApplyAll(cfg, s, es), polled) == b.build(s, polled)
  {
    if es != [] {
      var init, e := es[..|es| - 1], es[|es| - 1];
      UnflaggedStretchKeepsBuild(cfg, b, polled, s, init);
      ApplyAllWellFormed(cfg, s, init);
      var t := ApplyAll(cfg, s, init);
      assert e in es;
      if e.Delete? && (e.kind, e.name) !in t { assert t - {(e.kind, e.name)} == t; }
      assert Harmless(cfg, b, b.build(t, polled), t, e) || Apply(cfg, t, e) == t;
    }
  }

  /** Whatever bundles a graph built from one of these stores has, the pollers have too. */
  ghost predicate PollersCover<G>(cfg: Config, b: Builder<G>, polled: Bundles, es: seq<Event>)
    requires SupportedEvents(cfg, es)
  {
    forall i :: 0 <= i <= |es| ==>
      SupportedEvents(cfg, es[..i]) && b.bundles(b.build(ApplyAll(cfg, map[], es[..i]), polled)).Keys <= polled.Keys
  }

  lemma CoveredCutsAgree<G(!new)>(cfg: Config, b: Builder<G>, polled: Bundles, es: seq<Event>)
    requires FrameAt(cfg, b, polled) && SupportedEvents(cfg, es) && PollersCover(cfg, b, polled, es)
    ensures CutsAgree(cfg, b, polled, es)
  {
    forall i, j | 0 <= i <= j <= |es|
      ensures AgreesAt(cfg, b, polled, es, i, j)
    {
      var first, second := es[..i], es[i..j];
      assert first + second == es[..j] && es[..j] + es[j..] == es;
      SupportedParts(cfg, es[..j], es[j..]);
      SupportedParts(cfg, first, second);
      ApplyAllWellFormed(cfg, map[], first);
      var s := ApplyAll(cfg, map[], first);
      assert b.bundles(b.build(s, polled)) + polled == polled;
      if !FlagsAny(cfg, b, b.build(s, polled), s, second) { UnflaggedStretchKeepsBuild(cfg, b, polled, s, second); }
    }
  }

  /** The main result. Under the frame hypothesis, if the graphs along the way have no bundles beyond those of
      the pollers, in particular if there are no WAF bundles at all, then any two ways to cut the events into
      batches end with the same store and graph, those of a single batch. */
  lemma BatchingIsIrrelevantIfCovered<G(!new)>(
      cfg: Config, b: Builder<G>, polled: Bundles, bs: seq<Batch>, bs': seq<Batch>)
    requires FrameAt(cfg, b, polled) && SupportedEvents(cfg, Events(bs)) && PollersCover(cfg, b, polled, Events(bs))
    requires Steady(bs, polled) && Steady(bs', polled) && Events(bs) == Events(bs')
    ensures SameOutcome(cfg, b, bs, bs')
    ensures HandleAll(cfg, b, bs).store == ApplyAll(cfg, map[], Events(bs))
    ensures HandleAll(cfg, b, bs).graph == AllAtOnce(cfg, b, polled, Events(bs))
  {
    CoveredCutsAgree(cfg, b, polled, Events(bs));
    HandleAllSettles(cfg, b, polled, Events(bs), bs);
    HandleAllSettles(cfg, b, polled, Events(bs), bs');
  }

  // ---- Exactly when no cut ever matters ----

  /** A rebuild comes out the same whether or not it is handed the bundles of an earlier graph. */
  ghost predicate BundlesSettle<G(!new)>(cfg: Config, b: Builder<G>, polled: Bundles) {
    forall s: Store, t: Store {:trigger b.build(s, polled), b.build(t, polled)} ::
      WellFormed(cfg, s) && WellFormed(cfg, t)
      ==> b.build(t, b.bundles(b.build(s, polled)) + polled) == b.build(t, polled)
  }

  ghost predicate BatchingNeverMatters<G(!new)>(cfg: Config, b: Builder<G>, polled: Bundles) {
    forall es :: SupportedEvents(cfg, es) ==> BatchingAgrees(cfg, b, polled, es)
  }

  /** Deletes that empty a store. */
  lemma {:induction false} Clear(cfg: Config, s: Store) returns (es: seq<Event>)
    requires WellFormed(cfg, s)
    ensures SupportedEvents(cfg, es) && ApplyAll(cfg, s, es) == map[]
    decreases |s|
  {
    if s == map[] {
      es := [];
    } else {
      var k :| k in s;
      var rest := Clear(cfg, s - {k});
      var first: seq<Event> := [] + [Delete(k.0, k.1)];
      ApplySnoc(cfg, s, [], Delete(k.0, k.1));
      SupportedParts(cfg, first, rest);
      ApplySplit(cfg, s, first, rest);
      es := first + rest;
    }
  }

  /** Events that take one store to another and call for a rebuild at the end. */
  lemma Lead(cfg: Config, s: Store, t: Store) returns (es: seq<Event>)
    requires WellFormed(cfg, s) && WellFormed(cfg, t)
    ensures SupportedEvents(cfg, es) && ApplyAll(cfg, s, es) == t
    ensures es != [] && es[|es| - 1] == ForceRebuild
  {
    var out := Clear(cfg, s);
    var back := Fill(cfg, t);
    SupportedParts(cfg, out, back);
    ApplySplit(cfg, s, out, back);
    ApplySnoc(cfg, s, out + back, ForceRebuild);
    es := out + back + [ForceRebuild];
  }

  lemma LeadTriggers<G>(cfg: Config, b: Builder<G>, es: seq<Event>, graph: G, s: Store)
    requires SupportedEvents(cfg, es) && es != [] && es[|es| - 1] == ForceRebuild
    ensures Triggered(cfg, b, es) && FlagsAny(cfg, b, graph, s, es)
  {
  }

  /** From the whole of `es + more` the cut after `es` agrees. */
  lemma CutOf<G(!new)>(cfg: Config, b: Builder<G>, polled: Bundles, es: seq<Event>, more: seq<Event>)
    requires BatchingNeverMatters(cfg, b, polled) && SupportedEvents(cfg, es) && SupportedEvents(cfg, more)
    ensures CutAgrees(cfg, b, polled, es, more)
  {
    var all := es + more;
    SupportedParts(cfg, es, more);
    CutMustAgree(cfg, b, polled, all, |es|, |all|);
    assert all[..|es|] == es && all[|es|..|all|] == more;
  }

  lemma NeverMattersNeedsFrame<G(!new)>(cfg: Config, b: Builder<G>, polled: Bundles, s: Store, e: Event)
    requires BatchingNeverMatters(cfg, b, polled) && WellFormed(cfg, s) && Supported(cfg, e)
    requires Harmless(cfg, b, b.build(s, polled), s, e)
    ensures b.build(Apply(cfg, s, e), polled) == b.build(s, polled)
  {
    var es := Lead(cfg, map[], s);
    LeadTriggers(cfg, b, es, b.build(s, polled), s);
    var one := [] + [e];
    ApplySnoc(cfg, s, [], e);
    assert one[..0] == [] && !FlagsAny(cfg, b, b.build(s, polled), s, one);
    CutOf(cfg, b, polled, es, one);
  }

  lemma NeverMattersNeedsSettling<G(!new)>(cfg: Config, b: Builder<G>, polled: Bundles, s: Store, t: Store)
    requires BatchingNeverMatters(cfg, b, polled) && WellFormed(cfg, s) && WellFormed(cfg, t)
    ensures b.build(t, b.bundles(b.build(s, polled)) + polled) == b.build(t, polled)
  {
    var es := Lead(cfg, map[], s);
    var more := Lead(cfg, s, t);
    LeadTriggers(cfg, b, es, b.build(s, polled), s);
    LeadTriggers(cfg, b, more, b.build(s, polled), s);
    CutOf(cfg, b, polled, es, more);
  }

  lemma SettledCutsAgree<G(!new)>(cfg: Config, b: Builder<G>, polled: Bundles, es: seq<Event>, more: seq<Event>)
    requires FrameAt(cfg, b, polled) && BundlesSettle(cfg, b, polled)
    requires SupportedEvents(cfg, es) && SupportedEvents(cfg, more)
    ensures CutAgrees(cfg, b, polled, es, more)
  {
    ApplyAllWellFormed(cfg, map[], es);
    var s := ApplyAll(cfg, map[], es);
    ApplyAllWellFormed(cfg, s, more);
    if !FlagsAny(cfg, b, b.build(s, polled), s, more) { UnflaggedStretchKeepsBuild(cfg, b, polled, s, more); }
  }

  /** With steady pollers, none for instance, the cuts never matter for any events exactly if events that are
      not counted do not change the build, and the bundles of one graph do not change the next. */
  lemma BatchingNeverMattersIff<G(!new)>(cfg: Config, b: Builder<G>, polled: Bundles)
    ensures BatchingNeverMatters(cfg, b, polled) <==> FrameAt(cfg, b, polled) && BundlesSettle(cfg, b, polled)
  {
    if FrameAt(cfg, b, polled) && BundlesSettle(cfg, b, polled) {
      forall es | SupportedEvents(cfg, es) ensures BatchingAgrees(cfg, b, polled, es) {
        SettledBatchingAgrees(cfg, b, polled, es);
      }
    }
    if BatchingNeverMatters(cfg, b, polled) {
      forall s: Store, e: Event {:trigger b.build(s, polled), Apply(cfg, s, e)} |
        WellFormed(cfg, s) && Supported(cfg, e) && Harmless(cfg, b, b.build(s, polled), s, e)
        ensures b.build(Apply(cfg, s, e), polled) == b.build(s, polled)
      {
        NeverMattersNeedsFrame(cfg, b, polled, s, e);
      }
      forall s: Store, t: Store {:trigger b.build(s, polled), b.build(t, polled)} |
        WellFormed(cfg, s) && WellFormed(cfg, t)
        ensures b.build(t, b.bundles(b.build(s, polled)) + polled) == b.build(t, polled)
      {
        NeverMattersNeedsSettling(cfg, b, polled, s, t);
      }
    }
  }

  lemma SettledBatchingAgrees<G(!new)>(cfg: Config, b: Builder<G>, polled: Bundles, es: seq<Event>)
    requires FrameAt(cfg, b, polled) && BundlesSettle(cfg, b, polled) && SupportedEvents(cfg, es)
    ensures BatchingAgrees(cfg, b, polled, es)
  {
    forall i, j | 0 <= i <= j <= |es|
      ensures AgreesAt(cfg, b, polled, es, i, j)
    {
      assert es == es[..i] + es[i..j] + es[j..];
      SupportedParts(cfg, es[..i] + es[i..j], es[j..]);
      SupportedParts(cfg, es[..i], es[i..j]);
      SettledCutsAgree(cfg, b, polled, es[..i], es[i..j]);
    }
    CutsSuffice(cfg, b, polled, es);
  }

  // ---- Pollers that may change ----

  /** On the stores that can occur, the graph does not depend on the bundles handed to the build. */
  ghost predicate BundleBlind<G(!new)>(cfg: Config, b: Builder<G>) {
    forall s: Store, w: Bundles, w': Bundles {:trigger b.build(s, w), b.build(s, w')} ::
      WellFormed(cfg, s) ==> b.build(s, w) == b.build(s, w')
  }

  /** However the events are cut into batches, and whatever the pollers have at each of them, the store and
      the graph come out the same. */
  ghost predicate BatchingIsIrrelevant<G(!new)>(cfg: Config, b: Builder<G>) {
    forall bs, bs' ::
      SupportedEvents(cfg, Events(bs)) && Events(bs) == Events(bs') ==> SameOutcome(cfg, b, bs, bs')
  }

  /** The same batches while no poller runs. */
  function Unpolled(bs: seq<Batch>): (r: seq<Batch>) {
    seq(|bs|, i requires 0 <= i < |bs| => Batch(bs[i].events, map[]))
  }

  /** A build that ignores bundles ignores the pollers. */
  lemma {:induction false} PollersDoNotMatter<G(!new)>(cfg: Config, b: Builder<G>, bs: seq<Batch>)
    requires BundleBlind(cfg, b) && SupportedEvents(cfg, Events(bs))
    ensures Events(Unpolled(bs)) == Events(bs)
    ensures var st, un := HandleAll(cfg, b, bs), HandleAll(cfg, b, Unpolled(bs));
            st.store == un.store && st.changed == un.changed && st.graph == un.graph
  {
    if bs != [] {
      var before, batch := bs[..|bs| - 1], bs[|bs| - 1];
      assert Unpolled(bs)[..|bs| - 1] == Unpolled(before);
      SupportedParts(cfg, Events(before), batch.events);
      PollersDoNotMatter(cfg, b, before);
      CapturesAlike(cfg, b, HandleAll(cfg, b, before), HandleAll(cfg, b, Unpolled(before)), batch.events);
      StoreIsApplied(cfg, b, before);
      CaptureAllStore(cfg, b, HandleAll(cfg, b, before), batch.events);
      ApplyAllWellFormed(cfg, map[], Events(before));
      ApplyAllWellFormed(cfg, HandleAll(cfg, b, before).store, batch.events);
    }
  }

  lemma {:induction false} CapturesAlike<G>(cfg: Config, b: Builder<G>, st: State<G>, un: State<G>, es: seq<Event>)
    requires SupportedEvents(cfg, es) && st.store == un.store && st.changed == un.changed && st.graph == un.graph
    ensures var c, d := CaptureAll(cfg, b, st, es), CaptureAll(cfg, b, un, es);
            c.store == d.store && c.changed == d.changed && c.graph == d.graph
  {
    if es != [] { CapturesAlike(cfg, b, st, un, es[..|es| - 1]); }
  }

  lemma BlindBatchesAlike<G(!new)>(cfg: Config, b: Builder<G>, bs: seq<Batch>, bs': seq<Batch>)
    requires Frame(cfg, b) && BundleBlind(cfg, b) && SupportedEvents(cfg, Events(bs)) && Events(bs) == Events(bs')
    ensures SameOutcome(cfg, b, bs, bs')
  {
    PollersDoNotMatter(cfg, b, bs);
    PollersDoNotMatter(cfg, b, bs');
    SettledBatchingAgrees(cfg, b, map[], Events(bs));
    assert SameOutcome(cfg, b, Unpolled(bs), Unpolled(bs'));
  }

  lemma IrrelevantMeansNeverMatters<G(!new)>(cfg: Config, b: Builder<G>, polled: Bundles)
    requires BatchingIsIrrelevant(cfg, b)
    ensures BatchingNeverMatters(cfg, b, polled)
  {
  }

  lemma BundlesMustNotMatter<G(!new)>(cfg: Config, b: Builder<G>, s: Store, w: Bundles, w': Bundles)
    requires BatchingIsIrrelevant(cfg, b) && WellFormed(cfg, s)
    ensures b.build(s, w) == b.build(s, w')
  {
    var es := Lead(cfg, map[], s);
    LeadTriggers(cfg, b, es, b.build(s, w), s);
    OneBatch(cfg, b, w, es);
    OneBatch(cfg, b, w', es);
    assert SameOutcome(cfg, b, [Batch(es, w)], [Batch(es, w')]);
  }

  /** With pollers that may have anything at any batch, batching does not matter exactly when the frame hypothesis
      holds and the build ignores the bundles it is handed. */
  lemma BatchingIrrelevantIff<G(!new)>(cfg: Config, b: Builder<G>)
    ensures BatchingIsIrrelevant(cfg, b) <==> Frame(cfg, b) && BundleBlind(cfg, b)
  {
    if Frame(cfg, b) && BundleBlind(cfg, b) {
      forall bs, bs' | SupportedEvents(cfg, Events(bs)) && Events(bs) == Events(bs')
        ensures SameOutcome(cfg, b, bs, bs')
      {
        BlindBatchesAlike(cfg, b, bs, bs');
      }
    }
    if BatchingIsIrrelevant(cfg, b) {
      forall s: Store, w: Bundles, w': Bundles {:trigger b.build(s, w), b.build(s, w')} | WellFormed(cfg, s)
        ensures b.build(s, w) == b.build(s, w')
      {
        BundlesMustNotMatter(cfg, b, s, w, w');
      }
      forall s: Store, w: Bundles, e: Event {:trigger b.build(s, w), Apply(cfg, s, e)} |
        WellFormed(cfg, s) && Supported(cfg, e) && Harmless(cfg, b, b.build(s, w), s, e)
        ensures b.build(Apply(cfg, s, e), w) == b.build(s, w)
      {
        IrrelevantMeansNeverMatters(cfg, b, w);
        NeverMattersNeedsFrame(cfg, b, w, s, e);
      }
    }
  }

  // ---- A build whose bundles do not settle ----

  /** A graph with a Gateway or none, and the bundle of the one WAF policy if it has any. */
  datatype Small = Small(gateway: bool, policy: bool, bundles: Bundles)

  /** The stale-bundle fallback: a stored policy whose source cannot be fetched keeps the bundle it had. The policy
      targets the Gateway and is in the graph only with it. */
  function FallbackBuild(s: Store, previous: Bundles): (g: Small) {
    var gateway, policy := ("Gateway", "gw") in s, ("WAFPolicy", "p") in s;
    Small(gateway, gateway && policy,
          if !gateway || !policy then map[]
          else if s[("WAFPolicy", "p")].spec == "fetchable" then FETCHED
          else if "p" in previous then map["p" := previous["p"]]
          else map[])
  }

  /** A policy is relevant if it is in the graph, or if it is given and its target is. */
  predicate FallbackRelevant(g: Small, k: Kind, n: Name, o: Option<Object>) {
    k == "WAFPolicy" && n == "p" && (g.policy || (o.Some? && g.gateway))
  }

  function FallbackBuilder(): (r: Builder<Small>) {
    Builder(FallbackBuild, (g: Small) => g.bundles, FallbackRelevant)
  }

  /** The predicates of these kinds in the program: policies by relevance, Gateways always. */
  const FALLBACK_CFG: Config := map["WAFPolicy" := KindCfg(true, WhenRelevant), "Gateway" := KindCfg(true, Always)]
  const FETCHED: Bundles := map["p" := "bundle"]
  const GATEWAY := Upsert(Object("Gateway", "gw", "", ""))
  const FETCHABLE := Upsert(Object("WAFPolicy", "p", "", "fetchable"))
  const BROKEN := Upsert(Object("WAFPolicy", "p", "", "broken"))
  const BOTH_STORED: Store := map[("Gateway", "gw") := GATEWAY.obj, ("WAFPolicy", "p") := FETCHABLE.obj]

  /** The build depends on the Gateway and, with the Gateway, on the one policy. */
  lemma FallbackBuildReads(s: Store, t: Store, w: Bundles)
    requires ("Gateway", "gw") in s <==> ("Gateway", "gw") in t
    requires ("Gateway", "gw") in s ==> (("WAFPolicy", "p") in s <==> ("WAFPolicy", "p") in t)
    requires ("Gateway", "gw") in s && ("WAFPolicy", "p") in s ==> s[("WAFPolicy", "p")] == t[("WAFPolicy", "p")]
    ensures FallbackBuild(s, w) == FallbackBuild(t, w)
  {
  }

  lemma FallbackKeepsFrame()
    ensures Frame(FALLBACK_CFG, FallbackBuilder())
  {
    var b := FallbackBuilder();
    forall s: Store, w: Bundles, e: Event {:trigger b.build(s, w), Apply(FALLBACK_CFG, s, e)} |
      WellFormed(FALLBACK_CFG, s) && Supported(FALLBACK_CFG, e) && Harmless(FALLBACK_CFG, b, b.build(s, w), s, e)
      ensures b.build(Apply(FALLBACK_CFG, s, e), w) == b.build(s, w)
    {
      FallbackBuildReads(s, Apply(FALLBACK_CFG, s, e), w);
    }
  }

  lemma FallbackKeepsFrameAt(polled: Bundles)
    ensures FrameAt(FALLBACK_CFG, FallbackBuilder(), polled)
  {
    FallbackKeepsFrame();
  }

  lemma FallbackEvents()
    ensures var es: seq<Event>, store: Store := [GATEWAY, FETCHABLE], BOTH_STORED;
            && SupportedEvents(FALLBACK_CFG, es) && SupportedEvents(FALLBACK_CFG, [BROKEN])
            && Triggered(FALLBACK_CFG, FallbackBuilder(), es) && ApplyAll(FALLBACK_CFG, map[], es) == store
            && ApplyAll(FALLBACK_CFG, store, [BROKEN]) == store[("WAFPolicy", "p") := BROKEN.obj]
            && FlagsAny(FALLBACK_CFG, FallbackBuilder(), FallbackBuild(store, map[]), store, [BROKEN])
  {
    var es := [GATEWAY, FETCHABLE];
    assert es[..1] == [GATEWAY] && [GATEWAY][..0] == [] && [BROKEN][..0] == [];
    assert ApplyAll(FALLBACK_CFG, map[], [GATEWAY]) == map[("Gateway", "gw") := GATEWAY.obj];
    assert Triggered(FALLBACK_CFG, FallbackBuilder(), [GATEWAY]);
  }

  /** With such a build the batching does matter although the frame hypothesis holds and no poller runs: a
      Gateway, a policy that can be fetched and then one that cannot, in two batches, keep the bundle of the
      first; in one batch there is none. */
  lemma BundlesMakeBatchingMatter()
    ensures Frame(FALLBACK_CFG, FallbackBuilder())
    ensures SupportedEvents(FALLBACK_CFG, [GATEWAY, FETCHABLE, BROKEN])
    ensures !BatchingAgrees(FALLBACK_CFG, FallbackBuilder(), map[], [GATEWAY, FETCHABLE, BROKEN])
  {
    FallbackKeepsFrame();
    FallbackEvents();
    var es, all := [GATEWAY, FETCHABLE], [GATEWAY, FETCHABLE, BROKEN];
    assert all[..2] == es && all[2..3] == [BROKEN];
    var b := FallbackBuilder();
    var s := ApplyAll(FALLBACK_CFG, map[], es);
    var last := ApplyAll(FALLBACK_CFG, s, [BROKEN]);
    assert b.bundles(b.build(s, map[])) + map[] == FETCHED;
    assert b.build(last, FETCHED).bundles == map["p" := FETCHED["p"]] && "p" in b.build(last, FETCHED).bundles;
    assert b.build(last, map[]).bundles == map[];
    assert !AgreesAt(FALLBACK_CFG, b, map[], all, 2, 3);
    BatchingAgreesIffCutsAgree(FALLBACK_CFG, b, map[], all);
  }

  lemma CoveredBundles(s: Store, w: Bundles, polled: Bundles)
    requires "p" in polled
    ensures FallbackBuild(s, w).bundles + polled == polled
  {
  }

  lemma FallbackSettles(polled: Bundles)
    requires "p" in polled
    ensures BundlesSettle(FALLBACK_CFG, FallbackBuilder(), polled)
  {
    var b := FallbackBuilder();
    forall s: Store, t: Store {:trigger b.build(s, polled), b.build(t, polled)}
      ensures b.build(t, b.bundles(b.build(s, polled)) + polled) == b.build(t, polled)
    {
      CoveredBundles(s, polled, polled);
    }
  }

  lemma FallbackUnsettled(polled: Bundles)
    requires "p" !in polled
    ensures !BundlesSettle(FALLBACK_CFG, FallbackBuilder(), polled)
  {
    var b := FallbackBuilder();
    var s := BOTH_STORED;
    var t: Store := s[("WAFPolicy", "p") := BROKEN.obj];
    assert WellFormed(FALLBACK_CFG, s) && WellFormed(FALLBACK_CFG, t);
    assert "p" in b.build(t, b.bundles(b.build(s, polled)) + polled).bundles;
    assert "p" !in b.build(t, polled).bundles;
  }

  /** For the fallback the cuts never matter exactly if the pollers have the policy's bundle. */
  lemma FallbackNeverMattersIff(polled: Bundles)
    ensures BatchingNeverMatters(FALLBACK_CFG, FallbackBuilder(), polled) <==> "p" in polled
  {
    BatchingNeverMattersIff(FALLBACK_CFG, FallbackBuilder(), polled);
    FallbackKeepsFrameAt(polled);
    if "p" in polled { FallbackSettles(polled); } else { FallbackUnsettled(polled); }
  }
}
