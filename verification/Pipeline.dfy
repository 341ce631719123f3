/** The event loop and the change processor together: the loop decides the batches, the processor handles them. */
module Pipeline {
  import opened Batching
  import opened ChangeProcessor
  import L = EventLoop

  /** The batches that were handed to the processor, with what the pollers had. */
  function Handled(l: L.Loop<Event>, polled: Bundles): (bs: seq<Batch>) {
    seq(|l.batches|, i requires 0 <= i < |l.batches| => Batch(l.batches[i], polled))
  }

  lemma {:induction false} EventsAreConcat(bs: seq<Batch>, ess: seq<seq<Event>>)
    requires |bs| == |ess| && forall i :: 0 <= i < |bs| ==> bs[i].events == ess[i]
    ensures Events(bs) == L.Concat(ess)
  {
    if bs != [] { EventsAreConcat(bs[..|bs| - 1], ess[..|ess| - 1]); }
  }

  lemma {:induction false} ConcatCons<E>(es: seq<E>, ess: seq<seq<E>>)
    ensures L.Concat([es] + ess) == es + L.Concat(ess)
  {
    if ess == [] {
      assert [es] + ess == [es] && [es][..0] == [];
      assert [] + es == es + [];
    } else {
      var all := [es] + ess;
      assert all[..|all| - 1] == [es] + ess[..|ess| - 1] && all[|all| - 1] == ess[|ess| - 1];
      ConcatCons(es, ess[..|ess| - 1]);
      assert es + (L.Concat(ess[..|ess| - 1]) + ess[|ess| - 1]) == (es + L.Concat(ess[..|ess| - 1])) + ess[|ess| - 1];
    }
  }

  /** At any moment of any schedule the events handed to the processor, followed by those still waiting, are the
      prepared ones followed by the received ones. */
  lemma HandledThenWaiting(first: seq<Event>, schedule: seq<L.Choice<Event>>, polled: Bundles)
    ensures var l := L.Run(first, schedule);
            Events(Handled(l, polled)) + l.next == first + L.Received(schedule)
  {
    var l := L.Run(first, schedule);
    L.ExactlyOnceInOrder(first, schedule);
    EventsOfBatches(l, first, polled);
    Regroup(first, L.Concat(l.batches[1..]), l.next);
  }

  lemma Regroup<E>(a: seq<E>, b: seq<E>, c: seq<E>)
    ensures (a + b) + c == a + (b + c)
  {
  }

  lemma EventsOfBatches(l: L.Loop<Event>, first: seq<Event>, polled: Bundles)
    requires l.batches != [] && l.batches[0] == first
    ensures Events(Handled(l, polled)) == first + L.Concat(l.batches[1..])
  {
    EventsAreConcat(Handled(l, polled), l.batches);
    assert l.batches == [first] + l.batches[1..];
    ConcatCons(first, l.batches[1..]);
  }

  /** At any moment of any schedule: once the handlers started so far are through, store and graph are those of
      the events handed over, as if they had come in one batch. */
  lemma ProcessorFollowsTheLoop<G(!new)>(
      cfg: Config, b: Builder<G>, polled: Bundles, first: seq<Event>, schedule: seq<L.Choice<Event>>)
    requires SupportedEvents(cfg, first + L.Received(schedule))
    requires CutsAgree(cfg, b, polled, first + L.Received(schedule))
    ensures var bs := Handled(L.Run(first, schedule), polled);
            && SupportedEvents(cfg, Events(bs))
            && HandleAll(cfg, b, bs).store == ApplyAll(cfg, map[], Events(bs))
            && HandleAll(cfg, b, bs).graph == AllAtOnce(cfg, b, polled, Events(bs))
  {
    HandledThenWaiting(first, schedule, polled);
    HandleAllSettles(cfg, b, polled, first + L.Received(schedule), Handled(L.Run(first, schedule), polled));
  }

  /** After any schedule, run on until the loop is idle: store and graph are those of all prepared and received
      events, whatever the schedule was and however it cut them. */
  lemma IdleMeansUpToDate<G(!new)>(
      cfg: Config, b: Builder<G>, polled: Bundles, first: seq<Event>, schedule: seq<L.Choice<Event>>)
    requires SupportedEvents(cfg, first + L.Received(schedule))
    requires FrameAt(cfg, b, polled) && PollersCover(cfg, b, polled, first + L.Received(schedule))
    ensures var bs := Handled(L.Run(first, schedule + L.Finish() + L.Finish()), polled);
            && Events(bs) == first + L.Received(schedule)
            && HandleAll(cfg, b, bs).store == ApplyAll(cfg, map[], first + L.Received(schedule))
            && HandleAll(cfg, b, bs).graph == AllAtOnce(cfg, b, polled, first + L.Received(schedule))
  {
    var whole := schedule + L.Finish() + L.Finish();
    L.EverythingIsDelivered(first, schedule);
    L.ExactlyOnceInOrder(first, whole);
    var l := L.Run(first, whole);
    HandledThenWaiting(first, whole, polled);
    assert L.Received(whole) == L.Received(schedule);
    CoveredCutsAgree(cfg, b, polled, first + L.Received(schedule));
    ProcessorFollowsTheLoop(cfg, b, polled, first, whole);
    assert Events(Handled(l, polled)) + [] == Events(Handled(l, polled));
  }
}
