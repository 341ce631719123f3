/** The main event loop: events are appended to one buffer while a handler goroutine reads the other, and
    the buffers trade places, truncated to length zero, when the handler is done. */
module EventLoop {

  /** Where a handler goroutine stands: it captures the batch and builds the graph, then it reads the
      readiness flag, then it closes the ready channel if the flag it read was unset. */
  datatype Phase = Capturing | Deciding(sawReady: bool) | Finishing

  // ---- The loop as a transition system over values ----

  datatype Goroutine<E> = Goroutine(batch: seq<E>, phase: Phase)

  datatype Loop<E> = Loop(
    handling: bool,
    current: seq<E>,
    next: seq<E>,
    handlers: seq<Goroutine<E>>,
    ready: bool,
    closes: nat,
    received: seq<E>,
    batches: seq<seq<E>>)

  /** One scheduling choice. A choice that is not enabled leaves the state as it is. */
  datatype Choice<E> = Receive(e: E) | HandlerStep(i: nat) | HandlingDone(i: nat)

  /** handleBatch: a goroutine is started on the current batch. */
  function Spawn<E>(l: Loop<E>): (r: Loop<E>) {
    l.(handling := true,
       handlers := l.handlers + [Goroutine(l.current, Capturing)],
       batches := l.batches + [l.current])
  }

  function SwapAndHandle<E>(l: Loop<E>): (r: Loop<E>) {
    Spawn(l.(current := l.next, next := []))
  }

  function Step<E>(l: Loop<E>, c: Choice<E>): (r: Loop<E>) {
    match c
    case Receive(e) =>
      var added := l.(next := l.next + [e], received := l.received + [e]);
      if l.handling then added else SwapAndHandle(added)
    case HandlerStep(i) =>
      if i >= |l.handlers| then l else HandlerMove(l, i)
    case HandlingDone(i) =>
      if i >= |l.handlers| || !l.handlers[i].phase.Finishing? then l
      else
        var idle := l.(handling := false, handlers := l.handlers[..i] + l.handlers[i + 1..]);
        if |l.next| > 0 then SwapAndHandle(idle) else idle
  }

  function HandlerMove<E>(l: Loop<E>, i: nat): (r: Loop<E>)
    requires i < |l.handlers|
  {
    var g := l.handlers[i];
    match g.phase
    case Capturing => l.(handlers := l.handlers[i := g.(phase := Deciding(l.ready))])
    case Deciding(true) => l.(handlers := l.handlers[i := g.(phase := Finishing)])
    case Deciding(false) =>
      l.(handlers := l.handlers[i := g.(phase := Finishing)], ready := true, closes := l.closes + 1)
    case Finishing => l
  }

  function Begin<E>(first: seq<E>): (r: Loop<E>) {
    Spawn(Loop(false, first, [], [], false, 0, [], []))
  }

  function Run<E>(first: seq<E>, schedule: seq<Choice<E>>): (r: Loop<E>) {
    if schedule == [] then Begin(first)
    else Step(Run(first, schedule[..|schedule| - 1]), schedule[|schedule| - 1])
  }

  function Concat<E>(bs: seq<seq<E>>): (r: seq<E>) {
    if bs == [] then [] else Concat(bs[..|bs| - 1]) + bs[|bs| - 1]
  }

  ghost predicate Invariant<E>(first: seq<E>, l: Loop<E>) {
    && |l.handlers| <= 1
    && (l.handling <==> |l.handlers| == 1)
    && l.batches != [] && l.batches[0] == first
    && l.current == l.batches[|l.batches| - 1]
    && (l.handling ==> l.handlers[0].batch == l.current)
    && (!l.handling ==> l.next == [])
    && Concat(l.batches[1..]) + l.next == l.received
    && (forall i :: 1 <= i < |l.batches| ==> l.batches[i] != [])
    && l.closes == (if l.ready then 1 else 0)
    && (l.handling && l.handlers[0].phase == Deciding(false) ==> !l.ready)
  }

  lemma ConcatSnoc<E>(bs: seq<seq<E>>, b: seq<E>)
    ensures Concat(bs + [b]) == Concat(bs) + b
  {
    assert (bs + [b])[..|bs|] == bs;
  }

  lemma SwapKeepsInvariant<E>(first: seq<E>, l: Loop<E>)
    requires l.handlers == [] && l.next != []
    requires l.batches != [] && l.batches[0] == first
    requires Concat(l.batches[1..]) + l.next == l.received
    requires forall i :: 1 <= i < |l.batches| ==> l.batches[i] != []
    requires l.closes == (if l.ready then 1 else 0)
    ensures Invariant(first, SwapAndHandle(l))
  {
    ConcatSnoc(l.batches[1..], l.next);
    var bs := SwapAndHandle(l).batches;
    assert bs[1..] == l.batches[1..] + [l.next];
  }

  lemma ReceiveKeepsInvariant<E>(first: seq<E>, l: Loop<E>, e: E)
    requires Invariant(first, l)
    ensures Invariant(first, Step(l, Receive(e)))
  {
    var added := l.(next := l.next + [e], received := l.received + [e]);
    assert Concat(l.batches[1..]) + added.next == added.received;
    if !l.handling { SwapKeepsInvariant(first, added); }
  }

  lemma HandlerMoveKeepsInvariant<E>(first: seq<E>, l: Loop<E>)
    requires Invariant(first, l) && l.handling
    ensures Invariant(first, HandlerMove(l, 0))
    ensures HandlerMove(l, 0).next == l.next && HandlerMove(l, 0).received == l.received
    ensures l.handlers[0].phase.Deciding? ==> HandlerMove(l, 0).handlers[0].phase.Finishing?
  {
  }

  lemma DoneKeepsInvariant<E>(first: seq<E>, l: Loop<E>)
    requires Invariant(first, l) && l.handling && l.handlers[0].phase.Finishing?
    ensures Invariant(first, Step(l, HandlingDone(0)))
    ensures Step(l, HandlingDone(0)).received == l.received
    ensures Step(l, HandlingDone(0)).next == []
    ensures Step(l, HandlingDone(0)).handling <==> l.next != []
  {
    var idle := l.(handling := false, handlers := []);
    assert l.handlers[..0] + l.handlers[1..] == [];
    if |l.next| > 0 { SwapKeepsInvariant(first, idle); }
  }

  lemma StepKeepsInvariant<E>(first: seq<E>, l: Loop<E>, c: Choice<E>)
    requires Invariant(first, l)
    ensures Invariant(first, Step(l, c))
  {
    match c
    case Receive(e) => ReceiveKeepsInvariant(first, l, e);
    case HandlerStep(i) => if i < |l.handlers| { HandlerMoveKeepsInvariant(first, l); }
    case HandlingDone(i) =>
      if i < |l.handlers| && l.handlers[i].phase.Finishing? { DoneKeepsInvariant(first, l); }
  }

  lemma {:induction false} RunKeepsInvariant<E>(first: seq<E>, schedule: seq<Choice<E>>)
    ensures Invariant(first, Run(first, schedule))
  {
    if schedule != [] {
      RunKeepsInvariant(first, schedule[..|schedule| - 1]);
      StepKeepsInvariant(first, Run(first, schedule[..|schedule| - 1]), schedule[|schedule| - 1]);
    }
  }

  /** The events the loop received in a schedule. */
  function Received<E>(schedule: seq<Choice<E>>): (r: seq<E>) {
    if schedule == [] then []
    else
      var before := Received(schedule[..|schedule| - 1]);
      match schedule[|schedule| - 1] case Receive(e) => before + [e] case _ => before
  }

  lemma {:induction false} ReceivedIsRecorded<E>(first: seq<E>, schedule: seq<Choice<E>>)
    ensures Run(first, schedule).received == Received(schedule)
  {
    if schedule != [] { ReceivedIsRecorded(first, schedule[..|schedule| - 1]); }
  }

  /** In every run: the first batch is the prepared one, the later batches followed by the waiting events
      are the received events in order, no batch is empty, at most one handler is active, an idle loop
      has nothing waiting, and the ready channel is closed at most once. */
  lemma ExactlyOnceInOrder<E>(first: seq<E>, schedule: seq<Choice<E>>)
    ensures var l := Run(first, schedule);
            && l.batches != [] && l.batches[0] == first
            && Concat(l.batches[1..]) + l.next == Received(schedule)
            && (forall i :: 1 <= i < |l.batches| ==> l.batches[i] != [])
            && |l.handlers| <= 1
            && (l.handlers == [] ==> l.next == [])
            && l.closes <= 1
  {
    RunKeepsInvariant(first, schedule);
    ReceivedIsRecorded(first, schedule);
  }

  /** The choices that take the active handler to its end. */
  function Finish<E>(): (r: seq<Choice<E>>) {
    [HandlerStep(0), HandlerStep(0), HandlingDone(0)]
  }

  lemma RunSnoc<E>(first: seq<E>, schedule: seq<Choice<E>>, c: Choice<E>)
    ensures Run(first, schedule + [c]) == Step(Run(first, schedule), c)
  {
    assert (schedule + [c])[..|schedule|] == schedule;
  }

  function StepAll<E>(l: Loop<E>, cs: seq<Choice<E>>): (r: Loop<E>) {
    if cs == [] then l else Step(StepAll(l, cs[..|cs| - 1]), cs[|cs| - 1])
  }

  lemma StepAllSnoc<E>(l: Loop<E>, cs: seq<Choice<E>>, c: Choice<E>)
    ensures StepAll(l, cs + [c]) == Step(StepAll(l, cs), c)
  {
    assert (cs + [c])[..|cs|] == cs;
  }

  lemma {:induction false} RunAppend<E>(first: seq<E>, schedule: seq<Choice<E>>, cs: seq<Choice<E>>)
    ensures Run(first, schedule + cs) == StepAll(Run(first, schedule), cs)
  {
    if cs == [] {
      assert schedule + cs == schedule;
    } else {
      var init, c := cs[..|cs| - 1], cs[|cs| - 1];
      RunAppend(first, schedule, init);
      RunSnoc(first, schedule + init, c);
      StepAllSnoc(Run(first, schedule), init, c);
      assert init + [c] == cs && (schedule + init) + [c] == schedule + cs;
    }
  }

  lemma FinishFinishes<E>(first: seq<E>, l: Loop<E>)
    requires Invariant(first, l) && l.handling
    ensures var f := StepAll(l, Finish());
            Invariant(first, f) && f.received == l.received && f.next == [] && (f.handling <==> l.next != [])
  {
    var l1 := Step(l, HandlerStep(0));
    HandlerMoveKeepsInvariant(first, l);
    var l2 := Step(l1, HandlerStep(0));
    HandlerMoveKeepsInvariant(first, l1);
    DoneKeepsInvariant(first, l2);
    StepAllFinish(l);
  }

  lemma StepAllFinish<E>(l: Loop<E>)
    ensures StepAll(l, Finish()) == Step(Step(Step(l, HandlerStep(0)), HandlerStep(0)), HandlingDone(0))
  {
    var f1: seq<Choice<E>> := [] + [HandlerStep(0)];
    var f2 := f1 + [HandlerStep(0)];
    StepAllSnoc(l, [], HandlerStep(0));
    StepAllSnoc(l, f1, HandlerStep(0));
    StepAllSnoc(l, f2, HandlingDone(0));
    assert f2 + [HandlingDone(0)] == Finish();
  }

  /** No event is stuck: from any reachable state, letting the active handler finish and then the one
      that follows it, if any, leaves the loop idle with every received event handled. */
  lemma EverythingIsDelivered<E>(first: seq<E>, schedule: seq<Choice<E>>)
    ensures var l := Run(first, schedule + Finish() + Finish());
            && l.handlers == [] && l.next == [] && l.batches != []
            && Concat(l.batches[1..]) == Received(schedule)
  {
    RunKeepsInvariant(first, schedule);
    ReceivedIsRecorded(first, schedule);
    var l := Run(first, schedule);
    RunAppend(first, schedule, Finish());
    RunAppend(first, schedule + Finish(), Finish());
    var f := StepAll(l, Finish());
    if l.handling { FinishFinishes(first, l); } else { IdleStays(l); }
    if f.handling { FinishFinishes(first, f); } else { IdleStays(f); }
  }

  lemma IdleStays<E>(l: Loop<E>)
    requires l.handlers == []
    ensures StepAll(l, Finish()) == l
  {
    StepAllFinish(l);
  }

  // ---- The loop on the heap ----

  /** A Go slice: a prefix of a backing array. */
  datatype Slice<!E> = Slice(cells: array<E>, len: nat)

  datatype Handler<!E> = Handler(batch: Slice<E>, phase: Phase)

  class EventLoop<E(0)> {
    var currentBatch: Slice<E>
    var nextBatch: Slice<E>
    var handling: bool
    var handlers: seq<Handler<E>>
    var ready: bool
    var closes: nat
    ghost var received: seq<E>
    ghost var batches: seq<seq<E>>

    ghost function Backing(): (r: set<object>)
      reads this
    {
      {currentBatch.cells, nextBatch.cells} + set h | h in handlers :: h.batch.cells as object
    }

    /** Besides the bounds: no handler reads a cell of the array that `nextBatch` appends into. */
    ghost predicate Valid()
      reads this
    {
      && currentBatch.len <= currentBatch.cells.Length
      && nextBatch.len <= nextBatch.cells.Length
      && currentBatch.cells != nextBatch.cells
      && (forall h :: h in handlers ==> h.batch.len <= h.batch.cells.Length && h.batch.cells != nextBatch.cells)
      && |handlers| == (if handling then 1 else 0)
      && (handling ==> handlers[0].batch == currentBatch)
    }

    static ghost function Contents(s: Slice<E>): (r: seq<E>)
      requires s.len <= s.cells.Length
      reads s.cells
    {
      s.cells[..s.len]
    }

    /** The abstract state; what the handler sees is read through the handler's own slice. */
    ghost function State(): (r: Loop<E>)
      requires Valid()
      reads this, Backing()
    {
      var goroutines :=
        if handlers == [] then [] else
          assert handlers[0] in handlers;
          [Goroutine(Contents(handlers[0].batch), handlers[0].phase)];
      Loop(handling, Contents(currentBatch), Contents(nextBatch), goroutines, ready, closes, received, batches)
    }

    constructor ()
      ensures Valid() && fresh(Backing())
      ensures State() == Loop(false, [], [], [], false, 0, [], [])
    {
      var a, b := new E[0], new E[0];
      currentBatch, nextBatch := Slice(a, 0), Slice(b, 0);
      handling, handlers, ready, closes := false, [], false, 0;
      received, batches := [], [];
    }

    /** append: in place while the capacity lasts, otherwise into a larger copy whose spare capacity the
        runtime chooses. */
    method Append(e: E, spare: nat)
      requires Valid()
      modifies this`nextBatch, nextBatch.cells
      ensures Valid()
      ensures State() == old(State()).(next := old(State()).next + [e])
      ensures nextBatch.cells == old(nextBatch.cells) || fresh(nextBatch.cells)
    {
      if nextBatch.len == nextBatch.cells.Length {
        var grown := new E[nextBatch.len + 1 + spare];
        forall i | 0 <= i < nextBatch.len { grown[i] := nextBatch.cells[i]; }
        nextBatch := Slice(grown, nextBatch.len);
      }
      nextBatch.cells[nextBatch.len] := e;
      nextBatch := nextBatch.(len := nextBatch.len + 1);
    }

    /** swapBatches: the buffers trade places and the new `nextBatch` is cut to `[:0]`. */
    method SwapBatches()
      requires Valid() && handlers == []
      modifies this`currentBatch, this`nextBatch
      ensures Valid() && Backing() == old(Backing())
      ensures State() == old(State()).(current := old(State()).next, next := [])
    {
      currentBatch, nextBatch := nextBatch, currentBatch;
      nextBatch := nextBatch.(len := 0);
    }

    /** handleBatch: the goroutine gets its own copy of the slice header, not of the cells. */
    method HandleBatch()
      requires Valid() && handlers == []
      modifies this`handlers, this`handling, this`batches
      ensures Valid() && Backing() == old(Backing())
      ensures State() == Spawn(old(State()))
    {
      handlers := handlers + [Handler(currentBatch, Capturing)];
      handling := true;
      batches := batches + [Contents(currentBatch)];
    }

    /** One round of the select loop, or one step of the handler goroutine. */
    method Round(c: Choice<E>, spare: nat)
      requires Valid()
      modifies this, nextBatch.cells
      ensures Valid()
      ensures State() == Step(old(State()), c)
      ensures forall o :: o in Backing() ==> o in old(Backing()) || fresh(o)
    {
      match c
      case Receive(e) =>
        ReceiveEvent(e, spare);
      case HandlerStep(i) =>
        if i < |handlers| { MoveHandler(i); }
      case HandlingDone(i) =>
        if i < |handlers| && handlers[i].phase.Finishing? { FinishHandling(i); }
    }

    method ReceiveEvent(e: E, spare: nat)
      requires Valid()
      modifies this, nextBatch.cells
      ensures Valid()
      ensures State() == Step(old(State()), Receive(e))
      ensures forall o :: o in Backing() ==> o in old(Backing()) || fresh(o)
    {
      received := received + [e];
      Append(e, spare);
      if !handling {
        SwapBatches();
        HandleBatch();
      }
    }

    method FinishHandling(i: nat)
      requires Valid() && i < |handlers| && handlers[i].phase.Finishing?
      modifies this
      ensures Valid() && Backing() <= old(Backing())
      ensures State() == Step(old(State()), HandlingDone(i))
    {
      handlers := handlers[..i] + handlers[i + 1..];
      handling := false;
      if nextBatch.len > 0 {
        SwapBatches();
        HandleBatch();
      }
    }

    method MoveHandler(i: nat)
      requires Valid() && i < |handlers|
      modifies this`handlers, this`ready, this`closes
      ensures Valid() && Backing() == old(Backing())
      ensures State() == HandlerMove(old(State()), i)
    {
      var h := handlers[i];
      match h.phase
      case Capturing =>
        handlers := handlers[i := h.(phase := Deciding(ready))];
      case Deciding(sawReady) =>
        if !sawReady {
          ready := true;
          closes := closes + 1;
        }
        handlers := handlers[i := h.(phase := Finishing)];
      case Finishing =>
    }

    /** Start, for any interleaving of arriving events and handler progress. `prepared` is the slice the
        preparer made for the first batch; each choice comes with the spare capacity an append may get. */
    method Start(prepared: Slice<E>, schedule: seq<(Choice<E>, nat)>)
      requires Valid() && State() == Loop(false, [], [], [], false, 0, [], [])
      requires prepared.len <= prepared.cells.Length && prepared.cells != nextBatch.cells
      modifies this, nextBatch.cells, prepared.cells
      ensures Valid()
      ensures State() == Run(old(Contents(prepared)), seq(|schedule|, i requires 0 <= i < |schedule| => schedule[i].0))
    {
      currentBatch := prepared;
      HandleBatch();
      ghost var first := Contents(prepared);
      ghost var choices := seq(|schedule|, i requires 0 <= i < |schedule| => schedule[i].0);
      assert State() == Begin(first);
      for k := 0 to |schedule|
        invariant Valid()
        invariant forall o :: o in Backing() ==> o in {prepared.cells, old(nextBatch.cells)} || fresh(o)
        invariant State() == Run(first, choices[..k])
      {
        assert choices[..k + 1] == choices[..k] + [choices[k]];
        RunSnoc(first, choices[..k], choices[k]);
        assert nextBatch.cells in Backing();
        Round(schedule[k].0, schedule[k].1);
      }
      assert choices[..|schedule|] == choices;
    }
  }
}
