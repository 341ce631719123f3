/** The status queue: an unbounded list under a mutex and a one-slot channel that wakes a blocked reader.
    Producers and readers are interleaved at every lock, append, notification and receive. */
module StatusQueue {
  import opened Wrappers

  datatype Actor = Producer(id: nat) | Reader(id: nat)

  /** Where an Enqueue call stands. */
  datatype Enqueuing<T> = Out | Waiting(item: T) | Locked(item: T) | Appended | Notified

  /** Where a Dequeue call stands; a parked reader has released the lock and blocks in the select. */
  datatype Dequeuing = Away | Wanting | Checking | Parked | Woken | Cancelled

  datatype Queue<T> = Queue(
    items: seq<T>,
    token: bool,                       // the notify slot is full
    lock: Option<Actor>,
    producers: map<nat, Enqueuing<T>>, // a producer that is not listed is outside Enqueue
    readers: map<nat, Dequeuing>,
    enqueued: seq<T>,
    dequeued: seq<T>,
    fills: nat,                        // times the notify slot went from empty to full
    wakes: nat)                        // times a reader was woken by the slot

  datatype Step<T> =
    | Call(p: nat, item: T) | Acquire(p: nat) | Append(p: nat) | Notify(p: nat) | Done(p: nat)
    | Dequeue(r: nat) | Relock(r: nat) | Check(r: nat) | Wake(r: nat) | Cancel(r: nat)

  function At<T>(q: Queue<T>, p: nat): (e: Enqueuing<T>) {
    if p in q.producers then q.producers[p] else Out
  }

  function ReaderAt<T>(q: Queue<T>, r: nat): (d: Dequeuing) {
    if r in q.readers then q.readers[r] else Away
  }

  /** A step that is not enabled leaves the state as it is. `readers` is how many readers there are. */
  function Next<T>(readers: nat, q: Queue<T>, step: Step<T>): (r: Queue<T>) {
    match step
    case Call(p, item) => if At(q, p).Out? then q.(producers := q.producers[p := Waiting(item)]) else q
    case Acquire(p) =>
      if At(q, p).Waiting? && q.lock.None? then
        q.(producers := q.producers[p := Locked(At(q, p).item)], lock := Some(Producer(p)))
      else q
    case Append(p) =>
      if At(q, p).Locked? then
        var item := At(q, p).item;
        q.(producers := q.producers[p := Appended], items := q.items + [item], enqueued := q.enqueued + [item])
      else q
    case Notify(p) =>
      if At(q, p).Appended? then
        q.(producers := q.producers[p := Notified], token := true, fills := q.fills + if q.token then 0 else 1)
      else q
    case Done(p) => if At(q, p).Notified? then q.(producers := q.producers[p := Out], lock := None) else q
    case Dequeue(r) => if r < readers && ReaderAt(q, r).Away? then q.(readers := q.readers[r := Wanting]) else q
    case Relock(r) =>
      if q.lock.Some? then q
      else if ReaderAt(q, r).Wanting? || ReaderAt(q, r).Woken? then
        q.(readers := q.readers[r := Checking], lock := Some(Reader(r)))
      else if ReaderAt(q, r).Cancelled? then q.(readers := q.readers[r := Away])
      else q
    case Check(r) =>
      if !ReaderAt(q, r).Checking? then q
      else if q.items == [] then q.(readers := q.readers[r := Parked], lock := None)
      else
        q.(readers := q.readers[r := Away], lock := None, items := q.items[1..], dequeued := q.dequeued + [q.items[0]])
    case Wake(r) =>
      if ReaderAt(q, r).Parked? && q.token then
        q.(readers := q.readers[r := Woken], token := false, wakes := q.wakes + 1)
      else q
    case Cancel(r) => if ReaderAt(q, r).Parked? then q.(readers := q.readers[r := Cancelled]) else q
  }

  function Empty<T>(): (r: Queue<T>) {
    Queue([], false, None, map[], map[], [], [], 0, 0)
  }

  function Run<T>(readers: nat, steps: seq<Step<T>>): (r: Queue<T>) {
    if steps == [] then Empty() else Next(readers, Run(readers, steps[..|steps| - 1]), steps[|steps| - 1])
  }

  ghost predicate HoldsLock<T>(e: Enqueuing<T>) {
    e.Locked? || e.Appended? || e.Notified?
  }

  /** The producer that holds the lock has appended its item and is about to notify. */
  ghost predicate Announcing<T>(q: Queue<T>) {
    q.lock.Some? && q.lock.value.Producer? && At(q, q.lock.value.id).Appended?
  }

  /** The lock is held by the one actor that is inside its critical section. */
  ghost predicate Exclusive<T>(readers: nat, q: Queue<T>) {
    && (forall p: nat :: HoldsLock(At(q, p)) <==> q.lock == Some(Producer(p)))
    && (forall r: nat :: ReaderAt(q, r).Checking? <==> q.lock == Some(Reader(r)))
    && (forall r: nat :: !ReaderAt(q, r).Away? ==> r < readers)
  }

  /** Nothing is lost, duplicated or reordered, and the notify slot is filled at most once per item. */
  ghost predicate Conserved<T>(q: Queue<T>) {
    && q.dequeued + q.items == q.enqueued
    && q.wakes + (if q.token then 1 else 0) == q.fills
    && q.fills + (if Announcing(q) then 1 else 0) <= |q.enqueued|
  }

  ghost predicate Safe<T>(readers: nat, q: Queue<T>) {
    Exclusive(readers, q) && Conserved(q)
  }

  lemma NextKeepsExclusive<T>(readers: nat, q: Queue<T>, step: Step<T>)
    requires Exclusive(readers, q)
    ensures Exclusive(readers, Next(readers, q, step))
  {
  }

  lemma NextKeepsConserved<T>(readers: nat, q: Queue<T>, step: Step<T>)
    requires Exclusive(readers, q) && Conserved(q)
    ensures Conserved(Next(readers, q, step))
  {
  }

  lemma NextKeepsSafe<T>(readers: nat, q: Queue<T>, step: Step<T>)
    requires Safe(readers, q)
    ensures Safe(readers, Next(readers, q, step))
  {
    NextKeepsExclusive(readers, q, step);
    NextKeepsConserved(readers, q, step);
  }

  lemma {:induction false} RunIsSafe<T>(readers: nat, steps: seq<Step<T>>)
    ensures Safe(readers, Run(readers, steps))
  {
    if steps != [] {
      RunIsSafe(readers, steps[..|steps| - 1]);
      NextKeepsSafe(readers, Run(readers, steps[..|steps| - 1]), steps[|steps| - 1]);
    }
  }

  /** In every interleaving of any number of producers and readers the dequeued items followed by the
      queued ones are the enqueued ones in order. The wake-ups, spurious or not, number at most the items
      enqueued, so between two calls of Enqueue only so many more can come. */
  lemma FifoConservation<T>(readers: nat, steps: seq<Step<T>>)
    ensures var q := Run(readers, steps); q.dequeued + q.items == q.enqueued && q.wakes <= q.fills <= |q.enqueued|
  {
    RunIsSafe(readers, steps);
  }

  /** No reader is left blocked while items wait: with the lock free, a full slot is there to wake it. */
  ghost predicate NoLostWakeup<T>(q: Queue<T>) {
    q.lock.None? && q.items != [] ==> forall r: nat :: ReaderAt(q, r).Parked? ==> q.token
  }

  /** For a single reader: blocked with items present, the slot is full or about to be filled. */
  ghost predicate WakeupComing<T>(q: Queue<T>) {
    ReaderAt(q, 0).Parked? && q.items != [] ==>
      q.token || Announcing(q)
  }

  lemma NextKeepsWakeup<T>(q: Queue<T>, step: Step<T>)
    requires Exclusive(1, q) && WakeupComing(q)
    ensures WakeupComing(Next(1, q, step))
  {
  }

  lemma {:induction false} SingleReaderWakes<T>(steps: seq<Step<T>>)
    ensures WakeupComing(Run(1, steps))
  {
    if steps != [] {
      RunIsSafe(1, steps[..|steps| - 1]);
      SingleReaderWakes(steps[..|steps| - 1]);
      NextKeepsWakeup(Run(1, steps[..|steps| - 1]), steps[|steps| - 1]);
    }
  }

  lemma RunSnoc<T>(readers: nat, steps: seq<Step<T>>, step: Step<T>)
    ensures Run(readers, steps + [step]) == Next(readers, Run(readers, steps), step)
  {
    assert (steps + [step])[..|steps|] == steps;
  }

  function StepAll<T>(readers: nat, q: Queue<T>, steps: seq<Step<T>>): (r: Queue<T>)
    decreases |steps|
  {
    if steps == [] then q else StepAll(readers, Next(readers, q, steps[0]), steps[1..])
  }

  lemma {:induction false} RunAppend<T>(readers: nat, before: seq<Step<T>>, steps: seq<Step<T>>)
    ensures Run(readers, before + steps) == StepAll(readers, Run(readers, before), steps)
    decreases |steps|
  {
    if steps == [] {
      assert before + steps == before;
    } else {
      RunSnoc(readers, before, steps[0]);
      RunAppend(readers, before + [steps[0]], steps[1..]);
      assert before + [steps[0]] + steps[1..] == before + steps;
    }
  }

  lemma StepTwo<T>(readers: nat, q: Queue<T>, a: Step<T>, b: Step<T>)
    ensures StepAll(readers, q, [a, b]) == Next(readers, Next(readers, q, a), b)
  {
    assert [a, b][1..] == [b] && [b][1..] == [];
    assert StepAll(readers, Next(readers, q, a), [b]) == StepAll(readers, Next(readers, Next(readers, q, a), b), []);
  }

  lemma StepThree<T>(readers: nat, q: Queue<T>, a: Step<T>, b: Step<T>, c: Step<T>)
    ensures StepAll(readers, q, [a, b, c]) == Next(readers, Next(readers, Next(readers, q, a), b), c)
  {
    assert [a, b, c][1..] == [b, c];
    StepTwo(readers, Next(readers, q, a), b, c);
  }

  lemma {:induction false} StepConcat<T>(readers: nat, q: Queue<T>, a: seq<Step<T>>, b: seq<Step<T>>)
    ensures StepAll(readers, q, a + b) == StepAll(readers, StepAll(readers, q, a), b)
    decreases |a|
  {
    if a == [] {
      assert a + b == b;
    } else {
      assert (a + b)[1..] == a[1..] + b;
      StepConcat(readers, Next(readers, q, a[0]), a[1..], b);
    }
  }

  /** One uninterrupted Enqueue by producer 0. */
  function Put<T>(x: T): (r: seq<Step<T>>) {
    [Call(0, x), Acquire(0), Append(0)] + [Notify(0), Done(0)]
  }

  lemma PutRuns<T>(readers: nat, q: Queue<T>, x: T)
    requires At(q, 0).Out? && q.lock.None?
    ensures var e := StepAll(readers, q, Put(x));
            e.items == q.items + [x] && e.token && e.lock.None? && At(e, 0).Out? && e.readers == q.readers
  {
    StepConcat(readers, q, [Call(0, x), Acquire(0), Append(0)], [Notify(0), Done(0)]);
    StepThree(readers, q, Call(0, x), Acquire(0), Append(0));
    StepTwo(readers, StepAll(readers, q, [Call(0, x), Acquire(0), Append(0)]), Notify(0), Done(0));
  }

  /** Reader r calls Dequeue on the empty queue and blocks. */
  lemma ParkRuns<T>(readers: nat, q: Queue<T>, r: nat)
    requires r < readers && ReaderAt(q, r).Away? && q.lock.None? && q.items == []
    ensures StepAll(readers, q, [Dequeue(r), Relock(r), Check(r)]) == q.(readers := q.readers[r := Parked])
  {
    StepThree(readers, q, Dequeue(r), Relock(r), Check(r));
  }

  /** A blocked reader is woken and takes the front item. */
  lemma TakeRuns<T>(readers: nat, q: Queue<T>, r: nat)
    requires ReaderAt(q, r).Parked? && q.token && q.lock.None? && q.items != []
    ensures StepAll(readers, q, [Wake(r), Relock(r), Check(r)]) ==
            q.(readers := q.readers[r := Away], token := false, wakes := q.wakes + 1,
               items := q.items[1..], dequeued := q.dequeued + [q.items[0]])
  {
    StepThree(readers, q, Wake(r), Relock(r), Check(r));
  }

  /** A blocked reader whose context is done takes the lock again and returns with nothing; the queue is as it was. */
  lemma CancelRuns<T>(readers: nat, q: Queue<T>, r: nat)
    requires ReaderAt(q, r).Parked? && q.lock.None?
    ensures StepAll(readers, q, [Cancel(r), Relock(r)]) == q.(readers := q.readers[r := Away])
  {
    StepTwo(readers, q, Cancel(r), Relock(r));
    assert q.readers[r := Cancelled][r := Away] == q.readers[r := Away];
  }

  /** Two blocked readers and two items: the second notification finds the slot full and is dropped, the
      first reader takes the token, and the other one stays blocked beside the second item. */
  lemma TwoReadersLoseAWakeup<T>(readers: nat, x: T) returns (steps: seq<Step<T>>)
    requires readers >= 2
    ensures !NoLostWakeup(Run(readers, steps))
  {
    var s1: seq<Step<T>> := [] + [Dequeue(0), Relock(0), Check(0)];
    RunAppend<T>(readers, [], [Dequeue(0), Relock(0), Check(0)]);
    ParkRuns(readers, Empty<T>(), 0);
    var s2 := s1 + [Dequeue(1), Relock(1), Check(1)];
    RunAppend(readers, s1, [Dequeue(1), Relock(1), Check(1)]);
    ParkRuns(readers, Run(readers, s1), 1);
    var s3 := s2 + Put(x);
    RunAppend(readers, s2, Put(x));
    PutRuns(readers, Run(readers, s2), x);
    var s4 := s3 + Put(x);
    RunAppend(readers, s3, Put(x));
    PutRuns(readers, Run(readers, s3), x);
    RunAppend(readers, s4, [Wake(0), Relock(0), Check(0)]);
    TakeRuns(readers, Run(readers, s4), 0);
    steps := s4 + [Wake(0), Relock(0), Check(0)];
    assert ReaderAt(Run(readers, steps), 1).Parked?;
  }

  /** No wake-up is lost in any interleaving exactly when there is at most one reader. */
  lemma NoLostWakeupIffOneReader<T(!new)>(readers: nat, x: T)
    ensures (forall steps: seq<Step<T>> :: NoLostWakeup(Run(readers, steps))) <==> readers <= 1
  {
    if readers <= 1 {
      forall steps: seq<Step<T>> ensures NoLostWakeup(Run(readers, steps)) {
        RunIsSafe(readers, steps);
        if readers == 1 { SingleReaderWakes(steps); }
      }
    } else {
      var steps := TwoReadersLoseAWakeup(readers, x);
    }
  }

  /** The blocked reader gets the front item as soon as it runs. */
  lemma BlockedReaderProceeds<T>(steps: seq<Step<T>>)
    requires var q := Run(1, steps); q.lock.None? && q.items != [] && ReaderAt(q, 0).Parked?
    ensures var q := Run(1, steps);
            var after := Run(1, steps + [Wake(0), Relock(0), Check(0)]);
            && after.dequeued == q.dequeued + [q.items[0]] && after.items == q.items[1..]
            && ReaderAt(after, 0).Away? && after.lock.None?
  {
    SingleReaderWakes(steps);
    RunAppend(1, steps, [Wake(0), Relock(0), Check(0)]);
    TakeRuns(1, Run(1, steps), 0);
  }
}
