/** The finalizer that protects AP resources a WAFPolicy refers to. The handler keeps a set of the resources
    it believes to carry it and only calls the API for the difference to the desired set, while calls fail
    and other clients create and delete resources at any time. */
module Finalizers {
  import opened Ordering
  import opened Wrappers

  datatype Key = Key(name: string, logConf: bool)

  /** The AP resources in the cluster; true if the resource carries the finalizer. */
  type Cluster = map<Key, bool>

  /** What other clients do. They do not touch the finalizer, and a resource that carries one cannot
      disappear: its deletion stays pending until the finalizer is removed. */
  datatype Interference = Create(key: Key) | Vanish(key: Key)

  /** What happens around one API call: what others did before it, whether it fails, and whether a Patch that
      fails took effect all the same, its answer being lost. */
  datatype Turn = Turn(others: seq<Interference>, fails: bool, applied: bool)

  predicate Quiet(turns: seq<Turn>) {
    forall i :: 0 <= i < |turns| ==> turns[i].others == [] && !turns[i].fails
  }

  predicate NoneLost(turns: seq<Turn>) {
    forall i :: 0 <= i < |turns| ==> !(turns[i].fails && turns[i].applied)
  }

  function Interfere(c: Cluster, i: Interference): (r: Cluster) {
    match i
    case Create(k) => if k in c then c else c[k := false]
    case Vanish(k) => if k in c && !c[k] then c - {k} else c
  }

  function InterfereAll(c: Cluster, others: seq<Interference>): (r: Cluster) {
    if others == [] then c else Interfere(InterfereAll(c, others[..|others| - 1]), others[|others| - 1])
  }

  /** The resources that are there before, between and after the interferences. */
  function Throughout(c: Cluster, others: seq<Interference>): (r: set<Key>) {
    if others == [] then c.Keys else Throughout(c, others[..|others| - 1]) * InterfereAll(c, others).Keys
  }

  ghost function Carrying(c: Cluster): (r: set<Key>) {
    set k | k in c && c[k]
  }

  lemma {:induction false} OthersKeepCarrying(c: Cluster, others: seq<Interference>)
    ensures Carrying(InterfereAll(c, others)) == Carrying(c)
  {
    if others != [] { OthersKeepCarrying(c, others[..|others| - 1]); }
  }

  lemma CarryingUpdate(c: Cluster, key: Key, add: bool)
    ensures Carrying(c[key := add]) == if add then Carrying(c) + {key} else Carrying(c) - {key}
  {
  }

  lemma {:induction false} ThroughoutIsThere(c: Cluster, others: seq<Interference>)
    ensures Throughout(c, others) <= c.Keys && Throughout(c, others) <= InterfereAll(c, others).Keys
  {
    if others != [] { ThroughoutIsThere(c, others[..|others| - 1]); }
  }

  /** The desired resources that exist. */
  ghost function Present(desired: set<Key>, c: Cluster): (r: set<Key>) {
    desired * c.Keys
  }

  // ---- A pass that nothing disturbs, on sets ----

  /** What the handler tracks after a pass, from what it tracked and what exists. */
  ghost function TrackedAfter(tracked: set<Key>, existing: set<Key>, desired: set<Key>): (r: set<Key>) {
    desired * (tracked + existing)
  }

  /** What carries the finalizer after a pass. */
  ghost function CarryingAfter(
      tracked: set<Key>, carrying: set<Key>, existing: set<Key>, desired: set<Key>): (r: set<Key>) {
    (carrying + (desired * existing - tracked)) - (tracked - desired)
  }

  /** A pass that nothing disturbs makes the tracked and the carrying resources the desired ones that exist, exactly
      if every desired resource on track does carry the finalizer, and every carrier off track is desired. So it
      always does if the two sets agreed before; after lost answers a finalizer can be missing or left behind for
      as long as the desired set stays as it is. */
  lemma PassConvergesIff(tracked: set<Key>, carrying: set<Key>, existing: set<Key>, desired: set<Key>)
    requires carrying <= existing
    ensures TrackedAfter(tracked, existing, desired) == CarryingAfter(tracked, carrying, existing, desired)
            == desired * existing
            <==> tracked * desired <= carrying && carrying - tracked <= desired
    ensures tracked == carrying ==>
              TrackedAfter(tracked, existing, desired) == CarryingAfter(tracked, carrying, existing, desired)
                  == desired * existing
  {
    var t, c := TrackedAfter(tracked, existing, desired), CarryingAfter(tracked, carrying, existing, desired);
    var goal := desired * existing;
    if t == c == goal {
      forall k | k in tracked * desired ensures k in carrying { assert k in t && k in c; }
      forall k | k in carrying - tracked ensures k in desired { assert k in c && k in goal; }
    }
  }

  // ---- The handler as a state machine ----

  /** The cluster with what the coming API calls will meet, and the handler. `doubtful` are the resources whose last
      Patch took effect although it was reported to fail. */
  datatype State = State(
    cluster: Cluster,
    script: seq<Turn>,  // past its end nothing happens
    tracked: set<Key>,
    initialized: bool,
    doubtful: set<Key>)

  function First(script: seq<Turn>): (t: Turn) {
    if script == [] then Turn([], false, false) else script[0]
  }

  function Rest(script: seq<Turn>): (r: seq<Turn>) {
    if script == [] then [] else script[1..]
  }

  /** An API call reaches the server. */
  function Arrive(st: State): (r: State) {
    st.(cluster := InterfereAll(st.cluster, First(st.script).others), script := Rest(st.script))
  }

  datatype Reply = Reply(after: State, reconciled: bool, failed: bool)

  /** The Patch. A resource that others removed in between makes it fail. */
  function PatchOf(st: State, key: Key, add: bool): (r: Reply) {
    var turn, at := First(st.script), Arrive(st);
    if key !in at.cluster || (turn.fails && !turn.applied) then Reply(at, false, true)
    else
      var done := at.(cluster := at.cluster[key := add]);
      if turn.fails then Reply(done.(doubtful := at.doubtful + {key}), false, true)
      else Reply(done.(doubtful := at.doubtful - {key}), true, false)
  }

  /** updateAPResourceFinalizer: Get, then Patch if the finalizer has to change. */
  function UpdateOf(st: State, key: Key, add: bool): (r: Reply) {
    var turn, at := First(st.script), Arrive(st);
    if turn.fails then Reply(at, false, true)
    else if key !in at.cluster then Reply(at.(doubtful := at.doubtful - {key}), false, false)
    else if at.cluster[key] == add then Reply(at.(doubtful := at.doubtful - {key}), true, false)
    else PatchOf(at, key, add)
  }

  function AddOf(st: State, key: Key): (r: State) {
    if key in st.tracked then st
    else
      var reply := UpdateOf(st, key, true);
      if reply.reconciled then reply.after.(tracked := st.tracked + {key}) else reply.after
  }

  /** The loop never comes to a key that it has dropped already. */
  function RemoveOf(st: State, key: Key, desired: set<Key>): (r: State) {
    if key in desired || key !in st.tracked then st
    else
      var reply := UpdateOf(st, key, false);
      if reply.failed then reply.after else reply.after.(tracked := st.tracked - {key})
  }

  function AddAllOf(st: State, order: seq<Key>): (r: State) {
    if order == [] then st else AddOf(AddAllOf(st, order[..|order| - 1]), order[|order| - 1])
  }

  function RemoveAllOf(st: State, order: seq<Key>, desired: set<Key>): (r: State) {
    if order == [] then st else RemoveOf(RemoveAllOf(st, order[..|order| - 1], desired), order[|order| - 1], desired)
  }

  ghost function CarryingOf(c: Cluster, logConf: bool): (r: set<Key>) {
    set k | k in Carrying(c) && k.logConf == logConf
  }

  /** initializeAPResourceFinalizers: both lists, or nothing. */
  ghost function InitializeOf(st: State): (r: State) {
    if st.initialized then st
    else
      var one := Arrive(st);
      if First(st.script).fails then one
      else
        var two := Arrive(one);
        if First(one.script).fails then two
        else two.(tracked := CarryingOf(one.cluster, false) + CarryingOf(two.cluster, true), initialized := true)
  }

  /** A pass of the handler: whether it leads, whether PLM is configured, and what the graph refers to. */
  datatype Pass = Pass(leader: bool, plmEnabled: bool, desired: set<Key>)

  predicate Acts(p: Pass) {
    p.leader && p.plmEnabled
  }

  /** A pass with the orders in which its two loops visit their keys. */
  datatype Round = Round(pass: Pass, added: seq<Key>, removed: seq<Key>)

  ghost predicate Visits(order: seq<Key>, keys: set<Key>) {
    NoDuplicates(order) && Elements(order) == keys
  }

  ghost predicate Possible(st: State, r: Round) {
    Acts(r.pass) && InitializeOf(st).initialized ==>
      && Visits(r.added, r.pass.desired)
      && Visits(r.removed, AddAllOf(InitializeOf(st), r.added).tracked)
  }

  ghost function RoundOf(st: State, r: Round): (e: State) {
    if !Acts(r.pass) then st
    else
      var ready := InitializeOf(st);
      if !ready.initialized then ready else RemoveAllOf(AddAllOf(ready, r.added), r.removed, r.pass.desired)
  }

  ghost predicate PossibleRun(st: State, rounds: seq<Round>) {
    rounds != [] ==>
      PossibleRun(st, rounds[..|rounds| - 1]) && Possible(RunOf(st, rounds[..|rounds| - 1]), rounds[|rounds| - 1])
  }

  ghost function RunOf(st: State, rounds: seq<Round>): (e: State) {
    if rounds == [] then st else RoundOf(RunOf(st, rounds[..|rounds| - 1]), rounds[|rounds| - 1])
  }

  // ---- Where the set and the cluster disagree ----

  /** Before initialization nothing is claimed; from then on the set and the cluster disagree exactly on the doubtful
      resources. */
  ghost predicate InAgreement(st: State) {
    && (st.initialized ==> forall k :: k !in st.doubtful <==> (k in st.tracked <==> k in Carrying(st.cluster)))
    && (!st.initialized ==> st.doubtful == {})
  }

  lemma PatchEffect(st: State, key: Key, add: bool)
    requires key in st.cluster && st.cluster[key] != add
    ensures var r := PatchOf(st, key, add);
            && r.after.tracked == st.tracked && r.after.initialized == st.initialized
            && (r.reconciled <==> !r.failed)
            && (r.reconciled ==> r.after.doubtful == st.doubtful - {key} &&
                                 Carrying(r.after.cluster) == Carried(Carrying(st.cluster), key, add))
            && (r.failed ==> Unchanged(st, r.after) || Lost(st, r.after, key, add))
  {
    OthersKeepCarrying(st.cluster, First(st.script).others);
    CarryingUpdate(Arrive(st).cluster, key, add);
  }

  function Carried(carrying: set<Key>, key: Key, add: bool): (r: set<Key>) {
    if add then carrying + {key} else carrying - {key}
  }

  ghost predicate Unchanged(st: State, after: State) {
    Carrying(after.cluster) == Carrying(st.cluster) && after.doubtful == st.doubtful
  }

  /** The answer to a Patch was lost: the finalizer did change, and the resource is in doubt. */
  ghost predicate Lost(st: State, after: State, key: Key, add: bool) {
    && (key in Carrying(st.cluster) <==> !add)
    && Carrying(after.cluster) == Carried(Carrying(st.cluster), key, add) && after.doubtful == st.doubtful + {key}
  }

  lemma UpdateEffect(st: State, key: Key, add: bool)
    ensures var r := UpdateOf(st, key, add);
            && r.after.tracked == st.tracked && r.after.initialized == st.initialized
            && (r.reconciled ==> !r.failed && Carrying(r.after.cluster) == Carried(Carrying(st.cluster), key, add))
            && (!r.failed ==> r.after.doubtful == st.doubtful - {key})
            && (!r.failed && !r.reconciled ==>
                  Carrying(r.after.cluster) == Carrying(st.cluster) && key !in Carrying(st.cluster))
            && (r.failed ==> Unchanged(st, r.after) || Lost(st, r.after, key, add))
  {
    OthersKeepCarrying(st.cluster, First(st.script).others);
    var at := Arrive(st);
    if key in at.cluster && at.cluster[key] != add { PatchEffect(at, key, add); }
  }

  /** A call creates no resource and changes no other. */
  lemma UpdateTouchesOnly(st: State, key: Key, add: bool)
    ensures var after := UpdateOf(st, key, add).after.cluster;
            SameBut(after, Arrive(st).cluster, key) || SameBut(after, Arrive(Arrive(st)).cluster, key)
  {
  }

  ghost predicate SameBut(c: Cluster, d: Cluster, key: Key) {
    c.Keys == d.Keys && forall k :: k in c && k != key ==> c[k] == d[k]
  }

  /** An answer that is not lost puts nothing in doubt and, if it reports a failure, nothing was changed; past the end
      of the script every call succeeds. */
  lemma FailureChangesNothing(st: State, key: Key, add: bool)
    requires NoneLost(st.script)
    ensures UpdateOf(st, key, add).after.doubtful <= st.doubtful
    ensures var r := UpdateOf(st, key, add);
            r.failed ==> r.after.cluster == Arrive(st).cluster || r.after.cluster == Arrive(Arrive(st)).cluster
    ensures st.script == [] ==> !UpdateOf(st, key, add).failed
  {
    assert !(First(st.script).fails && First(st.script).applied);
    assert !(First(Rest(st.script)).fails && First(Rest(st.script)).applied);
  }

  lemma AddKeeps(st: State, key: Key)
    requires InAgreement(st) && st.initialized
    ensures InAgreement(AddOf(st, key)) && AddOf(st, key).initialized
    ensures forall k :: k != key || k in st.tracked ==> SameAt(st, AddOf(st, key), k)
  {
    UpdateEffect(st, key, true);
  }

  lemma RemoveKeeps(st: State, key: Key, desired: set<Key>)
    requires InAgreement(st) && st.initialized
    ensures InAgreement(RemoveOf(st, key, desired)) && RemoveOf(st, key, desired).initialized
    ensures forall k :: k != key || k in desired || k !in st.tracked ==> SameAt(st, RemoveOf(st, key, desired), k)
  {
    UpdateEffect(st, key, false);
  }

  /** One resource as the handler and the cluster have it. */
  ghost predicate SameAt(st: State, after: State, k: Key) {
    (k in after.tracked <==> k in st.tracked) && (k in Carrying(after.cluster) <==> k in Carrying(st.cluster))
  }

  lemma {:induction false} AddAllKeeps(st: State, order: seq<Key>)
    requires InAgreement(st) && st.initialized
    ensures InAgreement(AddAllOf(st, order)) && AddAllOf(st, order).initialized
    ensures forall k :: k !in order || k in st.tracked ==> SameAt(st, AddAllOf(st, order), k)
  {
    if order != [] {
      var init := order[..|order| - 1];
      AddAllKeeps(st, init);
      AddKeeps(AddAllOf(st, init), order[|order| - 1]);
      forall k | k !in order || k in st.tracked ensures SameAt(st, AddAllOf(st, order), k) {
        assert k !in init || k in st.tracked;
        assert SameAt(st, AddAllOf(st, init), k) && SameAt(AddAllOf(st, init), AddAllOf(st, order), k);
      }
    }
  }

  lemma {:induction false} RemoveAllKeeps(st: State, order: seq<Key>, desired: set<Key>)
    requires InAgreement(st) && st.initialized
    ensures InAgreement(RemoveAllOf(st, order, desired)) && RemoveAllOf(st, order, desired).initialized
    ensures forall k :: k in desired || k !in st.tracked ==> SameAt(st, RemoveAllOf(st, order, desired), k)
  {
    if order != [] {
      var init := order[..|order| - 1];
      RemoveAllKeeps(st, init, desired);
      RemoveKeeps(RemoveAllOf(st, init, desired), order[|order| - 1], desired);
      forall k | k in desired || k !in st.tracked ensures SameAt(st, RemoveAllOf(st, order, desired), k) {
        assert SameAt(st, RemoveAllOf(st, init, desired), k);
        assert SameAt(RemoveAllOf(st, init, desired), RemoveAllOf(st, order, desired), k);
      }
    }
  }

  lemma InitializeKeeps(st: State)
    requires InAgreement(st)
    ensures InAgreement(InitializeOf(st)) && InitializeOf(st).doubtful == st.doubtful
    ensures Carrying(InitializeOf(st).cluster) == Carrying(st.cluster)
  {
    OthersKeepCarrying(st.cluster, First(st.script).others);
    var one := Arrive(st);
    OthersKeepCarrying(one.cluster, First(one.script).others);
  }

  /** One pass, whatever fails, whatever is lost and whoever interferes: the set and the cluster disagree exactly on
      the doubtful resources, and a resource that is on track exactly if it is desired is left as it is. */
  lemma RoundKeeps(st: State, r: Round)
    requires InAgreement(st) && Possible(st, r)
    ensures InAgreement(RoundOf(st, r)) && (st.initialized ==> RoundOf(st, r).initialized)
    ensures forall k :: st.initialized && (Acts(r.pass) ==> (k in r.pass.desired <==> k in st.tracked)) ==>
              SameAt(st, RoundOf(st, r), k)
  {
    if Acts(r.pass) {
      InitializeKeeps(st);
      var ready := InitializeOf(st);
      if ready.initialized {
        var added := AddAllOf(ready, r.added);
        AddAllKeeps(ready, r.added);
        RemoveAllKeeps(added, r.removed, r.pass.desired);
        forall k | st.initialized && (k in r.pass.desired <==> k in st.tracked) ensures SameAt(st, RoundOf(st, r), k) {
          assert k in r.added <==> k in Elements(r.added);
          assert SameAt(st, added, k) && SameAt(added, RoundOf(st, r), k);
        }
      }
    }
  }

  lemma {:induction false} RunKeeps(st: State, rounds: seq<Round>)
    requires InAgreement(st) && PossibleRun(st, rounds)
    ensures InAgreement(RunOf(st, rounds)) && (st.initialized ==> RunOf(st, rounds).initialized)
  {
    if rounds != [] {
      RunKeeps(st, rounds[..|rounds| - 1]);
      RoundKeeps(RunOf(st, rounds[..|rounds| - 1]), rounds[|rounds| - 1]);
    }
  }

  /** In every run of passes, with any failures, lost answers and interference: once initialized, the handler tracks
      exactly what carries the finalizer if and only if no resource is in doubt. */
  lemma AgreementIff(cluster: Cluster, script: seq<Turn>, rounds: seq<Round>)
    requires PossibleRun(State(cluster, script, {}, false, {}), rounds)
    ensures var e := RunOf(State(cluster, script, {}, false, {}), rounds);
            e.initialized ==> (e.tracked == Carrying(e.cluster) <==> e.doubtful == {})
  {
    var e := RunOf(State(cluster, script, {}, false, {}), rounds);
    RunKeeps(State(cluster, script, {}, false, {}), rounds);
    if e.initialized { AgreedSets(e); }
  }

  lemma AgreedSets(st: State)
    requires InAgreement(st) && st.initialized
    ensures st.tracked == Carrying(st.cluster) <==> st.doubtful == {}
  {
    if st.tracked == Carrying(st.cluster) {
      forall k ensures k !in st.doubtful { }
    }
  }

  lemma RoundAgrees(st: State)
    requires InAgreement(st)
    ensures st.initialized ==> (st.tracked == Carrying(st.cluster) <==> st.doubtful == {})
  {
    if st.initialized { AgreedSets(st); }
  }

  // ---- The two loops, on sets ----

  datatype Sets = Sets(tracked: set<Key>, carrying: set<Key>, doubtful: set<Key>, existing: set<Key>, lasting: set<Key>)

  /** What visiting the keys in `done` did, if nothing disturbed it and if no call failed. */
  ghost predicate Added(was: Sets, now: Sets, done: set<Key>, calm: bool, sound: bool) {
    && was.tracked <= now.tracked <= was.tracked + done
    && (calm ==> now.tracked == was.tracked + done * now.existing)
    && (calm ==> now.carrying == was.carrying + (done * now.existing - was.tracked))
    && (sound ==> done * now.lasting <= now.tracked)
    && (sound ==> now.doubtful == was.doubtful - (done - was.tracked))
  }

  lemma AddedOneMore(
      was: Sets, mid: Sets, now: Sets, done: set<Key>, key: Key, midCalm: bool, midSound: bool, calm: bool, sound: bool)
    requires Added(was, mid, done, midCalm, midSound) && key !in done
    requires Added(mid, now, {key}, calm, sound)
    requires (calm ==> midCalm && now.existing == mid.existing) && (sound ==> midSound) && now.lasting <= mid.lasting
    ensures Added(was, now, done + {key}, calm, sound)
  {
    assert key in mid.tracked <==> key in was.tracked;
  }

  ghost predicate Removed(was: Sets, now: Sets, done: set<Key>, desired: set<Key>, calm: bool, sound: bool) {
    && was.tracked - (done - desired) <= now.tracked <= was.tracked
    && (calm ==> now.carrying == was.carrying - (done - desired))
    && (sound ==> now.tracked == was.tracked - (done - desired))
    && (sound ==> now.doubtful == was.doubtful - (done - desired))
  }

  lemma RemovedOneMore(
      was: Sets, mid: Sets, now: Sets, done: set<Key>, key: Key, desired: set<Key>,
      midCalm: bool, midSound: bool, calm: bool, sound: bool)
    requires Removed(was, mid, done, desired, midCalm, midSound)
    requires Removed(mid, now, {key}, desired, calm, sound)
    requires (calm ==> midCalm) && (sound ==> midSound)
    ensures Removed(was, now, done + {key}, desired, calm, sound)
  {
  }

  // ---- What a lost answer leaves behind ----

  /** Every pass that acts wants the resource exactly if the handler tracks it at the start. */
  ghost predicate KeepsWanting(st: State, rounds: seq<Round>, k: Key) {
    forall i :: 0 <= i < |rounds| && Acts(rounds[i].pass) ==> (k in rounds[i].pass.desired <==> k in st.tracked)
  }

  /** Whatever the later calls meet: as long as no pass wants a resource that is off track, or drops one that is on
      track, nothing changes for it. So a finalizer left on an untracked resource stays as long as nobody wants the
      resource, and one missing from a tracked resource is missing as long as the resource is wanted. */
  lemma {:induction false} StaysForGood(st: State, rounds: seq<Round>, k: Key)
    requires InAgreement(st) && st.initialized && PossibleRun(st, rounds) && KeepsWanting(st, rounds, k)
    ensures SameAt(st, RunOf(st, rounds), k)
    ensures k in RunOf(st, rounds).doubtful <==> k in st.doubtful
  {
    RunKeeps(st, rounds);
    if rounds != [] {
      var before := rounds[..|rounds| - 1];
      assert forall i :: 0 <= i < |before| ==> before[i] == rounds[i];
      StaysForGood(st, before, k);
      RunKeeps(st, before);
      RoundKeeps(RunOf(st, before), rounds[|rounds| - 1]);
      assert SameAt(RunOf(st, before), RunOf(st, rounds), k);
    }
  }

  lemma AllStayForGood(st: State, rounds: seq<Round>)
    requires InAgreement(st) && PossibleRun(st, rounds)
    ensures forall k :: st.initialized && KeepsWanting(st, rounds, k) ==> SameAt(st, RunOf(st, rounds), k)
  {
    forall k | st.initialized && KeepsWanting(st, rounds, k) ensures SameAt(st, RunOf(st, rounds), k) {
      StaysForGood(st, rounds, k);
    }
  }

  lemma OneMoreRound(st: State, rounds: seq<Round>, r: Round)
    requires PossibleRun(st, rounds) && Possible(RunOf(st, rounds), r)
    ensures PossibleRun(st, rounds + [r]) && RunOf(st, rounds + [r]) == RoundOf(RunOf(st, rounds), r)
  {
    assert (rounds + [r])[..|rounds|] == rounds;
  }

  const GOOD := Turn([], false, false)
  const LOST := Turn([], true, true)

  lemma VisitsLength(order: seq<Key>, keys: set<Key>)
    requires Visits(order, keys)
    ensures |order| == |keys|
  {
    MultisetOfDistinct(order);
    assert |multiset(order)| == |order| && |multiset(keys)| == |keys|;
  }

  lemma VisitOneMore(order: seq<Key>, keys: set<Key>, k: Key)
    requires Visits(order, keys) && k !in keys
    ensures Visits(order + [k], keys + {k})
  {
    assert k !in Elements(order);
    forall x ensures x in Elements(order + [k]) <==> x in keys + {k} { assert x in order <==> x in Elements(order); }
  }

  lemma VisitsOne(order: seq<Key>, k: Key)
    requires Visits(order, {k})
    ensures order == [k]
  {
    VisitsLength(order, {k});
    assert order[0] in Elements(order);
  }

  /** A handler that has just started, in a cluster with one resource; the fourth call of its first pass, the Patch,
      takes effect and is reported to fail, and anything may happen later. */
  function Starting(k: Key, carries: bool, later: seq<Turn>): (st: State) {
    State(map[k := carries], [GOOD, GOOD, GOOD, LOST] + later, {}, false, {})
  }

  /** The state after the two lists. */
  function Listed(k: Key, carries: bool, later: seq<Turn>): (st: State) {
    State(map[k := carries], [GOOD, LOST] + later, if carries then {k} else {}, true, {})
  }

  lemma ListsAreRead(k: Key, carries: bool, later: seq<Turn>)
    ensures InitializeOf(Starting(k, carries, later)) == Listed(k, carries, later)
  {
    var st := Starting(k, carries, later);
    var c := st.cluster;
    assert st.script[1..] == [GOOD, GOOD, LOST] + later && st.script[1..][1..] == [GOOD, LOST] + later;
    assert Arrive(Arrive(st)) == st.(script := [GOOD, LOST] + later);
    assert Carrying(c) == if carries then {k} else {};
    assert CarryingOf(c, false) + CarryingOf(c, true) == Carrying(c);
  }

  lemma PatchIsLost(k: Key, carries: bool, later: seq<Turn>)
    ensures UpdateOf(Listed(k, carries, later), k, !carries)
            == Reply(State(map[k := !carries], later, if carries then {k} else {}, true, {k}), false, true)
  {
    var st := Listed(k, carries, later);
    assert st.script[1..] == [LOST] + later && ([LOST] + later)[1..] == later;
    assert Arrive(st) == st.(script := [LOST] + later);
    assert st.cluster[k := !carries] == map[k := !carries] && {} + {k} == {k};
  }

  lemma LostAddLoops(k: Key, later: seq<Turn>)
    ensures AddAllOf(Listed(k, false, later), [k]) == State(map[k := true], later, {}, true, {k})
  {
    PatchIsLost(k, false, later);
    assert [k][..0] == [];
    assert AddAllOf(Listed(k, false, later), []) == Listed(k, false, later);
  }

  /** A desired resource without the finalizer; the answer to the Patch that adds it is lost. In whatever order the
      loops run, the resource then carries the finalizer and the handler does not track it. */
  lemma LostAddIsReached(k: Key, later: seq<Turn>)
    ensures Possible(Starting(k, false, later), Round(Pass(true, true, {k}), [k], []))
    ensures forall r: Round :: r.pass == Pass(true, true, {k}) && Possible(Starting(k, false, later), r)
                        ==> RoundOf(Starting(k, false, later), r) == State(map[k := true], later, {}, true, {k})
  {
    ListsAreRead(k, false, later);
    LostAddLoops(k, later);
    var st := Starting(k, false, later);
    forall r: Round | r.pass == Pass(true, true, {k}) && Possible(st, r)
      ensures RoundOf(st, r) == State(map[k := true], later, {}, true, {k})
    {
      VisitsOne(r.added, k);
      VisitsLength(r.removed, {});
    }
    assert Elements([k]) == {k} && Elements<Key>([]) == {};
  }

  lemma LostRemovalLoops(k: Key, later: seq<Turn>)
    ensures RemoveAllOf(Listed(k, true, later), [k], {}) == State(map[k := false], later, {k}, true, {k})
  {
    PatchIsLost(k, true, later);
    assert [k][..0] == [];
    assert RemoveAllOf(Listed(k, true, later), [], {}) == Listed(k, true, later);
  }

  /** A resource with the finalizer that is not desired; the answer to the Patch that removes it is lost. The resource
      then has no finalizer and the handler tracks it. */
  lemma LostRemovalIsReached(k: Key, later: seq<Turn>)
    ensures Possible(Starting(k, true, later), Round(Pass(true, true, {}), [], [k]))
    ensures forall r: Round :: r.pass == Pass(true, true, {}) && Possible(Starting(k, true, later), r)
                        ==> RoundOf(Starting(k, true, later), r) == State(map[k := false], later, {k}, true, {k})
  {
    ListsAreRead(k, true, later);
    LostRemovalLoops(k, later);
    var st := Starting(k, true, later);
    assert AddAllOf(Listed(k, true, later), []) == Listed(k, true, later);
    forall r: Round | r.pass == Pass(true, true, {}) && Possible(st, r)
      ensures RoundOf(st, r) == State(map[k := false], later, {k}, true, {k})
    {
      VisitsLength(r.added, {});
      VisitsOne(r.removed, k);
    }
    assert Elements([k]) == {k} && Elements<Key>([]) == {};
  }

  /** From there, whatever the later calls meet: the finalizer left behind stays through any passes that do not want
      the resource, and the one that was taken away is not put back by any passes that want it. */
  lemma LostAnswersStay(k: Key, later: seq<Turn>, rounds: seq<Round>)
    ensures var left := State(map[k := true], later, {}, true, {k});
            PossibleRun(left, rounds) && (forall i :: 0 <= i < |rounds| ==> k !in rounds[i].pass.desired)
            ==> k in Carrying(RunOf(left, rounds).cluster) && k !in RunOf(left, rounds).tracked
    ensures var bare := State(map[k := false], later, {k}, true, {k});
            PossibleRun(bare, rounds) && (forall i :: 0 <= i < |rounds| ==> k in rounds[i].pass.desired)
            ==> k !in Carrying(RunOf(bare, rounds).cluster) && k in RunOf(bare, rounds).tracked
  {
    var left, bare := State(map[k := true], later, {}, true, {k}), State(map[k := false], later, {k}, true, {k});
    assert Carrying(left.cluster) == {k} && Carrying(bare.cluster) == {};
    if PossibleRun(left, rounds) && (forall i :: 0 <= i < |rounds| ==> k !in rounds[i].pass.desired) {
      StaysForGood(left, rounds, k);
    }
    if PossibleRun(bare, rounds) && (forall i :: 0 <= i < |rounds| ==> k in rounds[i].pass.desired) {
      StaysForGood(bare, rounds, k);
    }
  }

  /** What the last pass that acted wanted. */
  function LastDesired(passes: seq<Pass>): (r: Option<set<Key>>) {
    if passes == [] then None
    else if Acts(passes[|passes| - 1]) then Some(passes[|passes| - 1].desired)
    else LastDesired(passes[..|passes| - 1])
  }

  class Handler {
    var cluster: Cluster
    var script: seq<Turn>        // what the coming API calls will meet; past its end nothing happens
    var tracked: set<Key>        // finalizedAPResources
    var initialized: bool
    ghost var doubtful: set<Key> // resources whose last Patch took effect although it was reported to fail
    ghost var calm: bool         // since the pass began no call failed and nobody interfered
    ghost var sound: bool        // since the pass began no call failed
    ghost var lasting: set<Key>  // resources that were there all the time since the pass began

    constructor (cluster: Cluster, script: seq<Turn>)
      ensures this.cluster == cluster && this.script == script && tracked == {} && !initialized
      ensures doubtful == {} && Agrees() && Now() == State(cluster, script, {}, false, {})
    {
      this.cluster, this.script := cluster, script;
      tracked, initialized, calm, sound := {}, false, true, true;
      doubtful, lasting := {}, {};
    }

    ghost function Now(): (st: State)
      reads this
    {
      State(cluster, script, tracked, initialized, doubtful)
    }

    ghost function Seen(): (r: Sets)
      reads this
    {
      Sets(tracked, Carrying(cluster), doubtful, cluster.Keys, lasting)
    }

    /** Before initialization nothing is claimed; from then on the set and the cluster disagree exactly on the doubtful
        resources. */
    ghost predicate Agrees()
      reads this
    {
      InAgreement(Now())
    }

    /** What one API call, or several, may do to the ghost state. */
    twostate predicate Went()
      reads this
    {
      && (calm ==> old(calm) && cluster.Keys == old(cluster).Keys)
      && (sound ==> old(sound))
      && (calm && old(sound) ==> sound)
      && lasting <= old(lasting)
      && (old(lasting) <= old(cluster).Keys ==> lasting <= cluster.Keys)
      && (NoneLost(old(script)) ==> NoneLost(script) && doubtful <= old(doubtful))
      && (Quiet(old(script)) ==> Quiet(script) && calm == old(calm))
    }

    /** An API call reaches the server. */
    method Reach() returns (fails: bool, applied: bool)
      modifies this`cluster, this`script, this`calm, this`sound, this`lasting
      ensures Went() && Carrying(cluster) == old(Carrying(cluster))
      ensures calm ==> !fails && cluster == old(cluster)
      ensures sound ==> !fails
      ensures fails && applied ==> !NoneLost(old(script))
      ensures Now() == Arrive(old(Now()))
      ensures fails == First(old(script)).fails && applied == First(old(script)).applied
    {
      var turn := Turn([], false, false);
      if script != [] { turn, script := script[0], script[1..]; }
      OthersKeepCarrying(cluster, turn.others);
      ThroughoutIsThere(cluster, turn.others);
      lasting := lasting * Throughout(cluster, turn.others);
      cluster := InterfereAll(cluster, turn.others);
      fails, applied := turn.fails, turn.applied;
      calm := calm && turn.others == [] && !fails;
      sound := sound && !fails;
    }

    /** The Patch. A resource that others removed in between makes it fail. */
    method Patch(key: Key, add: bool) returns (failed: bool)
      requires lasting <= cluster.Keys && key in cluster
      modifies this`cluster, this`script, this`calm, this`sound, this`lasting, this`doubtful
      ensures Went()
      ensures !failed ==> doubtful == old(doubtful) - {key}
      ensures !failed ==>
                Carrying(cluster) == Carried(old(Carrying(cluster)), key, add)
      ensures failed ==>
                || (Carrying(cluster) == old(Carrying(cluster)) && doubtful == old(doubtful))
                || (Carrying(cluster) == Carried(old(Carrying(cluster)), key, add) && doubtful == old(doubtful) + {key})
      ensures calm || sound ==> !failed
      ensures Now() == PatchOf(old(Now()), key, add).after && failed == PatchOf(old(Now()), key, add).failed
    {
      var fails, applied := Reach();
      CarryingUpdate(cluster, key, add);
      if fails || key !in cluster {
        sound, calm := false, false;
        if fails && applied && key in cluster {
          cluster := cluster[key := add];
          doubtful := doubtful + {key};
        }
        return true;
      }
      cluster := cluster[key := add];
      doubtful := doubtful - {key};
      return false;
    }

    /** updateAPResourceFinalizer: Get, then Patch if the finalizer has to change. */
    method UpdateFinalizer(key: Key, add: bool) returns (reconciled: bool, failed: bool)
      requires lasting <= cluster.Keys
      modifies this`cluster, this`script, this`calm, this`sound, this`lasting, this`doubtful
      ensures Went()
      ensures failed ==> !reconciled
      ensures reconciled ==>
                Carrying(cluster) == Carried(old(Carrying(cluster)), key, add)
      ensures !failed && !reconciled ==> Carrying(cluster) == old(Carrying(cluster)) && key !in Carrying(cluster)
      ensures !failed ==> doubtful == old(doubtful) - {key}
      ensures failed ==>
                || (Carrying(cluster) == old(Carrying(cluster)) && doubtful == old(doubtful))
                || (Carrying(cluster) == Carried(old(Carrying(cluster)), key, add) && doubtful == old(doubtful) + {key})
      ensures calm ==> !failed && (reconciled <==> key in old(cluster))
      ensures sound ==> !failed && (key in lasting ==> reconciled)
      ensures Reply(Now(), reconciled, failed) == UpdateOf(old(Now()), key, add)
    {
      UpdateEffect(Now(), key, add);
      var fails, _ := Reach();
      if fails { return false, true; }
      if key !in cluster {
        doubtful := doubtful - {key};
        return false, false;
      }
      if cluster[key] == add {
        doubtful := doubtful - {key};
        return true, false;
      }
      failed := Patch(key, add);
      reconciled := !failed;
    }

    /** initializeAPResourceFinalizers: one list per kind. A kind that is not installed has no resources. */
    method Initialize() returns (failed: bool)
      requires Agrees()
      modifies this`cluster, this`script, this`calm, this`sound, this`lasting, this`tracked, this`initialized
      ensures Agrees() && Went()
      ensures failed <==> !initialized
      ensures old(initialized) ==> initialized && tracked == old(tracked)
      ensures !old(initialized) && initialized ==> tracked == Carrying(cluster)
      ensures calm ==> !failed && cluster == old(cluster)
      ensures sound ==> !failed
      ensures Now() == InitializeOf(old(Now()))
    {
      if initialized { return false; }
      var policies, logConfs;
      failed, policies := ListFinalized(false);
      if failed { return; }
      failed, logConfs := ListFinalized(true);
      if failed { return; }
      tracked, initialized := policies + logConfs, true;
    }

    method ListFinalized(logConf: bool) returns (failed: bool, found: set<Key>)
      modifies this`cluster, this`script, this`calm, this`sound, this`lasting
      ensures Went() && Carrying(cluster) == old(Carrying(cluster))
      ensures !failed ==> found == set k | k in Carrying(cluster) && k.logConf == logConf
      ensures calm ==> !failed && cluster == old(cluster)
      ensures sound ==> !failed
      ensures Now() == Arrive(old(Now())) && failed == First(old(script)).fails
    {
      var applied;
      failed, applied := Reach();
      found := {};
      var todo := set k | k in cluster && k.logConf == logConf;
      while todo != {}
        invariant todo <= set k | k in cluster && k.logConf == logConf
        invariant found == set k | k in cluster && k.logConf == logConf && k !in todo && cluster[k]
        decreases todo
      {
        var k :| k in todo;
        todo := todo - {k};
        if cluster[k] { found := found + {k}; }
      }
    }

    /** The first loop of a pass: protect what is desired and not tracked yet. */
    method AddMissing(desired: set<Key>) returns (ghost order: seq<Key>)
      requires initialized && Agrees() && lasting <= cluster.Keys
      modifies this`cluster, this`script, this`calm, this`sound, this`lasting, this`doubtful, this`tracked
      ensures Agrees() && Went() && old(tracked) <= tracked <= old(tracked) + desired
      ensures calm ==> tracked == old(tracked) + desired * cluster.Keys
      ensures calm ==> Carrying(cluster) == old(Carrying(cluster)) + (desired * cluster.Keys - old(tracked))
      ensures sound ==> desired * lasting <= tracked && doubtful == old(doubtful) - (desired - old(tracked))
      ensures Visits(order, desired) && Now() == AddAllOf(old(Now()), order)
    {
      order := [];
      var todo := desired;
      ghost var before := Seen();
      while todo != {}
        invariant todo <= desired && initialized && Agrees() && Went() && lasting <= cluster.Keys
        invariant Added(before, Seen(), desired - todo, calm, sound)
        invariant Visits(order, desired - todo) && Now() == AddAllOf(old(Now()), order)
        decreases todo
      {
        var key :| key in todo;
        VisitOneMore(order, desired - todo, key);
        ghost var done, mid := desired - todo, Seen();
        ghost var wasCalm, wasSound := calm, sound;
        todo := todo - {key};
        assert desired - todo == done + {key};
        AddOne(key);
        AddedOneMore(before, mid, Seen(), done, key, wasCalm, wasSound, calm, sound);
        assert (order + [key])[..|order|] == order;
        order := order + [key];
      }
      assert desired - todo == desired;
    }

    method AddOne(key: Key)
      requires initialized && Agrees() && lasting <= cluster.Keys
      modifies this`cluster, this`script, this`calm, this`sound, this`lasting, this`doubtful, this`tracked
      ensures Agrees() && Went() && old(tracked) <= tracked <= old(tracked) + {key}
      ensures calm ==> tracked == old(tracked) + {key} * cluster.Keys
      ensures calm ==> Carrying(cluster) == old(Carrying(cluster)) + ({key} * cluster.Keys - old(tracked))
      ensures sound ==> {key} * lasting <= tracked && doubtful == old(doubtful) - ({key} - old(tracked))
      ensures Now() == AddOf(old(Now()), key)
    {
      if key in tracked { return; }
      AddKeeps(Now(), key);
      var reconciled, failed := UpdateFinalizer(key, true);
      if failed || !reconciled { return; }
      tracked := tracked + {key};
    }

    /** The second loop: release what is tracked and no longer desired. */
    method RemoveObsolete(desired: set<Key>) returns (ghost order: seq<Key>)
      requires initialized && Agrees() && lasting <= cluster.Keys
      modifies this`cluster, this`script, this`calm, this`sound, this`lasting, this`doubtful, this`tracked
      ensures Agrees() && Went() && old(tracked) * desired <= tracked <= old(tracked)
      ensures calm ==> Carrying(cluster) == old(Carrying(cluster)) - (old(tracked) - desired)
      ensures sound ==> tracked <= desired && doubtful == old(doubtful) - (old(tracked) - desired)
      ensures Visits(order, old(tracked)) && Now() == RemoveAllOf(old(Now()), order, desired)
    {
      order := [];
      var todo := tracked;
      ghost var before := Seen();
      while todo != {}
        invariant todo <= before.tracked && initialized && Agrees() && Went() && lasting <= cluster.Keys
        invariant Removed(before, Seen(), before.tracked - todo, desired, calm, sound)
        invariant Visits(order, before.tracked - todo) && Now() == RemoveAllOf(old(Now()), order, desired)
        decreases todo
      {
        var key :| key in todo;
        VisitOneMore(order, before.tracked - todo, key);
        ghost var done, mid := before.tracked - todo, Seen();
        ghost var wasCalm, wasSound := calm, sound;
        todo := todo - {key};
        assert before.tracked - todo == done + {key};
        RemoveOne(key, desired);
        RemovedOneMore(before, mid, Seen(), done, key, desired, wasCalm, wasSound, calm, sound);
        assert (order + [key])[..|order|] == order;
        order := order + [key];
      }
      assert before.tracked - todo == before.tracked;
    }

    method RemoveOne(key: Key, desired: set<Key>)
      requires initialized && Agrees() && lasting <= cluster.Keys && key in tracked
      modifies this`cluster, this`script, this`calm, this`sound, this`lasting, this`doubtful, this`tracked
      ensures Agrees() && Went() && old(tracked) - ({key} - desired) <= tracked <= old(tracked)
      ensures calm ==> Carrying(cluster) == old(Carrying(cluster)) - ({key} - desired)
      ensures sound ==> tracked == old(tracked) - ({key} - desired) && doubtful == old(doubtful) - ({key} - desired)
      ensures Now() == RemoveOf(old(Now()), key, desired)
    {
      if key in desired { return; }
      RemoveKeeps(Now(), key, desired);
      var _, failed := UpdateFinalizer(key, false);
      if failed { return; }
      tracked := tracked - {key};
    }

    /** The two loops. */
    method Adjust(desired: set<Key>) returns (ghost added: seq<Key>, ghost removed: seq<Key>)
      requires initialized && Agrees() && lasting <= cluster.Keys
      modifies this`cluster, this`script, this`calm, this`sound, this`lasting, this`doubtful, this`tracked
      ensures Agrees() && Went()
      ensures calm && old(sound) ==> tracked == TrackedAfter(old(tracked), cluster.Keys, desired)
      ensures calm && old(sound) ==>
                Carrying(cluster) == CarryingAfter(old(tracked), old(Carrying(cluster)), cluster.Keys, desired)
      ensures sound ==> tracked <= desired && desired * lasting <= tracked
      ensures sound ==> forall k :: k in doubtful <==> k in old(doubtful) && (k in desired <==> k in old(tracked))
      ensures Visits(added, desired) && Visits(removed, AddAllOf(old(Now()), added).tracked)
      ensures Now() == RemoveAllOf(AddAllOf(old(Now()), added), removed, desired)
    {
      added := AddMissing(desired);
      ghost var more := tracked;
      removed := RemoveObsolete(desired);
      assert calm && old(sound) ==> tracked == more * desired;
      assert more - desired == old(tracked) - desired;
    }

    /** reconcileAPResourceFinalizers, one pass. Whatever fails, whatever is lost and whoever interferes, the set and
        the cluster disagree exactly on the doubtful resources. If no call fails, what is tracked is desired, every
        desired resource that is there throughout is tracked, and the doubt that remains is over the resources that are
        on track exactly if they are desired. If nobody interferes either, the sets after the pass are known exactly,
        and they are the desired resources that exist if the set agreed with the cluster before. */
    method Reconcile(leader: bool, plmEnabled: bool, desired: set<Key>) returns (ghost round: Round)
      requires Agrees()
      modifies this
      ensures Agrees() && (old(initialized) ==> initialized)
      ensures initialized ==> (tracked == Carrying(cluster) <==> doubtful == {})
      ensures NoneLost(old(script)) ==> NoneLost(script) && doubtful <= old(doubtful)
      ensures !(leader && plmEnabled) ==>
                && tracked == old(tracked) && initialized == old(initialized)
                && cluster == old(cluster) && script == old(script)
      ensures leader && plmEnabled && sound ==> initialized && tracked <= desired && desired * lasting <= tracked
      ensures leader && plmEnabled && sound ==>
                forall k :: k in doubtful <==> k in old(doubtful) && (k in desired <==> k in old(tracked))
      ensures leader && plmEnabled && calm ==>
                var was := if old(initialized) then old(tracked) else old(Carrying(cluster));
                && initialized && cluster.Keys == old(cluster).Keys
                && tracked == TrackedAfter(was, cluster.Keys, desired)
                && Carrying(cluster) == CarryingAfter(was, old(Carrying(cluster)), cluster.Keys, desired)
      ensures leader && plmEnabled && calm && old(doubtful) == {}
              ==> tracked == Carrying(cluster) == Present(desired, cluster)
      ensures leader && plmEnabled && Quiet(old(script)) ==> calm
      ensures Quiet(old(script)) ==> Quiet(script)
      ensures round.pass == Pass(leader, plmEnabled, desired)
      ensures Possible(old(Now()), round) && Now() == RoundOf(old(Now()), round)
    {
      calm, sound, lasting := true, true, cluster.Keys;
      round := Round(Pass(leader, plmEnabled, desired), [], []);
      RoundAgrees(Now());
      if !leader || !plmEnabled { return; }
      ghost var c0 := Carrying(cluster);
      var failed := Initialize();
      if failed { return; }
      ghost var was := tracked;
      assert calm ==> Carrying(cluster) == c0 && (!old(initialized) ==> was == c0);
      RoundAgrees(Now());
      ghost var added, removed := Adjust(desired);
      round := Round(Pass(leader, plmEnabled, desired), added, removed);
      RoundAgrees(Now());
      assert Carrying(old(cluster)) <= old(cluster).Keys;
      PassConvergesIff(was, c0, old(cluster).Keys, desired);
    }

    /** Any number of passes, leading or not, with any scripts and any desired sets: the set is what the cluster
        carries exactly if no resource is in doubt, so always without lost answers; a resource that every acting pass
        wants exactly if it is on track stays as it is; and if nothing disturbs the passes, the set and the cluster are
        what the last pass that acted wanted and found. */
    method ReconcileAll(passes: seq<Pass>) returns (ghost rounds: seq<Round>)
      requires Agrees()
      modifies this
      ensures Agrees() && (old(initialized) ==> initialized)
      ensures initialized ==> (tracked == Carrying(cluster) <==> doubtful == {})
      ensures NoneLost(old(script)) && old(doubtful) == {} ==> initialized ==> tracked == Carrying(cluster)
      ensures Quiet(old(script)) && old(doubtful) == {} && LastDesired(passes).Some? ==>
                initialized && tracked == Carrying(cluster) == Present(LastDesired(passes).value, cluster)
      ensures |rounds| == |passes| && forall i :: 0 <= i < |rounds| ==> rounds[i].pass == passes[i]
      ensures PossibleRun(old(Now()), rounds) && Now() == RunOf(old(Now()), rounds)
      ensures forall k :: old(initialized) && KeepsWanting(old(Now()), rounds, k) ==> SameAt(old(Now()), Now(), k)
    {
      rounds := [];
      for i := 0 to |passes|
        invariant Agrees() && (old(initialized) ==> initialized)
        invariant NoneLost(old(script)) && old(doubtful) == {} ==> NoneLost(script) && doubtful == {}
        invariant Quiet(old(script)) ==> Quiet(script)
        invariant Quiet(old(script)) && old(doubtful) == {} && LastDesired(passes[..i]).Some? ==>
                    initialized && tracked == Carrying(cluster) == Present(LastDesired(passes[..i]).value, cluster)
        invariant |rounds| == i && forall j :: 0 <= j < i ==> rounds[j].pass == passes[j]
        invariant PossibleRun(old(Now()), rounds) && Now() == RunOf(old(Now()), rounds)
      {
        assert passes[..i + 1][..i] == passes[..i];
        ghost var round := Reconcile(passes[i].leader, passes[i].plmEnabled, passes[i].desired);
        OneMoreRound(old(Now()), rounds, round);
        rounds := rounds + [round];
      }
      assert passes[..|passes|] == passes;
      RoundAgrees(Now());
      AllStayForGood(old(Now()), rounds);
    }
  }
}
