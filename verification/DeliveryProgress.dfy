/** No push and no subscription can get stuck: from every reachable state there are steps that bring it to its end. */
module DeliveryProgress {
  import opened ConfigDelivery
  import opened PlusActions

  ghost predicate AllPush(steps: seq<Step>) {
    forall i :: 0 <= i < |steps| ==> Pushes(steps[i])
  }

  /** A push is under way and waits only for subscriptions in their message loops. */
  ghost predicate Unblocked(s: State) {
    && (s.pusher.SendingConfig? || s.pusher.SendingActions? ==> forall p :: p in s.pusher.todo ==> In(s, p, Active))
    && (s.pusher.SendingActions? ==> s.pusher.i <= |s.pusher.new_|)
    && (!s.pusher.Idle? ==> forall p :: p in s.subs && s.subs[p].registered ==> In(s, p, Active))
  }

  lemma SubStepUnblocked(s: State, step: Step)
    requires Unblocked(s) && (!s.pusher.Idle? ==> forall p :: p in s.subs ==> !Reading(s, p))
    ensures Unblocked(SubStep(s, step))
  {
  }

  lemma PushStepUnblocked(s: State, step: Step)
    requires Unblocked(s) && ListedArePast(s)
    ensures Unblocked(PushStep(s, step))
  {
  }

  lemma {:induction false} RunIsUnblocked(run: seq<Step>)
    ensures Unblocked(Run(Start(), run))
  {
    if run != [] {
      var before, last := run[..|run| - 1], run[|run| - 1];
      RunIsUnblocked(before);
      RunKeepsInvariant(before);
      var s := Run(Start(), before);
      SubStepUnblocked(s, last);
      RunListsOnlyPast(before);
      SubStepListsOnlyPast(s, last);
      PushStepUnblocked(SubStep(s, last), last);
    }
  }

  /** Delivering brings neither a new subscription nor a new phase. */
  ghost predicate SamePods(s: State, e: State) {
    && s.subs.Keys == e.subs.Keys
    && (forall p :: p in s.subs ==> s.subs[p].phase == e.subs[p].phase && s.subs[p].registered == e.subs[p].registered)
  }

  /** The current action reaches all listeners that are left. */
  lemma {:induction false} DeliverActionToAll(s: State, before: seq<Step>) returns (steps: seq<Step>)
    requires AllPush(before) && Unblocked(Run(s, before))
    requires var p := Run(s, before).pusher; p.SendingActions? && p.i < |p.new_|
    ensures AllPush(steps)
    ensures var t, e := Run(s, before), Run(s, steps);
            e.pusher == t.pusher.(todo := {}) && e.version == t.version && e.actions == t.actions && SamePods(t, e)
    decreases Run(s, before).pusher.todo
  {
    var t := Run(s, before);
    if t.pusher.todo == {} {
      steps := before;
    } else {
      var p :| p in t.pusher.todo;
      RunSnoc(s, before, DeliverAction(p));
      assert In(t, p, Active);
      steps := DeliverActionToAll(s, before + [DeliverAction(p)]);
    }
  }

  /** All actions that are left are sent, one after the other. */
  lemma {:induction false} SendActions(s: State, before: seq<Step>) returns (steps: seq<Step>)
    requires AllPush(before) && Unblocked(Run(s, before)) && Run(s, before).pusher.SendingActions?
    ensures AllPush(steps)
    ensures var t, e := Run(s, before), Run(s, steps);
            && e.pusher.SendingActions? && e.pusher.new_ == t.pusher.new_ && e.pusher.i == |t.pusher.new_|
            && e.version == t.version && e.actions == t.actions
    decreases |Run(s, before).pusher.new_| - Run(s, before).pusher.i
  {
    var t := Run(s, before);
    if t.pusher.i == |t.pusher.new_| {
      steps := before;
    } else {
      var sent := DeliverActionToAll(s, before);
      RunSnoc(s, sent, ActionSent(false));
      var e := Run(s, sent);
      assert Unblocked(Next(e, ActionSent(false)));
      steps := SendActions(s, sent + [ActionSent(false)]);
    }
  }

  lemma EndActions(s: State, before: seq<Step>) returns (steps: seq<Step>)
    requires AllPush(before) && Unblocked(Run(s, before)) && Run(s, before).pusher.SendingActions?
    ensures AllPush(steps)
    ensures var t, e := Run(s, before), Run(s, steps);
            e.pusher.Idle? && e.version == t.version && e.actions == t.pusher.new_
  {
    var sent := SendActions(s, before);
    RunSnoc(s, sent, StoreActions);
    RunSnoc(s, sent + [StoreActions], Unlock);
    steps := sent + [StoreActions] + [Unlock];
  }

  lemma EndUpstreams(s: State, before: seq<Step>) returns (steps: seq<Step>)
    requires AllPush(before) && Run(s, before).pusher.Upstreams?
    ensures AllPush(steps)
    ensures Run(s, steps) == Run(s, before).(pusher := Idle)
  {
    RunSnoc(s, before, NoUpstreams);
    RunSnoc(s, before + [NoUpstreams], Unlock);
    steps := before + [NoUpstreams] + [Unlock];
  }

  /** The files reach all listeners and the push comes to the upstreams. */
  lemma EndConfig(s: State, before: seq<Step>) returns (steps: seq<Step>)
    requires AllPush(before) && Unblocked(Run(s, before)) && Run(s, before).pusher.SendingConfig?
    ensures AllPush(steps)
    ensures var t, e := Run(s, before), Run(s, steps);
            e.pusher.Upstreams? && e.version == t.version && e.actions == t.actions && Unblocked(e)
  {
    var sent := DeliverToAll(s, before);
    RunSnoc(s, sent, ConfigSent);
    steps := sent + [ConfigSent];
  }

  /** From every reachable state the push under way can come to its end, without the help of any subscription step:
      the files it set stay, and the actions it is sending become the stored ones. */
  lemma PushCanFinish(run: seq<Step>) returns (more: seq<Step>)
    ensures AllPush(more)
    ensures var s := Run(Start(), run); var e := Run(s, more);
            && e.pusher.Idle? && e.version == s.version
            && e.actions == if s.pusher.SendingActions? then s.pusher.new_ else s.actions
  {
    var s := Run(Start(), run);
    RunIsUnblocked(run);
    more := [];
    match s.pusher
    case Idle =>
    case Holding =>
      RunSnoc(s, [], SetFiles(s.version));
      more := EndUpstreams(s, [] + [SetFiles(s.version)]);
    case SendingConfig(_) =>
      more := EndConfig(s, []);
      more := EndUpstreams(s, more);
    case Upstreams => more := EndUpstreams(s, []);
    case SendingActions(_, _, _) => more := EndActions(s, []);
    case Finished =>
      RunSnoc(s, [], Unlock);
      more := [] + [Unlock];
  }

  /** From every reachable state with the lock free for writing, any files and any actions can be pushed. */
  lemma PushCanBeMade(run: seq<Step>, v: Version, n: seq<Action>) returns (more: seq<Step>)
    requires var s := Run(Start(), run); s.pusher.Idle? && forall p :: p in s.subs ==> !Reading(s, p)
    ensures AllPush(more)
    ensures var e := Run(Run(Start(), run), more); e.pusher.Idle? && e.version == v && e.actions == n
  {
    var s := Run(Start(), run);
    RunListsOnlyPast(run);
    var files := SetNewFiles(s, v);
    RunSnoc(s, files, StartUpstreams(n));
    ActionsEqualExact(s.actions, n);
    var started := files + [StartUpstreams(n)];
    if ActionsEqual(s.actions, n) {
      RunSnoc(s, started, Unlock);
      more := started + [Unlock];
    } else {
      assert Unblocked(Run(s, started));
      more := EndActions(s, started);
    }
  }

  lemma SetNewFiles(s: State, v: Version) returns (steps: seq<Step>)
    requires s.pusher.Idle? && ListedArePast(s) && forall p :: p in s.subs ==> !Reading(s, p)
    ensures AllPush(steps)
    ensures var e := Run(s, steps); e.pusher.Upstreams? && e.version == v && e.actions == s.actions && Unblocked(e)
  {
    RunSnoc(s, [], Lock);
    RunSnoc(s, [] + [Lock], SetFiles(v));
    steps := [] + [Lock] + [SetFiles(v)];
    if v != s.version { steps := EndConfig(s, steps); }
  }

  /** A push sends only to listeners its broadcast has not reached yet, and to each of them once. */
  lemma SendsOnceToListeners(s: State, step: Step, p: Pod)
    requires p in s.subs && p in PushStep(s, step).subs && PushStep(s, step).subs[p] != s.subs[p]
    ensures s.pusher.SendingConfig? || s.pusher.SendingActions?
    ensures p in s.pusher.todo && PushStep(s, step).pusher == s.pusher.(todo := s.pusher.todo - {p})
  {
  }

  // ---- Subscriptions ----

  lemma {:induction false} RunConcat(s: State, a: seq<Step>, b: seq<Step>)
    ensures Run(s, a + b) == Run(Run(s, a), b)
  {
    if b == [] {
      assert a + b == a;
    } else {
      assert (a + b)[..|a + b| - 1] == a + b[..|b| - 1];
      RunConcat(s, a, b[..|b| - 1]);
    }
  }

  /** The stored actions that are left are sent to a new subscription. */
  lemma {:induction false} SendInitialActions(s: State, before: seq<Step>, p: Pod) returns (steps: seq<Step>)
    requires p in Run(s, before).subs && Run(s, before).subs[p].phase.Initial?
    requires Run(s, before).subs[p].phase.i <= |Run(s, before).actions|
    ensures var t, e := Run(s, before), Run(s, steps);
            && In(e, p, Initial(|t.actions|)) && e.actions == t.actions && e.version == t.version
            && e.pusher == t.pusher && e.subs[p].registered == t.subs[p].registered
    decreases |Run(s, before).actions| - Run(s, before).subs[p].phase.i
  {
    var t := Run(s, before);
    if t.subs[p].phase.i == |t.actions| {
      steps := before;
    } else {
      RunSnoc(s, before, SendInitialAction(p, false));
      steps := SendInitialActions(s, before + [SendInitialAction(p, false)], p);
    }
  }

  /** From every reachable state a subscription that holds the lock can come to its message loop. */
  lemma SubscriptionCanFinish(run: seq<Step>, p: Pod) returns (more: seq<Step>)
    requires Reading(Run(Start(), run), p)
    ensures var s := Run(Start(), run); var e := Run(s, more);
            && In(e, p, Active) && e.subs[p].registered == s.subs[p].registered && e.pusher == s.pusher
            && e.version == s.version && e.actions == s.actions && Current(e, p)
  {
    var s := Run(Start(), run);
    RunKeepsInvariant(run);
    assert ReaderOk(s, p);
    more := [];
    if s.subs[p].phase.Subscribed? {
      RunSnoc(s, [], SendInitial(p));
      more := [] + [SendInitial(p)];
    }
    more := SendInitialActions(s, more, p);
    RunConcat(Start(), run, more);
    RunKeepsInvariant(run + more);
    var u := Run(s, more);
    assert ReaderOk(u, p) && u.actions[..|u.actions|] == u.actions;
    RunSnoc(s, more, Release(p));
    more := more + [Release(p)];
  }

  lemma LockIsHeld(run: seq<Step>, p: Pod)
    requires Run(Start(), run).pusher.Idle? && p !in Run(Start(), run).subs
    ensures var s := Run(Start(), run + [Arrive(p)] + [ReadLock(p)] + [Register(p)]);
            In(s, p, Subscribed) && s.subs[p].registered && s.pusher.Idle?
  {
    RunSnoc(Start(), run, Arrive(p));
    RunSnoc(Start(), run + [Arrive(p)], ReadLock(p));
    RunSnoc(Start(), run + [Arrive(p)] + [ReadLock(p)], Register(p));
  }

  /** From every reachable state without a push, a new pod can subscribe, be listed, and come to its message loop with
      the files and the actions of the last push. */
  lemma PodCanSubscribe(run: seq<Step>, p: Pod) returns (more: seq<Step>)
    requires Run(Start(), run).pusher.Idle? && p !in Run(Start(), run).subs
    ensures In(Run(Start(), run + more), p, Active) && UpToDate(run + more, p)
  {
    var held := run + [Arrive(p)] + [ReadLock(p)] + [Register(p)];
    LockIsHeld(run, p);
    var rest := SubscriptionCanFinish(held, p);
    RunConcat(Start(), held, rest);
    more := [Arrive(p), ReadLock(p), Register(p)] + rest;
    assert run + more == held + rest;
    CurrentMeansUpToDate(run + more, p);
  }
}
