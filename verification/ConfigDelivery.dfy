/** How a configuration reaches the data plane pods of one deployment. A push holds the deployment's file
    lock for writing, changes the stored files and Plus actions and broadcasts them to the listeners; a
    new subscription holds it for reading while it subscribes and sends the stored configuration itself.
    The broadcaster enters a subscription into its listener table in a goroutine of its own, so that
    registration is a step apart from the return of Subscribe. */
module ConfigDelivery {
  import opened PlusActions

  type Pod = nat
  type Version = string

  /** What an action overwrites: the server list of one HTTP or stream upstream. */
  datatype Target = Http(name: string) | Stream(name: string) | Other

  function TargetOf(a: Action): (r: Target) {
    match a
    case UpdateHttp(n, _) => Http(n)
    case UpdateStream(n, _) => Stream(n)
    case OtherAction(_) => Other
  }

  type Sent = map<Target, Action>

  /** The last action per upstream after sending the list in order. */
  function Effective(actions: seq<Action>): (r: Sent) {
    if actions == [] then map[]
    else Effective(actions[..|actions| - 1])[TargetOf(actions[|actions| - 1]) := actions[|actions| - 1]]
  }

  datatype Phase =
    | Connecting       // waiting for the read lock
    | Subscribed       // read lock held, Subscribe has returned
    | Initial(i: nat)  // read lock held, files sent, i Plus actions sent
    | Active           // read lock released, in the message loop
    | Exited

  /** A subscription: whether the broadcaster lists it, and what was last sent to its agent. */
  datatype Sub = Sub(phase: Phase, registered: bool, version: Version, sent: Sent)

  datatype Pusher =
    | Idle                                                  // nobody holds the write lock
    | Holding
    | SendingConfig(todo: set<Pod>)                         // listeners the broadcast has not reached yet
    | Upstreams
    | SendingActions(new_: seq<Action>, i: nat, todo: set<Pod>)
    | Finished

  datatype State = State(version: Version, actions: seq<Action>, subs: map<Pod, Sub>, pusher: Pusher)

  datatype Step =
    | Arrive(p: Pod) | ReadLock(p: Pod) | Register(p: Pod) | SendInitial(p: Pod)
    | SendInitialAction(p: Pod, retry: bool) | Release(p: Pod) | Exit(p: Pod)
    | Lock | SetFiles(v: Version) | DeliverConfig(p: Pod) | ConfigSent
    | NoUpstreams | StartUpstreams(actions: seq<Action>) | DeliverAction(p: Pod) | ActionSent(retry: bool)
    | StoreActions | Unlock

  function Start(): (r: State) {
    State("", [], map[], Idle)
  }

  predicate In(s: State, p: Pod, ph: Phase) {
    p in s.subs && s.subs[p].phase == ph
  }

  predicate Reading(s: State, p: Pod) {
    p in s.subs && (s.subs[p].phase.Subscribed? || s.subs[p].phase.Initial?)
  }

  /** The listener table that a broadcast copies when it starts. */
  function Listeners(s: State): (r: set<Pod>) {
    set p | p in s.subs && s.subs[p].registered
  }

  function Set(s: State, p: Pod, sub: Sub): (r: State) {
    s.(subs := s.subs[p := sub])
  }

  /** The subscriber's side. A step that is not enabled leaves the state as it is. */
  function SubStep(s: State, step: Step): (r: State) {
    match step
    case Arrive(p) => if p in s.subs then s else Set(s, p, Sub(Connecting, false, "", map[]))
    case ReadLock(p) =>
      if s.pusher.Idle? && In(s, p, Connecting) then Set(s, p, s.subs[p].(phase := Subscribed)) else s
    case Register(p) =>
      if Reading(s, p) || In(s, p, Active) then Set(s, p, s.subs[p].(registered := true)) else s
    case SendInitial(p) =>
      if In(s, p, Subscribed) then Set(s, p, s.subs[p].(phase := Initial(0), version := s.version)) else s
    case SendInitialAction(p, retry) =>
      if p in s.subs && s.subs[p].phase.Initial? && s.subs[p].phase.i < |s.actions| then
        var sub, a := s.subs[p], s.actions[s.subs[p].phase.i];
        var phase := if retry then sub.phase else Initial(sub.phase.i + 1);
        Set(s, p, sub.(phase := phase, sent := sub.sent[TargetOf(a) := a]))
      else s
    case Release(p) =>
      if In(s, p, Initial(|s.actions|)) then Set(s, p, s.subs[p].(phase := Active)) else s
    case Exit(p) =>
      if p !in s.subs then s
      else
        var t := Set(s, p, s.subs[p].(phase := Exited, registered := false));
        (match s.pusher
         case SendingConfig(todo) => t.(pusher := SendingConfig(todo - {p}))
         case SendingActions(n, i, todo) => t.(pusher := SendingActions(n, i, todo - {p}))
         case _ => t)
    case _ => s
  }

  /** The pusher's side: UpdateConfig, then UpdateUpstreamServers, under the write lock. */
  function PushStep(s: State, step: Step): (r: State) {
    match step
    case Lock => if s.pusher.Idle? && (forall p :: p in s.subs ==> !Reading(s, p)) then s.(pusher := Holding) else s
    case SetFiles(v) =>
      if !s.pusher.Holding? then s
      else if v == s.version then s.(pusher := Upstreams)
      else s.(version := v, pusher := SendingConfig(Listeners(s)))
    case DeliverConfig(p) =>
      if s.pusher.SendingConfig? && p in s.pusher.todo && In(s, p, Active) then
        Set(s, p, s.subs[p].(version := s.version)).(pusher := SendingConfig(s.pusher.todo - {p}))
      else s
    case ConfigSent => if s.pusher == SendingConfig({}) then s.(pusher := Upstreams) else s
    case NoUpstreams => if s.pusher.Upstreams? then s.(pusher := Finished) else s
    case StartUpstreams(n) =>
      if !s.pusher.Upstreams? then s
      else if ActionsEqual(s.actions, n) then s.(pusher := Finished)
      else s.(pusher := SendingActions(n, 0, Listeners(s)))
    case DeliverAction(p) =>
      if s.pusher.SendingActions? && p in s.pusher.todo && In(s, p, Active) && s.pusher.i < |s.pusher.new_| then
        var a := s.pusher.new_[s.pusher.i];
        var t := Set(s, p, s.subs[p].(sent := s.subs[p].sent[TargetOf(a) := a]));
        t.(pusher := s.pusher.(todo := s.pusher.todo - {p}))
      else s
    case ActionSent(retry) =>
      if s.pusher.SendingActions? && s.pusher.todo == {} && s.pusher.i < |s.pusher.new_| then
        s.(pusher := SendingActions(s.pusher.new_, if retry then s.pusher.i else s.pusher.i + 1, Listeners(s)))
      else s
    case StoreActions =>
      if s.pusher.SendingActions? && s.pusher.i == |s.pusher.new_| then
        s.(actions := s.pusher.new_, pusher := Finished)
      else s
    case Unlock => if s.pusher.Finished? then s.(pusher := Idle) else s
    case _ => s
  }

  function Next(s: State, step: Step): (r: State) {
    PushStep(SubStep(s, step), step)
  }

  function Run(s: State, steps: seq<Step>): (r: State) {
    if steps == [] then s else Next(Run(s, steps[..|steps| - 1]), steps[|steps| - 1])
  }

  // ---- What a subscription holds ----

  ghost predicate Covers(sent: Sent, actions: seq<Action>) {
    forall t :: t in Effective(actions) ==> t in sent && sent[t] == Effective(actions)[t]
  }

  /** The agent was last sent the deployment's current files, and for each upstream with a stored action
      the last action sent is the stored one. */
  ghost predicate Current(s: State, p: Pod) {
    p in s.subs && s.subs[p].version == s.version && Covers(s.subs[p].sent, s.actions)
  }

  /** The first `i` actions were sent, and possibly the next one too because a send is retried. */
  ghost predicate CoversUpTo(sent: Sent, actions: seq<Action>, i: nat)
    requires i <= |actions|
  {
    Covers(sent, actions[..i]) || (i < |actions| && Covers(sent, actions[..i + 1]))
  }

  ghost predicate PodOk(s: State, p: Pod)
    requires p in s.subs
  {
    match s.pusher
    case SendingConfig(todo) => (p in todo || s.subs[p].version == s.version) && Covers(s.subs[p].sent, s.actions)
    case SendingActions(n, i, todo) =>
      && s.subs[p].version == s.version && i <= |n|
      && (if p in todo then CoversUpTo(s.subs[p].sent, n, i) else i < |n| && Covers(s.subs[p].sent, n[..i + 1]))
    case _ => Current(s, p)
  }

  ghost predicate ReaderOk(s: State, p: Pod)
    requires p in s.subs
  {
    s.subs[p].phase.Initial? ==>
      s.subs[p].phase.i <= |s.actions| && s.subs[p].version == s.version &&
      CoversUpTo(s.subs[p].sent, s.actions, s.subs[p].phase.i)
  }

  /** The invariant, for the subscriptions `T` that were listed in time. */
  ghost predicate Invariant(s: State, T: set<Pod>) {
    && (!s.pusher.Idle? ==> forall p :: p in s.subs ==> !Reading(s, p))
    && (forall p :: p in s.subs ==> ReaderOk(s, p))
    && (forall p :: p in T ==> p in s.subs && s.subs[p].phase.Active? && s.subs[p].registered)
    && (forall p :: p in T ==> PodOk(s, p))
  }

  /** A broadcast is under way; its listeners were copied when it started. */
  predicate Sending(s: State) {
    s.pusher.SendingConfig? || s.pusher.SendingActions?
  }

  /** A subscription joins `T` if it is listed when it releases the lock, or later while nothing is being broadcast
      and it has not missed anything yet; it leaves `T` when it exits. */
  ghost function Timely(T: set<Pod>, s: State, step: Step): (r: set<Pod>) {
    match step
    case Release(p) => if In(s, p, Initial(|s.actions|)) && s.subs[p].registered then T + {p} else T
    case Register(p) => if In(s, p, Active) && !Sending(s) && Current(s, p) then T + {p} else T
    case Exit(p) => T - {p}
    case _ => T
  }

  ghost function TimelyAfter(steps: seq<Step>): (r: set<Pod>) {
    if steps == [] then {}
    else
      var before := steps[..|steps| - 1];
      Timely(TimelyAfter(before), Run(Start(), before), steps[|steps| - 1])
  }

  lemma SendExtends(sent: Sent, actions: seq<Action>, i: nat)
    requires i < |actions| && CoversUpTo(sent, actions, i)
    ensures Covers(sent[TargetOf(actions[i]) := actions[i]], actions[..i + 1])
  {
    assert actions[..i + 1][..i] == actions[..i];
  }

  /** Changing one subscription keeps the invariant if the changed one is in order. */
  lemma SetKeeps(s: State, T: set<Pod>, p: Pod, sub: Sub, T': set<Pod>)
    requires Invariant(s, T) && T' <= T + {p}
    requires sub.phase.Subscribed? || sub.phase.Initial? ==> s.pusher.Idle?
    requires ReaderOk(Set(s, p, sub), p)
    requires p in T' ==> sub.phase.Active? && sub.registered && PodOk(Set(s, p, sub), p)
    ensures Invariant(Set(s, p, sub), T')
  {
    var t := Set(s, p, sub);
    forall q | q in t.subs ensures ReaderOk(t, q) {
      assert q != p ==> ReaderOk(s, q);
    }
    forall q | q in T' ensures PodOk(t, q) {
      assert q != p ==> PodOk(s, q);
    }
    forall q | q in t.subs ensures !s.pusher.Idle? ==> !Reading(t, q) {
      assert q != p ==> Reading(t, q) == Reading(s, q);
    }
  }

  lemma SendInitialKeeps(s: State, T: set<Pod>, p: Pod)
    requires Invariant(s, T) && In(s, p, Subscribed)
    ensures Invariant(SubStep(s, SendInitial(p)), T)
  {
    assert Reading(s, p) && s.actions[..0] == [];
    SetKeeps(s, T, p, s.subs[p].(phase := Initial(0), version := s.version), T);
  }

  lemma SendInitialActionKeeps(s: State, T: set<Pod>, p: Pod, retry: bool)
    requires Invariant(s, T) && p in s.subs && s.subs[p].phase.Initial? && s.subs[p].phase.i < |s.actions|
    ensures Invariant(SubStep(s, SendInitialAction(p, retry)), T)
  {
    var sub, a := s.subs[p], s.actions[s.subs[p].phase.i];
    assert Reading(s, p) && ReaderOk(s, p);
    SendExtends(sub.sent, s.actions, sub.phase.i);
    var phase := if retry then sub.phase else Initial(sub.phase.i + 1);
    SetKeeps(s, T, p, sub.(phase := phase, sent := sub.sent[TargetOf(a) := a]), T);
  }

  lemma ReleaseKeeps(s: State, T: set<Pod>, p: Pod)
    requires Invariant(s, T) && In(s, p, Initial(|s.actions|))
    ensures Invariant(SubStep(s, Release(p)), Timely(T, s, Release(p)))
  {
    assert Reading(s, p) && ReaderOk(s, p);
    assert s.actions[..|s.actions|] == s.actions;
    SetKeeps(s, T, p, s.subs[p].(phase := Active), Timely(T, s, Release(p)));
  }

  lemma ExitKeeps(s: State, T: set<Pod>, p: Pod)
    requires Invariant(s, T) && p in s.subs
    ensures Invariant(SubStep(s, Exit(p)), T - {p})
  {
    var t := Set(s, p, s.subs[p].(phase := Exited, registered := false));
    SetKeeps(s, T, p, t.subs[p], T - {p});
    var e := SubStep(s, Exit(p));
    forall q | q in e.subs ensures ReaderOk(e, q) {
      assert ReaderOk(t, q);
    }
    forall q | q in T - {p} ensures PodOk(e, q) {
      assert PodOk(t, q);
    }
    forall q | q in e.subs ensures !e.pusher.Idle? ==> !Reading(e, q) {
      assert Reading(e, q) == Reading(t, q);
    }
  }

  lemma SubStepKeeps(s: State, T: set<Pod>, step: Step)
    requires Invariant(s, T)
    ensures Invariant(SubStep(s, step), Timely(T, s, step))
  {
    match step
    case Arrive(p) =>
      if p !in s.subs { SetKeeps(s, T, p, Sub(Connecting, false, "", map[]), T); }
    case ReadLock(p) =>
      if s.pusher.Idle? && In(s, p, Connecting) { SetKeeps(s, T, p, s.subs[p].(phase := Subscribed), T); }
    case Register(p) =>
      if Reading(s, p) || In(s, p, Active) {
        assert ReaderOk(s, p) && (p in T ==> PodOk(s, p));
        SetKeeps(s, T, p, s.subs[p].(registered := true), Timely(T, s, step));
      }
    case SendInitial(p) =>
      if In(s, p, Subscribed) { SendInitialKeeps(s, T, p); }
    case SendInitialAction(p, retry) =>
      if p in s.subs && s.subs[p].phase.Initial? && s.subs[p].phase.i < |s.actions| {
        SendInitialActionKeeps(s, T, p, retry);
      }
    case Release(p) =>
      if In(s, p, Initial(|s.actions|)) { ReleaseKeeps(s, T, p); }
    case Exit(p) =>
      if p in s.subs { ExitKeeps(s, T, p); } else { assert T - {p} == T; }
    case _ =>
  }

  lemma DeliverActionKeeps(s: State, T: set<Pod>, p: Pod)
    requires Invariant(s, T)
    ensures Invariant(PushStep(s, DeliverAction(p)), T)
  {
    if s.pusher.SendingActions? && p in s.pusher.todo && In(s, p, Active) && s.pusher.i < |s.pusher.new_| {
      var t := PushStep(s, DeliverAction(p));
      if p in T {
        assert PodOk(s, p);
        SendExtends(s.subs[p].sent, s.pusher.new_, s.pusher.i);
      }
      forall q | q in T ensures PodOk(t, q) { assert PodOk(s, q); }
      forall q | q in t.subs ensures ReaderOk(t, q) && !Reading(t, q) { assert ReaderOk(s, q); }
    }
  }

  lemma ActionsKeep(s: State, T: set<Pod>, step: Step)
    requires Invariant(s, T)
    requires step.ActionSent? || step.StoreActions?
    ensures Invariant(PushStep(s, step), T)
  {
    var t := PushStep(s, step);
    if s.pusher.SendingActions? {
      assert s.pusher.new_[..|s.pusher.new_|] == s.pusher.new_;
      forall q | q in T ensures PodOk(t, q) { assert PodOk(s, q); }
      forall q | q in t.subs ensures ReaderOk(t, q) && !Reading(t, q) { assert ReaderOk(s, q) && !Reading(s, q); }
    }
  }

  lemma PushStepKeeps(s: State, T: set<Pod>, step: Step)
    requires Invariant(s, T)
    ensures Invariant(PushStep(s, step), T)
  {
    match step
    case StartUpstreams(n) =>
      ActionsEqualExact(s.actions, n);
      assert n[..0] == [];
    case DeliverAction(p) =>
      DeliverActionKeeps(s, T, p);
    case ActionSent(_) =>
      ActionsKeep(s, T, step);
    case StoreActions =>
      ActionsKeep(s, T, step);
    case _ =>
  }

  lemma NextKeeps(s: State, T: set<Pod>, step: Step)
    requires Invariant(s, T)
    ensures Invariant(Next(s, step), Timely(T, s, step))
  {
    SubStepKeeps(s, T, step);
    PushStepKeeps(SubStep(s, step), Timely(T, s, step), step);
  }

  lemma {:induction false} RunKeepsInvariant(steps: seq<Step>)
    ensures Invariant(Run(Start(), steps), TimelyAfter(steps))
  {
    if steps != [] {
      RunKeepsInvariant(steps[..|steps| - 1]);
      NextKeeps(Run(Start(), steps[..|steps| - 1]), TimelyAfter(steps[..|steps| - 1]), steps[|steps| - 1]);
    }
  }

  // ---- What was pushed, read off the run ----

  /** The files of the last push. */
  function LastFiles(steps: seq<Step>): (v: Version) {
    if steps == [] then ""
    else
      var before, last := steps[..|steps| - 1], steps[|steps| - 1];
      if last.SetFiles? && Run(Start(), before).pusher.Holding? then last.v else LastFiles(before)
  }

  /** The Plus actions of the last push that had any to send, or found the same ones stored. */
  function LastActions(steps: seq<Step>): (actions: seq<Action>) {
    if steps == [] then []
    else
      var before, last := steps[..|steps| - 1], steps[|steps| - 1];
      if last.StartUpstreams? && Run(Start(), before).pusher.Upstreams? then last.actions else LastActions(before)
  }

  /** What is stored is what was pushed last: the files at once, the actions when they have been sent. */
  lemma {:induction false} StoredIsPushed(steps: seq<Step>)
    ensures Run(Start(), steps).version == LastFiles(steps)
    ensures Meant(Run(Start(), steps)) == LastActions(steps)
  {
    if steps != [] {
      var before, last := steps[..|steps| - 1], steps[|steps| - 1];
      StoredIsPushed(before);
      var s := Run(Start(), before);
      SubStepStores(s, last);
      PushStepStores(SubStep(s, last), last);
    }
  }

  /** What the list being sent is, or else the stored one. */
  function Meant(s: State): (actions: seq<Action>) {
    if s.pusher.SendingActions? then s.pusher.new_ else s.actions
  }

  /** Only setting the files changes them, and only starting the upstreams what the actions are to be. */
  lemma PushStepStores(s: State, step: Step)
    ensures PushStep(s, step).version == if step.SetFiles? && s.pusher.Holding? then step.v else s.version
    ensures Meant(PushStep(s, step)) == if step.StartUpstreams? && s.pusher.Upstreams? then step.actions else Meant(s)
  {
    if step.StartUpstreams? { ActionsEqualExact(s.actions, step.actions); }
  }

  /** A subscription's step leaves the stored configuration and the push under way alone. */
  lemma SubStepStores(s: State, step: Step)
    ensures var t := SubStep(s, step);
            && t.version == s.version && t.actions == s.actions
            && (t.pusher == s.pusher
                || (s.pusher.SendingConfig? && t.pusher.SendingConfig?)
                || (s.pusher.SendingActions? && t.pusher.SendingActions? && t.pusher.new_ == s.pusher.new_))
            && (Pushes(step) ==> t == s)
  {
  }

  /** No later action of the list is for the same upstream. */
  predicate LastForUpstream(actions: seq<Action>, i: nat)
    requires i < |actions|
  {
    forall j :: i < j < |actions| ==>
      && !(actions[i].UpdateHttp? && actions[j].UpdateHttp? && actions[j].name == actions[i].name)
      && !(actions[i].UpdateStream? && actions[j].UpdateStream? && actions[j].name == actions[i].name)
  }

  /** For every upstream of the list, the last action sent for it is the last one of the list. */
  ghost predicate HoldsLatest(sent: Sent, actions: seq<Action>) {
    forall i :: 0 <= i < |actions| && LastForUpstream(actions, i) ==>
      && (actions[i].UpdateHttp? ==> Http(actions[i].name) in sent && sent[Http(actions[i].name)] == actions[i])
      && (actions[i].UpdateStream? ==> Stream(actions[i].name) in sent && sent[Stream(actions[i].name)] == actions[i])
  }

  lemma {:induction false} EffectiveIsLatest(actions: seq<Action>, i: nat)
    requires i < |actions| && LastForUpstream(actions, i) && !actions[i].OtherAction?
    ensures TargetOf(actions[i]) in Effective(actions) && Effective(actions)[TargetOf(actions[i])] == actions[i]
  {
    if i < |actions| - 1 {
      var init := actions[..|actions| - 1];
      assert LastForUpstream(init, i);
      EffectiveIsLatest(init, i);
    }
  }

  lemma CoversMeansLatest(sent: Sent, actions: seq<Action>)
    requires Covers(sent, actions)
    ensures HoldsLatest(sent, actions)
  {
    forall i | 0 <= i < |actions| && LastForUpstream(actions, i) && !actions[i].OtherAction?
      ensures TargetOf(actions[i]) in sent && sent[TargetOf(actions[i])] == actions[i]
    {
      EffectiveIsLatest(actions, i);
    }
  }

  /** The agent was last sent the files pushed last and, for each upstream, the action pushed last. */
  ghost predicate UpToDate(steps: seq<Step>, p: Pod) {
    var s := Run(Start(), steps);
    p in s.subs && s.subs[p].version == LastFiles(steps) && HoldsLatest(s.subs[p].sent, LastActions(steps))
  }

  lemma CurrentMeansUpToDate(steps: seq<Step>, p: Pod)
    requires Run(Start(), steps).pusher.Idle? && Current(Run(Start(), steps), p)
    ensures UpToDate(steps, p)
  {
    StoredIsPushed(steps);
    CoversMeansLatest(Run(Start(), steps).subs[p].sent, LastActions(steps));
  }

  /** In every interleaving: whenever no push holds the lock, every subscription that the broadcaster listed
      before it released the lock, or before the next broadcast it would have missed, was last sent the files
      pushed last and, for each upstream, the Plus action pushed last. */
  lemma NoMissedConfiguration(steps: seq<Step>, p: Pod)
    requires Run(Start(), steps).pusher.Idle? && p in TimelyAfter(steps)
    ensures In(Run(Start(), steps), p, Active) && Current(Run(Start(), steps), p)
    ensures UpToDate(steps, p)
  {
    RunKeepsInvariant(steps);
    CurrentMeansUpToDate(steps, p);
  }

  /** A run in which a subscription is effective by the time it releases the lock. */
  ghost predicate Prompt(steps: seq<Step>) {
    steps == [] ||
    (Prompt(steps[..|steps| - 1]) &&
     (steps[|steps| - 1].Release? ==>
        var s := Run(Start(), steps[..|steps| - 1]);
        var p := steps[|steps| - 1].p;
        In(s, p, Initial(|s.actions|)) ==> s.subs[p].registered))
  }

  lemma BecomesActive(s: State, step: Step, p: Pod)
    requires In(Next(s, step), p, Active)
    ensures step != Exit(p)
    ensures In(s, p, Active) || (step == Release(p) && In(s, p, Initial(|s.actions|)))
  {
    assert In(SubStep(s, step), p, Active);
  }

  lemma {:induction false} PromptMeansTimely(steps: seq<Step>)
    requires Prompt(steps)
    ensures forall p :: In(Run(Start(), steps), p, Active) ==> p in TimelyAfter(steps)
  {
    if steps != [] {
      var before := steps[..|steps| - 1];
      PromptMeansTimely(before);
      forall p | In(Run(Start(), steps), p, Active) ensures p in TimelyAfter(steps) {
        BecomesActive(Run(Start(), before), steps[|steps| - 1], p);
      }
    }
  }

  /** If registration is prompt, every subscription past its initial configuration is current whenever no
      push holds the lock. */
  lemma NoMissedConfigurationIfPrompt(steps: seq<Step>, p: Pod)
    requires Prompt(steps) && Run(Start(), steps).pusher.Idle? && In(Run(Start(), steps), p, Active)
    ensures Current(Run(Start(), steps), p) && UpToDate(steps, p)
  {
    PromptMeansTimely(steps);
    NoMissedConfiguration(steps, p);
  }

  // ---- Exactly when a push is safe ----

  predicate Pushes(step: Step) {
    !(step.Arrive? || step.ReadLock? || step.Register? || step.SendInitial? || step.SendInitialAction? ||
      step.Release? || step.Exit?)
  }

  ghost predicate AllCurrent(s: State) {
    forall p :: In(s, p, Active) ==> Current(s, p)
  }

  /** Whatever is pushed from here, no subscription is left behind. */
  ghost predicate PushesAreSafe(s: State) {
    forall steps :: (forall i :: 0 <= i < |steps| ==> Pushes(steps[i])) && Run(s, steps).pusher.Idle?
      ==> AllCurrent(Run(s, steps))
  }

  lemma {:induction false} PushesKeepInvariant(s: State, T: set<Pod>, steps: seq<Step>)
    requires Invariant(s, T) && forall i :: 0 <= i < |steps| ==> Pushes(steps[i])
    ensures Invariant(Run(s, steps), T)
    ensures forall p :: In(Run(s, steps), p, Active) <==> In(s, p, Active)
  {
    if steps != [] {
      PushesKeepInvariant(s, T, steps[..|steps| - 1]);
      assert Pushes(steps[|steps| - 1]);
      NextKeeps(Run(s, steps[..|steps| - 1]), T, steps[|steps| - 1]);
    }
  }

  lemma PushesKeepAllCurrent(s: State, T: set<Pod>, steps: seq<Step>)
    requires Invariant(s, T) && forall i :: 0 <= i < |steps| ==> Pushes(steps[i])
    requires (forall p :: In(s, p, Active) ==> p in T) && Run(s, steps).pusher.Idle?
    ensures AllCurrent(Run(s, steps))
  {
    PushesKeepInvariant(s, T, steps);
    forall p | In(Run(s, steps), p, Active) ensures Current(Run(s, steps), p) {
      assert p in T && PodOk(Run(s, steps), p);
    }
  }

  lemma RunSnoc(s: State, steps: seq<Step>, step: Step)
    ensures Run(s, steps + [step]) == Next(Run(s, steps), step)
  {
    assert (steps + [step])[..|steps|] == steps;
  }

  /** The broadcast reaches all remaining listeners; the others are not touched. */
  lemma {:induction false} DeliverToAll(s: State, before: seq<Step>) returns (steps: seq<Step>)
    requires (forall i :: 0 <= i < |before| ==> Pushes(before[i]))
    requires var t := Run(s, before); t.pusher.SendingConfig? && forall p :: p in t.pusher.todo ==> In(t, p, Active)
    ensures forall i :: 0 <= i < |steps| ==> Pushes(steps[i])
    ensures var t, e := Run(s, before), Run(s, steps);
            && e.pusher == SendingConfig({}) && e.version == t.version && e.actions == t.actions
            && e.subs.Keys == t.subs.Keys
            && (forall p :: p in t.subs && p !in t.pusher.todo ==> e.subs[p] == t.subs[p])
            && (forall p :: p in t.pusher.todo ==> e.subs[p] == t.subs[p].(version := t.version))
    decreases Run(s, before).pusher.todo
  {
    var t := Run(s, before);
    if t.pusher.todo == {} {
      steps := before;
    } else {
      var p :| p in t.pusher.todo;
      RunSnoc(s, before, DeliverConfig(p));
      assert In(t, p, Active);
      steps := DeliverToAll(s, before + [DeliverConfig(p)]);
    }
  }

  lemma PushStarts(s: State, v: Version) returns (steps: seq<Step>)
    requires s.pusher.Idle? && (forall q :: q in s.subs ==> !Reading(s, q)) && v != s.version
    ensures forall i :: 0 <= i < |steps| ==> Pushes(steps[i])
    ensures Run(s, steps) == s.(version := v, pusher := SendingConfig(Listeners(s)))
  {
    RunSnoc(s, [], Lock);
    RunSnoc(s, [] + [Lock], SetFiles(v));
    steps := [] + [Lock] + [SetFiles(v)];
  }

  lemma PushEnds(s: State, before: seq<Step>) returns (steps: seq<Step>)
    requires (forall i :: 0 <= i < |before| ==> Pushes(before[i])) && Run(s, before).pusher == SendingConfig({})
    ensures forall i :: 0 <= i < |steps| ==> Pushes(steps[i])
    ensures Run(s, steps) == Run(s, before).(pusher := Idle)
  {
    RunSnoc(s, before, ConfigSent);
    RunSnoc(s, before + [ConfigSent], NoUpstreams);
    RunSnoc(s, before + [ConfigSent] + [NoUpstreams], Unlock);
    steps := before + [ConfigSent] + [NoUpstreams] + [Unlock];
  }

  /** A push of new files while a subscription is not yet listed: when it ends, the subscription is behind. */
  lemma UnlistedIsLeftBehind(s: State, p: Pod) returns (steps: seq<Step>)
    requires s.pusher.Idle? && (forall q :: q in s.subs ==> !Reading(s, q))
    requires forall q :: q in s.subs && s.subs[q].registered ==> In(s, q, Active)
    requires In(s, p, Active) && !s.subs[p].registered && s.subs[p].version == s.version
    ensures forall i :: 0 <= i < |steps| ==> Pushes(steps[i])
    ensures var e := Run(s, steps); e.pusher.Idle? && In(e, p, Active) && e.subs[p].version != e.version
  {
    var v := s.version + "'";
    var begun := PushStarts(s, v);
    assert p !in Listeners(s) && forall q :: q in Listeners(s) ==> In(Run(s, begun), q, Active);
    var sent := DeliverToAll(s, begun);
    steps := PushEnds(s, sent);
  }

  /** Only subscriptions past the read lock can be listed. */
  ghost predicate ListedArePast(s: State) {
    forall q :: q in s.subs && s.subs[q].registered ==> Reading(s, q) || In(s, q, Active)
  }

  lemma {:induction false} RunListsOnlyPast(steps: seq<Step>)
    ensures ListedArePast(Run(Start(), steps))
  {
    if steps != [] {
      var before, last := steps[..|steps| - 1], steps[|steps| - 1];
      RunListsOnlyPast(before);
      SubStepListsOnlyPast(Run(Start(), before), last);
      PushStepListsOnlyPast(SubStep(Run(Start(), before), last), last);
    }
  }

  lemma SubStepListsOnlyPast(s: State, step: Step)
    requires ListedArePast(s)
    ensures ListedArePast(SubStep(s, step))
  {
  }

  lemma PushStepListsOnlyPast(s: State, step: Step)
    requires ListedArePast(s)
    ensures ListedArePast(PushStep(s, step))
  {
  }

  lemma AllListedInvariant(run: seq<Step>, T: set<Pod>)
    requires var s := Run(Start(), run);
             && s.pusher.Idle? && AllCurrent(s)
             && (forall p :: p in T ==> In(s, p, Active) && s.subs[p].registered)
    ensures Invariant(Run(Start(), run), T)
  {
    RunKeepsInvariant(run);
    var s := Run(Start(), run);
    forall p | p in T ensures PodOk(s, p) {
      assert Current(s, p);
    }
  }

  /** In a reachable state with the lock free and every subscription current, pushes are safe exactly when
      every subscription in its message loop is listed by the broadcaster. */
  lemma PushesAreSafeIffAllListed(run: seq<Step>)
    requires var s := Run(Start(), run);
             s.pusher.Idle? && (forall p :: p in s.subs ==> !Reading(s, p)) && AllCurrent(s)
    ensures var s := Run(Start(), run);
            PushesAreSafe(s) <==> forall p :: In(s, p, Active) ==> s.subs[p].registered
  {
    var s := Run(Start(), run);
    var T := set p | p in s.subs && In(s, p, Active);
    if forall p :: In(s, p, Active) ==> s.subs[p].registered {
      AllListedInvariant(run, T);
      forall steps | (forall i :: 0 <= i < |steps| ==> Pushes(steps[i])) && Run(s, steps).pusher.Idle?
        ensures AllCurrent(Run(s, steps))
      {
        PushesKeepAllCurrent(s, T, steps);
      }
    } else {
      var p :| In(s, p, Active) && !s.subs[p].registered;
      RunListsOnlyPast(run);
      var steps := UnlistedIsLeftBehind(s, p);
      assert !Current(Run(s, steps), p);
    }
  }

  /** Such an unlisted subscription is reachable: Subscribe returned, the initial configuration was sent and
      the lock released, all before the broadcaster entered the listener. */
  lemma UnlistedIsReachable()
    ensures var s := Run(Start(), [Arrive(0), ReadLock(0), SendInitial(0), Release(0)]);
            && s.pusher.Idle? && (forall p :: p in s.subs ==> !Reading(s, p)) && AllCurrent(s)
            && In(s, 0, Active) && !s.subs[0].registered && !PushesAreSafe(s)
  {
    var run := [Arrive(0), ReadLock(0), SendInitial(0), Release(0)];
    RunSnoc(Start(), [], Arrive(0));
    RunSnoc(Start(), [] + [Arrive(0)], ReadLock(0));
    RunSnoc(Start(), [] + [Arrive(0)] + [ReadLock(0)], SendInitial(0));
    RunSnoc(Start(), [] + [Arrive(0)] + [ReadLock(0)] + [SendInitial(0)], Release(0));
    assert run == [] + [Arrive(0)] + [ReadLock(0)] + [SendInitial(0)] + [Release(0)];
    PushesAreSafeIffAllListed(run);
  }
}
