/** One agent subscription: the initial configuration is sent request by request, then a loop forwards
    broadcasts to the agent and tells the broadcaster when the agent has answered. Requests carry no
    correlation on the way back, so an answer is matched with whatever is pending when it is read. */
module ResponsePairing {

  /** What the agent was asked: part of the initial configuration, or the k-th broadcast. */
  datatype Request = InitialRequest | Broadcast(k: nat)

  /** What the agent sends: one answer per request, in order, and rollback messages in between. */
  datatype Message = Answer(to: Request, ok: bool) | Rollback

  datatype Stage =
    | SendConfig
    | AwaitConfig
    | SendAction(i: nat, failed: bool)   // failed: an attempt at this action was answered with an error
    | AwaitAction(i: nat, failed: bool)
    | Looping
    | Gone

  datatype State = State(
    stage: Stage,
    actions: nat,               // stored Plus actions to send after the files
    outstanding: seq<Request>,  // sent to the agent, not answered yet
    inbox: seq<Message>,        // sent by the agent, not read yet
    pending: bool,              // pendingBroadcastRequest is set
    awaiting: bool,             // the broadcaster waits for this listener
    read: nat,                  // broadcasts read from ListenCh
    completions: seq<Request>,  // for each blocking signal on ResponseCh, the request whose answer caused it
    strayReads: nat,            // rollback messages that an initial wait took for an answer
    timeouts: nat,              // initial waits given up without an answer
    sendErrors: nat)            // blocking signals for a broadcast that could not be sent to the agent

  datatype Step =
    | Send            // the next initial request
    | Read            // the next message from the agent
    | Deadline        // the 30 seconds for an action are over
    | Listen          // a broadcast arrives and is sent to the agent
    | ListenFails     // a broadcast arrives and cannot be sent: the broadcaster is told, the subscription ends
    | Answers(ok: bool)
    | RollsBack
    | Leave           // the stream ends, the connection fails or is reset

  function Start(actions: nat): (r: State) {
    State(SendConfig, actions, [], [], false, false, 0, [], 0, 0, 0)
  }

  function AfterAction(s: State, i: nat): (r: Stage) {
    if i < s.actions then SendAction(i, false) else Looping
  }

  /** waitForInitialConfigApply takes the next message, whatever it is. */
  function InitialRead(s: State): (r: State)
    requires s.inbox != [] && (s.stage.AwaitConfig? || s.stage.AwaitAction?)
  {
    var m := s.inbox[0];
    var t := s.(inbox := s.inbox[1..], strayReads := s.strayReads + if m.Rollback? then 1 else 0);
    match s.stage
    case AwaitConfig => t.(stage := AfterAction(s, 0))
    case AwaitAction(i, _) =>
      if m.Answer? && m.ok then t.(stage := AfterAction(s, i + 1)) else t.(stage := SendAction(i, true))
  }

  /** The loop ignores rollback messages and signals completion only for a tracked broadcast. */
  function LoopRead(s: State): (r: State)
    requires s.inbox != []
  {
    var m := s.inbox[0];
    var t := s.(inbox := s.inbox[1..]);
    if m.Rollback? || !s.pending then t
    else t.(pending := false, awaiting := false, completions := s.completions + [m.to])
  }

  /** A step that is not enabled leaves the state as it is. */
  function Next(s: State, step: Step): (r: State) {
    match step
    case Send =>
      (match s.stage
       case SendConfig => s.(stage := AwaitConfig, outstanding := s.outstanding + [InitialRequest])
       case SendAction(i, f) => s.(stage := AwaitAction(i, f), outstanding := s.outstanding + [InitialRequest])
       case _ => s)
    case Read =>
      if s.inbox == [] then s
      else if s.stage.AwaitConfig? || s.stage.AwaitAction? then InitialRead(s)
      else if s.stage.Looping? then LoopRead(s)
      else s
    case Deadline =>
      (match s.stage
       case SendAction(i, true) => s.(stage := AfterAction(s, i + 1))
       case AwaitAction(i, true) => s.(stage := AfterAction(s, i + 1), timeouts := s.timeouts + 1)
       case AwaitAction(i, false) => s.(stage := Gone)
       case _ => s)
    case Listen =>
      if s.stage.Looping? && !s.awaiting then
        s.(awaiting := true, pending := true, read := s.read + 1, outstanding := s.outstanding + [Broadcast(s.read)])
      else s
    case ListenFails =>
      if s.stage.Looping? && !s.awaiting then
        s.(stage := Gone, read := s.read + 1, sendErrors := s.sendErrors + 1)
      else s
    case Answers(ok) =>
      if s.outstanding == [] then s
      else s.(outstanding := s.outstanding[1..], inbox := s.inbox + [Answer(s.outstanding[0], ok)])
    case RollsBack => s.(inbox := s.inbox + [Rollback])
    case Leave => s.(stage := Gone)
  }

  function Run(s: State, steps: seq<Step>): (r: State) {
    if steps == [] then s else Next(Run(s, steps[..|steps| - 1]), steps[|steps| - 1])
  }

  // ---- Counting ----

  function Answered(inbox: seq<Message>): (r: seq<Request>) {
    if inbox == [] then [] else (if inbox[0].Answer? then [inbox[0].to] else []) + Answered(inbox[1..])
  }

  /** The requests whose answers are still to be read, in the order in which they will be. */
  function Owed(s: State): (r: seq<Request>) {
    Answered(s.inbox) + s.outstanding
  }

  lemma {:induction false} AnsweredOfConcat(a: seq<Message>, b: seq<Message>)
    ensures Answered(a + b) == Answered(a) + Answered(b)
  {
    if a == [] {
      assert a + b == b;
    } else {
      var head := if a[0].Answer? then [a[0].to] else [];
      assert (a + b)[0] == a[0] && (a + b)[1..] == a[1..] + b;
      AnsweredOfConcat(a[1..], b);
      assert head + (Answered(a[1..]) + Answered(b)) == (head + Answered(a[1..])) + Answered(b);
    }
  }

  lemma AnsweredOne(m: Message)
    ensures Answered([m]) == if m.Answer? then [m.to] else []
  {
    assert [m][1..] == [];
  }

  lemma AgentKeepsOwed(s: State, step: Step)
    requires step.Answers? || step.RollsBack?
    ensures Owed(Next(s, step)) == Owed(s)
  {
    if step.RollsBack? {
      AnsweredOfConcat(s.inbox, [Rollback]);
      AnsweredOne(Rollback);
      assert Answered(s.inbox) + [] == Answered(s.inbox);
    } else if s.outstanding != [] {
      var m := Answer(s.outstanding[0], step.ok);
      AnsweredOfConcat(s.inbox, [m]);
      AnsweredOne(m);
      assert s.outstanding == [m.to] + s.outstanding[1..];
      assert (Answered(s.inbox) + [m.to]) + s.outstanding[1..] == Answered(s.inbox) + ([m.to] + s.outstanding[1..]);
    }
  }

  /** Reading a message takes its request, if it answers one, off the front of what is owed. */
  lemma ReadTakesFirstOwed(s: State, t: State)
    requires s.inbox != [] && t.inbox == s.inbox[1..] && t.outstanding == s.outstanding
    ensures Owed(s) == (if s.inbox[0].Answer? then [s.inbox[0].to] else []) + Owed(t)
  {
  }

  ghost predicate CountInvariant(s: State) {
    && (s.awaiting <==> s.pending)
    && s.read == |s.completions| + s.sendErrors + (if s.pending then 1 else 0)
    && (!s.stage.Gone? ==> s.sendErrors == 0)
  }

  lemma {:induction false} RunCounts(actions: nat, steps: seq<Step>)
    ensures CountInvariant(Run(Start(actions), steps))
  {
    if steps != [] { RunCounts(actions, steps[..|steps| - 1]); }
  }

  /** In every run the blocking completion signals, for answers and for failed sends, number the broadcasts read,
      less the pending one if any; before the subscription exits they are all for answers. */
  lemma SignalsMatchBroadcasts(actions: nat, steps: seq<Step>)
    ensures var s := Run(Start(actions), steps);
            && |s.completions| + s.sendErrors == s.read - (if s.pending then 1 else 0)
            && (!s.stage.Gone? ==> |s.completions| == s.read - (if s.pending then 1 else 0))
  {
    RunCounts(actions, steps);
  }

  // ---- The initial phase, read off the run ----

  /** A message is read while an action's answer is waited for. */
  predicate Hears(s: State, step: Step) {
    step == Read && s.stage.AwaitAction? && s.inbox != []
  }

  /** The step is done with an action: it was answered with success while waited for, or it is given up after the 30
      seconds, having been answered otherwise. */
  predicate EndsAction(s: State, step: Step, failing: bool) {
    || (Hears(s, step) && s.inbox[0].Answer? && s.inbox[0].ok)
    || (step == Deadline && (s.stage.SendAction? || s.stage.AwaitAction?) && failing)
  }

  /** Since the last action was done with, some message was read while the next one was waited for. */
  predicate Failing(actions: nat, steps: seq<Step>) {
    steps != [] &&
    var before, last := steps[..|steps| - 1], steps[|steps| - 1];
    var s := Run(Start(actions), before);
    !EndsAction(s, last, Failing(actions, before)) && (Failing(actions, before) || Hears(s, last))
  }

  /** How many stored actions are done with. */
  function Ended(actions: nat, steps: seq<Step>): (n: nat) {
    if steps == [] then 0
    else
      var before, last := steps[..|steps| - 1], steps[|steps| - 1];
      Ended(actions, before) + if EndsAction(Run(Start(actions), before), last, Failing(actions, before)) then 1 else 0
  }

  ghost predicate AtHand(actions: nat, s: State, ended: nat, failing: bool) {
    && s.actions == actions
    && (s.stage.SendConfig? || s.stage.AwaitConfig? ==> ended == 0 && !failing)
    && (s.stage.SendAction? || s.stage.AwaitAction? ==> s.stage.i == ended < actions && s.stage.failed == failing)
    && (s.stage.Looping? ==> ended == actions)
  }

  lemma StepKeepsOrder(actions: nat, s: State, step: Step, ended: nat, failing: bool)
    requires AtHand(actions, s, ended, failing)
    ensures var ends := EndsAction(s, step, failing);
            AtHand(actions, Next(s, step), ended + (if ends then 1 else 0), !ends && (failing || Hears(s, step)))
  {
  }

  /** The stored actions are sent one after the other: the one at hand is the first that is not done with, and the
      message loop is entered when all are. */
  lemma {:induction false} ActionsInOrder(actions: nat, steps: seq<Step>)
    ensures AtHand(actions, Run(Start(actions), steps), Ended(actions, steps), Failing(actions, steps))
  {
    if steps != [] {
      var before := steps[..|steps| - 1];
      ActionsInOrder(actions, before);
      var ended, failing := Ended(actions, before), Failing(actions, before);
      StepKeepsOrder(actions, Run(Start(actions), before), steps[|steps| - 1], ended, failing);
    }
  }

  /** An action is only given up if it was answered: without any answer the subscription ends. */
  lemma DeadlineWithoutAnswerEnds(actions: nat, steps: seq<Step>)
    requires Run(Start(actions), steps).stage.AwaitAction? && !Failing(actions, steps)
    ensures Run(Start(actions), steps + [Deadline]).stage.Gone?
  {
    ActionsInOrder(actions, steps);
    assert (steps + [Deadline])[..|steps|] == steps;
  }

  /** A broadcast is read in the message loop only, and not while another is pending. */
  lemma ReadsOneAtATime(s: State, step: Step)
    requires Next(s, step).read != s.read
    ensures s.stage.Looping? && !s.awaiting && Next(s, step).read == s.read + 1
    ensures step == Listen || step == ListenFails
  {
  }

  /** If a broadcast cannot be sent, or the stream ends, the subscription is over: it reads and signals no more. */
  lemma OverMeansOver(s: State, step: Step, steps: seq<Step>)
    requires step == Leave || (step == ListenFails && s.stage.Looping? && !s.awaiting)
    ensures var t, e := Next(s, step), Run(Next(s, step), steps);
            && e.stage.Gone? && e.completions == s.completions && e.read == t.read && e.sendErrors == t.sendErrors
            && t.sendErrors == s.sendErrors + (if step == Leave then 0 else 1)
  {
    GoneForever(Next(s, step), steps);
  }

  lemma {:induction false} GoneForever(s: State, steps: seq<Step>)
    requires s.stage.Gone?
    ensures var e := Run(s, steps);
            e.stage.Gone? && e.completions == s.completions && e.read == s.read && e.sendErrors == s.sendErrors
  {
    if steps != [] { GoneForever(s, steps[..|steps| - 1]); }
  }

  // ---- Which answers complete which broadcasts ----

  ghost predicate InitialStage(s: State) {
    !s.stage.Looping? && !s.stage.Gone?
  }

  ghost predicate AllInitial(rs: seq<Request>) {
    forall i :: 0 <= i < |rs| ==> rs[i].InitialRequest?
  }

  /** During the initial phase, the answers owed are those a wait expects, plus one for every wait that was
      satisfied by a rollback message or given up. */
  ghost predicate InitialInvariant(s: State) {
    && s.read == 0 && s.sendErrors == 0 && !s.pending && !s.awaiting && s.completions == []
    && AllInitial(Owed(s))
    && |Owed(s)| == s.strayReads + s.timeouts + (if s.stage.AwaitConfig? || s.stage.AwaitAction? then 1 else 0)
  }

  lemma InitialNext(s: State, step: Step)
    requires InitialStage(s) && InitialInvariant(s)
    ensures !Next(s, step).stage.Gone? ==> InitialInvariant(Next(s, step))
  {
    match step
    case Answers(_) => AgentKeepsOwed(s, step);
    case RollsBack => AgentKeepsOwed(s, step);
    case Send =>
      if s.stage.SendConfig? || s.stage.SendAction? {
        assert Owed(Next(s, step)) == Owed(s) + [InitialRequest];
      }
    case Read =>
      if s.inbox != [] && (s.stage.AwaitConfig? || s.stage.AwaitAction?) {
        var gone := if s.inbox[0].Answer? then [s.inbox[0].to] else [];
        ReadTakesFirstOwed(s, Next(s, step));
        forall i | 0 <= i < |Owed(Next(s, step))| ensures Owed(Next(s, step))[i].InitialRequest? {
          assert Owed(Next(s, step))[i] == Owed(s)[|gone| + i];
        }
      }
    case _ =>
  }

  /** In the loop, with nothing left over from the initial phase, only the pending broadcast is owed. */
  ghost predicate LoopInvariant(s: State) {
    LoopInvariantFor(s, Owed(s))
  }

  ghost predicate LoopInvariantFor(s: State, owed: seq<Request>) {
    && s.stage.Looping? && CountInvariant(s)
    && owed == (if s.pending then [Broadcast(s.read - 1)] else [])
    && (forall j :: 0 <= j < |s.completions| ==> s.completions[j] == Broadcast(j))
  }

  lemma OnlyOneOwed(head: Request, rest: seq<Request>, owed: seq<Request>)
    requires owed == [head] + rest && |owed| <= 1
    ensures owed == [head] && rest == []
  {
    assert |owed| == 1 + |rest|;
    assert owed[0] == head;
  }

  lemma LoopReadTakes(s: State, owed: seq<Request>, rest: seq<Request>)
    requires LoopInvariantFor(s, owed) && s.inbox != []
    requires owed == (if s.inbox[0].Answer? then [s.inbox[0].to] else []) + rest
    ensures LoopInvariantFor(LoopRead(s), rest)
  {
    if s.inbox[0].Answer? {
      OnlyOneOwed(s.inbox[0].to, rest, owed);
    } else {
      assert [] + rest == rest;
    }
  }

  lemma LoopReadKeeps(s: State)
    requires LoopInvariant(s) && s.inbox != []
    ensures LoopInvariant(LoopRead(s))
  {
    ReadTakesFirstOwed(s, LoopRead(s));
    LoopReadTakes(s, Owed(s), Owed(LoopRead(s)));
  }

  lemma LoopListenKeeps(s: State)
    requires LoopInvariant(s) && !s.awaiting
    ensures LoopInvariant(Next(s, Listen))
  {
    var t := Next(s, Listen);
    assert Owed(t) == Owed(s) + [Broadcast(s.read)];
    assert [] + [Broadcast(s.read)] == [Broadcast(s.read)];
  }

  lemma LoopAgentKeeps(s: State, step: Step)
    requires LoopInvariant(s) && (step.Answers? || step.RollsBack?)
    ensures LoopInvariant(Next(s, step))
  {
    AgentKeepsOwed(s, step);
  }

  lemma LoopNext(s: State, step: Step)
    requires LoopInvariant(s)
    ensures Next(s, step).stage.Gone? || LoopInvariant(Next(s, step))
    ensures forall j :: 0 <= j < |Next(s, step).completions| ==> Next(s, step).completions[j] == Broadcast(j)
  {
    match step
    case Answers(_) => LoopAgentKeeps(s, step);
    case RollsBack => LoopAgentKeeps(s, step);
    case Listen =>
      if !s.awaiting { LoopListenKeeps(s); }
    case Read =>
      if s.inbox != [] { LoopReadKeeps(s); }
    case _ =>
  }

  /** From here on, every broadcast is completed by the agent's answer to that very broadcast. */
  ghost predicate PairedForever(s: State) {
    forall steps :: var e := Run(s, steps); forall j :: 0 <= j < |e.completions| ==> e.completions[j] == Broadcast(j)
  }

  lemma GoneStays(s: State, step: Step)
    requires s.stage.Gone?
    ensures Next(s, step).stage.Gone? && Next(s, step).completions == s.completions
  {
  }

  lemma {:induction false} NothingLeftMeansPaired(s: State, steps: seq<Step>)
    requires LoopInvariant(s)
    ensures var e := Run(s, steps);
            && (e.stage.Gone? || LoopInvariant(e))
            && (forall j :: 0 <= j < |e.completions| ==> e.completions[j] == Broadcast(j))
  {
    if steps != [] {
      NothingLeftMeansPaired(s, steps[..|steps| - 1]);
      var e := Run(s, steps[..|steps| - 1]);
      if e.stage.Gone? { GoneStays(e, steps[|steps| - 1]); } else { LoopNext(e, steps[|steps| - 1]); }
    }
  }

  lemma RunSnoc(s: State, steps: seq<Step>, step: Step)
    ensures Run(s, steps + [step]) == Next(Run(s, steps), step)
  {
    assert (steps + [step])[..|steps|] == steps;
  }

  /** With a broadcast pending, the first answer owed completes it, whatever it answers. */
  lemma {:induction false} FirstOwedCompletes(s: State, before: seq<Step>) returns (steps: seq<Step>)
    requires var t := Run(s, before); t.stage.Looping? && t.pending && Owed(t) != []
    ensures var t := Run(s, before); Run(s, steps).completions == t.completions + [Owed(t)[0]]
    decreases var t := Run(s, before); |t.inbox| + 2 * |t.outstanding|
  {
    var t := Run(s, before);
    if t.inbox == [] {
      RunSnoc(s, before, Answers(true));
      AgentKeepsOwed(t, Answers(true));
      steps := FirstOwedCompletes(s, before + [Answers(true)]);
    } else {
      RunSnoc(s, before, Read);
      if t.inbox[0].Rollback? {
        steps := FirstOwedCompletes(s, before + [Read]);
      } else {
        steps := before + [Read];
      }
    }
  }

  /** An answer left over from the initial phase completes the first broadcast before the agent answers it. */
  lemma LeftoverMispairs(s: State) returns (steps: seq<Step>)
    requires s.stage.Looping? && InitialInvariant(s) && Owed(s) != []
    ensures Run(s, steps).completions == [InitialRequest]
  {
    RunSnoc(s, [], Listen);
    var t := Run(s, [] + [Listen]);
    assert Owed(t) == Owed(s) + [Broadcast(0)];
    steps := FirstOwedCompletes(s, [] + [Listen]);
  }

  lemma {:induction false} InitialRun(actions: nat, steps: seq<Step>)
    requires InitialStage(Run(Start(actions), steps))
    ensures InitialInvariant(Run(Start(actions), steps))
  {
    if steps != [] {
      var before := Run(Start(actions), steps[..|steps| - 1]);
      if InitialStage(before) {
        InitialRun(actions, steps[..|steps| - 1]);
        InitialNext(before, steps[|steps| - 1]);
      }
    }
  }

  /** At the moment a subscription enters its loop, the answers still owed number the initial waits that a
      rollback message satisfied or that were given up; and every later broadcast is completed by its own
      answer exactly when there was no such wait. */
  lemma PairedIffInitialWaitsWereAnswered(actions: nat, steps: seq<Step>, step: Step)
    requires InitialStage(Run(Start(actions), steps))
    requires Run(Start(actions), steps + [step]).stage.Looping?
    ensures var s := Run(Start(actions), steps + [step]);
            && |Owed(s)| == s.strayReads + s.timeouts
            && (PairedForever(s) <==> s.strayReads == 0 && s.timeouts == 0)
  {
    RunSnoc(Start(actions), steps, step);
    InitialRun(actions, steps);
    InitialNext(Run(Start(actions), steps), step);
    var s := Run(Start(actions), steps + [step]);
    if Owed(s) == [] {
      forall more
        ensures var e := Run(s, more); forall j :: 0 <= j < |e.completions| ==> e.completions[j] == Broadcast(j)
      {
        NothingLeftMeansPaired(s, more);
      }
    } else {
      var more := LeftoverMispairs(s);
      assert Run(s, more).completions[0] != Broadcast(0);
    }
  }

  /** The bad case happens: the initial files are rejected and rolled back, the wait for the first Plus
      action takes the rollback message for its answer, and the action is sent again. */
  const STRAY := [] + [Send] + [Answers(false)] + [RollsBack] + [Read] + [Send] + [Read]

  /** The wait for the first action's answer takes the rollback message instead. */
  lemma RollbackIsTakenForAnAnswer()
    ensures Run(Start(1), STRAY) == State(SendAction(0, true), 1, [InitialRequest], [], false, false, 0, [], 1, 0, 0)
  {
    var s0 := Start(1);
    var r1 := [] + [Send];
    var r2 := r1 + [Answers(false)];
    var r3 := r2 + [RollsBack];
    var r4 := r3 + [Read];
    RunSnoc(s0, [], Send);
    RunSnoc(s0, r1, Answers(false));
    RunSnoc(s0, r2, RollsBack);
    RunSnoc(s0, r3, Read);
    assert Run(s0, r4).inbox == [Rollback] && Run(s0, r4).stage == SendAction(0, false);
    RunSnoc(s0, r4, Send);
    RunSnoc(s0, r4 + [Send], Read);
  }

  const ANSWERED := STRAY + [Send] + [Answers(true)]

  lemma SecondAttemptIsAnswered()
    ensures var t := Run(Start(1), ANSWERED);
            && t.stage == AwaitAction(0, true) && t.actions == 1 && t.strayReads == 1 && t.timeouts == 0
            && t.inbox == [Answer(InitialRequest, true)]
  {
    RollbackIsTakenForAnAnswer();
    RunSnoc(Start(1), STRAY, Send);
    RunSnoc(Start(1), STRAY + [Send], Answers(true));
  }

  /** The wait for the action's answer took the rollback message, and the answer that came after it completes the
      first broadcast. */
  lemma RollbackCausesMispairing()
    ensures var s := Run(Start(1), [Send, Answers(false), RollsBack, Read, Send, Read, Send, Answers(true), Read]);
            s.stage.Looping? && s.strayReads == 1 && !PairedForever(s)
  {
    SecondAttemptIsAnswered();
    RunSnoc(Start(1), ANSWERED, Read);
    assert [Send, Answers(false), RollsBack, Read, Send, Read, Send, Answers(true), Read] == ANSWERED + [Read];
    PairedIffInitialWaitsWereAnswered(1, ANSWERED, Read);
  }
}
