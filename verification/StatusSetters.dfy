/** Writing our part of a status list that several controllers share. A setter puts the requested entries
    beside those of other controllers, says whether anything had to change, and may be called again on a
    freshly fetched object when the write fails. */
module StatusSetters {
  import opened Wrappers

  /** A condition; `transitionTime` is not compared. */
  datatype Condition = Condition(
    kind: string,
    status: string,
    generation: int,
    reason: string,
    message: string,
    transitionTime: int)

  /** A parent status, ancestor status or controller status. `optionals` are the optional reference fields
      that are compared: namespace and section name for routes, namespace, group and kind for policies, none
      for filters. `rest` is not compared. */
  datatype Entry = Entry(
    controller: string,
    name: string,
    optionals: seq<Option<string>>,
    conditions: seq<Condition>,
    rest: string)

  // ---- Equality ----

  function Deref(p: Option<string>): (s: string) {
    if p.Some? then p.value else ""
  }

  /** An unset field equals one set to the empty value. */
  predicate EqualOptional(p: Option<string>, q: Option<string>) {
    (p.None? && q.None?) || Deref(p) == Deref(q)
  }

  predicate ConditionEqual(c: Condition, d: Condition) {
    c.generation == d.generation && c.kind == d.kind && c.status == d.status && c.message == d.message
        && c.reason == d.reason
  }

  predicate ConditionsEqual(a: seq<Condition>, b: seq<Condition>) {
    |a| == |b| && forall i :: 0 <= i < |a| ==> ConditionEqual(a[i], b[i])
  }

  predicate EntryEqual(p: Entry, q: Entry) {
    && p.controller == q.controller && p.name == q.name
    && |p.optionals| == |q.optionals|
    && (forall i :: 0 <= i < |p.optionals| ==> EqualOptional(p.optionals[i], q.optionals[i]))
    && ConditionsEqual(p.conditions, q.conditions)
  }

  lemma EntryEqualIsEquivalence(p: Entry, q: Entry, r: Entry)
    ensures EntryEqual(p, p)
    ensures EntryEqual(p, q) ==> EntryEqual(q, p)
    ensures EntryEqual(p, q) && EntryEqual(q, r) ==> EntryEqual(p, r)
  {
  }

  predicate Has(es: seq<Entry>, e: Entry) {
    exists i :: 0 <= i < |es| && EntryEqual(e, es[i])
  }

  /** The order-insensitive comparison: our previous entries are all still there, and all current entries
      were there before. */
  predicate StatusEqual(ctlr: string, prev: seq<Entry>, cur: seq<Entry>) {
    && (forall i :: 0 <= i < |prev| && prev[i].controller == ctlr ==> Has(cur, prev[i]))
    && (forall i :: 0 <= i < |cur| ==> Has(prev, cur[i]))
  }

  // ---- Parts of a list ----

  function Foreign(ctlr: string, es: seq<Entry>): (r: seq<Entry>) {
    if es == [] then []
    else Foreign(ctlr, es[..|es| - 1]) + if es[|es| - 1].controller != ctlr then [es[|es| - 1]] else []
  }

  function Own(ctlr: string, es: seq<Entry>): (r: seq<Entry>) {
    if es == [] then []
    else Own(ctlr, es[..|es| - 1]) + if es[|es| - 1].controller == ctlr then [es[|es| - 1]] else []
  }

  predicate AllOwn(ctlr: string, es: seq<Entry>) {
    forall i :: 0 <= i < |es| ==> es[i].controller == ctlr
  }

  lemma {:induction false} PartsOfConcat(ctlr: string, a: seq<Entry>, b: seq<Entry>)
    ensures Foreign(ctlr, a + b) == Foreign(ctlr, a) + Foreign(ctlr, b)
    ensures Own(ctlr, a + b) == Own(ctlr, a) + Own(ctlr, b)
  {
    if b == [] {
      assert a + b == a;
    } else {
      var init := b[..|b| - 1];
      assert (a + b)[..|a + b| - 1] == a + init;
      PartsOfConcat(ctlr, a, init);
    }
  }

  lemma {:induction false} PartsOfOwn(ctlr: string, es: seq<Entry>)
    requires AllOwn(ctlr, es)
    ensures Foreign(ctlr, es) == [] && Own(ctlr, es) == es
  {
    if es != [] { PartsOfOwn(ctlr, es[..|es| - 1]); }
  }

  lemma {:induction false} ForeignIsForeign(ctlr: string, es: seq<Entry>)
    ensures forall i :: 0 <= i < |Foreign(ctlr, es)| ==> Foreign(ctlr, es)[i].controller != ctlr
    ensures Own(ctlr, Foreign(ctlr, es)) == [] && Foreign(ctlr, Foreign(ctlr, es)) == Foreign(ctlr, es)
  {
    if es != [] {
      var init, last := es[..|es| - 1], es[|es| - 1];
      ForeignIsForeign(ctlr, init);
      if last.controller != ctlr {
        PartsOfConcat(ctlr, Foreign(ctlr, init), [last]);
        assert [last][..0] == [] && [] + [last] == [last];
        assert Foreign(ctlr, [last]) == [last] && Own(ctlr, [last]) == [];
      } else {
        assert Foreign(ctlr, es) == Foreign(ctlr, init);
      }
    }
  }

  lemma {:induction false} Partition(ctlr: string, es: seq<Entry>, e: Entry)
    ensures e in Foreign(ctlr, es) <==> e in es && e.controller != ctlr
    ensures e in Own(ctlr, es) <==> e in es && e.controller == ctlr
  {
    if es != [] {
      Partition(ctlr, es[..|es| - 1], e);
      assert es == es[..|es| - 1] + [es[|es| - 1]];
    }
  }

  /** Our entries and the requested ones match as sets. */
  ghost predicate OwnMatches(ctlr: string, prev: seq<Entry>, requested: seq<Entry>) {
    && (forall e :: e in Own(ctlr, prev) ==> Has(requested, e))
    && (forall e :: e in requested ==> Has(Own(ctlr, prev), e))
  }

  // ---- One call of a setter ----

  /** How a setter combines what it captured with the entries to keep. `Fresh` (HTTPRoute, TLSRoute and
      GRPCRoute) leaves the captured request alone; `Append` (TCPRoute and UDPRoute) and `Prepend` (policies and
      filters) store the combined list back into the captured status. */
  datatype Style = Fresh | Append | Prepend

  function Combined(style: Style, ctlr: string, captured: seq<Entry>, prev: seq<Entry>): (r: seq<Entry>) {
    if style == Prepend then Foreign(ctlr, prev) + captured else captured + Foreign(ctlr, prev)
  }

  /** What the setter holds after a call. */
  function Recaptured(style: Style, ctlr: string, captured: seq<Entry>, prev: seq<Entry>): (r: seq<Entry>) {
    if style == Fresh then captured else Combined(style, ctlr, captured, prev)
  }

  predicate WasSet(style: Style, ctlr: string, captured: seq<Entry>, prev: seq<Entry>) {
    !StatusEqual(ctlr, prev, Combined(style, ctlr, captured, prev))
  }

  function Entries(style: Style, ctlr: string, captured: seq<Entry>, prev: seq<Entry>): (r: seq<Entry>) {
    if WasSet(style, ctlr, captured, prev) then Combined(style, ctlr, captured, prev) else prev
  }

  lemma HasIn(es: seq<Entry>, e: Entry)
    requires e in es
    ensures Has(es, e)
  {
    var i :| 0 <= i < |es| && es[i] == e;
    assert EntryEqual(e, es[i]);
  }

  lemma HasMember(es: seq<Entry>, e: Entry) returns (f: Entry)
    requires Has(es, e)
    ensures f in es && EntryEqual(e, f)
  {
    var i :| 0 <= i < |es| && EntryEqual(e, es[i]);
    f := es[i];
  }

  lemma HasByMember(es: seq<Entry>, e: Entry, f: Entry)
    requires f in es && EntryEqual(e, f)
    ensures Has(es, e)
  {
    var i :| 0 <= i < |es| && es[i] == f;
  }

  lemma CombinedParts(style: Style, ctlr: string, captured: seq<Entry>, prev: seq<Entry>)
    ensures Own(ctlr, Combined(style, ctlr, captured, prev)) == Own(ctlr, captured)
    ensures Foreign(ctlr, Combined(style, ctlr, captured, prev))
            == if style == Prepend then Foreign(ctlr, prev) + Foreign(ctlr, captured)
               else Foreign(ctlr, captured) + Foreign(ctlr, prev)
    ensures forall e :: e in Combined(style, ctlr, captured, prev) <==> e in captured || e in Foreign(ctlr, prev)
  {
    ForeignIsForeign(ctlr, prev);
    PartsOfConcat(ctlr, captured, Foreign(ctlr, prev));
    PartsOfConcat(ctlr, Foreign(ctlr, prev), captured);
    assert [] + Own(ctlr, captured) == Own(ctlr, captured) == Own(ctlr, captured) + [];
  }

  /** If the comparison says equal, our entries match and every captured entry is on the object. */
  lemma EqualMeansSettled(style: Style, ctlr: string, captured: seq<Entry>, prev: seq<Entry>)
    requires !WasSet(style, ctlr, captured, prev)
    ensures OwnMatches(ctlr, prev, Own(ctlr, captured))
    ensures forall e :: e in Foreign(ctlr, captured) ==> Has(prev, e)
  {
    var full := Combined(style, ctlr, captured, prev);
    CombinedParts(style, ctlr, captured, prev);
    forall e | e in Own(ctlr, prev) ensures Has(Own(ctlr, captured), e) {
      Partition(ctlr, prev, e);
      var i :| 0 <= i < |prev| && prev[i] == e;
      var f := HasMember(full, prev[i]);
      Partition(ctlr, full, f);
      HasByMember(Own(ctlr, captured), e, f);
    }
    forall e | e in captured ensures Has(prev, e) {
      assert e in full;
      var i :| 0 <= i < |full| && full[i] == e;
    }
    forall e | e in Own(ctlr, captured) ensures Has(Own(ctlr, prev), e) {
      Partition(ctlr, captured, e);
      var f := HasMember(prev, e);
      Partition(ctlr, prev, f);
      HasByMember(Own(ctlr, prev), e, f);
    }
    forall e | e in Foreign(ctlr, captured) ensures Has(prev, e) {
      Partition(ctlr, captured, e);
    }
  }

  lemma SettledMeansEqual(style: Style, ctlr: string, captured: seq<Entry>, prev: seq<Entry>)
    requires OwnMatches(ctlr, prev, Own(ctlr, captured))
    requires forall e :: e in Foreign(ctlr, captured) ==> Has(prev, e)
    ensures !WasSet(style, ctlr, captured, prev)
  {
    var full := Combined(style, ctlr, captured, prev);
    CombinedParts(style, ctlr, captured, prev);
    forall i | 0 <= i < |prev| && prev[i].controller == ctlr ensures Has(full, prev[i]) {
      Partition(ctlr, prev, prev[i]);
      var f := HasMember(Own(ctlr, captured), prev[i]);
      Partition(ctlr, captured, f);
      HasByMember(full, prev[i], f);
    }
    forall i | 0 <= i < |full| ensures Has(prev, full[i]) {
      var e := full[i];
      assert e in full;
      Partition(ctlr, captured, e);
      Partition(ctlr, prev, e);
      if e in captured && e.controller == ctlr {
        var f := HasMember(Own(ctlr, prev), e);
        Partition(ctlr, prev, f);
        HasByMember(prev, e, f);
      } else if e !in captured {
        HasIn(prev, e);
      }
    }
  }

  /** A setter says that nothing changed exactly if our entries on the object match the requested ones as
      sets, and whatever foreign entries the setter still carries are on the object too. */
  lemma NothingSetIff(style: Style, ctlr: string, captured: seq<Entry>, prev: seq<Entry>)
    ensures !WasSet(style, ctlr, captured, prev)
            <==> && OwnMatches(ctlr, prev, Own(ctlr, captured))
                 && (forall e :: e in Foreign(ctlr, captured) ==> Has(prev, e))
  {
    if !WasSet(style, ctlr, captured, prev) { EqualMeansSettled(style, ctlr, captured, prev); }
    if OwnMatches(ctlr, prev, Own(ctlr, captured)) && (forall e :: e in Foreign(ctlr, captured) ==> Has(prev, e)) {
      SettledMeansEqual(style, ctlr, captured, prev);
    }
  }

  /** Called again on the object it just set, a setter says that nothing changed. */
  lemma SecondCallSetsNothing(style: Style, ctlr: string, captured: seq<Entry>, prev: seq<Entry>)
    requires WasSet(style, ctlr, captured, prev)
    ensures var after := Entries(style, ctlr, captured, prev);
            !WasSet(style, ctlr, Recaptured(style, ctlr, captured, prev), after)
  {
    var after, kept := Entries(style, ctlr, captured, prev), Recaptured(style, ctlr, captured, prev);
    CombinedParts(style, ctlr, captured, prev);
    assert Own(ctlr, kept) == Own(ctlr, after);
    forall e | e in Own(ctlr, after) ensures Has(Own(ctlr, after), e) { HasIn(Own(ctlr, after), e); }
    forall e | e in Foreign(ctlr, kept) ensures Has(after, e) {
      Partition(ctlr, kept, e);
      HasIn(after, e);
    }
    SettledMeansEqual(style, ctlr, kept, after);
  }

  /** One call of a setter whose request is all ours: other controllers' entries on the object stay, in their
      order; if the setter says it set something, our entries are exactly the requested ones; and it says no
      exactly if ours matched them already, as sets. */
  lemma FirstCallIsExact(style: Style, ctlr: string, requested: seq<Entry>, prev: seq<Entry>)
    requires AllOwn(ctlr, requested)
    ensures var after := Entries(style, ctlr, requested, prev);
            && Foreign(ctlr, after) == Foreign(ctlr, prev)
            && (WasSet(style, ctlr, requested, prev) ==> Own(ctlr, after) == requested)
            && (!WasSet(style, ctlr, requested, prev) <==> OwnMatches(ctlr, prev, requested))
  {
    PartsOfOwn(ctlr, requested);
    CombinedParts(style, ctlr, requested, prev);
    NothingSetIff(style, ctlr, requested, prev);
    assert [] + Foreign(ctlr, prev) == Foreign(ctlr, prev) == Foreign(ctlr, prev) + [];
  }

  // ---- The retry loop ----

  /** One round of the retry loop, as the API server answers it: the read fails, the object is gone, or it is
      read and a write would be accepted or not. */
  datatype Attempt = GetFails | Missing | Fetched(entries: seq<Entry>, accepted: bool)

  /** `Retrying` holds the status that the setter has captured so far. */
  datatype Outcome = Retrying(captured: seq<Entry>) | Gone | Skipped | Written(entries: seq<Entry>)

  function TryOnce(style: Style, ctlr: string, captured: seq<Entry>, a: Attempt): (r: Outcome) {
    match a
    case GetFails => Retrying(captured)
    case Missing => Gone
    case Fetched(prev, accepted) =>
      if !WasSet(style, ctlr, captured, prev) then Skipped
      else if accepted then Written(Entries(style, ctlr, captured, prev))
      else Retrying(Recaptured(style, ctlr, captured, prev))
  }

  /** Rounds go on until one says it is done. */
  function Retry(style: Style, ctlr: string, requested: seq<Entry>, attempts: seq<Attempt>): (r: Outcome) {
    if attempts == [] then Retrying(requested) else
      var before := Retry(style, ctlr, requested, attempts[..|attempts| - 1]);
      if before.Retrying? then TryOnce(style, ctlr, before.captured, attempts[|attempts| - 1]) else before
  }

  /** The foreign entries of every object read in a run of rounds, put together the way the style does. */
  function Gathered(style: Style, ctlr: string, attempts: seq<Attempt>): (r: seq<Entry>) {
    if attempts == [] then [] else
      var before, a := Gathered(style, ctlr, attempts[..|attempts| - 1]), attempts[|attempts| - 1];
      if a.Fetched? then GatherOne(style, ctlr, before, a.entries) else before
  }

  function GatherOne(style: Style, ctlr: string, before: seq<Entry>, prev: seq<Entry>): (r: seq<Entry>) {
    if style == Prepend then Foreign(ctlr, prev) + before else before + Foreign(ctlr, prev)
  }

  /** The request with gathered entries around it. */
  function WithGathered(style: Style, requested: seq<Entry>, gathered: seq<Entry>): (r: seq<Entry>) {
    match style
    case Fresh => requested
    case Append => requested + gathered
    case Prepend => gathered + requested
  }

  lemma CombineGathered(style: Style, ctlr: string, requested: seq<Entry>, before: seq<Entry>, prev: seq<Entry>)
    ensures Recaptured(style, ctlr, WithGathered(style, requested, before), prev)
            == WithGathered(style, requested, GatherOne(style, ctlr, before, prev))
  {
    var f := Foreign(ctlr, prev);
    assert (requested + before) + f == requested + (before + f);
    assert f + (before + requested) == (f + before) + requested;
  }

  /** What a setter has captured after rounds that all ask for another one. */
  lemma {:induction false} CapturedAfterRetries(
      style: Style, ctlr: string, requested: seq<Entry>, attempts: seq<Attempt>)
    requires Retry(style, ctlr, requested, attempts).Retrying?
    ensures Retry(style, ctlr, requested, attempts).captured
            == WithGathered(style, requested, Gathered(style, ctlr, attempts))
  {
    if attempts == [] {
      assert requested + [] == requested == [] + requested;
    } else {
      var init := attempts[..|attempts| - 1];
      CapturedAfterRetries(style, ctlr, requested, init);
      if attempts[|attempts| - 1].Fetched? {
        CombineGathered(style, ctlr, requested, Gathered(style, ctlr, init), attempts[|attempts| - 1].entries);
      }
    }
  }

  /** A round asks for another one: the read failed, or a change was refused. */
  predicate AsksAgain(style: Style, ctlr: string, captured: seq<Entry>, a: Attempt) {
    a.GetFails? || (a.Fetched? && !a.accepted && WasSet(style, ctlr, captured, a.entries))
  }

  /** The round after the first `i`, if there is one, asks for another. */
  ghost predicate AsksAgainAt(style: Style, ctlr: string, requested: seq<Entry>, attempts: seq<Attempt>, i: nat)
    requires i < |attempts|
  {
    var before := Retry(style, ctlr, requested, attempts[..i]);
    before.Retrying? && AsksAgain(style, ctlr, before.captured, attempts[i])
  }

  /** The last of some rounds, if it takes place: the object is gone if it is missing, skipped if nothing has to change,
      written if the change is accepted, and otherwise another round is asked for. */
  lemma LastRoundDecides(style: Style, ctlr: string, requested: seq<Entry>, attempts: seq<Attempt>)
    requires attempts != [] && Retry(style, ctlr, requested, attempts[..|attempts| - 1]).Retrying?
    ensures var captured := Retry(style, ctlr, requested, attempts[..|attempts| - 1]).captured;
            var a, outcome := attempts[|attempts| - 1], Retry(style, ctlr, requested, attempts);
            && (outcome.Retrying? <==> AsksAgain(style, ctlr, captured, a))
            && (outcome.Gone? <==> a.Missing?)
            && (outcome.Skipped? <==> a.Fetched? && !WasSet(style, ctlr, captured, a.entries))
            && (outcome.Written? <==> a.Fetched? && a.accepted && WasSet(style, ctlr, captured, a.entries))
  {
  }

  /** Rounds go on exactly as long as each asks for another. */
  lemma {:induction false} RetryGoesOnIff(style: Style, ctlr: string, requested: seq<Entry>, attempts: seq<Attempt>)
    ensures Retry(style, ctlr, requested, attempts).Retrying?
            <==> forall i :: 0 <= i < |attempts| ==> AsksAgainAt(style, ctlr, requested, attempts, i)
  {
    if attempts != [] {
      var init := attempts[..|attempts| - 1];
      RetryGoesOnIff(style, ctlr, requested, init);
      forall i | 0 <= i < |init|
        ensures AsksAgainAt(style, ctlr, requested, init, i) <==> AsksAgainAt(style, ctlr, requested, attempts, i)
      {
        assert init[..i] == attempts[..i];
      }
      var n := |init|;
      assert attempts[..n] == init;
      if Retry(style, ctlr, requested, init).Retrying? {
        LastRoundDecides(style, ctlr, requested, attempts);
        forall i | 0 <= i < n ensures AsksAgainAt(style, ctlr, requested, attempts, i) {
          assert AsksAgainAt(style, ctlr, requested, init, i);
        }
        assert AsksAgainAt(style, ctlr, requested, attempts, n) <==> Retry(style, ctlr, requested, attempts).Retrying?;
      } else {
        assert !AsksAgainAt(style, ctlr, requested, attempts, |init|);
      }
    }
  }

  /** A run of rounds whose last one writes. */
  ghost predicate WritesLast(style: Style, ctlr: string, requested: seq<Entry>, attempts: seq<Attempt>) {
    && attempts != []
    && Retry(style, ctlr, requested, attempts[..|attempts| - 1]).Retrying?
    && Retry(style, ctlr, requested, attempts).Written?
  }

  lemma WriterFetched(style: Style, ctlr: string, requested: seq<Entry>, attempts: seq<Attempt>)
    requires WritesLast(style, ctlr, requested, attempts)
    ensures attempts[|attempts| - 1].Fetched?
    ensures var before := Retry(style, ctlr, requested, attempts[..|attempts| - 1]).captured;
            Retry(style, ctlr, requested, attempts).entries
                == Combined(style, ctlr, before, attempts[|attempts| - 1].entries)
  {
  }

  /** However many rounds a Fresh setter needed, the object it writes is the requested entries followed by the
      foreign entries of the object it read last: nothing of an earlier read survives. */
  lemma FreshWritesOnlyTheLatest(ctlr: string, requested: seq<Entry>, attempts: seq<Attempt>)
    requires WritesLast(Fresh, ctlr, requested, attempts)
    ensures attempts[|attempts| - 1].Fetched?
    ensures Retry(Fresh, ctlr, requested, attempts).entries
            == requested + Foreign(ctlr, attempts[|attempts| - 1].entries)
  {
    WriterFetched(Fresh, ctlr, requested, attempts);
    CapturedAfterRetries(Fresh, ctlr, requested, attempts[..|attempts| - 1]);
  }

  /** An Append or Prepend setter writes the foreign entries of every object it ever read. */
  lemma CapturingWritesAllItRead(style: Style, ctlr: string, requested: seq<Entry>, attempts: seq<Attempt>)
    requires style != Fresh && WritesLast(style, ctlr, requested, attempts)
    ensures Retry(style, ctlr, requested, attempts).entries
            == WithGathered(style, requested, Gathered(style, ctlr, attempts))
  {
    WriterFetched(style, ctlr, requested, attempts);
    var init := attempts[..|attempts| - 1];
    CapturedAfterRetries(style, ctlr, requested, init);
    CombineGathered(style, ctlr, requested, Gathered(style, ctlr, init), attempts[|attempts| - 1].entries);
  }

  lemma {:induction false} GatheredIsForeign(style: Style, ctlr: string, attempts: seq<Attempt>)
    ensures Own(ctlr, Gathered(style, ctlr, attempts)) == []
    ensures Foreign(ctlr, Gathered(style, ctlr, attempts)) == Gathered(style, ctlr, attempts)
  {
    if attempts != [] {
      var init, a := attempts[..|attempts| - 1], attempts[|attempts| - 1];
      GatheredIsForeign(style, ctlr, init);
      if a.Fetched? {
        ForeignIsForeign(ctlr, a.entries);
        PartsOfConcat(ctlr, Gathered(style, ctlr, init), Foreign(ctlr, a.entries));
        PartsOfConcat(ctlr, Foreign(ctlr, a.entries), Gathered(style, ctlr, init));
      }
    }
  }

  /** Retrying never changes which of our own entries a setter asks for. */
  lemma CapturedOwnIsRequested(style: Style, ctlr: string, requested: seq<Entry>, attempts: seq<Attempt>)
    requires AllOwn(ctlr, requested)
    requires Retry(style, ctlr, requested, attempts).Retrying?
    ensures Own(ctlr, Retry(style, ctlr, requested, attempts).captured) == requested
  {
    var gathered := Gathered(style, ctlr, attempts);
    CapturedAfterRetries(style, ctlr, requested, attempts);
    GatheredIsForeign(style, ctlr, attempts);
    PartsOfOwn(ctlr, requested);
    PartsOfConcat(ctlr, requested, gathered);
    PartsOfConcat(ctlr, gathered, requested);
    assert [] + requested == requested == requested + [];
  }

  /** Whatever the style and however many rounds it took, the written object has exactly the requested entries
      as ours, and loses no entry that another controller had on the object read last. */
  lemma WrittenIsOursAndKeepsTheirs(style: Style, ctlr: string, requested: seq<Entry>, attempts: seq<Attempt>)
    requires AllOwn(ctlr, requested)
    requires WritesLast(style, ctlr, requested, attempts)
    ensures Own(ctlr, Retry(style, ctlr, requested, attempts).entries) == requested
    ensures attempts[|attempts| - 1].Fetched?
    ensures forall e :: e in attempts[|attempts| - 1].entries && e.controller != ctlr ==>
              e in Retry(style, ctlr, requested, attempts).entries
  {
    var init := attempts[..|attempts| - 1];
    CapturedOwnIsRequested(style, ctlr, requested, init);
    WriterFetched(style, ctlr, requested, attempts);
    var before, prev := Retry(style, ctlr, requested, init).captured, attempts[|attempts| - 1].entries;
    CombinedParts(style, ctlr, before, prev);
    forall e | e in prev && e.controller != ctlr ensures e in Foreign(ctlr, prev) { Partition(ctlr, prev, e); }
  }

  /** No object read so far had an entry of another controller. */
  ghost predicate NoForeign(ctlr: string, attempts: seq<Attempt>) {
    forall i :: 0 <= i < |attempts| && attempts[i].Fetched? ==> Foreign(ctlr, attempts[i].entries) == []
  }

  lemma NoForeignSnoc(ctlr: string, attempts: seq<Attempt>, a: Attempt)
    ensures NoForeign(ctlr, attempts + [a])
            <==> NoForeign(ctlr, attempts) && (a.Fetched? ==> Foreign(ctlr, a.entries) == [])
  {
    var all := attempts + [a];
    assert forall i :: 0 <= i < |attempts| ==> all[i] == attempts[i];
    assert all[|attempts|] == a;
  }

  lemma GatherOneIsEmptyIff(style: Style, ctlr: string, before: seq<Entry>, prev: seq<Entry>)
    ensures GatherOne(style, ctlr, before, prev) == [] <==> before == [] && Foreign(ctlr, prev) == []
  {
    assert |GatherOne(style, ctlr, before, prev)| == |before| + |Foreign(ctlr, prev)|;
  }

  lemma {:induction false} NothingGatheredIff(style: Style, ctlr: string, attempts: seq<Attempt>)
    ensures Gathered(style, ctlr, attempts) == [] <==> NoForeign(ctlr, attempts)
  {
    if attempts != [] {
      var init, a := attempts[..|attempts| - 1], attempts[|attempts| - 1];
      NothingGatheredIff(style, ctlr, init);
      assert attempts == init + [a];
      NoForeignSnoc(ctlr, init, a);
      if a.Fetched? { GatherOneIsEmptyIff(style, ctlr, Gathered(style, ctlr, init), a.entries); }
    }
  }

  /** An Append or Prepend setter writes what it should, the requested entries and the foreign entries of the
      latest object, exactly if no object it read in an earlier round had a foreign entry. */
  lemma CapturingIsExactIff(style: Style, ctlr: string, requested: seq<Entry>, attempts: seq<Attempt>)
    requires style != Fresh && WritesLast(style, ctlr, requested, attempts)
    ensures attempts[|attempts| - 1].Fetched?
    ensures Retry(style, ctlr, requested, attempts).entries
            == Combined(style, ctlr, requested, attempts[|attempts| - 1].entries)
            <==> NoForeign(ctlr, attempts[..|attempts| - 1])
  {
    var init, prev := attempts[..|attempts| - 1], attempts[|attempts| - 1].entries;
    WriterFetched(style, ctlr, requested, attempts);
    CapturedAfterRetries(style, ctlr, requested, init);
    NothingGatheredIff(style, ctlr, init);
    var before := Retry(style, ctlr, requested, init).captured;
    assert |Combined(style, ctlr, before, prev)|
        == |Combined(style, ctlr, requested, prev)| + |Gathered(style, ctlr, init)|;
    if NoForeign(ctlr, init) {
      assert before == requested;
    }
  }

  const OURS := Entry("ngf", "gw", [], [], "")
  const THEIRS := Entry("other", "gw", [], [], "")

  lemma CombinedSample(style: Style)
    ensures Foreign("ngf", [THEIRS]) == [THEIRS] && Foreign("ngf", []) == []
    ensures Combined(style, "ngf", [OURS], [THEIRS]) == if style == Prepend then [THEIRS, OURS] else [OURS, THEIRS]
  {
    assert [THEIRS][..0] == [];
    assert [] + [THEIRS] == [THEIRS];
    assert [OURS] + [THEIRS] == [OURS, THEIRS] && [THEIRS] + [OURS] == [THEIRS, OURS];
  }

  /** Another controller removes its entry between our rejected write and our next read: an Append or Prepend
      setter puts the entry back. */
  lemma StaleForeignEntryReturns(style: Style)
    requires style != Fresh
    ensures var attempts := [Fetched([THEIRS], false), Fetched([], true)];
            && WritesLast(style, "ngf", [OURS], attempts)
            && THEIRS in Retry(style, "ngf", [OURS], attempts).entries
  {
    var first, second := Fetched([THEIRS], false), Fetched([], true);
    var attempts := [first, second];
    assert attempts[..1] == [first] && [first][..0] == [];
    CombinedSample(style);
    var kept := Combined(style, "ngf", [OURS], [THEIRS]);
    assert kept[if style == Prepend then 1 else 0] == OURS && !Has([THEIRS], OURS);
    assert Retry(style, "ngf", [OURS], [first]) == Retrying(kept);
    var written := Combined(style, "ngf", kept, []);
    assert written == kept + [] == [] + kept;
    assert kept[0] in kept && !Has([], written[0]);
    assert Retry(style, "ngf", [OURS], attempts) == Written(written);
    assert kept[if style == Prepend then 0 else 1] == THEIRS;
  }

  // ---- What counts as a change ----

  /** Everything of an entry that counts: no transition times, no other fields, and no difference between an unset
      optional and an empty one. */
  function Essence(e: Entry): (r: Entry) {
    Entry(e.controller, e.name,
          seq(|e.optionals|, i requires 0 <= i < |e.optionals| =>
            if e.optionals[i] == None then Some("") else e.optionals[i]),
          seq(|e.conditions|, i requires 0 <= i < |e.conditions| => e.conditions[i].(transitionTime := 0)),
          "")
  }

  /** The comparison is exactly equality of what counts. */
  lemma EntryEqualIff(p: Entry, q: Entry)
    ensures EntryEqual(p, q) <==> Essence(p) == Essence(q)
  {
    var p', q' := Essence(p), Essence(q);
    if EntryEqual(p, q) {
      assert p'.optionals == q'.optionals && p'.conditions == q'.conditions;
    }
    if p' == q' {
      forall i | 0 <= i < |p.optionals| ensures EqualOptional(p.optionals[i], q.optionals[i]) {
        assert p'.optionals[i] == q'.optionals[i];
      }
      forall i | 0 <= i < |p.conditions| ensures ConditionEqual(p.conditions[i], q.conditions[i]) {
        assert p'.conditions[i] == q'.conditions[i];
      }
    }
  }

  /** What counts of our entries, and of the other controllers'. */
  ghost function Ours(ctlr: string, es: seq<Entry>): (r: set<Entry>) {
    set e | e in es && e.controller == ctlr :: Essence(e)
  }

  ghost function Theirs(ctlr: string, es: seq<Entry>): (r: set<Entry>) {
    set e | e in es && e.controller != ctlr :: Essence(e)
  }

  lemma HasIff(es: seq<Entry>, e: Entry)
    ensures Has(es, e) <==> exists f :: f in es && Essence(f) == Essence(e)
  {
    if Has(es, e) {
      var f := HasMember(es, e);
      EntryEqualIff(e, f);
    }
    if f :| f in es && Essence(f) == Essence(e) {
      EntryEqualIff(e, f);
      HasByMember(es, e, f);
    }
  }

  lemma OwnMatchesIff(ctlr: string, prev: seq<Entry>, captured: seq<Entry>)
    ensures OwnMatches(ctlr, prev, Own(ctlr, captured)) <==> Ours(ctlr, prev) == Ours(ctlr, captured)
  {
    if OwnMatches(ctlr, prev, Own(ctlr, captured)) {
      MatchingMeansSame(ctlr, prev, captured);
      MatchingMeansSame(ctlr, captured, prev);
    }
    if Ours(ctlr, prev) == Ours(ctlr, captured) {
      SameMeansMatching(ctlr, prev, captured);
      SameMeansMatching(ctlr, captured, prev);
    }
  }

  lemma HasOwnIff(ctlr: string, es: seq<Entry>, e: Entry)
    requires e.controller == ctlr
    ensures Has(Own(ctlr, es), e) <==> Essence(e) in Ours(ctlr, es)
  {
    HasIff(Own(ctlr, es), e);
    forall f ensures f in Own(ctlr, es) <==> f in es && f.controller == ctlr { Partition(ctlr, es, f); }
  }

  lemma MatchingMeansSame(ctlr: string, a: seq<Entry>, b: seq<Entry>)
    requires forall e :: e in Own(ctlr, a) ==> Has(Own(ctlr, b), e)
    ensures Ours(ctlr, a) <= Ours(ctlr, b)
  {
    forall x | x in Ours(ctlr, a) ensures x in Ours(ctlr, b) {
      var e :| e in a && e.controller == ctlr && Essence(e) == x;
      Partition(ctlr, a, e);
      HasOwnIff(ctlr, b, e);
    }
  }

  lemma SameMeansMatching(ctlr: string, a: seq<Entry>, b: seq<Entry>)
    requires Ours(ctlr, a) <= Ours(ctlr, b)
    ensures forall e :: e in Own(ctlr, a) ==> Has(Own(ctlr, b), e)
  {
    forall e | e in Own(ctlr, a) ensures Has(Own(ctlr, b), e) {
      Partition(ctlr, a, e);
      assert Essence(e) in Ours(ctlr, a);
      HasOwnIff(ctlr, b, e);
    }
  }

  /** A setter sets something exactly if, in what counts, our entries on the object are not those requested, or an
      entry of another controller that the setter still carries is not on the object. */
  lemma WasSetIff(style: Style, ctlr: string, captured: seq<Entry>, prev: seq<Entry>)
    ensures WasSet(style, ctlr, captured, prev)
            <==> Ours(ctlr, prev) != Ours(ctlr, captured) || !(Theirs(ctlr, captured) <= Theirs(ctlr, prev))
  {
    NothingSetIff(style, ctlr, captured, prev);
    OwnMatchesIff(ctlr, prev, captured);
    TheirsWithinIff(ctlr, captured, prev);
  }

  lemma TheirsWithinIff(ctlr: string, a: seq<Entry>, b: seq<Entry>)
    ensures (forall e :: e in Foreign(ctlr, a) ==> Has(b, e)) <==> Theirs(ctlr, a) <= Theirs(ctlr, b)
  {
    forall e ensures e in Foreign(ctlr, a) <==> e in a && e.controller != ctlr { Partition(ctlr, a, e); }
    forall e: Entry | e.controller != ctlr ensures Has(b, e) <==> Essence(e) in Theirs(ctlr, b) {
      HasIff(b, e);
    }
    if forall e :: e in Foreign(ctlr, a) ==> Has(b, e) {
      forall x | x in Theirs(ctlr, a) ensures x in Theirs(ctlr, b) {
        var e :| e in a && e.controller != ctlr && Essence(e) == x;
        assert e in Foreign(ctlr, a);
      }
    }
    if Theirs(ctlr, a) <= Theirs(ctlr, b) {
      forall e | e in Foreign(ctlr, a) ensures Has(b, e) { assert Essence(e) in Theirs(ctlr, a); }
    }
  }

  /** The first round that reads the object, of any setter: if our entries on it and the requested ones are the same
      in all that counts, it is skipped. If they differ in a controller, reference, condition kind, status, generation,
      reason or message, the requested entries are written, with the foreign ones in their order. */
  lemma RoundIsDecidedByEssence(style: Style, ctlr: string, requested: seq<Entry>, prev: seq<Entry>)
    requires AllOwn(ctlr, requested)
    ensures var outcome := TryOnce(style, ctlr, requested, Fetched(prev, true));
            if Ours(ctlr, prev) == (set e | e in requested :: Essence(e)) then outcome == Skipped
            else outcome.Written? && Own(ctlr, outcome.entries) == requested
                 && Foreign(ctlr, outcome.entries) == Foreign(ctlr, prev)
  {
    assert Ours(ctlr, requested) == set e | e in requested :: Essence(e);
    assert Theirs(ctlr, requested) == {};
    WasSetIff(style, ctlr, requested, prev);
    FirstCallIsExact(style, ctlr, requested, prev);
  }

  // ---- The setters and the loop as written ----

  /** Does some entry of the list equal e? */
  method Contains(es: seq<Entry>, e: Entry) returns (found: bool)
    ensures found == Has(es, e)
  {
    found := false;
    for i := 0 to |es|
      invariant found <==> exists j :: 0 <= j < i && EntryEqual(e, es[j])
    {
      if EntryEqual(e, es[i]) {
        found := true;
      }
    }
  }

  method CompareStatus(ctlr: string, prev: seq<Entry>, cur: seq<Entry>) returns (equal: bool)
    ensures equal == StatusEqual(ctlr, prev, cur)
  {
    for i := 0 to |prev|
      invariant forall j :: 0 <= j < i && prev[j].controller == ctlr ==> Has(cur, prev[j])
    {
      if prev[i].controller == ctlr {
        var found := Contains(cur, prev[i]);
        if !found {
          return false;
        }
      }
    }
    for i := 0 to |cur|
      invariant forall j :: 0 <= j < i ==> Has(prev, cur[j])
    {
      var found := Contains(prev, cur[i]);
      if !found {
        return false;
      }
    }
    return true;
  }

  /** The Kubernetes object that a setter changes. */
  class Object {
    var entries: seq<Entry>
    constructor ()
      ensures entries == []
    {
      entries := [];
    }
  }

  class Setter {
    const style: Style
    const ctlr: string
    var captured: seq<Entry>

    constructor (style: Style, ctlr: string, requested: seq<Entry>)
      ensures this.style == style && this.ctlr == ctlr && captured == requested
    {
      this.style, this.ctlr, captured := style, ctlr, requested;
    }

    /** `base` followed by the object's entries that belong to other controllers. */
    method KeepForeign(obj: Object, base: seq<Entry>) returns (all: seq<Entry>)
      ensures all == base + Foreign(ctlr, obj.entries)
    {
      all := base;
      var es := obj.entries;
      for i := 0 to |es|
        invariant all == base + Foreign(ctlr, es[..i])
      {
        assert es[..i + 1][..i] == es[..i];
        if es[i].controller != ctlr {
          all := all + [es[i]];
        }
      }
      assert es[..|es|] == es;
    }

    method Call(obj: Object) returns (wasSet: bool)
      modifies this, obj
      ensures wasSet == WasSet(style, ctlr, old(captured), old(obj.entries))
      ensures obj.entries == Entries(style, ctlr, old(captured), old(obj.entries))
      ensures captured == Recaptured(style, ctlr, old(captured), old(obj.entries))
    {
      var full: seq<Entry>;
      match style {
        case Fresh =>
          full := KeepForeign(obj, captured);
        case Append =>
          captured := KeepForeign(obj, captured);
          full := captured;
        case Prepend =>
          full := KeepForeign(obj, []);
          full := full + captured;
          captured := full;
      }
      assert full == Combined(style, ctlr, old(captured), old(obj.entries));
      var equal := CompareStatus(ctlr, obj.entries, full);
      if equal {
        return false;
      }
      obj.entries := full;
      return true;
    }
  }

  /** The backoff gives up after this many rounds. */
  const STEPS: nat := 4

  /** One status request. `script` is how the API server answers, round by round; it is shorter than `STEPS`
      if the context is cancelled. */
  method WriteStatuses(setter: Setter, script: seq<Attempt>) returns (outcome: Outcome)
    requires |script| <= STEPS
    modifies setter
    ensures outcome == Retry(setter.style, setter.ctlr, old(setter.captured), script)
  {
    var obj := new Object();
    outcome := Retrying(setter.captured);
    for i := 0 to |script|
      invariant outcome == Retry(setter.style, setter.ctlr, old(setter.captured), script[..i])
      invariant outcome.Retrying? ==> outcome.captured == setter.captured
    {
      assert script[..i + 1][..i] == script[..i];
      if outcome.Retrying? {
        match script[i] {
          case GetFails =>
          case Missing =>
            outcome := Gone;
          case Fetched(prev, accepted) =>
            obj.entries := prev;
            var wasSet := setter.Call(obj);
            outcome :=
              if !wasSet then Skipped else if accepted then Written(obj.entries) else Retrying(setter.captured);
        }
      }
    }
    assert script[..|script|] == script;
  }
}
