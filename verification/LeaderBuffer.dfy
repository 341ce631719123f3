/** Status updates by group before and after this instance becomes the leader: kept until then, written at once
    from then on. */
module LeaderBuffer {
  import opened Ordering

  /** `Enable` carries the order in which the saved groups are visited. */
  datatype Call<R> = UpdateGroup(name: string, reqs: seq<R>) | Enable(order: seq<string>)

  /** `written` lists the request lists handed to the updater. */
  datatype State<R> = State(enabled: bool, groupReqs: map<string, seq<R>>, written: seq<seq<R>>)

  function Flush<R>(groupReqs: map<string, seq<R>>, order: seq<string>): (r: seq<seq<R>>)
    requires Elements(order) <= groupReqs.Keys
  {
    seq(|order|, i requires 0 <= i < |order| => assert order[i] in Elements(order); groupReqs[order[i]])
  }

  /** The order visits every saved group once. */
  ghost predicate Visits<R>(groupReqs: map<string, seq<R>>, order: seq<string>) {
    NoDuplicates(order) && Elements(order) == groupReqs.Keys
  }

  /** Enabling twice panics. */
  ghost predicate Allowed<R>(s: State<R>, c: Call<R>) {
    c.Enable? ==> !s.enabled && Visits(s.groupReqs, c.order)
  }

  ghost function Step<R>(s: State<R>, c: Call<R>): (r: State<R>)
    requires Allowed(s, c)
  {
    match c
    case UpdateGroup(name, reqs) =>
      if s.enabled then s.(written := s.written + [reqs])
      else if reqs == [] then s.(groupReqs := s.groupReqs - {name})
      else s.(groupReqs := s.groupReqs[name := reqs])
    case Enable(order) => State(true, map[], s.written + Flush(s.groupReqs, order))
  }

  function Start<R>(): (s: State<R>) {
    State(false, map[], [])
  }

  ghost predicate Legal<R>(calls: seq<Call<R>>)
    decreases |calls|, 0
  {
    calls != [] ==> Legal(calls[..|calls| - 1]) && Allowed(Run(calls[..|calls| - 1]), calls[|calls| - 1])
  }

  ghost function Run<R>(calls: seq<Call<R>>): (r: State<R>)
    requires Legal(calls)
    decreases |calls|, 1
  {
    if calls == [] then Start() else Step(Run(calls[..|calls| - 1]), calls[|calls| - 1])
  }

  // ---- What is written, from the calls alone ----

  ghost predicate NoEnable<R>(calls: seq<Call<R>>) {
    forall i :: 0 <= i < |calls| ==> calls[i].UpdateGroup?
  }

  /** The requests of a group's last call, empty if there was none. */
  function Last<R>(calls: seq<Call<R>>, name: string): (r: seq<R>) {
    if calls == [] then []
    else if calls[|calls| - 1].UpdateGroup? && calls[|calls| - 1].name == name then calls[|calls| - 1].reqs
    else Last(calls[..|calls| - 1], name)
  }

  lemma RunSnoc<R>(calls: seq<Call<R>>, c: Call<R>)
    requires Legal(calls + [c])
    ensures Legal(calls) && Allowed(Run(calls), c) && Run(calls + [c]) == Step(Run(calls), c)
  {
    assert (calls + [c])[..|calls + [c]| - 1] == calls;
  }

  /** Before `Enable` nothing is written, and the groups whose last call had requests are saved with those. */
  lemma {:induction false} NothingWrittenBefore<R>(calls: seq<Call<R>>)
    requires NoEnable(calls)
    ensures Legal(calls)
    ensures !Run(calls).enabled && Run(calls).written == []
    ensures forall name :: name in Run(calls).groupReqs <==> Last(calls, name) != []
    ensures forall name :: name in Run(calls).groupReqs ==> Run(calls).groupReqs[name] == Last(calls, name)
  {
    if calls != [] {
      NothingWrittenBefore(calls[..|calls| - 1]);
    }
  }

  /** `Enable` hands over each such group's last requests, each once, and leaves nothing saved. */
  lemma EnableWritesTheLast<R>(before: seq<Call<R>>, order: seq<string>)
    requires NoEnable(before) && Legal(before + [Enable(order)])
    ensures NoDuplicates(order)
    ensures forall name :: name in order <==> Last(before, name) != []
    ensures Run(before + [Enable(order)])
            == State(true, map[], seq(|order|, i requires 0 <= i < |order| => Last(before, order[i])))
  {
    NothingWrittenBefore(before);
    RunSnoc(before, Enable(order));
    var saved := Run(before).groupReqs;
    forall name ensures name in order <==> Last(before, name) != [] {
      assert name in order <==> name in Elements(order);
    }
    assert Flush(saved, order) == seq(|order|, i requires 0 <= i < |order| => Last(before, order[i]));
    assert [] + Flush(saved, order) == Flush(saved, order);
  }

  function Requests<R>(calls: seq<Call<R>>): (r: seq<seq<R>>) {
    seq(|calls|, i requires 0 <= i < |calls| => if calls[i].UpdateGroup? then calls[i].reqs else [])
  }

  /** Every legal run: nothing before `Enable`, then the last requests of each group, then every later call's
      requests at once and in order, with nothing ever saved again. */
  lemma {:induction false} WrittenIsExact<R>(before: seq<Call<R>>, order: seq<string>, later: seq<Call<R>>)
    requires NoEnable(before) && Legal(before + [Enable(order)] + later)
    ensures NoEnable(later)
    ensures Legal(before + [Enable(order)])
    ensures Run(before + [Enable(order)] + later)
            == State(true, map[], Run(before + [Enable(order)]).written + Requests(later))
  {
    var first := before + [Enable(order)];
    if later == [] {
      assert first + later == first;
      EnableWritesTheLast(before, order);
      assert Run(first).written + [] == Run(first).written;
    } else {
      var init, c := later[..|later| - 1], later[|later| - 1];
      assert first + later == (first + init) + [c];
      RunSnoc(first + init, c);
      WrittenIsExact(before, order, init);
      assert later == init + [c] && c.UpdateGroup?;
      assert Requests(later) == Requests(init) + [c.reqs];
      var w := Run(first).written;
      assert w + (Requests(init) + [c.reqs]) == (w + Requests(init)) + [c.reqs];
    }
  }

  // ---- The group updater ----

  /** The flush, started in state `s`, has visited the groups in `order`. */
  ghost predicate Midway<R>(s: State<R>, order: seq<string>, groupReqs: map<string, seq<R>>, written: seq<seq<R>>) {
    && NoDuplicates(order) && Elements(order) <= s.groupReqs.Keys
    && groupReqs == s.groupReqs - Elements(order)
    && written == s.written + Flush(s.groupReqs, order)
  }

  lemma VisitNone<R>(s: State<R>)
    ensures Midway(s, [], s.groupReqs, s.written)
  {
    assert Elements<string>([]) == {};
    assert s.groupReqs - {} == s.groupReqs && s.written + [] == s.written;
    assert Flush(s.groupReqs, []) == [];
  }

  lemma VisitOne<R>(s: State<R>, order: seq<string>, groupReqs: map<string, seq<R>>, written: seq<seq<R>>, name: string)
    requires Midway(s, order, groupReqs, written) && name in groupReqs
    ensures Midway(s, order + [name], groupReqs - {name}, written + [groupReqs[name]])
  {
    var longer := order + [name];
    assert name !in Elements(order);
    assert Elements(longer) == Elements(order) + {name} by {
      forall n ensures n in Elements(longer) <==> n in Elements(order) + {name} { }
    }
    assert s.groupReqs - Elements(longer) == groupReqs - {name};
    assert Flush(s.groupReqs, longer) == Flush(s.groupReqs, order) + [groupReqs[name]];
  }

  lemma VisitedAll<R>(s: State<R>, order: seq<string>, groupReqs: map<string, seq<R>>, written: seq<seq<R>>)
    requires Midway(s, order, groupReqs, written) && groupReqs.Keys == {} && !s.enabled
    ensures Allowed(s, Call.Enable(order)) && State(true, groupReqs, written) == Step(s, Call.Enable(order))
  {
    forall n | n in s.groupReqs.Keys ensures n in Elements(order) {
      assert n !in groupReqs;
    }
  }

  class LeaderAwareGroupUpdater<R> {
    var groupReqs: map<string, seq<R>>
    var enabled: bool
    /** What the updater below was asked to write. */
    var written: seq<seq<R>>

    ghost function Now(): (s: State<R>)
      reads this
    {
      State(enabled, groupReqs, written)
    }

    constructor ()
      ensures Now() == Start()
    {
      groupReqs, enabled, written := map[], false, [];
    }

    method UpdateGroup(name: string, reqs: seq<R>)
      modifies this
      ensures Now() == Step(old(Now()), Call.UpdateGroup(name, reqs))
    {
      if !enabled {
        if |reqs| == 0 {
          groupReqs := groupReqs - {name};
          return;
        }
        groupReqs := groupReqs[name := reqs];
        return;
      }
      written := written + [reqs];
    }

    /** `order` is the order the groups were visited in. */
    method Enable() returns (order: seq<string>)
      requires !enabled
      modifies this
      ensures Allowed(old(Now()), Call.Enable(order))
      ensures Now() == Step(old(Now()), Call.Enable(order))
    {
      enabled := true;
      order := [];
      ghost var s := old(Now());
      VisitNone(s);
      while groupReqs.Keys != {}
        invariant enabled && Midway(s, order, groupReqs, written)
        decreases |groupReqs.Keys|
      {
        var name :| name in groupReqs.Keys;
        VisitOne(s, order, groupReqs, written, name);
        assert (groupReqs - {name}).Keys == groupReqs.Keys - {name};
        written := written + [groupReqs[name]];
        groupReqs := groupReqs - {name};
        order := order + [name];
      }
      VisitedAll(s, order, groupReqs, written);
    }
  }
}
