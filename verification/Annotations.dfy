/** The annotation merge of the provisioner: NGF's own annotations are laid over those other controllers
    wrote, and a comma-joined record of NGF's keys is kept beside them so that a later merge can drop
    the keys that are no longer wanted. */
module Annotations {
  import opened Ordering

  type Annots = map<string, string>

  const TRACKING_KEY := "gateway.nginx.org/internal-managed-annotation-keys"

  // ---- strings.Join and strings.SplitSeq with "," ----

  function Join(ks: seq<string>): (r: string)
    requires ks != []
  {
    if |ks| == 1 then ks[0] else ks[0] + "," + Join(ks[1..])
  }

  function Split(s: string): (r: seq<string>)
    ensures r != []
  {
    if s == [] then [[]]
    else if s[0] == ',' then [[]] + Split(s[1..])
    else var rest := Split(s[1..]); [[s[0]] + rest[0]] + rest[1..]
  }

  predicate CommaFree(s: string) {
    ',' !in s
  }

  lemma {:induction false} SplitPiecesAreCommaFree(s: string)
    ensures forall p :: p in Split(s) ==> CommaFree(p)
  {
    if s != [] {
      SplitPiecesAreCommaFree(s[1..]);
      assert Split(s[1..])[0] in Split(s[1..]);
    }
  }

  lemma {:induction false} SplitCommaFree(s: string)
    requires CommaFree(s)
    ensures Split(s) == [s]
  {
    if s != [] {
      assert s[0] in s;
      SplitCommaFree(s[1..]);
      var rest := Split(s[1..]);
      assert rest[0] == s[1..] && rest[1..] == [];
      assert [s[0]] + rest[0] == s;
      assert [[s[0]] + rest[0]] + rest[1..] == [s];
    }
  }

  lemma {:induction false} SplitOfConcat(a: string, b: string)
    ensures Split(a + "," + b) == Split(a) + Split(b)
  {
    var whole := a + "," + b;
    if a == [] {
      assert whole[1..] == b;
    } else {
      assert whole[1..] == a[1..] + "," + b;
      SplitOfConcat(a[1..], b);
    }
  }

  /** The record of a key list, read back: a key is found in it exactly when it was listed and can be
      told apart from its neighbours. */
  lemma {:induction false} SplitJoinMembers(ks: seq<string>, k: string)
    requires ks != []
    ensures CommaFree(k) && k in ks ==> k in Split(Join(ks))
    ensures (forall x :: x in ks ==> CommaFree(x)) && k in Split(Join(ks)) ==> k in ks
  {
    if |ks| == 1 {
      if CommaFree(ks[0]) { SplitCommaFree(ks[0]); }
    } else {
      SplitOfConcat(ks[0], Join(ks[1..]));
      SplitJoinMembers(ks[1..], k);
      if CommaFree(ks[0]) { SplitCommaFree(ks[0]); }
    }
  }

  // ---- The record of managed keys ----

  ghost predicate EnumeratesSorted(keys: seq<string>, ks: set<string>) {
    NoDuplicates(keys) && Elements(keys) == ks && SortedBy(keys, StringLe)
  }

  lemma SortedEnumerationIsUnique(a: seq<string>, b: seq<string>, ks: set<string>)
    requires EnumeratesSorted(a, ks) && EnumeratesSorted(b, ks)
    ensures a == b
  {
    DistinctSameSet(a, b);
    StringLeIsTotalOrder();
    SortedIsUnique(a, b, StringLe);
  }

  lemma {:induction false} SortedEnumerationExists(ks: set<string>) returns (keys: seq<string>)
    ensures EnumeratesSorted(keys, ks)
  {
    if ks == {} {
      keys := [];
    } else {
      var k :| k in ks;
      var rest := SortedEnumerationExists(ks - {k});
      assert Elements([k] + rest) == {k} + Elements(rest) == ks;
      assert NoDuplicates([k] + rest) by { assert k !in Elements(rest); }
      keys := SortKeys([k] + rest, ks);
    }
  }

  lemma SortKeys(keys: seq<string>, ks: set<string>) returns (sorted: seq<string>)
    requires NoDuplicates(keys) && Elements(keys) == ks
    ensures EnumeratesSorted(sorted, ks)
    ensures sorted == Sort(keys, StringLe)
  {
    StringLeIsTotalOrder();
    SortSorts(keys, StringLe);
    sorted := Sort(keys, StringLe);
    SameElements(sorted, keys);
    MultisetOfDistinct(keys);
    PermutationKeepsDistinct(sorted, keys);
  }

  /** The tracking value is a function of the set of desired keys alone. */
  ghost function Record(ks: set<string>): (r: string)
    requires ks != {}
  {
    var w := SortedKeysOf(ks);
    Join(w)
  }

  ghost function SortedKeysOf(ks: set<string>): (keys: seq<string>)
    ensures EnumeratesSorted(keys, ks)
    ensures ks != {} ==> keys != []
  {
    assert exists keys :: EnumeratesSorted(keys, ks) by {
      var keys := SortedEnumerationExists(ks);
    }
    var keys :| EnumeratesSorted(keys, ks);
    keys
  }

  /** The keys a previous merge recorded on the object. */
  ghost function PreviousKeys(existing: Annots): (r: set<string>) {
    if TRACKING_KEY in existing then set k | k in Split(existing[TRACKING_KEY]) && k != "" else {}
  }

  ghost function Merged(existing: Annots, desired: Annots): (r: Annots) {
    var previous := PreviousKeys(existing);
    var kept := map k | k in existing && k != TRACKING_KEY && !(k in previous && k !in desired) :: existing[k];
    var all := kept + desired;
    if desired == map[] then all else all[TRACKING_KEY := Record(desired.Keys)]
  }

  method ReadPreviousKeys(existing: Annots) returns (previousKeys: set<string>)
    ensures previousKeys == PreviousKeys(existing)
  {
    previousKeys := {};
    if TRACKING_KEY in existing {
      var pieces := Split(existing[TRACKING_KEY]);
      for i := 0 to |pieces|
        invariant previousKeys == set k | k in pieces[..i] && k != ""
      {
        assert pieces[..i + 1] == pieces[..i] + [pieces[i]];
        if pieces[i] != "" { previousKeys := previousKeys + {pieces[i]}; }
      }
      assert pieces[..|pieces|] == pieces;
    }
  }

  /** mergeAnnotations, with its loops. */
  method MergeAnnotations(existing: Annots, desired: Annots) returns (annotations: Annots)
    ensures annotations == Merged(existing, desired)
  {
    var previousKeys := ReadPreviousKeys(existing);

    annotations := map[];
    var todo := existing.Keys;
    while todo != {}
      invariant todo <= existing.Keys
      invariant annotations ==
                map k | k in existing && k !in todo && k != TRACKING_KEY
                    && !(k in previousKeys && k !in desired) :: existing[k]
      decreases todo
    {
      var key :| key in todo;
      todo := todo - {key};
      if key != TRACKING_KEY && !(key in previousKeys && key !in desired) {
        annotations := annotations[key := existing[key]];
      }
    }
    annotations := annotations + desired;

    if desired != map[] {
      var keys := CollectKeys(desired.Keys);
      annotations := annotations[TRACKING_KEY := Join(keys)];
      SortedEnumerationIsUnique(keys, SortedKeysOf(desired.Keys), desired.Keys);
    }
  }

  /** The managed keys in map iteration order, then `slices.Sort`. */
  method CollectKeys(ks: set<string>) returns (keys: seq<string>)
    requires ks != {}
    ensures keys != [] && EnumeratesSorted(keys, ks)
  {
    var collected: seq<string> := [];
    var todo := ks;
    while todo != {}
      invariant todo <= ks
      invariant NoDuplicates(collected) && Elements(collected) == ks - todo
      decreases todo
    {
      var k :| k in todo;
      todo := todo - {k};
      assert k !in Elements(collected);
      assert Elements(collected + [k]) == Elements(collected) + {k};
      collected := collected + [k];
    }
    keys := Sort(collected, StringLe);
    ghost var sorted := SortKeys(collected, ks);
  }

  // ---- What a run of merges leaves behind ----

  ghost predicate Trackable(k: string) {
    k != "" && CommaFree(k)
  }

  ghost predicate TrackableKeys(desired: Annots) {
    forall k :: k in desired ==> Trackable(k) && k != TRACKING_KEY
  }

  /** A merge remembers a key it wrote exactly when the key is trackable, whatever the other keys are. */
  lemma RecordRemembers(existing: Annots, desired: Annots, k: string)
    requires k in desired
    ensures k in PreviousKeys(Merged(existing, desired)) <==> Trackable(k)
  {
    var keys := SortedKeysOf(desired.Keys);
    assert k in Elements(keys);
    SplitJoinMembers(keys, k);
    SplitPiecesAreCommaFree(Join(keys));
  }

  /** A merge remembers nothing else when all of its keys are trackable. */
  lemma RecordIsExact(existing: Annots, desired: Annots)
    requires TrackableKeys(desired)
    ensures PreviousKeys(Merged(existing, desired)) == desired.Keys
  {
    var after := Merged(existing, desired);
    if desired != map[] {
      var keys := SortedKeysOf(desired.Keys);
      forall x | x in keys ensures CommaFree(x) { assert x in Elements(keys); }
      forall k ensures k in PreviousKeys(after) <==> k in desired.Keys {
        if k in desired.Keys {
          RecordRemembers(existing, desired, k);
        } else {
          SplitJoinMembers(keys, k);
          assert k in keys ==> k in Elements(keys);
        }
      }
    }
  }

  /** The exact condition under which a key that is no longer desired leaves the object: the next merge
      drops it if and only if the key is non-empty and has no comma. */
  lemma ObsoleteKeyIsDroppedIffTrackable(existing: Annots, first: Annots, second: Annots, k: string)
    requires k in first && k !in second && k != TRACKING_KEY
    ensures k !in Merged(Merged(existing, first), second) <==> Trackable(k)
  {
    RecordRemembers(existing, first, k);
  }

  /** Reconciling twice with the same annotations changes nothing. */
  lemma MergeIsIdempotent(existing: Annots, desired: Annots)
    requires TrackableKeys(desired)
    ensures Merged(Merged(existing, desired), desired) == Merged(existing, desired)
  {
    RecordIsExact(existing, desired);
  }

  /** What can happen to the annotations of a provisioned object. */
  datatype Op =
    | Reconcile(desired: Annots)              // a setter runs with the annotations NGF wants
    | ExternalSet(key: string, value: string) // another controller or a user writes a key
    | ExternalRemove(key: string)

  ghost predicate Permitted(op: Op) {
    match op
    case Reconcile(d) => TrackableKeys(d)
    case ExternalSet(k, _) => k != TRACKING_KEY
    case ExternalRemove(k) => k != TRACKING_KEY
  }

  ghost function Apply(a: Annots, op: Op): (r: Annots) {
    match op
    case Reconcile(d) => Merged(a, d)
    case ExternalSet(k, v) => a[k := v]
    case ExternalRemove(k) => a - {k}
  }

  ghost function Run(a: Annots, ops: seq<Op>): (r: Annots) {
    if ops == [] then a else Apply(Run(a, ops[..|ops| - 1]), ops[|ops| - 1])
  }

  /** An account of ownership kept without any serialized record: NGF owns the keys of its last
      annotations, everyone else owns the rest, and a key NGF takes over is never given back. */
  datatype Ownership = Ownership(foreign: Annots, managed: Annots)

  ghost function Account(o: Ownership, op: Op): (r: Ownership) {
    match op
    case Reconcile(d) => Ownership(o.foreign - d.Keys, d)
    case ExternalSet(k, v) => if k in o.managed then o else o.(foreign := o.foreign[k := v])
    case ExternalRemove(k) => if k in o.managed then o else o.(foreign := o.foreign - {k})
  }

  ghost function AccountRun(start: Annots, ops: seq<Op>): (r: Ownership) {
    if ops == [] then Ownership(start, map[]) else Account(AccountRun(start, ops[..|ops| - 1]), ops[|ops| - 1])
  }

  ghost predicate Represents(a: Annots, o: Ownership) {
    && TRACKING_KEY !in o.foreign && TrackableKeys(o.managed) && o.foreign.Keys !! o.managed.Keys
    && PreviousKeys(a) == o.managed.Keys
    && (forall k :: k != TRACKING_KEY && k !in o.managed ==> (k in a <==> k in o.foreign))
    && (forall k :: k in o.foreign ==> k in a && a[k] == o.foreign[k])
  }

  /** The annotations as ownership dictates them right after a merge. */
  ghost function Published(o: Ownership): (r: Annots) {
    var all := o.foreign + o.managed;
    if o.managed == map[] then all else all[TRACKING_KEY := Record(o.managed.Keys)]
  }

  lemma ReconcilePublishes(a: Annots, o: Ownership, d: Annots)
    requires Represents(a, o) && TrackableKeys(d)
    ensures Merged(a, d) == Published(Account(o, Reconcile(d)))
    ensures Represents(Merged(a, d), Account(o, Reconcile(d)))
  {
    var o' := Account(o, Reconcile(d));
    var kept := map k | k in a && k != TRACKING_KEY && !(k in PreviousKeys(a) && k !in d) :: a[k];
    forall k ensures k in kept + d <==> k in o'.foreign + d {
    }
    assert kept + d == o'.foreign + d;
    RecordIsExact(a, d);
  }

  lemma {:induction false} RunRepresents(start: Annots, ops: seq<Op>)
    requires TRACKING_KEY !in start
    requires forall op :: op in ops ==> Permitted(op)
    ensures Represents(Run(start, ops), AccountRun(start, ops))
  {
    if ops != [] {
      var before, op := ops[..|ops| - 1], ops[|ops| - 1];
      RunRepresents(start, before);
      assert op in ops;
      if op.Reconcile? { ReconcilePublishes(Run(start, before), AccountRun(start, before), op.desired); }
    }
  }

  /** In every run, with other controllers writing and removing annotations at any time, each merge
      leaves exactly the annotations that ownership dictates, although the code only has the record
      that the previous merge serialized into the object. */
  lemma EveryMergePublishesOwnership(start: Annots, ops: seq<Op>, d: Annots)
    requires TRACKING_KEY !in start && TrackableKeys(d)
    requires forall op :: op in ops ==> Permitted(op)
    ensures Run(start, ops + [Reconcile(d)]) == Published(AccountRun(start, ops + [Reconcile(d)]))
  {
    RunRepresents(start, ops);
    var all := ops + [Reconcile(d)];
    assert all[..|all| - 1] == ops;
    ReconcilePublishes(Run(start, ops), AccountRun(start, ops), d);
  }

  ghost function EverDesired(ds: seq<Annots>): (r: set<string>) {
    if ds == [] then {} else EverDesired(ds[..|ds| - 1]) + ds[|ds| - 1].Keys
  }

  ghost function Reconciles(ds: seq<Annots>): (r: seq<Op>) {
    seq(|ds|, i requires 0 <= i < |ds| => Reconcile(ds[i]))
  }

  lemma {:induction false} UndisturbedAccount(start: Annots, ds: seq<Annots>)
    ensures AccountRun(start, Reconciles(ds)).foreign == start - EverDesired(ds)
    ensures ds != [] ==> AccountRun(start, Reconciles(ds)).managed == ds[|ds| - 1]
  {
    if ds != [] {
      var before := ds[..|ds| - 1];
      assert Reconciles(ds)[..|ds| - 1] == Reconciles(before);
      UndisturbedAccount(start, before);
    }
  }

  lemma ReconcilesArePermitted(ds: seq<Annots>)
    requires forall i :: 0 <= i < |ds| ==> TrackableKeys(ds[i])
    ensures forall op :: op in Reconciles(ds) ==> Permitted(op)
  {
  }

  /** Without outside writes: what was there at the start, minus every key NGF ever asked for, under the
      last annotations NGF asked for, plus the record of their keys. */
  lemma MergeRunClosedForm(start: Annots, ds: seq<Annots>)
    requires TRACKING_KEY !in start && ds != []
    requires forall i :: 0 <= i < |ds| ==> TrackableKeys(ds[i])
    ensures Run(start, Reconciles(ds)) == Published(Ownership(start - EverDesired(ds), ds[|ds| - 1]))
  {
    var before, last := ds[..|ds| - 1], ds[|ds| - 1];
    assert Reconciles(ds) == Reconciles(before) + [Reconcile(last)];
    ReconcilesArePermitted(before);
    assert TrackableKeys(last);
    EveryMergePublishesOwnership(start, Reconciles(before), last);
    UndisturbedAccount(start, ds);
    assert AccountRun(start, Reconciles(ds)) == Ownership(start - EverDesired(ds), last);
  }
}
