/** The provisioner's record of the Secrets it created for a Gateway. Which slot of the record a Secret belongs
    to is read off the end of its name; its resource version is looked up by the whole name. */
module SecretSlots {
  import ResourceNames
  import opened Wrappers

  datatype Meta = Meta(name: string, namespace: string, version: string)

  const NOBODY := Meta("", "", "")

  datatype Slot = AgentTLS | JWT | CA | ClientSSL | DataplaneKey

  /** Base names of the Secrets, from the configuration; an empty one is not configured. */
  datatype Bases = Bases(
    agentTLS: string,
    jwt: string,
    ca: string,
    clientSSL: string,
    dataplaneKey: string,
    docker: set<string>)

  function BaseOf(b: Bases, s: Slot): (r: string) {
    match s
    case AgentTLS => b.agentTLS
    case JWT => b.jwt
    case CA => b.ca
    case ClientSSL => b.clientSSL
    case DataplaneKey => b.dataplaneKey
  }

  /** Position of a slot in the order in which registration tries them. */
  function Rank(s: Slot): (r: nat) {
    match s
    case AgentTLS => 0
    case JWT => 1
    case CA => 2
    case ClientSSL => 3
    case DataplaneKey => 4
  }

  datatype Resources = Resources(
    agentTLS: Meta,
    jwt: Meta,
    ca: Meta,
    clientSSL: Meta,
    dataplaneKey: Meta,
    docker: seq<Meta>)

  const EMPTY := Resources(NOBODY, NOBODY, NOBODY, NOBODY, NOBODY, [])

  function Get(r: Resources, s: Slot): (m: Meta) {
    match s
    case AgentTLS => r.agentTLS
    case JWT => r.jwt
    case CA => r.ca
    case ClientSSL => r.clientSSL
    case DataplaneKey => r.dataplaneKey
  }

  function Set(r: Resources, s: Slot, m: Meta): (q: Resources) {
    match s
    case AgentTLS => r.(agentTLS := m)
    case JWT => r.(jwt := m)
    case CA => r.(ca := m)
    case ClientSSL => r.(clientSSL := m)
    case DataplaneKey => r.(dataplaneKey := m)
  }

  // ---- Classification by suffix ----

  predicate EndsIn(s: string, suffix: string) {
    |suffix| <= |s| && s[|s| - |suffix|..] == suffix
  }

  predicate HasSuffix(s: string, suffix: string) {
    suffix != "" && EndsIn(s, suffix)
  }

  function Classify(b: Bases, name: string): (r: Option<Slot>) {
    if HasSuffix(name, b.agentTLS) then Some(AgentTLS)
    else if HasSuffix(name, b.jwt) then Some(JWT)
    else if HasSuffix(name, b.ca) then Some(CA)
    else if HasSuffix(name, b.clientSSL) then Some(ClientSSL)
    else if HasSuffix(name, b.dataplaneKey) then Some(DataplaneKey)
    else None
  }

  function DockerMatches(b: Bases, name: string): (r: set<string>) {
    set d | d in b.docker && HasSuffix(name, d)
  }

  /** The slot is the first one, in the order tried, whose base ends the name. */
  lemma ClassifyIsFirst(b: Bases, name: string, s: Slot)
    ensures Classify(b, name) == Some(s)
            <==> HasSuffix(name, BaseOf(b, s)) && forall t :: Rank(t) < Rank(s) ==> !HasSuffix(name, BaseOf(b, t))
  {
    if HasSuffix(name, BaseOf(b, s)) && forall t :: Rank(t) < Rank(s) ==> !HasSuffix(name, BaseOf(b, t)) {
      assert Rank(AgentTLS) < Rank(s) ==> !HasSuffix(name, BaseOf(b, AgentTLS));
      assert Rank(JWT) < Rank(s) ==> !HasSuffix(name, BaseOf(b, JWT));
      assert Rank(CA) < Rank(s) ==> !HasSuffix(name, BaseOf(b, CA));
      assert Rank(ClientSSL) < Rank(s) ==> !HasSuffix(name, BaseOf(b, ClientSSL));
    }
  }

  /** Some name made of a prefix, a dash and `base` ends in `other`. */
  predicate Confusable(base: string, other: string) {
    other != "" && (EndsIn("-" + base, other) || EndsIn(other, "-" + base))
  }

  lemma ConfusableIff(base: string, other: string)
    ensures Confusable(base, other) <==> exists prefix :: HasSuffix(prefix + "-" + base, other)
  {
    var tail := "-" + base;
    if Confusable(base, other) {
      var prefix := if EndsIn(tail, other) then "" else other[..|other| - |tail|];
      assert prefix + "-" + base == prefix + tail;
      if EndsIn(tail, other) {
        assert "" + tail == tail;
      } else {
        assert prefix + tail == other;
        assert other[0..] == other;
      }
      assert HasSuffix(prefix + "-" + base, other);
    }
    if exists prefix :: HasSuffix(prefix + "-" + base, other) {
      var prefix :| HasSuffix(prefix + "-" + base, other);
      EndsAreNested(prefix + "-" + base, prefix, tail, other);
    }
  }

  /** Of two strings that end the same name, one ends the other. */
  lemma EndsAreNested(name: string, prefix: string, tail: string, other: string)
    requires name == prefix + tail && EndsIn(name, other)
    ensures EndsIn(tail, other) || EndsIn(other, tail)
  {
    if |other| <= |tail| {
      assert tail[|tail| - |other|..] == name[|name| - |other|..];
    } else {
      assert other[|other| - |tail|..] == name[|name| - |tail|..] == tail;
    }
  }

  /** Every Secret named after slot s is recorded in slot s and nowhere else. */
  ghost predicate SlotIsSafe(b: Bases, s: Slot) {
    forall prefix :: var name := prefix + "-" + BaseOf(b, s);
      Classify(b, name) == Some(s) && DockerMatches(b, name) == {}
  }

  /** Exactly when that holds: the slot has a base, and no slot tried before it and no docker Secret has a base
      that ends a dash and this base, or ends in one. */
  lemma SlotIsSafeIff(b: Bases, s: Slot)
    ensures SlotIsSafe(b, s)
            <==> && BaseOf(b, s) != ""
                 && (forall t :: Rank(t) < Rank(s) ==> !Confusable(BaseOf(b, s), BaseOf(b, t)))
                 && (forall d :: d in b.docker ==> !Confusable(BaseOf(b, s), d))
  {
    var base := BaseOf(b, s);
    if SlotIsSafe(b, s) {
      ClassifyIsFirst(b, "" + "-" + base, s);
      forall t | Rank(t) < Rank(s) ensures !Confusable(base, BaseOf(b, t)) {
        ConfusableIff(base, BaseOf(b, t));
        forall prefix ensures !HasSuffix(prefix + "-" + base, BaseOf(b, t)) {
          ClassifyIsFirst(b, prefix + "-" + base, s);
        }
      }
      forall d | d in b.docker ensures !Confusable(base, d) {
        ConfusableIff(base, d);
        forall prefix ensures !HasSuffix(prefix + "-" + base, d) {
          assert d in DockerMatches(b, prefix + "-" + base) <==> HasSuffix(prefix + "-" + base, d);
        }
      }
    }
    if && base != ""
       && (forall t :: Rank(t) < Rank(s) ==> !Confusable(base, BaseOf(b, t)))
       && (forall d :: d in b.docker ==> !Confusable(base, d)) {
      forall prefix ensures Classify(b, prefix + "-" + base) == Some(s) && DockerMatches(b, prefix + "-" + base) == {} {
        NameIsSafe(b, s, prefix);
      }
    }
  }

  lemma NameIsSafe(b: Bases, s: Slot, prefix: string)
    requires BaseOf(b, s) != ""
    requires forall t :: Rank(t) < Rank(s) ==> !Confusable(BaseOf(b, s), BaseOf(b, t))
    requires forall d :: d in b.docker ==> !Confusable(BaseOf(b, s), d)
    ensures Classify(b, prefix + "-" + BaseOf(b, s)) == Some(s)
    ensures DockerMatches(b, prefix + "-" + BaseOf(b, s)) == {}
  {
    var base := BaseOf(b, s);
    var name := prefix + "-" + base;
    assert name[|name| - |base|..] == base;
    forall t | Rank(t) < Rank(s) ensures !HasSuffix(name, BaseOf(b, t)) { ConfusableIff(base, BaseOf(b, t)); }
    ClassifyIsFirst(b, name, s);
    forall d | d in b.docker ensures !HasSuffix(name, d) { ConfusableIff(base, d); }
  }

  lemma ConfusableEnds(base: string, other: string)
    requires Confusable(base, other)
    ensures EndsIn(base, other) || EndsIn(other, base)
  {
    var tail := "-" + base;
    assert tail[1..] == base;
    if EndsIn(tail, other) && |other| <= |base| {
      assert base[|base| - |other|..] == tail[|tail| - |other|..];
    } else {
      assert EndsIn(other, tail);
      assert other[|other| - |base|..] == other[|other| - |tail|..][1..];
    }
  }

  /** In particular a slot is safe if it is configured and no other configured base ends its base or ends in it. */
  lemma SuffixFreeBasesAreSafe(b: Bases, s: Slot)
    requires BaseOf(b, s) != ""
    requires forall t :: t != s && BaseOf(b, t) != "" ==>
               !EndsIn(BaseOf(b, s), BaseOf(b, t)) && !EndsIn(BaseOf(b, t), BaseOf(b, s))
    requires forall d :: d in b.docker && d != "" ==> !EndsIn(BaseOf(b, s), d) && !EndsIn(d, BaseOf(b, s))
    ensures SlotIsSafe(b, s)
  {
    var base := BaseOf(b, s);
    forall t | Rank(t) < Rank(s) ensures !Confusable(base, BaseOf(b, t)) {
      assert t != s;
      if Confusable(base, BaseOf(b, t)) { ConfusableEnds(base, BaseOf(b, t)); }
    }
    forall d | d in b.docker ensures !Confusable(base, d) {
      if Confusable(base, d) { ConfusableEnds(base, d); }
    }
    SlotIsSafeIff(b, s);
  }

  /** With the bases "tls" and "jwt-tls" every license Secret lands in the agent's slot. */
  lemma SuffixBaseTakesTheSlot(prefix: string)
    ensures var b := Bases("tls", "jwt-tls", "", "", "", {});
            Classify(b, prefix + "-" + b.jwt) == Some(AgentTLS)
  {
    var name := prefix + "-" + "jwt-tls";
    assert name[|name| - 3..] == "tls";
  }

  // ---- Registration and lookup ----

  function Copies(m: Meta, n: nat): (r: seq<Meta>) {
    seq(n, i => m)
  }

  function SetSlot(b: Bases, r: Resources, m: Meta): (q: Resources) {
    var s := Classify(b, m.name);
    if s.Some? then Set(r, s.value, m) else r
  }

  function Register(b: Bases, r: Option<Resources>, m: Meta): (q: Option<Resources>) {
    if r.None? then
      if DockerMatches(b, m.name) != {} then Some(EMPTY.(docker := [m]))
      else if Classify(b, m.name).Some? then Some(SetSlot(b, EMPTY, m))
      else None
    else
      var set1 := SetSlot(b, r.value, m);
      Some(set1.(docker := set1.docker + Copies(m, |DockerMatches(b, m.name)|)))
  }

  /** The record after a sequence of registrations. A Gateway may have no record at the start, an empty one, which
      registering the Gateway itself creates, or any other. */
  function Run(b: Bases, start: Option<Resources>, ms: seq<Meta>): (r: Option<Resources>) {
    if ms == [] then start else Register(b, Run(b, start, ms[..|ms| - 1]), ms[|ms| - 1])
  }

  function FirstNamed(ms: seq<Meta>, name: string): (r: Option<Meta>) {
    if ms == [] then None else if ms[0].name == name then Some(ms[0]) else FirstNamed(ms[1..], name)
  }

  function Lookup(r: Option<Resources>, name: string): (v: string) {
    if r.None? then "" else
      var d := FirstNamed(r.value.docker, name);
      if r.value.agentTLS.name == name then r.value.agentTLS.version
      else if d.Some? then d.value.version
      else if r.value.jwt.name == name then r.value.jwt.version
      else if r.value.clientSSL.name == name then r.value.clientSSL.version
      else if r.value.ca.name == name then r.value.ca.version
      else if r.value.dataplaneKey.name == name then r.value.dataplaneKey.version
      else ""
  }

  /** Every slot is empty or holds a Secret that belongs there, and so does the docker list. */
  ghost predicate WellPlaced(b: Bases, r: Option<Resources>) {
    r.Some? ==>
      && (forall s :: Get(r.value, s) == NOBODY || Classify(b, Get(r.value, s).name) == Some(s))
      && (forall i :: 0 <= i < |r.value.docker| ==> DockerMatches(b, r.value.docker[i].name) != {})
  }

  lemma SetSlotEffect(b: Bases, r: Resources, m: Meta, s: Slot)
    ensures Get(SetSlot(b, r, m), s) == if Classify(b, m.name) == Some(s) then m else Get(r, s)
    ensures SetSlot(b, r, m).docker == r.docker
  {
  }

  lemma GetIgnoresDocker(r: Resources, docker: seq<Meta>, s: Slot)
    ensures Get(r.(docker := docker), s) == Get(r, s)
  {
  }

  lemma RegisterKeepsPlaces(b: Bases, r: Option<Resources>, m: Meta)
    requires WellPlaced(b, r)
    ensures WellPlaced(b, Register(b, r, m))
  {
    var before, after := if r.Some? then r.value else EMPTY, Register(b, r, m);
    if after.Some? {
      var matches := DockerMatches(b, m.name);
      forall s ensures Get(after.value, s) == NOBODY || Classify(b, Get(after.value, s).name) == Some(s) {
        SetSlotEffect(b, before, m, s);
        GetIgnoresDocker(SetSlot(b, before, m), after.value.docker, s);
        GetIgnoresDocker(before, after.value.docker, s);
      }
      SetSlotEffect(b, before, m, AgentTLS);
      forall i | 0 <= i < |after.value.docker| ensures DockerMatches(b, after.value.docker[i].name) != {} {
        if i < |before.docker| {
          assert after.value.docker[i] == before.docker[i];
        } else {
          assert after.value.docker[i] == m && matches != {};
        }
      }
    }
  }

  lemma {:induction false} RunIsWellPlaced(b: Bases, start: Option<Resources>, ms: seq<Meta>)
    requires WellPlaced(b, start)
    ensures WellPlaced(b, Run(b, start, ms))
  {
    if ms != [] {
      RunIsWellPlaced(b, start, ms[..|ms| - 1]);
      RegisterKeepsPlaces(b, Run(b, start, ms[..|ms| - 1]), ms[|ms| - 1]);
    }
  }

  lemma {:induction false} FirstNamedIsMember(ms: seq<Meta>, name: string)
    ensures FirstNamed(ms, name).Some? ==> FirstNamed(ms, name).value in ms && FirstNamed(ms, name).value.name == name
    ensures FirstNamed(ms, name).None? ==> forall i :: 0 <= i < |ms| ==> ms[i].name != name
  {
    if ms != [] && ms[0].name != name {
      FirstNamedIsMember(ms[1..], name);
      assert forall i :: 0 < i < |ms| ==> ms[i] == ms[1..][i - 1];
    }
  }

  /** In a well placed record, a Secret that belongs to slot s only is found in slot s or not at all. */
  lemma LookupReadsTheSlot(b: Bases, r: Option<Resources>, name: string, s: Slot)
    requires WellPlaced(b, r)
    requires Classify(b, name) == Some(s) && DockerMatches(b, name) == {}
    ensures Lookup(r, name) == if r.Some? && Get(r.value, s).name == name then Get(r.value, s).version else ""
  {
    if r.Some? {
      FirstNamedIsMember(r.value.docker, name);
      assert FirstNamed(r.value.docker, name).None?;
      forall t | t != s ensures Get(r.value, t).name != name { }
      assert AgentTLS == s || Get(r.value, AgentTLS).name != name;
      assert JWT == s || Get(r.value, JWT).name != name;
      assert CA == s || Get(r.value, CA).name != name;
      assert ClientSSL == s || Get(r.value, ClientSSL).name != name;
      assert DataplaneKey == s || Get(r.value, DataplaneKey).name != name;
    }
  }

  /** What slot s of an optional record holds. */
  function Held(r: Option<Resources>, s: Slot): (m: Meta) {
    if r.Some? then Get(r.value, s) else NOBODY
  }

  /** The last registration that went to slot s, or what the slot held at the start. */
  function LastFor(b: Bases, start: Option<Resources>, ms: seq<Meta>, s: Slot): (r: Meta) {
    if ms == [] then Held(start, s)
    else
      var init, m := ms[..|ms| - 1], ms[|ms| - 1];
      if Classify(b, m.name) == Some(s) && (DockerMatches(b, m.name) == {} || Run(b, start, init).Some?) then m
      else LastFor(b, start, init, s)
  }

  /** After any run, each slot holds the last Secret registered for it. */
  lemma {:induction false} SlotHoldsTheLast(b: Bases, start: Option<Resources>, ms: seq<Meta>, s: Slot)
    ensures Held(Run(b, start, ms), s) == LastFor(b, start, ms, s)
  {
    if ms != [] {
      SlotHoldsTheLast(b, start, ms[..|ms| - 1], s);
    }
  }

  lemma RunSnoc(b: Bases, start: Option<Resources>, ms: seq<Meta>, m: Meta)
    ensures Run(b, start, ms + [m]) == Register(b, Run(b, start, ms), m)
  {
    assert (ms + [m])[..|ms + [m]| - 1] == ms;
  }

  /** Registering a Secret that belongs to slot s only, after any run from any well placed record: slot s holds it,
      every other slot and the docker list are as before, and looking its name up gives its version. */
  lemma SecretRoundTrip(b: Bases, start: Option<Resources>, ms: seq<Meta>, m: Meta, s: Slot)
    requires WellPlaced(b, start)
    requires Classify(b, m.name) == Some(s) && DockerMatches(b, m.name) == {}
    ensures Run(b, start, ms + [m]).Some?
    ensures var before, after := Run(b, start, ms), Run(b, start, ms + [m]);
            && Held(after, s) == m
            && (forall t :: t != s ==> Held(after, t) == Held(before, t))
            && after.value.docker == if before.Some? then before.value.docker else []
    ensures Lookup(Run(b, start, ms + [m]), m.name) == m.version
  {
    RunSnoc(b, start, ms, m);
    RunIsWellPlaced(b, start, ms + [m]);
    LookupReadsTheSlot(b, Run(b, start, ms + [m]), m.name, s);
    assert Copies(m, 0) == [];
  }

  /** The same for the name that is built from the Gateway's resource name and the slot's base: if the slot is
      safe the round trip holds for every prefix, cut and hashed or not. */
  lemma BuiltSecretRoundTrip(
      hash: ResourceNames.Hash, b: Bases, prefix: string, start: Option<Resources>, ms: seq<Meta>, m: Meta, s: Slot)
    requires ResourceNames.IsHash(hash) && SlotIsSafe(b, s) && WellPlaced(b, start)
    requires ResourceNames.Build(hash, prefix, BaseOf(b, s)) == Some(m.name)
    ensures |m.name| <= ResourceNames.MAX_NAME && EndsIn(m.name, "-" + BaseOf(b, s))
    ensures Held(Run(b, start, ms + [m]), s) == m
    ensures forall t :: t != s ==> Held(Run(b, start, ms + [m]), t) == Held(Run(b, start, ms), t)
    ensures Lookup(Run(b, start, ms + [m]), m.name) == m.version
  {
    var base := BaseOf(b, s);
    ResourceNames.BuiltNameShape(hash, prefix, base);
    var stem := ResourceNames.Stem(hash, prefix, base);
    assert m.name == stem + "-" + base;
    assert m.name[|stem|..] == "-" + base;
    SecretRoundTrip(b, start, ms, m, s);
  }

  /** The docker list of an optional record. */
  function DockerOf(r: Option<Resources>): (ms: seq<Meta>) {
    if r.Some? then r.value.docker else []
  }

  /** In a well placed record a name that belongs to no slot is looked up in the docker list only. */
  lemma LookupReadsDocker(b: Bases, r: Option<Resources>, name: string)
    requires WellPlaced(b, r) && Classify(b, name).None? && name != ""
    ensures Lookup(r, name) == var d := FirstNamed(DockerOf(r), name); if d.Some? then d.value.version else ""
  {
    if r.Some? {
      forall t ensures Get(r.value, t).name != name { }
      assert Get(r.value, AgentTLS).name != name && Get(r.value, JWT).name != name && Get(r.value, CA).name != name;
      assert Get(r.value, ClientSSL).name != name && Get(r.value, DataplaneKey).name != name;
    }
  }

  /** The docker list after a docker Secret was registered: it is appended once or more. */
  lemma DockerIsAppended(b: Bases, r: Option<Resources>, m: Meta) returns (n: nat)
    requires DockerMatches(b, m.name) != {}
    ensures n > 0 && DockerOf(Register(b, r, m)) == DockerOf(r) + Copies(m, n)
  {
    if r.None? {
      n := 1;
      assert Copies(m, 1) == [m] && [] + [m] == [m];
    } else {
      n := |DockerMatches(b, m.name)|;
      assert n != 0;
    }
  }

  /** A docker Secret is appended each time and lookup finds the first of its name. So a registration is found by
      lookup exactly if the name was not on the list before, or was there first with the same version. */
  lemma DockerRoundTripIff(b: Bases, start: Option<Resources>, ms: seq<Meta>, m: Meta)
    requires WellPlaced(b, start) && Classify(b, m.name).None? && DockerMatches(b, m.name) != {}
    ensures var d := FirstNamed(DockerOf(Run(b, start, ms)), m.name);
            Lookup(Run(b, start, ms + [m]), m.name) == m.version <==> d.None? || d.value.version == m.version
  {
    RunSnoc(b, start, ms, m);
    RunIsWellPlaced(b, start, ms + [m]);
    assert m.name != "";
    LookupReadsDocker(b, Run(b, start, ms + [m]), m.name);
    var n := DockerIsAppended(b, Run(b, start, ms), m);
    FirstNamedOfConcat(DockerOf(Run(b, start, ms)), Copies(m, n), m.name);
    assert FirstNamed(Copies(m, n), m.name) == Some(m);
  }

  /** In particular, after a second registration lookup still gives the version it gave before. */
  lemma DockerLookupKeepsTheFirst(b: Bases, start: Option<Resources>, ms: seq<Meta>, m: Meta)
    requires Classify(b, m.name).None?
    requires FirstNamed(DockerOf(Run(b, start, ms)), m.name).Some?
    ensures Lookup(Run(b, start, ms + [m]), m.name) == Lookup(Run(b, start, ms), m.name)
  {
    RunSnoc(b, start, ms, m);
    FirstNamedOfConcat(DockerOf(Run(b, start, ms)), Copies(m, |DockerMatches(b, m.name)|), m.name);
  }

  lemma {:induction false} FirstNamedOfConcat(a: seq<Meta>, c: seq<Meta>, name: string)
    ensures FirstNamed(a + c, name) == if FirstNamed(a, name).Some? then FirstNamed(a, name) else FirstNamed(c, name)
  {
    if a == [] {
      assert a + c == c;
    } else if a[0].name != name {
      assert (a + c)[1..] == a[1..] + c;
      FirstNamedOfConcat(a[1..], c, name);
    }
  }

  // ---- The store ----

  /** Does the record name this object? */
  method SecretMatches(r: Resources, name: string, namespace: string) returns (found: bool)
    ensures found <==> (exists s :: Get(r, s).name == name && Get(r, s).namespace == namespace)
                       || exists i :: 0 <= i < |r.docker| && r.docker[i].name == name
                           && r.docker[i].namespace == namespace
  {
    if r.agentTLS.name == name && r.agentTLS.namespace == namespace {
      assert Get(r, AgentTLS) == r.agentTLS;
      return true;
    }
    for i := 0 to |r.docker|
      invariant forall j :: 0 <= j < i ==> !(r.docker[j].name == name && r.docker[j].namespace == namespace)
    {
      if r.docker[i].name == name && r.docker[i].namespace == namespace {
        return true;
      }
    }
    assert Get(r, JWT) == r.jwt && Get(r, ClientSSL) == r.clientSSL && Get(r, CA) == r.ca
        && Get(r, DataplaneKey) == r.dataplaneKey;
    if (r.jwt.name == name && r.jwt.namespace == namespace)
      || (r.clientSSL.name == name && r.clientSSL.namespace == namespace)
      || (r.dataplaneKey.name == name && r.dataplaneKey.namespace == namespace) {
      return true;
    }
    return r.ca.name == name && r.ca.namespace == namespace;
  }

  class Store {
    const bases: Bases
    var nginxResources: map<string, Resources>

    constructor (bases: Bases)
      ensures this.bases == bases && nginxResources == map[]
    {
      this.bases, nginxResources := bases, map[];
    }

    ghost function Record(gateway: string): (r: Option<Resources>)
      reads this
    {
      if gateway in nginxResources then Some(nginxResources[gateway]) else None
    }

    /** The Gateway has no record yet. */
    method RegisterFirst(m: Meta, gateway: string)
      requires gateway !in nginxResources
      modifies this
      ensures Record(gateway) == Register(bases, None, m)
      ensures forall g :: g != gateway ==> Record(g) == old(Record(g))
    {
      var slot := Classify(bases, m.name);
      if slot.Some? {
        nginxResources := nginxResources[gateway := Set(EMPTY, slot.value, m)];
      }
      ghost var others := nginxResources;
      var rest := bases.docker;
      while rest != {}
        invariant rest <= bases.docker
        invariant forall d :: d in bases.docker - rest ==> !HasSuffix(m.name, d)
        invariant nginxResources == others
      {
        var d :| d in rest;
        if HasSuffix(m.name, d) {
          assert d in DockerMatches(bases, m.name);
          nginxResources := nginxResources[gateway := EMPTY.(docker := [m])];
          return;
        }
        rest := rest - {d};
      }
      assert DockerMatches(bases, m.name) == {};
    }

    /** Appends the Secret to the docker list, once for every docker base that ends its name. */
    method AppendDocker(m: Meta, gateway: string)
      requires gateway in nginxResources
      modifies this
      ensures var was := old(nginxResources[gateway]);
              var docker := was.docker + Copies(m, |DockerMatches(bases, m.name)|);
              nginxResources == old(nginxResources)[gateway := was.(docker := docker)]
    {
      ghost var was := nginxResources[gateway];
      ghost var done: set<string> := {};
      var rest := bases.docker;
      var docker := nginxResources[gateway].docker;
      while rest != {}
        invariant rest <= bases.docker
        invariant done == set d | d in bases.docker - rest && HasSuffix(m.name, d)
        invariant docker == was.docker + Copies(m, |done|)
      {
        var d :| d in rest;
        if HasSuffix(m.name, d) {
          assert Copies(m, |done| + 1) == Copies(m, |done|) + [m];
          docker := docker + [m];
          done := done + {d};
        }
        rest := rest - {d};
      }
      assert done == DockerMatches(bases, m.name);
      nginxResources := nginxResources[gateway := nginxResources[gateway].(docker := docker)];
    }

    method RegisterSecret(m: Meta, gateway: string)
      modifies this
      ensures Record(gateway) == Register(bases, old(Record(gateway)), m)
      ensures forall g :: g != gateway ==> Record(g) == old(Record(g))
    {
      if gateway !in nginxResources {
        RegisterFirst(m, gateway);
      } else {
        var slot := Classify(bases, m.name);
        if slot.Some? {
          nginxResources := nginxResources[gateway := Set(nginxResources[gateway], slot.value, m)];
        }
        AppendDocker(m, gateway);
      }
    }

    /** The docker loop of the lookup, and the chain of comparisons around it. */
    method GetResourceVersion(gateway: string, name: string) returns (v: string)
      ensures v == Lookup(Record(gateway), name)
    {
      if gateway !in nginxResources {
        return "";
      }
      var r := nginxResources[gateway];
      if r.agentTLS.name == name {
        return r.agentTLS.version;
      }
      for i := 0 to |r.docker|
        invariant FirstNamed(r.docker, name) == FirstNamed(r.docker[i..], name)
      {
        if r.docker[i].name == name {
          return r.docker[i].version;
        }
        assert r.docker[i..][1..] == r.docker[i + 1..];
      }
      assert r.docker[|r.docker|..] == [];
      if r.jwt.name == name {
        return r.jwt.version;
      }
      if r.clientSSL.name == name {
        return r.clientSSL.version;
      }
      if r.ca.name == name {
        return r.ca.version;
      }
      if r.dataplaneKey.name == name {
        return r.dataplaneKey.version;
      }
      return "";
    }
  }
}
