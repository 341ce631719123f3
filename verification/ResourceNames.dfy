/** Names of the resources created for a Gateway: a prefix and a base name joined by a dash, cut and hashed so
    that the whole stays within the limit of a DNS label. */
module ResourceNames {
  import opened Wrappers

  const MAX_NAME: nat := 63
  const HASH: nat := 8

  /** The first digits of the hash of a name. */
  type Hash = string -> string

  ghost predicate IsHash(hash: Hash) {
    forall s :: |hash(s)| == HASH
  }

  function TrimDashes(s: string): (r: string) {
    if s != "" && s[|s| - 1] == '-' then TrimDashes(s[..|s| - 1]) else s
  }

  /** Trimming takes off dashes only, and all of them. */
  lemma {:induction false} TrimDashesIsTight(s: string)
    ensures TrimDashes(s) <= s
    ensures forall i :: |TrimDashes(s)| <= i < |s| ==> s[i] == '-'
    ensures TrimDashes(s) == "" || TrimDashes(s)[|TrimDashes(s)| - 1] != '-'
  {
    if s != "" && s[|s| - 1] == '-' { TrimDashesIsTight(s[..|s| - 1]); }
  }

  /** Room for the prefix once the separators, the hash and the base are placed; negative if the base is too long. */
  function Room(base: string): (r: int) {
    MAX_NAME - 2 - HASH - |base|
  }

  predicate Fits(prefix: string, base: string) {
    |prefix + "-" + base| <= MAX_NAME
  }

  function Cut(prefix: string, base: string): (r: string)
    requires Room(base) >= 0
  {
    TrimDashes(if |prefix| > Room(base) then prefix[..Room(base)] else prefix)
  }

  /** What precedes the last dash and the base. */
  function Stem(hash: Hash, prefix: string, base: string): (r: string)
    requires Fits(prefix, base) || Room(base) >= 0
  {
    if Fits(prefix, base) then prefix else Cut(prefix, base) + "-" + hash(prefix + "-" + base)
  }

  /** The built name; none if the code would slice the prefix at a negative index. */
  function Build(hash: Hash, prefix: string, base: string): (r: Option<string>) {
    if !Fits(prefix, base) && Room(base) < 0 then None
    else Some(Stem(hash, prefix, base) + "-" + base)
  }

  lemma CutFits(prefix: string, base: string)
    requires Room(base) >= 0
    ensures |Cut(prefix, base)| <= Room(base)
    ensures Cut(prefix, base) <= prefix
  {
    TrimDashesIsTight(if |prefix| > Room(base) then prefix[..Room(base)] else prefix);
  }

  /** Building succeeds for every prefix exactly if the base has at most 53 characters; a built name is a DNS
      label in length, ends in a dash and the base, and starts with the prefix or with a hashed beginning of it. */
  lemma BuiltNameShape(hash: Hash, prefix: string, base: string)
    requires IsHash(hash)
    ensures Build(hash, prefix, base).None? <==> !Fits(prefix, base) && |base| > MAX_NAME - 2 - HASH
    ensures Build(hash, prefix, base).Some? ==>
              && |Build(hash, prefix, base).value| <= MAX_NAME
              && Build(hash, prefix, base).value == Stem(hash, prefix, base) + "-" + base
              && (Fits(prefix, base) ==> Stem(hash, prefix, base) == prefix)
              && (!Fits(prefix, base) ==>
                    exists k :: 0 <= k < |prefix| &&
                      Stem(hash, prefix, base) == prefix[..k] + "-" + hash(prefix + "-" + base))
  {
    if Build(hash, prefix, base).Some? && !Fits(prefix, base) {
      CutFits(prefix, base);
      var k := |Cut(prefix, base)|;
      assert prefix[..k] == Cut(prefix, base);
      assert |Stem(hash, prefix, base)| == k + 1 + HASH;
    }
  }

  /** With the limits written out: a name of at most 63 characters is taken as it is, and a longer one is cut so that
      the prefix, without trailing dashes, has at most 53 characters less the base's, before the hash. */
  lemma BuildCases(hash: Hash, prefix: string, base: string)
    ensures |prefix| + 1 + |base| <= 63 ==> Build(hash, prefix, base) == Some(prefix + "-" + base)
    ensures |prefix| + 1 + |base| > 63 && |base| > 53 ==> Build(hash, prefix, base) == None
    ensures |prefix| + 1 + |base| > 63 && |base| <= 53 ==>
              Build(hash, prefix, base)
              == Some(TrimDashes(prefix[..53 - |base|]) + "-" + hash(prefix + "-" + base) + "-" + base)
  {
  }

  lemma SameTail(x: string, y: string, a: string, b: string)
    requires x + a == y + b && |a| == |b|
    ensures x == y && a == b
  {
    assert |x| == |y|;
    assert x == (x + a)[..|x|] == (y + b)[..|y|] == y;
    assert a == (x + a)[|x|..] == (y + b)[|y|..] == b;
  }

  /** When two prefixes share a name for the same base: never if both fit; if both are cut, exactly with the same
      hash and the same cut; and if one fits and the other is cut, exactly if the one is the other's cut, a dash
      and its hash. */
  lemma NamesCollideOnlyByHash(hash: Hash, p: string, q: string, base: string)
    requires IsHash(hash)
    requires Build(hash, p, base).Some? && Build(hash, q, base).Some?
    ensures Build(hash, p, base) == Build(hash, q, base) <==> Stem(hash, p, base) == Stem(hash, q, base)
    ensures Fits(p, base) && Fits(q, base) ==> (Build(hash, p, base) == Build(hash, q, base) <==> p == q)
    ensures !Fits(p, base) && !Fits(q, base) ==>
              (Build(hash, p, base) == Build(hash, q, base)
               <==> hash(p + "-" + base) == hash(q + "-" + base) && Cut(p, base) == Cut(q, base))
    ensures Fits(p, base) && !Fits(q, base) ==>
              (Build(hash, p, base) == Build(hash, q, base) <==> p == Cut(q, base) + "-" + hash(q + "-" + base))
  {
    var sp, sq := Stem(hash, p, base), Stem(hash, q, base);
    if sp + "-" + base == sq + "-" + base {
      assert sp + ("-" + base) == sp + "-" + base && sq + ("-" + base) == sq + "-" + base;
      SameTail(sp, sq, "-" + base, "-" + base);
    }
    if !Fits(p, base) && !Fits(q, base) && sp == sq {
      var hp, hq := hash(p + "-" + base), hash(q + "-" + base);
      SameTail(Cut(p, base) + "-", Cut(q, base) + "-", hp, hq);
      SameTail(Cut(p, base), Cut(q, base), "-", "-");
    }
  }

  /** When two names are the same, for any prefixes and bases: with the same base and stem, or if the longer base is
      some x, a dash and the shorter base, and the shorter base's stem the longer's, a dash and x. */
  lemma NamesOfBasesCollideIff(hash: Hash, p: string, q: string, base: string, other: string)
    requires Build(hash, p, base).Some? && Build(hash, q, other).Some? && |base| <= |other|
    ensures Build(hash, p, base) == Build(hash, q, other)
            <==> || (base == other && Stem(hash, p, base) == Stem(hash, q, other))
                 || exists x :: other == x + "-" + base && Stem(hash, p, base) == Stem(hash, q, other) + "-" + x
  {
    var sp, sq := Stem(hash, p, base), Stem(hash, q, other);
    if sp + "-" + base == sq + "-" + other && |base| == |other| {
      SameTail(sp + "-", sq + "-", base, other);
      SameTail(sp, sq, "-", "-");
    } else if sp + "-" + base == sq + "-" + other {
      var x := LongerBase(sp, sq, base, other);
      assert other == x + "-" + base && sp == sq + "-" + x;
    }
    if x :| other == x + "-" + base && sp == sq + "-" + x {
      assert sq + "-" + (x + "-" + base) == (sq + "-" + x) + "-" + base;
    }
  }

  lemma LongerBase(sp: string, sq: string, base: string, other: string) returns (x: string)
    requires sp + "-" + base == sq + "-" + other && |base| < |other|
    ensures other == x + "-" + base && sp == sq + "-" + x
  {
    var whole := sp + "-" + base;
    var n := |other| - |base| - 1;
    x := other[..n];
    assert whole[|sq| + 1..] == other && whole[|sp|] == '-' && whole[|sp| + 1..] == base;
    assert other[n] == whole[|sq| + 1 + n] == '-' && other[n + 1..] == whole[|sp| + 1..] == base;
    assert other == x + [other[n]] + other[n + 1..];
    assert sp == whole[..|sp|] && sq == whole[..|sq|] && whole[|sq|] == '-';
    assert sp == sq + "-" + x;
  }

  /** So one prefix never gives two bases the same name if it fits with both, or if neither base ends in a dash and
      the other. */
  lemma BasesKeepNamesApart(hash: Hash, p: string, base: string, other: string)
    requires Build(hash, p, base).Some? && Build(hash, p, other).Some? && |base| <= |other| && base != other
    requires (Fits(p, base) && Fits(p, other)) || !(exists x :: other == x + "-" + base)
    ensures Build(hash, p, base) != Build(hash, p, other)
  {
    NamesOfBasesCollideIff(hash, p, p, base, other);
  }
}
