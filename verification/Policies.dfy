/**
 * Spending policies, what satisfies them, and the compiler's flattening of a
 * policy into separate script leaves.
 */
module Policies {
  import opened Bytes

  /** A SHA-256 digest. */
  type Hash = Digest
  type XOnlyKey = nat

  datatype Clause =
    | Unsatisfiable
    | Trivial
    | Key(key: XOnlyKey)
    | After(time: nat)
    | Older(blocks: nat)
    | Sha256(digest: nat)
    | Hash256(digest: nat)
    | Ripemd160(digest: nat)
    | Hash160(digest: nat)
    | TxTemplate(hash: Hash)
    | And(all: seq<Clause>)
    | Or(any: seq<Weighted>)
    | Threshold(k: nat, of: seq<Clause>)

  /** A branch of a disjunction and its relative odds. */
  datatype Weighted = Weighted(odds: nat, policy: Clause)

  /** The elementary conditions that a spend meets. */
  type World = iset<Clause>

  ghost predicate Sat(c: Clause, w: World)
    decreases c
  {
    match c
    case Unsatisfiable => false
    case Trivial => true
    case And(cs) => forall i :: 0 <= i < |cs| ==> Sat(cs[i], w)
    case Or(ps) => exists i :: 0 <= i < |ps| && Sat(ps[i].policy, w)
    case Threshold(k, cs) => CountSat(cs, w) >= k
    case _ => c in w
  }

  ghost function CountSat(cs: seq<Clause>, w: World): (n: nat)
    ensures n <= |cs|
    decreases cs
  {
    if cs == [] then 0 else (if Sat(cs[0], w) then 1 else 0) + CountSat(cs[1..], w)
  }

  ghost predicate AllSat(cs: seq<Clause>, w: World) {
    forall i :: 0 <= i < |cs| ==> Sat(cs[i], w)
  }

  ghost predicate AnySat(cs: seq<Clause>, w: World) {
    exists i :: 0 <= i < |cs| && Sat(cs[i], w)
  }

  lemma {:induction false} CountSatSome(cs: seq<Clause>, w: World)
    ensures CountSat(cs, w) >= 1 <==> AnySat(cs, w)
  {
    if cs != [] {
      CountSatSome(cs[1..], w);
      if AnySat(cs[1..], w) {
        var i :| 0 <= i < |cs[1..]| && Sat(cs[1..][i], w);
        assert Sat(cs[i + 1], w);
      }
      if i :| 0 <= i < |cs| && Sat(cs[i], w) {
        assert i > 0 ==> Sat(cs[1..][i - 1], w);
      }
    }
  }

  /** An n-of-n threshold is the conjunction of its members. */
  lemma {:induction false} CountSatAll(cs: seq<Clause>, w: World)
    ensures CountSat(cs, w) >= |cs| <==> AllSat(cs, w)
  {
    if cs != [] {
      CountSatAll(cs[1..], w);
      if AllSat(cs[1..], w) && Sat(cs[0], w) {
        forall i | 0 <= i < |cs| ensures Sat(cs[i], w) {
          assert i > 0 ==> cs[i] == cs[1..][i - 1];
        }
      }
    }
  }

  /** A threshold of one is a disjunction. */
  lemma ThresholdOne(cs: seq<Clause>, w: World)
    ensures Sat(Threshold(1, cs), w) <==> AnySat(cs, w)
  {
    CountSatSome(cs, w);
  }

  lemma ThresholdOfAll(cs: seq<Clause>, w: World)
    ensures Sat(Threshold(|cs|, cs), w) <==> AllSat(cs, w)
  {
    CountSatAll(cs, w);
  }

  lemma AnySatConcat(xs: seq<Clause>, ys: seq<Clause>, w: World)
    ensures AnySat(xs + ys, w) <==> AnySat(xs, w) || AnySat(ys, w)
  {
    if i :| 0 <= i < |xs| && Sat(xs[i], w) {
      assert (xs + ys)[i] == xs[i];
    }
    if i :| 0 <= i < |ys| && Sat(ys[i], w) {
      assert (xs + ys)[|xs| + i] == ys[i];
    }
  }

  // -------------------------------------------------------------- flattening

  /** Splits top-level disjunctions into separate policies. */
  function FlattenPolicy(p: Clause): seq<Clause>
    decreases p, 0
  {
    match p
    case Or(ps) => FlattenWeighted(ps)
    case Threshold(k, cs) => if k == 1 then FlattenAll(cs) else [p]
    case _ => [p]
  }

  function FlattenWeighted(ps: seq<Weighted>): seq<Clause>
    decreases ps, 1
  {
    if ps == [] then [] else FlattenBranch(ps[0]) + FlattenWeighted(ps[1..])
  }

  function FlattenBranch(b: Weighted): seq<Clause>
    decreases b, 1
  {
    FlattenPolicy(b.policy)
  }

  function FlattenAll(cs: seq<Clause>): seq<Clause>
    decreases cs, 1
  {
    if cs == [] then [] else FlattenPolicy(cs[0]) + FlattenAll(cs[1..])
  }

  /** Flattening preserves meaning: some leaf is satisfied iff the policy is. */
  lemma {:induction false} FlattenPreservesMeaning(p: Clause, w: World)
    ensures AnySat(FlattenPolicy(p), w) <==> Sat(p, w)
    decreases p, 0
  {
    match p
    case Or(ps) => FlattenWeightedMeaning(ps, w);
    case Threshold(k, cs) =>
      if k == 1 {
        FlattenAllMeaning(cs, w);
        ThresholdOne(cs, w);
      } else {
        assert FlattenPolicy(p)[0] == p;
      }
    case _ => assert FlattenPolicy(p)[0] == p;
  }

  lemma {:induction false} FlattenWeightedMeaning(ps: seq<Weighted>, w: World)
    ensures AnySat(FlattenWeighted(ps), w) <==> exists i :: 0 <= i < |ps| && Sat(ps[i].policy, w)
    decreases ps, 1
  {
    if ps != [] {
      FlattenBranchMeaning(ps[0], w);
      FlattenWeightedMeaning(ps[1..], w);
      AnySatConcat(FlattenBranch(ps[0]), FlattenWeighted(ps[1..]), w);
      if i :| 0 <= i < |ps| && Sat(ps[i].policy, w) {
        assert i > 0 ==> Sat(ps[1..][i - 1].policy, w);
      }
      if i :| 0 <= i < |ps[1..]| && Sat(ps[1..][i].policy, w) {
        assert Sat(ps[i + 1].policy, w);
      }
    }
  }

  lemma {:induction false} FlattenBranchMeaning(b: Weighted, w: World)
    ensures AnySat(FlattenBranch(b), w) <==> Sat(b.policy, w)
    decreases b, 1
  {
    FlattenPreservesMeaning(b.policy, w);
  }

  lemma {:induction false} FlattenAllMeaning(cs: seq<Clause>, w: World)
    ensures AnySat(FlattenAll(cs), w) <==> AnySat(cs, w)
    decreases cs, 1
  {
    if cs != [] {
      FlattenPreservesMeaning(cs[0], w);
      FlattenAllMeaning(cs[1..], w);
      AnySatConcat(FlattenPolicy(cs[0]), FlattenAll(cs[1..]), w);
      AnySatConcat([cs[0]], cs[1..], w);
      assert [cs[0]] + cs[1..] == cs;
      assert Sat(cs[0], w) ==> Sat([cs[0]][0], w);
    }
  }

  ghost predicate IsDisjunction(c: Clause) {
    c.Or? || (c.Threshold? && c.k == 1)
  }

  /** No leaf of a flattened policy is itself a disjunction at the top. */
  lemma {:induction false} FlattenIsFlat(p: Clause, i: nat)
    requires i < |FlattenPolicy(p)|
    ensures !IsDisjunction(FlattenPolicy(p)[i])
    decreases p, 0
  {
    match p
    case Or(ps) => FlattenWeightedIsFlat(ps, i);
    case Threshold(k, cs) => if k == 1 { FlattenAllIsFlat(cs, i); }
    case _ =>
  }

  lemma {:induction false} FlattenWeightedIsFlat(ps: seq<Weighted>, i: nat)
    requires i < |FlattenWeighted(ps)|
    ensures !IsDisjunction(FlattenWeighted(ps)[i])
    decreases ps, 1
  {
    var n := |FlattenBranch(ps[0])|;
    if i < n {
      FlattenBranchIsFlat(ps[0], i);
    } else {
      FlattenWeightedIsFlat(ps[1..], i - n);
    }
  }

  lemma {:induction false} FlattenBranchIsFlat(b: Weighted, i: nat)
    requires i < |FlattenBranch(b)|
    ensures !IsDisjunction(FlattenBranch(b)[i])
    decreases b, 1
  {
    FlattenIsFlat(b.policy, i);
  }

  lemma {:induction false} FlattenAllIsFlat(cs: seq<Clause>, i: nat)
    requires i < |FlattenAll(cs)|
    ensures !IsDisjunction(FlattenAll(cs)[i])
    decreases cs, 1
  {
    var n := |FlattenPolicy(cs[0])|;
    if i < n {
      FlattenIsFlat(cs[0], i);
    } else {
      FlattenAllIsFlat(cs[1..], i - n);
    }
  }
}
