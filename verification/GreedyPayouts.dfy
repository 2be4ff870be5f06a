/** The greedy assignment of payouts to an amount of satoshis. */
module GreedyPayouts {
  import opened Sequences
  import opened Contexts

  datatype PlanStep = Fee(amount: Amount) | Change(amount: Amount) | Payout(amount: Amount)

  ghost predicate Sorted(s: seq<Amount>) {
    forall i, j :: 0 <= i < j < |s| ==> s[i] <= s[j]
  }

  datatype Search = Found(at: nat) | Missing(at: nat)

  /** What a binary search promises: any match, or the only place to insert. */
  ghost predicate Answers(s: seq<Amount>, x: Amount, r: Search) {
    match r
    case Found(i) => i < |s| && s[i] == x
    case Missing(i) => i <= |s| && (forall j :: 0 <= j < i ==> s[j] < x) && (forall j :: i <= j < |s| ==> s[j] > x)
  }

  /** A search over a sorted list; which match it finds is left open. */
  method BinarySearch(s: seq<Amount>, x: Amount) returns (r: Search)
    requires Sorted(s)
    ensures Answers(s, x, r)
  {
    if exists i :: 0 <= i < |s| && s[i] == x {
      var i :| 0 <= i < |s| && s[i] == x;
      return Found(i);
    }
    var lo, hi: nat := 0, |s|;
    while lo < hi
      invariant lo <= hi <= |s|
      invariant forall j :: 0 <= j < lo ==> s[j] < x
      invariant forall j :: hi <= j < |s| ==> s[j] > x
    {
      var mid := (lo + hi) / 2;
      if s[mid] < x {
        lo := mid + 1;
      } else {
        hi := mid;
      }
    }
    r := Missing(lo);
  }

  // ----------------------------------------------------------- the greedy walk

  /**
   * A greedy walk takes, at each step, the largest payout left that does not
   * exceed what is left to assign, and ends when nothing is left to assign.
   */
  ghost predicate GreedyWalk(payouts: multiset<Amount>, total: Amount, taken: seq<Amount>)
    decreases |taken|
  {
    if total == 0 then taken == []
    else
      && taken != [] && taken[0] in payouts && taken[0] <= total
      && (forall p :: p in payouts && p <= total ==> p <= taken[0])
      && GreedyWalk(payouts - multiset{taken[0]}, total - taken[0], taken[1..])
  }

  /** Whether the greedy walk reaches zero. */
  ghost predicate Assignable(payouts: multiset<Amount>, total: Amount) {
    exists walk :: GreedyWalk(payouts, total, walk)
  }

  ghost predicate NonIncreasing(s: seq<Amount>) {
    forall i, j :: 0 <= i < j < |s| ==> s[i] >= s[j]
  }

  /** What a walk takes after its first payout was available to that first choice. */
  lemma RestIsBelow(payouts: multiset<Amount>, first: Amount, rest: seq<Amount>, total: Amount)
    requires first in payouts && multiset(rest) <= payouts - multiset{first}
    requires forall p :: p in payouts && p <= total ==> p <= first
    requires forall x :: x in rest ==> x <= total
    ensures forall x :: x in rest ==> x <= first
    ensures multiset{first} + multiset(rest) <= payouts
  {
    forall x | x in rest ensures x <= first {
      assert x in multiset(rest) && x in payouts;
    }
  }

  lemma Prepended(first: Amount, rest: seq<Amount>)
    requires NonIncreasing(rest) && forall x :: x in rest ==> x <= first
    ensures NonIncreasing([first] + rest) && Sum([first] + rest) == first + Sum(rest)
    ensures multiset([first] + rest) == multiset{first} + multiset(rest)
  {
    var all := [first] + rest;
    assert all[1..] == rest;
    forall i, j | 0 <= i < j < |all| ensures all[i] >= all[j] {
      assert all[j] == rest[j - 1] && rest[j - 1] in rest;
    }
  }

  /** What a walk takes is determined, sums to the total and never grows. */
  lemma {:induction false} GreedyWalkFacts(payouts: multiset<Amount>, total: Amount, taken: seq<Amount>)
    requires GreedyWalk(payouts, total, taken)
    ensures Sum(taken) == total && NonIncreasing(taken) && multiset(taken) <= payouts
    ensures forall x :: x in taken ==> x <= total
    decreases |taken|
  {
    if taken != [] {
      var first, rest := taken[0], taken[1..];
      GreedyWalkFacts(payouts - multiset{first}, total - first, rest);
      RestIsBelow(payouts, first, rest, total);
      Prepended(first, rest);
      assert taken == [first] + rest;
    }
  }

  lemma {:induction false} GreedyWalkUnique(payouts: multiset<Amount>, total: Amount, a: seq<Amount>, b: seq<Amount>)
    requires GreedyWalk(payouts, total, a) && GreedyWalk(payouts, total, b)
    ensures a == b
    decreases |a|
  {
    if total > 0 {
      assert a[0] == b[0];
      GreedyWalkUnique(payouts - multiset{a[0]}, total - a[0], a[1..], b[1..]);
      assert a == [a[0]] + a[1..] && b == [b[0]] + b[1..];
    }
  }

  lemma SortedWithout(s: seq<Amount>, i: nat)
    requires Sorted(s) && i < |s|
    ensures Sorted(Without(s, i)) && multiset(Without(s, i)) == multiset(s) - multiset{s[i]}
  {
    WithoutOne(s, i);
  }

  /** A walk starts with the last payout that fits, and goes on without it. */
  lemma WalkStartsWith(s: seq<Amount>, total: Amount, i: nat, taken: seq<Amount>)
    requires Sorted(s) && total > 0 && i < |s| && s[i] <= total
    requires forall j :: i < j < |s| ==> s[j] > total || s[j] == s[i]
    ensures GreedyWalk(multiset(s), total, taken) <==>
              taken != [] && taken[0] == s[i] && GreedyWalk(multiset(Without(s, i)), total - s[i], taken[1..])
  {
    SortedWithout(s, i);
    assert s[i] in multiset(s);
    forall p | p in multiset(s) && p <= total ensures p <= s[i] {
      var j :| 0 <= j < |s| && s[j] == p;
    }
  }

  function Payouts(taken: seq<Amount>): (r: seq<PlanStep>)
    ensures |r| == |taken|
    ensures forall i :: 0 <= i < |r| ==> r[i] == Payout(taken[i])
  {
    if taken == [] then [] else [Payout(taken[0])] + Payouts(taken[1..])
  }

  /** What was taken so far is how every walk starts, and the rest is a walk. */
  ghost predicate OnTrack(all: multiset<Amount>, total: Amount, taken: seq<Amount>, s: seq<Amount>, left: Amount) {
    && Sorted(s) && multiset(s) + multiset(taken) == all
    && (forall rest :: GreedyWalk(all, total, taken + rest) <==> GreedyWalk(multiset(s), left, rest))
    && (forall walk :: GreedyWalk(all, total, walk) ==> taken <= walk)
  }

  lemma RestWalksOn(all: multiset<Amount>, total: Amount, taken: seq<Amount>, s: seq<Amount>, left: Amount, i: nat,
      rest: seq<Amount>)
    requires OnTrack(all, total, taken, s, left) && left > 0 && i < |s| && s[i] <= left
    requires forall j :: i < j < |s| ==> s[j] > left || s[j] == s[i]
    ensures GreedyWalk(all, total, taken + [s[i]] + rest) <==> GreedyWalk(multiset(Without(s, i)), left - s[i], rest)
  {
    assert taken + [s[i]] + rest == taken + ([s[i]] + rest) && ([s[i]] + rest)[1..] == rest;
    WalkStartsWith(s, left, i, [s[i]] + rest);
  }

  lemma WalkTakesNext(all: multiset<Amount>, total: Amount, taken: seq<Amount>, s: seq<Amount>, left: Amount,
      i: nat, walk: seq<Amount>)
    requires OnTrack(all, total, taken, s, left) && left > 0 && i < |s| && s[i] <= left
    requires forall j :: i < j < |s| ==> s[j] > left || s[j] == s[i]
    requires GreedyWalk(all, total, walk)
    ensures taken + [s[i]] <= walk
  {
    var rest := walk[|taken|..];
    assert walk == taken + rest;
    WalkStartsWith(s, left, i, rest);
    PrefixExtends(taken, walk, s[i]);
  }

  lemma StaysOnTrack(all: multiset<Amount>, total: Amount, taken: seq<Amount>, s: seq<Amount>, left: Amount, i: nat)
    requires OnTrack(all, total, taken, s, left) && left > 0 && i < |s| && s[i] <= left
    requires forall j :: i < j < |s| ==> s[j] > left || s[j] == s[i]
    ensures OnTrack(all, total, taken + [s[i]], Without(s, i), left - s[i])
  {
    SortedWithout(s, i);
    assert multiset(Without(s, i)) + multiset(taken + [s[i]]) == all by {
      assert s[i] in multiset(s);
    }
    forall rest ensures GreedyWalk(all, total, taken + [s[i]] + rest) <==>
        GreedyWalk(multiset(Without(s, i)), left - s[i], rest) {
      RestWalksOn(all, total, taken, s, left, i, rest);
    }
    forall walk | GreedyWalk(all, total, walk) ensures taken + [s[i]] <= walk {
      WalkTakesNext(all, total, taken, s, left, i, walk);
    }
  }

  lemma NoWalk(all: multiset<Amount>, total: Amount, taken: seq<Amount>, s: seq<Amount>, left: Amount,
      walk: seq<Amount>)
    requires OnTrack(all, total, taken, s, left) && left > 0 && forall j :: 0 <= j < |s| ==> s[j] > left
    ensures !GreedyWalk(all, total, walk)
  {
    NothingFits(s, left);
    if taken <= walk {
      assert walk == taken + walk[|taken|..];
    }
  }

  lemma OnTrackAtStart(total: Amount, payouts: seq<Amount>)
    requires Sorted(payouts)
    ensures OnTrack(multiset(payouts), total, [], payouts, total)
  {
    assert forall rest: seq<Amount> :: [] + rest == rest;
  }

  lemma OnTrackAtEnd(all: multiset<Amount>, total: Amount, taken: seq<Amount>, s: seq<Amount>)
    requires OnTrack(all, total, taken, s, 0)
    ensures GreedyWalk(all, total, taken) && Assignable(all, total)
  {
    assert taken + [] == taken && GreedyWalk(multiset(s), 0, []);
  }

  lemma NoWalks(all: multiset<Amount>, total: Amount, taken: seq<Amount>, s: seq<Amount>, left: Amount)
    requires OnTrack(all, total, taken, s, left) && left > 0 && forall j :: 0 <= j < |s| ==> s[j] > left
    ensures !Assignable(all, total)
  {
    forall walk ensures !GreedyWalk(all, total, walk) {
      NoWalk(all, total, taken, s, left, walk);
    }
  }

  /** What a match, or the place before a miss, says about the payouts. */
  lemma LargestThatFits(s: seq<Amount>, left: Amount, found: Search) returns (i: nat)
    requires Sorted(s) && Answers(s, left, found) && found != Missing(0)
    ensures i == if found.Found? then found.at else found.at - 1
    ensures i < |s| && s[i] <= left
    ensures forall j :: i < j < |s| ==> s[j] > left || s[j] == s[i]
  {
    i := if found.Found? then found.at else found.at - 1;
  }

  /** A list of instructions with the payouts taken after it. */
  function Paid(instructions: seq<PlanStep>, taken: seq<Amount>): seq<PlanStep> {
    instructions + Payouts(taken)
  }

  lemma PaidNext(instructions: seq<PlanStep>, taken: seq<Amount>, v: Amount)
    ensures Paid(instructions, []) == instructions
    ensures Paid(instructions, taken + [v]) == Paid(instructions, taken) + [Payout(v)]
  {
    assert Payouts(taken + [v]) == Payouts(taken) + [Payout(v)];
  }

  /**
   * The loop. It aborts, told by `ok`, when no remaining payout fits into what
   * is left: an index below zero is removed.
   */
  method GreedyAssignOuts(total: Amount, payouts: seq<Amount>, instructions: seq<PlanStep>)
    returns (ok: bool, payouts': seq<Amount>, instructions': seq<PlanStep>, ghost taken: seq<Amount>)
    requires Sorted(payouts)
    ensures ok <==> Assignable(multiset(payouts), total)
    ensures ok ==> GreedyWalk(multiset(payouts), total, taken) && instructions' == Paid(instructions, taken)
    ensures ok ==> Sorted(payouts') && multiset(payouts') + multiset(taken) == multiset(payouts)
  {
    var left := total;
    ghost var all := multiset(payouts);
    payouts', instructions', taken := payouts, instructions, [];
    OnTrackAtStart(total, payouts);
    PaidNext(instructions, [], 0);
    while left > 0
      invariant OnTrack(all, total, taken, payouts', left)
      invariant instructions' == Paid(instructions, taken)
      decreases |payouts'|
    {
      var found := BinarySearch(payouts', left);
      if found == Missing(0) {
        NoWalks(all, total, taken, payouts', left);
        return false, payouts', instructions', taken;
      }
      var i := if found.Found? then found.at else found.at - 1;
      ghost var k := LargestThatFits(payouts', left, found);
      var v := payouts'[i];
      StaysOnTrack(all, total, taken, payouts', left, i);
      PaidNext(instructions, taken, v);
      instructions', taken := instructions' + [Payout(v)], taken + [v];
      payouts', left := Without(payouts', i), left - v;
    }
    OnTrackAtEnd(all, total, taken, payouts');
    ok := true;
  }

  lemma NothingFits(s: seq<Amount>, total: Amount)
    requires total > 0 && forall j :: 0 <= j < |s| ==> s[j] > total
    ensures forall taken :: !GreedyWalk(multiset(s), total, taken)
  {
    forall p | p in multiset(s) ensures p > total {
      var j :| 0 <= j < |s| && s[j] == p;
    }
  }

  /** Greedy is not complete: payouts that could be split exactly may abort. */
  lemma GreedyCanMissASplit(taken: seq<Amount>)
    ensures Sum([3, 3]) == 6 && multiset([3, 3]) <= multiset{3, 3, 4}
    ensures !GreedyWalk(multiset{3, 3, 4}, 6, taken)
  {
    assert 4 in multiset{3, 3, 4} && multiset{3, 3, 4} - multiset{4} == multiset{3, 3};
  }
}
