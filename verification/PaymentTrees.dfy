/**
 * Payment trees: the queue loop that folds a list of payments into a tree of
 * transactions.
 */
module PaymentTrees {
  import opened Sequences
  import opened Arithmetic
  import opened Wrappers
  import opened Bytes
  import opened Policies
  import opened EffectPaths
  import opened Contexts
  import opened CtvHash
  import opened Builders
  import FundsFlow

  /** A payment to the holder of a key or address. */
  datatype PaymentTo<P> = Payment(payee: P, amount: Amount)

  type Payment = PaymentTo<XOnlyKey>

  /** What a queue entry pays: one payee, or a bundle of further entries. */
  datatype Payout = Single(payment: Payment) | Bundle(contracts: seq<Entry>, fees: Amount)

  datatype Entry = Entry(amount: Amount, to: Payout)

  // ------------------------------------------------------------ tree measures

  function SumAmounts(es: seq<Entry>): Amount {
    if es == [] then 0 else es[0].amount + SumAmounts(es[1..])
  }

  ghost function Leaves(p: Payout): seq<Payment>
    decreases p, 0
  {
    match p
    case Single(payment) => [payment]
    case Bundle(contracts, _) => LeavesAll(contracts)
  }

  ghost function LeavesAll(es: seq<Entry>): seq<Payment>
    decreases es, 2
  {
    if es == [] then [] else LeavesOf(es[0]) + LeavesAll(es[1..])
  }

  ghost function LeavesOf(e: Entry): seq<Payment>
    decreases e, 1
  {
    Leaves(e.to)
  }

  /** The number of bundles, each of which takes one transaction to expand. */
  ghost function Bundles(p: Payout): nat
    decreases p, 0
  {
    match p
    case Single(_) => 0
    case Bundle(contracts, _) => 1 + BundlesAll(contracts)
  }

  ghost function BundlesAll(es: seq<Entry>): nat
    decreases es, 2
  {
    if es == [] then 0 else BundlesOf(es[0]) + BundlesAll(es[1..])
  }

  ghost function BundlesOf(e: Entry): nat
    decreases e, 1
  {
    Bundles(e.to)
  }

  ghost function Height(p: Payout): nat
    decreases p, 0
  {
    match p
    case Single(_) => 0
    case Bundle(contracts, _) => 1 + HeightAll(contracts)
  }

  ghost function HeightAll(es: seq<Entry>): nat
    decreases es, 2
  {
    if es == [] then 0
    else if HeightOf(es[0]) >= HeightAll(es[1..]) then HeightOf(es[0])
    else HeightAll(es[1..])
  }

  ghost function HeightOf(e: Entry): nat
    decreases e, 1
  {
    Height(e.to)
  }

  /** Every bundle below `e` has `radix` children and is owed what it pays on. */
  ghost predicate Sound(e: Entry, radix: nat, fee: Amount)
    decreases e, 1
  {
    match e.to
    case Single(payment) => e.amount == payment.amount
    case Bundle(contracts, fees) =>
      && fees == fee && |contracts| == radix
      && e.amount == fee + SumAmounts(contracts)
      && SoundAll(contracts, radix, fee)
  }

  ghost predicate SoundAll(es: seq<Entry>, radix: nat, fee: Amount)
    decreases es, 2
  {
    es == [] || (Sound(es[0], radix, fee) && SoundAll(es[1..], radix, fee))
  }

  function SumPayments<P>(ps: seq<PaymentTo<P>>): Amount {
    if ps == [] then 0 else ps[0].amount + SumPayments(ps[1..])
  }

  ghost function Pow(r: nat, k: nat): nat {
    if k == 0 then 1 else r * Pow(r, k - 1)
  }

  // --------------------------------------------------------------- queue facts

  lemma {:induction false} Concatenated(a: seq<Entry>, b: seq<Entry>, radix: nat, fee: Amount)
    ensures LeavesAll(a + b) == LeavesAll(a) + LeavesAll(b)
    ensures BundlesAll(a + b) == BundlesAll(a) + BundlesAll(b)
    ensures SumAmounts(a + b) == SumAmounts(a) + SumAmounts(b)
    ensures SoundAll(a + b, radix, fee) <==> SoundAll(a, radix, fee) && SoundAll(b, radix, fee)
    decreases |a|
  {
    if a == [] {
      assert a + b == b;
    } else {
      assert (a + b)[1..] == a[1..] + b;
      Concatenated(a[1..], b, radix, fee);
    }
  }

  lemma {:induction false} SumPaymentsConcat<P>(a: seq<PaymentTo<P>>, b: seq<PaymentTo<P>>)
    ensures SumPayments(a + b) == SumPayments(a) + SumPayments(b)
  {
    if a == [] {
      assert a + b == b;
    } else {
      assert (a + b)[1..] == a[1..] + b;
      SumPaymentsConcat(a[1..], b);
    }
  }

  lemma {:induction false} HeightAllBound(es: seq<Entry>, h: nat)
    requires forall i :: 0 <= i < |es| ==> HeightOf(es[i]) <= h
    ensures HeightAll(es) <= h
  {
    if es != [] {
      HeightAllBound(es[1..], h);
    }
  }

  lemma {:induction false} HeightAllAtLeast(es: seq<Entry>, i: nat)
    requires i < |es|
    ensures HeightAll(es) >= HeightOf(es[i])
  {
    if i > 0 {
      HeightAllAtLeast(es[1..], i - 1);
    }
  }

  lemma {:induction false} LeafCountAtLeast(es: seq<Entry>, m: nat)
    requires forall i :: 0 <= i < |es| ==> |LeavesOf(es[i])| >= m
    ensures |LeavesAll(es)| >= |es| * m
  {
    if es != [] {
      LeafCountAtLeast(es[1..], m);
      assert |es| * m == m + |es[1..]| * m;
    }
  }

  /** What an entry is owed: its payees' amounts and one fee per transaction. */
  lemma {:induction false} AmountOfEntry(e: Entry, radix: nat, fee: Amount)
    requires Sound(e, radix, fee)
    ensures e.amount == SumPayments(LeavesOf(e)) + fee * BundlesOf(e)
    decreases e, 1
  {
    if e.to.Bundle? {
      AmountOfEntries(e.to.contracts, radix, fee);
      Distribute(fee, 1, BundlesAll(e.to.contracts));
    }
  }

  lemma {:induction false} AmountOfEntries(es: seq<Entry>, radix: nat, fee: Amount)
    requires SoundAll(es, radix, fee)
    ensures SumAmounts(es) == SumPayments(LeavesAll(es)) + fee * BundlesAll(es)
    decreases es, 2
  {
    if es != [] {
      AmountOfEntry(es[0], radix, fee);
      AmountOfEntries(es[1..], radix, fee);
      SumPaymentsConcat(LeavesOf(es[0]), LeavesAll(es[1..]));
      Distribute(fee, BundlesOf(es[0]), BundlesAll(es[1..]));
    }
  }

  // ------------------------------------------------------------- heights in queue

  /**
   * The queue works on level `k`: the first `p` entries have height k (only
   * the last of them may have k + 1), all later ones have height k + 1, and
   * every entry holds as many payees as a full tree of its level.
   */
  ghost predicate OnLevel(q: seq<Entry>, radix: nat, k: nat, p: nat) {
    && 1 <= p <= |q|
    && (forall i :: 0 <= i < p ==> HeightOf(q[i]) == k || (i == p - 1 && HeightOf(q[i]) == k + 1))
    && (forall i :: p <= i < |q| ==> HeightOf(q[i]) == k + 1)
    && (forall i :: 0 <= i < p ==> |LeavesOf(q[i])| >= Pow(radix, k))
    && (forall i :: p <= i < |q| ==> |LeavesOf(q[i])| >= Pow(radix, k + 1))
  }

  /** Queued heights never decrease and differ by at most one. */
  lemma LevelHeights(q: seq<Entry>, radix: nat, k: nat, p: nat)
    requires OnLevel(q, radix, k, p)
    ensures forall i, j :: 0 <= i < j < |q| ==> HeightOf(q[i]) <= HeightOf(q[j]) <= HeightOf(q[i]) + 1
  {
  }

  lemma PowMonotone(radix: nat, k: nat)
    requires radix >= 2
    ensures 1 <= Pow(radix, k) && 2 * Pow(radix, k) <= Pow(radix, k + 1)
  {
    if k > 0 {
      PowMonotone(radix, k - 1);
    }
  }

  function BundleOf(contracts: seq<Entry>, fee: Amount): Entry {
    Entry(fee + SumAmounts(contracts), Bundle(contracts, fee))
  }

  lemma BundleMeasures(v: seq<Entry>, fee: Amount, radix: nat, k: nat, p: nat)
    requires radix >= 2 && |v| == radix
    requires forall i :: 0 <= i < |v| ==> |LeavesOf(v[i])| >= Pow(radix, k)
    requires forall i :: 0 <= i < |v| ==> k <= HeightOf(v[i]) <= k + 1
    ensures |LeavesOf(BundleOf(v, fee))| >= Pow(radix, k + 1)
    ensures k + 1 <= HeightOf(BundleOf(v, fee)) <= k + 2
    ensures (forall i :: 0 <= i < |v| ==> HeightOf(v[i]) == k) ==> HeightOf(BundleOf(v, fee)) == k + 1
  {
    LeafCountAtLeast(v, Pow(radix, k));
    HeightAllBound(v, k + 1);
    HeightAllAtLeast(v, 0);
    if forall i :: 0 <= i < |v| ==> HeightOf(v[i]) == k {
      HeightAllBound(v, k);
    }
  }

  /** One pass of the loop keeps the queue on its level or lifts it by one. */
  lemma PassKeepsLevel(q: seq<Entry>, radix: nat, fee: Amount, k: nat, p: nat) returns (k': nat, p': nat)
    requires radix >= 2 && |q| > radix && OnLevel(q, radix, k, p)
    ensures OnLevel(q[radix..] + [BundleOf(q[..radix], fee)], radix, k', p')
  {
    PowMonotone(radix, k);
    var v, bundle := q[..radix], BundleOf(q[..radix], fee);
    var next := q[radix..] + [bundle];
    BundleMeasures(v, fee, radix, k, p);
    if p > radix {
      k', p' := k, p - radix;
    } else {
      k', p' := k + 1, |next|;
    }
  }

  // --------------------------------------------------------------- the loop

  /** What is true of the queue when `n` payments went in. */
  ghost predicate QueueInv(q: seq<Entry>, payments: seq<Payment>, radix: nat, fee: Amount) {
    && multiset(LeavesAll(q)) == multiset(payments)
    && SoundAll(q, radix, fee)
    && |q| + (radix - 1) * BundlesAll(q) == |payments|
  }

  lemma PassKeepsQueue(q: seq<Entry>, payments: seq<Payment>, radix: nat, fee: Amount)
    requires radix >= 2 && |q| > radix && QueueInv(q, payments, radix, fee)
    ensures QueueInv(q[radix..] + [BundleOf(q[..radix], fee)], payments, radix, fee)
  {
    var v, rest, bundle := q[..radix], q[radix..], BundleOf(q[..radix], fee);
    assert q == v + rest;
    Concatenated(v, rest, radix, fee);
    Concatenated(rest, [bundle], radix, fee);
    assert [bundle][1..] == [];
    assert LeavesAll([bundle]) == LeavesOf(bundle) + [] == LeavesAll(v);
    assert BundlesOf(bundle) == 1 + BundlesAll(v);
    assert BundlesAll([bundle]) == BundlesOf(bundle) + BundlesAll([bundle][1..]);
    Distribute(radix - 1, 1, BundlesAll(q));
    assert Sound(bundle, radix, fee);
  }

  function Entries(payments: seq<Payment>): (es: seq<Entry>)
    ensures |es| == |payments|
    ensures forall i :: 0 <= i < |es| ==> es[i] == Entry(payments[i].amount, Single(payments[i]))
  {
    if payments == [] then [] else [Entry(payments[0].amount, Single(payments[0]))] + Entries(payments[1..])
  }

  lemma ConsEntry(first: Entry, rest: seq<Entry>, radix: nat, fee: Amount)
    ensures LeavesAll([first] + rest) == LeavesOf(first) + LeavesAll(rest)
    ensures BundlesAll([first] + rest) == BundlesOf(first) + BundlesAll(rest)
    ensures SoundAll([first] + rest, radix, fee) <==> Sound(first, radix, fee) && SoundAll(rest, radix, fee)
  {
    assert ([first] + rest)[1..] == rest;
  }

  lemma {:induction false} EntriesFacts(payments: seq<Payment>, radix: nat, fee: Amount)
    ensures LeavesAll(Entries(payments)) == payments && BundlesAll(Entries(payments)) == 0
    ensures SoundAll(Entries(payments), radix, fee)
  {
    if payments != [] {
      var first, rest := Entry(payments[0].amount, Single(payments[0])), Entries(payments[1..]);
      EntriesFacts(payments[1..], radix, fee);
      ConsEntry(first, rest, radix, fee);
      assert Entries(payments) == [first] + rest && payments == [payments[0]] + payments[1..];
    }
  }

  method TotalToPay(contracts: seq<Entry>, fees: Amount) returns (amt: Amount)
    ensures amt == fees + SumAmounts(contracts)
  {
    amt := fees;
    for i := 0 to |contracts|
      invariant amt + SumAmounts(contracts[i..]) == fees + SumAmounts(contracts)
    {
      amt := amt + contracts[i].amount;
      assert contracts[i..][1..] == contracts[i + 1..];
    }
  }

  /** The transactions of the tree: least count for a fan-out of `radix`. */
  function CeilDiv(a: nat, b: nat): nat
    requires b > 0
  {
    (a + b - 1) / b
  }

  lemma MulOrder(x: nat, y: nat, b: nat)
    ensures x < y ==> x * b <= (y - 1) * b
    ensures x > y ==> y * b + b <= x * b
  {
    if x < y {
      MulLe(x, y - 1, b);
    }
    if x > y {
      MulLe(y + 1, x, b);
      assert (y + 1) * b == y * b + b;
    }
  }

  lemma CeilDivUnique(a: nat, b: nat, t: nat)
    requires b > 0 && t >= 1 && (t - 1) * b < a <= t * b
    ensures CeilDiv(a, b) == t
  {
    var q := (a + b - 1) / b;
    assert q * b <= a + b - 1 < q * b + b;
    assert t * b == (t - 1) * b + b;
    MulOrder(q, t, b);
  }

  /** What the loop returns: the contracts of the root transaction. */
  ghost predicate RootOf(root: Payout, payments: seq<Payment>, radix: nat, fee: Amount) {
    && root.Bundle? && root.fees == fee && |root.contracts| <= radix
    && multiset(Leaves(root)) == multiset(payments)
    && SoundAll(root.contracts, radix, fee)
    && (|payments| >= 2 ==> |root.contracts| >= 2 && Bundles(root) == CeilDiv(|payments| - 1, radix - 1))
    && (|payments| < 2 ==> Bundles(root) == 1)
    && forall k: nat :: |payments| <= Pow(radix, k) ==> Height(root) <= k + 1
  }

  /** The loop invariant of the queue loop. */
  ghost predicate Folding(q: seq<Entry>, payments: seq<Payment>, radix: nat, fee: Amount, k: nat, p: nat) {
    && (radix >= 2 ==> QueueInv(q, payments, radix, fee))
    && (radix >= 2 && payments != [] ==> OnLevel(q, radix, k, p))
    && (|payments| >= 2 ==> |q| >= 2)
    && (radix < 2 || |payments| < 2 ==> q == Entries(payments))
  }

  lemma FoldingStarts(payments: seq<Payment>, radix: nat, fee: Amount)
    ensures Folding(Entries(payments), payments, radix, fee, 0, |payments|)
  {
    EntriesFacts(payments, radix, fee);
    assert Pow(radix, 0) == 1;
    forall i | 0 <= i < |payments| ensures |LeavesOf(Entries(payments)[i])| == 1
        && HeightOf(Entries(payments)[i]) == 0 {
    }
  }

  lemma FoldingContinues(q: seq<Entry>, payments: seq<Payment>, radix: nat, fee: Amount, k: nat, p: nat,
      next: seq<Entry>)
    returns (k': nat, p': nat)
    requires radix >= 2 && |q| > radix && Folding(q, payments, radix, fee, k, p)
    requires next == q[radix..] + [BundleOf(q[..radix], fee)]
    ensures Folding(next, payments, radix, fee, k', p')
  {
    PassKeepsQueue(q, payments, radix, fee);
    k', p' := PassKeepsLevel(q, radix, fee, k, p);
  }

  /** What the loop yields: None stands for running forever. */
  ghost predicate Expanded(root: Option<Payout>, payments: seq<Payment>, radix: nat, fee: Amount) {
    && (root.None? <==> radix < 2 && |payments| > radix)
    && (root.Some? && radix >= 2 ==> RootOf(root.value, payments, radix, fee))
    && (root.Some? && radix < 2 ==> root.value == Bundle(Entries(payments), fee))
  }

  lemma FoldingEnds(q: seq<Entry>, payments: seq<Payment>, radix: nat, fee: Amount, k: nat, p: nat)
    requires Folding(q, payments, radix, fee, k, p) && |q| <= radix
    ensures Expanded(Some(Bundle(q, fee)), payments, radix, fee)
  {
    if radix >= 2 {
      RootFacts(q, payments, radix, fee, k, p);
    }
  }

  lemma FoldingStuck(q: seq<Entry>, payments: seq<Payment>, radix: nat, fee: Amount, k: nat, p: nat)
    requires Folding(q, payments, radix, fee, k, p) && radix < 2 && |q| > radix
    ensures Expanded(None, payments, radix, fee)
  {
  }

  /**
   * The queue loop. With a radix below two a queue longer than the radix never
   * shrinks and the loop does not end.
   */
  method Expand(payments: seq<Payment>, radix: nat, fee: Amount) returns (root: Option<Payout>)
    ensures Expanded(root, payments, radix, fee)
  {
    var queue := Entries(payments);
    FoldingStarts(payments, radix, fee);
    ghost var k: nat, p: nat := 0, |queue|;
    while true
      invariant Folding(queue, payments, radix, fee, k, p)
      decreases |queue|
    {
      var n := if radix <= |queue| then radix else |queue|;
      var v, rest := queue[..n], queue[n..];
      if rest == [] {
        assert v == queue;
        FoldingEnds(queue, payments, radix, fee, k, p);
        return Some(Bundle(v, fee));
      }
      if radix < 2 {
        FoldingStuck(queue, payments, radix, fee, k, p);
        return None;
      }
      var total := TotalToPay(v, fee);
      var next := rest + [Entry(total, Bundle(v, fee))];
      k, p := FoldingContinues(queue, payments, radix, fee, k, p, next);
      queue := next;
    }
  }

  /** One pass over a queue: the root's contracts, or the next queue. */
  function Pass(q: seq<Entry>, radix: nat, fee: Amount): Result<seq<Entry>, seq<Entry>> {
    var n := if radix <= |q| then radix else |q|;
    if q[n..] == [] then Ok(q[..n]) else Err(q[n..] + [BundleOf(q[..n], fee)])
  }

  /** The queue after `n` passes, or None if the loop has returned by then. */
  function QueueAfter(q: seq<Entry>, radix: nat, fee: Amount, n: nat): Option<seq<Entry>>
    decreases n
  {
    if n == 0 then Some(q)
    else if Pass(q, radix, fee).Ok? then None
    else QueueAfter(Pass(q, radix, fee).error, radix, fee, n - 1)
  }

  lemma {:induction false} QueueStaysFolding(q: seq<Entry>, payments: seq<Payment>, radix: nat, fee: Amount, n: nat,
      k: nat, p: nat) returns (k': nat, p': nat)
    requires radix >= 2 && Folding(q, payments, radix, fee, k, p) && QueueAfter(q, radix, fee, n).Some?
    ensures Folding(QueueAfter(q, radix, fee, n).value, payments, radix, fee, k', p')
    decreases n
  {
    k', p' := k, p;
    if n > 0 {
      var next := Pass(q, radix, fee).error;
      k', p' := FoldingContinues(q, payments, radix, fee, k, p, next);
      k', p' := QueueStaysFolding(next, payments, radix, fee, n - 1, k', p');
    }
  }

  /** After any number of passes, queued heights never decrease and differ by at most one. */
  lemma QueuedHeights(payments: seq<Payment>, radix: nat, fee: Amount, n: nat)
    requires radix >= 2 && QueueAfter(Entries(payments), radix, fee, n).Some?
    ensures var q := QueueAfter(Entries(payments), radix, fee, n).value;
            && multiset(LeavesAll(q)) == multiset(payments)
            && forall i, j :: 0 <= i < j < |q| ==> HeightOf(q[i]) <= HeightOf(q[j]) <= HeightOf(q[i]) + 1
  {
    FoldingStarts(payments, radix, fee);
    var k, p := QueueStaysFolding(Entries(payments), payments, radix, fee, n, 0, |payments|);
    if payments != [] {
      LevelHeights(QueueAfter(Entries(payments), radix, fee, n).value, radix, k, p);
    }
  }

  /** Whether the loop has returned after `n` passes. */
  function Returns(q: seq<Entry>, radix: nat, fee: Amount, n: nat): bool
    decreases n
  {
    n > 0 && (Pass(q, radix, fee).Ok? || Returns(Pass(q, radix, fee).error, radix, fee, n - 1))
  }

  /** With a radix below two the loop never returns on a longer queue. */
  lemma {:induction false} SmallRadixDiverges(q: seq<Entry>, radix: nat, fee: Amount, n: nat)
    requires radix < 2 && |q| > radix
    ensures !Returns(q, radix, fee, n)
    decreases n
  {
    if n > 0 {
      SmallRadixDiverges(Pass(q, radix, fee).error, radix, fee, n - 1);
    }
  }

  lemma RootFacts(q: seq<Entry>, payments: seq<Payment>, radix: nat, fee: Amount, k: nat, p: nat)
    requires radix >= 2 && |q| <= radix && QueueInv(q, payments, radix, fee)
    requires payments != [] ==> OnLevel(q, radix, k, p)
    requires |payments| >= 2 ==> |q| >= 2
    requires |payments| < 2 ==> q == Entries(payments)
    ensures RootOf(Bundle(q, fee), payments, radix, fee)
  {
    if |payments| < 2 {
      EntriesFacts(payments, radix, fee);
      HeightAllBound(q, 0);
      assert Height(Bundle(q, fee)) == 1;
    } else {
      RootCount(q, payments, radix, fee);
      HeightAllBound(q, k + 1);
      assert Height(Bundle(q, fee)) <= k + 2;
      RootHeight(q, payments, radix, k, p);
    }
  }

  lemma RootCount(q: seq<Entry>, payments: seq<Payment>, radix: nat, fee: Amount)
    requires radix >= 2 && 2 <= |q| <= radix && QueueInv(q, payments, radix, fee)
    ensures Bundles(Bundle(q, fee)) == CeilDiv(|payments| - 1, radix - 1)
  {
    var b := BundlesAll(q);
    assert (radix - 1) * b == b * (radix - 1);
    assert (b + 1) * (radix - 1) == b * (radix - 1) + (radix - 1);
    CeilDivUnique(|payments| - 1, radix - 1, b + 1);
  }

  lemma RootHeight(q: seq<Entry>, payments: seq<Payment>, radix: nat, k: nat, p: nat)
    requires radix >= 2 && |q| >= 2 && OnLevel(q, radix, k, p)
    requires multiset(LeavesAll(q)) == multiset(payments)
    ensures forall h: nat :: |payments| <= Pow(radix, h) ==> h >= k + 1
  {
    var m := Pow(radix, k);
    PowMonotone(radix, k);
    assert |LeavesAll(q)| >= |q| * m by {
      LeafCountAtLeast(q, m);
    }
    assert |q| * m >= 2 * m by {
      MulOrder(1, |q|, m);
    }
    SameLength(LeavesAll(q), payments);
    forall h: nat | |payments| <= Pow(radix, h) ensures h >= k + 1 {
      if h <= k {
        PowOrder(radix, h, k);
      }
    }
  }

  lemma {:induction false} PowOrder(radix: nat, h: nat, k: nat)
    requires radix >= 2 && h <= k
    ensures Pow(radix, h) <= Pow(radix, k)
    decreases k - h
  {
    if h < k {
      PowOrder(radix, h, k - 1);
      PowMonotone(radix, k - 1);
    }
  }

  // --------------------------------------------------------------- money spent

  function Owed(p: Payout): Amount {
    match p
    case Single(payment) => payment.amount
    case Bundle(contracts, fees) => fees + SumAmounts(contracts)
  }

  lemma {:induction false} SumWithout(s: seq<Payment>, i: nat)
    requires i < |s|
    ensures SumPayments(s) == s[i].amount + SumPayments(Without(s, i))
  {
    if i == 0 {
      assert Without(s, 0) == s[1..];
    } else {
      SumWithout(s[1..], i - 1);
      assert Without(s, i)[1..] == Without(s[1..], i - 1);
    }
  }

  /** Payments in any order come to the same sum. */
  lemma {:induction false} SumOfMultiset(a: seq<Payment>, b: seq<Payment>)
    requires multiset(a) == multiset(b)
    ensures SumPayments(a) == SumPayments(b)
    decreases |a|
  {
    if a == [] {
      SameLength(a, b);
    } else {
      assert a[0] in multiset(b);
      var i :| 0 <= i < |b| && b[i] == a[0];
      WithoutOne(a, 0);
      WithoutOne(b, i);
      SumWithout(a, 0);
      SumWithout(b, i);
      SumOfMultiset(Without(a, 0), Without(b, i));
    }
  }

  /** At the root the tree costs the payments and one fee per transaction. */
  lemma RootCost(root: Payout, payments: seq<Payment>, radix: nat, fee: Amount)
    requires RootOf(root, payments, radix, fee)
    ensures Owed(root) == SumPayments(payments) + fee * Bundles(root)
  {
    AmountOfEntries(root.contracts, radix, fee);
    SumOfMultiset(LeavesAll(root.contracts), payments);
    Distribute(fee, 1, BundlesAll(root.contracts));
  }

  /** A payout as the contract that its bundles compile to. */
  function PlanOf(p: Payout, script: Payout -> seq<Byte>): FundsFlow.Plan
    decreases p, 0
  {
    match p
    case Single(_) => FundsFlow.Address(script(p))
    case Bundle(contracts, fees) =>
      FundsFlow.Contract(script(p), [FundsFlow.PlannedBranch("expand", PayAll(contracts, fees, script))])
  }

  /** One output for each contract, then the fees. */
  function PayAll(es: seq<Entry>, fees: Amount, script: Payout -> seq<Byte>): seq<FundsFlow.Step>
    decreases es, 2
  {
    if es == [] then [FundsFlow.Fee(fees)]
    else [PayEntry(es[0], script)] + PayAll(es[1..], fees, script)
  }

  function PayEntry(e: Entry, script: Payout -> seq<Byte>): FundsFlow.Step
    decreases e, 1
  {
    FundsFlow.Pay(e.amount, PlanOf(e.to, script))
  }

  ghost predicate OnlyBranchesBelow(derived: set<PathFragment>, n: nat) {
    forall f :: f in derived ==> f.Branch? && f.index < n
  }

  /**
   * The steps of a bundle with sound contracts succeed exactly when it has
   * what it owes, and leave the rest untouched: nothing, at an inner node.
   */
  lemma {:induction false} StepsSpendExactly(es: seq<Entry>, fees: Amount, radix: nat, fee: Amount,
      script: Payout -> seq<Byte>, b: BuilderView, sha: Sha256)
    requires SoundAll(es, radix, fee) && fee <= MAX_AMOUNT && fees <= MAX_AMOUNT
    requires OnlyBranchesBelow(b.ctx.derived, |b.outputs|) && b.fees == 0
    ensures FundsFlow.RunSteps(PayAll(es, fees, script), b, sha).Ok? <==> b.ctx.funds >= fees + SumAmounts(es)
    ensures FundsFlow.RunSteps(PayAll(es, fees, script), b, sha).Ok? ==>
              var e := FundsFlow.RunSteps(PayAll(es, fees, script), b, sha).value;
              e.ctx.funds == b.ctx.funds - (fees + SumAmounts(es)) && e.fees == fees
                  && |e.outputs| == |b.outputs| + |es|
    decreases es, 2
  {
    var steps := PayAll(es, fees, script);
    if es == [] {
      assert steps[1..] == [];
    } else {
      assert steps[0] == PayEntry(es[0], script) && steps[1..] == PayAll(es[1..], fees, script);
      if es[0].amount <= b.ctx.funds {
        var reserved := ReserveOutput(b, es[0].amount).value;
        EntryCompiles(es[0], radix, fee, script, reserved.1, sha);
        var next := FundsFlow.RunStep(steps[0], b, sha).value;
        StepsSpendExactly(es[1..], fees, radix, fee, script, next, sha);
      }
    }
  }

  lemma {:induction false} EntryCompiles(e: Entry, radix: nat, fee: Amount, script: Payout -> seq<Byte>,
      ctx: ContextView, sha: Sha256)
    requires Sound(e, radix, fee) && fee <= MAX_AMOUNT && ctx.funds == e.amount
    ensures FundsFlow.CompilePlan(PlanOf(e.to, script), ctx, sha).Ok?
    decreases e, 1
  {
    if e.to.Bundle? {
      BundleSpendsAll(e.to, radix, fee, script, ctx, sha);
    }
  }

  lemma {:induction false} BundleSpendsAll(p: Payout, radix: nat, fee: Amount, script: Payout -> seq<Byte>,
      ctx: ContextView, sha: Sha256)
    requires p.Bundle? && p.fees == fee <= MAX_AMOUNT && SoundAll(p.contracts, radix, fee)
    ensures var start := NewBuilder(FundsFlow.BranchContext(ctx, "expand"));
            var run := FundsFlow.RunSteps(PayAll(p.contracts, p.fees, script), start, sha);
            && (FundsFlow.CompilePlan(PlanOf(p, script), ctx, sha).Ok? <==> ctx.funds >= Owed(p))
            && (run.Ok? <==> ctx.funds >= Owed(p))
            && (run.Ok? ==> run.value.ctx.funds == ctx.funds - Owed(p) && |run.value.outputs| == |p.contracts|)
    decreases p, 0
  {
    var start := NewBuilder(FundsFlow.BranchContext(ctx, "expand"));
    StepsSpendExactly(p.contracts, p.fees, radix, fee, script, start, sha);
    var branches := [FundsFlow.PlannedBranch("expand", PayAll(p.contracts, p.fees, script))];
    assert branches[1..] == [] && FundsFlow.CompileBranches([], ctx, sha) == Ok([]);
    assert FundsFlow.CompileBranch(branches[0], ctx, sha).Ok? <==> ctx.funds >= Owed(p);
    assert FundsFlow.CompileBranches(branches, ctx, sha).Ok? <==> FundsFlow.CompileBranch(branches[0], ctx, sha).Ok?;
  }

  // ------------------------------------------------------- cooperative closing

  function Payees(ps: seq<Payment>): (r: seq<XOnlyKey>)
    ensures |r| == |ps|
    ensures forall i :: 0 <= i < |r| ==> r[i] == ps[i].payee
  {
    if ps == [] then [] else [ps[0].payee] + Payees(ps[1..])
  }

  lemma PayeesConcat(a: seq<Payment>, b: seq<Payment>)
    ensures Payees(a + b) == Payees(a) + Payees(b)
  {
    forall i | 0 <= i < |a| + |b| ensures Payees(a + b)[i] == (Payees(a) + Payees(b))[i] {
    }
  }

  /** All keys below a payout, in the order in which its contracts list them. */
  method GetKeys(p: Payout) returns (keys: seq<XOnlyKey>)
    ensures keys == Payees(Leaves(p))
    decreases p
  {
    if p.Single? {
      return [p.payment.payee];
    }
    keys := [];
    for i := 0 to |p.contracts|
      invariant keys + Payees(LeavesAll(p.contracts[i..])) == Payees(LeavesAll(p.contracts))
    {
      var more := GetKeys(p.contracts[i].to);
      assert p.contracts[i..][1..] == p.contracts[i + 1..];
      PayeesConcat(LeavesOf(p.contracts[i]), LeavesAll(p.contracts[i + 1..]));
      ConcatAssociative(keys, more, Payees(LeavesAll(p.contracts[i + 1..])));
      keys := keys + more;
    }
    assert p.contracts[|p.contracts|..] == [] && keys + [] == keys;
  }

  function KeyClauses(keys: seq<XOnlyKey>): (r: seq<Clause>)
    ensures |r| == |keys|
    ensures forall i :: 0 <= i < |r| ==> r[i] == Key(keys[i])
  {
    if keys == [] then [] else [Key(keys[0])] + KeyClauses(keys[1..])
  }

  /** The n-of-n policy over a list of keys. */
  function Cooperate(keys: seq<XOnlyKey>): Clause {
    Threshold(|keys|, KeyClauses(keys))
  }

  /** A bundle closes cooperatively exactly when each of its payees signs. */
  lemma CooperateMeaning(p: Payout, w: World)
    ensures Sat(Cooperate(Payees(Leaves(p))), w) <==> forall payment :: payment in Leaves(p) ==> Key(payment.payee) in w
  {
    var keys := Payees(Leaves(p));
    ThresholdOfAll(KeyClauses(keys), w);
    assert AllSat(KeyClauses(keys), w) <==> forall i :: 0 <= i < |keys| ==> Key(keys[i]) in w by {
      forall i | 0 <= i < |keys| ensures Sat(KeyClauses(keys)[i], w) <==> Key(keys[i]) in w {
        assert KeyClauses(keys)[i] == Key(keys[i]);
      }
    }
    if forall payment :: payment in Leaves(p) ==> Key(payment.payee) in w {
      forall i | 0 <= i < |keys| ensures Key(keys[i]) in w {
        assert Leaves(p)[i] in Leaves(p);
      }
    }
    if forall i :: 0 <= i < |keys| ==> Key(keys[i]) in w {
      forall payment | payment in Leaves(p) ensures Key(payment.payee) in w {
        var i :| 0 <= i < |Leaves(p)| && Leaves(p)[i] == payment;
        assert keys[i] == payment.payee;
      }
    }
  }

  /** The root of the tree asks for the same signatures as the contract itself. */
  lemma RootCooperates(root: Payout, payments: seq<Payment>, radix: nat, fee: Amount, w: World)
    requires RootOf(root, payments, radix, fee)
    ensures Sat(Cooperate(Payees(Leaves(root))), w) <==> Sat(Cooperate(Payees(payments)), w)
  {
    var flat := Bundle(Entries(payments), fee);
    EntriesFacts(payments, radix, fee);
    CooperateMeaning(root, w);
    CooperateMeaning(flat, w);
    assert forall payment :: payment in Leaves(root) <==> payment in multiset(payments);
    assert forall payment :: payment in payments <==> payment in multiset(payments);
  }
}
