/**
 * What the compiled transactions of a payment tree pay in the end, and to
 * whom: everyone on the list gets what the list says, with nothing left over
 * at any inner node.
 */
module PaidLeaves {
  import opened Sequences
  import opened Wrappers
  import opened Bytes
  import opened Contexts
  import opened Templates
  import opened CtvHash
  import opened Builders
  import opened PaymentTrees
  import FundsFlow

  /** An amount and the script that it ends up with. */
  datatype Paid = Paid(amount: Amount, script: seq<Byte>)

  /** Follows the first transaction of every object down to objects without one. */
  ghost function PaidBy(o: Object, amount: Amount): seq<Paid>
    decreases o, 0
  {
    if o.ctvToTx == [] then [Paid(amount, o.script)] else PaidIn(o.ctvToTx[0])
  }

  ghost function PaidIn(t: Template): seq<Paid>
    decreases t, 2
  {
    PaidByAll(t.outputs)
  }

  ghost function PaidByAll(outputs: seq<Output>): seq<Paid>
    decreases outputs, 2
  {
    if outputs == [] then [] else PaidByOutput(outputs[0]) + PaidByAll(outputs[1..])
  }

  ghost function PaidByOutput(o: Output): seq<Paid>
    decreases o, 1
  {
    PaidBy(o.contract, o.amount)
  }

  /** Every transaction below pays this fee, and each object has at most one. */
  ghost predicate AllPayFee(o: Object, fee: Amount)
    decreases o, 0
  {
    o.ctvToTx == [] || (|o.ctvToTx| == 1 && PaysFee(o.ctvToTx[0], fee))
  }

  ghost predicate PaysFee(t: Template, fee: Amount)
    decreases t, 2
  {
    t.max == TotalAmount(t.outputs) + fee && OutputsPayFee(t.outputs, fee)
  }

  ghost predicate OutputsPayFee(outputs: seq<Output>, fee: Amount)
    decreases outputs, 2
  {
    outputs == [] || (OutputPaysFee(outputs[0], fee) && OutputsPayFee(outputs[1..], fee))
  }

  ghost predicate OutputPaysFee(o: Output, fee: Amount)
    decreases o, 1
  {
    AllPayFee(o.contract, fee)
  }

  /** What a list of payments is to pay: each amount to the script of its own payee. */
  function Owing(payments: seq<Payment>, script: Payout -> seq<Byte>): (r: seq<Paid>)
    ensures |r| == |payments|
    ensures forall i :: 0 <= i < |r| ==> r[i] == Paid(payments[i].amount, script(Single(payments[i])))
  {
    if payments == [] then []
    else [Paid(payments[0].amount, script(Single(payments[0])))] + Owing(payments[1..], script)
  }

  lemma OwingConcat(a: seq<Payment>, c: seq<Payment>, script: Payout -> seq<Byte>)
    ensures Owing(a + c, script) == Owing(a, script) + Owing(c, script)
  {
  }

  lemma {:induction false} PaidByAllConcat(a: seq<Output>, c: seq<Output>, fee: Amount)
    ensures PaidByAll(a + c) == PaidByAll(a) + PaidByAll(c)
    ensures OutputsPayFee(a + c, fee) <==> OutputsPayFee(a, fee) && OutputsPayFee(c, fee)
  {
    if a == [] {
      assert a + c == c;
    } else {
      assert (a + c)[1..] == a[1..] + c;
      PaidByAllConcat(a[1..], c, fee);
    }
  }

  /** What the steps of a run have put out is all theirs and what was there before. */
  ghost predicate PutsOut(e: BuilderView, b: BuilderView, owing: seq<Paid>, fee: Amount) {
    && PaidByAll(e.outputs) == PaidByAll(b.outputs) + owing
    && (OutputsPayFee(b.outputs, fee) ==> OutputsPayFee(e.outputs, fee))
  }

  lemma {:induction false} StepsPutOut(es: seq<Entry>, fees: Amount, radix: nat, fee: Amount,
      script: Payout -> seq<Byte>, b: BuilderView, sha: Sha256)
    requires SoundAll(es, radix, fee)
    requires FundsFlow.RunSteps(PayAll(es, fees, script), b, sha).Ok?
    ensures PutsOut(FundsFlow.RunSteps(PayAll(es, fees, script), b, sha).value, b, Owing(LeavesAll(es), script), fee)
    ensures FundsFlow.RunSteps(PayAll(es, fees, script), b, sha).value.fees == b.fees + fees
    decreases es, 2
  {
    var steps := PayAll(es, fees, script);
    if es == [] {
      assert steps[1..] == [];
      assert PaidByAll(b.outputs) + [] == PaidByAll(b.outputs);
    } else {
      assert steps[0] == PayEntry(es[0], script) && steps[1..] == PayAll(es[1..], fees, script);
      var next := FundsFlow.RunStep(steps[0], b, sha).value;
      EntryPutsOut(es[0], radix, fee, script, b, sha);
      StepsPutOut(es[1..], fees, radix, fee, script, next, sha);
      OwingConcat(LeavesOf(es[0]), LeavesAll(es[1..]), script);
      ConcatAssociative(PaidByAll(b.outputs), Owing(LeavesOf(es[0]), script), Owing(LeavesAll(es[1..]), script));
    }
  }

  lemma {:induction false} EntryPutsOut(e: Entry, radix: nat, fee: Amount, script: Payout -> seq<Byte>,
      b: BuilderView, sha: Sha256)
    requires Sound(e, radix, fee) && FundsFlow.RunStep(PayEntry(e, script), b, sha).Ok?
    ensures PutsOut(FundsFlow.RunStep(PayEntry(e, script), b, sha).value, b, Owing(LeavesOf(e), script), fee)
    ensures FundsFlow.RunStep(PayEntry(e, script), b, sha).value.fees == b.fees
    decreases e, 1
  {
    var reserved := ReserveOutput(b, e.amount).value;
    var o := FundsFlow.CompilePlan(PlanOf(e.to, script), reserved.1, sha).value;
    if e.to.Bundle? {
      BundlePutsOut(e.to, radix, fee, script, reserved.1, sha, e.amount);
    } else {
      assert o == FromAddress(script(e.to)) && PaidBy(o, e.amount) == Owing(LeavesOf(e), script);
    }
    OneMorePutsOut(b, reserved.0, e.amount, o, fee);
  }

  lemma OneMorePutsOut(b: BuilderView, next: BuilderView, amount: Amount, o: Object, fee: Amount)
    requires next.outputs == b.outputs && AllPayFee(o, fee)
    ensures PutsOut(PushOutput(next, amount, o), b, PaidBy(o, amount), fee)
  {
    var last := [Output(amount, o)];
    PaidByAllConcat(b.outputs, last, fee);
    assert last[1..] == [] && OutputPaysFee(last[0], fee);
    assert PaidByAll(last) == PaidByOutput(last[0]) + [];
  }

  /** A compiled bundle pays each of its payments, in order, to its own payee; its transactions pay the fee. */
  lemma {:induction false} BundlePutsOut(p: Payout, radix: nat, fee: Amount, script: Payout -> seq<Byte>,
      ctx: ContextView, sha: Sha256, amount: Amount)
    requires p.Bundle? && p.fees == fee && SoundAll(p.contracts, radix, fee)
    requires FundsFlow.CompilePlan(PlanOf(p, script), ctx, sha).Ok?
    ensures var o := FundsFlow.CompilePlan(PlanOf(p, script), ctx, sha).value;
            PaidBy(o, amount) == Owing(Leaves(p), script) && AllPayFee(o, fee) && o.script == script(p)
    decreases p, 0
  {
    var start := NewBuilder(FundsFlow.BranchContext(ctx, "expand"));
    var branches := [FundsFlow.PlannedBranch("expand", PayAll(p.contracts, p.fees, script))];
    assert branches[1..] == [] && FundsFlow.CompileBranches([], ctx, sha) == Ok([]);
    var t := FundsFlow.CompileBranch(branches[0], ctx, sha).value;
    assert FundsFlow.CompileBranches(branches, ctx, sha) == Ok([t] + []);
    StepsPutOut(p.contracts, p.fees, radix, fee, script, start, sha);
    TotalValueOfOutputs(t.outputs);
    assert PaidByAll(start.outputs) + Owing(Leaves(p), script) == Owing(Leaves(p), script);
  }

  /**
   * End to end: the transactions that a payment tree compiles to pay exactly
   * the payments, each amount to the script of its own payee, and one fee per
   * transaction.
   */
  lemma TreePaysEveryone(root: Payout, payments: seq<Payment>, radix: nat, fee: Amount, script: Payout -> seq<Byte>,
      ctx: ContextView, sha: Sha256, amount: Amount)
    requires RootOf(root, payments, radix, fee)
    requires FundsFlow.CompilePlan(PlanOf(root, script), ctx, sha).Ok?
    ensures var o := FundsFlow.CompilePlan(PlanOf(root, script), ctx, sha).value;
            multiset(PaidBy(o, amount)) == multiset(Owing(payments, script)) && AllPayFee(o, fee)
  {
    BundlePutsOut(root, radix, fee, script, ctx, sha, amount);
    OwingOfMultiset(Leaves(root), payments, script);
  }

  lemma {:induction false} OwingOfMultiset(a: seq<Payment>, c: seq<Payment>, script: Payout -> seq<Byte>)
    requires multiset(a) == multiset(c)
    ensures multiset(Owing(a, script)) == multiset(Owing(c, script))
    decreases |a|
  {
    SameLength(a, c);
    if a != [] {
      assert a[0] in multiset(c);
      var i :| 0 <= i < |c| && c[i] == a[0];
      WithoutOne(a, 0);
      WithoutOne(c, i);
      OwingOfMultiset(Without(a, 0), Without(c, i), script);
      OwingWithout(a, 0, script);
      OwingWithout(c, i, script);
    }
  }

  lemma OwingWithout(a: seq<Payment>, i: nat, script: Payout -> seq<Byte>)
    requires i < |a|
    ensures multiset(Owing(a, script)) ==
            multiset(Owing(Without(a, i), script)) + multiset{Paid(a[i].amount, script(Single(a[i])))}
  {
    OwingSkips(a, i, script);
    WithoutAndOne(Owing(a, script), i);
  }

  lemma OwingSkips(a: seq<Payment>, i: nat, script: Payout -> seq<Byte>)
    requires i < |a|
    ensures Owing(Without(a, i), script) == Without(Owing(a, script), i)
  {
    var some, all := Owing(Without(a, i), script), Owing(a, script);
    forall k | 0 <= k < |some| ensures some[k] == Without(all, i)[k] {
      assert Without(a, i)[k] == a[if k < i then k else k + 1];
    }
  }

  lemma WithoutAndOne<T>(s: seq<T>, i: nat)
    requires i < |s|
    ensures multiset(s) == multiset(Without(s, i)) + multiset{s[i]}
  {
    WithoutOne(s, i);
    assert s[i] in multiset(s);
  }
}
