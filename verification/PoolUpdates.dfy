/**
 * Updates of a payment pool, told from the pool and the requests: which are
 * refused and why, what the one transaction pays to whom, and which bytes
 * the payers sign for it to go through.
 */
module PoolUpdates {
  import opened Sequences
  import opened Wrappers
  import opened Bytes
  import opened Policies
  import opened EffectPaths
  import opened Contexts
  import opened Templates
  import opened CtvHash
  import opened Builders
  import opened BuiltTemplates
  import opened Addresses
  import opened PaymentTrees
  import opened PaymentPools

  type Payment = PaymentTo<Address>

  // ------------------------------------------------------------- the requests

  /** The payer is a member, with this balance. */
  ghost predicate Owns(pool: PaymentPool, key: XOnlyKey, balance: Amount) {
    exists i :: 0 <= i < |pool.members| && pool.members[i] == Member(key, balance)
  }

  lemma {:induction false} LookupIff(ms: seq<Member>, key: XOnlyKey, balance: Amount)
    requires Ordered(ms)
    ensures Lookup(ms, key) == Some(balance) <==> exists i :: 0 <= i < |ms| && ms[i] == Member(key, balance)
  {
    if ms != [] {
      LookupIff(ms[1..], key, balance);
      if i :| 0 <= i < |ms| && ms[i] == Member(key, balance) {
        assert i > 0 ==> ms[1..][i - 1] == ms[i];
      }
      if i :| 0 <= i < |ms[1..]| && ms[1..][i] == Member(key, balance) {
        assert ms[i + 1] == ms[1..][i];
      }
    }
  }

  /** The signature is the payer's, over the pool's state, the fee and the payments. */
  predicate Signed(pool: PaymentPool, r: Request, env: Env) {
    env.verify(r.hexSig, env.sha(SignedBytes(pool.sequence, r)), r.from)
  }

  /** The payer is a member, can afford the request, and signed it where signatures are needed. */
  ghost predicate Allowed(pool: PaymentPool, r: Request, env: Env) {
    && (exists balance :: Owns(pool, r.from, balance) && SumPayments(r.payments) + r.fee <= balance)
    && (pool.sigNeeded ==> Signed(pool, r, env))
  }

  /** A request is refused unless it is allowed; which error tells what is wrong with it. */
  lemma RefusedUnlessAllowed(pool: PaymentPool, r: Request, env: Env)
    requires Ordered(pool.members)
    ensures Refusal(pool, r, env).None? <==> Allowed(pool, r, env)
    ensures (forall balance :: !Owns(pool, r.from, balance)) ==> Refusal(pool, r, env) == Some(TerminateCompilation)
    ensures forall balance :: Owns(pool, r.from, balance) ==>
              if SumPayments(r.payments) + r.fee > balance
              then Refusal(pool, r, env) == Some(Panic("Amount subtraction error"))
              else pool.sigNeeded && !Signed(pool, r, env) ==> Refusal(pool, r, env) == Some(TerminateCompilation)
  {
    forall balance: Amount ensures Lookup(pool.members, r.from) == Some(balance) <==> Owns(pool, r.from, balance) {
      LookupIff(pool.members, r.from, balance);
    }
    if Lookup(pool.members, r.from).Some? {
      assert Owns(pool, r.from, Lookup(pool.members, r.from).value);
    }
  }

  lemma {:induction false} FirstRefused(pool: PaymentPool, update: seq<Request>, env: Env) returns (k: nat)
    requires FirstRefusal(pool, update, env).Some?
    ensures k < |update| && FirstRefusal(pool, update, env) == Refusal(pool, update[k], env)
    ensures forall i :: 0 <= i < k ==> Refusal(pool, update[i], env).None?
  {
    if Refusal(pool, update[0], env).Some? {
      k := 0;
    } else {
      var j := FirstRefused(pool, update[1..], env);
      k := j + 1;
      assert forall i :: 1 <= i < k ==> update[i] == update[1..][i - 1];
    }
  }

  /** An update that is refused fails with the error of the first request that is not allowed. */
  lemma RefusedUpdate(pool: PaymentPool, ctx: ContextView, update: seq<Request>, env: Env) returns (k: nat)
    requires Ordered(pool.members) && exists i :: 0 <= i < |update| && !Allowed(pool, update[i], env)
    ensures k < |update| && !Allowed(pool, update[k], env)
    ensures forall i :: 0 <= i < k ==> Allowed(pool, update[i], env)
    ensures Outcome(pool, ctx, update, env).Err?
    ensures Some(Outcome(pool, ctx, update, env).error) == Refusal(pool, update[k], env)
  {
    forall i | 0 <= i < |update| ensures Refusal(pool, update[i], env).None? <==> Allowed(pool, update[i], env) {
      RefusedUnlessAllowed(pool, update[i], env);
    }
    RefusedIffOneIs(pool, update, env);
    k := FirstRefused(pool, update, env);
  }

  /** Whatever an update proposes, every request in it was allowed: each payer signed, if signatures are needed. */
  lemma OnlyAllowedUpdates(pool: PaymentPool, ctx: ContextView, update: seq<Request>, env: Env, i: nat)
    requires Ordered(pool.members) && Outcome(pool, ctx, update, env).Ok? && i < |update|
    ensures Allowed(pool, update[i], env)
    ensures pool.sigNeeded ==>
              env.verify(update[i].hexSig, env.sha(SignedBytes(pool.sequence, update[i])), update[i].from)
  {
    RefusedIffOneIs(pool, update, env);
    RefusedUnlessAllowed(pool, update[i], env);
  }

  /** An update whose requests are all allowed is what its proposal comes to. */
  lemma AllowedUpdate(pool: PaymentPool, ctx: ContextView, update: seq<Request>, env: Env)
    requires Ordered(pool.members) && update != []
    requires forall i :: 0 <= i < |update| ==> Allowed(pool, update[i], env)
    ensures Outcome(pool, ctx, update, env) == Proposal(ctx, NextPool(pool, update), AllPayments(update), env)
  {
    forall i | 0 <= i < |update| ensures Refusal(pool, update[i], env).None? {
      RefusedUnlessAllowed(pool, update[i], env);
    }
    RefusedIffOneIs(pool, update, env);
  }

  // -------------------------------------------------------------- the transaction

  /** The object is what the contract compiles to with this amount at the branch of this number. */
  ghost predicate Compiles(o: Object, compile: Compilable, amount: Amount, ctx: ContextView, number: nat) {
    compile(ContextView(amount, Child(ctx.path, Branch(number)), {})) == Ok(o)
  }

  ghost predicate PaysThroughTree(t: Template, payments: seq<Payment>, ctx: ContextView, env: Env) {
    && |t.outputs| == 2
    && Compiles(t.outputs[1].contract, env.tree(payments), SumPayments(payments), ctx, 1)
  }

  ghost predicate PaysEach(t: Template, payments: seq<Payment>, ctx: ContextView, env: Env) {
    && |t.outputs| == 1 + |payments|
    && forall i :: 0 <= i < |payments| ==>
         Compiles(t.outputs[1 + i].contract, env.address(payments[i].payee), payments[i].amount, ctx, 1 + i)
  }

  /** The next pool comes first, and then the payments. */
  ghost predicate PaysOut(t: Template, next: PaymentPool, payments: seq<Payment>, ctx: ContextView, env: Env) {
    && t.guards == [] && t.outputs != []
    && Compiles(t.outputs[0].contract, env.pool(next), Total(next.members), ctx, 0)
    && (|payments| > 4 ==> PaysThroughTree(t, payments, ctx, env))
    && (|payments| <= 4 ==> PaysEach(t, payments, ctx, env))
  }

  /**
   * The transaction of an update pays the next pool first: the members left,
   * the next sequence number, and signatures needed as before. Then it pays
   * each payment to its own address, or all of them through one tree if there
   * are more than four.
   */
  lemma UpdatePays(pool: PaymentPool, ctx: ContextView, update: seq<Request>, env: Env)
    requires Ordered(pool.members) && update != [] && Outcome(pool, ctx, update, env).Ok?
    ensures |Outcome(pool, ctx, update, env).value| == 1
    ensures PaysOut(Outcome(pool, ctx, update, env).value[0],
                    PaymentPool(NewMembers(pool.members, update), pool.sequence + 1, pool.sigNeeded),
                    AllPayments(update), ctx, env)
  {
    ProposalPaysOut(ctx, NextPool(pool, update), AllPayments(update), env, Outcome(pool, ctx, update, env));
  }

  lemma ProposalPaysOut(ctx: ContextView, next: PaymentPool, payments: seq<Payment>, env: Env,
      r: Result<seq<Template>, CompilationError>)
    requires r.Ok? && r == Proposal(ctx, next, payments, env)
    ensures |r.value| == 1 && PaysOut(r.value[0], next, payments, ctx, env)
  {
    ProposalMade(ctx, next, payments, env);
    ProposesNext(r.value[0], next, payments, ctx, env);
    if |payments| > 4 {
      ProposesTree(r.value[0], next, payments, ctx, env);
    } else {
      ProposesEach(r.value[0], next, payments, ctx, env);
    }
  }

  lemma ProposalMade(ctx: ContextView, next: PaymentPool, payments: seq<Payment>, env: Env)
    requires Proposal(ctx, next, payments, env).Ok?
    ensures |Proposal(ctx, next, payments, env).value| == 1
    ensures var t := Proposal(ctx, next, payments, env).value[0];
            t.guards == [] && AllMadeFor(t.outputs, ProposalOps(next, payments, env), ctx.path, 0)
  {
    OnlyOutputsAsked(ProposalOps(next, payments, env));
    TemplateOfOperations(ctx, ProposalOps(next, payments, env), env.sha);
  }

  lemma ProposesNext(t: Template, next: PaymentPool, payments: seq<Payment>, ctx: ContextView, env: Env)
    requires AllMadeFor(t.outputs, ProposalOps(next, payments, env), ctx.path, 0)
    ensures t.outputs != [] && Compiles(t.outputs[0].contract, env.pool(next), Total(next.members), ctx, 0)
  {
    assert MadeFor(t.outputs[0], ProposalOps(next, payments, env)[0], ctx.path, 0);
  }

  lemma ProposesTree(t: Template, next: PaymentPool, payments: seq<Payment>, ctx: ContextView, env: Env)
    requires |payments| > 4 && AllMadeFor(t.outputs, ProposalOps(next, payments, env), ctx.path, 0)
    ensures PaysThroughTree(t, payments, ctx, env)
  {
    assert MadeFor(t.outputs[1], ProposalOps(next, payments, env)[1], ctx.path, 1);
  }

  lemma ProposesEach(t: Template, next: PaymentPool, payments: seq<Payment>, ctx: ContextView, env: Env)
    requires |payments| <= 4 && AllMadeFor(t.outputs, ProposalOps(next, payments, env), ctx.path, 0)
    ensures PaysEach(t, payments, ctx, env)
  {
    var ops := ProposalOps(next, payments, env);
    forall i | 0 <= i < |payments| ensures
        Compiles(t.outputs[1 + i].contract, env.address(payments[i].payee), payments[i].amount, ctx, 1 + i) {
      assert ops[1 + i] == PayOps(payments, env)[i];
      MadeAs(t.outputs[1 + i], ops[1 + i], env.address(payments[i].payee), payments[i].amount, ctx, 1 + i);
    }
  }

  lemma MadeAs(o: Output, op: BuilderOp, compile: Compilable, amount: Amount, ctx: ContextView, number: nat)
    requires MadeFor(o, op, ctx.path, number) && op == OutputOp(amount, compile)
    ensures Compiles(o.contract, compile, amount, ctx, number)
  {
  }

  // ------------------------------------------------------------------ ejections

  /** Pools that are split off need signatures as before, and count one state further for each split. */
  lemma {:induction false} EjectionsKeepRules(pool: PaymentPool, upper: seq<bool>, last: PaymentPool)
    requires Ejects(pool, upper, last)
    ensures last.sigNeeded == pool.sigNeeded && last.sequence == pool.sequence + |upper|
    decreases |upper|
  {
    if upper != [] {
      EjectionsKeepRules(if upper[0] then Halves(pool).1 else Halves(pool).0, upper[1..], last);
    }
  }

  lemma BothMade(ctx: ContextView, ops: seq<BuilderOp>, sha: Sha256, one: BuilderOp, two: BuilderOp)
    requires ops == [one, two] && one.OutputOp? && two.OutputOp? && ApplyAll(NewBuilder(ctx), ops).Ok?
    ensures var t := TemplateOf(ApplyAll(NewBuilder(ctx), ops).value, sha);
            && |t.outputs| == 2 && t.guards == []
            && Compiles(t.outputs[0].contract, one.compile, one.amount, ctx, 0)
            && Compiles(t.outputs[1].contract, two.compile, two.amount, ctx, 1)
  {
    OnlyOutputsAsked(ops);
    TemplateOfOperations(ctx, ops, sha);
    var t := TemplateOf(ApplyAll(NewBuilder(ctx), ops).value, sha);
    assert MadeFor(t.outputs[0], ops[0], ctx.path, 0) && MadeFor(t.outputs[1], ops[1], ctx.path, 1);
    MadeAs(t.outputs[0], one, one.compile, one.amount, ctx, 0);
    MadeAs(t.outputs[1], two, two.compile, two.amount, ctx, 1);
  }

  /** An ejection pays the pool of the members below the middle one, and then that of the others. */
  lemma EjectionPays(pool: PaymentPool, ctx: ContextView, env: Env)
    requires |pool.members| >= 2
    requires Finished(ApplyAll(NewBuilder(ctx), EjectionOps(pool, env)), env.sha).Ok?
    ensures var t := Finished(ApplyAll(NewBuilder(ctx), EjectionOps(pool, env)), env.sha).value[0];
            var mid := (|pool.members| + 1) / 2;
            var low, high := pool.members[..mid], pool.members[mid..];
            && |t.outputs| == 2 && t.guards == []
            && Compiles(t.outputs[0].contract, env.pool(PaymentPool(low, pool.sequence + 1, pool.sigNeeded)),
                        Total(low), ctx, 0)
            && Compiles(t.outputs[1].contract, env.pool(PaymentPool(high, pool.sequence + 1, pool.sigNeeded)),
                        Total(high), ctx, 1)
  {
    var ops := EjectionOps(pool, env);
    BothMade(ctx, ops, env.sha, ops[0], ops[1]);
  }

  // --------------------------------------------------------------- what is signed

  /** The signed bytes: sequence number and fee, then for each payment its amount and its script. */
  lemma SignedLayout(sequence: nat, r: Request)
    ensures var b := SignedBytes(sequence, r);
            Holds(b, 0, 8, sequence) && Holds(b, 8, 8, r.fee) && b[16..] == PaymentBytes(r.payments)
  {
    TwoNumbers(sequence, r.fee, PaymentBytes(r.payments));
  }

  lemma TwoNumbers(n: nat, m: nat, rest: seq<Byte>)
    ensures var b := LittleEndian(n, 8) + (LittleEndian(m, 8) + rest);
            Holds(b, 0, 8, n) && Holds(b, 8, 8, m) && b[16..] == rest
  {
    var b, first, second := LittleEndian(n, 8) + (LittleEndian(m, 8) + rest), LittleEndian(n, 8), LittleEndian(m, 8);
    forall i | 0 <= i < 8 ensures b[i] == ByteAt(n, i) && b[8 + i] == ByteAt(m, i) {
      LittleEndianAt(n, 8, i);
      LittleEndianAt(m, 8, i);
      assert b[i] == first[i] && b[8 + i] == second[i];
    }
  }

  /** The bytes of a payment: eight of its amount, then its script. */
  lemma OnePaymentLayout(p: Payment)
    ensures Holds(OnePaymentBytes(p), 0, 8, p.amount) && OnePaymentBytes(p)[8..] == ScriptPubkey(p.payee)
  {
    LittleEndianHolds([], p.amount, 8, ScriptPubkey(p.payee));
    assert [] + LittleEndian(p.amount, 8) + ScriptPubkey(p.payee) == OnePaymentBytes(p);
  }

  /** Payments come one after the other, in order. */
  lemma {:induction false} PaymentsLayout(payments: seq<Payment>, i: nat)
    requires i < |payments|
    ensures PaymentBytes(payments)
         == PaymentBytes(payments[..i]) + OnePaymentBytes(payments[i]) + PaymentBytes(payments[i + 1..])
    decreases i
  {
    if i == 0 {
      assert PaymentBytes(payments[..0]) == [];
    } else {
      PaymentsLayout(payments[1..], i - 1);
      assert payments[..i][1..] == payments[1..][..i - 1] && payments[1..][i..] == payments[i + 1..];
      FourParts(OnePaymentBytes(payments[0]), PaymentBytes(payments[1..][..i - 1]), OnePaymentBytes(payments[i]),
          PaymentBytes(payments[i + 1..]));
    }
  }
}
