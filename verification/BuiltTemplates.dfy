/**
 * What a finished template is, from the operations that built it: which of
 * them succeed, and what each of them leaves in the outputs, the sequences,
 * the guards and the fees.
 */
module BuiltTemplates {
  import opened Sequences
  import opened Wrappers
  import opened Policies
  import opened EffectPaths
  import opened Contexts
  import opened Templates
  import opened CtvHash
  import opened Builders

  /** An operation succeeds exactly where there is enough to spend and nothing overflows. */
  lemma StepSucceedsIff(b: BuilderView, op: BuilderOp)
    ensures Apply(b, op).Ok? <==>
              match op
              case OutputOp(a, compile) =>
                && a <= b.ctx.funds && Branch(|b.outputs|) !in b.ctx.derived
                && compile(ContextView(a, Child(b.ctx.path, Branch(|b.outputs|)), {})).Ok?
              case AmountOp(a) => b.ctx.funds + a <= MAX_AMOUNT
              case SpendOp(a) => a <= b.ctx.funds
              case FeesOp(a) => a <= b.ctx.funds && b.fees + a <= MAX_AMOUNT
              case _ => true
  {
  }

  // ------------------------------------------------------------- what was asked

  /** The outputs that were asked for, in order. */
  function OutputsAsked(ops: seq<BuilderOp>): (r: seq<BuilderOp>)
    ensures forall k :: 0 <= k < |r| ==> r[k].OutputOp?
  {
    if ops == [] then [] else (if ops[0].OutputOp? then [ops[0]] else []) + OutputsAsked(ops[1..])
  }

  function GuardsAsked(ops: seq<BuilderOp>): seq<Clause> {
    if ops == [] then [] else (if ops[0].GuardOp? then [ops[0].guard] else []) + GuardsAsked(ops[1..])
  }

  function FeesAsked(ops: seq<BuilderOp>): Amount {
    if ops == [] then 0 else (if ops[0].FeesOp? then ops[0].amount else 0) + FeesAsked(ops[1..])
  }

  function SequencesAsked(ops: seq<BuilderOp>): nat {
    if ops == [] then 0 else (if ops[0].SequenceOp? then 1 else 0) + SequencesAsked(ops[1..])
  }

  /** The least feerate that was asked for, or none. */
  ghost predicate LeastFeerate(r: Option<Amount>, start: Option<Amount>, ops: seq<BuilderOp>) {
    && (r == start || exists k :: 0 <= k < |ops| && ops[k].MinFeerateOp? && r == Some(ops[k].amount))
    && (start.Some? ==> r.Some? && r.value <= start.value)
    && (forall k :: 0 <= k < |ops| && ops[k].MinFeerateOp? ==> r.Some? && r.value <= ops[k].amount)
  }

  lemma {:induction false} OnlyOutputsAsked(ops: seq<BuilderOp>)
    requires forall k :: 0 <= k < |ops| ==> ops[k].OutputOp?
    ensures OutputsAsked(ops) == ops && GuardsAsked(ops) == [] && FeesAsked(ops) == 0 && SequencesAsked(ops) == 0
  {
    if ops != [] {
      OnlyOutputsAsked(ops[1..]);
      assert ops == [ops[0]] + ops[1..];
    }
  }

  // -------------------------------------------------------------- what was made

  /** The output was compiled for its amount, at the branch of its number. */
  ghost predicate MadeFor(o: Output, op: BuilderOp, path: ReversePath, number: nat) {
    && op.OutputOp? && o.amount == op.amount
    && op.compile(ContextView(op.amount, Child(path, Branch(number)), {})) == Ok(o.contract)
  }

  ghost predicate AllMadeFor(outputs: seq<Output>, asked: seq<BuilderOp>, path: ReversePath, from: nat) {
    && |outputs| == |asked|
    && forall k :: 0 <= k < |outputs| ==> MadeFor(outputs[k], asked[k], path, from + k)
  }

  /** The outputs of a run: those there were, and then those asked for. */
  ghost predicate Appends(e: BuilderView, b: BuilderView, asked: seq<BuilderOp>) {
    && |b.outputs| <= |e.outputs| && e.outputs[..|b.outputs|] == b.outputs
    && AllMadeFor(e.outputs[|b.outputs|..], asked, b.ctx.path, |b.outputs|)
  }

  lemma AppendsNothing(b: BuilderView)
    ensures Appends(b, b, [])
  {
  }

  lemma AppendsFirst(e: BuilderView, b: BuilderView, next: BuilderView, op: BuilderOp, asked: seq<BuilderOp>)
    requires Apply(b, op) == Ok(next) && op.OutputOp? && Appends(e, next, asked)
    ensures Appends(e, b, [op] + asked)
  {
    var n := |b.outputs|;
    var own, rest := e.outputs[n..], e.outputs[|next.outputs|..];
    assert e.outputs[..n] == e.outputs[..|next.outputs|][..n] == b.outputs;
    assert own[0] == e.outputs[..|next.outputs|][n] == next.outputs[n];
    assert MadeFor(own[0], op, b.ctx.path, n);
    forall k | 0 <= k < |own| ensures MadeFor(own[k], ([op] + asked)[k], b.ctx.path, n + k) {
      if k > 0 {
        assert own[k] == rest[k - 1] && MadeFor(rest[k - 1], asked[k - 1], next.ctx.path, n + 1 + (k - 1));
      }
    }
  }

  lemma AppendsLater(e: BuilderView, b: BuilderView, next: BuilderView, op: BuilderOp, asked: seq<BuilderOp>)
    requires Apply(b, op) == Ok(next) && !op.OutputOp? && Appends(e, next, asked)
    ensures Appends(e, b, asked)
  {
  }

  lemma {:induction false} RunAppends(b: BuilderView, ops: seq<BuilderOp>)
    requires ApplyAll(b, ops).Ok?
    ensures Appends(ApplyAll(b, ops).value, b, OutputsAsked(ops))
    decreases |ops|
  {
    if ops == [] {
      AppendsNothing(b);
    } else {
      var next := Apply(b, ops[0]).value;
      RunAppends(next, ops[1..]);
      if ops[0].OutputOp? {
        AppendsFirst(ApplyAll(b, ops).value, b, next, ops[0], OutputsAsked(ops[1..]));
      } else {
        AppendsLater(ApplyAll(b, ops).value, b, next, ops[0], OutputsAsked(ops[1..]));
        assert OutputsAsked(ops) == OutputsAsked(ops[1..]);
      }
    }
  }

  lemma {:induction false} RunKeeps(b: BuilderView, ops: seq<BuilderOp>)
    requires ApplyAll(b, ops).Ok?
    ensures var e := ApplyAll(b, ops).value;
            && e.guards == b.guards + GuardsAsked(ops) && e.fees == b.fees + FeesAsked(ops)
            && e.version == b.version && e.lockTime == b.lockTime
    decreases |ops|
  {
    if ops != [] {
      RunKeeps(Apply(b, ops[0]).value, ops[1..]);
      if ops[0].GuardOp? {
        ConcatAssociative(b.guards, [ops[0].guard], GuardsAsked(ops[1..]));
      }
    }
  }

  lemma {:induction false} RunSequences(b: BuilderView, ops: seq<BuilderOp>)
    requires ApplyAll(b, ops).Ok? && forall i :: 0 <= i < |b.sequences| ==> b.sequences[i].None?
    ensures var e := ApplyAll(b, ops).value;
            && |e.sequences| == |b.sequences| + SequencesAsked(ops)
            && forall i :: 0 <= i < |e.sequences| ==> e.sequences[i].None?
    decreases |ops|
  {
    if ops != [] {
      RunSequences(Apply(b, ops[0]).value, ops[1..]);
    }
  }

  lemma LeastOfMore(r: Option<Amount>, start: Option<Amount>, op: BuilderOp, next: Option<Amount>, ops: seq<BuilderOp>)
    requires LeastFeerate(r, next, ops)
    requires if op.MinFeerateOp? then next == Some(if start.None? || op.amount < start.value then op.amount
                                                   else start.value)
             else next == start
    ensures LeastFeerate(r, start, [op] + ops)
  {
    var all := [op] + ops;
    assert all[0] == op && forall k :: 1 <= k < |all| ==> all[k] == ops[k - 1];
    if k :| 0 <= k < |ops| && ops[k].MinFeerateOp? && r == Some(ops[k].amount) {
      assert all[k + 1] == ops[k];
    }
  }

  lemma {:induction false} RunFeerate(b: BuilderView, ops: seq<BuilderOp>)
    requires ApplyAll(b, ops).Ok?
    ensures LeastFeerate(ApplyAll(b, ops).value.minFeerate, b.minFeerate, ops)
    decreases |ops|
  {
    if ops != [] {
      var next := Apply(b, ops[0]).value;
      RunFeerate(next, ops[1..]);
      LeastOfMore(ApplyAll(b, ops).value.minFeerate, b.minFeerate, ops[0], next.minFeerate, ops[1..]);
      assert ops == [ops[0]] + ops[1..];
    }
  }

  /**
   * A finished template: the guards asked for in order, one input more than
   * sequences asked for, the outputs asked for in order, each compiled for its
   * amount at a branch of its own and paid in the transaction, the fees, the
   * least feerate, and the hash of its own transaction at the first input.
   */
  lemma TemplateOfOperations(ctx: ContextView, ops: seq<BuilderOp>, sha: Sha256)
    requires ApplyAll(NewBuilder(ctx), ops).Ok?
    ensures var t := TemplateOf(ApplyAll(NewBuilder(ctx), ops).value, sha);
            && t.guards == GuardsAsked(ops)
            && t.ctv == TemplateHash(t.tx, 0, sha)
            && t.max == TotalAmount(t.outputs) + FeesAsked(ops)
            && LeastFeerate(t.minFeerate, None, ops)
            && AllMadeFor(t.outputs, OutputsAsked(ops), ctx.path, 0)
            && t.tx.version == 2 && t.tx.lockTime == 0
            && |t.tx.input| == 1 + SequencesAsked(ops) && |t.tx.output| == |t.outputs|
            && (forall i :: 0 <= i < |t.tx.input| ==> t.tx.input[i] == TxIn(OutPoint(0, 0xFFFF_FFFF), 0x40_0000))
            && (forall k :: 0 <= k < |t.outputs| ==>
                  t.tx.output[k] == TxOut(t.outputs[k].amount, t.outputs[k].contract.script))
  {
    var b := NewBuilder(ctx);
    var e := ApplyAll(b, ops).value;
    RunKeeps(b, ops);
    RunSequences(b, ops);
    RunFeerate(b, ops);
    RunAppends(b, ops);
    assert e.outputs[0..] == e.outputs;
    TotalValueOfOutputs(e.outputs);
    assert [] + GuardsAsked(ops) == GuardsAsked(ops);
  }
}
