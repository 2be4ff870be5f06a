/**
 * The template builder: a state machine that spends a context's funds on
 * outputs and fees, and the template that it ends in.
 */
module Builders {
  import opened Wrappers
  import opened Policies
  import opened EffectPaths
  import opened Contexts
  import opened Templates
  import opened CtvHash

  /** A relative time lock of zero units, with the flag for time set. */
  const DEFAULT_SEQUENCE: nat := 0x40_0000

  const DEFAULT_OUTPOINT := OutPoint(0, 0xFFFF_FFFF)

  /** The value of a builder at one moment. */
  datatype BuilderView = BuilderView(
    ctx: ContextView,
    guards: seq<Clause>,
    sequences: seq<Option<nat>>,
    outputs: seq<Output>,
    version: int,
    lockTime: Option<nat>,
    fees: Amount,
    minFeerate: Option<Amount>)

  function NewBuilder(ctx: ContextView): BuilderView {
    BuilderView(ctx, [], [None], [], 2, None, 0, None)
  }

  type Compilable = ContextView -> Result<Object, CompilationError>

  /** Sets aside an output's amount; the sub-context holds exactly that amount. */
  function ReserveOutput(b: BuilderView, amount: Amount): Result<(BuilderView, ContextView), CompilationError> {
    var family :- Derived(b.ctx, Branch(|b.outputs|));
    var sub :- WithAmount(family.1, amount);
    var ctx :- SpendAmount(family.0, amount);
    Ok((b.(ctx := ctx), sub))
  }

  function PushOutput(b: BuilderView, amount: Amount, contract: Object): BuilderView {
    b.(outputs := b.outputs + [Output(amount, contract)])
  }

  function OutputAdded(b: BuilderView, amount: Amount, compile: Compilable): Result<BuilderView, CompilationError> {
    var reserved :- ReserveOutput(b, amount);
    var contract :- compile(reserved.1);
    Ok(PushOutput(reserved.0, amount, contract))
  }

  function FundsAdded(b: BuilderView, amount: Amount): Result<BuilderView, CompilationError> {
    var ctx :- AddAmount(b.ctx, amount);
    Ok(b.(ctx := ctx))
  }

  function FundsSpent(b: BuilderView, amount: Amount): Result<BuilderView, CompilationError> {
    var ctx :- SpendAmount(b.ctx, amount);
    Ok(b.(ctx := ctx))
  }

  function FeesAdded(b: BuilderView, amount: Amount): Result<BuilderView, CompilationError> {
    var spent :- FundsSpent(b, amount);
    if spent.fees + amount > MAX_AMOUNT then Err(Panic("Amount addition error"))
    else Ok(spent.(fees := spent.fees + amount))
  }

  function Inputs(sequences: seq<Option<nat>>): (r: seq<TxIn>)
    ensures |r| == |sequences|
    ensures forall i :: 0 <= i < |r| ==>
              r[i] == TxIn(DEFAULT_OUTPOINT, if sequences[i].Some? then sequences[i].value else DEFAULT_SEQUENCE)
  {
    if sequences == [] then []
    else
      [TxIn(DEFAULT_OUTPOINT, if sequences[0].Some? then sequences[0].value else DEFAULT_SEQUENCE)]
      + Inputs(sequences[1..])
  }

  function TxOuts(outputs: seq<Output>): (r: seq<TxOut>)
    ensures |r| == |outputs|
    ensures forall i :: 0 <= i < |r| ==> r[i] == TxOut(outputs[i].amount, outputs[i].contract.script)
  {
    if outputs == [] then []
    else [TxOut(outputs[0].amount, outputs[0].contract.script)] + TxOuts(outputs[1..])
  }

  function TxOf(b: BuilderView): Transaction {
    Transaction(b.version, if b.lockTime.Some? then b.lockTime.value else 0, Inputs(b.sequences), TxOuts(b.outputs))
  }

  function TotalValue(output: seq<TxOut>): Amount {
    if output == [] then 0 else output[0].value + TotalValue(output[1..])
  }

  function TemplateOf(b: BuilderView, sha: Sha256): Template {
    Template(b.guards, TemplateHash(TxOf(b), 0, sha), TotalValue(TxOf(b).output) + b.fees, b.minFeerate, TxOf(b),
        b.outputs)
  }

  /** A builder; `addingFees` is the type state after which outputs are closed. */
  class Builder {
    var ctx: Context
    var guards: seq<Clause>
    var sequences: seq<Option<nat>>
    var outputs: seq<Output>
    var version: int
    var lockTime: Option<nat>
    var fees: Amount
    var minFeerate: Option<Amount>
    var addingFees: bool

    constructor (ctx: Context)
      ensures View() == NewBuilder(ctx.View()) && this.ctx == ctx && !addingFees
    {
      this.ctx := ctx;
      guards, sequences, outputs, version := [], [None], [], 2;
      lockTime, fees, minFeerate, addingFees := None, 0, None, false;
    }

    ghost function View(): BuilderView
      reads this, ctx
    {
      BuilderView(ctx.View(), guards, sequences, outputs, version, lockTime, fees, minFeerate)
    }

    method AddOutput(amount: Amount, compile: Compilable) returns (r: Result<(), CompilationError>)
      requires !addingFees
      modifies this`outputs, ctx
      ensures match OutputAdded(old(View()), amount, compile)
              case Err(e) => r == Err(e)
              case Ok(b) => r == Ok(()) && View() == b
    {
      var child := ctx.Derive(Branch(|outputs|));
      if child.Err? {
        return Err(child.error);
      }
      var sub := child.value.WithFunds(amount);
      if sub.Err? {
        return Err(sub.error);
      }
      var spent := ctx.Spend(amount);
      if spent.Err? {
        return Err(spent.error);
      }
      var contract := compile(ContextView(sub.value.availableFunds, sub.value.path, sub.value.alreadyDerived));
      if contract.Err? {
        return Err(contract.error);
      }
      outputs := outputs + [Output(amount, contract.value)];
      r := Ok(());
    }

    method AddAmount(amount: Amount) returns (r: Result<(), CompilationError>)
      requires !addingFees
      modifies ctx`availableFunds
      ensures match FundsAdded(old(View()), amount)
              case Err(e) => r == Err(e)
              case Ok(b) => r == Ok(()) && View() == b
    {
      r := ctx.Add(amount);
    }

    method SpendAmount(amount: Amount) returns (r: Result<(), CompilationError>)
      modifies ctx`availableFunds
      ensures match FundsSpent(old(View()), amount)
              case Err(e) => r == Err(e)
              case Ok(b) => r == Ok(()) && View() == b
    {
      r := ctx.Spend(amount);
    }

    method AddFees(amount: Amount) returns (r: Result<(), CompilationError>)
      modifies this`fees, this`addingFees, ctx`availableFunds
      ensures addingFees
      ensures match FeesAdded(old(View()), amount)
              case Err(e) => r == Err(e)
              case Ok(b) => r == Ok(()) && View() == b
    {
      addingFees := true;
      r := ctx.Spend(amount);
      if r.Err? {
        return;
      }
      if fees + amount > MAX_AMOUNT {
        return Err(Panic("Amount addition error"));
      }
      fees := fees + amount;
    }

    method AddSequence()
      requires !addingFees
      modifies this`sequences
      ensures View() == old(View()).(sequences := old(sequences) + [None])
    {
      sequences := sequences + [None];
    }

    method AddGuard(guard: Clause)
      requires !addingFees
      modifies this`guards
      ensures View() == old(View()).(guards := old(guards) + [guard])
    {
      guards := guards + [guard];
    }

    /** Keeps the least of the feerates that were asked for. */
    method SetMinFeerate(a: Amount)
      modifies this`minFeerate
      ensures View() == old(View()).(minFeerate := minFeerate)
      ensures minFeerate.Some? && minFeerate.value <= a
      ensures old(minFeerate).Some? ==> minFeerate.value <= old(minFeerate).value
      ensures minFeerate == Some(a) || minFeerate == old(minFeerate)
    {
      if minFeerate.None? || a < minFeerate.value {
        minFeerate := Some(a);
      }
    }

    /** One input per sequence, at the default outpoint, and one output per contract. */
    method GetTx() returns (tx: Transaction)
      ensures tx == TxOf(View())
      ensures tx.version == version && tx.lockTime == (if lockTime.Some? then lockTime.value else 0)
      ensures |tx.input| == |sequences| && |tx.output| == |outputs|
      ensures forall i :: 0 <= i < |sequences| ==>
                && tx.input[i].previousOutput == DEFAULT_OUTPOINT
                && tx.input[i].sequence == if sequences[i].Some? then sequences[i].value else DEFAULT_SEQUENCE
      ensures forall i :: 0 <= i < |outputs| ==>
                tx.output[i].value == outputs[i].amount && tx.output[i].script == outputs[i].contract.script
    {
      tx := Transaction(version, if lockTime.Some? then lockTime.value else 0, Inputs(sequences), TxOuts(outputs));
    }

    method ToTemplate(sha: Sha256) returns (t: Template)
      ensures t == TemplateOf(View(), sha)
    {
      var tx := GetTx();
      var h := GetCtvHash(tx, 0, sha);
      t := Template(guards, h, TotalValue(tx.output) + fees, minFeerate, tx, outputs);
    }
  }

  // ------------------------------------------------------ accounts of a builder

  datatype BuilderOp =
    | OutputOp(amount: Amount, compile: Compilable)
    | AmountOp(amount: Amount)
    | SpendOp(amount: Amount)
    | FeesOp(amount: Amount)
    | SequenceOp
    | GuardOp(guard: Clause)
    | MinFeerateOp(amount: Amount)

  function Apply(b: BuilderView, op: BuilderOp): Result<BuilderView, CompilationError> {
    match op
    case OutputOp(a, compile) => OutputAdded(b, a, compile)
    case AmountOp(a) => FundsAdded(b, a)
    case SpendOp(a) => FundsSpent(b, a)
    case FeesOp(a) => FeesAdded(b, a)
    case SequenceOp => Ok(b.(sequences := b.sequences + [None]))
    case GuardOp(g) => Ok(b.(guards := b.guards + [g]))
    case MinFeerateOp(a) =>
      Ok(b.(minFeerate := Some(if b.minFeerate.None? || a < b.minFeerate.value then a else b.minFeerate.value)))
  }

  function ApplyAll(b: BuilderView, ops: seq<BuilderOp>): Result<BuilderView, CompilationError>
    decreases |ops|
  {
    if ops == [] then Ok(b)
    else
      var next :- Apply(b, ops[0]);
      ApplyAll(next, ops[1..])
  }

  /** What a list of operations adds to the funds, and what it plainly spends. */
  function Added(ops: seq<BuilderOp>): Amount {
    if ops == [] then 0 else (if ops[0].AmountOp? then ops[0].amount else 0) + Added(ops[1..])
  }

  function Spent(ops: seq<BuilderOp>): Amount {
    if ops == [] then 0 else (if ops[0].SpendOp? then ops[0].amount else 0) + Spent(ops[1..])
  }

  ghost function Balance(b: BuilderView): Amount {
    b.ctx.funds + TotalAmount(b.outputs) + b.fees
  }

  lemma PushOutputTotal(b: BuilderView, amount: Amount, contract: Object)
    ensures TotalAmount(PushOutput(b, amount, contract).outputs) == TotalAmount(b.outputs) + amount
  {
    TotalAmountConcat(b.outputs, [Output(amount, contract)]);
    assert TotalAmount([Output(amount, contract)]) == amount;
  }

  /** Funds are conserved by every step and so by every run of a builder. */
  lemma {:induction false} BuilderConserves(b: BuilderView, ops: seq<BuilderOp>)
    requires ApplyAll(b, ops).Ok?
    ensures Balance(ApplyAll(b, ops).value) + Spent(ops) == Balance(b) + Added(ops)
    decreases |ops|
  {
    if ops != [] {
      var next := Apply(b, ops[0]).value;
      if ops[0].OutputOp? {
        var reserved := ReserveOutput(b, ops[0].amount).value;
        PushOutputTotal(reserved.0, ops[0].amount, ops[0].compile(reserved.1).value);
      }
      BuilderConserves(next, ops[1..]);
    }
  }

  lemma {:induction false} TotalValueOfOutputs(outputs: seq<Output>)
    ensures TotalValue(TxOuts(outputs)) == TotalAmount(outputs)
  {
    if outputs != [] {
      assert TxOuts(outputs)[1..] == TxOuts(outputs[1..]);
      TotalValueOfOutputs(outputs[1..]);
    }
  }

  /**
   * The amount a finished template asks for is what its outputs and fees come
   * to, and it never exceeds what the builder was given.
   */
  lemma TemplateWithinFunds(ctx: ContextView, ops: seq<BuilderOp>, sha: Sha256)
    requires ApplyAll(NewBuilder(ctx), ops).Ok?
    ensures var b := ApplyAll(NewBuilder(ctx), ops).value;
            && TemplateOf(b, sha).max == TotalAmount(b.outputs) + b.fees
            && TemplateOf(b, sha).max + b.ctx.funds + Spent(ops) == ctx.funds + Added(ops)
            && TotalAmount(TemplateOf(b, sha).outputs) <= TemplateOf(b, sha).max
  {
    BuilderConserves(NewBuilder(ctx), ops);
    TotalValueOfOutputs(ApplyAll(NewBuilder(ctx), ops).value.outputs);
  }

  /** Every compiled output was given a sub-context with exactly its amount. */
  lemma ReservedExactly(b: BuilderView, amount: Amount)
    ensures ReserveOutput(b, amount).Ok? <==> amount <= b.ctx.funds && Branch(|b.outputs|) !in b.ctx.derived
    ensures ReserveOutput(b, amount).Ok? ==>
              var (rest, sub) := ReserveOutput(b, amount).value;
              sub.funds == amount && rest.ctx.funds + amount == b.ctx.funds
                  && sub.path == Child(b.ctx.path, Branch(|b.outputs|))
  {
  }

  // -------------------------------------------------------- hashes as map keys

  lemma {:induction false} SameInputs(a: seq<Option<nat>>, b: seq<Option<nat>>)
    requires SequenceNumbers(Inputs(a)) == SequenceNumbers(Inputs(b))
    ensures Inputs(a) == Inputs(b)
  {
    if a != [] && b != [] {
      assert Inputs(a)[1..] == Inputs(a[1..]) && Inputs(b)[1..] == Inputs(b[1..]);
      assert SequenceNumbers(Inputs(a))[0] == SequenceNumbers(Inputs(b))[0];
      assert SequenceNumbers(Inputs(a))[1..] == SequenceNumbers(Inputs(a[1..]))
          && SequenceNumbers(Inputs(b))[1..] == SequenceNumbers(Inputs(b[1..]));
      SameInputs(a[1..], b[1..]);
    }
  }

  /**
   * Keeping the first template of each hash never merges two different
   * transactions: templates that builders made with equal hashes carry the
   * same transaction.
   */
  lemma EqualHashesEqualTransactions(a: BuilderView, b: BuilderView, sha: Sha256)
    requires InRange(TxOf(a)) && InRange(TxOf(b)) && NoCollisions(sha, TxOf(a), 0, TxOf(b), 0)
    ensures TemplateOf(a, sha).ctv == TemplateOf(b, sha).ctv <==> TemplateOf(a, sha).tx == TemplateOf(b, sha).tx
  {
    TemplateHashInjective(TxOf(a), 0, TxOf(b), 0, sha);
    if TemplateOf(a, sha).ctv == TemplateOf(b, sha).ctv {
      SameInputs(a.sequences, b.sequences);
    }
  }
}
