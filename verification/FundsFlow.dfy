/** Money over whole compilations: trees of contracts and their unfoldings. */
module FundsFlow {
  import opened Wrappers
  import opened Bytes
  import opened EffectPaths
  import opened Contexts
  import opened Templates
  import opened CtvHash
  import opened Builders

  /** A contract as the list of templates that its then-functions build. */
  datatype Plan =
    | Address(script: seq<Byte>)
    | Contract(script: seq<Byte>, branches: seq<PlannedBranch>)

  datatype PlannedBranch = PlannedBranch(name: string, steps: seq<Step>)

  datatype Step =
    | Pay(amount: Amount, to: Plan)
    | Add(amount: Amount)
    | Spend(amount: Amount)
    | Fee(amount: Amount)

  function BranchContext(ctx: ContextView, name: string): ContextView {
    ContextView(ctx.funds, Child(Child(Child(Child(ctx.path, Action), Named(name)), Next), DefaultEffect), {})
  }

  /** Compiles a contract and, through its outputs, everything below it. */
  function CompilePlan(p: Plan, ctx: ContextView, sha: Sha256): Result<Object, CompilationError>
    decreases p, 0
  {
    match p
    case Address(script) => Ok(FromAddress(script))
    case Contract(script, branches) =>
      var templates :- CompileBranches(branches, ctx, sha);
      Ok(Object(ctx.path, script, templates, []))
  }

  function CompileBranches(branches: seq<PlannedBranch>, ctx: ContextView,
      sha: Sha256): Result<seq<Template>, CompilationError>
    decreases branches, 2
  {
    if branches == [] then Ok([])
    else
      var first :- CompileBranch(branches[0], ctx, sha);
      var rest :- CompileBranches(branches[1..], ctx, sha);
      Ok([first] + rest)
  }

  function CompileBranch(branch: PlannedBranch, ctx: ContextView, sha: Sha256): Result<Template, CompilationError>
    decreases branch, 2
  {
    var b :- RunSteps(branch.steps, NewBuilder(BranchContext(ctx, branch.name)), sha);
    Ok(TemplateOf(b, sha))
  }

  function RunSteps(steps: seq<Step>, b: BuilderView, sha: Sha256): Result<BuilderView, CompilationError>
    decreases steps, 1
  {
    if steps == [] then Ok(b)
    else
      var next :- RunStep(steps[0], b, sha);
      RunSteps(steps[1..], next, sha)
  }

  function RunStep(step: Step, b: BuilderView, sha: Sha256): Result<BuilderView, CompilationError>
    decreases step, 1
  {
    match step
    case Pay(amount, to) =>
      var reserved :- ReserveOutput(b, amount);
      var contract :- CompilePlan(to, reserved.1, sha);
      Ok(PushOutput(reserved.0, amount, contract))
    case Add(amount) => FundsAdded(b, amount)
    case Spend(amount) => FundsSpent(b, amount)
    case Fee(amount) => FeesAdded(b, amount)
  }

  // --------------------------------------------------------------- unfoldings

  /** How far an object is unfolded: not at all, or by one of its templates. */
  datatype Choice = Stop | Pick(index: nat, below: seq<Choice>)

  /** What leaves the tree along an unfolding: amounts where it stops, and fees. */
  ghost function Outflow(o: Object, amount: Amount, c: Choice): int
    decreases c, 0
  {
    match c
    case Stop => amount
    case Pick(i, below) =>
      if i >= |o.ctvToTx| then amount
      else
        var t := o.ctvToTx[i];
        (t.max - TotalAmount(t.outputs)) + OutflowAll(t.outputs, below)
  }

  ghost function OutflowAll(outputs: seq<Output>, choices: seq<Choice>): int
    decreases choices, 1
  {
    if outputs == [] then 0
    else if choices == [] then TotalAmount(outputs)
    else Outflow(outputs[0].contract, outputs[0].amount, choices[0]) + OutflowAll(outputs[1..], choices[1..])
  }

  /** What `add_amount` brings in along the same unfolding. */
  ghost function Inflow(p: Plan, c: Choice): Amount
    decreases c, 0
  {
    match c
    case Stop => 0
    case Pick(i, below) =>
      if p.Address? || i >= |p.branches| then 0
      else InflowAll(p.branches[i].steps, below)
  }

  ghost function InflowAll(steps: seq<Step>, choices: seq<Choice>): Amount
    decreases choices, 1, |steps|
  {
    if steps == [] then 0
    else
      match steps[0]
      case Pay(_, to) =>
        if choices == [] then InflowAll(steps[1..], choices)
        else Inflow(to, choices[0]) + InflowAll(steps[1..], choices[1..])
      case Add(a) => a + InflowAll(steps[1..], choices)
      case _ => InflowAll(steps[1..], choices)
  }

  lemma {:induction false} CompiledBranchAt(branches: seq<PlannedBranch>, ctx: ContextView, sha: Sha256, i: nat)
    requires CompileBranches(branches, ctx, sha).Ok? && i < |branches|
    ensures |CompileBranches(branches, ctx, sha).value| == |branches|
    ensures CompileBranch(branches[i], ctx, sha) == Ok(CompileBranches(branches, ctx, sha).value[i])
  {
    if |branches| > 1 {
      CompiledBranchAt(branches[1..], ctx, sha, if i > 0 then i - 1 else 0);
    }
  }

  lemma {:induction false} CompiledCount(branches: seq<PlannedBranch>, ctx: ContextView, sha: Sha256)
    requires CompileBranches(branches, ctx, sha).Ok?
    ensures |CompileBranches(branches, ctx, sha).value| == |branches|
  {
    if branches != [] {
      CompiledCount(branches[1..], ctx, sha);
    }
  }

  /**
   * No money is created: along any unfolding, full or partial, the amounts at
   * which it stops and the fees on the way come to no more than the root's
   * funds and what was explicitly added.
   */
  lemma {:induction false} NoMoneyCreated(p: Plan, ctx: ContextView, sha: Sha256, c: Choice)
    requires CompilePlan(p, ctx, sha).Ok?
    ensures Outflow(CompilePlan(p, ctx, sha).value, ctx.funds, c) <= ctx.funds + Inflow(p, c)
    decreases c, 0
  {
    var o := CompilePlan(p, ctx, sha).value;
    if c.Pick? && p.Contract? && c.index < |o.ctvToTx| {
      CompiledCount(p.branches, ctx, sha);
      CompiledBranchAt(p.branches, ctx, sha, c.index);
      var branch := p.branches[c.index];
      var start := NewBuilder(BranchContext(ctx, branch.name));
      var b := RunSteps(branch.steps, start, sha).value;
      TotalValueOfOutputs(b.outputs);
      StepsConserve(branch.steps, start, sha, c.below);
      assert b.outputs[|start.outputs|..] == b.outputs;
    }
  }

  /** The same for the steps of one builder, whose outputs are unfolded below. */
  lemma {:induction false} StepsConserve(steps: seq<Step>, b: BuilderView, sha: Sha256, choices: seq<Choice>)
    requires RunSteps(steps, b, sha).Ok?
    ensures var e := RunSteps(steps, b, sha).value;
            && |b.outputs| <= |e.outputs|
            && e.outputs[..|b.outputs|] == b.outputs
            && OutflowAll(e.outputs[|b.outputs|..], choices) + e.fees + e.ctx.funds
               <= b.fees + b.ctx.funds + InflowAll(steps, choices)
    decreases choices, 1, |steps|
  {
    if steps != [] {
      var next := RunStep(steps[0], b, sha).value;
      var e := RunSteps(steps, b, sha).value;
      match steps[0]
      case Pay(amount, to) =>
        var reserved := ReserveOutput(b, amount).value;
        var paid := CompilePlan(to, reserved.1, sha).value;
        var rest := if choices == [] then choices else choices[1..];
        StepsConserveAfterPay(steps, b, sha, choices);
        assert next.outputs == b.outputs + [Output(amount, paid)];
        var tail := e.outputs[|b.outputs|..];
        assert tail[0] == e.outputs[..|next.outputs|][|b.outputs|] == Output(amount, paid);
        assert tail[1..] == e.outputs[|next.outputs|..];
        assert e.outputs[..|b.outputs|] == e.outputs[..|next.outputs|][..|b.outputs|] == b.outputs;
        if choices != [] {
          NoMoneyCreated(to, reserved.1, sha, choices[0]);
        } else {
          StopsEverywhere(tail);
          StopsEverywhere(tail[1..]);
        }
      case _ =>
        StepsConserve(steps[1..], next, sha, choices);
    }
  }

  lemma {:induction false} StopsEverywhere(outputs: seq<Output>)
    ensures OutflowAll(outputs, []) == TotalAmount(outputs)
  {
  }

  lemma {:induction false} StepsConserveAfterPay(steps: seq<Step>, b: BuilderView, sha: Sha256, choices: seq<Choice>)
    requires steps != [] && steps[0].Pay? && RunSteps(steps, b, sha).Ok?
    ensures var next := RunStep(steps[0], b, sha).value;
            var e := RunSteps(steps, b, sha).value;
            var rest := if choices == [] then choices else choices[1..];
            && |next.outputs| <= |e.outputs|
            && e.outputs[..|next.outputs|] == next.outputs
            && OutflowAll(e.outputs[|next.outputs|..], rest) + e.fees + e.ctx.funds
               <= next.fees + next.ctx.funds + InflowAll(steps[1..], rest)
    decreases choices, 1, |steps|, 0
  {
    var rest := if choices == [] then choices else choices[1..];
    StepsConserve(steps[1..], RunStep(steps[0], b, sha).value, sha, rest);
  }
}
