/**
 * Money in what the compiler itself returns: contracts whose functions build
 * their templates with builders, nested in each other to any depth, and what
 * any unfolding of the compiled object lets out at its ends and as fees.
 */
module CompiledFunds {
  import opened Wrappers
  import opened Policies
  import opened EffectPaths
  import opened Contexts
  import opened Templates
  import opened CtvHash
  import opened Builders
  import opened Compiler
  import Flow = FundsFlow

  /** What was explicitly added to a builder while it made a template. */
  type Additions = Template -> Amount

  // ------------------------------------------------------------ funded objects

  /** No template below an object asks for more than it can get there. */
  ghost predicate Funded(o: Object, amount: Amount, added: Additions)
    decreases o, 0
  {
    forall i :: 0 <= i < |o.ctvToTx| ==> FundedTemplate(o.ctvToTx[i], amount, added)
  }

  ghost predicate FundedTemplate(t: Template, amount: Amount, added: Additions)
    decreases t, 2
  {
    TotalAmount(t.outputs) <= t.max <= amount + added(t) && AllFunded(t.outputs, added)
  }

  ghost predicate AllFunded(outputs: seq<Output>, added: Additions)
    decreases outputs, 1
  {
    forall i :: 0 <= i < |outputs| ==> FundedOutput(outputs[i], added)
  }

  ghost predicate FundedOutput(output: Output, added: Additions)
    decreases output, 1
  {
    Funded(output.contract, output.amount, added)
  }

  /** What is added to the templates along an unfolding. */
  ghost function Injected(o: Object, c: Flow.Choice, added: Additions): Amount
    decreases c, 0
  {
    match c
    case Stop => 0
    case Pick(i, below) =>
      if i >= |o.ctvToTx| then 0 else added(o.ctvToTx[i]) + InjectedAll(o.ctvToTx[i].outputs, below, added)
  }

  ghost function InjectedAll(outputs: seq<Output>, choices: seq<Flow.Choice>, added: Additions): Amount
    decreases choices, 1
  {
    if outputs == [] || choices == [] then 0
    else Injected(outputs[0].contract, choices[0], added) + InjectedAll(outputs[1..], choices[1..], added)
  }

  /** Along any unfolding, no more leaves a funded object than went into it. */
  lemma {:induction false} FundedConserves(o: Object, amount: Amount, c: Flow.Choice, added: Additions)
    requires Funded(o, amount, added)
    ensures Flow.Outflow(o, amount, c) <= amount + Injected(o, c, added)
    decreases c, 0
  {
    if c.Pick? && c.index < |o.ctvToTx| {
      var t := o.ctvToTx[c.index];
      assert FundedTemplate(t, amount, added);
      AllFundedConserve(t.outputs, c.below, added);
    }
  }

  lemma {:induction false} AllFundedConserve(outputs: seq<Output>, choices: seq<Flow.Choice>, added: Additions)
    requires AllFunded(outputs, added)
    ensures Flow.OutflowAll(outputs, choices) <= TotalAmount(outputs) + InjectedAll(outputs, choices, added)
    decreases choices, 1
  {
    if outputs != [] && choices != [] {
      assert FundedOutput(outputs[0], added);
      FundedConserves(outputs[0].contract, outputs[0].amount, choices[0], added);
      AllFundedConserve(outputs[1..], choices[1..], added);
    }
  }

  // -------------------------------------------------------- builders make them

  /** Whatever it compiles to is funded by the context that it is given. */
  ghost predicate Sound(compile: Compilable, added: Additions) {
    forall at :: compile(at).Ok? ==> Funded(compile(at).value, at.funds, added)
  }

  ghost predicate AllSound(payees: iset<Compilable>, added: Additions) {
    forall compile :: compile in payees ==> Sound(compile, added)
  }

  /** A builder that starts with no more than `funds` and pays only some payees makes a template. */
  ghost predicate MadeBy(t: Template, ctx: ContextView, ops: seq<BuilderOp>, funds: Amount, payees: iset<Compilable>,
      added: Additions, sha: Sha256)
  {
    && ctx.funds <= funds
    && (forall k :: 0 <= k < |ops| && ops[k].OutputOp? ==> ops[k].compile in payees)
    && ApplyAll(NewBuilder(ctx), ops).Ok?
    && t == TemplateOf(ApplyAll(NewBuilder(ctx), ops).value, sha)
    && Added(ops) <= added(t)
  }

  ghost predicate Made(t: Template, funds: Amount, payees: iset<Compilable>, added: Additions, sha: Sha256) {
    exists ctx, ops :: MadeBy(t, ctx, ops, funds, payees, added, sha)
  }

  lemma {:induction false} OutputsFunded(b: BuilderView, ops: seq<BuilderOp>, payees: iset<Compilable>,
      added: Additions)
    requires ApplyAll(b, ops).Ok? && AllFunded(b.outputs, added) && AllSound(payees, added)
    requires forall k :: 0 <= k < |ops| && ops[k].OutputOp? ==> ops[k].compile in payees
    ensures AllFunded(ApplyAll(b, ops).value.outputs, added)
    decreases |ops|
  {
    if ops != [] {
      StepFunded(b, ops[0], payees, added);
      OutputsFunded(Apply(b, ops[0]).value, ops[1..], payees, added);
    }
  }

  lemma StepFunded(b: BuilderView, op: BuilderOp, payees: iset<Compilable>, added: Additions)
    requires Apply(b, op).Ok? && AllFunded(b.outputs, added) && AllSound(payees, added)
    requires op.OutputOp? ==> op.compile in payees
    ensures AllFunded(Apply(b, op).value.outputs, added)
  {
    if op.OutputOp? {
      var sub := ReserveOutput(b, op.amount).value.1;
      assert Sound(op.compile, added) && sub.funds == op.amount;
    }
  }

  lemma MadeWithin(t: Template, funds: Amount, payees: iset<Compilable>, added: Additions, sha: Sha256)
    requires Made(t, funds, payees, added, sha)
    ensures TotalAmount(t.outputs) <= t.max <= funds + added(t)
  {
    var ctx, ops :| MadeBy(t, ctx, ops, funds, payees, added, sha);
    TemplateWithinFunds(ctx, ops, sha);
  }

  lemma MadeIsFunded(t: Template, funds: Amount, payees: iset<Compilable>, added: Additions, sha: Sha256)
    requires Made(t, funds, payees, added, sha) && AllSound(payees, added)
    ensures FundedTemplate(t, funds, added)
  {
    var ctx, ops :| MadeBy(t, ctx, ops, funds, payees, added, sha);
    MadeWithin(t, funds, payees, added, sha);
    OutputsFunded(NewBuilder(ctx), ops, payees, added);
  }

  // ------------------------------------------------- and the compiler keeps them

  ghost predicate AllMade(items: Items, funds: Amount, payees: iset<Compilable>, added: Additions, sha: Sha256) {
    forall k :: 0 <= k < |items| && items[k].Ok? ==> Made(items[k].value, funds, payees, added, sha)
  }

  /** A function whose templates are made with the funds that it is called with. */
  ghost predicate Builds(f: Callable, payees: iset<Compilable>, added: Additions, sha: Sha256) {
    && (forall at :: f.call(at).Ok? ==> AllMade(f.call(at).value, at.funds, payees, added, sha))
    && (forall at, arg :: f.callJson(at, arg).Ok? ==>
          AllMade(f.callJson(at, arg).value, at.funds, payees, added, sha))
  }

  ghost predicate AllBuild(job: Job, payees: iset<Compilable>, added: Additions, sha: Sha256) {
    forall i :: 0 <= i < |job.functions| ==> Builds(job.functions[i], payees, added, sha)
  }

  lemma {:induction false} EffectsMade(f: Callable, top: ContextView, acc: Items, args: seq<(string, Json)>,
      payees: iset<Compilable>, added: Additions, sha: Sha256)
    requires Builds(f, payees, added, sha) && AllMade(acc, top.funds, payees, added, sha)
    ensures FoldEffects(f, top, acc, args).Ok? ==>
              AllMade(FoldEffects(f, top, acc, args).value, top.funds, payees, added, sha)
    decreases |args|
  {
    if args != [] {
      var at := ContextView(top.funds, Child(Child(top.path, Effects),
          Named(args[0].0)), {});
      var more := f.callJson(at, args[0].1);
      if more.Ok? {
        assert AllMade(more.value, at.funds, payees, added, sha);
        EffectsMade(f, top, acc + more.value, args[1..], payees, added, sha);
      }
    }
  }

  ghost predicate TemplatesMade(ts: seq<Template>, funds: Amount, payees: iset<Compilable>, added: Additions,
      sha: Sha256)
  {
    forall t :: t in ts ==> Made(t, funds, payees, added, sha)
  }

  lemma ProposedMade(job: Job, i: nat, payees: iset<Compilable>, added: Additions, sha: Sha256)
    requires i < |job.functions| && AllBuild(job, payees, added, sha)
    ensures TemplatesMade(job.Proposed(i), job.funds, payees, added, sha)
  {
    var f, top := job.functions[i], job.EffectRoot(i);
    var at := ContextView(top.funds, Child(top.path, DefaultEffect), {});
    var def := f.call(at);
    assert Builds(f, payees, added, sha);
    if def.Ok? {
      assert AllMade(def.value, at.funds, payees, added, sha);
      EffectsMade(f, top, def.value, EffectsAt(job.effects, top.path), payees, added, sha);
    }
  }

  lemma MoreMade(a: seq<Template>, b: seq<Template>, funds: Amount, payees: iset<Compilable>, added: Additions,
      sha: Sha256)
    requires TemplatesMade(a, funds, payees, added, sha) && TemplatesMade(b, funds, payees, added, sha)
    ensures TemplatesMade(a + b, funds, payees, added, sha)
  {
  }

  ghost predicate BeforeMade(job: Job, n: nat, committed: bool, payees: iset<Compilable>, added: Additions,
      sha: Sha256)
    requires n <= |job.functions|
  {
    TemplatesMade(job.ProposedBefore(n, committed), job.funds, payees, added, sha)
  }

  lemma NextMade(job: Job, n: nat, committed: bool, payees: iset<Compilable>, added: Additions, sha: Sha256)
    requires n < |job.functions| && BeforeMade(job, n, committed, payees, added, sha)
    requires TemplatesMade(job.Proposed(n), job.funds, payees, added, sha)
    ensures BeforeMade(job, n + 1, committed, payees, added, sha)
  {
    MoreMade(job.ProposedBefore(n, committed), job.Proposed(n), job.funds, payees, added, sha);
  }

  lemma ProposedBeforeMade(job: Job, committed: bool, payees: iset<Compilable>, added: Additions, sha: Sha256)
    requires AllBuild(job, payees, added, sha)
    ensures BeforeMade(job, |job.functions|, committed, payees, added, sha)
  {
    for n := 0 to |job.functions|
      invariant BeforeMade(job, n, committed, payees, added, sha)
    {
      ProposedMade(job, n, payees, added, sha);
      NextMade(job, n, committed, payees, added, sha);
    }
  }

  lemma KeptIsProposed(kept: map<Hash, Template>, ts: seq<Template>, h: Hash)
    requires KeepsFirst(kept, ts) && h in kept
    ensures kept[h] in ts
  {
    FirstOfMember(ts, h);
  }

  /**
   * Every template that a compilation commits to, or suggests, asks for no
   * more than the funds at the place and what was added while it was made.
   */
  lemma CompiledWithinFunds<M(!new)>(out: Compiled<M>, job: Job, ensured: Amount, compilePolicy: Clause -> Option<M>,
      payees: iset<Compilable>, added: Additions, sha: Sha256, h: Hash)
    requires Correct(out, job, ensured, compilePolicy) && AllBuild(job, payees, added, sha)
    ensures h in out.ctvToTx ==> out.ctvToTx[h].max <= job.funds + added(out.ctvToTx[h])
    ensures h in out.suggestedTxs ==> out.suggestedTxs[h].max <= job.funds + added(out.suggestedTxs[h])
  {
    var n := |job.functions|;
    if h in out.ctvToTx {
      KeptIsProposed(out.ctvToTx, job.ProposedBefore(n, true), h);
      ProposedBeforeMade(job, true, payees, added, sha);
      MadeWithin(out.ctvToTx[h], job.funds, payees, added, sha);
    }
    if h in out.suggestedTxs {
      KeptIsProposed(out.suggestedTxs, job.ProposedBefore(n, false), h);
      ProposedBeforeMade(job, false, payees, added, sha);
      MadeWithin(out.suggestedTxs[h], job.funds, payees, added, sha);
    }
  }

  // ------------------------------------------------------------ nested contracts

  /** The object lists what a compilation committed to. */
  ghost predicate Lists<M(!new)>(o: Object, out: Compiled<M>) {
    forall t :: t in o.ctvToTx <==> exists h :: h in out.ctvToTx && out.ctvToTx[h] == t
  }

  /** The object commits only to what the functions of some contract propose at these funds. */
  ghost predicate CommitsTo(o: Object, job: Job, funds: Amount) {
    job.funds == funds && forall i :: 0 <= i < |o.ctvToTx| ==>
      o.ctvToTx[i] in job.ProposedBefore(|job.functions|, true)
  }

  lemma CompiledCommits<M(!new)>(o: Object, out: Compiled<M>, job: Job, ensured: Amount,
      compilePolicy: Clause -> Option<M>)
    requires Correct(out, job, ensured, compilePolicy) && Lists(o, out)
    ensures CommitsTo(o, job, job.funds)
  {
    forall i | 0 <= i < |o.ctvToTx| ensures o.ctvToTx[i] in job.ProposedBefore(|job.functions|, true) {
      assert o.ctvToTx[i] in o.ctvToTx;
      var h :| h in out.ctvToTx && out.ctvToTx[h] == o.ctvToTx[i];
      KeptIsProposed(out.ctvToTx, job.ProposedBefore(|job.functions|, true), h);
    }
  }

  lemma ContractFunded(o: Object, job: Job, payees: iset<Compilable>, added: Additions, sha: Sha256)
    requires CommitsTo(o, job, job.funds) && AllBuild(job, payees, added, sha) && AllSound(payees, added)
    ensures Funded(o, job.funds, added)
  {
    ProposedBeforeMade(job, true, payees, added, sha);
    forall i | 0 <= i < |o.ctvToTx| ensures FundedTemplate(o.ctvToTx[i], job.funds, added) {
      MadeIsFunded(o.ctvToTx[i], job.funds, payees, added, sha);
    }
  }

  /** What commits to nothing, or is a contract whose builders pay payees of a lower level. */
  ghost predicate AtLevel(o: Object, funds: Amount, n: nat, added: Additions, sha: Sha256)
    decreases n, 0
  {
    o.ctvToTx == [] ||
    (n > 0 && exists job :: CommitsTo(o, job, funds) && AllBuild(job, Level(n - 1, added, sha), added, sha))
  }

  ghost predicate AlwaysAtLevel(compile: Compilable, n: nat, added: Additions, sha: Sha256)
    decreases n, 1
  {
    forall at :: compile(at).Ok? ==> AtLevel(compile(at).value, at.funds, n, added, sha)
  }

  /** All that compiles, at every place, to an address or a contract nested `n` deep at most. */
  ghost function Level(n: nat, added: Additions, sha: Sha256): iset<Compilable>
    decreases n, 2
  {
    iset compile | AlwaysAtLevel(compile, n, added, sha)
  }

  lemma {:induction false} AtLevelFunded(o: Object, funds: Amount, n: nat, added: Additions, sha: Sha256)
    requires AtLevel(o, funds, n, added, sha)
    ensures Funded(o, funds, added)
    decreases n, 0
  {
    if o.ctvToTx != [] {
      var job :| CommitsTo(o, job, funds) && AllBuild(job, Level(n - 1, added, sha), added, sha);
      LevelSound(n - 1, added, sha);
      ContractFunded(o, job, Level(n - 1, added, sha), added, sha);
    }
  }

  lemma {:induction false} LevelSound(n: nat, added: Additions, sha: Sha256)
    ensures AllSound(Level(n, added, sha), added)
    decreases n, 1
  {
    forall compile, at | compile in Level(n, added, sha) && compile(at).Ok?
      ensures Funded(compile(at).value, at.funds, added)
    {
      assert AlwaysAtLevel(compile, n, added, sha);
      AtLevelFunded(compile(at).value, at.funds, n, added, sha);
    }
  }

  /**
   * No money is created by compiled contracts, however deep they are nested:
   * along any unfolding of what a contract compiles to, the amounts at which
   * it stops and the fees on the way come to no more than the funds at the
   * root and what was added on the way.
   */
  lemma CompiledContractsConserve<M(!new)>(o: Object, out: Compiled<M>, job: Job, ensured: Amount,
      compilePolicy: Clause -> Option<M>, n: nat, added: Additions, sha: Sha256, c: Flow.Choice)
    requires Correct(out, job, ensured, compilePolicy) && Lists(o, out)
    requires AllBuild(job, Level(n, added, sha), added, sha)
    ensures Flow.Outflow(o, job.funds, c) <= job.funds + Injected(o, c, added)
  {
    CompiledCommits(o, out, job, ensured, compilePolicy);
    LevelSound(n, added, sha);
    ContractFunded(o, job, Level(n, added, sha), added, sha);
    FundedConserves(o, job.funds, c, added);
  }
}
