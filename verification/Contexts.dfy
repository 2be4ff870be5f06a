/**
 * Compilation contexts: the funds still available at a place in the
 * compilation and the effect path that names the place.
 */
module Contexts {
  import opened Arithmetic
  import opened Sequences
  import opened Wrappers
  import opened EffectPaths

  type Amount = nat

  const MAX_AMOUNT: nat := U64_MAX

  /** Errors of a compilation. `Panic` stands for an abort of the program. */
  datatype CompilationError =
    | ContextPathAlreadyDerived
    | OutOfFunds
    | MissingTemplates
    | MinFeerateError
    | ConditionalCompilationFailed(reasons: seq<string>)
    | AdditionalGuardsNotAllowedHere
    | IncompatibleSequence
    | NoSuchSequence
    | TerminateCompilation
    | EmulatorFailed
    | DescriptorFailed
    | PolicyNotCompilable
    | WebApiDisabled
    | Diverges
    | Panic(what: string)

  /** The value of a context at one moment. */
  datatype ContextView = ContextView(funds: Amount, path: ReversePath, derived: set<PathFragment>)

  function Derived(c: ContextView, f: PathFragment): Result<(ContextView, ContextView), CompilationError> {
    if f in c.derived then Err(ContextPathAlreadyDerived)
    else Ok((c.(derived := c.derived + {f}), ContextView(c.funds, Child(c.path, f), {})))
  }

  function WithAmount(c: ContextView, a: Amount): Result<ContextView, CompilationError> {
    if c.funds < a then Err(OutOfFunds) else Ok(c.(funds := a))
  }

  function SpendAmount(c: ContextView, a: Amount): Result<ContextView, CompilationError> {
    if c.funds < a then Err(OutOfFunds) else Ok(c.(funds := c.funds - a))
  }

  function AddAmount(c: ContextView, a: Amount): Result<ContextView, CompilationError> {
    if c.funds + a > MAX_AMOUNT then Err(Panic("Amount addition error")) else Ok(c.(funds := c.funds + a))
  }

  class Context {
    var availableFunds: Amount
    const path: ReversePath
    var alreadyDerived: set<PathFragment>

    constructor (funds: Amount, path: ReversePath, derived: set<PathFragment> := {})
      ensures View() == ContextView(funds, path, derived)
    {
      availableFunds, this.path, alreadyDerived := funds, path, derived;
    }

    ghost function View(): ContextView
      reads this
    {
      ContextView(availableFunds, path, alreadyDerived)
    }

    /** A fresh context one step below this one; each step can be taken once. */
    method Derive(fragment: PathFragment) returns (r: Result<Context, CompilationError>)
      modifies this`alreadyDerived
      ensures match Derived(old(View()), fragment)
              case Err(e) => r == Err(e) && View() == old(View())
              case Ok((parent, child)) => View() == parent && r.Ok? && fresh(r.value) && r.value.View() == child
    {
      if fragment in alreadyDerived {
        return Err(ContextPathAlreadyDerived);
      }
      alreadyDerived := alreadyDerived + {fragment};
      var child := new Context(availableFunds, Child(path, fragment));
      r := Ok(child);
    }

    /** A copy of this context that has `amount` to spend. */
    method WithFunds(amount: Amount) returns (r: Result<Context, CompilationError>)
      ensures match WithAmount(View(), amount)
              case Err(e) => r == Err(e)
              case Ok(c) => r.Ok? && fresh(r.value) && r.value.View() == c
    {
      if availableFunds < amount {
        return Err(OutOfFunds);
      }
      var c := new Context(amount, path, alreadyDerived);
      r := Ok(c);
    }

    method Spend(amount: Amount) returns (r: Result<(), CompilationError>)
      modifies this`availableFunds
      ensures match SpendAmount(old(View()), amount)
              case Err(e) => r == Err(e) && View() == old(View())
              case Ok(c) => r == Ok(()) && View() == c
    {
      if availableFunds < amount {
        return Err(OutOfFunds);
      }
      availableFunds := availableFunds - amount;
      r := Ok(());
    }

    method Add(amount: Amount) returns (r: Result<(), CompilationError>)
      modifies this`availableFunds
      ensures match AddAmount(old(View()), amount)
              case Err(e) => r == Err(e) && View() == old(View())
              case Ok(c) => r == Ok(()) && View() == c
    {
      if availableFunds + amount > MAX_AMOUNT {
        return Err(Panic("Amount addition error"));
      }
      availableFunds := availableFunds + amount;
      r := Ok(());
    }

    /** The compiler's own clone: it shares the path of the original. */
    method InternalClone() returns (c: Context)
      ensures fresh(c) && c.View() == View()
    {
      c := new Context(availableFunds, path, alreadyDerived);
    }
  }

  // ------------------------------------------------- paths over a whole run

  /**
   * An operation on the i-th live context of a compilation. A clone says which
   * of the two copies will go on deriving; the other one stays idle.
   */
  datatype Op =
    | DeriveOp(i: nat, fragment: PathFragment)
    | WithAmountOp(i: nat, amount: Amount)
    | SpendOp(i: nat, amount: Amount)
    | AddOp(i: nat, amount: Amount)
    | CloneOp(i: nat, cloneActs: bool)
    | DropOp(i: nat)

  datatype Live = Live(ctx: ContextView, idle: bool)

  /** The live contexts, and the path of every context made so far. */
  datatype Run = Run(live: seq<Live>, made: seq<ReversePath>)

  /** Replaces the context an operation consumed, or drops it on an error. */
  function Settle(r: Run, i: nat, outcome: Result<ContextView, CompilationError>): Run
    requires i < |r.live|
  {
    match outcome
    case Ok(c) => r.(live := r.live[i := r.live[i].(ctx := c)])
    case Err(_) => r.(live := Without(r.live, i))
  }

  /** The two copies after a clone; copies of an idle context are idle. */
  function Copies(l: Live, cloneActs: bool): (Live, Live) {
    (l.(idle := l.idle || cloneActs), l.(idle := l.idle || !cloneActs))
  }

  function Step(r: Run, op: Op): Run {
    if op.i >= |r.live| then r
    else
      var c := r.live[op.i].ctx;
      match op
      case DeriveOp(i, f) =>
        (match Derived(c, f)
         case Err(_) => r
         case Ok((parent, child)) =>
           Run(r.live[i := r.live[i].(ctx := parent)] + [Live(child, false)], r.made + [child.path]))
      case WithAmountOp(i, a) => Settle(r, i, WithAmount(c, a))
      case SpendOp(i, a) => Settle(r, i, SpendAmount(c, a))
      case AddOp(i, a) => Settle(r, i, AddAmount(c, a))
      case CloneOp(i, cloneActs) =>
        var (original, clone) := Copies(r.live[i], cloneActs);
        r.(live := r.live[i := original] + [clone])
      case DropOp(i) => r.(live := Without(r.live, i))
  }

  function RunOps(r: Run, ops: seq<Op>): Run
    decreases |ops|
  {
    if ops == [] then r else RunOps(Step(r, ops[0]), ops[1..])
  }

  /** Of two copies, only the one that was said to go on ever derives. */
  predicate Disciplined(r: Run, ops: seq<Op>)
    decreases |ops|
  {
    ops == [] ||
    ((ops[0].DeriveOp? && ops[0].i < |r.live| ==> !r.live[ops[0].i].idle) && Disciplined(Step(r, ops[0]), ops[1..]))
  }

  function Begin(root: ContextView): Run {
    Run([Live(root, false)], [root.path])
  }

  /** No two contexts that may still derive have the same path. */
  ghost predicate LivePathsDistinct(r: Run) {
    forall i, j :: 0 <= i < j < |r.live| && !r.live[i].idle && !r.live[j].idle ==>
      r.live[i].ctx.path != r.live[j].ctx.path
  }

  /** A context that may still derive knows which of its children were made. */
  ghost predicate KnowsChildren(l: Live, made: seq<ReversePath>) {
    && l.ctx.path in made
    && (!l.idle ==> forall f :: Child(l.ctx.path, f) in made ==> f in l.ctx.derived)
  }

  /** The invariant of every run; nothing is made below a path that was not made. */
  ghost predicate Inv(r: Run, root: ReversePath) {
    && Distinct(r.made)
    && LivePathsDistinct(r)
    && (forall i :: 0 <= i < |r.live| ==> KnowsChildren(r.live[i], r.made))
    && (forall p :: p in r.made && p != root ==> p.past.Some? && p.past.value in r.made)
    && (forall p :: p in r.made ==> Depth(p) >= Depth(root))
  }

  lemma InvDrop(r: Run, root: ReversePath, i: nat)
    requires Inv(r, root) && i < |r.live|
    ensures Inv(r.(live := Without(r.live, i)), root)
  {
    var live := Without(r.live, i);
    forall x, y | 0 <= x < y < |live| && !live[x].idle && !live[y].idle ensures live[x].ctx.path != live[y].ctx.path {
      var x', y' := if x < i then x else x + 1, if y < i then y else y + 1;
      assert r.live[x'].ctx.path != r.live[y'].ctx.path;
    }
  }

  lemma InvReplace(r: Run, root: ReversePath, i: nat, c: ContextView)
    requires Inv(r, root) && i < |r.live|
    requires c.path == r.live[i].ctx.path && r.live[i].ctx.derived <= c.derived
    ensures Inv(r.(live := r.live[i := r.live[i].(ctx := c)]), root)
  {
    assert KnowsChildren(r.live[i], r.made);
  }

  lemma InvSettle(r: Run, root: ReversePath, i: nat, outcome: Result<ContextView, CompilationError>)
    requires Inv(r, root) && i < |r.live|
    requires outcome.Ok? ==> outcome.value.path == r.live[i].ctx.path && outcome.value.derived == r.live[i].ctx.derived
    ensures Inv(Settle(r, i, outcome), root)
  {
    if outcome.Ok? {
      InvReplace(r, root, i, outcome.value);
    } else {
      InvDrop(r, root, i);
    }
  }

  /** Copies share a path, but at most one of them, and only of an active context, derives. */
  lemma CloneKeepsDistinct(r: Run, i: nat, cloneActs: bool)
    requires LivePathsDistinct(r) && i < |r.live|
    ensures LivePathsDistinct(Step(r, CloneOp(i, cloneActs)))
  {
    var n := |r.live|;
    var live := Step(r, CloneOp(i, cloneActs)).live;
    forall x, y | 0 <= x < y < |live| && !live[x].idle && !live[y].idle ensures live[x].ctx.path != live[y].ctx.path {
      if y == n {
        assert live[y].ctx.path == r.live[i].ctx.path && !r.live[i].idle && x != i;
        assert live[x] == r.live[x];
      } else {
        assert live[x].ctx.path == r.live[x].ctx.path && !r.live[x].idle;
        assert live[y].ctx.path == r.live[y].ctx.path && !r.live[y].idle;
      }
    }
  }

  lemma InvClone(r: Run, root: ReversePath, i: nat, cloneActs: bool)
    requires Inv(r, root) && i < |r.live|
    ensures Inv(Step(r, CloneOp(i, cloneActs)), root)
  {
    var cloned := Step(r, CloneOp(i, cloneActs));
    CloneKeepsDistinct(r, i, cloneActs);
    assert KnowsChildren(r.live[i], r.made);
    forall k | 0 <= k < |cloned.live| ensures KnowsChildren(cloned.live[k], cloned.made) {
      if k < |r.live| {
        assert KnowsChildren(r.live[k], r.made);
      }
    }
  }

  /** The path of a new child was never made before, nor was any below it. */
  lemma ChildIsNew(r: Run, root: ReversePath, i: nat, f: PathFragment)
    requires Inv(r, root) && i < |r.live| && !r.live[i].idle && f !in r.live[i].ctx.derived
    ensures var child := Child(r.live[i].ctx.path, f);
            child !in r.made && Depth(child) > Depth(root) && forall g :: Child(child, g) !in r.made + [child]
  {
    var path := r.live[i].ctx.path;
    var child := Child(path, f);
    assert KnowsChildren(r.live[i], r.made);
    forall g ensures Child(child, g) !in r.made + [child] {
      assert Child(child, g) != root by {
        assert Depth(Child(child, g)) > Depth(child) > Depth(path) >= Depth(root);
      }
      assert Child(child, g).past.value == child;
      assert Depth(Child(child, g)) > Depth(child);
    }
  }

  lemma InvDerive(r: Run, root: ReversePath, i: nat, f: PathFragment)
    requires Inv(r, root) && i < |r.live| && !r.live[i].idle && f !in r.live[i].ctx.derived
    ensures Inv(Step(r, DeriveOp(i, f)), root)
  {
    var c := r.live[i].ctx;
    var child := ContextView(c.funds, Child(c.path, f), {});
    var r1 := r.(live := r.live[i := Live(c.(derived := c.derived + {f}), false)]);
    InvReplace(r, root, i, c.(derived := c.derived + {f}));
    ChildIsNew(r, root, i, f);
    var r2 := Step(r, DeriveOp(i, f));
    assert r2 == Run(r1.live + [Live(child, false)], r1.made + [child.path]);
    forall k | 0 <= k < |r1.live| ensures KnowsChildren(r1.live[k], r2.made) {
      assert KnowsChildren(r1.live[k], r1.made);
      if !r1.live[k].idle && r1.live[k].ctx.path == c.path {
        assert k == i by {
          assert !r1.live[i].idle && r1.live[i].ctx.path == c.path;
        }
      }
    }
    assert KnowsChildren(Live(child, false), r2.made);
  }

  /**
   * Effect paths never collide: whatever is derived, spent, added, cloned or
   * dropped, in whatever order, all contexts ever made from one root have
   * pairwise different paths, as long as no two copies both derive.
   */
  lemma {:induction false} PathsNeverCollide(r: Run, root: ReversePath, ops: seq<Op>)
    requires Inv(r, root) && Disciplined(r, ops)
    ensures Inv(RunOps(r, ops), root)
    decreases |ops|
  {
    if ops != [] {
      var op := ops[0];
      if op.i < |r.live| {
        var c := r.live[op.i].ctx;
        match op
        case DeriveOp(i, f) => if f !in c.derived { InvDerive(r, root, i, f); }
        case DropOp(i) => InvDrop(r, root, i);
        case CloneOp(i, cloneActs) => InvClone(r, root, i, cloneActs);
        case WithAmountOp(i, a) => InvSettle(r, root, i, WithAmount(c, a));
        case SpendOp(i, a) => InvSettle(r, root, i, SpendAmount(c, a));
        case AddOp(i, a) => InvSettle(r, root, i, AddAmount(c, a));
      }
      PathsNeverCollide(Step(r, ops[0]), root, ops[1..]);
    }
  }

  /** The statement for a compilation that starts from one unused context. */
  lemma FreshRunsKeepPathsApart(funds: Amount, root: ReversePath, ops: seq<Op>)
    requires Disciplined(Begin(ContextView(funds, root, {})), ops)
    ensures var r := RunOps(Begin(ContextView(funds, root, {})), ops);
            Distinct(r.made) && LivePathsDistinct(r)
  {
    var r := Begin(ContextView(funds, root, {}));
    assert forall f :: Depth(Child(root, f)) > Depth(root);
    assert KnowsChildren(r.live[0], r.made);
    PathsNeverCollide(r, root, ops);
  }

  ghost predicate NothingIdle(r: Run) {
    forall i :: 0 <= i < |r.live| ==> !r.live[i].idle
  }

  /** Without clones every run is disciplined, and nothing is ever idle. */
  lemma {:induction false} CloneFreeRunsAreDisciplined(r: Run, ops: seq<Op>)
    requires NothingIdle(r) && forall k :: 0 <= k < |ops| ==> !ops[k].CloneOp?
    ensures Disciplined(r, ops) && NothingIdle(RunOps(r, ops))
    decreases |ops|
  {
    if ops != [] {
      var next := Step(r, ops[0]);
      assert NothingIdle(next) by {
        assert !ops[0].CloneOp?;
      }
      CloneFreeRunsAreDisciplined(next, ops[1..]);
    }
  }

  /**
   * When both copies derive, the paths they make differ exactly when they
   * derive different fragments.
   */
  lemma ClonesCollideIff(c: ContextView, f: PathFragment, g: PathFragment)
    requires f !in c.derived && g !in c.derived
    ensures Distinct(RunOps(Begin(c), [CloneOp(0, false), DeriveOp(0, f), DeriveOp(1, g)]).made) <==> f != g
  {
    var ops := [CloneOp(0, false), DeriveOp(0, f), DeriveOp(1, g)];
    var r0 := Begin(c);
    var r1 := Step(r0, ops[0]);
    var r2 := Step(r1, ops[1]);
    var r3 := Step(r2, ops[2]);
    assert ops[1..][1..] == [ops[2]] && ops[1..][1..][1..] == [];
    assert RunOps(r0, ops) == RunOps(r1, ops[1..]) == RunOps(r2, ops[1..][1..]) == RunOps(r3, []) == r3;
    assert r3.made == [c.path, Child(c.path, f), Child(c.path, g)];
    assert Depth(Child(c.path, f)) > Depth(c.path) && Depth(Child(c.path, g)) > Depth(c.path);
    if f == g {
      assert r3.made[1] == r3.made[2];
    }
  }
}
