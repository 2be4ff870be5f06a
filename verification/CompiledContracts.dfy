/**
 * Compiled contracts, told from the contracts themselves: which functions a
 * contract has, where each of them is asked what, and what it adds.
 */
module CompiledContracts {
  import opened Sequences
  import opened Wrappers
  import opened Policies
  import opened EffectPaths
  import opened Contexts
  import opened Templates
  import opened Guards
  import opened Compiler
  import Cond = ConditionalCompile
  import TapTrees

  // ------------------------------------------------------------ the functions

  /** A then-function commits to its templates and is called in one way only. */
  ghost predicate StandsFor(f: Callable, g: ThenFunc) {
    && f.modifiesGuards && !f.webApi
    && f.name == g.name && f.guards == g.guards && f.conditions == g.conditions && f.call == g.func
    && forall at, arg :: f.callJson(at, arg) == Err(WebApiDisabled)
  }

  ghost predicate AllStandFor(fs: seq<Callable>, gs: seq<ThenFunc>) {
    |fs| == |gs| && forall i :: 0 <= i < |fs| ==> StandsFor(fs[i], gs[i])
  }

  lemma {:induction false} ThenFunctions(gs: seq<Option<ThenFunc>>)
    ensures AllStandFor(Somes(FromThens(gs)), Somes(gs))
  {
    if gs != [] {
      ThenFunctions(gs[1..]);
      var fs := FromThens(gs);
      assert fs[1..] == FromThens(gs[1..]);
      if gs[0].Some? {
        assert StandsFor(fs[0].value, gs[0].value);
      }
    }
  }

  /** How many of a contract's functions are then-functions. They come first. */
  function ThenCount(c: Contract): nat {
    |Somes(c.thenFns)|
  }

  /** First the then-functions, committing to what they return; then the continuations as they are. */
  lemma FunctionsOfContract(c: Contract)
    ensures |Functions(c)| == ThenCount(c) + |Somes(c.finishOrFns)|
    ensures AllStandFor(Functions(c)[..ThenCount(c)], Somes(c.thenFns))
    ensures Functions(c)[ThenCount(c)..] == Somes(c.finishOrFns)
  {
    ThenFunctions(c.thenFns);
    assert Functions(c)[..ThenCount(c)] == Somes(FromThens(c.thenFns));
  }

  lemma ThenFunctionCommits(c: Contract, i: nat)
    requires i < ThenCount(c)
    ensures i < |Functions(c)| && StandsFor(Functions(c)[i], Somes(c.thenFns)[i])
  {
    FunctionsOfContract(c);
    assert Functions(c)[..ThenCount(c)][i] == Functions(c)[i];
  }

  lemma IsContinuation(c: Contract, i: nat)
    requires ThenCount(c) <= i < |Functions(c)|
    ensures i - ThenCount(c) < |Somes(c.finishOrFns)|
    ensures Functions(c)[i] == Somes(c.finishOrFns)[i - ThenCount(c)]
  {
    FunctionsOfContract(c);
    assert Functions(c)[ThenCount(c)..][i - ThenCount(c)] == Functions(c)[i];
  }

  // ------------------------------------------------------------- their places

  /** Where a function is named, judged, guarded and asked, fragment by fragment. */
  lemma PlacesOfFunction(job: Job, i: nat)
    requires i < |job.functions| && job.NameOf(i).Some?
    ensures var f, name, at := job.functions[i], job.NameOf(i).value, job.EffectRoot(i);
            && (name == f.name || name == f.name + "_renamed_0")
            && Fragments(job.PathOf(i)) == Fragments(job.root) + [Action, Named(name)]
            && Fragments(at.path) == Fragments(job.root)
                + [Action, Named(name), if f.modifiesGuards then Next else Suggested]
            && at.funds == job.funds && at.derived == {}
  {
    var root, name := Fragments(job.root), job.NameOf(i).value;
    assert root + [Action] + [Named(name)] == root + [Action, Named(name)];
    var last := if job.functions[i].modifiesGuards then Next else Suggested;
    assert root + [Action, Named(name)] + [last] == root + [Action, Named(name), last];
  }

  /** A function keeps its name exactly when no function before it was given this name. */
  lemma KeepsNameIff(job: Job, i: nat)
    requires i < |job.functions|
    ensures job.NameOf(i) == Some(job.functions[i].name) <==>
              forall j :: 0 <= j < i ==> job.NameOf(j) != Some(job.functions[i].name)
  {
    NamesGiven(job, i, job.functions[i].name);
    assert job.functions[i].name != Fallback(job.functions[i].name) by {
      assert |Fallback(job.functions[i].name)| > |job.functions[i].name|;
    }
  }

  lemma {:induction false} NamesGiven(job: Job, i: nat, name: string)
    requires i <= |job.functions|
    ensures name in job.NamesBefore(i) <==> exists j :: 0 <= j < i && job.NameOf(j) == Some(name)
  {
    if i > 0 {
      NamesGiven(job, i - 1, name);
      OneMoreName(job, i - 1, name);
      if name in job.NamesBefore(i - 1) {
        var j :| 0 <= j < i - 1 && job.NameOf(j) == Some(name);
      }
    }
  }

  lemma OneMoreName(job: Job, i: nat, name: string)
    requires i < |job.functions|
    ensures name in job.NamesBefore(i + 1) <==> name in job.NamesBefore(i) || job.NameOf(i) == Some(name)
  {
  }

  // ------------------------------------------------------------ their verdicts

  /** The k-th verdict is that of the k-th condition, asked at a branch of its own. */
  ghost predicate AskedAt(vs: seq<Cond.CompileType>, asked: seq<Cond.Condition>, funds: Amount, base: ReversePath,
      from: nat)
  {
    && |vs| == |asked|
    && forall k :: 0 <= k < |vs| ==> vs[k] == asked[k](ContextView(funds, Child(base, Branch(from + k)), {}))
  }

  lemma OneMoreAsked(vs: seq<Cond.CompileType>, condition: Cond.Condition, asked: seq<Cond.Condition>, funds: Amount,
      base: ReversePath, from: nat)
    requires AskedAt(vs, asked, funds, base, from + 1)
    ensures AskedAt([condition(ContextView(funds, Child(base, Branch(from)), {}))] + vs, [condition] + asked, funds,
              base, from)
  {
    var all, conditions := [condition(ContextView(funds, Child(base, Branch(from)), {}))] + vs, [condition] + asked;
    forall k | 0 <= k < |all| ensures
        all[k] == conditions[k](ContextView(funds, Child(base, Branch(from + k)), {})) {
      if k > 0 {
        assert all[k] == vs[k - 1] && conditions[k] == asked[k - 1] && from + 1 + (k - 1) == from + k;
      }
    }
  }

  lemma {:induction false} VerdictsInOrder(conditions: seq<Option<Cond.Condition>>, funds: Amount, base: ReversePath,
      from: nat)
    ensures AskedAt(Cond.Verdicts(conditions, funds, base, from), Somes(conditions), funds, base, from)
    decreases |conditions|
  {
    if conditions != [] {
      if conditions[0].None? {
        VerdictsInOrder(conditions[1..], funds, base, from);
        assert Somes(conditions) == Somes(conditions[1..]);
      } else {
        VerdictsInOrder(conditions[1..], funds, base, from + 1);
        OneMoreAsked(Cond.Verdicts(conditions[1..], funds, base, from + 1), conditions[0].value,
            Somes(conditions[1..]), funds, base, from);
      }
    }
  }

  /** What a function's conditions say, each at a context of its own. */
  ghost predicate Asked(vs: seq<Cond.CompileType>, job: Job, i: nat)
    requires i < |job.functions|
  {
    AskedAt(vs, Somes(job.functions[i].conditions), job.funds, Child(job.PathOf(i), CondCompIf), 0)
  }

  lemma SameVerdicts(vs: seq<Cond.CompileType>, ws: seq<Cond.CompileType>, asked: seq<Cond.Condition>, funds: Amount,
      base: ReversePath, from: nat)
    requires AskedAt(vs, asked, funds, base, from) && AskedAt(ws, asked, funds, base, from)
    ensures vs == ws
  {
  }

  /** What many verdicts come to. */
  ghost predicate Fails(vs: seq<Cond.CompileType>) {
    (exists v :: v in vs && v.Fail?) || (Cond.Required in vs && Cond.Never in vs)
  }

  lemma VerdictOfMany(vs: seq<Cond.CompileType>)
    ensures var v := Cond.MergeAll(Cond.NoConstraint, vs);
            && (v.Fail? <==> Fails(vs))
            && (v.Never? || v.Skippable? <==>
                  !Fails(vs) && (Cond.Never in vs || (Cond.Skippable in vs && Cond.Required !in vs)))
            && (v.Nullable? <==>
                  !Fails(vs) && Cond.Nullable in vs
                  && Cond.Never !in vs && Cond.Required !in vs && Cond.Skippable !in vs)
  {
    Cond.MergeAllIsVerdict(vs);
    Cond.HasFailMember(vs);
    assert forall v :: v in vs <==> v in multiset(vs);
  }

  /**
   * Which verdicts leave a function out, fail it, or let it go without
   * templates, from what its conditions say.
   */
  lemma FunctionVerdict(job: Job, i: nat, vs: seq<Cond.CompileType>)
    requires i < |job.functions| && Asked(vs, job, i)
    ensures job.VerdictOf(i).Fail? <==> Fails(vs)
    ensures !job.Included(i) <==>
              !Fails(vs) && (Cond.Never in vs || (Cond.Skippable in vs && Cond.Required !in vs))
    ensures job.VerdictOf(i).Nullable? <==>
              !Fails(vs) && Cond.Nullable in vs
              && Cond.Never !in vs && Cond.Required !in vs && Cond.Skippable !in vs
  {
    var f, base := job.functions[i], Child(job.PathOf(i), CondCompIf);
    VerdictsInOrder(f.conditions, job.funds, base, 0);
    SameVerdicts(vs, Cond.Verdicts(f.conditions, job.funds, base, 0), Somes(f.conditions), job.funds, base, 0);
    VerdictOfMany(vs);
  }

  // ----------------------------------------------------------- their templates

  function DefaultContext(top: ContextView): ContextView {
    ContextView(top.funds, Child(top.path, DefaultEffect), {})
  }

  function EffectContext(top: ContextView, name: string): ContextView {
    ContextView(top.funds, Child(Child(top.path, Effects), Named(name)), {})
  }

  /** The effects that a function is asked for: those recorded for its own place. */
  function EffectsFor(f: Callable, top: ContextView, db: EffectDb): seq<(string, Json)> {
    if f.webApi && top.path in db then db[top.path] else []
  }

  /** What a function returns for one recorded effect. */
  function Expansion(f: Callable, top: ContextView, arg: (string, Json)): TxTmplIt {
    f.callJson(EffectContext(top, arg.0), arg.1)
  }

  /** The default expansion, and then one for each recorded effect. */
  function AllAsked(f: Callable, top: ContextView, db: EffectDb): seq<TxTmplIt> {
    [f.call(DefaultContext(top))] + Expansions(f, top, EffectsFor(f, top, db))
  }

  function Expansions(f: Callable, top: ContextView, args: seq<(string, Json)>): seq<TxTmplIt> {
    seq(|args|, k requires 0 <= k < |args| => Expansion(f, top, args[k]))
  }

  /** All that was returned, one result after the other. */
  function Joined(rs: seq<TxTmplIt>): Items {
    if rs == [] then [] else (if rs[0].Ok? then rs[0].value else []) + Joined(rs[1..])
  }

  /** Everything that was asked succeeds and is put together, or the first failure is the answer. */
  ghost predicate Gathers(r: TxTmplIt, acc: Items, rs: seq<TxTmplIt>) {
    match r
    case Ok(items) => (forall k :: 0 <= k < |rs| ==> rs[k].Ok?) && items == acc + Joined(rs)
    case Err(_) => exists k :: 0 <= k < |rs| && rs[k] == r && forall m :: 0 <= m < k ==> rs[m].Ok?
  }

  lemma GathersFirst(r: TxTmplIt, acc: Items, first: TxTmplIt, rs: seq<TxTmplIt>)
    requires first.Ok? && Gathers(r, acc + first.value, rs)
    ensures Gathers(r, acc, [first] + rs)
  {
    var all := [first] + rs;
    assert all[1..] == rs;
    match r
    case Ok(items) => ConcatAssociative(acc, first.value, Joined(rs));
    case Err(_) =>
      var k :| 0 <= k < |rs| && rs[k] == r && forall m :: 0 <= m < k ==> rs[m].Ok?;
      assert all[k + 1] == r && forall m :: 0 <= m < k + 1 ==> all[m].Ok?;
  }

  lemma {:induction false} FoldGathers(f: Callable, top: ContextView, acc: Items, args: seq<(string, Json)>)
    ensures Gathers(FoldEffects(f, top, acc, args), acc, Expansions(f, top, args))
    decreases |args|
  {
    if args == [] {
      assert acc + [] == acc;
    } else {
      var first := Expansion(f, top, args[0]);
      assert Expansions(f, top, args) == [first] + Expansions(f, top, args[1..]);
      if first.Ok? {
        FoldGathers(f, top, acc + first.value, args[1..]);
        GathersFirst(FoldEffects(f, top, acc, args), acc, first, Expansions(f, top, args[1..]));
      } else {
        assert FoldEffects(f, top, acc, args) == first == Expansions(f, top, args)[0];
      }
    }
  }

  /** What a function proposes: what it returns by default, then for each recorded effect in turn. */
  lemma EffectsInOrder(f: Callable, top: ContextView, db: EffectDb)
    ensures Gathers(AllEffects(f, top, db), [], AllAsked(f, top, db))
  {
    var def, args := f.call(DefaultContext(top)), EffectsFor(f, top, db);
    if def.Ok? {
      FoldGathers(f, top, def.value, args);
      assert [] + def.value == def.value;
      assert AllEffects(f, top, db) == FoldEffects(f, top, def.value, args);
      GathersFirst(AllEffects(f, top, db), [], def, Expansions(f, top, args));
    } else {
      assert AllAsked(f, top, db)[0] == AllEffects(f, top, db);
    }
  }

  /** A template is proposed by a function iff one of the things it was asked returned it. */
  lemma {:induction false} JoinedMember(rs: seq<TxTmplIt>, item: Result<Template, CompilationError>)
    ensures item in Joined(rs) <==> exists k :: 0 <= k < |rs| && rs[k].Ok? && item in rs[k].value
  {
    if rs != [] {
      JoinedMember(rs[1..], item);
      if k :| 0 <= k < |rs| && rs[k].Ok? && item in rs[k].value {
        assert k > 0 ==> rs[1..][k - 1] == rs[k];
      }
      if k :| 0 <= k < |rs[1..]| && rs[1..][k].Ok? && item in rs[1..][k].value {
        assert rs[k + 1] == rs[1..][k];
      }
    }
  }

  lemma ProposedIff(job: Job, i: nat, t: Template)
    requires i < |job.functions| && AllEffects(job.functions[i], job.EffectRoot(i), job.effects).Ok?
    requires AllOk(AllEffects(job.functions[i], job.EffectRoot(i), job.effects).value)
    ensures var rs := AllAsked(job.functions[i], job.EffectRoot(i), job.effects);
            t in job.Proposed(i) <==> exists k :: 0 <= k < |rs| && rs[k].Ok? && Ok(t) in rs[k].value
  {
    var items := AllEffects(job.functions[i], job.EffectRoot(i), job.effects).value;
    EffectsInOrder(job.functions[i], job.EffectRoot(i), job.effects);
    JoinedMember(AllAsked(job.functions[i], job.EffectRoot(i), job.effects), Ok(t));
    assert [] + Joined(AllAsked(job.functions[i], job.EffectRoot(i), job.effects)) == items;
    ReturnedMember(items, t);
  }

  lemma ReturnedMember(items: Items, t: Template)
    requires AllOk(items)
    ensures t in Returned(items) <==> Ok(t) in items
  {
    if i :| 0 <= i < |items| && items[i] == Ok(t) {
      assert Returned(items)[i] == t;
    }
  }

  /** What the i-th function adds to the templates of one kind. */
  ghost function Own(job: Job, i: nat, committed: bool): seq<Template>
    requires i < |job.functions|
  {
    if job.Included(i) && job.functions[i].modifiesGuards == committed then job.Proposed(i) else []
  }

  lemma OwnComesNext(job: Job, i: nat, committed: bool)
    requires i < |job.functions|
    ensures job.ProposedBefore(i + 1, committed) == job.ProposedBefore(i, committed) + Own(job, i, committed)
  {
  }

  /** A list that grows by one part at a time starts with what it was before, and then the next part. */
  lemma {:induction false} GrowsByParts<T>(upTo: seq<seq<T>>, parts: seq<seq<T>>, i: nat, n: nat)
    requires i < n <= |parts| && |upTo| == |parts| + 1
    requires forall k :: 0 <= k < |parts| ==> upTo[k + 1] == upTo[k] + parts[k]
    ensures upTo[i] + parts[i] <= upTo[n]
    decreases n
  {
    if n > i + 1 {
      GrowsByParts(upTo, parts, i, n - 1);
      assert upTo[n - 1 + 1] == upTo[n - 1] + parts[n - 1];
      PrefixOfPrefix(upTo[i] + parts[i], upTo[n - 1], upTo[n]);
    }
  }

  ghost function UpTo(job: Job, committed: bool): (r: seq<seq<Template>>)
    ensures |r| == |job.functions| + 1
    ensures forall k :: 0 <= k < |r| ==> r[k] == job.ProposedBefore(k, committed)
  {
    seq(|job.functions| + 1, k requires 0 <= k <= |job.functions| => job.ProposedBefore(k, committed))
  }

  ghost function Parts(job: Job, committed: bool): (r: seq<seq<Template>>)
    ensures |r| == |job.functions|
    ensures forall k :: 0 <= k < |r| ==> r[k] == Own(job, k, committed)
  {
    seq(|job.functions|, k requires 0 <= k < |job.functions| => Own(job, k, committed))
  }

  lemma UpToGrows(job: Job, committed: bool, k: nat)
    requires k < |job.functions|
    ensures UpTo(job, committed)[k + 1] == UpTo(job, committed)[k] + Parts(job, committed)[k]
  {
    OwnComesNext(job, k, committed);
  }

  /** The templates of earlier functions come before those of later ones. */
  lemma ProposedInOrder(job: Job, i: nat, n: nat, committed: bool)
    requires i < n <= |job.functions|
    ensures job.ProposedBefore(i, committed) + Own(job, i, committed) <= job.ProposedBefore(n, committed)
  {
    forall k | 0 <= k < |job.functions|
      ensures UpTo(job, committed)[k + 1] == UpTo(job, committed)[k] + Parts(job, committed)[k]
    {
      UpToGrows(job, committed, k);
    }
    GrowsByParts(UpTo(job, committed), Parts(job, committed), i, n);
  }

  ghost predicate ProposedBy(job: Job, i: nat, committed: bool, t: Template) {
    i < |job.functions| && job.Included(i) && job.functions[i].modifiesGuards == committed && t in job.Proposed(i)
  }

  lemma OneMoreBy(job: Job, n: nat, committed: bool, t: Template)
    requires n < |job.functions|
    ensures t in job.ProposedBefore(n + 1, committed) <==>
              t in job.ProposedBefore(n, committed) || ProposedBy(job, n, committed, t)
  {
  }

  ghost predicate SomeProposes(job: Job, n: nat, committed: bool, t: Template) {
    exists i :: 0 <= i < n && ProposedBy(job, i, committed, t)
  }

  lemma OneMoreProposes(job: Job, n: nat, committed: bool, t: Template)
    ensures SomeProposes(job, n + 1, committed, t) <==>
              SomeProposes(job, n, committed, t) || ProposedBy(job, n, committed, t)
  {
    if i :| 0 <= i < n && ProposedBy(job, i, committed, t) {
      assert 0 <= i < n + 1 && ProposedBy(job, i, committed, t);
    }
  }

  ghost predicate TellsProposers(job: Job, n: nat, committed: bool, t: Template)
    requires n <= |job.functions|
  {
    t in job.ProposedBefore(n, committed) <==> SomeProposes(job, n, committed, t)
  }

  lemma TellsOfNone(job: Job, committed: bool, t: Template)
    ensures TellsProposers(job, 0, committed, t)
  {
  }

  lemma StillTells(job: Job, n: nat, committed: bool, t: Template)
    requires n < |job.functions| && TellsProposers(job, n, committed, t)
    ensures TellsProposers(job, n + 1, committed, t)
  {
    OneMoreBy(job, n, committed, t);
    OneMoreProposes(job, n, committed, t);
  }

  lemma ProposedBeforeBy(job: Job, n: nat, committed: bool, t: Template)
    requires n <= |job.functions|
    ensures TellsProposers(job, n, committed, t)
  {
    TellsOfNone(job, committed, t);
    for k := 0 to n
      invariant TellsProposers(job, k, committed, t)
    {
      StillTells(job, k, committed, t);
    }
  }

  // --------------------------------------------------------------- their guards

  /** Where the one guard of a function is used. */
  ghost function GuardPlace(job: Job, i: nat): ContextView
    requires i < |job.functions|
  {
    ContextView(job.funds, Child(Child(job.PathOf(i), PathFragment.Guard), Branch(0)), {})
  }

  /** Where a finish guard is used; its metadata is taken from below it. */
  ghost function FinishPlace(job: Job, j: nat): ContextView {
    ContextView(job.funds, Child(Child(job.root, FinishFn), Branch(j)), {Metadata})
  }

  /** A fresh guard is evaluated where it is used, a cached one where it was used first. */
  ghost function Evaluated(guard: Option<Guard>, here: ContextView, first: ContextView): Option<Clause> {
    match guard
    case None => None
    case Some(Fresh(eval)) => Some(eval(here))
    case Some(Cache(eval)) => Some(eval(first))
  }

  lemma AnswerEvaluates(table: GuardTable, log: seq<Request>, j: nat, k: nat)
    requires k <= j < |log| && log[k].guard == log[j].guard
    requires forall m :: 0 <= m < k ==> log[m].guard != log[j].guard
    ensures Answer(table, log, j) == Evaluated(table(log[j].guard), log[j].ctx, log[k].ctx)
  {
    assert FirstUse(log, log[j].guard) == k;
  }

  /** The first function that is compiled and uses the guard is the k-th. */
  ghost predicate UsedFirst(job: Job, g: GuardFn, k: nat) {
    && k < |job.functions| && job.Included(k) && job.functions[k].guards == [g]
    && forall m :: 0 <= m < k && job.Included(m) ==> g !in job.functions[m].guards
  }

  lemma {:induction false} UsersOf(job: Job, n: nat, g: GuardFn)
    requires n <= |job.functions|
    requires forall m :: 0 <= m < n && job.Included(m) ==> g !in job.functions[m].guards
    ensures forall j :: 0 <= j < |job.UsesBefore(n)| ==> job.UsesBefore(n)[j].guard != g
  {
    if n > 0 {
      UsersOf(job, n - 1, g);
      if job.Included(n - 1) {
        var base := Child(job.PathOf(n - 1), PathFragment.Guard);
        var more := RequestsAt(job.functions[n - 1].guards, job.funds, base, 0, {});
        forall j | 0 <= j < |more| ensures more[j].guard != g {
          assert more[j].guard == job.functions[n - 1].guards[j];
        }
      }
    }
  }

  lemma OneUse(job: Job, i: nat, g: GuardFn)
    requires i < |job.functions| && job.Included(i) && job.functions[i].guards == [g]
    ensures job.UsesBefore(i + 1) == job.UsesBefore(i) + [Request(g, GuardPlace(job, i))]
  {
    var base := Child(job.PathOf(i), PathFragment.Guard);
    assert RequestsAt([g], job.funds, base, 0, {}) == [Request(g, GuardPlace(job, i))];
  }

  lemma {:induction false} UsesGrow(job: Job, i: nat, n: nat)
    requires i <= n <= |job.functions|
    ensures job.UsesBefore(i) <= job.UsesBefore(n)
    decreases n
  {
    if i < n {
      UsesGrow(job, i, n - 1);
      PrefixOfPrefix(job.UsesBefore(i), job.UsesBefore(n - 1), job.UsesBefore(n));
    }
  }

  /** The use of a guard by its first user comes first in the log. */
  lemma FirstUseAt(job: Job, n: nat, k: nat, g: GuardFn)
    requires k < n <= |job.functions| && UsedFirst(job, g, k)
    ensures var at := |job.UsesBefore(k)|;
            && at < |job.UsesBefore(n)| && job.UsesBefore(n)[at] == Request(g, GuardPlace(job, k))
            && forall m :: 0 <= m < at ==> job.UsesBefore(n)[m].guard != g
  {
    UsersOf(job, k, g);
    OneUse(job, k, g);
    UsesGrow(job, k + 1, n);
  }

  /** The guard of a compiled function, from the guard itself and the places where it is used. */
  lemma GuardOfFunction(job: Job, i: nat, k: nat, g: GuardFn)
    requires k <= i < |job.functions| && job.Included(i) && job.functions[i].guards == [g] && UsedFirst(job, g, k)
    ensures job.GuardsOf(i) == Somes([Evaluated(job.guards(g), GuardPlace(job, i), GuardPlace(job, k))])
  {
    var log, j := job.UsesBefore(i + 1), |job.UsesBefore(i)|;
    OneUse(job, i, g);
    FirstUseAt(job, i + 1, k, g);
    UsesGrow(job, k, i);
    AnswerEvaluates(job.guards, log, j, |job.UsesBefore(k)|);
    LastAnswer(job.guards, log);
  }

  lemma LastAnswer(table: GuardTable, log: seq<Request>)
    requires log != []
    ensures Answers(table, log, |log| - 1, |log|) == [Answer(table, log, |log| - 1)]
  {
  }

  lemma NoGuardOfFunction(job: Job, i: nat)
    requires i < |job.functions| && job.Included(i) && job.functions[i].guards == []
    ensures job.GuardsOf(i) == []
  {
    assert job.UsesBefore(i + 1) == job.UsesBefore(i) + [];
    assert Answers(job.guards, job.UsesBefore(i + 1), |job.UsesBefore(i)|, |job.UsesBefore(i + 1)|) == [];
  }

  ghost predicate IsFirst(guards: seq<GuardFn>, m: nat, g: GuardFn) {
    m < |guards| && guards[m] == g && forall l :: 0 <= l < m ==> guards[l] != g
  }

  lemma FinishUse(job: Job, j: nat)
    requires j < |job.finishFns|
    ensures var n := |job.UsesBefore(|job.functions|)|;
            && |job.FinishUses()| == n + |job.finishFns| && job.FinishUses()[..n] == job.UsesBefore(|job.functions|)
            && job.FinishUses()[n + j] == Request(job.finishFns[j], FinishPlace(job, j))
  {
  }

  /** The first use of a finish guard that no function uses. */
  lemma FinishOnly(job: Job, j: nat, m: nat, k: nat)
    requires m <= j < |job.finishFns| && IsFirst(job.finishFns, m, job.finishFns[j])
    requires forall i :: 0 <= i < |job.functions| && job.Included(i) ==> job.finishFns[j] !in job.functions[i].guards
    requires k < |job.UsesBefore(|job.functions|)| + m
    ensures k < |job.FinishUses()| && job.FinishUses()[k].guard != job.finishFns[j]
  {
    var before := job.UsesBefore(|job.functions|);
    UsersOf(job, |job.functions|, job.finishFns[j]);
    FinishUse(job, m);
    if k < |before| {
      assert job.FinishUses()[..|before|][k] == before[k];
    } else {
      FinishUse(job, k - |before|);
    }
  }

  /** The use at place k of the log is the first of the j-th finish guard. */
  ghost predicate FirstOfFinish(job: Job, j: nat, k: nat, first: ContextView)
    requires j < |job.finishFns|
  {
    && k < |job.FinishUses()| && job.FinishUses()[k] == Request(job.finishFns[j], first)
    && forall m :: 0 <= m < k ==> job.FinishUses()[m].guard != job.finishFns[j]
  }

  lemma FinishAfterFunction(job: Job, j: nat, i: nat)
    requires j < |job.finishFns| && UsedFirst(job, job.finishFns[j], i)
    ensures |job.UsesBefore(i)| < |job.UsesBefore(|job.functions|)|
    ensures FirstOfFinish(job, j, |job.UsesBefore(i)|, GuardPlace(job, i))
  {
    var before := job.UsesBefore(|job.functions|);
    FinishUse(job, j);
    FirstUseAt(job, |job.functions|, i, job.finishFns[j]);
    assert forall m :: 0 <= m < |before| ==> job.FinishUses()[m] == job.FinishUses()[..|before|][m];
  }

  /** The answers of the finish guards, in order; those that are no guards are left out. */
  ghost function FinishAnswers(job: Job): seq<Option<Clause>> {
    var n := |job.UsesBefore(|job.functions|)|;
    Answers(job.guards, job.FinishUses(), n, |job.FinishUses()|)
  }

  lemma AnswerInList(table: GuardTable, log: seq<Request>, from: nat, j: nat, k: nat)
    requires k <= from + j < |log| && log[k].guard == log[from + j].guard
    requires forall m :: 0 <= m < k ==> log[m].guard != log[from + j].guard
    ensures |Answers(table, log, from, |log|)| == |log| - from
    ensures Answers(table, log, from, |log|)[j]
         == Evaluated(table(log[from + j].guard), log[from + j].ctx, log[k].ctx)
  {
    AnswerEvaluates(table, log, from + j, k);
  }

  lemma FinishAnswerAt(job: Job, j: nat, k: nat, first: ContextView)
    requires j < |job.finishFns| && k <= |job.UsesBefore(|job.functions|)| + j && FirstOfFinish(job, j, k, first)
    ensures |FinishAnswers(job)| == |job.finishFns| && job.FinishGuards() == Somes(FinishAnswers(job))
    ensures FinishAnswers(job)[j] == Evaluated(job.guards(job.finishFns[j]), FinishPlace(job, j), first)
  {
    FinishUse(job, j);
    AnswerInList(job.guards, job.FinishUses(), |job.UsesBefore(|job.functions|)|, j, k);
  }

  /** The j-th finish guard, if a function used it before. */
  lemma FinishGuardAfterFunction(job: Job, j: nat, i: nat)
    requires j < |job.finishFns| && UsedFirst(job, job.finishFns[j], i)
    ensures |FinishAnswers(job)| == |job.finishFns| && job.FinishGuards() == Somes(FinishAnswers(job))
    ensures FinishAnswers(job)[j] ==
            Evaluated(job.guards(job.finishFns[j]), FinishPlace(job, j), GuardPlace(job, i))
  {
    FinishAfterFunction(job, j, i);
    FinishAnswerAt(job, j, |job.UsesBefore(i)|, GuardPlace(job, i));
  }

  /** The j-th finish guard, if no function uses it: it is used first at the m-th place of its own. */
  lemma FinishGuardAlone(job: Job, j: nat, m: nat)
    requires m <= j < |job.finishFns| && IsFirst(job.finishFns, m, job.finishFns[j])
    requires forall i :: 0 <= i < |job.functions| && job.Included(i) ==> job.finishFns[j] !in job.functions[i].guards
    ensures |FinishAnswers(job)| == |job.finishFns| && job.FinishGuards() == Somes(FinishAnswers(job))
    ensures FinishAnswers(job)[j] ==
            Evaluated(job.guards(job.finishFns[j]), FinishPlace(job, j), FinishPlace(job, m))
  {
    var k := |job.UsesBefore(|job.functions|)| + m;
    FinishUse(job, m);
    forall l | 0 <= l < k ensures job.FinishUses()[l].guard != job.finishFns[j] {
      FinishOnly(job, j, m, l);
    }
    FinishAnswerAt(job, j, k, FinishPlace(job, m));
  }

  // ------------------------------------------------------------- what is asked

  /** A leaf of a then-function: its guards, if any, and the clause of one template. */
  function LeafPolicy(guards: Clause, clause: Clause): Clause {
    if guards == Trivial then clause else And([guards, clause])
  }

  lemma {:induction false} CompileAllInOrder<M>(cs: seq<Clause>, compilePolicy: Clause -> Option<M>)
    ensures CompileAll(cs, compilePolicy).Ok? <==> forall k :: 0 <= k < |cs| ==> compilePolicy(cs[k]).Some?
    ensures CompileAll(cs, compilePolicy).Ok? ==>
              var leaves := CompileAll(cs, compilePolicy).value;
              |leaves| == |cs| && forall k :: 0 <= k < |cs| ==> compilePolicy(cs[k]) == Some(leaves[k])
    ensures CompileAll(cs, compilePolicy).Err? ==> CompileAll(cs, compilePolicy) == Err(PolicyNotCompilable)
  {
    if cs != [] {
      CompileAllInOrder(cs[1..], compilePolicy);
      assert forall k :: 1 <= k < |cs| ==> cs[k] == cs[1..][k - 1];
      if compilePolicy(cs[0]).Some? && CompileAll(cs[1..], compilePolicy).Ok? {
        var leaves, rest := CompileAll(cs, compilePolicy).value, CompileAll(cs[1..], compilePolicy).value;
        assert forall k :: 1 <= k < |leaves| ==> leaves[k] == rest[k - 1];
      }
      if forall k :: 0 <= k < |cs| ==> compilePolicy(cs[k]).Some? {
        assert forall k :: 0 <= k < |cs[1..]| ==> compilePolicy(cs[1..][k]).Some?;
      }
    }
  }

  lemma {:induction false} GuardEachInOrder(guards: Clause, cs: seq<Clause>)
    ensures |GuardEach(guards, cs)| == |cs|
    ensures forall k :: 0 <= k < |cs| ==> GuardEach(guards, cs)[k] == And([guards, cs[k]])
  {
    if cs != [] {
      GuardEachInOrder(guards, cs[1..]);
    }
  }

  /** What a then-function's clauses must be like for its leaves to be compiled. */
  ghost predicate Combinable<M>(nullable: bool, clauses: seq<Clause>, guards: Clause,
      compilePolicy: Clause -> Option<M>)
  {
    if clauses == [] then nullable
    else
      && guards != Unsatisfiable
      && forall k :: 0 <= k < |clauses| ==> compilePolicy(LeafPolicy(guards, clauses[k])).Some?
  }

  ghost predicate LeavesOf<M>(leaves: seq<M>, clauses: seq<Clause>, guards: Clause,
      compilePolicy: Clause -> Option<M>)
  {
    && |leaves| == |clauses|
    && forall k :: 0 <= k < |clauses| ==> compilePolicy(LeafPolicy(guards, clauses[k])) == Some(leaves[k])
  }

  /**
   * Without templates only a nullable then-function is compiled, and adds
   * nothing; with templates it adds one leaf for each, and its guards must not
   * be unsatisfiable.
   */
  lemma CombineInOrder<M>(nullable: bool, clauses: seq<Clause>, guards: Clause, compilePolicy: Clause -> Option<M>)
    ensures var r := CombineTxtmpls(nullable, clauses, guards, compilePolicy);
            && (r.Ok? <==> Combinable(nullable, clauses, guards, compilePolicy))
            && (r.Ok? ==> LeavesOf(r.value, clauses, guards, compilePolicy))
            && (r.Err? ==> r.error == if clauses == [] || guards == Unsatisfiable then MissingTemplates
                           else PolicyNotCompilable)
  {
    CompileAllInOrder(clauses, compilePolicy);
    CompileAllInOrder(GuardEach(guards, clauses), compilePolicy);
    GuardEachInOrder(guards, clauses);
  }

  /** A function that is named, not left out or failed, and guarded by one guard at most. */
  ghost predicate Reached(job: Job, i: nat) {
    && i < |job.functions| && job.NameOf(i).Some? && job.Included(i) && !job.VerdictOf(i).Fail?
    && |job.functions[i].guards| <= 1
  }

  /** A then-function that proposes nothing is accepted exactly if its conditions make it nullable. */
  lemma WithoutTemplates<M>(job: Job, i: nat, compilePolicy: Clause -> Option<M>)
    requires Reached(job, i) && job.functions[i].modifiesGuards
    requires AllEffects(job.functions[i], job.EffectRoot(i), job.effects) == Ok([])
    ensures job.Accepted(i, compilePolicy) <==> job.VerdictOf(i).Nullable?
    ensures job.Accepted(i, compilePolicy) ==> job.LeavesAdded(i, compilePolicy) == []
  {
    assert Returned([]) == [];
    assert job.Proposed(i) == [];
    CombineInOrder(job.VerdictOf(i).Nullable?, [], Conjoin(job.GuardsOf(i)), compilePolicy);
  }

  // ------------------------------------------------------- what is committed to

  /** Where a template is kept for its hash, its first proposer can make a clause of it. */
  lemma KeptIsExtractable<M>(job: Job, i: nat, committed: bool, t: Template, compilePolicy: Clause -> Option<M>)
    requires ProposedBy(job, i, committed, t) && job.Accepted(i, compilePolicy)
    ensures Extractable(job.functions[i], First(job.ProposedBefore(|job.functions|, committed), t.ctv), job.emulator)
  {
    var before, all := job.ProposedBefore(i, committed), job.ProposedBefore(|job.functions|, committed);
    assert t in before + job.Proposed(i);
    FirstOfMember(before + job.Proposed(i), t.ctv);
    ProposedInOrder(job, i, |job.functions|, committed);
    FirstOfLonger(before + job.Proposed(i), all, t.ctv);
  }

  lemma KeptBy<M>(job: Job, kept: map<Hash, Template>, committed: bool, compilePolicy: Clause -> Option<M>, h: Hash)
    returns (i: nat)
    requires job.AllAccepted(|job.functions|, compilePolicy)
    requires KeepsFirst(kept, job.ProposedBefore(|job.functions|, committed)) && h in kept
    ensures ProposedBy(job, i, committed, kept[h]) && kept[h].ctv == h
    ensures ExtractClause(job.functions[i], kept[h], job.emulator).Ok?
  {
    var all := job.ProposedBefore(|job.functions|, committed);
    FirstOfMember(all, h);
    ProposedBeforeBy(job, |job.functions|, committed, kept[h]);
    i :| 0 <= i < |job.functions| && ProposedBy(job, i, committed, kept[h]);
    KeptIsExtractable(job, i, committed, kept[h], compilePolicy);
  }

  /** What is only suggested carries no guards; for what is committed to there is a clause. */
  lemma KeptTemplates<M(!new)>(out: Compiled<M>, job: Job, ensured: Amount, compilePolicy: Clause -> Option<M>, h: Hash)
    requires Correct(out, job, ensured, compilePolicy)
    ensures h in out.suggestedTxs ==> out.suggestedTxs[h].guards == []
    ensures h in out.ctvToTx ==> job.emulator(h).Ok?
  {
    if h in out.suggestedTxs {
      var i := KeptBy(job, out.suggestedTxs, false, compilePolicy, h);
    }
    if h in out.ctvToTx {
      var i := KeptBy(job, out.ctvToTx, true, compilePolicy, h);
    }
  }

  /** The hashes committed to are those of the templates that then-functions propose. */
  lemma CommittedIff<M(!new)>(c: Contract, at: ContextView, emulator: Emulator, effects: EffectDb, out: Compiled<M>,
      ensured: Amount, compilePolicy: Clause -> Option<M>, h: Hash)
    requires Correct(out, JobOf(c, at, emulator, effects), ensured, compilePolicy)
    requires forall f :: f in Somes(c.finishOrFns) ==> !f.modifiesGuards
    ensures var job := JobOf(c, at, emulator, effects);
            h in out.ctvToTx <==> exists i, t ::
                0 <= i < ThenCount(c) && ProposedBy(job, i, true, t) && t.ctv == h
  {
    var job := JobOf(c, at, emulator, effects);
    CommittedHashes(out, job, ensured, compilePolicy, h);
    if t :| t in job.ProposedBefore(|job.functions|, true) && t.ctv == h {
      ProposedBeforeBy(job, |job.functions|, true, t);
      var i :| 0 <= i < |job.functions| && ProposedBy(job, i, true, t);
      if i >= ThenCount(c) {
        IsContinuation(c, i);
      }
    }
    if i, t :| 0 <= i < ThenCount(c) && ProposedBy(job, i, true, t) && t.ctv == h {
      ProposedBeforeBy(job, |job.functions|, true, t);
    }
  }

  /** A spend that some then-function lets through meets a commitment. */
  lemma MeetsCommitment<M(!new)>(out: Compiled<M>, job: Job, ensured: Amount, compilePolicy: Clause -> Option<M>,
      w: World, i: nat) returns (h: Hash)
    requires Correct(out, job, ensured, compilePolicy)
    requires i < |job.functions| && job.functions[i].modifiesGuards && job.Included(i) && job.FunctionSat(i, w)
    ensures h in out.ctvToTx && TemplateSat(out.ctvToTx[h], job.emulator, w) && out.ctvToTx[h].ctv == h
  {
    var t :| t in job.Proposed(i) && First(job.ProposedBefore(i + 1, true), t.ctv).Some?
        && TemplateSat(First(job.ProposedBefore(i + 1, true), t.ctv).value, job.emulator, w);
    h := t.ctv;
    job.FirstOverWholeContract(i, t);
    FirstOfMember(job.ProposedBefore(|job.functions|, true), h);
  }

  /**
   * End to end: whoever spends what a contract compiles to, without a finish
   * guard and without all guards of some continuation, has met all guards of
   * some then-function and spends by a transaction that is committed to.
   */
  lemma SpendsAreCommitted<M(!new)>(
    c: Contract, at: ContextView, emulator: Emulator, effects: EffectDb, out: Compiled<M>, ensured: Amount,
    compilePolicy: Clause -> Option<M>, sat: (M, World) -> bool, w: World)
    returns (i: nat, h: Hash)
    requires Correct(out, JobOf(c, at, emulator, effects), ensured, compilePolicy)
    requires PreservesMeaning(compilePolicy, sat) && AnyLeafSat(out.leaves, sat, w)
    requires var job := JobOf(c, at, emulator, effects);
             && !AnySat(job.FinishGuards(), w)
             && forall k :: ThenCount(c) <= k < |job.functions| && job.Included(k) ==> !AllSat(job.GuardsOf(k), w)
    ensures i < ThenCount(c) && i < |Functions(c)| && StandsFor(Functions(c)[i], Somes(c.thenFns)[i])
    ensures JobOf(c, at, emulator, effects).Included(i) && AllSat(JobOf(c, at, emulator, effects).GuardsOf(i), w)
    ensures h in out.ctvToTx && out.ctvToTx[h].ctv == h && AllSat(out.ctvToTx[h].guards, w)
    ensures emulator(h).Ok? && Sat(emulator(h).value, w)
  {
    var job := JobOf(c, at, emulator, effects);
    CompilationPreservesMeaning(out, job, ensured, compilePolicy, sat, w);
    i :| 0 <= i < |job.functions| && job.Included(i) && job.FunctionSat(i, w);
    ThenFunctionCommits(c, i);
    h := MeetsCommitment(out, job, ensured, compilePolicy, w, i);
  }

  // --------------------------------------------------- when a compilation succeeds

  /** A clause can be had of what is kept: a hash clause, or none for a suggestion without guards. */
  ghost predicate Usable(f: Callable, t: Template, emulator: Emulator) {
    if f.modifiesGuards then emulator(t.ctv).Ok? else t.guards == []
  }

  lemma UsableIff(f: Callable, t: Template, emulator: Emulator)
    ensures ExtractClause(f, t, emulator).Ok? <==> Usable(f, t, emulator)
  {
  }

  /** What a function adds can be compiled. */
  ghost predicate Compiles<M>(job: Job, i: nat, compilePolicy: Clause -> Option<M>)
    requires i < |job.functions| && job.Included(i)
  {
    var guards := Conjoin(job.GuardsOf(i));
    if job.functions[i].modifiesGuards
    then Combinable(job.VerdictOf(i).Nullable?,
                    ClausesOf(job.Proposed(i), job.ProposedBefore(i + 1, true), job.emulator), guards, compilePolicy)
    else CompilesFlat(guards, compilePolicy)
  }

  /** Each branch of the flattened policy can be compiled. */
  ghost predicate CompilesFlat<M>(policy: Clause, compilePolicy: Clause -> Option<M>) {
    forall k :: 0 <= k < |FlattenPolicy(policy)| ==> compilePolicy(FlattenPolicy(policy)[k]).Some?
  }

  /** Everything that was asked was answered, without errors among the templates. */
  ghost predicate AllAnswer(rs: seq<TxTmplIt>) {
    forall k :: 0 <= k < |rs| ==> rs[k].Ok? && AllOk(rs[k].value)
  }

  lemma {:induction false} JoinedOk(rs: seq<TxTmplIt>)
    requires forall k :: 0 <= k < |rs| ==> rs[k].Ok?
    ensures AllOk(Joined(rs)) <==> AllAnswer(rs)
  {
    if rs != [] {
      JoinedOk(rs[1..]);
      var first, rest := rs[0].value, Joined(rs[1..]);
      AllOkConcat(first, rest);
      assert forall k :: 1 <= k < |rs| ==> rs[k] == rs[1..][k - 1];
      if AllAnswer(rs[1..]) && AllOk(first) {
        forall k | 0 <= k < |rs| ensures rs[k].Ok? && AllOk(rs[k].value) {
          assert k > 0 ==> AllOk(rs[1..][k - 1].value);
        }
      }
      if AllAnswer(rs) {
        forall k | 0 <= k < |rs[1..]| ensures AllOk(rs[1..][k].value) {
          assert AllOk(rs[k + 1].value);
        }
      }
    }
  }

  lemma AllOkConcat(a: Items, b: Items)
    ensures AllOk(a + b) <==> AllOk(a) && AllOk(b)
  {
    if AllOk(a + b) {
      assert forall k :: 0 <= k < |a| ==> a[k] == (a + b)[k];
      assert forall k :: 0 <= k < |b| ==> b[k] == (a + b)[|a| + k];
    }
  }

  ghost predicate AllUsable(job: Job, i: nat)
    requires i < |job.functions|
  {
    var committed := job.functions[i].modifiesGuards;
    forall t :: t in job.Proposed(i) ==>
      var kept := First(job.ProposedBefore(i, committed) + job.Proposed(i), t.ctv);
      kept.Some? && Usable(job.functions[i], kept.value, job.emulator)
  }

  lemma CollectableIff(job: Job, i: nat, items: Items)
    requires i < |job.functions| && AllEffects(job.functions[i], job.EffectRoot(i), job.effects) == Ok(items)
    ensures Collectable(job.functions[i], items, job.ProposedBefore(i, job.functions[i].modifiesGuards), job.emulator)
            <==> AllOk(items) && AllUsable(job, i)
  {
    var f, before := job.functions[i], job.ProposedBefore(i, job.functions[i].modifiesGuards);
    if AllOk(items) {
      forall t | t in job.Proposed(i)
        ensures Extractable(f, First(before + job.Proposed(i), t.ctv), job.emulator) <==>
            First(before + job.Proposed(i), t.ctv).Some?
            && Usable(f, First(before + job.Proposed(i), t.ctv).value, job.emulator)
      {
        if First(before + job.Proposed(i), t.ctv).Some? {
          UsableIff(f, First(before + job.Proposed(i), t.ctv).value, job.emulator);
        }
      }
    }
  }

  /**
   * When a function that is not left out is accepted: it has one guard at
   * most, all that it is asked is answered, what is kept of its templates can
   * be used, and what it adds can be compiled.
   */
  lemma AcceptedIff<M>(job: Job, i: nat, compilePolicy: Clause -> Option<M>)
    requires i < |job.functions| && job.NameOf(i).Some? && !job.VerdictOf(i).Fail? && job.Included(i)
    ensures job.Accepted(i, compilePolicy) <==>
              && |job.functions[i].guards| <= 1
              && AllAnswer(AllAsked(job.functions[i], job.EffectRoot(i), job.effects))
              && AllUsable(job, i) && Compiles(job, i, compilePolicy)
  {
    var rs := AllAsked(job.functions[i], job.EffectRoot(i), job.effects);
    var items := AllEffects(job.functions[i], job.EffectRoot(i), job.effects);
    EffectsInOrder(job.functions[i], job.EffectRoot(i), job.effects);
    if items.Ok? {
      assert [] + Joined(rs) == Joined(rs);
      JoinedOk(rs);
      CollectableIff(job, i, items.value);
    }
    CompilesIff(job, i, compilePolicy);
  }

  lemma CompilesIff<M>(job: Job, i: nat, compilePolicy: Clause -> Option<M>)
    requires i < |job.functions| && job.Included(i)
    ensures job.LeavesOf(i, compilePolicy).Ok? <==> Compiles(job, i, compilePolicy)
  {
    var guards := Conjoin(job.GuardsOf(i));
    CompileAllInOrder(FlattenPolicy(guards), compilePolicy);
    CombineInOrder(job.VerdictOf(i).Nullable?,
        ClausesOf(job.Proposed(i), job.ProposedBefore(i + 1, true), job.emulator), guards, compilePolicy);
  }

  lemma StartsIff<M>(c: Contract, at: ContextView, job: Job, compilePolicy: Clause -> Option<M>)
    ensures Starts(c, at, job, compilePolicy) <==>
              && at.derived !! {Cloned, Action, FinishFn}
              && c.ensureAmount(ContextView(at.funds, Child(at.path, Cloned), {})).Ok?
              && job.AllAccepted(|job.functions|, compilePolicy)
              && forall j :: 0 <= j < |job.FinishGuards()| ==> CompilesFlat(job.FinishGuards()[j], compilePolicy)
  {
    CompileEachInOrder(job.FinishGuards(), compilePolicy);
  }

  lemma ConcludesIff<M>(c: Contract, at: ContextView, out: Compiled<M>,
      describe: Option<TapTrees.TapTree<M>> -> Option<nat>, weigh: Transaction -> nat)
    ensures Concludes(c, at, out, describe, weigh) <==>
              && Metadata !in at.derived
              && c.metadata(ContextView(at.funds, Child(at.path, Metadata), {})).Ok?
              && describe(out.tree).Some?
              && forall h :: h in out.ctvToTx ==>
                   Accountable(out.ctvToTx[h], out.amountMax, weigh(out.ctvToTx[h].tx) + describe(out.tree).value)
  {
    if describe(out.tree).Some? {
      AccountableIff(out.ctvToTx, out.amountMax, weigh, describe(out.tree).value);
    }
  }

  lemma AccountableIff(txns: map<Hash, Template>, max: Amount, weigh: Transaction -> nat, estimate: nat)
    ensures Covered(txns, max) && PassesFeerates(txns, max, weigh, estimate) <==>
              forall h :: h in txns ==> Accountable(txns[h], max, weigh(txns[h].tx) + estimate)
  {
  }

  /**
   * A compilation succeeds exactly with: the fragments that it derives itself
   * unused, the ensured amount and the metadata, all functions accepted, all
   * finish guards compiled, a descriptor, and no committed template that pays
   * out more than the maximum, or pays the minimum it declares.
   */
  lemma CompilationSucceedsIff<M>(c: Contract, at: ContextView, emulator: Emulator, effects: EffectDb,
      out: Compiled<M>, compilePolicy: Clause -> Option<M>, describe: Option<TapTrees.TapTree<M>> -> Option<nat>,
      weigh: Transaction -> nat)
    ensures var job := JobOf(c, at, emulator, effects);
            Starts(c, at, job, compilePolicy) && Concludes(c, at, out, describe, weigh) <==>
              && at.derived !! {Cloned, Action, FinishFn, Metadata}
              && c.ensureAmount(ContextView(at.funds, Child(at.path, Cloned), {})).Ok?
              && c.metadata(ContextView(at.funds, Child(at.path, Metadata), {})).Ok?
              && job.AllAccepted(|Functions(c)|, compilePolicy)
              && (forall j :: 0 <= j < |job.FinishGuards()| ==> CompilesFlat(job.FinishGuards()[j], compilePolicy))
              && describe(out.tree).Some?
              && forall h :: h in out.ctvToTx ==>
                   Accountable(out.ctvToTx[h], out.amountMax, weigh(out.ctvToTx[h].tx) + describe(out.tree).value)
  {
    StartsIff(c, at, JobOf(c, at, emulator, effects), compilePolicy);
    ConcludesIff(c, at, out, describe, weigh);
  }

  /** Whether the check lets a template pass: it is covered, and does not pay the minimum it declares. */
  ghost predicate Accountable(t: Template, max: Amount, size: nat) {
    && TotalAmount(t.outputs) <= max
    && (t.minFeerate.Some? ==> max - TotalAmount(t.outputs) < t.minFeerate.value * size)
  }

  /** The finish guards that are present compile, each to the leaves of its own flattened policy. */
  lemma {:induction false} CompileEachInOrder<M>(policies: seq<Clause>, compilePolicy: Clause -> Option<M>)
    ensures CompileEach(policies, compilePolicy).Ok? <==>
              forall j :: 0 <= j < |policies| ==> CompilesFlat(policies[j], compilePolicy)
  {
    if policies != [] {
      CompileAllInOrder(FlattenPolicy(policies[0]), compilePolicy);
      CompileEachInOrder(policies[1..], compilePolicy);
      if forall j :: 0 <= j < |policies| ==> CompilesFlat(policies[j], compilePolicy) {
        assert forall j :: 0 <= j < |policies[1..]| ==> policies[1..][j] == policies[j + 1];
      }
      if CompilesFlat(policies[0], compilePolicy) && CompileEach(policies[1..], compilePolicy).Ok? {
        assert forall j :: 1 <= j < |policies| ==> policies[j] == policies[1..][j - 1];
      }
    }
  }

  /** A job is its contract, compiled at its place with the given emulator and effects. */
  lemma ProposedByContract(c: Contract, at: ContextView, emulator: Emulator, effects: EffectDb, i: nat, t: Template)
    requires i < |Functions(c)|
    requires var job := JobOf(c, at, emulator, effects);
             AllAnswer(AllAsked(Functions(c)[i], job.EffectRoot(i), effects))
    ensures var job := JobOf(c, at, emulator, effects);
            var rs := AllAsked(Functions(c)[i], job.EffectRoot(i), effects);
            && job.EffectRoot(i).funds == at.funds
            && (job.NameOf(i).Some? ==> Fragments(at.path) < Fragments(job.EffectRoot(i).path))
            && (t in job.Proposed(i) <==> exists k :: 0 <= k < |rs| && rs[k].Ok? && Ok(t) in rs[k].value)
  {
    var job := JobOf(c, at, emulator, effects);
    var rs := AllAsked(Functions(c)[i], job.EffectRoot(i), effects);
    EffectsInOrder(Functions(c)[i], job.EffectRoot(i), effects);
    JoinedOk(rs);
    assert [] + Joined(rs) == Joined(rs);
    ProposedIff(job, i, t);
    if job.NameOf(i).Some? {
      PlacesOfFunction(job, i);
    }
  }
}
