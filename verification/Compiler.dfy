/**
 * The contract compiler: from guards, then-functions and continuations to the
 * leaves of a script tree and a map of committed templates.
 */
module Compiler {
  import opened Sequences
  import opened Wrappers
  import opened Policies
  import opened EffectPaths
  import opened Contexts
  import opened Templates
  import Cond = ConditionalCompile
  import opened Guards
  import TapTrees

  // ------------------------------------------------------------ the contract

  type Json = string

  /** The templates a function proposes; any of them may be an error. */
  type Items = seq<Result<Template, CompilationError>>

  type TxTmplIt = Result<Items, CompilationError>

  /** Yields the clause that stands for a template hash. */
  type Emulator = Hash -> Result<Clause, CompilationError>

  /** A function of a contract as the compiler calls it. */
  datatype Callable = Callable(
    name: string,
    guards: seq<GuardFn>,
    conditions: seq<Option<Cond.Condition>>,
    modifiesGuards: bool,
    webApi: bool,
    call: ContextView -> TxTmplIt,
    callJson: (ContextView, Json) -> TxTmplIt)

  datatype ThenFunc = ThenFunc(
    name: string,
    guards: seq<GuardFn>,
    conditions: seq<Option<Cond.Condition>>,
    func: ContextView -> TxTmplIt)

  /** A then-function commits to what it returns and has no web interface. */
  function FromThen(f: ThenFunc): Callable {
    Callable(f.name, f.guards, f.conditions, true, false, f.func, (c, j) => Err(WebApiDisabled))
  }

  datatype Contract = Contract(
    thenFns: seq<Option<ThenFunc>>,
    finishOrFns: seq<Option<Callable>>,
    finishFns: seq<GuardFn>,
    guards: GuardTable,
    ensureAmount: ContextView -> Result<Amount, CompilationError>,
    metadata: ContextView -> Result<(), CompilationError>)

  ghost predicate DistinctKeys(s: seq<(string, Json)>) {
    forall i, j :: 0 <= i < j < |s| ==> s[i].0 != s[j].0
  }

  /** The effects recorded for one path, in the order of their names. */
  type EffectMap = s: seq<(string, Json)> | DistinctKeys(s) witness []

  type EffectDb = map<ReversePath, EffectMap>

  function EffectsAt(db: EffectDb, path: ReversePath): EffectMap {
    if path in db then db[path] else []
  }

  function FromThens(fs: seq<Option<ThenFunc>>): seq<Option<Callable>> {
    if fs == [] then []
    else [if fs[0].Some? then Some(FromThen(fs[0].value)) else None] + FromThens(fs[1..])
  }

  /** Then-functions first, then continuations; absent ones are skipped. */
  function Functions(c: Contract): seq<Callable> {
    Somes(FromThens(c.thenFns)) + Somes(c.finishOrFns)
  }

  // ----------------------------------------------------------------- renaming

  function Fallback(name: string): string {
    name + "_renamed_0"
  }

  /** The name handed out for `name`, if the search for one ends. */
  function Renamed(used: set<string>, name: string): Option<string> {
    if name !in used then Some(name)
    else if Fallback(name) !in used then Some(Fallback(name))
    else None
  }

  /** One pass of the naming loop: the next candidate, or None when it returns. */
  function NamingPass(used: set<string>, name: string, candidate: string): Option<string> {
    if candidate !in used then None else Some(Fallback(name))
  }

  /** Whether the naming loop has returned after `n` passes. */
  function NamingEnds(used: set<string>, name: string, candidate: string, n: nat): bool
    decreases n
  {
    if n == 0 then false
    else
      match NamingPass(used, name, candidate)
      case None => true
      case Some(next) => NamingEnds(used, name, next, n - 1)
  }

  lemma {:induction false} StuckForever(used: set<string>, name: string, n: nat)
    requires Fallback(name) in used
    ensures !NamingEnds(used, name, Fallback(name), n)
    decreases n
  {
    if n > 0 {
      StuckForever(used, name, n - 1);
    }
  }

  ghost predicate NamingReturns(used: set<string>, name: string) {
    exists n: nat :: NamingEnds(used, name, name, n)
  }

  /**
   * The counter in a fallback name never advances, so the naming loop ends
   * exactly when the name or its one fallback is free.
   */
  lemma NamingEndsIffFree(used: set<string>, name: string)
    ensures NamingReturns(used, name) <==> name !in used || Fallback(name) !in used
    ensures Renamed(used, name).Some? <==> NamingReturns(used, name)
  {
    if name !in used {
      assert NamingEnds(used, name, name, 1);
    } else if Fallback(name) !in used {
      assert NamingEnds(used, name, Fallback(name), 1);
      assert NamingEnds(used, name, name, 1 + 1);
    } else {
      forall n: nat ensures !NamingEnds(used, name, name, n) {
        if n > 0 {
          StuckForever(used, name, n - 1);
        }
      }
    }
  }

  class Renamer {
    var usedNames: set<string>

    constructor ()
      ensures usedNames == {}
    {
      usedNames := {};
    }

    /** A name not handed out before; None stands for a search that never ends. */
    method GetName(a: string) returns (r: Option<string>)
      modifies this
      ensures r == Renamed(old(usedNames), a)
      ensures usedNames == old(usedNames) + if r.Some? then {r.value} else {}
      ensures r.Some? ==> r.value !in old(usedNames)
    {
      var name := a;
      while name in usedNames
        invariant usedNames == old(usedNames)
        invariant name == a || (a in usedNames && name == Fallback(a))
        decreases name == a
      {
        if name == Fallback(a) {
          return None;
        }
        name := Fallback(a);
      }
      usedNames := usedNames + {name};
      r := Some(name);
    }
  }

  // ------------------------------------------------------------------ effects

  function FoldEffects(f: Callable, top: ContextView, acc: Items, args: seq<(string, Json)>): TxTmplIt
    decreases |args|
  {
    if args == [] then Ok(acc)
    else
      var more :- f.callJson(ContextView(top.funds, Child(Child(top.path, Effects), Named(args[0].0)), {}), args[0].1);
      FoldEffects(f, top, acc + more, args[1..])
  }

  /** The default expansion, followed by one for each recorded effect. */
  function AllEffects(f: Callable, top: ContextView, db: EffectDb): TxTmplIt {
    var def :- f.call(ContextView(top.funds, Child(top.path, DefaultEffect), {}));
    if !f.webApi then Ok(def) else FoldEffects(f, top, def, EffectsAt(db, top.path))
  }

  method ComputeAllEffects(top: Context, f: Callable, db: EffectDb) returns (r: TxTmplIt)
    requires top.alreadyDerived == {}
    modifies top`alreadyDerived
    ensures r == AllEffects(f, ContextView(top.availableFunds, top.path, {}), db)
  {
    var defaultCtx := top.Derive(DefaultEffect);
    var def := f.call(ContextView(defaultCtx.value.availableFunds, defaultCtx.value.path,
        defaultCtx.value.alreadyDerived));
    if def.Err? || !f.webApi {
      return def;
    }
    var applied := top.Derive(Effects);
    var ctx := applied.value;
    var acc := def.value;
    var args := EffectsAt(db, top.path);
    ghost var view := ContextView(top.availableFunds, top.path, {});
    for i := 0 to |args|
      invariant fresh(ctx) && ctx.availableFunds == top.availableFunds && ctx.path == Child(top.path, Effects)
      invariant forall g :: g in ctx.alreadyDerived ==> exists j :: 0 <= j < i && g == Named(args[j].0)
      invariant FoldEffects(f, view, acc, args[i..]) == FoldEffects(f, view, def.value, args)
    {
      var c := ctx.Derive(Named(args[i].0));
      var more := f.callJson(ContextView(c.value.availableFunds, c.value.path, c.value.alreadyDerived), args[i].1);
      assert args[i..][1..] == args[i + 1..];
      if more.Err? {
        return Err(more.error);
      }
      acc := acc + more.value;
    }
    r := Ok(acc);
  }

  // ---------------------------------------------------------------- templates

  /** The clause a then-function's template adds: its own guards and its hash. */
  function CtvClause(t: Template, emulator: Emulator): Result<Option<Clause>, CompilationError> {
    var c :- emulator(t.ctv);
    Ok(Some(if t.guards == [] then c else And(t.guards + [c])))
  }

  /** A continuation's templates are only suggested and must carry no guards. */
  function NoClause(t: Template): Result<Option<Clause>, CompilationError> {
    if t.guards != [] then Err(AdditionalGuardsNotAllowedHere) else Ok(None)
  }

  function ExtractClause(f: Callable, t: Template, emulator: Emulator): Result<Option<Clause>, CompilationError> {
    if f.modifiesGuards then CtvClause(t, emulator) else NoClause(t)
  }

  /** The template that is kept for a hash: the first one proposed. */
  function First(ts: seq<Template>, h: Hash): Option<Template> {
    if ts == [] then None
    else if ts[0].ctv == h then Some(ts[0])
    else First(ts[1..], h)
  }

  lemma {:induction false} FirstConcat(a: seq<Template>, b: seq<Template>, h: Hash)
    ensures First(a + b, h) == if First(a, h).Some? then First(a, h) else First(b, h)
  {
    if a == [] {
      assert a + b == b;
    } else {
      assert (a + b)[1..] == a[1..] + b;
      FirstConcat(a[1..], b, h);
    }
  }

  lemma {:induction false} FirstOfMember(ts: seq<Template>, h: Hash)
    ensures First(ts, h).Some? <==> exists t :: t in ts && t.ctv == h
    ensures First(ts, h).Some? ==> First(ts, h).value in ts && First(ts, h).value.ctv == h
  {
    if ts != [] {
      FirstOfMember(ts[1..], h);
      assert forall t :: t in ts <==> t == ts[0] || t in ts[1..];
    }
  }

  /** The map holds exactly the first template of each proposed hash. */
  ghost predicate KeepsFirst(m: map<Hash, Template>, ts: seq<Template>) {
    forall h :: (h in m <==> First(ts, h).Some?) && (h in m ==> First(ts, h) == Some(m[h]))
  }

  function MaxAmount(a: Amount, b: Amount): Amount {
    if a < b then b else a
  }

  /** The running maximum over some templates. */
  function MaxOver(m: Amount, ts: seq<Template>): Amount {
    if ts == [] then m else MaxAmount(MaxOver(m, ts[..|ts| - 1]), ts[|ts| - 1].max)
  }

  /** The greatest of `least` and the maxima of some templates. */
  ghost predicate IsMax(m: Amount, least: Amount, ts: seq<Template>) {
    && least <= m
    && (forall t :: t in ts ==> t.max <= m)
    && (m == least || exists t :: t in ts && t.max == m)
  }

  lemma {:induction false} MaxOverIsMax(m: Amount, ts: seq<Template>)
    ensures IsMax(MaxOver(m, ts), m, ts)
  {
    if ts != [] {
      var n := |ts| - 1;
      MaxOverIsMax(m, ts[..n]);
      assert ts == ts[..n] + [ts[n]];
      assert forall t :: t in ts <==> t in ts[..n] || t == ts[n];
    }
  }

  /** The same for two kinds of templates, committed and suggested ones. */
  ghost predicate IsMaxOfBoth(m: Amount, least: Amount, committed: seq<Template>, other: seq<Template>) {
    && least <= m
    && (forall t :: t in committed ==> t.max <= m)
    && (forall t :: t in other ==> t.max <= m)
    && (m == least || (exists t :: t in committed && t.max == m) || exists t :: t in other && t.max == m)
  }

  lemma MaxOfMore(m: Amount, least: Amount, committed: seq<Template>, other: seq<Template>, more: seq<Template>)
    requires IsMaxOfBoth(m, least, committed, other)
    ensures IsMaxOfBoth(MaxOver(m, more), least, committed + more, other)
    ensures IsMaxOfBoth(MaxOver(m, more), least, committed, other + more)
  {
    MaxOverIsMax(m, more);
    assert forall t :: t in committed + more <==> t in committed || t in more;
    assert forall t :: t in other + more <==> t in other || t in more;
  }

  predicate AllOk(items: Items) {
    forall k :: 0 <= k < |items| ==> items[k].Ok?
  }

  /** The templates that were returned, if none of them is an error. */
  function Returned(items: Items): seq<Template> {
    if AllOk(items) then seq(|items|, k requires 0 <= k < |items| => items[k].value) else []
  }

  /** What one satisfied template amounts to: its guards and its committed hash. */
  ghost predicate TemplateSat(t: Template, emulator: Emulator, w: World) {
    AllSat(t.guards, w) && emulator(t.ctv).Ok? && Sat(emulator(t.ctv).value, w)
  }

  lemma CtvClauseMeaning(t: Template, emulator: Emulator, w: World)
    requires CtvClause(t, emulator).Ok?
    ensures CtvClause(t, emulator).value.Some?
    ensures Sat(CtvClause(t, emulator).value.value, w) <==> TemplateSat(t, emulator, w)
  {
    var c := emulator(t.ctv).value;
    var all := t.guards + [c];
    if t.guards != [] && Sat(And(all), w) {
      assert all[|t.guards|] == c;
      forall i | 0 <= i < |t.guards| ensures Sat(t.guards[i], w) {
        assert all[i] == t.guards[i];
      }
    }
  }

  /** Some proposed template is satisfied, as the first of its hash. */
  ghost predicate SomeTemplateSat(ts: seq<Template>, all: seq<Template>, emulator: Emulator, w: World) {
    exists t :: t in ts && First(all, t.ctv).Some? && TemplateSat(First(all, t.ctv).value, emulator, w)
  }

  /** Whether a clause can be extracted from the template that was kept. */
  ghost predicate Extractable(f: Callable, kept: Option<Template>, emulator: Emulator) {
    kept.Some? && ExtractClause(f, kept.value, emulator).Ok?
  }

  /** What a function must return so that its clauses can be collected. */
  ghost predicate Collectable(
    f: Callable, items: Items, before: seq<Template>,
    emulator: Emulator)
  {
    && AllOk(items)
    && forall t :: t in Returned(items) ==> Extractable(f, First(before + Returned(items), t.ctv), emulator)
  }

  /** The clause of a proposed template: that of the first one of its hash. */
  function ClauseFor(t: Template, all: seq<Template>, emulator: Emulator): Clause {
    match First(all, t.ctv)
    case None => Unsatisfiable
    case Some(kept) =>
      match CtvClause(kept, emulator)
      case Ok(Some(c)) => c
      case _ => Unsatisfiable
  }

  function ClausesOf(ts: seq<Template>, all: seq<Template>, emulator: Emulator): (r: seq<Clause>)
    ensures |r| == |ts|
  {
    if ts == [] then [] else ClausesOf(ts[..|ts| - 1], all, emulator) + [ClauseFor(ts[|ts| - 1], all, emulator)]
  }

  /** What comes after the first template of a hash does not matter. */
  lemma FirstOfPrefix(a: seq<Template>, b: seq<Template>, h: Hash)
    requires First(a, h).Some?
    ensures First(a + b, h) == First(a, h)
  {
    FirstConcat(a, b, h);
  }

  lemma FirstOfLonger(a: seq<Template>, b: seq<Template>, h: Hash)
    requires a <= b && First(a, h).Some?
    ensures First(b, h) == First(a, h)
  {
    FirstOfPrefix(a, b[|a|..], h);
    assert a + b[|a|..] == b;
  }

  ghost predicate AllKept(ts: seq<Template>, all: seq<Template>) {
    forall t :: t in ts ==> First(all, t.ctv).Some?
  }

  lemma MembersKept(ts: seq<Template>, before: seq<Template>)
    ensures AllKept(ts, before + ts)
  {
    forall t | t in ts ensures First(before + ts, t.ctv).Some? {
      assert t in before + ts;
      FirstOfMember(before + ts, t.ctv);
    }
  }

  lemma {:induction false} ClausesStable(ts: seq<Template>, all: seq<Template>, more: seq<Template>, emulator: Emulator)
    requires AllKept(ts, all)
    ensures ClausesOf(ts, all + more, emulator) == ClausesOf(ts, all, emulator)
    decreases |ts|
  {
    if ts != [] {
      var n := |ts| - 1;
      assert ts[n] in ts;
      FirstOfPrefix(all, more, ts[n].ctv);
      ClausesStable(ts[..n], all, more, emulator);
    }
  }

  lemma ClausesNext(seen: seq<Template>, before: seq<Template>, t: Template, emulator: Emulator)
    ensures ClausesOf(seen + [t], before + (seen + [t]), emulator)
         == ClausesOf(seen, before + seen, emulator) + [ClauseFor(t, before + (seen + [t]), emulator)]
  {
    MembersKept(seen, before);
    ClausesStable(seen, before + seen, [t], emulator);
    ConcatAssociative(before, seen, [t]);
    assert (seen + [t])[..|seen|] == seen;
  }

  /** The collected clauses mean: some proposed template, as it was kept. */
  lemma {:induction false} ClausesMeaning(ts: seq<Template>, all: seq<Template>, emulator: Emulator, w: World)
    requires forall t :: t in ts ==> First(all, t.ctv).Some? && CtvClause(First(all, t.ctv).value, emulator).Ok?
    ensures AnySat(ClausesOf(ts, all, emulator), w) <==> SomeTemplateSat(ts, all, emulator, w)
    decreases |ts|
  {
    if ts != [] {
      var n := |ts| - 1;
      var rest, t := ts[..n], ts[n];
      assert ts == rest + [t] && t in ts;
      assert forall s :: s in ts <==> s in rest || s == t;
      ClausesMeaning(rest, all, emulator, w);
      CtvClauseMeaning(First(all, t.ctv).value, emulator, w);
      AnySatConcat(ClausesOf(rest, all, emulator), [ClauseFor(t, all, emulator)], w);
      AnySatOne(ClauseFor(t, all, emulator), w);
    }
  }

  lemma AnySatOne(c: Clause, w: World)
    ensures AnySat([c], w) <==> Sat(c, w)
  {
    assert [c][0] == c;
  }

  /** The state of the collecting loop: what was seen is kept and extracted. */
  ghost predicate Collected(
    f: Callable, seen: seq<Template>, before: seq<Template>, txns: map<Hash, Template>, clauses: seq<Clause>,
    emulator: Emulator)
  {
    && KeepsFirst(txns, before + seen)
    && (forall t :: t in seen ==> Extractable(f, First(before + seen, t.ctv), emulator))
    && (f.modifiesGuards ==> clauses == ClausesOf(seen, before + seen, emulator))
  }

  lemma NothingCollected(f: Callable, before: seq<Template>, txns: map<Hash, Template>, emulator: Emulator)
    requires KeepsFirst(txns, before)
    ensures Collected(f, [], before, txns, [], emulator)
  {
    assert before + [] == before;
  }

  function WithClause(clauses: seq<Clause>, extracted: Option<Clause>): seq<Clause> {
    if extracted.Some? then clauses + [extracted.value] else clauses
  }

  function Recorded(txns: map<Hash, Template>, t: Template): map<Hash, Template> {
    if t.ctv in txns then txns else txns[t.ctv := t]
  }

  lemma RecordFirst(m: map<Hash, Template>, ts: seq<Template>, t: Template)
    requires KeepsFirst(m, ts)
    ensures KeepsFirst(Recorded(m, t), ts + [t])
  {
    forall h ensures First(ts + [t], h) ==
                       if First(ts, h).Some? then First(ts, h) else if h == t.ctv then Some(t) else None {
      FirstConcat(ts, [t], h);
      assert First([t][1..], h) == None;
    }
  }

  lemma CollectsNext(
    f: Callable, seen: seq<Template>, before: seq<Template>, txns: map<Hash, Template>, clauses: seq<Clause>,
    emulator: Emulator, t: Template)
    requires Collected(f, seen, before, txns, clauses, emulator)
    ensures KeepsFirst(Recorded(txns, t), before + (seen + [t])) && t.ctv in Recorded(txns, t)
    ensures ExtractClause(f, Recorded(txns, t)[t.ctv], emulator).Ok? ==>
              Collected(f, seen + [t], before, Recorded(txns, t),
                        WithClause(clauses, ExtractClause(f, Recorded(txns, t)[t.ctv], emulator).value), emulator)
  {
    var txns' := Recorded(txns, t);
    ConcatAssociative(before, seen, [t]);
    RecordFirst(txns, before + seen, t);
    ClausesNext(seen, before, t, emulator);
    if ExtractClause(f, txns'[t.ctv], emulator).Ok? {
      forall s | s in seen + [t] ensures Extractable(f, First(before + (seen + [t]), s.ctv), emulator) {
        if s in seen {
          FirstOfPrefix(before + seen, [t], s.ctv);
        }
      }
    }
  }

  /** The templates that the loop has seen after `i` results. */
  ghost predicate Seen(seen: seq<Template>, items: Items, i: nat) {
    |seen| == i <= |items| && forall k :: 0 <= k < i ==> items[k] == Ok(seen[k])
  }

  lemma NotExtractable(
    f: Callable, items: Items, before: seq<Template>, seen: seq<Template>, t: Template,
    emulator: Emulator)
    requires Seen(seen + [t], items, |seen| + 1) && First(before + (seen + [t]), t.ctv).Some?
    requires ExtractClause(f, First(before + (seen + [t]), t.ctv).value, emulator).Err?
    ensures !Collectable(f, items, before, emulator)
  {
    if AllOk(items) {
      var upTo, rest := seen + [t], Returned(items)[|seen| + 1..];
      assert Returned(items) == upTo + rest;
      ConcatAssociative(before, upTo, rest);
      FirstOfPrefix(before + upTo, rest, t.ctv);
      assert upTo[|seen|] == t && t in Returned(items);
    }
  }

  /**
   * Records proposed templates, the first of each hash winning, and collects
   * the clauses they add.
   */
  method CollectClauses(
    f: Callable, items: Items, emulator: Emulator,
    txns: map<Hash, Template>, range: Amount, ghost before: seq<Template>)
    returns (r: Result<seq<Clause>, CompilationError>, txns': map<Hash, Template>, range': Amount)
    requires KeepsFirst(txns, before)
    ensures r.Ok? <==> Collectable(f, items, before, emulator)
    ensures r.Ok? ==> KeepsFirst(txns', before + Returned(items)) && range' == MaxOver(range, Returned(items))
    ensures r.Ok? && f.modifiesGuards ==> r.value == ClausesOf(Returned(items), before + Returned(items), emulator)
  {
    var clauses: seq<Clause> := [];
    txns', range' := txns, range;
    ghost var seen: seq<Template> := [];
    NothingCollected(f, before, txns, emulator);
    for i := 0 to |items|
      invariant Seen(seen, items, i)
      invariant Collected(f, seen, before, txns', clauses, emulator)
      invariant range' == MaxOver(range, seen)
    {
      if items[i].Err? {
        return Err(items[i].error), txns', range';
      }
      var t := items[i].value;
      CollectsNext(f, seen, before, txns', clauses, emulator, t);
      range' := MaxAmount(range', t.max);
      txns' := Recorded(txns', t);
      var extracted := ExtractClause(f, txns'[t.ctv], emulator);
      if extracted.Err? {
        NotExtractable(f, items, before, seen, t, emulator);
        return Err(extracted.error), txns', range';
      }
      clauses := WithClause(clauses, extracted.value);
      assert (seen + [t])[..|seen|] == seen;
      seen := seen + [t];
    }
    assert seen == Returned(items);
    r := Ok(clauses);
  }

  // ------------------------------------------------------------------- leaves

  function CompileAll<M>(cs: seq<Clause>, compilePolicy: Clause -> Option<M>): Result<seq<M>, CompilationError> {
    if cs == [] then Ok([])
    else
      match compilePolicy(cs[0])
      case None => Err(PolicyNotCompilable)
      case Some(m) =>
        var rest :- CompileAll(cs[1..], compilePolicy);
        Ok([m] + rest)
  }

  function FlattenAndCompile<M>(guards: Clause, compilePolicy: Clause -> Option<M>): Result<seq<M>, CompilationError> {
    CompileAll(FlattenPolicy(guards), compilePolicy)
  }

  function GuardEach(guards: Clause, cs: seq<Clause>): seq<Clause> {
    if cs == [] then [] else [And([guards, cs[0]])] + GuardEach(guards, cs[1..])
  }

  /** The leaves of a then-function. The order of the cases is significant. */
  function CombineTxtmpls<M>(nullable: bool, clauses: seq<Clause>, guards: Clause,
      compilePolicy: Clause -> Option<M>): Result<seq<M>, CompilationError> {
    if nullable && clauses == [] then Ok([])
    else if clauses != [] && guards == Unsatisfiable then Err(MissingTemplates)
    else if !nullable && clauses == [] then Err(MissingTemplates)
    else if guards == Trivial then CompileAll(clauses, compilePolicy)
    else CompileAll(GuardEach(guards, clauses), compilePolicy)
  }

  ghost predicate AnyLeafSat<M(!new)>(leaves: seq<M>, sat: (M, World) -> bool, w: World) {
    exists i :: 0 <= i < |leaves| && sat(leaves[i], w)
  }

  /** What is asked of the script compiler: its output means its input. */
  ghost predicate PreservesMeaning<M(!new)>(compilePolicy: Clause -> Option<M>, sat: (M, World) -> bool) {
    forall p, w :: compilePolicy(p).Some? ==> (sat(compilePolicy(p).value, w) <==> Sat(p, w))
  }

  lemma AnyLeafSatConcat<M(!new)>(a: seq<M>, b: seq<M>, sat: (M, World) -> bool, w: World)
    ensures AnyLeafSat(a + b, sat, w) <==> AnyLeafSat(a, sat, w) || AnyLeafSat(b, sat, w)
  {
    if i :| 0 <= i < |a| && sat(a[i], w) {
      assert (a + b)[i] == a[i];
    }
    if i :| 0 <= i < |b| && sat(b[i], w) {
      assert (a + b)[|a| + i] == b[i];
    }
  }

  lemma {:induction false} CompileAllMeaning<M(!new)>(cs: seq<Clause>, compilePolicy: Clause -> Option<M>,
      sat: (M, World) -> bool, w: World)
    requires PreservesMeaning(compilePolicy, sat) && CompileAll(cs, compilePolicy).Ok?
    ensures AnyLeafSat(CompileAll(cs, compilePolicy).value, sat, w) <==> AnySat(cs, w)
  {
    if cs != [] {
      var m := compilePolicy(cs[0]).value;
      CompileAllMeaning(cs[1..], compilePolicy, sat, w);
      AnyLeafSatConcat([m], CompileAll(cs[1..], compilePolicy).value, sat, w);
      AnySatConcat([cs[0]], cs[1..], w);
      assert [cs[0]] + cs[1..] == cs;
      assert [m][0] == m;
      assert AnyLeafSat([m], sat, w) <==> sat(m, w);
      AnySatOne(cs[0], w);
    }
  }

  lemma FlattenAndCompileMeaning<M(!new)>(guards: Clause, compilePolicy: Clause -> Option<M>,
      sat: (M, World) -> bool, w: World)
    requires PreservesMeaning(compilePolicy, sat) && FlattenAndCompile(guards, compilePolicy).Ok?
    ensures AnyLeafSat(FlattenAndCompile(guards, compilePolicy).value, sat, w) <==> Sat(guards, w)
  {
    CompileAllMeaning(FlattenPolicy(guards), compilePolicy, sat, w);
    FlattenPreservesMeaning(guards, w);
  }

  lemma {:induction false} GuardEachMeaning(guards: Clause, cs: seq<Clause>, w: World)
    ensures AnySat(GuardEach(guards, cs), w) <==> Sat(guards, w) && AnySat(cs, w)
  {
    if cs != [] {
      GuardEachMeaning(guards, cs[1..], w);
      var both := And([guards, cs[0]]);
      assert Sat(both, w) <==> Sat(guards, w) && Sat(cs[0], w) by {
        assert both.all[0] == guards && both.all[1] == cs[0];
      }
      AnySatConcat([both], GuardEach(guards, cs[1..]), w);
      AnySatConcat([cs[0]], cs[1..], w);
      assert [cs[0]] + cs[1..] == cs;
      AnySatOne(both, w);
      AnySatOne(cs[0], w);
    }
  }

  /** Whatever case applies, the leaves mean: the guards and one of the clauses. */
  lemma CombineMeaning<M(!new)>(nullable: bool, clauses: seq<Clause>, guards: Clause,
      compilePolicy: Clause -> Option<M>, sat: (M, World) -> bool, w: World)
    requires PreservesMeaning(compilePolicy, sat) && CombineTxtmpls(nullable, clauses, guards, compilePolicy).Ok?
    ensures AnyLeafSat(CombineTxtmpls(nullable, clauses, guards, compilePolicy).value, sat, w)
            <==> Sat(guards, w) && AnySat(clauses, w)
  {
    if clauses != [] {
      if guards == Trivial {
        CompileAllMeaning(clauses, compilePolicy, sat, w);
      } else {
        CompileAllMeaning(GuardEach(guards, clauses), compilePolicy, sat, w);
        GuardEachMeaning(guards, clauses, w);
      }
    }
  }

  /** The leaves of the finish guards. */
  function CompileEach<M>(policies: seq<Clause>, compilePolicy: Clause -> Option<M>): Result<seq<M>, CompilationError> {
    if policies == [] then Ok([])
    else
      var first :- FlattenAndCompile(policies[0], compilePolicy);
      var rest :- CompileEach(policies[1..], compilePolicy);
      Ok(first + rest)
  }

  lemma {:induction false} CompileEachMeaning<M(!new)>(policies: seq<Clause>, compilePolicy: Clause -> Option<M>,
      sat: (M, World) -> bool, w: World)
    requires PreservesMeaning(compilePolicy, sat) && CompileEach(policies, compilePolicy).Ok?
    ensures AnyLeafSat(CompileEach(policies, compilePolicy).value, sat, w) <==> AnySat(policies, w)
  {
    if policies != [] {
      FlattenAndCompileMeaning(policies[0], compilePolicy, sat, w);
      CompileEachMeaning(policies[1..], compilePolicy, sat, w);
      AnyLeafSatConcat(FlattenAndCompile(policies[0], compilePolicy).value,
          CompileEach(policies[1..], compilePolicy).value, sat, w);
      AnySatConcat([policies[0]], policies[1..], w);
      assert [policies[0]] + policies[1..] == policies;
      AnySatOne(policies[0], w);
    }
  }

  // --------------------------------------------- what a compilation must mean

  /** A contract together with the place and the surroundings it is compiled in. */
  datatype Job = Job(
    functions: seq<Callable>,
    finishFns: seq<GuardFn>,
    guards: GuardTable,
    funds: Amount,
    root: ReversePath,
    emulator: Emulator,
    effects: EffectDb)
  {
    /** The names handed out to the functions before the i-th. */
    ghost function NamesBefore(i: nat): set<string>
      requires i <= |functions|
      decreases i, 0
    {
      if i == 0 then {} else
        NamesBefore(i - 1) + if NameOf(i - 1).Some? then {NameOf(i - 1).value} else {}
    }

    ghost function NameOf(i: nat): Option<string>
      requires i < |functions|
      decreases i, 1
    {
      Renamed(NamesBefore(i), functions[i].name)
    }

    ghost function PathOf(i: nat): ReversePath
      requires i < |functions|
    {
      Child(Child(root, Action), Named(if NameOf(i).Some? then NameOf(i).value else ""))
    }

    ghost function VerdictOf(i: nat): Cond.CompileType
      requires i < |functions|
    {
      Cond.MergeAll(Cond.NoConstraint,
        Cond.Verdicts(functions[i].conditions, funds, Child(PathOf(i), CondCompIf), 0))
    }

    /** Skippable functions and those that must never be used are left out. */
    ghost predicate Included(i: nat)
      requires i < |functions|
    {
      !VerdictOf(i).Skippable? && !VerdictOf(i).Never?
    }

    /** The guard uses of the functions before the i-th, in order. */
    ghost function UsesBefore(i: nat): seq<Request>
      requires i <= |functions|
    {
      if i == 0 then []
      else if !Included(i - 1) then UsesBefore(i - 1)
      else
        UsesBefore(i - 1)
        + RequestsAt(functions[i - 1].guards, funds, Child(PathOf(i - 1), PathFragment.Guard), 0, {})
    }

    /** The guard clauses of the i-th function, as the cache answers them. */
    ghost function GuardsOf(i: nat): seq<Clause>
      requires i < |functions| && Included(i)
    {
      Somes(Answers(guards, UsesBefore(i + 1), |UsesBefore(i)|, |UsesBefore(i + 1)|))
    }

    ghost function EffectRoot(i: nat): ContextView
      requires i < |functions|
    {
      ContextView(funds, Child(PathOf(i), if functions[i].modifiesGuards then Next else Suggested), {})
    }

    /** The templates that the i-th function proposes. */
    ghost function Proposed(i: nat): seq<Template>
      requires i < |functions|
    {
      var items := AllEffects(functions[i], EffectRoot(i), effects);
      if items.Ok? then Returned(items.value) else []
    }

    /** The templates proposed before the i-th function by those of one kind. */
    ghost function ProposedBefore(i: nat, committed: bool): seq<Template>
      requires i <= |functions|
    {
      if i == 0 then []
      else if !Included(i - 1) || functions[i - 1].modifiesGuards != committed then ProposedBefore(i - 1, committed)
      else ProposedBefore(i - 1, committed) + Proposed(i - 1)
    }

    /** The maximum after the first `n` functions, starting from the ensured amount. */
    ghost function MaxBefore(n: nat, ensured: Amount): Amount
      requires n <= |functions|
    {
      if n == 0 then ensured
      else if !Included(n - 1) then MaxBefore(n - 1, ensured)
      else MaxOver(MaxBefore(n - 1, ensured), Proposed(n - 1))
    }

    ghost function FinishUses(): seq<Request> {
      UsesBefore(|functions|) + RequestsAt(finishFns, funds, Child(root, FinishFn), 0, {Metadata})
    }

    ghost function FinishGuards(): seq<Clause> {
      Somes(Answers(guards, FinishUses(), |UsesBefore(|functions|)|, |FinishUses()|))
    }

    /** The leaves of the i-th function, if its policies compile. */
    ghost function LeavesOf<M>(i: nat, compilePolicy: Clause -> Option<M>): Result<seq<M>, CompilationError>
      requires i < |functions| && Included(i)
    {
      var guards := Conjoin(GuardsOf(i));
      if !functions[i].modifiesGuards then FlattenAndCompile(guards, compilePolicy)
      else CombineTxtmpls(VerdictOf(i).Nullable?, ClausesOf(Proposed(i), ProposedBefore(i + 1, true), emulator),
          guards, compilePolicy)
    }

    /** The search for a name, or for the contexts of the guards, never ends. */
    ghost predicate Hangs(i: nat)
      requires i < |functions|
    {
      NameOf(i).None? || (!VerdictOf(i).Fail? && Included(i) && |functions[i].guards| >= 2)
    }

    /** The i-th function can be named, judged, guarded, called and compiled. */
    ghost predicate Accepted<M>(i: nat, compilePolicy: Clause -> Option<M>)
      requires i < |functions|
    {
      && NameOf(i).Some? && !VerdictOf(i).Fail?
      && (Included(i) ==>
            var items := AllEffects(functions[i], EffectRoot(i), effects);
            && |functions[i].guards| <= 1
            && items.Ok?
            && Collectable(functions[i], items.value, ProposedBefore(i, functions[i].modifiesGuards), emulator)
            && LeavesOf(i, compilePolicy).Ok?)
    }

    ghost predicate AllAccepted<M>(n: nat, compilePolicy: Clause -> Option<M>)
      requires n <= |functions|
    {
      forall k :: 0 <= k < n ==> Accepted(k, compilePolicy)
    }

    /** What the i-th function adds to the leaves: nothing if it is left out. */
    ghost function LeavesAdded<M>(i: nat, compilePolicy: Clause -> Option<M>): seq<M>
      requires i < |functions|
    {
      if Included(i) && LeavesOf(i, compilePolicy).Ok? then LeavesOf(i, compilePolicy).value else []
    }

    /** The compilation reaches a function that makes it run forever. */
    ghost predicate RunsForever<M>(compilePolicy: Clause -> Option<M>) {
      exists i :: 0 <= i < |functions| && AllAccepted(i, compilePolicy) && Hangs(i)
    }

    ghost function LeavesBefore<M>(n: nat, compilePolicy: Clause -> Option<M>): seq<M>
      requires n <= |functions|
    {
      if n == 0 then []
      else if !Included(n - 1) || LeavesOf(n - 1, compilePolicy).Err? then LeavesBefore(n - 1, compilePolicy)
      else LeavesBefore(n - 1, compilePolicy) + LeavesOf(n - 1, compilePolicy).value
    }

    /** All that the functions and finish guards need for leaves to be compiled. */
    ghost predicate Accepts<M>(compilePolicy: Clause -> Option<M>) {
      AllAccepted(|functions|, compilePolicy) && CompileEach(FinishGuards(), compilePolicy).Ok?
    }

    ghost function Branches<M>(compilePolicy: Clause -> Option<M>): seq<M>
      requires Accepts(compilePolicy)
    {
      CompileEach(FinishGuards(), compilePolicy).value + LeavesBefore(|functions|, compilePolicy)
    }

    /** The i-th function lets a spend through. */
    ghost predicate FunctionSat(i: nat, w: World)
      requires i < |functions| && Included(i)
    {
      && AllSat(GuardsOf(i), w)
      && (functions[i].modifiesGuards ==>
            SomeTemplateSat(Proposed(i), ProposedBefore(i + 1, true), emulator, w))
    }

    ghost predicate SomeFunctionSat(n: nat, w: World)
      requires n <= |functions|
    {
      exists i :: 0 <= i < n && Included(i) && FunctionSat(i, w)
    }

    /**
     * The meaning of a contract: some finish guard, or all guards of some
     * continuation, or all guards of some then-function together with the
     * guards and the hash of a template that it proposes.
     */
    ghost predicate Meaning(w: World) {
      AnySat(FinishGuards(), w) || SomeFunctionSat(|functions|, w)
    }

    ghost predicate IsContinuation(i: nat)
      requires i < |functions|
    {
      Included(i) && !functions[i].modifiesGuards
    }

    /** Whatever is named gets a name of its own, so paths differ too. */
    lemma {:induction false} NamesAreFresh(i: nat, j: nat)
      requires i < j < |functions| && NameOf(i).Some? && NameOf(j).Some?
      ensures NameOf(i) != NameOf(j) && PathOf(i) != PathOf(j)
    {
      NamesAccumulate(i, j);
    }

    lemma {:induction false} NamesAccumulate(i: nat, j: nat)
      requires i < j <= |functions| && NameOf(i).Some?
      ensures NameOf(i).value in NamesBefore(j)
      decreases j - i
    {
      if i + 1 < j {
        NamesAccumulate(i, j - 1);
      }
    }

    lemma ProposedStep(n: nat)
      requires n < |functions|
      ensures ProposedBefore(n, true) <= ProposedBefore(n + 1, true)
    {
    }

    ghost predicate GrowsTo(i: nat, j: nat)
      requires i <= j <= |functions|
    {
      ProposedBefore(i, true) <= ProposedBefore(j, true)
    }

    lemma GrowsNext(i: nat, j: nat)
      requires i <= j < |functions| && GrowsTo(i, j)
      ensures GrowsTo(i, j + 1)
    {
      ProposedStep(j);
      PrefixOfPrefix(ProposedBefore(i, true), ProposedBefore(j, true), ProposedBefore(j + 1, true));
    }

    /** What was proposed is never reordered or taken back. */
    lemma {:induction false} ProposedGrows(i: nat, j: nat)
      requires i <= j <= |functions|
      ensures GrowsTo(i, j)
      decreases j - i
    {
      if i < j {
        ProposedGrows(i, j - 1);
        GrowsNext(i, j - 1);
      }
    }

    ghost predicate MaxCovers(n: nat, ensured: Amount)
      requires n <= |functions|
    {
      IsMaxOfBoth(MaxBefore(n, ensured), ensured, ProposedBefore(n, true), ProposedBefore(n, false))
    }

    lemma MaxCoversNext(n: nat, ensured: Amount)
      requires n < |functions| && MaxCovers(n, ensured)
      ensures MaxCovers(n + 1, ensured)
    {
      MaxOfMore(MaxBefore(n, ensured), ensured, ProposedBefore(n, true), ProposedBefore(n, false), Proposed(n));
    }

    /** The maximum covers the ensured amount and all that is proposed, and is one of these. */
    lemma {:induction false} MaxIsOverAll(n: nat, ensured: Amount)
      requires n <= |functions|
      ensures MaxCovers(n, ensured)
    {
      if n > 0 {
        MaxIsOverAll(n - 1, ensured);
        MaxCoversNext(n - 1, ensured);
      }
    }

    /**
     * A template is judged by the first of its hash over the whole contract,
     * not only over the functions compiled so far.
     */
    lemma FirstOverWholeContract(i: nat, t: Template)
      requires i < |functions| && Included(i) && functions[i].modifiesGuards && t in Proposed(i)
      ensures First(ProposedBefore(i + 1, true), t.ctv).Some?
      ensures First(ProposedBefore(i + 1, true), t.ctv) == First(ProposedBefore(|functions|, true), t.ctv)
    {
      assert t in ProposedBefore(i, true) + Proposed(i);
      FirstOfMember(ProposedBefore(i + 1, true), t.ctv);
      ProposedGrows(i + 1, |functions|);
      FirstOfLonger(ProposedBefore(i + 1, true), ProposedBefore(|functions|, true), t.ctv);
    }
  }

  // ---------------------------------------------------------- compiling it all

  datatype ContinuationPoint = ContinuationPoint(owner: nat, at: ReversePath)

  datatype Compiled<M> = Compiled(
    leaves: seq<M>,
    tree: Option<TapTrees.TapTree<M>>,
    ctvToTx: map<Hash, Template>,
    suggestedTxs: map<Hash, Template>,
    continueApis: map<ReversePath, ContinuationPoint>,
    rootPath: ReversePath,
    amountMax: Amount)

  /** What a compilation accumulates while it goes through the functions. */
  datatype Progress<M> = Progress(
    leaves: seq<M>,
    committed: map<Hash, Template>,
    other: map<Hash, Template>,
    range: Amount,
    continueApis: map<ReversePath, ContinuationPoint>)

  /** Each continuation that was compiled has an entry of its own. */
  ghost predicate ContinuationsKept(apis: map<ReversePath, ContinuationPoint>, job: Job, n: nat)
    requires n <= |job.functions|
  {
    && (forall p :: p in apis ==>
          && apis[p].owner < n
          && job.IsContinuation(apis[p].owner)
          && p == job.EffectRoot(apis[p].owner).path == apis[p].at)
    && (forall k :: 0 <= k < n && job.IsContinuation(k) ==>
          job.EffectRoot(k).path in apis && apis[job.EffectRoot(k).path].owner == k)
  }

  /** What is known of the progress after the first `n` functions. */
  ghost predicate Covers<M>(p: Progress<M>, job: Job, n: nat, ensured: Amount, compilePolicy: Clause -> Option<M>) {
    && n <= |job.functions|
    && job.AllAccepted(n, compilePolicy)
    && KeepsFirst(p.committed, job.ProposedBefore(n, true))
    && KeepsFirst(p.other, job.ProposedBefore(n, false))
    && p.range == job.MaxBefore(n, ensured)
    && p.leaves == job.LeavesBefore(n, compilePolicy)
    && ContinuationsKept(p.continueApis, job, n)
  }

  /** A function that is left out changes nothing. */
  lemma SkipFunction<M>(p: Progress<M>, job: Job, i: nat, ensured: Amount, compilePolicy: Clause -> Option<M>)
    requires Covers(p, job, i, ensured, compilePolicy) && i < |job.functions| && job.NameOf(i).Some?
    requires !job.VerdictOf(i).Fail? && !job.Included(i)
    ensures Covers(p, job, i + 1, ensured, compilePolicy) && job.UsesBefore(i + 1) == job.UsesBefore(i)
  {
  }

  /** A continuation compiled just now gets a new key in the map. */
  lemma ContinuationAdded<M>(apis: map<ReversePath, ContinuationPoint>, job: Job, i: nat,
      compilePolicy: Clause -> Option<M>)
    requires i < |job.functions| && job.AllAccepted(i, compilePolicy) && job.NameOf(i).Some?
    requires ContinuationsKept(apis, job, i) && job.IsContinuation(i)
    ensures job.EffectRoot(i).path !in apis
    ensures ContinuationsKept(apis[job.EffectRoot(i).path := ContinuationPoint(i, job.EffectRoot(i).path)], job, i + 1)
  {
    forall k | 0 <= k < i && job.IsContinuation(k) ensures job.EffectRoot(k).path != job.EffectRoot(i).path {
      assert job.Accepted(k, compilePolicy);
      job.NamesAreFresh(k, i);
    }
  }

  lemma ThenFunctionKeepsContinuations(apis: map<ReversePath, ContinuationPoint>, job: Job, i: nat)
    requires i < |job.functions| && ContinuationsKept(apis, job, i) && !job.IsContinuation(i)
    ensures ContinuationsKept(apis, job, i + 1)
  {
  }

  /** Creates the guards of one function, in contexts below its own. */
  method GuardFunction(job: Job, i: nat, fctx: Context, gc: GuardCache) returns (guards: Option<Clause>)
    requires i < |job.functions| && job.Included(i)
    requires fctx.View() == ContextView(job.funds, job.PathOf(i), {CondCompIf})
    requires gc.Valid() && gc.log == job.UsesBefore(i) && gc.table == job.guards
    modifies gc, fctx`alreadyDerived
    ensures gc.Valid() && fctx.View() == ContextView(job.funds, job.PathOf(i), {CondCompIf, PathFragment.Guard})
    ensures guards.Some? <==> |job.functions[i].guards| <= 1
    ensures guards.Some? ==> gc.log == job.UsesBefore(i + 1) && guards.value == Conjoin(job.GuardsOf(i))
  {
    var gctx := fctx.Derive(PathFragment.Guard);
    SuppliedIffAtMostOne(gctx.value.View(), |job.functions[i].guards|);
    guards := CreateGuards(job.functions[i].guards, gctx.value, gc);
  }

  /** Asks a function for its templates, below the context for their kind. */
  method ProposeTemplates(job: Job, i: nat, fctx: Context) returns (effectPath: ReversePath, items: TxTmplIt)
    requires i < |job.functions|
    requires fctx.View() == ContextView(job.funds, job.PathOf(i), {CondCompIf, PathFragment.Guard})
    modifies fctx`alreadyDerived
    ensures effectPath == job.EffectRoot(i).path
    ensures items == AllEffects(job.functions[i], job.EffectRoot(i), job.effects)
  {
    var f := job.functions[i];
    var effectCtx := fctx.Derive(if f.modifiesGuards then Next else Suggested);
    effectPath := effectCtx.value.path;
    items := ComputeAllEffects(effectCtx.value, f, job.effects);
  }

  /** Decides whether a function is to be compiled. */
  method JudgeFunction(job: Job, i: nat, fctx: Context) returns (verdict: Cond.CompileType)
    requires i < |job.functions|
    requires fctx.View() == ContextView(job.funds, job.PathOf(i), {})
    modifies fctx`alreadyDerived
    ensures verdict == job.VerdictOf(i) && fctx.View() == ContextView(job.funds, job.PathOf(i), {CondCompIf})
  {
    var thisCtx := fctx.Derive(CondCompIf);
    verdict := Cond.Assemble(job.functions[i].conditions, thisCtx.value);
  }

  /** Adds the templates and the leaves of a then-function to the progress. */
  method CompileThen<M>(
    job: Job, i: nat, items: Items, guards: Clause, nullable: bool,
    p: Progress<M>, compilePolicy: Clause -> Option<M>, ghost ensured: Amount)
    returns (r: Result<Progress<M>, CompilationError>)
    requires i < |job.functions| && job.NameOf(i).Some? && !job.VerdictOf(i).Fail? && job.Included(i)
    requires |job.functions[i].guards| <= 1 && guards == Conjoin(job.GuardsOf(i))
        && nullable == job.VerdictOf(i).Nullable?
    requires job.functions[i].modifiesGuards
    requires AllEffects(job.functions[i], job.EffectRoot(i), job.effects) == Ok(items)
    requires Covers(p, job, i, ensured, compilePolicy)
    ensures r.Err? ==> !job.Accepted(i, compilePolicy)
    ensures r.Ok? ==> Covers(r.value, job, i + 1, ensured, compilePolicy)
  {
    var f := job.functions[i];
    var clauses, committed, range := CollectClauses(f, items, job.emulator, p.committed, p.range,
        job.ProposedBefore(i, true));
    if clauses.Err? {
      return Err(clauses.error);
    }
    var leaves := CombineTxtmpls(nullable, clauses.value, guards, compilePolicy);
    assert leaves == job.LeavesOf(i, compilePolicy);
    if leaves.Err? {
      return Err(leaves.error);
    }
    ThenFunctionKeepsContinuations(p.continueApis, job, i);
    r := Ok(p.(leaves := p.leaves + leaves.value, committed := committed, range := range));
  }

  /** Adds the templates, the leaves and the entry of a continuation to the progress. */
  method CompileContinuation<M>(
    job: Job, i: nat, effectPath: ReversePath, items: Items, guards: Clause,
    p: Progress<M>, compilePolicy: Clause -> Option<M>, ghost ensured: Amount)
    returns (r: Result<Progress<M>, CompilationError>)
    requires i < |job.functions| && job.NameOf(i).Some? && !job.VerdictOf(i).Fail? && job.Included(i)
    requires |job.functions[i].guards| <= 1 && guards == Conjoin(job.GuardsOf(i))
        && effectPath == job.EffectRoot(i).path
    requires !job.functions[i].modifiesGuards
    requires AllEffects(job.functions[i], job.EffectRoot(i), job.effects) == Ok(items)
    requires Covers(p, job, i, ensured, compilePolicy)
    ensures r.Err? ==> !job.Accepted(i, compilePolicy)
    ensures r.Ok? ==> Covers(r.value, job, i + 1, ensured, compilePolicy)
  {
    var f := job.functions[i];
    var clauses, other, range := CollectClauses(f, items, job.emulator, p.other, p.range, job.ProposedBefore(i, false));
    if clauses.Err? {
      return Err(clauses.error);
    }
    var leaves := FlattenAndCompile(guards, compilePolicy);
    assert leaves == job.LeavesOf(i, compilePolicy);
    if leaves.Err? {
      return Err(leaves.error);
    }
    ContinuationAdded(p.continueApis, job, i, compilePolicy);
    var apis := p.continueApis[effectPath := ContinuationPoint(i, effectPath)];
    r := Ok(p.(leaves := p.leaves + leaves.value, other := other, range := range, continueApis := apis));
  }

  /** Compiles one function: verdict, guards, templates, leaves. */
  method CompileFunction<M>(
    job: Job, i: nat, fctx: Context, gc: GuardCache, p: Progress<M>, compilePolicy: Clause -> Option<M>,
        ghost ensured: Amount)
    returns (r: Result<Progress<M>, CompilationError>)
    requires i < |job.functions| && job.NameOf(i).Some?
    requires fctx.View() == ContextView(job.funds, job.PathOf(i), {})
    requires gc.Valid() && gc.log == job.UsesBefore(i) && gc.table == job.guards
    requires Covers(p, job, i, ensured, compilePolicy)
    modifies gc, fctx`alreadyDerived
    ensures gc.Valid()
    ensures job.Hangs(i) ==> r == Err(Diverges)
    ensures r.Err? ==> !job.Accepted(i, compilePolicy)
    ensures r.Ok? ==> Covers(r.value, job, i + 1, ensured, compilePolicy) && gc.log == job.UsesBefore(i + 1)
  {
    var verdict := JudgeFunction(job, i, fctx);
    if verdict.Fail? {
      return Err(ConditionalCompilationFailed(verdict.reasons));
    }
    if verdict.Skippable? || verdict.Never? {
      SkipFunction(p, job, i, ensured, compilePolicy);
      return Ok(p);
    }
    var created := GuardFunction(job, i, fctx, gc);
    if created.None? {
      return Err(Diverges);
    }
    var guards := created.value;
    var effectPath, items := ProposeTemplates(job, i, fctx);
    if items.Err? {
      return Err(items.error);
    }
    if job.functions[i].modifiesGuards {
      r := CompileThen(job, i, items.value, guards, verdict.Nullable?, p, compilePolicy, ensured);
    } else {
      r := CompileContinuation(job, i, effectPath, items.value, guards, p, compilePolicy, ensured);
    }
  }

  /** Names one function, derives its context and compiles it. */
  method CompileNext<M>(
    job: Job, i: nat, action: Context, renamer: Renamer, gc: GuardCache, p: Progress<M>,
    compilePolicy: Clause -> Option<M>, ghost ensured: Amount)
    returns (r: Result<Progress<M>, CompilationError>)
    requires i < |job.functions| && renamer.usedNames == job.NamesBefore(i)
    requires action.availableFunds == job.funds && action.path == Child(job.root, Action)
    requires forall f :: f in action.alreadyDerived ==> f.Named? && f.name in renamer.usedNames
    requires gc.Valid() && gc.log == job.UsesBefore(i) && gc.table == job.guards
    requires Covers(p, job, i, ensured, compilePolicy)
    modifies gc, action`alreadyDerived, renamer
    ensures gc.Valid()
    ensures job.Hangs(i) ==> r == Err(Diverges)
    ensures r.Err? ==> !job.Accepted(i, compilePolicy)
    ensures r.Ok? ==> renamer.usedNames == job.NamesBefore(i + 1)
    ensures r.Ok? ==> forall f :: f in action.alreadyDerived ==> f.Named? && f.name in renamer.usedNames
    ensures r.Ok? ==> Covers(r.value, job, i + 1, ensured, compilePolicy) && gc.log == job.UsesBefore(i + 1)
  {
    var name := renamer.GetName(job.functions[i].name);
    assert name == job.NameOf(i);
    if name.None? {
      return Err(Diverges);
    }
    var fctx := action.Derive(Named(name.value));
    r := CompileFunction(job, i, fctx.value, gc, p, compilePolicy, ensured);
  }

  lemma CoversNothingYet<M>(job: Job, ensured: Amount, compilePolicy: Clause -> Option<M>)
    ensures Covers(Progress([], map[], map[], ensured, map[]), job, 0, ensured, compilePolicy)
  {
  }

  lemma OneRefused<M>(job: Job, i: nat, compilePolicy: Clause -> Option<M>)
    requires i < |job.functions| && !job.Accepted(i, compilePolicy)
    ensures !job.AllAccepted(|job.functions|, compilePolicy)
  {
  }

  /** The first function that is refused decides whether the run ends. */
  lemma FirstRefused<M>(job: Job, i: nat, compilePolicy: Clause -> Option<M>)
    requires i < |job.functions| && job.AllAccepted(i, compilePolicy) && !job.Accepted(i, compilePolicy)
    ensures job.RunsForever(compilePolicy) <==> job.Hangs(i)
  {
    if job.RunsForever(compilePolicy) {
      var k :| 0 <= k < |job.functions| && job.AllAccepted(k, compilePolicy) && job.Hangs(k);
      assert !job.Accepted(k, compilePolicy);
    }
  }

  lemma AcceptedReturns<M>(job: Job, compilePolicy: Clause -> Option<M>)
    requires job.AllAccepted(|job.functions|, compilePolicy)
    ensures !job.RunsForever(compilePolicy)
  {
    forall k | 0 <= k < |job.functions| ensures !job.Hangs(k) {
      assert job.Accepted(k, compilePolicy);
    }
  }

  /** Goes through all functions of a contract. */
  method CompileFunctions<M>(job: Job, action: Context, gc: GuardCache, ensured: Amount,
      compilePolicy: Clause -> Option<M>)
    returns (r: Result<Progress<M>, CompilationError>)
    requires action.View() == ContextView(job.funds, Child(job.root, Action), {})
    requires gc.Valid() && gc.log == [] && gc.table == job.guards
    modifies gc, action`alreadyDerived
    ensures gc.Valid()
    ensures r.Err? ==> !job.AllAccepted(|job.functions|, compilePolicy)
    ensures job.RunsForever(compilePolicy) ==> r == Err(Diverges)
    ensures r.Ok? ==> Covers(r.value, job, |job.functions|, ensured, compilePolicy)
    ensures r.Ok? ==> gc.log == job.UsesBefore(|job.functions|)
  {
    var progress: Progress<M> := Progress([], map[], map[], ensured, map[]);
    var renamer := new Renamer();
    CoversNothingYet(job, ensured, compilePolicy);
    for i := 0 to |job.functions|
      invariant fresh(renamer) && renamer.usedNames == job.NamesBefore(i)
      invariant action.availableFunds == job.funds
      invariant forall f :: f in action.alreadyDerived ==> f.Named? && f.name in renamer.usedNames
      invariant gc.Valid() && gc.log == job.UsesBefore(i)
      invariant Covers(progress, job, i, ensured, compilePolicy)
    {
      var next := CompileNext(job, i, action, renamer, gc, progress, compilePolicy, ensured);
      if next.Err? {
        OneRefused(job, i, compilePolicy);
        FirstRefused(job, i, compilePolicy);
        return Err(next.error);
      }
      progress := next.value;
    }
    AcceptedReturns(job, compilePolicy);
    r := Ok(progress);
  }

  /** Evaluates the finish guards and compiles them to leaves. */
  method CompileFinish<M>(job: Job, finish: Context, gc: GuardCache, compilePolicy: Clause -> Option<M>)
    returns (r: Result<seq<M>, CompilationError>)
    requires finish.View() == ContextView(job.funds, Child(job.root, FinishFn), {})
    requires gc.Valid() && gc.log == job.UsesBefore(|job.functions|) && gc.table == job.guards
    modifies gc, finish`alreadyDerived
    ensures r == CompileEach(job.FinishGuards(), compilePolicy)
  {
    var values := EvaluateGuards(job.finishFns, finish, gc);
    assert gc.log == job.FinishUses();
    r := CompileEach(Somes(values), compilePolicy);
  }

  // ----------------------------------------------------------- minimum feerate

  function Fees(t: Template, amountMax: Amount): int {
    amountMax - TotalAmount(t.outputs)
  }

  /** The fees that a template's declared minimum feerate asks for. */
  function RequiredFees(t: Template, size: nat): nat
    requires t.minFeerate.Some?
  {
    t.minFeerate.value * size
  }

  /** The check as it is written: a template is turned down unless it underpays. */
  predicate FeerateFails(t: Template, amountMax: Amount, size: nat) {
    t.minFeerate.Some? && !(Fees(t, amountMax) < RequiredFees(t, size))
  }

  ghost predicate PaysMinimum(t: Template, amountMax: Amount, size: nat) {
    t.minFeerate.Some? ==> Fees(t, amountMax) >= RequiredFees(t, size)
  }

  /** No committed template is turned down; sizes include the witness estimate. */
  ghost predicate PassesFeerates(txns: map<Hash, Template>, amountMax: Amount, weigh: Transaction -> nat,
      estimate: nat) {
    forall h :: h in txns ==> !FeerateFails(txns[h], amountMax, weigh(txns[h].tx) + estimate)
  }

  /** No committed template pays out more than the maximum of all amounts. */
  ghost predicate Covered(txns: map<Hash, Template>, amountMax: Amount) {
    forall h :: h in txns ==> TotalAmount(txns[h].outputs) <= amountMax
  }

  /**
   * The check is the wrong way round: of the compilations that pass it, those
   * whose templates all pay their minimum are the ones that declare none.
   */
  lemma FeeratePromiseHoldsIff(txns: map<Hash, Template>, amountMax: Amount, weigh: Transaction -> nat, estimate: nat)
    requires PassesFeerates(txns, amountMax, weigh, estimate)
    ensures (forall h :: h in txns ==> PaysMinimum(txns[h], amountMax, weigh(txns[h].tx) + estimate))
            <==> forall h :: h in txns ==> txns[h].minFeerate.None?
  {
    forall h | h in txns && txns[h].minFeerate.Some?
      ensures !PaysMinimum(txns[h], amountMax, weigh(txns[h].tx) + estimate)
    {
      assert !FeerateFails(txns[h], amountMax, weigh(txns[h].tx) + estimate);
    }
  }

  /** A template that pays exactly what it declares is turned down. */
  lemma PayingTheMinimumFails(tx: Transaction, h: Hash)
    ensures var t := Template([], h, 200, Some(1), tx, []);
            PaysMinimum(t, 200, 200) && FeerateFails(t, 200, 200) && !FeerateFails(t, 199, 200)
  {
  }

  // ------------------------------------------------------------------ the whole

  function JobOf(c: Contract, at: ContextView, emulator: Emulator, effects: EffectDb): Job {
    Job(Functions(c), c.finishFns, c.guards, at.funds, at.path, emulator, effects)
  }

  /** The committed tree: all leaves, as shallow as can be, or none at all. */
  ghost predicate TreeOf<M(!new)>(tree: Option<TapTrees.TapTree<M>>, leaves: seq<M>) {
    (tree.None? <==> leaves == []) && (tree.Some? ==> TapTrees.BestTree(tree.value, leaves))
  }

  /** What a successful compilation of `job` must have produced. */
  ghost predicate Correct<M(!new)>(out: Compiled<M>, job: Job, ensured: Amount, compilePolicy: Clause -> Option<M>) {
    var n := |job.functions|;
    && job.Accepts(compilePolicy)
    && out.leaves == job.Branches(compilePolicy)
    && TreeOf(out.tree, out.leaves)
    && KeepsFirst(out.ctvToTx, job.ProposedBefore(n, true))
    && KeepsFirst(out.suggestedTxs, job.ProposedBefore(n, false))
    && ContinuationsKept(out.continueApis, job, n)
    && out.rootPath == job.root
    && out.amountMax == job.MaxBefore(n, ensured)
  }

  /** The leaves of all finish guards and functions. */
  method CompileBranches<M>(c: Contract, job: Job, ctx: Context, ensured: Amount, compilePolicy: Clause -> Option<M>)
    returns (branches: seq<M>, r: Result<Progress<M>, CompilationError>)
    requires job.functions == Functions(c) && job.finishFns == c.finishFns && job.guards == c.guards
    requires ctx.availableFunds == job.funds && ctx.path == job.root
    modifies ctx`alreadyDerived
    ensures r.Ok? <==> {Action, FinishFn} !! old(ctx.alreadyDerived) && job.Accepts(compilePolicy)
    ensures Action !in old(ctx.alreadyDerived) && job.RunsForever(compilePolicy) ==> r == Err(Diverges)
    ensures r.Ok? ==> ctx.alreadyDerived == old(ctx.alreadyDerived) + {Action, FinishFn}
    ensures r.Ok? ==> Covers(r.value, job, |job.functions|, ensured, compilePolicy)
    ensures r.Ok? ==> branches == job.Branches(compilePolicy)
  {
    branches := [];
    var action := ctx.Derive(Action);
    if action.Err? {
      return branches, Err(action.error);
    }
    var gc := new GuardCache(c.guards);
    r := CompileFunctions(job, action.value, gc, ensured, compilePolicy);
    if r.Err? {
      return;
    }
    var finish := ctx.Derive(FinishFn);
    if finish.Err? {
      return branches, Err(finish.error);
    }
    var finishLeaves := CompileFinish(job, finish.value, gc, compilePolicy);
    if finishLeaves.Err? {
      return branches, Err(finishLeaves.error);
    }
    branches := finishLeaves.value + r.value.leaves;
  }

  /** Looks for a template that the check turns down, in whatever order. */
  method CheckFeerates(txns: map<Hash, Template>, amountMax: Amount, weigh: Transaction -> nat, estimate: nat)
    returns (r: Result<(), CompilationError>)
    ensures r.Ok? <==> Covered(txns, amountMax) && PassesFeerates(txns, amountMax, weigh, estimate)
    ensures r.Err? ==>
              r.error == MinFeerateError || (r.error == Panic("Amount subtraction error") && !Covered(txns, amountMax))
  {
    var rest := txns.Keys;
    while rest != {}
      invariant rest <= txns.Keys
      invariant forall h :: h in txns && h !in rest ==> TotalAmount(txns[h].outputs) <= amountMax
      invariant forall h :: h in txns && h !in rest ==> !FeerateFails(txns[h], amountMax, weigh(txns[h].tx) + estimate)
      decreases |rest|
    {
      var h :| h in rest;
      if TotalAmount(txns[h].outputs) > amountMax {
        return Err(Panic("Amount subtraction error"));
      }
      if FeerateFails(txns[h], amountMax, weigh(txns[h].tx) + estimate) {
        return Err(MinFeerateError);
      }
      rest := rest - {h};
    }
    r := Ok(());
  }

  /** What can still fail once all leaves are compiled. */
  ghost predicate Concludes<M>(c: Contract, at: ContextView, out: Compiled<M>,
      describe: Option<TapTrees.TapTree<M>> -> Option<nat>, weigh: Transaction -> nat) {
    && describe(out.tree).Some?
    && Covered(out.ctvToTx, out.amountMax)
    && PassesFeerates(out.ctvToTx, out.amountMax, weigh, describe(out.tree).value)
    && Metadata !in at.derived
    && c.metadata(ContextView(at.funds, Child(at.path, Metadata), {})).Ok?
  }

  /** Builds the tree and the descriptor, checks feerates and asks for metadata. */
  method Conclude<M(!new)>(
    c: Contract, job: Job, ctx: Context, branches: seq<M>, p: Progress<M>,
    describe: Option<TapTrees.TapTree<M>> -> Option<nat>, weigh: Transaction -> nat,
    compilePolicy: Clause -> Option<M>, ghost ensured: Amount)
    returns (r: Result<Compiled<M>, CompilationError>, out: Compiled<M>)
    requires Covers(p, job, |job.functions|, ensured, compilePolicy)
    requires job.Accepts(compilePolicy) && branches == job.Branches(compilePolicy)
    modifies ctx`alreadyDerived
    ensures Correct(out, job, ensured, compilePolicy)
    ensures r.Ok? <==> Concludes(c, old(ctx.View()), out, describe, weigh)
    ensures r.Ok? ==> r.value == out
  {
    var tree := TapTrees.BranchesToTree(branches);
    out := Compiled(branches, tree, p.committed, p.other, p.continueApis, job.root, p.range);
    var described := describe(tree);
    if described.None? {
      return Err(DescriptorFailed), out;
    }
    var checked := CheckFeerates(p.committed, out.amountMax, weigh, described.value);
    if checked.Err? {
      return Err(checked.error), out;
    }
    var m := ctx.Derive(Metadata);
    if m.Err? {
      return Err(m.error), out;
    }
    var metadata := c.metadata(ContextView(m.value.availableFunds, m.value.path, m.value.alreadyDerived));
    if metadata.Err? {
      return Err(metadata.error), out;
    }
    r := Ok(out);
  }

  /** Compiles all branches, and puts the rest of the compilation together with them. */
  method CompileEnsured<M(!new)>(
    c: Contract, job: Job, ctx: Context, ensured: Amount,
    compilePolicy: Clause -> Option<M>, describe: Option<TapTrees.TapTree<M>> -> Option<nat>, weigh: Transaction -> nat)
    returns (r: Result<Compiled<M>, CompilationError>, ghost out: Option<Compiled<M>>)
    requires job.functions == Functions(c) && job.finishFns == c.finishFns && job.guards == c.guards
    requires ctx.availableFunds == job.funds && ctx.path == job.root
    modifies ctx`alreadyDerived
    ensures out.Some? <==> {Action, FinishFn} !! old(ctx.alreadyDerived) && job.Accepts(compilePolicy)
    ensures out.Some? ==> Correct(out.value, job, ensured, compilePolicy)
    ensures r.Ok? <==> out.Some? && Concludes(c, old(ctx.View()), out.value, describe, weigh)
    ensures r.Ok? ==> r.value == out.value
    ensures Action !in old(ctx.alreadyDerived) && job.RunsForever(compilePolicy) ==> r == Err(Diverges)
  {
    out := None;
    var branches, progress := CompileBranches(c, job, ctx, ensured, compilePolicy);
    if progress.Err? {
      return Err(progress.error), out;
    }
    var made;
    r, made := Conclude(c, job, ctx, branches, progress.value, describe, weigh, compilePolicy, ensured);
    out := Some(made);
  }

  /** What must hold before a compilation can start on the tree. */
  ghost predicate Starts<M>(c: Contract, at: ContextView, job: Job, compilePolicy: Clause -> Option<M>) {
    && {Cloned, Action, FinishFn} !! at.derived
    && c.ensureAmount(ContextView(at.funds, Child(at.path, Cloned), {})).Ok?
    && job.Accepts(compilePolicy)
  }

  /**
   * Compiles a contract. The script compiler, the descriptor (with its weight
   * estimate) and transaction weights are parameters. The ghost result is
   * what was put together before the last checks.
   */
  method Compile<M(!new)>(
    c: Contract, ctx: Context, emulator: Emulator, effects: EffectDb,
    compilePolicy: Clause -> Option<M>, describe: Option<TapTrees.TapTree<M>> -> Option<nat>, weigh: Transaction -> nat)
    returns (r: Result<Compiled<M>, CompilationError>, ghost out: Option<Compiled<M>>)
    modifies ctx`alreadyDerived
    ensures var job := JobOf(c, old(ctx.View()), emulator, effects);
            var ensured := c.ensureAmount(ContextView(ctx.availableFunds, Child(ctx.path, Cloned), {}));
            && (out.Some? <==> Starts(c, old(ctx.View()), job, compilePolicy))
            && (out.Some? ==> Correct(out.value, job, ensured.value, compilePolicy))
            && (r.Ok? <==> out.Some? && Concludes(c, old(ctx.View()), out.value, describe, weigh))
            && (r.Ok? ==> r.value == out.value)
            && ({Cloned, Action} !! old(ctx.alreadyDerived) && ensured.Ok? && job.RunsForever(compilePolicy) ==>
                r == Err(Diverges))
  {
    out := None;
    var job := JobOf(c, ContextView(ctx.availableFunds, ctx.path, {}), emulator, effects);
    var cloned := ctx.Derive(Cloned);
    if cloned.Err? {
      return Err(cloned.error), out;
    }
    var ensured := c.ensureAmount(ContextView(cloned.value.availableFunds, cloned.value.path,
        cloned.value.alreadyDerived));
    if ensured.Err? {
      return Err(ensured.error), out;
    }
    r, out := CompileEnsured(c, job, ctx, ensured.value, compilePolicy, describe, weigh);
  }

  // ------------------------------------------------------------- its meaning

  /** The leaves of one function mean what the function lets through. */
  lemma FunctionMeaning<M(!new)>(job: Job, i: nat, compilePolicy: Clause -> Option<M>, sat: (M, World) -> bool,
      w: World)
    requires i < |job.functions| && job.Included(i) && job.Accepted(i, compilePolicy)
        && PreservesMeaning(compilePolicy, sat)
    ensures AnyLeafSat(job.LeavesOf(i, compilePolicy).value, sat, w) <==> job.FunctionSat(i, w)
  {
    var guards := Conjoin(job.GuardsOf(i));
    ConjoinMeaning(job.GuardsOf(i), w);
    if job.functions[i].modifiesGuards {
      var clauses := ClausesOf(job.Proposed(i), job.ProposedBefore(i + 1, true), job.emulator);
      CombineMeaning(job.VerdictOf(i).Nullable?, clauses, guards, compilePolicy, sat, w);
      ClausesMeaning(job.Proposed(i), job.ProposedBefore(i + 1, true), job.emulator, w);
    } else {
      FlattenAndCompileMeaning(guards, compilePolicy, sat, w);
    }
  }

  ghost predicate LetsThrough(job: Job, i: nat, w: World)
    requires i < |job.functions|
  {
    job.Included(i) && job.FunctionSat(i, w)
  }

  lemma LeavesNext<M>(job: Job, i: nat, compilePolicy: Clause -> Option<M>)
    requires i < |job.functions|
    ensures job.LeavesBefore(i + 1, compilePolicy) == job.LeavesBefore(i, compilePolicy)
        + job.LeavesAdded(i, compilePolicy)
  {
  }

  /** What the i-th function adds to the leaves means what it lets through. */
  ghost predicate AddsMeaning<M(!new)>(job: Job, i: nat, compilePolicy: Clause -> Option<M>, sat: (M, World) -> bool,
      w: World)
    requires i < |job.functions|
  {
    AnyLeafSat(job.LeavesAdded(i, compilePolicy), sat, w) <==> LetsThrough(job, i, w)
  }

  lemma AddedMeaning<M(!new)>(job: Job, i: nat, compilePolicy: Clause -> Option<M>, sat: (M, World) -> bool, w: World)
    requires i < |job.functions| && job.Accepted(i, compilePolicy) && PreservesMeaning(compilePolicy, sat)
    ensures AddsMeaning(job, i, compilePolicy, sat, w)
  {
    if job.Included(i) {
      FunctionMeaning(job, i, compilePolicy, sat, w);
    }
  }

  lemma AllAddMeaning<M(!new)>(job: Job, compilePolicy: Clause -> Option<M>, sat: (M, World) -> bool, w: World)
    requires job.AllAccepted(|job.functions|, compilePolicy) && PreservesMeaning(compilePolicy, sat)
    ensures forall i :: 0 <= i < |job.functions| ==> AddsMeaning(job, i, compilePolicy, sat, w)
  {
    forall i | 0 <= i < |job.functions| ensures AddsMeaning(job, i, compilePolicy, sat, w) {
      AddedMeaning(job, i, compilePolicy, sat, w);
    }
  }

  lemma SomeFunctionNext(job: Job, n: nat, w: World)
    requires n < |job.functions|
    ensures job.SomeFunctionSat(n + 1, w) <==> job.SomeFunctionSat(n, w) || LetsThrough(job, n, w)
  {
    if job.SomeFunctionSat(n, w) {
      var k :| 0 <= k < n && job.Included(k) && job.FunctionSat(k, w);
      assert job.Included(k) && job.FunctionSat(k, w);
    }
  }

  /** The leaves of the first `n` functions mean that one of these lets a spend through. */
  ghost predicate LeavesMean<M(!new)>(job: Job, n: nat, compilePolicy: Clause -> Option<M>, sat: (M, World) -> bool,
      w: World)
    requires n <= |job.functions|
  {
    AnyLeafSat(job.LeavesBefore(n, compilePolicy), sat, w) <==> job.SomeFunctionSat(n, w)
  }

  lemma NoLeavesMeanNothing<M(!new)>(job: Job, compilePolicy: Clause -> Option<M>, sat: (M, World) -> bool, w: World)
    ensures LeavesMean(job, 0, compilePolicy, sat, w)
  {
  }

  lemma LeavesMeanNext<M(!new)>(job: Job, n: nat, compilePolicy: Clause -> Option<M>, sat: (M, World) -> bool,
      w: World)
    requires n < |job.functions| && AddsMeaning(job, n, compilePolicy, sat, w)
    requires LeavesMean(job, n, compilePolicy, sat, w)
    ensures LeavesMean(job, n + 1, compilePolicy, sat, w)
  {
    LeavesNext(job, n, compilePolicy);
    AnyLeafSatConcat(job.LeavesBefore(n, compilePolicy), job.LeavesAdded(n, compilePolicy), sat, w);
    SomeFunctionNext(job, n, w);
  }

  lemma LeavesMeaning<M(!new)>(job: Job, compilePolicy: Clause -> Option<M>, sat: (M, World) -> bool, w: World)
    requires forall i :: 0 <= i < |job.functions| ==> AddsMeaning(job, i, compilePolicy, sat, w)
    ensures LeavesMean(job, |job.functions|, compilePolicy, sat, w)
  {
    NoLeavesMeanNothing(job, compilePolicy, sat, w);
    for n := 0 to |job.functions|
      invariant LeavesMean(job, n, compilePolicy, sat, w)
    {
      LeavesMeanNext(job, n, compilePolicy, sat, w);
    }
  }

  /**
   * Compilation preserves meaning: whatever the leaves of a compiled contract
   * let through is what the contract itself lets through, and no more.
   */
  lemma CompilationPreservesMeaning<M(!new)>(
    out: Compiled<M>, job: Job, ensured: Amount, compilePolicy: Clause -> Option<M>, sat: (M, World) -> bool, w: World)
    requires Correct(out, job, ensured, compilePolicy) && PreservesMeaning(compilePolicy, sat)
    ensures AnyLeafSat(out.leaves, sat, w) <==> job.Meaning(w)
  {
    CompileEachMeaning(job.FinishGuards(), compilePolicy, sat, w);
    AllAddMeaning(job, compilePolicy, sat, w);
    LeavesMeaning(job, compilePolicy, sat, w);
    AnyLeafSatConcat(CompileEach(job.FinishGuards(), compilePolicy).value,
        job.LeavesBefore(|job.functions|, compilePolicy), sat, w);
  }

  /** The same of the committed tree: some leaf of it is satisfied. */
  lemma CommittedTreeMeans<M(!new)>(
    out: Compiled<M>, job: Job, ensured: Amount, compilePolicy: Clause -> Option<M>, sat: (M, World) -> bool, w: World)
    requires Correct(out, job, ensured, compilePolicy) && PreservesMeaning(compilePolicy, sat)
    ensures (out.tree.Some? && exists m :: m in TapTrees.Leaves(out.tree.value) && sat(m, w)) <==> job.Meaning(w)
  {
    CompilationPreservesMeaning(out, job, ensured, compilePolicy, sat, w);
    assert forall m :: m in out.leaves <==> m in multiset(out.leaves);
    if i :| 0 <= i < |out.leaves| && sat(out.leaves[i], w) {
      assert out.leaves[i] in TapTrees.Leaves(out.tree.value);
    }
    if out.tree.Some? {
      if m :| m in TapTrees.Leaves(out.tree.value) && sat(m, w) {
        var i :| 0 <= i < |out.leaves| && out.leaves[i] == m;
      }
    }
  }

  /** The committed hashes are those of the templates that then-functions propose. */
  lemma CommittedHashes<M(!new)>(out: Compiled<M>, job: Job, ensured: Amount, compilePolicy: Clause -> Option<M>,
      h: Hash)
    requires Correct(out, job, ensured, compilePolicy)
    ensures h in out.ctvToTx <==> exists t :: t in job.ProposedBefore(|job.functions|, true) && t.ctv == h
    ensures h in out.ctvToTx ==> out.ctvToTx[h].ctv == h && out.ctvToTx[h].max <= out.amountMax
  {
    FirstOfMember(job.ProposedBefore(|job.functions|, true), h);
    job.MaxIsOverAll(|job.functions|, ensured);
  }

  /** The map of continuations has exactly one entry per compiled continuation. */
  lemma OneEntryPerContinuation<M(!new)>(out: Compiled<M>, job: Job, ensured: Amount,
      compilePolicy: Clause -> Option<M>)
    requires Correct(out, job, ensured, compilePolicy)
    ensures |out.continueApis| == |set k | 0 <= k < |job.functions| && job.IsContinuation(k)|
  {
    var continuations := set k | 0 <= k < |job.functions| && job.IsContinuation(k);
    var paths := set k | k in continuations :: job.EffectRoot(k).path;
    assert out.continueApis.Keys == paths by {
      forall p | p in out.continueApis ensures p in paths {
        assert out.continueApis[p].owner in continuations;
      }
    }
    assert forall k :: k in continuations ==>
        job.EffectRoot(k).path in out.continueApis && out.continueApis[job.EffectRoot(k).path].owner == k;
    SameSize(continuations, k => if 0 <= k < |job.functions| then job.EffectRoot(k).path else job.root, paths);
    assert |out.continueApis.Keys| == |paths|;
  }

  lemma {:induction false} SameSize<T(!new), U>(domain: set<T>, f: T -> U, image: set<U>)
    requires image == set x | x in domain :: f(x)
    requires forall x, y :: x in domain && y in domain && f(x) == f(y) ==> x == y
    ensures |image| == |domain|
    decreases domain
  {
    if x :| x in domain {
      var rest := domain - {x};
      assert image - {f(x)} == set y | y in rest :: f(y);
      SameSize(rest, f, image - {f(x)});
    }
  }
}
