/** Guards, the cache that evaluates them, and their conjunction. */
module Guards {
  import opened Sequences
  import opened Wrappers
  import opened Policies
  import opened EffectPaths
  import opened Contexts

  /** A `Cache` guard is evaluated once per compilation, a `Fresh` one each time. */
  datatype Guard = Cache(eval: ContextView -> Clause) | Fresh(eval: ContextView -> Clause)

  /** The address of the function that yields a guard. */
  type GuardFn = nat

  type GuardTable = GuardFn -> Option<Guard>

  datatype CacheEntry = Cached(clause: Clause) | FreshEntry(eval: ContextView -> Clause)

  /** One use of a guard: which one, and at which context. */
  datatype Request = Request(guard: GuardFn, ctx: ContextView)

  /** The index of a guard's first use, or the length of the log if unused. */
  function FirstUse(log: seq<Request>, g: GuardFn): (i: nat)
    ensures i <= |log|
    ensures i < |log| ==> log[i].guard == g
    ensures forall j :: 0 <= j < i ==> log[j].guard != g
  {
    if log == [] || log[0].guard == g then 0 else 1 + FirstUse(log[1..], g)
  }

  /**
   * What the j-th use of a guard amounts to: a fresh guard is evaluated where
   * it is used, a cached one where it was used first.
   */
  function Answer(table: GuardTable, log: seq<Request>, j: nat): Option<Clause>
    requires j < |log|
  {
    match table(log[j].guard)
    case None => None
    case Some(Fresh(eval)) => Some(eval(log[j].ctx))
    case Some(Cache(eval)) => Some(eval(log[FirstUse(log, log[j].guard)].ctx))
  }

  /** An answer depends only on what was asked before. */
  lemma AnswerStable(table: GuardTable, log: seq<Request>, more: seq<Request>, j: nat)
    requires j < |log|
    ensures Answer(table, log + more, j) == Answer(table, log, j)
  {
    assert (log + more)[j] == log[j];
    FirstUseStable(log, more, log[j].guard);
  }

  lemma {:induction false} FirstUseStable(log: seq<Request>, more: seq<Request>, g: GuardFn)
    ensures FirstUse(log, g) < |log| ==> FirstUse(log + more, g) == FirstUse(log, g)
    ensures FirstUse(log, g) == |log| ==> FirstUse(log + more, g) == |log| + FirstUse(more, g)
  {
    if log == [] {
      assert log + more == more;
    } else {
      assert (log + more)[1..] == log[1..] + more;
      FirstUseStable(log[1..], more, g);
    }
  }

  type Entries = map<GuardFn, Option<CacheEntry>>

  /** The entry made when a guard is used for the first time. */
  function EntryFor(g: Option<Guard>, ctx: ContextView): Option<CacheEntry> {
    match g
    case Some(Cache(f)) => Some(Cached(f(ctx)))
    case Some(Fresh(f)) => Some(FreshEntry(f))
    case None => None
  }

  /** What an entry answers when its guard is used at `ctx`. */
  function Reply(entry: Option<CacheEntry>, ctx: ContextView): Option<Clause> {
    match entry
    case Some(Cached(clause)) => Some(clause)
    case Some(FreshEntry(f)) => Some(f(ctx))
    case None => None
  }

  /** The guards used so far have the entries of their first uses. */
  ghost predicate Agrees(table: GuardTable, cache: Entries, log: seq<Request>) {
    forall g :: (g in cache <==> FirstUse(log, g) < |log|) &&
                (g in cache ==> cache[g] == EntryFor(table(g), log[FirstUse(log, g)].ctx))
  }

  function WithEntry(table: GuardTable, cache: Entries, r: Request): Entries {
    if r.guard in cache then cache else cache[r.guard := EntryFor(table(r.guard), r.ctx)]
  }

  lemma FirstUseNext(log: seq<Request>, r: Request, g: GuardFn)
    ensures FirstUse(log + [r], g) ==
              if FirstUse(log, g) < |log| then FirstUse(log, g) else if r.guard == g then |log| else |log| + 1
  {
    FirstUseStable(log, [r], g);
  }

  lemma AgreesNext(table: GuardTable, cache: Entries, log: seq<Request>, r: Request)
    requires Agrees(table, cache, log)
    ensures Agrees(table, WithEntry(table, cache, r), log + [r])
  {
    forall g ensures FirstUse(log + [r], g) ==
                       if FirstUse(log, g) < |log| then FirstUse(log, g) else if r.guard == g then |log|
                           else |log| + 1 {
      FirstUseNext(log, r, g);
    }
  }

  lemma ReplyIsAnswer(table: GuardTable, cache: Entries, log: seq<Request>, r: Request)
    requires Agrees(table, cache, log)
    ensures Reply(WithEntry(table, cache, r)[r.guard], r.ctx) == Answer(table, log + [r], |log|)
  {
    FirstUseNext(log, r, r.guard);
  }

  class GuardCache {
    const table: GuardTable
    var cache: Entries
    /** Every use so far, in order. */
    ghost var log: seq<Request>

    constructor (table: GuardTable)
      ensures this.table == table && Valid() && log == []
    {
      this.table, cache, log := table, map[], [];
    }

    ghost predicate Valid()
      reads this
    {
      Agrees(table, cache, log)
    }

    /** A guard that is used for the first time is evaluated on a clone. */
    method Get(g: GuardFn, ctx: Context) returns (r: Option<Clause>)
      requires Valid()
      modifies this
      ensures Valid() && log == old(log) + [Request(g, ctx.View())]
      ensures r == Answer(table, log, |old(log)|)
    {
      ghost var use := Request(g, ctx.View());
      AgreesNext(table, cache, log, use);
      ReplyIsAnswer(table, cache, log, use);
      log := log + [use];
      if g !in cache {
        var copy := ctx.InternalClone();
        cache := cache[g := EntryFor(table(g), ContextView(copy.availableFunds, copy.path, copy.alreadyDerived))];
      }
      r := Reply(cache[g], ContextView(ctx.availableFunds, ctx.path, ctx.alreadyDerived));
    }
  }

  // ---------------------------------------------------- clones and their use

  /** The guard's own code is run on the clone: a cached guard, used first. */
  predicate RunsOnClone(table: GuardTable, cache: Entries, g: GuardFn) {
    g !in cache && table(g).Some? && table(g).value.Cache?
  }

  /** The guard's own code is run on the original: a fresh guard. */
  predicate RunsOnOriginal(table: GuardTable, cache: Entries, r: Request) {
    var entry := WithEntry(table, cache, r)[r.guard];
    entry.Some? && entry.value.FreshEntry?
  }

  function Derives(i: nat, fragments: seq<PathFragment>): seq<Op> {
    if fragments == [] then [] else [DeriveOp(i, fragments[0])] + Derives(i, fragments[1..])
  }

  /**
   * One use of a guard at the i-th of `n` live contexts, where the guard's code
   * derives `fragments`: the clone if there is one, then what the code does.
   */
  function UseOps(table: GuardTable, cache: Entries, r: Request, i: nat, n: nat,
      fragments: seq<PathFragment>): seq<Op> {
    (if r.guard in cache then [] else [CloneOp(i, RunsOnClone(table, cache, r.guard))])
    + (if RunsOnClone(table, cache, r.guard) then Derives(n, fragments) else [])
    + (if RunsOnOriginal(table, cache, r) then Derives(i, fragments) else [])
  }

  lemma {:induction false} DerivesDisciplined(run: Run, i: nat, fragments: seq<PathFragment>)
    requires i < |run.live| && !run.live[i].idle
    ensures Disciplined(run, Derives(i, fragments))
    decreases |fragments|
  {
    if fragments != [] {
      var ops := Derives(i, fragments);
      assert ops[1..] == Derives(i, fragments[1..]);
      DerivesDisciplined(Step(run, ops[0]), i, fragments[1..]);
    }
  }

  lemma DisciplinedCons(run: Run, op: Op, ops: seq<Op>)
    requires !op.DeriveOp? && Disciplined(Step(run, op), ops)
    ensures Disciplined(run, [op] + ops)
  {
    assert ([op] + ops)[1..] == ops;
  }

  /** The cache never lets both copies of a context derive. */
  lemma UseIsDisciplined(table: GuardTable, cache: Entries, r: Request, run: Run, i: nat, fragments: seq<PathFragment>)
    requires i < |run.live| && !run.live[i].idle
    ensures !RunsOnClone(table, cache, r.guard) || !RunsOnOriginal(table, cache, r)
    ensures Disciplined(run, UseOps(table, cache, r, i, |run.live|, fragments))
  {
    var n := |run.live|;
    var onClone, onOriginal := RunsOnClone(table, cache, r.guard), RunsOnOriginal(table, cache, r);
    var ops := if onClone then Derives(n, fragments) else if onOriginal then Derives(i, fragments) else [];
    if r.guard in cache {
      assert UseOps(table, cache, r, i, n, fragments) == ops;
      if onOriginal {
        DerivesDisciplined(run, i, fragments);
      }
    } else {
      assert UseOps(table, cache, r, i, n, fragments) == [CloneOp(i, onClone)] + ops;
      var next := Step(run, CloneOp(i, onClone));
      if onClone {
        DerivesDisciplined(next, n, fragments);
      } else if onOriginal {
        DerivesDisciplined(next, i, fragments);
      }
      DisciplinedCons(run, CloneOp(i, onClone), ops);
    }
  }

  // ------------------------------------------------------------- conjunction

  function NonTrivial(cs: seq<Clause>): seq<Clause> {
    if cs == [] then [] else (if cs[0] != Trivial then [cs[0]] else []) + NonTrivial(cs[1..])
  }

  function Conjoin(cs: seq<Clause>): Clause {
    var clauses := NonTrivial(cs);
    if clauses == [] then Trivial
    else if |clauses| == 1 then clauses[0]
    else And(clauses)
  }

  lemma AllSatCons(c: Clause, cs: seq<Clause>, w: World)
    ensures AllSat([c] + cs, w) <==> Sat(c, w) && AllSat(cs, w)
  {
    var all := [c] + cs;
    if AllSat(all, w) {
      forall i | 0 <= i < |cs| ensures Sat(cs[i], w) {
        assert cs[i] == all[i + 1];
      }
      assert all[0] == c;
    }
  }

  lemma {:induction false} NonTrivialMeaning(cs: seq<Clause>, w: World)
    ensures AllSat(NonTrivial(cs), w) <==> AllSat(cs, w)
  {
    if cs != [] {
      NonTrivialMeaning(cs[1..], w);
      assert cs == [cs[0]] + cs[1..];
      AllSatCons(cs[0], cs[1..], w);
      AllSatCons(cs[0], NonTrivial(cs[1..]), w);
      if cs[0] == Trivial {
        assert NonTrivial(cs) == NonTrivial(cs[1..]);
      }
    }
  }

  /** Dropping trivial guards and unwrapping a lone one keeps the meaning. */
  lemma ConjoinMeaning(cs: seq<Clause>, w: World)
    ensures Sat(Conjoin(cs), w) <==> AllSat(cs, w)
  {
    NonTrivialMeaning(cs, w);
  }

  /**
   * The guards of one list, used one after the other below `base`, each at a
   * numbered context from which `taken` was derived.
   */
  function RequestsAt(guards: seq<GuardFn>, funds: Amount, base: ReversePath, from: nat, taken: set<PathFragment>):
      (r: seq<Request>)
    ensures |r| == |guards|
    ensures forall i :: 0 <= i < |guards| ==> r[i] == RequestAt(guards[i], funds, base, from + i, taken)
  {
    if guards == [] then []
    else [RequestAt(guards[0], funds, base, from, taken)] + RequestsAt(guards[1..], funds, base, from + 1, taken)
  }

  function RequestAt(g: GuardFn, funds: Amount, base: ReversePath, i: nat, taken: set<PathFragment>): Request {
    Request(g, ContextView(funds, Child(base, Branch(i)), taken))
  }

  /** The answers to the uses of guards number `lo` to `hi` of a log. */
  function Answers(table: GuardTable, log: seq<Request>, lo: nat, hi: nat): seq<Option<Clause>>
    requires lo <= hi <= |log|
  {
    seq(hi - lo, i requires 0 <= i < hi - lo => Answer(table, log, lo + i))
  }

  lemma AnswersStable(table: GuardTable, log: seq<Request>, more: seq<Request>, lo: nat, hi: nat)
    requires lo <= hi <= |log|
    ensures Answers(table, log + more, lo, hi) == Answers(table, log, lo, hi)
  {
    var after, before := Answers(table, log + more, lo, hi), Answers(table, log, lo, hi);
    forall i | 0 <= i < hi - lo ensures after[i] == before[i] {
      AnswerStable(table, log, more, lo + i);
    }
  }

  lemma AnswersNext(table: GuardTable, log: seq<Request>, r: Request, after: seq<Request>, lo: nat)
    requires lo <= |log| && after == log + [r]
    ensures Answers(table, after, lo, |after|) == Answers(table, log, lo, |log|) + [Answer(table, after, |log|)]
  {
    AnswersStable(table, log, [r], lo, |log|);
  }

  // ------------------------------------------- the supply of guard contexts

  /**
   * One draw from the supply of guard contexts as it is written: both steps
   * are taken below the same context, so the second can succeed only once.
   */
  function Draw(c: ContextView, i: nat): (ContextView, bool) {
    match Derived(c, Branch(i))
    case Err(_) => (c, false)
    case Ok((c1, _)) =>
      match Derived(c1, Metadata)
      case Err(_) => (c1, false)
      case Ok((c2, _)) => (c2, true)
  }

  /** How many pairs the supply yields over the draws numbered `i` to `n`. */
  function PairsDrawn(c: ContextView, i: nat, n: nat): nat
    decreases n - i
  {
    if i >= n then 0
    else (if Draw(c, i).1 then 1 else 0) + PairsDrawn(Draw(c, i).0, i + 1, n)
  }

  lemma {:induction false} NothingAfterMetadata(c: ContextView, i: nat, n: nat)
    requires Metadata in c.derived
    ensures PairsDrawn(c, i, n) == 0
    decreases n - i
  {
    if i < n {
      NothingAfterMetadata(Draw(c, i).0, i + 1, n);
    }
  }

  /**
   * However long it is drawn from, the supply as written yields one pair of
   * contexts: a second guard is never given one.
   */
  lemma SupplyYieldsOnePair(c: ContextView, n: nat)
    requires c.derived == {} && n >= 1
    ensures PairsDrawn(c, 0, n) == 1
  {
    NothingAfterMetadata(Draw(c, 0).0, 1, n);
  }

  /** Whether drawing often enough yields a pair of contexts for each of `k` guards. */
  ghost predicate Supplied(c: ContextView, k: nat) {
    k == 0 || exists n: nat :: PairsDrawn(c, 0, n) >= k
  }

  /** The supply of an unused context serves no more than one guard. */
  lemma SuppliedIffAtMostOne(c: ContextView, k: nat)
    requires c.derived == {}
    ensures Supplied(c, k) <==> k <= 1
  {
    SupplyYieldsOnePair(c, 1);
    forall n: nat ensures PairsDrawn(c, 0, n) <= 1 {
      if n >= 1 {
        SupplyYieldsOnePair(c, n);
      }
    }
  }

  // -------------------------------------------------------- evaluating guards

  /**
   * Evaluates one guard in the i-th context below `ctx`. The context for its
   * metadata is taken below that one if `nested`, and else next to it.
   */
  method EvaluateGuard(g: GuardFn, i: nat, ctx: Context, gc: GuardCache, nested: bool) returns (value: Option<Clause>)
    requires gc.Valid() && Branch(i) !in ctx.alreadyDerived && (nested || Metadata !in ctx.alreadyDerived)
    modifies gc, ctx`alreadyDerived
    ensures gc.Valid()
    ensures ctx.alreadyDerived == old(ctx.alreadyDerived) + {Branch(i)} + if nested then {} else {Metadata}
    ensures gc.log ==
            old(gc.log) + [RequestAt(g, ctx.availableFunds, ctx.path, i, if nested then {Metadata} else {})]
    ensures value == Answer(gc.table, gc.log, |old(gc.log)|)
  {
    var at := ctx.Derive(Branch(i));
    var c := at.value;
    if nested {
      var simp := c.Derive(Metadata);
    } else {
      var simp := ctx.Derive(Metadata);
    }
    assert c.alreadyDerived == if nested then {Metadata} else {};
    value := gc.Get(g, c);
  }

  /** Evaluates the finish guards, each below its own numbered context. */
  method EvaluateGuards(guards: seq<GuardFn>, ctx: Context, gc: GuardCache) returns (values: seq<Option<Clause>>)
    requires gc.Valid() && ctx.alreadyDerived == {}
    modifies gc, ctx`alreadyDerived
    ensures gc.Valid()
    ensures gc.log == old(gc.log) + RequestsAt(guards, ctx.availableFunds, ctx.path, 0, {Metadata})
    ensures values == Answers(gc.table, gc.log, |old(gc.log)|, |gc.log|)
  {
    values := [];
    ghost var all := RequestsAt(guards, ctx.availableFunds, ctx.path, 0, {Metadata});
    ghost var start := gc.log;
    assert start + all[..0] == start;
    for i := 0 to |guards|
      invariant gc.Valid() && gc.log == start + all[..i]
      invariant forall f :: f in ctx.alreadyDerived ==> f.Branch? && f.index < i
      invariant values == Answers(gc.table, gc.log, |start|, |gc.log|)
    {
      ghost var before := gc.log;
      var value := EvaluateGuard(guards[i], i, ctx, gc, true);
      PrefixGrows(start, all, i);
      AnswersNext(gc.table, before, all[i], gc.log, |start|);
      values := values + [value];
    }
    assert all[..|guards|] == all;
  }

  /**
   * The conjunction of a function's guards. Once `Metadata` is derived the
   * supply of contexts runs on without yielding another pair, so a second
   * guard waits forever, which is told by None.
   */
  method CreateGuards(guards: seq<GuardFn>, ctx: Context, gc: GuardCache) returns (clause: Option<Clause>)
    requires gc.Valid() && ctx.alreadyDerived == {}
    modifies gc, ctx`alreadyDerived
    ensures gc.Valid()
    ensures clause.Some? <==> Supplied(old(ctx.View()), |guards|)
    ensures clause.Some? ==> gc.log == old(gc.log) + RequestsAt(guards, ctx.availableFunds, ctx.path, 0, {})
    ensures clause.Some? ==> clause.value == Conjoin(Somes(Answers(gc.table, gc.log, |old(gc.log)|, |gc.log|)))
  {
    SuppliedIffAtMostOne(ctx.View(), |guards|);
    var values: seq<Option<Clause>> := [];
    ghost var all := RequestsAt(guards, ctx.availableFunds, ctx.path, 0, {});
    ghost var start := gc.log;
    assert start + all[..0] == start;
    for i := 0 to |guards|
      invariant i <= 1 && ctx.alreadyDerived == if i == 0 then {} else {Branch(0), Metadata}
      invariant gc.Valid() && gc.log == start + all[..i]
      invariant values == Answers(gc.table, gc.log, |start|, |gc.log|)
    {
      if Metadata in ctx.alreadyDerived {
        return None;
      }
      ghost var before := gc.log;
      var value := EvaluateGuard(guards[i], i, ctx, gc, false);
      PrefixGrows(start, all, i);
      AnswersNext(gc.table, before, all[i], gc.log, |start|);
      values := values + [value];
    }
    assert all[..|guards|] == all;
    clause := Some(Conjoin(Somes(values)));
  }
}
