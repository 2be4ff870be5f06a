/** Conditional compilation: merging the verdicts that apply to one branch. */
module ConditionalCompile {
  import opened Sequences
  import opened Wrappers
  import opened EffectPaths
  import opened Contexts

  datatype CompileType =
    | Skippable
    | Nullable
    | Required
    | Never
    | NoConstraint
    | Fail(reasons: seq<string>)

  const CONFLICT := "Never and Required incompatible"

  function Merge(a: CompileType, b: CompileType): CompileType {
    match (a, b)
    case (NoConstraint, x) => x
    case (x, NoConstraint) => x
    case (Fail(v), Fail(v2)) => Fail(v + v2)
    case (Fail(v), _) => Fail(v)
    case (_, Fail(v)) => Fail(v)
    case (Required, Never) => Fail([CONFLICT])
    case (Never, Required) => Fail([CONFLICT])
    case (Never, _) => Never
    case (_, Never) => Never
    case (Required, _) => Required
    case (_, Required) => Required
    case (Skippable, _) => Skippable
    case (_, Skippable) => Skippable
    case (Nullable, Nullable) => Nullable
  }

  /** The fold over a branch's verdicts, from the left. */
  function MergeAll(acc: CompileType, verdicts: seq<CompileType>): CompileType
    decreases |verdicts|
  {
    if verdicts == [] then acc else MergeAll(Merge(acc, verdicts[0]), verdicts[1..])
  }

  // ------------------------------------------------- the documented precedence

  ghost predicate HasFail(vs: seq<CompileType>) {
    vs != [] && (vs[0].Fail? || HasFail(vs[1..]))
  }

  ghost predicate Conflicts(vs: multiset<CompileType>) {
    Required in vs && Never in vs
  }

  /** All reasons of the failing verdicts, in order. */
  function Reasons(vs: seq<CompileType>): seq<string> {
    if vs == [] then [] else (if vs[0].Fail? then vs[0].reasons else []) + Reasons(vs[1..])
  }

  /** The verdicts before the first failing one. */
  function BeforeFail(vs: seq<CompileType>): seq<CompileType> {
    if vs == [] || vs[0].Fail? then [] else [vs[0]] + BeforeFail(vs[1..])
  }

  /** What a set of verdicts amounts to, whatever their order. */
  ghost function Strongest(vs: multiset<CompileType>): CompileType {
    if Never in vs then Never
    else if Required in vs then Required
    else if Skippable in vs then Skippable
    else if Nullable in vs then Nullable
    else NoConstraint
  }

  ghost predicate Failing(vs: seq<CompileType>) {
    HasFail(vs) || Conflicts(multiset(vs))
  }

  lemma {:induction false} BeforeFailWithout(vs: seq<CompileType>)
    requires !HasFail(vs)
    ensures BeforeFail(vs) == vs && Reasons(vs) == []
  {
    if vs != [] {
      BeforeFailWithout(vs[1..]);
      assert vs == [vs[0]] + vs[1..];
    }
  }

  lemma {:induction false} HasFailAppend(vs: seq<CompileType>, v: CompileType)
    ensures HasFail(vs + [v]) <==> HasFail(vs) || v.Fail?
  {
    if vs == [] {
      assert (vs + [v])[1..] == [];
    } else {
      assert (vs + [v])[1..] == vs[1..] + [v];
      HasFailAppend(vs[1..], v);
    }
  }

  lemma {:induction false} ReasonsAppend(vs: seq<CompileType>, v: CompileType)
    ensures Reasons(vs + [v]) == Reasons(vs) + (if v.Fail? then v.reasons else [])
  {
    if vs == [] {
      assert (vs + [v])[1..] == [];
    } else {
      assert (vs + [v])[1..] == vs[1..] + [v];
      ReasonsAppend(vs[1..], v);
      ConcatAssociative(if vs[0].Fail? then vs[0].reasons else [], Reasons(vs[1..]), if v.Fail? then v.reasons else []);
    }
  }

  lemma {:induction false} BeforeFailAppend(vs: seq<CompileType>, v: CompileType)
    requires HasFail(vs) || v.Fail?
    ensures BeforeFail(vs + [v]) == BeforeFail(vs)
  {
    if vs == [] {
      assert vs + [v] == [v];
    } else {
      assert (vs + [v])[1..] == vs[1..] + [v];
      if !vs[0].Fail? {
        BeforeFailAppend(vs[1..], v);
      }
    }
  }

  lemma MergeAllAppend(acc: CompileType, vs: seq<CompileType>, v: CompileType)
    ensures MergeAll(acc, vs + [v]) == Merge(MergeAll(acc, vs), v)
    decreases |vs|
  {
    if vs == [] {
      assert (vs + [v])[1..] == [];
    } else {
      assert (vs + [v])[1..] == vs[1..] + [v];
      MergeAllAppend(Merge(acc, vs[0]), vs[1..], v);
    }
  }

  /** The conflict message, if Required met Never before anything failed. */
  ghost function ConflictFirst(vs: seq<CompileType>): seq<string> {
    if Conflicts(multiset(BeforeFail(vs))) then [CONFLICT] else []
  }

  /** What the fold must yield, told without folding. */
  ghost function Verdict(vs: seq<CompileType>): CompileType {
    if Failing(vs) then
      Fail(ConflictFirst(vs) + Reasons(vs))
    else
      Strongest(multiset(vs))
  }

  lemma StrongestAdd(m: multiset<CompileType>, v: CompileType)
    requires !v.Fail? && !Conflicts(m)
    ensures Conflicts(m + multiset{v}) <==> Merge(Strongest(m), v).Fail?
    ensures !Conflicts(m + multiset{v}) ==> Merge(Strongest(m), v) == Strongest(m + multiset{v})
    ensures Conflicts(m + multiset{v}) ==> Merge(Strongest(m), v) == Fail([CONFLICT])
  {
  }

  lemma VerdictOfFailing(vs: seq<CompileType>)
    requires HasFail(vs)
    ensures Verdict(vs) == Fail(ConflictFirst(vs) + Reasons(vs))
  {
  }

  lemma VerdictAfterFail(vs: seq<CompileType>, v: CompileType)
    requires HasFail(vs)
    ensures Verdict(vs + [v]) == Merge(Verdict(vs), v)
  {
    HasFailAppend(vs, v);
    BeforeFailAppend(vs, v);
    ReasonsAppend(vs, v);
    VerdictOfFailing(vs);
    VerdictOfFailing(vs + [v]);
    if v.Fail? {
      ConcatAssociative(ConflictFirst(vs), Reasons(vs), v.reasons);
    }
  }

  lemma VerdictBeforeFail(vs: seq<CompileType>, v: CompileType)
    requires !HasFail(vs) && !v.Fail?
    ensures Verdict(vs + [v]) == Merge(Verdict(vs), v)
  {
    HasFailAppend(vs, v);
    BeforeFailWithout(vs);
    BeforeFailWithout(vs + [v]);
    assert multiset(vs + [v]) == multiset(vs) + multiset{v};
    if !Conflicts(multiset(vs)) {
      StrongestAdd(multiset(vs), v);
    }
  }

  lemma MergeFailRight(a: CompileType, reasons: seq<string>)
    ensures Merge(a, Fail(reasons)) == Fail((if a.Fail? then a.reasons else []) + reasons)
  {
  }

  lemma VerdictFirstFail(vs: seq<CompileType>, v: CompileType)
    requires !HasFail(vs) && v.Fail?
    ensures Verdict(vs + [v]) == Merge(Verdict(vs), v)
  {
    var all := vs + [v];
    var conflict := ConflictFirst(vs);
    assert HasFail(all) && Reasons(all) == v.reasons && ConflictFirst(all) == conflict by {
      HasFailAppend(vs, v);
      ReasonsAppend(vs, v);
      BeforeFailAppend(vs, v);
      BeforeFailWithout(vs);
    }
    assert Verdict(all) == Fail(conflict + v.reasons);
    MergeFailRight(Verdict(vs), v.reasons);
    assert Verdict(vs).Fail? ==> Verdict(vs).reasons == conflict by {
      BeforeFailWithout(vs);
    }
    assert !Verdict(vs).Fail? ==> conflict == [] by {
      BeforeFailWithout(vs);
    }
  }

  lemma VerdictAppend(vs: seq<CompileType>, v: CompileType)
    ensures Verdict(vs + [v]) == Merge(Verdict(vs), v)
  {
    if HasFail(vs) {
      VerdictAfterFail(vs, v);
    } else if v.Fail? {
      VerdictFirstFail(vs, v);
    } else {
      VerdictBeforeFail(vs, v);
    }
  }

  /**
   * The fold fails exactly when some verdict fails or Required meets Never,
   * and otherwise yields the strongest verdict. Its reasons are those given,
   * in order, after the conflict message if the conflict came first.
   */
  lemma {:induction false} MergeAllIsVerdict(vs: seq<CompileType>)
    ensures MergeAll(NoConstraint, vs) == Verdict(vs)
  {
    if vs == [] {
      assert multiset(vs) == multiset{};
    } else {
      var n := |vs| - 1;
      assert vs == vs[..n] + [vs[n]];
      MergeAllIsVerdict(vs[..n]);
      MergeAllAppend(NoConstraint, vs[..n], vs[n]);
      VerdictAppend(vs[..n], vs[n]);
    }
  }

  /** Reordering verdicts never changes which kind of verdict results. */
  lemma MergeOrderIrrelevant(vs: seq<CompileType>, ws: seq<CompileType>)
    requires multiset(vs) == multiset(ws)
    ensures MergeAll(NoConstraint, vs).Fail? <==> MergeAll(NoConstraint, ws).Fail?
    ensures !MergeAll(NoConstraint, vs).Fail? ==> MergeAll(NoConstraint, vs) == MergeAll(NoConstraint, ws)
  {
    MergeAllIsVerdict(vs);
    MergeAllIsVerdict(ws);
    HasFailOfMultiset(vs, ws);
    HasFailOfMultiset(ws, vs);
  }

  lemma {:induction false} HasFailMember(vs: seq<CompileType>)
    ensures HasFail(vs) <==> exists v :: v in vs && v.Fail?
  {
    if vs != [] {
      HasFailMember(vs[1..]);
      assert forall v :: v in vs <==> v == vs[0] || v in vs[1..];
    }
  }

  lemma HasFailOfMultiset(vs: seq<CompileType>, ws: seq<CompileType>)
    requires multiset(vs) == multiset(ws)
    ensures HasFail(vs) ==> HasFail(ws)
  {
    HasFailMember(vs);
    HasFailMember(ws);
    if v :| v in vs && v.Fail? {
      assert v in multiset(vs) && v in multiset(ws);
    }
  }

  // ------------------------------------------------- evaluating the verdicts

  type Condition = ContextView -> CompileType

  /** The verdicts of the conditions that are present, numbered from `from`. */
  function Verdicts(conditions: seq<Option<Condition>>, funds: Amount, base: ReversePath, from: nat): seq<CompileType>
    decreases |conditions|
  {
    if conditions == [] then []
    else if conditions[0].None? then Verdicts(conditions[1..], funds, base, from)
    else [conditions[0].value(ContextView(funds, Child(base, Branch(from)), {}))]
         + Verdicts(conditions[1..], funds, base, from + 1)
  }

  /** Folds the verdicts, each evaluated in its own numbered context. */
  method Assemble(conditions: seq<Option<Condition>>, ctx: Context) returns (r: CompileType)
    requires ctx.alreadyDerived == {}
    modifies ctx`alreadyDerived
    ensures r == MergeAll(NoConstraint, Verdicts(conditions, ctx.availableFunds, ctx.path, 0))
  {
    r := NoConstraint;
    var next: nat := 0;
    for i := 0 to |conditions|
      invariant forall f :: f in ctx.alreadyDerived ==> f.Branch? && f.index < next
      invariant MergeAll(r, Verdicts(conditions[i..], ctx.availableFunds, ctx.path, next))
             == MergeAll(NoConstraint, Verdicts(conditions, ctx.availableFunds, ctx.path, 0))
    {
      assert conditions[i..][1..] == conditions[i + 1..];
      if conditions[i].Some? {
        var at := ctx.Derive(Branch(next));
        var verdict := conditions[i].value(ContextView(at.value.availableFunds, at.value.path,
            at.value.alreadyDerived));
        MergeAllCons(r, verdict, Verdicts(conditions[i + 1..], ctx.availableFunds, ctx.path, next + 1));
        r := Merge(r, verdict);
        next := next + 1;
      }
    }
  }

  lemma MergeAllCons(acc: CompileType, v: CompileType, vs: seq<CompileType>)
    ensures MergeAll(acc, [v] + vs) == MergeAll(Merge(acc, v), vs)
  {
    assert ([v] + vs)[1..] == vs;
  }
}
