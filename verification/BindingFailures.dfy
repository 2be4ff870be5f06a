/**
 * When a binding succeeds, and with which error it fails: told template by
 * template, in visit order.
 */
module BindingFailures {
  import opened Wrappers
  import opened Templates
  import opened TxIndexes
  import opened Binder

  /** The transaction of a template that spends `out`, with mocks from `mocked` on. */
  function RelinkedTx(t: Template, out: OutPoint, mocked: nat, b: Binding): Transaction {
    t.tx.(input := Relinked(t, out, mocked, b, 0))
  }

  /** What is wrong with a template at its place: no input, too few outpoints, or a refusal. */
  function Fault(t: Template, out: OutPoint, mocked: nat, b: Binding): Option<BindError> {
    if |t.tx.input| == 0 || (t.ctv in b.outputMap && |b.outputMap[t.ctv]| < |t.tx.input| && |t.tx.input| > 1)
    then Some(Panic("index out of bounds"))
    else b.fails(RelinkedTx(t, out, mocked, b))
  }

  /** The first fault of some templates in order. */
  function FirstFault(faults: seq<Option<BindError>>): Option<BindError> {
    if faults == [] then None else if faults[0].Some? then faults[0] else FirstFault(faults[1..])
  }

  /** The faults of an object's templates, each after the mocks of those before it. */
  function FaultsOf(ts: seq<Template>, out: OutPoint, mocked: nat, b: Binding): seq<Option<BindError>>
    decreases |ts|
  {
    if ts == [] then []
    else [Fault(ts[0], out, mocked, b)] + FaultsOf(ts[1..], out, mocked + ExtraInputs(ts[..1]), b)
  }

  /** The objects that some templates pay, each with the coin that it is to hold. */
  function CoinsOf(ts: seq<Template>, out: OutPoint, mocked: nat, b: Binding): seq<Task>
    decreases |ts|
  {
    if ts == [] then []
    else
      Children(b.txidOf(RelinkedTx(ts[0], out, mocked, b)), ts[0].outputs, 0)
      + CoinsOf(ts[1..], out, mocked + ExtraInputs(ts[..1]), b)
  }

  lemma {:induction false} CoinsOrder(ts: seq<Template>, out: OutPoint, mocked: nat, b: Binding)
    ensures OrderWaiting(CoinsOf(ts, out, mocked, b)) == OrderIn(ts)
    decreases |ts|
  {
    if ts != [] {
      var txid, more := b.txidOf(RelinkedTx(ts[0], out, mocked, b)), mocked + ExtraInputs(ts[..1]);
      CoinsOrder(ts[1..], out, more, b);
      ChildrenOrder(txid, ts[0].outputs, 0);
      OrderWaitingConcat(Children(txid, ts[0].outputs, 0), CoinsOf(ts[1..], out, more, b));
    }
  }

  lemma CoinsBelow(o: Object, out: OutPoint, mocked: nat, b: Binding)
    ensures [o] + OrderWaiting(CoinsOf(TemplatesOf(o), out, mocked, b)) == VisitOrder(o)
  {
    CoinsOrder(TemplatesOf(o), out, mocked, b);
    OrderInConcat(o.ctvToTx, o.suggestedTxs);
  }

  lemma CoinsFewer(o: Object, coins: seq<Task>)
    requires [o] + OrderWaiting(coins) == VisitOrder(o)
    ensures |OrderWaiting(coins)| < |VisitOrder(o)|
  {
  }

  lemma BoundFewer(task: Task, s: State, b: Binding, coins: seq<Task>)
    requires BindAll(TemplatesOf(task.contract), task.out, s, b).Ok?
    requires coins == BindAll(TemplatesOf(task.contract), task.out, s, b).value.1
    ensures |OrderWaiting(coins)| < |VisitOrder(task.contract)|
  {
    TaskOrder(task.contract, task.out, s, b);
    CoinsFewer(task.contract, coins);
  }

  /** The faults of all templates that are reached from an object, in visit order. */
  ghost function Faults(task: Task, mocked: nat, b: Binding): seq<Option<BindError>>
    decreases |VisitOrder(task.contract)|, 0
  {
    var ts := TemplatesOf(task.contract);
    CoinsBelow(task.contract, task.out, mocked, b);
    FaultsOf(ts, task.out, mocked, b) + FaultsAll(CoinsOf(ts, task.out, mocked, b), mocked + ExtraInputs(ts), b)
  }

  ghost function FaultsAll(tasks: seq<Task>, mocked: nat, b: Binding): seq<Option<BindError>>
    decreases |OrderWaiting(tasks)|, 1, |tasks|
  {
    if tasks == [] then []
    else
      var n := |tasks| - 1;
      Faults(tasks[n], mocked, b)
      + FaultsAll(tasks[..n], mocked + ExtraInputsOf(VisitOrder(tasks[n].contract)), b)
  }

  lemma {:induction false} FirstFaultConcat(a: seq<Option<BindError>>, c: seq<Option<BindError>>)
    ensures FirstFault(a + c) == if FirstFault(a).Some? then FirstFault(a) else FirstFault(c)
  {
    if a == [] {
      assert a + c == c;
    } else {
      assert (a + c)[1..] == a[1..] + c;
      FirstFaultConcat(a[1..], c);
    }
  }

  /** A binding fails exactly with the first fault there is. */
  ghost predicate FailsWith<T>(r: Result<T, BindError>, fault: Option<BindError>) {
    match fault
    case None => r.Ok?
    case Some(e) => r == Err(e)
  }

  lemma OneFails(t: Template, out: OutPoint, s: State, b: Binding)
    ensures FailsWith(BindOne(t, out, s, b), Fault(t, out, s.mocked, b))
    ensures BindOne(t, out, s, b).Ok? ==>
              && BindOne(t, out, s, b).value.0.tx == RelinkedTx(t, out, s.mocked, b)
              && BindOne(t, out, s, b).value.0.txid == b.txidOf(RelinkedTx(t, out, s.mocked, b))
              && BindOne(t, out, s, b).value.1.mocked == s.mocked + ExtraInputs([t])
  {
    assert [t][1..] == [];
  }

  lemma {:induction false} ObjectFails(ts: seq<Template>, out: OutPoint, s: State, b: Binding)
    ensures FailsWith(BindAll(ts, out, s, b), FirstFault(FaultsOf(ts, out, s.mocked, b)))
    ensures BindAll(ts, out, s, b).Ok? ==>
              && BindAll(ts, out, s, b).value.1 == CoinsOf(ts, out, s.mocked, b)
              && BindAll(ts, out, s, b).value.2.mocked == s.mocked + ExtraInputs(ts)
    decreases |ts|
  {
    if ts != [] {
      assert ts[..1] == [ts[0]];
      OneFails(ts[0], out, s, b);
      var faults := FaultsOf(ts, out, s.mocked, b);
      assert faults[1..] == FaultsOf(ts[1..], out, s.mocked + ExtraInputs(ts[..1]), b);
      if BindOne(ts[0], out, s, b).Ok? {
        ObjectFails(ts[1..], out, BindOne(ts[0], out, s, b).value.1, b);
        assert [ts[0]][1..] == [];
      }
    }
  }

  /** A walk fails where its object does. */
  lemma WalkStops(task: Task, s: State, b: Binding, own: seq<Option<BindError>>, faults: seq<Option<BindError>>)
    requires BindAll(TemplatesOf(task.contract), task.out, s, b).Err?
    requires FailsWith(BindAll(TemplatesOf(task.contract), task.out, s, b), FirstFault(own)) && own <= faults
    ensures FailsWith(Walk(task, s, b), FirstFault(faults))
  {
    FirstFaultConcat(own, faults[|own|..]);
    assert own + faults[|own|..] == faults;
  }

  /** Where the object is bound the walk fails as the one over what is below. */
  lemma WalkGoesOn(task: Task, s: State, b: Binding, children: seq<Task>, next: State,
      own: seq<Option<BindError>>, below: seq<Option<BindError>>)
    requires BindAll(TemplatesOf(task.contract), task.out, s, b).Ok? && FirstFault(own).None?
    requires children == BindAll(TemplatesOf(task.contract), task.out, s, b).value.1
    requires next == BindAll(TemplatesOf(task.contract), task.out, s, b).value.2
    requires FailsWith(WalkAll(children, next, b), FirstFault(below))
    ensures FailsWith(Walk(task, s, b), FirstFault(own + below))
  {
    FirstFaultConcat(own, below);
  }

  /**
   * A walk succeeds exactly if no template that is reached has a fault, and
   * else fails with the fault of the first one in visit order.
   */
  lemma {:induction false} WalkFails(task: Task, s: State, b: Binding)
    ensures FailsWith(Walk(task, s, b), FirstFault(Faults(task, s.mocked, b)))
    decreases |VisitOrder(task.contract)|, 0, 1
  {
    var ts := TemplatesOf(task.contract);
    var own, coins := FaultsOf(ts, task.out, s.mocked, b), CoinsOf(ts, task.out, s.mocked, b);
    ObjectFails(ts, task.out, s, b);
    FaultsBelow(task, s.mocked, b, coins, s.mocked + ExtraInputs(ts), own);
    if BindAll(ts, task.out, s, b).Err? {
      WalkStops(task, s, b, own, Faults(task, s.mocked, b));
    } else {
      WalkBelow(task, s, b, own, coins, BindAll(ts, task.out, s, b).value.2, Faults(task, s.mocked, b));
    }
  }

  lemma {:induction false} WalkBelow(task: Task, s: State, b: Binding, own: seq<Option<BindError>>, coins: seq<Task>,
      next: State, faults: seq<Option<BindError>>)
    requires BindAll(TemplatesOf(task.contract), task.out, s, b).Ok? && FirstFault(own).None?
    requires coins == BindAll(TemplatesOf(task.contract), task.out, s, b).value.1
    requires next == BindAll(TemplatesOf(task.contract), task.out, s, b).value.2
    requires faults == own + FaultsAll(coins, next.mocked, b)
    ensures FailsWith(Walk(task, s, b), FirstFault(faults))
    decreases |VisitOrder(task.contract)|, 0, 0
  {
    BoundFewer(task, s, b, coins);
    WalkAllFails(coins, next, b);
    WalkGoesOn(task, s, b, coins, next, own, FaultsAll(coins, next.mocked, b));
  }

  lemma FaultsBelow(task: Task, mocked: nat, b: Binding, coins: seq<Task>, more: nat, own: seq<Option<BindError>>)
    requires own == FaultsOf(TemplatesOf(task.contract), task.out, mocked, b)
    requires coins == CoinsOf(TemplatesOf(task.contract), task.out, mocked, b)
    requires more == mocked + ExtraInputs(TemplatesOf(task.contract))
    ensures Faults(task, mocked, b) == own + FaultsAll(coins, more, b)
  {
  }

  lemma {:induction false} WalkAllFails(tasks: seq<Task>, s: State, b: Binding)
    ensures FailsWith(WalkAll(tasks, s, b), FirstFault(FaultsAll(tasks, s.mocked, b)))
    decreases |OrderWaiting(tasks)|, 1, |tasks|
  {
    if tasks != [] {
      var n := |tasks| - 1;
      var more := ExtraInputsOf(VisitOrder(tasks[n].contract));
      WalkFails(tasks[n], s, b);
      FirstFaultConcat(Faults(tasks[n], s.mocked, b), FaultsAll(tasks[..n], s.mocked + more, b));
      if Walk(tasks[n], s, b).Ok? {
        WalkMocks(tasks[n], s, b);
        WalkAllFails(tasks[..n], Walk(tasks[n], s, b).value.state, b);
      }
    }
  }

  // ------------------------------------------------------- which templates these are

  /** The templates of some objects, in order. */
  function TemplatesIn(os: seq<Object>): seq<Template> {
    if os == [] then [] else TemplatesOf(os[0]) + TemplatesIn(os[1..])
  }

  lemma {:induction false} TemplatesInConcat(a: seq<Object>, c: seq<Object>)
    ensures TemplatesIn(a + c) == TemplatesIn(a) + TemplatesIn(c)
  {
    if a == [] {
      assert a + c == c;
    } else {
      assert (a + c)[1..] == a[1..] + c;
      TemplatesInConcat(a[1..], c);
    }
  }

  /** Each entry is the fault of the template at the same place, for some coin and some mocks. */
  ghost predicate FaultsFor(faults: seq<Option<BindError>>, ts: seq<Template>, b: Binding) {
    && |faults| == |ts|
    && forall k :: 0 <= k < |ts| ==> FaultFor(faults[k], ts[k], b)
  }

  ghost predicate FaultFor(fault: Option<BindError>, t: Template, b: Binding) {
    exists out, mocked: nat :: fault == Fault(t, out, mocked, b)
  }

  lemma {:induction false} FaultsOfFor(ts: seq<Template>, out: OutPoint, mocked: nat, b: Binding)
    ensures FaultsFor(FaultsOf(ts, out, mocked, b), ts, b)
    decreases |ts|
  {
    if ts != [] {
      var rest := FaultsOf(ts[1..], out, mocked + ExtraInputs(ts[..1]), b);
      FaultsOfFor(ts[1..], out, mocked + ExtraInputs(ts[..1]), b);
      assert FaultFor(Fault(ts[0], out, mocked, b), ts[0], b);
      FaultsForConcat([Fault(ts[0], out, mocked, b)], [ts[0]], rest, ts[1..], b);
      assert ts == [ts[0]] + ts[1..];
    }
  }

  lemma FaultsForConcat(f: seq<Option<BindError>>, ts: seq<Template>, g: seq<Option<BindError>>, us: seq<Template>,
      b: Binding)
    requires FaultsFor(f, ts, b) && FaultsFor(g, us, b)
    ensures FaultsFor(f + g, ts + us, b)
  {
  }

  /** One entry for each template of each object, in visit order. */
  lemma {:induction false} FaultsInOrder(task: Task, mocked: nat, b: Binding)
    ensures FaultsFor(Faults(task, mocked, b), TemplatesIn(VisitOrder(task.contract)), b)
    decreases |VisitOrder(task.contract)|, 0
  {
    var ts := TemplatesOf(task.contract);
    var coins := CoinsOf(ts, task.out, mocked, b);
    CoinsBelow(task.contract, task.out, mocked, b);
    FaultsOfFor(ts, task.out, mocked, b);
    FaultsAllInOrder(coins, mocked + ExtraInputs(ts), b);
    FaultsForConcat(FaultsOf(ts, task.out, mocked, b), ts, FaultsAll(coins, mocked + ExtraInputs(ts), b),
        TemplatesIn(OrderWaiting(coins)), b);
    TemplatesBelow(task.contract, OrderWaiting(coins));
  }

  lemma TemplatesBelow(o: Object, below: seq<Object>)
    ensures TemplatesIn([o] + below) == TemplatesOf(o) + TemplatesIn(below)
  {
    assert ([o] + below)[1..] == below;
  }

  lemma {:induction false} FaultsAllInOrder(tasks: seq<Task>, mocked: nat, b: Binding)
    ensures FaultsFor(FaultsAll(tasks, mocked, b), TemplatesIn(OrderWaiting(tasks)), b)
    decreases |OrderWaiting(tasks)|, 1, |tasks|
  {
    if tasks != [] {
      var n := |tasks| - 1;
      var here, more := VisitOrder(tasks[n].contract), mocked + ExtraInputsOf(VisitOrder(tasks[n].contract));
      FaultsInOrder(tasks[n], mocked, b);
      FaultsAllInOrder(tasks[..n], more, b);
      FaultsForConcat(Faults(tasks[n], mocked, b), TemplatesIn(here), FaultsAll(tasks[..n], more, b),
          TemplatesIn(OrderWaiting(tasks[..n])), b);
      TemplatesInConcat(here, OrderWaiting(tasks[..n]));
    }
  }

  lemma {:induction false} FirstFaultAt(faults: seq<Option<BindError>>) returns (k: nat)
    ensures k <= |faults| && forall m :: 0 <= m < k ==> faults[m].None?
    ensures FirstFault(faults) == if k < |faults| then faults[k] else None
    ensures k < |faults| ==> faults[k].Some?
  {
    if faults == [] || faults[0].Some? {
      k := 0;
    } else {
      var j := FirstFaultAt(faults[1..]);
      k := j + 1;
      assert forall m :: 1 <= m < k ==> faults[m] == faults[1..][m - 1];
    }
  }

  /**
   * A binding that fails does so with the fault of some template that is
   * reached, and no template before this one has a fault.
   */
  lemma BindingFailsAt(root: Object, out: OutPoint, s: State, b: Binding, e: BindError) returns (k: nat)
    requires Walk(Task(out, root), s, b) == Err(e)
    ensures k < |TemplatesIn(VisitOrder(root))| == |Faults(Task(out, root), s.mocked, b)|
    ensures FaultFor(Some(e), TemplatesIn(VisitOrder(root))[k], b)
    ensures forall m :: 0 <= m < k ==> Faults(Task(out, root), s.mocked, b)[m].None?
  {
    WalkFails(Task(out, root), s, b);
    FaultsInOrder(Task(out, root), s.mocked, b);
    k := FirstFaultAt(Faults(Task(out, root), s.mocked, b));
  }

  /** A template with inputs and enough outpoints that nothing refuses, whatever it is linked to. */
  ghost predicate Sound(t: Template, b: Binding) {
    && t.tx.input != [] && !(t.ctv in b.outputMap && |t.tx.input| > 1 && |b.outputMap[t.ctv]| < |t.tx.input|)
    && forall out, mocked: nat :: b.fails(RelinkedTx(t, out, mocked, b)).None?
  }

  /** Where every template is sound the binding succeeds. */
  lemma SoundTemplatesBind(root: Object, out: OutPoint, s: State, b: Binding)
    requires forall t :: t in TemplatesIn(VisitOrder(root)) ==> Sound(t, b)
    ensures Walk(Task(out, root), s, b).Ok?
  {
    var faults, ts := Faults(Task(out, root), s.mocked, b), TemplatesIn(VisitOrder(root));
    WalkFails(Task(out, root), s, b);
    FaultsInOrder(Task(out, root), s.mocked, b);
    forall k | 0 <= k < |faults| ensures faults[k].None? {
      SoundHasNoFault(ts[k], faults[k], b);
    }
    var k := FirstFaultAt(faults);
  }

  lemma SoundHasNoFault(t: Template, fault: Option<BindError>, b: Binding)
    requires Sound(t, b) && FaultFor(fault, t, b)
    ensures fault.None?
  {
  }
}
