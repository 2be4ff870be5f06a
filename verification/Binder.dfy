/**
 * Binding a compiled object to a coin: the stack loop that links every
 * transaction of the tree to its parent's outputs.
 */
module Binder {
  import opened Sequences
  import opened Wrappers
  import opened Bytes
  import opened Policies
  import opened EffectPaths
  import opened Templates
  import opened TxIndexes

  datatype BindError = ScriptsNotListed | SigningFailed | IndexRefused | Panic(what: string)

  /**
   * The surroundings of a binding that the loop only reads. A relinked
   * transaction may fail when its scripts are re-listed, when it is signed, or
   * when the index is given it.
   */
  datatype Binding = Binding(
    outputMap: map<Hash, seq<Option<OutPoint>>>,
    txidOf: TxidOf,
    fails: Transaction -> Option<BindError>)

  /** A transaction linked to its coin, with the outputs that it spends if known. */
  datatype BoundTx = BoundTx(tx: Transaction, txid: Txid, mocks: seq<OutPoint>, utxos: seq<Option<TxOut>>)

  /** An object that was reached, the coin it was reached with, and its transactions. */
  datatype Visit = Visit(out: OutPoint, contract: Object, txs: seq<BoundTx>)

  /** Something to visit: a coin and the object that holds it. */
  datatype Task = Task(out: OutPoint, contract: Object)

  /** The running state: mock outpoints handed out so far, and the index. */
  datatype State = State(mocked: nat, index: Store)

  /** The transactions of an object, the tasks they leave, and the state after. */
  type BoundAll = Result<(seq<BoundTx>, seq<Task>, State), BindError>

  /** The n-th mock outpoint; the output number is a u32 that wraps. */
  function MockOut(n: nat): OutPoint {
    OutPoint(0, n % TWO_32)
  }

  function MockOuts(from: nat, n: nat): (r: seq<OutPoint>)
    ensures |r| == n
    decreases n
  {
    if n == 0 then [] else [MockOut(from)] + MockOuts(from + 1, n - 1)
  }

  lemma {:induction false} MockOutsAt(from: nat, n: nat, i: nat)
    requires i < n
    ensures MockOuts(from, n)[i] == OutPoint(0, (from + i) % TWO_32)
    decreases n
  {
    if i > 0 {
      MockOutsAt(from + 1, n - 1, i - 1);
    }
  }

  // -------------------------------------------------------- one transaction

  /** The outpoint that input `i` spends. */
  function SpentBy(t: Template, out: OutPoint, mocked: nat, b: Binding, i: nat): OutPoint {
    if i == 0 then out
    else if t.ctv in b.outputMap && i < |b.outputMap[t.ctv]| && b.outputMap[t.ctv][i].Some?
        then b.outputMap[t.ctv][i].value
    else MockOut(mocked + i - 1)
  }

  /** The inputs of a template's transaction, numbered from `i`, relinked. */
  function Relinked(t: Template, out: OutPoint, mocked: nat, b: Binding, i: nat): (r: seq<TxIn>)
    requires i <= |t.tx.input|
    ensures |r| == |t.tx.input| - i
    ensures forall j :: 0 <= j < |r| ==>
              r[j] == t.tx.input[i + j].(previousOutput := SpentBy(t, out, mocked, b, i + j))
    decreases |t.tx.input| - i
  {
    if i == |t.tx.input| then []
    else [t.tx.input[i].(previousOutput := SpentBy(t, out, mocked, b, i))] + Relinked(t, out, mocked, b, i + 1)
  }

  /** The output that an outpoint names, if the index knows it. */
  function OutputAt(s: Store, out: OutPoint): Option<TxOut> {
    match FindOutput(s, out) case Ok(o) => Some(o) case Err(_) => None
  }

  function Utxos(inputs: seq<TxIn>, index: Store): (r: seq<Option<TxOut>>)
    ensures |r| == |inputs|
    ensures forall i :: 0 <= i < |r| ==> r[i] == OutputAt(index, inputs[i].previousOutput)
  {
    if inputs == [] then []
    else [OutputAt(index, inputs[0].previousOutput)] + Utxos(inputs[1..], index)
  }

  /** A list of outpoints for a template must reach as far as its inputs do. */
  predicate OutputMapTooShort(t: Template, b: Binding) {
    t.ctv in b.outputMap && |t.tx.input| >= 2 && |b.outputMap[t.ctv]| < |t.tx.input|
  }

  function BindOne(t: Template, out: OutPoint, s: State, b: Binding): Result<(BoundTx, State), BindError> {
    if t.tx.input == [] then Err(Panic("index out of bounds"))
    else if OutputMapTooShort(t, b) then Err(Panic("index out of bounds"))
    else
      var tx := t.tx.(input := Relinked(t, out, s.mocked, b, 0));
      var extra := |t.tx.input| - 1;
      if b.fails(tx).Some? then Err(b.fails(tx).value)
      else Ok((BoundTx(tx, b.txidOf(tx), MockOuts(s.mocked, extra), Utxos(tx.input, s.index)),
               State(s.mocked + extra, s.index[b.txidOf(tx) := tx])))
  }

  /** Edits a copy of the template's transaction in place and records it. */
  method BindTransaction(t: Template, out: OutPoint, mocked: nat, b: Binding, blockdata: TxIndexLogger)
    returns (r: Result<BoundTx, BindError>, mocked': nat)
    requires blockdata.txidOf == b.txidOf
    modifies blockdata
    ensures match BindOne(t, out, State(mocked, old(blockdata.txs)), b)
            case Err(e) => r == Err(e)
            case Ok((bound, s)) => r == Ok(bound) && s == State(mocked', blockdata.txs)
  {
    mocked' := mocked;
    if t.tx.input == [] {
      return Err(Panic("index out of bounds")), mocked';
    }
    var input := t.tx.input;
    ghost var given := t.tx.input;
    input := input[0 := input[0].(previousOutput := out)];
    for i := 1 to |input|
      invariant |input| == |given| && mocked' == mocked + i - 1
      invariant input[0] == given[0].(previousOutput := out)
      invariant forall j :: 1 <= j < i ==> input[j] == given[j].(previousOutput := MockOut(mocked + j - 1))
      invariant forall j :: i <= j < |input| ==> input[j] == given[j]
    {
      input := input[i := input[i].(previousOutput := MockOut(mocked'))];
      mocked' := mocked' + 1;
    }
    if t.ctv in b.outputMap {
      var outputs := b.outputMap[t.ctv];
      for i := 1 to |input|
        invariant |input| == |given|
        invariant i > 1 ==> i <= |outputs|
        invariant forall j :: 0 <= j < i ==> input[j] == given[j].(previousOutput := SpentBy(t, out, mocked, b, j))
        invariant forall j :: i <= j < |input| ==> input[j] == given[j].(previousOutput := MockOut(mocked + j - 1))
      {
        if i >= |outputs| {
          return Err(Panic("index out of bounds")), mocked';
        }
        if outputs[i].Some? {
          input := input[i := input[i].(previousOutput := outputs[i].value)];
        }
      }
    }
    assert input == Relinked(t, out, mocked, b, 0);
    var tx := t.tx.(input := input);
    var utxos := LookupInputs(input, blockdata);
    var failure := b.fails(tx);
    if failure.Some? {
      return Err(failure.value), mocked';
    }
    var txid := blockdata.AddTx(tx);
    r := Ok(BoundTx(tx, txid.value, MockOuts(mocked, |input| - 1), utxos));
  }

  method LookupInputs(inputs: seq<TxIn>, blockdata: TxIndexLogger) returns (utxos: seq<Option<TxOut>>)
    ensures utxos == Utxos(inputs, blockdata.txs)
  {
    utxos := [];
    ghost var all := Utxos(inputs, blockdata.txs);
    for i := 0 to |inputs|
      invariant utxos == all[..i]
    {
      var found := blockdata.LookupOutput(inputs[i].previousOutput);
      utxos := utxos + [if found.Ok? then Some(found.value) else None];
    }
  }

  // ------------------------------------------------------------- one object

  /** The objects that a transaction pays, each with the coin it will hold. */
  function Children(txid: Txid, outputs: seq<Output>, from: nat): (r: seq<Task>)
    ensures |r| == |outputs|
    ensures forall i :: 0 <= i < |r| ==> r[i] == Task(OutPoint(txid, from + i), outputs[i].contract)
  {
    if outputs == [] then []
    else [Task(OutPoint(txid, from), outputs[0].contract)] + Children(txid, outputs[1..], from + 1)
  }

  /** Committed transactions first, then suggested ones. */
  function TemplatesOf(o: Object): seq<Template> {
    o.ctvToTx + o.suggestedTxs
  }

  function BindAll(ts: seq<Template>, out: OutPoint, s: State, b: Binding): BoundAll
    decreases |ts|
  {
    if ts == [] then Ok(([], [], s))
    else
      var first :- BindOne(ts[0], out, s, b);
      var rest :- BindAll(ts[1..], out, first.1, b);
      Ok(([first.0] + rest.0, Children(first.0.txid, ts[0].outputs, 0) + rest.1, rest.2))
  }

  /** The objects of a tree: each before those below it, last child first. */
  ghost function VisitOrder(o: Object): seq<Object>
    decreases o, 0
  {
    [o] + (OrderIn(o.suggestedTxs) + OrderIn(o.ctvToTx))
  }

  ghost function OrderIn(ts: seq<Template>): seq<Object>
    decreases ts, 3
  {
    if ts == [] then [] else OrderIn(ts[1..]) + OrderOf(ts[0])
  }

  ghost function OrderOf(t: Template): seq<Object>
    decreases t, 2
  {
    OrderBelow(t.outputs)
  }

  ghost function OrderBelow(outputs: seq<Output>): seq<Object>
    decreases outputs, 1
  {
    if outputs == [] then [] else OrderBelow(outputs[1..]) + OrderAt(outputs[0])
  }

  ghost function OrderAt(o: Output): seq<Object>
    decreases o, 0
  {
    VisitOrder(o.contract)
  }

  /** What is still to be visited: the last task and all below it come first. */
  ghost function OrderWaiting(tasks: seq<Task>): seq<Object> {
    if tasks == [] then []
    else VisitOrder(tasks[|tasks| - 1].contract) + OrderWaiting(tasks[..|tasks| - 1])
  }

  lemma {:induction false} OrderWaitingConcat(a: seq<Task>, b: seq<Task>)
    ensures OrderWaiting(a + b) == OrderWaiting(b) + OrderWaiting(a)
    decreases |b|
  {
    if b == [] {
      assert a + b == a;
    } else {
      assert (a + b)[..|a + b| - 1] == a + b[..|b| - 1];
      OrderWaitingConcat(a, b[..|b| - 1]);
    }
  }

  lemma {:induction false} ChildrenOrder(txid: Txid, outputs: seq<Output>, from: nat)
    ensures OrderWaiting(Children(txid, outputs, from)) == OrderBelow(outputs)
  {
    if outputs != [] {
      ChildrenOrder(txid, outputs[1..], from + 1);
      var first := Task(OutPoint(txid, from), outputs[0].contract);
      OrderWaitingConcat([first], Children(txid, outputs[1..], from + 1));
      assert [first][..0] == [];
      assert OrderWaiting([first]) == OrderAt(outputs[0]) + [];
    }
  }

  lemma {:induction false} OrderInConcat(a: seq<Template>, b: seq<Template>)
    ensures OrderIn(a + b) == OrderIn(b) + OrderIn(a)
    decreases |a|
  {
    if a == [] {
      assert a + b == b;
    } else {
      assert (a + b)[1..] == a[1..] + b;
      OrderInConcat(a[1..], b);
    }
  }

  lemma {:induction false} BoundOrder(ts: seq<Template>, out: OutPoint, s: State, b: Binding)
    requires BindAll(ts, out, s, b).Ok?
    ensures OrderWaiting(BindAll(ts, out, s, b).value.1) == OrderIn(ts)
    decreases |ts|
  {
    if ts != [] {
      var first := BindOne(ts[0], out, s, b).value;
      BoundOrder(ts[1..], out, first.1, b);
      ChildrenOrder(first.0.txid, ts[0].outputs, 0);
      OrderWaitingConcat(Children(first.0.txid, ts[0].outputs, 0), BindAll(ts[1..], out, first.1, b).value.1);
    }
  }

  /** The children of a visited object stand for all that is below it. */
  lemma TaskOrder(o: Object, out: OutPoint, s: State, b: Binding)
    requires BindAll(TemplatesOf(o), out, s, b).Ok?
    ensures [o] + OrderWaiting(BindAll(TemplatesOf(o), out, s, b).value.1) == VisitOrder(o)
  {
    BoundOrder(TemplatesOf(o), out, s, b);
    OrderInConcat(o.ctvToTx, o.suggestedTxs);
  }

  // ---------------------------------------------------------- the recursive walk

  datatype Walked = Walked(visits: seq<Visit>, state: State)

  ghost function Continued(visits: seq<Visit>, r: Result<Walked, BindError>): Result<Walked, BindError> {
    if r.Err? then r else Ok(Walked(visits + r.value.visits, r.value.state))
  }

  lemma ContinuedNone(r: Result<Walked, BindError>)
    ensures Continued([], r) == r
  {
    if r.Ok? {
      assert [] + r.value.visits == r.value.visits;
    }
  }

  lemma ContinuedTwice(visits: seq<Visit>, more: seq<Visit>, r: Result<Walked, BindError>)
    ensures Continued(visits, Continued(more, r)) == Continued(visits + more, r)
  {
    if r.Ok? {
      assert visits + (more + r.value.visits) == visits + more + r.value.visits;
    }
  }

  /** Visits an object and then, last child first, everything below it. */
  ghost function Walk(task: Task, s: State, b: Binding): Result<Walked, BindError>
    decreases |VisitOrder(task.contract)|, 0
  {
    match BindAll(TemplatesOf(task.contract), task.out, s, b)
    case Err(e) => Err(e)
    case Ok((txs, children, s1)) =>
      TaskOrder(task.contract, task.out, s, b);
      Continued([Visit(task.out, task.contract, txs)], WalkAll(children, s1, b))
  }

  ghost function WalkAll(tasks: seq<Task>, s: State, b: Binding): Result<Walked, BindError>
    decreases |OrderWaiting(tasks)|, 1, |tasks|
  {
    if tasks == [] then Ok(Walked([], s))
    else
      var n := |tasks| - 1;
      var last :- Walk(tasks[n], s, b);
      Continued(last.visits, WalkAll(tasks[..n], last.state, b))
  }

  /** A walk over `tasks` from where another one ended. */
  ghost function WalkThen(first: Result<Walked, BindError>, tasks: seq<Task>, b: Binding): Result<Walked, BindError> {
    if first.Err? then first else Continued(first.value.visits, WalkAll(tasks, first.value.state, b))
  }

  lemma WalkThenContinued(visits: seq<Visit>, r: Result<Walked, BindError>, tasks: seq<Task>, b: Binding)
    ensures WalkThen(Continued(visits, r), tasks, b) == Continued(visits, WalkThen(r, tasks, b))
  {
    if r.Ok? {
      ContinuedTwice(visits, r.value.visits, WalkAll(tasks, r.value.state, b));
    }
  }

  lemma {:induction false} WalkAllConcat(a: seq<Task>, c: seq<Task>, s: State, b: Binding)
    ensures WalkAll(a + c, s, b) == WalkThen(WalkAll(c, s, b), a, b)
    decreases |c|
  {
    if c == [] {
      assert a + c == a;
      ContinuedNone(WalkAll(a, s, b));
    } else {
      var n := |c| - 1;
      assert (a + c)[|a + c| - 1] == c[n] && (a + c)[..|a + c| - 1] == a + c[..n];
      var last := Walk(c[n], s, b);
      if last.Ok? {
        WalkAllConcat(a, c[..n], last.value.state, b);
        WalkThenContinued(last.value.visits, WalkAll(c[..n], last.value.state, b), a, b);
      }
    }
  }

  // ------------------------------------------------------------- the stack loop

  /** A program: what was linked at each root path. Later entries replace earlier. */
  type Program = map<ReversePath, Visit>

  function ProgramOf(visits: seq<Visit>): Program {
    if visits == [] then map[]
    else ProgramOf(visits[..|visits| - 1])[visits[|visits| - 1].contract.rootPath := visits[|visits| - 1]]
  }

  /** Binds the transactions of one object and lists the objects they pay. */
  method BindObject(task: Task, mocked: nat, b: Binding, blockdata: TxIndexLogger)
    returns (r: Result<(seq<BoundTx>, seq<Task>), BindError>, mocked': nat)
    requires blockdata.txidOf == b.txidOf
    modifies blockdata
    ensures match BindAll(TemplatesOf(task.contract), task.out, State(mocked, old(blockdata.txs)), b)
            case Err(e) => r == Err(e)
            case Ok((txs, children, s)) => r == Ok((txs, children)) && s == State(mocked', blockdata.txs)
  {
    var templates := TemplatesOf(task.contract);
    var txs: seq<BoundTx>, children: seq<Task> := [], [];
    mocked' := mocked;
    ghost var whole := BindAll(templates, task.out, State(mocked, blockdata.txs), b);
    assert templates[0..] == templates;
    PrependNone(whole);
    for i := 0 to |templates|
      invariant whole == Prepend(txs, children, BindAll(templates[i..], task.out, State(mocked', blockdata.txs), b))
    {
      ghost var s := State(mocked', blockdata.txs);
      BindAllStep(templates, i, task.out, s, b, txs, children);
      var bound, next := BindTransaction(templates[i], task.out, mocked', b, blockdata);
      mocked' := next;
      if bound.Err? {
        return Err(bound.error), mocked';
      }
      txs, children := txs + [bound.value], children + Children(bound.value.txid, templates[i].outputs, 0);
    }
    assert templates[|templates|..] == [];
    assert txs + [] == txs && children + [] == children;
    r := Ok((txs, children));
  }

  ghost function Prepend(txs: seq<BoundTx>, children: seq<Task>, r: BoundAll): BoundAll {
    if r.Err? then r else Ok((txs + r.value.0, children + r.value.1, r.value.2))
  }

  lemma BindAllStep(ts: seq<Template>, i: nat, out: OutPoint, s: State, b: Binding, txs: seq<BoundTx>,
      children: seq<Task>)
    requires i < |ts|
    ensures Prepend(txs, children, BindAll(ts[i..], out, s, b)) ==
              (match BindOne(ts[i], out, s, b)
               case Err(e) => Err(e)
               case Ok((bound, s1)) =>
                 Prepend(txs + [bound], children + Children(bound.txid, ts[i].outputs, 0),
                     BindAll(ts[i + 1..], out, s1, b)))
  {
    assert ts[i..][1..] == ts[i + 1..];
    var first := BindOne(ts[i], out, s, b);
    if first.Ok? {
      PrependStep(txs, children, first.value.0, Children(first.value.0.txid, ts[i].outputs, 0),
          BindAll(ts[i + 1..], out, first.value.1, b));
    }
  }

  lemma PrependNone(r: BoundAll)
    ensures Prepend([], [], r) == r
  {
    if r.Ok? {
      assert [] + r.value.0 == r.value.0 && [] + r.value.1 == r.value.1;
    }
  }

  lemma PrependStep(txs: seq<BoundTx>, children: seq<Task>, tx: BoundTx, kids: seq<Task>, r: BoundAll)
    ensures Prepend(txs, children, Prepend([tx], kids, r)) == Prepend(txs + [tx], children + kids, r)
  {
    if r.Ok? {
      assert txs + ([tx] + r.value.0) == txs + [tx] + r.value.0;
      assert children + (kids + r.value.1) == children + kids + r.value.1;
    }
  }

  /**
   * The stack loop. It ends, and it does what the recursive walk does; the
   * ghost result lists the visits in the order in which they were made.
   */
  method BindPsbt(root: Object, out: OutPoint, b: Binding, blockdata: TxIndexLogger)
    returns (r: Result<Program, BindError>, ghost visits: seq<Visit>)
    requires blockdata.txidOf == b.txidOf
    modifies blockdata
    ensures match Walk(Task(out, root), State(0, old(blockdata.txs)), b)
            case Err(e) => r == Err(e)
            case Ok(w) => r == Ok(ProgramOf(visits)) && visits == w.visits && blockdata.txs == w.state.index
  {
    var result: Program := map[];
    var stack := [Task(out, root)];
    var mocked: nat := 0;
    visits := [];
    ghost var whole := WalkAll(stack, State(0, blockdata.txs), b);
    WalkSingle(Task(out, root), State(0, blockdata.txs), b);
    ContinuedNone(whole);
    while stack != []
      invariant result == ProgramOf(visits)
      invariant whole == Continued(visits, WalkAll(stack, State(mocked, blockdata.txs), b))
      decreases |OrderWaiting(stack)|
    {
      var task, rest := stack[|stack| - 1], stack[..|stack| - 1];
      ghost var s := State(mocked, blockdata.txs);
      var bound, next := BindObject(task, mocked, b, blockdata);
      mocked := next;
      if bound.Err? {
        return Err(bound.error), visits;
      }
      var (txs, children) := bound.value;
      ghost var visit := Visit(task.out, task.contract, txs);
      LoopStep(stack, s, b, visits);
      TaskOrder(task.contract, task.out, s, b);
      OrderWaitingConcat(rest, children);
      result := result[task.contract.rootPath := Visit(task.out, task.contract, txs)];
      assert (visits + [visit])[..|visits|] == visits;
      visits := visits + [visit];
      stack := rest + children;
    }
    assert visits + [] == visits;
    r := Ok(result);
  }

  lemma WalkSingle(task: Task, s: State, b: Binding)
    ensures WalkAll([task], s, b) == Walk(task, s, b)
  {
    assert [task][..0] == [];
    var w := Walk(task, s, b);
    if w.Ok? {
      assert w.value.visits + [] == w.value.visits;
    }
  }

  /** Popping a task and pushing its children continues the same walk. */
  lemma WalkAllPop(rest: seq<Task>, task: Task, s: State, b: Binding)
    requires BindAll(TemplatesOf(task.contract), task.out, s, b).Ok?
    ensures var (txs, children, s1) := BindAll(TemplatesOf(task.contract), task.out, s, b).value;
            WalkAll(rest + [task], s, b) == Continued([Visit(task.out, task.contract, txs)],
                WalkAll(rest + children, s1, b))
  {
    var (txs, children, s1) := BindAll(TemplatesOf(task.contract), task.out, s, b).value;
    WalkAllConcat(rest, [task], s, b);
    WalkSingle(task, s, b);
    WalkAllConcat(rest, children, s1, b);
    WalkThenContinued([Visit(task.out, task.contract, txs)], WalkAll(children, s1, b), rest, b);
  }

  lemma LoopStep(stack: seq<Task>, s: State, b: Binding, visits: seq<Visit>)
    requires stack != []
    requires BindAll(TemplatesOf(stack[|stack| - 1].contract), stack[|stack| - 1].out, s, b).Ok?
    ensures var task := stack[|stack| - 1];
            var (txs, children, s1) := BindAll(TemplatesOf(task.contract), task.out, s, b).value;
            Continued(visits, WalkAll(stack, s, b))
            == Continued(visits + [Visit(task.out, task.contract, txs)],
                WalkAll(stack[..|stack| - 1] + children, s1, b))
  {
    var task, rest := stack[|stack| - 1], stack[..|stack| - 1];
    var (txs, children, s1) := BindAll(TemplatesOf(task.contract), task.out, s, b).value;
    assert stack == rest + [task];
    WalkAllPop(rest, task, s, b);
    ContinuedTwice(visits, [Visit(task.out, task.contract, txs)], WalkAll(rest + children, s1, b));
  }

  // ---------------------------------------------------------- what a walk does

  function Contracts(visits: seq<Visit>): (r: seq<Object>)
    ensures |r| == |visits|
    ensures forall i :: 0 <= i < |r| ==> r[i] == visits[i].contract
  {
    if visits == [] then [] else [visits[0].contract] + Contracts(visits[1..])
  }

  lemma ContractsConcat(a: seq<Visit>, c: seq<Visit>)
    ensures Contracts(a + c) == Contracts(a) + Contracts(c)
  {
    forall i | 0 <= i < |a| + |c| ensures Contracts(a + c)[i] == (Contracts(a) + Contracts(c))[i] {
    }
  }

  /** Every object of the tree is visited exactly once, in a fixed order. */
  lemma {:induction false} WalkVisitsEachObject(task: Task, s: State, b: Binding)
    requires Walk(task, s, b).Ok?
    ensures Contracts(Walk(task, s, b).value.visits) == VisitOrder(task.contract)
    decreases |VisitOrder(task.contract)|, 0
  {
    var (txs, children, s1) := BindAll(TemplatesOf(task.contract), task.out, s, b).value;
    TaskOrder(task.contract, task.out, s, b);
    WalkAllVisits(children, s1, b);
    ContractsConcat([Visit(task.out, task.contract, txs)], WalkAll(children, s1, b).value.visits);
  }

  lemma {:induction false} WalkAllVisits(tasks: seq<Task>, s: State, b: Binding)
    requires WalkAll(tasks, s, b).Ok?
    ensures Contracts(WalkAll(tasks, s, b).value.visits) == OrderWaiting(tasks)
    decreases |OrderWaiting(tasks)|, 1, |tasks|
  {
    if tasks != [] {
      var n := |tasks| - 1;
      var last := Walk(tasks[n], s, b).value;
      WalkVisitsEachObject(tasks[n], s, b);
      WalkAllVisits(tasks[..n], last.state, b);
      ContractsConcat(last.visits, WalkAll(tasks[..n], last.state, b).value.visits);
    }
  }

  function RootPaths(os: seq<Object>): seq<ReversePath> {
    seq(|os|, i requires 0 <= i < |os| => os[i].rootPath)
  }

  function PathsOf(visits: seq<Visit>): seq<ReversePath> {
    seq(|visits|, i requires 0 <= i < |visits| => visits[i].contract.rootPath)
  }

  lemma ProgramOfMore(visits: seq<Visit>, v: Visit)
    ensures ProgramOf(visits + [v]) == ProgramOf(visits)[v.contract.rootPath := v]
    ensures PathsOf(visits + [v]) == PathsOf(visits) + [v.contract.rootPath]
  {
    assert (visits + [v])[..|visits|] == visits;
  }

  /** Which keys a program has, how many, and when none of the visits was replaced. */
  ghost predicate Indexes(program: Program, paths: seq<ReversePath>) {
    && (forall p :: p in program <==> p in paths)
    && |program| <= |paths|
    && (|program| == |paths| <==> Distinct(paths))
  }

  lemma IndexesMore(program: Program, paths: seq<ReversePath>, v: Visit)
    requires Indexes(program, paths)
    ensures Indexes(program[v.contract.rootPath := v], paths + [v.contract.rootPath])
  {
    var p := v.contract.rootPath;
    DistinctPush(paths, p);
    assert program[p := v].Keys == program.Keys + {p};
    assert |program[p := v]| == |program[p := v].Keys| && |program| == |program.Keys|;
  }

  ghost predicate Indexed(visits: seq<Visit>) {
    Indexes(ProgramOf(visits), PathsOf(visits))
  }

  lemma IndexedMore(visits: seq<Visit>, v: Visit, all: seq<Visit>)
    requires Indexed(visits) && all == visits + [v]
    ensures Indexed(all)
  {
    ProgramOfMore(visits, v);
    IndexesMore(ProgramOf(visits), PathsOf(visits), v);
  }

  lemma {:induction false} ProgramIndexes(visits: seq<Visit>)
    ensures Indexed(visits)
  {
    if visits != [] {
      var n := |visits| - 1;
      ProgramIndexes(visits[..n]);
      IndexedMore(visits[..n], visits[n], visits);
    }
  }

  /** A walk's program and the objects of the tree: its size and its keys. */
  lemma WalkIndexes(task: Task, s: State, b: Binding)
    requires Walk(task, s, b).Ok?
    ensures Indexes(ProgramOf(Walk(task, s, b).value.visits), RootPaths(VisitOrder(task.contract)))
  {
    var visits := Walk(task, s, b).value.visits;
    WalkVisitsEachObject(task, s, b);
    ProgramIndexes(visits);
    assert PathsOf(visits) == RootPaths(Contracts(visits));
  }

  /** The program's keys are exactly the root paths of the tree's objects. */
  lemma ProgramKeysAreRootPaths(task: Task, s: State, b: Binding)
    requires Walk(task, s, b).Ok?
    ensures ProgramOf(Walk(task, s, b).value.visits).Keys == set o | o in VisitOrder(task.contract) :: o.rootPath
  {
    var os := VisitOrder(task.contract);
    WalkIndexes(task, s, b);
    forall o | o in os ensures o.rootPath in RootPaths(os) {
      var i :| 0 <= i < |os| && os[i] == o;
      assert RootPaths(os)[i] == o.rootPath;
    }
  }

  /** Nothing is lost from the program exactly when all root paths differ. */
  lemma ProgramKeepsAllIff(task: Task, s: State, b: Binding)
    requires Walk(task, s, b).Ok?
    ensures |ProgramOf(Walk(task, s, b).value.visits)| == |VisitOrder(task.contract)| <==>
        Distinct(RootPaths(VisitOrder(task.contract)))
  {
    WalkIndexes(task, s, b);
  }

  /** No later object has the root path of the i-th. */
  ghost predicate LastOfItsPath(os: seq<Object>, i: nat) {
    i < |os| && forall j :: i < j < |os| ==> os[j].rootPath != os[i].rootPath
  }

  lemma {:induction false} LastVisitKept(visits: seq<Visit>, i: nat)
    requires i < |visits|
    requires forall j :: i < j < |visits| ==> visits[j].contract.rootPath != visits[i].contract.rootPath
    ensures visits[i].contract.rootPath in ProgramOf(visits)
    ensures ProgramOf(visits)[visits[i].contract.rootPath] == visits[i]
    decreases |visits|
  {
    var n := |visits| - 1;
    if i < n {
      LastVisitKept(visits[..n], i);
    }
  }

  /** Of several objects with one root path, the program keeps the one that is visited last. */
  lemma ProgramKeepsLastOfPath(task: Task, s: State, b: Binding, i: nat)
    requires Walk(task, s, b).Ok? && LastOfItsPath(VisitOrder(task.contract), i)
    ensures var visits := Walk(task, s, b).value.visits;
            var o := VisitOrder(task.contract)[i];
            && |visits| == |VisitOrder(task.contract)| && visits[i].contract == o
            && o.rootPath in ProgramOf(visits) && ProgramOf(visits)[o.rootPath] == visits[i]
  {
    WalkVisitsEachObject(task, s, b);
    LastVisitKept(Walk(task, s, b).value.visits, i);
  }

  /** All plain addresses of a tree share one entry: with two of them, something is lost. */
  lemma AddressesShareAnEntry(task: Task, s: State, b: Binding, i: nat, j: nat)
    requires Walk(task, s, b).Ok? && i < j < |VisitOrder(task.contract)|
    requires VisitOrder(task.contract)[i] == FromAddress(VisitOrder(task.contract)[i].script)
    requires VisitOrder(task.contract)[j] == FromAddress(VisitOrder(task.contract)[j].script)
    ensures |ProgramOf(Walk(task, s, b).value.visits)| < |VisitOrder(task.contract)|
  {
    var paths := RootPaths(VisitOrder(task.contract));
    assert paths[i] == ADDRESS_PATH == paths[j];
    WalkIndexes(task, s, b);
  }

  // -------------------------------------------------------------------- links

  /** What an input beyond the first spends: a given coin, or else its mock. */
  ghost function ExtraSpent(t: Template, b: Binding, mocks: seq<OutPoint>, i: nat): OutPoint
    requires 1 <= i < |t.tx.input| && !OutputMapTooShort(t, b) && |mocks| == |t.tx.input| - 1
  {
    if t.ctv in b.outputMap && b.outputMap[t.ctv][i].Some? then b.outputMap[t.ctv][i].value else mocks[i - 1]
  }

  /** A bound transaction is its template's, relinked: input 0 spends `out`. Nothing refused it. */
  ghost predicate BoundTo(bound: BoundTx, t: Template, out: OutPoint, b: Binding) {
    && bound.tx == t.tx.(input := bound.tx.input) && |bound.tx.input| == |t.tx.input| >= 1
    && bound.txid == b.txidOf(bound.tx)
    && !OutputMapTooShort(t, b)
    && b.fails(bound.tx).None?
    && bound.tx.input[0].previousOutput == out
    && (forall i :: 0 <= i < |t.tx.input| ==> bound.tx.input[i].sequence == t.tx.input[i].sequence)
    && |bound.mocks| == |t.tx.input| - 1
    && (forall i :: 1 <= i < |t.tx.input| ==>
          bound.tx.input[i].previousOutput == ExtraSpent(t, b, bound.mocks, i))
  }

  ghost predicate Reached(out: OutPoint, o: Object, visits: seq<Visit>) {
    exists v :: v in visits && v.out == out && v.contract == o
  }

  /** Each transaction of a visit spends its coin, and all its outputs are visited. */
  ghost predicate Linked(v: Visit, visits: seq<Visit>, b: Binding) {
    && |v.txs| == |TemplatesOf(v.contract)|
    && forall j :: 0 <= j < |v.txs| ==>
         && BoundTo(v.txs[j], TemplatesOf(v.contract)[j], v.out, b)
         && forall i :: 0 <= i < |TemplatesOf(v.contract)[j].outputs| ==>
              Reached(OutPoint(v.txs[j].txid, i), TemplatesOf(v.contract)[j].outputs[i].contract, visits)
  }

  lemma LinkedInMore(v: Visit, visits: seq<Visit>, more: seq<Visit>, b: Binding)
    requires Linked(v, visits, b) && forall x :: x in visits ==> x in more
    ensures Linked(v, more, b)
  {
  }

  lemma ExtraInputSpends(t: Template, out: OutPoint, s: State, b: Binding, i: nat)
    requires 1 <= i < |t.tx.input| && !OutputMapTooShort(t, b)
    ensures |MockOuts(s.mocked, |t.tx.input| - 1)| == |t.tx.input| - 1
    ensures SpentBy(t, out, s.mocked, b, i) == ExtraSpent(t, b, MockOuts(s.mocked, |t.tx.input| - 1), i)
  {
    MockOutsAt(s.mocked, |t.tx.input| - 1, i - 1);
  }

  lemma BoundToTemplate(t: Template, out: OutPoint, s: State, b: Binding)
    requires BindOne(t, out, s, b).Ok?
    ensures BoundTo(BindOne(t, out, s, b).value.0, t, out, b)
  {
    var bound := BindOne(t, out, s, b).value.0;
    forall i | 1 <= i < |t.tx.input|
      ensures bound.tx.input[i].previousOutput == ExtraSpent(t, b, bound.mocks, i)
    {
      ExtraInputSpends(t, out, s, b, i);
    }
  }

  /** Each output of each transaction is a task to come. */
  ghost predicate OutputsAreTasks(txs: seq<BoundTx>, ts: seq<Template>, tasks: seq<Task>)
    requires |txs| == |ts|
  {
    forall j, i :: 0 <= j < |ts| && 0 <= i < |ts[j].outputs| ==>
      Task(OutPoint(txs[j].txid, i), ts[j].outputs[i].contract) in tasks
  }

  lemma MoreTasks(bound: BoundTx, txs: seq<BoundTx>, ts: seq<Template>, children: seq<Task>)
    requires ts != [] && |txs| == |ts| - 1 && OutputsAreTasks(txs, ts[1..], children)
    ensures OutputsAreTasks([bound] + txs, ts, Children(bound.txid, ts[0].outputs, 0) + children)
  {
    var kids, all := Children(bound.txid, ts[0].outputs, 0), [bound] + txs;
    forall j, i | 0 <= j < |ts| && 0 <= i < |ts[j].outputs|
      ensures Task(OutPoint(all[j].txid, i), ts[j].outputs[i].contract) in kids + children
    {
      if j == 0 {
        assert kids[i] in kids;
      } else {
        assert ts[1..][j - 1] == ts[j] && txs[j - 1] == all[j];
      }
    }
  }

  /** The tasks that a bound object leaves are its transactions' outputs. */
  lemma {:induction false} BindAllLinks(ts: seq<Template>, out: OutPoint, s: State, b: Binding)
    requires BindAll(ts, out, s, b).Ok?
    ensures var (txs, children, s1) := BindAll(ts, out, s, b).value;
            && |txs| == |ts|
            && (forall j :: 0 <= j < |ts| ==> BoundTo(txs[j], ts[j], out, b))
            && OutputsAreTasks(txs, ts, children)
    decreases |ts|
  {
    if ts != [] {
      var (bound, s0) := BindOne(ts[0], out, s, b).value;
      var (txs, children, s1) := BindAll(ts[1..], out, s0, b).value;
      BoundToTemplate(ts[0], out, s, b);
      BindAllLinks(ts[1..], out, s0, b);
      MoreTasks(bound, txs, ts, children);
    }
  }

  /**
   * Every visited transaction spends the coin that its object was reached
   * with, and each of its outputs is the coin of the object that it pays.
   */
  lemma {:induction false} WalkLinks(task: Task, s: State, b: Binding)
    requires Walk(task, s, b).Ok?
    ensures var visits := Walk(task, s, b).value.visits;
            Reached(task.out, task.contract, visits) && forall v :: v in visits ==> Linked(v, visits, b)
    decreases |VisitOrder(task.contract)|, 0
  {
    var (txs, children, s1) := BindAll(TemplatesOf(task.contract), task.out, s, b).value;
    var visit := Visit(task.out, task.contract, txs);
    TaskOrder(task.contract, task.out, s, b);
    BindAllLinks(TemplatesOf(task.contract), task.out, s, b);
    WalkAllLinks(children, s1, b);
    var below := WalkAll(children, s1, b).value.visits;
    var visits := [visit] + below;
    assert visit in visits;
    forall v | v in visits ensures Linked(v, visits, b) {
      if v in below {
        LinkedInMore(v, below, visits, b);
      } else {
        forall j, i | 0 <= j < |txs| && 0 <= i < |TemplatesOf(task.contract)[j].outputs|
          ensures Reached(OutPoint(txs[j].txid, i), TemplatesOf(task.contract)[j].outputs[i].contract, visits)
        {
          var child := Task(OutPoint(txs[j].txid, i), TemplatesOf(task.contract)[j].outputs[i].contract);
          assert child in children && Reached(child.out, child.contract, below);
        }
      }
    }
  }

  lemma {:induction false} WalkAllLinks(tasks: seq<Task>, s: State, b: Binding)
    requires WalkAll(tasks, s, b).Ok?
    ensures var visits := WalkAll(tasks, s, b).value.visits;
            && (forall t :: t in tasks ==> Reached(t.out, t.contract, visits))
            && forall v :: v in visits ==> Linked(v, visits, b)
    decreases |OrderWaiting(tasks)|, 1, |tasks|
  {
    if tasks != [] {
      var n := |tasks| - 1;
      var last := Walk(tasks[n], s, b).value;
      var rest := WalkAll(tasks[..n], last.state, b).value;
      WalkLinks(tasks[n], s, b);
      WalkAllLinks(tasks[..n], last.state, b);
      var visits := last.visits + rest.visits;
      forall v | v in visits ensures Linked(v, visits, b) {
        if v in last.visits {
          LinkedInMore(v, last.visits, visits, b);
        } else {
          LinkedInMore(v, rest.visits, visits, b);
        }
      }
      forall t | t in tasks ensures Reached(t.out, t.contract, visits) {
        if t != tasks[n] {
          assert t in tasks[..n] && Reached(t.out, t.contract, rest.visits);
        }
      }
    }
  }

  // ------------------------------------------------------------ mock outpoints

  function MocksOf(txs: seq<BoundTx>): seq<OutPoint> {
    if txs == [] then [] else txs[0].mocks + MocksOf(txs[1..])
  }

  /** All mock outpoints handed out, in order. */
  function MocksIn(visits: seq<Visit>): seq<OutPoint> {
    if visits == [] then [] else MocksOf(visits[0].txs) + MocksIn(visits[1..])
  }

  lemma {:induction false} MocksInConcat(a: seq<Visit>, c: seq<Visit>)
    ensures MocksIn(a + c) == MocksIn(a) + MocksIn(c)
  {
    if a == [] {
      assert a + c == c;
    } else {
      assert (a + c)[1..] == a[1..] + c;
      MocksInConcat(a[1..], c);
    }
  }

  /** The inputs, beyond the first, of an object's own transactions. */
  function ExtraInputs(ts: seq<Template>): nat {
    if ts == [] then 0
    else (if ts[0].tx.input == [] then 0 else |ts[0].tx.input| - 1) + ExtraInputs(ts[1..])
  }

  function ExtraInputsOf(os: seq<Object>): nat {
    if os == [] then 0 else ExtraInputs(TemplatesOf(os[0])) + ExtraInputsOf(os[1..])
  }

  lemma {:induction false} ExtraInputsConcat(a: seq<Object>, c: seq<Object>)
    ensures ExtraInputsOf(a + c) == ExtraInputsOf(a) + ExtraInputsOf(c)
  {
    if a == [] {
      assert a + c == c;
    } else {
      assert (a + c)[1..] == a[1..] + c;
      ExtraInputsConcat(a[1..], c);
    }
  }

  lemma {:induction false} MockOutsConcat(from: nat, n: nat, m: nat)
    ensures MockOuts(from, n) + MockOuts(from + n, m) == MockOuts(from, n + m)
    decreases n
  {
    if n == 0 {
      assert [] + MockOuts(from, m) == MockOuts(from, m);
    } else {
      MockOutsConcat(from + 1, n - 1, m);
      assert MockOuts(from, n) + MockOuts(from + n, m) == [MockOut(from)]
          + (MockOuts(from + 1, n - 1) + MockOuts(from + n, m));
    }
  }

  lemma MocksCons(bound: BoundTx, txs: seq<BoundTx>)
    ensures MocksOf([bound] + txs) == bound.mocks + MocksOf(txs)
  {
    assert ([bound] + txs)[1..] == txs;
  }

  lemma {:induction false} BindAllMocks(ts: seq<Template>, out: OutPoint, s: State, b: Binding)
    requires BindAll(ts, out, s, b).Ok?
    ensures var (txs, children, s1) := BindAll(ts, out, s, b).value;
            s1.mocked == s.mocked + ExtraInputs(ts) && MocksOf(txs) == MockOuts(s.mocked, ExtraInputs(ts))
    decreases |ts|
  {
    if ts != [] {
      var (bound, s0) := BindOne(ts[0], out, s, b).value;
      BindAllMocks(ts[1..], out, s0, b);
      MocksCons(bound, BindAll(ts[1..], out, s0, b).value.0);
      MockOutsConcat(s.mocked, |ts[0].tx.input| - 1, ExtraInputs(ts[1..]));
    }
  }

  /** A walk from `s` hands out the next `n` mock outpoints. */
  ghost predicate HandsOut(w: Walked, s: State, n: nat) {
    w.state.mocked == s.mocked + n && MocksIn(w.visits) == MockOuts(s.mocked, n)
  }

  lemma HandsOutMore(visits: seq<Visit>, s: State, n: nat, s1: State, rest: Walked, m: nat, w: Walked, all: nat)
    requires MocksIn(visits) == MockOuts(s.mocked, n) && s1.mocked == s.mocked + n && HandsOut(rest, s1, m)
    requires w == Walked(visits + rest.visits, rest.state) && all == n + m
    ensures HandsOut(w, s, all)
  {
    MocksInConcat(visits, rest.visits);
    MockOutsConcat(s.mocked, n, m);
  }

  lemma ExtraInputsCons(o: Object, below: seq<Object>)
    ensures ExtraInputsOf([o] + below) == ExtraInputs(TemplatesOf(o)) + ExtraInputsOf(below)
  {
    assert ([o] + below)[1..] == below;
  }

  lemma MocksOfVisit(visit: Visit)
    ensures MocksIn([visit]) == MocksOf(visit.txs)
  {
    assert MocksIn([visit]) == MocksOf(visit.txs) + MocksIn([]);
  }

  /** A walk starts with its own object and goes on with those below it. */
  lemma WalkStarts(task: Task, s: State, b: Binding) returns (visit: Visit, children: seq<Task>, s1: State)
    requires Walk(task, s, b).Ok?
    ensures BindAll(TemplatesOf(task.contract), task.out, s, b) == Ok((visit.txs, children, s1))
    ensures WalkAll(children, s1, b).Ok?
    ensures Walk(task, s, b).value == Walked([visit] + WalkAll(children, s1, b).value.visits,
        WalkAll(children, s1, b).value.state)
    ensures [task.contract] + OrderWaiting(children) == VisitOrder(task.contract)
  {
    var bound := BindAll(TemplatesOf(task.contract), task.out, s, b).value;
    visit, children, s1 := Visit(task.out, task.contract, bound.0), bound.1, bound.2;
    TaskOrder(task.contract, task.out, s, b);
  }

  /** One mock outpoint is handed out for each extra input of the tree. */
  lemma {:induction false} WalkMocks(task: Task, s: State, b: Binding)
    requires Walk(task, s, b).Ok?
    ensures HandsOut(Walk(task, s, b).value, s, ExtraInputsOf(VisitOrder(task.contract)))
    decreases |VisitOrder(task.contract)|, 0
  {
    var visit, children, s1 := WalkStarts(task, s, b);
    BindAllMocks(TemplatesOf(task.contract), task.out, s, b);
    MocksOfVisit(visit);
    WalkAllMocks(children, s1, b);
    ExtraInputsCons(task.contract, OrderWaiting(children));
    var below, own, more := WalkAll(children, s1, b).value, ExtraInputs(TemplatesOf(task.contract)),
        ExtraInputsOf(OrderWaiting(children));
    HandsOutMore([visit], s, own, s1, below, more, Walk(task, s, b).value, ExtraInputsOf(VisitOrder(task.contract)));
  }

  lemma {:induction false} WalkAllMocks(tasks: seq<Task>, s: State, b: Binding)
    requires WalkAll(tasks, s, b).Ok?
    ensures HandsOut(WalkAll(tasks, s, b).value, s, ExtraInputsOf(OrderWaiting(tasks)))
    decreases |OrderWaiting(tasks)|, 1, |tasks|
  {
    if tasks != [] {
      var n := |tasks| - 1;
      var last := Walk(tasks[n], s, b).value;
      WalkMocks(tasks[n], s, b);
      WalkAllMocks(tasks[..n], last.state, b);
      var here, there := ExtraInputsOf(VisitOrder(tasks[n].contract)), ExtraInputsOf(OrderWaiting(tasks[..n]));
      var rest := WalkAll(tasks[..n], last.state, b).value;
      ExtraInputsConcat(VisitOrder(tasks[n].contract), OrderWaiting(tasks[..n]));
      HandsOutMore(last.visits, s, here, last.state, rest, there, WalkAll(tasks, s, b).value,
          ExtraInputsOf(OrderWaiting(tasks)));
    }
  }

  /**
   * All mock outpoints of a run are distinct exactly when the tree has no more
   * extra inputs than there are output numbers.
   */
  lemma MocksDistinctIff(task: Task, index: Store, b: Binding)
    requires Walk(task, State(0, index), b).Ok?
    ensures Distinct(MocksIn(Walk(task, State(0, index), b).value.visits))
            <==> ExtraInputsOf(VisitOrder(task.contract)) <= TWO_32
  {
    WalkMocks(task, State(0, index), b);
    MockOutsDistinctIff(ExtraInputsOf(VisitOrder(task.contract)));
  }

  lemma MockOutsDistinctIff(n: nat)
    ensures Distinct(MockOuts(0, n)) <==> n <= TWO_32
  {
    var mocks := MockOuts(0, n);
    if n > TWO_32 {
      MockOutsAt(0, n, 0);
      MockOutsAt(0, n, TWO_32);
      assert mocks[0] == mocks[TWO_32];
    } else {
      forall i, j | 0 <= i < j < n ensures mocks[i] != mocks[j] {
        MockOutsAt(0, n, i);
        MockOutsAt(0, n, j);
      }
    }
  }

  // --------------------------------------------------------- outputs being spent

  ghost predicate Grows(a: Store, c: Store) {
    forall id :: id in a ==> id in c && c[id] == a[id]
  }

  /** Each transaction records the output that the index knows the coin to be. */
  ghost predicate Record(txs: seq<BoundTx>, out: OutPoint, index: Store) {
    forall j :: 0 <= j < |txs| ==> |txs[j].utxos| >= 1 && txs[j].utxos[0] == OutputAt(index, out)
  }

  ghost predicate TxsFiled(txs: seq<BoundTx>, index: Store) {
    forall j :: 0 <= j < |txs| ==> txs[j].txid in index && index[txs[j].txid] == txs[j].tx
  }

  ghost predicate CoinsFiled(tasks: seq<Task>, index: Store) {
    forall t :: t in tasks ==> t.out.txid in index
  }

  /** The index knows the visit's coin, and each transaction records its output. */
  ghost predicate CoinKnown(v: Visit, index: Store) {
    v.out.txid in index && Record(v.txs, v.out, index)
  }

  ghost predicate TransactionsFiled(v: Visit, index: Store) {
    TxsFiled(v.txs, index)
  }

  lemma CoinStaysKnown(v: Visit, a: Store, c: Store)
    requires Grows(a, c)
    ensures CoinKnown(v, a) ==> CoinKnown(v, c)
    ensures TransactionsFiled(v, a) ==> TransactionsFiled(v, c)
  {
  }

  /** All bound transactions are among the known ones, whose ids do not collide. */
  ghost predicate TxsKnown(txs: seq<BoundTx>, known: iset<Transaction>) {
    forall j :: 0 <= j < |txs| ==> txs[j].tx in known
  }

  ghost predicate VisitsKnown(visits: seq<Visit>, known: iset<Transaction>) {
    forall i :: 0 <= i < |visits| ==> TxsKnown(visits[i].txs, known)
  }

  lemma VisitsKnownParts(a: seq<Visit>, c: seq<Visit>, known: iset<Transaction>)
    requires VisitsKnown(a + c, known)
    ensures VisitsKnown(a, known) && VisitsKnown(c, known)
  {
    forall i | 0 <= i < |a| ensures TxsKnown(a[i].txs, known) {
      assert (a + c)[i] == a[i];
    }
    forall i | 0 <= i < |c| ensures TxsKnown(c[i].txs, known) {
      assert (a + c)[|a| + i] == c[i];
    }
  }

  lemma BindOneFiles(t: Template, out: OutPoint, s: State, b: Binding, known: iset<Transaction>)
    requires BindOne(t, out, s, b).Ok? && IdsDetermine(b.txidOf, known) && Filed(s.index, b.txidOf, known)
    requires BindOne(t, out, s, b).value.0.tx in known
    ensures var (bound, s1) := BindOne(t, out, s, b).value;
            && Grows(s.index, s1.index) && Filed(s1.index, b.txidOf, known)
            && bound.txid in s1.index && s1.index[bound.txid] == bound.tx
            && |bound.utxos| >= 1 && bound.utxos[0] == OutputAt(s.index, out)
  {
    var (bound, s1) := BindOne(t, out, s, b).value;
    if bound.txid in s.index {
      assert b.txidOf(s.index[bound.txid]) == b.txidOf(bound.tx);
    }
  }

  lemma OneMoreFiled(bound: BoundTx, txs: seq<BoundTx>, a: Store, c: Store)
    requires bound.txid in a && a[bound.txid] == bound.tx && Grows(a, c) && TxsFiled(txs, c)
    ensures TxsFiled([bound] + txs, c)
  {
  }

  lemma OneMoreRecords(bound: BoundTx, txs: seq<BoundTx>, out: OutPoint, a: Store, c: Store)
    requires |bound.utxos| >= 1 && bound.utxos[0] == OutputAt(a, out)
    requires out.txid in a && Grows(a, c) && Record(txs, out, c)
    ensures Record([bound] + txs, out, a)
  {
  }

  lemma ChildrenFiled(txid: Txid, outputs: seq<Output>, tasks: seq<Task>, index: Store)
    requires txid in index && CoinsFiled(tasks, index)
    ensures CoinsFiled(Children(txid, outputs, 0) + tasks, index)
  {
    assert forall t :: t in Children(txid, outputs, 0) ==> t.out.txid == txid;
  }

  lemma {:induction false} BindAllFiles(ts: seq<Template>, out: OutPoint, s: State, b: Binding,
      known: iset<Transaction>)
    requires BindAll(ts, out, s, b).Ok? && IdsDetermine(b.txidOf, known) && Filed(s.index, b.txidOf, known)
    requires TxsKnown(BindAll(ts, out, s, b).value.0, known)
    ensures var (txs, children, s1) := BindAll(ts, out, s, b).value;
            && Grows(s.index, s1.index) && Filed(s1.index, b.txidOf, known)
            && TxsFiled(txs, s1.index) && CoinsFiled(children, s1.index)
            && (out.txid in s.index ==> Record(txs, out, s.index))
    decreases |ts|
  {
    if ts != [] {
      var (bound, s0) := BindOne(ts[0], out, s, b).value;
      var (txs, children, s1) := BindAll(ts[1..], out, s0, b).value;
      assert ([bound] + txs)[0] == bound && ([bound] + txs)[1..] == txs;
      BindOneFiles(ts[0], out, s, b, known);
      BindAllFiles(ts[1..], out, s0, b, known);
      OneMoreFiled(bound, txs, s0.index, s1.index);
      ChildrenFiled(bound.txid, ts[0].outputs, children, s1.index);
      if out.txid in s.index {
        OneMoreRecords(bound, txs, out, s.index, s0.index);
      }
    }
  }

  /** Below the root every transaction records the output that it spends. */
  lemma {:induction false} WalkKnowsCoins(task: Task, s: State, b: Binding, known: iset<Transaction>)
    requires Walk(task, s, b).Ok? && IdsDetermine(b.txidOf, known) && Filed(s.index, b.txidOf, known)
    requires VisitsKnown(Walk(task, s, b).value.visits, known)
    ensures var w := Walk(task, s, b).value;
            && Grows(s.index, w.state.index) && Filed(w.state.index, b.txidOf, known)
            && (forall v :: v in w.visits ==> TransactionsFiled(v, w.state.index))
            && w.visits != []
            && (forall v :: v in w.visits[1..] ==> CoinKnown(v, w.state.index))
            && (task.out.txid in s.index ==> CoinKnown(w.visits[0], w.state.index))
    decreases |VisitOrder(task.contract)|, 0
  {
    var (txs, children, s1) := BindAll(TemplatesOf(task.contract), task.out, s, b).value;
    var visit := Visit(task.out, task.contract, txs);
    TaskOrder(task.contract, task.out, s, b);
    var w := Walk(task, s, b).value;
    assert w.visits[0] == visit;
    VisitsKnownParts([visit], WalkAll(children, s1, b).value.visits, known);
    BindAllFiles(TemplatesOf(task.contract), task.out, s, b, known);
    WalkAllKnowsCoins(children, s1, b, known);
    assert w.visits[1..] == WalkAll(children, s1, b).value.visits;
    if task.out.txid in s.index {
      assert CoinKnown(visit, s.index);
      CoinStaysKnown(visit, s.index, w.state.index);
    }
    assert TransactionsFiled(visit, s1.index);
    CoinStaysKnown(visit, s1.index, w.state.index);
  }

  lemma {:induction false} WalkAllKnowsCoins(tasks: seq<Task>, s: State, b: Binding, known: iset<Transaction>)
    requires WalkAll(tasks, s, b).Ok? && IdsDetermine(b.txidOf, known) && Filed(s.index, b.txidOf, known)
    requires VisitsKnown(WalkAll(tasks, s, b).value.visits, known)
    requires CoinsFiled(tasks, s.index)
    ensures var w := WalkAll(tasks, s, b).value;
            && Grows(s.index, w.state.index) && Filed(w.state.index, b.txidOf, known)
            && (forall v :: v in w.visits ==> TransactionsFiled(v, w.state.index) && CoinKnown(v, w.state.index))
    decreases |OrderWaiting(tasks)|, 1, |tasks|
  {
    if tasks != [] {
      var n := |tasks| - 1;
      var last := Walk(tasks[n], s, b).value;
      VisitsKnownParts(last.visits, WalkAll(tasks[..n], last.state, b).value.visits, known);
      WalkKnowsCoins(tasks[n], s, b, known);
      WalkAllKnowsCoins(tasks[..n], last.state, b, known);
      var index := WalkAll(tasks, s, b).value.state.index;
      forall v | v in last.visits ensures TransactionsFiled(v, index) && CoinKnown(v, index) {
        assert v == last.visits[0] || v in last.visits[1..];
        CoinStaysKnown(v, last.state.index, index);
      }
    }
  }

  /**
   * The output recorded for a child's first input is the very output of the
   * parent's transaction that the child's coin names.
   */
  lemma ChildSpendsParentOutput(task: Task, s: State, b: Binding, known: iset<Transaction>,
      v: Visit, j: nat, i: nat, child: Visit, k: nat)
    requires Walk(task, s, b).Ok? && IdsDetermine(b.txidOf, known) && Filed(s.index, b.txidOf, known)
    requires VisitsKnown(Walk(task, s, b).value.visits, known)
    requires v in Walk(task, s, b).value.visits && child in Walk(task, s, b).value.visits[1..]
    requires j < |v.txs| && child.out == OutPoint(v.txs[j].txid, i) && k < |child.txs|
    ensures |child.txs[k].utxos| >= 1
    ensures child.txs[k].utxos[0] == if i < |v.txs[j].tx.output| then Some(v.txs[j].tx.output[i]) else None
  {
    WalkKnowsCoins(task, s, b, known);
    var index := Walk(task, s, b).value.state.index;
    assert CoinKnown(child, index) && TransactionsFiled(v, index);
  }
}
