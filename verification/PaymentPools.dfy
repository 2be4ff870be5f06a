/**
 * Payment pools: balances of many members in one coin, updated by signed
 * requests and split in two when members leave without cooperation.
 */
module PaymentPools {
  import opened Sequences
  import opened Arithmetic
  import opened Wrappers
  import opened Bytes
  import opened Policies
  import opened Contexts
  import opened Templates
  import opened CtvHash
  import opened Builders
  import opened Addresses
  import opened PaymentTrees
  import ConditionalCompile

  type Payment = PaymentTo<Address>

  datatype Member = Member(key: XOnlyKey, balance: Amount)

  /** A pool; its members are listed in the order of their keys. */
  datatype PaymentPool = PaymentPool(members: seq<Member>, sequence: nat, sigNeeded: bool)

  // ---------------------------------------------------- the map of balances

  ghost predicate Ordered(ms: seq<Member>) {
    forall i, j :: 0 <= i < j < |ms| ==> ms[i].key < ms[j].key
  }

  ghost predicate AllAbove(ms: seq<Member>, key: XOnlyKey) {
    forall i :: 0 <= i < |ms| ==> key < ms[i].key
  }

  function Total(ms: seq<Member>): Amount {
    if ms == [] then 0 else ms[0].balance + Total(ms[1..])
  }

  function Lookup(ms: seq<Member>, key: XOnlyKey): Option<Amount> {
    if ms == [] then None
    else if ms[0].key == key then Some(ms[0].balance)
    else Lookup(ms[1..], key)
  }

  function Insert(ms: seq<Member>, m: Member): seq<Member> {
    if ms == [] || m.key < ms[0].key then [m] + ms
    else if m.key == ms[0].key then [m] + ms[1..]
    else [ms[0]] + Insert(ms[1..], m)
  }

  function Remove(ms: seq<Member>, key: XOnlyKey): seq<Member> {
    if ms == [] then []
    else if ms[0].key == key then ms[1..]
    else [ms[0]] + Remove(ms[1..], key)
  }

  /** Takes the entries from `key` on out of the map: what stays, what goes. */
  function SplitOff(ms: seq<Member>, key: XOnlyKey): (seq<Member>, seq<Member>) {
    if ms == [] then ([], [])
    else
      var (low, high) := SplitOff(ms[1..], key);
      if ms[0].key < key then ([ms[0]] + low, high) else (low, [ms[0]] + high)
  }

  lemma {:induction false} LookupAbove(ms: seq<Member>, key: XOnlyKey)
    requires AllAbove(ms, key)
    ensures Lookup(ms, key) == None
  {
    if ms != [] {
      LookupAbove(ms[1..], key);
    }
  }

  lemma {:induction false} LookupFinds(ms: seq<Member>, key: XOnlyKey) returns (i: nat)
    requires Lookup(ms, key).Some?
    ensures i < |ms| && ms[i] == Member(key, Lookup(ms, key).value)
  {
    if ms[0].key == key {
      i := 0;
    } else {
      var j := LookupFinds(ms[1..], key);
      i := j + 1;
    }
  }

  lemma {:induction false} TotalConcat(a: seq<Member>, b: seq<Member>)
    ensures Total(a + b) == Total(a) + Total(b)
  {
    if a == [] {
      assert a + b == b;
    } else {
      assert (a + b)[1..] == a[1..] + b;
      TotalConcat(a[1..], b);
    }
  }

  lemma {:induction false} InsertTotal(ms: seq<Member>, m: Member)
    requires Ordered(ms)
    ensures Total(Insert(ms, m)) + Lookup(ms, m.key).GetOr(0) == Total(ms) + m.balance
  {
    if ms != [] && m.key > ms[0].key {
      InsertTotal(ms[1..], m);
    } else if ms != [] && m.key < ms[0].key {
      LookupAbove(ms, m.key);
    }
  }

  lemma {:induction false} RemoveTotal(ms: seq<Member>, key: XOnlyKey)
    ensures Total(Remove(ms, key)) + Lookup(ms, key).GetOr(0) == Total(ms)
  {
    if ms != [] && ms[0].key != key {
      RemoveTotal(ms[1..], key);
    }
  }

  /** The sum of all balances. */
  method TotalOf(pool: PaymentPool) returns (total: Amount)
    ensures total == Total(pool.members)
  {
    total := 0;
    for i := 0 to |pool.members|
      invariant total + Total(pool.members[i..]) == Total(pool.members)
    {
      assert pool.members[i..][1..] == pool.members[i + 1..];
      total := total + pool.members[i].balance;
    }
  }

  // ----------------------------------------------------------------- ejection

  /** Ejection is compiled exactly while there is more than one member. */
  function HasEject(pool: PaymentPool): ConditionalCompile.CompileType {
    if |pool.members| > 1 then ConditionalCompile.Required else ConditionalCompile.Never
  }

  function Middle(pool: PaymentPool): nat {
    (|pool.members| + 1) / 2
  }

  /** The two pools that an ejection leaves, by position. */
  function Halves(pool: PaymentPool): (PaymentPool, PaymentPool)
    requires |pool.members| >= 2
  {
    var mid := Middle(pool);
    (PaymentPool(pool.members[..mid], pool.sequence + 1, pool.sigNeeded),
     PaymentPool(pool.members[mid..], pool.sequence + 1, pool.sigNeeded))
  }

  lemma {:induction false} SplitOffAt(ms: seq<Member>, mid: nat, key: XOnlyKey)
    requires Ordered(ms) && mid <= |ms|
    requires forall i :: 0 <= i < |ms| ==> (ms[i].key < key <==> i < mid)
    ensures SplitOff(ms, key) == (ms[..mid], ms[mid..])
  {
    if ms != [] {
      var down := if mid > 0 then mid - 1 else 0;
      forall i | 0 <= i < |ms[1..]| ensures ms[1..][i].key < key <==> i < down {
        assert ms[1..][i] == ms[i + 1];
      }
      SplitOffAt(ms[1..], down, key);
      if mid > 0 {
        assert ms[..mid] == [ms[0]] + ms[1..][..down] && ms[mid..] == ms[1..][down..];
      } else {
        assert ms[mid..] == [ms[0]] + ms[1..][down..];
      }
    }
  }

  /** Compilers of the contracts that a pool pays to, and its outside checks. */
  datatype Env = Env(
    pool: PaymentPool -> Compilable,
    tree: seq<Payment> -> Compilable,
    address: Address -> Compilable,
    verify: (string, Digest, XOnlyKey) -> bool,
    sha: Sha256)

  /** A finished run of builder operations as a list of one template. */
  function Finished(run: Result<BuilderView, CompilationError>, sha: Sha256): Result<seq<Template>, CompilationError> {
    match run
    case Err(e) => Err(e)
    case Ok(b) => Ok([TemplateOf(b, sha)])
  }

  function EjectionOps(pool: PaymentPool, env: Env): seq<BuilderOp>
    requires |pool.members| >= 2
  {
    var (one, two) := Halves(pool);
    [OutputOp(Total(one.members), env.pool(one)), OutputOp(Total(two.members), env.pool(two))]
  }

  lemma RunFirst(b: BuilderView, op: BuilderOp, ops: seq<BuilderOp>)
    ensures Apply(b, op).Err? ==> ApplyAll(b, [op] + ops) == Err(Apply(b, op).error)
    ensures Apply(b, op).Ok? ==> ApplyAll(b, [op] + ops) == ApplyAll(Apply(b, op).value, ops)
  {
    assert ([op] + ops)[1..] == ops;
  }

  lemma RunOne(b: BuilderView, op: BuilderOp)
    ensures ApplyAll(b, [op]) == Apply(b, op)
  {
    RunFirst(b, op, []);
    assert [op] + [] == [op];
  }

  /** Splits the pool; looking up the middle key aborts below two members. */
  method Ejection(pool: PaymentPool, ctx: Context, env: Env) returns (r: Result<seq<Template>, CompilationError>)
    requires Ordered(pool.members)
    modifies ctx
    ensures |pool.members| < 2 ==> r == Err(Panic("must be present"))
    ensures |pool.members| >= 2 ==> r == Finished(ApplyAll(NewBuilder(old(ctx.View())), EjectionOps(pool, env)),
        env.sha)
  {
    var mid := Middle(pool);
    if mid >= |pool.members| {
      return Err(Panic("must be present"));
    }
    SplitOffAt(pool.members, mid, pool.members[mid].key);
    var (low, high) := SplitOff(pool.members, pool.members[mid].key);
    var one := PaymentPool(low, pool.sequence + 1, pool.sigNeeded);
    var two := PaymentPool(high, pool.sequence + 1, pool.sigNeeded);
    var t := new Builder(ctx);
    var total := TotalOf(one);
    assert EjectionOps(pool, env) == [OutputOp(total, env.pool(one))] + [OutputOp(Total(high), env.pool(two))];
    RunFirst(t.View(), OutputOp(total, env.pool(one)), [OutputOp(Total(high), env.pool(two))]);
    var added := t.AddOutput(total, env.pool(one));
    if added.Err? {
      return Err(added.error);
    }
    total := TotalOf(two);
    RunOne(t.View(), OutputOp(total, env.pool(two)));
    added := t.AddOutput(total, env.pool(two));
    if added.Err? {
      return Err(added.error);
    }
    var template := t.ToTemplate(env.sha);
    r := Ok([template]);
  }

  lemma PartsApart(ms: seq<Member>, mid: nat, a: Member, b: Member)
    requires Ordered(ms) && mid <= |ms| && a in ms[..mid] && b in ms[mid..]
    ensures a.key < b.key
  {
    var i :| 0 <= i < mid && ms[..mid][i] == a;
    var j :| 0 <= j < |ms| - mid && ms[mid..][j] == b;
    assert ms[i] == a && ms[mid + j] == b;
  }

  lemma PartsOrdered(ms: seq<Member>, mid: nat)
    requires Ordered(ms) && mid <= |ms|
    ensures Ordered(ms[..mid]) && Ordered(ms[mid..])
  {
  }

  lemma PartsTotal(ms: seq<Member>, mid: nat)
    requires mid <= |ms|
    ensures ms[..mid] + ms[mid..] == ms && Total(ms[..mid]) + Total(ms[mid..]) == Total(ms)
  {
    assert ms[..mid] + ms[mid..] == ms;
    TotalConcat(ms[..mid], ms[mid..]);
  }

  lemma PartsOfOrdered(ms: seq<Member>, mid: nat)
    requires Ordered(ms) && mid <= |ms|
    ensures Ordered(ms[..mid]) && Ordered(ms[mid..])
    ensures forall a, b :: a in ms[..mid] && b in ms[mid..] ==> a.key < b.key
    ensures ms[..mid] + ms[mid..] == ms && Total(ms[..mid]) + Total(ms[mid..]) == Total(ms)
  {
    forall a, b | a in ms[..mid] && b in ms[mid..] ensures a.key < b.key {
      PartsApart(ms, mid, a, b);
    }
    PartsOrdered(ms, mid);
    PartsTotal(ms, mid);
  }

  /** Two pools that share out the members, balances and total of a third. */
  ghost predicate Partition(pool: PaymentPool, one: PaymentPool, two: PaymentPool) {
    && one.members != [] && two.members != [] && one.members + two.members == pool.members
    && Ordered(one.members) && Ordered(two.members)
    && (forall a, b :: a in one.members && b in two.members ==> a.key < b.key)
    && Total(one.members) + Total(two.members) == Total(pool.members)
  }

  /**
   * Ejection is compiled exactly when the middle key can be looked up, and
   * then splits the pool into two disjoint, non-empty pools.
   */
  lemma EjectionPartitions(pool: PaymentPool)
    requires Ordered(pool.members)
    ensures HasEject(pool).Required? <==> Middle(pool) < |pool.members|
    ensures HasEject(pool).Required? ==> Partition(pool, Halves(pool).0, Halves(pool).1)
  {
    if |pool.members| >= 2 {
      PartsOfOrdered(pool.members, Middle(pool));
    }
  }

  /** The pools that are left when ejections follow one another. */
  ghost predicate Ejects(pool: PaymentPool, upper: seq<bool>, last: PaymentPool)
    decreases |upper|
  {
    if upper == [] then pool == last
    else |pool.members| >= 2 && Ejects(if upper[0] then Halves(pool).1 else Halves(pool).0, upper[1..], last)
  }

  /** However ejections are chosen, there are at most ceiling of log2 n of them. */
  lemma {:induction false} EjectionsEnd(pool: PaymentPool, upper: seq<bool>, last: PaymentPool)
    requires Ejects(pool, upper, last)
    ensures |upper| <= CeilLog2(|pool.members|)
    ensures last.sequence == pool.sequence + |upper|
    decreases |upper|
  {
    if upper != [] {
      var n := |pool.members|;
      var half := if upper[0] then Halves(pool).1 else Halves(pool).0;
      EjectionsEnd(half, upper[1..], last);
      CeilLog2Monotone(|half.members|, (n + 1) / 2);
    }
  }

  /** Every member can get out alone, with its own balance. */
  lemma {:induction false} MembersLeaveAlone(pool: PaymentPool, i: nat) returns (upper: seq<bool>, alone: PaymentPool)
    requires i < |pool.members|
    ensures Ejects(pool, upper, alone)
    ensures alone.members == [pool.members[i]]
    decreases |pool.members|
  {
    if |pool.members| == 1 {
      upper, alone := [], pool;
    } else {
      var up := i >= Middle(pool);
      var half := if up then Halves(pool).1 else Halves(pool).0;
      var rest;
      rest, alone := MembersLeaveAlone(half, if up then i - Middle(pool) else i);
      upper := [up] + rest;
      assert upper[1..] == rest;
    }
  }

  // ------------------------------------------------------------------ updates

  datatype Request = Request(from: XOnlyKey, hexSig: string, fee: Amount, payments: seq<Payment>)

  function Cost(r: Request): Amount {
    SumPayments(r.payments) + r.fee
  }

  function OnePaymentBytes(p: Payment): seq<Byte> {
    LittleEndian(p.amount, 8) + ScriptPubkey(p.payee)
  }

  /** The bytes after the sequence number and fee: each amount and its script. */
  function PaymentBytes(payments: seq<Payment>): (r: seq<Byte>)
    ensures payments != [] ==> r != []
  {
    if payments == [] then [] else OnePaymentBytes(payments[0]) + PaymentBytes(payments[1..])
  }

  function SignedBytes(sequence: nat, r: Request): seq<Byte> {
    LittleEndian(sequence, 8) + (LittleEndian(r.fee, 8) + PaymentBytes(r.payments))
  }

  /** What was fed so far and the payments that are left make up a text. */
  ghost predicate Completes(fed: seq<Byte>, left: seq<Payment>, text: seq<Byte>) {
    fed + PaymentBytes(left) == text
  }

  lemma HeaderFed(sequence: nat, r: Request)
    ensures Completes([] + LittleEndian(sequence, 8) + LittleEndian(r.fee, 8), r.payments, SignedBytes(sequence, r))
  {
    assert [] + LittleEndian(sequence, 8) == LittleEndian(sequence, 8);
    ConcatAssociative(LittleEndian(sequence, 8), LittleEndian(r.fee, 8), PaymentBytes(r.payments));
  }

  lemma PaymentFed(fed: seq<Byte>, left: seq<Payment>, text: seq<Byte>)
    requires left != [] && Completes(fed, left, text)
    ensures Completes(fed + LittleEndian(left[0].amount, 8) + ScriptPubkey(left[0].payee), left[1..], text)
  {
    ConcatAssociative(fed, LittleEndian(left[0].amount, 8), ScriptPubkey(left[0].payee));
    ConcatAssociative(fed, OnePaymentBytes(left[0]), PaymentBytes(left[1..]));
  }

  method DigestToSign(sequence: nat, r: Request, sha: Sha256) returns (d: Digest)
    ensures d == sha(SignedBytes(sequence, r))
  {
    var hasher := new HashEngine();
    hasher.Input(LittleEndian(sequence, 8));
    hasher.Input(LittleEndian(r.fee, 8));
    HeaderFed(sequence, r);
    for i := 0 to |r.payments|
      invariant Completes(hasher.data, r.payments[i..], SignedBytes(sequence, r))
    {
      PaymentFed(hasher.data, r.payments[i..], SignedBytes(sequence, r));
      hasher.Input(LittleEndian(r.payments[i].amount, 8));
      hasher.Input(ScriptPubkey(r.payments[i].payee));
      assert r.payments[i..][1..] == r.payments[i + 1..];
    }
    assert r.payments[|r.payments|..] == [] && hasher.data + [] == hasher.data;
    d := sha(hasher.data);
  }

  /** A request signed for one state or fee of the pool is not one for another. */
  lemma SignaturesBindTheState(s: nat, a: Request, t: nat, b: Request)
    requires s < TWO_64 && t < TWO_64 && a.fee < TWO_64 && b.fee < TWO_64
    requires SignedBytes(s, a) == SignedBytes(t, b)
    ensures s == t && a.fee == b.fee && PaymentBytes(a.payments) == PaymentBytes(b.payments)
  {
    Pow256Values();
    FixedPrefix(s, LittleEndian(a.fee, 8) + PaymentBytes(a.payments),
                t, LittleEndian(b.fee, 8) + PaymentBytes(b.payments), 8);
    FixedPrefix(a.fee, PaymentBytes(a.payments), b.fee, PaymentBytes(b.payments), 8);
  }

  /** All amounts are u64. */
  ghost predicate Payable(payments: seq<Payment>) {
    forall i :: 0 <= i < |payments| ==> payments[i].amount < TWO_64
  }

  lemma FirstPaymentDecodes(p: Payment, r: seq<Byte>, q: Payment, s: seq<Byte>)
    requires p.amount < TWO_64 && q.amount < TWO_64
    requires OnePaymentBytes(p) + r == OnePaymentBytes(q) + s
    ensures p == q && r == s
  {
    Pow256Values();
    ConcatAssociative(LittleEndian(p.amount, 8), ScriptPubkey(p.payee), r);
    ConcatAssociative(LittleEndian(q.amount, 8), ScriptPubkey(q.payee), s);
    FixedPrefix(p.amount, ScriptPubkey(p.payee) + r, q.amount, ScriptPubkey(q.payee) + s, 8);
    ScriptPrefix(p.payee, r, q.payee, s);
  }

  /** The bytes of payments decode uniquely, whatever kinds of address they pay. */
  lemma {:induction false} PaymentBytesDecode(a: seq<Payment>, b: seq<Payment>)
    requires Payable(a) && Payable(b)
    requires PaymentBytes(a) == PaymentBytes(b)
    ensures a == b
    decreases |a|
  {
    if a != [] && b != [] {
      FirstPaymentDecodes(a[0], PaymentBytes(a[1..]), b[0], PaymentBytes(b[1..]));
      PaymentBytesDecode(a[1..], b[1..]);
      assert a == [a[0]] + a[1..] && b == [b[0]] + b[1..];
    }
  }

  /** Signed bytes are equal only for the same state, fee and payments. */
  lemma SignaturesBindPayments(s: nat, a: Request, t: nat, b: Request)
    requires s < TWO_64 && t < TWO_64 && a.fee < TWO_64 && b.fee < TWO_64
    requires Payable(a.payments) && Payable(b.payments)
    ensures SignedBytes(s, a) == SignedBytes(t, b) <==> s == t && a.fee == b.fee && a.payments == b.payments
  {
    if SignedBytes(s, a) == SignedBytes(t, b) {
      SignaturesBindTheState(s, a, t, b);
      PaymentBytesDecode(a.payments, b.payments);
    }
  }

  /** Why a request is refused: its payer, its balance, or its signature. */
  function Refusal(pool: PaymentPool, r: Request, env: Env): Option<CompilationError> {
    match Lookup(pool.members, r.from)
    case None => Some(TerminateCompilation)
    case Some(balance) =>
      if Cost(r) > balance then Some(Panic("Amount subtraction error"))
      else if pool.sigNeeded && !env.verify(r.hexSig, env.sha(SignedBytes(pool.sequence, r)), r.from)
      then Some(TerminateCompilation)
      else None
  }

  function FirstRefusal(pool: PaymentPool, rs: seq<Request>, env: Env): Option<CompilationError> {
    if rs == [] then None
    else if Refusal(pool, rs[0], env).Some? then Refusal(pool, rs[0], env)
    else FirstRefusal(pool, rs[1..], env)
  }

  function RequestOf(rs: seq<Request>, key: XOnlyKey): Option<Request> {
    if rs == [] then None
    else if rs[0].from == key then Some(rs[0])
    else RequestOf(rs[1..], key)
  }

  /** What is left of a member once the requests are met: nothing, if spent up. */
  function Kept(m: Member, rs: seq<Request>): Option<Member> {
    match RequestOf(rs, m.key)
    case None => Some(m)
    case Some(r) => if Cost(r) < m.balance then Some(Member(m.key, m.balance - Cost(r))) else None
  }

  /** The members of the next state, read off the old ones in one pass. */
  function NewMembers(ms: seq<Member>, rs: seq<Request>): seq<Member> {
    if ms == [] then []
    else
      match Kept(ms[0], rs)
      case None => NewMembers(ms[1..], rs)
      case Some(m) => [m] + NewMembers(ms[1..], rs)
  }

  function AllPayments(rs: seq<Request>): seq<Payment> {
    if rs == [] then [] else rs[0].payments + AllPayments(rs[1..])
  }

  function Fees(rs: seq<Request>): Amount {
    if rs == [] then 0 else rs[0].fee + Fees(rs[1..])
  }

  /** An update maps each payer to one request. */
  ghost predicate OnePerPayer(rs: seq<Request>) {
    forall i, j :: 0 <= i < j < |rs| ==> rs[i].from != rs[j].from
  }

  lemma {:induction false} RequestOfAppend(rs: seq<Request>, r: Request, key: XOnlyKey)
    ensures RequestOf(rs + [r], key) ==
              if RequestOf(rs, key).Some? then RequestOf(rs, key) else if r.from == key then Some(r) else None
  {
    if rs == [] {
      assert rs + [r] == [r];
    } else {
      assert (rs + [r])[1..] == rs[1..] + [r];
      RequestOfAppend(rs[1..], r, key);
    }
  }

  lemma {:induction false} NoRequestYet(rs: seq<Request>, key: XOnlyKey)
    requires forall i :: 0 <= i < |rs| ==> rs[i].from != key
    ensures RequestOf(rs, key) == None
  {
    if rs != [] {
      NoRequestYet(rs[1..], key);
    }
  }

  lemma {:induction false} NewMembersAbove(ms: seq<Member>, rs: seq<Request>, key: XOnlyKey)
    requires AllAbove(ms, key)
    ensures AllAbove(NewMembers(ms, rs), key)
  {
    if ms != [] {
      NewMembersAbove(ms[1..], rs, key);
    }
  }

  lemma {:induction false} OtherRequest(ms: seq<Member>, rs: seq<Request>, r: Request)
    requires AllAbove(ms, r.from)
    ensures NewMembers(ms, rs + [r]) == NewMembers(ms, rs)
  {
    if ms != [] {
      RequestOfAppend(rs, r, ms[0].key);
      OtherRequest(ms[1..], rs, r);
    }
  }

  function Updated(ms: seq<Member>, key: XOnlyKey, left: Amount): seq<Member> {
    if left > 0 then Insert(ms, Member(key, left)) else Remove(ms, key)
  }

  lemma UpdatedCons(m: Member, ms: seq<Member>, key: XOnlyKey, left: Amount)
    requires m.key < key
    ensures Updated([m] + ms, key, left) == [m] + Updated(ms, key, left)
  {
    assert ([m] + ms)[1..] == ms;
  }

  lemma {:induction false} PayerIsFirst(ms: seq<Member>, rs: seq<Request>, r: Request)
    requires Ordered(ms) && ms != [] && ms[0].key == r.from
    requires RequestOf(rs, r.from) == None && Cost(r) <= ms[0].balance
    ensures NewMembers(ms, rs + [r]) == Updated(NewMembers(ms, rs), r.from, ms[0].balance - Cost(r))
  {
    RequestOfAppend(rs, r, ms[0].key);
    OtherRequest(ms[1..], rs, r);
    assert NewMembers(ms, rs)[1..] == NewMembers(ms[1..], rs);
  }

  /** Inserting or removing one payer is one more request met by the pass. */
  lemma {:induction false} NewMembersNext(ms: seq<Member>, rs: seq<Request>, r: Request, balance: Amount)
    requires Ordered(ms) && RequestOf(rs, r.from) == None
    requires Lookup(ms, r.from) == Some(balance) && Cost(r) <= balance
    ensures NewMembers(ms, rs + [r]) == Updated(NewMembers(ms, rs), r.from, balance - Cost(r))
  {
    if ms[0].key == r.from {
      PayerIsFirst(ms, rs, r);
    } else {
      var i := LookupFinds(ms, r.from);
      assert ms[0].key < ms[i].key;
      NewMembersNext(ms[1..], rs, r, balance);
      RequestOfAppend(rs, r, ms[0].key);
      assert Kept(ms[0], rs + [r]) == Kept(ms[0], rs);
      if Kept(ms[0], rs).Some? {
        UpdatedCons(Kept(ms[0], rs).value, NewMembers(ms[1..], rs), r.from, balance - Cost(r));
      }
    }
  }

  lemma {:induction false} NewMembersOrdered(ms: seq<Member>, rs: seq<Request>)
    requires Ordered(ms)
    ensures Ordered(NewMembers(ms, rs))
  {
    if ms != [] {
      NewMembersOrdered(ms[1..], rs);
      NewMembersAbove(ms[1..], rs, ms[0].key);
    }
  }

  /** What an update leaves with a key, whether or not it pays and is known. */
  function Left(ms: seq<Member>, rs: seq<Request>, key: XOnlyKey): Option<Amount> {
    match (Lookup(ms, key), RequestOf(rs, key))
    case (None, _) => None
    case (Some(b), None) => Some(b)
    case (Some(b), Some(r)) => if Cost(r) < b then Some(b - Cost(r)) else None
  }

  lemma {:induction false} NewBalances(ms: seq<Member>, rs: seq<Request>, key: XOnlyKey)
    requires Ordered(ms)
    ensures Lookup(NewMembers(ms, rs), key) == Left(ms, rs, key)
  {
    if ms != [] {
      NewBalances(ms[1..], rs, key);
      LookupAbove(ms[1..], ms[0].key);
      if Kept(ms[0], rs).Some? {
        assert NewMembers(ms, rs)[0] == Kept(ms[0], rs).value;
        assert NewMembers(ms, rs)[1..] == NewMembers(ms[1..], rs);
      }
    }
  }

  // --------------------------------------------------------- the transaction

  function PayOps(payments: seq<Payment>, env: Env): (ops: seq<BuilderOp>)
    ensures |ops| == |payments|
    ensures forall i :: 0 <= i < |ops| ==> ops[i] == OutputOp(payments[i].amount, env.address(payments[i].payee))
  {
    if payments == [] then []
    else [OutputOp(payments[0].amount, env.address(payments[0].payee))] + PayOps(payments[1..], env)
  }

  function NextPool(pool: PaymentPool, rs: seq<Request>): PaymentPool {
    PaymentPool(NewMembers(pool.members, rs), pool.sequence + 1, pool.sigNeeded)
  }

  /** The next pool first, then the payments: through one tree if over four. */
  function ProposalOps(change: PaymentPool, payments: seq<Payment>, env: Env): seq<BuilderOp> {
    [OutputOp(Total(change.members), env.pool(change))]
    + if |payments| > 4 then [OutputOp(SumPayments(payments), env.tree(payments))] else PayOps(payments, env)
  }

  function Proposal(ctx: ContextView, change: PaymentPool, payments: seq<Payment>,
      env: Env): Result<seq<Template>, CompilationError> {
    Finished(ApplyAll(NewBuilder(ctx), ProposalOps(change, payments, env)), env.sha)
  }

  lemma {:induction false} AllPaymentsAppend(rs: seq<Request>, r: Request)
    ensures AllPayments(rs + [r]) == AllPayments(rs) + r.payments
    ensures Fees(rs + [r]) == Fees(rs) + r.fee
  {
    if rs == [] {
      assert rs + [r] == [r] && [r][1..] == [];
    } else {
      assert (rs + [r])[1..] == rs[1..] + [r];
      AllPaymentsAppend(rs[1..], r);
    }
  }

  lemma {:induction false} NothingRequested(ms: seq<Member>)
    ensures NewMembers(ms, []) == ms
  {
    if ms != [] {
      NothingRequested(ms[1..]);
    }
  }

  /** The loop over the requests, after the first `i` of them were met. */
  ghost predicate Met(pool: PaymentPool, update: seq<Request>, i: nat, env: Env, ms: seq<Member>,
      payments: seq<Payment>)
    requires i <= |update|
  {
    && FirstRefusal(pool, update, env) == FirstRefusal(pool, update[i..], env)
    && ms == NewMembers(pool.members, update[..i])
    && payments == AllPayments(update[..i])
  }

  lemma NoneIsMet(pool: PaymentPool, update: seq<Request>, env: Env)
    ensures Met(pool, update, 0, env, pool.members, [])
  {
    NothingRequested(pool.members);
    assert update[..0] == [] && update[0..] == update;
  }

  lemma AllAreMet(pool: PaymentPool, update: seq<Request>, env: Env, ms: seq<Member>, payments: seq<Payment>)
    requires Met(pool, update, |update|, env, ms, payments)
    ensures FirstRefusal(pool, update, env) == None
    ensures ms == NewMembers(pool.members, update) && payments == AllPayments(update)
  {
    assert update[..|update|] == update && update[|update|..] == [];
  }

  /** What becomes of an update: nothing to do, refused, or one transaction. */
  function Outcome(pool: PaymentPool, ctx: ContextView, update: seq<Request>,
      env: Env): Result<seq<Template>, CompilationError> {
    if update == [] then Ok([])
    else
      match FirstRefusal(pool, update, env)
      case Some(e) => Err(e)
      case None => Proposal(ctx, NextPool(pool, update), AllPayments(update), env)
  }

  lemma NextIsRefused(pool: PaymentPool, update: seq<Request>, i: nat, env: Env, ms: seq<Member>,
      payments: seq<Payment>)
    requires i < |update| && Met(pool, update, i, env, ms, payments) && Refusal(pool, update[i], env).Some?
    ensures FirstRefusal(pool, update, env) == Refusal(pool, update[i], env)
  {
  }

  lemma NextIsMet(pool: PaymentPool, update: seq<Request>, i: nat, env: Env, ms: seq<Member>,
      payments: seq<Payment>, balance: Amount)
    requires Ordered(pool.members) && OnePerPayer(update)
    requires i < |update| && Met(pool, update, i, env, ms, payments) && Refusal(pool, update[i], env).None?
    requires Lookup(pool.members, update[i].from) == Some(balance)
    ensures Cost(update[i]) <= balance
    ensures Met(pool, update, i + 1, env,
                Updated(ms, update[i].from, balance - Cost(update[i])), payments + update[i].payments)
  {
    assert update[..i + 1] == update[..i] + [update[i]] && update[i..][1..] == update[i + 1..];
    NoRequestYet(update[..i], update[i].from);
    NewMembersNext(pool.members, update[..i], update[i], balance);
    AllPaymentsAppend(update[..i], update[i]);
  }

  /** Collects the payments of one request and adds them to what is spent. */
  method Collect(payments: seq<Payment>, before: seq<Payment>,
      spentBefore: Amount) returns (all: seq<Payment>, spent: Amount)
    requires spentBefore == SumPayments(before)
    ensures all == before + payments && spent == SumPayments(all)
  {
    all, spent := before, spentBefore;
    for j := 0 to |payments|
      invariant all == before + payments[..j] && spent == SumPayments(all)
    {
      PrefixGrows(before, payments, j);
      SumPaymentsConcat(all, [payments[j]]);
      spent := spent + payments[j].amount;
      all := all + [payments[j]];
    }
  }

  /** Adds one output for each payment. */
  method PayEach(t: Builder, payments: seq<Payment>, env: Env) returns (r: Result<(), CompilationError>)
    requires !t.addingFees
    modifies t`outputs, t.ctx
    ensures match ApplyAll(old(t.View()), PayOps(payments, env))
            case Err(e) => r == Err(e)
            case Ok(b) => r == Ok(()) && t.View() == b
  {
    var ops := PayOps(payments, env);
    for k := 0 to |payments|
      invariant ApplyAll(old(t.View()), ops) == ApplyAll(t.View(), ops[k..])
    {
      assert ops[k..][1..] == ops[k + 1..];
      var added := t.AddOutput(payments[k].amount, env.address(payments[k].payee));
      if added.Err? {
        return Err(added.error);
      }
    }
    r := Ok(());
  }

  /** The outputs of an update: leftover funds go to a new pool. */
  method Propose(change: PaymentPool, ctx: Context, payments: seq<Payment>, spent: Amount, env: Env)
    returns (r: Result<seq<Template>, CompilationError>)
    requires spent == SumPayments(payments)
    modifies ctx
    ensures r == Proposal(old(ctx.View()), change, payments, env)
  {
    var tmpl := new Builder(ctx);
    ghost var start := tmpl.View();
    var total := TotalOf(change);
    ghost var rest := if |payments| > 4 then [OutputOp(spent, env.tree(payments))] else PayOps(payments, env);
    RunFirst(start, OutputOp(total, env.pool(change)), rest);
    var added := tmpl.AddOutput(total, env.pool(change));
    if added.Err? {
      return Err(added.error);
    }
    if |payments| > 4 {
      RunOne(tmpl.View(), OutputOp(spent, env.tree(payments)));
      added := tmpl.AddOutput(spent, env.tree(payments));
    } else {
      added := PayEach(tmpl, payments, env);
    }
    if added.Err? {
      return Err(added.error);
    }
    var template := tmpl.ToTemplate(env.sha);
    r := Ok([template]);
  }

  /** The balances after an update, and what it pays to whom. */
  datatype Settlement = Settlement(members: seq<Member>, payments: seq<Payment>, spent: Amount)

  /** Meets the requests one after the other, unless one of them is refused. */
  method MeetAll(pool: PaymentPool, update: seq<Request>, env: Env) returns (r: Result<Settlement, CompilationError>)
    requires Ordered(pool.members) && OnePerPayer(update)
    ensures FirstRefusal(pool, update, env).Some? ==> r == Err(FirstRefusal(pool, update, env).value)
    ensures FirstRefusal(pool, update, env).None? ==>
              r == Ok(Settlement(NewMembers(pool.members, update), AllPayments(update),
                  SumPayments(AllPayments(update))))
  {
    var newMembers := pool.members;
    var allPayments: seq<Payment>, spent: Amount := [], 0;
    NoneIsMet(pool, update, env);
    for i := 0 to |update|
      invariant Met(pool, update, i, env, newMembers, allPayments)
      invariant spent == SumPayments(allPayments)
    {
      var request := update[i];
      var balance := Lookup(pool.members, request.from);
      if Refusal(pool, request, env).Some? {
        NextIsRefused(pool, update, i, env, newMembers, allPayments);
      } else {
        NextIsMet(pool, update, i, env, newMembers, allPayments, balance.value);
      }
      if balance.None? {
        return Err(TerminateCompilation);
      }
      if Cost(request) > balance.value {
        return Err(Panic("Amount subtraction error"));
      }
      newMembers := Updated(newMembers, request.from, balance.value - Cost(request));
      allPayments, spent := Collect(request.payments, allPayments, spent);
      if pool.sigNeeded {
        var digest := DigestToSign(pool.sequence, request, env.sha);
        if !env.verify(request.hexSig, digest, request.from) {
          return Err(TerminateCompilation);
        }
      }
    }
    AllAreMet(pool, update, env, newMembers, allPayments);
    r := Ok(Settlement(newMembers, allPayments, spent));
  }

  /** Proposes the transaction that meets a list of requests. */
  method DoTx(pool: PaymentPool, ctx: Context, update: seq<Request>,
      env: Env) returns (r: Result<seq<Template>, CompilationError>)
    requires Ordered(pool.members) && OnePerPayer(update)
    modifies ctx
    ensures r == Outcome(pool, old(ctx.View()), update, env)
  {
    if update == [] {
      return Ok([]);
    }
    var met := MeetAll(pool, update, env);
    if met.Err? {
      return Err(met.error);
    }
    var change := PaymentPool(met.value.members, pool.sequence + 1, pool.sigNeeded);
    assert change == NextPool(pool, update) && met.value.payments == AllPayments(update);
    r := Propose(change, ctx, met.value.payments, met.value.spent, env);
  }

  // ---------------------------------------------------------------- conservation

  /** An update goes through exactly when no single request is refused. */
  lemma {:induction false} RefusedIffOneIs(pool: PaymentPool, update: seq<Request>, env: Env)
    ensures FirstRefusal(pool, update, env).None?
            <==> forall i :: 0 <= i < |update| ==> Refusal(pool, update[i], env).None?
  {
    if update != [] {
      RefusedIffOneIs(pool, update[1..], env);
      if forall i :: 0 <= i < |update| ==> Refusal(pool, update[i], env).None? {
        assert Refusal(pool, update[0], env).None?;
      }
      if FirstRefusal(pool, update, env).None? {
        forall i | 0 <= i < |update| ensures Refusal(pool, update[i], env).None? {
          assert i > 0 ==> update[i] == update[1..][i - 1];
        }
      }
    }
  }

  lemma UpdatedTotal(ms: seq<Member>, key: XOnlyKey, balance: Amount, left: Amount)
    requires Ordered(ms) && Lookup(ms, key) == Some(balance)
    ensures Total(Updated(ms, key, left)) + balance == Total(ms) + left
  {
    InsertTotal(ms, Member(key, left));
    RemoveTotal(ms, key);
  }

  /** Balances, payments and fees, after some requests were met. */
  function Accounts(ms: seq<Member>, met: seq<Request>): Amount {
    Total(NewMembers(ms, met)) + SumPayments(AllPayments(met)) + Fees(met)
  }

  lemma RequestConserves(ms: seq<Member>, met: seq<Request>, r: Request, balance: Amount)
    requires Ordered(ms) && RequestOf(met, r.from) == None
    requires Lookup(ms, r.from) == Some(balance) && Cost(r) <= balance
    ensures Accounts(ms, met + [r]) == Accounts(ms, met)
  {
    NewMembersNext(ms, met, r, balance);
    NewMembersOrdered(ms, met);
    NewBalances(ms, met, r.from);
    UpdatedTotal(NewMembers(ms, met), r.from, balance, balance - Cost(r));
    AllPaymentsAppend(met, r);
    SumPaymentsConcat(AllPayments(met), r.payments);
  }

  lemma {:induction false} BalancesConserved(pool: PaymentPool, update: seq<Request>, env: Env, n: nat)
    requires Ordered(pool.members) && OnePerPayer(update) && n <= |update|
    requires forall i :: 0 <= i < |update| ==> Refusal(pool, update[i], env).None?
    ensures Accounts(pool.members, update[..n]) == Total(pool.members)
  {
    if n == 0 {
      NothingRequested(pool.members);
    } else {
      var met, r := update[..n - 1], update[n - 1];
      BalancesConserved(pool, update, env, n - 1);
      assert Refusal(pool, r, env).None? && update[..n] == met + [r];
      NoRequestYet(met, r.from);
      RequestConserves(pool.members, met, r, Lookup(pool.members, r.from).value);
    }
  }

  /** The amounts that a list of operations pays out. */
  function Paid(ops: seq<BuilderOp>): seq<Amount> {
    if ops == [] then [] else (if ops[0].OutputOp? then [ops[0].amount] else []) + Paid(ops[1..])
  }

  function Amounts(outputs: seq<Output>): (r: seq<Amount>)
    ensures |r| == |outputs|
    ensures forall i :: 0 <= i < |r| ==> r[i] == outputs[i].amount
  {
    if outputs == [] then [] else [outputs[0].amount] + Amounts(outputs[1..])
  }

  lemma {:induction false} SumOfAmounts(outputs: seq<Output>)
    ensures Sum(Amounts(outputs)) == TotalAmount(outputs)
  {
    if outputs != [] {
      assert Amounts(outputs)[1..] == Amounts(outputs[1..]);
      SumOfAmounts(outputs[1..]);
    }
  }

  lemma AmountsPush(outputs: seq<Output>, last: Output)
    ensures Amounts(outputs + [last]) == Amounts(outputs) + [last.amount]
  {
  }

  lemma StepPays(b: BuilderView, op: BuilderOp)
    requires Apply(b, op).Ok?
    ensures Amounts(Apply(b, op).value.outputs) == Amounts(b.outputs) + if op.OutputOp? then [op.amount] else []
  {
    if op.OutputOp? {
      var reserved := ReserveOutput(b, op.amount).value;
      AmountsPush(b.outputs, Output(op.amount, op.compile(reserved.1).value));
    } else {
      assert Apply(b, op).value.outputs == b.outputs;
    }
  }

  /** A run of a builder has exactly the outputs that its operations ask for. */
  lemma {:induction false} RunPays(b: BuilderView, ops: seq<BuilderOp>)
    requires ApplyAll(b, ops).Ok?
    ensures Amounts(ApplyAll(b, ops).value.outputs) == Amounts(b.outputs) + Paid(ops)
    decreases |ops|
  {
    if ops != [] {
      var paid := if ops[0].OutputOp? then [ops[0].amount] else [];
      StepPays(b, ops[0]);
      RunPays(Apply(b, ops[0]).value, ops[1..]);
      ConcatAssociative(Amounts(b.outputs), paid, Paid(ops[1..]));
    }
  }

  lemma {:induction false} PaidByPayOps(payments: seq<Payment>, env: Env)
    ensures |Paid(PayOps(payments, env))| == |payments|
    ensures forall i :: 0 <= i < |payments| ==> Paid(PayOps(payments, env))[i] == payments[i].amount
    ensures Sum(Paid(PayOps(payments, env))) == SumPayments(payments)
  {
    if payments != [] {
      PaidByPayOps(payments[1..], env);
      var ops := PayOps(payments, env);
      assert ops[1..] == PayOps(payments[1..], env);
      assert Paid(ops) == [payments[0].amount] + Paid(ops[1..]) && Paid(ops)[1..] == Paid(ops[1..]);
    }
  }

  /** What the outputs of an update come to: the new pool and the payments. */
  ghost predicate PaysUpdate(amounts: seq<Amount>, change: Amount, payments: seq<Payment>) {
    && amounts != [] && amounts[0] == change
    && Sum(amounts) == change + SumPayments(payments)
    && (if |payments| > 4 then amounts[1..] == [SumPayments(payments)]
        else |amounts| == 1 + |payments| && forall i :: 0 <= i < |payments| ==> amounts[1 + i] == payments[i].amount)
  }

  lemma ProposalPays(change: PaymentPool, payments: seq<Payment>, env: Env)
    ensures PaysUpdate(Paid(ProposalOps(change, payments, env)), Total(change.members), payments)
  {
    var ops := ProposalOps(change, payments, env);
    assert Paid(ops) == [Total(change.members)] + Paid(ops[1..]) && Paid(ops)[1..] == Paid(ops[1..]);
    if |payments| > 4 {
      var tree := OutputOp(SumPayments(payments), env.tree(payments));
      assert ops[1..] == [tree] && [tree][1..] == [];
      assert Paid([tree]) == [SumPayments(payments)] + Paid([]);
      assert Sum([SumPayments(payments)]) == SumPayments(payments) + Sum([]);
    } else {
      assert ops[1..] == PayOps(payments, env);
      PaidByPayOps(payments, env);
    }
  }

  /**
   * Pool updates conserve balances: whenever an update completes, what the new
   * pool holds, all payments and all fees come to the old pool's total; the
   * outputs are the new pool's total and the payments, so they come to the old
   * total without the fees; and every payer was a member.
   */
  lemma PoolUpdateConserves(pool: PaymentPool, ctx: ContextView, update: seq<Request>, env: Env)
    requires Ordered(pool.members) && OnePerPayer(update) && update != []
    requires Outcome(pool, ctx, update, env).Ok?
    ensures var next := NextPool(pool, update);
            var payments := AllPayments(update);
            && Total(next.members) + SumPayments(payments) + Fees(update) == Total(pool.members)
            && Ordered(next.members) && next.sequence == pool.sequence + 1
            && (forall key :: Lookup(next.members, key) == Left(pool.members, update, key))
            && (forall i :: 0 <= i < |update| ==> Lookup(pool.members, update[i].from).Some?)
    ensures |Outcome(pool, ctx, update, env).value| == 1
    ensures var t := Outcome(pool, ctx, update, env).value[0];
            && PaysUpdate(Amounts(t.outputs), Total(NextPool(pool, update).members), AllPayments(update))
            && TotalAmount(t.outputs) + Fees(update) == Total(pool.members)
            && t.max == TotalAmount(t.outputs) <= ctx.funds
  {
    RefusedIffOneIs(pool, update, env);
    BalancesConserved(pool, update, env, |update|);
    assert update[..|update|] == update;
    NewMembersOrdered(pool.members, update);
    forall key ensures Lookup(NewMembers(pool.members, update), key) == Left(pool.members, update, key) {
      NewBalances(pool.members, update, key);
    }
    OutputsOfProposal(ctx, NextPool(pool, update), AllPayments(update), env);
  }

  lemma RunPaysUpdate(ctx: ContextView, change: PaymentPool, payments: seq<Payment>, env: Env, outputs: seq<Output>)
    requires ApplyAll(NewBuilder(ctx), ProposalOps(change, payments, env)).Ok?
    requires outputs == ApplyAll(NewBuilder(ctx), ProposalOps(change, payments, env)).value.outputs
    ensures PaysUpdate(Amounts(outputs), Total(change.members), payments)
    ensures TotalAmount(outputs) == Total(change.members) + SumPayments(payments)
  {
    var ops := ProposalOps(change, payments, env);
    RunPays(NewBuilder(ctx), ops);
    assert Amounts(outputs) == Paid(ops);
    ProposalPays(change, payments, env);
    SumOfAmounts(outputs);
  }

  lemma OutputsOfProposal(ctx: ContextView, change: PaymentPool, payments: seq<Payment>, env: Env)
    requires Proposal(ctx, change, payments, env).Ok?
    ensures var t := Proposal(ctx, change, payments, env).value[0];
            && PaysUpdate(Amounts(t.outputs), Total(change.members), payments)
            && TotalAmount(t.outputs) == Total(change.members) + SumPayments(payments)
            && t.max == TotalAmount(t.outputs) <= ctx.funds
  {
    var ops := ProposalOps(change, payments, env);
    RunPaysUpdate(ctx, change, payments, env, ApplyAll(NewBuilder(ctx), ops).value.outputs);
    TemplateWithinFunds(ctx, ops, env.sha);
    OnlyOutputs(NewBuilder(ctx), ops);
  }

  lemma {:induction false} OnlyOutputs(b: BuilderView, ops: seq<BuilderOp>)
    requires ApplyAll(b, ops).Ok? && forall i :: 0 <= i < |ops| ==> ops[i].OutputOp?
    ensures ApplyAll(b, ops).value.fees == b.fees && Spent(ops) == 0 && Added(ops) == 0
    decreases |ops|
  {
    if ops != [] {
      OnlyOutputs(Apply(b, ops[0]).value, ops[1..]);
    }
  }

  /** An ejection pays each half what its members hold, the whole pool in all. */
  lemma EjectionConserves(pool: PaymentPool, ctx: ContextView, env: Env)
    requires Ordered(pool.members) && |pool.members| >= 2
    requires Finished(ApplyAll(NewBuilder(ctx), EjectionOps(pool, env)), env.sha).Ok?
    ensures var t := Finished(ApplyAll(NewBuilder(ctx), EjectionOps(pool, env)), env.sha).value[0];
            && Amounts(t.outputs) == [Total(Halves(pool).0.members), Total(Halves(pool).1.members)]
            && TotalAmount(t.outputs) == Total(pool.members)
  {
    var ops := EjectionOps(pool, env);
    var b := ApplyAll(NewBuilder(ctx), ops).value;
    RunPays(NewBuilder(ctx), ops);
    assert ops[1..] == [ops[1]] && ops[1..][1..] == [];
    assert Paid(ops[1..]) == [ops[1].amount] + Paid([]);
    assert Amounts(b.outputs) == [ops[0].amount, ops[1].amount];
    SumOfAmounts(b.outputs);
    var amounts := Amounts(b.outputs);
    assert Sum(amounts) == amounts[0] + (amounts[1] + Sum(amounts[1..][1..]));
    PartsOfOrdered(pool.members, Middle(pool));
  }

  function Keys(ms: seq<Member>): (r: seq<XOnlyKey>)
    ensures |r| == |ms|
    ensures forall i :: 0 <= i < |r| ==> r[i] == ms[i].key
  {
    if ms == [] then [] else [ms[0].key] + Keys(ms[1..])
  }

  /** An update needs the signature of every member, whether it pays or not. */
  lemma AllSignedMeaning(pool: PaymentPool, w: World)
    ensures Sat(Cooperate(Keys(pool.members)), w)
            <==> forall i :: 0 <= i < |pool.members| ==> Key(pool.members[i].key) in w
  {
    var clauses := KeyClauses(Keys(pool.members));
    ThresholdOfAll(clauses, w);
    forall i | 0 <= i < |pool.members| ensures Sat(clauses[i], w) <==> Key(pool.members[i].key) in w {
      assert clauses[i] == Key(pool.members[i].key);
    }
  }
}
