/** Transaction indexes: one that keeps what it is given, and a cache over another. */
module TxIndexes {
  import opened Wrappers
  import opened Templates

  datatype TxIndexError = NetworkError | UnknownTxid(txid: Txid) | IndexTooHigh(vout: nat)

  type TxidOf = Transaction -> Txid

  type Store = map<Txid, Transaction>

  function Find(s: Store, id: Txid): Result<Transaction, TxIndexError> {
    if id in s then Ok(s[id]) else Err(UnknownTxid(id))
  }

  /** The output that an outpoint names. */
  function FindOutput(s: Store, out: OutPoint): Result<TxOut, TxIndexError> {
    var tx :- Find(s, out.txid);
    if out.vout < |tx.output| then Ok(tx.output[out.vout]) else Err(IndexTooHigh(out.vout))
  }

  /**
   * An index that stores what it is given. A call with `outage` fails, as a
   * remote index may at any time; the logging index is one without outages.
   */
  class TxIndexLogger {
    const txidOf: TxidOf
    var txs: Store

    constructor (txidOf: TxidOf)
      ensures this.txidOf == txidOf && txs == map[]
    {
      this.txidOf, txs := txidOf, map[];
    }

    method LookupTx(id: Txid, outage: bool := false) returns (r: Result<Transaction, TxIndexError>)
      ensures r == if outage then Err(NetworkError) else Find(txs, id)
    {
      if outage {
        return Err(NetworkError);
      }
      r := if id in txs then Ok(txs[id]) else Err(UnknownTxid(id));
    }

    method LookupOutput(out: OutPoint, outage: bool := false) returns (r: Result<TxOut, TxIndexError>)
      ensures r == if outage then Err(NetworkError) else FindOutput(txs, out)
    {
      var tx := LookupTx(out.txid, outage);
      if tx.Err? {
        return Err(tx.error);
      }
      r := if out.vout < |tx.value.output| then Ok(tx.value.output[out.vout]) else Err(IndexTooHigh(out.vout));
    }

    method AddTx(tx: Transaction, outage: bool := false) returns (r: Result<Txid, TxIndexError>)
      modifies this
      ensures r == if outage then Err(NetworkError) else Ok(txidOf(tx))
      ensures txs == if outage then old(txs) else old(txs)[txidOf(tx) := tx]
    {
      if outage {
        return Err(NetworkError);
      }
      txs := txs[txidOf(tx) := tx];
      r := Ok(txidOf(tx));
    }
  }

  /** Which of the calls to the cache and the primary fail during one operation. */
  datatype Outages = Outages(cacheLookup: bool, primaryCall: bool, cacheAdd: bool)

  datatype Pair = Pair(cache: Store, primary: Store)

  function LookupStep(p: Pair, id: Txid, o: Outages, txidOf: TxidOf): (Pair, Result<Transaction, TxIndexError>) {
    if !o.cacheLookup && id in p.cache then (p, Ok(p.cache[id]))
    else if o.primaryCall then (p, Err(NetworkError))
    else if id !in p.primary then (p, Err(UnknownTxid(id)))
    else if o.cacheAdd then (p, Err(NetworkError))
    else (p.(cache := p.cache[txidOf(p.primary[id]) := p.primary[id]]), Ok(p.primary[id]))
  }

  function AddStep(p: Pair, tx: Transaction, o: Outages, txidOf: TxidOf): (Pair, Result<Txid, TxIndexError>) {
    var id := txidOf(tx);
    if !o.cacheLookup && id in p.cache then (p, Ok(id))
    else if o.primaryCall then (p, Err(NetworkError))
    else if o.cacheAdd then (p.(primary := p.primary[id := tx]), Err(NetworkError))
    else (Pair(p.cache[id := tx], p.primary[id := tx]), Ok(id))
  }

  /** Checks a cache first and then a primary index. */
  class CachedTxIndex {
    const cache: TxIndexLogger
    const primary: TxIndexLogger

    constructor (cache: TxIndexLogger, primary: TxIndexLogger)
      ensures this.cache == cache && this.primary == primary
    {
      this.cache, this.primary := cache, primary;
    }

    ghost predicate Valid() {
      cache != primary && cache.txidOf == primary.txidOf
    }

    ghost function View(): Pair
      reads cache, primary
    {
      Pair(cache.txs, primary.txs)
    }

    method LookupTx(id: Txid, o: Outages) returns (r: Result<Transaction, TxIndexError>)
      requires Valid()
      modifies cache
      ensures (View(), r) == LookupStep(old(View()), id, o, cache.txidOf)
    {
      r := cache.LookupTx(id, o.cacheLookup);
      if r.Ok? {
        return;
      }
      r := primary.LookupTx(id, o.primaryCall);
      if r.Err? {
        return;
      }
      var added := cache.AddTx(r.value, o.cacheAdd);
      if added.Err? {
        return Err(added.error);
      }
    }

    method AddTx(tx: Transaction, o: Outages) returns (r: Result<Txid, TxIndexError>)
      requires Valid()
      modifies cache, primary
      ensures (View(), r) == AddStep(old(View()), tx, o, cache.txidOf)
    {
      var id := cache.txidOf(tx);
      var cached := cache.LookupTx(id, o.cacheLookup);
      if cached.Ok? {
        return Ok(id);
      }
      r := primary.AddTx(tx, o.primaryCall);
      if r.Err? {
        return;
      }
      r := cache.AddTx(tx, o.cacheAdd);
    }
  }

  // ------------------------------------------------------------- transparency

  /** An operation on the cached index, or an addition to the primary by others. */
  datatype Op =
    | LookupOp(id: Txid, outages: Outages)
    | AddOp(tx: Transaction, outages: Outages)
    | OthersAdd(tx: Transaction)

  function Step(p: Pair, op: Op, txidOf: TxidOf): Pair {
    match op
    case LookupOp(id, o) => LookupStep(p, id, o, txidOf).0
    case AddOp(tx, o) => AddStep(p, tx, o, txidOf).0
    case OthersAdd(tx) => p.(primary := p.primary[txidOf(tx) := tx])
  }

  function RunOps(p: Pair, ops: seq<Op>, txidOf: TxidOf): Pair
    decreases |ops|
  {
    if ops == [] then p else RunOps(Step(p, ops[0], txidOf), ops[1..], txidOf)
  }

  /** The ids of the transactions at hand collide nowhere. */
  ghost predicate IdsDetermine(txidOf: TxidOf, known: iset<Transaction>) {
    forall a, b :: a in known && b in known && txidOf(a) == txidOf(b) ==> a == b
  }

  /** An index that stores what it was given files everything under its own id. */
  ghost predicate Filed(s: Store, txidOf: TxidOf, known: iset<Transaction>) {
    forall id :: id in s ==> s[id] in known && txidOf(s[id]) == id
  }

  ghost predicate AddsOnly(op: Op, known: iset<Transaction>) {
    !op.LookupOp? ==> op.tx in known
  }

  ghost predicate Agrees(p: Pair) {
    forall id :: id in p.cache ==> id in p.primary && p.primary[id] == p.cache[id]
  }

  lemma StepKeepsAgreement(p: Pair, op: Op, txidOf: TxidOf, known: iset<Transaction>)
    requires IdsDetermine(txidOf, known) && AddsOnly(op, known) && Filed(p.primary, txidOf, known) && Agrees(p)
    ensures Filed(Step(p, op, txidOf).primary, txidOf, known) && Agrees(Step(p, op, txidOf))
    ensures p.primary.Keys <= Step(p, op, txidOf).primary.Keys
  {
    if !op.LookupOp? {
      forall id | id in p.primary && id == txidOf(op.tx) ensures p.primary[id] == op.tx {
        assert txidOf(p.primary[id]) == txidOf(op.tx);
      }
    }
  }

  /** Whatever fails on the way, the cache agrees with the primary after any run. */
  lemma {:induction false} CacheStaysInAgreement(p: Pair, ops: seq<Op>, txidOf: TxidOf, known: iset<Transaction>)
    requires IdsDetermine(txidOf, known) && Filed(p.primary, txidOf, known) && Agrees(p)
    requires forall k :: 0 <= k < |ops| ==> AddsOnly(ops[k], known)
    ensures Filed(RunOps(p, ops, txidOf).primary, txidOf, known) && Agrees(RunOps(p, ops, txidOf))
    decreases |ops|
  {
    if ops != [] {
      StepKeepsAgreement(p, ops[0], txidOf, known);
      CacheStaysInAgreement(Step(p, ops[0], txidOf), ops[1..], txidOf, known);
    }
  }

  /**
   * Transparency: after any run, a lookup that succeeds returns what the
   * primary holds, and without outages it answers exactly as the primary does.
   */
  lemma LookupIsTransparent(p: Pair, ops: seq<Op>, id: Txid, o: Outages, txidOf: TxidOf, known: iset<Transaction>)
    requires IdsDetermine(txidOf, known) && Filed(p.primary, txidOf, known) && Agrees(p)
    requires forall k :: 0 <= k < |ops| ==> AddsOnly(ops[k], known)
    ensures var q := RunOps(p, ops, txidOf);
            var r := LookupStep(q, id, o, txidOf).1;
            && (r.Ok? ==> r == Find(q.primary, id))
            && (!o.cacheLookup && !o.primaryCall && !o.cacheAdd ==> r == Find(q.primary, id))
  {
    CacheStaysInAgreement(p, ops, txidOf, known);
  }

  /** An addition that succeeds leaves the transaction with the primary. */
  lemma AddReachesPrimary(p: Pair, tx: Transaction, o: Outages, txidOf: TxidOf, known: iset<Transaction>)
    requires IdsDetermine(txidOf, known) && tx in known && Filed(p.primary, txidOf, known) && Agrees(p)
    ensures !o.primaryCall && !o.cacheAdd ==> AddStep(p, tx, o, txidOf).1.Ok?
    ensures AddStep(p, tx, o, txidOf).1.Ok? ==>
              AddStep(p, tx, o, txidOf).1 == Ok(txidOf(tx)) &&
              Find(AddStep(p, tx, o, txidOf).0.primary, txidOf(tx)) == Ok(tx)
  {
    StepKeepsAgreement(p, AddOp(tx, o), txidOf, known);
  }

  /** What was looked up once is found again, even if the primary fails by then. */
  lemma LookupIsRemembered(p: Pair, id: Txid, o: Outages, later: Outages, txidOf: TxidOf, known: iset<Transaction>)
    requires Filed(p.primary, txidOf, known) && Agrees(p) && LookupStep(p, id, o, txidOf).1.Ok?
    requires !later.cacheLookup
    ensures LookupStep(LookupStep(p, id, o, txidOf).0, id, later, txidOf).1 == LookupStep(p, id, o, txidOf).1
  {
  }
}
