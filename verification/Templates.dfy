/** Transactions, the templates that commit to them, and compiled objects. */
module Templates {
  import opened Wrappers
  import opened Bytes
  import opened Policies
  import opened EffectPaths
  import opened Contexts

  type Txid = nat

  datatype OutPoint = OutPoint(txid: Txid, vout: nat)

  datatype TxIn = TxIn(previousOutput: OutPoint, sequence: nat)

  datatype TxOut = TxOut(value: Amount, script: seq<Byte>)

  datatype Transaction = Transaction(version: int, lockTime: nat, input: seq<TxIn>, output: seq<TxOut>)

  /** An output of a template together with the object that it pays. */
  datatype Output = Output(amount: Amount, contract: Object)

  datatype Template = Template(
    guards: seq<Clause>,
    ctv: Hash,
    max: Amount,
    minFeerate: Option<Amount>,
    tx: Transaction,
    outputs: seq<Output>)

  /** A compiled contract; its templates are listed in the order of their hashes. */
  datatype Object = Object(
    rootPath: ReversePath,
    script: seq<Byte>,
    ctvToTx: seq<Template>,
    suggestedTxs: seq<Template>)

  /** The root path of every object that is only an address, or only data: one empty name. */
  const ADDRESS_PATH := ReversePath(None, Named(""))

  /** A plain address as an object that commits to nothing. */
  function FromAddress(script: seq<Byte>): Object {
    Object(ADDRESS_PATH, script, [], [])
  }

  function TotalAmount(outputs: seq<Output>): Amount {
    if outputs == [] then 0 else outputs[0].amount + TotalAmount(outputs[1..])
  }

  lemma {:induction false} TotalAmountConcat(a: seq<Output>, b: seq<Output>)
    ensures TotalAmount(a + b) == TotalAmount(a) + TotalAmount(b)
  {
    if a == [] {
      assert a + b == b;
    } else {
      assert (a + b)[1..] == a[1..] + b;
      TotalAmountConcat(a[1..], b);
    }
  }
}
