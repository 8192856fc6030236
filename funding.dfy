/**
 * Transactions as the inscriber sees them, and the wallet bookkeeping of
 * doginals.js (identical in index.js): `fund` attaches wallet UTXOs in
 * order until the inputs pay for the outputs and the fee, and
 * `updateWallet` drops what a transaction spends and adds what it pays back
 * to the wallet.
 *
 * What bitcore computes internally (transaction hash, HASH160, the sighash
 * signature, the fee estimate, the dust threshold) is handed in as an `Env`
 * of functions the model does not look into.
 */
module Funding {
  import opened Wrappers
  import opened Script

  type TxId = seq<byte>
  type Address = string

  /** Where an output pays to: a wallet address, or the hash of a P2SH redeem script. */
  datatype Destination = PayToAddress(addr: Address) | PayToScriptHash(hash: seq<byte>)

  datatype Output = Output(dest: Destination, satoshis: nat)

  datatype Outpoint = Outpoint(txid: TxId, vout: nat)

  /** An input: the output it spends, that output's value, and its unlocking script. */
  datatype Input = Input(prev: Outpoint, satoshis: nat, script: seq<Chunk>)

  /** A wallet entry of `.wallet.json`. */
  datatype Utxo = Utxo(txid: TxId, vout: nat, satoshis: nat)

  /**
   * A transaction: its inputs, the outputs added explicitly, and the change
   * output bitcore keeps after them.
   */
  datatype Tx = Tx(inputs: seq<Input>, outputs: seq<Output>, change: Option<Output>)

  /** The collaborators from bitcore-lib-doge. */
  datatype Env = Env(
    txHash: Tx -> TxId,
    hash160: seq<byte> -> seq<byte>,
    sign: (Tx, seq<Chunk>) -> seq<byte>,
    fee: Tx -> nat,
    dust: nat)

  datatype FundError = NotEnoughFunds

  /** `tx.outputs`: the explicit outputs followed by the change output, if any. */
  function AllOutputs(tx: Tx): (r: seq<Output>)
    ensures |r| == |tx.outputs| + (if tx.change.Some? then 1 else 0)
    ensures r[..|tx.outputs|] == tx.outputs
  {
    tx.outputs + (if tx.change.Some? then [tx.change.value] else [])
  }

  function InputSum(ins: seq<Input>): nat {
    if ins == [] then 0 else InputSum(ins[..|ins| - 1]) + ins[|ins| - 1].satoshis
  }

  function OutputSum(outs: seq<Output>): nat {
    if outs == [] then 0 else OutputSum(outs[..|outs| - 1]) + outs[|outs| - 1].satoshis
  }

  lemma {:induction false} OutputSumAppend(a: seq<Output>, b: seq<Output>)
    ensures OutputSum(a + b) == OutputSum(a) + OutputSum(b)
    decreases |b|
  {
    if b == [] {
      assert a + b == a;
    } else {
      assert (a + b)[..|a + b| - 1] == a + b[..|b| - 1];
      OutputSumAppend(a, b[..|b| - 1]);
    }
  }

  /** `tx.inputAmount >= tx.outputAmount + tx.getFee()`. */
  predicate Covered(tx: Tx, env: Env) {
    InputSum(tx.inputs) >= OutputSum(AllOutputs(tx)) + env.fee(tx)
  }

  /** The break condition of the funding loop. */
  predicate Done(tx: Tx, env: Env) {
    |tx.inputs| > 0 && |AllOutputs(tx)| > 0 && Covered(tx, env)
  }

  /**
   * `tx.change(address)` with the fee recomputed: whatever the inputs leave
   * over the explicit outputs and the estimated fee goes back to `addr`
   * when it is above the dust threshold.
   */
  function Rechange(tx: Tx, addr: Address, env: Env): (r: Tx)
    ensures r.inputs == tx.inputs && r.outputs == tx.outputs
  {
    var bare := tx.(change := None);
    var avail := InputSum(tx.inputs) - OutputSum(tx.outputs) - env.fee(bare);
    tx.(change := if avail > env.dust then Some(Output(PayToAddress(addr), avail)) else None)
  }

  /**
   * The change output pays the wallet and balances the transaction exactly
   * against the fee estimated without it; without one, what is left over is
   * at most the dust threshold.
   */
  lemma RechangeBalances(tx: Tx, addr: Address, env: Env)
    ensures var r := Rechange(tx, addr, env);
            var fee := env.fee(tx.(change := None));
            (r.change.Some? ==> r.change.value.dest == PayToAddress(addr) &&
                                InputSum(r.inputs) == OutputSum(AllOutputs(r)) + fee) &&
            (r.change.None? ==> InputSum(r.inputs) <= OutputSum(r.outputs) + fee + env.dust)
  {
    var r := Rechange(tx, addr, env);
    if r.change.Some? {
      OutputSumAppend(r.outputs, [r.change.value]);
      assert OutputSum([r.change.value]) == r.change.value.satoshis by {
        assert [r.change.value][..0] == [];
      }
    }
  }

  /** The input `tx.from(utxo)` adds; the wallet's signature on it is not modelled. */
  function WalletInput(u: Utxo): Input {
    Input(Outpoint(u.txid, u.vout), u.satoshis, [])
  }

  function WalletInputs(us: seq<Utxo>): (r: seq<Input>)
    ensures |r| == |us|
  {
    seq(|us|, i requires 0 <= i < |us| => WalletInput(us[i]))
  }

  /** One iteration of the funding loop: `tx.from(utxo)`, then `tx.change(address)`. */
  function Attach(tx: Tx, u: Utxo, addr: Address, env: Env): Tx {
    Rechange(tx.(inputs := tx.inputs + [WalletInput(u)]), addr, env)
  }

  /** Attach every UTXO of `us`, in order. */
  function AttachAll(tx: Tx, us: seq<Utxo>, addr: Address, env: Env): Tx
    decreases |us|
  {
    if us == [] then tx else Attach(AttachAll(tx, us[..|us| - 1], addr, env), us[|us| - 1], addr, env)
  }

  /**
   * Attaching keeps the inputs already there and the explicit outputs, and
   * adds one input per UTXO in wallet order.
   */
  lemma {:induction false} AttachAllShape(tx: Tx, us: seq<Utxo>, addr: Address, env: Env)
    ensures AttachAll(tx, us, addr, env).inputs == tx.inputs + WalletInputs(us)
    ensures AttachAll(tx, us, addr, env).outputs == tx.outputs
    decreases |us|
  {
    if us != [] {
      var front := us[..|us| - 1];
      AttachAllShape(tx, front, addr, env);
      assert WalletInputs(us) == WalletInputs(front) + [WalletInput(us[|us| - 1])];
    }
  }

  /** Recomputing the change of a transaction whose change was just computed changes nothing. */
  lemma RechangeIdempotent(tx: Tx, addr: Address, env: Env)
    ensures Rechange(Rechange(tx, addr, env), addr, env) == Rechange(tx, addr, env)
  {
    var r := Rechange(tx, addr, env);
    assert r.(change := None) == tx.(change := None);
  }

  /** After at least one UTXO is attached, the change is settled: another `tx.change(address)` is a no-op. */
  lemma AttachAllSettled(tx: Tx, us: seq<Utxo>, addr: Address, env: Env)
    requires us != []
    ensures AttachAll(tx, us, addr, env) == Rechange(AttachAll(tx, us, addr, env), addr, env)
  {
    var prev := AttachAll(tx, us[..|us| - 1], addr, env);
    RechangeIdempotent(prev.(inputs := prev.inputs + [WalletInput(us[|us| - 1])]), addr, env);
  }

  /** How many UTXOs the loop attaches: the first count, from `j` on, after which it breaks. */
  function StopAt(tx: Tx, us: seq<Utxo>, addr: Address, env: Env, j: nat): (k: nat)
    requires j <= |us|
    ensures j <= k <= |us|
    decreases |us| - j
  {
    if j == |us| || Done(AttachAll(tx, us[..j], addr, env), env) then j
    else StopAt(tx, us, addr, env, j + 1)
  }

  /** The loop stops at the first point, from `j` on, where the break condition holds. */
  lemma {:induction false} StopAtIsFirst(tx: Tx, us: seq<Utxo>, addr: Address, env: Env, j: nat)
    requires j <= |us|
    ensures StopAt(tx, us, addr, env, j) < |us| ==>
              Done(AttachAll(tx, us[..StopAt(tx, us, addr, env, j)], addr, env), env)
    ensures forall i :: j <= i < StopAt(tx, us, addr, env, j) ==> !Done(AttachAll(tx, us[..i], addr, env), env)
    decreases |us| - j
  {
    var k := StopAt(tx, us, addr, env, j);
    if !(j == |us| || Done(AttachAll(tx, us[..j], addr, env), env)) {
      assert k == StopAt(tx, us, addr, env, j + 1);
      StopAtIsFirst(tx, us, addr, env, j + 1);
      forall i | j <= i < k
        ensures !Done(AttachAll(tx, us[..i], addr, env), env)
      {
      }
    }
  }

  /** The transaction once the funding loop has run. */
  function Funded(tx: Tx, us: seq<Utxo>, addr: Address, env: Env): Tx {
    var start := Rechange(tx, addr, env);
    AttachAll(start, us[..StopAt(start, us, addr, env, 0)], addr, env)
  }

  /** `fund`: the funded transaction, or 'not enough funds'. */
  function FundResult(tx: Tx, us: seq<Utxo>, addr: Address, env: Env): Result<Tx, FundError> {
    var t := Funded(tx, us, addr, env);
    if Covered(t, env) then Ok(t) else Err(NotEnoughFunds)
  }

  /**
   * What `fund` promises: on success the inputs cover outputs and fee, the
   * transaction's own inputs and explicit outputs are untouched, and the
   * added inputs are the wallet's first UTXOs in order, no more than the
   * first point where funds suffice; 'not enough funds' only when even every
   * UTXO of the wallet does not cover them.
   */
  lemma FundSpec(tx: Tx, us: seq<Utxo>, addr: Address, env: Env)
    ensures var start := Rechange(tx, addr, env);
            var k := StopAt(start, us, addr, env, 0);
            k <= |us| &&
            (forall i :: 0 <= i < k ==> !Done(AttachAll(start, us[..i], addr, env), env)) &&
            match FundResult(tx, us, addr, env)
            case Ok(t) =>
              Covered(t, env) && t.inputs == tx.inputs + WalletInputs(us[..k]) && t.outputs == tx.outputs
            case Err(_) =>
              k == |us| && !Covered(AttachAll(start, us, addr, env), env)
  {
    var start := Rechange(tx, addr, env);
    var k := StopAt(start, us, addr, env, 0);
    StopAtIsFirst(start, us, addr, env, 0);
    AttachAllShape(start, us[..k], addr, env);
    assert us[..|us|] == us;
  }

  /** `wallet.utxos` entry `u` is the output `inputs` spend. */
  predicate SpentBy(u: Utxo, inputs: seq<Input>) {
    exists i :: 0 <= i < |inputs| && inputs[i].prev == Outpoint(u.txid, u.vout)
  }

  /** The UTXOs no input of the transaction spends, in wallet order. */
  function Unspent(us: seq<Utxo>, inputs: seq<Input>): seq<Utxo> {
    if us == [] then []
    else Unspent(us[..|us| - 1], inputs) + (if SpentBy(us[|us| - 1], inputs) then [] else [us[|us| - 1]])
  }

  /** The outputs among the first `n` that pay `addr`, as wallet entries of the transaction `hash`. */
  function Owned(outs: seq<Output>, addr: Address, hash: TxId, n: nat): seq<Utxo>
    requires n <= |outs|
  {
    if n == 0 then []
    else Owned(outs, addr, hash, n - 1) +
         (if outs[n - 1].dest == PayToAddress(addr) then [Utxo(hash, n - 1, outs[n - 1].satoshis)] else [])
  }

  /** The wallet's UTXOs after `updateWallet(wallet, tx)`. */
  function AfterUpdate(us: seq<Utxo>, addr: Address, tx: Tx, env: Env): seq<Utxo> {
    Unspent(us, tx.inputs) + Owned(AllOutputs(tx), addr, env.txHash(tx), |AllOutputs(tx)|)
  }

  /** Filtering keeps exactly the unspent entries, and keeps their relative order. */
  lemma {:induction false} UnspentSpec(us: seq<Utxo>, inputs: seq<Input>)
    ensures forall u :: u in Unspent(us, inputs) <==> u in us && !SpentBy(u, inputs)
    ensures |Unspent(us, inputs)| <= |us|
    decreases |us|
  {
    if us != [] {
      UnspentSpec(us[..|us| - 1], inputs);
      assert us == us[..|us| - 1] + [us[|us| - 1]];
    }
  }

  lemma {:induction false} UnspentAppend(a: seq<Utxo>, b: seq<Utxo>, inputs: seq<Input>)
    ensures Unspent(a + b, inputs) == Unspent(a, inputs) + Unspent(b, inputs)
    decreases |b|
  {
    if b == [] {
      assert a + b == a;
    } else {
      assert (a + b)[..|a + b| - 1] == a + b[..|b| - 1];
      UnspentAppend(a, b[..|b| - 1], inputs);
    }
  }

  /**
   * Exactly the outputs paying `addr` come back, as entries with the
   * transaction's hash, their own index and their own value, in output order.
   */
  lemma {:induction false} OwnedSpec(outs: seq<Output>, addr: Address, hash: TxId, n: nat)
    requires n <= |outs|
    ensures forall u :: u in Owned(outs, addr, hash, n) <==>
              u.txid == hash && u.vout < n && outs[u.vout].dest == PayToAddress(addr) &&
              u.satoshis == outs[u.vout].satoshis
    ensures forall i, j :: 0 <= i < j < |Owned(outs, addr, hash, n)| ==>
              Owned(outs, addr, hash, n)[i].vout < Owned(outs, addr, hash, n)[j].vout
    decreases n
  {
    if n > 0 {
      OwnedSpec(outs, addr, hash, n - 1);
    }
  }

  /**
   * After `updateWallet` no entry is an output the transaction spends (a
   * transaction never spends its own outputs), every unspent entry is still
   * there, and the new entries are the transaction's outputs to the wallet.
   */
  lemma AfterUpdateSpec(us: seq<Utxo>, addr: Address, tx: Tx, env: Env)
    requires forall i :: 0 <= i < |tx.inputs| ==> tx.inputs[i].prev.txid != env.txHash(tx)
    ensures forall u :: u in AfterUpdate(us, addr, tx, env) ==> !SpentBy(u, tx.inputs)
    ensures forall u :: u in us && !SpentBy(u, tx.inputs) ==> u in AfterUpdate(us, addr, tx, env)
    ensures forall v :: 0 <= v < |AllOutputs(tx)| && AllOutputs(tx)[v].dest == PayToAddress(addr) ==>
              Utxo(env.txHash(tx), v, AllOutputs(tx)[v].satoshis) in AfterUpdate(us, addr, tx, env)
  {
    var outs := AllOutputs(tx);
    UnspentSpec(us, tx.inputs);
    OwnedSpec(outs, addr, env.txHash(tx), |outs|);
    forall u | u in AfterUpdate(us, addr, tx, env)
      ensures !SpentBy(u, tx.inputs)
    {
      if u in Owned(outs, addr, env.txHash(tx), |outs|) {
        assert u.txid == env.txHash(tx);
      }
    }
  }

  /** The wallet file: its address and its list of UTXOs. */
  class Wallet {
    const address: Address
    var utxos: seq<Utxo>

    constructor (address: Address, utxos: seq<Utxo>)
      ensures this.address == address && this.utxos == utxos
    {
      this.address := address;
      this.utxos := utxos;
    }

    /** `fund(wallet, tx)`; it reads the wallet and leaves it as it is. */
    method Fund(tx: Tx, env: Env) returns (r: Result<Tx, FundError>)
      ensures r == FundResult(tx, utxos, address, env)
    {
      var t := Rechange(tx, address, env);
      ghost var start := t;
      var i := 0;
      while i < |utxos|
        invariant i <= |utxos| && t == AttachAll(start, utxos[..i], address, env)
        invariant StopAt(start, utxos, address, env, i) == StopAt(start, utxos, address, env, 0)
      {
        if Done(t, env) {
          break;
        }
        assert utxos[..i + 1][..i] == utxos[..i];
        t := Attach(t, utxos[i], address, env);
        i := i + 1;
      }
      if Covered(t, env) {
        r := Ok(t);
      } else {
        r := Err(NotEnoughFunds);
      }
    }

    /** `updateWallet(wallet, tx)`: drop the spent entries, then append the owned outputs. */
    method UpdateWallet(tx: Tx, env: Env)
      modifies this
      ensures utxos == AfterUpdate(old(utxos), address, tx, env)
    {
      var kept := [];
      var i := 0;
      while i < |utxos|
        invariant i <= |utxos| && kept == Unspent(utxos[..i], tx.inputs)
      {
        var spent := false;
        var j := 0;
        while j < |tx.inputs|
          invariant j <= |tx.inputs|
          invariant spent <==> exists k :: 0 <= k < j && tx.inputs[k].prev == Outpoint(utxos[i].txid, utxos[i].vout)
        {
          if tx.inputs[j].prev.txid == utxos[i].txid && tx.inputs[j].prev.vout == utxos[i].vout {
            spent := true;
          }
          j := j + 1;
        }
        assert utxos[..i + 1][..i] == utxos[..i];
        if !spent {
          kept := kept + [utxos[i]];
        }
        i := i + 1;
      }
      assert utxos[..i] == utxos;
      var outs := AllOutputs(tx);
      var hash := env.txHash(tx);
      var vout := 0;
      while vout < |outs|
        invariant vout <= |outs|
        invariant kept == Unspent(old(utxos), tx.inputs) + Owned(outs, address, hash, vout)
      {
        if outs[vout].dest == PayToAddress(address) {
          kept := kept + [Utxo(hash, vout, outs[vout].satoshis)];
        }
        vout := vout + 1;
      }
      utxos := kept;
    }
  }
}
