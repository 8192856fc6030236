/**
 * The transaction chain of doginals.js `inscribe`: one commit transaction
 * per leg, each paying 100000 satoshis to the P2SH hash of a lock script
 * that checks the signature and drops the leg's pushes; every transaction
 * after the first spends the previous commit output with an unlocking
 * script that carries the previous leg, the signature and the previous lock
 * script; a last transaction pays the inscription to its destination.
 */
module Forge {
  import opened Wrappers
  import opened Script
  import opened Envelope
  import opened Planner
  import opened Funding

  const COMMIT_SATOSHIS: nat := 100000
  const SIGHASH_ALL: byte := 1
  const MAX_SCRIPT_ELEMENT_SIZE: nat := 520

  function Drops(n: nat): (r: seq<Chunk>)
    ensures |r| == n
  {
    seq(n, _ => OpcodeToChunk(OP_DROP))
  }

  /** The redeem script of a leg: `<pubkey> OP_CHECKSIGVERIFY OP_DROP... OP_TRUE`, one drop per chunk of the leg. */
  function LockScript(pubkey: seq<byte>, leg: seq<Chunk>): seq<Chunk> {
    [BufferToChunk(pubkey), OpcodeToChunk(OP_CHECKSIGVERIFY)] + Drops(|leg|) + [OpcodeToChunk(OP_TRUE)]
  }

  /** The 100000-satoshi P2SH output committing to `lock`. */
  function CommitOutput(lock: seq<Chunk>, env: Env): Output {
    Output(PayToScriptHash(env.hash160(ToBuffer(lock))), COMMIT_SATOSHIS)
  }

  /** The scriptSig revealing `leg`: its pushes, the signature with SIGHASH_ALL, and the redeem script. */
  function UnlockScript(leg: seq<Chunk>, sig: seq<byte>, lock: seq<Chunk>): seq<Chunk> {
    leg + [BufferToChunk(sig + [SIGHASH_ALL]), BufferToChunk(ToBuffer(lock))]
  }

  /** The transaction as it is signed: input 0 still has an empty script. */
  function Unsigned(tx: Tx): Tx {
    if tx.inputs == [] then tx else tx.(inputs := tx.inputs[0 := tx.inputs[0].(script := [])])
  }

  /** What the loop carries from one leg to the next: `p2shInput`, `lastLock` and `lastPartial`. */
  datatype Link = Link(input: Input, lock: seq<Chunk>, leg: seq<Chunk>)

  /** Leg i's transaction commits to leg i's lock script and to nothing else. */
  ghost predicate Commits(txs: seq<Tx>, legs: seq<seq<Chunk>>, i: nat, pubkey: seq<byte>, env: Env)
    requires i < |txs| && i < |legs|
  {
    txs[i].outputs == [CommitOutput(LockScript(pubkey, legs[i]), env)]
  }

  /**
   * Transaction i spends output 0 of transaction i-1 with the unlocking
   * script of leg i-1, signed over transaction i as it was before the
   * script was set.
   */
  ghost predicate Reveals(txs: seq<Tx>, legs: seq<seq<Chunk>>, i: nat, pubkey: seq<byte>, env: Env)
    requires 0 < i < |txs| && i - 1 < |legs|
  {
    var lock := LockScript(pubkey, legs[i - 1]);
    |txs[i].inputs| > 0 &&
    txs[i].inputs[0] == Input(Outpoint(env.txHash(txs[i - 1]), 0), COMMIT_SATOSHIS,
                              UnlockScript(legs[i - 1], env.sign(Unsigned(txs[i]), lock), lock))
  }

  /** The chain `inscribe` returns for `legs`. */
  ghost predicate ChainShape(txs: seq<Tx>, legs: seq<seq<Chunk>>, pubkey: seq<byte>, dest: Address, env: Env) {
    |txs| == |legs| + 1 &&
    (forall i :: 0 <= i < |legs| ==> Commits(txs, legs, i, pubkey, env)) &&
    (forall i :: 0 < i < |txs| ==> Reveals(txs, legs, i, pubkey, env)) &&
    txs[|legs|].outputs == [Output(PayToAddress(dest), COMMIT_SATOSHIS)] &&
    (forall i :: 0 <= i < |txs| ==> Covered(Unsigned(txs[i]), env))
  }

  /** The wallet after `updateWallet` for each transaction of `txs` in turn. */
  function Replay(us: seq<Utxo>, addr: Address, txs: seq<Tx>, env: Env): seq<Utxo> {
    if txs == [] then us else AfterUpdate(Replay(us, addr, txs[..|txs| - 1], env), addr, txs[|txs| - 1], env)
  }

  /** A chunk that pushes one item onto the stack. */
  predicate IsPush(c: Chunk) {
    c.opcodenum <= OP_PUSHDATA4 || OP_TRUE <= c.opcodenum <= OP_16
  }

  /**
   * The stack depth after running `script` from `depth` items; None when an
   * opcode would pop more than there is, or is not one of the opcodes these
   * scripts use.
   */
  function StackDepth(script: seq<Chunk>, depth: nat): Option<nat>
    decreases |script|
  {
    if script == [] then Some(depth)
    else if IsPush(script[0]) then StackDepth(script[1..], depth + 1)
    else if script[0].opcodenum == OP_CHECKSIGVERIFY && depth >= 2 then StackDepth(script[1..], depth - 2)
    else if script[0].opcodenum == OP_DROP && depth >= 1 then StackDepth(script[1..], depth - 1)
    else None
  }

  lemma {:induction false} PushesDepth(pushes: seq<Chunk>, rest: seq<Chunk>, depth: nat)
    requires forall i :: 0 <= i < |pushes| ==> IsPush(pushes[i])
    ensures StackDepth(pushes + rest, depth) == StackDepth(rest, depth + |pushes|)
    decreases |pushes|
  {
    if pushes == [] {
      assert pushes + rest == rest;
    } else {
      assert (pushes + rest)[0] == pushes[0];
      assert (pushes + rest)[1..] == pushes[1..] + rest;
      PushesDepth(pushes[1..], rest, depth + 1);
    }
  }

  lemma {:induction false} DropsDepth(n: nat, rest: seq<Chunk>, depth: nat)
    ensures StackDepth(Drops(n) + rest, depth) == if depth >= n then StackDepth(rest, depth - n) else None
    decreases n
  {
    if n == 0 {
      assert Drops(n) + rest == rest;
    } else {
      assert (Drops(n) + rest)[0] == OpcodeToChunk(OP_DROP);
      assert (Drops(n) + rest)[1..] == Drops(n - 1) + rest;
      if depth >= 1 {
        DropsDepth(n - 1, rest, depth - 1);
      }
    }
  }

  /**
   * A leg's lock script runs to completion exactly when the stack holds at
   * least the leg's items and the signature, and then leaves one item more
   * than the surplus: with exactly those, it leaves only OP_TRUE.
   */
  lemma LockScriptDepth(pubkey: seq<byte>, leg: seq<Chunk>, depth: nat)
    ensures StackDepth(LockScript(pubkey, leg), depth) ==
            if depth >= |leg| + 1 then Some(depth - |leg|) else None
  {
    var lock := LockScript(pubkey, leg);
    var tail := Drops(|leg|) + [OpcodeToChunk(OP_TRUE)];
    assert lock == [BufferToChunk(pubkey)] + ([OpcodeToChunk(OP_CHECKSIGVERIFY)] + tail);
    PushesDepth([BufferToChunk(pubkey)], [OpcodeToChunk(OP_CHECKSIGVERIFY)] + tail, depth);
    assert ([OpcodeToChunk(OP_CHECKSIGVERIFY)] + tail)[1..] == tail;
    if depth >= 1 {
      DropsDepth(|leg|, [OpcodeToChunk(OP_TRUE)], depth - 1);
      if depth - 1 >= |leg| {
        assert [OpcodeToChunk(OP_TRUE)][1..] == [];
      }
    }
  }

  /** An unlocking script over a push-only leg pushes the leg's items, the signature and the redeem script. */
  lemma UnlockScriptDepth(leg: seq<Chunk>, sig: seq<byte>, lock: seq<Chunk>)
    requires forall i :: 0 <= i < |leg| ==> IsPush(leg[i])
    ensures StackDepth(UnlockScript(leg, sig, lock), 0) == Some(|leg| + 2)
  {
    var u := UnlockScript(leg, sig, lock);
    assert forall i :: 0 <= i < |u| ==> IsPush(u[i]);
    PushesDepth(u, [], 0);
    assert u + [] == u;
  }

  /** Every chunk of the envelope is a push. */
  lemma InscriptionIsPushOnly(contentType: seq<byte>, parts: seq<seq<byte>>)
    ensures forall i :: 0 <= i < |Inscription(contentType, parts)| ==> IsPush(Inscription(contentType, parts)[i])
  {
  }

  /** Every chunk of a leg is a chunk of the envelope the legs were cut from. */
  lemma {:induction false} FlattenContains(legs: seq<seq<Chunk>>, i: nat, j: nat)
    requires i < |legs| && j < |legs[i]|
    ensures legs[i][j] in Flatten(legs)
    decreases i
  {
    if i > 0 {
      FlattenContains(legs[1..], i - 1, j);
    }
  }

  /**
   * Revealing leg i-1 works on the stack: after the P2SH check pops the
   * redeem script, the lock script of the leg finds exactly the leg's items
   * and the signature, and leaves only OP_TRUE.
   */
  lemma RevealLeavesTrue(contentType: seq<byte>, data: seq<byte>, pubkey: seq<byte>, sig: seq<byte>, k: nat)
    requires |contentType| <= MAX_SCRIPT_ELEMENT_SIZE
    requires k < |InscriptionLegs(contentType, data)|
    ensures var leg := InscriptionLegs(contentType, data)[k];
            var lock := LockScript(pubkey, leg);
            StackDepth(UnlockScript(leg, sig, lock), 0) == Some(|leg| + 2) &&
            StackDepth(lock, |leg| + 1) == Some(1)
  {
    var e := Inscription(contentType, Chop(data, MAX_CHUNK_LEN));
    EnvelopePlannable(contentType, data);
    var legs := Legs(e, true);
    LegsConcat(e, true);
    InscriptionIsPushOnly(contentType, Chop(data, MAX_CHUNK_LEN));
    forall j | 0 <= j < |legs[k]|
      ensures IsPush(legs[k][j])
    {
      FlattenContains(legs, k, j);
    }
    UnlockScriptDepth(legs[k], sig, LockScript(pubkey, legs[k]));
    LockScriptDepth(pubkey, legs[k], |legs[k]| + 1);
  }

  /** A content type within the script element limit leaves every pair of the envelope small enough for one leg. */
  lemma EnvelopePlannable(contentType: seq<byte>, data: seq<byte>)
    requires |contentType| <= MAX_SCRIPT_ELEMENT_SIZE
    ensures Plannable(Inscription(contentType, Chop(data, MAX_CHUNK_LEN)), true)
  {
    var e := Inscription(contentType, Chop(data, MAX_CHUNK_LEN));
    var r := e[1..];
    forall i | 0 <= i < |r| / 2
      ensures SerSize(r[2 * i]) + SerSize(r[2 * i + 1]) <= MAX_PAYLOAD_LEN
    {
      PairFits(contentType, data, i);
    }
  }

  /** Pair i after the marker: the count and the content type, or an index and a part. */
  lemma PairFits(contentType: seq<byte>, data: seq<byte>, i: nat)
    requires |contentType| <= MAX_SCRIPT_ELEMENT_SIZE
    requires i < |Chop(data, MAX_CHUNK_LEN)| + 1
    ensures var e := Inscription(contentType, Chop(data, MAX_CHUNK_LEN));
            SerSize(e[1 + 2 * i]) + SerSize(e[2 + 2 * i]) <= MAX_PAYLOAD_LEN
  {
    var parts := Chop(data, MAX_CHUNK_LEN);
    if i == 0 {
      HeaderPairFits(contentType, parts);
    } else {
      var k := i - 1;
      ChopPart(data, MAX_CHUNK_LEN, k);
      BodyPairFits(parts, k);
      InscriptionAt(contentType, parts, 2 * k);
      InscriptionAt(contentType, parts, 2 * k + 1);
    }
  }

  /** The count and the content type fit a pair. */
  lemma HeaderPairFits(contentType: seq<byte>, parts: seq<seq<byte>>)
    requires |contentType| <= MAX_SCRIPT_ELEMENT_SIZE
    ensures var e := Inscription(contentType, parts);
            SerSize(e[1]) + SerSize(e[2]) <= MAX_PAYLOAD_LEN
  {
    var e := Inscription(contentType, parts);
    assert e[1] == NumberToChunk(|parts|) && e[2] == BufferToChunk(contentType);
  }

  /** An index and a part of at most MAX_CHUNK_LEN bytes fit a pair. */
  lemma BodyPairFits(parts: seq<seq<byte>>, k: nat)
    requires k < |parts| && |parts[k]| <= MAX_CHUNK_LEN
    ensures SerSize(BodyChunk(parts, 2 * k)) + SerSize(BodyChunk(parts, 2 * k + 1)) <= MAX_PAYLOAD_LEN
  {
    BodyPair(parts, k);
  }

  /** The legs `inscribe` cuts from the envelope of `contentType` and `data`. */
  function InscriptionLegs(contentType: seq<byte>, data: seq<byte>): (legs: seq<seq<Chunk>>)
    requires |contentType| <= MAX_SCRIPT_ELEMENT_SIZE
    ensures legs != []
  {
    EnvelopePlannable(contentType, data);
    LegsStep(Inscription(contentType, Chop(data, MAX_CHUNK_LEN)), true);
    Legs(Inscription(contentType, Chop(data, MAX_CHUNK_LEN)), true)
  }

  lemma UnsignedUnchanged(tx: Tx)
    requires tx.inputs != [] ==> tx.inputs[0].script == []
    ensures Unsigned(tx) == tx
  {
    if tx.inputs != [] {
      assert tx.inputs[0 := tx.inputs[0].(script := [])] == tx.inputs;
    }
  }

  lemma UnsignedAfterUnlock(tx: Tx, unlock: seq<Chunk>)
    requires tx.inputs != []
    ensures Unsigned(tx.(inputs := tx.inputs[0 := tx.inputs[0].(script := unlock)])) ==
            Unsigned(tx)
  {
    var t := tx.(inputs := tx.inputs[0 := tx.inputs[0].(script := unlock)]);
    assert t.inputs[0 := t.inputs[0].(script := [])] == tx.inputs[0 := tx.inputs[0].(script := [])];
  }

  /**
   * Funding keeps the transaction's own inputs in front and adds only
   * wallet inputs, whose signatures are not modelled: a transaction whose
   * input 0 has an empty script still has one after funding.
   */
  lemma FundedFirstInput(base: Tx, us: seq<Utxo>, addr: Address, env: Env)
    requires base.inputs != [] ==> base.inputs[0].script == []
    ensures FundResult(base, us, addr, env).Ok? ==>
              var t := FundResult(base, us, addr, env).value;
              t.outputs == base.outputs && Covered(t, env) &&
              (base.inputs != [] ==> t.inputs != [] && t.inputs[0] == base.inputs[0]) &&
              (t.inputs != [] ==> t.inputs[0].script == [])
  {
    FundSpec(base, us, addr, env);
    var start := Rechange(base, addr, env);
    var k := StopAt(start, us, addr, env, 0);
    var added := WalletInputs(us[..k]);
    if base.inputs == [] && added != [] {
      assert (base.inputs + added)[0] == added[0];
    }
  }

  /**
   * A funded transaction once signed: when it spends a previous commit
   * output, input 0 gets the unlocking script of `link`, with a signature
   * over the transaction as funded.
   */
  function Signed(t: Tx, link: Option<Link>, env: Env): Tx {
    if link.None? || t.inputs == [] then t
    else
      var l := link.value;
      t.(inputs := t.inputs[0 := t.inputs[0].(script := UnlockScript(l.leg, env.sign(t, l.lock), l.lock))])
  }

  /** One round as a value: fund `base` from the wallet's outputs `us`, then sign it. */
  function Step(us: seq<Utxo>, addr: Address, base: Tx, link: Option<Link>, env: Env): Result<Tx, FundError> {
    match FundResult(base, us, addr, env)
    case Err(e) => Err(e)
    case Ok(t) => Ok(Signed(t, link, env))
  }

  /**
   * A round fails exactly when funding fails. Otherwise the signed
   * transaction is the funded one once input 0's script is cleared: it
   * keeps the base's outputs, is covered, and unlocks the previous commit
   * output with a signature over that transaction.
   */
  lemma StepSpec(us: seq<Utxo>, addr: Address, base: Tx, link: Option<Link>, env: Env)
    requires link.Some? ==> base.inputs == [link.value.input] && link.value.input.script == []
    requires link.None? ==> base.inputs == []
    ensures Step(us, addr, base, link, env).Err? <==> FundResult(base, us, addr, env).Err?
    ensures Step(us, addr, base, link, env).Err? ==>
              Step(us, addr, base, link, env).error == FundResult(base, us, addr, env).error
    ensures Step(us, addr, base, link, env).Ok? ==>
              var t := Step(us, addr, base, link, env).value;
              Unsigned(t) == FundResult(base, us, addr, env).value &&
              t.outputs == base.outputs && Covered(Unsigned(t), env) &&
              (link.Some? ==>
                 |t.inputs| > 0 &&
                 t.inputs[0] == link.value.input.(script := UnlockScript(link.value.leg, env.sign(Unsigned(t), link.value.lock), link.value.lock)))
  {
    FundedFirstInput(base, us, addr, env);
    var f := FundResult(base, us, addr, env);
    if f.Ok? {
      UnsignedUnchanged(f.value);
      if link.Some? {
        UnsignedAfterUnlock(f.value, UnlockScript(link.value.leg, env.sign(f.value, link.value.lock), link.value.lock));
      }
    }
  }

  /**
   * The body of one round of `inscribe`: fund the transaction from the
   * wallet, sign input 0 and set its unlocking script when it spends a
   * previous commit output, then update the wallet.
   */
  method Complete(wallet: Wallet, base: Tx, link: Option<Link>, env: Env) returns (r: Result<Tx, FundError>)
    requires link.Some? ==> base.inputs == [link.value.input] && link.value.input.script == []
    requires link.None? ==> base.inputs == []
    modifies wallet
    ensures r == Step(old(wallet.utxos), wallet.address, base, link, env)
    ensures r.Err? <==> FundResult(base, old(wallet.utxos), wallet.address, env).Err?
    ensures r.Err? ==> r.error == FundResult(base, old(wallet.utxos), wallet.address, env).error && wallet.utxos == old(wallet.utxos)
    ensures r.Ok? ==>
              var t := r.value;
              Unsigned(t) == FundResult(base, old(wallet.utxos), wallet.address, env).value &&
              t.outputs == base.outputs && Covered(Unsigned(t), env) &&
              wallet.utxos == AfterUpdate(old(wallet.utxos), wallet.address, t, env) &&
              (link.Some? ==>
                 |t.inputs| > 0 &&
                 t.inputs[0] == link.value.input.(script := UnlockScript(link.value.leg, env.sign(Unsigned(t), link.value.lock), link.value.lock)))
  {
    var funded := wallet.Fund(base, env);
    FundedFirstInput(base, wallet.utxos, wallet.address, env);
    StepSpec(wallet.utxos, wallet.address, base, link, env);
    if funded.Err? {
      return Err(funded.error);
    }
    var tx := funded.value;
    UnsignedUnchanged(tx);
    if link.Some? {
      var sig := env.sign(tx, link.value.lock);
      var unlock := UnlockScript(link.value.leg, sig, link.value.lock);
      UnsignedAfterUnlock(tx, unlock);
      tx := tx.(inputs := tx.inputs[0 := tx.inputs[0].(script := unlock)]);
    }
    wallet.UpdateWallet(tx, env);
    r := Ok(tx);
  }

  /** The first transactions of the chain, one per leg of `done`. */
  ghost predicate ChainPrefix(txs: seq<Tx>, done: seq<seq<Chunk>>, pubkey: seq<byte>, env: Env) {
    |txs| == |done| &&
    (forall i :: 0 <= i < |txs| ==> Commits(txs, done, i, pubkey, env)) &&
    (forall i :: 0 < i < |txs| ==> Reveals(txs, done, i, pubkey, env)) &&
    (forall i :: 0 <= i < |txs| ==> Covered(Unsigned(txs[i]), env))
  }

  /** A leg's transaction that spends the previous one's commit output extends the chain. */
  lemma ChainPrefixExtend(txs: seq<Tx>, done: seq<seq<Chunk>>, tx: Tx, leg: seq<Chunk>, pubkey: seq<byte>, env: Env)
    requires ChainPrefix(txs, done, pubkey, env)
    requires tx.outputs == [CommitOutput(LockScript(pubkey, leg), env)] && Covered(Unsigned(tx), env)
    requires txs != [] ==> Reveals(txs + [tx], done + [leg], |txs|, pubkey, env)
    ensures ChainPrefix(txs + [tx], done + [leg], pubkey, env)
  {
    var txs1, done1 := txs + [tx], done + [leg];
    forall i | 0 <= i < |txs1|
      ensures Commits(txs1, done1, i, pubkey, env) && Covered(Unsigned(txs1[i]), env)
    {
      if i < |txs| {
        assert Commits(txs, done, i, pubkey, env);
      }
    }
    forall i | 0 < i < |txs1|
      ensures Reveals(txs1, done1, i, pubkey, env)
    {
      if i < |txs| {
        assert Reveals(txs, done, i, pubkey, env);
      }
    }
  }

  /** The transaction paying the destination closes the chain. */
  lemma ChainClose(txs: seq<Tx>, legs: seq<seq<Chunk>>, tx: Tx, pubkey: seq<byte>, dest: Address, env: Env)
    requires ChainPrefix(txs, legs, pubkey, env) && txs != []
    requires tx.outputs == [Output(PayToAddress(dest), COMMIT_SATOSHIS)] && Covered(Unsigned(tx), env)
    requires Reveals(txs + [tx], legs, |txs|, pubkey, env)
    ensures ChainShape(txs + [tx], legs, pubkey, dest, env)
  {
    var txs1 := txs + [tx];
    forall i | 0 <= i < |legs|
      ensures Commits(txs1, legs, i, pubkey, env)
    {
      assert Commits(txs, legs, i, pubkey, env);
    }
    forall i | 0 < i < |txs1|
      ensures Reveals(txs1, legs, i, pubkey, env)
    {
      if i < |txs| {
        assert Reveals(txs, legs, i, pubkey, env);
      }
    }
  }

  /** One round of the outer loop of `inscribe`: cut the next leg and complete its commit transaction. */
  method Round(wallet: Wallet, inscription: seq<Chunk>, link: Option<Link>, pubkey: seq<byte>, env: Env)
    returns (res: Result<Tx, FundError>, partial: seq<Chunk>, left: seq<Chunk>)
    requires inscription != [] && Plannable(inscription, link.None?)
    requires link.Some? ==> link.value.input.script == []
    modifies wallet
    ensures (partial, left) == NextLeg(inscription, link.None?)
    ensures res == Step(old(wallet.utxos), wallet.address, CommitBase(LockScript(pubkey, partial), link, env), link, env)
    ensures res.Err? <==> FundResult(CommitBase(LockScript(pubkey, partial), link, env), old(wallet.utxos), wallet.address, env).Err?
    ensures res.Err? ==> wallet.utxos == old(wallet.utxos)
    ensures res.Ok? ==>
              var t := res.value;
              t.outputs == [CommitOutput(LockScript(pubkey, partial), env)] && Covered(Unsigned(t), env) &&
              wallet.utxos == AfterUpdate(old(wallet.utxos), wallet.address, t, env) &&
              (link.Some? ==>
                 |t.inputs| > 0 &&
                 t.inputs[0] == link.value.input.(script := UnlockScript(link.value.leg, env.sign(Unsigned(t), link.value.lock), link.value.lock)))
  {
    partial, left := TakeLeg(inscription, link.None?);
    var lock := LockScript(pubkey, partial);
    var base := Tx(if link.Some? then [link.value.input] else [], [CommitOutput(lock, env)], None);
    assert base == CommitBase(lock, link, env);
    res := Complete(wallet, base, link, env);
  }

  /** The commit output of `tx` as the next transaction spends it: the `p2shInput`, `lastLock` and `lastPartial` of `inscribe`. */
  function LinkAfter(tx: Tx, leg: seq<Chunk>, pubkey: seq<byte>, env: Env): (l: Link)
    ensures l.input.script == [] && l.leg == leg && l.lock == LockScript(pubkey, leg)
  {
    NextLink(tx, LockScript(pubkey, leg), leg, env)
  }

  /** Spending output 0 of `tx`, locked by `lock`, with `shown` pushed in front of the signature. */
  function NextLink(tx: Tx, lock: seq<Chunk>, shown: seq<Chunk>, env: Env): Link {
    Link(Input(Outpoint(env.txHash(tx), 0), COMMIT_SATOSHIS, []), lock, shown)
  }

  /** The unfunded commit transaction of a round: the previous commit output, if any, in; the new one out. */
  function CommitBase(lock: seq<Chunk>, link: Option<Link>, env: Env): Tx {
    Tx(if link.Some? then [link.value.input] else [], [CommitOutput(lock, env)], None)
  }

  /** The unfunded last transaction: the last commit output in, 100000 satoshis to `dest` out. */
  function CloseBase(link: Link, dest: Address): Tx {
    Tx([link.input], [Output(PayToAddress(dest), COMMIT_SATOSHIS)], None)
  }

  /** The transactions built so far, and the funding failure that stopped the building, if any. */
  datatype Built = Built(txs: seq<Tx>, failure: Option<FundError>)

  function Prefixed(txs: seq<Tx>, b: Built): Built {
    Built(txs + b.txs, b.failure)
  }

  /** What a chain method returns for what was built: the transactions, or the first funding failure. */
  function Outcome(b: Built): Result<seq<Tx>, FundError> {
    if b.failure.Some? then Err(b.failure.value) else Ok(b.txs)
  }

  /**
   * The commit rounds of a chain as a value: round i commits to `locks[i]`
   * and spends the previous commit output, revealing `shown[i - 1]`; the
   * wallet is updated after each round, and the first round the wallet
   * cannot fund ends the rounds.
   */
  function CommitRounds(us: seq<Utxo>, addr: Address, locks: seq<seq<Chunk>>, shown: seq<seq<Chunk>>, link: Option<Link>,
                        env: Env): (b: Built)
    requires |locks| == |shown|
    ensures |b.txs| <= |locks| && (b.failure.None? <==> |b.txs| == |locks|)
    decreases |locks|
  {
    if locks == [] then Built([], None)
    else
      match Step(us, addr, CommitBase(locks[0], link, env), link, env)
      case Err(e) => Built([], Some(e))
      case Ok(t) =>
        Prefixed([t], CommitRounds(AfterUpdate(us, addr, t, env), addr, locks[1..], shown[1..],
                                   Some(NextLink(t, locks[0], shown[0], env)), env))
  }

  /** The last round as a value: spend `link` and pay `dest`. */
  function CloseRound(us: seq<Utxo>, addr: Address, link: Link, dest: Address, env: Env): Built {
    match Step(us, addr, CloseBase(link, dest), Some(link), env)
    case Err(e) => Built([], Some(e))
    case Ok(t) => Built([t], None)
  }

  /**
   * A whole chain as a value: the commit rounds from no previous output,
   * then, if they were all funded, the round paying `dest` from the wallet
   * as they left it.
   */
  function Build(us: seq<Utxo>, addr: Address, locks: seq<seq<Chunk>>, shown: seq<seq<Chunk>>, dest: Address, env: Env): Built
    requires 0 < |locks| == |shown|
  {
    var c := CommitRounds(us, addr, locks, shown, None, env);
    if c.failure.Some? then c
    else
      var last := NextLink(c.txs[|c.txs| - 1], locks[|locks| - 1], shown[|shown| - 1], env);
      Prefixed(c.txs, CloseRound(Replay(us, addr, c.txs, env), addr, last, dest, env))
  }

  /**
   * A chain fails only where funding fails: either a commit round the
   * wallet left by the transactions before it cannot fund, or, after every
   * commit round went through, the last transaction.
   */
  lemma BuildFailure(us: seq<Utxo>, addr: Address, locks: seq<seq<Chunk>>, shown: seq<seq<Chunk>>, dest: Address, env: Env)
    requires 0 < |locks| == |shown|
    ensures var b := Build(us, addr, locks, shown, dest, env);
            b.failure.Some? ==>
              FailsAfter(us, addr, locks, shown, None, env, b.txs, b.failure.value) ||
              (|b.txs| == |locks| &&
               var last := NextLink(b.txs[|b.txs| - 1], locks[|locks| - 1], shown[|shown| - 1], env);
               FundResult(CloseBase(last, dest), Replay(us, addr, b.txs, env), addr, env) == Err(b.failure.value))
  {
    var c := CommitRounds(us, addr, locks, shown, None, env);
    CommitRoundsFailure(us, addr, locks, shown, None, env);
    if c.failure.None? {
      var last := NextLink(c.txs[|c.txs| - 1], locks[|locks| - 1], shown[|shown| - 1], env);
      StepSpec(Replay(us, addr, c.txs, env), addr, CloseBase(last, dest), Some(last), env);
      assert c.txs + [] == c.txs;
    }
  }

  /** The lock scripts of `inscribe`, one per leg. */
  function Locks(pubkey: seq<byte>, legs: seq<seq<Chunk>>): (locks: seq<seq<Chunk>>)
    ensures |locks| == |legs| && forall i :: 0 <= i < |legs| ==> locks[i] == LockScript(pubkey, legs[i])
  {
    seq(|legs|, i requires 0 <= i < |legs| => LockScript(pubkey, legs[i]))
  }

  /** Replaying a transaction and then the rest is replaying the rest from the wallet after the first. */
  lemma {:induction false} ReplayCons(us: seq<Utxo>, addr: Address, t: Tx, txs: seq<Tx>, env: Env)
    ensures Replay(us, addr, [t] + txs, env) == Replay(AfterUpdate(us, addr, t, env), addr, txs, env)
    decreases |txs|
  {
    if txs == [] {
      assert ([t] + txs)[..0] == [];
    } else {
      var init := txs[..|txs| - 1];
      assert ([t] + txs)[..|txs|] == [t] + init;
      ReplayCons(us, addr, t, init, env);
    }
  }

  /** The previous commit output round k of a chain spends, after the transactions `txs` of the rounds before it. */
  function LinkBefore(txs: seq<Tx>, locks: seq<seq<Chunk>>, shown: seq<seq<Chunk>>, link: Option<Link>, env: Env): Option<Link>
    requires |txs| <= |locks| == |shown|
  {
    if txs == [] then link else Some(NextLink(txs[|txs| - 1], locks[|txs| - 1], shown[|txs| - 1], env))
  }

  /** After the rounds that built `txs`, funding the next commit transaction from the wallet they left fails with `e`. */
  ghost predicate FailsAfter(us: seq<Utxo>, addr: Address, locks: seq<seq<Chunk>>, shown: seq<seq<Chunk>>, link: Option<Link>,
                             env: Env, txs: seq<Tx>, e: FundError)
    requires |locks| == |shown|
  {
    |txs| < |locks| &&
    FundResult(CommitBase(locks[|txs|], LinkBefore(txs, locks, shown, link, env), env), Replay(us, addr, txs, env), addr, env) == Err(e)
  }

  /** A failure after the later rounds is a failure after the whole rounds, once the first round's transaction is put in front. */
  lemma FailsAfterCons(us: seq<Utxo>, addr: Address, locks: seq<seq<Chunk>>, shown: seq<seq<Chunk>>, link: Option<Link>,
                       env: Env, t: Tx, txs: seq<Tx>, e: FundError)
    requires 0 < |locks| == |shown|
    requires FailsAfter(AfterUpdate(us, addr, t, env), addr, locks[1..], shown[1..], Some(NextLink(t, locks[0], shown[0], env)),
                        env, txs, e)
    ensures FailsAfter(us, addr, locks, shown, link, env, [t] + txs, e)
  {
    ReplayCons(us, addr, t, txs, env);
    var all := [t] + txs;
    assert all[|all| - 1] == if txs == [] then t else txs[|txs| - 1];
    assert LinkBefore(all, locks, shown, link, env) ==
           LinkBefore(txs, locks[1..], shown[1..], Some(NextLink(t, locks[0], shown[0], env)), env);
    assert locks[|all|] == locks[1..][|txs|];
  }

  /**
   * Commit rounds fail only where funding fails: when they stop after k
   * transactions, funding round k's commit transaction from the wallet
   * those k transactions left fails with the same error.
   */
  lemma {:induction false} CommitRoundsFailure(us: seq<Utxo>, addr: Address, locks: seq<seq<Chunk>>, shown: seq<seq<Chunk>>,
                                               link: Option<Link>, env: Env)
    requires |locks| == |shown|
    ensures var b := CommitRounds(us, addr, locks, shown, link, env);
            b.failure.Some? ==> FailsAfter(us, addr, locks, shown, link, env, b.txs, b.failure.value)
    decreases |locks|
  {
    if locks != [] {
      var step := Step(us, addr, CommitBase(locks[0], link, env), link, env);
      if step.Ok? {
        var t := step.value;
        var l1 := Some(NextLink(t, locks[0], shown[0], env));
        var rest := CommitRounds(AfterUpdate(us, addr, t, env), addr, locks[1..], shown[1..], l1, env);
        CommitRoundsStep(us, addr, locks, shown, link, env, t);
        CommitRoundsFailure(AfterUpdate(us, addr, t, env), addr, locks[1..], shown[1..], l1, env);
        if rest.failure.Some? {
          FailsAfterCons(us, addr, locks, shown, link, env, t, rest.txs, rest.failure.value);
        }
      } else {
        assert Replay(us, addr, [], env) == us;
      }
    }
  }

  /** A funded commit round puts its transaction in front of the rounds after it. */
  lemma CommitRoundsStep(us: seq<Utxo>, addr: Address, locks: seq<seq<Chunk>>, shown: seq<seq<Chunk>>, link: Option<Link>,
                         env: Env, t: Tx)
    requires 0 < |locks| == |shown| && Step(us, addr, CommitBase(locks[0], link, env), link, env) == Ok(t)
    ensures CommitRounds(us, addr, locks, shown, link, env) ==
            Prefixed([t], CommitRounds(AfterUpdate(us, addr, t, env), addr, locks[1..], shown[1..],
                                       Some(NextLink(t, locks[0], shown[0], env)), env))
  {
  }

  /** An unfunded commit round ends the rounds with its error. */
  lemma CommitRoundsStop(us: seq<Utxo>, addr: Address, locks: seq<seq<Chunk>>, shown: seq<seq<Chunk>>, link: Option<Link>,
                         env: Env, e: FundError)
    requires 0 < |locks| == |shown| && Step(us, addr, CommitBase(locks[0], link, env), link, env) == Err(e)
    ensures CommitRounds(us, addr, locks, shown, link, env) == Built([], Some(e))
  {
  }

  /** Round i of the commit rounds, after the transactions `txs` of the rounds before it, when it is funded. */
  lemma CommitRoundsAtOk(us: seq<Utxo>, addr: Address, locks: seq<seq<Chunk>>, shown: seq<seq<Chunk>>, txs: seq<Tx>, env: Env, t: Tx)
    requires |txs| < |locks| == |shown|
    requires var link := LinkBefore(txs, locks, shown, None, env);
             Step(us, addr, CommitBase(locks[|txs|], link, env), link, env) == Ok(t)
    ensures CommitRounds(us, addr, locks[|txs|..], shown[|txs|..], LinkBefore(txs, locks, shown, None, env), env) ==
            Prefixed([t], CommitRounds(AfterUpdate(us, addr, t, env), addr, locks[|txs| + 1..], shown[|txs| + 1..],
                                       LinkBefore(txs + [t], locks, shown, None, env), env))
  {
    CommitRoundsFrom(us, addr, locks, shown, |txs|, LinkBefore(txs, locks, shown, None, env), env, t);
    LinkBeforeAppend(txs, t, locks, shown, env);
  }

  /** Unfolding the commit rounds from round i on, when round i is funded. */
  lemma CommitRoundsFrom(us: seq<Utxo>, addr: Address, locks: seq<seq<Chunk>>, shown: seq<seq<Chunk>>, i: nat, link: Option<Link>,
                         env: Env, t: Tx)
    requires i < |locks| == |shown| && Step(us, addr, CommitBase(locks[i], link, env), link, env) == Ok(t)
    ensures CommitRounds(us, addr, locks[i..], shown[i..], link, env) ==
            Prefixed([t], CommitRounds(AfterUpdate(us, addr, t, env), addr, locks[i + 1..], shown[i + 1..],
                                       Some(NextLink(t, locks[i], shown[i], env)), env))
  {
    assert locks[i..][0] == locks[i] && shown[i..][0] == shown[i];
    assert locks[i..][1..] == locks[i + 1..] && shown[i..][1..] == shown[i + 1..];
  }

  /** Round i of the commit rounds, after the transactions `txs` of the rounds before it, when it is not funded. */
  lemma CommitRoundsAtErr(us: seq<Utxo>, addr: Address, locks: seq<seq<Chunk>>, shown: seq<seq<Chunk>>, txs: seq<Tx>, env: Env,
                          e: FundError)
    requires |txs| < |locks| == |shown|
    requires var link := LinkBefore(txs, locks, shown, None, env);
             Step(us, addr, CommitBase(locks[|txs|], link, env), link, env) == Err(e)
    ensures CommitRounds(us, addr, locks[|txs|..], shown[|txs|..], LinkBefore(txs, locks, shown, None, env), env) == Built([], Some(e))
  {
    var i, link := |txs|, LinkBefore(txs, locks, shown, None, env);
    var ls, ss := locks[i..], shown[i..];
    assert ls[0] == locks[i];
    CommitRoundsStop(us, addr, ls, ss, link, env, e);
  }

  lemma LinkBeforeAppend(txs: seq<Tx>, t: Tx, locks: seq<seq<Chunk>>, shown: seq<seq<Chunk>>, env: Env)
    requires |txs| < |locks| == |shown|
    ensures LinkBefore(txs + [t], locks, shown, None, env) == Some(NextLink(t, locks[|txs|], shown[|txs|], env))
  {
    assert (txs + [t])[|txs|] == t;
  }

  /** Round i of the commit rounds, as the rounds built so far see it: it ends them, or adds its transaction. */
  lemma RoundsAdvance(whole: Built, addr: Address, locks: seq<seq<Chunk>>, shown: seq<seq<Chunk>>, txs: seq<Tx>,
                      us: seq<Utxo>, env: Env, res: Result<Tx, FundError>)
    requires |txs| < |locks| == |shown|
    requires whole == Prefixed(txs, CommitRounds(us, addr, locks[|txs|..], shown[|txs|..], LinkBefore(txs, locks, shown, None, env), env))
    requires var link := LinkBefore(txs, locks, shown, None, env);
             res == Step(us, addr, CommitBase(locks[|txs|], link, env), link, env)
    ensures res.Err? ==> whole == Built(txs, Some(res.error))
    ensures res.Ok? ==>
              whole == Prefixed(txs + [res.value], CommitRounds(AfterUpdate(us, addr, res.value, env), addr, locks[|txs| + 1..],
                                                                shown[|txs| + 1..], LinkBefore(txs + [res.value], locks, shown, None, env), env))
  {
    if res.Err? {
      CommitRoundsAtErr(us, addr, locks, shown, txs, env, res.error);
      assert txs + [] == txs;
    } else {
      CommitRoundsAtOk(us, addr, locks, shown, txs, env, res.value);
      PrefixedTwice(txs, res.value, CommitRounds(AfterUpdate(us, addr, res.value, env), addr, locks[|txs| + 1..], shown[|txs| + 1..],
                                                 LinkBefore(txs + [res.value], locks, shown, None, env), env));
    }
  }

  /** A chain whose commit rounds stop is what they built. */
  lemma BuildStopped(us: seq<Utxo>, addr: Address, locks: seq<seq<Chunk>>, shown: seq<seq<Chunk>>, dest: Address, env: Env)
    requires 0 < |locks| == |shown| && CommitRounds(us, addr, locks, shown, None, env).failure.Some?
    ensures Build(us, addr, locks, shown, dest, env) == CommitRounds(us, addr, locks, shown, None, env)
  {
  }

  /** A chain whose commit rounds all went through ends with the last round, `res`. */
  lemma BuildClosed(us: seq<Utxo>, addr: Address, locks: seq<seq<Chunk>>, shown: seq<seq<Chunk>>, dest: Address, env: Env,
                    txs: seq<Tx>, res: Result<Tx, FundError>)
    requires 0 < |locks| == |shown| && CommitRounds(us, addr, locks, shown, None, env) == Built(txs, None)
    requires var last := NextLink(txs[|txs| - 1], locks[|locks| - 1], shown[|shown| - 1], env);
             res == Step(Replay(us, addr, txs, env), addr, CloseBase(last, dest), Some(last), env)
    ensures var b := Build(us, addr, locks, shown, dest, env);
            b.txs == (if res.Ok? then txs + [res.value] else txs) &&
            Outcome(b) == (if res.Ok? then Ok(txs + [res.value]) else Err(res.error))
  {
    var last := NextLink(txs[|txs| - 1], locks[|locks| - 1], shown[|shown| - 1], env);
    var close := CloseRound(Replay(us, addr, txs, env), addr, last, dest, env);
    assert Build(us, addr, locks, shown, dest, env) == Prefixed(txs, close);
    if res.Ok? {
      assert close == Built([res.value], None);
    } else {
      assert close == Built([], Some(res.error));
      assert txs + [] == txs;
    }
  }

  lemma PrefixedTwice(txs: seq<Tx>, t: Tx, b: Built)
    ensures Prefixed(txs, Prefixed([t], b)) == Prefixed(txs + [t], b)
  {
    assert txs + ([t] + b.txs) == (txs + [t]) + b.txs;
  }

  /** The state carried between rounds: nothing before the first, the last commit output after. */
  ghost predicate Linked(txs: seq<Tx>, done: seq<seq<Chunk>>, link: Option<Link>, pubkey: seq<byte>, env: Env) {
    |txs| == |done| &&
    (txs == [] ==> link.None?) &&
    (txs != [] ==> link == Some(LinkAfter(txs[|txs| - 1], done[|done| - 1], pubkey, env)))
  }

  /** Replaying one more transaction is one more wallet update. */
  lemma ReplayAppend(us: seq<Utxo>, addr: Address, txs: seq<Tx>, tx: Tx, env: Env)
    ensures Replay(us, addr, txs + [tx], env) == AfterUpdate(Replay(us, addr, txs, env), addr, tx, env)
  {
    assert (txs + [tx])[..|txs|] == txs;
  }

  /** A round moves the next leg from the envelope still to plan to the legs done. */
  lemma RoundLegs(done: seq<seq<Chunk>>, legs: seq<seq<Chunk>>, inscription: seq<Chunk>, first: bool,
                  partial: seq<Chunk>, left: seq<Chunk>)
    requires inscription != [] && Plannable(inscription, first) && done + Legs(inscription, first) == legs
    requires (partial, left) == NextLeg(inscription, first)
    ensures |left| < |inscription| && Plannable(left, false)
    ensures (done + [partial]) + Legs(left, false) == legs
  {
    LegsStep(inscription, first);
    assert (done + [partial]) + Legs(left, false) == done + Legs(inscription, first);
  }

  /** A completed round's transaction extends the chain and becomes the link for the next one. */
  lemma RoundChain(txs: seq<Tx>, done: seq<seq<Chunk>>, link: Option<Link>, tx: Tx, partial: seq<Chunk>,
                   pubkey: seq<byte>, env: Env)
    requires ChainPrefix(txs, done, pubkey, env) && Linked(txs, done, link, pubkey, env)
    requires tx.outputs == [CommitOutput(LockScript(pubkey, partial), env)] && Covered(Unsigned(tx), env)
    requires link.Some? ==>
               |tx.inputs| > 0 &&
               tx.inputs[0] == link.value.input.(script := UnlockScript(link.value.leg, env.sign(Unsigned(tx), link.value.lock), link.value.lock))
    ensures ChainPrefix(txs + [tx], done + [partial], pubkey, env)
    ensures Linked(txs + [tx], done + [partial], Some(LinkAfter(tx, partial, pubkey, env)), pubkey, env)
  {
    if txs != [] {
      var txs1, done1 := txs + [tx], done + [partial];
      assert txs1[|txs|] == tx && txs1[|txs| - 1] == txs[|txs| - 1] && done1[|txs| - 1] == done[|done| - 1];
      assert Reveals(txs1, done1, |txs|, pubkey, env);
    }
    ChainPrefixExtend(txs, done, tx, partial, pubkey, env);
  }

  /** The last transaction of `inscribe`: spend the last commit output and pay the destination. */
  method Close(wallet: Wallet, txs: seq<Tx>, ghost legs: seq<seq<Chunk>>, link: Link, dest: Address, pubkey: seq<byte>, env: Env)
    returns (r: Result<Tx, FundError>)
    requires ChainPrefix(txs, legs, pubkey, env) && txs != []
    requires link == LinkAfter(txs[|txs| - 1], legs[|legs| - 1], pubkey, env)
    modifies wallet
    ensures r == Step(old(wallet.utxos), wallet.address, CloseBase(link, dest), Some(link), env)
    ensures r.Err? <==> FundResult(CloseBase(link, dest), old(wallet.utxos), wallet.address, env).Err?
    ensures r.Err? ==> wallet.utxos == old(wallet.utxos)
    ensures r.Ok? ==>
              ChainShape(txs + [r.value], legs, pubkey, dest, env) &&
              wallet.utxos == AfterUpdate(old(wallet.utxos), wallet.address, r.value, env)
  {
    var tx := Tx([link.input], [Output(PayToAddress(dest), COMMIT_SATOSHIS)], None);
    assert tx == CloseBase(link, dest);
    r := Complete(wallet, tx, Some(link), env);
    if r.Ok? {
      ChainClose(txs, legs, r.value, pubkey, dest, env);
    }
  }

  /** A round of `inscribe`, as the commit rounds of the legs still to plan see it: it ends them, or adds its transaction. */
  lemma RoundRounds(whole: Built, txs: seq<Tx>, us: seq<Utxo>, addr: Address, pubkey: seq<byte>, inscription: seq<Chunk>,
                    first: bool, link: Option<Link>, env: Env, res: Result<Tx, FundError>, partial: seq<Chunk>, left: seq<Chunk>)
    requires inscription != [] && Plannable(inscription, first) && (partial, left) == NextLeg(inscription, first)
    requires whole == Prefixed(txs, CommitRounds(us, addr, Locks(pubkey, Legs(inscription, first)), Legs(inscription, first), link, env))
    requires res == Step(us, addr, CommitBase(LockScript(pubkey, partial), link, env), link, env)
    ensures Plannable(left, false)
    ensures res.Err? ==> whole == Built(txs, Some(res.error))
    ensures res.Ok? ==>
              whole == Prefixed(txs + [res.value], CommitRounds(AfterUpdate(us, addr, res.value, env), addr, Locks(pubkey, Legs(left, false)),
                                                                Legs(left, false), Some(LinkAfter(res.value, partial, pubkey, env)), env))
  {
    LegsStep(inscription, first);
    var tail := Legs(left, false);
    assert Legs(inscription, first) == [partial] + tail;
    LocksCons(pubkey, partial, tail);
    if res.Ok? {
      var after := CommitRounds(AfterUpdate(us, addr, res.value, env), addr, Locks(pubkey, tail),
                                tail, Some(LinkAfter(res.value, partial, pubkey, env)), env);
      CommitRoundsCons(us, addr, LockScript(pubkey, partial), Locks(pubkey, tail), partial, tail, link, env, res.value);
      PrefixedTwice(txs, res.value, after);
    } else {
      CommitRoundsStop(us, addr, [LockScript(pubkey, partial)] + Locks(pubkey, tail), [partial] + tail, link, env, res.error);
      assert txs + [] == txs;
    }
  }

  lemma LocksCons(pubkey: seq<byte>, leg: seq<Chunk>, legs: seq<seq<Chunk>>)
    ensures Locks(pubkey, [leg] + legs) == [LockScript(pubkey, leg)] + Locks(pubkey, legs)
  {
  }

  /** Unfolding the commit rounds of a first lock and the rest, when the first round is funded. */
  lemma CommitRoundsCons(us: seq<Utxo>, addr: Address, lock: seq<Chunk>, locks: seq<seq<Chunk>>, leg: seq<Chunk>,
                         legs: seq<seq<Chunk>>, link: Option<Link>, env: Env, t: Tx)
    requires |locks| == |legs| && Step(us, addr, CommitBase(lock, link, env), link, env) == Ok(t)
    ensures CommitRounds(us, addr, [lock] + locks, [leg] + legs, link, env) ==
            Prefixed([t], CommitRounds(AfterUpdate(us, addr, t, env), addr, locks, legs, Some(NextLink(t, lock, leg, env)), env))
  {
    assert ([lock] + locks)[1..] == locks && ([leg] + legs)[1..] == legs;
  }

  /** After the last round, the commit rounds built `txs`, and the chain is what closing it gives. */
  lemma RoundsDone(whole: Built, txs: seq<Tx>, us: seq<Utxo>, addr: Address, pubkey: seq<byte>, legs: seq<seq<Chunk>>,
                   link: Link, dest: Address, env: Env, res: Result<Tx, FundError>)
    requires 0 < |txs| == |legs| && whole == CommitRounds(us, addr, Locks(pubkey, legs), legs, None, env)
    requires whole == Prefixed(txs, CommitRounds(Replay(us, addr, txs, env), addr, [], [], Some(link), env))
    requires link == LinkAfter(txs[|txs| - 1], legs[|legs| - 1], pubkey, env)
    requires res == Step(Replay(us, addr, txs, env), addr, CloseBase(link, dest), Some(link), env)
    ensures var b := Build(us, addr, Locks(pubkey, legs), legs, dest, env);
            b.txs == (if res.Ok? then txs + [res.value] else txs) &&
            Outcome(b) == (if res.Ok? then Ok(txs + [res.value]) else Err(res.error))
  {
    assert txs + [] == txs;
    BuildClosed(us, addr, Locks(pubkey, legs), legs, dest, env, txs, res);
  }

  /**
   * `inscribe(wallet, address, contentType, data)`: the chain of
   * transactions, or 'not enough funds' from the first transaction that
   * cannot be funded, with the wallet updated for every transaction built
   * before it.
   */
  method Inscribe(wallet: Wallet, dest: Address, pubkey: seq<byte>, contentType: seq<byte>, data: seq<byte>, env: Env)
    returns (r: Result<seq<Tx>, FundError>)
    requires |contentType| <= MAX_SCRIPT_ELEMENT_SIZE
    modifies wallet
    ensures var legs := InscriptionLegs(contentType, data);
            var b := Build(old(wallet.utxos), wallet.address, Locks(pubkey, legs), legs, dest, env);
            r == Outcome(b) && wallet.utxos == Replay(old(wallet.utxos), wallet.address, b.txs, env)
    ensures r.Ok? ==> ChainShape(r.value, InscriptionLegs(contentType, data), pubkey, dest, env)
  {
    var parts := SplitParts(data, MAX_CHUNK_LEN);
    var inscription := BuildInscription(contentType, parts);
    EnvelopePlannable(contentType, data);
    ghost var legs := Legs(inscription, true);
    assert legs == InscriptionLegs(contentType, data);
    ghost var whole := CommitRounds(old(wallet.utxos), wallet.address, Locks(pubkey, legs), legs, None, env);
    ghost var done: seq<seq<Chunk>> := [];
    var txs: seq<Tx> := [];
    var link: Option<Link> := None;
    assert Prefixed([], whole) == whole;
    while inscription != []
      invariant ChainPrefix(txs, done, pubkey, env) && Linked(txs, done, link, pubkey, env)
      invariant Plannable(inscription, txs == []) && done + Legs(inscription, txs == []) == legs
      invariant txs == [] ==> inscription != []
      invariant wallet.utxos == Replay(old(wallet.utxos), wallet.address, txs, env)
      invariant whole == Prefixed(txs, CommitRounds(wallet.utxos, wallet.address, Locks(pubkey, Legs(inscription, txs == [])),
                                                    Legs(inscription, txs == []), link, env))
      decreases |inscription|
    {
      ghost var before := wallet.utxos;
      var res, partial, left := Round(wallet, inscription, link, pubkey, env);
      RoundRounds(whole, txs, before, wallet.address, pubkey, inscription, txs == [], link, env, res, partial, left);
      if res.Err? {
        return Err(res.error);
      }
      var tx := res.value;
      RoundLegs(done, legs, inscription, txs == [], partial, left);
      RoundChain(txs, done, link, tx, partial, pubkey, env);
      ReplayAppend(old(wallet.utxos), wallet.address, txs, tx, env);
      txs := txs + [tx];
      done := done + [partial];
      inscription := left;
      link := Some(LinkAfter(tx, partial, pubkey, env));
    }
    assert done == legs && Legs(inscription, txs == []) == [];
    var res := Close(wallet, txs, legs, link.value, dest, pubkey, env);
    RoundsDone(whole, txs, old(wallet.utxos), wallet.address, pubkey, legs, link.value, dest, env, res);
    if res.Err? {
      return Err(res.error);
    }
    ReplayAppend(old(wallet.utxos), wallet.address, txs, res.value, env);
    r := Ok(txs + [res.value]);
  }
}
