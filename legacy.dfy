/**
 * The transactions of index.js: `inscribeOrd` puts a whole small
 * inscription in one lock script and reveals it in a second transaction;
 * `inscribeOrdChain` commits to one lock script per leg of the chained
 * envelope, each transaction after the first spending the previous commit
 * output; `mint` chooses between them by the size of the content.
 *
 * A lock script here is `<pubkey> OP_CHECKSIG OP_FALSE OP_IF <leg> OP_ENDIF`:
 * the leg sits in a branch that is never taken, and the unlocking script is
 * only the signature and the lock script itself.
 */
module Legacy {
  import opened Wrappers
  import opened Script
  import opened Envelope
  import opened Planner
  import opened Funding
  import opened Forge
  import opened OrdChain

  /** The redeem script that carries `leg` in a dead OP_IF branch. */
  function LegacyLockScript(pubkey: seq<byte>, leg: seq<Chunk>): seq<Chunk> {
    [BufferToChunk(pubkey), OpcodeToChunk(OP_CHECKSIG), OpcodeToChunk(OP_0), OpcodeToChunk(OP_IF)]
    + leg + [OpcodeToChunk(OP_ENDIF)]
  }

  /**
   * The leg is exactly what lies between the OP_IF at position 3 and the
   * closing OP_ENDIF; nothing else in the lock script is a data push after
   * the public key.
   */
  lemma LegacyLockScriptHoldsLeg(pubkey: seq<byte>, leg: seq<Chunk>)
    ensures var lock := LegacyLockScript(pubkey, leg);
            |lock| == |leg| + 5 && lock[4..|lock| - 1] == leg &&
            lock[3] == Chunk(OP_IF, None) && lock[|lock| - 1] == Chunk(OP_ENDIF, None) &&
            Payload(lock[0]) == pubkey && lock[1].buf.None? && lock[2].buf.None?
  {
    var lock := LegacyLockScript(pubkey, leg);
    assert lock[4..|lock| - 1] == leg;
  }

  /** The inner script of `inscribeOrd`: 'ord', OP_1, the content type, OP_0, the data. */
  function OrdInner(contentType: seq<byte>, data: seq<byte>): seq<Chunk> {
    [BufferToChunk(ORD), OpcodeToChunk(OP_TRUE), BufferToChunk(contentType), OpcodeToChunk(OP_0), BufferToChunk(data)]
  }

  /** Transaction i commits to the lock script of leg i. */
  ghost predicate LegacyCommits(txs: seq<Tx>, legs: seq<seq<Chunk>>, i: nat, pubkey: seq<byte>, env: Env)
    requires i < |txs| && i < |legs|
  {
    txs[i].outputs == [CommitOutput(LegacyLockScript(pubkey, legs[i]), env)]
  }

  /**
   * Transaction i spends output 0 of transaction i-1 with the signature
   * and the lock script of leg i-1.
   */
  ghost predicate LegacyReveals(txs: seq<Tx>, legs: seq<seq<Chunk>>, i: nat, pubkey: seq<byte>, env: Env)
    requires 0 < i < |txs| && i - 1 < |legs|
  {
    var lock := LegacyLockScript(pubkey, legs[i - 1]);
    |txs[i].inputs| > 0 &&
    txs[i].inputs[0] == Input(Outpoint(env.txHash(txs[i - 1]), 0), COMMIT_SATOSHIS,
                              UnlockScript([], env.sign(Unsigned(txs[i]), lock), lock))
  }

  /** The first transactions of a chain for `legs`, one per leg so far. */
  ghost predicate LegacyPrefix(txs: seq<Tx>, legs: seq<seq<Chunk>>, pubkey: seq<byte>, env: Env) {
    |txs| <= |legs| &&
    (forall i :: 0 <= i < |txs| ==> LegacyCommits(txs, legs, i, pubkey, env)) &&
    (forall i :: 0 < i < |txs| ==> LegacyReveals(txs, legs, i, pubkey, env)) &&
    (forall i :: 0 <= i < |txs| ==> Covered(Unsigned(txs[i]), env))
  }

  /** The whole chain: one commit per leg and a last transaction paying `dest`. */
  ghost predicate LegacyChainShape(txs: seq<Tx>, legs: seq<seq<Chunk>>, pubkey: seq<byte>, dest: Address, env: Env) {
    |txs| == |legs| + 1 &&
    (forall i :: 0 <= i < |legs| ==> LegacyCommits(txs, legs, i, pubkey, env)) &&
    (forall i :: 0 < i < |txs| ==> LegacyReveals(txs, legs, i, pubkey, env)) &&
    txs[|legs|].outputs == [Output(PayToAddress(dest), COMMIT_SATOSHIS)] &&
    (forall i :: 0 <= i < |txs| ==> Covered(Unsigned(txs[i]), env))
  }

  /** What spending output 0 of `prev`, locked by `lock`, needs: the input and the lock, with no leg in the unlock. */
  function SpendCommit(prev: Tx, lock: seq<Chunk>, env: Env): (l: Link)
    ensures l.input.prev == Outpoint(env.txHash(prev), 0) && l.input.script == [] && l.leg == [] && l.lock == lock
  {
    NextLink(prev, lock, [], env)
  }

  /** The lock scripts of index.js, one per leg. */
  function LegacyLocks(pubkey: seq<byte>, legs: seq<seq<Chunk>>): (locks: seq<seq<Chunk>>)
    ensures |locks| == |legs| && forall i :: 0 <= i < |legs| ==> locks[i] == LegacyLockScript(pubkey, legs[i])
  {
    seq(|legs|, i requires 0 <= i < |legs| => LegacyLockScript(pubkey, legs[i]))
  }

  /** What the unlocking scripts of index.js push in front of the signature: nothing, for every leg. */
  function Unrevealed(n: nat): (shown: seq<seq<Chunk>>)
    ensures |shown| == n && forall i :: 0 <= i < n ==> shown[i] == []
  {
    seq(n, _ => [])
  }

  lemma LegacyPrefixExtend(txs: seq<Tx>, legs: seq<seq<Chunk>>, tx: Tx, pubkey: seq<byte>, env: Env)
    requires LegacyPrefix(txs, legs, pubkey, env) && |txs| < |legs|
    requires tx.outputs == [CommitOutput(LegacyLockScript(pubkey, legs[|txs|]), env)] && Covered(Unsigned(tx), env)
    requires txs != [] ==>
               var link := SpendCommit(txs[|txs| - 1], LegacyLockScript(pubkey, legs[|txs| - 1]), env);
               |tx.inputs| > 0 &&
               tx.inputs[0] == link.input.(script := UnlockScript([], env.sign(Unsigned(tx), link.lock), link.lock))
    ensures LegacyPrefix(txs + [tx], legs, pubkey, env)
  {
    LegacyCommitsExtend(txs, legs, tx, pubkey, env);
    LegacyRevealsExtend(txs, legs, tx, pubkey, env);
  }

  lemma LegacyCommitsExtend(txs: seq<Tx>, legs: seq<seq<Chunk>>, tx: Tx, pubkey: seq<byte>, env: Env)
    requires LegacyPrefix(txs, legs, pubkey, env) && |txs| < |legs|
    requires tx.outputs == [CommitOutput(LegacyLockScript(pubkey, legs[|txs|]), env)] && Covered(Unsigned(tx), env)
    ensures forall i :: 0 <= i < |txs| + 1 ==>
              LegacyCommits(txs + [tx], legs, i, pubkey, env) && Covered(Unsigned((txs + [tx])[i]), env)
  {
    var txs1 := txs + [tx];
    forall i | 0 <= i < |txs1|
      ensures LegacyCommits(txs1, legs, i, pubkey, env) && Covered(Unsigned(txs1[i]), env)
    {
      if i < |txs| {
        assert LegacyCommits(txs, legs, i, pubkey, env);
      }
    }
  }

  lemma LegacyRevealsExtend(txs: seq<Tx>, legs: seq<seq<Chunk>>, tx: Tx, pubkey: seq<byte>, env: Env)
    requires LegacyPrefix(txs, legs, pubkey, env) && |txs| < |legs|
    requires txs != [] ==>
               var link := SpendCommit(txs[|txs| - 1], LegacyLockScript(pubkey, legs[|txs| - 1]), env);
               |tx.inputs| > 0 &&
               tx.inputs[0] == link.input.(script := UnlockScript([], env.sign(Unsigned(tx), link.lock), link.lock))
    ensures forall i :: 0 < i < |txs| + 1 ==> LegacyReveals(txs + [tx], legs, i, pubkey, env)
  {
    var txs1 := txs + [tx];
    forall i | 0 < i < |txs1|
      ensures LegacyReveals(txs1, legs, i, pubkey, env)
    {
      if i < |txs| {
        assert LegacyReveals(txs, legs, i, pubkey, env);
      } else {
        assert txs1[i - 1] == txs[|txs| - 1];
      }
    }
  }

  lemma LegacyClose(txs: seq<Tx>, legs: seq<seq<Chunk>>, tx: Tx, pubkey: seq<byte>, dest: Address, env: Env)
    requires LegacyPrefix(txs, legs, pubkey, env) && |txs| == |legs| && txs != []
    requires tx.outputs == [Output(PayToAddress(dest), COMMIT_SATOSHIS)] && Covered(Unsigned(tx), env)
    requires var link := SpendCommit(txs[|txs| - 1], LegacyLockScript(pubkey, legs[|txs| - 1]), env);
             |tx.inputs| > 0 &&
             tx.inputs[0] == link.input.(script := UnlockScript([], env.sign(Unsigned(tx), link.lock), link.lock))
    ensures LegacyChainShape(txs + [tx], legs, pubkey, dest, env)
  {
    var txs1 := txs + [tx];
    forall i | 0 <= i < |legs|
      ensures LegacyCommits(txs1, legs, i, pubkey, env)
    {
      assert LegacyCommits(txs, legs, i, pubkey, env);
    }
    forall i | 0 < i < |txs1|
      ensures LegacyReveals(txs1, legs, i, pubkey, env)
    {
      if i < |txs| {
        assert LegacyReveals(txs, legs, i, pubkey, env);
      } else {
        assert txs1[i - 1] == txs[|txs| - 1];
      }
    }
    forall i | 0 <= i < |txs1|
      ensures Covered(Unsigned(txs1[i]), env)
    {
      if i < |txs| {
        assert Covered(Unsigned(txs[i]), env);
      }
    }
  }

  /**
   * One pass of the commit loop of inscribeOrdChain, which is also the
   * first transaction of inscribeOrd: commit to lock i, spending the
   * previous commit output when there is one.
   */
  method CommitLeg(wallet: Wallet, pubkey: seq<byte>, legs: seq<seq<Chunk>>, locks: seq<seq<Chunk>>, txs: seq<Tx>,
                   ghost whole: Built, ghost us: seq<Utxo>, env: Env) returns (res: Result<Tx, FundError>)
    requires locks == LegacyLocks(pubkey, legs) && |txs| < |legs| && LegacyPrefix(txs, legs, pubkey, env)
    requires wallet.utxos == Replay(us, wallet.address, txs, env)
    requires var shown := Unrevealed(|legs|);
             whole == Prefixed(txs, CommitRounds(wallet.utxos, wallet.address, locks[|txs|..], shown[|txs|..],
                                                 LinkBefore(txs, locks, shown, None, env), env))
    modifies wallet
    ensures res.Err? ==> wallet.utxos == old(wallet.utxos) && whole == Built(txs, Some(res.error))
    ensures res.Ok? ==>
              var shown := Unrevealed(|legs|);
              wallet.utxos == Replay(us, wallet.address, txs + [res.value], env) &&
              LegacyPrefix(txs + [res.value], legs, pubkey, env) &&
              whole == Prefixed(txs + [res.value], CommitRounds(wallet.utxos, wallet.address, locks[|txs| + 1..], shown[|txs| + 1..],
                                                                LinkBefore(txs + [res.value], locks, shown, None, env), env))
  {
    var i := |txs|;
    ghost var shown := Unrevealed(|legs|);
    var link: Option<Link> := None;
    if i > 0 {
      link := Some(SpendCommit(txs[i - 1], locks[i - 1], env));
    }
    assert link == LinkBefore(txs, locks, shown, None, env);
    var base := Tx(if i > 0 then [link.value.input] else [], [CommitOutput(locks[i], env)], None);
    assert base == CommitBase(locks[i], link, env);
    ghost var before := wallet.utxos;
    res := Complete(wallet, base, link, env);
    RoundsAdvance(whole, wallet.address, locks, shown, txs, before, env, res);
    if res.Ok? {
      ReplayAppend(us, wallet.address, txs, res.value, env);
      LegacyPrefixExtend(txs, legs, res.value, pubkey, env);
    }
  }

  /** The last transaction of inscribeOrd and inscribeOrdChain: spend the last commit output and pay `dest`. */
  method CloseChain(wallet: Wallet, dest: Address, pubkey: seq<byte>, legs: seq<seq<Chunk>>, locks: seq<seq<Chunk>>, txs: seq<Tx>,
                    ghost us: seq<Utxo>, env: Env) returns (r: Result<seq<Tx>, FundError>)
    requires locks == LegacyLocks(pubkey, legs) && 0 < |txs| == |legs| && LegacyPrefix(txs, legs, pubkey, env)
    requires CommitRounds(us, wallet.address, locks, Unrevealed(|legs|), None, env) == Built(txs, None)
    requires wallet.utxos == Replay(us, wallet.address, txs, env)
    modifies wallet
    ensures var b := Build(us, wallet.address, locks, Unrevealed(|legs|), dest, env);
            r == Outcome(b) && wallet.utxos == Replay(us, wallet.address, b.txs, env)
    ensures r.Ok? ==> LegacyChainShape(r.value, legs, pubkey, dest, env)
  {
    var link := SpendCommit(txs[|txs| - 1], locks[|locks| - 1], env);
    assert link == NextLink(txs[|txs| - 1], locks[|locks| - 1], Unrevealed(|legs|)[|legs| - 1], env);
    var base := Tx([link.input], [Output(PayToAddress(dest), COMMIT_SATOSHIS)], None);
    assert base == CloseBase(link, dest);
    var last := Complete(wallet, base, Some(link), env);
    BuildClosed(us, wallet.address, locks, Unrevealed(|legs|), dest, env, txs, last);
    if last.Err? {
      return Err(last.error);
    }
    LegacyClose(txs, legs, last.value, pubkey, dest, env);
    ReplayAppend(us, wallet.address, txs, last.value, env);
    r := Ok(txs + [last.value]);
  }

  /**
   * `inscribeOrd`: a commit transaction to the lock script holding the
   * whole inscription, and a second one spending it and paying `dest`;
   * 'not enough funds' from the first of them the wallet cannot fund.
   */
  method InscribeOrd(wallet: Wallet, dest: Address, pubkey: seq<byte>, contentType: seq<byte>, data: seq<byte>, env: Env)
    returns (r: Result<seq<Tx>, FundError>)
    modifies wallet
    ensures var b := Build(old(wallet.utxos), wallet.address, LegacyLocks(pubkey, [OrdInner(contentType, data)]), Unrevealed(1), dest, env);
            r == Outcome(b) && wallet.utxos == Replay(old(wallet.utxos), wallet.address, b.txs, env)
    ensures r.Ok? ==>
              |r.value| == 2 &&
              LegacyChainShape(r.value, [OrdInner(contentType, data)], pubkey, dest, env)
  {
    var legs := [OrdInner(contentType, data)];
    var locks := [LegacyLockScript(pubkey, OrdInner(contentType, data))];
    assert locks == LegacyLocks(pubkey, legs);
    ghost var shown := Unrevealed(1);
    ghost var whole := CommitRounds(old(wallet.utxos), wallet.address, locks, shown, None, env);
    assert locks[0..] == locks && shown[0..] == shown && Prefixed([], whole) == whole;
    var tx1 := CommitLeg(wallet, pubkey, legs, locks, [], whole, old(wallet.utxos), env);
    if tx1.Err? {
      BuildStopped(old(wallet.utxos), wallet.address, locks, shown, dest, env);
      return Err(tx1.error);
    }
    assert locks[1..] == [] && shown[1..] == [];
    assert whole == Built([tx1.value], None);
    assert [] + [tx1.value] == [tx1.value];
    r := CloseChain(wallet, dest, pubkey, legs, locks, [tx1.value], old(wallet.utxos), env);
  }

  /** The legs of the chained envelope of `data`, for a content type that fits a leg. */
  function OrdChainLegs(contentType: seq<byte>, data: seq<byte>): (legs: seq<seq<Chunk>>)
    requires |contentType| <= LEGACY_PAYLOAD_LEN
    ensures legs != []
  {
    OrdChainFits(contentType, data);
    LegacyLegsSpec(OrdChainInscription(contentType, DataChunks(data)));
    LegacyLegs(OrdChainInscription(contentType, DataChunks(data)))
  }

  /** There is always a first leg, and the legs together are the chained envelope. */
  lemma OrdChainLegsSpec(contentType: seq<byte>, data: seq<byte>)
    requires |contentType| <= LEGACY_PAYLOAD_LEN
    ensures OrdChainLegs(contentType, data) != []
    ensures Flatten(OrdChainLegs(contentType, data)) == OrdChainInscription(contentType, DataChunks(data))
  {
    var s := OrdChainInscription(contentType, DataChunks(data));
    OrdChainFits(contentType, data);
    LegacyLegsSpec(s);
  }

  /** The lock-script loop of inscribeOrdChain. */
  method BuildLocks(pubkey: seq<byte>, legs: seq<seq<Chunk>>) returns (locks: seq<seq<Chunk>>)
    ensures locks == LegacyLocks(pubkey, legs)
  {
    locks := [];
    var i := 0;
    while i < |legs|
      invariant 0 <= i <= |legs| && |locks| == i
      invariant forall j :: 0 <= j < i ==> locks[j] == LegacyLockScript(pubkey, legs[j])
    {
      locks := locks + [LegacyLockScript(pubkey, legs[i])];
      i := i + 1;
    }
    assert locks == LegacyLocks(pubkey, legs);
  }

  /** The commit transactions of inscribeOrdChain, leg by leg. */
  method CommitAll(wallet: Wallet, pubkey: seq<byte>, legs: seq<seq<Chunk>>, locks: seq<seq<Chunk>>, env: Env)
    returns (r: Result<seq<Tx>, FundError>)
    requires locks == LegacyLocks(pubkey, legs)
    modifies wallet
    ensures var b := CommitRounds(old(wallet.utxos), wallet.address, locks, Unrevealed(|legs|), None, env);
            r == Outcome(b) && wallet.utxos == Replay(old(wallet.utxos), wallet.address, b.txs, env)
    ensures r.Ok? ==> |r.value| == |legs| && LegacyPrefix(r.value, legs, pubkey, env)
  {
    ghost var shown := Unrevealed(|legs|);
    ghost var whole := CommitRounds(old(wallet.utxos), wallet.address, locks, shown, None, env);
    var txs: seq<Tx> := [];
    var i := 0;
    assert locks[0..] == locks && shown[0..] == shown && Prefixed([], whole) == whole;
    while i < |legs|
      invariant 0 <= i <= |legs| && |txs| == i
      invariant LegacyPrefix(txs, legs, pubkey, env)
      invariant wallet.utxos == Replay(old(wallet.utxos), wallet.address, txs, env)
      invariant whole == Prefixed(txs, CommitRounds(wallet.utxos, wallet.address, locks[i..], shown[i..],
                                                    LinkBefore(txs, locks, shown, None, env), env))
    {
      var res := CommitLeg(wallet, pubkey, legs, locks, txs, whole, old(wallet.utxos), env);
      if res.Err? {
        return Err(res.error);
      }
      txs := txs + [res.value];
      i := i + 1;
    }
    assert locks[i..] == [] && shown[i..] == [] && txs + [] == txs;
    r := Ok(txs);
  }

  /**
   * `inscribeOrdChain` for a content type that fits a leg: the chained
   * envelope, planned into legs, committed leg by leg, and a last
   * transaction spending the last commit output and paying `dest`.
   */
  method InscribeOrdChain(wallet: Wallet, dest: Address, pubkey: seq<byte>, contentType: seq<byte>, data: seq<byte>, env: Env)
    returns (r: Result<seq<Tx>, FundError>)
    requires |contentType| <= LEGACY_PAYLOAD_LEN
    modifies wallet
    ensures var legs := OrdChainLegs(contentType, data);
            var b := Build(old(wallet.utxos), wallet.address, LegacyLocks(pubkey, legs), Unrevealed(|legs|), dest, env);
            r == Outcome(b) && wallet.utxos == Replay(old(wallet.utxos), wallet.address, b.txs, env)
    ensures r.Ok? ==> LegacyChainShape(r.value, OrdChainLegs(contentType, data), pubkey, dest, env)
  {
    var chunks := SplitChunks(data);
    var inscription := BuildOrdChain(contentType, chunks);
    OrdChainFits(contentType, data);
    var legs := LegacyPlan(inscription);
    OrdChainLegsSpec(contentType, data);
    var locks := BuildLocks(pubkey, legs);
    ghost var before := wallet.utxos;
    var committed := CommitAll(wallet, pubkey, legs, locks, env);
    if committed.Err? {
      BuildStopped(before, wallet.address, locks, Unrevealed(|legs|), dest, env);
      return Err(committed.error);
    }
    var txs := committed.value;
    assert CommitRounds(before, wallet.address, locks, Unrevealed(|legs|), None, env) == Built(txs, None);
    r := CloseChain(wallet, dest, pubkey, legs, locks, txs, before, env);
  }

  /** Why `mint` gives up: a content type too long, or a transaction it cannot fund. */
  datatype MintError = ContentTypeTooLong | Unfunded(cause: FundError)

  /** What `mint` reports for a chain built as `b`. */
  function MintOutcome(b: Built): Result<seq<Tx>, MintError> {
    if b.failure.Some? then Err(Unfunded(b.failure.value)) else Ok(b.txs)
  }

  /**
   * The size dispatch of `mint`: content types over 520 bytes are refused;
   * data under 520 bytes goes in a single lock script, anything larger in
   * a chain. On the chain path a content type that cannot fit a leg on its
   * own is refused too, where index.js would plan forever.
   */
  method Mint(wallet: Wallet, dest: Address, pubkey: seq<byte>, contentType: seq<byte>, data: seq<byte>, env: Env)
    returns (r: Result<seq<Tx>, MintError>)
    modifies wallet
    ensures r == Err(ContentTypeTooLong) <==>
              |contentType| > MAX_SCRIPT_ELEMENT_SIZE || (|data| >= MAX_SCRIPT_ELEMENT_SIZE && |contentType| > LEGACY_PAYLOAD_LEN)
    ensures r == Err(ContentTypeTooLong) ==> wallet.utxos == old(wallet.utxos)
    ensures |contentType| <= MAX_SCRIPT_ELEMENT_SIZE && |data| < MAX_SCRIPT_ELEMENT_SIZE ==>
              var b := Build(old(wallet.utxos), wallet.address, LegacyLocks(pubkey, [OrdInner(contentType, data)]), Unrevealed(1), dest, env);
              r == MintOutcome(b) && wallet.utxos == Replay(old(wallet.utxos), wallet.address, b.txs, env)
    ensures |data| >= MAX_SCRIPT_ELEMENT_SIZE && |contentType| <= LEGACY_PAYLOAD_LEN ==>
              var legs := OrdChainLegs(contentType, data);
              var b := Build(old(wallet.utxos), wallet.address, LegacyLocks(pubkey, legs), Unrevealed(|legs|), dest, env);
              r == MintOutcome(b) && wallet.utxos == Replay(old(wallet.utxos), wallet.address, b.txs, env)
    ensures r.Ok? && |data| < MAX_SCRIPT_ELEMENT_SIZE ==>
              |r.value| == 2 && LegacyChainShape(r.value, [OrdInner(contentType, data)], pubkey, dest, env)
    ensures r.Ok? && |data| >= MAX_SCRIPT_ELEMENT_SIZE ==>
              |contentType| <= LEGACY_PAYLOAD_LEN &&
              LegacyChainShape(r.value, OrdChainLegs(contentType, data), pubkey, dest, env)
    ensures r.Ok? ==> wallet.utxos == Replay(old(wallet.utxos), wallet.address, r.value, env)
  {
    if |contentType| > MAX_SCRIPT_ELEMENT_SIZE {
      return Err(ContentTypeTooLong);
    }
    var res;
    if |data| < MAX_SCRIPT_ELEMENT_SIZE {
      res := InscribeOrd(wallet, dest, pubkey, contentType, data, env);
    } else {
      if |contentType| > LEGACY_PAYLOAD_LEN {
        return Err(ContentTypeTooLong);
      }
      res := InscribeOrdChain(wallet, dest, pubkey, contentType, data, env);
    }
    match res
    case Ok(txs) => r := Ok(txs);
    case Err(e) => r := Err(Unfunded(e));
  }
}
