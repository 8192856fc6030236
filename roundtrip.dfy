/**
 * Reading back what `inscribe` wrote: when a block explorer shows the
 * transactions of an inscription chain as they were built, `extract`
 * started at the first reveal (the transaction doginals.js reports as the
 * inscription id) returns the original content type and data.
 *
 * The walk is argued over the envelope and the offsets at which the legs
 * cut it: reveal i shows the envelope from offs[i] to offs[i+1], followed by
 * the signature push, which never reads as a number.
 */
module RoundTrip {
  import opened Wrappers
  import opened Script
  import opened Envelope
  import opened Planner
  import opened Funding
  import opened Forge
  import opened Extract

  /** What the explorer shows of reveal i: input 0's script, and which transaction spent its commit output. */
  ghost predicate PublishedAt(ex: Explorer, txs: seq<Tx>, env: Env, i: nat)
    requires i < |txs|
  {
    env.txHash(txs[i]) in ex && |txs[i].inputs| > 0 &&
    ex[env.txHash(txs[i])].scriptSig == txs[i].inputs[0].script &&
    (i + 1 < |txs| ==> ex[env.txHash(txs[i])].spentBy == Some(env.txHash(txs[i + 1])))
  }

  /** What the explorer shows of the chain: every reveal as it was built. */
  ghost predicate Published(ex: Explorer, txs: seq<Tx>, env: Env) {
    forall i :: 1 <= i < |txs| ==> PublishedAt(ex, txs, env, i)
  }

  /** Signatures are DER encodings, far longer than the two bytes a number push can hold. */
  ghost predicate LongSignatures(env: Env) {
    forall t, lock :: |env.sign(t, lock)| >= 2
  }

  /** Cut i of the envelope: leg i is non-empty and ends within the envelope. */
  ghost predicate Cut(offs: seq<nat>, e: seq<Chunk>, i: nat)
    requires i + 1 < |offs|
  {
    offs[i] < offs[i + 1] <= |e|
  }

  /**
   * Where the legs cut the envelope: the first cut after the header, the
   * last at the end, and every cut at an odd position, that is between an
   * index's data and the next index.
   */
  ghost predicate Cuts(e: seq<Chunk>, offs: seq<nat>) {
    |offs| >= 2 && offs[0] == 0 && offs[|offs| - 1] == |e| && offs[1] >= 3 &&
    (forall i :: 0 <= i < |offs| - 1 ==> Cut(offs, e, i)) &&
    (forall i :: 1 <= i < |offs| ==> OddCut(offs, i))
  }

  /** Cut i falls between part and index: at an odd position of the envelope. */
  ghost predicate OddCut(offs: seq<nat>, i: nat)
    requires i < |offs|
  {
    offs[i] % 2 == 1
  }

  /** After the header, index k reads as count-1-k and is followed by part k. */
  ghost predicate Indexed(reader: Reader, e: seq<Chunk>, parts: seq<seq<byte>>) {
    |e| == 3 + 2 * |parts| && forall k :: 0 <= k < |parts| ==> IndexedAt(reader, e, parts, k)
  }

  ghost predicate IndexedAt(reader: Reader, e: seq<Chunk>, parts: seq<seq<byte>>, k: nat)
    requires |e| == 3 + 2 * |parts| && k < |parts|
  {
    ReadNumber(reader, e[3 + 2 * k]) == Some(|parts| - 1 - k) && e[4 + 2 * k].buf == Some(parts[k])
  }

  /** Transaction `id` reveals e[a..b], then a push that is not a number. */
  ghost predicate Reveal(reader: Reader, ex: Explorer, id: TxId, e: seq<Chunk>, a: nat, b: nat)
    requires a <= b <= |e|
  {
    id in ex && |ex[id].scriptSig| > b - a && ex[id].scriptSig[..b - a] == e[a..b] &&
    ReadNumber(reader, ex[id].scriptSig[b - a]).None?
  }

  /** Reveal i shows leg i, and its commit output was spent by reveal i+1. */
  ghost predicate ChainedLeg(reader: Reader, ex: Explorer, ids: seq<TxId>, e: seq<Chunk>, offs: seq<nat>, i: nat)
    requires |offs| == |ids| + 1 && i < |ids|
  {
    Cut(offs, e, i) && Reveal(reader, ex, ids[i], e, offs[i], offs[i + 1]) &&
    (i + 1 < |ids| ==> ex[ids[i]].spentBy == Some(ids[i + 1]))
  }

  /** Every reveal shows its leg, and each is spent by the next. */
  ghost predicate Chained(reader: Reader, ex: Explorer, ids: seq<TxId>, e: seq<Chunk>, offs: seq<nat>)
    requires |offs| == |ids| + 1
  {
    forall i :: 0 <= i < |ids| ==> ChainedLeg(reader, ex, ids, e, offs, i)
  }

  /**
   * The walk from index k of the envelope (position 3 + 2k), inside the
   * script of reveal i, with the parts before k collected, ends with all
   * the parts.
   */
  lemma {:induction false} WalkLegs(reader: Reader, ex: Explorer, ids: seq<TxId>, e: seq<Chunk>, parts: seq<seq<byte>>, offs: seq<nat>,
                                    i: nat, k: nat, hops: nat)
    requires Cuts(e, offs) && Indexed(reader, e, parts) && |offs| == |ids| + 1 && Chained(reader, ex, ids, e, offs)
    requires i < |ids| && offs[i] <= 3 + 2 * k <= offs[i + 1] <= |e|
    requires hops + 1 + i >= |ids|
    ensures k <= |parts| && ChainedLeg(reader, ex, ids, e, offs, i)
    ensures Walk(ex, reader, ex[ids[i]].spentBy, ex[ids[i]].scriptSig[3 + 2 * k - offs[i]..], |parts| - k,
                 Concat(parts[..k]), hops) == Ok(Concat(parts))
    decreases |ids| - i
  {
    LegAt(reader, ex, ids, e, offs, i);
    var kb := (offs[i + 1] - 3) / 2;
    AcrossLeg(reader, ex, ids, e, parts, offs, i, k, kb, hops);
    if i + 1 < |ids| {
      WalkLegs(reader, ex, ids, e, parts, offs, i + 1, kb, hops - 1);
    }
  }

  /**
   * From index k to the end of leg i (index kb): the walk either ends with
   * all the parts, on the last leg, or carries on at the start of reveal
   * i+1 with one hop fewer.
   */
  lemma AcrossLeg(reader: Reader, ex: Explorer, ids: seq<TxId>, e: seq<Chunk>, parts: seq<seq<byte>>, offs: seq<nat>,
                  i: nat, k: nat, kb: nat, hops: nat)
    requires Cuts(e, offs) && Indexed(reader, e, parts) && |offs| == |ids| + 1 && Chained(reader, ex, ids, e, offs)
    requires i < |ids| && offs[i] <= 3 + 2 * k <= offs[i + 1] == 3 + 2 * kb <= |e|
    requires hops + 1 + i >= |ids|
    ensures k <= kb <= |parts| && ChainedLeg(reader, ex, ids, e, offs, i)
    ensures i + 1 == |ids| ==>
              Walk(ex, reader, ex[ids[i]].spentBy, ex[ids[i]].scriptSig[3 + 2 * k - offs[i]..], |parts| - k,
                   Concat(parts[..k]), hops) == Ok(Concat(parts))
    ensures i + 1 < |ids| ==>
              offs[i + 1] < offs[i + 2] && ChainedLeg(reader, ex, ids, e, offs, i + 1) && hops > 0 &&
              Walk(ex, reader, ex[ids[i]].spentBy, ex[ids[i]].scriptSig[3 + 2 * k - offs[i]..], |parts| - k,
                   Concat(parts[..k]), hops) ==
              Walk(ex, reader, ex[ids[i + 1]].spentBy, ex[ids[i + 1]].scriptSig[3 + 2 * kb - offs[i + 1]..], |parts| - kb,
                   Concat(parts[..kb]), hops - 1)
  {
    var a, b := offs[i], offs[i + 1];
    LegAt(reader, ex, ids, e, offs, i);
    var s := ex[ids[i]].scriptSig;
    var spent := ex[ids[i]].spentBy;
    LegWalk(reader, ex, spent, s, e, parts, a, k, kb, hops);
    var data := Concat(parts[..kb]);
    if i + 1 == |ids| {
      assert kb == |parts| && parts[..kb] == parts;
      assert Walk(ex, reader, spent, s[b - a..], 0, data, hops) == Ok(data);
    } else {
      JumpStep(reader, ex, ids, e, offs, i, |parts| - kb, data, hops);
      assert ChainedLeg(reader, ex, ids, e, offs, i + 1);
      var next := ex[ids[i + 1]].scriptSig;
      assert 3 + 2 * kb - offs[i + 1] == 0 && next[0..] == next;
    }
  }

  /** What the chained layout says of leg i on its own. */
  lemma LegAt(reader: Reader, ex: Explorer, ids: seq<TxId>, e: seq<Chunk>, offs: seq<nat>, i: nat)
    requires Cuts(e, offs) && |offs| == |ids| + 1 && Chained(reader, ex, ids, e, offs) && i < |ids|
    ensures offs[i] < offs[i + 1] <= |e| && offs[i + 1] >= 3 && 3 + 2 * ((offs[i + 1] - 3) / 2) == offs[i + 1]
    ensures ids[i] in ex && |ex[ids[i]].scriptSig| > offs[i + 1] - offs[i]
    ensures ex[ids[i]].scriptSig[..offs[i + 1] - offs[i]] == e[offs[i]..offs[i + 1]]
    ensures i + 1 == |ids| <==> offs[i + 1] == |e|
  {
    assert ChainedLeg(reader, ex, ids, e, offs, i);
    assert OddCut(offs, i + 1);
    if i > 0 {
      assert OddCut(offs, i);
    }
    var b: int := offs[i + 1];
    assert b >= 3 && (b - 3) % 2 == 0;
    if i + 1 < |ids| {
      assert Cut(offs, e, i + 1);
    }
  }

  /** At the end of leg i the walk meets the signature push and follows the spend to reveal i+1. */
  lemma JumpStep(reader: Reader, ex: Explorer, ids: seq<TxId>, e: seq<Chunk>, offs: seq<nat>, i: nat, remaining: nat, data: seq<byte>,
                 hops: nat)
    requires Cuts(e, offs) && |offs| == |ids| + 1 && Chained(reader, ex, ids, e, offs) && i + 1 < |ids|
    requires remaining > 0 && hops > 0
    ensures offs[i] < offs[i + 1] < offs[i + 2] <= |e| && ids[i] in ex && ids[i + 1] in ex && |ex[ids[i]].scriptSig| > offs[i + 1] - offs[i]
    ensures Walk(ex, reader, ex[ids[i]].spentBy, ex[ids[i]].scriptSig[offs[i + 1] - offs[i]..], remaining, data, hops) ==
            Walk(ex, reader, ex[ids[i + 1]].spentBy, ex[ids[i + 1]].scriptSig, remaining, data, hops - 1)
  {
    assert ChainedLeg(reader, ex, ids, e, offs, i) && ChainedLeg(reader, ex, ids, e, offs, i + 1);
    var s := ex[ids[i]].scriptSig;
    assert s[offs[i + 1] - offs[i]..][0] == s[offs[i + 1] - offs[i]];
    WalkJumps(ex, reader, ex[ids[i]].spentBy, s[offs[i + 1] - offs[i]..], remaining, data, hops);
  }

  /** The walk inside a script that shows the envelope from position a, resumed at index k with parts before k collected. */
  ghost function WalkFrom(reader: Reader, ex: Explorer, spent: Option<TxId>, s: seq<Chunk>, a: nat, parts: seq<seq<byte>>, k: nat,
                          hops: nat): Result<seq<byte>, ExtractError>
    requires a <= 3 + 2 * k <= |s| + a && k <= |parts|
  {
    Walk(ex, reader, spent, s[3 + 2 * k - a..], |parts| - k, Concat(parts[..k]), hops)
  }

  /** Across one revealed leg, from index k to index kb, the walk collects parts k to kb. */
  lemma {:induction false} LegWalk(reader: Reader, ex: Explorer, spent: Option<TxId>, s: seq<Chunk>, e: seq<Chunk>, parts: seq<seq<byte>>,
                                   a: nat, k: nat, kb: nat, hops: nat)
    requires Indexed(reader, e, parts) && a <= 3 + 2 * k <= 3 + 2 * kb <= |e|
    requires |s| >= 3 + 2 * kb - a && s[..3 + 2 * kb - a] == e[a..3 + 2 * kb]
    ensures kb <= |parts|
    ensures WalkFrom(reader, ex, spent, s, a, parts, k, hops) == WalkFrom(reader, ex, spent, s, a, parts, kb, hops)
    decreases kb - k
  {
    if k < kb {
      PairStep(reader, ex, spent, s, e, parts, a, 3 + 2 * kb, k, hops);
      LegWalk(reader, ex, spent, s, e, parts, a, k + 1, kb, hops);
    }
  }

  /** Inside a revealed leg, the walk takes index k and part k and moves on by two chunks. */
  lemma PairStep(reader: Reader, ex: Explorer, spent: Option<TxId>, s: seq<Chunk>, e: seq<Chunk>, parts: seq<seq<byte>>,
                 a: nat, b: nat, k: nat, hops: nat)
    requires a <= 3 + 2 * k && 5 + 2 * k <= b <= |e| && |s| >= b - a && s[..b - a] == e[a..b] && Indexed(reader, e, parts)
    ensures k < |parts|
    ensures WalkFrom(reader, ex, spent, s, a, parts, k, hops) == WalkFrom(reader, ex, spent, s, a, parts, k + 1, hops)
  {
    var c := 3 + 2 * k;
    var chunks := s[c - a..];
    assert IndexedAt(reader, e, parts, k);
    assert chunks[0] == s[..b - a][c - a] == e[c];
    assert chunks[1] == s[..b - a][c - a + 1] == e[c + 1];
    assert chunks[2..] == s[c + 2 - a..];
    ConcatSnoc(parts, k);
  }

  lemma ConcatSnoc(parts: seq<seq<byte>>, k: nat)
    requires k < |parts|
    ensures Concat(parts[..k + 1]) == Concat(parts[..k]) + parts[k]
  {
    assert parts[..k + 1] == parts[..k] + [parts[k]];
    ConcatAppend(parts[..k], [parts[k]]);
    assert Concat([parts[k]]) == parts[k] + Concat([parts[k]][1..]);
  }

  /** The header of the first reveal: 'ord', the count, a non-empty content type; the walk starts after it. */
  lemma ExtractStart(reader: Reader, ex: Explorer, id: TxId, contentType: seq<byte>, n: nat, hops: nat)
    requires id in ex && |ex[id].scriptSig| >= 3 && n <= MAX_PUSHDATA2 && |contentType| > 0
    requires reader.Corrected? || n < 256
    requires ex[id].scriptSig[..3] == [BufferToChunk(ORD), NumberToChunk(n), BufferToChunk(contentType)]
    ensures var w := Walk(ex, reader, ex[id].spentBy, ex[id].scriptSig[3..], n, [], hops);
            w.Ok? ==> ExtractSpec(ex, reader, id, hops) == Ok(Doginal(contentType, w.value))
  {
    var s := ex[id].scriptSig;
    assert s[0] == BufferToChunk(ORD) && s[1] == NumberToChunk(n) && s[2] == BufferToChunk(contentType);
    ReadBack(reader, n);
  }

  /**
   * In a chained layout the first reveal starts with the envelope's header,
   * and the walk from after it collects all the parts.
   */
  lemma FirstRevealWalk(reader: Reader, ex: Explorer, ids: seq<TxId>, e: seq<Chunk>, parts: seq<seq<byte>>, offs: seq<nat>, hops: nat)
    requires Cuts(e, offs) && Indexed(reader, e, parts) && |offs| == |ids| + 1 && Chained(reader, ex, ids, e, offs)
    requires hops + 1 >= |ids|
    ensures ids[0] in ex && |ex[ids[0]].scriptSig| >= 3 && ex[ids[0]].scriptSig[..3] == e[..3]
    ensures Walk(ex, reader, ex[ids[0]].spentBy, ex[ids[0]].scriptSig[3..], |parts|, [], hops) == Ok(Concat(parts))
  {
    LegAt(reader, ex, ids, e, offs, 0);
    var s := ex[ids[0]].scriptSig;
    assert e[offs[0]..offs[1]] == e[..offs[1]];
    SamePrefix(s, e, offs[1], 3);
    WalkLegs(reader, ex, ids, e, parts, offs, 0, 0, hops);
    assert parts[..0] == [] && Concat(parts[..0]) == [];
  }

  lemma SamePrefix(s: seq<Chunk>, e: seq<Chunk>, m: nat, n: nat)
    requires n <= m <= |s| && m <= |e| && s[..m] == e[..m]
    ensures s[..n] == e[..n]
  {
    assert s[..n] == s[..m][..n];
    assert e[..n] == e[..m][..n];
  }

  lemma {:induction false} FlattenAppend(a: seq<seq<Chunk>>, b: seq<seq<Chunk>>)
    ensures Flatten(a + b) == Flatten(a) + Flatten(b)
    decreases |a|
  {
    if a == [] {
      assert a + b == b;
    } else {
      assert (a + b)[1..] == a[1..] + b;
      FlattenAppend(a[1..], b);
    }
  }

  /** The offsets at which the legs cut their concatenation. */
  function Offsets(legs: seq<seq<Chunk>>): (offs: seq<nat>)
    ensures |offs| == |legs| + 1
  {
    seq(|legs| + 1, i requires 0 <= i <= |legs| => |Flatten(legs[..i])|)
  }

  /** Leg i is the slice of the concatenation between offsets i and i+1. */
  lemma OffsetsCut(legs: seq<seq<Chunk>>, i: nat)
    requires i < |legs|
    ensures Offsets(legs)[i + 1] == Offsets(legs)[i] + |legs[i]| <= |Flatten(legs)|
    ensures Flatten(legs)[Offsets(legs)[i]..Offsets(legs)[i + 1]] == legs[i]
  {
    var pre, post := legs[..i], legs[i + 1..];
    assert legs[..i + 1] == pre + [legs[i]];
    assert legs == (pre + [legs[i]]) + post;
    FlattenAppend(pre, [legs[i]]);
    FlattenAppend(pre + [legs[i]], post);
    assert Flatten([legs[i]]) == legs[i] + Flatten([]);
  }

  lemma OffsetsEnds(legs: seq<seq<Chunk>>)
    ensures Offsets(legs)[0] == 0 && Offsets(legs)[|legs|] == |Flatten(legs)|
  {
    assert legs[..0] == [] && legs[..|legs|] == legs;
  }

  /**
   * The planner cannot close the first leg on the marker alone: the count
   * and a content type of at most 520 bytes always fit after it.
   */
  lemma FirstLegHoldsHeader(contentType: seq<byte>, data: seq<byte>)
    requires |contentType| <= MAX_SCRIPT_ELEMENT_SIZE
    ensures |InscriptionLegs(contentType, data)[0]| >= 3
    ensures InscriptionLegs(contentType, data)[0][..3] == Inscription(contentType, Chop(data, MAX_CHUNK_LEN))[..3]
  {
    var e := Inscription(contentType, Chop(data, MAX_CHUNK_LEN));
    var legs := InscriptionLegs(contentType, data);
    EnvelopePlannable(contentType, data);
    LegsShape(e, true);
    LegsConcat(e, true);
    if |legs[0]| < 3 {
      if |legs| == 1 {
        assert false;
      }
      LegsClosed(e, true);
      assert ClosedByOverflow(legs, 0);
      HeaderFits(e, legs[0], legs[1]);
      assert false;
    }
    assert Flatten(legs) == legs[0] + Flatten(legs[1..]);
  }

  /** The marker, the count and a content type of at most 520 bytes serialize well within a leg. */
  lemma HeaderFits(e: seq<Chunk>, first: seq<Chunk>, second: seq<Chunk>)
    requires |e| >= 3 && SerSize(e[0]) + SerSize(e[1]) + SerSize(e[2]) <= MAX_PAYLOAD_LEN
    requires |first| == 1 && |second| >= 2 && e[..3] == first + second[..2]
    ensures ScriptSize(first + second[..2]) <= MAX_PAYLOAD_LEN
  {
    assert first == [e[0]] && second[..2] == [e[1]] + [e[2]];
    ScriptSizeAppend(first, second[..2]);
    ScriptSizeAppend([e[1]], [e[2]]);
    SingleSize(e[0]);
    SingleSize(e[1]);
    SingleSize(e[2]);
  }

  lemma SingleSize(c: Chunk)
    ensures ScriptSize([c]) == SerSize(c)
  {
    assert [c][..0] == [];
  }

  /** The cuts of legs of which the first is odd and holds the header, and the others are even. */
  lemma LegsCuts(legs: seq<seq<Chunk>>)
    requires legs != [] && |legs[0]| >= 3 && |legs[0]| % 2 == 1
    requires forall i :: 0 <= i < |legs| ==> |legs[i]| > 0
    requires forall i :: 1 <= i < |legs| ==> |legs[i]| % 2 == 0
    ensures Cuts(Flatten(legs), Offsets(legs))
  {
    var offs := Offsets(legs);
    var e := Flatten(legs);
    OffsetsEnds(legs);
    forall i | 0 <= i < |legs|
      ensures Cut(offs, e, i)
    {
      OffsetsCut(legs, i);
    }
    OffsetsCut(legs, 0);
    OffsetsOdd(legs);
  }

  /** The envelope of `data` is indexed by its parts, under the reader as written only while they are fewer than 256. */
  lemma EnvelopeIndexed(reader: Reader, contentType: seq<byte>, data: seq<byte>)
    requires |Chop(data, MAX_CHUNK_LEN)| <= MAX_PUSHDATA2
    requires reader.Corrected? || |Chop(data, MAX_CHUNK_LEN)| < 256
    ensures Indexed(reader, Inscription(contentType, Chop(data, MAX_CHUNK_LEN)), Chop(data, MAX_CHUNK_LEN))
  {
    var parts := Chop(data, MAX_CHUNK_LEN);
    ChopSpec(data, MAX_CHUNK_LEN);
    var e := Inscription(contentType, parts);
    assert |e| == 3 + 2 * |parts|;
    forall k | 0 <= k < |parts|
      ensures IndexedAt(reader, e, parts, k)
    {
      BodyIndexed(reader, contentType, parts, k);
    }
  }

  /** Body pair k of an envelope carries index count-1-k, readable by `reader`, then part k. */
  lemma BodyIndexed(reader: Reader, contentType: seq<byte>, parts: seq<seq<byte>>, k: nat)
    requires k < |parts| <= MAX_PUSHDATA2
    requires reader.Corrected? || |parts| < 256
    requires 0 < |parts[k]|
    ensures |Inscription(contentType, parts)| == 3 + 2 * |parts|
    ensures IndexedAt(reader, Inscription(contentType, parts), parts, k)
  {
    var e := Inscription(contentType, parts);
    InscriptionIndex(contentType, parts, k);
    assert e[3 + 2 * k] == BodyChunk(parts, 2 * k);
    BodyPair(parts, k);
    ReadBack(reader, |parts| - 1 - k);
  }

  /** The legs `inscribe` cuts cover the envelope at odd cuts after the header. */
  lemma InscriptionCuts(contentType: seq<byte>, data: seq<byte>)
    requires |contentType| <= MAX_SCRIPT_ELEMENT_SIZE
    ensures Flatten(InscriptionLegs(contentType, data)) == Inscription(contentType, Chop(data, MAX_CHUNK_LEN))
    ensures Cuts(Inscription(contentType, Chop(data, MAX_CHUNK_LEN)), Offsets(InscriptionLegs(contentType, data)))
  {
    var e := Inscription(contentType, Chop(data, MAX_CHUNK_LEN));
    EnvelopePlannable(contentType, data);
    LegsShape(e, true);
    LegsConcat(e, true);
    FirstLegHoldsHeader(contentType, data);
    LegsCuts(InscriptionLegs(contentType, data));
  }

  /** After a first leg of odd length and later legs of even length, every cut is odd. */
  lemma {:induction false} OffsetsOdd(legs: seq<seq<Chunk>>)
    requires legs != [] && |legs[0]| % 2 == 1
    requires forall i :: 1 <= i < |legs| ==> |legs[i]| % 2 == 0
    ensures forall i :: 1 <= i <= |legs| ==> Offsets(legs)[i] % 2 == 1
  {
    var offs := Offsets(legs);
    forall i | 1 <= i <= |legs|
      ensures offs[i] % 2 == 1
    {
      OffsetOdd(legs, i);
    }
  }

  lemma {:induction false} OffsetOdd(legs: seq<seq<Chunk>>, i: nat)
    requires legs != [] && |legs[0]| % 2 == 1
    requires forall i :: 1 <= i < |legs| ==> |legs[i]| % 2 == 0
    requires 1 <= i <= |legs|
    ensures Offsets(legs)[i] % 2 == 1
  {
    OffsetsCut(legs, i - 1);
    var before, after, len := Offsets(legs)[i - 1], Offsets(legs)[i], |legs[i - 1]|;
    assert after == before + len;
    if i == 1 {
      OffsetsEnds(legs);
      assert before == 0 && len % 2 == 1;
    } else {
      OffsetOdd(legs, i - 1);
      assert before % 2 == 1 && len % 2 == 0;
      assert after == 2 * (before / 2 + len / 2) + 1;
    }
  }

  /** The reveals of the chain `inscribe` builds, as the explorer shows them, are chained along the legs' cuts. */
  lemma ChainIsChained(reader: Reader, txs: seq<Tx>, legs: seq<seq<Chunk>>, pubkey: seq<byte>, dest: Address, env: Env, ex: Explorer)
    requires ChainShape(txs, legs, pubkey, dest, env) && Published(ex, txs, env) && LongSignatures(env)
    requires forall i :: 0 <= i < |legs| ==> |legs[i]| > 0
    ensures |legs| == |txs| - 1 && Chained(reader, ex, RevealIds(txs, env), Flatten(legs), Offsets(legs))
  {
    forall i | 0 <= i < |txs| - 1
      ensures ChainedLeg(reader, ex, RevealIds(txs, env), Flatten(legs), Offsets(legs), i)
    {
      ChainedAt(reader, txs, legs, pubkey, dest, env, ex, i);
    }
  }

  lemma ChainedAt(reader: Reader, txs: seq<Tx>, legs: seq<seq<Chunk>>, pubkey: seq<byte>, dest: Address, env: Env, ex: Explorer, i: nat)
    requires ChainShape(txs, legs, pubkey, dest, env) && Published(ex, txs, env) && LongSignatures(env)
    requires i + 1 < |txs| && |legs[i]| > 0
    ensures |legs| == |txs| - 1
    ensures ChainedLeg(reader, ex, RevealIds(txs, env), Flatten(legs), Offsets(legs), i)
  {
    OffsetsCut(legs, i);
    var ids, e, offs := RevealIds(txs, env), Flatten(legs), Offsets(legs);
    RevealsLeg(reader, txs, legs, pubkey, dest, env, ex, i);
    assert Cut(offs, e, i);
    assert ids[i] == env.txHash(txs[i + 1]);
    if i + 1 < |ids| {
      assert ids[i + 1] == env.txHash(txs[i + 2]);
    }
  }

  /** The ids of the reveals, one per leg: every transaction after the first. */
  function RevealIds(txs: seq<Tx>, env: Env): (ids: seq<TxId>)
    requires txs != []
    ensures |ids| == |txs| - 1 && forall i :: 0 <= i < |ids| ==> ids[i] == env.txHash(txs[i + 1])
  {
    seq(|txs| - 1, i requires 0 <= i < |txs| - 1 => env.txHash(txs[i + 1]))
  }

  /**
   * The inscription round trip: for the chain `inscribe` builds, as the
   * explorer shows it, `extract` started at the first reveal returns the
   * content type and the data, provided it may follow one spend per leg
   * after the first. With the corrected reader this holds up to 65535
   * parts; with the reader as written, for fewer than 256 parts
   * (`Extract.AsWrittenExtractDiverges` shows it failing at 256).
   */
  lemma InscriptionRoundTrip(reader: Reader, txs: seq<Tx>, pubkey: seq<byte>, dest: Address, contentType: seq<byte>, data: seq<byte>,
                             env: Env, ex: Explorer, hops: nat)
    requires 0 < |contentType| <= MAX_SCRIPT_ELEMENT_SIZE && |Chop(data, MAX_CHUNK_LEN)| <= MAX_PUSHDATA2
    requires reader.Corrected? || |Chop(data, MAX_CHUNK_LEN)| < 256
    requires ChainShape(txs, InscriptionLegs(contentType, data), pubkey, dest, env)
    requires Published(ex, txs, env) && LongSignatures(env)
    requires hops + 1 >= |InscriptionLegs(contentType, data)|
    ensures ExtractSpec(ex, reader, env.txHash(txs[1]), hops) == Ok(Doginal(contentType, data))
  {
    var parts := Chop(data, MAX_CHUNK_LEN);
    var e := Inscription(contentType, parts);
    var legs := InscriptionLegs(contentType, data);
    InscriptionCuts(contentType, data);
    EnvelopeIndexed(reader, contentType, data);
    EnvelopePlannable(contentType, data);
    LegsShape(e, true);
    ChainIsChained(reader, txs, legs, pubkey, dest, env, ex);
    var ids := RevealIds(txs, env);
    FirstRevealWalk(reader, ex, ids, e, parts, Offsets(legs), hops);
    assert e[..3] == [BufferToChunk(ORD), NumberToChunk(|parts|), BufferToChunk(contentType)];
    ExtractStart(reader, ex, ids[0], contentType, |parts|, hops);
    ChopSpec(data, MAX_CHUNK_LEN);
  }

  /**
   * An empty content type is pushed as a bare OP_0 with no buffer, so
   * `extract` fails on the first reveal of such a chain, whatever the reader
   * and the hop bound: the program cannot read back what `mint` accepted.
   */
  lemma EmptyContentTypeUnreadable(reader: Reader, txs: seq<Tx>, pubkey: seq<byte>, dest: Address, data: seq<byte>,
                                   env: Env, ex: Explorer, hops: nat)
    requires ChainShape(txs, InscriptionLegs([], data), pubkey, dest, env)
    requires Published(ex, txs, env) && LongSignatures(env)
    ensures ExtractSpec(ex, reader, env.txHash(txs[1]), hops) == Err(Malformed)
  {
    var e := Inscription([], Chop(data, MAX_CHUNK_LEN));
    var legs := InscriptionLegs([], data);
    FirstLegHoldsHeader([], data);
    RevealsLeg(reader, txs, legs, pubkey, dest, env, ex, 0);
    var s := ex[env.txHash(txs[1])].scriptSig;
    assert s[..3] == legs[0][..3];
    assert s[0] == e[0] && s[2] == e[2];
  }

  /** Reveal i+1 of the chain shows leg i and then the signature push. */
  lemma RevealsLeg(reader: Reader, txs: seq<Tx>, legs: seq<seq<Chunk>>, pubkey: seq<byte>, dest: Address, env: Env, ex: Explorer, i: nat)
    requires ChainShape(txs, legs, pubkey, dest, env) && Published(ex, txs, env) && LongSignatures(env)
    requires i < |legs|
    ensures var id := env.txHash(txs[i + 1]);
            id in ex && |ex[id].scriptSig| > |legs[i]| && ex[id].scriptSig[..|legs[i]|] == legs[i] &&
            ReadNumber(reader, ex[id].scriptSig[|legs[i]|]).None? &&
            (i + 1 < |legs| ==> ex[id].spentBy == Some(env.txHash(txs[i + 2])))
  {
    assert Reveals(txs, legs, i + 1, pubkey, env) && PublishedAt(ex, txs, env, i + 1);
    var lock := LockScript(pubkey, legs[i]);
    var sig := env.sign(Unsigned(txs[i + 1]), lock);
    var s := UnlockScript(legs[i], sig, lock);
    assert s[..|legs[i]|] == legs[i];
    assert s[|legs[i]|] == BufferToChunk(sig + [SIGHASH_ALL]);
    LongPushIsNotRead(reader, sig + [SIGHASH_ALL]);
  }
}
