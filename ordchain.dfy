/**
 * The older chained layout of index.js (`inscribeOrdChain`): numbers are
 * pushed big-endian, content is cut into 255-byte data chunks under the
 * marker 'ordchain', and the envelope is planned into legs chunk by chunk,
 * bounding the sum of the payload lengths of a leg rather than its
 * serialized size.
 */
module OrdChain {
  import opened Wrappers
  import opened Script
  import opened Envelope
  import opened Planner
  import opened Forge

  /** Largest data chunk of the chained layout. */
  const LEGACY_CHUNK_LEN: nat := 255

  /** Bound on the summed payload lengths of a leg: 520 less 34 and 5 bytes of lock script around it. */
  const LEGACY_PAYLOAD_LEN: nat := MAX_SCRIPT_ELEMENT_SIZE - 34 - 5

  /** The marker 'ordchain' as UTF-8 bytes. */
  const ORDCHAIN: seq<byte> := [0x6f, 0x72, 0x64, 0x63, 0x68, 0x61, 0x69, 0x6e]

  /**
   * The local numberToChunk of index.js: 0 is OP_0, 1..16 are OP_1..OP_16,
   * 17..255 a one-byte push, and from 256 on a two-byte push, high byte
   * first. Buffer.from truncates the fraction n / 256 and keeps it mod 256.
   */
  function LegacyNumberToChunk(n: nat): (c: Chunk)
    ensures c.buf.None? <==> n <= 16
    ensures Len(c) == (if n <= 16 then 0 else if n <= 255 then 1 else 2)
    ensures n > 16 ==> c.opcodenum as int == Len(c)
    ensures n == 0 ==> c.opcodenum == OP_0
    ensures 1 <= n <= 16 ==> c.opcodenum as int == 80 + n
  {
    Chunk(if n == 0 then OP_0 else if n <= 16 then 80 + n else if n <= 255 then 1 else 2,
          if n <= 16 then None
          else if n < 256 then Some([n])
          else Some([(n / 256) % 256, n % 256]))
  }

  /**
   * A reader for the big-endian layout: a small-number opcode, or a one- or
   * two-byte push read high byte first. None when the chunk is not a number.
   */
  function BigEndianNumber(c: Chunk): Option<nat> {
    if c.opcodenum == OP_0 then Some(0)
    else if 80 < c.opcodenum <= OP_16 then Some(c.opcodenum as int - 80)
    else if c.opcodenum == 1 && Len(c) == 1 then Some(Payload(c)[0] as int)
    else if c.opcodenum == 2 && Len(c) == 2 then Some(Payload(c)[0] as int * 256 + Payload(c)[1] as int)
    else None
  }

  /** The big-endian codec round-trips on every value two bytes can hold. */
  lemma LegacyNumberRoundTrip(n: nat)
    requires n <= MAX_PUSHDATA2
    ensures BigEndianNumber(LegacyNumberToChunk(n)) == Some(n)
  {
    if n >= 256 {
      assert Payload(LegacyNumberToChunk(n)) == [n / 256, n % 256];
    }
  }

  /**
   * The two layouts agree below 128: from 128 to 255 index.js pushes one
   * byte where doginals.js pushes two, and from 256 on the little-endian
   * reader of doginals.js reads the legacy bytes swapped.
   */
  lemma LegacyAgainstCurrent(n: nat)
    requires n <= MAX_PUSHDATA2
    ensures n < 128 ==> LegacyNumberToChunk(n) == NumberToChunk(n)
    ensures 128 <= n < 256 ==> LegacyNumberToChunk(n) != NumberToChunk(n)
    ensures 256 <= n ==> ChunkToNumber(LegacyNumberToChunk(n)) == Some((n % 256) * 256 + n / 256)
  {
    if 256 <= n {
      assert Payload(LegacyNumberToChunk(n)) == [n / 256, n % 256];
    }
  }

  /** The data chunks of `data`: one push per 255-byte slice. */
  function DataChunks(data: seq<byte>): (cs: seq<Chunk>)
    ensures |cs| == |Chop(data, LEGACY_CHUNK_LEN)|
  {
    var parts := Chop(data, LEGACY_CHUNK_LEN);
    seq(|parts|, i requires 0 <= i < |parts| => BufferToChunk(parts[i]))
  }

  /** The payloads of a sequence of chunks. */
  function Payloads(cs: seq<Chunk>): (r: seq<seq<byte>>)
    ensures |r| == |cs|
  {
    seq(|cs|, i requires 0 <= i < |cs| => Payload(cs[i]))
  }

  /**
   * Every data chunk is a push of 1 to 255 bytes, and their payloads,
   * in order, are `data` again.
   */
  lemma DataChunksSpec(data: seq<byte>)
    ensures forall i :: 0 <= i < |DataChunks(data)| ==> 1 <= Len(DataChunks(data)[i]) <= LEGACY_CHUNK_LEN
    ensures Concat(Payloads(DataChunks(data))) == data
  {
    var cs := DataChunks(data);
    var parts := Chop(data, LEGACY_CHUNK_LEN);
    ChopSpec(data, LEGACY_CHUNK_LEN);
    var pays := Payloads(cs);
    assert pays == parts by {
      forall i | 0 <= i < |cs| ensures pays[i] == parts[i] {
        assert cs[i] == BufferToChunk(parts[i]);
      }
    }
  }

  /** The data loop of inscribeOrdChain: slice off at most 255 bytes and push them until nothing is left. */
  method SplitChunks(data: seq<byte>) returns (chunks: seq<Chunk>)
    ensures chunks == DataChunks(data)
  {
    chunks := [];
    ghost var parts: seq<seq<byte>> := [];
    var rest := data;
    while |rest| > 0
      invariant parts + Chop(rest, LEGACY_CHUNK_LEN) == Chop(data, LEGACY_CHUNK_LEN)
      invariant |chunks| == |parts| && forall i :: 0 <= i < |parts| ==> chunks[i] == BufferToChunk(parts[i])
      decreases |rest|
    {
      var part := rest[..if LEGACY_CHUNK_LEN < |rest| then LEGACY_CHUNK_LEN else |rest|];
      ChopStep(rest, LEGACY_CHUNK_LEN);
      assert (parts + [part]) + Chop(rest[|part|..], LEGACY_CHUNK_LEN) == parts + Chop(rest, LEGACY_CHUNK_LEN);
      chunks := chunks + [BufferToChunk(part)];
      parts := parts + [part];
      rest := rest[|part|..];
    }
    assert parts + [] == parts;
    forall i | 0 <= i < |chunks|
      ensures chunks[i] == DataChunks(data)[i]
    {
    }
  }

  /** Body chunk i of the chained envelope: even positions the descending index, odd ones the data chunk. */
  function OrdChainBody(chunks: seq<Chunk>, i: nat): Chunk
    requires i < 2 * |chunks|
  {
    if i % 2 == 0 then LegacyNumberToChunk(|chunks| - 1 - i / 2) else chunks[i / 2]
  }

  /** The chained envelope: 'ordchain', count, content type, then (count-1-i, chunk i) for every data chunk. */
  function OrdChainInscription(contentType: seq<byte>, chunks: seq<Chunk>): (s: seq<Chunk>)
    ensures |s| == 3 + 2 * |chunks|
  {
    [BufferToChunk(ORDCHAIN), LegacyNumberToChunk(|chunks|), BufferToChunk(contentType)]
    + seq(2 * |chunks|, i requires 0 <= i < 2 * |chunks| => OrdChainBody(chunks, i))
  }

  /** The envelope loop of inscribeOrdChain. */
  method BuildOrdChain(contentType: seq<byte>, chunks: seq<Chunk>) returns (s: seq<Chunk>)
    ensures s == OrdChainInscription(contentType, chunks)
  {
    s := [BufferToChunk(ORDCHAIN), LegacyNumberToChunk(|chunks|), BufferToChunk(contentType)];
    var i := 0;
    while i < |chunks|
      invariant 0 <= i <= |chunks|
      invariant |s| == 3 + 2 * i
      invariant s[..3] == OrdChainInscription(contentType, chunks)[..3]
      invariant forall j :: 3 <= j < |s| ==> s[j] == OrdChainBody(chunks, j - 3)
    {
      s := s + [LegacyNumberToChunk(|chunks| - i - 1), chunks[i]];
      i := i + 1;
    }
  }

  /** The pushed value of the index chunk of body pair k, read big-endian. */
  lemma OrdChainIndex(contentType: seq<byte>, chunks: seq<Chunk>, k: nat)
    requires k < |chunks| <= MAX_PUSHDATA2
    ensures BigEndianNumber(OrdChainInscription(contentType, chunks)[3 + 2 * k]) == Some(|chunks| - 1 - k)
    ensures OrdChainInscription(contentType, chunks)[4 + 2 * k] == chunks[k]
  {
    var s := OrdChainInscription(contentType, chunks);
    assert s[3 + 2 * k] == OrdChainBody(chunks, 2 * k);
    assert s[4 + 2 * k] == OrdChainBody(chunks, 2 * k + 1);
    LegacyNumberRoundTrip(|chunks| - 1 - k);
  }

  /** The data pushes of the chained envelope, in order, are `data`. */
  lemma OrdChainData(contentType: seq<byte>, data: seq<byte>)
    requires |DataChunks(data)| <= MAX_PUSHDATA2
    ensures Concat(DataPushes(OrdChainInscription(contentType, DataChunks(data)), |DataChunks(data)|)) == data
  {
    var cs := DataChunks(data);
    var s := OrdChainInscription(contentType, cs);
    DataChunksSpec(data);
    var pays := Payloads(cs);
    assert DataPushes(s, |cs|) == pays by {
      forall k | 0 <= k < |cs|
        ensures DataPushes(s, |cs|)[k] == pays[k]
      {
        OrdChainIndex(contentType, cs, k);
      }
    }
  }

  /**
   * The chained envelope describes its content: the header reads back as
   * 'ordchain', the chunk count and the content type, the indices count
   * down strictly from count-1 to 0, and the data pushes are `data`.
   */
  lemma OrdChainDescribesContent(contentType: seq<byte>, data: seq<byte>)
    requires |DataChunks(data)| <= MAX_PUSHDATA2
    ensures var cs := DataChunks(data);
            var s := OrdChainInscription(contentType, cs);
            Payload(s[0]) == ORDCHAIN && BigEndianNumber(s[1]) == Some(|cs|) && Payload(s[2]) == contentType &&
            (forall k :: 0 <= k < |cs| ==> BigEndianNumber(s[3 + 2 * k]) == Some(|cs| - 1 - k)) &&
            Concat(DataPushes(s, |cs|)) == data
  {
    var cs := DataChunks(data);
    LegacyNumberRoundTrip(|cs|);
    forall k | 0 <= k < |cs|
      ensures BigEndianNumber(OrdChainInscription(contentType, cs)[3 + 2 * k]) == Some(|cs| - 1 - k)
    {
      OrdChainIndex(contentType, cs, k);
    }
    OrdChainData(contentType, data);
  }

  /** Sum of the payload lengths, the `length` accumulator of the planner. */
  function LenSum(s: seq<Chunk>): nat {
    if s == [] then 0 else Len(s[0]) + LenSum(s[1..])
  }

  lemma {:induction false} LenSumAppend(a: seq<Chunk>, b: seq<Chunk>)
    ensures LenSum(a + b) == LenSum(a) + LenSum(b)
    decreases |a|
  {
    if a == [] {
      assert a + b == b;
    } else {
      assert (a + b)[1..] == a[1..] + b;
      LenSumAppend(a[1..], b);
    }
  }

  /**
   * The inner loop of the planner: move chunks into the leg while the
   * accumulated `length` plus the next chunk's `len` stays within the bound.
   */
  function Take(rest: seq<Chunk>, length: nat): (seq<Chunk>, seq<Chunk>)
    decreases |rest|
  {
    if rest == [] || length + Len(rest[0]) > LEGACY_PAYLOAD_LEN then ([], rest)
    else
      var (leg, left) := Take(rest[1..], length + Len(rest[0]));
      ([rest[0]] + leg, left)
  }

  /**
   * What one pass of the inner loop does: it splits `rest` in two; it stays
   * within the bound; it stops only at the end or when the next chunk would
   * overflow; and it takes at least the first chunk when that one fits.
   */
  lemma {:induction false} TakeSpec(rest: seq<Chunk>, length: nat)
    requires length <= LEGACY_PAYLOAD_LEN
    ensures Take(rest, length).0 + Take(rest, length).1 == rest
    ensures length + LenSum(Take(rest, length).0) <= LEGACY_PAYLOAD_LEN
    ensures Take(rest, length).1 != [] ==>
              length + LenSum(Take(rest, length).0) + Len(Take(rest, length).1[0]) > LEGACY_PAYLOAD_LEN
    ensures rest != [] && length + Len(rest[0]) <= LEGACY_PAYLOAD_LEN ==> Take(rest, length).0 != []
    decreases |rest|
  {
    if rest != [] && length + Len(rest[0]) <= LEGACY_PAYLOAD_LEN {
      TakeSpec(rest[1..], length + Len(rest[0]));
      var (leg, left) := Take(rest[1..], length + Len(rest[0]));
      assert [rest[0]] + leg + left == [rest[0]] + (leg + left);
      assert ([rest[0]] + leg)[1..] == leg;
    } else {
      assert LenSum([]) == 0;
    }
  }

  /** Every chunk fits in a leg on its own: what the planner needs to make progress. */
  ghost predicate AllFit(rest: seq<Chunk>) {
    forall i :: 0 <= i < |rest| ==> Len(rest[i]) <= LEGACY_PAYLOAD_LEN
  }

  /** The legs of the chunk-by-chunk planner, given that every chunk fits. */
  function LegacyLegs(rest: seq<Chunk>): seq<seq<Chunk>>
    requires AllFit(rest)
    decreases |rest|
  {
    if rest == [] then []
    else
      TakeSpec(rest, 0);
      var (leg, left) := Take(rest, 0);
      assert forall i :: 0 <= i < |left| ==> left[i] == rest[|leg| + i];
      [leg] + LegacyLegs(left)
  }

  /**
   * The planner's legs are non-empty, each within the bound, each closed
   * only because the next leg's first chunk would overflow it, and together
   * they are the envelope again.
   */
  lemma {:induction false} LegacyLegsSpec(rest: seq<Chunk>)
    requires AllFit(rest)
    ensures Flatten(LegacyLegs(rest)) == rest
    ensures forall i :: 0 <= i < |LegacyLegs(rest)| ==>
              LegacyLegs(rest)[i] != [] && LenSum(LegacyLegs(rest)[i]) <= LEGACY_PAYLOAD_LEN
    ensures forall i :: 0 <= i < |LegacyLegs(rest)| - 1 ==>
              LenSum(LegacyLegs(rest)[i]) + Len(LegacyLegs(rest)[i + 1][0]) > LEGACY_PAYLOAD_LEN
    decreases |rest|
  {
    if rest != [] {
      TakeSpec(rest, 0);
      var (leg, left) := Take(rest, 0);
      assert forall i :: 0 <= i < |left| ==> left[i] == rest[|leg| + i];
      assert LegacyLegs(rest) == [leg] + LegacyLegs(left);
      LegacyLegsSpec(left);
      LegsCons(leg, LegacyLegs(left), left);
    }
  }

  /** A first leg that the next chunk would overflow, put before legs that cover the rest, covers it all. */
  lemma LegsCons(leg: seq<Chunk>, tail: seq<seq<Chunk>>, left: seq<Chunk>)
    requires leg != [] && LenSum(leg) <= LEGACY_PAYLOAD_LEN
    requires left != [] ==> LenSum(leg) + Len(left[0]) > LEGACY_PAYLOAD_LEN
    requires Flatten(tail) == left
    requires forall i :: 0 <= i < |tail| ==> tail[i] != [] && LenSum(tail[i]) <= LEGACY_PAYLOAD_LEN
    requires forall i :: 0 <= i < |tail| - 1 ==> LenSum(tail[i]) + Len(tail[i + 1][0]) > LEGACY_PAYLOAD_LEN
    ensures Flatten([leg] + tail) == leg + left
    ensures forall i :: 0 <= i < |tail| + 1 ==> ([leg] + tail)[i] != [] && LenSum(([leg] + tail)[i]) <= LEGACY_PAYLOAD_LEN
    ensures forall i :: 0 <= i < |tail| ==>
              LenSum(([leg] + tail)[i]) + Len(([leg] + tail)[i + 1][0]) > LEGACY_PAYLOAD_LEN
  {
    var legs := [leg] + tail;
    assert legs[1..] == tail;
    forall i | 0 <= i < |tail|
      ensures LenSum(legs[i]) + Len(legs[i + 1][0]) > LEGACY_PAYLOAD_LEN
    {
      if i == 0 {
        FlattenHead(tail);
      } else {
        assert legs[i] == tail[i - 1] && legs[i + 1] == tail[i];
      }
    }
  }

  /** The first chunk of the first non-empty leg is the first chunk of the flattened legs. */
  lemma FlattenHead(legs: seq<seq<Chunk>>)
    requires legs != [] && legs[0] != []
    ensures Flatten(legs) != [] && Flatten(legs)[0] == legs[0][0]
  {
    assert Flatten(legs) == legs[0] + Flatten(legs[1..]);
  }

  /** The inner loop of the planner, one chunk at a time. */
  method TakeChunks(rest: seq<Chunk>) returns (chunks: seq<Chunk>, left: seq<Chunk>)
    ensures (chunks, left) == Take(rest, 0)
  {
    chunks, left := [], rest;
    var length := 0;
    assert chunks + Take(left, length).0 == Take(rest, 0).0;
    while left != []
      invariant length == LenSum(chunks) && length <= LEGACY_PAYLOAD_LEN
      invariant Take(rest, 0) == (chunks + Take(left, length).0, Take(left, length).1)
      decreases |left|
    {
      if length + Len(left[0]) > LEGACY_PAYLOAD_LEN {
        break;
      }
      LenSumAppend(chunks, [left[0]]);
      assert LenSum([left[0]]) == Len(left[0]);
      assert chunks + ([left[0]] + Take(left[1..], length + Len(left[0])).0) ==
             (chunks + [left[0]]) + Take(left[1..], length + Len(left[0])).0;
      chunks := chunks + [left[0]];
      length := length + Len(left[0]);
      left := left[1..];
    }
    assert Take(left, length).0 == [];
    assert chunks + [] == chunks;
  }

  /** The outer loop of the planner: one leg per pass until the envelope is used up. */
  method LegacyPlan(inscription: seq<Chunk>) returns (legs: seq<seq<Chunk>>)
    requires AllFit(inscription)
    ensures legs == LegacyLegs(inscription)
  {
    legs := [];
    var rest := inscription;
    while rest != []
      invariant AllFit(rest) && legs + LegacyLegs(rest) == LegacyLegs(inscription)
      decreases |rest|
    {
      var chunks, left := TakeChunks(rest);
      TakeSpec(rest, 0);
      assert forall i :: 0 <= i < |left| ==> left[i] == rest[|chunks| + i];
      assert legs + LegacyLegs(rest) == (legs + [chunks]) + LegacyLegs(left);
      legs := legs + [chunks];
      rest := left;
    }
  }

  /**
   * The planner as written in index.js pushes a leg on every pass of the
   * outer loop even when the inner loop took nothing: a chunk longer than
   * the bound at the head of the envelope leaves the state unchanged, so
   * the loop never ends.
   */
  lemma LegacyPlannerStalls(rest: seq<Chunk>)
    requires rest != [] && Len(rest[0]) > LEGACY_PAYLOAD_LEN
    ensures Take(rest, 0) == ([], rest)
  {
  }

  /**
   * Such a chunk is reached: a content type of 482 to 520 bytes, which
   * `mint` admits, gives a first leg of 'ordchain' and the count, after
   * which the planner is stuck on the content type for good.
   */
  lemma OrdChainStalls(contentType: seq<byte>, data: seq<byte>)
    requires LEGACY_PAYLOAD_LEN < |contentType| <= MAX_SCRIPT_ELEMENT_SIZE
    ensures var s := OrdChainInscription(contentType, DataChunks(data));
            Take(s, 0) == (s[..2], s[2..]) && Take(s[2..], 0) == ([], s[2..]) && Take(s[2..], 0).0 == []
  {
    var s := OrdChainInscription(contentType, DataChunks(data));
    var a, b := Len(s[0]), Len(s[0]) + Len(s[1]);
    assert a == 8 && b <= 10 && Len(s[2]) == |contentType|;
    assert s[2..][0] == s[2];
    assert Take(s[2..], b) == ([], s[2..]);
    assert s[1..][1..] == s[2..] && s[1..][0] == s[1];
    assert Take(s[1..], a) == ([s[1]] + Take(s[2..], b).0, Take(s[2..], b).1);
    assert s[1..] != [] && s[0] == s[..][0];
    assert Take(s, 0) == ([s[0]] + Take(s[1..], a).0, Take(s[1..], a).1);
    assert [s[0]] + ([s[1]] + Take(s[2..], b).0) == s[..2];
  }

  /** With a content type of at most 481 bytes every chunk of the chained envelope fits. */
  lemma OrdChainFits(contentType: seq<byte>, data: seq<byte>)
    requires |contentType| <= LEGACY_PAYLOAD_LEN
    ensures AllFit(OrdChainInscription(contentType, DataChunks(data)))
  {
    var cs := DataChunks(data);
    var s := OrdChainInscription(contentType, cs);
    DataChunksSpec(data);
    forall i | 0 <= i < |s|
      ensures Len(s[i]) <= LEGACY_PAYLOAD_LEN
    {
      if i >= 3 {
        assert s[i] == OrdChainBody(cs, i - 3);
      }
    }
  }
}
