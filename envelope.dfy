/**
 * The inscription envelope of doginals.js: the content is cut into parts of
 * at most MAX_CHUNK_LEN bytes and laid out as
 *   'ord', part count, content type, (count-1, part 0), ..., (0, part count-1).
 */
module Envelope {
  import opened Wrappers
  import opened Script

  const MAX_CHUNK_LEN: nat := 240

  /** The marker 'ord' as UTF-8 bytes. */
  const ORD: seq<byte> := [0x6f, 0x72, 0x64]

  /** Consecutive slices of `data`, each `size` long except possibly the last. */
  function Chop(data: seq<byte>, size: nat): seq<seq<byte>>
    requires size > 0
    decreases |data|
  {
    if |data| == 0 then []
    else
      var n := if size < |data| then size else |data|;
      [data[..n]] + Chop(data[n..], size)
  }

  /** Concatenation of byte strings, in order. */
  function Concat(parts: seq<seq<byte>>): seq<byte> {
    if parts == [] then [] else parts[0] + Concat(parts[1..])
  }

  lemma {:induction false} ConcatAppend(a: seq<seq<byte>>, b: seq<seq<byte>>)
    ensures Concat(a + b) == Concat(a) + Concat(b)
    decreases |a|
  {
    if a == [] {
      assert a + b == b;
    } else {
      assert (a + b)[1..] == a[1..] + b;
      ConcatAppend(a[1..], b);
    }
  }

  /**
   * Splitting is complete and bounded: the parts are non-empty, at most
   * `size` bytes, all but the last exactly `size`, and together they are
   * `data` again.
   */
  lemma {:induction false} ChopSpec(data: seq<byte>, size: nat)
    requires size > 0
    ensures Concat(Chop(data, size)) == data
    ensures forall i :: 0 <= i < |Chop(data, size)| ==> 0 < |Chop(data, size)[i]| <= size
    ensures forall i :: 0 <= i < |Chop(data, size)| - 1 ==> |Chop(data, size)[i]| == size
    decreases |data|
  {
    if |data| > 0 {
      var n := if size < |data| then size else |data|;
      var tail := Chop(data[n..], size);
      assert Chop(data, size) == [data[..n]] + tail;
      ChopSpec(data[n..], size);
      assert data[..n] + data[n..] == data;
      assert Concat([data[..n]] + tail) == data[..n] + Concat(tail);
      if n < size {
        assert data[n..] == [] && tail == [];
      }
    }
  }

  /** One slice off the front. */
  lemma ChopStep(data: seq<byte>, size: nat)
    requires size > 0 && |data| > 0
    ensures var n := if size < |data| then size else |data|;
            Chop(data, size) == [data[..n]] + Chop(data[n..], size)
  {
  }

  /** Every part is non-empty and at most `size` bytes. */
  lemma ChopPart(data: seq<byte>, size: nat, k: nat)
    requires size > 0 && k < |Chop(data, size)|
    ensures 0 < |Chop(data, size)[k]| <= size
  {
    ChopSpec(data, size);
  }

  /** The number of parts is the ceiling of |data| / size. */
  lemma {:induction false} ChopCount(data: seq<byte>, size: nat)
    requires size > 0
    ensures |Chop(data, size)| * size >= |data|
    ensures |data| > (|Chop(data, size)| - 1) * size
    decreases |data|
  {
    if |data| > 0 {
      var n := if size < |data| then size else |data|;
      var m := |Chop(data[n..], size)|;
      assert |Chop(data, size)| == m + 1;
      ChopCount(data[n..], size);
      assert (m + 1) * size == m * size + size;
      assert m * size == (m - 1) * size + size;
    }
  }

  /**
   * The part loop of inscribe: slice off min(size, remaining) bytes until
   * nothing is left.
   */
  method SplitParts(data: seq<byte>, size: nat) returns (parts: seq<seq<byte>>)
    requires size > 0
    ensures parts == Chop(data, size)
  {
    parts := [];
    var rest := data;
    while |rest| > 0
      invariant parts + Chop(rest, size) == Chop(data, size)
      decreases |rest|
    {
      var part := rest[..if size < |rest| then size else |rest|];
      rest := rest[|part|..];
      parts := parts + [part];
    }
  }

  /** The k-th body chunk: even positions carry the descending index, odd ones the part. */
  function BodyChunk(parts: seq<seq<byte>>, i: nat): Chunk
    requires i < 2 * |parts|
  {
    if i % 2 == 0 then NumberToChunk(|parts| - 1 - i / 2) else BufferToChunk(parts[i / 2])
  }

  /** Pair k of the body: index count-1-k, then part k. */
  lemma BodyPair(parts: seq<seq<byte>>, k: nat)
    requires k < |parts|
    ensures BodyChunk(parts, 2 * k) == NumberToChunk(|parts| - 1 - k)
    ensures BodyChunk(parts, 2 * k + 1) == BufferToChunk(parts[k])
  {
    assert (2 * k) % 2 == 0 && (2 * k) / 2 == k;
    assert (2 * k + 1) % 2 == 1 && (2 * k + 1) / 2 == k;
  }

  /** The whole envelope as inscribe pushes it. */
  function Inscription(contentType: seq<byte>, parts: seq<seq<byte>>): seq<Chunk> {
    [BufferToChunk(ORD), NumberToChunk(|parts|), BufferToChunk(contentType)]
    + seq(2 * |parts|, i requires 0 <= i < 2 * |parts| => BodyChunk(parts, i))
  }

  /** Body chunk j sits at position 3 + j of the envelope. */
  lemma InscriptionAt(contentType: seq<byte>, parts: seq<seq<byte>>, j: nat)
    requires j < 2 * |parts|
    ensures |Inscription(contentType, parts)| == 3 + 2 * |parts|
    ensures Inscription(contentType, parts)[3 + j] == BodyChunk(parts, j)
  {
  }

  /** The envelope-building loop of inscribe. */
  method BuildInscription(contentType: seq<byte>, parts: seq<seq<byte>>) returns (chunks: seq<Chunk>)
    ensures chunks == Inscription(contentType, parts)
  {
    chunks := [BufferToChunk(ORD), NumberToChunk(|parts|), BufferToChunk(contentType)];
    var n := 0;
    while n < |parts|
      invariant 0 <= n <= |parts|
      invariant |chunks| == 3 + 2 * n
      invariant chunks[..3] == Inscription(contentType, parts)[..3]
      invariant forall i :: 3 <= i < |chunks| ==> chunks[i] == BodyChunk(parts, i - 3)
    {
      chunks := chunks + [NumberToChunk(|parts| - n - 1), BufferToChunk(parts[n])];
      n := n + 1;
    }
  }

  /** The pushed value of the index chunk of body pair k. */
  lemma InscriptionIndex(contentType: seq<byte>, parts: seq<seq<byte>>, k: nat)
    requires k < |parts| <= MAX_PUSHDATA2
    ensures |Inscription(contentType, parts)| == 3 + 2 * |parts|
    ensures ChunkToNumber(Inscription(contentType, parts)[3 + 2 * k]) == Some(|parts| - 1 - k)
    ensures Inscription(contentType, parts)[4 + 2 * k] == BufferToChunk(parts[k])
  {
    NumberRoundTrip(|parts| - 1 - k);
  }

  /** The data pushes of an envelope, in order. */
  function DataPushes(s: seq<Chunk>, count: nat): (r: seq<seq<byte>>)
    requires |s| >= 3 + 2 * count
    ensures |r| == count
  {
    seq(count, k requires 0 <= k < count => Payload(s[4 + 2 * k]))
  }

  /**
   * The envelope describes itself: the header reads back as the marker,
   * the part count and the content type; the index chunks count down
   * strictly from count-1 to 0; and the data pushes, in order, are exactly
   * the content.
   */
  lemma InscriptionDescribesContent(contentType: seq<byte>, data: seq<byte>, parts: seq<seq<byte>>)
    requires parts == Chop(data, MAX_CHUNK_LEN)
    requires |parts| <= MAX_PUSHDATA2
    ensures |Inscription(contentType, parts)| == 3 + 2 * |parts|
    ensures Payload(Inscription(contentType, parts)[0]) == ORD
    ensures ChunkToNumber(Inscription(contentType, parts)[1]) == Some(|parts|)
    ensures Payload(Inscription(contentType, parts)[2]) == contentType
    ensures forall k :: 0 <= k < |parts| ==> ChunkToNumber(Inscription(contentType, parts)[3 + 2 * k]) == Some(|parts| - 1 - k)
    ensures Concat(DataPushes(Inscription(contentType, parts), |parts|)) == data
  {
    InscriptionHeader(contentType, parts);
    InscriptionIndexes(contentType, parts);
    InscriptionData(contentType, data, parts);
  }

  lemma InscriptionHeader(contentType: seq<byte>, parts: seq<seq<byte>>)
    requires |parts| <= MAX_PUSHDATA2
    ensures |Inscription(contentType, parts)| == 3 + 2 * |parts|
    ensures Payload(Inscription(contentType, parts)[0]) == ORD
    ensures ChunkToNumber(Inscription(contentType, parts)[1]) == Some(|parts|)
    ensures Payload(Inscription(contentType, parts)[2]) == contentType
  {
    NumberRoundTrip(|parts|);
  }

  lemma InscriptionIndexes(contentType: seq<byte>, parts: seq<seq<byte>>)
    requires |parts| <= MAX_PUSHDATA2
    ensures |Inscription(contentType, parts)| == 3 + 2 * |parts|
    ensures forall k :: 0 <= k < |parts| ==> ChunkToNumber(Inscription(contentType, parts)[3 + 2 * k]) == Some(|parts| - 1 - k)
  {
    var s := Inscription(contentType, parts);
    forall k | 0 <= k < |parts|
      ensures ChunkToNumber(s[3 + 2 * k]) == Some(|parts| - 1 - k)
    {
      InscriptionIndex(contentType, parts, k);
    }
  }

  lemma InscriptionData(contentType: seq<byte>, data: seq<byte>, parts: seq<seq<byte>>)
    requires parts == Chop(data, MAX_CHUNK_LEN)
    requires |parts| <= MAX_PUSHDATA2
    ensures |Inscription(contentType, parts)| == 3 + 2 * |parts|
    ensures Concat(DataPushes(Inscription(contentType, parts), |parts|)) == data
  {
    var s := Inscription(contentType, parts);
    assert DataPushes(s, |parts|) == parts by {
      forall k | 0 <= k < |parts| ensures DataPushes(s, |parts|)[k] == parts[k] {
        InscriptionIndex(contentType, parts, k);
      }
    }
    ChopSpec(data, MAX_CHUNK_LEN);
  }
}
