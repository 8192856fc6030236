/**
 * Script chunks as bitcore-lib-doge represents them ({opcodenum, buf}), the
 * push builders of doginals.js (bufferToChunk, numberToChunk, opcodeToChunk),
 * the number reader chunkToNumber, and the byte layout of Script.toBuffer.
 */
module Script {
  import opened Wrappers

  type byte = x: int | 0 <= x < 256

  /** One script element: an opcode, optionally carrying pushed bytes. */
  datatype Chunk = Chunk(opcodenum: byte, buf: Option<seq<byte>>)

  const OP_0: byte := 0
  const OP_PUSHDATA1: byte := 76
  const OP_PUSHDATA2: byte := 77
  const OP_PUSHDATA4: byte := 78
  const OP_TRUE: byte := 81
  const OP_16: byte := 96
  const OP_IF: byte := 99
  const OP_ENDIF: byte := 104
  const OP_DROP: byte := 117
  const OP_EQUAL: byte := 135
  const OP_HASH160: byte := 169
  const OP_CHECKSIG: byte := 172
  const OP_CHECKSIGVERIFY: byte := 173

  /** Largest push Script.toBuffer can length-prefix with two bytes. */
  const MAX_PUSHDATA2: nat := 65535

  /** The bytes a chunk carries; the `len` field of the chunks built here. */
  function Payload(c: Chunk): seq<byte> {
    c.buf.GetOr([])
  }

  function Len(c: Chunk): nat {
    |Payload(c)|
  }

  /** Length-prefix bytes that Script.toBuffer writes between opcode and payload. */
  function PrefixLen(c: Chunk): nat {
    if c.buf.None? || c.opcodenum < OP_PUSHDATA1 then 0
    else if c.opcodenum == OP_PUSHDATA1 then 1
    else if c.opcodenum == OP_PUSHDATA2 then 2
    else if c.opcodenum == OP_PUSHDATA4 then 4
    else 0
  }

  /** Serialized size of one chunk: opcode byte, length prefix, payload. */
  function SerSize(c: Chunk): nat {
    1 + PrefixLen(c) + (if c.buf.Some? && c.opcodenum <= OP_PUSHDATA4 then Len(c) else 0)
  }

  /** Serialized size of a whole script: Script.toBuffer().length. */
  function ScriptSize(s: seq<Chunk>): nat {
    if s == [] then 0 else ScriptSize(s[..|s| - 1]) + SerSize(s[|s| - 1])
  }

  function LittleEndian(n: nat, width: nat): (r: seq<byte>)
    ensures |r| == width
  {
    if width == 0 then [] else [n % 256] + LittleEndian(n / 256, width - 1)
  }

  /** Bytes Script.toBuffer writes for one chunk. */
  function ChunkBytes(c: Chunk): seq<byte> {
    [c.opcodenum] +
    match c.buf
    case None => []
    case Some(b) =>
      if c.opcodenum < OP_PUSHDATA1 then b
      else if c.opcodenum == OP_PUSHDATA1 then LittleEndian(|b|, 1) + b
      else if c.opcodenum == OP_PUSHDATA2 then LittleEndian(|b|, 2) + b
      else if c.opcodenum == OP_PUSHDATA4 then LittleEndian(|b|, 4) + b
      else []
  }

  /** Script.toBuffer: the chunks' bytes, in order. */
  function ToBuffer(s: seq<Chunk>): seq<byte> {
    if s == [] then [] else ToBuffer(s[..|s| - 1]) + ChunkBytes(s[|s| - 1])
  }

  /** The per-chunk size rule is exactly the length of the serialized script. */
  lemma {:induction false} ToBufferLength(s: seq<Chunk>)
    ensures |ToBuffer(s)| == ScriptSize(s)
  {
    if s != [] {
      ToBufferLength(s[..|s| - 1]);
      var c := s[|s| - 1];
      assert |ChunkBytes(c)| == SerSize(c);
    }
  }

  lemma {:induction false} ScriptSizeAppend(a: seq<Chunk>, b: seq<Chunk>)
    ensures ScriptSize(a + b) == ScriptSize(a) + ScriptSize(b)
    decreases |b|
  {
    if b == [] {
      assert a + b == a;
    } else {
      assert (a + b)[..|a + b| - 1] == a + b[..|b| - 1];
      ScriptSizeAppend(a, b[..|b| - 1]);
    }
  }

  /**
   * bufferToChunk: a push of `b` with the smallest push opcode of Bitcoin
   * script: the length itself up to 75 bytes, OP_PUSHDATA1 up to 255,
   * OP_PUSHDATA2 beyond; an empty buffer leaves no payload.
   */
  function BufferToChunk(b: seq<byte>): (c: Chunk)
    ensures Payload(c) == b && Len(c) == |b|
    ensures c.buf.None? <==> |b| == 0
    ensures SerSize(c) == 1 + |b| + (if |b| <= 75 then 0 else if |b| <= 255 then 1 else 2)
  {
    Chunk(if |b| <= 75 then |b| else if |b| <= 255 then OP_PUSHDATA1 else OP_PUSHDATA2,
          if |b| > 0 then Some(b) else None)
  }

  /**
   * A canonical data push, as the script interpreter reads one: the opcode
   * is the length for 1..75 bytes, OP_PUSHDATA1 for up to 255 and
   * OP_PUSHDATA2 for up to 65535; the empty push is OP_0 without payload.
   */
  ghost predicate CanonicalPush(c: Chunk, b: seq<byte>) {
    Payload(c) == b &&
    (|b| == 0 ==> c == Chunk(OP_0, None)) &&
    (1 <= |b| <= 75 ==> c.opcodenum as int == |b|) &&
    (76 <= |b| <= 255 ==> c.opcodenum == OP_PUSHDATA1) &&
    (256 <= |b| <= MAX_PUSHDATA2 ==> c.opcodenum == OP_PUSHDATA2)
  }

  lemma BufferToChunkIsCanonical(b: seq<byte>)
    requires |b| <= MAX_PUSHDATA2
    ensures CanonicalPush(BufferToChunk(b), b)
    ensures ToBuffer([BufferToChunk(b)]) ==
            [BufferToChunk(b).opcodenum] + (if 76 <= |b| <= 255 then [|b|] else if |b| > 255 then [|b| % 256, |b| / 256] else []) + b
  {
    var c := BufferToChunk(b);
    assert [c][..0] == [];
    assert ToBuffer([c]) == ChunkBytes(c);
    if 76 <= |b| <= 255 {
      assert LittleEndian(|b|, 1) == [|b|];
    } else if |b| > 255 {
      assert LittleEndian(|b|, 2) == [|b| % 256, |b| / 256];
    }
  }

  /** opcodeToChunk: a bare opcode with no payload. */
  function OpcodeToChunk(op: byte): (c: Chunk)
    ensures c.buf.None? && Len(c) == 0 && SerSize(c) == 1 && ChunkBytes(c) == [op]
  {
    Chunk(op, None)
  }

  /**
   * numberToChunk (doginals.js): 0 is OP_0, 1..16 are OP_1..OP_16, 17..127 a
   * one-byte push, and from 128 on a two-byte little-endian push. Bytes are
   * stored the way Buffer.from truncates an array element (mod 256).
   */
  function NumberToChunk(n: nat): (c: Chunk)
    ensures c.buf.None? <==> n <= 16
    ensures n <= 16 ==> Len(c) == 0 && SerSize(c) == 1
    ensures n > 16 ==> c.opcodenum as int == Len(c) && SerSize(c) == 1 + Len(c)
    ensures Len(c) == (if n <= 16 then 0 else if n < 128 then 1 else 2)
  {
    Chunk(if n == 0 then OP_0 else if n <= 16 then 80 + n else if n < 128 then 1 else 2,
          if n <= 16 then None
          else if n < 128 then Some([n])
          else Some([n % 256, (n / 256) % 256]))
  }

  /**
   * chunkToNumber with the two-byte case read as the little-endian value the
   * encoder writes (buf[1] * 256 + buf[0]). None stands for `undefined`/NaN:
   * a chunk that is not a number.
   */
  function ChunkToNumber(c: Chunk): (r: Option<nat>)
    ensures r.Some? ==> r.value <= MAX_PUSHDATA2
    ensures r.Some? && r.value > 16 ==> c.opcodenum in {1, 2} && Len(c) >= c.opcodenum as int
    ensures r.Some? && 1 <= r.value <= 16 ==> c.opcodenum == 80 + r.value || c.opcodenum in {1, 2}
    ensures c.opcodenum == OP_0 ==> r == Some(0)
    ensures 2 < c.opcodenum <= 80 || c.opcodenum > OP_16 ==> r.None?
  {
    if c.opcodenum == OP_0 then Some(0)
    else if c.opcodenum == 1 then (if Len(c) >= 1 then Some(Payload(c)[0] as int) else None)
    else if c.opcodenum == 2 then (if Len(c) >= 2 then Some(Payload(c)[1] as int * 256 + Payload(c)[0] as int) else None)
    else if 80 < c.opcodenum <= OP_16 then Some(c.opcodenum as int - 80)
    else None
  }

  /** chunkToNumber as written in doginals.js: the high byte is weighted by 255. */
  function ChunkToNumberAsWritten(c: Chunk): (r: Option<nat>)
    ensures c.opcodenum != 2 ==> r == ChunkToNumber(c)
    ensures c.opcodenum == 2 && Len(c) >= 2 ==> r == Some(Payload(c)[1] as int * 255 + Payload(c)[0] as int)
  {
    if c.opcodenum == OP_0 then Some(0)
    else if c.opcodenum == 1 then (if Len(c) >= 1 then Some(Payload(c)[0] as int) else None)
    else if c.opcodenum == 2 then (if Len(c) >= 2 then Some(Payload(c)[1] as int * 255 + Payload(c)[0] as int) else None)
    else if 80 < c.opcodenum <= OP_16 then Some(c.opcodenum as int - 80)
    else None
  }

  /** The number codec round-trips on every value it can represent. */
  lemma NumberRoundTrip(n: nat)
    requires n <= MAX_PUSHDATA2
    ensures ChunkToNumber(NumberToChunk(n)) == Some(n)
  {
    if n >= 128 {
      assert Payload(NumberToChunk(n)) == [n % 256, n / 256];
    }
  }

  /** Below 256 the as-written reader agrees with the encoder. */
  lemma AsWrittenAgreesBelow256(n: nat)
    requires n < 256
    ensures ChunkToNumberAsWritten(NumberToChunk(n)) == Some(n)
  {
    NumberRoundTrip(n);
  }

  /** From 256 on, the as-written reader loses one unit per multiple of 256. */
  lemma AsWrittenMisreads(n: nat)
    requires 256 <= n <= MAX_PUSHDATA2
    ensures ChunkToNumberAsWritten(NumberToChunk(n)) == Some(n - n / 256)
    ensures ChunkToNumberAsWritten(NumberToChunk(n)) != Some(n)
  {
    var c := NumberToChunk(n);
    assert Payload(c) == [n % 256, n / 256];
    assert n == (n / 256) * 256 + n % 256;
  }

  /** A push of at least three bytes never reads as a number. */
  lemma LongPushIsNotANumber(b: seq<byte>)
    requires |b| >= 3
    ensures ChunkToNumber(BufferToChunk(b)).None?
  {
  }
}
