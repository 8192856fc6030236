/**
 * The extractor of doginals.js (`extract`): read the envelope header from
 * the first input script of a transaction, then collect data pushes while
 * the index before each one is the expected `remaining - 1`; on any other
 * chunk, follow the spend of output 0 to the next transaction of the chain.
 *
 * The block explorer is a map from transaction id to what the extractor
 * uses of a fetched transaction: the parsed script of input 0 and the
 * spending transaction of output 0, if any.
 */
module Extract {
  import opened Wrappers
  import opened Script
  import opened Envelope
  import opened Funding

  datatype ExplorerTx = ExplorerTx(scriptSig: seq<Chunk>, spentBy: Option<TxId>)

  type Explorer = map<TxId, ExplorerTx>

  /**
   * How extraction fails: the fetch fails, the first push is not 'ord',
   * a chunk the code dereferences is missing or has no payload, output 0 is
   * not spent when a jump is needed, or more jumps than allowed.
   */
  datatype ExtractError = FetchFailed | NotADoginal | Malformed | NotSpent | HopLimit

  datatype Doginal = Doginal(contentType: seq<byte>, data: seq<byte>)

  /**
   * The number reader the extractor uses: chunkToNumber as written, which
   * weights the high byte of a two-byte push by 255, or the corrected one,
   * which weights it by 256 as numberToChunk writes it.
   */
  datatype Reader = AsWritten | Corrected

  function ReadNumber(reader: Reader, c: Chunk): (r: Option<nat>)
    ensures reader.Corrected? ==> r == ChunkToNumber(c)
    ensures reader.AsWritten? ==> r == ChunkToNumberAsWritten(c)
  {
    match reader
    case AsWritten => ChunkToNumberAsWritten(c)
    case Corrected => ChunkToNumber(c)
  }

  /** The readers agree on every chunk but a two-byte push with a non-zero high byte. */
  lemma ReadersAgree(c: Chunk)
    requires c.opcodenum != 2 || Len(c) < 2 || Payload(c)[1] == 0
    ensures ReadNumber(AsWritten, c) == ReadNumber(Corrected, c)
  {
  }

  /** Both readers read back every number `numberToChunk` writes below 256, and the corrected one up to 65535. */
  lemma ReadBack(reader: Reader, n: nat)
    requires (reader.Corrected? && n <= MAX_PUSHDATA2) || n < 256
    ensures ReadNumber(reader, NumberToChunk(n)) == Some(n)
  {
    NumberRoundTrip(n);
    if n < 256 {
      AsWrittenAgreesBelow256(n);
    }
  }

  /** A push of at least three bytes reads as a number under neither reader. */
  lemma LongPushIsNotRead(reader: Reader, b: seq<byte>)
    requires |b| >= 3
    ensures ReadNumber(reader, BufferToChunk(b)).None?
  {
    LongPushIsNotANumber(b);
  }

  /**
   * The collecting loop from a given state: `spent` is the spend of the
   * current transaction's output 0, `chunks` what is left of its script.
   * At most `hops` jumps to a spending transaction are allowed.
   */
  function Walk(ex: Explorer, reader: Reader, spent: Option<TxId>, chunks: seq<Chunk>, remaining: nat, data: seq<byte>, hops: nat)
    : Result<seq<byte>, ExtractError>
    decreases hops, |chunks|
  {
    if remaining == 0 || chunks == [] then Ok(data)
    else if ReadNumber(reader, chunks[0]) != Some(remaining - 1) then
      if hops == 0 then Err(HopLimit)
      else if spent.None? then Err(NotSpent)
      else if spent.value !in ex then Err(FetchFailed)
      else
        var next := ex[spent.value];
        Walk(ex, reader, next.spentBy, next.scriptSig, remaining, data, hops - 1)
    else if |chunks| < 2 || chunks[1].buf.None? then Err(Malformed)
    else Walk(ex, reader, spent, chunks[2..], remaining - 1, data + chunks[1].buf.value, hops)
  }

  /** `extract(txid)` with at most `hops` jumps, reading numbers with `reader`. */
  function ExtractSpec(ex: Explorer, reader: Reader, txid: TxId, hops: nat): Result<Doginal, ExtractError> {
    if txid !in ex then Err(FetchFailed)
    else
      var chunks := ex[txid].scriptSig;
      if |chunks| == 0 || chunks[0].buf.None? then Err(Malformed)
      else if chunks[0].buf.value != ORD then Err(NotADoginal)
      else if |chunks| < 3 || chunks[2].buf.None? then Err(Malformed)
      else
        var pieces := ReadNumber(reader, chunks[1]);
        match Walk(ex, reader, ex[txid].spentBy, chunks[3..], pieces.GetOr(0), [], hops)
        case Ok(data) => Ok(Doginal(chunks[2].buf.value, data))
        case Err(e) => Err(e)
  }

  /** A transaction whose first push is not the marker 'ord' is rejected. */
  lemma NotADoginalRejected(ex: Explorer, reader: Reader, txid: TxId, hops: nat)
    requires txid in ex && |ex[txid].scriptSig| > 0
    requires ex[txid].scriptSig[0].buf.Some? && ex[txid].scriptSig[0].buf.value != ORD
    ensures ExtractSpec(ex, reader, txid, hops) == Err(NotADoginal)
  {
  }

  /** Collecting only ever appends: whatever the walk returns extends the data collected so far. */
  lemma {:induction false} WalkExtends(ex: Explorer, reader: Reader, spent: Option<TxId>, chunks: seq<Chunk>, remaining: nat, data: seq<byte>, hops: nat)
    ensures Walk(ex, reader, spent, chunks, remaining, data, hops).Ok? ==>
              data <= Walk(ex, reader, spent, chunks, remaining, data, hops).value
    decreases hops, |chunks|
  {
    if remaining == 0 || chunks == [] {
    } else if ReadNumber(reader, chunks[0]) != Some(remaining - 1) {
      if hops > 0 && spent.Some? && spent.value in ex {
        var next := ex[spent.value];
        WalkExtends(ex, reader, next.spentBy, next.scriptSig, remaining, data, hops - 1);
      }
    } else if |chunks| >= 2 && chunks[1].buf.Some? {
      WalkExtends(ex, reader, spent, chunks[2..], remaining - 1, data + chunks[1].buf.value, hops);
    }
  }

  /** A chunk that does not read as the expected index makes the walk jump, taking no data from it. */
  lemma WalkJumps(ex: Explorer, reader: Reader, spent: Option<TxId>, chunks: seq<Chunk>, remaining: nat, data: seq<byte>,
                  hops: nat)
    requires remaining > 0 && chunks != [] && ReadNumber(reader, chunks[0]) != Some(remaining - 1)
    requires hops > 0 && spent.Some? && spent.value in ex
    ensures Walk(ex, reader, spent, chunks, remaining, data, hops) ==
            Walk(ex, reader, ex[spent.value].spentBy, ex[spent.value].scriptSig, remaining, data, hops - 1)
  {
  }

  /**
   * The loop of `extract`, with the fetch replaced by a lookup in the
   * explorer and a bound on the number of jumps; with `AsWritten` it reads
   * numbers as doginals.js does.
   */
  method Extract(ex: Explorer, reader: Reader, txid: TxId, maxHops: nat) returns (r: Result<Doginal, ExtractError>)
    ensures r == ExtractSpec(ex, reader, txid, maxHops)
  {
    if txid !in ex {
      return Err(FetchFailed);
    }
    var transaction := ex[txid];
    var chunks := transaction.scriptSig;
    if |chunks| == 0 || chunks[0].buf.None? {
      return Err(Malformed);
    }
    if chunks[0].buf.value != ORD {
      return Err(NotADoginal);
    }
    if |chunks| < 3 || chunks[2].buf.None? {
      return Err(Malformed);
    }
    var pieces := ReadNumber(reader, chunks[1]);
    var contentType := chunks[2].buf.value;
    chunks := chunks[3..];
    var data := [];
    var remaining := pieces.GetOr(0);
    var hops := maxHops;
    ghost var goal := Walk(ex, reader, transaction.spentBy, chunks, remaining, data, hops);
    while remaining > 0 && |chunks| > 0
      invariant Walk(ex, reader, transaction.spentBy, chunks, remaining, data, hops) == goal
      decreases hops, |chunks|
    {
      var n := ReadNumber(reader, chunks[0]);
      if n != Some(remaining - 1) {
        if hops == 0 {
          return Err(HopLimit);
        }
        if transaction.spentBy.None? {
          return Err(NotSpent);
        }
        var next := transaction.spentBy.value;
        if next !in ex {
          return Err(FetchFailed);
        }
        transaction := ex[next];
        chunks := transaction.scriptSig;
        hops := hops - 1;
      } else {
        if |chunks| < 2 || chunks[1].buf.None? {
          return Err(Malformed);
        }
        data := data + chunks[1].buf.value;
        chunks := chunks[2..];
        remaining := remaining - 1;
      }
    }
    return Ok(Doginal(contentType, data));
  }

  /**
   * The readers part ways on a count of 256: written as [0, 1], the reader
   * as written takes it for 255 and then looks for index 254 where the
   * envelope has 255, so it jumps, and fails on an unspent output, where the
   * corrected reader returns the content.
   */
  lemma AsWrittenExtractDiverges()
    ensures var s := [BufferToChunk(ORD), NumberToChunk(256), BufferToChunk([0x61]), NumberToChunk(255), BufferToChunk([7])];
            var ex := map[[1] := ExplorerTx(s, None)];
            ExtractSpec(ex, Corrected, [1], 1) == Ok(Doginal([0x61], [7])) &&
            ExtractSpec(ex, AsWritten, [1], 1) == Err(NotSpent)
  {
    var s := [BufferToChunk(ORD), NumberToChunk(256), BufferToChunk([0x61]), NumberToChunk(255), BufferToChunk([7])];
    var ex := map[[1] := ExplorerTx(s, None)];
    var t := s[3..];
    assert s[0].buf.value == ORD && s[2].buf.value == [0x61] && t[1].buf.value == [7];
    assert t[2..] == [];
    assert ReadNumber(Corrected, s[1]) == Some(256) && ReadNumber(AsWritten, s[1]) == Some(255);
    assert ReadNumber(Corrected, t[0]) == Some(255) && ReadNumber(AsWritten, t[0]) == Some(255);
    assert Walk(ex, Corrected, None, t[2..], 255, [7], 1) == Ok([7]);
    assert [] + t[1].buf.value == [7];
    assert Walk(ex, Corrected, None, t, 256, [], 1) == Ok([7]);
    assert Walk(ex, AsWritten, None, t, 255, [], 1) == Err(NotSpent);
  }
}
