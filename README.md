# Doginals: inscription layout, chain forging and extraction

A model of the data layout of the doginals inscription tool for Dogecoin.

- Content is cut into parts and laid out as a self-describing envelope of script pushes.
- The envelope is spread over a chain of P2SH commit/reveal transactions.
- The wallet is funded and updated as each transaction is built.
- The extractor reads the content back by following the chain of spending transactions.

Both variants of the tool are modelled:

- `doginals.js` is the current variant. It uses the `'ord'` envelope with 240-byte parts, a leg planner bounded by serialized size (1500 bytes), lock scripts that drop the revealed pushes, and the extractor.
- `index.js` is the older variant. It uses the `'ordchain'` envelope with 255-byte parts, a big-endian number push, a planner bounded by summed payload length (481 bytes), lock scripts that hide the leg in a dead `OP_IF` branch, the single-script `inscribeOrd`, and the size dispatch of `mint`.

Modules, leaf first:

| module | file | what it holds |
|---|---|---|
| `Wrappers` | wrappers.dfy | `Option`, `Result` |
| `Script` | script.dfy | `Chunk`, the push builders, the number reader, `Script.toBuffer` bytes and size |
| `Envelope` | envelope.dfy | the part splitter and the `'ord'` envelope |
| `Planner` | planner.dfy | the pair-by-pair leg planner of `inscribe` |
| `Funding` | funding.dfy | transactions as values, the `Wallet` class with `Fund` and `UpdateWallet` |
| `Forge` | forge.dfy | lock and unlock scripts, and the `inscribe` loop that builds the chain |
| `Extract` | extract.dfy | the `extract` state machine over a block-explorer map |
| `RoundTrip` | roundtrip.dfy | `extract` on the chain `inscribe` built returns the content |
| `Broadcast` | broadcast.dfy | the pending-queue rule of `broadcastAll` |
| `OrdChain` | ordchain.dfy | the `index.js` number push, `'ordchain'` envelope and chunk-by-chunk planner |
| `Legacy` | legacy.dfy | the `index.js` transactions: `inscribeOrd`, `inscribeOrdChain`, `mint` |

Some of what the tool calls is never looked into. That covers bitcore-lib-doge's transaction hash, HASH160, the sighash signature, the fee estimate and the dust threshold. These are the fields of an `Env` value of functions that is passed in. A block explorer is a `map<TxId, ExplorerTx>`. Each entry holds the parsed script of input 0 and the transaction that spent output 0, if any.

## Model

| member | source | states |
|---|---|---|
| Script.ToBufferLength | doginals.js:289 | the length of `Script.toBuffer()` is the sum of the per-chunk sizes: 1 for a bare opcode, 1+len for a direct push, 2+len for OP_PUSHDATA1, 3+len for OP_PUSHDATA2 |
| Script.BufferToChunk | doginals.js:225-232 | the chunk carries exactly `b`, with `len = \|b\|`; `buf` is absent exactly when `b` is empty; its serialized size is 1+\|b\| plus 0, 1 or 2 prefix bytes by the 75/255 thresholds |
| Script.BufferToChunkIsCanonical | doginals.js:225-232 | up to 65535 bytes, the opcode is the canonical push (the length up to 75, OP_PUSHDATA1 up to 255, OP_PUSHDATA2 beyond), and the serialized bytes are opcode, little-endian length, payload |
| Script.OpcodeToChunk | doginals.js:242-244 | a bare opcode: no payload, one serialized byte, the opcode itself |
| Script.NumberToChunk | doginals.js:234-240 | `buf` is absent exactly when n ≤ 16; the payload is 0, 1 or 2 bytes by the 16/128 thresholds; above 16 the opcode is the payload length |
| Script.ChunkToNumber | doginals.js:468-474 | the corrected reader: OP_0 reads 0, opcodes 3..80 and above 96 are not numbers, any value above 16 comes from a 1- or 2-byte push, and no value exceeds 65535 |
| Script.ChunkToNumberAsWritten | doginals.js:468-474 | the reader as written agrees with the corrected one except on opcode 2, where it weights the high byte by 255 |
| Script.NumberRoundTrip | doginals.js:234-240 | the corrected reader inverts `numberToChunk` for every n ≤ 65535 |
| Script.AsWrittenAgreesBelow256 | doginals.js:468-474 | the reader as written inverts `numberToChunk` for every n < 256 |
| Script.AsWrittenMisreads | doginals.js:471 | for 256 ≤ n ≤ 65535 the reader as written returns n − ⌊n/256⌋, never n |
| Script.LongPushIsNotANumber | doginals.js:468-474 | a push of 3 or more bytes (such as the signature) never reads as a number |
| Envelope.ChopSpec | doginals.js:259-264 | every part is non-empty and at most `size` bytes, all but the last are exactly `size`, and the parts concatenate back to `data` |
| Envelope.ChopCount | doginals.js:259-264 | the number of parts is ⌈\|data\| / size⌉ |
| Envelope.SplitParts | doginals.js:259-264 | the slicing loop returns exactly the parts of `Chop(data, size)` |
| Envelope.BuildInscription | doginals.js:267-274 | the push loop returns `'ord'`, the part count, the content type, then (count−1−k, part k) for every k |
| Envelope.InscriptionIndex | doginals.js:271-274 | index chunk k reads back as count−1−k and is followed by the push of part k |
| Envelope.BodyPair | doginals.js:271-274 | body pair k is the number push of count−1−k followed by the push of part k |
| Envelope.InscriptionDescribesContent | doginals.js:267-274 | the envelope has 3+2·count chunks; its header reads back as `'ord'`, the count and the content type; the indices descend strictly from count−1 to 0; the data pushes concatenate to `data` |
| Planner.FillLeg | doginals.js:289-292 | the inner loop moves pairs onto the leg while it is within 1500 bytes and chunks remain, as `Fill` defines |
| Planner.FillSpec | doginals.js:289-292 | the inner loop only moves whole pairs from the front; it moves at least one pair when it can; it stops early only over the ceiling; the leg less its last pair fits |
| Planner.TrimSpec | doginals.js:294-297 | handing the overflowing pair back leaves a leg within 1500 bytes, a pair-aligned rest whose pairs still fit, and a leg that the next pair would overflow |
| Planner.TakeLeg | doginals.js:283-297 | seeding, filling and trimming cut the leg `NextLeg` defines |
| Planner.NextLegSpec | doginals.js:282-297 | a leg is a prefix of what is left and is within 1500 bytes; the first leg starts with the marker and has odd length; every later leg has even length ≥ 2; a leg is closed only if the next pair would overflow it; the rest can be planned again |
| Planner.LegsConcat | doginals.js:282-298 | the legs concatenate back to the envelope exactly |
| Planner.LegsShape | doginals.js:282-298 | every leg is non-empty and within 1500 bytes; the first leg starts with the marker and has odd length; every later leg has even length, so no (number, data) pair is split |
| Planner.LegsClosed | doginals.js:289-297 | every leg but the last was closed because the first pair of the next leg would have overflowed it |
| Funding.RechangeBalances | doginals.js:385 | `tx.change(address)`: a change output pays the wallet and balances the inputs exactly against outputs plus fee; without one, what is left over is at most the dust threshold |
| Funding.RechangeIdempotent | doginals.js:394-395 | recomputing the change a second time changes nothing |
| Funding.AttachAllShape | doginals.js:388-397 | attaching UTXOs keeps the transaction's own inputs and explicit outputs, and adds one input per UTXO in wallet order |
| Funding.StopAtIsFirst | doginals.js:388-391 | the loop breaks at the first point where there are inputs and outputs and inputs ≥ outputs + fee |
| Funding.FundSpec | doginals.js:384-402 | on success inputs ≥ outputs + fee, and the added inputs are the wallet's first UTXOs, in order, up to the first point where funds suffice; 'not enough funds' only when every UTXO attached still does not cover them |
| Funding.Wallet.Fund | doginals.js:384-402 | the funding loop over `wallet.utxos` returns what `FundResult` defines (the same `fund` is at index.js:388-406) and changes nothing |
| Funding.UnspentSpec | doginals.js:406-413 | the filter keeps exactly the entries no input spends, and never lengthens the list |
| Funding.UnspentAppend | doginals.js:406-413 | filtering a list is filtering each of its parts and concatenating them, so the kept entries stay in wallet order |
| Funding.OwnedSpec | doginals.js:415-425 | the appended entries are exactly the outputs paying the wallet address, with the transaction's hash, their own output index and value, in output order |
| Funding.AfterUpdateSpec | doginals.js:405-426 | after `updateWallet` no entry is spent by the transaction, every unspent entry remains, and every output to the wallet is added |
| Funding.Wallet.UpdateWallet | doginals.js:405-426 | `wallet.utxos` becomes the unspent entries followed by the owned outputs, as `AfterUpdate` defines (the same `updateWallet` is at index.js:409-430) |
| Forge.LockScriptDepth | doginals.js:300-306 | a leg's lock script `<pubkey> OP_CHECKSIGVERIFY OP_DROP×\|leg\| OP_TRUE` completes exactly when the stack holds the leg's items and the signature, and then leaves one item more than the surplus |
| Forge.UnlockScriptDepth | doginals.js:334-337 | an unlocking script over a push-only leg pushes the leg's items, the signature and the redeem script |
| Forge.RevealLeavesTrue | doginals.js:300-306 | for every leg `inscribe` cuts, the unlocking script pushes \|leg\|+2 items, and the lock script run on the leg and the signature leaves only OP_TRUE |
| Forge.EnvelopePlannable | doginals.js:191-193 | with a content type of at most 520 bytes (the check `mint` makes before `inscribe`), the marker and every pair of the envelope fit a leg on their own |
| Forge.FundedFirstInput | doginals.js:325-328 | funding keeps the chain input first and unsigned, keeps the outputs, and covers outputs plus fee |
| Forge.StepSpec | doginals.js:325-342 | a round fails exactly when `fund` fails, with its error; when it succeeds, the transaction less its unlocking script is what `fund` returned, its outputs are kept, it is covered, and input 0 spends the previous commit output with the previous leg, the signature and the previous lock script |
| Forge.Complete | doginals.js:325-342 | a round returns what `Step` defines on the wallet before it: it fails exactly when `fund` fails for the transaction, with the same error and the wallet unchanged; otherwise the transaction is the funded one, with its outputs kept, covered, input 0 unlocked by the previous leg, the signature over the funded transaction and the previous lock script, and the wallet updated |
| Forge.Round | doginals.js:282-343 | one pass of the outer loop cuts the leg `NextLeg` defines and returns `Step` of the commit transaction for that leg's lock script: it fails exactly when funding that transaction fails, and otherwise its only explicit output commits to the lock script |
| Forge.LinkAfter | doginals.js:345-357 | the carried `p2shInput` spends output 0 with an empty script; `lastPartial` is the leg just committed |
| Forge.ChainPrefixExtend | doginals.js:343-357 | a commit transaction that spends the previous commit output extends the chain by one leg |
| Forge.RoundLegs | doginals.js:282-297 | a round moves exactly the next leg from the envelope left to plan onto the legs done |
| Forge.RoundChain | doginals.js:330-357 | a completed round extends the chain, and its commit output becomes the link for the next round |
| Forge.ChainClose | doginals.js:362-377 | the transaction that spends the last commit output and pays the destination 100000 closes the chain |
| Forge.CommitRounds | doginals.js:282-357 | the commit rounds as a value build at most one transaction per leg, and they end without a failure exactly when every leg got its transaction |
| Forge.CommitRoundsFailure | doginals.js:325-328 | the commit rounds stop only where funding fails: after k transactions, funding round k's commit transaction from the wallet those k left fails with the reported error |
| Forge.BuildFailure | doginals.js:325-377 | a chain fails only where funding fails: in a commit round, from the wallet the transactions before it left, or in the last transaction after every commit round went through |
| Forge.Close | doginals.js:362-377 | the last round returns `Step` of the transaction paying the destination: it fails exactly when funding it fails; otherwise it is signed against the last lock script and closes the chain |
| Forge.Inscribe | doginals.js:251-381 | the result is what `Build` defines for the legs: the first round `fund` rejects ends the chain with its error (where, `Forge.BuildFailure` says), and the wallet is the replay of `updateWallet` over the transactions built up to then; on success there is one transaction per leg plus one, leg i's transaction commits to leg i's lock script, every later one spends output 0 of the one before with that leg's unlocking script, the last pays the destination, and all are funded |
| Extract.ReadNumber | doginals.js:468-474 | the reader as written is `chunkToNumber` of doginals.js:471 (high byte ×255), the corrected one weights it ×256 |
| Extract.ReadBack | doginals.js:234-240 | both readers read back every number `numberToChunk` writes below 256, and the corrected one every number up to 65535 |
| Extract.LongPushIsNotRead | doginals.js:468-474 | a push of 3 or more bytes reads as no number under either reader |
| Extract.ReadersAgree | doginals.js:468-474 | the two readers agree on every chunk except a two-byte push with a non-zero high byte |
| Extract.NotADoginalRejected | doginals.js:484-487 | a first push other than `'ord'` fails with 'not a doginal' |
| Extract.WalkExtends | doginals.js:497-511 | collection only appends to the data gathered so far |
| Extract.WalkJumps | doginals.js:500-506 | a chunk that is not the expected index consumes no data; the walk carries on in the script of the transaction that spent output 0 |
| Extract.Extract | doginals.js:477-517 | the loop over `remaining`, `chunks`, `data` and `transaction` returns what `ExtractSpec` defines, including every failure; with the reader as written it reads `pieces` and each index as doginals.js:489 and doginals.js:498 do |
| Extract.AsWrittenExtractDiverges | doginals.js:489-501 | for one transaction holding a 256-part count and the part with index 255, the corrected reader returns the content while the reader as written reads the count as 255, expects index 254, and jumps from an unspent output |
| RoundTrip.FirstLegHoldsHeader | doginals.js:285-297 | the first leg always begins with the marker, the count and a content type of at most 520 bytes, as the envelope does |
| RoundTrip.OffsetsOdd | doginals.js:285-297 | after an odd first leg and even later legs, every cut falls between a part and the next index |
| RoundTrip.InscriptionCuts | doginals.js:282-298 | the legs of `inscribe` cut the envelope after its header, and only between a part and the next index |
| RoundTrip.EnvelopeIndexed | doginals.js:271-274 | after the header, index k reads as count−1−k and is followed by part k, under the corrected reader always and under the reader as written when there are fewer than 256 parts |
| RoundTrip.BodyIndexed | doginals.js:271-274 | body pair k carries index count−1−k, readable by the chosen reader, and then part k |
| RoundTrip.RevealsLeg | doginals.js:334-338 | reveal i+1 shows leg i followed by the signature push, which does not read as a number, and is spent by the next reveal |
| RoundTrip.ChainIsChained | doginals.js:330-339 | the reveals of the chain, as the explorer shows them, hold the legs in order, each spent by the next |
| RoundTrip.LegWalk | doginals.js:497-511 | inside one revealed leg, the walk collects the parts from index k to index kb in order |
| RoundTrip.WalkLegs | doginals.js:497-511 | from any index inside reveal i, the walk ends with all the parts, given one hop per remaining leg |
| RoundTrip.ExtractStart | doginals.js:484-495 | a first reveal that starts with `'ord'`, the count and a non-empty content type returns that content type with whatever the walk collects |
| RoundTrip.InscriptionRoundTrip | doginals.js:477-517 | for the chain `inscribe` builds with a non-empty content type, as the explorer shows it, `extract` from the first reveal (`txs[1]`) returns the original content type and data, given one hop per leg after the first; with the reader as written this is proved for fewer than 256 parts, with the corrected reader for any count up to 65535 |
| RoundTrip.EmptyContentTypeUnreadable | doginals.js:484-495 | for the chain `inscribe` builds with an empty content type, which `mint` accepts (doginals.js:187-193), `extract` from the first reveal fails with every reader and hop bound: the content type is a bare OP_0 with no buffer to read (doginals.js:491) |
| Broadcast.FirstRefusal | doginals.js:204-216 | the index of the first refused transaction: all before it were accepted |
| Broadcast.PendingSpec | doginals.js:214 | no queue is left exactly when all were accepted; otherwise the queue is the suffix from the first refusal, headed by the refused transaction |
| Broadcast.Resume | doginals.js:214 | re-running on the saved queue leaves the queue one uninterrupted run would have left |
| Broadcast.BroadcastAll | doginals.js:203-217 | the send loop leaves the queue `Pending` defines |
| OrdChain.LegacyNumberToChunk | index.js:264-270 | `buf` is absent exactly when n ≤ 16; 0 is OP_0 and 1..16 are OP_1..OP_16; the payload is 1 byte up to 255 and 2 bytes beyond; above 16 the opcode is the payload length |
| OrdChain.LegacyNumberRoundTrip | index.js:264-270 | a big-endian reader inverts the local `numberToChunk` for every n ≤ 65535 |
| OrdChain.LegacyAgainstCurrent | index.js:264-270 | the two number layouts agree below 128 and differ from 128 to 255; from 256 on the `doginals.js` reader reads the legacy bytes swapped |
| OrdChain.DataChunksSpec | index.js:273-279 | every data chunk is a push of 1 to 255 bytes, and their payloads concatenate back to `data` |
| OrdChain.SplitChunks | index.js:273-279 | the slicing loop returns exactly `DataChunks(data)` |
| OrdChain.BuildOrdChain | index.js:282-289 | the push loop returns `'ordchain'`, the count, the content type, then (count−1−i, data chunk i) |
| OrdChain.OrdChainIndex | index.js:286-289 | index chunk k reads back as count−1−k and is followed by data chunk k |
| OrdChain.OrdChainDescribesContent | index.js:282-289 | the header reads back as `'ordchain'`, the count and the content type; the indices descend strictly; the data pushes are `data` |
| OrdChain.TakeSpec | index.js:297-304 | one pass of the inner loop splits what is left, stays within 481 bytes of payload, stops only at the end or when the next chunk would overflow, and takes the first chunk when it fits |
| OrdChain.TakeChunks | index.js:294-304 | the inner loop with its `length` accumulator returns what `Take` defines |
| OrdChain.LegacyLegsSpec | index.js:292-307 | when every chunk fits, the legs are non-empty and within 481 bytes of payload, each is closed only because the next leg's first chunk would overflow it, and they concatenate back to the envelope |
| OrdChain.LegacyPlan | index.js:292-307 | the outer loop returns what `LegacyLegs` defines |
| OrdChain.OrdChainFits | index.js:249-250 | with a content type of at most 481 bytes, every chunk of the envelope fits a leg |
| OrdChain.LegacyPlannerStalls | index.js:293-306 | a chunk longer than 481 bytes at the head stops the inner loop with nothing taken and nothing consumed |
| OrdChain.OrdChainStalls | index.js:172 | a content type of 482 to 520 bytes, which `mint` admits, is such a chunk after the first leg |
| Legacy.LegacyLockScriptHoldsLeg | index.js:313-323 | the lock script is `<pubkey> OP_CHECKSIG OP_FALSE OP_IF`, then the leg, then OP_ENDIF |
| Legacy.BuildLocks | index.js:313-323 | the loop builds one lock script per leg, in order |
| Legacy.SpendCommit | index.js:339-343 | the chain input spends output 0 of the previous transaction (its hash, index 0), with an empty script |
| Legacy.LegacyPrefixExtend | index.js:326-359 | a commit transaction for the next leg, spending the previous commit output with the signature and previous lock script, extends the chain |
| Legacy.CommitAll | index.js:326-359 | the result is what `CommitRounds` defines for the legs' lock scripts: one funded commit transaction per leg, each after the first spending the previous one's output 0, or the error of the first round `fund` rejects; the wallet is the replay of `updateWallet` over the transactions built |
| Legacy.CommitLeg | index.js:326-359 | one pass of the commit loop ends the rounds with the funding error and the wallet unchanged, or adds one commit transaction that extends the chain and updates the wallet |
| Legacy.CloseChain | index.js:361-382 | the last transaction completes the chain as `Build` defines it, or fails with the funding error and the wallet unchanged |
| Legacy.LegacyClose | index.js:361-382 | the transaction spending the last commit output and paying the destination closes the chain |
| Legacy.OrdChainLegsSpec | index.js:292-307 | there is always a first leg, and the legs concatenate back to the `'ordchain'` envelope |
| Legacy.InscribeOrdChain | index.js:252-385 | the result is what `Build` defines for the planned legs, so it fails only where funding fails and the wallet is the replay of `updateWallet` over what was built; on success there is one transaction per leg plus a terminal one, each commits to its leg's lock script, each after the first spends output 0 of the previous one, unlocked by the signature and the previous lock script, and the last pays the destination 100000 |
| Legacy.InscribeOrd | index.js:198-245 | the result is what `Build` defines for the single lock script holding `'ord'`, OP_1, the content type, OP_0 and the data: a funding error with the wallet replayed over what was built, or exactly 2 transactions, where the second spends output 0 of the first and pays the destination 100000 |
| Legacy.Mint | index.js:172-183 | 'content type too long' exactly when the content type is over 520 bytes, or over 481 bytes on the chain path; otherwise data under 520 bytes goes to `inscribeOrd` and anything larger to `inscribeOrdChain`, and `Unfunded(e)` is returned exactly when that chain fails with `e`; the wallet is the replay of `updateWallet` over the transactions built |

## Left out

- Command-line handling, the wallet commands, reading and writing `.wallet.json` and `pending-txs.json`, and the HTTP server are plumbing and I/O.
- `broadcast` sends over the network. In doginals.js both callers of `broadcastAll` pass `retry = false` (doginals.js:33, doginals.js:200), so every error, 'too-long-mempool-chain' included, is a refusal that saves the queue (doginals.js:449); only the wallet commands pass `true`. index.js retries 'too-long-mempool-chain' every second without limit (index.js:448-461). Only the outcome is modelled: one accepted or refused flag per transaction, in `Broadcast`. The broadcast loop of index.js `mint` (index.js:186-194) is left out for the same reason.
- `broadcastAll` throws unconditionally before each send and calls a function `fs` does not have. The model sends, and saves the suffix only on a genuine refusal.
- The MIME lookup, `Script.fromHex`, `Script.fromASM`, `toAddress`, hashing, signing, the fee estimate, the dust threshold and the transaction hash come from foreign libraries. They are `Env` functions, pre-parsed explorer entries, or `Destination` values. `fromASM` is taken to produce the same pushes as `bufferToChunk`.
- The check `/^[a-fA-F0-9]*$/` on hex data (doginals.js:183) and the 'no data to mint' check (doginals.js:187-189) are input validation in `mint`. They are not modelled.
- Forge.Inscribe: requires a content type of at most 520 bytes. `mint` checks this before calling `inscribe` (doginals.js:191-193). The model counts bytes, while `mint` compares the JavaScript string length, which counts UTF-16 code units. So 520 units can be up to 1560 UTF-8 bytes, and from about 1490 bytes on the (count, content type) pair never fits a 1500-byte leg: the planner at doginals.js:282-297 then commits empty legs until `fund` fails with 'not enough funds'. This is the doginals.js counterpart of the second Findings row; the model's byte bound excludes such content types.
- Funding.Wallet.Fund: does not model `tx.sign`. Wallet inputs keep an empty unlocking script. Bitcore's duplicate-input check in `tx.from` never fires on wallet entries, which carry `txid` rather than `txId`, so it is not modelled.
- Funding.Wallet.UpdateWallet: the `script` field of a wallet entry is not kept.
- Extract.Extract: takes a bound on the number of jumps to spending transactions. The source follows spends without limit. The content type is returned as bytes rather than decoded from UTF-8.
- RoundTrip.InscriptionRoundTrip: requires a non-empty content type. An empty one, which `mint` accepts (doginals.js:187-193), is pushed as a bare OP_0 without a buffer, and `extract` cannot read it (doginals.js:491); `RoundTrip.EmptyContentTypeUnreadable` proves that extraction then fails. The lemma also assumes the explorer shows every reveal as it was built, and that signatures are at least 2 bytes long. With the reader as written it is proved only for fewer than 256 parts; `Extract.AsWrittenExtractDiverges` shows extraction going wrong at 256 (see Findings).
- Legacy.Mint: refuses on the chain path a content type of 482 to 520 bytes, where index.js plans forever (see Findings). It also counts the content type in bytes, while index.js:172 compares `contentType.length`, which counts UTF-16 code units: a content type of 300 two-byte characters (600 bytes) passes index.js's check and is refused by the model.
- The concrete scenarios of a 5-byte or a 3000-byte inscription are not stated as separate lemmas. The general lemmas cover them.

## Findings

| source | as written | input that shows it | evidently intended | confidence | as-written member | corrected member |
|---|---|---|---|---|---|---|
| doginals.js:471 | `chunkToNumber` reads a two-byte number as `buf[1] * 255 + buf[0]`, while `numberToChunk` (doginals.js:236) writes `[n % 256, n / 256]` | n = 256 (an inscription of 256 or more 240-byte parts) is written `[0, 1]` and read back as 255, so `extract` expects index 254, meets 255 and jumps, failing on an unspent output where the content was readable | `buf[1] * 256 + buf[0]`, the inverse of the encoder | high; not executed | Extract.AsWrittenExtractDiverges | RoundTrip.InscriptionRoundTrip |
| index.js:293-306 | the planner pushes a leg even when its inner loop took nothing | a content type of 482 to 520 bytes, which the check at index.js:172 admits, with 520 or more bytes of data: after the first leg the content-type chunk never fits, and the outer loop pushes empty legs forever | refuse content types that cannot fit a leg (or never close an empty leg) | high; not executed | OrdChain.OrdChainStalls | Legacy.Mint |
