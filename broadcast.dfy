/**
 * The rule of doginals.js `broadcastAll` for what is left to do: the
 * transactions are sent in order, and at the first one the node refuses,
 * that transaction and every one after it are saved for a later run. The
 * node's answers are a sequence of outcomes, one per transaction sent.
 */
module Broadcast {
  import opened Wrappers
  import opened Funding

  /** Index of the first refused transaction, or |accepted| when every one was accepted. */
  function FirstRefusal(accepted: seq<bool>): (i: nat)
    ensures i <= |accepted|
    ensures forall j :: 0 <= j < i ==> accepted[j]
    ensures i < |accepted| ==> !accepted[i]
  {
    if accepted == [] || !accepted[0] then 0 else 1 + FirstRefusal(accepted[1..])
  }

  /** The pending queue a run leaves: None when all went through, otherwise the suffix from the refusal on. */
  function Pending(txs: seq<Tx>, accepted: seq<bool>): Option<seq<Tx>>
    requires |accepted| == |txs|
  {
    var i := FirstRefusal(accepted);
    if i == |txs| then None else Some(txs[i..])
  }

  /**
   * The queue is exactly what was not sent: its head is the refused
   * transaction, and what precedes it was all accepted.
   */
  lemma PendingSpec(txs: seq<Tx>, accepted: seq<bool>)
    requires |accepted| == |txs|
    ensures Pending(txs, accepted).None? <==> forall j :: 0 <= j < |txs| ==> accepted[j]
    ensures Pending(txs, accepted).Some? ==>
              var q := Pending(txs, accepted).value;
              var i := |txs| - |q|;
              q != [] && txs == txs[..i] + q && !accepted[i] &&
              forall j :: 0 <= j < i ==> accepted[j]
  {
    var i := FirstRefusal(accepted);
    if i < |txs| {
      assert txs == txs[..i] + txs[i..];
    }
  }

  /** The first refusal in a sequence of outcomes that starts with accepted ones. */
  lemma {:induction false} FirstRefusalShift(before: seq<bool>, after: seq<bool>)
    requires forall j :: 0 <= j < |before| ==> before[j]
    ensures FirstRefusal(before + after) == |before| + FirstRefusal(after)
    decreases |before|
  {
    if before == [] {
      assert before + after == after;
    } else {
      assert (before + after)[1..] == before[1..] + after;
      FirstRefusalShift(before[1..], after);
    }
  }

  /**
   * Resuming is sound: re-running on the saved queue leaves the same queue
   * as one run over all transactions would have with the outcomes of the
   * first run's accepted prefix followed by the second run's.
   */
  lemma Resume(txs: seq<Tx>, first: seq<bool>, second: seq<bool>)
    requires |first| == |txs| && Pending(txs, first).Some?
    requires |second| == |Pending(txs, first).value|
    ensures var i := FirstRefusal(first);
            Pending(Pending(txs, first).value, second) == Pending(txs, first[..i] + second)
  {
    var i := FirstRefusal(first);
    FirstRefusalShift(first[..i], second);
    var k := FirstRefusal(second);
    if k < |second| {
      assert txs[i..][k..] == txs[i + k..];
    }
  }

  /** The loop of `broadcastAll`, sending until the first refusal. */
  method BroadcastAll(txs: seq<Tx>, accepted: seq<bool>) returns (pending: Option<seq<Tx>>)
    requires |accepted| == |txs|
    ensures pending == Pending(txs, accepted)
  {
    var i := 0;
    while i < |txs|
      invariant 0 <= i <= |txs| && forall j :: 0 <= j < i ==> accepted[j]
      invariant i <= FirstRefusal(accepted)
    {
      if !accepted[i] {
        return Some(txs[i..]);
      }
      i := i + 1;
    }
    return None;
  }
}
