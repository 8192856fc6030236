/**
 * The leg planner of doginals.js `inscribe`: envelope chunks are moved into
 * legs two at a time (an index and its data, or the count and the content
 * type) while the leg's serialized size stays within MAX_PAYLOAD_LEN; the
 * pair that overflows is handed back. Only the first leg is seeded with the
 * marker chunk.
 */
module Planner {
  import opened Script

  const MAX_PAYLOAD_LEN: nat := 1500

  /** Every (even, odd) pair of `rest` fits into an empty leg on its own. */
  ghost predicate PairsFit(rest: seq<Chunk>) {
    |rest| % 2 == 0 &&
    forall i :: 0 <= i < |rest| / 2 ==> SerSize(rest[2 * i]) + SerSize(rest[2 * i + 1]) <= MAX_PAYLOAD_LEN
  }

  /** What the planner needs of what is left: a marker that fits, then fitting pairs. */
  ghost predicate Plannable(rest: seq<Chunk>, first: bool) {
    if first then |rest| % 2 == 1 && SerSize(rest[0]) <= MAX_PAYLOAD_LEN && PairsFit(rest[1..])
    else PairsFit(rest)
  }

  lemma PairsFitSuffix(rest: seq<Chunk>, j: nat)
    requires PairsFit(rest) && 2 * j <= |rest|
    ensures PairsFit(rest[2 * j..])
  {
    var r := rest[2 * j..];
    forall i | 0 <= i < |r| / 2
      ensures SerSize(r[2 * i]) + SerSize(r[2 * i + 1]) <= MAX_PAYLOAD_LEN
    {
      assert r[2 * i] == rest[2 * (i + j)] && r[2 * i + 1] == rest[2 * (i + j) + 1];
    }
  }

  /**
   * The inner loop: while the leg is within the ceiling and chunks remain,
   * move the next two chunks into it.
   */
  function Fill(partial: seq<Chunk>, rest: seq<Chunk>): (seq<Chunk>, seq<Chunk>)
    requires |rest| % 2 == 0
    decreases |rest|
  {
    if ScriptSize(partial) <= MAX_PAYLOAD_LEN && |rest| > 0 then Fill(partial + rest[..2], rest[2..])
    else (partial, rest)
  }

  /** The inner loop moves whole pairs from the front of what is left onto the leg. */
  lemma {:induction false} FillConcat(partial: seq<Chunk>, rest: seq<Chunk>)
    requires |rest| % 2 == 0
    ensures var r := Fill(partial, rest);
            r.0 + r.1 == partial + rest && |partial| <= |r.0| && (|r.0| - |partial|) % 2 == 0 && |r.1| % 2 == 0
    decreases |rest|
  {
    if ScriptSize(partial) <= MAX_PAYLOAD_LEN && |rest| > 0 {
      var p2, rest2 := partial + rest[..2], rest[2..];
      assert Fill(partial, rest) == Fill(p2, rest2);
      FillConcat(p2, rest2);
      assert p2 + rest2 == partial + rest;
    } else {
      assert Fill(partial, rest) == (partial, rest);
    }
  }

  /** When the leg is within the ceiling and chunks remain, the inner loop moves at least one pair. */
  lemma FillShape(partial: seq<Chunk>, rest: seq<Chunk>)
    requires |rest| % 2 == 0
    ensures var r := Fill(partial, rest);
            r.0 + r.1 == partial + rest &&
            |partial| <= |r.0| && (|r.0| - |partial|) % 2 == 0 && |r.1| % 2 == 0 &&
            (ScriptSize(partial) <= MAX_PAYLOAD_LEN && rest != [] ==> |r.0| >= |partial| + 2)
  {
    FillConcat(partial, rest);
    if ScriptSize(partial) <= MAX_PAYLOAD_LEN && |rest| > 0 {
      var p2, rest2 := partial + rest[..2], rest[2..];
      assert Fill(partial, rest) == Fill(p2, rest2);
      FillConcat(p2, rest2);
    }
  }

  /**
   * The inner loop stops early only at the ceiling, and everything on the
   * leg but its last pair fits.
   */
  lemma {:induction false} FillSpec(partial: seq<Chunk>, rest: seq<Chunk>)
    requires |rest| % 2 == 0
    ensures var r := Fill(partial, rest);
            r.0 + r.1 == partial + rest &&
            |partial| <= |r.0| && (|r.0| - |partial|) % 2 == 0 && |r.1| % 2 == 0 &&
            (ScriptSize(partial) <= MAX_PAYLOAD_LEN && rest != [] ==> |r.0| >= |partial| + 2) &&
            (ScriptSize(r.0) <= MAX_PAYLOAD_LEN ==> r.1 == []) &&
            (|r.0| >= |partial| + 2 ==> ScriptSize(r.0[..|r.0| - 2]) <= MAX_PAYLOAD_LEN)
    decreases |rest|
  {
    FillShape(partial, rest);
    if ScriptSize(partial) <= MAX_PAYLOAD_LEN && |rest| > 0 {
      var p2, rest2 := partial + rest[..2], rest[2..];
      FillSpec(p2, rest2);
      var r := Fill(p2, rest2);
      assert Fill(partial, rest) == r;
      if |r.0| == |p2| {
        assert p2 + rest2 == partial + rest;
        assert r.0 == (p2 + rest2)[..|p2|];
        assert r.0[..|r.0| - 2] == partial;
      }
    }
  }

  /** Hand the overflowing pair back to the front of what is left. */
  function Trim(partial: seq<Chunk>, rest: seq<Chunk>): (seq<Chunk>, seq<Chunk>)
    requires ScriptSize(partial) > MAX_PAYLOAD_LEN ==> |partial| >= 2
  {
    if ScriptSize(partial) > MAX_PAYLOAD_LEN then (partial[..|partial| - 2], partial[|partial| - 2..] + rest)
    else (partial, rest)
  }

  /** The leg as it starts: the marker for the first leg, empty otherwise. */
  function Seed(rest: seq<Chunk>, first: bool): seq<Chunk>
    requires rest != []
  {
    if first then [rest[0]] else []
  }

  function Unseeded(rest: seq<Chunk>, first: bool): seq<Chunk>
    requires rest != []
  {
    if first then rest[1..] else rest
  }

  lemma SeedFacts(rest: seq<Chunk>, first: bool)
    requires rest != [] && Plannable(rest, first)
    ensures Seed(rest, first) + Unseeded(rest, first) == rest
    ensures |Unseeded(rest, first)| % 2 == 0 && PairsFit(Unseeded(rest, first))
    ensures ScriptSize(Seed(rest, first)) <= MAX_PAYLOAD_LEN
  {
    if first {
      assert [rest[0]][..0] == [];
    }
  }

  /** When the filled leg overflows, it holds a pair it can hand back (and, after the first leg, two). */
  lemma FillOverflow(rest: seq<Chunk>, first: bool)
    requires rest != [] && Plannable(rest, first)
    ensures var f := Fill(Seed(rest, first), Unseeded(rest, first));
            ScriptSize(f.0) > MAX_PAYLOAD_LEN ==>
              |f.0| >= |Seed(rest, first)| + 2 && (!first ==> |f.0| >= 4)
  {
    SeedFacts(rest, first);
    var p0, r0 := Seed(rest, first), Unseeded(rest, first);
    FillSpec(p0, r0);
    var f := Fill(p0, r0);
    if !first && |f.0| == 2 {
      assert f.0 == rest[..2];
      assert ScriptSize(f.0) == SerSize(rest[0]) + SerSize(rest[1]) by {
        assert f.0[..1] == [rest[0]] && [rest[0]][..0] == [];
      }
      assert SerSize(rest[2 * 0]) + SerSize(rest[2 * 0 + 1]) <= MAX_PAYLOAD_LEN;
    }
  }

  /** Cutting `a + b` at `k` within `a`, where `a + b` is also `x + y` with `x` no longer than `k`. */
  lemma Regroup<T>(a: seq<T>, b: seq<T>, k: nat, x: seq<T>, y: seq<T>)
    requires a + b == x + y && |x| <= k <= |a|
    ensures a[..k] + (a[k..] + b) == x + y
    ensures a[k..] + b == y[k - |x|..]
  {
    assert a[..k] + a[k..] == a;
    assert (a + b)[k..] == a[k..] + b;
    assert (x + y)[k..] == y[k - |x|..];
  }

  /** One leg and what is left after it. */
  function NextLeg(rest: seq<Chunk>, first: bool): (seq<Chunk>, seq<Chunk>)
    requires rest != [] && Plannable(rest, first)
  {
    SeedFacts(rest, first);
    FillOverflow(rest, first);
    var f := Fill(Seed(rest, first), Unseeded(rest, first));
    Trim(f.0, f.1)
  }

  /** What handing back the overflowing pair leaves: a leg that fits and a pair-aligned rest. */
  lemma TrimSpec(p0: seq<Chunk>, r0: seq<Chunk>, f0: seq<Chunk>, f1: seq<Chunk>)
    requires PairsFit(r0)
    requires f0 + f1 == p0 + r0 && |p0| <= |f0| && (|f0| - |p0|) % 2 == 0
    requires ScriptSize(f0) <= MAX_PAYLOAD_LEN ==> f1 == []
    requires ScriptSize(f0) > MAX_PAYLOAD_LEN ==> |f0| >= |p0| + 2 && ScriptSize(f0[..|f0| - 2]) <= MAX_PAYLOAD_LEN
    ensures Trim(f0, f1).0 + Trim(f0, f1).1 == p0 + r0
    ensures ScriptSize(Trim(f0, f1).0) <= MAX_PAYLOAD_LEN
    ensures |p0| <= |Trim(f0, f1).0| && (|Trim(f0, f1).0| - |p0|) % 2 == 0
    ensures Trim(f0, f1).1 != [] ==>
              |Trim(f0, f1).1| >= 2 && ScriptSize(Trim(f0, f1).0 + Trim(f0, f1).1[..2]) > MAX_PAYLOAD_LEN
    ensures PairsFit(Trim(f0, f1).1)
    ensures |Trim(f0, f1).0| >= |f0| - 2
  {
    if ScriptSize(f0) > MAX_PAYLOAD_LEN {
      var k := |f0| - 2;
      var kept, back := f0[..k], f0[k..];
      var r := Trim(f0, f1);
      assert r == (kept, back + f1);
      Regroup(f0, f1, k, p0, r0);
      assert r.1[..2] == back;
      assert kept + back == f0;
      assert r.0 + r.1[..2] == f0;
      var j := (k - |p0|) / 2;
      assert 2 * j == k - |p0|;
      assert r.1 == r0[2 * j..];
      PairsFitSuffix(r0, j);
    } else {
      assert f1 == [];
    }
  }

  /** The leg the planner takes is the filled leg, trimmed. */
  lemma NextLegTrims(rest: seq<Chunk>, first: bool)
    requires rest != [] && Plannable(rest, first)
    ensures var f := Fill(Seed(rest, first), Unseeded(rest, first));
            var p0 := Seed(rest, first);
            var r := NextLeg(rest, first);
            r.0 + r.1 == rest &&
            ScriptSize(r.0) <= MAX_PAYLOAD_LEN &&
            |p0| <= |r.0| && (|r.0| - |p0|) % 2 == 0 && |r.0| >= |f.0| - 2 &&
            (r.1 != [] ==> |r.1| >= 2 && ScriptSize(r.0 + r.1[..2]) > MAX_PAYLOAD_LEN) &&
            PairsFit(r.1)
  {
    SeedFacts(rest, first);
    FillOverflow(rest, first);
    var p0, r0 := Seed(rest, first), Unseeded(rest, first);
    FillSpec(p0, r0);
    var f := Fill(p0, r0);
    TrimSpec(p0, r0, f.0, f.1);
  }

  /**
   * A leg is a prefix of what is left, within the ceiling, pair-aligned,
   * non-empty, and closed only when the next pair would overflow it; what
   * is left after it can be planned again.
   */
  lemma NextLegSpec(rest: seq<Chunk>, first: bool)
    requires rest != [] && Plannable(rest, first)
    ensures NextLeg(rest, first).0 + NextLeg(rest, first).1 == rest
    ensures ScriptSize(NextLeg(rest, first).0) <= MAX_PAYLOAD_LEN
    ensures first ==> |NextLeg(rest, first).0| % 2 == 1 && |NextLeg(rest, first).0| > 0 &&
                      NextLeg(rest, first).0[0] == rest[0]
    ensures !first ==> |NextLeg(rest, first).0| % 2 == 0 && |NextLeg(rest, first).0| >= 2
    ensures NextLeg(rest, first).1 != [] ==>
              |NextLeg(rest, first).1| >= 2 &&
              ScriptSize(NextLeg(rest, first).0 + NextLeg(rest, first).1[..2]) > MAX_PAYLOAD_LEN
    ensures Plannable(NextLeg(rest, first).1, false)
  {
    NextLegTrims(rest, first);
    if first {
      NextLegFirst(rest);
    } else {
      NextLegLater(rest);
    }
  }

  lemma NextLegFirst(rest: seq<Chunk>)
    requires rest != [] && Plannable(rest, true)
    ensures |NextLeg(rest, true).0| % 2 == 1 && NextLeg(rest, true).0[0] == rest[0]
  {
    NextLegTrims(rest, true);
    var r := NextLeg(rest, true);
    assert |Seed(rest, true)| == 1;
    assert (r.0 + r.1)[0] == rest[0];
  }

  lemma NextLegLater(rest: seq<Chunk>)
    requires rest != [] && Plannable(rest, false)
    ensures |NextLeg(rest, false).0| % 2 == 0 && |NextLeg(rest, false).0| >= 2
  {
    NextLegTrims(rest, false);
    SeedFacts(rest, false);
    FillOverflow(rest, false);
    FillSpec([], rest);
    assert Seed(rest, false) == [] && Unseeded(rest, false) == rest;
    assert ScriptSize(Seed(rest, false)) == 0;
  }

  /** The legs the planner produces from `rest`. */
  function Legs(rest: seq<Chunk>, first: bool): seq<seq<Chunk>>
    requires Plannable(rest, first)
    decreases |rest|
  {
    if rest == [] then []
    else
      NextLegSpec(rest, first);
      var (leg, left) := NextLeg(rest, first);
      [leg] + Legs(left, false)
  }

  lemma LegsStep(rest: seq<Chunk>, first: bool)
    requires rest != [] && Plannable(rest, first)
    ensures |NextLeg(rest, first).1| < |rest|
    ensures Plannable(NextLeg(rest, first).1, false) &&
            Legs(rest, first) == [NextLeg(rest, first).0] + Legs(NextLeg(rest, first).1, false)
  {
    NextLegSpec(rest, first);
  }

  /** Leg i was closed because the first pair of leg i+1 would have overflowed it. */
  ghost predicate ClosedByOverflow(legs: seq<seq<Chunk>>, i: nat) {
    i + 1 < |legs| && |legs[i + 1]| >= 2 && ScriptSize(legs[i] + legs[i + 1][..2]) > MAX_PAYLOAD_LEN
  }

  function Flatten(legs: seq<seq<Chunk>>): seq<Chunk> {
    if legs == [] then [] else legs[0] + Flatten(legs[1..])
  }

  /** The legs concatenate back to the envelope: nothing is lost, duplicated or reordered. */
  lemma {:induction false} LegsConcat(rest: seq<Chunk>, first: bool)
    requires Plannable(rest, first)
    ensures Flatten(Legs(rest, first)) == rest
    decreases |rest|
  {
    if rest != [] {
      NextLegSpec(rest, first);
      var (leg, left) := NextLeg(rest, first);
      LegsConcat(left, false);
      assert Legs(rest, first) == [leg] + Legs(left, false);
      assert Legs(rest, first)[1..] == Legs(left, false);
    }
  }

  /**
   * Every leg is non-empty and within the ceiling; the first leg starts with
   * the marker and has odd length, every later leg even length, so no
   * (number, data) pair is ever split across legs.
   */
  lemma {:induction false} LegsShape(rest: seq<Chunk>, first: bool)
    requires Plannable(rest, first)
    ensures forall i :: 0 <= i < |Legs(rest, first)| ==>
              |Legs(rest, first)[i]| > 0 && ScriptSize(Legs(rest, first)[i]) <= MAX_PAYLOAD_LEN
    ensures first ==> |Legs(rest, first)| > 0 && |Legs(rest, first)[0]| % 2 == 1 && Legs(rest, first)[0][0] == rest[0]
    ensures forall i :: (if first then 1 else 0) <= i < |Legs(rest, first)| ==> |Legs(rest, first)[i]| % 2 == 0
    decreases |rest|
  {
    if rest != [] {
      NextLegSpec(rest, first);
      var (leg, left) := NextLeg(rest, first);
      LegsShape(left, false);
      var legs, tail := Legs(rest, first), Legs(left, false);
      assert legs == [leg] + tail;
      forall i | 0 <= i < |legs|
        ensures |legs[i]| > 0 && ScriptSize(legs[i]) <= MAX_PAYLOAD_LEN
        ensures (if first then 1 else 0) <= i ==> |legs[i]| % 2 == 0
      {
        if i > 0 {
          assert legs[i] == tail[i - 1];
        }
      }
    }
  }

  /** A leg is closed only when the first pair of the next leg would have overflowed it. */
  lemma {:induction false} LegsClosed(rest: seq<Chunk>, first: bool)
    requires Plannable(rest, first)
    ensures forall i :: 0 <= i < |Legs(rest, first)| - 1 ==> ClosedByOverflow(Legs(rest, first), i)
    decreases |rest|
  {
    if rest != [] {
      LegsStep(rest, first);
      var (leg, left) := NextLeg(rest, first);
      LegsClosed(left, false);
      FirstLegClosed(rest, first);
      ClosedShift(leg, Legs(left, false));
    }
  }

  /** The first leg is closed by the overflow of the next leg's first pair. */
  lemma FirstLegClosed(rest: seq<Chunk>, first: bool)
    requires rest != [] && Plannable(rest, first)
    ensures |Legs(rest, first)| > 1 ==> ClosedByOverflow(Legs(rest, first), 0)
  {
    LegsStep(rest, first);
    NextLegSpec(rest, first);
    var (leg, left) := NextLeg(rest, first);
    var tail := Legs(left, false);
    if tail != [] {
      LegsConcat(left, false);
      LegsShape(left, false);
      assert left == tail[0] + Flatten(tail[1..]);
      assert tail[0][..2] == left[..2];
      assert Legs(rest, first)[1] == tail[0];
    }
  }

  /** Putting a leg in front shifts the closed legs by one. */
  lemma ClosedShift(leg: seq<Chunk>, tail: seq<seq<Chunk>>)
    requires forall i :: 0 <= i < |tail| - 1 ==> ClosedByOverflow(tail, i)
    ensures forall i :: 1 <= i < |tail| ==> ClosedByOverflow([leg] + tail, i)
  {
    forall i | 1 <= i < |tail|
      ensures ClosedByOverflow([leg] + tail, i)
    {
      assert ClosedByOverflow(tail, i - 1);
      assert ([leg] + tail)[i] == tail[i - 1] && ([leg] + tail)[i + 1] == tail[i];
    }
  }

  lemma FillStep(partial: seq<Chunk>, rest: seq<Chunk>)
    requires |rest| % 2 == 0 && |rest| > 0 && ScriptSize(partial) <= MAX_PAYLOAD_LEN
    ensures Fill(partial, rest) == Fill(partial + [rest[0], rest[1]], rest[2..])
  {
    assert [rest[0], rest[1]] == rest[..2];
  }

  /** The inner loop of `inscribe`: move pairs into the leg while it is within the ceiling. */
  method FillLeg(seed: seq<Chunk>, rest: seq<Chunk>) returns (partial: seq<Chunk>, left: seq<Chunk>)
    requires |rest| % 2 == 0
    ensures (partial, left) == Fill(seed, rest)
  {
    partial, left := seed, rest;
    while ScriptSize(partial) <= MAX_PAYLOAD_LEN && |left| > 0
      invariant |left| % 2 == 0
      invariant Fill(partial, left) == Fill(seed, rest)
      decreases |left|
    {
      FillStep(partial, left);
      partial, left := partial + [left[0], left[1]], left[2..];
    }
  }

  /** The loops of `inscribe` that cut one leg off the envelope. */
  method TakeLeg(rest: seq<Chunk>, first: bool) returns (partial: seq<Chunk>, left: seq<Chunk>)
    requires rest != [] && Plannable(rest, first)
    ensures (partial, left) == NextLeg(rest, first)
  {
    SeedFacts(rest, first);
    FillOverflow(rest, first);
    if first {
      partial, left := FillLeg([rest[0]], rest[1..]);
    } else {
      partial, left := FillLeg([], rest);
    }
    if ScriptSize(partial) > MAX_PAYLOAD_LEN {
      left := partial[|partial| - 2..] + left;
      partial := partial[..|partial| - 2];
    }
  }
}
