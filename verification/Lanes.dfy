/**
 Finite lanes: the batch of work items that each turn of a slot may see.

 A lane is cut into batches of `size` items. A thread that takes a slot over after
 `completed` rounds gets the suffix of the lane as its binding and counts its own
 turns from one.
 */
module Lanes {
  import opened Basics

  datatype Lane = Lane(candidates: seq<int>, size: int)

  datatype LaneError = BadBatchSize | BadCandidates | NoCandidates

  predicate Distinct(ids: seq<int>) {
    forall i, j :: 0 <= i < j < |ids| ==> ids[i] != ids[j]
  }

  predicate Valid(lane: Lane) {
    && lane.size >= 1
    && lane.candidates != []
    && (forall i :: 0 <= i < |lane.candidates| ==> lane.candidates[i] >= 1)
    && Distinct(lane.candidates)
  }

  /** `ids[start:stop]` for non-negative bounds, which may lie past the end. */
  function Slice(ids: seq<int>, start: nat, stop: nat): seq<int>
    requires start <= stop
  {
    ids[Min(start, |ids|)..Min(stop, |ids|)]
  }

  /** Rounds that a lane takes: the number of batches, rounded up. */
  function Rounds(lane: Lane): nat
    requires lane.size >= 1
  {
    (|lane.candidates| + lane.size - 1) / lane.size
  }

  function LaneBatchIds(lane: Lane, turn: int): Result<seq<int>, LaneError> {
    if lane.size < 1 then Err(BadBatchSize)
    else if !Valid(lane) then Err(BadCandidates)
    else if !(1 <= turn <= Rounds(lane)) then Err(NoCandidates)
    else Ok(Slice(lane.candidates, (turn - 1) * lane.size, (turn - 1) * lane.size + lane.size))
  }

  /** The binding of a thread that starts after `completed` rounds. */
  function HolderBinding(lane: Lane, completed: nat): Result<Lane, LaneError> {
    if lane.size < 1 then Err(BadBatchSize)
    else Ok(lane.(candidates := lane.candidates[Min(completed * lane.size, |lane.candidates|)..]))
  }

  lemma MulLe(a: int, b: int, k: nat)
    requires a <= b
    ensures a * k <= b * k
  {
  }

  lemma RoundsBound(lane: Lane, c: nat)
    requires lane.size >= 1
    ensures c < Rounds(lane) <==> c * lane.size < |lane.candidates|
  {
    var a, k, q := |lane.candidates| + lane.size - 1, lane.size, Rounds(lane);
    assert a == q * k + a % k;
    if c < q {
      MulLe(c + 1, q, k);
      assert (c + 1) * k == c * k + k;
    } else {
      MulLe(q, c, k);
    }
  }

  /** A thread's lane runs out exactly when the whole lane does. */
  lemma SuffixRounds(lane: Lane, c: nat)
    requires Valid(lane) && c <= Rounds(lane)
    ensures HolderBinding(lane, c).Ok?
    ensures Rounds(HolderBinding(lane, c).value) == Rounds(lane) - c
  {
    var k, q := lane.size, Rounds(lane);
    var suffix := HolderBinding(lane, c).value;
    RoundsBound(lane, c);
    if c < q {
      assert |suffix.candidates| == |lane.candidates| - c * k;
      DivideShifted(|suffix.candidates| + k - 1, c, k);
    }
  }

  lemma DivideShifted(a: nat, c: nat, k: nat)
    requires k > 0
    ensures (a + c * k) / k == a / k + c
  {
    var q, r := a / k, a % k;
    assert (q + c) * k == q * k + c * k;
    UniqueQuotient(a + c * k, k, q + c, r);
  }

  lemma UniqueQuotient(a: nat, k: nat, q: nat, r: nat)
    requires k > 0 && r < k && a == q * k + r
    ensures a / k == q
  {
    var d, m := a / k, a % k;
    assert a == d * k + m;
    assert (d - q) * k == d * k - q * k == r - m;
    if d > q { MulLe(1, d - q, k); }
    if d < q { MulLe(d - q, -1, k); }
  }

  /**
   Turn `k` of a thread that took over after `c` rounds sees the batch of round `c + k`, and it
   has no batch exactly when the whole lane has none for that round.
   */
  lemma SuffixBatch(lane: Lane, c: nat, k: int)
    requires Valid(lane) && k >= 1
    ensures HolderBinding(lane, c).Ok?
    ensures LaneBatchIds(HolderBinding(lane, c).value, k).Ok? <==> c + k <= Rounds(lane)
    ensures c + k <= Rounds(lane) ==>
              LaneBatchIds(HolderBinding(lane, c).value, k) == LaneBatchIds(lane, c + k)
  {
    var s, n := lane.size, |lane.candidates|;
    var suffix := HolderBinding(lane, c).value;
    RoundsBound(lane, c);
    if c < Rounds(lane) {
      SuffixRounds(lane, c);
      assert suffix.candidates == lane.candidates[c * s..];
      assert Valid(suffix);
      if c + k <= Rounds(lane) {
        var a := (k - 1) * s;
        assert (c + k - 1) * s == c * s + a;
        RoundsBound(lane, c + k - 1);
        assert Slice(suffix.candidates, a, a + s) == Slice(lane.candidates, c * s + a, c * s + a + s);
      }
    } else {
      assert suffix.candidates == [];
    }
  }

  /** The batches of `turns` successive turns of a thread that took over after `c` rounds. */
  function Exposed(lane: Lane, c: nat, turns: nat): seq<int>
    requires Valid(lane) && c + turns <= Rounds(lane)
    decreases turns
  {
    if turns == 0 then []
    else
      SuffixBatch(lane, c, turns);
      Exposed(lane, c, turns - 1) + LaneBatchIds(HolderBinding(lane, c).value, turns).value
  }

  lemma SliceJoin(ids: seq<int>, a: nat, b: nat, c: nat)
    requires a <= b <= c
    ensures Slice(ids, a, b) + Slice(ids, b, c) == Slice(ids, a, c)
  {
  }

  /** Batch `k` ends where batch `k + 1` starts. */
  lemma RoundEdges(lane: Lane, k: nat)
    requires Valid(lane) && 1 <= k <= Rounds(lane)
    ensures 0 <= (k - 1) * lane.size <= k * lane.size == (k - 1) * lane.size + lane.size
    ensures LaneBatchIds(lane, k) == Ok(Slice(lane.candidates, (k - 1) * lane.size, k * lane.size))
  {
  }

  /** A thread sees one contiguous stretch of the lane, in order. */
  lemma {:induction false} ExposedStretch(lane: Lane, c: nat, turns: nat)
    requires Valid(lane) && c + turns <= Rounds(lane)
    ensures 0 <= c * lane.size <= (c + turns) * lane.size
    ensures Exposed(lane, c, turns) == Slice(lane.candidates, c * lane.size, (c + turns) * lane.size)
  {
    MulLe(0, c, lane.size);
    if turns > 0 {
      ExposedStretch(lane, c, turns - 1);
      SuffixBatch(lane, c, turns);
      RoundEdges(lane, c + turns);
      SliceJoin(lane.candidates, c * lane.size, (c + turns - 1) * lane.size, (c + turns) * lane.size);
    }
  }

  /** The items of the first `k` rounds. */
  function Prefix(lane: Lane, k: nat): seq<int>
    requires Valid(lane)
  {
    Slice(lane.candidates, 0, k * lane.size)
  }

  /** A thread that took over after `c` rounds goes on where the first `c` rounds end. */
  lemma ExposedExtends(lane: Lane, c: nat, turns: nat)
    requires Valid(lane) && c + turns <= Rounds(lane)
    ensures Prefix(lane, c) + Exposed(lane, c, turns) == Prefix(lane, c + turns)
  {
    ExposedStretch(lane, c, turns);
    SliceJoin(lane.candidates, 0, c * lane.size, (c + turns) * lane.size);
  }

  /** All rounds together are the whole lane. */
  lemma PrefixIsWhole(lane: Lane)
    requires Valid(lane)
    ensures Prefix(lane, 0) == [] && Prefix(lane, Rounds(lane)) == lane.candidates
  {
  }

  /** An item is in a batch exactly when its position lies between the edges of the round. */
  lemma ItemInBatch(lane: Lane, p: nat, k: int)
    requires Valid(lane) && p < |lane.candidates| && 1 <= k <= Rounds(lane)
    ensures LaneBatchIds(lane, k).Ok?
    ensures lane.candidates[p] in LaneBatchIds(lane, k).value <==> (k - 1) * lane.size <= p < k * lane.size
  {
    var ids, a, b := lane.candidates, (k - 1) * lane.size, k * lane.size;
    RoundEdges(lane, k);
    var batch := Slice(ids, a, b);
    if a <= p < b {
      assert batch[p - a] == ids[p];
    }
    if ids[p] in batch {
      var j :| 0 <= j < |batch| && batch[j] == ids[p];
      assert ids[a + j] == ids[p];
    }
  }

  lemma RoundOfPosition(p: nat, s: nat, k: nat)
    requires s > 0 && k >= 1
    ensures (k - 1) * s <= p < k * s <==> k == p / s + 1
  {
    var q, r := p / s, p % s;
    assert p == q * s + r;
    assert k * s == (k - 1) * s + s;
    if (k - 1) * s <= p < k * s {
      UniqueQuotient(p, s, k - 1, p - (k - 1) * s);
    }
  }

  /** Every item belongs to exactly one round. */
  lemma ItemHasOneRound(lane: Lane, p: nat, k: int)
    requires Valid(lane) && p < |lane.candidates|
    requires 1 <= k <= Rounds(lane)
    ensures LaneBatchIds(lane, k).Ok?
    ensures lane.candidates[p] in LaneBatchIds(lane, k).value <==> k == p / lane.size + 1
  {
    ItemInBatch(lane, p, k);
    RoundOfPosition(p, lane.size, k);
  }

  /** The last round of a lane ends with its last item, so the rounds are never one too many. */
  lemma LastRoundNotEmpty(lane: Lane)
    requires Valid(lane)
    ensures Rounds(lane) >= 1
    ensures LaneBatchIds(lane, Rounds(lane)).Ok?
    ensures var batch := LaneBatchIds(lane, Rounds(lane)).value;
      batch != [] && batch[|batch| - 1] == lane.candidates[|lane.candidates| - 1]
  {
  }
}
