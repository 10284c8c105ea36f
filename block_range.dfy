/**
 * Resolution of the `describe <start> [end]` arguments into the list of
 * block numbers to fetch (`getBlockRange`). The chain head returned by
 * `getBlockNumber` is the parameter `head`.
 */
module BlockRange {
  import opened Wrappers

  function Min(a: int, b: int): int
  {
    if a <= b then a else b
  }

  /**
   * lodash's `_.range(from, to)` called without a step, for integer
   * bounds: `to` is excluded, and the step is +1 when `from < to` and -1
   * otherwise, so an inverted pair counts down.
   */
  function LodashRange(from: int, to: int): seq<int>
  {
    if from < to then seq(to - from, i => from + i) else seq(from - to, i => from - i)
  }

  /** JavaScript truthiness of the optional `end`: undefined and 0 are both falsy. */
  predicate EndGiven(end: Option<int>)
  {
    end.Some? && end.value != 0
  }

  /** Each element is one more than the one before it. */
  predicate Consecutive(r: seq<int>)
  {
    forall i :: 0 < i < |r| ==> r[i] == r[i - 1] + 1
  }

  /**
   * With a (truthy) end, the inclusive range start..end; without one, the
   * last `start` blocks and the head, or all blocks 0..head when `start`
   * reaches back past the genesis block.
   */
  function GetBlockRange(start: int, end: Option<int>, head: nat): (r: seq<int>)
    ensures EndGiven(end) && start <= end.value ==>
              |r| == end.value - start + 1 &&
              forall i :: 0 <= i < |r| ==> r[i] == start + i
    ensures !EndGiven(end) && 0 <= start ==>
              |r| == Min(start, head) + 1 && Consecutive(r) &&
              r[0] == (if start > head then 0 else head - start) &&
              r[|r| - 1] == head
  {
    if !EndGiven(end) then
      if start > head then LodashRange(0, head + 1) else LodashRange(head - start, head + 1)
    else
      LodashRange(start, end.value + 1)
  }

  /**
   * Because the test is `!end`, an explicit end of 0 is read as "no end":
   * the range still ends at the head, not at block 0.
   */
  lemma ZeroEndMeansNoEnd(start: int, head: nat)
    ensures GetBlockRange(start, Some(0), head) == GetBlockRange(start, None, head)
    ensures 0 <= start ==>
              var r := GetBlockRange(start, Some(0), head);
              |r| == Min(start, head) + 1 && r[|r| - 1] == head
  {
  }

  /** With a truthy end, the chain head plays no part. */
  lemma GivenEndIgnoresHead(start: int, end: Option<int>, head1: nat, head2: nat)
    requires EndGiven(end)
    ensures GetBlockRange(start, end, head1) == GetBlockRange(start, end, head2)
  {
  }

  /**
   * Called directly with end < start (the command line rejects this
   * first), lodash counts down from start to end + 2.
   */
  lemma InvertedEndCountsDown(start: int, end: Option<int>, head: nat)
    requires EndGiven(end) && end.value < start
    ensures var r := GetBlockRange(start, end, head);
            |r| == start - end.value - 1 &&
            forall i :: 0 <= i < |r| ==> r[i] == start - i
  {
  }

  /**
   * The range is empty exactly when lodash is handed equal bounds: an end
   * one below the start, or no end and a start of -1.
   */
  lemma EmptyRange(start: int, end: Option<int>, head: nat)
    ensures GetBlockRange(start, end, head) == [] <==>
              if EndGiven(end) then end.value == start - 1 else start == -1
  {
    var r := GetBlockRange(start, end, head);
    if !EndGiven(end) && start != -1 {
      if start > head {
        assert r == LodashRange(0, head + 1);
      } else {
        assert r == LodashRange(head - start, head + 1);
      }
      assert |r| != 0;
    }
  }
}
