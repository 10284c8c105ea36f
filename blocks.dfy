/**
 * Fetching the blocks of the resolved range (`getBlocks`). The batched
 * `getBlock(n, true)` request is the oracle `getBlock`; None stands for the
 * `null` the node returns for a block that does not exist (yet).
 */
module Blocks {
  import opened Wrappers
  import opened Chain
  import opened BlockRange

  /** The blocks that exist among those requested, in request order. */
  function Existing(range: seq<int>, getBlock: int -> Option<Block>): seq<Block>
  {
    if range == [] then []
    else
      var prefix := Existing(range[..|range| - 1], getBlock);
      match getBlock(range[|range| - 1])
      case None => prefix
      case Some(b) => prefix + [b]
  }

  /**
   * Every kept block is the reply for some requested number, every non-null
   * reply is kept, there are at most as many blocks as requests, and none
   * is kept exactly when every reply is null.
   */
  lemma {:induction false} ExistingMeaning(range: seq<int>, getBlock: int -> Option<Block>)
    ensures var blocks := Existing(range, getBlock);
            && |blocks| <= |range|
            && (forall b :: b in blocks ==> exists n :: n in range && getBlock(n) == Some(b))
            && (forall n :: n in range && getBlock(n).Some? ==> getBlock(n).value in blocks)
            && (blocks == [] <==> forall n :: n in range ==> getBlock(n).None?)
  {
    if range != [] {
      var last := range[|range| - 1];
      ExistingMeaning(range[..|range| - 1], getBlock);
      assert range == range[..|range| - 1] + [last];
      assert last in range;
    }
  }

  /**
   * Requests every block of the range and keeps each reply that is not
   * null (the reply callback of `getBlocks`). `replies` is the length of
   * the array `Promise.all` resolves to: one element per request, each the
   * same shared array of blocks.
   */
  method GetBlocks(start: int, end: Option<int>, head: nat, getBlock: int -> Option<Block>)
    returns (blocks: seq<Block>, replies: nat)
    ensures blocks == Existing(GetBlockRange(start, end, head), getBlock)
    ensures replies == |GetBlockRange(start, end, head)|
  {
    var range := GetBlockRange(start, end, head);
    blocks := [];
    var i := 0;
    while i < |range|
      invariant 0 <= i <= |range|
      invariant blocks == Existing(range[..i], getBlock)
    {
      var block := getBlock(range[i]);
      if block != None {
        blocks := blocks + [block.value];
      }
      PrefixOfPrefix(range, i);
      i := i + 1;
    }
    FullPrefix(range);
    replies := |range|;
  }

  /**
   * A range that lies entirely past the head of a chain that has no blocks
   * beyond its head yields no blocks at all.
   */
  lemma BeyondHeadIsEmpty(start: int, end: Option<int>, head: nat, getBlock: int -> Option<Block>)
    requires forall n :: head < n ==> getBlock(n) == None
    requires EndGiven(end) && head < start <= end.value
    ensures Existing(GetBlockRange(start, end, head), getBlock) == []
  {
    var range := GetBlockRange(start, end, head);
    ExistingMeaning(range, getBlock);
    forall n | n in range ensures getBlock(n) == None {
      var i :| 0 <= i < |range| && range[i] == n;
    }
  }
}
