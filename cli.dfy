/**
 * The command line `describe <start> [end]`: the `.check` callback that
 * validates the positional arguments before the report runs.
 */
module Cli {
  import opened Wrappers
  import opened Chain
  import opened BlockRange
  import opened Blocks
  import opened Reporting

  /** What `.check` decides: accept, or throw with a message. */
  datatype Verdict = Accepted | Rejected(message: string)

  const NotPositive: string := "Only positive values may be passed"
  const EndBeforeStart: string := "End block must come after start block"

  /**
   * The `.check` predicate. An absent end compares false with everything,
   * so it never triggers either end-related rejection.
   */
  function Check(start: int, end: Option<int>): (v: Verdict)
    ensures v == Rejected(NotPositive) <==> start < 0 || (end.Some? && end.value < 0)
    ensures v == Rejected(EndBeforeStart) <==> 0 <= start && end.Some? && 0 <= end.value < start
    ensures v == Accepted <==> 0 <= start && (end.Some? ==> start <= end.value)
    ensures end == None ==> (v == Accepted <==> 0 <= start)
  {
    if start < 0 || (end.Some? && end.value < 0) then Rejected(NotPositive)
    else if end.Some? && end.value < start then Rejected(EndBeforeStart)
    else Accepted
  }

  /**
   * Whatever passes the check resolves to a non-empty run of consecutive
   * block numbers, none negative: start..end for a truthy end, ending at
   * the head otherwise.
   */
  lemma AcceptedRange(start: int, end: Option<int>, head: nat)
    requires Check(start, end) == Accepted
    ensures var r := GetBlockRange(start, end, head);
            && |r| >= 1
            && Consecutive(r)
            && (forall i :: 0 <= i < |r| ==> r[i] >= 0)
            && (EndGiven(end) ==> r[0] == start && r[|r| - 1] == end.value)
            && (!EndGiven(end) ==> r[|r| - 1] == head)
  {
    var r := GetBlockRange(start, end, head);
    if !EndGiven(end) {
      forall i | 0 <= i < |r| ensures r[i] >= 0 {
        if start > head {
          assert r == LodashRange(0, head + 1);
        } else {
          assert r == LodashRange(head - start, head + 1);
        }
      }
    }
  }

  /** What the process does: print a usage error, or run the command. */
  datatype Run = UsageError(message: string) | Completed(outcome: Outcome)

  /** `blockexplr describe <start> [end]`: the check, then `createReport`. */
  method Describe(start: int, end: Option<int>, head: nat, getBlock: int -> Option<Block>,
                  getCode: Address -> string)
    returns (run: Run)
    ensures Check(start, end).Rejected? ==> run == UsageError(Check(start, end).message)
    ensures Check(start, end) == Accepted ==>
              var blocks := Existing(GetBlockRange(start, end, head), getBlock);
              run == Completed(if blocks == [] then NoBlocks else Printed(ReportOf(blocks, getCode)))
    ensures Check(start, end) == Accepted ==>
              && run.Completed?
              && run.outcome != Failed
              && (run.outcome == NoBlocks <==>
                    forall n :: n in GetBlockRange(start, end, head) ==> getBlock(n) == None)
  {
    var verdict := Check(start, end);
    if verdict.Rejected? {
      run := UsageError(verdict.message);
    } else {
      AcceptedRange(start, end, head);
      var outcome := CreateReport(start, end, head, getBlock, getCode);
      run := Completed(outcome);
    }
  }
}
