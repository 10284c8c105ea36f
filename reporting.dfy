/**
 * The report pipeline of `createReport` and `printReport`: fetch the
 * blocks of the range, say so when none exist, otherwise aggregate them and
 * build the report.
 */
module Reporting {
  import opened Wrappers
  import opened Chain
  import opened BlockRange
  import opened Blocks
  import opened Ledgers
  import opened Contracts
  import opened Aggregation
  import opened Json

  /** The report of a list of blocks, stated by the reference definitions. */
  function ReportOf(blocks: seq<Block>, getCode: Address -> string): Report
  {
    AggregateConservation(blocks, getCode);
    var s := Aggregate(blocks, getCode);
    GetJson(s.total, s.senders, s.recipients, s.contracts)
  }

  /** Every address that has a ledger entry occurs among the parties handed to the classifier. */
  lemma LedgerKeysAreParties(txs: seq<Transaction>, side: Side, k: Address)
    requires k in LedgerOf(txs, side).values
    ensures Some(k) in Parties(txs) && k != ""
  {
    LedgerKeys(txs, side);
    var i :| 0 <= i < |txs| && Party(txs[i], side) == Some(k);
    PartyInParties(txs, i, side);
  }

  lemma {:induction false} PartyInParties(txs: seq<Transaction>, i: nat, side: Side)
    requires i < |txs|
    ensures Party(txs[i], side) in Parties(txs)
  {
    var prefix := txs[..|txs| - 1];
    var last := txs[|txs| - 1];
    assert Parties(txs) == Parties(prefix) + [last.from, last.to];
    if i < |prefix| {
      assert txs[i] == prefix[i];
      PartyInParties(prefix, i, side);
    }
  }

  /** The `isContract` flag of every entry is exactly whether `getCode` reports code at that address. */
  lemma FlagMeansCode(blocks: seq<Block>, getCode: Address -> string)
    ensures var json := ReportOf(blocks, getCode);
            && (forall e :: e in json.senders ==> (e.isContract <==> getCode(e.sender) != NoCode))
            && (forall e :: e in json.recipients ==> (e.isContract <==> getCode(e.sender) != NoCode))
  {
    var txs := Txs(blocks);
    var s := Aggregate(blocks, getCode);
    AggregateConservation(blocks, getCode);
    var json := GetJson(s.total, s.senders, s.recipients, s.contracts);
    forall e | e in json.senders
      ensures e.isContract <==> getCode(e.sender) != NoCode
    {
      var i :| 0 <= i < |json.senders| && json.senders[i] == e;
      LedgerKeysAreParties(txs, Sender, s.senders.keys[i]);
    }
    forall e | e in json.recipients
      ensures e.isContract <==> getCode(e.sender) != NoCode
    {
      var i :| 0 <= i < |json.recipients| && json.recipients[i] == e;
      LedgerKeysAreParties(txs, Recipient, s.recipients.keys[i]);
    }
  }

  /**
   * `printReport` for the JSON output: compiles the transactions, then
   * builds the report. Also answers the `getCode` queries made, in order.
   */
  method PrintReport(blocks: seq<Block>, getCode: Address -> string) returns (report: Report, queried: seq<Address>)
    ensures report == ReportOf(blocks, getCode)
    ensures queried == Classify(Parties(Txs(blocks)), {}, getCode).queried
    ensures report.total == Sum(Txs(blocks), Every)
    ensures ReadBack(report.senders) == LedgerOf(Txs(blocks), Sender)
    ensures ReadBack(report.recipients) == LedgerOf(Txs(blocks), Recipient)
  {
    var summary;
    summary, queried := CompileTransactions(blocks, getCode);
    AggregateConservation(blocks, getCode);
    report := GetJson(summary.total, summary.senders, summary.recipients, summary.contracts);
    ReportRoundTrip(summary.total, summary.senders, summary.recipients, summary.contracts);
  }

  /**
   * What `createReport` ends with: the message that the range holds no
   * blocks, the report, or, for an empty range, the `TypeError` of reading
   * `blocks[0].length` on an empty array, which its `catch` logs.
   */
  datatype Outcome = NoBlocks | Printed(report: Report) | Failed

  /** `createReport` once the RPC calls are abstracted: `head`, `getBlock` and `getCode`. */
  method CreateReport(start: int, end: Option<int>, head: nat, getBlock: int -> Option<Block>,
                      getCode: Address -> string)
    returns (outcome: Outcome)
    ensures var range := GetBlockRange(start, end, head);
            var blocks := Existing(range, getBlock);
            outcome == if range == [] then Failed
                       else if blocks == [] then NoBlocks
                       else Printed(ReportOf(blocks, getCode))
    ensures outcome == NoBlocks <==>
              GetBlockRange(start, end, head) != [] &&
              forall n :: n in GetBlockRange(start, end, head) ==> getBlock(n) == None
  {
    var blocks, replies := GetBlocks(start, end, head, getBlock);
    ExistingMeaning(GetBlockRange(start, end, head), getBlock);
    if replies == 0 {
      outcome := Failed;
    } else if |blocks| == 0 {
      outcome := NoBlocks;
    } else {
      var report, _ := PrintReport(blocks, getCode);
      outcome := Printed(report);
    }
  }
}
