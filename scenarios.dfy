/** Worked examples of the whole aggregation, stated through the reference definitions. */
module Scenarios {
  import opened Wrappers
  import opened Chain
  import opened BlockRange
  import opened Ledgers
  import opened Contracts
  import opened Aggregation
  import opened Json
  import opened Reporting

  const A: Address := "0xaa"
  const B: Address := "0xbb"
  const C: Address := "0xcc"

  /** Only B holds code. */
  function CodeOnlyAtB(a: Address): string
  {
    if a == B then "0x6080" else NoCode
  }

  const T1: Transaction := Transaction(Some(A), Some(B), 5)
  const T2: Transaction := Transaction(Some(B), Some(C), 3)

  /** The three addresses are different. */
  lemma AddressesDiffer()
    ensures A != B && B != C && A != C
  {
    assert A[2] != B[2] && B[2] != C[2] && A[2] != C[2];
  }

  /** The ledgers and the total of A -> B (5) followed by B -> C (3). */
  lemma TwoTransfersLedgers()
    ensures Sum([T1, T2], Every) == 8
    ensures LedgerOf([T1, T2], Sender) == LedgerView([A, B], map[A := 5, B := 3])
    ensures LedgerOf([T1, T2], Recipient) == LedgerView([B, C], map[B := 5, C := 3])
  {
    AddressesDiffer();
    assert [T1, T2][..1] == [T1] && [T1][..0] == [];
    assert Sum([T1], Every) == 5;
    assert LedgerOf([T1], Sender) == LedgerView([A], map[A := 5]);
    assert LedgerOf([T1], Recipient) == LedgerView([B], map[B := 5]);
  }

  /** Of the parties of the two transfers, only B holds code. */
  lemma TwoTransfersContracts()
    ensures Parties([T1, T2]) == [Some(A), Some(B), Some(B), Some(C)]
    ensures Discovered(Parties([T1, T2]), CodeOnlyAtB) == {B}
  {
    AddressesDiffer();
    assert [T1, T2][..1] == [T1] && [T1][..0] == [];
    assert Parties([T1]) == [Some(A), Some(B)];
  }

  /** The summary of block 100 holding the two transfers. */
  lemma TwoTransfersSummary()
    ensures Aggregate([Block(100, [T1, T2])], CodeOnlyAtB)
            == Summary(8, LedgerView([A, B], map[A := 5, B := 3]), LedgerView([B, C], map[B := 5, C := 3]), {B})
  {
    var blocks := [Block(100, [T1, T2])];
    assert blocks[..0] == [];
    assert Txs(blocks) == [T1, T2];
    TwoTransfersLedgers();
    TwoTransfersContracts();
  }

  /**
   * Block 100 of a chain whose head is 120, with A -> B (5) and B -> C (3): total 8, senders A: 5 and
   * B: 3, recipients B: 5 and C: 3, and B the only contract.
   */
  lemma TwoTransfers()
    ensures GetBlockRange(100, Some(100), 120) == [100]
    ensures ReportOf([Block(100, [T1, T2])], CodeOnlyAtB)
            == Report(8, [Entry(A, 5, false), Entry(B, 3, true)], [Entry(B, 5, true), Entry(C, 3, false)])
  {
    TwoTransfersSummary();
    AddressesDiffer();
    var senders := LedgerView([A, B], map[A := 5, B := 3]);
    var recipients := LedgerView([B, C], map[B := 5, C := 3]);
    assert [A, B][..1] == [A] && [B, C][..1] == [B];
    assert Entries(senders.keys, senders.values, {B}) == [Entry(A, 5, false), Entry(B, 3, true)];
    assert Entries(recipients.keys, recipients.values, {B}) == [Entry(B, 5, true), Entry(C, 3, false)];
  }

  /** Blocks without transactions give a zero total and empty lists. */
  lemma {:induction false} NoTransactions(blocks: seq<Block>, getCode: Address -> string)
    requires forall b :: b in blocks ==> b.transactions == []
    ensures Txs(blocks) == []
    ensures ReportOf(blocks, getCode) == Report(0, [], [])
  {
    if blocks != [] {
      var prefix := blocks[..|blocks| - 1];
      assert blocks[|blocks| - 1] in blocks;
      assert forall b :: b in prefix ==> b in blocks;
      NoTransactions(prefix, getCode);
    }
  }

  /**
   * Only found contracts are remembered: a plain address is looked up again
   * each time it reappears, a contract only once, and a falsy address never.
   */
  lemma RepeatedLookups()
    ensures Classify([Some(A), Some(A)], {}, CodeOnlyAtB) == Classified({}, [A, A])
    ensures Classify([Some(B), Some(B)], {}, CodeOnlyAtB) == Classified({B}, [B])
    ensures Classify([None, Some(""), Some(B)], {B}, CodeOnlyAtB) == Classified({B}, [])
  {
    AddressesDiffer();
    assert CodeOnlyAtB(A) == NoCode && CodeOnlyAtB(B) != NoCode;
    assert [Some(A)][1..] == [] && [Some(B)][1..] == [];
    assert Classify([Some(A)], {}, CodeOnlyAtB) == Classified({}, [A]);
    assert Classify([Some(B)], {}, CodeOnlyAtB) == Classified({B}, [B]);
    assert Classify([Some(B)], {B}, CodeOnlyAtB) == Classified({B}, []);
    assert [Some(A), Some(A)][1..] == [Some(A)];
    assert [Some(B), Some(B)][1..] == [Some(B)];
    assert [None, Some(""), Some(B)][1..] == [Some(""), Some(B)];
    assert [Some(""), Some(B)][1..] == [Some(B)];
    assert Classify([Some(""), Some(B)], {B}, CodeOnlyAtB) == Classified({B}, []);
  }
}
