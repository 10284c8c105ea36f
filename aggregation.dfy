/**
 * The aggregation loop of `printReport`: for every transaction of every
 * block, in block-then-transaction order, add the value to the running
 * total, to the sender's and the recipient's ledger entries, and classify
 * both addresses.
 */
module Aggregation {
  import opened Wrappers
  import opened Chain
  import opened Ledgers
  import opened Contracts

  /** The two address fields of a transaction. */
  datatype Side = Sender | Recipient

  function Party(tx: Transaction, side: Side): Option<Address>
  {
    match side
    case Sender => tx.from
    case Recipient => tx.to
  }

  /** Which transactions a sum of values takes into account. */
  datatype Selector =
    | Every
    | Present(side: Side)
    | Absent(side: Side)
    | PartyIs(side: Side, address: Address)

  predicate Selects(sel: Selector, tx: Transaction)
  {
    match sel
    case Every => true
    case Present(side) => Truthy(Party(tx, side))
    case Absent(side) => !Truthy(Party(tx, side))
    case PartyIs(side, a) => Party(tx, side) == Some(a)
  }

  /** The sum of the values of the selected transactions: the reference the ledgers are measured against. */
  function Sum(txs: seq<Transaction>, sel: Selector): int
  {
    if txs == [] then 0
    else
      var last := txs[|txs| - 1];
      Sum(txs[..|txs| - 1], sel) + (if Selects(sel, last) then last.value else 0)
  }

  /** All transactions of the blocks, in block-then-transaction order. */
  function Txs(blocks: seq<Block>): seq<Transaction>
  {
    if blocks == [] then [] else Txs(blocks[..|blocks| - 1]) + blocks[|blocks| - 1].transactions
  }

  /** `[sender, recipient]` of every transaction, in order: what is handed to the classifier. */
  function Parties(txs: seq<Transaction>): seq<Option<Address>>
  {
    if txs == [] then []
    else
      var last := txs[|txs| - 1];
      Parties(txs[..|txs| - 1]) + [last.from, last.to]
  }

  /** The ledger of one side after `addToMap` has been applied for each transaction in turn. */
  function LedgerOf(txs: seq<Transaction>, side: Side): LedgerView
  {
    if txs == [] then EmptyLedger
    else
      var last := txs[|txs| - 1];
      Added(LedgerOf(txs[..|txs| - 1], side), Party(last, side), last.value)
  }

  /** The amount a ledger holds for an address, 0 when it has no entry. */
  function Amount(l: LedgerView, a: Address): int
  {
    if a in l.values then l.values[a] else 0
  }

  /** A ledger has an entry exactly for each truthy address that occurs on its side. */
  lemma {:induction false} LedgerKeys(txs: seq<Transaction>, side: Side)
    ensures forall k :: k in LedgerOf(txs, side).values <==>
              k != "" && exists i :: 0 <= i < |txs| && Party(txs[i], side) == Some(k)
  {
    if txs != [] {
      var prefix := txs[..|txs| - 1];
      var last := txs[|txs| - 1];
      LedgerKeys(prefix, side);
      forall k
        ensures (exists i :: 0 <= i < |txs| && Party(txs[i], side) == Some(k)) <==>
                (exists i :: 0 <= i < |prefix| && Party(prefix[i], side) == Some(k)) || Party(last, side) == Some(k)
      {
        if exists i :: 0 <= i < |txs| && Party(txs[i], side) == Some(k) {
          var i :| 0 <= i < |txs| && Party(txs[i], side) == Some(k);
          if i < |prefix| {
            assert prefix[i] == txs[i];
          }
        }
        if exists i :: 0 <= i < |prefix| && Party(prefix[i], side) == Some(k) {
          var i :| 0 <= i < |prefix| && Party(prefix[i], side) == Some(k);
          assert txs[i] == prefix[i];
        }
        if Party(last, side) == Some(k) {
          assert Party(txs[|txs| - 1], side) == Some(k);
        }
      }
    }
  }

  /** Each address's amount is the sum of the values it sent (or received). */
  lemma {:induction false} LedgerAmounts(txs: seq<Transaction>, side: Side)
    ensures forall k :: k != "" ==> Amount(LedgerOf(txs, side), k) == Sum(txs, PartyIs(side, k))
  {
    if txs != [] {
      LedgerAmounts(txs[..|txs| - 1], side);
    }
  }

  /** Conservation: a ledger's balance is the value of all transactions with a truthy address on its side. */
  lemma {:induction false} LedgerBalance(txs: seq<Transaction>, side: Side)
    ensures LedgerOf(txs, side).WellFormed()
    ensures Balance(LedgerOf(txs, side)) == Sum(txs, Present(side))
  {
    if txs != [] {
      var prefix := txs[..|txs| - 1];
      var last := txs[|txs| - 1];
      LedgerBalance(prefix, side);
      AddedBalance(LedgerOf(prefix, side), Party(last, side), last.value);
    }
  }

  /** The total splits into the value with and the value without an address on one side. */
  lemma {:induction false} SumSplit(txs: seq<Transaction>, side: Side)
    ensures Sum(txs, Every) == Sum(txs, Present(side)) + Sum(txs, Absent(side))
  {
    if txs != [] {
      SumSplit(txs[..|txs| - 1], side);
    }
  }

  /**
   * The three sums of the report: each ledger's balance is the value of the
   * transactions with a truthy address on its side, and the total is that
   * balance plus the value of the transactions without one. The contract
   * set is what the classification pass over all parties ends with.
   */
  lemma AggregateConservation(blocks: seq<Block>, getCode: Address -> string)
    ensures var s := Aggregate(blocks, getCode);
            var txs := Txs(blocks);
            && s.senders.WellFormed() && s.recipients.WellFormed()
            && Balance(s.senders) == Sum(txs, Present(Sender))
            && Balance(s.recipients) == Sum(txs, Present(Recipient))
            && s.total == Balance(s.senders) + Sum(txs, Absent(Sender))
            && s.total == Balance(s.recipients) + Sum(txs, Absent(Recipient))
            && s.contracts == Classify(Parties(txs), {}, getCode).known
  {
    var txs := Txs(blocks);
    LedgerBalance(txs, Sender);
    LedgerBalance(txs, Recipient);
    SumSplit(txs, Sender);
    SumSplit(txs, Recipient);
    ClassifyMeaning(Parties(txs), {}, getCode);
  }

  /** One more transaction: how each reference definition extends. */
  lemma AppendTransaction(done: seq<Transaction>, tx: Transaction)
    ensures Sum(done + [tx], Every) == Sum(done, Every) + tx.value
    ensures LedgerOf(done + [tx], Sender) == Added(LedgerOf(done, Sender), tx.from, tx.value)
    ensures LedgerOf(done + [tx], Recipient) == Added(LedgerOf(done, Recipient), tx.to, tx.value)
    ensures Parties(done + [tx]) == Parties(done) + [tx.from, tx.to]
  {
    assert (done + [tx])[..|done|] == done;
  }

  /** Sums over a concatenation add up. */
  lemma {:induction false} SumConcat(a: seq<Transaction>, b: seq<Transaction>, sel: Selector)
    ensures Sum(a + b, sel) == Sum(a, sel) + Sum(b, sel)
    decreases |b|
  {
    if b == [] {
      assert a + b == a;
    } else {
      var prefix := b[..|b| - 1];
      assert (a + b)[..|a + b| - 1] == a + prefix;
      SumConcat(a, prefix, sel);
    }
  }

  /** Taking one transaction out of a sum. */
  lemma SumRemoveAt(t: seq<Transaction>, i: nat, sel: Selector)
    requires i < |t|
    ensures Sum(t, sel) == Sum(t[..i] + t[i + 1..], sel) + (if Selects(sel, t[i]) then t[i].value else 0)
  {
    assert t == t[..i] + ([t[i]] + t[i + 1..]);
    SumConcat(t[..i], [t[i]] + t[i + 1..], sel);
    SumConcat([t[i]], t[i + 1..], sel);
    SumConcat(t[..i], t[i + 1..], sel);
    assert [t[i]][..0] == [];
  }

  /** A sum does not depend on the order of the transactions. */
  lemma {:induction false} SumPermutation(s: seq<Transaction>, t: seq<Transaction>, sel: Selector)
    requires multiset(s) == multiset(t)
    ensures Sum(s, sel) == Sum(t, sel)
    decreases |s|
  {
    if s == [] {
      assert |t| == |multiset(t)| == 0;
    } else {
      var x := s[|s| - 1];
      assert x in multiset(s);
      var i :| 0 <= i < |t| && t[i] == x;
      RemoveLast(s);
      RemoveAt(t, i);
      SumPermutation(s[..|s| - 1], t[..i] + t[i + 1..], sel);
      SumRemoveAt(t, i, sel);
    }
  }

  /** Reordering the transactions leaves every ledger's entries as they were (not its key order). */
  lemma LedgerPermutation(s: seq<Transaction>, t: seq<Transaction>, side: Side)
    requires multiset(s) == multiset(t)
    ensures LedgerOf(s, side).values == LedgerOf(t, side).values
  {
    var ls := LedgerOf(s, side);
    var lt := LedgerOf(t, side);
    LedgerKeys(s, side);
    LedgerKeys(t, side);
    LedgerAmounts(s, side);
    LedgerAmounts(t, side);
    forall k
      ensures k in ls.values <==> k in lt.values
    {
      if k in ls.values {
        var i :| 0 <= i < |s| && Party(s[i], side) == Some(k);
        assert s[i] in multiset(t);
        var j :| 0 <= j < |t| && t[j] == s[i];
      }
      if k in lt.values {
        var j :| 0 <= j < |t| && Party(t[j], side) == Some(k);
        assert t[j] in multiset(s);
        var i :| 0 <= i < |s| && s[i] == t[j];
      }
    }
    forall k | k in ls.values
      ensures ls.values[k] == lt.values[k]
    {
      SumPermutation(s, t, PartyIs(side, k));
      assert Amount(ls, k) == ls.values[k] && Amount(lt, k) == lt.values[k];
    }
    assert ls.values.Keys == lt.values.Keys;
  }

  /** An address is among the parties exactly when it is the sender or the recipient of some transaction. */
  lemma {:induction false} PartiesMembership(txs: seq<Transaction>, x: Option<Address>)
    ensures x in Parties(txs) <==> exists tx :: tx in txs && (x == tx.from || x == tx.to)
  {
    if txs != [] {
      var prefix := txs[..|txs| - 1];
      var last := txs[|txs| - 1];
      PartiesMembership(prefix, x);
      assert txs == prefix + [last];
      assert forall tx :: tx in txs <==> tx in prefix || tx == last;
    }
  }

  /**
   * Aggregation is insensitive to transaction order: the total, every
   * ledger entry and the contract set depend only on the multiset of
   * transactions.
   */
  lemma AggregatePermutation(blocks: seq<Block>, reordered: seq<Block>, getCode: Address -> string)
    requires multiset(Txs(blocks)) == multiset(Txs(reordered))
    ensures var a := Aggregate(blocks, getCode);
            var b := Aggregate(reordered, getCode);
            && a.total == b.total
            && a.senders.values == b.senders.values
            && a.recipients.values == b.recipients.values
            && a.contracts == b.contracts
  {
    var s := Txs(blocks);
    var t := Txs(reordered);
    SumPermutation(s, t, Every);
    LedgerPermutation(s, t, Sender);
    LedgerPermutation(s, t, Recipient);
    forall x
      ensures x in Parties(s) <==> x in Parties(t)
    {
      PartiesMembership(s, x);
      PartiesMembership(t, x);
      if exists tx :: tx in s && (x == tx.from || x == tx.to) {
        var tx :| tx in s && (x == tx.from || x == tx.to);
        assert tx in multiset(t);
      }
      if exists tx :: tx in t && (x == tx.from || x == tx.to) {
        var tx :| tx in t && (x == tx.from || x == tx.to);
        assert tx in multiset(s);
      }
    }
  }

  /** The transactions of the blocks, as a multiset, are the union of the blocks' own. */
  lemma {:induction false} TxsMultiset(blocks: seq<Block>, i: nat, reordered: seq<Transaction>)
    requires i < |blocks| && multiset(reordered) == multiset(blocks[i].transactions)
    ensures multiset(Txs(blocks[i := Block(blocks[i].number, reordered)])) == multiset(Txs(blocks))
  {
    var changed := blocks[i := Block(blocks[i].number, reordered)];
    var n := |blocks| - 1;
    assert changed[..n] == if i < n then blocks[..n][i := Block(blocks[i].number, reordered)] else blocks[..n];
    if i < n {
      TxsMultiset(blocks[..n], i, reordered);
    }
  }

  /** Reordering the transactions inside one block changes neither the total nor any ledger entry nor the contract set. */
  lemma ReorderWithinBlock(blocks: seq<Block>, i: nat, reordered: seq<Transaction>, getCode: Address -> string)
    requires i < |blocks| && multiset(reordered) == multiset(blocks[i].transactions)
    ensures var a := Aggregate(blocks, getCode);
            var b := Aggregate(blocks[i := Block(blocks[i].number, reordered)], getCode);
            && a.total == b.total
            && a.senders.values == b.senders.values
            && a.recipients.values == b.recipients.values
            && a.contracts == b.contracts
  {
    TxsMultiset(blocks, i, reordered);
    AggregatePermutation(blocks, blocks[i := Block(blocks[i].number, reordered)], getCode);
  }

  /** What the report shows before rendering: the grand total, both ledgers and the contract set. */
  datatype Summary = Summary(total: int, senders: LedgerView, recipients: LedgerView, contracts: set<Address>)

  /** The summary of a list of blocks, stated by the reference definitions. */
  function Aggregate(blocks: seq<Block>, getCode: Address -> string): Summary
  {
    var txs := Txs(blocks);
    Summary(Sum(txs, Every), LedgerOf(txs, Sender), LedgerOf(txs, Recipient), Discovered(Parties(txs), getCode))
  }

  /**
   * The body of the inner `for` loop of `printReport`: the transaction's
   * sender and recipient are credited in their ledgers and then classified.
   */
  method Record(transaction: Transaction, senderToEth: AddressLedger, recipientToEth: AddressLedger,
                contractAddresses: AddressSet, getCode: Address -> string, ghost before: seq<Transaction>)
    returns (asked: seq<Address>)
    requires senderToEth != recipientToEth
    requires senderToEth.View() == LedgerOf(before, Sender)
    requires recipientToEth.View() == LedgerOf(before, Recipient)
    modifies senderToEth, recipientToEth, contractAddresses
    ensures senderToEth.View() == LedgerOf(before + [transaction], Sender)
    ensures recipientToEth.View() == LedgerOf(before + [transaction], Recipient)
    ensures Classified(contractAddresses.members, asked)
         == Classify([transaction.from, transaction.to], old(contractAddresses.members), getCode)
  {
    AppendTransaction(before, transaction);
    AddToMap(senderToEth, transaction.from, transaction.value);
    AddToMap(recipientToEth, transaction.to, transaction.value);
    asked := CollectContractAddresses([transaction.from, transaction.to], contractAddresses, getCode);
  }

  /**
   * The loop state of `printReport` once the transactions `done` have been
   * handled: the running total, the two ledgers (distinct objects) and the
   * contract set with the queries made so far.
   */
  ghost predicate Tallied(done: seq<Transaction>, total: int, queried: seq<Address>,
                          senderToEth: AddressLedger, recipientToEth: AddressLedger,
                          contractAddresses: AddressSet, getCode: Address -> string)
    reads senderToEth, recipientToEth, contractAddresses
  {
    && total == Sum(done, Every)
    && senderToEth != recipientToEth
    && senderToEth.View() == LedgerOf(done, Sender)
    && recipientToEth.View() == LedgerOf(done, Recipient)
    && Classified(contractAddresses.members, queried) == Classify(Parties(done), {}, getCode)
  }

  /** The inner loop of `printReport`: every transaction of one block, in order. */
  method CompileBlock(transactions: seq<Transaction>, senderToEth: AddressLedger, recipientToEth: AddressLedger,
                      contractAddresses: AddressSet, getCode: Address -> string,
                      total0: int, queried0: seq<Address>, ghost done0: seq<Transaction>)
    returns (total: int, queried: seq<Address>)
    requires Tallied(done0, total0, queried0, senderToEth, recipientToEth, contractAddresses, getCode)
    modifies senderToEth, recipientToEth, contractAddresses
    ensures Tallied(done0 + transactions, total, queried, senderToEth, recipientToEth, contractAddresses, getCode)
  {
    total, queried := total0, queried0;
    ghost var done := done0;
    var j := 0;
    while j < |transactions|
      invariant 0 <= j <= |transactions|
      invariant done == done0 + transactions[..j]
      invariant Tallied(done, total, queried, senderToEth, recipientToEth, contractAddresses, getCode)
    {
      var transaction := transactions[j];
      ghost var before := done;
      AppendTransaction(before, transaction);
      ClassifyConcat(Parties(before), [transaction.from, transaction.to], {}, getCode);
      done := done + [transaction];

      total := total + transaction.value;
      var asked := Record(transaction, senderToEth, recipientToEth, contractAddresses, getCode, before);
      queried := queried + asked;

      PrefixStep(transactions, j);
      j := j + 1;
    }
    FullPrefix(transactions);
  }

  /**
   * The nested loop of `printReport`, with the two `Map`s and the `Set`
   * allocated and updated in place. Also answers the `getCode` queries made,
   * in order.
   */
  method CompileTransactions(blocks: seq<Block>, getCode: Address -> string)
    returns (summary: Summary, queried: seq<Address>)
    ensures summary == Aggregate(blocks, getCode)
    ensures queried == Classify(Parties(Txs(blocks)), {}, getCode).queried
  {
    var senderToEth := new AddressLedger();
    var recipientToEth := new AddressLedger();
    var contractAddresses := new AddressSet();
    var total := 0;
    queried := [];

    var i := 0;
    while i < |blocks|
      invariant 0 <= i <= |blocks|
      invariant Tallied(Txs(blocks[..i]), total, queried, senderToEth, recipientToEth, contractAddresses, getCode)
    {
      PrefixOfPrefix(blocks, i);
      total, queried := CompileBlock(blocks[i].transactions, senderToEth, recipientToEth, contractAddresses,
                                     getCode, total, queried, Txs(blocks[..i]));
      i := i + 1;
    }
    FullPrefix(blocks);

    AggregateConservation(blocks, getCode);
    summary := Summary(total, senderToEth.View(), recipientToEth.View(), contractAddresses.members);
  }
}
