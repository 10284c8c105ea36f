/**
 * The JSON form of the report (`getJson`): the total, and for each ledger
 * one entry per key in the ledger's iteration order. Entries of both
 * lists carry the address under the key `sender`, the recipient entries
 * included.
 */
module Json {
  import opened Wrappers
  import opened Chain
  import opened Ledgers

  /** One element of `senders` or of `recipients`. */
  datatype Entry = Entry(sender: Address, value: int, isContract: bool)

  datatype Report = Report(total: int, senders: seq<Entry>, recipients: seq<Entry>)

  /** The entries for `keys`, in order: the amount from `values` and the contract flag from `contracts`. */
  function Entries(keys: seq<Address>, values: map<Address, int>, contracts: set<Address>): (es: seq<Entry>)
    requires forall k :: k in keys ==> k in values
    ensures |es| == |keys|
    ensures forall i :: 0 <= i < |es| ==>
              es[i].sender == keys[i] && es[i].value == values[keys[i]] &&
              (es[i].isContract <==> keys[i] in contracts)
  {
    if keys == [] then []
    else
      var last := keys[|keys| - 1];
      Entries(keys[..|keys| - 1], values, contracts) + [Entry(last, values[last], last in contracts)]
  }

  /** The report object built from the total, the two ledgers and the contract set. */
  function GetJson(total: int, senderToEth: LedgerView, recipientToEth: LedgerView,
                   contractAddresses: set<Address>): (json: Report)
    requires senderToEth.WellFormed() && recipientToEth.WellFormed()
    ensures json.total == total
    ensures |json.senders| == |senderToEth.keys| && |json.recipients| == |recipientToEth.keys|
    ensures forall i :: 0 <= i < |json.senders| ==>
              var a := senderToEth.keys[i];
              json.senders[i] == Entry(a, senderToEth.values[a], a in contractAddresses)
    ensures forall i :: 0 <= i < |json.recipients| ==>
              var a := recipientToEth.keys[i];
              json.recipients[i] == Entry(a, recipientToEth.values[a], a in contractAddresses)
  {
    Report(total,
           Entries(senderToEth.keys, senderToEth.values, contractAddresses),
           Entries(recipientToEth.keys, recipientToEth.values, contractAddresses))
  }

  /** A `Map` rebuilt from `[sender, value]` pairs: `set` on each pair in turn. */
  function ReadBack(es: seq<Entry>): LedgerView
  {
    if es == [] then EmptyLedger
    else
      var l := ReadBack(es[..|es| - 1]);
      var e := es[|es| - 1];
      if e.sender in l.values then LedgerView(l.keys, l.values[e.sender := e.value])
      else LedgerView(l.keys + [e.sender], l.values[e.sender := e.value])
  }

  /** Setting a new key appends it to the iteration order. */
  lemma ReadBackNew(es: seq<Entry>, e: Entry)
    requires e.sender !in ReadBack(es).values
    ensures ReadBack(es + [e]) == LedgerView(ReadBack(es).keys + [e.sender], ReadBack(es).values[e.sender := e.value])
  {
    assert (es + [e])[..|es|] == es;
  }

  /** Reading back the entries of distinct keys gives those keys, in order, with their amounts. */
  lemma {:induction false} ReadBackEntries(keys: seq<Address>, values: map<Address, int>, contracts: set<Address>)
    requires forall k :: k in keys ==> k in values
    requires Distinct(keys)
    ensures var l := ReadBack(Entries(keys, values, contracts));
            && l.keys == keys
            && (forall k :: k in l.values ==> k in keys)
            && (forall k :: k in keys ==> k in l.values && l.values[k] == values[k])
  {
    if keys != [] {
      var prefix := keys[..|keys| - 1];
      var last := keys[|keys| - 1];
      DistinctPrefix(keys);
      ReadBackEntries(prefix, values, contracts);
      var before := Entries(prefix, values, contracts);
      var e := Entry(last, values[last], last in contracts);
      assert Entries(keys, values, contracts) == before + [e];
      ReadBackNew(before, e);
      assert keys == prefix + [last];
    }
  }

  /** Reading back the entries of a ledger gives that ledger. */
  lemma LedgerRoundTrip(l: LedgerView, contracts: set<Address>)
    requires l.WellFormed()
    ensures ReadBack(Entries(l.keys, l.values, contracts)) == l
  {
    ReadBackEntries(l.keys, l.values, contracts);
    var r := ReadBack(Entries(l.keys, l.values, contracts));
    MapsAgree(r.values, l.values, l.keys);
  }

  /**
   * Round trip: reading the two lists of the report back yields the two
   * ledgers it was built from, keys in the same order; the total is passed
   * through; every flag says whether the address is a known contract.
   */
  lemma ReportRoundTrip(total: int, senderToEth: LedgerView, recipientToEth: LedgerView,
                        contractAddresses: set<Address>)
    requires senderToEth.WellFormed() && recipientToEth.WellFormed()
    ensures var json := GetJson(total, senderToEth, recipientToEth, contractAddresses);
            && json.total == total
            && ReadBack(json.senders) == senderToEth
            && ReadBack(json.recipients) == recipientToEth
            && (forall e :: e in json.senders ==> (e.isContract <==> e.sender in contractAddresses))
            && (forall e :: e in json.recipients ==> (e.isContract <==> e.sender in contractAddresses))
  {
    LedgerRoundTrip(senderToEth, contractAddresses);
    LedgerRoundTrip(recipientToEth, contractAddresses);
  }
}
