/**
 * The address ledgers `senderToEth` and `recipientToEth`: JavaScript `Map`
 * objects from address to cumulative amount, updated in place by
 * `addToMap`. A `Map` iterates its keys in insertion order, and `set` on a
 * key already present keeps that key's position, so the model keeps the
 * key order beside the entries.
 */
module Ledgers {
  import opened Wrappers
  import opened Chain

  /** No address occurs twice. */
  predicate Distinct(s: seq<Address>)
  {
    forall i, j :: 0 <= i < j < |s| ==> s[i] != s[j]
  }

  /** Dropping the last element of a duplicate-free sequence leaves one without that element. */
  lemma DistinctPrefix(s: seq<Address>)
    requires Distinct(s) && s != []
    ensures Distinct(s[..|s| - 1]) && s[|s| - 1] !in s[..|s| - 1]
  {
  }

  /** What can be observed of a ledger: its keys in iteration order and its entries. */
  datatype LedgerView = LedgerView(keys: seq<Address>, values: map<Address, int>)
  {
    /** The key order lists each key of the map exactly once. */
    predicate WellFormed()
    {
      && Distinct(keys)
      && (forall k :: k in values ==> k in keys)
      && (forall k :: k in keys ==> k in values)
    }
  }

  const EmptyLedger: LedgerView := LedgerView([], map[])

  /** The sum of the amounts stored under `keys`. */
  function KeySum(keys: seq<Address>, values: map<Address, int>): int
    requires forall k :: k in keys ==> k in values
  {
    if keys == [] then 0 else KeySum(keys[..|keys| - 1], values) + values[keys[|keys| - 1]]
  }

  /** The sum of all amounts in a ledger. */
  function Balance(l: LedgerView): int
    requires l.WellFormed()
  {
    KeySum(l.keys, l.values)
  }

  /** The ledger after `addToMap(map, address, value)`. */
  function Added(l: LedgerView, address: Option<Address>, value: int): LedgerView
  {
    if !Truthy(address) then l
    else
      var a := address.value;
      if a in l.values then LedgerView(l.keys, l.values[a := l.values[a] + value])
      else LedgerView(l.keys + [a], l.values[a := value])
  }

  /**
   * A falsy address changes nothing; otherwise only the entry of `address`
   * changes, to its old amount plus `value`, or to `value` if it had none,
   * and a new key goes to the end of the key order.
   */
  lemma AddedChangesOneKey(l: LedgerView, address: Option<Address>, value: int)
    ensures var r := Added(l, address, value);
            && (!Truthy(address) ==> r == l)
            && (Truthy(address) ==>
                  && address.value in r.values
                  && r.values[address.value] == (if address.value in l.values then l.values[address.value] else 0) + value
                  && r.keys == (if address.value in l.values then l.keys else l.keys + [address.value]))
            && (forall k :: !Truthy(address) || k != address.value ==>
                  (k in r.values <==> k in l.values) &&
                  (k in l.values ==> r.values[k] == l.values[k]))
  {
  }

  /** `addToMap` keeps the key order and the entries in step. */
  lemma AddedWellFormed(l: LedgerView, address: Option<Address>, value: int)
    requires l.WellFormed()
    ensures Added(l, address, value).WellFormed()
  {
  }

  /** Changing the amount of a key outside `keys` does not change their sum. */
  lemma {:induction false} KeySumOutside(keys: seq<Address>, values: map<Address, int>, a: Address, x: int)
    requires forall k :: k in keys ==> k in values
    requires a !in keys
    ensures KeySum(keys, values[a := x]) == KeySum(keys, values)
  {
    if keys != [] {
      KeySumOutside(keys[..|keys| - 1], values, a, x);
    }
  }

  /** Adding `v` to the amount of one of the (distinct) keys adds `v` to their sum. */
  lemma {:induction false} KeySumBump(keys: seq<Address>, values: map<Address, int>, a: Address, v: int)
    requires forall k :: k in keys ==> k in values
    requires Distinct(keys) && a in keys
    ensures KeySum(keys, values[a := values[a] + v]) == KeySum(keys, values) + v
  {
    var prefix := keys[..|keys| - 1];
    if keys[|keys| - 1] == a {
      assert a !in prefix;
      KeySumOutside(prefix, values, a, values[a] + v);
    } else {
      assert a in prefix;
      KeySumBump(prefix, values, a, v);
    }
  }

  /** Every `addToMap` with a truthy address moves the ledger's balance by exactly `value`. */
  lemma AddedBalance(l: LedgerView, address: Option<Address>, value: int)
    requires l.WellFormed()
    ensures Added(l, address, value).WellFormed()
    ensures Balance(Added(l, address, value)) == Balance(l) + (if Truthy(address) then value else 0)
  {
    AddedWellFormed(l, address, value);
    if Truthy(address) {
      var a := address.value;
      if a in l.values {
        KeySumBump(l.keys, l.values, a, value);
      } else {
        assert (l.keys + [a])[..|l.keys|] == l.keys;
        KeySumOutside(l.keys, l.values, a, value);
      }
    }
  }

  /** A JavaScript `Map` from address to amount, mutated in place. */
  class AddressLedger {
    var keys: seq<Address>
    var values: map<Address, int>

    /** `new Map()` */
    constructor ()
      ensures View() == EmptyLedger
    {
      keys := [];
      values := map[];
    }

    function View(): LedgerView
      reads this
    {
      LedgerView(keys, values)
    }
  }

  /** `addToMap(map, address, value)`: updates the ledger in place. */
  method AddToMap(ledger: AddressLedger, address: Option<Address>, value: int)
    modifies ledger
    ensures ledger.View() == Added(old(ledger.View()), address, value)
  {
    if Truthy(address) {
      var a := address.value;
      if a in ledger.values {
        ledger.values := ledger.values[a := ledger.values[a] + value];
      } else {
        ledger.keys := ledger.keys + [a];
        ledger.values := ledger.values[a := value];
      }
    }
  }
}
