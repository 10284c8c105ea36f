/**
 * Contract classification (`collectContractAddresses`). The RPC call
 * `getCode(address)` is the oracle `getCode`; only addresses found to hold
 * code are remembered in the JavaScript `Set` `contractAddresses`, so an
 * address without code is asked about again whenever it reappears.
 */
module Contracts {
  import opened Wrappers
  import opened Chain

  /** A truthy address whose code is not the empty-code sentinel. */
  predicate HasCode(address: Option<Address>, getCode: Address -> string)
  {
    Truthy(address) && getCode(address.value) != NoCode
  }

  /** The addresses among `addresses` that hold code. */
  function Discovered(addresses: seq<Option<Address>>, getCode: Address -> string): set<Address>
  {
    set x | x in addresses && HasCode(x, getCode) :: x.value
  }

  /** The contract set after a classification pass, and the addresses `getCode` was called for, in call order. */
  datatype Classified = Classified(known: set<Address>, queried: seq<Address>)

  /**
   * Walks `addresses` in order, starting from the contract set `known`: a
   * truthy address not yet in the set is looked up, and added when it has
   * code.
   */
  function Classify(addresses: seq<Option<Address>>, known: set<Address>, getCode: Address -> string): Classified
    decreases |addresses|
  {
    if addresses == [] then Classified(known, [])
    else
      var address := addresses[0];
      if Truthy(address) && address.value !in known then
        var a := address.value;
        var known' := if getCode(a) != NoCode then known + {a} else known;
        var rest := Classify(addresses[1..], known', getCode);
        Classified(rest.known, [a] + rest.queried)
      else
        Classify(addresses[1..], known, getCode)
  }

  /** The set only grows, and by exactly the addresses of the list that hold code. */
  lemma {:induction false} ClassifyKnown(addresses: seq<Option<Address>>, known: set<Address>,
                                         getCode: Address -> string)
    ensures Classify(addresses, known, getCode).known == known + Discovered(addresses, getCode)
    decreases |addresses|
  {
    if addresses != [] {
      var address := addresses[0];
      var tail := addresses[1..];
      assert addresses == [address] + tail;
      assert Discovered(addresses, getCode)
          == (if HasCode(address, getCode) then {address.value} else {}) + Discovered(tail, getCode);
      if Truthy(address) && address.value !in known {
        var a := address.value;
        ClassifyKnown(tail, if getCode(a) != NoCode then known + {a} else known, getCode);
      } else {
        ClassifyKnown(tail, known, getCode);
      }
    }
  }

  /**
   * Every query is for a truthy address of the list that was not in the set
   * beforehand, every such address is queried, and there are at most as
   * many queries as addresses.
   */
  lemma {:induction false} ClassifyQueries(addresses: seq<Option<Address>>, known: set<Address>,
                                           getCode: Address -> string)
    ensures var r := Classify(addresses, known, getCode);
            && (forall q :: q in r.queried ==> q != "" && q !in known && Some(q) in addresses)
            && (forall a :: a in addresses && Truthy(a) && a.value !in known ==> a.value in r.queried)
            && |r.queried| <= |addresses|
    decreases |addresses|
  {
    if addresses != [] {
      var address := addresses[0];
      var tail := addresses[1..];
      assert addresses == [address] + tail;
      if Truthy(address) && address.value !in known {
        var a := address.value;
        ClassifyQueries(tail, if getCode(a) != NoCode then known + {a} else known, getCode);
      } else {
        ClassifyQueries(tail, known, getCode);
      }
    }
  }

  /** No address with code occurs twice in `queried`. */
  predicate NoContractTwice(queried: seq<Address>, getCode: Address -> string)
  {
    forall i, j :: 0 <= i < j < |queried| && queried[i] == queried[j] ==> getCode(queried[i]) == NoCode
  }

  /** An address with code is never queried twice. */
  lemma {:induction false} ClassifyNoRepeat(addresses: seq<Option<Address>>, known: set<Address>,
                                            getCode: Address -> string)
    ensures NoContractTwice(Classify(addresses, known, getCode).queried, getCode)
    decreases |addresses|
  {
    if addresses != [] {
      var address := addresses[0];
      var tail := addresses[1..];
      if Truthy(address) && address.value !in known {
        var a := address.value;
        var known' := if getCode(a) != NoCode then known + {a} else known;
        ClassifyNoRepeat(tail, known', getCode);
        ClassifyQueries(tail, known', getCode);
        var rest := Classify(tail, known', getCode);
        var queried := [a] + rest.queried;
        assert Classify(addresses, known, getCode).queried == queried;
        forall i, j | 0 <= i < j < |queried| && queried[i] == queried[j]
          ensures getCode(queried[i]) == NoCode
        {
          if i == 0 {
            assert queried[j] in rest.queried;
          } else {
            assert rest.queried[i - 1] == rest.queried[j - 1];
          }
        }
      } else {
        ClassifyNoRepeat(tail, known, getCode);
        assert Classify(addresses, known, getCode) == Classify(tail, known, getCode);
      }
    }
  }

  /**
   * What a classification pass does: the set only grows, and by exactly the
   * truthy addresses of the list that hold code; every query is for a truthy address of the
   * list that was not in the set beforehand; every such address is queried;
   * an address with code is never queried twice; there are at most as many
   * queries as addresses.
   */
  lemma ClassifyMeaning(addresses: seq<Option<Address>>, known: set<Address>, getCode: Address -> string)
    ensures var r := Classify(addresses, known, getCode);
            && known <= r.known
            && r.known == known + Discovered(addresses, getCode)
            && (forall x :: x in r.known && x !in known ==> x != "" && getCode(x) != NoCode && Some(x) in addresses)
            && (forall a :: a in addresses && HasCode(a, getCode) ==> a.value in r.known)
            && (forall q :: q in r.queried ==> q != "" && q !in known && Some(q) in addresses)
            && (forall a :: a in addresses && Truthy(a) && a.value !in known ==> a.value in r.queried)
            && (forall i, j :: 0 <= i < j < |r.queried| && r.queried[i] == r.queried[j] ==>
                  getCode(r.queried[i]) == NoCode)
            && |r.queried| <= |addresses|
  {
    ClassifyKnown(addresses, known, getCode);
    ClassifyQueries(addresses, known, getCode);
    ClassifyNoRepeat(addresses, known, getCode);
  }

  /** Classifying `a + b` is classifying `a` and then `b` from where `a` left the set. */
  lemma {:induction false} ClassifyConcat(a: seq<Option<Address>>, b: seq<Option<Address>>,
                                          known: set<Address>, getCode: Address -> string)
    ensures var first := Classify(a, known, getCode);
            var second := Classify(b, first.known, getCode);
            Classify(a + b, known, getCode) == Classified(second.known, first.queried + second.queried)
    decreases |a|
  {
    if a == [] {
      assert a + b == b;
    } else {
      var address := a[0];
      assert (a + b)[0] == address && (a + b)[1..] == a[1..] + b;
      if Truthy(address) && address.value !in known {
        var k := address.value;
        var known' := if getCode(k) != NoCode then known + {k} else known;
        ClassifyConcat(a[1..], b, known', getCode);
        var first' := Classify(a[1..], known', getCode);
        var second := Classify(b, first'.known, getCode);
        assert Classify(a, known, getCode) == Classified(first'.known, [k] + first'.queried);
        assert Classify(a + b, known, getCode)
            == Classified(second.known, [k] + (first'.queried + second.queried));
        assert [k] + (first'.queried + second.queried) == ([k] + first'.queried) + second.queried;
      } else {
        ClassifyConcat(a[1..], b, known, getCode);
      }
    }
  }

  /** The JavaScript `Set` of addresses known to be contracts, mutated in place. */
  class AddressSet {
    var members: set<Address>

    /** `new Set()` */
    constructor ()
      ensures members == {}
    {
      members := {};
    }
  }

  /**
   * `collectContractAddresses(addresses, contractAddresses, web3)`: updates
   * the set in place and answers the addresses it called `getCode` for.
   */
  method CollectContractAddresses(addresses: seq<Option<Address>>, contractAddresses: AddressSet,
                                  getCode: Address -> string)
    returns (queried: seq<Address>)
    modifies contractAddresses
    ensures Classified(contractAddresses.members, queried)
         == Classify(addresses, old(contractAddresses.members), getCode)
    ensures old(contractAddresses.members) <= contractAddresses.members
  {
    queried := [];
    var i := 0;
    while i < |addresses|
      invariant 0 <= i <= |addresses|
      invariant var rest := Classify(addresses[i..], contractAddresses.members, getCode);
                Classify(addresses, old(contractAddresses.members), getCode)
                == Classified(rest.known, queried + rest.queried)
    {
      var address := addresses[i];
      assert addresses[i..][0] == address && addresses[i..][1..] == addresses[i + 1..];
      if Truthy(address) && address.value !in contractAddresses.members {
        var code := getCode(address.value);
        queried := queried + [address.value];
        if code != NoCode {
          contractAddresses.members := contractAddresses.members + {address.value};
        }
      }
      i := i + 1;
    }
    ClassifyKnown(addresses, old(contractAddresses.members), getCode);
  }
}
