/** The optional-value datatype used for JavaScript's null/undefined. */
module Wrappers {

  datatype Option<+T> = None | Some(value: T)

  /** Extending a prefix by one element. */
  lemma PrefixStep<T>(s: seq<T>, j: nat)
    requires j < |s|
    ensures s[..j + 1] == s[..j] + [s[j]]
  {
  }

  /** The prefix of a prefix. */
  lemma PrefixOfPrefix<T>(s: seq<T>, j: nat)
    requires j < |s|
    ensures s[..j + 1][..j] == s[..j]
  {
  }

  /** Removing the element at `i` removes one occurrence of it from the multiset. */
  lemma RemoveAt<T>(s: seq<T>, i: nat)
    requires i < |s|
    ensures multiset(s[..i] + s[i + 1..]) == multiset(s) - multiset{s[i]}
  {
    assert s == s[..i] + [s[i]] + s[i + 1..];
  }

  /** Removing the last element removes one occurrence of it from the multiset. */
  lemma RemoveLast<T>(s: seq<T>)
    requires s != []
    ensures multiset(s[..|s| - 1]) == multiset(s) - multiset{s[|s| - 1]}
  {
    assert s == s[..|s| - 1] + [s[|s| - 1]];
  }

  /** The whole sequence as a prefix. */
  lemma FullPrefix<T>(s: seq<T>)
    ensures s[..|s|] == s
  {
  }

  /** Two maps with the same domain, given as a sequence of keys, and the same values on it are equal. */
  lemma MapsAgree<K, V>(m1: map<K, V>, m2: map<K, V>, keys: seq<K>)
    requires forall k :: k in m1 ==> k in keys
    requires forall k :: k in m2 ==> k in keys
    requires forall k :: k in keys ==> k in m1 && k in m2 && m1[k] == m2[k]
    ensures m1 == m2
  {
  }
}
