/** Python dictionaries with string keys, kept in insertion order.
    A dictionary is the list of its items; iteration follows that list. */
module Dicts {

  /** The elements of s are pairwise different. */
  ghost predicate Distinct<T>(s: seq<T>) {
    forall i, j :: 0 <= i < j < |s| ==> s[i] != s[j]
  }

  /** The keys of an item list, in order. */
  function Keys<V>(items: seq<(string, V)>): seq<string> {
    seq(|items|, i requires 0 <= i < |items| => items[i].0)
  }

  /** Position of the first occurrence of k in ks, or |ks| when k is absent. */
  function IndexOf(ks: seq<string>, k: string): (i: nat)
    ensures i <= |ks|
    ensures i < |ks| <==> k in ks
    ensures i < |ks| ==> ks[i] == k
    ensures forall j :: 0 <= j < i ==> ks[j] != k
  {
    if ks == [] then 0
    else if ks[0] == k then 0
    else 1 + IndexOf(ks[1..], k)
  }

  /** The first occurrences of the elements of s, in the order they appear:
      the keys a dictionary ends up with when s are its keys in insertion order. */
  function Dedupe(s: seq<string>): seq<string> {
    if s == [] then []
    else
      var d := Dedupe(s[..|s| - 1]);
      if s[|s| - 1] in d then d else d + [s[|s| - 1]]
  }

  /** Dedupe keeps each element of s exactly once. */
  lemma {:induction false} DedupeProperties(s: seq<string>)
    ensures Distinct(Dedupe(s))
    ensures forall x :: x in Dedupe(s) <==> x in s
    ensures |Dedupe(s)| <= |s|
  {
    if s != [] {
      var n := |s| - 1;
      DedupeProperties(s[..n]);
      assert s == s[..n] + [s[n]];
    }
  }

  /** dict[k] = v on a dictionary given as its items: an existing key keeps its
      place and gets the new value, a new key goes at the end. */
  function Put<V>(items: seq<(string, V)>, k: string, v: V): seq<(string, V)>
  {
    var i := IndexOf(Keys(items), k);
    if i < |items| then items[i := (k, v)] else items + [(k, v)]
  }

  /** Appending an element to s extends its first occurrences by it when it is new. */
  lemma DedupeSnoc(s: seq<string>, x: string)
    ensures Dedupe(s + [x]) == if x in s then Dedupe(s) else Dedupe(s) + [x]
  {
    assert (s + [x])[..|s + [x]| - 1] == s;
    DedupeProperties(s);
  }

  /** Appending an item appends its key. */
  lemma KeysSnoc<V>(items: seq<(string, V)>, k: string, v: V)
    ensures Keys(items + [(k, v)]) == Keys(items) + [k]
  {
  }

  /** Replacing the value of an item keeps the keys. */
  lemma KeysUpdate<V>(items: seq<(string, V)>, i: nat, v: V)
    requires i < |items|
    ensures Keys(items[i := (items[i].0, v)]) == Keys(items)
  {
  }

  /** The first two elements of a distinct sequence are two different members of it. */
  lemma DistinctPair(s: seq<string>)
    requires Distinct(s) && |s| > 1
    ensures s[0] in s && s[1] in s && s[0] != s[1]
  {
  }

  /** Distinct keys: only the item at i has the key of the item at i. */
  lemma DistinctKeysAt<V>(items: seq<(string, V)>, i: nat, j: nat)
    requires Distinct(Keys(items)) && i < |items| && j < |items| && i != j
    ensures items[i].0 != items[j].0
  {
    assert Keys(items)[i] == items[i].0 && Keys(items)[j] == items[j].0;
  }
}
