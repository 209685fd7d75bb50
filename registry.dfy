/**
 * The registry both plugin constructors build: a loop that stores each
 * element of a list under its key, so that of two elements with the same
 * key the later one is kept.
 */
module Registry {

  /** The map left by storing s[0], s[1], ... in turn under their keys. */
  function Index<K, T>(s: seq<T>, key: T -> K): map<K, T>
  {
    if s == [] then map[] else Index(s[..|s| - 1], key)[key(s[|s| - 1]) := s[|s| - 1]]
  }

  /** Every element's key is registered, and nothing else. */
  lemma {:induction false} IndexKeys<K, T>(s: seq<T>, key: T -> K)
    ensures Index(s, key).Keys == set x | x in s :: key(x)
  {
    if s != [] {
      var init := s[..|s| - 1];
      IndexKeys(init, key);
      assert s == init + [s[|s| - 1]];
      assert forall x :: x in s <==> x in init || x == s[|s| - 1];
    }
  }

  /** s[i] has key k and no later element does. */
  ghost predicate LastWithKey<K, T>(s: seq<T>, key: T -> K, k: K, i: int)
  {
    0 <= i < |s| && key(s[i]) == k && forall j :: i < j < |s| ==> key(s[j]) != k
  }

  /** Each entry is an element stored under its own key, and no later element has that key. */
  lemma {:induction false} IndexLastWins<K, T>(s: seq<T>, key: T -> K, k: K)
    requires k in Index(s, key)
    ensures exists i :: LastWithKey(s, key, k, i) && s[i] == Index(s, key)[k]
  {
    var init := s[..|s| - 1];
    var last := s[|s| - 1];
    if key(last) == k {
      assert LastWithKey(s, key, k, |s| - 1) && s[|s| - 1] == Index(s, key)[k];
    } else {
      assert k in Index(init, key);
      IndexLastWins(init, key, k);
      var i :| LastWithKey(init, key, k, i) && init[i] == Index(init, key)[k];
      assert s[i] == init[i];
      assert LastWithKey(s, key, k, i) by {
        forall j | i < j < |s|
          ensures key(s[j]) != k
        {
          if j < |s| - 1 {
            assert s[j] == init[j];
          }
        }
      }
    }
  }

  /** With pairwise-distinct keys nothing is replaced: every element is registered under its key. */
  lemma {:induction false} IndexDistinct<K, T>(s: seq<T>, key: T -> K)
    requires forall i, j :: 0 <= i < j < |s| ==> key(s[i]) != key(s[j])
    ensures forall i :: 0 <= i < |s| ==> key(s[i]) in Index(s, key) && Index(s, key)[key(s[i])] == s[i]
  {
    if s != [] {
      var init := s[..|s| - 1];
      IndexDistinct(init, key);
      forall i | 0 <= i < |s|
        ensures key(s[i]) in Index(s, key) && Index(s, key)[key(s[i])] == s[i]
      {
        if i < |s| - 1 {
          assert s[i] == init[i];
        }
      }
    }
  }
}
