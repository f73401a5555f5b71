/** Order-preserving deduplication that keeps the first item for each key.
    Three places of the analyzer follow this one pattern: `_dedup_issues`
    (key = issue name + first 60 characters of the description),
    `list(dict.fromkeys(goods))` (key = the string itself) and the run-wide
    broken-link list (key = the link URL). */
module Dedup {

  /** The keys that occur in `s`. */
  function KeySet<T, K>(s: seq<T>, key: T -> K): set<K>
    decreases |s|
  {
    if s == [] then {} else KeySet(s[..|s| - 1], key) + {key(s[|s| - 1])}
  }

  /** The specification of first-occurrence deduplication: scanning left to
      right, an item is kept when no earlier item had its key. */
  function FirstByKey<T, K(==)>(s: seq<T>, key: T -> K): seq<T>
    decreases |s|
  {
    if s == [] then []
    else
      var init := s[..|s| - 1];
      if key(s[|s| - 1]) in KeySet(init, key) then FirstByKey(init, key)
      else FirstByKey(init, key) + [s[|s| - 1]]
  }

  /** `a` is a (not necessarily contiguous) subsequence of `b`. */
  ghost predicate IsSubseq<T>(a: seq<T>, b: seq<T>)
    decreases |b|
  {
    a == [] ||
    (b != [] &&
     ((a[|a| - 1] == b[|b| - 1] && IsSubseq(a[..|a| - 1], b[..|b| - 1])) ||
      IsSubseq(a, b[..|b| - 1])))
  }

  ghost predicate DistinctKeys<T, K>(s: seq<T>, key: T -> K) {
    forall i, j :: 0 <= i < j < |s| ==> key(s[i]) != key(s[j])
  }

  /** Index `i` holds the first item of `s` with its key. */
  ghost predicate FirstOccurrence<T, K>(s: seq<T>, key: T -> K, i: int)
    requires 0 <= i < |s|
  {
    forall j :: 0 <= j < i ==> key(s[j]) != key(s[i])
  }

  lemma {:induction false} KeySetMember<T, K>(s: seq<T>, key: T -> K, k: K)
    ensures k in KeySet(s, key) <==> exists i :: 0 <= i < |s| && key(s[i]) == k
    decreases |s|
  {
    if s != [] {
      var init := s[..|s| - 1];
      KeySetMember(init, key, k);
      if k in KeySet(init, key) {
        var i :| 0 <= i < |init| && key(init[i]) == k;
        assert key(s[i]) == k;
      }
      if exists i :: 0 <= i < |s| && key(s[i]) == k {
        var i :| 0 <= i < |s| && key(s[i]) == k;
        if i < |init| {
          assert key(init[i]) == k;
        }
      }
    }
  }

  lemma KeySetAppend<T, K>(s: seq<T>, x: T, key: T -> K)
    ensures KeySet(s + [x], key) == KeySet(s, key) + {key(x)}
  {
    assert (s + [x])[..|s|] == s;
  }

  lemma FirstByKeyAppend<T, K>(s: seq<T>, x: T, key: T -> K)
    ensures FirstByKey(s + [x], key) ==
            if key(x) in KeySet(s, key) then FirstByKey(s, key) else FirstByKey(s, key) + [x]
  {
    assert (s + [x])[..|s|] == s;
  }

  /** Every key of the input is represented in the output, and no other. */
  lemma {:induction false} FirstByKeyKeys<T, K>(s: seq<T>, key: T -> K)
    ensures KeySet(FirstByKey(s, key), key) == KeySet(s, key)
    decreases |s|
  {
    if s != [] {
      var init, x := s[..|s| - 1], s[|s| - 1];
      assert s == init + [x];
      FirstByKeyKeys(init, key);
      if key(x) !in KeySet(init, key) {
        KeySetAppend(FirstByKey(init, key), x, key);
      }
    }
  }

  /** No two items of the output share a key. */
  lemma {:induction false} FirstByKeyDistinct<T, K>(s: seq<T>, key: T -> K)
    ensures DistinctKeys(FirstByKey(s, key), key)
    decreases |s|
  {
    if s != [] {
      var init, x := s[..|s| - 1], s[|s| - 1];
      FirstByKeyDistinct(init, key);
      if key(x) !in KeySet(init, key) {
        var f := FirstByKey(init, key);
        FirstByKeyKeys(init, key);
        forall i | 0 <= i < |f| ensures key(f[i]) != key(x) {
          KeySetMember(f, key, key(x));
        }
      }
    }
  }

  /** The output keeps the input's order: it is a subsequence of it. */
  lemma {:induction false} FirstByKeySubseq<T, K>(s: seq<T>, key: T -> K)
    ensures IsSubseq(FirstByKey(s, key), s)
    decreases |s|
  {
    if s != [] {
      var init, x := s[..|s| - 1], s[|s| - 1];
      FirstByKeySubseq(init, key);
      var f := FirstByKey(init, key);
      if key(x) !in KeySet(init, key) {
        assert (f + [x])[..|f|] == f;
      }
    }
  }

  /** The first item of every key is kept (so, with distinct output keys,
      the item kept for a key is its first occurrence). */
  lemma {:induction false} FirstByKeyKeepsFirst<T, K>(s: seq<T>, key: T -> K, i: int)
    requires 0 <= i < |s| && FirstOccurrence(s, key, i)
    ensures s[i] in FirstByKey(s, key)
    decreases |s|
  {
    var init, x := s[..|s| - 1], s[|s| - 1];
    if i == |s| - 1 {
      KeySetMember(init, key, key(x));
    } else {
      assert FirstOccurrence(init, key, i) by {
        forall j | 0 <= j < i ensures key(init[j]) != key(init[i]) {
          assert key(s[j]) != key(s[i]);
        }
      }
      FirstByKeyKeepsFirst(init, key, i);
    }
  }

  /** A list whose keys are already distinct is left as it is. */
  lemma {:induction false} FirstByKeyOfDistinct<T, K>(s: seq<T>, key: T -> K)
    requires DistinctKeys(s, key)
    ensures FirstByKey(s, key) == s
    decreases |s|
  {
    if s != [] {
      var init, x := s[..|s| - 1], s[|s| - 1];
      assert DistinctKeys(init, key) by {
        forall i, j | 0 <= i < j < |init| ensures key(init[i]) != key(init[j]) {
          assert key(s[i]) != key(s[j]);
        }
      }
      FirstByKeyOfDistinct(init, key);
      KeySetMember(init, key, key(x));
      assert key(x) !in KeySet(init, key) by {
        forall i | 0 <= i < |init| ensures key(init[i]) != key(x) {
          assert key(s[i]) != key(s[|s| - 1]);
        }
      }
    }
  }

  /** Deduplicating twice is the same as deduplicating once. */
  lemma FirstByKeyIdempotent<T, K>(s: seq<T>, key: T -> K)
    ensures FirstByKey(FirstByKey(s, key), key) == FirstByKey(s, key)
  {
    FirstByKeyDistinct(s, key);
    FirstByKeyOfDistinct(FirstByKey(s, key), key);
  }
}
