/**
  * pandas' drop_duplicates(subset, keep="first") on a table held as a sequence of rows:
  * a row survives when no earlier row has the same key. `key` picks the subset columns;
  * the identity key is a full-row comparison.
  */
module Dedup {

  /** The keys held by the rows of s. */
  function KeySet<T, K>(s: seq<T>, key: T -> K): set<K> {
    set i | 0 <= i < |s| :: key(s[i])
  }

  /** No two rows of s share a key. */
  predicate UniqueKeys<T, K(==)>(s: seq<T>, key: T -> K) {
    forall i, j :: 0 <= i < j < |s| ==> key(s[i]) != key(s[j])
  }

  /** The keys of a row followed by more rows. */
  lemma KeySetCons<T, K>(x: T, rest: seq<T>, key: T -> K)
    ensures KeySet([x] + rest, key) == {key(x)} + KeySet(rest, key)
  {
    var s := [x] + rest;
    assert key(s[0]) == key(x);
    forall k | k in KeySet(s, key) ensures k in {key(x)} + KeySet(rest, key) {
      var i :| 0 <= i < |s| && key(s[i]) == k;
      if i > 0 { assert s[i] == rest[i - 1]; }
    }
    forall k | k in KeySet(rest, key) ensures k in KeySet(s, key) {
      var i :| 0 <= i < |rest| && key(rest[i]) == k;
      assert key(s[i + 1]) == k;
    }
  }

  /** The rows of s whose key is neither in `seen` nor held by an earlier row of s. */
  function DedupFrom<T, K(==)>(s: seq<T>, key: T -> K, seen: set<K>): (r: seq<T>)
    ensures |r| <= |s|
    ensures forall i :: 0 <= i < |r| ==> r[i] in s && key(r[i]) !in seen
    ensures UniqueKeys(r, key)
    ensures KeySet(r, key) == KeySet(s, key) - seen
  {
    if s == [] then []
    else if key(s[0]) in seen then
      assert s == [s[0]] + s[1..];
      KeySetCons(s[0], s[1..], key);
      DedupFrom(s[1..], key, seen)
    else
      var rest := DedupFrom(s[1..], key, seen + {key(s[0])});
      assert s == [s[0]] + s[1..];
      KeySetCons(s[0], s[1..], key);
      KeySetCons(s[0], rest, key);
      [s[0]] + rest
  }

  /** drop_duplicates(subset, keep="first"). */
  function DedupBy<T, K(==)>(s: seq<T>, key: T -> K): seq<T> {
    DedupFrom(s, key, {})
  }

  /** The index of the first row of s with key k. */
  function FirstIndex<T, K(==)>(s: seq<T>, key: T -> K, k: K): (i: nat)
    requires k in KeySet(s, key)
    ensures i < |s| && key(s[i]) == k
    ensures forall j :: 0 <= j < i ==> key(s[j]) != k
  {
    if key(s[0]) == k then 0
    else
      assert k in KeySet(s[1..], key) by {
        var i :| 0 <= i < |s| && key(s[i]) == k;
        assert key(s[1..][i - 1]) == k;
      }
      1 + FirstIndex(s[1..], key, k)
  }

  /** Past a first row with another key, the first index is one more than in the tail. */
  lemma FirstIndexTail<T, K>(s: seq<T>, key: T -> K, k: K)
    requires s != [] && key(s[0]) != k && k in KeySet(s[1..], key)
    ensures k in KeySet(s, key) && FirstIndex(s, key, k) == 1 + FirstIndex(s[1..], key, k)
  {
    var j :| 0 <= j < |s[1..]| && key(s[1..][j]) == k;
    assert key(s[j + 1]) == k;
  }

  /** Every surviving row is the first row of the input with its key. */
  lemma {:induction false} DedupKeepsFirst<T, K>(s: seq<T>, key: T -> K, seen: set<K>, i: int)
    requires 0 <= i < |DedupFrom(s, key, seen)|
    ensures key(DedupFrom(s, key, seen)[i]) in KeySet(s, key)
    ensures DedupFrom(s, key, seen)[i] == s[FirstIndex(s, key, key(DedupFrom(s, key, seen)[i]))]
  {
    var r := DedupFrom(s, key, seen);
    var x := r[i];
    assert s != [];
    if key(s[0]) in seen {
      assert r == DedupFrom(s[1..], key, seen);
      assert key(x) !in seen;
      DedupKeepsFirst(s[1..], key, seen, i);
      FirstIndexTail(s, key, key(x));
    } else if i == 0 {
      assert x == s[0];
      assert key(s[0]) in KeySet(s, key);
    } else {
      var rest := DedupFrom(s[1..], key, seen + {key(s[0])});
      assert x == rest[i - 1];
      assert key(x) !in seen + {key(s[0])};
      DedupKeepsFirst(s[1..], key, seen + {key(s[0])}, i - 1);
      FirstIndexTail(s, key, key(x));
    }
  }

  /** Deduplicating a concatenation: the second part only contributes keys the first lacks. */
  lemma {:induction false} DedupAppend<T, K>(a: seq<T>, b: seq<T>, key: T -> K, seen: set<K>)
    ensures DedupFrom(a + b, key, seen) == DedupFrom(a, key, seen) + DedupFrom(b, key, seen + KeySet(a, key))
  {
    if a == [] {
      assert a + b == b;
      assert KeySet(a, key) == {};
      assert seen + KeySet(a, key) == seen;
    } else {
      assert (a + b)[1..] == a[1..] + b;
      assert KeySet(a, key) == {key(a[0])} + KeySet(a[1..], key) by {
        forall k | k in KeySet(a, key) ensures k in {key(a[0])} + KeySet(a[1..], key) {
          var i :| 0 <= i < |a| && key(a[i]) == k;
          if i > 0 { assert key(a[1..][i - 1]) == k; }
        }
      }
      if key(a[0]) in seen {
        DedupAppend(a[1..], b, key, seen);
        assert seen + KeySet(a[1..], key) == seen + KeySet(a, key);
      } else {
        DedupAppend(a[1..], b, key, seen + {key(a[0])});
        assert seen + {key(a[0])} + KeySet(a[1..], key) == seen + KeySet(a, key);
      }
    }
  }

  /** Rows with distinct keys, none of them seen, all survive. */
  lemma {:induction false} DedupOfUnique<T, K>(s: seq<T>, key: T -> K, seen: set<K>)
    requires UniqueKeys(s, key)
    requires forall i :: 0 <= i < |s| ==> key(s[i]) !in seen
    ensures DedupFrom(s, key, seen) == s
  {
    if s != [] {
      DedupOfUnique(s[1..], key, seen + {key(s[0])});
      assert [s[0]] + s[1..] == s;
    }
  }

  /**
    * Appending rows to a table with unique keys and deduplicating keeps every existing
    * row, in place, and adds a row only for a key the table did not hold.
    */
  lemma MergeKeepsExisting<T, K>(existing: seq<T>, incoming: seq<T>, key: T -> K)
    requires UniqueKeys(existing, key)
    ensures DedupBy(existing + incoming, key)
            == existing + DedupFrom(incoming, key, KeySet(existing, key))
  {
    DedupAppend(existing, incoming, key, {});
    DedupOfUnique(existing, key, {});
    assert {} + KeySet(existing, key) == KeySet(existing, key);
  }

  /**
    * Deduplicating by a coarser key after a finer one is the same as deduplicating by the
    * coarser key at once, when the coarse key is a function of the fine one.
    */
  lemma {:induction false} DedupRefine<T, K1, K2>(s: seq<T>, fine: T -> K1, g: K1 -> K2,
                                                          coarse: T -> K2, seen1: set<K1>, seen2: set<K2>)
    requires forall x :: coarse(x) == g(fine(x))
    requires forall a :: a in seen1 ==> g(a) in seen2
    ensures DedupFrom(DedupFrom(s, fine, seen1), coarse, seen2) == DedupFrom(s, coarse, seen2)
  {
    if s != [] {
      var x := s[0];
      if fine(x) in seen1 {
        DedupRefine(s[1..], fine, g, coarse, seen1, seen2);
      } else if coarse(x) in seen2 {
        DedupRefine(s[1..], fine, g, coarse, seen1 + {fine(x)}, seen2);
      } else {
        DedupRefine(s[1..], fine, g, coarse, seen1 + {fine(x)}, seen2 + {coarse(x)});
      }
    }
  }

  /** The identity key: drop_duplicates() with no subset compares whole rows. */
  function Id<T>(x: T): T { x }

  /** A column selection: f applied to every row, in order. */
  function Project<T, U>(s: seq<T>, f: T -> U): (r: seq<U>)
    ensures |r| == |s|
    ensures forall i :: 0 <= i < |s| ==> r[i] == f(s[i])
  {
    seq(|s|, i requires 0 <= i < |s| => f(s[i]))
  }

  /** Full-row deduplication keeps exactly the distinct rows. */
  lemma DedupSameElements<T>(s: seq<T>, x: T)
    ensures x in DedupBy(s, Id) <==> x in s
  {
    if x in s {
      var i :| 0 <= i < |s| && s[i] == x;
      assert Id(s[i]) in KeySet(s, Id);
      assert x in KeySet(DedupBy(s, Id), Id);
    }
  }

  /** Full-row deduplication does not change the set of values of any column. */
  lemma DedupSameKeys<T, K>(s: seq<T>, key: T -> K)
    ensures KeySet(DedupBy(s, Id), key) == KeySet(s, key)
  {
    var r := DedupBy(s, Id);
    forall k | k in KeySet(s, key) ensures k in KeySet(r, key) {
      var i :| 0 <= i < |s| && key(s[i]) == k;
      DedupSameElements(s, s[i]);
      var j :| 0 <= j < |r| && r[j] == s[i];
    }
  }

  /** Selecting the key column of a deduplicated table is deduplicating the key column. */
  lemma {:induction false} DedupProject<T, K>(s: seq<T>, key: T -> K, seen: set<K>)
    ensures Project(DedupFrom(s, key, seen), key) == DedupFrom(Project(s, key), Id, seen)
  {
    if s != [] {
      assert Project(s, key)[1..] == Project(s[1..], key);
      if key(s[0]) in seen {
        DedupProject(s[1..], key, seen);
      } else {
        DedupProject(s[1..], key, seen + {key(s[0])});
        var rest := DedupFrom(s[1..], key, seen + {key(s[0])});
        assert Project([s[0]] + rest, key) == [key(s[0])] + Project(rest, key);
      }
    }
  }

  /** The first index of a key depends only on the key column. */
  lemma FirstIndexSameColumn<T, U, K>(s: seq<T>, key: T -> K, t: seq<U>, key2: U -> K, k: K)
    requires |s| == |t|
    requires forall j :: 0 <= j < |s| ==> key(s[j]) == key2(t[j])
    requires k in KeySet(s, key)
    ensures k in KeySet(t, key2)
    ensures FirstIndex(s, key, k) == FirstIndex(t, key2, k)
  {
    var i :| 0 <= i < |s| && key(s[i]) == k;
    assert key2(t[i]) == k;
    var a := FirstIndex(s, key, k);
    var b := FirstIndex(t, key2, k);
    assert key(s[b]) == k;
    assert key2(t[a]) == k;
  }

  /** Two tables with the same key column, row by row, hold the same keys, equally unique. */
  lemma SameKeyColumn<T, U, K>(s: seq<T>, key: T -> K, t: seq<U>, key2: U -> K)
    requires |s| == |t|
    requires forall j :: 0 <= j < |s| ==> key(s[j]) == key2(t[j])
    ensures KeySet(s, key) == KeySet(t, key2)
    ensures UniqueKeys(s, key) <==> UniqueKeys(t, key2)
  {
    forall k | k in KeySet(s, key) ensures k in KeySet(t, key2) {
      var i :| 0 <= i < |s| && key(s[i]) == k;
      assert key2(t[i]) == k;
    }
    forall k | k in KeySet(t, key2) ensures k in KeySet(s, key) {
      var i :| 0 <= i < |t| && key2(t[i]) == k;
      assert key(s[i]) == k;
    }
  }
}
