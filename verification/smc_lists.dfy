/**
 * The shared tail of the list-producing detectors: Python's stable
 * `list.sort(key=...)` / `sorted(...)`, the `nearest_*` field taken from the
 * head of the sorted list, and the truncation of the reported list while
 * the total still counts every entry.
 */
module SmcLists {

  import opened Common

  /** `xs.index(x)`: the first position holding a value equal to `x`. */
  function IndexOf<T(==)>(xs: seq<T>, x: T): (i: nat)
    requires x in xs
    ensures i < |xs| && xs[i] == x
    ensures forall j :: 0 <= j < i ==> xs[j] != x
    decreases |xs|
  {
    if xs[0] == x then 0 else 1 + IndexOf(xs[1..], x)
  }

  predicate SortedBy<T>(s: seq<T>, key: T -> real)
  {
    forall i, j :: 0 <= i < j < |s| ==> key(s[i]) <= key(s[j])
  }

  /**
   * Insert `x`, which came before every element of `s` in the input, into
   * the sorted `s`: in front of the first element whose key is not smaller,
   * so that equal keys keep their input order.
   */
  function Insert<T>(x: T, s: seq<T>, key: T -> real): (r: seq<T>)
    requires SortedBy(s, key)
    ensures |r| == |s| + 1
    ensures multiset(r) == multiset(s) + multiset{x}
    ensures SortedBy(r, key)
    ensures r[0] == x || (s != [] && r[0] == s[0] && key(s[0]) < key(x))
    decreases |s|
  {
    if s == [] || key(x) <= key(s[0]) then
      InsertInFront(x, s, key);
      [x] + s
    else
      SortedTail(s, key);
      var t := Insert(x, s[1..], key);
      InsertBehind(x, s, t, key);
      [s[0]] + t
  }

  /** An element whose key is at most the head's can go in front of a sorted list. */
  lemma InsertInFront<T>(x: T, s: seq<T>, key: T -> real)
    requires SortedBy(s, key) && (s == [] || key(x) <= key(s[0]))
    ensures multiset([x] + s) == multiset(s) + multiset{x}
    ensures SortedBy([x] + s, key)
  {
    forall k | 0 <= k < |s|
      ensures key(x) <= key(s[k])
    {
      assert key(s[0]) <= key(s[k]);
    }
    SortedCons(x, s, key);
  }

  /**
   * Behind the head of a sorted list whose key is below `x`'s, the rest
   * with `x` inserted completes the insertion.
   */
  lemma InsertBehind<T>(x: T, s: seq<T>, t: seq<T>, key: T -> real)
    requires s != [] && SortedBy(s, key) && key(s[0]) < key(x)
    requires multiset(t) == multiset(s[1..]) + multiset{x} && SortedBy(t, key)
    ensures multiset([s[0]] + t) == multiset(s) + multiset{x}
    ensures SortedBy([s[0]] + t, key)
  {
    SortedTail(s, key);
    assert s == [s[0]] + s[1..];
    assert multiset(s) == multiset{s[0]} + multiset(s[1..]);
    KeysAbove(key(s[0]), t, s[1..], x, key);
    SortedCons(s[0], t, key);
  }

  /** The rest of a sorted list is sorted, and no key in it is below the head's. */
  lemma SortedTail<T>(s: seq<T>, key: T -> real)
    requires s != [] && SortedBy(s, key)
    ensures SortedBy(s[1..], key)
    ensures forall k :: 0 <= k < |s[1..]| ==> key(s[0]) <= key(s[1..][k])
  {
    assert forall k :: 0 <= k < |s[1..]| ==> s[1..][k] == s[k + 1];
  }

  /** An element no larger than any key of a sorted list can go in front of it. */
  lemma SortedCons<T>(y: T, t: seq<T>, key: T -> real)
    requires SortedBy(t, key) && forall k :: 0 <= k < |t| ==> key(y) <= key(t[k])
    ensures SortedBy([y] + t, key)
  {
    var r := [y] + t;
    forall i, j | 0 <= i < j < |r|
      ensures key(r[i]) <= key(r[j])
    {
      assert r[j] == t[j - 1];
      if i > 0 {
        assert r[i] == t[i - 1];
      }
    }
  }

  /** Every key of a list made of the elements of `s` and `x` is at least `lo` when theirs are. */
  lemma KeysAbove<T>(lo: real, t: seq<T>, s: seq<T>, x: T, key: T -> real)
    requires multiset(t) == multiset(s) + multiset{x}
    requires forall k :: 0 <= k < |s| ==> lo <= key(s[k])
    requires lo <= key(x)
    ensures forall k :: 0 <= k < |t| ==> lo <= key(t[k])
  {
    forall k | 0 <= k < |t|
      ensures lo <= key(t[k])
    {
      assert t[k] in multiset(s) + multiset{x};
      if t[k] != x {
        assert t[k] in multiset(s);
        var i :| 0 <= i < |s| && s[i] == t[k];
      }
    }
  }

  /** `sorted(s, key=key)` (and `s.sort(key=key)`): a stable ascending sort. */
  function SortBy<T>(s: seq<T>, key: T -> real): (r: seq<T>)
    ensures |r| == |s|
    ensures multiset(r) == multiset(s)
    ensures SortedBy(r, key)
    decreases |s|
  {
    if s == [] then []
    else
      assert s == [s[0]] + s[1..];
      Insert(s[0], SortBy(s[1..], key), key)
  }

  /** `i` is the first position of `s` holding a smallest key. */
  predicate FirstMinimal<T>(s: seq<T>, key: T -> real, i: int)
  {
    && 0 <= i < |s|
    && (forall j :: 0 <= j < |s| ==> key(s[i]) <= key(s[j]))
    && (forall j :: 0 <= j < i ==> key(s[i]) < key(s[j]))
  }

  /**
   * Stability at the head: the first element of the sorted list is the
   * first element of the input with the smallest key.
   */
  lemma {:induction false} SortedHeadIsFirstMinimal<T>(s: seq<T>, key: T -> real)
    requires s != []
    ensures exists i :: FirstMinimal(s, key, i) && SortBy(s, key)[0] == s[i]
    decreases |s|
  {
    var sorted := SortBy(s, key);
    var tail := SortBy(s[1..], key);
    assert sorted == Insert(s[0], tail, key);
    if |s| == 1 {
      assert FirstMinimal(s, key, 0);
    } else {
      SortedHeadIsFirstMinimal(s[1..], key);
      var k :| FirstMinimal(s[1..], key, k) && tail[0] == s[1..][k];
      if key(s[0]) <= key(tail[0]) {
        assert sorted[0] == s[0];
        HeadStaysFirst(s, key, k);
      } else {
        assert sorted[0] == tail[0];
        HeadMovesBack(s, key, k);
      }
    }
  }

  /** A head no larger than the first minimum of the rest is the first minimum of the list. */
  lemma HeadStaysFirst<T>(s: seq<T>, key: T -> real, k: int)
    requires |s| > 1 && FirstMinimal(s[1..], key, k) && key(s[0]) <= key(s[1..][k])
    ensures FirstMinimal(s, key, 0)
  {
    forall j | 0 < j < |s|
      ensures key(s[0]) <= key(s[j])
    {
      assert s[j] == s[1..][j - 1];
    }
  }

  /** Behind a head larger than it, the first minimum of the rest is the first minimum of the list. */
  lemma HeadMovesBack<T>(s: seq<T>, key: T -> real, k: int)
    requires |s| > 1 && FirstMinimal(s[1..], key, k) && key(s[0]) > key(s[1..][k])
    ensures FirstMinimal(s, key, k + 1)
  {
    forall j | 0 < j < |s|
      ensures key(s[k + 1]) <= key(s[j])
      ensures j < k + 1 ==> key(s[k + 1]) < key(s[j])
    {
      assert s[j] == s[1..][j - 1];
    }
  }

  /** `s[0] if s else None`. */
  function Nearest<T>(s: seq<T>): (r: Option<T>)
    ensures r.None? <==> s == []
    ensures r.Some? ==> r.value == s[0]
  {
    if s == [] then None else Some(s[0])
  }

  /**
   * The `nearest_*` entry of a list sorted by distance is absent exactly for
   * an empty list, and otherwise is an entry no farther than any other.
   */
  lemma NearestOfSortedIsClosest<T>(s: seq<T>, key: T -> real)
    ensures Nearest(SortBy(s, key)).None? <==> s == []
    ensures Nearest(SortBy(s, key)).Some? ==>
      var n := Nearest(SortBy(s, key)).value;
      n in s && forall j :: 0 <= j < |s| ==> key(n) <= key(s[j])
  {
    var r := SortBy(s, key);
    if s == [] {
      assert r == [] by {
        assert |r| == |multiset(r)| == |multiset(s)| == 0;
      }
    } else {
      assert r != [] by {
        assert s[0] in multiset(r);
      }
      assert r[0] in multiset(s);
      forall j | 0 <= j < |s|
        ensures key(r[0]) <= key(s[j])
      {
        assert s[j] in multiset(r);
        var k :| 0 <= k < |r| && r[k] == s[j];
      }
    }
  }

  /** A prefix of the sorted list, such as the entries shown, is sorted and holds entries of the input only. */
  lemma PrefixOfSorted<T>(s: seq<T>, key: T -> real, shown: seq<T>)
    requires shown <= SortBy(s, key)
    ensures SortedBy(shown, key)
    ensures forall x :: x in shown ==> x in s
  {
    PrefixIsSorted(SortBy(s, key), key, shown);
    SameElements(SortBy(s, key), s, shown);
  }

  lemma PrefixIsSorted<T>(sorted: seq<T>, key: T -> real, shown: seq<T>)
    requires SortedBy(sorted, key) && shown <= sorted
    ensures SortedBy(shown, key)
  {
    assert forall i :: 0 <= i < |shown| ==> shown[i] == sorted[i];
  }

  /** The elements of a prefix of `t` are elements of `s` when `t` and `s` hold the same elements. */
  lemma SameElements<T>(t: seq<T>, s: seq<T>, shown: seq<T>)
    requires multiset(t) == multiset(s) && shown <= t
    ensures forall x :: x in shown ==> x in s
  {
    forall x | x in shown
      ensures x in s
    {
      var i :| 0 <= i < |shown| && shown[i] == x;
      assert t[i] == x;
      assert x in multiset(t);
    }
  }

  /** In a sorted list, every entry in front of position `m` is no farther than every entry from `m` on. */
  lemma SortedSplit<T>(t: seq<T>, key: T -> real, m: nat)
    requires SortedBy(t, key) && m <= |t|
    ensures forall x, y :: x in t[..m] && y in t[m..] ==> key(x) <= key(y)
  {
    forall x, y | x in t[..m] && y in t[m..]
      ensures key(x) <= key(y)
    {
      var a :| 0 <= a < m && t[..m][a] == x;
      var b :| 0 <= b < |t| - m && t[m..][b] == y;
      assert t[a] == x && t[m + b] == y;
    }
  }

  /** What a prefix leaves of a list's entries are the entries behind it. */
  lemma Remainder<T>(t: seq<T>, s: seq<T>, m: nat)
    requires multiset(t) == multiset(s) && m <= |t|
    ensures multiset(s) - multiset(t[..m]) == multiset(t[m..])
    ensures multiset(t[..m]) <= multiset(s)
  {
    assert t == t[..m] + t[m..];
  }

  /**
   * The entries shown of the sorted list are nearest entries of the input:
   * they are entries of it, and every entry left out is no nearer than
   * any entry shown.
   */
  lemma ShownAreNearest<T>(s: seq<T>, key: T -> real, limit: nat)
    ensures multiset(Take(SortBy(s, key), limit)) <= multiset(s)
    ensures forall x, y ::
      x in multiset(Take(SortBy(s, key), limit)) && y in multiset(s) - multiset(Take(SortBy(s, key), limit))
      ==> key(x) <= key(y)
  {
    var t := SortBy(s, key);
    var m := |Take(t, limit)|;
    assert Take(t, limit) == t[..m];
    Remainder(t, s, m);
    SortedSplit(t, key, m);
    forall x, y | x in multiset(t[..m]) && y in multiset(t[m..])
      ensures key(x) <= key(y)
    {
      assert x in t[..m] && y in t[m..];
    }
  }

  // ---------------------------------------------------------------- stability

  /** The entries of `s` whose key is `v`, in their order in `s`. */
  function WithKey<T>(s: seq<T>, key: T -> real, v: real): (r: seq<T>)
    ensures |r| <= |s|
    ensures forall x :: x in r ==> x in s && key(x) == v
  {
    if s == [] then []
    else (if key(s[0]) == v then [s[0]] else []) + WithKey(s[1..], key, v)
  }

  /** The entries with key `v` of a list with `y` in front. */
  lemma WithKeyCons<T>(y: T, r: seq<T>, key: T -> real, v: real)
    ensures WithKey([y] + r, key, v) == (if key(y) == v then [y] else []) + WithKey(r, key, v)
  {
    assert ([y] + r)[1..] == r;
  }

  /** Of two pieces one of which is empty, either may come first. */
  lemma EmptySwaps<T>(a: seq<T>, b: seq<T>, c: seq<T>)
    requires a == [] || b == []
    ensures a + (b + c) == b + (a + c)
  {
    if a == [] {
      assert a + (b + c) == b + c == b + (a + c);
    } else {
      assert a + (b + c) == a + c == b + (a + c);
    }
  }

  /** Inserting as the sort does puts `x` behind no entry of its own key. */
  lemma {:induction false} InsertKeepsOrder<T>(x: T, t: seq<T>, key: T -> real, v: real)
    requires SortedBy(t, key)
    ensures WithKey(Insert(x, t, key), key, v) == (if key(x) == v then [x] else []) + WithKey(t, key, v)
    decreases |t|
  {
    if t == [] || key(x) <= key(t[0]) {
      assert Insert(x, t, key) == [x] + t;
      WithKeyCons(x, t, key, v);
    } else {
      SortedTail(t, key);
      var r := Insert(x, t[1..], key);
      assert Insert(x, t, key) == [t[0]] + r;
      WithKeyCons(t[0], r, key, v);
      InsertKeepsOrder(x, t[1..], key, v);
      assert t == [t[0]] + t[1..];
      WithKeyCons(t[0], t[1..], key, v);
      var mine: seq<T> := if key(x) == v then [x] else [];
      var head: seq<T> := if key(t[0]) == v then [t[0]] else [];
      var rest := WithKey(t[1..], key, v);
      assert WithKey(Insert(x, t, key), key, v) == head + (mine + rest);
      assert mine + WithKey(t, key, v) == mine + (head + rest);
      assert head == [] || mine == [];
      EmptySwaps(head, mine, rest);
    }
  }

  /**
   * The sort is stable, as Python's: for every key, the entries with that
   * key come out in the order they went in.
   */
  lemma {:induction false} SortIsStable<T>(s: seq<T>, key: T -> real, v: real)
    ensures WithKey(SortBy(s, key), key, v) == WithKey(s, key, v)
    decreases |s|
  {
    if s != [] {
      SortIsStable(s[1..], key, v);
      InsertKeepsOrder(s[0], SortBy(s[1..], key), key, v);
    }
  }

  // ---------------------------------------------------------------- distinct elements

  /** No element of `s` occurs twice. */
  predicate Distinct<T(==)>(s: seq<T>)
  {
    forall a, b :: 0 <= a < b < |s| ==> s[a] != s[b]
  }

  /** In a list without repeats every element is counted at most once. */
  lemma {:induction false} DistinctCountsOnce<T>(s: seq<T>, x: T)
    requires Distinct(s)
    ensures multiset(s)[x] <= 1
  {
    if s != [] {
      assert s == [s[0]] + s[1..];
      assert Distinct(s[1..]) by {
        forall a, b | 0 <= a < b < |s[1..]|
          ensures s[1..][a] != s[1..][b]
        {
          assert s[1..][a] == s[a + 1] && s[1..][b] == s[b + 1];
        }
      }
      DistinctCountsOnce(s[1..], x);
      if x == s[0] {
        assert x !in s[1..] by {
          forall b | 0 <= b < |s[1..]|
            ensures s[1..][b] != x
          {
            assert s[1..][b] == s[b + 1];
          }
        }
      }
    }
  }

  /** An element found at two positions is counted at least twice. */
  lemma RepeatCountsTwice<T>(s: seq<T>, a: nat, b: nat)
    requires a < b < |s| && s[a] == s[b]
    ensures multiset(s)[s[a]] >= 2
  {
    assert s == s[..b] + s[b..];
    assert s[a] == s[..b][a];
    assert s[b] == s[b..][0];
    assert multiset(s) == multiset(s[..b]) + multiset(s[b..]);
  }

  /** Reordering a list without repeats leaves it without repeats. */
  lemma PermutationKeepsDistinct<T>(s: seq<T>, t: seq<T>)
    requires Distinct(s) && multiset(t) == multiset(s)
    ensures Distinct(t)
  {
    forall a, b | 0 <= a < b < |t|
      ensures t[a] != t[b]
    {
      if t[a] == t[b] {
        RepeatCountsTwice(t, a, b);
        DistinctCountsOnce(s, t[a]);
      }
    }
  }

  // ---------------------------------------------------------------- scans

  /**
   * What a scan records: the values of the steps that found something, in
   * the order of the steps.
   */
  function Collect<T>(steps: seq<Option<T>>): (r: seq<T>)
    ensures |r| <= |steps|
    ensures (forall k :: 0 <= k < |steps| ==> steps[k].Some?) ==> |r| == |steps|
  {
    if steps == [] then []
    else Collect(steps[..|steps| - 1]) + (if steps[|steps| - 1].Some? then [steps[|steps| - 1].value] else [])
  }

  /** When every step finds something, position `k` holds what step `k` found. */
  lemma {:induction false} CollectAllSome<T>(steps: seq<Option<T>>)
    requires forall k :: 0 <= k < |steps| ==> steps[k].Some?
    ensures |Collect(steps)| == |steps|
    ensures forall k :: 0 <= k < |steps| ==> Collect(steps)[k] == steps[k].value
  {
    if steps != [] {
      var init := steps[..|steps| - 1];
      CollectAllSome(init);
      assert Collect(steps) == Collect(init) + [steps[|steps| - 1].value];
    }
  }

  /** Running one more step appends what it found. */
  lemma CollectStep<T>(steps: seq<Option<T>>, k: nat)
    requires k < |steps|
    ensures Collect(steps[..k + 1]) == Collect(steps[..k]) + (if steps[k].Some? then [steps[k].value] else [])
  {
    assert steps[..k + 1][..k] == steps[..k];
  }

  /** A step that finds `x` appends it to what the earlier steps found. */
  lemma CollectAppend<T>(steps: seq<Option<T>>, k: nat, found: seq<T>, x: T)
    requires k < |steps| && found == Collect(steps[..k]) && steps[k] == Some(x)
    ensures found + [x] == Collect(steps[..k + 1])
  {
    CollectStep(steps, k);
  }

  /** A step that finds nothing leaves what the earlier steps found. */
  lemma CollectSkip<T>(steps: seq<Option<T>>, k: nat, found: seq<T>)
    requires k < |steps| && found == Collect(steps[..k]) && steps[k].None?
    ensures found == Collect(steps[..k + 1])
  {
    CollectStep(steps, k);
  }

  /** Steps that find nothing add nothing, so a scan may stop at them. */
  lemma {:induction false} CollectStops<T>(steps: seq<Option<T>>, k: nat)
    requires k <= |steps|
    requires forall j :: k <= j < |steps| ==> steps[j].None?
    ensures Collect(steps[..k]) == Collect(steps)
    decreases |steps| - k
  {
    if k < |steps| {
      CollectStep(steps, k);
      CollectStops(steps, k + 1);
    } else {
      assert steps[..k] == steps;
    }
  }

  /** A value is recorded exactly when some step found it. */
  lemma {:induction false} CollectMembers<T>(steps: seq<Option<T>>)
    ensures forall x :: x in Collect(steps) <==> exists k :: 0 <= k < |steps| && steps[k] == Some(x)
    decreases |steps|
  {
    if steps != [] {
      var n := |steps| - 1;
      var init := steps[..n];
      CollectMembers(init);
      assert forall k :: 0 <= k < n ==> init[k] == steps[k];
    }
  }

  /**
   * The first `limit` entries of the stable sort by `key`: the `limit`
   * entries of `s` with the least keys, or all of them when there are fewer.
   */
  function LeastBy<T>(s: seq<T>, key: T -> real, limit: nat): (r: seq<T>)
    ensures |r| == if |s| < limit then |s| else limit
    ensures multiset(r) <= multiset(s)
    ensures forall x :: x in r ==> x in s
    ensures forall x, y :: x in multiset(r) && y in multiset(s) - multiset(r) ==> key(x) <= key(y)
  {
    ShownAreNearest(s, key, limit);
    SameElements(SortBy(s, key), s, Take(SortBy(s, key), limit));
    Take(SortBy(s, key), limit)
  }

  /** `s[:limit]`: the first `limit` entries, or all of them. */
  function Take<T>(s: seq<T>, limit: nat): (r: seq<T>)
    ensures |r| == if |s| < limit then |s| else limit
    ensures r <= s
  {
    if |s| <= limit then s else s[..limit]
  }

  /** A reported list: the entries kept and the total count of entries found. */
  datatype Report<T> = Report(shown: seq<T>, total: nat)

  /** `{'items': items[:limit], 'total_items': len(items)}`. */
  function Summarize<T>(items: seq<T>, limit: nat): (r: Report<T>)
    ensures |r.shown| <= limit && r.shown <= items
    ensures r.total == |items|
    ensures |items| <= limit ==> r.shown == items
  {
    Report(Take(items, limit), |items|)
  }
}
