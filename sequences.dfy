/** Sequence helpers shared by the tile game: the stable sort that the
    source performs with Array.prototype.sort and a numeric comparator,
    and the removals it performs with splice, filter and pop. */
module Sequences {

  /** The elements of `s` appear in non-decreasing order of `key`. */
  ghost predicate SortedBy<T>(s: seq<T>, key: T -> int) {
    forall i, j :: 0 <= i < j < |s| ==> key(s[i]) <= key(s[j])
  }

  /** The identity key, used to sort integers by their own value. */
  function Identity(x: int): int { x }

  ghost predicate Sorted(s: seq<int>) {
    forall i, j :: 0 <= i < j < |s| ==> s[i] <= s[j]
  }

  lemma SortedByIdentity(s: seq<int>)
    ensures SortedBy(s, Identity) <==> Sorted(s)
  {
  }

  /** Inserts `x` in front of the first element whose key is at least the
      key of `x`; an inserted element goes before the equal keys already in
      `s`. */
  function Insert<T>(x: T, s: seq<T>, key: T -> int): (r: seq<T>)
    ensures multiset(r) == multiset(s) + multiset{x}
    ensures |r| == |s| + 1
  {
    if s == [] then [x]
    else if key(x) <= key(s[0]) then [x] + s
    else
      var rest := Insert(x, s[1..], key);
      assert s == [s[0]] + s[1..];
      [s[0]] + rest
  }

  lemma {:induction false} InsertSorted<T>(x: T, s: seq<T>, key: T -> int)
    requires SortedBy(s, key)
    ensures SortedBy(Insert(x, s, key), key)
  {
    if s != [] && key(x) > key(s[0]) {
      InsertSorted(x, s[1..], key);
      var rest := Insert(x, s[1..], key);
      assert s == [s[0]] + s[1..];
      forall j | 0 <= j < |rest| ensures key(s[0]) <= key(rest[j]) {
        assert rest[j] in multiset(rest);
        assert rest[j] == x || rest[j] in multiset(s[1..]);
        if rest[j] != x {
          var m :| 0 <= m < |s[1..]| && s[1..][m] == rest[j];
          assert s[m + 1] == rest[j];
        }
      }
    }
  }

  /** A stable sort by an integer key. */
  function SortBy<T>(s: seq<T>, key: T -> int): (r: seq<T>)
    ensures multiset(r) == multiset(s)
    ensures |r| == |s|
  {
    if s == [] then []
    else
      assert s == [s[0]] + s[1..];
      Insert(s[0], SortBy(s[1..], key), key)
  }

  /** The stable sort orders its result by the key. */
  lemma {:induction false} SortBySorted<T>(s: seq<T>, key: T -> int)
    ensures SortedBy(SortBy(s, key), key)
  {
    if s != [] {
      SortBySorted(s[1..], key);
      InsertSorted(s[0], SortBy(s[1..], key), key);
    }
  }

  /** Integers in ascending order (`sort((a, b) => a - b)`). */
  function SortInts(s: seq<int>): (r: seq<int>)
    ensures Sorted(r) && |r| == |s|
    ensures multiset(r) == multiset(s)
  {
    SortBySorted(s, Identity);
    SortedByIdentity(SortBy(s, Identity));
    SortBy(s, Identity)
  }

  /** The keys of every element, in order (the source's `map`). */
  function MapKey<T>(s: seq<T>, key: T -> int): (r: seq<int>)
    ensures |r| == |s|
    ensures forall i :: 0 <= i < |s| ==> r[i] == key(s[i])
  {
    if s == [] then [] else [key(s[0])] + MapKey(s[1..], key)
  }

  lemma MultisetTail<T>(s: seq<T>)
    requires s != []
    ensures multiset(s[1..]) == multiset(s) - multiset{s[0]}
  {
    assert s == [s[0]] + s[1..];
  }

  lemma MultisetSlices<T>(s: seq<T>, i: int, j: int, k: int)
    requires 0 <= i <= j <= k <= |s|
    ensures multiset(s[i..k]) == multiset(s[i..j]) + multiset(s[j..k])
  {
    assert s[i..k] == s[i..j] + s[j..k];
  }

  lemma Cancel<T>(x: multiset<T>, y: multiset<T>, e: T)
    requires x + multiset{e} == y + multiset{e}
    ensures x == y
  {
    assert x == (x + multiset{e}) - multiset{e};
    assert y == (y + multiset{e}) - multiset{e};
  }

  lemma CancelBag<T>(x: multiset<T>, y: multiset<T>, b: multiset<T>)
    requires x + b == y + b
    ensures x == y
  {
    assert x == (x + b) - b;
    assert y == (y + b) - b;
  }

  /** Cutting out the two elements at `k` and `k + 1`. */
  lemma MultisetCutTwo<T>(s: seq<T>, k: int)
    requires 0 <= k && k + 2 <= |s|
    ensures multiset(s) == multiset(s[..k] + s[k + 2..]) + multiset{s[k], s[k + 1]}
  {
    assert s == s[..k] + [s[k], s[k + 1]] + s[k + 2..];
  }

  lemma SortedCutTwo(s: seq<int>, k: int)
    requires Sorted(s) && 0 <= k && k + 2 <= |s|
    ensures Sorted(s[..k] + s[k + 2..])
  {
    var r := s[..k] + s[k + 2..];
    forall i, j | 0 <= i < j < |r| ensures r[i] <= r[j] {
      var i' := if i < k then i else i + 2;
      var j' := if j < k then j else j + 2;
      assert r[i] == s[i'] && r[j] == s[j'];
    }
  }

  lemma MultisetCut<T>(s: seq<T>, k: int)
    requires 0 <= k < |s|
    ensures multiset(s) == multiset(s[..k] + s[k + 1..]) + multiset{s[k]}
  {
    assert s == s[..k] + [s[k]] + s[k + 1..];
  }

  /** Cutting position `i > 0` out of `s` keeps the head in front. */
  lemma CutKeepsHead<T>(s: seq<T>, i: int)
    requires 0 < i < |s|
    ensures s[..i] + s[i + 1..] == [s[0]] + (s[1..][..i - 1] + s[1..][i..])
  {
  }

  lemma MapKeyCut<T>(s: seq<T>, k: int, key: T -> int)
    requires 0 <= k < |s|
    ensures MapKey(s[..k] + s[k + 1..], key) == MapKey(s, key)[..k] + MapKey(s, key)[k + 1..]
  {
    var c := s[..k] + s[k + 1..];
    var ks := MapKey(s, key);
    var l, r := MapKey(c, key), ks[..k] + ks[k + 1..];
    assert |l| == |r|;
    forall i | 0 <= i < |l| ensures l[i] == r[i] {
      if i < k {
        assert c[i] == s[i] && r[i] == ks[i];
      } else {
        assert c[i] == s[i + 1] && r[i] == ks[i + 1];
      }
    }
  }

  /** Removing matching elements from both sides keeps the key multisets equal. */
  lemma MapKeyStep<T>(a: seq<T>, b: seq<T>, k: int, key: T -> int)
    requires a != [] && 0 <= k < |b| && b[k] == a[0]
    requires multiset(MapKey(a[..0] + a[1..], key)) == multiset(MapKey(b[..k] + b[k + 1..], key))
    ensures multiset(MapKey(a, key)) == multiset(MapKey(b, key))
  {
    MapKeyCut(a, 0, key);
    MapKeyCut(b, k, key);
    var ka, kb := MapKey(a, key), MapKey(b, key);
    MultisetCut(ka, 0);
    MultisetCut(kb, k);
    assert ka[0] == kb[k];
  }

  /** Two sequences that are permutations of each other have keys that are
      permutations of each other. */
  lemma {:induction false} MapKeyPermutation<T>(a: seq<T>, b: seq<T>, key: T -> int)
    requires multiset(a) == multiset(b)
    ensures multiset(MapKey(a, key)) == multiset(MapKey(b, key))
    decreases |a|
  {
    assert |a| == |multiset(a)| && |b| == |multiset(b)|;
    if a != [] {
      assert a[0] in multiset(b);
      var k :| 0 <= k < |b| && b[k] == a[0];
      MultisetCut(a, 0);
      MultisetCut(b, k);
      Cancel(multiset(a[..0] + a[1..]), multiset(b[..k] + b[k + 1..]), a[0]);
      MapKeyPermutation(a[..0] + a[1..], b[..k] + b[k + 1..], key);
      MapKeyStep(a, b, k, key);
    }
  }

  lemma SortedHeadIsMin(a: seq<int>, x: int)
    requires Sorted(a) && x in multiset(a)
    ensures a[0] <= x
  {
    var i :| 0 <= i < |a| && a[i] == x;
    assert a[0] <= a[i];
  }

  lemma SortedTail(a: seq<int>)
    requires Sorted(a) && a != []
    ensures Sorted(a[1..])
  {
  }

  /** In a sorted sequence whose first value occurs twice, the second
      element is that value again. */
  lemma SortedRepeatedHead(s: seq<int>)
    requires Sorted(s) && |s| >= 1 && multiset(s)[s[0]] >= 2
    ensures |s| >= 2 && s[1] == s[0]
  {
    MultisetTail(s);
    assert s[0] in multiset(s[1..]);
    var j :| 0 <= j < |s[1..]| && s[1..][j] == s[0];
    assert s[1] <= s[j + 1];
  }

  lemma SortedDrop(s: seq<int>, k: int)
    requires Sorted(s) && 0 <= k <= |s|
    ensures Sorted(s[k..])
  {
    forall i, j | 0 <= i < j < |s[k..]| ensures s[k..][i] <= s[k..][j] {
      assert s[k..][i] == s[k + i] && s[k..][j] == s[k + j];
    }
  }

  /** Putting in front an element no larger than anything that follows
      keeps a sequence sorted. */
  lemma SortedCons(x: int, s: seq<int>)
    requires Sorted(s)
    requires forall y :: y in multiset(s) ==> x <= y
    ensures Sorted([x] + s)
  {
    forall j | 0 <= j < |s| ensures x <= s[j] {
      assert s[j] in multiset(s);
    }
    var r := [x] + s;
    forall i, j | 0 <= i < j < |r| ensures r[i] <= r[j] {
      assert r[j] == s[j - 1];
      if i > 0 { assert r[i] == s[i - 1]; }
    }
  }

  /** The head of a sorted sequence stays in front of any sorted sequence
      drawn from its tail. */
  lemma SortedConsOfSub(s: seq<int>, r: seq<int>)
    requires Sorted(s) && s != [] && Sorted(r)
    requires multiset(r) <= multiset(s[1..])
    ensures Sorted([s[0]] + r)
  {
    forall y | y in multiset(r) ensures s[0] <= y {
      assert y in multiset(s[1..]);
      var j :| 0 <= j < |s[1..]| && s[1..][j] == y;
      assert s[0] <= s[j + 1];
    }
    SortedCons(s[0], r);
  }

  /** Two non-empty sequences with the same head and the same tail are equal. */
  lemma HeadTailEqual<T>(a: seq<T>, b: seq<T>)
    requires a != [] && b != [] && a[0] == b[0] && a[1..] == b[1..]
    ensures a == b
  {
    assert a == [a[0]] + a[1..];
    assert b == [b[0]] + b[1..];
  }

  /** Sorted sequences with the same elements start alike, and their tails
      hold the same elements. */
  lemma SortedSameHead(a: seq<int>, b: seq<int>)
    requires Sorted(a) && Sorted(b) && a != [] && b != []
    requires multiset(a) == multiset(b)
    ensures a[0] == b[0] && multiset(a[1..]) == multiset(b[1..])
  {
    SortedHeadIsMin(a, b[0]);
    SortedHeadIsMin(b, a[0]);
    MultisetTail(a);
    MultisetTail(b);
  }

  /** Two sorted sequences of integers holding the same multiset are equal:
      the sorted order of a multiset of integers is unique. */
  lemma {:induction false} SortedUnique(a: seq<int>, b: seq<int>)
    requires Sorted(a) && Sorted(b)
    requires multiset(a) == multiset(b)
    ensures a == b
    decreases |a|
  {
    assert |a| == |multiset(a)| && |b| == |multiset(b)|;
    if a != [] {
      SortedSameHead(a, b);
      SortedTail(a);
      SortedTail(b);
      SortedUnique(a[1..], b[1..]);
      HeadTailEqual(a, b);
    }
  }

  /** Position of the first occurrence of `x`, or -1 (the source's indexOf). */
  function IndexOf<T(==)>(s: seq<T>, x: T): (k: int)
    ensures -1 <= k < |s|
    ensures k == -1 <==> x !in s
    ensures 0 <= k ==> s[k] == x && x !in s[..k]
  {
    if s == [] then -1
    else if s[0] == x then 0
    else
      var k := IndexOf(s[1..], x);
      assert s == [s[0]] + s[1..];
      if k < 0 then -1 else k + 1
  }

  /** `splice(indexOf(x), 1)` for an element known to be present: the first
      copy of `x` goes, the rest keeps its order. */
  function RemoveFirst<T(==)>(s: seq<T>, x: T): (r: seq<T>)
    requires x in s
    ensures multiset(r) + multiset{x} == multiset(s)
    ensures |r| == |s| - 1
  {
    assert s == [s[0]] + s[1..];
    if s[0] == x then s[1..] else [s[0]] + RemoveFirst(s[1..], x)
  }

  lemma SpliceStep<T>(s: seq<T>, k: int, tail: seq<T>, r: seq<T>)
    requires 0 <= k && k + 1 < |s|
    requires tail == s[1..][..k] + s[1..][k + 1..]
    requires r == [s[0]] + tail
    ensures r == s[..k + 1] + s[k + 2..]
  {
    CutKeepsHead(s, k + 1);
  }

  /** Removing the first copy of `x`, found at `k`, cuts out position `k`. */
  lemma {:induction false} RemoveFirstAt<T>(s: seq<T>, x: T, k: int)
    requires 0 <= k < |s| && s[k] == x && x !in s[..k]
    ensures RemoveFirst(s, x) == s[..k] + s[k + 1..]
  {
    assert x in s;
    if k == 0 {
      assert s[..0] + s[1..] == s[1..];
    } else {
      assert s[0] == s[..k][0];
      assert s[1..][k - 1] == x;
      assert s[1..][..k - 1] == s[..k][1..];
      RemoveFirstAt(s[1..], x, k - 1);
      SpliceStep(s, k - 1, RemoveFirst(s[1..], x), RemoveFirst(s, x));
    }
  }

  /** The removal is `splice(indexOf(x), 1)`. */
  lemma RemoveFirstIsSplice<T>(s: seq<T>, x: T)
    requires x in s
    ensures RemoveFirst(s, x) == s[..IndexOf(s, x)] + s[IndexOf(s, x) + 1..]
  {
    RemoveFirstAt(s, x, IndexOf(s, x));
  }

  /** Removing one element keeps every other value present. */
  lemma RemoveFirstKeeps<T>(s: seq<T>, x: T, y: T)
    requires x in s && y in s && x != y
    ensures y in RemoveFirst(s, x)
  {
    assert y in multiset(s);
  }

  lemma {:induction false} SortedRemoveFirst(s: seq<int>, x: int)
    requires Sorted(s) && x in s
    ensures Sorted(RemoveFirst(s, x))
  {
    SortedTail(s);
    if s[0] != x {
      assert x in s[1..] by { assert s == [s[0]] + s[1..]; }
      SortedRemoveFirst(s[1..], x);
      var rest := RemoveFirst(s[1..], x);
      assert multiset(rest) <= multiset(s[1..]);
      SortedConsOfSub(s, rest);
    }
  }

  /** `filter(t => t !== x)`: every copy of `x` goes, the rest keeps its order. */
  function RemoveAll<T(==)>(s: seq<T>, x: T): (r: seq<T>)
    ensures multiset(r) == multiset(s)[x := 0]
    ensures x !in r
    ensures |r| == |s| - multiset(s)[x]
  {
    if s == [] then []
    else
      assert s == [s[0]] + s[1..];
      if s[0] == x then RemoveAll(s[1..], x) else [s[0]] + RemoveAll(s[1..], x)
  }

  /** The filter with a counter: drops the first `n` copies of `x` (all of
      them when there are fewer), the rest keeps its order. */
  function RemoveFirstN<T(==)>(s: seq<T>, x: T, n: nat): (r: seq<T>)
    ensures multiset(r) == multiset(s)[x := if multiset(s)[x] <= n then 0 else multiset(s)[x] - n]
  {
    if s == [] then []
    else
      assert s == [s[0]] + s[1..];
      if s[0] == x && n > 0 then RemoveFirstN(s[1..], x, n - 1)
      else [s[0]] + RemoveFirstN(s[1..], x, n)
  }

  /** `pop()`: drops the last element; popping an empty array changes nothing. */
  function DropLast<T>(s: seq<T>): (r: seq<T>)
    ensures s != [] ==> s == r + [s[|s| - 1]]
    ensures s == [] ==> r == []
  {
    if s == [] then [] else s[..|s| - 1]
  }

  /** The distinct values of `s` in order of first occurrence
      (`Array.from(new Set(s))`). */
  function Dedup<T(==)>(s: seq<T>): (r: seq<T>)
    ensures forall i :: 0 <= i < |r| ==> r[i] in s
    ensures forall i :: 0 <= i < |s| ==> s[i] in r
  {
    if s == [] then []
    else
      var rest := Dedup(s[..|s| - 1]);
      assert s == s[..|s| - 1] + [s[|s| - 1]];
      if s[|s| - 1] in rest then rest else rest + [s[|s| - 1]]
  }
}
