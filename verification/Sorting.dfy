/** Heap sort in place and binary search over an array, for any comparison
    function that is a total preorder. Heap positions count from 1, as in the
    program; element `i` is at index `i - 1`. */
module Sorting {

  ghost predicate Flips<T(!new)>(cmp: (T, T) -> int) {
    forall a, b :: cmp(a, b) > 0 <==> cmp(b, a) < 0
  }

  predicate Le<T>(cmp: (T, T) -> int, a: T, b: T) { cmp(a, b) <= 0 }

  predicate Chains<T>(cmp: (T, T) -> int, a: T, b: T, c: T) {
    Le(cmp, a, b) && Le(cmp, b, c) ==> Le(cmp, a, c)
  }

  ghost predicate Preorder<T(!new)>(cmp: (T, T) -> int) {
    Flips(cmp) && forall a, b, c :: Chains(cmp, a, b, c)
  }

  ghost predicate Sorted<T>(cmp: (T, T) -> int, s: seq<T>, lo: nat) {
    forall i, j | lo <= i < j < |s| :: Le(cmp, s[i], s[j])
  }

  // --- heaps -----------------------------------------------------------------

  /** Element `c` is not above its parent. */
  predicate Below<T>(cmp: (T, T) -> int, s: seq<T>, c: nat)
    requires 2 <= c <= |s|
  {
    Le(cmp, s[c - 1], s[c / 2 - 1])
  }

  /** The first `n` elements form a heap as far as parents from `lo` on go, but
      for the children of `hole`. */
  ghost predicate HeapBut<T>(cmp: (T, T) -> int, s: seq<T>, lo: nat, n: nat, hole: nat) {
    1 <= lo && n <= |s| &&
    forall c | 2 <= c <= n && lo <= c / 2 && c / 2 != hole :: Below(cmp, s, c)
  }

  ghost predicate Heap<T>(cmp: (T, T) -> int, s: seq<T>, lo: nat, n: nat) {
    HeapBut(cmp, s, lo, n, 0)
  }

  /** The children of `hole` are not above its parent. */
  ghost predicate Bridged<T>(cmp: (T, T) -> int, s: seq<T>, lo: nat, n: nat, hole: nat) {
    n <= |s| && forall c | 2 <= c <= n && c / 2 == hole && lo <= hole / 2 ::
      1 <= hole / 2 && Le(cmp, s[c - 1], s[hole / 2 - 1])
  }

  function Swapped<T>(s: seq<T>, i: nat, j: nat): (r: seq<T>)
    requires 1 <= i <= |s| && 1 <= j <= |s|
    ensures |r| == |s|
  {
    s[i - 1 := s[j - 1]][j - 1 := s[i - 1]]
  }

  lemma SwappedSame<T>(s: seq<T>, i: nat, j: nat)
    requires 1 <= i <= |s| && 1 <= j <= |s|
    ensures multiset(Swapped(s, i, j)) == multiset(s)
  {
  }

  lemma SwappedFirst<T>(s: seq<T>, i: nat, j: nat, n: nat)
    requires 1 <= i <= n && 1 <= j <= n && n <= |s|
    ensures Swapped(s, i, j)[..n] == Swapped(s[..n], i, j) && Swapped(s, i, j)[n..] == s[n..]
    ensures multiset(Swapped(s, i, j)[..n]) == multiset(s[..n])
  {
    SwappedSame(s[..n], i, j);
  }

  /** The biggest of `i` and its children, as the loop of `heapify` finds it. */
  ghost predicate IsMax<T>(cmp: (T, T) -> int, s: seq<T>, i: nat, n: nat, max: nat) {
    && 1 <= i <= n <= |s| && i <= max <= n && (max == i || max == 2 * i || max == 2 * i + 1)
    && Le(cmp, s[i - 1], s[max - 1])
    && (2 * i <= n ==> Le(cmp, s[2 * i - 1], s[max - 1]))
    && (2 * i + 1 <= n ==> Le(cmp, s[2 * i], s[max - 1]))
  }

  /** No child is bigger: the heap is whole. */
  lemma HoleFilled<T>(cmp: (T, T) -> int, s: seq<T>, lo: nat, n: nat, i: nat)
    requires HeapBut(cmp, s, lo, n, i) && IsMax(cmp, s, i, n, i)
    ensures Heap(cmp, s, lo, n)
  {
    forall c | 2 <= c <= n && lo <= c / 2 ensures Below(cmp, s, c) {
      if c / 2 == i {
        assert c == 2 * i || c == 2 * i + 1;
      }
    }
  }

  /** Otherwise the bigger child goes up and the hole goes down. */
  lemma HoleDown<T(!new)>(cmp: (T, T) -> int, s: seq<T>, lo: nat, n: nat, i: nat, max: nat)
    requires Preorder(cmp) && lo <= i && HeapBut(cmp, s, lo, n, i) && Bridged(cmp, s, lo, n, i)
    requires IsMax(cmp, s, i, n, max) && max != i
    ensures HeapBut(cmp, Swapped(s, i, max), lo, n, max) && Bridged(cmp, Swapped(s, i, max), lo, n, max)
  {
    var r := Swapped(s, i, max);
    forall c | 2 <= c <= n && lo <= c / 2 && c / 2 != max ensures Below(cmp, r, c) {
      if c / 2 == i {
        assert c == 2 * i || c == 2 * i + 1;
      } else if c == i {
        assert max / 2 == i && Le(cmp, s[max - 1], s[i / 2 - 1]);
      } else {
        assert Below(cmp, s, c);
      }
    }
    forall c | 2 <= c <= n && c / 2 == max && lo <= max / 2 ensures Le(cmp, r[c - 1], r[max / 2 - 1]) {
      assert max / 2 == i && Below(cmp, s, c);
    }
  }

  /** The index of the biggest of `i` and its children. */
  method MaxChild<T(!new)>(a: array<T>, i: nat, n: nat, cmp: (T, T) -> int) returns (max: nat)
    requires Preorder(cmp) && 1 <= i <= n <= a.Length
    ensures IsMax(cmp, a[..], i, n, max)
  {
    var left, right := 2 * i, 2 * i + 1;
    max := i;
    ghost var s := a[..];
    assert cmp(s[i - 1], s[i - 1]) <= 0;
    if left <= n && cmp(a[left - 1], a[max - 1]) > 0 {
      max := left;
    }
    ghost var first := max;
    if right <= n && cmp(a[right - 1], a[max - 1]) > 0 {
      max := right;
      assert Chains(cmp, s[i - 1], s[first - 1], s[max - 1]);
      assert left <= n ==> Chains(cmp, s[left - 1], s[first - 1], s[max - 1]);
    }
  }

  /** `heapify`: sinks element `i`. */
  method Heapify<T(!new)>(a: array<T>, start: nat, n: nat, cmp: (T, T) -> int)
    requires Preorder(cmp) && 1 <= start <= n <= a.Length
    requires Heap(cmp, a[..], start + 1, n)
    modifies a
    ensures Heap(cmp, a[..], start, n)
    ensures multiset(a[..n]) == old(multiset(a[..n])) && a[n..] == old(a[n..])
  {
    var i := start;
    HoleAtTop(cmp, a[..], start, n);
    while true
      invariant start <= i <= n && HeapBut(cmp, a[..], start, n, i) && Bridged(cmp, a[..], start, n, i)
      invariant multiset(a[..n]) == old(multiset(a[..n])) && a[n..] == old(a[n..])
      decreases n - i
    {
      var max := MaxChild(a, i, n, cmp);
      if max == i {
        HoleFilled(cmp, a[..], start, n, i);
        return;
      }
      HoleDown(cmp, a[..], start, n, i, max);
      SwappedFirst(a[..], i, max, n);
      ghost var s := a[..];
      a[i - 1], a[max - 1] := a[max - 1], a[i - 1];
      assert a[..] == Swapped(s, i, max);
      assert a[..n] == a[..][..n] && a[n..] == a[..][n..] && s[..n] == s[..n];
      i := max;
    }
  }

  lemma HoleAtTop<T>(cmp: (T, T) -> int, s: seq<T>, i: nat, n: nat)
    requires 1 <= i && Heap(cmp, s, i + 1, n)
    ensures HeapBut(cmp, s, i, n, i) && Bridged(cmp, s, i, n, i)
  {
  }

  // --- the sort ----------------------------------------------------------------

  lemma {:induction false} RootIsMax<T(!new)>(cmp: (T, T) -> int, s: seq<T>, n: nat, c: nat)
    requires Preorder(cmp) && Heap(cmp, s, 1, n) && 1 <= c <= n
    ensures Le(cmp, s[c - 1], s[0])
  {
    if c == 1 {
      assert !(cmp(s[0], s[0]) > 0);
    } else {
      RootIsMax(cmp, s, n, c / 2);
      assert Below(cmp, s, c) && Chains(cmp, s[c - 1], s[c / 2 - 1], s[0]);
    }
  }

  /** The elements from `n` on are sorted and none of the first `n` is above them. */
  ghost predicate Placed<T>(cmp: (T, T) -> int, s: seq<T>, n: nat) {
    n <= |s| && Sorted(cmp, s, n) && forall i, j | 0 <= i < n <= j < |s| :: Le(cmp, s[i], s[j])
  }

  /** The root goes to the end of the heap. */
  lemma RootToEnd<T(!new)>(cmp: (T, T) -> int, s: seq<T>, n: nat)
    requires Preorder(cmp) && 2 <= n && Heap(cmp, s, 1, n) && Placed(cmp, s, n)
    ensures Placed(cmp, Swapped(s, 1, n), n - 1) && Heap(cmp, Swapped(s, 1, n), 2, n - 1)
  {
    var r := Swapped(s, 1, n);
    forall i | 0 <= i < n - 1 ensures Le(cmp, r[i], r[n - 1]) {
      RootIsMax(cmp, s, n, if i == 0 then n else i + 1);
    }
    forall c | 2 <= c <= n - 1 && 2 <= c / 2 ensures Below(cmp, r, c) {
      assert Below(cmp, s, c);
    }
  }

  /** Rearranging the first `n` elements keeps the others in place. */
  lemma StillPlaced<T>(cmp: (T, T) -> int, s: seq<T>, r: seq<T>, n: nat)
    requires Placed(cmp, s, n) && |r| == |s| && multiset(r[..n]) == multiset(s[..n]) && r[n..] == s[n..]
    ensures Placed(cmp, r, n)
  {
    forall j | n <= j < |s| ensures r[j] == s[j] {
      assert r[j] == r[n..][j - n] == s[n..][j - n];
    }
    forall i, j | 0 <= i < n <= j < |s| ensures Le(cmp, r[i], r[j]) {
      assert r[..n][i] in multiset(r[..n]);
      assert r[i] in s[..n];
      var k :| 0 <= k < n && s[..n][k] == r[i];
      assert s[k] == r[i];
    }
  }

  lemma SameWhole<T>(s: seq<T>, r: seq<T>, n: nat)
    requires n <= |s| && |r| == |s| && multiset(r[..n]) == multiset(s[..n]) && r[n..] == s[n..]
    ensures multiset(r) == multiset(s)
  {
    assert s == s[..n] + s[n..] && r == r[..n] + r[n..];
  }

  lemma LeavesAreHeap<T>(cmp: (T, T) -> int, s: seq<T>)
    ensures Heap(cmp, s, |s| / 2 + 1, |s|)
  {
  }

  /** The first loop of `sort`. */
  method BuildHeap<T(!new)>(a: array<T>, cmp: (T, T) -> int)
    requires Preorder(cmp)
    modifies a
    ensures Heap(cmp, a[..], 1, a.Length) && multiset(a[..]) == old(multiset(a[..]))
  {
    var n := a.Length;
    var i := n / 2;
    LeavesAreHeap(cmp, a[..]);
    while i > 0
      invariant 0 <= i <= n / 2 && Heap(cmp, a[..], i + 1, n) && multiset(a[..]) == old(multiset(a[..]))
    {
      ghost var s := a[..];
      Heapify(a, i, n, cmp);
      assert a[..n] == a[..] && s[..n] == s;
      i := i - 1;
    }
  }

  /** A turn of the second loop: the biggest of the first `n` goes last. */
  method TakeRoot<T(!new)>(a: array<T>, n: nat, cmp: (T, T) -> int)
    requires Preorder(cmp) && 2 <= n <= a.Length && Heap(cmp, a[..], 1, n) && Placed(cmp, a[..], n)
    modifies a
    ensures Heap(cmp, a[..], 1, n - 1) && Placed(cmp, a[..], n - 1)
    ensures multiset(a[..]) == old(multiset(a[..]))
  {
    ghost var s := a[..];
    RootToEnd(cmp, s, n);
    SwappedSame(s, 1, n);
    a[0], a[n - 1] := a[n - 1], a[0];
    ghost var r := a[..];
    assert r == Swapped(s, 1, n);
    Heapify(a, 1, n - 1, cmp);
    ghost var t := a[..];
    assert t[..n - 1] == a[..n - 1] && r[..n - 1] == r[..n - 1] && t[n - 1..] == a[n - 1..];
    StillPlaced(cmp, r, t, n - 1);
    SameWhole(r, t, n - 1);
  }

  /** `sort`: the same elements in order. */
  method Sort<T(!new)>(a: array<T>, cmp: (T, T) -> int)
    requires Preorder(cmp)
    modifies a
    ensures Sorted(cmp, a[..], 0) && multiset(a[..]) == old(multiset(a[..]))
  {
    BuildHeap(a, cmp);
    var i := a.Length;
    while i > 1
      invariant 0 <= i <= a.Length && Heap(cmp, a[..], 1, i) && Placed(cmp, a[..], i)
      invariant multiset(a[..]) == old(multiset(a[..]))
    {
      TakeRoot(a, i, cmp);
      i := i - 1;
    }
  }

  // --- binary search -------------------------------------------------------------

  /** `binary_search`: the index of a match, or the length of the array exactly if
      there is none. */
  method BinarySearch<T(!new)>(key: T, a: array<T>, cmp: (T, T) -> int) returns (found: bool, at: nat)
    requires Preorder(cmp) && Sorted(cmp, a[..], 0)
    ensures found ==> at < a.Length && cmp(key, a[at]) == 0
    ensures !found ==> forall i | 0 <= i < a.Length :: cmp(key, a[i]) != 0
  {
    var first, last := 0, a.Length;
    ghost var s := a[..];
    while first < last
      invariant 0 <= first <= last <= a.Length
      invariant forall i | 0 <= i < first :: cmp(key, s[i]) > 0
      invariant forall i | last <= i < |s| :: cmp(key, s[i]) < 0
      decreases last - first
    {
      var middle := first + (last - first) / 2;
      var c := cmp(key, a[middle]);
      if c < 0 {
        Above(cmp, key, s, middle);
        last := middle;
      } else if c > 0 {
        Under(cmp, key, s, middle);
        first := middle + 1;
      } else {
        return true, middle;
      }
    }
    found, at := false, a.Length;
    assert forall i | 0 <= i < a.Length :: s[i] == a[i];
  }

  lemma Above<T(!new)>(cmp: (T, T) -> int, key: T, s: seq<T>, m: nat)
    requires Preorder(cmp) && Sorted(cmp, s, 0) && m < |s| && cmp(key, s[m]) < 0
    ensures forall i | m <= i < |s| :: cmp(key, s[i]) < 0
  {
    forall i | m < i < |s| ensures cmp(key, s[i]) < 0 {
      assert Chains(cmp, s[m], s[i], key);
    }
  }

  lemma Under<T(!new)>(cmp: (T, T) -> int, key: T, s: seq<T>, m: nat)
    requires Preorder(cmp) && Sorted(cmp, s, 0) && m < |s| && cmp(key, s[m]) > 0
    ensures forall i | 0 <= i <= m :: cmp(key, s[i]) > 0
  {
    forall i | 0 <= i < m ensures cmp(key, s[i]) > 0 {
      assert Chains(cmp, key, s[i], s[m]);
    }
  }
}
