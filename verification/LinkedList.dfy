/** Doubly linked lists with a head and a tail element, changed in place. The
    operations work on elements; `nodes`, the elements from head to tail, exists
    for the proofs only. */
module LinkedList {
  import opened Common
  import opened Arithmetic
  import opened Order

  class Elem<D> {
    var prev: Elem?<D>
    var next: Elem?<D>
    const data: D

    constructor (d: D)
      ensures data == d
    {
      data := d;
    }
  }

  // --- chains ------------------------------------------------------------

  /** Elements `i` and `i + 1` point to each other. */
  ghost predicate Edge<D>(n: seq<Elem<D>>, i: nat)
    requires i + 1 < |n|
    reads n
  {
    n[i].next == n[i + 1] && n[i + 1].prev == n[i]
  }

  ghost predicate Chain<D>(n: seq<Elem<D>>)
    reads n
  {
    Once(n) && forall i | 0 <= i < |n| - 1 :: Edge(n, i)
  }

  /** The outer links of head and tail, which tell them from the other elements, are
      as they were. */
  twostate predicate SameEnds<D>(n: seq<Elem<D>>)
    requires n != []
    reads n
  {
    n[0].prev == old(n[0].prev) && n[|n| - 1].next == old(n[|n| - 1].next)
  }

  ghost predicate Ends<D>(n: seq<Elem<D>>, p: Elem?<D>, q: Elem?<D>)
    reads n
  {
    n != [] && n[0].prev == p && n[|n| - 1].next == q
  }

  ghost predicate Apart<D>(n: seq<Elem<D>>, m: seq<Elem<D>>) {
    forall i, j | 0 <= i < |n| && 0 <= j < |m| :: n[i] != m[j]
  }

  /** `n` without the elements from `i` up to `j`. */
  function Cut<D>(n: seq<Elem<D>>, i: nat, j: nat): seq<Elem<D>>
    requires i <= j <= |n|
  {
    n[..i] + n[j..]
  }

  /** `n` with `m` put before position `i`. */
  function Put<D>(n: seq<Elem<D>>, i: nat, m: seq<Elem<D>>): seq<Elem<D>>
    requires i <= |n|
  {
    n[..i] + m + n[i..]
  }

  /** Takes `first` to `last` out of their list: the first half of
      `list_splice`. */
  method Detach<D>(first: Elem<D>, last: Elem<D>, ghost n: seq<Elem<D>>, ghost i: nat, ghost j: nat)
    requires Chain(n) && 1 <= i < j < |n| && first == n[i] && last == n[j - 1]
    modifies n
    ensures Chain(Cut(n, i, j)) && Chain(n[i..j]) && SameEnds(n)
  {
    assert Edge(n, i - 1) && Edge(n, j - 1);
    first.prev.next := last.next;
    last.next.prev := first.prev;
    ghost var m, s := Cut(n, i, j), n[i..j];
    forall k | 0 <= k < |m| - 1 ensures Edge(m, k) {
      if k < i - 1 {
        assert old(Edge(n, k));
      } else if k >= i {
        assert old(Edge(n, k + (j - i)));
      }
    }
    forall k | 0 <= k < |s| - 1 ensures Edge(s, k) {
      assert old(Edge(n, i + k));
    }
  }

  /** Puts the chain from `first` to `last` before `before`: the second half of
      `list_splice`. */
  method Attach<D>(before: Elem<D>, first: Elem<D>, last: Elem<D>, ghost n: seq<Elem<D>>, ghost p: nat,
                   ghost s: seq<Elem<D>>)
    requires Chain(n) && Chain(s) && Apart(n, s) && s != [] && 1 <= p < |n|
    requires before == n[p] && first == s[0] && last == s[|s| - 1]
    modifies n, s
    ensures Chain(Put(n, p, s)) && SameEnds(n)
  {
    assert Edge(n, p - 1);
    first.prev := before.prev;
    last.next := before;
    before.prev.next := first;
    before.prev := last;
    ghost var m := Put(n, p, s);
    forall k | 0 <= k < |m| - 1 ensures Edge(m, k) {
      if k < p - 1 {
        assert old(Edge(n, k));
      } else if p <= k < p + |s| - 1 {
        assert old(Edge(s, k - p));
      } else if k >= p + |s| {
        assert old(Edge(n, k - |s|));
      }
    }
  }

  lemma CutApart<D>(n: seq<Elem<D>>, i: nat, j: nat)
    requires Once(n) && 1 <= i <= j < |n|
    ensures Apart(Cut(n, i, j), n[i..j])
    ensures var r := Cut(n, i, j); r[0] == n[0] && r[|r| - 1] == n[|n| - 1]
    ensures n[0] !in n[i..j] && n[|n| - 1] !in n[i..j]
  {
  }

  lemma ApartEnds<D>(r: seq<Elem<D>>, n: seq<Elem<D>>)
    requires Apart(r, n) && n != []
    ensures n[0] !in r && n[|n| - 1] !in r
  {
  }

  /** `list_splice`, in one list or from one to another: `r` is what `before` is
      in once the elements are out. */
  method Splice<D>(before: Elem<D>, first: Elem<D>, last: Elem<D>, ghost n: seq<Elem<D>>, ghost i: nat, ghost j: nat,
                   ghost r: seq<Elem<D>>, ghost p: nat)
    requires Chain(n) && 1 <= i <= j < |n| && first == n[i] && last == n[j]
    requires r == Cut(n, i, j) || (Chain(r) && Apart(r, n))
    requires 1 <= p < |r| && before == r[p]
    modifies n, r
    ensures Chain(Put(r, p, n[i..j]))
    ensures r != Cut(n, i, j) ==> Chain(Cut(n, i, j))
    ensures SameEnds(n) && SameEnds(r)
  {
    if first == last {
      assert i == j;
      assert Cut(n, i, j) == n && Put(r, p, n[i..j]) == r;
      return;
    }
    assert Edge(n, j - 1);
    var l := last.prev;
    ghost var m, s := Cut(n, i, j), n[i..j];
    CutApart(n, i, j);
    if r != m {
      ApartEnds(r, n);
    }
    assert Apart(r, s) && s != [] && s[0] == first && s[|s| - 1] == l;
    Detach(first, l, n, i, j);
    Attach(before, first, l, r, p, s);
  }

  /** `list_insert`. */
  method Insert<D>(before: Elem<D>, elem: Elem<D>, ghost n: seq<Elem<D>>, ghost p: nat)
    requires Chain(n) && 1 <= p < |n| && before == n[p] && elem !in n
    modifies n, elem
    ensures Chain(Put(n, p, [elem])) && SameEnds(n)
  {
    assert Edge(n, p - 1);
    elem.prev := before.prev;
    elem.next := before;
    before.prev.next := elem;
    before.prev := elem;
    ghost var m := Put(n, p, [elem]);
    forall k | 0 <= k < |m| - 1 ensures Edge(m, k) {
      if k < p - 1 {
        assert old(Edge(n, k));
      } else if k > p {
        assert old(Edge(n, k - 1));
      }
    }
  }

  /** `list_remove`. */
  method Remove<D>(elem: Elem<D>, ghost n: seq<Elem<D>>, ghost i: nat) returns (next: Elem<D>)
    requires Chain(n) && 1 <= i < |n| - 1 && elem == n[i]
    modifies n
    ensures Chain(Cut(n, i, i + 1)) && next == n[i + 1] && SameEnds(n)
  {
    assert Edge(n, i - 1) && Edge(n, i);
    elem.prev.next := elem.next;
    elem.next.prev := elem.prev;
    next := elem.next;
    ghost var m := Cut(n, i, i + 1);
    forall k | 0 <= k < |m| - 1 ensures Edge(m, k) {
      if k < i - 1 {
        assert old(Edge(n, k));
      } else if k >= i {
        assert old(Edge(n, k + 1));
      }
    }
  }

  // --- order -------------------------------------------------------------

  predicate Le<D>(less: (D, D) -> bool, x: Elem<D>, y: Elem<D>) {
    !less(y.data, x.data)
  }

  lemma LeTrans<D(!new)>(less: (D, D) -> bool, x: Elem<D>, y: Elem<D>, z: Elem<D>)
    requires StrictWeak(less) && Le(less, x, y) && Le(less, y, z)
    ensures Le(less, x, z)
  {
    assert Between(less, z.data, y.data, x.data);
  }

  lemma LessLe<D(!new)>(less: (D, D) -> bool, x: Elem<D>, y: Elem<D>, z: Elem<D>)
    requires StrictWeak(less) && less(x.data, y.data) && Le(less, y, z)
    ensures less(x.data, z.data) && Le(less, x, z)
  {
    assert Between(less, x.data, z.data, y.data);
  }

  ghost predicate Sorted<D>(less: (D, D) -> bool, n: seq<Elem<D>>, lo: nat, hi: nat)
    requires hi <= |n|
  {
    forall i, j | lo <= i < j < hi :: Le(less, n[i], n[j])
  }

  /** Elements that compare equal are in the order of their ranks. */
  ghost predicate Stable<D>(less: (D, D) -> bool, n: seq<Elem<D>>, rank: map<Elem<D>, nat>) {
    && (forall i | 0 <= i < |n| :: n[i] in rank)
    && forall i, j | 1 <= i < j < |n| - 1 && Le(less, n[j], n[i]) && Le(less, n[i], n[j]) :: rank[n[i]] < rank[n[j]]
  }

  // --- runs ----------------------------------------------------------------

  lemma SortedSnoc<D(!new)>(less: (D, D) -> bool, n: seq<Elem<D>>, lo: nat, hi: nat)
    requires StrictWeak(less) && lo < hi < |n| && Sorted(less, n, lo, hi) && Le(less, n[hi - 1], n[hi])
    ensures Sorted(less, n, lo, hi + 1)
  {
    forall i | lo <= i < hi ensures Le(less, n[i], n[hi]) {
      if i < hi - 1 {
        LeTrans(less, n[i], n[hi - 1], n[hi]);
      }
    }
  }

  /** `find_end_of_run`: the longest sorted stretch from `a` that ends not after
      `b`. */
  method FindEndOfRun<D(!new)>(a: Elem<D>, b: Elem<D>, less: (D, D) -> bool, ghost n: seq<Elem<D>>, ghost i: nat,
                               ghost j: nat)
    returns (e: Elem<D>, ghost k: nat)
    requires StrictWeak(less) && Chain(n) && i < j < |n| && a == n[i] && b == n[j]
    ensures i < k <= j && e == n[k] && Sorted(less, n, i, k)
    ensures k < j ==> less(n[k].data, n[k - 1].data)
  {
    assert Edge(n, i);
    e, k := a.next, i + 1;
    while e != b && !less(e.data, e.prev.data)
      invariant i < k <= j && e == n[k] && Sorted(less, n, i, k) && e.prev == n[k - 1]
      decreases j - k
    {
      SortedSnoc(less, n, i, k);
      assert Edge(n, k);
      e, k := e.next, k + 1;
    }
    if e != b {
      assert Edge(n, k - 1);
    }
  }

  // --- merging -------------------------------------------------------------

  /** Element `b` moved to position `a`. */
  function Moved<D>(n: seq<Elem<D>>, a: nat, b: nat): (m: seq<Elem<D>>)
    requires a <= b < |n|
    ensures |m| == |n|
  {
    n[..a] + [n[b]] + n[a..b] + n[b + 1..]
  }

  lemma MovedAt<D>(n: seq<Elem<D>>, a: nat, b: nat, i: nat)
    requires a <= b < |n| && i < |n|
    ensures Moved(n, a, b)[i] == if i == a then n[b] else if a < i <= b then n[i - 1] else n[i]
  {
  }

  lemma MovedIsSplice<D>(n: seq<Elem<D>>, a: nat, b: nat)
    requires 1 <= a < b < |n| - 1
    ensures Put(Cut(n, b, b + 1), a, n[b..b + 1]) == Moved(n, a, b) && Cut(n, b, b + 1)[a] == n[a]
    ensures Moved(n, a, b)[0] == n[0] && Moved(n, a, b)[|n| - 1] == n[|n| - 1]
  {
    assert Cut(n, b, b + 1)[..a] == n[..a];
    assert Cut(n, b, b + 1)[a..] == n[a..b] + n[b + 1..];
  }

  lemma MovedSame<D>(n: seq<Elem<D>>, a: nat, b: nat)
    requires a <= b < |n|
    ensures multiset(Moved(n, a, b)) == multiset(n)
  {
    assert n == n[..a] + n[a..b] + [n[b]] + n[b + 1..];
  }

  /** Two sorted stretches from `lo` to `b` and from `b` to `hi`, of which the
      elements below `a` are merged. */
  ghost predicate Merging<D>(less: (D, D) -> bool, n: seq<Elem<D>>, lo: nat, a: nat, b: nat, hi: nat)
    requires hi <= |n|
  {
    && lo <= a <= b <= hi && Sorted(less, n, lo, b) && Sorted(less, n, b, hi)
    && forall i, j | lo <= i < a && b <= j < hi :: Le(less, n[i], n[j])
  }

  lemma MergeStart<D>(less: (D, D) -> bool, n: seq<Elem<D>>, lo: nat, b: nat, hi: nat)
    requires lo <= b <= hi <= |n| && Sorted(less, n, lo, b) && Sorted(less, n, b, hi)
    ensures Merging(less, n, lo, lo, b, hi)
  {
  }

  lemma MergeSkip<D(!new)>(less: (D, D) -> bool, n: seq<Elem<D>>, lo: nat, a: nat, b: nat, hi: nat)
    requires StrictWeak(less) && hi <= |n| && Merging(less, n, lo, a, b, hi) && a < b < hi
    requires Le(less, n[a], n[b])
    ensures Merging(less, n, lo, a + 1, b, hi)
  {
    forall j | b <= j < hi ensures Le(less, n[a], n[j]) {
      if j > b {
        LeTrans(less, n[a], n[b], n[j]);
      }
    }
  }

  lemma MergeMove<D(!new)>(less: (D, D) -> bool, n: seq<Elem<D>>, lo: nat, a: nat, b: nat, hi: nat)
    requires StrictWeak(less) && hi <= |n| && Merging(less, n, lo, a, b, hi) && a < b < hi
    requires less(n[b].data, n[a].data)
    ensures Merging(less, Moved(n, a, b), lo, a + 1, b + 1, hi)
  {
    var m := Moved(n, a, b);
    forall i, j | lo <= i < j < b + 1 ensures Le(less, m[i], m[j]) {
      MovedAt(n, a, b, i);
      MovedAt(n, a, b, j);
      if i == a {
        MoveBelow(less, n, lo, a, b, hi, j - 1);
      }
    }
    forall i, j | b + 1 <= i < j < hi ensures Le(less, m[i], m[j]) {
      MovedAt(n, a, b, i);
      MovedAt(n, a, b, j);
    }
    forall i, j | lo <= i < a + 1 && b + 1 <= j < hi ensures Le(less, m[i], m[j]) {
      MovedAt(n, a, b, i);
      MovedAt(n, a, b, j);
    }
  }

  /** The element that is moved is below all those it passes. */
  lemma MoveBelow<D(!new)>(less: (D, D) -> bool, n: seq<Elem<D>>, lo: nat, a: nat, b: nat, hi: nat, i: nat)
    requires StrictWeak(less) && hi <= |n| && Merging(less, n, lo, a, b, hi) && a <= i < b < hi
    requires less(n[b].data, n[a].data)
    ensures less(n[b].data, n[i].data) && Le(less, n[b], n[i])
  {
    assert !less(n[a].data, n[a].data);
    LessLe(less, n[b], n[a], n[i]);
  }

  lemma MergeEnd<D>(less: (D, D) -> bool, n: seq<Elem<D>>, lo: nat, a: nat, b: nat, hi: nat)
    requires hi <= |n| && Merging(less, n, lo, a, b, hi) && (a == b || b == hi)
    ensures Sorted(less, n, lo, hi)
  {
  }

  /** Nothing is moved past an element that compares equal. */
  lemma MoveStable<D(!new)>(less: (D, D) -> bool, n: seq<Elem<D>>, rank: map<Elem<D>, nat>, a: nat, b: nat)
    requires Stable(less, n, rank) && 1 <= a < b < |n| - 1
    requires forall i | a <= i < b :: less(n[b].data, n[i].data)
    ensures Stable(less, Moved(n, a, b), rank)
  {
    var m := Moved(n, a, b);
    forall i | 0 <= i < |m| ensures m[i] in rank {
      MovedAt(n, a, b, i);
    }
    forall i, j | 1 <= i < j < |m| - 1 && Le(less, m[j], m[i]) && Le(less, m[i], m[j])
      ensures rank[m[i]] < rank[m[j]]
    {
      MovedAt(n, a, b, i);
      MovedAt(n, a, b, j);
    }
  }

  /** `m` is `n` with the elements from `lo` to `hi` rearranged. */
  ghost predicate Shuffled<D>(n: seq<Elem<D>>, m: seq<Elem<D>>, lo: nat, hi: nat) {
    && |m| == |n| && lo <= hi <= |n| && multiset(m) == multiset(n)
    && m[..lo] == n[..lo] && m[hi..] == n[hi..]
  }

  lemma ShuffledEnds<D>(n: seq<Elem<D>>, m: seq<Elem<D>>, lo: nat, hi: nat)
    requires Shuffled(n, m, lo, hi) && 1 <= lo && hi < |n|
    ensures m[0] == n[0] && m[|n| - 1] == n[|n| - 1]
  {
    assert m[0] == m[..lo][0] == n[..lo][0];
    assert m[|n| - 1] == m[hi..][|n| - 1 - hi] == n[hi..][|n| - 1 - hi];
  }

  lemma ShuffledMove<D>(n: seq<Elem<D>>, m: seq<Elem<D>>, lo: nat, hi: nat, a: nat, b: nat)
    requires Shuffled(n, m, lo, hi) && lo <= a <= b < hi
    ensures Shuffled(n, Moved(m, a, b), lo, hi)
  {
    MovedSame(m, a, b);
    assert Moved(m, a, b)[..lo] == m[..lo];
    assert Moved(m, a, b)[hi..] == m[hi..];
  }

  ghost predicate Within<D>(n: seq<Elem<D>>, all: set<Elem<D>>) {
    forall i | 0 <= i < |n| :: n[i] in all
  }

  lemma ShuffledWithin<D>(n: seq<Elem<D>>, m: seq<Elem<D>>, all: set<Elem<D>>)
    requires multiset(m) == multiset(n) && Within(n, all)
    ensures Within(m, all)
  {
    forall i | 0 <= i < |m| ensures m[i] in all {
      assert m[i] in multiset(m);
      assert m[i] in multiset(n);
    }
  }

  /** One turn of `inplace_merge` that moves an element. */
  method MergeOne<D(!new)>(x: Elem<D>, y: Elem<D>, ghost n: seq<Elem<D>>, ghost a: nat, ghost b: nat,
                           ghost all: set<Elem<D>>, ghost p: Elem?<D>, ghost q: Elem?<D>)
    returns (z: Elem<D>)
    requires Chain(n) && Within(n, all) && 1 <= a < b < |n| - 1 && x == n[a] && y == n[b] && Ends(n, p, q)
    modifies all
    ensures Chain(Moved(n, a, b)) && z == n[b + 1] && Ends(Moved(n, a, b), p, q)
  {
    assert Edge(n, b);
    z := y.next;
    MovedIsSplice(n, a, b);
    Splice(x, z.prev, z, n, b, b + 1, Cut(n, b, b + 1), a);
  }

  ghost predicate MergeInv<D>(less: (D, D) -> bool, n: seq<Elem<D>>, rank: map<Elem<D>, nat>,
                              m: seq<Elem<D>>, lo: nat, a: nat, b: nat, hi: nat)
  {
    && Shuffled(n, m, lo, hi) && Stable(less, m, rank) && Merging(less, m, lo, a, b, hi)
  }

  lemma MergeTurn<D(!new)>(less: (D, D) -> bool, n: seq<Elem<D>>, rank: map<Elem<D>, nat>,
                           m: seq<Elem<D>>, lo: nat, a: nat, b: nat, hi: nat)
    requires StrictWeak(less) && MergeInv(less, n, rank, m, lo, a, b, hi) && 1 <= a < b < hi < |m|
    requires less(m[b].data, m[a].data)
    ensures MergeInv(less, n, rank, Moved(m, a, b), lo, a + 1, b + 1, hi)
    ensures var m' := Moved(m, a, b); m'[a + 1] == m[a] && m'[b + 1] == m[b + 1] && m'[hi] == m[hi]
  {
    forall i | a <= i < b ensures less(m[b].data, m[i].data) {
      MoveBelow(less, m, lo, a, b, hi, i);
    }
    MoveStable(less, m, rank, a, b);
    MergeMove(less, m, lo, a, b, hi);
    ShuffledMove(n, m, lo, hi, a, b);
    MovedAt(m, a, b, a + 1);
    MovedAt(m, a, b, b + 1);
    MovedAt(m, a, b, hi);
  }

  /** One turn of `inplace_merge`. */
  method MergeStep<D(!new)>(x: Elem<D>, y: Elem<D>, less: (D, D) -> bool, ghost n: seq<Elem<D>>,
                            ghost rank: map<Elem<D>, nat>, ghost m: seq<Elem<D>>, ghost lo: nat, ghost a: nat,
                            ghost b: nat, ghost hi: nat, ghost all: set<Elem<D>>, ghost p: Elem?<D>, ghost q: Elem?<D>)
    returns (x': Elem<D>, y': Elem<D>, ghost m': seq<Elem<D>>, ghost b': nat)
    requires StrictWeak(less) && Chain(m) && Ends(m, p, q) && Within(m, all)
    requires MergeInv(less, n, rank, m, lo, a, b, hi) && 1 <= a < b < hi < |m| && x == m[a] && y == m[b]
    modifies all
    ensures Chain(m') && Ends(m', p, q) && MergeInv(less, n, rank, m', lo, a + 1, b', hi)
    ensures x' == m'[a + 1] && y' == m'[b'] && m'[hi] == m[hi]
  {
    if !less(y.data, x.data) {
      assert Edge(m, a);
      MergeSkip(less, m, lo, a, b, hi);
      x', y', m', b' := x.next, y, m, b;
    } else {
      MergeTurn(less, n, rank, m, lo, a, b, hi);
      y' := MergeOne(x, y, m, a, b, all, p, q);
      x', m', b' := x, Moved(m, a, b), b + 1;
    }
  }

  /** `inplace_merge`. */
  method InplaceMerge<D(!new)>(a0: Elem<D>, a1b0: Elem<D>, b1: Elem<D>, less: (D, D) -> bool,
                               ghost n: seq<Elem<D>>, ghost lo: nat, ghost mid: nat, ghost hi: nat,
                               ghost rank: map<Elem<D>, nat>, ghost all: set<Elem<D>>)
    returns (ghost m: seq<Elem<D>>)
    requires StrictWeak(less) && Chain(n) && Within(n, all) && 1 <= lo <= mid <= hi < |n|
    requires a0 == n[lo] && a1b0 == n[mid] && b1 == n[hi]
    requires Sorted(less, n, lo, mid) && Sorted(less, n, mid, hi) && Stable(less, n, rank)
    modifies all
    ensures Chain(m) && Shuffled(n, m, lo, hi) && Sorted(less, m, lo, hi) && Stable(less, m, rank) && SameEnds(n)
  {
    m := n;
    var x, y := a0, a1b0;
    ghost var a, b, p, q := lo, mid, n[0].prev, n[|n| - 1].next;
    MergeStart(less, n, lo, mid, hi);
    while x != y && y != b1
      invariant Chain(m) && MergeInv(less, n, rank, m, lo, a, b, hi) && Ends(m, p, q)
      invariant x == m[a] && y == m[b] && b1 == m[hi]
      decreases hi - a
    {
      ShuffledWithin(n, m, all);
      x, y, m, b := MergeStep(x, y, less, n, rank, m, lo, a, b, hi, all, p, q);
      a := a + 1;
    }
    MergeEnd(less, m, lo, a, b, hi);
    ShuffledEnds(n, m, lo, hi);
  }

  // --- how many runs there are ---------------------------------------------

  /** Places between `lo` and `hi` where an element is below the one before it:
      one less than the number of maximal sorted runs. */
  ghost function Descents<D>(less: (D, D) -> bool, n: seq<Elem<D>>, lo: nat, hi: nat): nat
    requires hi <= |n|
    decreases hi
  {
    if hi <= lo + 1 then 0
    else Descents(less, n, lo, hi - 1) + if less(n[hi - 1].data, n[hi - 2].data) then 1 else 0
  }

  lemma {:induction false} DescentsSame<D>(less: (D, D) -> bool, n: seq<Elem<D>>, m: seq<Elem<D>>, lo: nat, hi: nat)
    requires hi <= |n| && hi <= |m| && n[..hi] == m[..hi]
    ensures Descents(less, n, lo, hi) == Descents(less, m, lo, hi)
    decreases hi
  {
    if hi > lo + 1 {
      assert n[hi - 1] == n[..hi][hi - 1] == m[..hi][hi - 1] && n[hi - 2] == n[..hi][hi - 2] == m[..hi][hi - 2];
      assert n[..hi - 1] == n[..hi][..hi - 1] == m[..hi - 1];
      DescentsSame(less, n, m, lo, hi - 1);
    }
  }

  lemma {:induction false} DescentsGrow<D>(less: (D, D) -> bool, n: seq<Elem<D>>, lo: nat, mid: nat, hi: nat)
    requires mid <= hi <= |n|
    ensures Descents(less, n, lo, mid) <= Descents(less, n, lo, hi)
    decreases hi
  {
    if mid < hi {
      DescentsGrow(less, n, lo, mid, hi - 1);
    }
  }

  /** A sorted stretch after the first `mid` elements adds at most one. */
  lemma {:induction false} DescentsSorted<D>(less: (D, D) -> bool, n: seq<Elem<D>>, lo: nat, mid: nat, hi: nat)
    requires lo <= mid <= hi <= |n| && Sorted(less, n, mid, hi)
    ensures Descents(less, n, lo, hi) <= Descents(less, n, lo, mid) + 1
    ensures lo == mid ==> Descents(less, n, lo, hi) == 0
    decreases hi
  {
    if hi > mid + 1 {
      DescentsSorted(less, n, lo, mid, hi - 1);
      assert Le(less, n[hi - 2], n[hi - 1]);
    }
  }

  lemma {:induction false} NoDescents<D(!new)>(less: (D, D) -> bool, n: seq<Elem<D>>, lo: nat, hi: nat)
    requires StrictWeak(less) && lo <= hi <= |n| && Descents(less, n, lo, hi) == 0
    ensures Sorted(less, n, lo, hi)
    decreases hi
  {
    if hi > lo + 1 {
      NoDescents(less, n, lo, hi - 1);
      SortedSnoc(less, n, lo, hi - 1);
    }
  }

  // --- one pass --------------------------------------------------------------

  /** A pass over `n` has put out `count` runs, up to position `at` of `m`; at
      least twice as many runs of `n` have gone into them. */
  ghost predicate PassInv<D>(less: (D, D) -> bool, n: seq<Elem<D>>, rank: map<Elem<D>, nat>, m: seq<Elem<D>>,
                             at: nat, count: nat) {
    && |n| >= 2 && 1 <= at < |n| && Shuffled(n, m, 1, |n| - 1) && n[at..] == m[at..] && Stable(less, m, rank)
    && (count == 0 <==> at == 1)
    && (count > 0 ==> Descents(less, m, 1, at) < count)
    && (if at < |n| - 1 then Descents(less, n, 1, at + 1) >= 2 * count
        else count > 0 ==> Descents(less, n, 1, at) >= 2 * count - 1)
  }

  lemma FromShuffles<D>(n: seq<Elem<D>>, m: seq<Elem<D>>, m': seq<Elem<D>>, at: nat, hi: nat)
    requires |n| >= 2 && Shuffled(n, m, 1, |n| - 1) && 1 <= at <= hi < |n| && n[at..] == m[at..]
    requires Shuffled(m, m', at, hi)
    ensures Shuffled(n, m', 1, |n| - 1) && n[hi..] == m'[hi..]
  {
    assert m'[..1] == m'[..at][..1] == m[..at][..1] == m[..1];
    assert n[hi..] == n[at..][hi - at..] == m[at..][hi - at..] == m[hi..];
    assert m'[|n| - 1..] == m'[hi..][|n| - 1 - hi..] == m[hi..][|n| - 1 - hi..] == m[|n| - 1..];
  }

  /** The runs of `n` that go into the next run put out. */
  lemma TurnTakes<D>(less: (D, D) -> bool, n: seq<Elem<D>>, m: seq<Elem<D>>, at: nat, mid: nat, hi: nat)
    requires |m| == |n| && 1 <= at < mid < hi < |n| && n[at..] == m[at..]
    requires less(m[mid].data, m[mid - 1].data)
    ensures Descents(less, n, 1, hi) > Descents(less, n, 1, at + 1)
    ensures less(m[hi].data, m[hi - 1].data) ==> Descents(less, n, 1, hi + 1) > Descents(less, n, 1, at + 1) + 1
  {
    SameTail(n, m, at, mid);
    SameTail(n, m, at, mid - 1);
    SameTail(n, m, at, hi - 1);
    SameTail(n, m, at, hi);
    assert Descents(less, n, 1, mid + 1) == Descents(less, n, 1, mid) + 1;
    DescentsGrow(less, n, 1, at + 1, mid);
    DescentsGrow(less, n, 1, mid + 1, hi);
  }

  /** Two runs of `m` from `at` on become one run of `m'`. */
  lemma PassTurn<D(!new)>(less: (D, D) -> bool, n: seq<Elem<D>>, rank: map<Elem<D>, nat>,
                          m: seq<Elem<D>>, at: nat, count: nat, mid: nat, hi: nat, m': seq<Elem<D>>)
    requires PassInv(less, n, rank, m, at, count) && at < mid < hi < |n|
    requires less(m[mid].data, m[mid - 1].data)
    requires hi < |n| - 1 ==> less(m[hi].data, m[hi - 1].data)
    requires Shuffled(m, m', at, hi) && Sorted(less, m', at, hi) && Stable(less, m', rank)
    ensures PassInv(less, n, rank, m', hi, count + 1)
  {
    FromShuffles(n, m, m', at, hi);
    DescentsSame(less, m, m', 1, at);
    DescentsSorted(less, m', 1, at, hi);
    TurnTakes(less, n, m, at, mid, hi);
  }

  lemma SameTail<D>(n: seq<Elem<D>>, m: seq<Elem<D>>, at: nat, k: nat)
    requires at <= k < |n| && |m| == |n| && n[at..] == m[at..]
    ensures n[k] == m[k]
  {
    assert n[k] == n[at..][k - at] == m[at..][k - at];
  }

  /** What a pass that puts out `count` runs has done. */
  ghost predicate Passed<D>(less: (D, D) -> bool, n: seq<Elem<D>>, rank: map<Elem<D>, nat>, m: seq<Elem<D>>,
                            count: nat) {
    && |n| >= 2 && Shuffled(n, m, 1, |n| - 1) && Stable(less, m, rank)
    && (count <= 1 ==> Descents(less, m, 1, |m| - 1) == 0)
    && (count > 1 ==> Descents(less, m, 1, |m| - 1) < count && 2 * count <= Descents(less, n, 1, |n| - 1) + 2)
  }

  lemma PassEnd<D>(less: (D, D) -> bool, n: seq<Elem<D>>, rank: map<Elem<D>, nat>, m: seq<Elem<D>>, count: nat)
    requires |n| >= 2 && PassInv(less, n, rank, m, |n| - 1, count)
    ensures Passed(less, n, rank, m, count)
  {
  }

  /** The run that starts at `at` goes to the end of the list. */
  lemma PassBreak<D>(less: (D, D) -> bool, n: seq<Elem<D>>, rank: map<Elem<D>, nat>, m: seq<Elem<D>>, at: nat,
                     count: nat)
    requires PassInv(less, n, rank, m, at, count) && at < |n| - 1 && Sorted(less, m, at, |m| - 1)
    ensures Passed(less, n, rank, m, count + 1)
  {
    DescentsSorted(less, m, 1, at, |m| - 1);
    DescentsGrow(less, n, 1, at + 1, |n| - 1);
  }

  lemma PassStart<D>(less: (D, D) -> bool, n: seq<Elem<D>>, rank: map<Elem<D>, nat>)
    requires |n| >= 2 && Stable(less, n, rank)
    ensures PassInv(less, n, rank, n, 1, 0)
  {
  }

  /** The ends of the first two runs from `a0` on, merged into one unless the
      first run goes to the end: a turn of the inner loop of `list_sort`. */
  method MergeRuns<D(!new)>(a0: Elem<D>, tail: Elem<D>, less: (D, D) -> bool, ghost n: seq<Elem<D>>,
                            ghost rank: map<Elem<D>, nat>,
                            ghost m: seq<Elem<D>>, ghost at: nat, ghost count: nat, ghost all: set<Elem<D>>)
    returns (last: bool, b1: Elem<D>, ghost m': seq<Elem<D>>, ghost hi: nat)
    requires StrictWeak(less) && Chain(m) && Within(m, all) && PassInv(less, n, rank, m, at, count) && at < |n| - 1
    requires a0 == m[at] && tail == m[|m| - 1]
    modifies all
    ensures Chain(m') && SameEnds(m)
    ensures last ==> m' == m && Passed(less, n, rank, m', count + 1)
    ensures !last ==> at < hi && PassInv(less, n, rank, m', hi, count + 1) && b1 == m'[hi]
  {
    var a1b0;
    ghost var mid;
    a1b0, mid := FindEndOfRun(a0, tail, less, m, at, |m| - 1);
    last, b1, m', hi := a1b0 == tail, tail, m, |m| - 1;
    if last {
      PassBreak(less, n, rank, m, at, count);
    } else {
      b1, hi := FindEndOfRun(a1b0, tail, less, m, mid, |m| - 1);
      m' := InplaceMerge(a0, a1b0, b1, less, m, at, mid, hi, rank, all);
      PassTurn(less, n, rank, m, at, count, mid, hi, m');
      assert m'[hi] == m'[hi..][0] == m[hi..][0];
    }
  }

  /** One pass of `list_sort` over the list. */
  method Pass<D(!new)>(head: Elem<D>, tail: Elem<D>, less: (D, D) -> bool, ghost n: seq<Elem<D>>,
                       ghost rank: map<Elem<D>, nat>, ghost all: set<Elem<D>>)
    returns (count: nat, ghost m: seq<Elem<D>>)
    requires StrictWeak(less) && Chain(n) && Within(n, all) && Stable(less, n, rank)
    requires |n| >= 2 && head == n[0] && tail == n[|n| - 1]
    modifies all
    ensures Chain(m) && Passed(less, n, rank, m, count) && SameEnds(n)
  {
    count, m := 0, n;
    assert Edge(n, 0);
    var a0 := head.next;
    ghost var at := 1;
    PassStart(less, n, rank);
    while a0 != tail
      invariant Chain(m) && PassInv(less, n, rank, m, at, count) && SameEnds(n)
      invariant a0 == m[at] && tail == m[|n| - 1]
      decreases |n| - at
    {
      ShuffledWithin(n, m, all);
      ShuffledEnds(n, m, 1, |n| - 1);
      var last, b1;
      last, b1, m, at := MergeRuns(a0, tail, less, n, rank, m, at, count, all);
      count := count + 1;
      if last {
        return;
      }
      a0 := b1;
      ShuffledEnds(n, m, 1, |n| - 1);
    }
    PassEnd(less, n, rank, m, count);
  }

  // --- list_sort -------------------------------------------------------------

  /** Equal elements of `m` are in the order in which they are in `n`. */
  ghost predicate KeepsOrder<D>(less: (D, D) -> bool, n: seq<Elem<D>>, m: seq<Elem<D>>) {
    forall i, j, p, q |
      && 1 <= i < j < |m| - 1 && 0 <= p < |n| && 0 <= q < |n| && m[i] == n[p] && m[j] == n[q]
      && Le(less, m[i], m[j]) && Le(less, m[j], m[i]) :: p < q
  }

  ghost function Ranks<D>(n: seq<Elem<D>>): map<Elem<D>, nat>
    requires Once(n)
  {
    map x | x in n :: (var i :| 0 <= i < |n| && n[i] == x; i)
  }

  lemma RanksStable<D>(less: (D, D) -> bool, n: seq<Elem<D>>)
    requires Once(n)
    ensures forall i | 0 <= i < |n| :: n[i] in Ranks(n) && Ranks(n)[n[i]] == i
    ensures Stable(less, n, Ranks(n))
  {
  }

  lemma ShuffledTwice<D>(n: seq<Elem<D>>, m: seq<Elem<D>>, m': seq<Elem<D>>)
    requires |n| >= 2 && Shuffled(n, m, 1, |n| - 1) && Shuffled(m, m', 1, |n| - 1)
    ensures Shuffled(n, m', 1, |n| - 1)
  {
  }

  /** Where an element of one arrangement is in another. */
  lemma Elsewhere<D>(n: seq<Elem<D>>, m: seq<Elem<D>>, i: nat) returns (j: nat)
    requires multiset(m) == multiset(n) && i < |m|
    ensures j < |n| && n[j] == m[i]
  {
    assert m[i] in multiset(m);
    assert m[i] in multiset(n);
    assert m[i] in n;
    j :| 0 <= j < |n| && n[j] == m[i];
  }

  /** Two arrangements that agree below `i`: what one has at `i` the other has
      there or later. */
  lemma LaterPlace<D>(n: seq<Elem<D>>, m: seq<Elem<D>>, m': seq<Elem<D>>, i: nat) returns (j: nat)
    requires Once(m) && |n| >= 2 && Shuffled(n, m, 1, |n| - 1) && Shuffled(n, m', 1, |n| - 1)
    requires 1 <= i < |n| - 1 && m[..i] == m'[..i]
    ensures i <= j < |n| - 1 && m'[j] == m[i]
  {
    forall k | 0 <= k < i ensures m'[k] == m[k] {
      assert m'[k] == m'[..i][k] == m[..i][k];
    }
    ShuffledEnds(n, m, 1, |n| - 1);
    ShuffledEnds(n, m', 1, |n| - 1);
    j := Elsewhere(m', m, i);
  }

  lemma SameNext<D>(less: (D, D) -> bool, n: seq<Elem<D>>, m: seq<Elem<D>>, m': seq<Elem<D>>, i: nat)
    requires |n| >= 2 && Once(m) && Once(m') && 1 <= i < |n| - 1
    requires Shuffled(n, m, 1, |n| - 1) && Sorted(less, m, 1, |m| - 1) && KeepsOrder(less, n, m)
    requires Shuffled(n, m', 1, |n| - 1) && Sorted(less, m', 1, |m'| - 1) && KeepsOrder(less, n, m')
    requires m[..i] == m'[..i]
    ensures m[i] == m'[i]
  {
    var j := LaterPlace(n, m, m', i);
    var k := LaterPlace(n, m', m, i);
    var p := Elsewhere(n, m, i);
    var q := Elsewhere(n, m', i);
  }

  /** There is only one sorted arrangement that keeps equal elements in order. */
  lemma {:induction false} OnlyOneSort<D>(less: (D, D) -> bool, n: seq<Elem<D>>, m: seq<Elem<D>>, m': seq<Elem<D>>,
                                          i: nat)
    requires |n| >= 2 && Once(m) && Once(m') && 1 <= i <= |n| - 1
    requires Shuffled(n, m, 1, |n| - 1) && Sorted(less, m, 1, |m| - 1) && KeepsOrder(less, n, m)
    requires Shuffled(n, m', 1, |n| - 1) && Sorted(less, m', 1, |m'| - 1) && KeepsOrder(less, n, m')
    ensures m[..i] == m'[..i]
  {
    if i > 1 {
      OnlyOneSort(less, n, m, m', i - 1);
      SameNext(less, n, m, m', i - 1);
      assert m[..i] == m[..i - 1] + [m[i - 1]] && m'[..i] == m'[..i - 1] + [m'[i - 1]];
    }
  }

  /** How many runs of nondecreasing elements the list has. */
  ghost function Runs<D>(less: (D, D) -> bool, n: seq<Elem<D>>): nat {
    if |n| <= 2 then 0 else 1 + Descents(less, n, 1, |n| - 1)
  }

  /** A pass that puts out more than one run halves their number. */
  lemma PassHalves<D>(less: (D, D) -> bool, n: seq<Elem<D>>, rank: map<Elem<D>, nat>, m: seq<Elem<D>>, count: nat)
    requires Passed(less, n, rank, m, count) && count > 1
    ensures 2 * Runs(less, m) <= Runs(less, n) + 1 && Runs(less, n) > 2
  {
  }

  /** At most `log2(runs) + 1` passes. */
  predicate FewPasses(runs: nat, passes: nat) {
    passes == 1 || (passes > 1 && Pow2(passes - 1) < runs)
  }

  /** Of `runs` runs, `passes` passes have left `now`. */
  ghost predicate Halved(runs: nat, now: nat, passes: nat) {
    && (passes > 0 ==> Pow2(passes) < runs)
    && forall k: nat | Pow2(k) < now :: Pow2(k + passes) < runs
  }

  lemma HalvedAgain(runs: nat, before: nat, after: nat, passes: nat)
    requires 2 * after <= before + 1 && before > 2 && Halved(runs, before, passes)
    ensures Halved(runs, after, passes + 1)
  {
    assert Pow2(1) == 2 * Pow2(0);
    assert Pow2(1 + passes) < runs;
    forall k: nat | Pow2(k) < after ensures Pow2(k + (passes + 1)) < runs {
      assert Pow2(k + 1) < before;
      assert Pow2(k + 1 + passes) < runs;
      assert k + 1 + passes == k + (passes + 1);
    }
  }

  /** What `passes` passes, of which the last put out `count` runs, have done. */
  ghost predicate SortInv<D>(less: (D, D) -> bool, n: seq<Elem<D>>, rank: map<Elem<D>, nat>, m: seq<Elem<D>>,
                             count: nat, passes: nat)
  {
    && |n| >= 2 && Shuffled(n, m, 1, |n| - 1) && Stable(less, m, rank)
    && if count > 1 then Halved(Runs(less, n), Runs(less, m), passes)
       else FewPasses(Runs(less, n), passes) && Descents(less, m, 1, |m| - 1) == 0
  }

  lemma SortTurn<D>(less: (D, D) -> bool, n: seq<Elem<D>>, rank: map<Elem<D>, nat>, m: seq<Elem<D>>,
                    m': seq<Elem<D>>, before: nat, count: nat, passes: nat)
    requires SortInv(less, n, rank, m, before, passes) && before > 1 && Passed(less, m, rank, m', count)
    ensures SortInv(less, n, rank, m', count, passes + 1)
    ensures count > 1 ==> Descents(less, m', 1, |m'| - 1) < Descents(less, m, 1, |m| - 1)
  {
    ShuffledTwice(n, m, m');
    if count > 1 {
      PassHalves(less, m, rank, m', count);
      HalvedAgain(Runs(less, n), Runs(less, m), Runs(less, m'), passes);
    }
  }

  lemma SortDone<D(!new)>(less: (D, D) -> bool, n: seq<Elem<D>>, m: seq<Elem<D>>, count: nat, passes: nat)
    requires StrictWeak(less) && Once(n) && SortInv(less, n, Ranks(n), m, count, passes) && count <= 1
    ensures Sorted(less, m, 1, |m| - 1) && KeepsOrder(less, n, m)
  {
    RanksStable(less, n);
    NoDescents(less, m, 1, |m| - 1);
  }

  /** `list_sort`: the same elements between the same head and tail, sorted,
      equal ones in their old order, and linked both ways. One pass is made for
      each power of two below the number of runs, and one if there is none. */
  method Sort<D(!new)>(head: Elem<D>, tail: Elem<D>, less: (D, D) -> bool,
                       ghost n: seq<Elem<D>>) returns (ghost m: seq<Elem<D>>, ghost passes: nat)
    requires StrictWeak(less) && Chain(n) && |n| >= 2 && head == n[0] && tail == n[|n| - 1]
    modifies n
    ensures Chain(m) && Shuffled(n, m, 1, |n| - 1) && SameEnds(n)
    ensures Sorted(less, m, 1, |m| - 1) && KeepsOrder(less, n, m)
    ensures FewPasses(Runs(less, n), passes)
  {
    ghost var rank, all := Ranks(n), set x | x in n;
    RanksStable(less, n);
    m := n;
    var count := 2;
    passes := 0;
    while count > 1
      invariant Chain(m) && SortInv(less, n, rank, m, count, passes) && SameEnds(n)
      decreases count > 1, Descents(less, m, 1, |m| - 1)
    {
      ghost var before, runs := m, count;
      ShuffledWithin(n, m, all);
      ShuffledEnds(n, m, 1, |n| - 1);
      count, m := Pass(head, tail, less, m, rank, all);
      SortTurn(less, n, rank, before, m, runs, count, passes);
      passes := passes + 1;
    }
    SortDone(less, n, m, count, passes);
  }

  /** `list_insert_ordered`: after the elements that are not above the new one. */
  method InsertOrdered<D(!new)>(head: Elem<D>, tail: Elem<D>, elem: Elem<D>, less: (D, D) -> bool,
                                ghost n: seq<Elem<D>>)
    returns (ghost m: seq<Elem<D>>, ghost p: nat)
    requires StrictWeak(less) && Chain(n) && |n| >= 2 && head == n[0] && tail == n[|n| - 1] && elem !in n
    requires Sorted(less, n, 1, |n| - 1)
    modifies n, elem
    ensures 1 <= p < |n| && m == Put(n, p, [elem]) && Chain(m) && SameEnds(n)
    ensures Sorted(less, m, 1, |m| - 1)
    ensures forall i | 1 <= i < p :: Le(less, n[i], elem)
    ensures forall i | p <= i < |n| - 1 :: less(elem.data, n[i].data)
  {
    assert Edge(n, 0);
    var e := head.next;
    p := 1;
    while e != tail && !less(elem.data, e.data)
      invariant 1 <= p < |n| && e == n[p]
      invariant forall i | 1 <= i < p :: Le(less, n[i], elem)
      decreases |n| - p
    {
      assert Edge(n, p);
      e, p := e.next, p + 1;
    }
    forall i | p <= i < |n| - 1 ensures less(elem.data, n[i].data) {
      if i > p {
        LessLe(less, elem, n[p], n[i]);
      }
    }
    m := Put(n, p, [elem]);
    Insert(e, elem, n, p);
  }

  // --- list_reverse ------------------------------------------------------------

  /** The elements between head and tail in reverse order. */
  function Reversed<D>(n: seq<Elem<D>>): seq<Elem<D>> {
    seq(|n|, i requires 0 <= i < |n| => if 1 <= i < |n| - 1 then n[|n| - 1 - i] else n[i])
  }

  /** `list_reverse`. */
  method Reverse<D>(head: Elem<D>, tail: Elem<D>, ghost n: seq<Elem<D>>)
    requires Chain(n) && |n| >= 2 && head == n[0] && tail == n[|n| - 1]
    modifies n
    ensures Chain(Reversed(n)) && SameEnds(n)
  {
    assert Edge(n, 0);
    if head.next != tail {
      var e: Elem<D> := head.next;
      ghost var k := 1;
      while e != tail
        invariant 1 <= k < |n| && e == n[k]
        invariant forall i | 1 <= i < k :: n[i].prev == old(n[i].next) && n[i].next == old(n[i].prev)
        invariant forall i | 0 <= i < |n| && !(1 <= i < k) :: n[i].prev == old(n[i].prev) && n[i].next == old(n[i].next)
        decreases |n| - k
      {
        assert old(Edge(n, k));
        e.prev, e.next := e.next, e.prev;
        e, k := e.prev, k + 1;
      }
      assert old(Edge(n, |n| - 2)) && old(Edge(n, 0));
      head.next, tail.prev := tail.prev, head.next;
      head.next.prev, tail.prev.next := tail.prev.next, head.next.prev;
      ghost var m := Reversed(n);
      forall i | 0 <= i < |m| - 1 ensures Edge(m, i) {
        assert old(Edge(n, |n| - 2 - i));
      }
    } else {
      assert Reversed(n) == n;
    }
  }
}
