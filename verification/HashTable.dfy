/** A hash table with separate chaining that resizes itself, as a set of elements
    of which no two are equal. Two elements are equal when neither is less than
    the other. */
module HashTable {
  import opened Common
  import opened Arithmetic
  import opened Bitwise
  import opened Order

  // --- powers of two ---------------------------------------------------------

  ghost predicate IsPow2(x: nat) {
    exists k: nat :: x == Pow2(k)
  }

  /** `turn_off_least_1bit`. */
  function TurnOff(x: nat): nat
    requires x > 0
  {
    And(x, x - 1)
  }

  lemma {:induction false} AndSelf(x: nat)
    ensures And(x, x) == x
  {
    if x > 0 {
      AndSelf(x / 2);
    }
  }

  lemma TurnOffOdd(x: nat)
    requires x % 2 == 1
    ensures TurnOff(x) == x - 1
  {
    if x > 1 {
      AndSelf(x / 2);
      assert (x - 1) / 2 == x / 2;
    }
  }

  lemma TurnOffEven(x: nat)
    requires x > 0 && x % 2 == 0
    ensures TurnOff(x) == 2 * TurnOff(x / 2)
  {
    assert (x - 1) / 2 == x / 2 - 1;
    AndZero(x / 2);
  }

  /** The highest bit. */
  function Top(x: nat): (t: nat)
    requires x > 0
    ensures 0 < t <= x
  {
    if x == 1 then 1 else 2 * Top(x / 2)
  }

  lemma {:induction false} TopIsPow2(x: nat)
    requires x > 0
    ensures IsPow2(Top(x)) && x < 2 * Top(x)
  {
    if x == 1 {
      assert Top(x) == Pow2(0);
    } else {
      TopIsPow2(x / 2);
      var k: nat :| Top(x / 2) == Pow2(k);
      assert Top(x) == Pow2(k + 1);
    }
  }

  /** Turning off the lowest bit of a number leaves nothing exactly if there is
      only one, and otherwise leaves the highest. */
  lemma {:induction false} TurnOffKeepsTop(x: nat)
    requires x > 0
    ensures TurnOff(x) < x && (TurnOff(x) == 0 <==> x == Top(x))
    ensures TurnOff(x) > 0 ==> Top(TurnOff(x)) == Top(x)
  {
    if x % 2 == 1 {
      TurnOffOdd(x);
      if x > 1 {
        assert (x - 1) / 2 == x / 2;
      }
    } else {
      TurnOffEven(x);
      TurnOffKeepsTop(x / 2);
    }
  }

  /** The loop of `rehash` that finds the number of buckets: the highest power of
      two up to `n`. */
  method BucketCount(n: nat) returns (m: nat)
    requires n > 0
    ensures m == Top(n) && IsPow2(m) && m <= n < 2 * m
  {
    m := n;
    TurnOffKeepsTop(m);
    while TurnOff(m) != 0
      invariant 0 < m && Top(m) == Top(n)
      decreases m
    {
      TurnOffKeepsTop(m);
      m := TurnOff(m);
    }
    TurnOffKeepsTop(m);
    TopIsPow2(n);
  }

  // --- the table -----------------------------------------------------------------

  predicate Same<E>(less: (E, E) -> bool, x: E, y: E) {
    !less(x, y) && !less(y, x)
  }

  /** The order is a strict weak one, and equal elements hash alike. */
  ghost predicate Keyed<E(!new)>(hash: E -> nat, less: (E, E) -> bool) {
    && StrictWeak(less)
    && forall x, y :: Same(less, x, y) ==> hash(x) == hash(y)
  }

  lemma SameTrans<E(!new)>(less: (E, E) -> bool, x: E, y: E, z: E)
    requires StrictWeak(less) && Same(less, x, y) && Same(less, y, z)
    ensures Same(less, x, z)
  {
    assert Between(less, x, y, z) && Between(less, z, y, x);
  }

  /** `find_bucket`. */
  function Slot<E>(hash: E -> nat, n: nat, e: E): nat
    requires n > 0
  {
    And(hash(e), n - 1)
  }

  lemma SlotIs<E>(hash: E -> nat, n: nat, e: E)
    requires IsPow2(n)
    ensures n > 0 && Slot(hash, n, e) == hash(e) % n < n
  {
    var k: nat :| n == Pow2(k);
    AndMask(hash(e), k);
  }

  ghost predicate Separate<E>(less: (E, E) -> bool, b: seq<E>) {
    forall x, y | x in b && y in b && Same(less, x, y) :: x == y
  }

  /** A bucket holds elements that belong there, no two of them equal. */
  ghost predicate BucketOk<E>(hash: E -> nat, less: (E, E) -> bool, n: nat, b: seq<E>, i: nat)
    requires n > 0
  {
    Once(b) && Separate(less, b) && forall e | e in b :: Slot(hash, n, e) == i
  }

  ghost predicate TableOk<E>(hash: E -> nat, less: (E, E) -> bool, buckets: seq<seq<E>>) {
    && |buckets| >= 4 && IsPow2(|buckets|)
    && forall i | 0 <= i < |buckets| :: BucketOk(hash, less, |buckets|, buckets[i], i)
  }

  ghost predicate In<E>(buckets: seq<seq<E>>, e: E) {
    exists i :: 0 <= i < |buckets| && e in buckets[i]
  }

  ghost function Contents<E(!new)>(buckets: seq<seq<E>>): (s: set<E>)
    ensures forall e :: e in s <==> In(buckets, e)
  {
    set i, e | 0 <= i < |buckets| && e in buckets[i] :: e
  }

  /** An element is in the table exactly if it is in its bucket. */
  lemma InSlot<E>(hash: E -> nat, less: (E, E) -> bool, buckets: seq<seq<E>>, e: E)
    requires TableOk(hash, less, buckets)
    ensures Slot(hash, |buckets|, e) < |buckets|
    ensures In(buckets, e) <==> e in buckets[Slot(hash, |buckets|, e)]
  {
    SlotIs(hash, |buckets|, e);
    if In(buckets, e) {
      var i :| 0 <= i < |buckets| && e in buckets[i];
      assert BucketOk(hash, less, |buckets|, buckets[i], i);
    }
  }

  /** So is an element equal to another: in the bucket of that one. */
  lemma SameSlot<E(!new)>(hash: E -> nat, less: (E, E) -> bool, buckets: seq<seq<E>>, e: E, x: E)
    requires Keyed(hash, less) && TableOk(hash, less, buckets) && Same(less, x, e)
    ensures Slot(hash, |buckets|, e) < |buckets|
    ensures In(buckets, x) <==> x in buckets[Slot(hash, |buckets|, e)]
  {
    assert hash(x) == hash(e);
    InSlot(hash, less, buckets, x);
  }

  /** `find_elem`. */
  method FindElem<E(!new, ==)>(less: (E, E) -> bool, b: seq<E>, e: E) returns (r: Option<E>)
    ensures r.Some? ==> r.value in b && Same(less, r.value, e)
    ensures r.None? ==> forall x | x in b :: !Same(less, x, e)
  {
    var i := 0;
    while i < |b|
      invariant i <= |b| && forall j | 0 <= j < i :: !Same(less, b[j], e)
    {
      if !less(b[i], e) && !less(e, b[i]) {
        return Some(b[i]);
      }
      i := i + 1;
    }
    r := None;
  }

  // --- changing one bucket -----------------------------------------------------

  lemma PutBucket<E>(hash: E -> nat, less: (E, E) -> bool, buckets: seq<seq<E>>, i: nat, b: seq<E>)
    requires TableOk(hash, less, buckets) && i < |buckets| && BucketOk(hash, less, |buckets|, b, i)
    ensures TableOk(hash, less, buckets[i := b])
  {
  }

  lemma InPut<E>(buckets: seq<seq<E>>, i: nat, b: seq<E>, e: E)
    requires i < |buckets|
    ensures In(buckets[i := b], e) <==> e in b || exists j :: 0 <= j < |buckets| && j != i && e in buckets[j]
  {
    var buckets' := buckets[i := b];
    if In(buckets', e) {
      var j :| 0 <= j < |buckets'| && e in buckets'[j];
      assert j == i || e in buckets[j];
    }
    if e in b {
      assert e in buckets'[i];
    }
    if j :| 0 <= j < |buckets| && j != i && e in buckets[j] {
      assert e in buckets'[j];
    }
  }

  lemma InElsewhere<E>(hash: E -> nat, less: (E, E) -> bool, buckets: seq<seq<E>>, i: nat, e: E)
    requires TableOk(hash, less, buckets) && i < |buckets|
    ensures (exists j :: 0 <= j < |buckets| && j != i && e in buckets[j]) <==> In(buckets, e) && e !in buckets[i]
  {
    if j :| 0 <= j < |buckets| && j != i && e in buckets[j] {
      assert BucketOk(hash, less, |buckets|, buckets[j], j) && BucketOk(hash, less, |buckets|, buckets[i], i);
    }
    if In(buckets, e) && e !in buckets[i] {
      var j :| 0 <= j < |buckets| && e in buckets[j];
      assert j != i;
    }
  }

  /** `insert_elem`, for an element that no element of the table is equal to. */
  lemma Added<E(!new)>(hash: E -> nat, less: (E, E) -> bool, buckets: seq<seq<E>>, e: E)
    requires Keyed(hash, less) && TableOk(hash, less, buckets)
    requires var i := Slot(hash, |buckets|, e); i < |buckets| && forall x | x in buckets[i] :: !Same(less, x, e)
    ensures var i := Slot(hash, |buckets|, e);
      && TableOk(hash, less, buckets[i := [e] + buckets[i]])
      && e !in Contents(buckets)
      && Contents(buckets[i := [e] + buckets[i]]) == Contents(buckets) + {e}
  {
    var i := Slot(hash, |buckets|, e);
    var b := [e] + buckets[i];
    assert BucketOk(hash, less, |buckets|, buckets[i], i) && Same(less, e, e);
    PutBucket(hash, less, buckets, i, b);
    InSlot(hash, less, buckets, e);
    forall x ensures In(buckets[i := b], x) <==> In(buckets, x) || x == e {
      InPut(buckets, i, b, x);
      InElsewhere(hash, less, buckets, i, x);
    }
  }

  lemma {:induction false} MinusHas<E>(b: seq<E>, e: E)
    requires Once(b)
    ensures Once(Minus(b, e))
    ensures forall x :: x in Minus(b, e) <==> x in b && x != e
  {
    if b != [] {
      assert b == [b[0]] + b[1..];
      OnceTail(b);
      MinusHas(b[1..], e);
      OnceCons(b[0], Minus(b[1..], e));
    }
  }

  /** `remove_elem`. */
  lemma Removed<E(!new)>(hash: E -> nat, less: (E, E) -> bool, buckets: seq<seq<E>>, e: E, i: nat)
    requires TableOk(hash, less, buckets) && i < |buckets| && e in buckets[i]
    ensures TableOk(hash, less, buckets[i := Minus(buckets[i], e)])
    ensures e in Contents(buckets) && Contents(buckets[i := Minus(buckets[i], e)]) == Contents(buckets) - {e}
  {
    var b := Minus(buckets[i], e);
    assert BucketOk(hash, less, |buckets|, buckets[i], i);
    MinusHas(buckets[i], e);
    PutBucket(hash, less, buckets, i, b);
    assert In(buckets, e);
    forall x ensures In(buckets[i := b], x) <==> In(buckets, x) && x != e {
      InPut(buckets, i, b, x);
      InElsewhere(hash, less, buckets, i, x);
    }
  }

  // --- rehashing -------------------------------------------------------------------

  ghost predicate Empty<E>(buckets: seq<seq<E>>) {
    forall i | 0 <= i < |buckets| :: buckets[i] == []
  }

  lemma EmptyOk<E(!new)>(hash: E -> nat, less: (E, E) -> bool, buckets: seq<seq<E>>)
    requires |buckets| >= 4 && IsPow2(|buckets|) && Empty(buckets)
    ensures TableOk(hash, less, buckets) && Contents(buckets) == {}
  {
    forall e ensures !In(buckets, e) {
    }
  }

  ghost function Elems<E(!new)>(b: seq<E>): set<E> {
    set e | e in b
  }

  /** No two elements of the set are equal. */
  ghost predicate Apart<E(!new)>(less: (E, E) -> bool, s: set<E>) {
    forall x, y | x in s && y in s && Same(less, x, y) :: x == y
  }

  lemma ContentsApart<E(!new)>(hash: E -> nat, less: (E, E) -> bool, buckets: seq<seq<E>>)
    requires Keyed(hash, less) && TableOk(hash, less, buckets)
    ensures Apart(less, Contents(buckets))
  {
    forall x, y | x in Contents(buckets) && y in Contents(buckets) && Same(less, x, y) ensures x == y {
      InSlot(hash, less, buckets, x);
      InSlot(hash, less, buckets, y);
      var i := Slot(hash, |buckets|, x);
      assert hash(x) == hash(y);
      assert BucketOk(hash, less, |buckets|, buckets[i], i);
    }
  }

  /** The inner loop of `rehash` empties one old bucket into the new ones. */
  method MoveBucket<E(!new, ==)>(hash: E -> nat, less: (E, E) -> bool, b: seq<E>, table: seq<seq<E>>, ghost all: set<E>)
    returns (table': seq<seq<E>>)
    requires Keyed(hash, less) && TableOk(hash, less, table) && Once(b)
    requires Apart(less, all) && Contents(table) <= all && Elems(b) <= all && Contents(table) !! Elems(b)
    ensures TableOk(hash, less, table') && |table'| == |table|
    ensures Contents(table') == Contents(table) + Elems(b)
  {
    table' := table;
    var j := 0;
    assert Elems(b[..0]) == {};
    while j < |b|
      invariant j <= |b| && TableOk(hash, less, table') && |table'| == |table|
      invariant Contents(table') == Contents(table) + Elems(b[..j])
    {
      var e := b[j];
      MoveOne(hash, less, b, j, table, table', all);
      var i := Slot(hash, |table'|, e);
      table' := table'[i := [e] + table'[i]];
      j := j + 1;
    }
    assert b[..j] == b;
  }

  lemma MoveOne<E(!new)>(hash: E -> nat, less: (E, E) -> bool, b: seq<E>, j: nat, table: seq<seq<E>>,
                         table': seq<seq<E>>, all: set<E>)
    requires Keyed(hash, less) && TableOk(hash, less, table') && Once(b) && j < |b|
    requires Apart(less, all) && Contents(table) <= all && Elems(b) <= all && Contents(table) !! Elems(b)
    requires Contents(table') == Contents(table) + Elems(b[..j])
    ensures var i := Slot(hash, |table'|, b[j]);
      && i < |table'| && TableOk(hash, less, table'[i := [b[j]] + table'[i]])
      && Contents(table'[i := [b[j]] + table'[i]]) == Contents(table) + Elems(b[..j + 1])
  {
    var e := b[j];
    assert e in Elems(b) && e !in b[..j];
    SlotIs(hash, |table'|, e);
    var i := Slot(hash, |table'|, e);
    forall x | x in table'[i] ensures !Same(less, x, e) {
      assert In(table', x) && x in Contents(table');
    }
    Added(hash, less, table', e);
    assert Elems(b[..j + 1]) == Elems(b[..j]) + {e};
  }

  /** What the first `i` buckets hold, and the next one does not. */
  lemma NextBucket<E(!new)>(hash: E -> nat, less: (E, E) -> bool, buckets: seq<seq<E>>, i: nat)
    requires TableOk(hash, less, buckets) && i < |buckets|
    ensures Contents(buckets[..i]) !! Elems(buckets[i])
    ensures Contents(buckets[..i + 1]) == Contents(buckets[..i]) + Elems(buckets[i])
    ensures Contents(buckets[..i]) <= Contents(buckets) && Elems(buckets[i]) <= Contents(buckets)
    ensures Once(buckets[i])
  {
    assert BucketOk(hash, less, |buckets|, buckets[i], i);
    forall e | In(buckets[..i], e) ensures e !in buckets[i] && In(buckets, e) {
      var j :| 0 <= j < i && e in buckets[..i][j];
      assert BucketOk(hash, less, |buckets|, buckets[j], j);
    }
    forall e ensures In(buckets[..i + 1], e) <==> In(buckets[..i], e) || e in buckets[i] {
      if In(buckets[..i + 1], e) {
        var j :| 0 <= j < i + 1 && e in buckets[..i + 1][j];
        assert j < i ==> e in buckets[..i][j];
      }
      if In(buckets[..i], e) {
        var j :| 0 <= j < i && e in buckets[..i][j];
        assert e in buckets[..i + 1][j];
      }
      if e in buckets[i] {
        assert e in buckets[..i + 1][i];
      }
    }
  }

  /** The outer loop: every element of the old table goes to the new one. */
  method MoveAll<E(!new, ==)>(hash: E -> nat, less: (E, E) -> bool, before: seq<seq<E>>,
                              n: nat) returns (table: seq<seq<E>>)
    requires Keyed(hash, less) && TableOk(hash, less, before) && n >= 4 && IsPow2(n)
    ensures TableOk(hash, less, table) && |table| == n && Contents(table) == Contents(before)
  {
    table := seq(n, _ => []);
    EmptyOk(hash, less, table);
    ContentsApart(hash, less, before);
    var i := 0;
    while i < |before|
      invariant i <= |before| && TableOk(hash, less, table) && |table| == n
      invariant Contents(table) == Contents(before[..i])
    {
      NextBucket(hash, less, before, i);
      table := MoveBucket(hash, less, before[i], table, Contents(before));
      i := i + 1;
    }
    assert before[..i] == before;
  }

  // --- the object ------------------------------------------------------------------

  /** The highest power of two up to half the number of elements, and at least four. */
  ghost predicate Ideal(buckets: nat, count: nat) {
    var want := if count / 2 < 4 then 4 else count / 2;
    IsPow2(buckets) && buckets <= want < 2 * buckets
  }

  class Table<E(!new, ==)> {
    const hash: E -> nat
    const less: (E, E) -> bool
    var buckets: seq<seq<E>>
    var count: nat

    /** The bucket count is a power of two, at least four, every element is in its
        bucket, no two are equal, and the count is exact. */
    ghost predicate Valid()
      reads this
    {
      Keyed(hash, less) && TableOk(hash, less, buckets) && count == |Contents(buckets)|
    }

    ghost function View(): set<E>
      reads this
    {
      Contents(buckets)
    }

    /** `hash_init`. */
    constructor (h: E -> nat, l: (E, E) -> bool)
      requires Keyed(h, l)
      ensures Valid() && View() == {} && hash == h && less == l && |buckets| == 4
    {
      hash, less, count := h, l, 0;
      buckets := seq(4, _ => []);
      new;
      assert 4 == Pow2(2);
      EmptyOk(hash, less, buckets);
    }

    /** `hash_find`. */
    method Find(e: E) returns (r: Option<E>)
      requires Valid()
      ensures r.Some? ==> r.value in View() && Same(less, r.value, e)
      ensures r.None? ==> forall x | x in View() :: !Same(less, x, e)
    {
      SlotIs(hash, |buckets|, e);
      var i := Slot(hash, |buckets|, e);
      r := FindElem(less, buckets[i], e);
      FoundInTable(hash, less, buckets, e);
      assert r.Some? ==> In(buckets, r.value);
    }

    /** The bucket count after an operation: the ideal one for the elements if there is
        memory for it, and otherwise as it was. */
    ghost predicate Sized(granted: bool, before: nat)
      reads this
    {
      if granted then Ideal(|buckets|, count) else |buckets| == before
    }

    /** `rehash`: `granted` tells whether there is memory for new buckets; either way
        the elements stay. */
    method Rehash(granted: bool)
      requires Valid()
      modifies this
      ensures Valid() && View() == old(View()) && count == old(count)
      ensures Sized(granted, old(|buckets|)) && (!granted ==> buckets == old(buckets))
    {
      var want := if count / 2 < 4 then 4 else count / 2;
      var n := BucketCount(want);
      AtLeastFour(want);
      if n != |buckets| && granted {
        buckets := MoveAll(hash, less, buckets, n);
      }
    }

    /** `hash_insert`: an equal element is returned and nothing changes, or there
        is none and the new one goes in. */
    method Insert(e: E, granted: bool) returns (r: Option<E>)
      requires Valid()
      modifies this
      ensures Valid() && Sized(granted, old(|buckets|))
      ensures r.Some? ==> r.value in old(View()) && Same(less, r.value, e) && View() == old(View())
      ensures r.None? ==> (forall x | x in old(View()) :: !Same(less, x, e)) && View() == old(View()) + {e}
    {
      r := Find(e);
      if r.None? {
        Add(e);
      }
      Rehash(granted);
    }

    /** `insert_elem`. */
    method Add(e: E)
      requires Valid() && forall x | x in View() :: !Same(less, x, e)
      modifies this
      ensures Valid() && View() == old(View()) + {e} && e !in old(View()) && |buckets| == old(|buckets|)
    {
      SlotIs(hash, |buckets|, e);
      var i := Slot(hash, |buckets|, e);
      assert forall x | x in buckets[i] :: In(buckets, x);
      Added(hash, less, buckets, e);
      count, buckets := count + 1, buckets[i := [e] + buckets[i]];
    }

    /** `remove_elem`. */
    method Drop(x: E)
      requires Valid() && x in View()
      modifies this
      ensures Valid() && View() == old(View()) - {x} && |buckets| == old(|buckets|)
    {
      InSlot(hash, less, buckets, x);
      var i := Slot(hash, |buckets|, x);
      Removed(hash, less, buckets, x, i);
      count, buckets := count - 1, buckets[i := Minus(buckets[i], x)];
    }

    /** `hash_replace`: the new element goes in, in place of an equal one if there
        is one, which is returned. */
    method Replace(e: E, granted: bool) returns (r: Option<E>)
      requires Valid()
      modifies this
      ensures Valid() && Sized(granted, old(|buckets|))
      ensures r.Some? ==>
        r.value in old(View()) && Same(less, r.value, e) && View() == old(View()) - {r.value} + {e}
      ensures r.None? ==> (forall x | x in old(View()) :: !Same(less, x, e)) && View() == old(View()) + {e}
    {
      r := Find(e);
      if r.Some? {
        ReplaceAlone(hash, less, buckets, r.value, e);
        Drop(r.value);
      }
      Add(e);
      Rehash(granted);
    }

    /** `hash_delete`. */
    method Delete(e: E, granted: bool) returns (r: Option<E>)
      requires Valid()
      modifies this
      ensures Valid() && (r.Some? ==> Sized(granted, old(|buckets|))) && (r.None? ==> buckets == old(buckets))
      ensures r.Some? ==> r.value in old(View()) && Same(less, r.value, e) && View() == old(View()) - {r.value}
      ensures r.None? ==> (forall x | x in old(View()) :: !Same(less, x, e)) && View() == old(View())
    {
      r := Find(e);
      if r.Some? {
        Drop(r.value);
        Rehash(granted);
      }
    }
  }

  lemma AtLeastFour(n: nat)
    requires n >= 4
    ensures Top(n) >= 4
  {
    assert Top(n) == 2 * Top(n / 2) == 4 * Top(n / 2 / 2);
  }

  lemma FoundInTable<E(!new)>(hash: E -> nat, less: (E, E) -> bool, buckets: seq<seq<E>>, e: E)
    requires Keyed(hash, less) && TableOk(hash, less, buckets)
    ensures var i := Slot(hash, |buckets|, e);
      i < |buckets| && forall x | Same(less, x, e) :: In(buckets, x) <==> x in buckets[i]
  {
    SlotIs(hash, |buckets|, e);
    forall x | Same(less, x, e) ensures In(buckets, x) <==> x in buckets[Slot(hash, |buckets|, e)] {
      SameSlot(hash, less, buckets, e, x);
    }
  }

  /** Without the one equal element, none is equal. */
  lemma ReplaceAlone<E(!new)>(hash: E -> nat, less: (E, E) -> bool, buckets: seq<seq<E>>, old': E, e: E)
    requires Keyed(hash, less) && TableOk(hash, less, buckets) && old' in Contents(buckets) && Same(less, old', e)
    ensures forall x | x in Contents(buckets) - {old'} :: !Same(less, x, e)
  {
    ContentsApart(hash, less, buckets);
    forall x | x in Contents(buckets) && Same(less, x, e) ensures x == old' {
      SameTrans(less, x, e, old');
    }
  }

  // --- iterating ---------------------------------------------------------------------

  /** The elements bucket by bucket. */
  function Flatten<E>(buckets: seq<seq<E>>): seq<E> {
    if buckets == [] then [] else Flatten(buckets[..|buckets| - 1]) + buckets[|buckets| - 1]
  }

  /** What an iterator at element `pos` of bucket `b` has passed; before the first
      element `pos` is -1. */
  function Seen<E>(buckets: seq<seq<E>>, b: nat, pos: int): seq<E>
    requires b < |buckets| && -1 <= pos < |buckets[b]|
  {
    Flatten(buckets[..b]) + buckets[b][..pos + 1]
  }

  lemma FlattenNext<E>(buckets: seq<seq<E>>, b: nat)
    requires b < |buckets|
    ensures Flatten(buckets[..b + 1]) == Flatten(buckets[..b]) + buckets[b]
  {
    assert buckets[..b + 1][..b] == buckets[..b];
  }

  /** `hash_next`: the next element, or none when all have been seen. */
  method Next<E>(buckets: seq<seq<E>>, b: nat, pos: int) returns (r: Option<E>, b': nat, pos': int)
    requires b < |buckets| && -1 <= pos < |buckets[b]|
    ensures r.Some? ==>
      && b' < |buckets| && 0 <= pos' < |buckets[b']| && r.value == buckets[b'][pos']
      && Seen(buckets, b', pos') == Seen(buckets, b, pos) + [r.value]
    ensures r.None? ==> Seen(buckets, b, pos) == Flatten(buckets)
  {
    b', pos' := b, pos + 1;
    while pos' == |buckets[b']|
      invariant b' < |buckets| && 0 <= pos' <= |buckets[b']|
      invariant Flatten(buckets[..b']) + buckets[b'][..pos'] == Seen(buckets, b, pos)
      decreases |buckets| - b'
    {
      FlattenNext(buckets, b');
      assert buckets[b'][..pos'] == buckets[b'];
      if b' + 1 >= |buckets| {
        assert buckets[..b' + 1] == buckets;
        return None, b', pos';
      }
      b', pos' := b' + 1, 0;
      assert Flatten(buckets[..b']) + buckets[b'][..0] == Flatten(buckets[..b']);
    }
    r := Some(buckets[b'][pos']);
    assert buckets[b'][..pos' + 1] == buckets[b'][..pos'] + [r.value];
  }

  /** The iteration idiom: `hash_first`, then `hash_next` until there is none. */
  method Iterate<E>(buckets: seq<seq<E>>) returns (all: seq<E>)
    requires buckets != []
    ensures all == Flatten(buckets)
  {
    all := [];
    var b, pos := 0, -1;
    assert Seen(buckets, b, pos) == [];
    while true
      invariant 0 <= b < |buckets| && -1 <= pos < |buckets[b]| && all == Seen(buckets, b, pos)
      decreases |Flatten(buckets)| - |all|
    {
      SeenShort(buckets, b, pos);
      var r, b', pos' := Next(buckets, b, pos);
      if r.None? {
        return;
      }
      SeenShort(buckets, b', pos');
      all, b, pos := all + [r.value], b', pos';
    }
  }

  lemma {:induction false} FlattenPrefix<E>(buckets: seq<seq<E>>, b: nat)
    requires b <= |buckets|
    ensures |Flatten(buckets[..b])| <= |Flatten(buckets)|
    decreases |buckets| - b
  {
    if b < |buckets| {
      FlattenNext(buckets, b);
      FlattenPrefix(buckets, b + 1);
    } else {
      assert buckets[..b] == buckets;
    }
  }

  lemma SeenShort<E>(buckets: seq<seq<E>>, b: nat, pos: int)
    requires b < |buckets| && -1 <= pos < |buckets[b]|
    ensures |Seen(buckets, b, pos)| <= |Flatten(buckets)|
  {
    FlattenNext(buckets, b);
    FlattenPrefix(buckets, b + 1);
  }

  /** So iterating visits every element of the table, each exactly once. */
  lemma {:induction false} VisitsOnce<E(!new)>(hash: E -> nat, less: (E, E) -> bool, buckets: seq<seq<E>>, b: nat)
    requires TableOk(hash, less, buckets) && b <= |buckets|
    ensures Once(Flatten(buckets[..b])) && Elems(Flatten(buckets[..b])) == Contents(buckets[..b])
  {
    if b == 0 {
      assert Contents(buckets[..0]) == {};
    } else {
      VisitsOnce(hash, less, buckets, b - 1);
      NextBucket(hash, less, buckets, b - 1);
      FlattenNext(buckets, b - 1);
      OnceJoin(Flatten(buckets[..b - 1]), buckets[b - 1]);
    }
  }

  lemma OnceJoin<E(!new)>(s: seq<E>, t: seq<E>)
    requires Once(s) && Once(t) && Elems(s) !! Elems(t)
    ensures Once(s + t) && Elems(s + t) == Elems(s) + Elems(t)
  {
    forall i, j | 0 <= i < |s| && 0 <= j < |t| ensures s[i] != t[j] {
      assert s[i] in Elems(s) && t[j] in Elems(t);
    }
  }
}
