/** The write-back sector cache, used by one thread at a time: a list of at most
    64 cached sectors, newest first, over the device.

    `flat` is what the cache and the device stand for together: a flat array of
    sectors. A read returns a part of it. A write updates it, with one
    exception that the code makes: a write to a sector that is not cached starts
    from a zeroed sector instead of the sector's contents. */
module BufferCache {
  import opened Common
  import opened Sectors

  const CAPACITY: nat := 64

  datatype Cached = Cached(sec: nat, dirty: bool, data: Block)

  /** The sector numbers on the list, newest first. */
  function Order(list: seq<Cached>): seq<nat> {
    seq(|list|, i requires 0 <= i < |list| => list[i].sec)
  }

  /** First in, first out: a hit leaves the order alone; a miss puts the sector
      in front and, when the cache is full, drops the last one. */
  function Touch(order: seq<nat>, s: nat): seq<nat> {
    if s in order then order
    else [s] + (if |order| < CAPACITY then order else order[..CAPACITY - 1])
  }

  /** A sector that was brought in, and how many had been before it. */
  datatype Mark = NoMark | Mark(at: nat, sec: nat)

  /** Of `loads` sectors brought in so far, the later ones have pushed a marked one
      back, and not off the list while they are few enough. */
  predicate Tracked(order: seq<nat>, loads: nat, mark: Mark) {
    && |order| <= loads
    && (mark.Mark? ==>
          && mark.at < loads
          && (loads <= mark.at + CAPACITY ==>
                loads - 1 - mark.at < |order| && order[loads - 1 - mark.at] == mark.sec))
  }

  lemma TrackedTouch(order: seq<nat>, loads: nat, mark: Mark, s: nat)
    requires Tracked(order, loads, mark)
    ensures Tracked(Touch(order, s), Loads(loads, order, s), mark)
  {
  }

  /** The mark is on sector `s`, and this many loads do not push it off the list. */
  predicate Holding(mark: Mark, loads: nat, s: nat) {
    mark.Mark? && mark.sec == s && loads <= mark.at + CAPACITY
  }

  lemma HoldingListed(order: seq<nat>, loads: nat, mark: Mark, later: nat, s: nat)
    requires Tracked(order, loads, mark) && loads <= later && Holding(mark, later, s)
    ensures s in order
  {
    assert order[loads - 1 - mark.at] == s;
  }

  /** The sectors brought in are too few to push sector `s` off the list. */
  ghost predicate Stays(order: seq<nat>, s: nat, brought: int) {
    exists i :: 0 <= i < |order| && order[i] == s && i + brought < CAPACITY
  }

  function Loads(loads: nat, order: seq<nat>, s: nat): nat {
    if s in order then loads else loads + 1
  }

  /** What a write of `buf` at `ofs` to sector `s` leaves in it. */
  function Written(flat: seq<Block>, order: seq<nat>, s: nat, buf: seq<Byte>, ofs: nat): Block
    requires s < |flat| && ofs + |buf| <= SECTOR_SIZE
  {
    Overlay(if s in order then flat[s] else Zeros(), buf, ofs)
  }

  ghost predicate Listed(disk: seq<Block>, list: seq<Cached>, flat: seq<Block>) {
    && |flat| == |disk|
    && |list| <= CAPACITY
    && (forall i | 0 <= i < |list| :: list[i].sec < |disk|)
    && (forall i, j | 0 <= i < j < |list| :: list[i].sec != list[j].sec)
  }

  ghost predicate Has(list: seq<Cached>, s: nat) {
    exists i :: 0 <= i < |list| && list[i].sec == s
  }

  /** Every cached sector but `hole` holds the data of `flat`, and so does the
      device unless the entry is dirty; sectors that are not cached have their
      data on the device. */
  ghost predicate Agrees(disk: seq<Block>, list: seq<Cached>, flat: seq<Block>, hole: int)
    requires Listed(disk, list, flat)
  {
    && (forall i | 0 <= i < |list| && list[i].sec != hole ::
          list[i].data == flat[list[i].sec] && (!list[i].dirty ==> disk[list[i].sec] == list[i].data))
    && (forall s | 0 <= s < |disk| && s != hole && !Has(list, s) :: disk[s] == flat[s])
  }

  lemma InOrder(list: seq<Cached>, s: nat)
    ensures s in Order(list) <==> Has(list, s)
  {
    if i :| 0 <= i < |list| && list[i].sec == s {
      assert Order(list)[i] == s;
    }
  }

  /** The device after the last entry has been written back if it is dirty. */
  function WriteBack(disk: seq<Block>, x: Cached): seq<Block>
    requires x.sec < |disk|
  {
    if x.dirty then disk[x.sec := x.data] else disk
  }

  lemma EvictKeeps(disk: seq<Block>, list: seq<Cached>, flat: seq<Block>)
    requires list != [] && Listed(disk, list, flat) && Agrees(disk, list, flat, -1)
    ensures var disk', list' := WriteBack(disk, list[|list| - 1]), list[..|list| - 1];
      Listed(disk', list', flat) && Agrees(disk', list', flat, -1)
  {
    var x := list[|list| - 1];
    var disk', list' := WriteBack(disk, x), list[..|list| - 1];
    forall s | 0 <= s < |disk| && s != x.sec && Has(list, s) ensures Has(list', s) {
      var i :| 0 <= i < |list| && list[i].sec == s;
      assert list'[i].sec == s;
    }
  }

  /** A sector that is cached afresh, with its data or, for a write, without. */
  lemma InsertKeeps(disk: seq<Block>, list: seq<Cached>, flat: seq<Block>, x: Cached)
    requires Listed(disk, list, flat) && Agrees(disk, list, flat, -1)
    requires |list| < CAPACITY && x.sec < |disk| && !Has(list, x.sec)
    ensures Listed(disk, [x] + list, flat) && Agrees(disk, [x] + list, flat, x.sec)
    ensures x.data == flat[x.sec] == disk[x.sec] ==> Agrees(disk, [x] + list, flat, -1)
  {
    var list' := [x] + list;
    assert list'[0] == x;
    assert forall i | 0 < i < |list'| :: list'[i] == list[i - 1] && list[i - 1].sec != x.sec;
    assert Listed(disk, list', flat);
    forall s | 0 <= s < |disk| && Has(list, s) ensures Has(list', s) {
      var i :| 0 <= i < |list| && list[i].sec == s;
      assert list'[i + 1].sec == s;
    }
  }

  /** Filling the hole with new data makes everything agree again. */
  lemma SetKeeps(disk: seq<Block>, list: seq<Cached>, flat: seq<Block>, k: nat, data: Block)
    requires Listed(disk, list, flat) && k < |list| && Agrees(disk, list, flat, list[k].sec)
    ensures var s := list[k].sec;
      var list' := list[k := Cached(s, true, data)];
      && Listed(disk, list', flat[s := data]) && Agrees(disk, list', flat[s := data], -1)
      && Order(list') == Order(list)
  {
    var s := list[k].sec;
    var list' := list[k := Cached(s, true, data)];
    forall r | 0 <= r < |disk| && Has(list, r) ensures Has(list', r) {
      var i :| 0 <= i < |list| && list[i].sec == r;
      assert list'[i].sec == r;
    }
    assert Has(list', s) by {
      assert list'[k].sec == s;
    }
  }

  /** A write of less than a sector keeps the other bytes if and only if the
      sector is cached, or those bytes are zero anyway. */
  lemma PartialWriteKeepsRest(flat: seq<Block>, order: seq<nat>, s: nat, buf: seq<Byte>, ofs: nat)
    requires s < |flat| && ofs + |buf| <= SECTOR_SIZE
    ensures (forall k | 0 <= k < ofs || ofs + |buf| <= k < SECTOR_SIZE ::
               Written(flat, order, s, buf, ofs)[k] == flat[s][k])
       <==> (|| s in order
             || (forall k | 0 <= k < ofs || ofs + |buf| <= k < SECTOR_SIZE :: flat[s][k] == 0))
  {
    var w := Written(flat, order, s, buf, ofs);
    assert forall k | 0 <= k < ofs || ofs + |buf| <= k < SECTOR_SIZE ::
      w[k] == if s in order then flat[s][k] else 0;
  }

  /** A whole-sector write does not depend on what was cached. */
  lemma WholeWrite(flat: seq<Block>, order: seq<nat>, s: nat, buf: Block)
    requires s < |flat|
    ensures Written(flat, order, s, buf, 0) == buf
  {
  }

  class Cache {
    var disk: seq<Block>
    var list: seq<Cached>
    ghost var flat: seq<Block>
    /** How many sectors have been brought in. */
    ghost var loads: nat
    ghost var mark: Mark

    ghost predicate Valid()
      reads this
    {
      Listed(disk, list, flat) && Agrees(disk, list, flat, -1) && Tracked(Order(list), loads, mark)
    }

    constructor (device: seq<Block>)
      ensures Valid() && flat == device && disk == device && list == []
    {
      disk, list, flat, loads, mark := device, [], device, 0, NoMark;
    }

    /** Marks sector `s` if it is on the list, for the proofs. */
    ghost method SetMark(s: nat)
      requires Valid()
      modifies this`mark
      ensures Valid() && forall later: nat | Stays(Order(list), s, later - loads) :: Holding(mark, later, s)
    {
      ghost var order := Order(list);
      if i :| 0 <= i < |order| && order[i] == s {
        mark := Mark(loads - 1 - i, s);
      }
    }

    method Find(s: nat) returns (k: nat, hit: bool)
      ensures hit <==> s in Order(list)
      ensures hit ==> k < |list| && list[k].sec == s
    {
      k := 0;
      while k < |list|
        invariant k <= |list|
        invariant forall j | 0 <= j < k :: list[j].sec != s
      {
        if list[k].sec == s {
          InOrder(list, s);
          return k, true;
        }
        k := k + 1;
      }
      InOrder(list, s);
      return k, false;
    }

    /** Makes room when the list is full. */
    method Shrink()
      requires Valid()
      modifies this
      ensures Listed(disk, list, flat) && Agrees(disk, list, flat, -1) && loads == old(loads) && mark == old(mark)
      ensures flat == old(flat) && |disk| == old(|disk|) && |list| < CAPACITY
      ensures list == if |old(list)| < CAPACITY then old(list) else old(list)[..CAPACITY - 1]
    {
      if |list| >= CAPACITY {
        EvictKeeps(disk, list, flat);
        disk := WriteBack(disk, list[|list| - 1]);
        list := list[..|list| - 1];
      }
    }

    /** `get_cached_sector`: the entry of sector `s` is at index `k` of the list
        afterwards. It holds the sector's data, or zeros when the sector was not
        cached and is about to be written. */
    method Get(s: nat, isWrite: bool) returns (k: nat, hit: bool)
      requires Valid() && s < |disk|
      modifies this
      ensures flat == old(flat) && |disk| == old(|disk|)
      ensures Listed(disk, list, flat) && Agrees(disk, list, flat, s)
      ensures k < |list| && list[k].sec == s
      ensures hit <==> s in old(Order(list))
      ensures Order(list) == Touch(old(Order(list)), s) && mark == old(mark)
      ensures loads == Loads(old(loads), old(Order(list)), s) && Tracked(Order(list), loads, mark)
      ensures list[k].data == if hit || !isWrite then flat[s] else Zeros()
      ensures hit || !isWrite ==> Valid()
    {
      k, hit := Find(s);
      TrackedTouch(Order(list), loads, mark, s);
      if !hit {
        Insert(s, isWrite);
        k := 0;
      }
    }

    /** A sector that is not cached goes to the front of the list. */
    method Insert(s: nat, isWrite: bool)
      requires Valid() && s < |disk| && s !in Order(list)
      modifies this
      ensures flat == old(flat) && |disk| == old(|disk|) && mark == old(mark) && loads == old(loads) + 1
      ensures Listed(disk, list, flat) && Agrees(disk, list, flat, s)
      ensures list != [] && list[0].sec == s && list[0].data == if isWrite then Zeros() else flat[s]
      ensures Order(list) == Touch(old(Order(list)), s)
      ensures !isWrite ==> Agrees(disk, list, flat, -1)
    {
      InOrder(list, s);
      Shrink();
      var x := Cached(s, false, if isWrite then Zeros() else disk[s]);
      InsertKeeps(disk, list, flat, x);
      OrderInsert(old(list), x);
      list, loads := [x] + list, loads + 1;
    }

    /** `cache_write_with_size_and_offset`. */
    method Write(s: nat, buf: seq<Byte>, ofs: nat)
      requires Valid() && s < |disk| && ofs + |buf| <= SECTOR_SIZE
      modifies this
      ensures Valid() && |disk| == old(|disk|)
      ensures flat == old(flat)[s := Written(old(flat), old(Order(list)), s, buf, ofs)]
      ensures Order(list) == Touch(old(Order(list)), s) && mark == old(mark)
      ensures loads == Loads(old(loads), old(Order(list)), s)
    {
      var k, hit := Get(s, true);
      var data := list[k].data;
      ghost var base := data;
      var i := 0;
      while i < |buf|
        invariant i <= |buf| && |data| == SECTOR_SIZE
        invariant data == Overlay(base, buf[..i], ofs)
      {
        data := data[i + ofs := buf[i]];
        i := i + 1;
      }
      assert buf[..|buf|] == buf;
      SetKeeps(disk, list, flat, k, data);
      list := list[k := Cached(s, true, data)];
      flat := flat[s := data];
    }

    /** `cache_read_with_size_and_offset`. */
    method Read(s: nat, size: nat, ofs: nat) returns (buf: seq<Byte>)
      requires Valid() && s < |disk| && ofs + size <= SECTOR_SIZE
      modifies this
      ensures Valid() && |disk| == old(|disk|) && flat == old(flat)
      ensures buf == flat[s][ofs..ofs + size]
      ensures Order(list) == Touch(old(Order(list)), s) && mark == old(mark)
      ensures loads == Loads(old(loads), old(Order(list)), s)
    {
      var k, hit := Get(s, false);
      buf := [];
      var i := 0;
      while i < size
        invariant i <= size
        invariant buf == list[k].data[ofs..ofs + i]
      {
        buf := buf + [list[k].data[i + ofs]];
        i := i + 1;
      }
    }

    /** `cache_write`. */
    method WriteBlock(s: nat, b: Block)
      requires Valid() && s < |disk|
      modifies this
      ensures Valid() && |disk| == old(|disk|) && flat == old(flat)[s := b]
      ensures Order(list) == Touch(old(Order(list)), s) && mark == old(mark)
      ensures loads == Loads(old(loads), old(Order(list)), s)
    {
      WholeWrite(flat, Order(list), s, b);
      Write(s, b, 0);
    }

    /** `cache_read`. */
    method ReadBlock(s: nat) returns (b: Block)
      requires Valid() && s < |disk|
      modifies this
      ensures Valid() && |disk| == old(|disk|) && flat == old(flat) && b == flat[s]
      ensures Order(list) == Touch(old(Order(list)), s) && mark == old(mark)
      ensures loads == Loads(old(loads), old(Order(list)), s)
    {
      b := Read(s, SECTOR_SIZE, 0);
    }

    /** `write_all_dirty_sectors`, which the code calls only when something is
        cached. */
    method Flush()
      requires Valid() && list != []
      modifies this
      ensures Valid() && flat == old(flat) && disk == flat
      ensures forall i | 0 <= i < |list| :: !list[i].dirty
      ensures Order(list) == old(Order(list)) && loads == old(loads) && mark == old(mark)
    {
      var i := 0;
      while i < |list|
        invariant i <= |list| && |disk| == |old(disk)| && flat == old(flat)
        invariant loads == old(loads) && mark == old(mark)
        invariant Valid() && Order(list) == old(Order(list))
        invariant forall j | 0 <= j < i :: !list[j].dirty
      {
        var x := list[i];
        if x.dirty {
          CleanKeeps(disk, list, flat, i);
          disk := disk[x.sec := x.data];
          list := list[i := x.(dirty := false)];
        }
        i := i + 1;
      }
      forall s | 0 <= s < |disk| ensures disk[s] == flat[s] {
      }
    }
  }

  lemma CleanKeeps(disk: seq<Block>, list: seq<Cached>, flat: seq<Block>, k: nat)
    requires Listed(disk, list, flat) && k < |list| && Agrees(disk, list, flat, -1)
    ensures var x := list[k];
      var disk', list' := disk[x.sec := x.data], list[k := x.(dirty := false)];
      && Listed(disk', list', flat) && Agrees(disk', list', flat, -1)
      && Order(list') == Order(list)
  {
    var x := list[k];
    var list' := list[k := x.(dirty := false)];
    forall r | 0 <= r < |disk| && Has(list, r) ensures Has(list', r) {
      var i :| 0 <= i < |list| && list[i].sec == r;
      assert list'[i].sec == r;
    }
  }

  lemma OrderInsert(list: seq<Cached>, x: Cached)
    requires x.sec !in Order(list) && |list| <= CAPACITY
    ensures Order([x] + if |list| < CAPACITY then list else list[..CAPACITY - 1])
         == Touch(Order(list), x.sec)
  {
  }
}
