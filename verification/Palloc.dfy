/** The page allocator: two pools of contiguous pages, each with a bitmap of the
    pages in use. Pages are known by their number; 0 stands for a null pointer. */
module Palloc {
  import opened Bitmap

  const PAGE_SIZE: nat := 4096

  predicate InSpan(p: nat, page: nat, count: nat) {
    page <= p < page + count
  }

  ghost function Span(page: nat, count: nat): set<nat> {
    set p | page <= p < page + count && InSpan(p, page, count)
  }

  predicate IsMarked(p: nat, base: nat, used: seq<bool>) {
    base <= p < base + |used| && used[p - base]
  }

  /** The pages a bitmap marks, from page `base` on. */
  ghost function Marked(base: nat, used: seq<bool>): set<nat> {
    set p | base <= p < base + |used| && IsMarked(p, base, used)
  }

  lemma MarkRun(base: nat, used: seq<bool>, at: nat, count: nat)
    requires IsRun(used, at, count, false)
    ensures Marked(base, Filled(used, at, count, true)) == Marked(base, used) + Span(base + at, count)
    ensures Marked(base, used) !! Span(base + at, count)
  {
    var used' := Filled(used, at, count, true);
    forall p: nat ensures IsMarked(p, base, used') <==> IsMarked(p, base, used) || InSpan(p, base + at, count) {
      if base <= p < base + |used| {
        FilledAt(used, at, count, true, p - base);
      }
    }
  }

  lemma NotARun(base: nat, used: seq<bool>, page: nat, count: nat)
    requires base <= page && page + count <= base + |used| && !IsRun(used, page - base, count, false)
    ensures Span(page, count) * Marked(base, used) != {}
  {
    var i :| page - base <= i < page - base + count && used[i];
    assert InSpan(base + i, page, count) && IsMarked(base + i, base, used);
    assert base + i in Span(page, count) * Marked(base, used);
  }

  lemma ClearRun(base: nat, used: seq<bool>, at: nat, count: nat)
    requires at + count <= |used|
    ensures Marked(base, Filled(used, at, count, false)) == Marked(base, used) - Span(base + at, count)
  {
    var used' := Filled(used, at, count, false);
    forall p: nat ensures IsMarked(p, base, used') <==> IsMarked(p, base, used) && !InSpan(p, base + at, count) {
      if base <= p < base + |used| {
        FilledAt(used, at, count, false, p - base);
      }
    }
  }

  class Pool {
    const base: nat
    const usedMap: Bits

    ghost predicate Valid()
      reads this, usedMap
    {
      usedMap.Valid() && base > 0
    }

    ghost function Out(): set<nat>
      requires Valid()
      reads this, usedMap, usedMap.words
    {
      Marked(base, usedMap.View())
    }

    /** `init_pool`: the bitmap takes the first pages of the pool, and the pool
        must have room for it. */
    constructor (start: nat, count: nat)
      requires start > 0 && BitmapPages(count) <= count
      ensures Valid() && Out() == {} && fresh(usedMap) && fresh(usedMap.words)
      ensures base == start + BitmapPages(count) && base + usedMap.size == start + count
    {
      var bits := new Bits(count - BitmapPages(count));
      usedMap, base := bits, start + BitmapPages(count);
    }

    /** `page_from_pool`. */
    predicate Has(page: nat)
      reads this, usedMap
    {
      base <= page < base + usedMap.size
    }

    method Get(count: nat) returns (page: nat)
      requires Valid()
      modifies usedMap.words
      ensures page == 0 ==> Out() == old(Out())
      ensures page != 0 ==>
        && base <= page && page + count <= base + usedMap.size
        && Span(page, count) !! old(Out()) && Out() == old(Out()) + Span(page, count)
      ensures forall p: nat | base <= p && p + count <= base + usedMap.size && (page != 0 ==> p < page) ::
        Span(p, count) * old(Out()) != {}
    {
      ghost var used := usedMap.View();
      var found, at := usedMap.ScanAndFlip(0, count, false);
      page := if found then base + at else 0;
      if found {
        MarkRun(base, used, at, count);
      }
      forall p: nat | base <= p && p + count <= base + usedMap.size && (page != 0 ==> p < page)
        ensures Span(p, count) * old(Out()) != {}
      {
        NotARun(base, used, p, count);
      }
    }

    method Free(page: nat, count: nat)
      requires Valid() && base <= page && page + count <= base + usedMap.size
      modifies usedMap.words
      ensures Out() == old(Out()) - Span(page, count)
    {
      ClearRun(base, usedMap.View(), page - base, count);
      usedMap.SetMultiple(page - base, count, false);
    }
  }

  /** Pages that the bitmap of `count` pages takes. */
  function BitmapPages(count: nat): nat {
    (8 + 4 * ((count + 32 - 1) / 32) + PAGE_SIZE - 1) / PAGE_SIZE
  }

  function UserPages(free: nat, limit: nat): nat {
    if free / 2 > limit then limit else free / 2
  }

  class Pages {
    const kernel: Pool
    const user: Pool

    /** The two pools do not overlap. */
    ghost predicate Valid()
      reads this, kernel, user, kernel.usedMap, user.usedMap
    {
      && kernel.Valid() && user.Valid() && kernel != user && kernel.usedMap != user.usedMap
      && kernel.usedMap.words != user.usedMap.words
      && kernel.base + kernel.usedMap.size <= user.base
    }

    /** Pages handed out and not given back. */
    ghost function Out(): set<nat>
      requires Valid()
      reads this, kernel, user, kernel.usedMap, user.usedMap, kernel.usedMap.words, user.usedMap.words
    {
      kernel.Out() + user.Out()
    }

    /** `palloc_init`, for `ram` pages of memory of which those below 1 MB are not
        free. */
    constructor (ram: nat, limit: nat)
      requires ram >= 256
      requires var users := UserPages(ram - 256, limit);
        BitmapPages(users) <= users && BitmapPages(ram - 256 - users) <= ram - 256 - users
      ensures Valid() && Out() == {} && fresh(kernel) && fresh(user)
      ensures fresh(kernel.usedMap) && fresh(kernel.usedMap.words) && fresh(user.usedMap) && fresh(user.usedMap.words)
      ensures var users := UserPages(ram - 256, limit);
        && kernel.base == 256 + BitmapPages(ram - 256 - users) && kernel.base + kernel.usedMap.size == ram - users
        && user.base == ram - users + BitmapPages(users) && user.base + user.usedMap.size == ram
    {
      var users := UserPages(ram - 256, limit);
      var kernels := ram - 256 - users;
      var k := new Pool(256, kernels);
      var u := new Pool(256 + kernels, users);
      kernel, user := k, u;
    }

    /** `palloc_get_multiple`: `count` contiguous pages of one pool, none of them
        in use before; the first such group, or null if there is none. */
    method GetMultiple(asUser: bool, count: nat) returns (page: nat)
      requires Valid()
      modifies kernel.usedMap.words, user.usedMap.words
      ensures Valid()
      ensures page == 0 ==> Out() == old(Out())
      ensures page != 0 ==>
        && count > 0
        && (forall p | p in Span(page, count) :: if asUser then user.Has(p) else kernel.Has(p))
        && Span(page, count) !! old(Out()) && Out() == old(Out()) + Span(page, count)
      ensures var pool := if asUser then user else kernel;
        count > 0 ==> forall p: nat |
          pool.base <= p && p + count <= pool.base + pool.usedMap.size && (page != 0 ==> p < page) ::
          Span(p, count) * old(Out()) != {}
    {
      page := 0;
      if count > 0 {
        if asUser {
          page := user.Get(count);
        } else {
          page := kernel.Get(count);
        }
      }
    }

    /** `palloc_free_multiple`, for pages of one pool that are all in use. */
    method FreeMultiple(page: nat, count: nat)
      requires Valid()
      requires page != 0 && count > 0 ==>
        Span(page, count) <= Out() && (kernel.Has(page) ==> page + count <= kernel.base + kernel.usedMap.size)
      modifies kernel.usedMap.words, user.usedMap.words
      ensures Valid() && Out() == if page == 0 then old(Out()) else old(Out()) - Span(page, count)
    {
      if page != 0 && count > 0 {
        assert page in Span(page, count) && page + count - 1 in Span(page, count);
        if kernel.Has(page) {
          kernel.Free(page, count);
        } else {
          user.Free(page, count);
        }
      }
    }
  }
}
