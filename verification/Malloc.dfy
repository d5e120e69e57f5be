/** The block allocator: pages cut into blocks of one size each, the free blocks
    of every size on a list, and whole pages for what is bigger.

    A block on a free list is known by the page of its arena and its index there;
    callers know it by its address. Sizes are 32-bit, so sums of them wrap. */
module Malloc {
  import opened Common
  import opened Palloc

  const DESCS: nat := 7
  const HEADER: nat := 12
  const WORD_RANGE: nat := 0x1_0000_0000

  datatype Block = Block(page: nat, index: nat)

  /** The header of an arena: how many blocks of descriptor `desc` are free, or
      how many pages a big block has. */
  datatype Arena = Small(desc: nat, free: nat) | Big(pages: nat)

  /** What is known of a block in use: where it is, and the size asked for. */
  datatype Live = Live(at: Block, size: nat)

  // --- geometry --------------------------------------------------------------

  function BlockSize(d: nat): nat
    requires d < DESCS
  {
    match d
    case 0 => 16 case 1 => 32 case 2 => 64 case 3 => 128
    case 4 => 256 case 5 => 512 case _ => 1024
  }

  function PerArena(d: nat): nat
    requires d < DESCS
  {
    (PAGE_SIZE - HEADER) / BlockSize(d)
  }

  /** Where block `i` of an arena starts in its page. */
  function Offset(i: nat, d: nat): (x: nat)
    requires d < DESCS
    ensures x >= HEADER
  {
    if i == 0 then HEADER else Offset(i - 1, d) + BlockSize(d)
  }

  /** `arena_to_block`. */
  function Address(b: Block, d: nat): (x: nat)
    requires d < DESCS
    ensures x > 0
  {
    b.page * PAGE_SIZE + Offset(b.index, d)
  }

  function BigAddress(page: nat): nat {
    page * PAGE_SIZE + HEADER
  }

  lemma {:induction false} OffsetIs(i: nat, d: nat)
    requires d < DESCS
    ensures d == 0 ==> Offset(i, d) == HEADER + 16 * i
    ensures d == 1 ==> Offset(i, d) == HEADER + 32 * i
    ensures d == 2 ==> Offset(i, d) == HEADER + 64 * i
    ensures d == 3 ==> Offset(i, d) == HEADER + 128 * i
    ensures d == 4 ==> Offset(i, d) == HEADER + 256 * i
    ensures d == 5 ==> Offset(i, d) == HEADER + 512 * i
    ensures d == 6 ==> Offset(i, d) == HEADER + 1024 * i
  {
    if i > 0 {
      OffsetIs(i - 1, d);
    }
  }

  /** The index of the block at `x` in its arena. */
  function IndexOf(x: nat, d: nat): int
    requires d < DESCS
  {
    (x % PAGE_SIZE - HEADER) / BlockSize(d)
  }

  lemma OffsetFits(i: nat, d: nat)
    requires d < DESCS && i < PerArena(d)
    ensures Offset(i, d) + BlockSize(d) <= PAGE_SIZE
    ensures (Offset(i, d) - HEADER) / BlockSize(d) == i
  {
    OffsetIs(i, d);
    match d {
      case 0 => case 1 => case 2 => case 3 => case 4 => case 5 => case _ =>
    }
  }

  lemma {:induction false} OffsetsApart(i: nat, j: nat, d: nat)
    requires d < DESCS && i < j
    ensures Offset(i, d) + BlockSize(d) <= Offset(j, d)
  {
    if i < j - 1 {
      OffsetsApart(i, j - 1, d);
    }
  }

  lemma PageAndOffset(page: nat, offset: nat)
    requires offset < PAGE_SIZE
    ensures (page * PAGE_SIZE + offset) / PAGE_SIZE == page && (page * PAGE_SIZE + offset) % PAGE_SIZE == offset
  {
  }

  /** A block lies in its page and clear of the header, and `block_to_arena` finds
      the page. */
  lemma BlockInPage(b: Block, d: nat)
    requires d < DESCS && b.index < PerArena(d)
    ensures Address(b, d) / PAGE_SIZE == b.page
    ensures HEADER <= Address(b, d) % PAGE_SIZE <= PAGE_SIZE - BlockSize(d)
    ensures IndexOf(Address(b, d), d) == b.index
  {
    OffsetFits(b.index, d);
    PageAndOffset(b.page, Offset(b.index, d));
  }

  lemma BlockEarlier(b: Block, c: Block, d: nat)
    requires d < DESCS && b.index < PerArena(d) && c.index < PerArena(d)
    requires b.page < c.page || (b.page == c.page && b.index < c.index)
    ensures Address(b, d) + BlockSize(d) <= Address(c, d)
  {
    if b.page < c.page {
      OffsetFits(b.index, d);
    } else {
      OffsetsApart(b.index, c.index, d);
    }
  }

  /** Different blocks of one size do not overlap. */
  lemma BlocksApart(b: Block, c: Block, d: nat)
    requires d < DESCS && b.index < PerArena(d) && c.index < PerArena(d) && b != c
    ensures Address(b, d) + BlockSize(d) <= Address(c, d) || Address(c, d) + BlockSize(d) <= Address(b, d)
  {
    if b.page < c.page || (b.page == c.page && b.index < c.index) {
      BlockEarlier(b, c, d);
    } else {
      BlockEarlier(c, b, d);
    }
  }

  lemma BigInPage(page: nat)
    ensures BigAddress(page) / PAGE_SIZE == page && BigAddress(page) % PAGE_SIZE == HEADER
  {
  }

  // --- the invariant -----------------------------------------------------------

  predicate OfArena(arenas: map<nat, Arena>, b: Block, d: nat) {
    && d < DESCS && b.page in arenas && arenas[b.page].Small? && arenas[b.page].desc == d
    && b.index < PerArena(d)
  }

  /** A free list holds blocks of its size, each once. */
  ghost predicate ListOk(arenas: map<nat, Arena>, list: seq<Block>, d: nat) {
    Once(list) && forall b | b in list :: OfArena(arenas, b, d)
  }

  ghost predicate Lists(arenas: map<nat, Arena>, free: seq<seq<Block>>) {
    |free| == DESCS && forall d | 0 <= d < DESCS :: ListOk(arenas, free[d], d)
  }

  /** The indices of the blocks of `page` on a list. */
  ghost function Idle(list: seq<Block>, page: nat, n: nat): set<nat> {
    set i | 0 <= i < n && Block(page, i) in list
  }

  /** `free_cnt` counts the blocks of the arena on the free list. */
  ghost predicate CountOk(a: Arena, page: nat, free: seq<seq<Block>>) {
    |free| == DESCS &&
    match a
    case Small(d, n) => d < DESCS && n == |Idle(free[d], page, PerArena(d))|
    case Big(n) => n > 0
  }

  ghost predicate Counts(arenas: map<nat, Arena>, free: seq<seq<Block>>) {
    forall p | p in arenas :: CountOk(arenas[p], p, free)
  }

  /** No arena but that of page `except` is entirely free. */
  ghost predicate Partly(arenas: map<nat, Arena>, except: int) {
    forall p | p in arenas && p != except && arenas[p].Small? && arenas[p].desc < DESCS ::
      arenas[p].free < PerArena(arenas[p].desc)
  }

  /** Block `x` in use is where `l` says it is, and is as big as was asked for,
      except for the biggest requests. */
  ghost predicate Placed(arenas: map<nat, Arena>, x: nat, l: Live) {
    && l.at.page in arenas
    && match arenas[l.at.page]
       case Small(d, _) =>
         d < DESCS && l.at.index < PerArena(d) && x == Address(l.at, d) && l.size <= BlockSize(d)
       case Big(n) =>
         && l.at.index == 0 && x == BigAddress(l.at.page)
         && (l.size + HEADER <= n * PAGE_SIZE <==> l.size < WORD_RANGE - HEADER + 1)
  }

  /** A block of an arena is on its free list or in use, and not both. */
  ghost predicate OneSide(b: Block, d: nat, free: seq<seq<Block>>, live: map<nat, Live>)
    requires d < DESCS && |free| == DESCS
  {
    b in free[d] <==> Address(b, d) !in live
  }

  ghost predicate Lives(arenas: map<nat, Arena>, free: seq<seq<Block>>, live: map<nat, Live>)
    requires |free| == DESCS
  {
    && (forall x | x in live :: Placed(arenas, x, live[x]))
    && (forall b, d | OfArena(arenas, b, d) :: OneSide(b, d, free, live))
    && (forall p | p in arenas && arenas[p].Big? :: BigAddress(p) in live)
  }

  function Extent(a: Arena): nat {
    if a.Big? then a.pages else 1
  }

  ghost predicate Holds(arenas: map<nat, Arena>, p: nat, page: nat) {
    p in arenas && InSpan(page, p, Extent(arenas[p]))
  }

  /** The pages in use are those of other users and those of the arenas, and no
      page is shared. */
  ghost predicate PagesOk(arenas: map<nat, Arena>, out: set<nat>, others: set<nat>, lo: nat, hi: nat) {
    && (forall p, page | Holds(arenas, p, page) :: page in out && page !in others)
    && (forall p, q, page | Holds(arenas, p, page) && Holds(arenas, q, page) :: p == q)
    && (forall page | page in out && page !in others :: exists p :: Holds(arenas, p, page))
    && others <= out && (forall p | p in arenas :: lo <= p < p + Extent(arenas[p]) <= hi)
  }

  // --- taking a block off a list ---------------------------------------------

  /** The header of an arena changes, but not its kind. */
  lemma SameArena(arenas: map<nat, Arena>, p: nat, n: nat, b: Block, d: nat)
    requires p in arenas && arenas[p].Small?
    ensures OfArena(arenas[p := arenas[p].(free := n)], b, d) == OfArena(arenas, b, d)
  {
  }

  lemma PopLists(arenas: map<nat, Arena>, free: seq<seq<Block>>, d: nat, n: nat)
    requires Lists(arenas, free) && d < DESCS && free[d] != []
    ensures OfArena(arenas, free[d][0], d)
    ensures Lists(arenas[free[d][0].page := Small(d, n)], free[d := free[d][1..]])
  {
    var b := free[d][0];
    assert b in free[d] && ListOk(arenas, free[d], d);
    var arenas', free' := arenas[b.page := Small(d, n)], free[d := free[d][1..]];
    OnceTail(free[d]);
    forall e | 0 <= e < DESCS ensures ListOk(arenas', free'[e], e) {
      assert ListOk(arenas, free[e], e);
      forall c | c in free'[e] ensures OfArena(arenas', c, e) {
        SameArena(arenas, b.page, n, c, e);
      }
    }
  }

  lemma IdleTail(list: seq<Block>, page: nat, n: nat)
    requires Once(list) && list != [] && list[0].index < n
    ensures |Idle(list[1..], page, n)| == |Idle(list, page, n)| - if list[0].page == page then 1 else 0
  {
    OnceTail(list);
    if list[0].page == page {
      assert list[0] in list && list[0] == Block(page, list[0].index);
      assert Idle(list[1..], page, n) == Idle(list, page, n) - {list[0].index};
    } else {
      assert Idle(list[1..], page, n) == Idle(list, page, n);
    }
  }

  lemma PopCounts(arenas: map<nat, Arena>, free: seq<seq<Block>>, d: nat)
    requires Lists(arenas, free) && Counts(arenas, free) && d < DESCS && free[d] != []
    ensures OfArena(arenas, free[d][0], d) && arenas[free[d][0].page].free > 0
    ensures Counts(arenas[free[d][0].page := Small(d, arenas[free[d][0].page].free - 1)], free[d := free[d][1..]])
  {
    var b := free[d][0];
    assert b in free[d] && ListOk(arenas, free[d], d);
    assert CountOk(arenas[b.page], b.page, free);
    IdleTail(free[d], b.page, PerArena(d));
    var arenas', free' := arenas[b.page := Small(d, arenas[b.page].free - 1)], free[d := free[d][1..]];
    forall p | p in arenas' ensures CountOk(arenas'[p], p, free') {
      assert CountOk(arenas[p], p, free);
      if arenas[p].Small? && arenas[p].desc == d {
        IdleTail(free[d], p, PerArena(d));
      }
    }
  }

  lemma AddressesDiffer(b: Block, d: nat, c: Block, e: nat)
    requires d < DESCS && e < DESCS && b.index < PerArena(d) && c.index < PerArena(e)
    requires Address(b, d) == Address(c, e)
    ensures b.page == c.page && (d == e ==> b == c)
  {
    BlockInPage(b, d);
    BlockInPage(c, e);
  }

  /** Only block `b` changes sides. */
  lemma OthersStay(arenas: map<nat, Arena>, free: seq<seq<Block>>, live: map<nat, Live>, b: Block, d: nat,
                     list: seq<Block>, live': map<nat, Live>, c: Block, e: nat)
    requires |free| == DESCS && OfArena(arenas, b, d) && OfArena(arenas, c, e) && (c != b || e != d)
    requires OneSide(c, e, free, live)
    requires forall x | x != b :: x in list <==> x in free[d]
    requires forall x: nat | x != Address(b, d) :: x in live' <==> x in live
    ensures OneSide(c, e, free[d := list], live')
  {
    if Address(c, e) == Address(b, d) {
      AddressesDiffer(b, d, c, e);
    }
  }

  lemma PopLives(arenas: map<nat, Arena>, free: seq<seq<Block>>, live: map<nat, Live>, d: nat, n: nat, size: nat)
    requires Lists(arenas, free) && Lives(arenas, free, live) && d < DESCS && free[d] != [] && size <= BlockSize(d)
    ensures var b := free[d][0];
      && Address(b, d) !in live
      && Lives(arenas[b.page := Small(d, n)], free[d := free[d][1..]], live[Address(b, d) := Live(b, size)])
  {
    var b := free[d][0];
    assert b in free[d] && ListOk(arenas, free[d], d);
    assert OneSide(b, d, free, live);
    OnceTail(free[d]);
    var arenas', free' := arenas[b.page := Small(d, n)], free[d := free[d][1..]];
    var live' := live[Address(b, d) := Live(b, size)];
    forall x | x in live' ensures Placed(arenas', x, live'[x]) {
      if x != Address(b, d) {
        assert Placed(arenas, x, live[x]);
      }
    }
    forall c, e | OfArena(arenas', c, e) ensures OneSide(c, e, free', live') {
      SameArena(arenas, b.page, n, c, e);
      if c != b || e != d {
        assert OneSide(c, e, free, live);
        OthersStay(arenas, free, live, b, d, free[d][1..], live', c, e);
      }
    }
  }

  // --- putting a block back --------------------------------------------------

  lemma PushLists(arenas: map<nat, Arena>, free: seq<seq<Block>>, b: Block, d: nat, n: nat)
    requires Lists(arenas, free) && OfArena(arenas, b, d) && b !in free[d]
    ensures Lists(arenas[b.page := Small(d, n)], free[d := [b] + free[d]])
  {
    var arenas', free' := arenas[b.page := Small(d, n)], free[d := [b] + free[d]];
    forall e | 0 <= e < DESCS ensures ListOk(arenas', free'[e], e) {
      assert ListOk(arenas, free[e], e);
      forall c | c in free'[e] ensures OfArena(arenas', c, e) {
        SameArena(arenas, b.page, n, c, e);
      }
    }
  }

  lemma IdleHead(list: seq<Block>, b: Block, page: nat, n: nat)
    requires b !in list && b.index < n
    ensures |Idle([b] + list, page, n)| == |Idle(list, page, n)| + if b.page == page then 1 else 0
  {
    if b.page == page {
      assert b == Block(page, b.index);
      assert Idle([b] + list, page, n) == Idle(list, page, n) + {b.index};
    } else {
      assert Idle([b] + list, page, n) == Idle(list, page, n);
    }
  }

  lemma PushCounts(arenas: map<nat, Arena>, free: seq<seq<Block>>, b: Block, d: nat)
    requires Counts(arenas, free) && |free| == DESCS && OfArena(arenas, b, d) && b !in free[d]
    ensures Counts(arenas[b.page := Small(d, arenas[b.page].free + 1)], free[d := [b] + free[d]])
  {
    var arenas', free' := arenas[b.page := Small(d, arenas[b.page].free + 1)], free[d := [b] + free[d]];
    forall p | p in arenas' ensures CountOk(arenas'[p], p, free') {
      assert CountOk(arenas[p], p, free);
      if arenas[p].Small? && arenas[p].desc == d {
        IdleHead(free[d], b, p, PerArena(d));
      }
    }
  }

  lemma PushLives(arenas: map<nat, Arena>, free: seq<seq<Block>>, live: map<nat, Live>, b: Block, d: nat, n: nat)
    requires |free| == DESCS && Lives(arenas, free, live) && OfArena(arenas, b, d) && Address(b, d) in live
    ensures b !in free[d]
    ensures Lives(arenas[b.page := Small(d, n)], free[d := [b] + free[d]], live - {Address(b, d)})
  {
    assert OneSide(b, d, free, live);
    var arenas', free', live' := arenas[b.page := Small(d, n)], free[d := [b] + free[d]], live - {Address(b, d)};
    forall x | x in live' ensures Placed(arenas', x, live'[x]) {
      assert Placed(arenas, x, live[x]);
    }
    forall c, e | OfArena(arenas', c, e) ensures OneSide(c, e, free', live') {
      SameArena(arenas, b.page, n, c, e);
      if c != b || e != d {
        assert OneSide(c, e, free, live);
        OthersStay(arenas, free, live, b, d, [b] + free[d], live', c, e);
      }
    }
    forall p | p in arenas' && arenas'[p].Big? ensures BigAddress(p) in live' {
      BigInPage(p);
      BlockInPage(b, d);
    }
  }

  // --- making and dropping an arena --------------------------------------------

  function Cut(page: nat, n: nat): seq<Block> {
    seq(n, i requires 0 <= i => Block(page, i))
  }

  ghost function UpTo(n: nat): (s: set<nat>)
    ensures forall i: nat :: i in s <==> i < n
  {
    if n == 0 then {} else UpTo(n - 1) + {n - 1}
  }

  lemma {:induction false} UpToSize(n: nat)
    ensures |UpTo(n)| == n
  {
    if n > 0 {
      UpToSize(n - 1);
    }
  }

  lemma PlacedPage(arenas: map<nat, Arena>, x: nat, l: Live)
    requires Placed(arenas, x, l)
    ensures x / PAGE_SIZE == l.at.page
  {
    match arenas[l.at.page]
    case Small(d, _) => BlockInPage(l.at, d);
    case Big(_) => BigInPage(l.at.page);
  }

  /** No block in use lies in a page that is not an arena. */
  lemma NothingThere(arenas: map<nat, Arena>, free: seq<seq<Block>>, live: map<nat, Live>, x: nat)
    requires |free| == DESCS && Lives(arenas, free, live) && x / PAGE_SIZE !in arenas
    ensures x !in live
  {
    if x in live {
      PlacedPage(arenas, x, live[x]);
    }
  }

  lemma NewLists(arenas: map<nat, Arena>, free: seq<seq<Block>>, p: nat, d: nat)
    requires Lists(arenas, free) && p !in arenas && d < DESCS && free[d] == []
    ensures Lists(arenas[p := Small(d, PerArena(d))], free[d := Cut(p, PerArena(d))])
  {
    var arenas', free' := arenas[p := Small(d, PerArena(d))], free[d := Cut(p, PerArena(d))];
    forall e | 0 <= e < DESCS ensures ListOk(arenas', free'[e], e) {
      assert ListOk(arenas, free[e], e);
    }
  }

  lemma NewCounts(arenas: map<nat, Arena>, free: seq<seq<Block>>, p: nat, d: nat)
    requires Counts(arenas, free) && |free| == DESCS && p !in arenas && d < DESCS && free[d] == []
    ensures Counts(arenas[p := Small(d, PerArena(d))], free[d := Cut(p, PerArena(d))])
  {
    var arenas', free' := arenas[p := Small(d, PerArena(d))], free[d := Cut(p, PerArena(d))];
    var n := PerArena(d);
    forall q | q in arenas' ensures CountOk(arenas'[q], q, free') {
      if q == p {
        UpToSize(n);
        forall i | 0 <= i < n ensures Block(p, i) in Cut(p, n) {
          assert Cut(p, n)[i] == Block(p, i);
        }
        assert Idle(Cut(p, n), p, n) == UpTo(n);
      } else {
        assert CountOk(arenas[q], q, free);
        if arenas[q].Small? && arenas[q].desc == d {
          assert Idle(Cut(p, n), q, n) == {} == Idle(free[d], q, n);
        }
      }
    }
  }

  lemma NewLives(arenas: map<nat, Arena>, free: seq<seq<Block>>, live: map<nat, Live>, p: nat, d: nat)
    requires Lists(arenas, free) && Lives(arenas, free, live) && p !in arenas && d < DESCS && free[d] == []
    ensures Lives(arenas[p := Small(d, PerArena(d))], free[d := Cut(p, PerArena(d))], live)
  {
    var arenas', free' := arenas[p := Small(d, PerArena(d))], free[d := Cut(p, PerArena(d))];
    forall x | x in live ensures Placed(arenas', x, live[x]) {
      assert Placed(arenas, x, live[x]);
    }
    forall b, e | OfArena(arenas', b, e) ensures OneSide(b, e, free', live) {
      if b.page == p {
        BlockInPage(b, d);
        NothingThere(arenas, free, live, Address(b, d));
        assert Cut(p, PerArena(d))[b.index] == b;
      } else {
        assert OfArena(arenas, b, e) && OneSide(b, e, free, live);
      }
    }
  }

  /** The list without the first `n` blocks of a page. */
  function Without(list: seq<Block>, page: nat, n: nat): seq<Block> {
    if list == [] then []
    else (if list[0].page == page && list[0].index < n then [] else [list[0]]) + Without(list[1..], page, n)
  }

  lemma {:induction false} WithoutHas(list: seq<Block>, page: nat, n: nat, b: Block)
    ensures b in Without(list, page, n) <==> b in list && !(b.page == page && b.index < n)
  {
    if list != [] {
      WithoutHas(list[1..], page, n, b);
    }
  }

  lemma {:induction false} WithoutOnce(list: seq<Block>, page: nat, n: nat)
    requires Once(list)
    ensures Once(Without(list, page, n))
  {
    if list != [] {
      OnceTail(list);
      WithoutOnce(list[1..], page, n);
      WithoutHas(list[1..], page, n, list[0]);
    }
  }

  lemma {:induction false} WithoutNone(list: seq<Block>, page: nat)
    ensures Without(list, page, 0) == list
  {
    if list != [] {
      WithoutNone(list[1..], page);
    }
  }

  /** Removing the blocks of a page one by one. */
  lemma {:induction false} WithoutNext(list: seq<Block>, page: nat, n: nat)
    requires Once(list)
    ensures Minus(Without(list, page, n), Block(page, n)) == Without(list, page, n + 1)
  {
    if list != [] {
      OnceTail(list);
      WithoutNext(list[1..], page, n);
      var rest := Without(list[1..], page, n);
      assert ([list[0]] + rest)[1..] == rest && [] + rest == rest;
      if list[0] == Block(page, n) {
        WithoutSame(list[1..], page, n);
      }
    }
  }

  lemma {:induction false} WithoutSame(list: seq<Block>, page: nat, n: nat)
    requires Block(page, n) !in list
    ensures Without(list, page, n) == Without(list, page, n + 1)
  {
    if list != [] {
      WithoutSame(list[1..], page, n);
    }
  }

  lemma SubsetSize(a: set<nat>, b: set<nat>)
    requires a <= b && |a| == |b|
    ensures a == b
  {
    var c := b - a;
    assert b == a + c && |b| == |a| + |c|;
  }

  /** When the count says that all blocks are free, they are all on the list. */
  lemma AllIdle(list: seq<Block>, page: nat, n: nat, i: nat)
    requires |Idle(list, page, n)| == n && i < n
    ensures Block(page, i) in list
  {
    UpToSize(n);
    assert Idle(list, page, n) <= UpTo(n);
    SubsetSize(Idle(list, page, n), UpTo(n));
    assert i in Idle(list, page, n);
  }

  lemma DropLists(arenas: map<nat, Arena>, free: seq<seq<Block>>, p: nat, d: nat)
    requires Lists(arenas, free) && p in arenas && arenas[p].Small? && arenas[p].desc == d && d < DESCS
    ensures Lists(arenas - {p}, free[d := Without(free[d], p, PerArena(d))])
  {
    var arenas', free' := arenas - {p}, free[d := Without(free[d], p, PerArena(d))];
    forall e | 0 <= e < DESCS ensures ListOk(arenas', free'[e], e) {
      assert ListOk(arenas, free[e], e);
      WithoutOnce(free[d], p, PerArena(d));
      forall b | b in free'[e] ensures OfArena(arenas', b, e) {
        WithoutHas(free[d], p, PerArena(d), b);
      }
    }
  }

  lemma DropCounts(arenas: map<nat, Arena>, free: seq<seq<Block>>, p: nat, d: nat)
    requires Counts(arenas, free) && |free| == DESCS && d < DESCS
    ensures Counts(arenas - {p}, free[d := Without(free[d], p, PerArena(d))])
  {
    var free' := free[d := Without(free[d], p, PerArena(d))];
    forall q | q in arenas - {p} ensures CountOk(arenas[q], q, free') {
      assert CountOk(arenas[q], q, free);
      if arenas[q].Small? && arenas[q].desc == d {
        forall i | 0 <= i < PerArena(d) ensures Block(q, i) in free'[d] <==> Block(q, i) in free[d] {
          WithoutHas(free[d], p, PerArena(d), Block(q, i));
        }
        assert Idle(free'[d], q, PerArena(d)) == Idle(free[d], q, PerArena(d));
      }
    }
  }

  /** An arena whose blocks are all free has no block in use. */
  lemma NoneLive(arenas: map<nat, Arena>, free: seq<seq<Block>>, live: map<nat, Live>, p: nat, x: nat)
    requires |free| == DESCS && Lives(arenas, free, live) && Counts(arenas, free)
    requires p in arenas && arenas[p].Small? && arenas[p].desc < DESCS && arenas[p].free == PerArena(arenas[p].desc)
    requires x in live
    ensures live[x].at.page != p
  {
    var d, b := arenas[p].desc, live[x].at;
    assert Placed(arenas, x, live[x]) && CountOk(arenas[p], p, free);
    assert OfArena(arenas, b, d) ==> OneSide(b, d, free, live);
    if b.page == p {
      AllIdle(free[d], p, PerArena(d), b.index);
    }
  }

  lemma DropLives(arenas: map<nat, Arena>, free: seq<seq<Block>>, live: map<nat, Live>, p: nat, d: nat)
    requires |free| == DESCS && Lives(arenas, free, live) && Counts(arenas, free)
    requires d < DESCS && p in arenas && arenas[p] == Small(d, PerArena(d))
    ensures Lives(arenas - {p}, free[d := Without(free[d], p, PerArena(d))], live)
  {
    var arenas', free' := arenas - {p}, free[d := Without(free[d], p, PerArena(d))];
    forall x | x in live ensures Placed(arenas', x, live[x]) {
      assert Placed(arenas, x, live[x]);
      NoneLive(arenas, free, live, p, x);
    }
    forall b, e | OfArena(arenas', b, e) ensures OneSide(b, e, free', live) {
      assert OfArena(arenas, b, e) && OneSide(b, e, free, live);
      WithoutHas(free[d], p, PerArena(d), b);
    }
  }

  // --- big blocks ----------------------------------------------------------------

  /** The pages `malloc` asks for when `size` is too big for a block: the sums are
      taken modulo 2^32. */
  function PagesFor(size: nat): nat {
    ((size + HEADER) % WORD_RANGE + PAGE_SIZE - 1) % WORD_RANGE / PAGE_SIZE
  }

  /** The pages hold the block and its header exactly when the first sum does not
      wrap. A request of 2^32 - 1 bytes gets one page. */
  lemma PagesForFits(size: nat)
    requires size < WORD_RANGE && PagesFor(size) > 0
    ensures size + HEADER <= PagesFor(size) * PAGE_SIZE <==> size < WORD_RANGE - HEADER + 1
    ensures PagesFor(0xFFFF_FFFF) == 1
  {
    assert (0xFFFF_FFFF + HEADER) % WORD_RANGE == 11;
  }

  lemma BigOk(arenas: map<nat, Arena>, free: seq<seq<Block>>, live: map<nat, Live>, p: nat, n: nat, size: nat)
    requires Lists(arenas, free) && Counts(arenas, free) && Lives(arenas, free, live) && p !in arenas && n > 0
    requires size + HEADER <= n * PAGE_SIZE <==> size < WORD_RANGE - HEADER + 1
    ensures BigAddress(p) !in live
    ensures Lists(arenas[p := Big(n)], free) && Counts(arenas[p := Big(n)], free)
    ensures Lives(arenas[p := Big(n)], free, live[BigAddress(p) := Live(Block(p, 0), size)])
  {
    var arenas', live' := arenas[p := Big(n)], live[BigAddress(p) := Live(Block(p, 0), size)];
    BigInPage(p);
    NothingThere(arenas, free, live, BigAddress(p));
    forall e | 0 <= e < DESCS ensures ListOk(arenas', free[e], e) {
      assert ListOk(arenas, free[e], e);
    }
    forall q | q in arenas' ensures CountOk(arenas'[q], q, free) {
      assert q in arenas ==> CountOk(arenas[q], q, free);
    }
    forall x | x in live' ensures Placed(arenas', x, live'[x]) {
      assert x in live ==> Placed(arenas, x, live[x]);
    }
    forall b, e | OfArena(arenas', b, e) ensures OneSide(b, e, free, live') {
      assert OfArena(arenas, b, e) && OneSide(b, e, free, live);
      BlockInPage(b, e);
    }
  }

  lemma BigGone(arenas: map<nat, Arena>, free: seq<seq<Block>>, live: map<nat, Live>, p: nat)
    requires Lists(arenas, free) && Counts(arenas, free) && Lives(arenas, free, live) && p in arenas && arenas[p].Big?
    ensures Lists(arenas - {p}, free) && Counts(arenas - {p}, free)
    ensures Lives(arenas - {p}, free, live - {BigAddress(p)})
  {
    var arenas', live' := arenas - {p}, live - {BigAddress(p)};
    BigInPage(p);
    forall e | 0 <= e < DESCS ensures ListOk(arenas', free[e], e) {
      assert ListOk(arenas, free[e], e);
    }
    forall q | q in arenas' ensures CountOk(arenas'[q], q, free) {
      assert CountOk(arenas[q], q, free);
    }
    forall x | x in live' ensures Placed(arenas', x, live'[x]) {
      assert Placed(arenas, x, live[x]);
    }
    forall b, e | OfArena(arenas', b, e) ensures OneSide(b, e, free, live') {
      assert OfArena(arenas, b, e) && OneSide(b, e, free, live);
      BlockInPage(b, e);
    }
    forall q | q in arenas' && arenas'[q].Big? ensures BigAddress(q) in live' {
      BigInPage(q);
    }
  }

  // --- pages -----------------------------------------------------------------------

  lemma AddPages(arenas: map<nat, Arena>, out: set<nat>, others: set<nat>, lo: nat, hi: nat, p: nat, a: Arena)
    requires PagesOk(arenas, out, others, lo, hi) && Span(p, Extent(a)) !! out && lo <= p < p + Extent(a) <= hi
    ensures p !in arenas
    ensures PagesOk(arenas[p := a], out + Span(p, Extent(a)), others, lo, hi)
  {
    assert InSpan(p, p, Extent(a)) && p in Span(p, Extent(a));
    assert p in arenas ==> Holds(arenas, p, p);
    var arenas' := arenas[p := a];
    forall q, page
      ensures Holds(arenas', q, page) <==> Holds(arenas, q, page) || (q == p && page in Span(p, Extent(a)))
    {
    }
    forall page | page in out + Span(p, Extent(a)) && page !in others ensures exists q :: Holds(arenas', q, page) {
      if page in out {
        var q :| Holds(arenas, q, page);
        assert Holds(arenas', q, page);
      } else {
        assert Holds(arenas', p, page);
      }
    }
  }

  lemma DropPages(arenas: map<nat, Arena>, out: set<nat>, others: set<nat>, lo: nat, hi: nat, p: nat)
    requires PagesOk(arenas, out, others, lo, hi) && p in arenas
    ensures Span(p, Extent(arenas[p])) <= out
    ensures PagesOk(arenas - {p}, out - Span(p, Extent(arenas[p])), others, lo, hi)
  {
    var arenas' := arenas - {p};
    forall page ensures page in Span(p, Extent(arenas[p])) <==> Holds(arenas, p, page) {
    }
    forall q, page ensures Holds(arenas', q, page) <==> Holds(arenas, q, page) && q != p {
    }
    forall page | page in out - Span(p, Extent(arenas[p])) && page !in others
      ensures exists q :: Holds(arenas', q, page)
    {
      var q :| Holds(arenas, q, page);
      assert Holds(arenas', q, page);
    }
  }

  lemma SamePages(arenas: map<nat, Arena>, out: set<nat>, others: set<nat>, lo: nat, hi: nat, p: nat, d: nat, n: nat)
    requires PagesOk(arenas, out, others, lo, hi) && p in arenas && arenas[p].Small?
    ensures PagesOk(arenas[p := Small(d, n)], out, others, lo, hi)
  {
    var arenas' := arenas[p := Small(d, n)];
    forall q, page ensures Holds(arenas', q, page) == Holds(arenas, q, page) {
    }
    forall page | page in out && page !in others ensures exists q :: Holds(arenas', q, page) {
      var q :| Holds(arenas, q, page);
      assert Holds(arenas', q, page);
    }
  }

  // --- malloc and free -----------------------------------------------------------------

  ghost predicate BlocksOk(arenas: map<nat, Arena>, free: seq<seq<Block>>, live: map<nat, Live>, except: int) {
    Lists(arenas, free) && Counts(arenas, free) && Lives(arenas, free, live) && Partly(arenas, except)
  }

  lemma NewKeeps(arenas: map<nat, Arena>, free: seq<seq<Block>>, live: map<nat, Live>, p: nat, d: nat)
    requires BlocksOk(arenas, free, live, -1) && p !in arenas && d < DESCS && free[d] == []
    ensures BlocksOk(arenas[p := Small(d, PerArena(d))], free[d := Cut(p, PerArena(d))], live, p)
  {
    NewLists(arenas, free, p, d);
    NewCounts(arenas, free, p, d);
    NewLives(arenas, free, live, p, d);
  }

  lemma PopKeeps(arenas: map<nat, Arena>, free: seq<seq<Block>>, live: map<nat, Live>, d: nat, size: nat)
    requires d < DESCS && |free| == DESCS && free[d] != [] && size <= BlockSize(d)
    requires BlocksOk(arenas, free, live, free[d][0].page)
    ensures var b := free[d][0];
      && OfArena(arenas, b, d) && arenas[b.page].free > 0 && Address(b, d) !in live
      && BlocksOk(arenas[b.page := Small(d, arenas[b.page].free - 1)], free[d := free[d][1..]],
                  live[Address(b, d) := Live(b, size)], -1)
  {
    var b := free[d][0];
    PopCounts(arenas, free, d);
    var n := arenas[b.page].free - 1;
    PopLists(arenas, free, d, n);
    PopLives(arenas, free, live, d, n, size);
    assert CountOk(arenas[b.page], b.page, free);
    IdleBound(free[d], b.page, PerArena(d));
  }

  lemma PushPartly(arenas: map<nat, Arena>, p: nat, d: nat, n: nat)
    requires Partly(arenas, -1)
    ensures Partly(arenas[p := Small(d, n)], p)
  {
  }

  lemma PushKeeps(arenas: map<nat, Arena>, free: seq<seq<Block>>, live: map<nat, Live>, b: Block, d: nat)
    requires BlocksOk(arenas, free, live, -1) && OfArena(arenas, b, d) && Address(b, d) in live
    ensures BlocksOk(arenas[b.page := Small(d, arenas[b.page].free + 1)], free[d := [b] + free[d]],
                     live - {Address(b, d)}, b.page)
  {
    PushLives(arenas, free, live, b, d, arenas[b.page].free + 1);
    PushLists(arenas, free, b, d, arenas[b.page].free + 1);
    PushCounts(arenas, free, b, d);
    PushPartly(arenas, b.page, d, arenas[b.page].free + 1);
  }

  lemma PushedKeeps(arenas: map<nat, Arena>, free: seq<seq<Block>>, live: map<nat, Live>, b: Block, d: nat,
                    arenas': map<nat, Arena>, lists: seq<seq<Block>>, used: map<nat, Live>)
    requires BlocksOk(arenas, free, live, -1) && OfArena(arenas, b, d) && Address(b, d) in live
    requires arenas' == arenas[b.page := Small(d, arenas[b.page].free + 1)]
    requires lists == free[d := [b] + free[d]] && used == live - {Address(b, d)}
    ensures BlocksOk(arenas', lists, used, b.page)
  {
    PushKeeps(arenas, free, live, b, d);
  }

  lemma DropKeeps(arenas: map<nat, Arena>, free: seq<seq<Block>>, live: map<nat, Live>, p: nat, d: nat)
    requires BlocksOk(arenas, free, live, p) && d < DESCS && p in arenas && arenas[p] == Small(d, PerArena(d))
    ensures BlocksOk(arenas - {p}, free[d := Without(free[d], p, PerArena(d))], live, -1)
  {
    DropLists(arenas, free, p, d);
    DropCounts(arenas, free, p, d);
    DropLives(arenas, free, live, p, d);
  }

  lemma IdleBound(list: seq<Block>, page: nat, n: nat)
    ensures |Idle(list, page, n)| <= n
  {
    UpToSize(n);
    SubsetAtMost(Idle(list, page, n), UpTo(n));
  }

  lemma SubsetAtMost(a: set<nat>, b: set<nat>)
    requires a <= b
    ensures |a| <= |b|
  {
    assert b == a + (b - a);
  }

  lemma CutFirst(page: nat, n: nat)
    requires n > 0
    ensures Cut(page, n) != [] && Cut(page, n)[0] == Block(page, 0)
  {
  }

  /** The blocks of a new arena, in the order they go on the list. */
  method CutPage(page: nat, d: nat) returns (list: seq<Block>)
    requires d < DESCS
    ensures list == Cut(page, PerArena(d)) && list != [] && list[0] == Block(page, 0)
  {
    CutFirst(page, PerArena(d));
    list := [];
    var i := 0;
    while i < PerArena(d)
      invariant i <= PerArena(d) && list == Cut(page, i)
    {
      list := list + [Block(page, i)];
      i := i + 1;
    }
  }

  /** The loop of `free` that takes the blocks of an arena off the list. */
  method Uncut(list: seq<Block>, page: nat, d: nat) returns (rest: seq<Block>)
    requires d < DESCS && Once(list)
    ensures rest == Without(list, page, PerArena(d))
  {
    rest := list;
    WithoutNone(list, page);
    var i := 0;
    while i < PerArena(d)
      invariant i <= PerArena(d) && rest == Without(list, page, i)
    {
      WithoutNext(list, page, i);
      rest := Minus(rest, Block(page, i));
      i := i + 1;
    }
  }

  /** `size` is the product of `a` and `b` exactly when that fits in 32 bits. */
  predicate ProductIf(size: nat, a: nat, b: nat) {
    size == a * b <==> a * b < WORD_RANGE
  }

  method Product(a: nat, b: nat) returns (size: nat)
    ensures size == a * b % WORD_RANGE < WORD_RANGE && ProductIf(size, a, b)
  {
    size := a * b % WORD_RANGE;
  }

  /** Descriptor `d` is the smallest one for `size` bytes. */
  predicate IsDescFor(d: nat, size: nat) {
    d < DESCS && 0 < size <= BlockSize(d) && (d > 0 ==> BlockSize(d - 1) < size)
  }

  lemma {:induction false} SizesGrow(d: nat, e: nat)
    requires d <= e < DESCS
    ensures BlockSize(d) <= BlockSize(e)
    decreases e
  {
    if d < e {
      SizesGrow(d, e - 1);
    }
  }

  /** What the search for a descriptor finds is the smallest one, and there is only
      one such. */
  lemma PickIs(size: nat, d: nat)
    requires size > 0 && d <= DESCS && (d < DESCS ==> size <= BlockSize(d))
    requires forall e | 0 <= e < d :: BlockSize(e) < size
    ensures d == DESCS <==> size > BlockSize(DESCS - 1)
    ensures forall e: nat | e < DESCS :: IsDescFor(e, size) <==> e == d
  {
    forall e: nat | e < DESCS ensures IsDescFor(e, size) <==> e == d {
      if d < e {
        SizesGrow(d, e - 1);
      }
    }
    if d < DESCS {
      SizesGrow(d, DESCS - 1);
    }
  }

  /** Somebody else takes pages that were free. */
  lemma OthersTake(arenas: map<nat, Arena>, out: set<nat>, others: set<nat>, lo: nat, hi: nat, s: set<nat>)
    requires PagesOk(arenas, out, others, lo, hi) && s !! out
    ensures PagesOk(arenas, out + s, others + s, lo, hi)
  {
  }

  /** Somebody else gives pages back. */
  lemma OthersGive(arenas: map<nat, Arena>, out: set<nat>, others: set<nat>, lo: nat, hi: nat, s: set<nat>)
    requires PagesOk(arenas, out, others, lo, hi) && s <= others
    ensures PagesOk(arenas, out - s, others - s, lo, hi)
  {
  }

  class Heap {
    const pages: Pages
    var arenas: map<nat, Arena>
    var free: seq<seq<Block>>
    ghost var live: map<nat, Live>
    /** The pages that are in use by others than the heap. */
    ghost var others: set<nat>

    ghost predicate PagesValid()
      reads this`arenas, this`others, pages, pages.kernel, pages.user, pages.kernel.usedMap, pages.user.usedMap
      reads pages.kernel.usedMap.words, pages.user.usedMap.words
    {
      && pages.Valid()
      && PagesOk(arenas, pages.Out(), others, pages.kernel.base, pages.kernel.base + pages.kernel.usedMap.size)
    }

    ghost predicate Valid()
      reads this, pages, pages.kernel, pages.user, pages.kernel.usedMap, pages.user.usedMap
      reads pages.kernel.usedMap.words, pages.user.usedMap.words
    {
      PagesValid() && Blocks(-1)
    }

    /** The blocks are in order, but that arena `p` may be entirely unused. */
    ghost predicate Blocks(p: int)
      reads this
    {
      BlocksOk(arenas, free, live, p)
    }

    /** `malloc_init`. */
    constructor (p: Pages)
      requires p.Valid()
      ensures Valid() && live == map[] && pages == p && others == p.Out()
    {
      pages, arenas, free, live, others := p, map[], seq(DESCS, _ => []), map[], p.Out();
    }

    /** The smallest descriptor whose blocks hold `size` bytes. */
    method Pick(size: nat) returns (d: nat)
      ensures d <= DESCS && (d < DESCS ==> size <= BlockSize(d))
      ensures forall e | 0 <= e < d :: BlockSize(e) < size
    {
      d := 0;
      while d < DESCS && BlockSize(d) < size
        invariant d <= DESCS && forall e | 0 <= e < d :: BlockSize(e) < size
      {
        d := d + 1;
      }
    }

    /** There is no run of `n` free pages in the kernel pool. */
    ghost predicate NoRoom(n: nat)
      requires pages.Valid()
      reads this, pages, pages.kernel, pages.user, pages.kernel.usedMap, pages.user.usedMap
      reads pages.kernel.usedMap.words, pages.user.usedMap.words
    {
      forall p: nat | pages.kernel.base <= p && p + n <= pages.kernel.base + pages.kernel.usedMap.size ::
        Span(p, n) * pages.Out() != {}
    }

    /** A request of `size` bytes cannot be met: it is for nothing, or there is
        neither a block on the list of its descriptor nor a page for an arena, or
        there are not enough pages together. */
    ghost predicate Denied(size: nat)
      requires pages.Valid() && |free| == DESCS
      reads this, pages, pages.kernel, pages.user, pages.kernel.usedMap, pages.user.usedMap
      reads pages.kernel.usedMap.words, pages.user.usedMap.words
    {
      || size == 0
      || (size > BlockSize(DESCS - 1) && (PagesFor(size) == 0 || NoRoom(PagesFor(size))))
      || (exists d :: 0 <= d < DESCS && IsDescFor(d, size) && free[d] == [] && NoRoom(1))
    }

    /** Pages for a new arena `a`, which is not yet one. */
    method Obtain(a: Arena) returns (page: nat)
      requires PagesValid() && Extent(a) > 0
      modifies this`arenas, pages.kernel.usedMap.words, pages.user.usedMap.words
      ensures PagesValid()
      ensures page == 0 <==> old(NoRoom(Extent(a)))
      ensures page == 0 ==> arenas == old(arenas) && pages.Out() == old(pages.Out())
      ensures page != 0 ==> page !in old(arenas) && arenas == old(arenas)[page := a]
    {
      page := pages.GetMultiple(false, Extent(a));
      if page != 0 {
        assert InSpan(page, page, Extent(a)) && page in Span(page, Extent(a));
        assert InSpan(page + Extent(a) - 1, page, Extent(a)) && page + Extent(a) - 1 in Span(page, Extent(a));
        AddPages(arenas, old(pages.Out()), others, pages.kernel.base,
                 pages.kernel.base + pages.kernel.usedMap.size, page, a);
        arenas := arenas[page := a];
      }
    }

    /** An arena's pages go back. */
    method GiveBack(page: nat)
      requires PagesValid() && page in arenas
      modifies this`arenas, pages.kernel.usedMap.words, pages.user.usedMap.words
      ensures PagesValid() && arenas == old(arenas) - {page}
    {
      DropPages(arenas, pages.Out(), others, pages.kernel.base, pages.kernel.base + pages.kernel.usedMap.size, page);
      pages.FreeMultiple(page, Extent(arenas[page]));
      arenas := arenas - {page};
    }

    /** `free_cnt` of an arena is set, and the lists with it. */
    method Update(page: nat, d: nat, n: nat, lists: seq<seq<Block>>, ghost used: map<nat, Live>)
      requires PagesValid() && page in arenas && arenas[page].Small?
      modifies this`arenas, this`free, this`live
      ensures PagesValid() && arenas == old(arenas)[page := Small(d, n)] && free == lists && live == used
    {
      SamePages(arenas, pages.Out(), others, pages.kernel.base,
                pages.kernel.base + pages.kernel.usedMap.size, page, d, n);
      arenas, free, live := arenas[page := Small(d, n)], lists, used;
    }

    /** The first block of list `d` is handed out. */
    method Pop(d: nat, size: nat) returns (x: nat)
      requires PagesValid() && d < DESCS && |free| == DESCS && free[d] != []
      requires Blocks(free[d][0].page) && size <= BlockSize(d)
      modifies this`arenas, this`free, this`live
      ensures Valid() && x !in old(live) && x > 0 && live == old(live)[x := Live(old(free)[d][0], size)]
    {
      var b := free[d][0];
      PopKeeps(arenas, free, live, d, size);
      x := Address(b, d);
      var n, lists := arenas[b.page].free - 1, free[d := free[d][1..]];
      ghost var used := live[x := Live(b, size)];
      ghost var arenas' := arenas[b.page := Small(d, n)];
      assert BlocksOk(arenas', lists, used, -1);
      Update(b.page, d, n, lists, used);
      assert arenas == arenas';
    }

    /** A page is cut into blocks for the empty list `d`. */
    method NewArena(d: nat) returns (ok: bool)
      requires Valid() && d < DESCS && free[d] == []
      modifies this`arenas, this`free, pages.kernel.usedMap.words, pages.user.usedMap.words
      ensures PagesValid() && (ok <==> !old(NoRoom(1)))
      ensures !ok ==> arenas == old(arenas) && free == old(free) && pages.Out() == old(pages.Out())
      ensures ok ==> |free| == DESCS && free[d] != [] && Blocks(free[d][0].page)
    {
      var page := Obtain(Small(d, PerArena(d)));
      ok := page != 0;
      if ok {
        NewKeeps(old(arenas), free, live, page, d);
        var list := CutPage(page, d);
        free := free[d := list];
      }
    }

    method MallocSmall(size: nat, d: nat) returns (x: nat)
      requires Valid() && d < DESCS && size <= BlockSize(d)
      modifies this`arenas, this`free, this`live, pages.kernel.usedMap.words, pages.user.usedMap.words
      ensures Valid()
      ensures x == 0 <==> old(free[d] == [] && NoRoom(1))
      ensures x == 0 ==> live == old(live) && arenas == old(arenas) && pages.Out() == old(pages.Out())
      ensures x != 0 ==> x !in old(live) && x in live && live == old(live)[x := live[x]] && live[x].size == size
    {
      x := 0;
      var ok := true;
      if free[d] == [] {
        ok := NewArena(d);
      }
      if ok {
        x := Pop(d, size);
      }
    }

    method MallocBig(size: nat) returns (x: nat)
      requires Valid() && size < WORD_RANGE
      modifies this`arenas, this`free, this`live, pages.kernel.usedMap.words, pages.user.usedMap.words
      ensures Valid()
      ensures x == 0 ==> live == old(live) && arenas == old(arenas) && pages.Out() == old(pages.Out())
      ensures x == 0 <==> PagesFor(size) == 0 || old(NoRoom(PagesFor(size)))
      ensures x != 0 ==> x !in old(live) && x in live && live == old(live)[x := live[x]] && live[x].size == size
    {
      x := 0;
      var n := PagesFor(size);
      if n > 0 {
        var page := Obtain(Big(n));
        if page != 0 {
          PagesForFits(size);
          BigOk(old(arenas), free, live, page, n, size);
          x := BigAddress(page);
          live := live[x := Live(Block(page, 0), size)];
        }
      }
    }

    /** `malloc`: null exactly if the request cannot be met, or a block that was not
        in use. */
    method Malloc(size: nat) returns (x: nat)
      requires Valid() && size < WORD_RANGE
      modifies this`arenas, this`free, this`live, pages.kernel.usedMap.words, pages.user.usedMap.words
      ensures Valid()
      ensures x == 0 <==> old(Denied(size))
      ensures x == 0 ==> live == old(live) && arenas == old(arenas) && pages.Out() == old(pages.Out())
      ensures x != 0 ==> x !in old(live) && x in live && live == old(live)[x := live[x]] && live[x].size == size
    {
      x := 0;
      if size > 0 {
        var d := Pick(size);
        PickIs(size, d);
        if d == DESCS {
          x := MallocBig(size);
        } else {
          x := MallocSmall(size, d);
        }
      }
    }

    method FreeSmall(x: nat, d: nat)
      requires Valid() && x in live && live[x].at.page in arenas && d < DESCS
      requires arenas[live[x].at.page].Small? && arenas[live[x].at.page].desc == d
      modifies this`arenas, this`free, this`live, pages.kernel.usedMap.words, pages.user.usedMap.words
      ensures Valid() && live == old(live) - {x}
    {
      assert Placed(arenas, x, live[x]);
      ghost var at := live[x].at;
      BlockInPage(at, d);
      var b := Block(x / PAGE_SIZE, IndexOf(x, d));
      assert b == at;
      Push(b, d);
      Reclaim(b.page, d);
    }

    /** A block goes to the front of its list. */
    method Push(b: Block, d: nat)
      requires Valid() && OfArena(arenas, b, d) && Address(b, d) in live
      modifies this`arenas, this`free, this`live
      ensures PagesValid() && live == old(live) - {Address(b, d)}
      ensures Blocks(b.page)
      ensures b.page in arenas && arenas[b.page].Small? && arenas[b.page].desc == d
    {
      ghost var arenas' := arenas[b.page := Small(d, arenas[b.page].free + 1)];
      ghost var used := live - {Address(b, d)};
      var lists := free[d := [b] + free[d]];
      PushedKeeps(arenas, free, live, b, d, arenas', lists, used);
      Update(b.page, d, arenas[b.page].free + 1, lists, used);
      assert arenas == arenas';
    }

    /** The end of `free`: the arena goes back if it is entirely unused. */
    method Reclaim(page: nat, d: nat)
      requires PagesValid() && Blocks(page) && d < DESCS
      requires page in arenas && arenas[page].Small? && arenas[page].desc == d
      modifies this`arenas, this`free, this`live, pages.kernel.usedMap.words, pages.user.usedMap.words
      ensures Valid() && live == old(live)
    {
      assert CountOk(arenas[page], page, free);
      IdleBound(free[d], page, PerArena(d));
      if arenas[page].free >= PerArena(d) {
        DropKeeps(arenas, free, live, page, d);
        assert ListOk(arenas, free[d], d);
        var rest := Uncut(free[d], page, d);
        free := free[d := rest];
        GiveBack(page);
      }
    }

    /** `free`. */
    method Free(x: nat)
      requires Valid() && (x == 0 || x in live)
      modifies this`arenas, this`free, this`live, pages.kernel.usedMap.words, pages.user.usedMap.words
      ensures Valid() && live == if x == 0 then old(live) else old(live) - {x}
    {
      if x != 0 {
        PlacedPage(arenas, x, live[x]);
        var page := x / PAGE_SIZE;
        match arenas[page]
        case Small(d, _) => FreeSmall(x, d);
        case Big(_) =>
          BigGone(arenas, free, live, page);
          live := live - {x};
          GiveBack(page);
      }
    }

    /** `calloc`, without the clearing: the product is taken modulo 2^32 and the
        result is null if that is below either factor. */
    method Calloc(a: nat, b: nat) returns (x: nat)
      requires Valid() && a < WORD_RANGE && b < WORD_RANGE
      modifies this`arenas, this`free, this`live, pages.kernel.usedMap.words, pages.user.usedMap.words
      ensures Valid()
      ensures var size := a * b % WORD_RANGE; x == 0 <==> size < a || size < b || old(Denied(size))
      ensures x == 0 ==> live == old(live) && arenas == old(arenas) && pages.Out() == old(pages.Out())
      ensures x != 0 ==>
        && x !in old(live) && x in live && live == old(live)[x := live[x]]
        && live[x].size == a * b % WORD_RANGE && ProductIf(live[x].size, a, b)
    {
      var size := Product(a, b);
      x := 0;
      if a <= size && b <= size {
        x := Malloc(size);
      }
    }

    /** Other kernel code takes pages, as the page allocator lets it. */
    method TakeOutside(asUser: bool, count: nat) returns (page: nat)
      requires Valid()
      modifies this`others, pages.kernel.usedMap.words, pages.user.usedMap.words
      ensures Valid()
      ensures page == 0 ==> others == old(others) && pages.Out() == old(pages.Out())
      ensures page != 0 ==>
        && count > 0 && Span(page, count) !! old(pages.Out()) && others == old(others) + Span(page, count)
        && forall p | p in Span(page, count) :: if asUser then pages.user.Has(p) else pages.kernel.Has(p)
    {
      ghost var out := pages.Out();
      page := pages.GetMultiple(asUser, count);
      if page != 0 {
        OthersTake(arenas, out, others, pages.kernel.base, pages.kernel.base + pages.kernel.usedMap.size,
                   Span(page, count));
        others := others + Span(page, count);
      }
    }

    /** Other kernel code gives back pages of its own. */
    method ReturnOutside(page: nat, count: nat)
      requires Valid() && page != 0 && count > 0 && Span(page, count) <= others
      requires pages.kernel.Has(page) ==> page + count <= pages.kernel.base + pages.kernel.usedMap.size
      modifies this`others, pages.kernel.usedMap.words, pages.user.usedMap.words
      ensures Valid() && others == old(others) - Span(page, count)
    {
      OthersGive(arenas, pages.Out(), others, pages.kernel.base, pages.kernel.base + pages.kernel.usedMap.size,
                 Span(page, count));
      pages.FreeMultiple(page, count);
      others := others - Span(page, count);
    }

    /** `realloc`, without the copying: the new block is made before the old one
        is freed, which stays if that fails. */
    method Realloc(x: nat, size: nat) returns (y: nat)
      requires Valid() && (x == 0 || x in live) && size < WORD_RANGE
      modifies this`arenas, this`free, this`live, pages.kernel.usedMap.words, pages.user.usedMap.words
      ensures Valid()
      ensures y == 0 <==> old(Denied(size))
      ensures size == 0 ==> y == 0 && live == if x == 0 then old(live) else old(live) - {x}
      ensures size > 0 && y == 0 ==> live == old(live)
      ensures y != 0 ==>
        && y !in old(live) && y in live && live[y].size == size
        && live == old(live)[y := live[y]] - if x == 0 then {} else {x}
    {
      if size == 0 {
        Free(x);
        return 0;
      }
      y := Malloc(size);
      if x != 0 && y != 0 {
        Free(x);
      }
    }
  }

  /** The test in `calloc` does not find every product that does not fit. */
  lemma CallocMisses()
    ensures var a, b := 0x1_0001, 0x1_0001;
      var size := a * b % WORD_RANGE;
      a * b >= WORD_RANGE && a <= size && b <= size && size == 0x2_0001
  {
    assert 0x1_0001 * 0x1_0001 == WORD_RANGE + 0x2_0001;
  }

  // --- what callers may rely on ----------------------------------------------------------

  /** The bytes a block in use has. */
  function Capacity(a: Arena): nat
    requires a.Small? ==> a.desc < DESCS
    requires a.Big? ==> a.pages > 0
  {
    if a.Small? then BlockSize(a.desc) else a.pages * PAGE_SIZE - HEADER
  }

  /** A block in use starts clear of the header of its arena, ends inside the
      arena's pages, and is as big as was asked for unless that is within 11 of
      2^32. */
  lemma BlockIsGood(arenas: map<nat, Arena>, free: seq<seq<Block>>, live: map<nat, Live>, x: nat)
    requires BlocksOk(arenas, free, live, -1) && x in live
    ensures var p := live[x].at.page;
      && p in arenas && (arenas[p].Small? ==> arenas[p].desc < DESCS) && (arenas[p].Big? ==> arenas[p].pages > 0)
      && p * PAGE_SIZE + HEADER <= x && x + Capacity(arenas[p]) <= (p + Extent(arenas[p])) * PAGE_SIZE
      && (live[x].size < WORD_RANGE - HEADER + 1 ==> live[x].size <= Capacity(arenas[p]))
  {
    var l := live[x];
    assert Placed(arenas, x, l) && CountOk(arenas[l.at.page], l.at.page, free);
    match arenas[l.at.page]
    case Small(d, _) => BlockInPage(l.at, d);
    case Big(_) => BigInPage(l.at.page);
  }

  /** Different blocks in use do not overlap. */
  lemma BlocksDisjoint(arenas: map<nat, Arena>, free: seq<seq<Block>>, live: map<nat, Live>,
                       out: set<nat>, others: set<nat>, lo: nat, hi: nat, x: nat, y: nat)
    requires BlocksOk(arenas, free, live, -1) && PagesOk(arenas, out, others, lo, hi)
    requires x in live && y in live && x != y
    ensures live[x].at.page in arenas && live[y].at.page in arenas
    ensures CountOk(arenas[live[x].at.page], live[x].at.page, free)
    ensures CountOk(arenas[live[y].at.page], live[y].at.page, free)
    ensures || x + Capacity(arenas[live[x].at.page]) <= y
            || y + Capacity(arenas[live[y].at.page]) <= x
  {
    var p, q := live[x].at.page, live[y].at.page;
    assert Placed(arenas, x, live[x]) && Placed(arenas, y, live[y]);
    assert CountOk(arenas[p], p, free) && CountOk(arenas[q], q, free);
    if p == q {
      BlocksApart(live[x].at, live[y].at, arenas[p].desc);
    } else {
      BlockIsGood(arenas, free, live, x);
      BlockIsGood(arenas, free, live, y);
      ArenasApart(arenas, out, others, lo, hi, p, q);
    }
  }

  lemma ArenasApart(arenas: map<nat, Arena>, out: set<nat>, others: set<nat>, lo: nat, hi: nat, p: nat, q: nat)
    requires PagesOk(arenas, out, others, lo, hi) && p in arenas && q in arenas && p != q
    ensures p + Extent(arenas[p]) <= q || q + Extent(arenas[q]) <= p
  {
    assert Holds(arenas, p, p) && Holds(arenas, q, q);
    assert !Holds(arenas, p, q) && !Holds(arenas, q, p);
  }

  /** Every arena has a block in use: a page goes back to the page allocator with
      the last of its blocks. */
  lemma ArenaHasLive(arenas: map<nat, Arena>, free: seq<seq<Block>>, live: map<nat, Live>, p: nat) returns (x: nat)
    requires BlocksOk(arenas, free, live, -1) && p in arenas
    ensures x in live && live[x].at.page == p
  {
    assert CountOk(arenas[p], p, free);
    match arenas[p] {
      case Small(d, n) =>
        UpToSize(PerArena(d));
        assert Idle(free[d], p, PerArena(d)) != UpTo(PerArena(d));
        var i :| i in UpTo(PerArena(d)) && i !in Idle(free[d], p, PerArena(d));
        var b := Block(p, i);
        assert OfArena(arenas, b, d) && OneSide(b, d, free, live);
        x := Address(b, d);
        assert Placed(arenas, x, live[x]);
        PlacedPage(arenas, x, live[x]);
        BlockInPage(b, d);
      case Big(_) =>
        x := BigAddress(p);
        assert Placed(arenas, x, live[x]);
        PlacedPage(arenas, x, live[x]);
        BigInPage(p);
    }
  }

  /** A page is an arena exactly while it has a block in use. */
  lemma ArenaIffLive(arenas: map<nat, Arena>, free: seq<seq<Block>>, live: map<nat, Live>, p: nat)
    requires BlocksOk(arenas, free, live, -1)
    ensures p in arenas <==> exists x :: x in live && live[x].at.page == p
  {
    if p in arenas {
      var x := ArenaHasLive(arenas, free, live, p);
    }
    if x :| x in live && live[x].at.page == p {
      assert Placed(arenas, x, live[x]);
    }
  }

  /** Freeing everything gives every page back. */
  lemma AllFreed(arenas: map<nat, Arena>, free: seq<seq<Block>>, live: map<nat, Live>,
                 out: set<nat>, others: set<nat>, lo: nat, hi: nat)
    requires BlocksOk(arenas, free, live, -1) && PagesOk(arenas, out, others, lo, hi) && live == map[]
    ensures arenas == map[] && out == others
  {
    forall p ensures p !in arenas {
      if p in arenas {
        var x := ArenaHasLive(arenas, free, live, p);
      }
    }
  }
}
