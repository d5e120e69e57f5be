/** Reading and writing the bytes of a file, one call at a time.

    A file is seen as `MAX_FILE_SIZE` bytes that are zero beyond its length. */
module InodeFile {
  import opened Common
  import opened Sectors
  import opened BlockTree
  import opened BufferCache
  import opened FreeMap
  import opened Losses
  import opened InodeResize

  const MAX_FILE_SIZE: nat := 512 * 128 * 128

  /** Byte `k` of the file with pointer slots `p`. */
  function View(flat: seq<Block>, p: Slots, k: nat): Byte
    requires k < MAX_FILE_SIZE
  {
    var s := p[129 + k / SECTOR_SIZE];
    if 0 < s < |flat| then flat[s][k % SECTOR_SIZE] else 0
  }

  ghost predicate SameView(flat: seq<Block>, p: Slots, flat': seq<Block>, p': Slots) {
    forall k | 0 <= k < MAX_FILE_SIZE :: View(flat', p', k) == View(flat, p, k)
  }

  function InodeIn(flat: seq<Block>, ino: nat): Inode
    requires ino < |flat|
  {
    InodeAt(flat[ino])
  }

  function FileSlots(flat: seq<Block>, ino: nat): Slots
    requires ino < |flat|
  {
    SlotsOf(flat, InodeIn(flat, ino).root)
  }

  /** The inode in sector `ino` is sound: its tree has exactly the sectors its
      length needs, its own sector is used and not part of the tree, and the
      bytes beyond its length are zero. */
  ghost predicate FileOk(flat: seq<Block>, bits: seq<bool>, ino: nat) {
    && |flat| == |bits| && ino < |flat| && bits[ino]
    && var d, p := InodeIn(flat, ino), FileSlots(flat, ino);
       && d.length <= MAX_FILE_SIZE
       && TreeOk(bits, p) && Settled(p, d.length) && !Owns(p, ino)
       && ZeroFrom(flat, p, d.length)
  }

  ghost predicate ZeroFrom(flat: seq<Block>, p: Slots, n: nat) {
    forall k | n <= k < MAX_FILE_SIZE :: View(flat, p, k) == 0
  }

  // --- what changes to the device do to a file -----------------------------

  /** Writing a sector that holds none of the file's tables keeps its slots. */
  lemma SlotsElsewhere(flat: seq<Block>, root: Word, s: nat, b: Block)
    requires s < |flat|
    requires forall a | 0 <= a < 129 :: SlotsOf(flat, root)[a] != s || s == 0
    ensures SlotsOf(flat[s := b], root) == SlotsOf(flat, root)
  {
    var p := SlotsOf(flat, root);
    var flat' := flat[s := b];
    assert p[0] == SlotAt(flat, root, 0);
    assert TableAt(flat', root) == TableAt(flat, root);
    forall a | 0 <= a < SLOTS ensures SlotAt(flat', root, a) == p[a] {
      assert p[a] == SlotAt(flat, root, a);
      if a >= 129 {
        var i := (a - 129) / 128;
        assert p[Leaf(i)] == SlotAt(flat, root, Leaf(i));
        assert TableAt(flat', p[Leaf(i)]) == TableAt(flat, p[Leaf(i)]);
      }
    }
  }

  /** Growing a file does not change what it looks like. */
  lemma GrowKeepsView(x: Start, y: Now, length: nat)
    requires Resized(x, y) && Settled(x.p, length) && length <= x.size
    ensures SameView(x.flat, x.p, y.flat, y.p)
  {
    forall k | 0 <= k < MAX_FILE_SIZE ensures View(y.flat, y.p, k) == View(x.flat, x.p, k) {
      var b := k / SECTOR_SIZE;
      ResizedData(x, y, b);
      if x.p[129 + b] != 0 {
        assert Need(129 + b, length);
      }
    }
  }

  /** Sector `s` holds byte `pos` of the file. */
  ghost predicate Holds(flat: seq<Block>, ino: nat, pos: nat, s: int) {
    && ino < |flat| && pos < MAX_FILE_SIZE
    && s == FileSlots(flat, ino)[129 + pos / SECTOR_SIZE] && 0 < s < |flat|
  }

  // --- reading -----------------------------------------------------------

  /** Where the file's sectors are, for a reader. */
  ghost predicate Readable(c: Cache, bits: seq<bool>, ino: nat)
    reads c
  {
    c.Valid() && |c.disk| == |bits| && FileOk(c.flat, bits, ino)
  }

  /** The mark stays where it is. */
  twostate predicate Marks(c: Cache)
    reads c
  {
    c.mark == old(c.mark) && c.loads >= old(c.loads)
  }

  /** `inode_length`. */
  method Length(c: Cache, ghost bits: seq<bool>, ino: nat) returns (n: nat)
    requires Readable(c, bits, ino)
    modifies c
    ensures c.Valid() && |c.disk| == old(|c.disk|) && c.flat == old(c.flat) && Marks(c)
    ensures n == InodeIn(c.flat, ino).length && Order(c.list) == Touch(old(Order(c.list)), ino)
  {
    var b := c.ReadBlock(ino);
    n := InodeAt(b).length;
  }

  /** The slots of a file, read off its two levels of tables. */
  lemma LookUp(flat: seq<Block>, bits: seq<bool>, ino: nat, pos: nat)
    requires FileOk(flat, bits, ino) && pos < InodeIn(flat, ino).length
    ensures var d, p := InodeIn(flat, ino), FileSlots(flat, ino);
      var b := pos / SECTOR_SIZE;
      && 0 < d.root < |flat|
      && 0 < TableAt(flat, d.root)[b / 128] < |flat|
      && TableAt(flat, TableAt(flat, d.root)[b / 128])[b % 128] == p[129 + b]
      && 0 < p[129 + b] < |flat|
      && p[0] == d.root && p[Leaf(b / 128)] == TableAt(flat, d.root)[b / 128]
  {
    var d, p := InodeIn(flat, ino), FileSlots(flat, ino);
    var b := pos / SECTOR_SIZE;
    assert Data(b / 128, b % 128) == 129 + b;
    SlotsRep(flat, d.root, b / 128, b % 128);
    assert Need(0, d.length) && Need(Leaf(b / 128), d.length) && Need(129 + b, d.length);
    assert p[0] == SlotAt(flat, d.root, 0);
  }

  /** The cache's list after the inode and the two tables of block `b` have been
      read. */
  function Searched(order: seq<nat>, ino: nat, p: Slots, b: nat): seq<nat> {
    Touch(Touch(Touch(order, ino), p[0]), if b < SLOTS - 129 then p[Leaf(b / NUM_POINTERS)] else 0)
  }

  /** `byte_to_sector`: the sector of byte `pos`, or -1 beyond the end. */
  method ByteToSector(c: Cache, ghost bits: seq<bool>, ino: nat, pos: nat) returns (s: int)
    requires Readable(c, bits, ino)
    modifies c
    ensures c.Valid() && |c.disk| == old(|c.disk|) && c.flat == old(c.flat) && Marks(c)
    ensures pos < InodeIn(c.flat, ino).length ==> Holds(c.flat, ino, pos, s)
    ensures pos >= InodeIn(c.flat, ino).length ==> s == -1
    ensures pos < InodeIn(c.flat, ino).length ==>
      Order(c.list) == Searched(old(Order(c.list)), ino, FileSlots(c.flat, ino), pos / SECTOR_SIZE)
  {
    var b := c.ReadBlock(ino);
    var d := InodeAt(b);
    if pos < d.length {
      LookUp(c.flat, bits, ino, pos);
      var level1 := pos / SECTOR_SIZE / NUM_POINTERS;
      var level2 := pos / SECTOR_SIZE % NUM_POINTERS;
      b := c.ReadBlock(d.root);
      var first := Pointers(b);
      b := c.ReadBlock(first[level1]);
      s := Pointers(b)[level2];
    } else {
      s := -1;
    }
  }

  function Min(a: int, b: int): int { if a < b then a else b }

  /** How many bytes are copied in one turn of the loops of `inode_read_at` and
      `inode_write_at`. */
  function Chunk(size: nat, length: nat, offset: nat): (n: int)
    ensures size > 0 ==> (n > 0 <==> offset < length)
    ensures n <= size && n <= length - offset && offset % SECTOR_SIZE + n <= SECTOR_SIZE
  {
    Min(size, Min(length - offset, SECTOR_SIZE - offset % SECTOR_SIZE))
  }

  /** Bytes `from` to `from + n` of a file. */
  function Bytes(flat: seq<Block>, p: Slots, from: nat, n: nat): seq<Byte>
    requires from + n <= MAX_FILE_SIZE
  {
    seq<Byte>(n, i requires 0 <= i < n => View(flat, p, from + i))
  }

  lemma SameSector(at: nat, i: nat)
    requires at % SECTOR_SIZE + i < SECTOR_SIZE
    ensures (at + i) / SECTOR_SIZE == at / SECTOR_SIZE
    ensures (at + i) % SECTOR_SIZE == at % SECTOR_SIZE + i
  {
  }

  /** `buf` is a stretch of the file from byte `from` on, inside its length. */
  ghost predicate IsStretch(flat: seq<Block>, ino: nat, from: nat, buf: seq<Byte>)
    requires ino < |flat| && InodeIn(flat, ino).length <= MAX_FILE_SIZE
  {
    if from < InodeIn(flat, ino).length then
      && from + |buf| <= InodeIn(flat, ino).length
      && buf == Bytes(flat, FileSlots(flat, ino), from, |buf|)
    else buf == []
  }

  /** A stretch of a file inside one sector. */
  lemma ChunkStretch(flat: seq<Block>, ino: nat, at: nat, n: nat, s: nat)
    requires ino < |flat| && InodeIn(flat, ino).length <= MAX_FILE_SIZE
    requires Holds(flat, ino, at, s) && n > 0 && at + n <= InodeIn(flat, ino).length
    requires at % SECTOR_SIZE + n <= SECTOR_SIZE
    ensures IsStretch(flat, ino, at, flat[s][at % SECTOR_SIZE..at % SECTOR_SIZE + n])
  {
    ChunkView(flat, FileSlots(flat, ino), at, n, s);
  }

  lemma ChunkView(flat: seq<Block>, p: Slots, at: nat, n: nat, s: nat)
    requires at + n <= MAX_FILE_SIZE && at % SECTOR_SIZE + n <= SECTOR_SIZE && n > 0
    requires s == p[129 + at / SECTOR_SIZE] && 0 < s < |flat|
    ensures Bytes(flat, p, at, n) == flat[s][at % SECTOR_SIZE..at % SECTOR_SIZE + n]
  {
    forall i | 0 <= i < n ensures Bytes(flat, p, at, n)[i] == flat[s][at % SECTOR_SIZE + i] {
      SameSector(at, i);
    }
  }

  lemma StretchThen(flat: seq<Block>, ino: nat, from: nat, at: nat, buf: seq<Byte>, part: seq<Byte>)
    requires ino < |flat| && InodeIn(flat, ino).length <= MAX_FILE_SIZE && at == from + |buf|
    requires IsStretch(flat, ino, from, buf) && IsStretch(flat, ino, at, part)
    ensures IsStretch(flat, ino, from, buf + part)
  {
  }

  /** The bytes of one sector that `inode_read_at` reads in one turn. */
  method ReadPart(c: Cache, ghost flat: seq<Block>, ghost bits: seq<bool>, ino: nat, n: nat, at: nat, s: nat)
    returns (buf: seq<Byte>)
    requires Readable(c, bits, ino) && c.flat == flat && n > 0 && at + n <= InodeIn(flat, ino).length
    requires at % SECTOR_SIZE + n <= SECTOR_SIZE && Holds(flat, ino, at, s)
    modifies c
    ensures c.Valid() && |c.disk| == |bits| && c.flat == flat
    ensures |buf| == n && IsStretch(flat, ino, at, buf)
  {
    ChunkStretch(flat, ino, at, n, s);
    buf := c.Read(s, n, at % SECTOR_SIZE);
  }

  /** One turn of the loop of `inode_read_at`. */
  method ReadChunk(c: Cache, ghost flat: seq<Block>, ghost bits: seq<bool>, ino: nat, size: nat, at: nat)
    returns (buf: seq<Byte>)
    requires Readable(c, bits, ino) && size > 0 && c.flat == flat
    modifies c
    ensures c.Valid() && |c.disk| == |bits| && c.flat == flat
    ensures IsStretch(flat, ino, at, buf) && |buf| <= size
    ensures buf == [] <==> at >= InodeIn(flat, ino).length
  {
    buf := [];
    var s := ByteToSector(c, bits, ino, at);
    if s != -1 {
      var length := Length(c, bits, ino);
      var chunk := Chunk(size, length, at);
      if chunk > 0 {
        buf := ReadPart(c, flat, bits, ino, chunk, at, s);
      }
    }
  }

  /** `inode_read_at`: exactly the bytes that are asked for and exist. */
  method ReadAt(c: Cache, ghost bits: seq<bool>, ino: nat, size: nat, offset: nat)
    returns (buf: seq<Byte>)
    requires Readable(c, bits, ino)
    modifies c
    ensures c.Valid() && |c.disk| == old(|c.disk|) && c.flat == old(c.flat)
    ensures IsStretch(c.flat, ino, offset, buf)
    ensures var n := InodeIn(c.flat, ino).length;
      |buf| == if offset < n then Min(size, n - offset) else 0
  {
    buf := [];
    var left, at := size, offset;
    ghost var flat := c.flat;
    while left > 0
      invariant c.Valid() && |c.disk| == |bits| && c.flat == flat
      invariant 0 <= left && left + |buf| == size && at == offset + |buf|
      invariant IsStretch(flat, ino, offset, buf)
    {
      var part := ReadChunk(c, flat, bits, ino, left, at);
      if part == [] {
        break;
      }
      StretchThen(flat, ino, offset, at, buf, part);
      buf := buf + part;
      left := left - |part|;
      at := at + |part|;
    }
  }

  // --- writing -----------------------------------------------------------

  /** Byte `k` lies in a sector that a write of bytes `from` to `to` touches. */
  predicate Touched(k: nat, from: nat, to: nat) {
    from < to && from / SECTOR_SIZE <= k / SECTOR_SIZE <= (to - 1) / SECTOR_SIZE
  }

  /** A write to `offset` of the file in `ino`, whose slots are `p`; `cached`
      tells of which blocks the sector is cached when it is about to be written. */
  datatype Trace = Trace(ino: nat, p: Slots, offset: nat, cached: nat -> bool)

  /** What writing `buf[lo..hi]` does to byte `k`: bytes in the range become those
      of `buf`; other bytes of a touched sector are lost to zero if the sector is
      not cached; no other byte changes. */
  predicate WroteByte(kept: bool, before: Byte, after: Byte, k: nat, offset: nat, buf: seq<Byte>, lo: nat, hi: nat)
    requires lo <= hi <= |buf|
  {
    after ==
      if offset + lo <= k < offset + hi then buf[k - offset]
      else if Touched(k, offset + lo, offset + hi) && !kept then 0
      else before
  }

  ghost predicate Wrote(w: Trace, flat: seq<Block>, flat': seq<Block>, buf: seq<Byte>, lo: nat, hi: nat)
    requires lo <= hi <= |buf|
  {
    forall k | 0 <= k < MAX_FILE_SIZE ::
      WroteByte(w.cached(k / SECTOR_SIZE), View(flat, w.p, k), View(flat', w.p, k), k, w.offset, buf, lo, hi)
  }

  /** Sectors that do not belong to the file keep their contents. */
  ghost predicate OthersKept(flat: seq<Block>, flat': seq<Block>, p: Slots) {
    && |flat'| == |flat|
    && forall r | 0 <= r < |flat| && !Owns(p, r) :: flat'[r] == flat[r]
  }

  lemma OverlayByte(base: Block, buf: seq<Byte>, ofs: nat, i: nat)
    requires ofs + |buf| <= SECTOR_SIZE && i < SECTOR_SIZE
    ensures Overlay(base, buf, ofs)[i] == if ofs <= i < ofs + |buf| then buf[i - ofs] else base[i]
  {
  }

  /** Writing part of one data sector. */
  lemma ChunkWrote(w: Trace, flat: seq<Block>, s: Word, buf: seq<Byte>, at: nat, lo: nat, hi: nat, cached: bool)
    requires Distinct(w.p) && lo < hi <= |buf| && w.offset + hi <= MAX_FILE_SIZE && at == w.offset + lo
    requires at % SECTOR_SIZE + (hi - lo) <= SECTOR_SIZE
    requires s == w.p[129 + at / SECTOR_SIZE] && 0 < s < |flat| && w.cached(at / SECTOR_SIZE) == cached
    ensures var base := if cached then flat[s] else Zeros();
      Wrote(w, flat, flat[s := Overlay(base, buf[lo..hi], at % SECTOR_SIZE)], buf, lo, hi)
  {
    var base := if cached then flat[s] else Zeros();
    var flat' := flat[s := Overlay(base, buf[lo..hi], at % SECTOR_SIZE)];
    SameSector(at, hi - lo - 1);
    forall k | 0 <= k < MAX_FILE_SIZE
      ensures WroteByte(w.cached(k / SECTOR_SIZE), View(flat, w.p, k), View(flat', w.p, k), k, w.offset, buf, lo, hi)
    {
      var b := at / SECTOR_SIZE;
      if k / SECTOR_SIZE == b {
        OverlayByte(base, buf[lo..hi], at % SECTOR_SIZE, k % SECTOR_SIZE);
        SectorOffsets(k, at);
      } else {
        OtherSlot(w.p, 129 + k / SECTOR_SIZE, 129 + b);
        OutOfSector(k, at, hi - lo);
      }
    }
  }

  lemma OtherSlot(p: Slots, a: nat, b: nat)
    requires Distinct(p) && a < SLOTS && b < SLOTS && a != b && p[b] != 0
    ensures p[a] != p[b]
  {
    assert a < b || b < a;
  }

  lemma SectorOffsets(k: nat, at: nat)
    requires k / SECTOR_SIZE == at / SECTOR_SIZE
    ensures k - at == k % SECTOR_SIZE - at % SECTOR_SIZE
  {
  }

  lemma OutOfSector(k: nat, at: nat, n: nat)
    requires k / SECTOR_SIZE != at / SECTOR_SIZE && at % SECTOR_SIZE + n <= SECTOR_SIZE
    ensures !(at <= k < at + n)
  {
  }

  /** Two writes, the second of which starts a new sector, are one write. */
  lemma WroteThen(w: Trace, flat: seq<Block>, flat1: seq<Block>, flat2: seq<Block>, buf: seq<Byte>, mid: nat, hi: nat,
                  at: nat)
    requires mid <= hi <= |buf| && at == w.offset + mid && (mid == 0 || at % SECTOR_SIZE == 0)
    requires Wrote(w, flat, flat1, buf, 0, mid) && Wrote(w, flat1, flat2, buf, mid, hi)
    ensures Wrote(w, flat, flat2, buf, 0, hi)
  {
    forall k | 0 <= k < MAX_FILE_SIZE
      ensures WroteByte(w.cached(k / SECTOR_SIZE), View(flat, w.p, k), View(flat2, w.p, k), k, w.offset, buf, 0, hi)
    {
      WroteByteThen(w.cached(k / SECTOR_SIZE), View(flat, w.p, k), View(flat1, w.p, k), View(flat2, w.p, k), k,
        w.offset, buf, mid, hi);
    }
  }

  lemma WroteByteThen(kept: bool, a: Byte, b: Byte, c: Byte, k: nat, offset: nat, buf: seq<Byte>, mid: nat, hi: nat)
    requires mid <= hi <= |buf| && (mid == 0 || (offset + mid) % SECTOR_SIZE == 0)
    requires WroteByte(kept, a, b, k, offset, buf, 0, mid) && WroteByte(kept, b, c, k, offset, buf, mid, hi)
    ensures WroteByte(kept, a, c, k, offset, buf, 0, hi)
  {
    TouchedBoth(k, offset, offset + mid, offset + hi);
  }

  lemma TouchedBoth(k: nat, from: nat, mid: nat, to: nat)
    requires from <= mid <= to && (from == mid || mid % SECTOR_SIZE == 0)
    ensures Touched(k, from, to) <==> Touched(k, from, mid) || Touched(k, mid, to)
    ensures Touched(k, mid, to) && from < mid ==> k >= mid
  {
  }

  /** A write below the length of a file: the file stays sound, its inode and
      its tables stay as they are, and so does every other sector. */
  ghost predicate WroteFile(w: Trace, flat: seq<Block>, flat': seq<Block>, bits: seq<bool>, buf: seq<Byte>,
                            lo: nat, hi: nat)
    requires lo <= hi <= |buf|
  {
    && FileOk(flat, bits, w.ino) && FileOk(flat', bits, w.ino)
    && InodeIn(flat', w.ino) == InodeIn(flat, w.ino)
    && FileSlots(flat', w.ino) == FileSlots(flat, w.ino) == w.p
    && OthersKept(flat, flat', w.p)
    && Wrote(w, flat, flat', buf, lo, hi)
  }

  lemma ChunkFile(w: Trace, flat: seq<Block>, bits: seq<bool>, s: Word, buf: seq<Byte>,
                  at: nat, lo: nat, hi: nat, cached: bool)
    requires FileOk(flat, bits, w.ino) && w.p == FileSlots(flat, w.ino)
    requires lo < hi <= |buf| && at == w.offset + lo
    requires w.offset + hi <= InodeIn(flat, w.ino).length && at % SECTOR_SIZE + (hi - lo) <= SECTOR_SIZE
    requires Holds(flat, w.ino, at, s) && w.cached(at / SECTOR_SIZE) == cached
    ensures var base := if cached then flat[s] else Zeros();
      WroteFile(w, flat, flat[s := Overlay(base, buf[lo..hi], at % SECTOR_SIZE)], bits, buf, lo, hi)
  {
    var d := InodeIn(flat, w.ino);
    var base := if cached then flat[s] else Zeros();
    var b := Overlay(base, buf[lo..hi], at % SECTOR_SIZE);
    var flat' := flat[s := b];
    assert Owns(w.p, s) && s != w.ino;
    forall a | 0 <= a < 129 ensures w.p[a] != s {
      OtherSlot(w.p, a, 129 + at / SECTOR_SIZE);
    }
    SlotsElsewhere(flat, d.root, s, b);
    ChunkWrote(w, flat, s, buf, at, lo, hi, cached);
    forall k | d.length <= k < MAX_FILE_SIZE ensures View(flat', w.p, k) == 0 {
      assert WroteByte(w.cached(k / SECTOR_SIZE), View(flat, w.p, k), View(flat', w.p, k), k, w.offset, buf, lo, hi);
    }
  }

  lemma NextBlock(at: nat, to: nat)
    requires at < to && to % SECTOR_SIZE == 0 && at % SECTOR_SIZE + (to - at) <= SECTOR_SIZE
    ensures to / SECTOR_SIZE == at / SECTOR_SIZE + 1
  {
  }

  /** How far the next turn of a write of `size` bytes that has written `lo`
      gets: to the end of the buffer or to the end of a sector. */
  method ChunkEnd(size: nat, length: nat, offset: nat, at: nat, lo: nat) returns (hi: nat, to: nat)
    requires lo < size && offset + size <= length && at == offset + lo
    ensures lo < hi <= size && to == offset + hi && at % SECTOR_SIZE + (hi - lo) <= SECTOR_SIZE
    ensures hi < size ==> to % SECTOR_SIZE == 0 && to / SECTOR_SIZE == at / SECTOR_SIZE + 1
  {
    var n := Chunk(size - lo, length, at);
    hi, to := lo + n, at + n;
    if hi < size {
      NextBlock(at, to);
    }
  }

  function DataSlot(p: Slots, b: nat): Word {
    if b < SLOTS - 129 then p[129 + b] else 0
  }

  lemma HoldsSlot(flat: seq<Block>, bits: seq<bool>, ino: nat, pos: nat, s: Word)
    requires FileOk(flat, bits, ino) && pos < InodeIn(flat, ino).length && Holds(flat, ino, pos, s)
    ensures s == DataSlot(FileSlots(flat, ino), pos / SECTOR_SIZE)
  {
  }

  /** The sector of byte `pos`, and the length of the file. */
  method SectorAndLength(c: Cache, ghost flat: seq<Block>, ghost bits: seq<bool>, ino: nat, pos: nat)
    returns (s: Word, length: nat)
    requires c.Valid() && |c.disk| == |bits| && c.flat == flat
    requires FileOk(flat, bits, ino) && pos < InodeIn(flat, ino).length
    modifies c
    ensures c.Valid() && |c.disk| == |bits| && c.flat == flat && Marks(c)
    ensures Holds(flat, ino, pos, s) && length == InodeIn(flat, ino).length
    ensures s == DataSlot(FileSlots(flat, ino), pos / SECTOR_SIZE)
    ensures Order(c.list) == Touch(Searched(old(Order(c.list)), ino, FileSlots(flat, ino), pos / SECTOR_SIZE), ino)
  {
    s := ByteToSector(c, bits, ino, pos);
    HoldsSlot(flat, bits, ino, pos, s);
    length := Length(c, bits, ino);
  }

  /** Copies `buf[lo..hi]` into sector `s` of the file. */
  method PutChunk(c: Cache, ghost w: Trace, ghost flat: seq<Block>, ghost bits: seq<bool>, s: Word, buf: seq<Byte>,
                  at: nat, lo: nat, hi: nat)
    requires c.Valid() && |c.disk| == |bits| && c.flat == flat && at == w.offset + lo
    requires FileOk(flat, bits, w.ino) && w.p == FileSlots(flat, w.ino)
    requires w.cached(at / SECTOR_SIZE) == (s in Order(c.list))
    requires lo < hi <= |buf| && w.offset + hi <= InodeIn(flat, w.ino).length
    requires at % SECTOR_SIZE + (hi - lo) <= SECTOR_SIZE && Holds(flat, w.ino, at, s)
    modifies c
    ensures c.Valid() && |c.disk| == |bits| && Order(c.list) == Touch(old(Order(c.list)), s) && Marks(c)
    ensures WroteFile(w, flat, c.flat, bits, buf, lo, hi)
  {
    ChunkFile(w, flat, bits, s, buf, at, lo, hi, s in Order(c.list));
    c.Write(s, buf[lo..hi], at % SECTOR_SIZE);
  }

  // --- which sectors are cached when they are written ----------------------

  /** A write from block `first` on, by the cache's list when its loop begins. */
  datatype Run = Run(order: seq<nat>, ino: nat, p: Slots, first: nat)

  /** The list when the turn that writes block `b` begins. */
  function ListAt(r: Run, b: nat): seq<nat> {
    if b <= r.first then r.order else Touch(LookedUp(r, b - 1, ListAt(r, b - 1)), DataSlot(r.p, b - 1))
  }

  /** The list when that turn, which finds it as `order`, comes to write. */
  function LookedUp(r: Run, b: nat, order: seq<nat>): seq<nat> {
    Touch(Searched(order, r.ino, r.p, b), r.ino)
  }

  /** The sector of block `b` is on the list when its turn comes to write. */
  predicate Cached(r: Run, b: nat) {
    DataSlot(r.p, b) in LookedUp(r, b, ListAt(r, b))
  }

  ghost predicate Follows(w: Trace, r: Run) {
    && w.ino == r.ino && w.p == r.p && w.offset / SECTOR_SIZE == r.first
    && forall b: nat :: w.cached(b) == Cached(r, b)
  }

  ghost predicate Begins(r: Run, b: nat, order: seq<nat>) {
    b >= r.first && order == ListAt(r, b)
  }

  /** The list when the turn of block `b`, which finds it as `now`, comes to write,
      and what it tells. */
  lemma ListOf(w: Trace, r: Run, b: nat, now: seq<nat>) returns (order: seq<nat>)
    requires Follows(w, r) && Begins(r, b, now)
    ensures order == Touch(Searched(now, w.ino, w.p, b), w.ino)
    ensures w.cached(b) == (DataSlot(w.p, b) in order) && Begins(r, b + 1, Touch(order, DataSlot(w.p, b)))
  {
    order := LookedUp(r, b, ListAt(r, b));
  }

  /** The sector of block `b` was cached when it was written, if it has not been
      pushed off the list by now. */
  ghost predicate FirstKept(w: Trace, mark: Mark, loads: nat, b: nat) {
    Holding(mark, loads, DataSlot(w.p, b)) ==> w.cached(b)
  }

  lemma KeptOn(w: Trace, mark: Mark, loads: nat, later: nat, offset: nat, at: nat, lo: nat)
    requires loads <= later && at == offset + lo && FirstKept(w, mark, later, at / SECTOR_SIZE)
    requires lo > 0 ==> FirstKept(w, mark, loads, offset / SECTOR_SIZE)
    ensures FirstKept(w, mark, later, offset / SECTOR_SIZE)
  {
  }

  /** One turn of the loop of `inode_write_at`, which has written `lo` bytes; `order`
      is the cache's list when it comes to write. */
  method WriteChunk(c: Cache, ghost w: Trace, ghost flat: seq<Block>, ghost bits: seq<bool>, ino: nat,
                    buf: seq<Byte>, offset: nat, at: nat, lo: nat, ghost order: seq<nat>)
    returns (hi: nat, to: nat)
    requires c.Valid() && |c.disk| == |bits| && c.flat == flat && w.ino == ino && w.offset == offset
    requires FileOk(flat, bits, ino) && lo < |buf| && offset + |buf| <= InodeIn(flat, ino).length
    requires w.p == FileSlots(flat, ino) && at == offset + lo
    requires order == Touch(Searched(Order(c.list), ino, w.p, at / SECTOR_SIZE), ino)
    requires w.cached(at / SECTOR_SIZE) == (DataSlot(w.p, at / SECTOR_SIZE) in order)
    modifies c
    ensures c.Valid() && |c.disk| == |bits| && Marks(c)
    ensures Order(c.list) == Touch(order, DataSlot(w.p, at / SECTOR_SIZE))
    ensures FirstKept(w, c.mark, c.loads, at / SECTOR_SIZE)
    ensures lo < hi <= |buf| && to == offset + hi
    ensures hi < |buf| ==> to % SECTOR_SIZE == 0 && to / SECTOR_SIZE == at / SECTOR_SIZE + 1
    ensures WroteFile(w, flat, c.flat, bits, buf, lo, hi)
  {
    var s, length := SectorAndLength(c, flat, bits, ino, at);
    hi, to := ChunkEnd(|buf|, length, offset, at, lo);
    ghost var loads := c.loads;
    PutChunk(c, w, flat, bits, s, buf, at, lo, hi);
    if Holding(c.mark, c.loads, s) {
      HoldingListed(order, loads, c.mark, c.loads, s);
    }
  }

  lemma WroteNothing(w: Trace, flat: seq<Block>, bits: seq<bool>, buf: seq<Byte>)
    requires FileOk(flat, bits, w.ino) && w.p == FileSlots(flat, w.ino)
    ensures WroteFile(w, flat, flat, bits, buf, 0, 0)
  {
  }

  lemma WroteFileThen(w: Trace, flat: seq<Block>, flat1: seq<Block>, flat2: seq<Block>, bits: seq<bool>,
                      buf: seq<Byte>, mid: nat, hi: nat, at: nat)
    requires mid <= hi <= |buf| && at == w.offset + mid && (mid == 0 || at % SECTOR_SIZE == 0)
    requires WroteFile(w, flat, flat1, bits, buf, 0, mid)
    requires WroteFile(w, flat1, flat2, bits, buf, mid, hi)
    ensures WroteFile(w, flat, flat2, bits, buf, 0, hi)
  {
    WroteThen(w, flat, flat1, flat2, buf, mid, hi, at);
  }

  lemma TraceOf(r: Run, offset: nat) returns (w: Trace)
    requires offset / SECTOR_SIZE == r.first
    ensures Follows(w, r) && w.offset == offset
  {
    w := Trace(r.ino, r.p, offset, (b: nat) => Cached(r, b));
  }

  ghost predicate WroteTo(w: Trace, flat: seq<Block>, flat': seq<Block>, bits: seq<bool>, buf: seq<Byte>, hi: nat) {
    hi <= |buf| && WroteFile(w, flat, flat', bits, buf, 0, hi)
  }

  ghost predicate Ready(r: Run, at: nat, n: nat, order: seq<nat>) {
    Begins(r, at / SECTOR_SIZE, order) && (n == 0 || at % SECTOR_SIZE == 0)
  }

  lemma TurnDone(w: Trace, r: Run, flat: seq<Block>, flat1: seq<Block>, flat2: seq<Block>, bits: seq<bool>,
                 buf: seq<Byte>, at: nat, lo: nat, to: nat, hi: nat, now: seq<nat>)
    requires lo < hi <= |buf| && at == w.offset + lo && (lo == 0 || at % SECTOR_SIZE == 0)
    requires WroteTo(w, flat, flat1, bits, buf, lo) && WroteFile(w, flat1, flat2, bits, buf, lo, hi)
    requires Begins(r, at / SECTOR_SIZE + 1, now)
    requires hi < |buf| ==> to % SECTOR_SIZE == 0 && to / SECTOR_SIZE == at / SECTOR_SIZE + 1
    ensures WroteTo(w, flat, flat2, bits, buf, hi) && (hi < |buf| ==> Ready(r, to, hi, now))
  {
    WroteFileThen(w, flat, flat1, flat2, bits, buf, lo, hi, at);
  }

  /** A turn that follows the writing of `lo` bytes. */
  method WriteTurn(c: Cache, ghost w: Trace, ghost r: Run, ghost flat: seq<Block>, ghost bits: seq<bool>, ino: nat,
                   buf: seq<Byte>, offset: nat, at: nat, lo: nat)
    returns (hi: nat, to: nat)
    requires c.Valid() && |c.disk| == |bits| && w.ino == ino && w.offset == offset && Follows(w, r)
    requires lo < |buf| && at == offset + lo && WroteTo(w, flat, c.flat, bits, buf, lo)
    requires offset + |buf| <= InodeIn(c.flat, ino).length && Ready(r, at, lo, Order(c.list))
    requires lo > 0 ==> FirstKept(w, c.mark, c.loads, offset / SECTOR_SIZE)
    modifies c
    ensures c.Valid() && |c.disk| == |bits| && lo < hi <= |buf| && to == offset + hi && Marks(c)
    ensures FirstKept(w, c.mark, c.loads, offset / SECTOR_SIZE)
    ensures WroteTo(w, flat, c.flat, bits, buf, hi)
    ensures hi < |buf| ==> Ready(r, to, hi, Order(c.list))
  {
    ghost var flat1, loads := c.flat, c.loads;
    ghost var order := ListOf(w, r, at / SECTOR_SIZE, Order(c.list));
    hi, to := WriteChunk(c, w, flat1, bits, ino, buf, offset, at, lo, order);
    KeptOn(w, c.mark, loads, c.loads, offset, at, lo);
    TurnDone(w, r, flat, flat1, c.flat, bits, buf, at, lo, to, hi, Order(c.list));
  }

  /** The loop of `inode_write_at`, once the file is long enough. */
  method WriteLoop(c: Cache, ghost bits: seq<bool>, ino: nat, buf: seq<Byte>, offset: nat)
    returns (n: nat, ghost w: Trace)
    requires Readable(c, bits, ino) && offset + |buf| <= InodeIn(c.flat, ino).length
    modifies c
    ensures c.Valid() && |c.disk| == old(|c.disk|) && n == |buf| && Marks(c)
    ensures buf != [] ==> FirstKept(w, c.mark, c.loads, offset / SECTOR_SIZE)
    ensures w.offset == offset && Follows(w, old(Run(Order(c.list), ino, FileSlots(c.flat, ino), offset / SECTOR_SIZE)))
    ensures WroteFile(w, old(c.flat), c.flat, bits, buf, 0, |buf|)
  {
    ghost var flat, r := c.flat, Run(Order(c.list), ino, FileSlots(c.flat, ino), offset / SECTOR_SIZE);
    n := 0;
    w := TraceOf(r, offset);
    WroteNothing(w, c.flat, bits, buf);
    var at := offset;
    while n < |buf|
      invariant n <= |buf| && at == offset + n && c.Valid() && |c.disk| == |flat|
      invariant WroteTo(w, flat, c.flat, bits, buf, n)
      invariant n < |buf| ==> Ready(r, at, n, Order(c.list))
      invariant c.mark == old(c.mark) && c.loads >= old(c.loads)
      invariant n > 0 ==> FirstKept(w, c.mark, c.loads, offset / SECTOR_SIZE)
    {
      n, at := WriteTurn(c, w, r, flat, bits, ino, buf, offset, at, n);
    }
  }

  // --- growing -----------------------------------------------------------

  /** Sectors in use that are neither the file's nor its inode's stay in use,
      stay out of the file, and keep their contents. */
  ghost predicate NeighboursKept(flat: seq<Block>, bits: seq<bool>, p: Slots, flat': seq<Block>, bits': seq<bool>,
                                 p': Slots, ino: nat) {
    && |flat| == |bits| == |flat'| == |bits'|
    && forall s | 0 <= s < |flat| && bits[s] && !Owns(p, s) && s != ino ::
         bits'[s] && !Owns(p', s) && flat'[s] == flat[s]
  }

  /** The file in `ino` now has `size` bytes, and looks as before. */
  ghost predicate Grown(flat: seq<Block>, bits: seq<bool>, flat': seq<Block>, bits': seq<bool>, ino: nat, size: nat) {
    && FileOk(flat, bits, ino) && FileOk(flat', bits', ino)
    && InodeIn(flat', ino) ==
         InodeIn(flat, ino).(root := InodeIn(flat', ino).root, length := InodeIn(flat', ino).length)
    && InodeIn(flat', ino).length == size
    && SameView(flat, FileSlots(flat, ino), flat', FileSlots(flat', ino))
    && NeighboursKept(flat, bits, FileSlots(flat, ino), flat', bits', FileSlots(flat', ino), ino)
  }

  /** The inode's own sector survives the growth of its tree. */
  lemma InodeAside(x: Start, y: Now, ino: nat)
    requires Resized(x, y) && ino < |x.bits| && x.bits[ino] && !Owns(x.p, ino)
    ensures y.bits[ino] && !Owns(y.p, ino) && y.flat[ino] == x.flat[ino]
  {
    assert !IsIndex(x.p, ino);
  }

  /** Putting the inode back does not disturb the tree. */
  lemma PutInode(y: Now, root: Word, ino: nat, b: Block)
    requires y.p == SlotsOf(y.flat, root) && ino < |y.flat| && !Owns(y.p, ino)
    ensures SlotsOf(y.flat[ino := b], root) == y.p
    ensures SameView(y.flat, y.p, y.flat[ino := b], y.p)
  {
    SlotsElsewhere(y.flat, root, ino, b);
    forall k | 0 <= k < MAX_FILE_SIZE ensures View(y.flat[ino := b], y.p, k) == View(y.flat, y.p, k) {
      assert y.p[129 + k / SECTOR_SIZE] in y.p;
    }
  }

  lemma GrownNeighbours(x: Start, y: Now, ino: nat, b: Block)
    requires Resized(x, y) && ino < |x.bits|
    ensures NeighboursKept(x.flat, x.bits, x.p, y.flat[ino := b], y.bits, y.p, ino)
  {
    forall s | 0 <= s < |x.flat| && x.bits[s] && !Owns(x.p, s) && s != ino
      ensures y.bits[s] && !Owns(y.p, s) && y.flat[s] == x.flat[s]
    {
      InodeAside(x, y, s);
    }
  }

  /** The data sectors of `p` are where they were. */
  ghost predicate DataSame(p: Slots, p': Slots) {
    forall b: nat | DataSlot(p, b) != 0 :: DataSlot(p', b) == DataSlot(p, b)
  }

  lemma GrownSlots(x: Start, y: Now)
    requires Resized(x, y) && forall a | 0 < a < SLOTS && x.p[a] != 0 :: Need(a, x.size)
    ensures DataSame(x.p, y.p)
  {
    forall b: nat | DataSlot(x.p, b) != 0 ensures DataSlot(y.p, b) == DataSlot(x.p, b) {
      assert SlotKept(x, y, 129 + b);
    }
  }

  lemma GrownFile(x: Start, y: Now, ino: nat, d': Inode)
    requires FileOk(x.flat, x.bits, ino) && x.p == FileSlots(x.flat, ino) && Resized(x, y)
    requires InodeIn(x.flat, ino).length < x.size <= MAX_FILE_SIZE
    requires d' == InodeIn(x.flat, ino).(root := y.p[0], length := x.size)
    ensures Grown(x.flat, x.bits, y.flat[ino := InodeBlock(d')], y.bits, ino, x.size)
    ensures DataSame(x.p, FileSlots(y.flat[ino := InodeBlock(d')], ino))
  {
    var flat' := y.flat[ino := InodeBlock(d')];
    InodeAside(x, y, ino);
    InodeRoundTrip(d');
    PutInode(y, d'.root, ino, InodeBlock(d'));
    GrowKeepsView(x, y, InodeIn(x.flat, ino).length);
    GrownNeighbours(x, y, ino, InodeBlock(d'));
    GrownSlots(x, y);
    assert FileSlots(flat', ino) == y.p;
    forall k | 0 <= k < MAX_FILE_SIZE ensures View(flat', y.p, k) == View(x.flat, x.p, k) {
      assert View(y.flat, y.p, k) == View(x.flat, x.p, k);
      assert View(flat', y.p, k) == View(y.flat, y.p, k);
    }
    forall k | x.size <= k < MAX_FILE_SIZE ensures View(flat', y.p, k) == 0 {
      assert View(x.flat, x.p, k) == 0;
    }
  }

  // --- failing to grow ---------------------------------------------------

  lemma BackNeighbours(x: Start, length: nat, y: Now, ino: nat)
    requires RolledBack(x, length, y) && ino < |x.bits| && x.bits[0] && y.bits[0]
    ensures NeighboursKept(x.flat, x.bits, x.p, y.flat, y.bits, y.p, ino)
    ensures x.bits[ino] && !Owns(x.p, ino) ==> y.bits[ino] && !Owns(y.p, ino) && y.flat[ino] == x.flat[ino]
  {
    forall s | 0 <= s < |x.flat| && x.bits[s] && !Owns(x.p, s)
      ensures y.bits[s] && !Owns(y.p, s) && y.flat[s] == x.flat[s]
    {
      assert !IsIndex(x.p, s);
    }
  }

  /** What a rolled-back file looks like. */
  lemma BackView(x: Start, length: nat, y: Now)
    requires TreeOk(x.bits, x.p) && Settled(x.p, length) && RolledBack(x, length, y)
    ensures SameView(x.flat, x.p, y.flat, y.p)
  {
    forall k | 0 <= k < MAX_FILE_SIZE ensures View(y.flat, y.p, k) == View(x.flat, x.p, k) {
      var a := 129 + k / SECTOR_SIZE;
      assert y.p[a] == if Need(a, length) then x.p[a] else 0;
      if x.p[a] != 0 {
        forall b | 0 <= b < 129 ensures x.p[b] != x.p[a] {
          OtherSlot(x.p, b, a);
        }
        assert !IsIndex(x.p, x.p[a]);
      }
    }
  }

  /** The slots of the root that is still in the inode, when it is a good one. */
  lemma BackSlots(x: Start, length: nat, y: Now)
    requires x.p == SlotsOf(x.flat, x.p[0]) && RolledBack(x, length, y) && Settled(x.p, length)
    requires length > 0 || x.p[0] == 0
    ensures SlotsOf(y.flat, x.p[0]) == y.p
  {
    assert y.p[0] == if Need(0, length) then x.p[0] else 0;
  }

  lemma BackFile(x: Start, y: Now, ino: nat)
    requires FileOk(x.flat, x.bits, ino) && x.p == FileSlots(x.flat, ino) && x.bits[0]
    requires RolledBack(x, InodeIn(x.flat, ino).length, y) && y.bits[0]
    ensures InodeIn(y.flat, ino) == InodeIn(x.flat, ino)
    ensures var d := InodeIn(x.flat, ino);
      && (FileOk(y.flat, y.bits, ino) <==> d.length > 0 || d.root == 0)
      && (FileOk(y.flat, y.bits, ino) ==> Grown(x.flat, x.bits, y.flat, y.bits, ino, d.length))
    ensures y.p == Needed(x.p, InodeIn(x.flat, ino).length)
    ensures NeighboursKept(x.flat, x.bits, x.p, y.flat, y.bits, y.p, ino)
  {
    var d := InodeIn(x.flat, ino);
    assert x.p[0] == SlotAt(x.flat, d.root, 0);
    BackNeighbours(x, d.length, y, ino);
    FailedResizeDangles(x, d.length, y);
    if d.length > 0 || d.root == 0 {
      BackSlots(x, d.length, y);
      BackView(x, d.length, y);
      forall k | d.length <= k < MAX_FILE_SIZE ensures View(y.flat, y.p, k) == 0 {
        assert View(x.flat, x.p, k) == 0;
      }
    }
  }

  /** There are free sectors for all slots that the file in `ino` does not have and
      needs to have `size` bytes. */
  ghost predicate HasRoom(flat: seq<Block>, bits: seq<bool>, ino: nat, size: nat)
    requires ino < |flat|
  {
    |Missing(FileSlots(flat, ino), size)| <= |Free(bits)|
  }

  /** In numbers: a first-level table if there is none, and the second-level tables
      and data sectors that the longer file has more. */
  lemma RoomIs(flat: seq<Block>, bits: seq<bool>, ino: nat, size: nat)
    requires FileOk(flat, bits, ino) && size <= MAX_FILE_SIZE
    ensures var d := InodeIn(flat, ino);
      HasRoom(flat, bits, ino, size) <==> Wanting(d.root, d.length, size) <= |Free(bits)|
  {
    var d, p := InodeIn(flat, ino), FileSlots(flat, ino);
    assert p[0] == SlotAt(flat, d.root, 0);
    MissingCount(p, d.length, size);
  }

  /** A write of `n` bytes at `offset` finds the sectors that it needs. */
  ghost predicate RoomToWrite(flat: seq<Block>, bits: seq<bool>, ino: nat, offset: nat, n: nat)
    requires ino < |flat|
  {
    HasRoom(flat, bits, ino, offset + n)
  }

  lemma RoomFor(flat: seq<Block>, bits: seq<bool>, ino: nat, to: nat, offset: nat, n: nat) returns (room: bool)
    requires ino < |flat| && to == offset + n
    ensures room == HasRoom(flat, bits, ino, to) && room == RoomToWrite(flat, bits, ino, offset, n)
  {
    room := HasRoom(flat, bits, ino, to);
  }

  // --- inode_write_at ----------------------------------------------------

  /** Makes the file in `ino` `size` bytes long and writes its inode, as
      `inode_write_at` does before a write that ends beyond the length. */
  method Grow(c: Cache, m: SectorMap, ino: nat, size: nat) returns (ok: bool)
    requires Mounted(c, m) && FileOk(c.flat, m.bits, ino)
    requires InodeIn(c.flat, ino).length < size <= MAX_FILE_SIZE
    modifies c, m, m.store.words
    ensures Mounted(c, m) && |c.disk| == old(|c.disk|) && c.mark == old(c.mark)
    ensures ok ==> DataSame(old(FileSlots(c.flat, ino)), FileSlots(c.flat, ino))
    ensures ok ==> Grown(old(c.flat), old(m.bits), c.flat, m.bits, ino, size)
    ensures !ok ==> NotGrown(old(c.flat), old(m.bits), c.flat, m.bits, ino)
    ensures !ok && m.writable ==>
      var d := InodeIn(old(c.flat), ino);
      NoneLost(old(m.bits), m.bits) <==> Harmless(|Free(old(m.bits))|, d.root, d.length)
    ensures ok ==> HasRoom(old(c.flat), old(m.bits), ino, size)
    ensures m.writable && HasRoom(old(c.flat), old(m.bits), ino, size) ==> ok
  {
    var b := ReadSector(c, m, ino);
    var d := InodeAt(b);
    ghost var x := Begin(c.flat, m.bits, d.root, size);
    assert x.p[0] == SlotAt(x.flat, d.root, 0);
    var d';
    ghost var stop;
    ok, d', stop := Resize(c, m, d, size);
    ghost var y := Now(c.flat, m.bits, SlotsOf(c.flat, d'.root));
    if ok {
      GrownFile(x, y, ino, d');
      WriteSector(c, m, ino, InodeBlock(d'));
    } else {
      BackFile(x, y, ino);
      if m.writable {
        FailedResizeLoses(x, d.length, y, stop);
      }
    }
  }

  /** The slots that a file of `length` bytes needs. */
  function Needed(p: Slots, length: nat): Slots {
    seq(SLOTS, a requires 0 <= a < SLOTS => if Need(a, length) then p[a] else 0)
  }

  /** The inode on the device is what it was, and the neighbours are; unless it was
      the inode of an empty file with a root, the file is too. */
  ghost predicate NotGrown(flat: seq<Block>, bits: seq<bool>, flat': seq<Block>, bits': seq<bool>, ino: nat) {
    && ino < |flat| && ino < |flat'| && InodeIn(flat', ino) == InodeIn(flat, ino)
    && var d, p := InodeIn(flat, ino), FileSlots(flat, ino);
       && NeighboursKept(flat, bits, p, flat', bits', Needed(p, d.length), ino)
       && (FileOk(flat', bits', ino) <==> d.length > 0 || d.root == 0)
       && (FileOk(flat', bits', ino) ==> Grown(flat, bits, flat', bits', ino, d.length))
  }

  /** What a write of `buf` did to the file and to its neighbours. */
  ghost predicate WrittenAt(w: Trace, flat: seq<Block>, bits: seq<bool>, flat': seq<Block>, bits': seq<bool>,
                            buf: seq<Byte>) {
    && FileOk(flat, bits, w.ino) && FileOk(flat', bits', w.ino)
    && var d, d', p, p' := InodeIn(flat, w.ino), InodeIn(flat', w.ino), FileSlots(flat, w.ino), FileSlots(flat', w.ino);
       && p' == w.p
       && d' == d.(root := d'.root, length := d'.length)
       && d'.length == Max(d.length, w.offset + |buf|)
       && (forall k | 0 <= k < MAX_FILE_SIZE ::
             WroteByte(w.cached(k / SECTOR_SIZE), View(flat, p, k), View(flat', p', k), k, w.offset, buf, 0, |buf|))
       && NeighboursKept(flat, bits, p, flat', bits', p', w.ino)
  }

  function Max(a: int, b: int): int { if a < b then b else a }

  lemma GrownThenWrote(w: Trace, flat: seq<Block>, bits: seq<bool>, flat1: seq<Block>, flat2: seq<Block>,
                       bits': seq<bool>, size: nat, buf: seq<Byte>)
    requires Grown(flat, bits, flat1, bits', w.ino, size)
    requires size == Max(InodeIn(flat, w.ino).length, w.offset + |buf|)
    requires WroteFile(w, flat1, flat2, bits', buf, 0, |buf|)
    ensures WrittenAt(w, flat, bits, flat2, bits', buf)
  {
    var p := FileSlots(flat, w.ino);
    forall k | 0 <= k < MAX_FILE_SIZE
      ensures WroteByte(w.cached(k / SECTOR_SIZE), View(flat, p, k), View(flat2, w.p, k), k, w.offset, buf, 0, |buf|)
    {
      assert View(flat1, w.p, k) == View(flat, p, k);
      assert WroteByte(w.cached(k / SECTOR_SIZE), View(flat1, w.p, k), View(flat2, w.p, k), k, w.offset, buf, 0, |buf|);
    }
  }

  lemma NotGrownAtAll(flat: seq<Block>, bits: seq<bool>, ino: nat)
    requires FileOk(flat, bits, ino)
    ensures Grown(flat, bits, flat, bits, ino, InodeIn(flat, ino).length)
  {
  }

  /** Grows the file to at least `size` bytes. */
  method MakeLong(c: Cache, m: SectorMap, ino: nat, size: nat, ghost room: bool) returns (grew: bool, ghost length: nat)
    requires Mounted(c, m) && FileOk(c.flat, m.bits, ino) && size <= MAX_FILE_SIZE
    requires room == HasRoom(c.flat, m.bits, ino, size)
    modifies c, m, m.store.words
    ensures Mounted(c, m) && |c.disk| == old(|c.disk|) && c.mark == old(c.mark)
    ensures grew ==> DataSame(old(FileSlots(c.flat, ino)), FileSlots(c.flat, ino))
    ensures length == Max(old(InodeIn(c.flat, ino).length), size)
    ensures grew ==> Grown(old(c.flat), old(m.bits), c.flat, m.bits, ino, length)
    ensures !grew ==> NotGrown(old(c.flat), old(m.bits), c.flat, m.bits, ino)
    ensures (grew ==> room) && (m.writable && room ==> grew)
    ensures size <= old(InodeIn(c.flat, ino).length) ==>
      && grew && c.flat == old(c.flat) && m.bits == old(m.bits) && Order(c.list) == Touch(old(Order(c.list)), ino)
  {
    NotGrownAtAll(c.flat, m.bits, ino);
    var now := Length(c, m.bits, ino);
    grew, length := true, now;
    if now < size {
      grew := Grow(c, m, ino, size);
      length := size;
    }
  }

  /** The rest of `inode_write_at`, for a write that is not denied. */
  method WriteAllowed(c: Cache, m: SectorMap, ino: nat, buf: seq<Byte>, offset: nat, to: nat,
                      ghost flat: seq<Block>, ghost bits: seq<bool>, ghost room: bool)
    returns (n: nat, grew: bool, ghost w: Trace)
    requires Mounted(c, m) && FileOk(c.flat, m.bits, ino) && to == offset + |buf| <= MAX_FILE_SIZE
    requires c.flat == flat && m.bits == bits && room == HasRoom(flat, bits, ino, to)
    modifies c, m, m.store.words
    ensures Mounted(c, m) && |c.disk| == old(|c.disk|) && c.mark == old(c.mark)
    ensures grew ==>
      n == |buf| && w.offset == offset && w.ino == ino && WrittenAt(w, old(c.flat), old(m.bits), c.flat, m.bits, buf)
    ensures grew && buf != [] ==> FirstKept(w, c.mark, c.loads, offset / SECTOR_SIZE)
    ensures grew ==> DataSame(old(FileSlots(c.flat, ino)), w.p)
    ensures !grew ==> n == 0 && NotGrown(old(c.flat), old(m.bits), c.flat, m.bits, ino)
    ensures (grew ==> room) && (m.writable && room ==> grew)
    ensures to <= old(InodeIn(c.flat, ino).length) ==>
      && grew && m.bits == old(m.bits)
      && Follows(w, old(Run(Touch(Order(c.list), ino), ino, FileSlots(c.flat, ino), offset / SECTOR_SIZE)))
  {
    n, w := 0, Trace(ino, FileSlots(c.flat, ino), offset, _ => false);
    ghost var size;
    grew, size := MakeLong(c, m, ino, to, room);
    if grew {
      ghost var flat1 := c.flat;
      n, w := WriteLoop(c, m.bits, ino, buf, offset);
      GrownThenWrote(w, flat, bits, flat1, c.flat, m.bits, size, buf);
    }
  }

  /** `inode_write_at`. A write that is not denied and does not fail for want of
      space writes everything: the file is long enough, the bytes in the range are
      those of the buffer, and no other file changes. Which other bytes of the first
      and the last sector are lost depends on the cache's list when the loop begins;
      for a write inside the file that is the list before the call and the inode.
      The first sector is cached, for any write, if it was and the call has brought
      in too few sectors to push it off the list. */
  method WriteAt(c: Cache, m: SectorMap, ino: nat, denied: bool, buf: seq<Byte>, offset: nat)
    returns (n: nat, grew: bool, ghost w: Trace)
    requires Mounted(c, m) && FileOk(c.flat, m.bits, ino) && offset + |buf| <= MAX_FILE_SIZE
    modifies c, m, m.store.words
    ensures Mounted(c, m) && |c.disk| == old(|c.disk|)
    ensures denied ==> n == 0 && c.flat == old(c.flat) && m.bits == old(m.bits)
    ensures !denied && grew ==>
      && n == |buf| && w.ino == ino && w.offset == offset
      && WrittenAt(w, old(c.flat), old(m.bits), c.flat, m.bits, buf)
    ensures !denied && !grew ==> n == 0 && NotGrown(old(c.flat), old(m.bits), c.flat, m.bits, ino)
    ensures !denied && m.writable ==> (grew <==> RoomToWrite(old(c.flat), old(m.bits), ino, offset, |buf|))
    ensures !denied && offset + |buf| <= old(InodeIn(c.flat, ino).length) ==>
      && grew && m.bits == old(m.bits)
      && Follows(w, old(Run(Touch(Order(c.list), ino), ino, FileSlots(c.flat, ino), offset / SECTOR_SIZE)))
    ensures !denied && grew && buf != [] ==>
      var b := offset / SECTOR_SIZE;
      var s := DataSlot(old(FileSlots(c.flat, ino)), b);
      s != 0 && Stays(old(Order(c.list)), s, c.loads - old(c.loads)) ==> w.cached(b)
  {
    n, grew, w := 0, true, Trace(ino, seq(SLOTS, _ => 0), offset, _ => false);
    if !denied {
      ghost var flat, bits := c.flat, m.bits;
      var to := offset + |buf|;
      ghost var room := RoomFor(flat, bits, ino, to, offset, |buf|);
      c.SetMark(DataSlot(FileSlots(flat, ino), offset / SECTOR_SIZE));
      n, grew, w := WriteAllowed(c, m, ino, buf, offset, to, flat, bits, room);
    }
  }

  // --- what a write means to its readers -----------------------------------

  lemma ReadByte(w: Trace, flat: seq<Block>, bits: seq<bool>, flat': seq<Block>, bits': seq<bool>, buf: seq<Byte>,
                 i: nat, k: nat)
    requires WrittenAt(w, flat, bits, flat', bits', buf) && i < |buf| && k == w.offset + i < MAX_FILE_SIZE
    ensures View(flat', FileSlots(flat', w.ino), k) == buf[i]
  {
    WrittenByte(w, flat, bits, flat', bits', buf, k);
  }

  /** Reading back what was written gives the buffer. */
  lemma ReadBack(w: Trace, flat: seq<Block>, bits: seq<bool>, flat': seq<Block>, bits': seq<bool>, buf: seq<Byte>)
    requires WrittenAt(w, flat, bits, flat', bits', buf) && w.offset + |buf| <= MAX_FILE_SIZE
    ensures Bytes(flat', FileSlots(flat', w.ino), w.offset, |buf|) == buf
  {
    var p' := FileSlots(flat', w.ino);
    forall i | 0 <= i < |buf| ensures Bytes(flat', p', w.offset, |buf|)[i] == buf[i] {
      ReadByte(w, flat, bits, flat', bits', buf, i, w.offset + i);
    }
  }

  /** A byte outside the range of a write keeps its value if and only if it is in no
      sector that the write touches, or its sector is cached when it is about to be
      written, or it is zero. */
  lemma OutsideKept(w: Trace, flat: seq<Block>, bits: seq<bool>, flat': seq<Block>, bits': seq<bool>, buf: seq<Byte>,
                    k: nat)
    requires WrittenAt(w, flat, bits, flat', bits', buf) && k < MAX_FILE_SIZE
    requires !(w.offset <= k < w.offset + |buf|)
    ensures var before, after := View(flat, FileSlots(flat, w.ino), k), View(flat', FileSlots(flat', w.ino), k);
      after == before <==> !Touched(k, w.offset, w.offset + |buf|) || w.cached(k / SECTOR_SIZE) || before == 0
  {
    var p, p' := FileSlots(flat, w.ino), FileSlots(flat', w.ino);
    assert WroteByte(w.cached(k / SECTOR_SIZE), View(flat, p, k), View(flat', p', k), k, w.offset, buf, 0, |buf|);
  }

  /** What lies between the old end of a file and a write beyond it reads as
      zero. */
  lemma GapReadsZero(w: Trace, flat: seq<Block>, bits: seq<bool>, flat': seq<Block>, bits': seq<bool>,
                     buf: seq<Byte>, k: nat)
    requires WrittenAt(w, flat, bits, flat', bits', buf) && w.offset <= MAX_FILE_SIZE
    requires InodeIn(flat, w.ino).length <= k < w.offset
    ensures View(flat', FileSlots(flat', w.ino), k) == 0
  {
    var p, p' := FileSlots(flat, w.ino), FileSlots(flat', w.ino);
    assert View(flat, p, k) == 0;
    assert WroteByte(w.cached(k / SECTOR_SIZE), View(flat, p, k), View(flat', p', k), k, w.offset, buf, 0, |buf|);
  }

  /** Byte `k` is that of `buf` in its range and as it was elsewhere. */
  predicate Replaced(before: Byte, after: Byte, k: nat, offset: nat, buf: seq<Byte>) {
    after == if offset <= k < offset + |buf| then buf[k - offset] else before
  }

  predicate Aligned(from: nat, to: nat, length: nat) {
    from % SECTOR_SIZE == 0 && (to % SECTOR_SIZE == 0 || length <= to)
  }

  lemma WrittenByte(w: Trace, flat: seq<Block>, bits: seq<bool>, flat': seq<Block>, bits': seq<bool>, buf: seq<Byte>,
                    k: nat)
    requires WrittenAt(w, flat, bits, flat', bits', buf) && k < MAX_FILE_SIZE
    ensures var p, p' := FileSlots(flat, w.ino), FileSlots(flat', w.ino);
      && WroteByte(w.cached(k / SECTOR_SIZE), View(flat, p, k), View(flat', p', k), k, w.offset, buf, 0, |buf|)
      && (k >= InodeIn(flat, w.ino).length ==> View(flat, p, k) == 0)
  {
  }

  /** A write that starts with a sector and ends with one, or at or beyond the
      end of the file, changes nothing but its range. */
  lemma AlignedWriteIsExact(w: Trace, flat: seq<Block>, bits: seq<bool>, flat': seq<Block>, bits': seq<bool>,
                            buf: seq<Byte>, k: nat)
    requires WrittenAt(w, flat, bits, flat', bits', buf) && k < MAX_FILE_SIZE
    requires Aligned(w.offset, w.offset + |buf|, InodeIn(flat, w.ino).length)
    ensures Replaced(View(flat, FileSlots(flat, w.ino), k), View(flat', FileSlots(flat', w.ino), k), k, w.offset, buf)
  {
    if w.offset <= k < w.offset + |buf| {
      ReadByte(w, flat, bits, flat', bits', buf, k - w.offset, k);
    } else {
      AlignedOutside(k, w.offset, w.offset + |buf|, InodeIn(flat, w.ino).length);
      WrittenByte(w, flat, bits, flat', bits', buf, k);
    }
  }

  lemma AlignedOutside(k: nat, from: nat, to: nat, length: nat)
    requires Aligned(from, to, length) && !(from <= k < to)
    ensures !Touched(k, from, to) || k >= length
  {
    if k < from || to % SECTOR_SIZE == 0 {
      NotTouched(k, from, to);
    }
  }

  lemma NotTouched(k: nat, from: nat, to: nat)
    requires from % SECTOR_SIZE == 0 && (k < from || (to % SECTOR_SIZE == 0 && to <= k))
    ensures !Touched(k, from, to)
  {
  }

  /** A table slot of another file is one of the neighbours. */
  lemma OtherSector(flat: seq<Block>, bits: seq<bool>, flat': seq<Block>, bits': seq<bool>, ino: nat, other: nat,
                    p': Slots, a: nat)
    requires FileOk(flat, bits, ino) && FileOk(flat, bits, other)
    requires Disjoint(FileSlots(flat, ino), FileSlots(flat, other), ino, other)
    requires NeighboursKept(flat, bits, FileSlots(flat, ino), flat', bits', p', ino)
    requires a < SLOTS && FileSlots(flat, other)[a] != 0
    ensures var s := FileSlots(flat, other)[a];
      s < |flat| && bits'[s] && !Owns(p', s) && flat'[s] == flat[s]
  {
    var s := FileSlots(flat, other)[a];
    assert s in FileSlots(flat, other);
  }

  /** Slots whose tables all kept their contents are the same. */
  lemma SameTables(flat: seq<Block>, flat': seq<Block>, root: Word)
    requires |flat'| == |flat|
    requires forall a | 0 <= a < 129 && 0 < SlotsOf(flat, root)[a] < |flat| ::
      flat'[SlotsOf(flat, root)[a]] == flat[SlotsOf(flat, root)[a]]
    ensures SlotsOf(flat', root) == SlotsOf(flat, root)
  {
    var p := SlotsOf(flat, root);
    assert p[0] == SlotAt(flat, root, 0);
    assert TableAt(flat', root) == TableAt(flat, root);
    forall a | 0 <= a < SLOTS ensures SlotAt(flat', root, a) == p[a] {
      assert p[a] == SlotAt(flat, root, a);
      if a >= 129 {
        var i := (a - 129) / 128;
        assert p[Leaf(i)] == SlotAt(flat, root, Leaf(i));
        assert TableAt(flat', p[Leaf(i)]) == TableAt(flat, p[Leaf(i)]);
      }
    }
  }

  /** No sector of `p` is one of `q`, and neither inode is part of the other file. */
  ghost predicate Disjoint(p: Slots, q: Slots, ino: nat, other: nat) {
    && ino != other && !Owns(p, other) && !Owns(q, ino)
    && forall a, b | 0 <= a < SLOTS && 0 <= b < SLOTS && p[a] != 0 :: p[a] != q[b]
  }

  /** Whatever is done to the file in `ino`, successfully or not, another one stays
      sound and reads the same, and shares nothing with the slots `p'` that the
      first one now has. */
  lemma OtherFileKept(flat: seq<Block>, bits: seq<bool>, flat': seq<Block>, bits': seq<bool>, ino: nat, other: nat,
                      p': Slots)
    requires FileOk(flat, bits, ino) && FileOk(flat, bits, other)
    requires Disjoint(FileSlots(flat, ino), FileSlots(flat, other), ino, other)
    requires NeighboursKept(flat, bits, FileSlots(flat, ino), flat', bits', p', ino)
    ensures FileOk(flat', bits', other) && InodeIn(flat', other) == InodeIn(flat, other)
    ensures SameView(flat, FileSlots(flat, other), flat', FileSlots(flat', other))
    ensures Disjoint(p', FileSlots(flat', other), ino, other)
  {
    var q := FileSlots(flat, other);
    forall a | 0 <= a < SLOTS && q[a] != 0
      ensures q[a] < |flat| && bits'[q[a]] && !Owns(p', q[a]) && flat'[q[a]] == flat[q[a]]
    {
      OtherSector(flat, bits, flat', bits', ino, other, p', a);
    }
    SameTables(flat, flat', InodeIn(flat, other).root);
    forall k | 0 <= k < MAX_FILE_SIZE ensures View(flat', q, k) == View(flat, q, k) {
      assert q[129 + k / SECTOR_SIZE] != 0 ==> flat'[q[129 + k / SECTOR_SIZE]] == flat[q[129 + k / SECTOR_SIZE]];
    }
    assert forall k | InodeIn(flat, other).length <= k < MAX_FILE_SIZE :: View(flat', q, k) == View(flat, q, k);
    forall a, b | 0 <= a < SLOTS && 0 <= b < SLOTS && p'[a] != 0 ensures p'[a] != q[b] {
      assert p'[a] in p';
    }
  }

  // --- making and removing files ---------------------------------------------

  /** A first-level table that is all zeros is the whole tree. */
  lemma BareTree(flat: seq<Block>, root: Word)
    requires 0 < root < |flat| && flat[root] == Zeros()
    ensures var p := SlotsOf(flat, root);
      p[0] == root && forall a | 0 < a < SLOTS :: p[a] == 0
  {
    ZerosAreNoPointers();
    forall a | 0 < a < SLOTS ensures SlotAt(flat, root, a) == 0 {
      assert TableAt(flat, root) == NoPointers() && TableAt(flat, 0) == NoPointers();
    }
  }

  /** A tree and an inode that fit together, with nothing in the file yet. */
  ghost predicate Fresh(flat: seq<Block>, bits: seq<bool>, p: Slots, ino: nat, length: nat) {
    && |flat| == |bits| && ino < |flat| && bits[ino] && length <= MAX_FILE_SIZE
    && TreeOk(bits, p) && Settled(p, length) && !Owns(p, ino)
    && forall k | 0 <= k < MAX_FILE_SIZE :: View(flat, p, k) == 0
  }

  lemma BareIsFresh(flat: seq<Block>, bits: seq<bool>, root: Word, ino: nat)
    requires |flat| == |bits| && 0 < root < |flat| && flat[root] == Zeros() && bits[root]
    requires ino < |flat| && bits[ino] && ino != root
    ensures Fresh(flat, bits, SlotsOf(flat, root), ino, 0)
  {
    BareTree(flat, root);
  }

  lemma GrownIsFresh(x: Start, y: Now, ino: nat)
    requires Fresh(x.flat, x.bits, x.p, ino, 0) && Resized(x, y) && x.size <= MAX_FILE_SIZE
    ensures Fresh(y.flat, y.bits, y.p, ino, x.size)
  {
    InodeAside(x, y, ino);
    GrowKeepsView(x, y, 0);
    forall k | 0 <= k < MAX_FILE_SIZE ensures View(y.flat, y.p, k) == 0 {
      assert View(y.flat, y.p, k) == View(x.flat, x.p, k);
    }
  }

  lemma FreshFile(flat: seq<Block>, bits: seq<bool>, ino: nat, d: Inode)
    requires Fresh(flat, bits, SlotsOf(flat, d.root), ino, d.length)
    ensures var flat' := flat[ino := InodeBlock(d)];
      && FileOk(flat', bits, ino) && InodeIn(flat', ino) == d
      && ZeroFrom(flat', FileSlots(flat', ino), 0)
  {
    var p, flat' := SlotsOf(flat, d.root), flat[ino := InodeBlock(d)];
    InodeRoundTrip(d);
    PutInode(Now(flat, bits, p), d.root, ino, InodeBlock(d));
    forall k | 0 <= k < MAX_FILE_SIZE ensures View(flat', p, k) == 0 {
      assert View(flat', p, k) == View(flat, p, k);
    }
  }

  /** Used sectors other than `ino` stay used and keep their contents. */
  ghost predicate UsedKept(flat: seq<Block>, bits: seq<bool>, flat': seq<Block>, bits': seq<bool>, ino: nat) {
    && |flat| == |bits| == |flat'| == |bits'|
    && forall s | 0 <= s < |flat| && bits[s] && s != ino :: bits'[s] && flat'[s] == flat[s]
  }

  lemma GrownUsedKept(flat: seq<Block>, bits: seq<bool>, root: Word, x: Start, y: Now, ino: nat, b: Block)
    requires |flat| == |bits| && root < |flat| && !bits[root] && ino < |flat|
    requires x.flat == flat[root := Zeros()] && x.bits == bits[root := true] && Resized(x, y)
    requires forall a | 0 < a < SLOTS :: x.p[a] == 0
    requires x.p[0] == root
    ensures UsedKept(flat, bits, y.flat[ino := b], y.bits, ino)
  {
    forall s | 0 <= s < |flat| && bits[s] && s != ino ensures y.bits[s] && y.flat[s] == flat[s] {
      assert !Owns(x.p, s);
      InodeAside(x, y, s);
    }
  }

  /** Rolling back to the bare first-level table gives back that table too. */
  lemma BareUsedKept(flat: seq<Block>, bits: seq<bool>, root: Word, x: Start, y: Now)
    requires |flat| == |bits| && 0 < root < |flat| && !bits[root] && bits[0]
    requires |y.bits| > 0 && y.bits[0]
    requires x.flat == flat[root := Zeros()] && x.bits == bits[root := true] && RolledBack(x, 0, y)
    requires x.p[0] == root && forall a | 0 < a < SLOTS :: x.p[a] == 0
    ensures UsedKept(flat, bits, y.flat, y.bits, |flat|) && !y.bits[root]
  {
    assert !Need(0, 0);
    forall s | 0 <= s < |flat| && bits[s] ensures y.bits[s] && y.flat[s] == flat[s] {
      assert !Owns(x.p, s) && !IsIndex(x.p, s);
    }
  }

  lemma BareHarmless(free: nat, root: Word)
    requires root != 0
    ensures Harmless(free, root, 0) <==> free == 0
  {
  }

  lemma GivenBackAgain(bits: seq<bool>, root: nat, bits': seq<bool>)
    requires root < |bits| == |bits'| && !bits'[root]
    ensures NoneLost(bits, bits') <==> NoneLost(bits[root := true], bits')
  {
  }

  /** The first-level table is the one sector that creation gives back. */
  lemma CreateLoses(bits: seq<bool>, root: Word, x: Start, y: Now, stop: nat)
    requires 0 < root < |bits| && !bits[root] && bits[0]
    requires x.bits == bits[root := true] && RolledBack(x, 0, y) && !y.bits[root] && Loss(x, y, stop)
    requires x.p[0] == root && forall a | 0 < a < SLOTS :: x.p[a] == 0
    requires |Free(x.bits)| == |Taken(x.p, x.size, stop)|
    ensures NoneLost(bits, y.bits) <==> |Free(bits)| <= 1
  {
    assert TreeOk(x.bits, x.p) && Settled(x.p, 0);
    FailedResizeLoses(x, 0, y, stop);
    FreeLess(bits, root);
    BareHarmless(|Free(x.bits)|, root);
    GivenBackAgain(bits, root, y.bits);
  }

  /** The failure of `inode_resize` in `inode_create`. */
  lemma CreateFails(flat: seq<Block>, bits: seq<bool>, root: Word, x: Start, y: Now, stop: nat, full: bool)
    requires |flat| == |bits| && 0 < root < |flat| && !bits[root] && bits[0] && |y.bits| > 0 && y.bits[0]
    requires x.flat == flat[root := Zeros()] && x.bits == bits[root := true]
    requires x.p[0] == root && forall a | 0 < a < SLOTS :: x.p[a] == 0
    requires RolledBack(x, 0, y) && Loss(x, y, stop)
    requires full ==> |Free(x.bits)| == |Taken(x.p, x.size, stop)|
    ensures UsedKept(flat, bits, y.flat, y.bits, |flat|)
    ensures full ==> (NoneLost(bits, y.bits) <==> |Free(bits)| <= 1)
  {
    BareUsedKept(flat, bits, root, x, y);
    if full {
      CreateLoses(bits, root, x, y, stop);
    }
  }

  /** The sectors of a new file, with its first-level table. */
  function SectorsOf(length: nat): nat { 1 + Leaves(length) + Datas(length) }

  lemma RootAtLeast(length: nat, need: nat)
    requires need == SectorsOf(length)
    ensures need >= 1 && (length == 0 ==> need == 1)
  {
  }

  lemma BareWants(p: Slots, length: nat, need: nat)
    requires 0 < length <= MAX_FILE_SIZE && need == SectorsOf(length) && p[0] != 0
    requires forall a | 0 < a < SLOTS :: p[a] == 0
    ensures |Missing(p, length)| == need - 1
  {
    MissingCount(p, 0, length);
  }

  lemma FreeLess(bits: seq<bool>, s: nat)
    requires s < |bits| && !bits[s]
    ensures |Free(bits[s := true])| == |Free(bits)| - 1
  {
    assert Free(bits[s := true]) == Free(bits) - {s};
  }

  /** `inode_create` after it has taken sector `root` for the first-level table:
      the sectors for `length` bytes. */
  method CreateData(c: Cache, m: SectorMap, ino: nat, root: Word, length: nat,
                    ghost flat: seq<Block>, ghost bits: seq<bool>, ghost need: nat) returns (ok: bool, d: Inode)
    requires Mounted(c, m) && |flat| == |bits| == |c.disk| && 0 < root < |flat| && !bits[root] && bits[0]
    requires c.flat == flat[root := Zeros()] && m.bits == bits[root := true]
    requires ino < |flat| && bits[ino] && 0 < length <= MAX_FILE_SIZE && need == SectorsOf(length)
    modifies c, m, m.store.words
    ensures Mounted(c, m) && |c.disk| == old(|c.disk|)
    ensures ok ==>
      && Fresh(c.flat, m.bits, SlotsOf(c.flat, d.root), ino, length) && d == Inode(false, d.root, length, INODE_MAGIC)
      && UsedKept(flat, bits, c.flat[ino := InodeBlock(d)], m.bits, ino) && d.root != 0
    ensures !ok ==> UsedKept(flat, bits, c.flat, m.bits, |flat|)
    ensures !ok && m.writable ==> (NoneLost(bits, m.bits) <==> |Free(bits)| <= 1)
    ensures ok ==> need <= |Free(bits)|
    ensures m.writable && need <= |Free(bits)| ==> ok
  {
    FreeLess(bits, root);
    BareTree(c.flat, root);
    BareIsFresh(c.flat, m.bits, root, ino);
    ghost var x := Begin(c.flat, m.bits, root, length);
    ghost var stop;
    BareWants(x.p, length, need);
    ok, d, stop := Resize(c, m, Inode(false, root, 0, INODE_MAGIC), length);
    ghost var y := Now(c.flat, m.bits, SlotsOf(c.flat, d.root));
    if ok {
      assert Need(0, length) && y.p[0] == SlotAt(c.flat, d.root, 0);
      GrownIsFresh(x, y, ino);
      GrownUsedKept(flat, bits, root, x, y, ino, InodeBlock(d));
    } else {
      CreateFails(flat, bits, root, x, y, stop, m.writable);
    }
  }

  /** The inode of a new file is written. */
  method CreateInode(c: Cache, m: SectorMap, ino: nat, d: Inode, ghost flat: seq<Block>, ghost bits: seq<bool>)
    requires Mounted(c, m) && |flat| == |bits| == |c.disk|
    requires ino < |flat| && Fresh(c.flat, m.bits, SlotsOf(c.flat, d.root), ino, d.length)
    requires UsedKept(flat, bits, c.flat[ino := InodeBlock(d)], m.bits, ino)
    modifies c
    ensures Mounted(c, m) && |c.disk| == old(|c.disk|)
    ensures FileOk(c.flat, m.bits, ino) && InodeIn(c.flat, ino) == d && ZeroFrom(c.flat, FileSlots(c.flat, ino), 0)
    ensures UsedKept(flat, bits, c.flat, m.bits, ino)
  {
    FreshFile(c.flat, m.bits, ino, d);
    WriteSector(c, m, ino, InodeBlock(d));
  }

  /** `inode_create`, for a sector that the caller has taken: an inode for a file
      of `length` zeros, or nothing. */
  method Create(c: Cache, m: SectorMap, ino: nat, length: nat) returns (ok: bool)
    requires Mounted(c, m) && ino < |c.disk| && m.bits[ino] && length <= MAX_FILE_SIZE
    modifies c, m, m.store.words
    ensures Mounted(c, m) && |c.disk| == old(|c.disk|)
    ensures ok ==>
      && FileOk(c.flat, m.bits, ino) && InodeIn(c.flat, ino).root != 0
      && InodeIn(c.flat, ino) == Inode(false, InodeIn(c.flat, ino).root, length, INODE_MAGIC)
      && ZeroFrom(c.flat, FileSlots(c.flat, ino), 0)
      && UsedKept(old(c.flat), old(m.bits), c.flat, m.bits, ino)
    ensures !ok ==> UsedKept(old(c.flat), old(m.bits), c.flat, m.bits, |c.disk|)
    ensures !ok && m.writable ==> (NoneLost(old(m.bits), m.bits) <==> |Free(old(m.bits))| <= 1)
    ensures m.writable ==> (ok <==> SectorsOf(length) <= |Free(old(m.bits))|)
  {
    ghost var need := SectorsOf(length);
    RootAtLeast(length, need);
    var root;
    ok, root := AddSector(c, m);
    if !ok {
      return;
    }
    FreeLess(old(m.bits), root);
    BareTree(c.flat, root);
    BareIsFresh(c.flat, m.bits, root, ino);
    var d := Inode(false, root, 0, INODE_MAGIC);
    if length > 0 {
      ok, d := CreateData(c, m, ino, root, length, old(c.flat), old(m.bits), need);
      if !ok {
        return;
      }
    }
    CreateInode(c, m, ino, d, old(c.flat), old(m.bits));
  }

  /** The end of a removed file in `inode_close`: `free_all_data_sectors` and the
      release of the inode's own sector. Exactly the sectors of the file and its
      inode become free. */
  method Remove(c: Cache, m: SectorMap, ino: nat)
    requires Mounted(c, m) && FileOk(c.flat, m.bits, ino) && ino > 0
    modifies c, m, m.store.words
    ensures Mounted(c, m) && |c.disk| == old(|c.disk|)
    ensures forall s | 0 < s < |m.bits| ::
      m.bits[s] <==> old(m.bits)[s] && !Owns(old(FileSlots(c.flat, ino)), s) && s != ino
    ensures forall s | 0 <= s < |m.bits| && m.bits[s] :: c.flat[s] == old(c.flat)[s]
  {
    var b := ReadSector(c, m, ino);
    var d := InodeAt(b);
    ghost var x := Begin(c.flat, m.bits, d.root, 0);
    var ok, d';
    ghost var stop;
    ok, d', stop := Resize(c, m, d, 0);
    ghost var y := Now(c.flat, m.bits, SlotsOf(c.flat, d'.root));
    GivenBack(x, y, ino);
    FreeSector(m, ino);
  }

  lemma GivenBack(x: Start, y: Now, ino: nat)
    requires Resized(x, y) && x.size == 0 && 0 < ino < |x.bits| && x.bits[ino] && !Owns(x.p, ino)
    ensures y.bits[ino]
    ensures forall s | 0 < s < |x.bits| :: y.bits[s] <==> x.bits[s] && !Owns(x.p, s)
    ensures forall s | 0 <= s < |x.bits| && y.bits[s] :: y.flat[s] == x.flat[s]
  {
    InodeAside(x, y, ino);
    forall s | 0 < s < |x.bits| ensures y.bits[s] <==> x.bits[s] && !Owns(x.p, s) {
      ResizeToZero(x, y, s);
    }
    forall s | 0 <= s < |x.bits| && y.bits[s] ensures y.flat[s] == x.flat[s] {
      InodeAside(x, y, s);
    }
  }
}
