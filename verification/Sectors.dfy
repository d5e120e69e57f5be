/** Device sectors as 512 bytes, and the two structures the file system keeps in
    them: a table of 128 sector numbers, and an inode. */
module Sectors {
  import opened Common

  type Word = w: int | 0 <= w < 0x1_0000_0000

  const SECTOR_SIZE: nat := 512
  const NUM_POINTERS: nat := 128
  const INODE_MAGIC: Word := 0x494e4f44

  type Block = b: seq<Byte> | |b| == SECTOR_SIZE witness seq(SECTOR_SIZE, _ => 0)
  type Table = t: seq<Word> | |t| == NUM_POINTERS witness seq(NUM_POINTERS, _ => 0)

  function Zeros(): Block { seq(SECTOR_SIZE, _ => 0) }

  function NoPointers(): Table { seq(NUM_POINTERS, _ => 0) }

  /** Four bytes, least significant first, as one number. */
  function Join(a: int, b: int, c: int, d: int): int {
    a + 0x100 * (b + 0x100 * (c + 0x100 * d))
  }

  /** Byte `k` of the little-endian form of `w`. */
  function ByteOf(w: Word, k: nat): Byte
    requires k < 4
  {
    if k == 0 then w % 0x100
    else if k == 1 then w / 0x100 % 0x100
    else if k == 2 then w / 0x100 / 0x100 % 0x100
    else w / 0x100 / 0x100 / 0x100
  }

  /** Bytes read as little-endian 32-bit words. */
  function WordsOf(b: seq<Byte>): (t: seq<Word>)
    ensures |t| == |b| / 4
  {
    if |b| < 4 then [] else [Join(b[0], b[1], b[2], b[3])] + WordsOf(b[4..])
  }

  /** Words written as little-endian bytes. */
  function BytesOf(t: seq<Word>): (b: seq<Byte>)
    ensures |b| == 4 * |t|
  {
    if t == [] then []
    else [ByteOf(t[0], 0), ByteOf(t[0], 1), ByteOf(t[0], 2), ByteOf(t[0], 3)] + BytesOf(t[1..])
  }

  /** A sector read as `struct indirect`, and `struct indirect` as a sector. */
  function Pointers(b: Block): Table { WordsOf(b) }
  function PointerBlock(t: Table): Block { BytesOf(t) }

  lemma WordBytes(w: Word)
    ensures Join(ByteOf(w, 0), ByteOf(w, 1), ByteOf(w, 2), ByteOf(w, 3)) == w
  {
  }

  lemma BytesOfWord(a: Byte, b: Byte, c: Byte, d: Byte)
    ensures var w := Join(a, b, c, d);
      ByteOf(w, 0) == a && ByteOf(w, 1) == b && ByteOf(w, 2) == c && ByteOf(w, 3) == d
  {
    var w: Word := Join(a, b, c, d);
    assert w / 0x100 == b + 0x100 * (c + 0x100 * d);
    assert w / 0x100 / 0x100 == c + 0x100 * d;
    assert w / 0x100 / 0x100 / 0x100 == d;
  }

  lemma {:induction false} WordsRoundTrip(t: seq<Word>)
    ensures WordsOf(BytesOf(t)) == t
  {
    if t != [] {
      var first := [ByteOf(t[0], 0), ByteOf(t[0], 1), ByteOf(t[0], 2), ByteOf(t[0], 3)];
      WordsRoundTrip(t[1..]);
      WordBytes(t[0]);
      assert (first + BytesOf(t[1..]))[4..] == BytesOf(t[1..]);
    }
  }

  lemma {:induction false} BytesRoundTrip(b: seq<Byte>)
    requires |b| % 4 == 0
    ensures BytesOf(WordsOf(b)) == b
  {
    if b != [] {
      BytesRoundTrip(b[4..]);
      BytesOfWord(b[0], b[1], b[2], b[3]);
      assert WordsOf(b)[1..] == WordsOf(b[4..]);
      assert b == [b[0], b[1], b[2], b[3]] + b[4..];
    }
  }

  /** Writing a table to a sector and reading it back gives the same table, and
      every sector is the image of the table it holds. */
  lemma PointersRoundTrip(t: Table)
    ensures Pointers(PointerBlock(t)) == t
  {
    WordsRoundTrip(t);
  }

  lemma BlockRoundTrip(b: Block)
    ensures PointerBlock(Pointers(b)) == b
  {
    BytesRoundTrip(b);
  }

  lemma {:induction false} ZeroWords(n: nat)
    ensures WordsOf(seq(4 * n, _ => 0)) == seq(n, _ => 0)
  {
    if n > 0 {
      ZeroWords(n - 1);
      var z: seq<Byte> := seq(4 * n, _ => 0);
      var z': seq<Byte> := seq(4 * (n - 1), _ => 0);
      assert z[4..] == z';
    }
  }

  lemma ZerosAreNoPointers()
    ensures Pointers(Zeros()) == NoPointers()
  {
    ZeroWords(NUM_POINTERS);
  }

  /** `struct inode_disk`, without its unused words. */
  datatype Inode = Inode(isDir: bool, root: Word, length: Word, magic: Word)

  function InodeBlock(d: Inode): Block {
    BytesOf([if d.isDir then 1 else 0, d.root, d.length, d.magic]) + seq(SECTOR_SIZE - 16, _ => 0)
  }

  function InodeAt(b: Block): Inode {
    var w := WordsOf(b[..16]);
    Inode(b[0] != 0, w[1], w[2], w[3])
  }

  lemma InodeRoundTrip(d: Inode)
    ensures InodeAt(InodeBlock(d)) == d
  {
    var t: seq<Word> := [if d.isDir then 1 else 0, d.root, d.length, d.magic];
    WordsRoundTrip(t);
    assert InodeBlock(d)[..16] == BytesOf(t);
    assert BytesOf(t)[0] == ByteOf(t[0], 0);
  }

  lemma {:induction false} BytesAt(t: seq<Word>, k: nat, i: nat, at: nat)
    requires k < |t| && i < 4 && at == 4 * k + i
    ensures at < |BytesOf(t)| && BytesOf(t)[at] == ByteOf(t[k], i)
  {
    if k > 0 {
      BytesAt(t[1..], k - 1, i, at - 4);
    }
  }

  /** Word `w` is at offset `at`, its lowest byte first. */
  predicate WordAt(b: Block, at: nat, w: Word) {
    && at + 4 <= SECTOR_SIZE
    && b[at] == w % 256 && b[at + 1] == w / 256 % 256 && b[at + 2] == w / 65536 % 256 && b[at + 3] == w / 16777216
  }

  lemma ByteOfIs(w: Word)
    ensures ByteOf(w, 0) == w % 256 && ByteOf(w, 1) == w / 256 % 256
    ensures ByteOf(w, 2) == w / 65536 % 256 && ByteOf(w, 3) == w / 16777216
  {
  }

  lemma WordOfBytes(b: Block, at: nat, w: Word)
    requires at + 4 <= SECTOR_SIZE && b[at] == ByteOf(w, 0) && b[at + 1] == ByteOf(w, 1)
    requires b[at + 2] == ByteOf(w, 2) && b[at + 3] == ByteOf(w, 3)
    ensures WordAt(b, at, w)
  {
    ByteOfIs(w);
  }

  /** Byte `i` of word `k` stands at `4 * k + i`. */
  ghost predicate BytesAre(bytes: seq<Byte>, t: seq<Word>) {
    && |bytes| == 4 * |t|
    && forall k: nat, i: nat {:trigger ByteOf(t[k], i)} | k < |t| && i < 4 :: bytes[4 * k + i] == ByteOf(t[k], i)
  }

  lemma BytesFit(t: seq<Word>)
    ensures BytesAre(BytesOf(t), t)
  {
    forall k: nat, i: nat | k < |t| && i < 4 ensures BytesOf(t)[4 * k + i] == ByteOf(t[k], i) {
      BytesAt(t, k, i, 4 * k + i);
    }
  }

  lemma WordIn(t: seq<Word>, b: Block, bytes: seq<Byte>, k: nat, at: nat)
    requires k < |t| && BytesAre(bytes, t) && bytes <= b && at == 4 * k
    ensures WordAt(b, at, t[k])
  {
    var w := t[k];
    assert bytes[4 * k + 0] == ByteOf(t[k], 0) && bytes[4 * k + 1] == ByteOf(t[k], 1);
    assert bytes[4 * k + 2] == ByteOf(t[k], 2) && bytes[4 * k + 3] == ByteOf(t[k], 3);
    WordOfBytes(b, at, w);
  }

  /** Where the parts of an inode are in its sector. */
  lemma InodeLayout(d: Inode)
    ensures var b := InodeBlock(d);
      && b[0] == (if d.isDir then 1 else 0) && WordAt(b, 4, d.root) && WordAt(b, 8, d.length) && WordAt(b, 12, d.magic)
      && forall i | 16 <= i < SECTOR_SIZE :: b[i] == 0
  {
    var b, t: seq<Word> := InodeBlock(d), [if d.isDir then 1 else 0, d.root, d.length, d.magic];
    var bytes := BytesOf(t);
    BytesFit(t);
    WordIn(t, b, bytes, 0, 0);
    WordIn(t, b, bytes, 1, 4);
    WordIn(t, b, bytes, 2, 8);
    WordIn(t, b, bytes, 3, 12);
  }

  /** And the words of a table. */
  lemma PointerLayout(t: Table, k: nat)
    requires k < NUM_POINTERS
    ensures WordAt(PointerBlock(t), 4 * k, t[k])
  {
    var b := PointerBlock(t);
    BytesFit(t);
    WordIn(t, b, b, k, 4 * k);
  }

  /** `base` with the bytes of `buf` put at offset `ofs`. */
  function Overlay(base: Block, buf: seq<Byte>, ofs: nat): Block
    requires ofs + |buf| <= SECTOR_SIZE
  {
    base[..ofs] + buf + base[ofs + |buf|..]
  }
}
