/**
 * Bytes and 32-bit words as the parameter files hold them. A C `int` or `float`
 * is stored as its four bytes, least significant first: the in-memory layout on
 * the little-endian machines the tool is built for, which `fread`/`fwrite` copy
 * verbatim.
 */
module Bytes {
  type Byte = b: int | 0 <= b < 0x100
  type Word = w: int | 0 <= w < 0x1_0000_0000
  /** A C `int`. */
  type Int32 = x: int | -0x8000_0000 <= x < 0x8000_0000

  function Min(a: int, b: int): int { if a <= b then a else b }

  /** The four bytes of `w`, least significant first. */
  function WordBytes(w: Word): (bs: seq<Byte>)
    ensures |bs| == 4
  {
    [w % 0x100, w / 0x100 % 0x100, w / 0x1_0000 % 0x100, w / 0x100_0000]
  }

  /** The word whose little-endian bytes are `bs`. */
  function WordOf(bs: seq<Byte>): Word
    requires |bs| == 4
  {
    var b0, b1, b2, b3: int := bs[0], bs[1], bs[2], bs[3];
    b0 + 0x100 * b1 + 0x1_0000 * b2 + 0x100_0000 * b3
  }

  lemma WordOfWordBytes(w: Word)
    ensures WordOf(WordBytes(w)) == w
  {
    var q1, q2 := w / 0x100, w / 0x1_0000;
    assert w == 0x100 * q1 + w % 0x100;
    assert q1 == 0x100 * (q1 / 0x100) + q1 % 0x100;
    assert q1 / 0x100 == q2;
    assert q2 == 0x100 * (q2 / 0x100) + q2 % 0x100;
    assert q2 / 0x100 == w / 0x100_0000;
  }

  lemma WordBytesWordOf(bs: seq<Byte>)
    requires |bs| == 4
    ensures WordBytes(WordOf(bs)) == bs
  {
    var w := WordOf(bs);
    var b0, b1, b2, b3: int := bs[0], bs[1], bs[2], bs[3];
    assert w == b0 + 0x100 * (b1 + 0x100 * (b2 + 0x100 * b3));
    DivMod(bs[0], b1 + 0x100 * (b2 + 0x100 * b3));
    DivMod(bs[1], b2 + 0x100 * b3);
    DivMod(bs[2], bs[3]);
    assert w / 0x1_0000 == (w / 0x100) / 0x100;
    assert w / 0x100_0000 == (w / 0x1_0000) / 0x100;
  }

  lemma DivMod(lo: Byte, hi: nat)
    ensures (lo + 0x100 * hi) % 0x100 == lo && (lo + 0x100 * hi) / 0x100 == hi
  {
  }

  /** The bit pattern of a C `int`: two's complement. */
  function Unsigned(x: Int32): (w: Word)
    ensures Signed(w) == x
  {
    if x < 0 then x + 0x1_0000_0000 else x
  }

  /** The C `int` whose bit pattern is `w`. */
  function Signed(w: Word): Int32
  {
    if w < 0x8000_0000 then w else w - 0x1_0000_0000
  }

  lemma UnsignedSigned(w: Word)
    ensures Unsigned(Signed(w)) == w
  {
  }

  /** The bytes of a sequence of words, one after the other. */
  function Flatten(ws: seq<Word>): (bs: seq<Byte>)
    ensures |bs| == 4 * |ws|
  {
    if ws == [] then [] else WordBytes(ws[0]) + Flatten(ws[1..])
  }

  /** The words of a byte sequence, four bytes at a time. */
  function Chunks(bs: seq<Byte>): (ws: seq<Word>)
    requires |bs| % 4 == 0
    ensures |ws| == |bs| / 4
  {
    if bs == [] then [] else [WordOf(bs[..4])] + Chunks(bs[4..])
  }

  lemma {:induction false} ChunksFlatten(ws: seq<Word>)
    ensures Chunks(Flatten(ws)) == ws
  {
    if ws != [] {
      var bs := Flatten(ws);
      assert bs[..4] == WordBytes(ws[0]);
      assert bs[4..] == Flatten(ws[1..]);
      WordOfWordBytes(ws[0]);
      ChunksFlatten(ws[1..]);
    }
  }

  /** Word `j` of a flattened sequence sits at bytes 4j to 4j+3. */
  lemma {:induction false} FlattenAt(ws: seq<Word>, j: nat)
    requires j < |ws|
    ensures Flatten(ws)[4 * j..4 * j + 4] == WordBytes(ws[j])
  {
    if j > 0 {
      FlattenAt(ws[1..], j - 1);
      assert Flatten(ws) == WordBytes(ws[0]) + Flatten(ws[1..]);
      assert Flatten(ws)[4 * j..4 * j + 4] == Flatten(ws[1..])[4 * (j - 1)..4 * (j - 1) + 4];
    }
  }

  /** Word `j` of the chunks is read from bytes 4j to 4j+3. */
  lemma {:induction false} ChunksAt(bs: seq<Byte>, j: nat)
    requires |bs| % 4 == 0 && j < |bs| / 4
    ensures Chunks(bs)[j] == WordOf(bs[4 * j..4 * j + 4])
  {
    if j > 0 {
      ChunksAt(bs[4..], j - 1);
      assert bs[4..][4 * (j - 1)..4 * (j - 1) + 4] == bs[4 * j..4 * j + 4];
    }
  }

  function Zeros(n: nat): (z: seq<Byte>)
    ensures |z| == n && forall k | 0 <= k < n :: z[k] == 0
  {
    seq(n, _ => 0)
  }

  /**
   * What `fread(buffer, 1, |fill|, file)` leaves in a buffer that held `fill`
   * when the file is positioned at byte `off`: the bytes of the file from `off`
   * on, and past the end of the file the buffer's own bytes, untouched.
   */
  function Window(file: seq<Byte>, off: nat, fill: seq<Byte>): (w: seq<Byte>)
    ensures |w| == |fill|
    ensures off + |fill| <= |file| ==> w == file[off..off + |fill|]
    ensures |file| <= off ==> w == fill
    ensures off <= |file| <= off + |fill| ==> w == file[off..] + fill[|file| - off..]
  {
    seq(|fill|, k requires 0 <= k < |fill| => if off + k < |file| then file[off + k] else fill[k])
  }

  /** Zero words are zero bytes. */
  lemma {:induction false} FlattenZeros(ws: seq<Word>)
    requires forall j | 0 <= j < |ws| :: ws[j] == 0
    ensures Flatten(ws) == Zeros(4 * |ws|)
  {
    if ws != [] {
      FlattenZeros(ws[1..]);
      assert WordBytes(ws[0]) == Zeros(4);
    }
  }

  /**
   * What `fread(&x, 1, 4, file)` leaves in a 4-byte variable `x` whose bit
   * pattern was `prior`, when the file is positioned at byte `off`.
   */
  function Overlay(file: seq<Byte>, off: nat, prior: Word): (w: Word)
    ensures off + 4 <= |file| ==> w == WordOf(file[off..off + 4])
    ensures |file| <= off ==> w == prior
  {
    WordOfWordBytes(prior);
    WordOf(Window(file, off, WordBytes(prior)))
  }

  /** The word stored at byte `off`, with the bytes past the end of the file read as 0. */
  function WordAt(file: seq<Byte>, off: nat): Word
  {
    Overlay(file, off, 0)
  }

  /** A word stored in the middle of a file reads back as itself. */
  lemma {:induction false} WordAtFlatten(pre: seq<Byte>, ws: seq<Word>, post: seq<Byte>, j: nat)
    requires j < |ws|
    ensures WordAt(pre + Flatten(ws) + post, |pre| + 4 * j) == ws[j]
  {
    var file := pre + Flatten(ws) + post;
    FlattenAt(ws, j);
    assert file[|pre| + 4 * j..|pre| + 4 * j + 4] == Flatten(ws)[4 * j..4 * j + 4];
    WordOfWordBytes(ws[j]);
  }
}
