// A disk block as the file system reads it (OS-Lab-1/fs.c): bytes, an array of
// little-endian block numbers, or a stretch of the free bitmap.

module FsBlock {
  import opened Params
  import opened Disk

  const NINDIRECT: nat := 128   // BSIZE / sizeof(uint)
  const BPB: nat := 4096        // BSIZE * 8
  const UINT: nat := 0x1_0000_0000

  type Bytes = b: seq<byte> | |b| == BSIZE witness seq(BSIZE, _ => 0)

  function Zeros(): Bytes {
    seq(BSIZE, _ => 0)
  }

  // ----- block numbers

  function Word(b0: nat, b1: nat, b2: nat, b3: nat): nat {
    b0 + 0x100 * (b1 + 0x100 * (b2 + 0x100 * b3))
  }

  function Byte(v: nat, k: nat): byte
    requires k < 4
  {
    match k
    case 0 => v % 0x100
    case 1 => v / 0x100 % 0x100
    case 2 => v / 0x100 / 0x100 % 0x100
    case 3 => v / 0x100 / 0x100 / 0x100 % 0x100
  }

  function Ptr(b: Bytes, i: nat): nat
    requires i < NINDIRECT
  {
    Word(b[4 * i], b[4 * i + 1], b[4 * i + 2], b[4 * i + 3])
  }

  function SetPtr(b: Bytes, i: nat, v: nat): Bytes
    requires i < NINDIRECT && v < UINT
  {
    b[4 * i := Byte(v, 0)][4 * i + 1 := Byte(v, 1)][4 * i + 2 := Byte(v, 2)][4 * i + 3 := Byte(v, 3)]
  }

  lemma WordOfBytes(v: nat)
    requires v < UINT
    ensures Word(Byte(v, 0), Byte(v, 1), Byte(v, 2), Byte(v, 3)) == v
  {
    var v1 := v / 0x100;
    var v2 := v1 / 0x100;
    assert v2 < 0x1_0000;
    var v3 := v2 / 0x100;
    assert v3 < 0x100;
  }

  lemma SetPtrPtr(b: Bytes, i: nat, v: nat, j: nat)
    requires i < NINDIRECT && j < NINDIRECT && v < UINT
    ensures Ptr(SetPtr(b, i, v), j) == if j == i then v else Ptr(b, j)
  {
    hide Word, Byte;
    WordOfBytes(v);
  }

  lemma PtrZeros(i: nat)
    requires i < NINDIRECT
    ensures Ptr(Zeros(), i) == 0
  {
  }

  // ----- bits

  function Pow2(k: nat): nat {
    if k == 0 then 1 else 2 * Pow2(k - 1)
  }

  /** x & (1 << k) is not zero. */
  predicate BitAt(x: nat, k: nat) {
    if k == 0 then x % 2 == 1 else BitAt(x / 2, k - 1)
  }

  /** x | (1 << k) */
  function OrBit(x: nat, k: nat): nat {
    if k == 0 then x / 2 * 2 + 1 else x % 2 + 2 * OrBit(x / 2, k - 1)
  }

  /** x & ~(1 << k) */
  function AndNotBit(x: nat, k: nat): nat {
    if k == 0 then x / 2 * 2 else x % 2 + 2 * AndNotBit(x / 2, k - 1)
  }

  lemma {:induction false} BitsFit(x: nat, k: nat, w: nat)
    requires k < w && x < Pow2(w)
    ensures OrBit(x, k) < Pow2(w) && AndNotBit(x, k) < Pow2(w)
  {
    if k > 0 {
      BitsFit(x / 2, k - 1, w - 1);
    }
  }

  lemma {:induction false} OrBitAt(x: nat, k: nat, j: nat)
    ensures BitAt(OrBit(x, k), j) == (j == k || BitAt(x, j))
    ensures BitAt(AndNotBit(x, k), j) == (j != k && BitAt(x, j))
  {
    if k > 0 {
      assert OrBit(x, k) / 2 == OrBit(x / 2, k - 1);
      assert AndNotBit(x, k) / 2 == AndNotBit(x / 2, k - 1);
      if j > 0 {
        OrBitAt(x / 2, k - 1, j - 1);
      }
    }
  }

  predicate Bit(b: Bytes, i: nat)
    requires i < BPB
  {
    BitAt(b[i / 8], i % 8)
  }

  function SetBit(b: Bytes, i: nat): Bytes
    requires i < BPB
  {
    ByteFits(b[i / 8], i % 8);
    b[i / 8 := OrBit(b[i / 8], i % 8)]
  }

  function ClearBit(b: Bytes, i: nat): Bytes
    requires i < BPB
  {
    ByteFits(b[i / 8], i % 8);
    b[i / 8 := AndNotBit(b[i / 8], i % 8)]
  }

  lemma ByteFits(x: byte, k: nat)
    requires k < 8
    ensures OrBit(x, k) < 256 && AndNotBit(x, k) < 256
  {
    assert Pow2(8) == 256;
    BitsFit(x, k, 8);
  }

  lemma SetBitBit(b: Bytes, i: nat, j: nat)
    requires i < BPB && j < BPB
    ensures Bit(SetBit(b, i), j) == (j == i || Bit(b, j))
  {
    if i / 8 == j / 8 {
      OrBitAt(b[i / 8], i % 8, j % 8);
    }
  }

  lemma ClearBitBit(b: Bytes, i: nat, j: nat)
    requires i < BPB && j < BPB
    ensures Bit(ClearBit(b, i), j) == (j != i && Bit(b, j))
  {
    if i / 8 == j / 8 {
      OrBitAt(b[i / 8], i % 8, j % 8);
    }
  }
}
