/** Bytes, bits and words of a disk block, as kernel/fs.c reads and writes them. */
module DiskBytes {
  const BSIZE := 1024
  /** bits per bitmap block, words per indirect block */
  const BPB := BSIZE * 8
  const NINDIRECT := BSIZE / 4

  type Byte = bv8
  type Block = s: seq<Byte> | |s| == BSIZE witness seq(BSIZE, _ => 0)

  /** 1 << (bi % 8) */
  function Mask(i: nat): Byte
    requires i < 8
  {
    1 << i
  }

  predicate ByteBit(x: Byte, i: nat)
    requires i < 8
  {
    x & Mask(i) != 0
  }

  predicate Bit(b: Block, i: nat)
    requires i < BPB
  {
    ByteBit(b[i / 8], i % 8)
  }

  lemma Masks()
    ensures Mask(0) == 1 && Mask(1) == 2 && Mask(2) == 4 && Mask(3) == 8
    ensures Mask(4) == 16 && Mask(5) == 32 && Mask(6) == 64 && Mask(7) == 128
  {
  }

  lemma SetByteBit(x: Byte, i: nat, j: nat)
    requires i < 8 && j < 8
    ensures ByteBit(x | Mask(i), j) <==> j == i || ByteBit(x, j)
    ensures ByteBit(x & !Mask(i), j) <==> j != i && ByteBit(x, j)
  {
    hide Mask;
    Masks();
  }

  lemma ChangeBit(b: Block, i: nat, x: Byte, r: Block, on: bool)
    requires i < BPB && r == b[i / 8 := x]
    requires x == if on then b[i / 8] | Mask(i % 8) else b[i / 8] & !Mask(i % 8)
    ensures forall j: nat :: j < BPB ==> (Bit(r, j) <==> if j == i then on else Bit(b, j))
  {
    hide ByteBit, Mask;
    forall j: nat | j < BPB
      ensures Bit(r, j) <==> if j == i then on else Bit(b, j)
    {
      SetByteBit(b[i / 8], i % 8, j % 8);
    }
  }

  /** data[i / 8] |= m */
  function SetBit(b: Block, i: nat): (r: Block)
    requires i < BPB
    ensures forall j: nat :: j < BPB ==> (Bit(r, j) <==> j == i || Bit(b, j))
  {
    var x := b[i / 8] | Mask(i % 8);
    ChangeBit(b, i, x, b[i / 8 := x], true);
    b[i / 8 := x]
  }

  /** data[i / 8] &= ~m */
  function ClearBit(b: Block, i: nat): (r: Block)
    requires i < BPB
    ensures forall j: nat :: j < BPB ==> (Bit(r, j) <==> j != i && Bit(b, j))
  {
    var x := b[i / 8] & !Mask(i % 8);
    ChangeBit(b, i, x, b[i / 8 := x], false);
    b[i / 8 := x]
  }

  /** ((uint *)data)[i], little endian. */
  function Word(b: Block, i: nat): nat
    requires i < NINDIRECT
  {
    WordOf(b[4 * i], b[4 * i + 1], b[4 * i + 2], b[4 * i + 3])
  }

  function WordOf(b0: Byte, b1: Byte, b2: Byte, b3: Byte): nat {
    b0 as nat + 0x100 * b1 as nat + 0x1_0000 * b2 as nat + 0x100_0000 * b3 as nat
  }

  function Byte0(v: nat): Byte {
    (v % 0x100) as bv8
  }

  ghost function ByteOf(x: nat): (r: Byte)
    requires x < 0x100
    ensures r as nat == x
  {
    if x == 0 then 0 else ByteOf(x - 1) + 1
  }

  lemma ByteRoundTrip(x: nat)
    requires x < 0x100
    ensures (x as bv8) as nat == x
  {
    NatRoundTrip(ByteOf(x));
  }

  lemma NatRoundTrip(b: Byte)
    ensures (b as nat) as bv8 == b
  {
  }

  lemma ByteNat(v: nat)
    ensures Byte0(v) as nat == v % 0x100
  {
    ByteRoundTrip(v % 0x100);
  }

  lemma Digits(v: nat)
    requires v < 0x1_0000_0000
    ensures v % 0x100 + 0x100 * (v / 0x100 % 0x100) + 0x1_0000 * (v / 0x1_0000 % 0x100)
            + 0x100_0000 * (v / 0x100_0000 % 0x100) == v
  {
    assert v / 0x100 / 0x100 == v / 0x1_0000 && v / 0x1_0000 / 0x100 == v / 0x100_0000;
    assert v / 0x100_0000 % 0x100 == v / 0x100_0000;
  }

  lemma WordOfBytes(v: nat)
    requires v < 0x1_0000_0000
    ensures WordOf(Byte0(v), Byte0(v / 0x100), Byte0(v / 0x1_0000), Byte0(v / 0x100_0000)) == v
  {
    hide Byte0;
    ByteNat(v);
    ByteNat(v / 0x100);
    ByteNat(v / 0x1_0000);
    ByteNat(v / 0x100_0000);
    Digits(v);
  }

  function SetWord(b: Block, i: nat, v: nat): (r: Block)
    requires i < NINDIRECT && v < 0x1_0000_0000
    ensures forall j: nat :: j < NINDIRECT ==> Word(r, j) == if j == i then v else Word(b, j)
  {
    WordOfBytes(v);
    b[4 * i := Byte0(v)][4 * i + 1 := Byte0(v / 0x100)]
     [4 * i + 2 := Byte0(v / 0x1_0000)][4 * i + 3 := Byte0(v / 0x100_0000)]
  }

  function ZeroBlock(): (r: Block)
    ensures forall j: nat :: j < NINDIRECT ==> Word(r, j) == 0
    ensures forall j :: 0 <= j < BSIZE ==> r[j] == 0
  {
    seq(BSIZE, _ => 0)
  }

  /** `src` copied into the block at offset `at`. */
  function Patch(b: Block, at: nat, src: seq<Byte>): (r: Block)
    requires at + |src| <= BSIZE
    ensures forall j :: 0 <= j < BSIZE ==> r[j] == if at <= j < at + |src| then src[j - at] else b[j]
  {
    b[..at] + src + b[at + |src|..]
  }
}
