/** Files as blocks: the bitmap allocator, the block map of an inode, truncation,
    and reading and writing of bytes (kernel/fs.c).

    `blocks` is the logical block store that the log and the buffer cache provide.
    `owner` says for each allocated data block which slot of which inode refers to
    it; Owned makes it a bijection. */
module FileBlocks {
  import opened Basics
  import opened DiskBytes
  import Journal

  const NDIRECT := 12
  const MAXFILE := NDIRECT + NINDIRECT
  /** The slot number of the indirect block itself. */
  const INDIRECT := MAXFILE
  const IPB := BSIZE / 64
  const UINT := 0x1_0000_0000

  datatype Super = Super(size: nat, ninodes: nat, inodestart: nat, bmapstart: nat, datastart: nat)
  datatype Inode = Inode(size: nat, addrs: seq<nat>)
  datatype Slot = Slot(inum: nat, k: nat)

  /** The layout mkfs makes: inode blocks, bitmap blocks, then data. */
  ghost predicate Geometry(sb: Super, blocks: seq<Block>) {
    && |blocks| == sb.size < UINT
    && sb.inodestart + sb.ninodes / IPB + 1 <= sb.bmapstart
    && sb.bmapstart + sb.size / BPB + 1 <= sb.datastart <= sb.size
  }

  function BBLOCK(sb: Super, b: nat): nat { b / BPB + sb.bmapstart }
  function IBLOCK(sb: Super, i: nat): nat { i / IPB + sb.inodestart }

  predicate BitSet(sb: Super, blocks: seq<Block>, b: nat)
    requires BBLOCK(sb, b) < |blocks|
  {
    Bit(blocks[BBLOCK(sb, b)], b % BPB)
  }

  /** The block in slot k of an inode, or 0. */
  function Addr(blocks: seq<Block>, ino: Inode, k: nat): nat {
    if |ino.addrs| != NDIRECT + 1 || k > INDIRECT then 0
    else if k < NDIRECT then ino.addrs[k]
    else if k == INDIRECT then ino.addrs[NDIRECT]
    else if ino.addrs[NDIRECT] == 0 || ino.addrs[NDIRECT] >= |blocks| then 0
    else Word(blocks[ino.addrs[NDIRECT]], k - NDIRECT)
  }

  /** Byte p of a file; a missing block reads as zeros. */
  function ByteAt(blocks: seq<Block>, ino: Inode, p: nat): Byte {
    var a := Addr(blocks, ino, p / BSIZE);
    if p / BSIZE >= MAXFILE || a == 0 || a >= |blocks| then 0 else blocks[a][p % BSIZE]
  }

  ghost predicate Owned(sb: Super, blocks: seq<Block>, inodes: seq<Inode>, owner: map<nat, Slot>)
    requires Geometry(sb, blocks)
  {
    && (forall i :: 0 <= i < |inodes| ==> |inodes[i].addrs| == NDIRECT + 1)
    && (forall i: nat, k: nat :: i < |inodes| && Addr(blocks, inodes[i], k) != 0 ==>
          Addr(blocks, inodes[i], k) in owner && owner[Addr(blocks, inodes[i], k)] == Slot(i, k))
    && (forall b :: b in owner ==>
          && sb.datastart <= b < sb.size && owner[b].inum < |inodes| && owner[b].k <= INDIRECT
          && Addr(blocks, inodes[owner[b].inum], owner[b].k) == b)
    && (forall b: nat :: b < sb.size ==> (BitSet(sb, blocks, b) <==> b < sb.datastart || b in owner))
  }

  ghost predicate NoHoles(blocks: seq<Block>, ino: Inode) {
    && ino.size <= MAXFILE * BSIZE
    && forall k: nat :: k * BSIZE < ino.size ==> Addr(blocks, ino, k) != 0
  }

  // ---------------------------------------------------------------- allocation

  /** balloc's effect: the bit set, the block zeroed. */
  function Allocated(sb: Super, blocks: seq<Block>, b: nat): (r: seq<Block>)
    requires BBLOCK(sb, b) < |blocks| && b < |blocks|
    ensures |r| == |blocks|
  {
    blocks[BBLOCK(sb, b) := SetBit(blocks[BBLOCK(sb, b)], b % BPB)][b := ZeroBlock()]
  }

  function Freed(sb: Super, blocks: seq<Block>, b: nat): (r: seq<Block>)
    requires BBLOCK(sb, b) < |blocks|
    ensures |r| == |blocks|
  {
    blocks[BBLOCK(sb, b) := ClearBit(blocks[BBLOCK(sb, b)], b % BPB)]
  }

  lemma AllocatedBits(sb: Super, blocks: seq<Block>, b: nat)
    requires Geometry(sb, blocks) && sb.datastart <= b < sb.size
    ensures Geometry(sb, Allocated(sb, blocks, b))
    ensures forall c: nat :: c < sb.size ==>
              (BitSet(sb, Allocated(sb, blocks, b), c) <==> c == b || BitSet(sb, blocks, c))
  {
    hide Bit, SetBit, ZeroBlock;
    var r := Allocated(sb, blocks, b);
    forall c: nat | c < sb.size
      ensures BitSet(sb, r, c) <==> c == b || BitSet(sb, blocks, c)
    {
      BitPlace(sb, blocks, b, c);
    }
  }

  /** The bit of a block lies before the data, and no two blocks share one. */
  lemma BitPlace(sb: Super, blocks: seq<Block>, b: nat, c: nat)
    requires Geometry(sb, blocks) && b < sb.size && c < sb.size
    ensures BBLOCK(sb, c) < sb.datastart && (BBLOCK(sb, c) == BBLOCK(sb, b) && c % BPB == b % BPB <==> c == b)
  {
    assert c == BPB * (c / BPB) + c % BPB && b == BPB * (b / BPB) + b % BPB;
  }

  lemma FreedBits(sb: Super, blocks: seq<Block>, b: nat)
    requires Geometry(sb, blocks) && sb.datastart <= b < sb.size
    ensures Geometry(sb, Freed(sb, blocks, b))
    ensures forall c: nat :: c < sb.size ==>
              (BitSet(sb, Freed(sb, blocks, b), c) <==> c != b && BitSet(sb, blocks, c))
  {
    hide Bit, ClearBit;
    var r := Freed(sb, blocks, b);
    forall c: nat | c < sb.size
      ensures BitSet(sb, r, c) <==> c != b && BitSet(sb, blocks, c)
    {
      BitPlace(sb, blocks, b, c);
    }
  }

  /** Two block stores that agree on every block an inode owns give it the same
      slots and the same bytes. */
  lemma SameFile(blocks: seq<Block>, blocks': seq<Block>, ino: Inode)
    requires |blocks'| == |blocks|
    requires forall k: nat :: Addr(blocks, ino, k) != 0 ==>
               Addr(blocks, ino, k) < |blocks| && blocks'[Addr(blocks, ino, k)] == blocks[Addr(blocks, ino, k)]
    ensures forall k: nat :: Addr(blocks', ino, k) == Addr(blocks, ino, k)
    ensures forall p: nat :: ByteAt(blocks', ino, p) == ByteAt(blocks, ino, p)
  {
    assert Addr(blocks', ino, INDIRECT) == Addr(blocks, ino, INDIRECT);
    forall k: nat
      ensures Addr(blocks', ino, k) == Addr(blocks, ino, k)
    {
    }
  }

  /** Allocation touches no file: the bitmap is not data and the block was free. */
  lemma AllocationInvisible(sb: Super, blocks: seq<Block>, inodes: seq<Inode>, owner: map<nat, Slot>, b: nat, i: nat)
    requires Geometry(sb, blocks) && Owned(sb, blocks, inodes, owner)
    requires sb.datastart <= b < sb.size && b !in owner && i < |inodes|
    ensures forall k: nat :: Addr(Allocated(sb, blocks, b), inodes[i], k) == Addr(blocks, inodes[i], k)
    ensures forall p: nat :: ByteAt(Allocated(sb, blocks, b), inodes[i], p) == ByteAt(blocks, inodes[i], p)
  {
    AllocatedElsewhere(sb, blocks, b);
    hide Addr, BitSet, Bit, Word, ByteAt, Allocated, Geometry, BBLOCK;
    forall k: nat | Addr(blocks, inodes[i], k) != 0
      ensures Addr(blocks, inodes[i], k) < |blocks|
      ensures Allocated(sb, blocks, b)[Addr(blocks, inodes[i], k)] == blocks[Addr(blocks, inodes[i], k)]
    {
      assert Addr(blocks, inodes[i], k) in owner;
    }
    SameFile(blocks, Allocated(sb, blocks, b), inodes[i]);
  }

  lemma AllocatedElsewhere(sb: Super, blocks: seq<Block>, b: nat)
    requires Geometry(sb, blocks) && sb.datastart <= b < sb.size
    ensures BBLOCK(sb, b) < |blocks| == sb.size
    ensures forall c :: sb.datastart <= c < sb.size && c != b ==> Allocated(sb, blocks, b)[c] == blocks[c]
  {
    hide SetBit, ZeroBlock, Bit;
    assert BBLOCK(sb, b) < sb.datastart;
  }

  /** Giving a fresh block to one empty slot keeps ownership exact. */
  lemma OwnedExtend(sb: Super, blocks: seq<Block>, inodes: seq<Inode>, owner: map<nat, Slot>,
                    blocks': seq<Block>, inodes': seq<Inode>, b: nat, i: nat, k: nat)
    requires Geometry(sb, blocks) && Owned(sb, blocks, inodes, owner) && Geometry(sb, blocks')
    requires sb.datastart <= b < sb.size && b !in owner && i < |inodes| == |inodes'| && k <= INDIRECT
    requires Addr(blocks, inodes[i], k) == 0
    requires forall j :: 0 <= j < |inodes| ==> |inodes'[j].addrs| == NDIRECT + 1
    requires forall j: nat, m: nat :: j < |inodes| ==>
               Addr(blocks', inodes'[j], m) == if j == i && m == k then b else Addr(blocks, inodes[j], m)
    requires forall c: nat :: c < sb.size ==> (BitSet(sb, blocks', c) <==> c == b || BitSet(sb, blocks, c))
    ensures Owned(sb, blocks', inodes', owner[b := Slot(i, k)])
  {
    hide Addr, BitSet, Bit, Word;
    var owner' := owner[b := Slot(i, k)];
    forall j: nat, m: nat | j < |inodes'| && Addr(blocks', inodes'[j], m) != 0
      ensures Addr(blocks', inodes'[j], m) in owner' && owner'[Addr(blocks', inodes'[j], m)] == Slot(j, m)
    {
      assert (j == i && m == k) || Addr(blocks', inodes'[j], m) == Addr(blocks, inodes[j], m);
    }
    forall c | c in owner'
      ensures sb.datastart <= c < sb.size && owner'[c].inum < |inodes'| && owner'[c].k <= INDIRECT
      ensures Addr(blocks', inodes'[owner'[c].inum], owner'[c].k) == c
    {
    }
  }

  lemma BitAt(sb: Super, blocks: seq<Block>, q: nat, bi: nat)
    requires bi < BPB && BBLOCK(sb, BPB * q) < |blocks|
    ensures BBLOCK(sb, BPB * q + bi) == BBLOCK(sb, BPB * q)
    ensures BitSet(sb, blocks, BPB * q + bi) == Bit(blocks[BBLOCK(sb, BPB * q)], bi)
  {
    assert (BPB * q + bi) / BPB == q && (BPB * q + bi) % BPB == bi;
  }

  lemma MapFits(sb: Super, blocks: seq<Block>)
    requires Geometry(sb, blocks)
    ensures forall c: nat :: c < sb.size ==> BBLOCK(sb, c) < |blocks|
  {
  }

  lemma SameBitmap(sb: Super, q: nat, bi: nat)
    requires bi < BPB
    ensures BBLOCK(sb, BPB * q + bi) == BBLOCK(sb, BPB * q) && (BPB * q + bi) % BPB == bi
  {
  }

  function SlotOf(j: nat): nat {
    if j < NDIRECT then j else INDIRECT
  }

  /** No byte of any file changed; slot k of inode i now holds `addr`, every other
      slot holds what it held. */
  ghost predicate Grown(blocks: seq<Block>, inodes: seq<Inode>, blocks': seq<Block>, inodes': seq<Inode>,
                        i: nat, k: nat, addr: nat)
  {
    && |inodes'| == |inodes| && i < |inodes|
    && (forall j :: 0 <= j < |inodes| ==> inodes'[j].size == inodes[j].size)
    && (forall j :: 0 <= j < |inodes| && j != i ==> inodes'[j] == inodes[j])
    && Addr(blocks', inodes'[i], k) == addr
    && (forall j: nat, m: nat :: j < |inodes| && !(j == i && m == k) ==>
          Addr(blocks', inodes'[j], m) == Addr(blocks, inodes[j], m))
    && (forall j: nat, p: nat :: j < |inodes| ==>
          ByteAt(blocks', inodes'[j], p) == ByteAt(blocks, inodes[j], p))
  }

  lemma MetaBits(sb: Super, blocks: seq<Block>, inodes: seq<Inode>, owner: map<nat, Slot>)
    requires Geometry(sb, blocks) && Owned(sb, blocks, inodes, owner)
    ensures forall c: nat :: c < sb.datastart ==> BitSet(sb, blocks, c)
    ensures forall i :: 0 <= i < |inodes| ==> |inodes[i].addrs| == NDIRECT + 1
  {
  }

  lemma GrowDirectOk(sb: Super, blocks: seq<Block>, inodes: seq<Inode>, owner: map<nat, Slot>,
                     i: nat, j: nat, addr: nat)
    requires Geometry(sb, blocks) && Owned(sb, blocks, inodes, owner) && i < |inodes| && j <= NDIRECT
    requires inodes[i].addrs[j] == 0 && sb.datastart <= addr < sb.size && !BitSet(sb, blocks, addr)
    ensures var blocks' := Allocated(sb, blocks, addr);
            var inodes' := inodes[i := inodes[i].(addrs := inodes[i].addrs[j := addr])];
            && Geometry(sb, blocks')
            && Owned(sb, blocks', inodes', owner[addr := Slot(i, SlotOf(j))])
            && Grown(blocks, inodes, blocks', inodes', i, SlotOf(j), addr)
  {
    var blocks' := Allocated(sb, blocks, addr);
    var ino := inodes[i];
    var inodes' := inodes[i := ino.(addrs := ino.addrs[j := addr])];
    AllocatedBits(sb, blocks, addr);
    forall m: nat | m < |inodes|
      ensures forall k: nat :: Addr(blocks', inodes[m], k) == Addr(blocks, inodes[m], k)
      ensures forall p: nat :: ByteAt(blocks', inodes[m], p) == ByteAt(blocks, inodes[m], p)
    {
      AllocationInvisible(sb, blocks, inodes, owner, addr, m);
    }
    GrowSlot(blocks', ino, j, addr);
    OwnedExtend(sb, blocks, inodes, owner, blocks', inodes', addr, i, SlotOf(j));
  }

  /** A zeroed block in an empty slot of addrs changes that slot and no byte. */
  lemma GrowSlot(blocks: seq<Block>, ino: Inode, j: nat, addr: nat)
    requires |ino.addrs| == NDIRECT + 1 && j <= NDIRECT && ino.addrs[j] == 0
    requires 0 < addr < |blocks| && blocks[addr] == ZeroBlock()
    ensures var ino' := ino.(addrs := ino.addrs[j := addr]);
            && (forall k: nat :: Addr(blocks, ino', k) == if k == SlotOf(j) then addr else Addr(blocks, ino, k))
            && (forall p: nat :: ByteAt(blocks, ino', p) == ByteAt(blocks, ino, p))
  {
  }

  /** Writing an entry into a file's indirect block changes that slot and, the new
      block being zero, no byte. */
  lemma GrowWord(blocks: seq<Block>, ino: Inode, m: nat, addr: nat)
    requires |ino.addrs| == NDIRECT + 1 && m < NINDIRECT
    requires var ind := ino.addrs[NDIRECT]; 0 < ind < |blocks| && Word(blocks[ind], m) == 0
    requires 0 < addr < |blocks| && addr < UINT && addr != ino.addrs[NDIRECT] && blocks[addr] == ZeroBlock()
    requires forall k: nat :: k != INDIRECT ==> Addr(blocks, ino, k) != ino.addrs[NDIRECT]
    ensures var ind := ino.addrs[NDIRECT];
            var blocks' := blocks[ind := SetWord(blocks[ind], m, addr)];
            && (forall k: nat :: Addr(blocks', ino, k) == if k == NDIRECT + m then addr else Addr(blocks, ino, k))
            && (forall p: nat :: ByteAt(blocks', ino, p) == ByteAt(blocks, ino, p))
  {
    hide Word, SetWord;
    var ind := ino.addrs[NDIRECT];
    var blocks' := blocks[ind := SetWord(blocks[ind], m, addr)];
    forall k: nat
      ensures Addr(blocks', ino, k) == if k == NDIRECT + m then addr else Addr(blocks, ino, k)
    {
    }
    forall p: nat
      ensures ByteAt(blocks', ino, p) == ByteAt(blocks, ino, p)
    {
      assert p / BSIZE < MAXFILE ==> Addr(blocks, ino, p / BSIZE) != ind;
    }
  }

  lemma SlotOwned(sb: Super, blocks: seq<Block>, inodes: seq<Inode>, owner: map<nat, Slot>, i: nat, k: nat)
    requires Geometry(sb, blocks) && Owned(sb, blocks, inodes, owner) && i < |inodes|
    ensures forall j :: 0 <= j < |inodes| ==> |inodes[j].addrs| == NDIRECT + 1
    ensures Addr(blocks, inodes[i], INDIRECT) == inodes[i].addrs[NDIRECT]
    ensures Addr(blocks, inodes[i], k) != 0 ==>
              && sb.datastart <= Addr(blocks, inodes[i], k) < sb.size
              && Addr(blocks, inodes[i], k) in owner && owner[Addr(blocks, inodes[i], k)] == Slot(i, k)
  {
    hide Bit, Word, BitSet;
    assert Addr(blocks, inodes[i], INDIRECT) == inodes[i].addrs[NDIRECT];
    hide Addr;
    var a := Addr(blocks, inodes[i], k);
    assert a != 0 ==> a in owner;
  }

  lemma FreeUnowned(sb: Super, blocks: seq<Block>, inodes: seq<Inode>, owner: map<nat, Slot>, b: nat)
    requires Geometry(sb, blocks) && Owned(sb, blocks, inodes, owner) && sb.datastart <= b < sb.size
    ensures BitSet(sb, blocks, b) <==> b in owner
  {
  }

  /** Writing a data block leaves the bitmap alone. */
  lemma DataWriteBits(sb: Super, blocks: seq<Block>, b: nat, blk: Block)
    requires Geometry(sb, blocks) && sb.datastart <= b < sb.size
    ensures Geometry(sb, blocks[b := blk])
    ensures forall c: nat :: c < sb.size ==> BitSet(sb, blocks[b := blk], c) == BitSet(sb, blocks, c)
  {
    hide Bit;
  }

  lemma GrowEntryFile(sb: Super, blocks: seq<Block>, inodes: seq<Inode>, owner: map<nat, Slot>,
                      i: nat, m: nat, addr: nat, n: nat)
    requires Geometry(sb, blocks) && Owned(sb, blocks, inodes, owner) && i < |inodes| && m < NINDIRECT && n < |inodes|
    requires inodes[i].addrs[NDIRECT] != 0 && Addr(blocks, inodes[i], NDIRECT + m) == 0
    requires sb.datastart <= addr < sb.size && addr !in owner
    ensures inodes[i].addrs[NDIRECT] < |blocks|
    ensures var ind := inodes[i].addrs[NDIRECT];
            var blocks1 := Allocated(sb, blocks, addr);
            var blocks' := blocks1[ind := SetWord(blocks1[ind], m, addr)];
            && (forall k: nat :: Addr(blocks', inodes[n], k) ==
                  if n == i && k == NDIRECT + m then addr else Addr(blocks, inodes[n], k))
            && (forall p: nat :: ByteAt(blocks', inodes[n], p) == ByteAt(blocks, inodes[n], p))
  {
    hide Word, SetWord, BitSet, ByteAt, Addr, Owned, Allocated, ZeroBlock;
    SlotOwned(sb, blocks, inodes, owner, i, INDIRECT);
    var ind := inodes[i].addrs[NDIRECT];
    var blocks1 := Allocated(sb, blocks, addr);
    AllocationInvisible(sb, blocks, inodes, owner, addr, n);
    AllocationInvisible(sb, blocks, inodes, owner, addr, i);
    if n == i {
      AllocatedZero(sb, blocks, addr);
      OwnFile(sb, blocks, inodes, owner, i, m, addr, blocks1);
    } else {
      OtherFile(sb, blocks, inodes, owner, i, n, blocks1, blocks1[ind := SetWord(blocks1[ind], m, addr)]);
    }
  }

  lemma AllocatedZero(sb: Super, blocks: seq<Block>, b: nat)
    requires BBLOCK(sb, b) < |blocks| && b < |blocks|
    ensures Allocated(sb, blocks, b)[b] == ZeroBlock()
  {
    hide SetBit, ZeroBlock;
  }

  lemma OwnFile(sb: Super, blocks: seq<Block>, inodes: seq<Inode>, owner: map<nat, Slot>, i: nat, m: nat, addr: nat,
                blocks1: seq<Block>)
    requires Geometry(sb, blocks) && Owned(sb, blocks, inodes, owner) && i < |inodes| && m < NINDIRECT
    requires inodes[i].addrs[NDIRECT] != 0 && Addr(blocks, inodes[i], NDIRECT + m) == 0
    requires sb.datastart <= addr < sb.size && addr !in owner && |blocks1| == |blocks| && blocks1[addr] == ZeroBlock()
    requires forall k: nat :: Addr(blocks1, inodes[i], k) == Addr(blocks, inodes[i], k)
    ensures inodes[i].addrs[NDIRECT] < |blocks|
    ensures var blocks2 := blocks1[inodes[i].addrs[NDIRECT] := SetWord(blocks1[inodes[i].addrs[NDIRECT]], m, addr)];
            && (forall k: nat :: Addr(blocks2, inodes[i], k) == if k == NDIRECT + m then addr else Addr(blocks1, inodes[i], k))
            && (forall p: nat :: ByteAt(blocks2, inodes[i], p) == ByteAt(blocks1, inodes[i], p))
  {
    hide SetWord, BitSet, ByteAt, ZeroBlock, Word;
    assert inodes[i].addrs[NDIRECT] == Addr(blocks, inodes[i], INDIRECT);
    GrowWord(blocks1, inodes[i], m, addr);
  }

  /** A change of i's indirect block leaves every other file alone. */
  lemma OtherFile(sb: Super, blocks: seq<Block>, inodes: seq<Inode>, owner: map<nat, Slot>, i: nat, n: nat,
                  blocks1: seq<Block>, blocks2: seq<Block>)
    requires Geometry(sb, blocks) && Owned(sb, blocks, inodes, owner) && i < |inodes| && n < |inodes| && n != i
    requires inodes[i].addrs[NDIRECT] != 0 && |blocks2| == |blocks1| == |blocks|
    requires forall k: nat :: Addr(blocks1, inodes[n], k) == Addr(blocks, inodes[n], k)
    requires forall b :: 0 <= b < |blocks1| && b != inodes[i].addrs[NDIRECT] ==> blocks2[b] == blocks1[b]
    ensures forall k: nat :: Addr(blocks2, inodes[n], k) == Addr(blocks1, inodes[n], k)
    ensures forall p: nat :: ByteAt(blocks2, inodes[n], p) == ByteAt(blocks1, inodes[n], p)
  {
    hide BitSet, Bit, Word, ByteAt;
    assert inodes[i].addrs[NDIRECT] == Addr(blocks, inodes[i], INDIRECT);
    SameFile(blocks1, blocks2, inodes[n]);
  }

  lemma GrowEntryOk(sb: Super, blocks: seq<Block>, inodes: seq<Inode>, owner: map<nat, Slot>,
                    i: nat, m: nat, addr: nat)
    requires Geometry(sb, blocks) && Owned(sb, blocks, inodes, owner) && i < |inodes| && m < NINDIRECT
    requires inodes[i].addrs[NDIRECT] != 0 && Addr(blocks, inodes[i], NDIRECT + m) == 0
    requires sb.datastart <= addr < sb.size && !BitSet(sb, blocks, addr)
    ensures inodes[i].addrs[NDIRECT] < |blocks|
    ensures var ind := inodes[i].addrs[NDIRECT];
            var blocks1 := Allocated(sb, blocks, addr);
            var blocks' := blocks1[ind := SetWord(blocks1[ind], m, addr)];
            && Geometry(sb, blocks')
            && Owned(sb, blocks', inodes, owner[addr := Slot(i, NDIRECT + m)])
            && Grown(blocks, inodes, blocks', inodes, i, NDIRECT + m, addr)
  {
    hide Word, SetWord, ZeroBlock, BitSet, Owned, Addr, ByteAt, Allocated;
    SlotOwned(sb, blocks, inodes, owner, i, INDIRECT);
    FreeUnowned(sb, blocks, inodes, owner, addr);
    var ind := inodes[i].addrs[NDIRECT];
    var blocks1 := Allocated(sb, blocks, addr);
    var blocks' := blocks1[ind := SetWord(blocks1[ind], m, addr)];
    AllocatedBits(sb, blocks, addr);
    DataWriteBits(sb, blocks1, ind, blocks'[ind]);
    forall n: nat | n < |inodes|
      ensures forall k: nat :: Addr(blocks', inodes[n], k) ==
                if n == i && k == NDIRECT + m then addr else Addr(blocks, inodes[n], k)
      ensures forall p: nat :: ByteAt(blocks', inodes[n], p) == ByteAt(blocks, inodes[n], p)
    {
      GrowEntryFile(sb, blocks, inodes, owner, i, m, addr, n);
    }
    OwnedExtend(sb, blocks, inodes, owner, blocks', inodes, addr, i, NDIRECT + m);
  }

  ghost function IndirectOf(blocks: seq<Block>, ino: Inode, bn: nat): set<nat> {
    if bn >= NDIRECT then {Addr(blocks, ino, INDIRECT)} else {}
  }

  /** The slots a bmap of slot bn has to fill. */
  function NewSlots(blocks: seq<Block>, ino: Inode, bn: nat): nat {
    (if Addr(blocks, ino, bn) == 0 then 1 else 0)
    + (if bn >= NDIRECT && Addr(blocks, ino, INDIRECT) == 0 then 1 else 0)
  }

  /** bmap of slot bn of inode i: no byte of any file changed, and only that slot
      and the indirect block's may have been filled. */
  ghost predicate Mapped(blocks: seq<Block>, inodes: seq<Inode>, blocks': seq<Block>, inodes': seq<Inode>,
                         i: nat, bn: nat)
  {
    && |inodes'| == |inodes| && i < |inodes|
    && (forall j :: 0 <= j < |inodes| ==> inodes'[j].size == inodes[j].size)
    && (forall j :: 0 <= j < |inodes| && j != i ==> inodes'[j] == inodes[j])
    && (forall j: nat, m: nat :: j < |inodes| && Addr(blocks, inodes[j], m) != 0 ==>
          Addr(blocks', inodes'[j], m) == Addr(blocks, inodes[j], m))
    && (forall j: nat, m: nat :: j < |inodes| && Addr(blocks, inodes[j], m) == 0
                                 && !(j == i && (m == bn || (m == INDIRECT && bn >= NDIRECT))) ==>
          Addr(blocks', inodes'[j], m) == 0)
    && (forall j: nat, p: nat :: j < |inodes| ==>
          ByteAt(blocks', inodes'[j], p) == ByteAt(blocks, inodes[j], p))
  }

  /** Where each slot of an inode is found. */
  lemma AddrCases(blocks: seq<Block>, ino: Inode, k: nat)
    requires |ino.addrs| == NDIRECT + 1 && k < MAXFILE
    ensures k < NDIRECT ==> Addr(blocks, ino, k) == ino.addrs[k]
    ensures Addr(blocks, ino, INDIRECT) == ino.addrs[NDIRECT]
    ensures k >= NDIRECT && ino.addrs[NDIRECT] == 0 ==> Addr(blocks, ino, k) == 0
    ensures k >= NDIRECT && 0 < ino.addrs[NDIRECT] < |blocks| ==>
              Addr(blocks, ino, k) == Word(blocks[ino.addrs[NDIRECT]], k - NDIRECT)
  {
  }

  lemma GrownSlot(blocks: seq<Block>, inodes: seq<Inode>, blocks': seq<Block>, inodes': seq<Inode>,
                  i: nat, k: nat, addr: nat)
    requires Grown(blocks, inodes, blocks', inodes', i, k, addr)
    ensures |inodes'| == |inodes| && i < |inodes| && Addr(blocks', inodes'[i], k) == addr
  {
  }

  lemma GrownOther(blocks: seq<Block>, inodes: seq<Inode>, blocks': seq<Block>, inodes': seq<Inode>,
                   i: nat, k: nat, addr: nat, m: nat)
    requires Grown(blocks, inodes, blocks', inodes', i, k, addr) && m != k
    ensures |inodes'| == |inodes| && i < |inodes| && Addr(blocks', inodes'[i], m) == Addr(blocks, inodes[i], m)
  {
  }

  lemma GrownMapped(blocks: seq<Block>, inodes: seq<Inode>, blocks': seq<Block>, inodes': seq<Inode>,
                    i: nat, k: nat, addr: nat, bn: nat)
    requires Grown(blocks, inodes, blocks', inodes', i, k, addr) && Addr(blocks, inodes[i], k) == 0
    requires k == bn || (k == INDIRECT && bn >= NDIRECT)
    ensures Mapped(blocks, inodes, blocks', inodes', i, bn)
  {
    hide Addr, ByteAt;
  }

  lemma MappedTwice(blocks: seq<Block>, inodes: seq<Inode>, blocks1: seq<Block>, inodes1: seq<Inode>,
                    blocks2: seq<Block>, inodes2: seq<Inode>, i: nat, bn: nat)
    requires Mapped(blocks, inodes, blocks1, inodes1, i, bn) && Mapped(blocks1, inodes1, blocks2, inodes2, i, bn)
    ensures Mapped(blocks, inodes, blocks2, inodes2, i, bn)
  {
    hide Addr, ByteAt;
    forall j: nat, p: nat | j < |inodes|
      ensures ByteAt(blocks2, inodes2[j], p) == ByteAt(blocks, inodes[j], p)
    {
      assert ByteAt(blocks1, inodes1[j], p) == ByteAt(blocks, inodes[j], p);
    }
    forall j: nat, m: nat | j < |inodes|
      ensures Addr(blocks, inodes[j], m) != 0 ==> Addr(blocks2, inodes2[j], m) == Addr(blocks, inodes[j], m)
      ensures Addr(blocks, inodes[j], m) == 0 && !(j == i && (m == bn || (m == INDIRECT && bn >= NDIRECT))) ==>
                Addr(blocks2, inodes2[j], m) == 0
    {
      assert Addr(blocks, inodes[j], m) != 0 ==> Addr(blocks1, inodes1[j], m) == Addr(blocks, inodes[j], m);
    }
  }

  lemma MappedRefl(blocks: seq<Block>, inodes: seq<Inode>, i: nat, bn: nat)
    requires i < |inodes|
    ensures Mapped(blocks, inodes, blocks, inodes, i, bn)
  {
  }

  // ---------------------------------------------------------------- writing bytes

  /** Inode i has `data` at offset off; every other byte of every file, every size
      and every filled slot is as before. */
  ghost predicate Wrote(blocks: seq<Block>, inodes: seq<Inode>, blocks': seq<Block>, inodes': seq<Inode>,
                        i: nat, off: nat, data: seq<Byte>)
  {
    && |inodes'| == |inodes| && i < |inodes|
    && (forall j :: 0 <= j < |inodes| ==> inodes'[j].size == inodes[j].size)
    && (forall j :: 0 <= j < |inodes| && j != i ==> inodes'[j] == inodes[j])
    && (forall j: nat, m: nat :: j < |inodes| && Addr(blocks, inodes[j], m) != 0 ==>
          Addr(blocks', inodes'[j], m) == Addr(blocks, inodes[j], m))
    && (forall j: nat, p: nat :: j < |inodes| ==>
          ByteAt(blocks', inodes'[j], p) ==
          if j == i && off <= p < off + |data| then data[p - off] else ByteAt(blocks, inodes[j], p))
  }

  lemma MappedWrote(blocks: seq<Block>, inodes: seq<Inode>, blocks1: seq<Block>, inodes1: seq<Inode>,
                    blocks2: seq<Block>, inodes2: seq<Inode>, i: nat, bn: nat, off: nat, data: seq<Byte>)
    requires Wrote(blocks, inodes, blocks1, inodes1, i, off, data)
    requires Mapped(blocks1, inodes1, blocks2, inodes2, i, bn)
    ensures Wrote(blocks, inodes, blocks2, inodes2, i, off, data)
  {
    hide Addr, ByteAt;
    forall j: nat, p: nat | j < |inodes|
      ensures ByteAt(blocks2, inodes2[j], p) ==
              if j == i && off <= p < off + |data| then data[p - off] else ByteAt(blocks, inodes[j], p)
    {
      assert ByteAt(blocks2, inodes2[j], p) == ByteAt(blocks1, inodes1[j], p);
    }
    forall j: nat, m: nat | j < |inodes| && Addr(blocks, inodes[j], m) != 0
      ensures Addr(blocks2, inodes2[j], m) == Addr(blocks, inodes[j], m)
    {
      assert Addr(blocks1, inodes1[j], m) == Addr(blocks, inodes[j], m);
    }
  }

  lemma WroteMore(blocks: seq<Block>, inodes: seq<Inode>, blocks1: seq<Block>, inodes1: seq<Inode>,
                  blocks2: seq<Block>, inodes2: seq<Inode>, i: nat, off: nat, d1: seq<Byte>, d2: seq<Byte>)
    requires Wrote(blocks, inodes, blocks1, inodes1, i, off, d1)
    requires Wrote(blocks1, inodes1, blocks2, inodes2, i, off + |d1|, d2)
    ensures Wrote(blocks, inodes, blocks2, inodes2, i, off, d1 + d2)
  {
    hide Addr, ByteAt;
  }

  lemma SameAddr(blocks: seq<Block>, blocks': seq<Block>, ino: Inode, m: nat)
    requires |blocks'| == |blocks|
    requires var ind := Addr(blocks, ino, INDIRECT); 0 < ind < |blocks| ==> blocks'[ind] == blocks[ind]
    ensures Addr(blocks', ino, m) == Addr(blocks, ino, m)
  {
  }

  lemma OwnedSame(sb: Super, blocks: seq<Block>, blocks': seq<Block>, inodes: seq<Inode>, owner: map<nat, Slot>)
    requires Geometry(sb, blocks) && Owned(sb, blocks, inodes, owner) && Geometry(sb, blocks')
    requires forall j: nat, m: nat :: j < |inodes| ==> Addr(blocks', inodes[j], m) == Addr(blocks, inodes[j], m)
    requires forall c: nat :: c < sb.size ==> BitSet(sb, blocks', c) == BitSet(sb, blocks, c)
    ensures Owned(sb, blocks', inodes, owner)
  {
    hide Addr, BitSet;
  }

  lemma WroteNothing(blocks: seq<Block>, inodes: seq<Inode>, i: nat, off: nat)
    requires i < |inodes|
    ensures Wrote(blocks, inodes, blocks, inodes, i, off, [])
  {
  }

  lemma MappedSize(blocks: seq<Block>, inodes: seq<Inode>, blocks': seq<Block>, inodes': seq<Inode>, i: nat, bn: nat)
    requires Mapped(blocks, inodes, blocks', inodes', i, bn)
    ensures |inodes'| == |inodes|
  {
  }

  lemma WroteKeeps(blocks: seq<Block>, inodes: seq<Inode>, blocks': seq<Block>, inodes': seq<Inode>,
                   i: nat, off: nat, data: seq<Byte>, k: nat)
    requires Wrote(blocks, inodes, blocks', inodes', i, off, data)
    ensures |inodes'| == |inodes| && i < |inodes|
    ensures Addr(blocks, inodes[i], k) != 0 ==> Addr(blocks', inodes'[i], k) == Addr(blocks, inodes[i], k)
    ensures forall j :: 0 <= j < |inodes| ==> inodes'[j].size == inodes[j].size
  {
  }

  /** A filled slot beyond the direct ones needs the indirect block. */
  lemma IndirectMapped(sb: Super, blocks: seq<Block>, inodes: seq<Inode>, owner: map<nat, Slot>, i: nat, bn: nat)
    requires Geometry(sb, blocks) && Owned(sb, blocks, inodes, owner) && i < |inodes|
    requires bn < MAXFILE && Addr(blocks, inodes[i], bn) != 0
    ensures bn >= NDIRECT ==> Addr(blocks, inodes[i], INDIRECT) != 0
  {
  }

  /** Copying bytes into the block of slot bn writes them at that place of the file
      and nowhere else: the block belongs to this slot only, and is data. */
  lemma PatchWrites(sb: Super, blocks: seq<Block>, inodes: seq<Inode>, owner: map<nat, Slot>,
                    i: nat, off: nat, data: seq<Byte>)
    requires Geometry(sb, blocks) && Owned(sb, blocks, inodes, owner) && i < |inodes|
    requires off / BSIZE < MAXFILE && off % BSIZE + |data| <= BSIZE && Addr(blocks, inodes[i], off / BSIZE) != 0
    ensures Addr(blocks, inodes[i], off / BSIZE) < |blocks|
    ensures var a := Addr(blocks, inodes[i], off / BSIZE);
            var blocks' := blocks[a := Patch(blocks[a], off % BSIZE, data)];
            && Geometry(sb, blocks') && Owned(sb, blocks', inodes, owner)
            && Wrote(blocks, inodes, blocks', inodes, i, off, data)
  {
    hide Bit, Word, Patch, BitSet, Owned, Addr, ByteAt;
    var a := Addr(blocks, inodes[i], off / BSIZE);
    SlotOwned(sb, blocks, inodes, owner, i, off / BSIZE);
    var blocks' := blocks[a := Patch(blocks[a], off % BSIZE, data)];
    DataWriteBits(sb, blocks, a, blocks'[a]);
    forall j: nat, m: nat | j < |inodes|
      ensures Addr(blocks', inodes[j], m) == Addr(blocks, inodes[j], m)
    {
      SlotOwned(sb, blocks, inodes, owner, j, INDIRECT);
      SameAddr(blocks, blocks', inodes[j], m);
    }
    OwnedSame(sb, blocks, blocks', inodes, owner);
    forall j: nat, p: nat | j < |inodes|
      ensures ByteAt(blocks', inodes[j], p) ==
              if j == i && off <= p < off + |data| then data[p - off] else ByteAt(blocks, inodes[j], p)
    {
      PatchByte(sb, blocks, inodes, owner, i, off, data, j, p);
    }
  }

  lemma PatchByte(sb: Super, blocks: seq<Block>, inodes: seq<Inode>, owner: map<nat, Slot>,
                  i: nat, off: nat, data: seq<Byte>, j: nat, p: nat)
    requires Geometry(sb, blocks) && Owned(sb, blocks, inodes, owner) && i < |inodes| && j < |inodes|
    requires off / BSIZE < MAXFILE && off % BSIZE + |data| <= BSIZE
    requires 0 < Addr(blocks, inodes[i], off / BSIZE) < |blocks|
    requires var a := Addr(blocks, inodes[i], off / BSIZE);
             var blocks' := blocks[a := Patch(blocks[a], off % BSIZE, data)];
             forall m: nat :: Addr(blocks', inodes[j], m) == Addr(blocks, inodes[j], m)
    ensures var a := Addr(blocks, inodes[i], off / BSIZE);
            var blocks' := blocks[a := Patch(blocks[a], off % BSIZE, data)];
            ByteAt(blocks', inodes[j], p) ==
              if j == i && off <= p < off + |data| then data[p - off] else ByteAt(blocks, inodes[j], p)
  {
    hide Bit, Word, Owned, Addr;
    SlotOwned(sb, blocks, inodes, owner, i, off / BSIZE);
    SlotOwned(sb, blocks, inodes, owner, j, p / BSIZE);
    assert p == BSIZE * (p / BSIZE) + p % BSIZE && off == BSIZE * (off / BSIZE) + off % BSIZE;
  }

  // ---------------------------------------------------------------- writei and the log

  /** filewrite's max. */
  const CHUNK := (Journal.MAXOPBLOCKS - 1 - 1 - 2) / 2 * BSIZE

  predicate WriteRejected(ino: Inode, off: nat, n: nat) {
    off > ino.size || off + n >= UINT || off + n > MAXFILE * BSIZE
  }

  /** Every block below `off` is there. */
  ghost predicate Covered(blocks: seq<Block>, ino: Inode, off: nat) {
    forall k: nat :: k * BSIZE < off ==> Addr(blocks, ino, k) != 0
  }

  /** A write of `data` at `off` that moved the end of the file to at least `end`. */
  ghost predicate FileWritten(blocks: seq<Block>, inodes: seq<Inode>, blocks': seq<Block>, inodes': seq<Inode>,
                              i: nat, off: nat, data: seq<Byte>, end: nat)
  {
    && |inodes'| == |inodes| && i < |inodes|
    && inodes'[i].size == (if end > inodes[i].size then end else inodes[i].size)
    && (forall j :: 0 <= j < |inodes| && j != i ==> inodes'[j] == inodes[j])
    && (forall j: nat, p: nat :: j < |inodes| ==>
          ByteAt(blocks', inodes'[j], p) ==
          if j == i && off <= p < off + |data| then data[p - off] else ByteAt(blocks, inodes[j], p))
  }

  /** Where the log_writes of an operation went: bitmap blocks, data blocks, the
      indirect block; and the rounds, new data slots and new indirect blocks so far. */
  datatype Budget = Budget(bitmaps: set<nat>, data: set<nat>, indirect: set<nat>, rounds: nat, slots: nat, inds: nat)

  /** The account of a writei at off0 up to `end` that stands at `off`, with `ind`
      the file's indirect block. */
  ghost predicate InBudget(calls: seq<nat>, calls0: seq<nat>, b: Budget,
                           off0: nat, end: nat, off: nat, ind: nat, stop: bool)
  {
    && Elements(calls) <= Elements(calls0) + b.bitmaps + b.data + b.indirect
    && |b.bitmaps| <= b.slots + b.inds && |b.data| <= b.rounds
    && (b.indirect == {} || (b.indirect == {ind} && (ind != 0 || stop)))
    && InRounds(b, off0, end, off, ind, stop)
  }

  ghost predicate InRounds(b: Budget, off0: nat, end: nat, off: nat, ind: nat, stop: bool) {
    && (b.rounds == 0 ==> off == off0)
    && (b.rounds > 0 ==> (off0 / BSIZE + b.rounds - 1) * BSIZE < end)
    && (!stop && off < end ==> off / BSIZE == off0 / BSIZE + b.rounds)
    && b.slots <= b.rounds && (off0 % BSIZE != 0 && b.rounds > 0 ==> b.slots < b.rounds)
    && b.inds <= 1 && (b.inds == 1 ==> ind != 0 || stop)
  }

  function Flag(p: bool): nat {
    if p then 1 else 0
  }

  /** One round more. */
  ghost function Spend(b: Budget, bitmaps: set<nat>, addr: nat, bn: nat, newSlot: bool, ind: nat, ind': nat): Budget {
    Budget(b.bitmaps + bitmaps, b.data + {addr},
           b.indirect + if bn >= NDIRECT then {ind'} else {},
           b.rounds + 1, b.slots + Flag(newSlot), b.inds + Flag(bn >= NDIRECT && ind == 0))
  }

  lemma UnionSize<T>(a: set<T>, b: set<T>)
    ensures |a + b| <= |a| + |b|
  {
    assert |a + b| + |a * b| == |a| + |b|;
  }

  lemma BudgetStep(calls: seq<nat>, calls0: seq<nat>, b: Budget, off0: nat, end: nat, off: nat, ind: nat,
                   calls': seq<nat>, bitmaps: set<nat>, addr: nat, newSlot: bool, off': nat, ind': nat, stop': bool)
    requires InBudget(calls, calls0, b, off0, end, off, ind, false) && off0 <= off < end
    requires var bn := off / BSIZE;
             && Elements(calls') <= Elements(calls) + bitmaps + {addr} + (if bn >= NDIRECT then {ind'} else {})
             && |bitmaps| <= Flag(newSlot) + Flag(bn >= NDIRECT && ind == 0)
             && (bn >= NDIRECT && !stop' ==> ind' != 0)
    requires ind != 0 ==> ind' == ind
    requires b.rounds == 0 && off0 % BSIZE != 0 ==> !newSlot
    requires !stop' && off' < end ==> off' == (off / BSIZE + 1) * BSIZE
    ensures InBudget(calls', calls0, Spend(b, bitmaps, addr, off / BSIZE, newSlot, ind, ind'), off0, end, off', ind', stop')
  {
    hide Elements, InRounds;
    UnionSize(b.bitmaps, bitmaps);
    UnionSize(b.data, {addr});
    RoundsStep(b, off0, end, off, ind, bitmaps, addr, newSlot, off', ind', stop');
    BudgetSets(calls, calls0, b, calls', bitmaps, addr, off / BSIZE, newSlot, ind, ind');
    BudgetIndirect(b.indirect, off / BSIZE, ind, ind');
  }

  lemma BudgetIndirect(i: set<nat>, bn: nat, ind: nat, ind': nat)
    requires i == {} || (i == {ind} && ind != 0)
    requires ind != 0 ==> ind' == ind
    ensures var i' := i + if bn >= NDIRECT then {ind'} else {};
            i' == {} || (i' == {ind'} && (bn >= NDIRECT || ind' != 0))
  {
  }

  lemma BudgetSets(calls: seq<nat>, calls0: seq<nat>, b: Budget,
                   calls': seq<nat>, bitmaps: set<nat>, addr: nat, bn: nat, newSlot: bool, ind: nat, ind': nat)
    requires Elements(calls) <= Elements(calls0) + b.bitmaps + b.data + b.indirect
    requires Elements(calls') <= Elements(calls) + bitmaps + {addr} + (if bn >= NDIRECT then {ind'} else {})
    ensures var b' := Spend(b, bitmaps, addr, bn, newSlot, ind, ind');
            Elements(calls') <= Elements(calls0) + b'.bitmaps + b'.data + b'.indirect
  {
    hide Elements;
  }

  lemma RoundsStep(b: Budget, off0: nat, end: nat, off: nat, ind: nat,
                   bitmaps: set<nat>, addr: nat, newSlot: bool, off': nat, ind': nat, stop': bool)
    requires InRounds(b, off0, end, off, ind, false) && off0 <= off < end
    requires off / BSIZE >= NDIRECT && !stop' ==> ind' != 0
    requires ind != 0 ==> ind' == ind
    requires b.rounds == 0 && off0 % BSIZE != 0 ==> !newSlot
    requires !stop' && off' < end ==> off' == (off / BSIZE + 1) * BSIZE
    ensures InRounds(Spend(b, bitmaps, addr, off / BSIZE, newSlot, ind, ind'), off0, end, off', ind', stop')
  {
    assert off == BSIZE * (off / BSIZE) + off % BSIZE;
  }

  lemma BudgetStart(calls: seq<nat>, calls0: seq<nat>, b: Budget, off0: nat, end: nat, off: nat, ind: nat, stop: bool)
    requires InBudget(calls, calls0, b, off0, end, off, ind, stop)
    ensures b.rounds == 0 ==> off == off0
  {
  }

  lemma CoveredStart(blocks: seq<Block>, ino: Inode, off: nat)
    requires NoHoles(blocks, ino) && off <= ino.size
    ensures Covered(blocks, ino, off)
  {
    hide Addr;
  }

  /** A write keeps the covered part and adds the block it went to. */
  lemma CoveredStep(blocks: seq<Block>, inodes: seq<Inode>, blocks': seq<Block>, inodes': seq<Inode>,
                    i: nat, off: nat, data: seq<Byte>, off': nat)
    requires Wrote(blocks, inodes, blocks', inodes', i, off, data) && Covered(blocks, inodes[i], off)
    requires off' == off || (Addr(blocks', inodes'[i], off / BSIZE) != 0 && off <= off' <= (off / BSIZE + 1) * BSIZE)
    ensures Covered(blocks', inodes'[i], off')
  {
    hide Addr, ByteAt;
    forall k: nat | k * BSIZE < off'
      ensures Addr(blocks', inodes'[i], k) != 0
    {
      if k * BSIZE < off {
        assert Addr(blocks, inodes[i], k) != 0;
      } else {
        assert k == off / BSIZE;
      }
    }
  }

  /** The block a write starts in the middle of is not new. */
  lemma OldSlot(blocks: seq<Block>, inodes: seq<Inode>, blocks1: seq<Block>, inodes1: seq<Inode>,
                i: nat, off0: nat, data: seq<Byte>, off: nat)
    requires i < |inodes| && NoHoles(blocks, inodes[i]) && off0 <= inodes[i].size
    requires Wrote(blocks, inodes, blocks1, inodes1, i, off0, data)
    ensures |inodes1| == |inodes|
    ensures off == off0 && off0 % BSIZE != 0 ==> Addr(blocks1, inodes1[i], off / BSIZE) != 0
  {
    hide Addr, ByteAt;
    assert off0 == BSIZE * (off0 / BSIZE) + off0 % BSIZE;
    assert off0 % BSIZE != 0 ==> Addr(blocks, inodes[i], off0 / BSIZE) != 0;
  }

  lemma SizeOnly(blocks: seq<Block>, ino: Inode, sz: nat)
    ensures forall k: nat :: Addr(blocks, ino.(size := sz), k) == Addr(blocks, ino, k)
    ensures forall p: nat :: ByteAt(blocks, ino.(size := sz), p) == ByteAt(blocks, ino, p)
  {
  }

  lemma OwnedSize(sb: Super, blocks: seq<Block>, inodes: seq<Inode>, owner: map<nat, Slot>, i: nat, sz: nat)
    requires Geometry(sb, blocks) && Owned(sb, blocks, inodes, owner) && i < |inodes|
    ensures Owned(sb, blocks, inodes[i := inodes[i].(size := sz)], owner)
  {
    hide Addr, BitSet;
    SizeOnly(blocks, inodes[i], sz);
  }

  lemma HolesAfterWrite(blocks: seq<Block>, inodes: seq<Inode>, blocks': seq<Block>, inodes': seq<Inode>,
                        i: nat, off: nat, data: seq<Byte>, j: nat)
    requires Wrote(blocks, inodes, blocks', inodes', i, off, data) && j < |inodes| && NoHoles(blocks, inodes[j])
    ensures NoHoles(blocks', inodes'[j])
  {
    hide Addr, ByteAt;
    forall k: nat | k * BSIZE < inodes[j].size
      ensures Addr(blocks', inodes'[j], k) != 0
    {
      assert Addr(blocks, inodes[j], k) != 0;
    }
  }

  /** The end of writei: the size covers what was written. */
  lemma FinishWrite(blocks0: seq<Block>, inodes0: seq<Inode>, blocks: seq<Block>, inodes: seq<Inode>,
                    i: nat, off0: nat, data: seq<Byte>, end: nat)
    requires Wrote(blocks0, inodes0, blocks, inodes, i, off0, data)
    requires forall j :: 0 <= j < |inodes0| ==> NoHoles(blocks0, inodes0[j])
    requires Covered(blocks, inodes[i], end) && end <= MAXFILE * BSIZE
    ensures |inodes| == |inodes0| && i < |inodes|
    ensures var sz := if end > inodes[i].size then end else inodes[i].size;
            var inodes' := inodes[i := inodes[i].(size := sz)];
            && FileWritten(blocks0, inodes0, blocks, inodes', i, off0, data, end)
            && forall j :: 0 <= j < |inodes'| ==> NoHoles(blocks, inodes'[j])
  {
    hide Addr, ByteAt;
    var sz := if end > inodes[i].size then end else inodes[i].size;
    SizeOnly(blocks, inodes[i], sz);
    forall j | 0 <= j < |inodes|
      ensures NoHoles(blocks, inodes[j])
    {
      HolesAfterWrite(blocks0, inodes0, blocks, inodes, i, off0, data, j);
    }
  }

  /** The account of a chunk: at most nine blocks before the inode's own. */
  lemma BudgetTotal(calls: seq<nat>, b: Budget, off0: nat, n: nat, off: nat, ind: nat, stop: bool)
    requires InBudget(calls, [], b, off0, off0 + n, off, ind, stop) && n <= CHUNK
    ensures |Elements(calls)| < Journal.MAXOPBLOCKS
  {
    assert off0 == BSIZE * (off0 / BSIZE) + off0 % BSIZE;
    assert b.rounds > 0 ==> (b.rounds - 1) * BSIZE < off0 % BSIZE + n;
    assert Elements([]) == {};
    SubsetSize(Elements(calls), b.bitmaps + b.data + b.indirect);
    UnionSize(b.bitmaps + b.data, b.indirect);
    UnionSize(b.bitmaps, b.data);
  }

  lemma BudgetInit(calls: seq<nat>, off0: nat, end: nat, ind: nat)
    ensures InBudget(calls, calls, Budget({}, {}, {}, 0, 0, 0), off0, end, off0, ind, false)
  {
  }

  lemma BudgetTotalIf(calls: seq<nat>, calls0: seq<nat>, b: Budget, off0: nat, n: nat, off: nat, ind: nat, stop: bool)
    requires InBudget(calls, calls0, b, off0, off0 + n, off, ind, stop)
    ensures calls0 == [] && n <= CHUNK ==> |Elements(calls)| < Journal.MAXOPBLOCKS
  {
    hide InBudget;
    if calls0 == [] && n <= CHUNK {
      BudgetTotal(calls, b, off0, n, off, ind, stop);
    }
  }

  // ---------------------------------------------------------------- truncation

  /** Between two stages of a truncation of inode i: data blocks untouched, bits
      cleared exactly for the slots of i from lo up to hi. */
  ghost predicate Cleared(sb: Super, blocks0: seq<Block>, blocks: seq<Block>, owner: map<nat, Slot>,
                          i: nat, lo: nat, hi: nat)
    requires Geometry(sb, blocks0) && Geometry(sb, blocks)
  {
    && (forall b :: sb.datastart <= b < sb.size ==> blocks[b] == blocks0[b])
    && (forall c: nat :: c < sb.size ==>
          (BitSet(sb, blocks, c) <==>
           BitSet(sb, blocks0, c) && !(c in owner && owner[c].inum == i && lo <= owner[c].k < hi)))
  }

  /** Freeing the block of slot k, or finding the slot empty, extends the stage. */
  lemma ClearedStep(sb: Super, blocks0: seq<Block>, inodes: seq<Inode>, blocks: seq<Block>, owner: map<nat, Slot>,
                    i: nat, lo: nat, k: nat)
    requires Geometry(sb, blocks0) && Owned(sb, blocks0, inodes, owner) && Geometry(sb, blocks)
    requires i < |inodes| && lo <= k <= INDIRECT && Cleared(sb, blocks0, blocks, owner, i, lo, k)
    ensures var a := Addr(blocks0, inodes[i], k); a != 0 ==> a < sb.size && BBLOCK(sb, a) < sb.size
    ensures var a := Addr(blocks0, inodes[i], k);
            if a == 0 then Cleared(sb, blocks0, blocks, owner, i, lo, k + 1)
            else
              && sb.datastart <= a < sb.size && BitSet(sb, blocks, a)
              && Geometry(sb, Freed(sb, blocks, a))
              && Cleared(sb, blocks0, Freed(sb, blocks, a), owner, i, lo, k + 1)
  {
    hide Bit, Word, BitSet, Addr, Owned, Freed, Cleared;
    SlotOwned(sb, blocks0, inodes, owner, i, k);
    SlotUnique(sb, blocks0, inodes, owner, i, k);
    var a := Addr(blocks0, inodes[i], k);
    if a != 0 {
      OwnedBit(sb, blocks0, inodes, owner, a);
      ClearedFreed(sb, blocks0, blocks, owner, i, lo, k, a);
    } else {
      ClearedSkip(sb, blocks0, blocks, owner, i, lo, k);
    }
  }

  lemma ClearedSkip(sb: Super, blocks0: seq<Block>, blocks: seq<Block>, owner: map<nat, Slot>, i: nat, lo: nat, k: nat)
    requires Geometry(sb, blocks0) && Geometry(sb, blocks) && lo <= k && Cleared(sb, blocks0, blocks, owner, i, lo, k)
    requires forall c :: c in owner && owner[c].inum == i ==> owner[c].k != k
    ensures Cleared(sb, blocks0, blocks, owner, i, lo, k + 1)
  {
    hide BitSet, BBLOCK;
  }

  lemma ClearedFreed(sb: Super, blocks0: seq<Block>, blocks: seq<Block>, owner: map<nat, Slot>,
                     i: nat, lo: nat, k: nat, a: nat)
    requires Geometry(sb, blocks0) && Geometry(sb, blocks) && lo <= k && Cleared(sb, blocks0, blocks, owner, i, lo, k)
    requires sb.datastart <= a < sb.size && a in owner && owner[a] == Slot(i, k)
    requires BBLOCK(sb, a) < sb.size && BitSet(sb, blocks0, a)
    requires forall c :: c in owner && owner[c].inum == i && owner[c].k == k ==> c == a
    ensures BitSet(sb, blocks, a) && Geometry(sb, Freed(sb, blocks, a))
    ensures Cleared(sb, blocks0, Freed(sb, blocks, a), owner, i, lo, k + 1)
  {
    hide BitSet, ClearBit;
    BitPlace(sb, blocks, a, a);
    FreedBits(sb, blocks, a);
  }

  lemma OwnedBit(sb: Super, blocks: seq<Block>, inodes: seq<Inode>, owner: map<nat, Slot>, b: nat)
    requires Geometry(sb, blocks) && Owned(sb, blocks, inodes, owner) && b in owner
    ensures b < sb.size && BBLOCK(sb, b) < |blocks| && BitSet(sb, blocks, b)
  {
    hide Addr, Bit, Word;
  }

  /** Addresses with the first i cleared. */
  function ZeroedTo(addrs: seq<nat>, i: nat): seq<nat>
    requires i <= |addrs|
  {
    seq(i, _ => 0) + addrs[i..]
  }

  lemma ZeroPrefix(addrs: seq<nat>, i: nat)
    requires i < |addrs|
    ensures ZeroedTo(addrs, i)[i] == addrs[i] && ZeroedTo(addrs, i + 1) == ZeroedTo(addrs, i)[i := 0]
    ensures addrs[i] == 0 ==> ZeroedTo(addrs, i + 1) == ZeroedTo(addrs, i)
  {
  }

  lemma SlotUnique(sb: Super, blocks: seq<Block>, inodes: seq<Inode>, owner: map<nat, Slot>, i: nat, k: nat)
    requires Geometry(sb, blocks) && Owned(sb, blocks, inodes, owner) && i < |inodes|
    ensures forall c :: c in owner && owner[c].inum == i && owner[c].k == k ==>
              sb.datastart <= c && c == Addr(blocks, inodes[i], k)
  {
    hide Bit, Word, BitSet, Addr;
  }

  /** Without an indirect block there is nothing behind the direct slots. */
  lemma NoIndirect(sb: Super, blocks0: seq<Block>, inodes: seq<Inode>, blocks: seq<Block>, owner: map<nat, Slot>, i: nat)
    requires Geometry(sb, blocks0) && Owned(sb, blocks0, inodes, owner) && Geometry(sb, blocks)
    requires i < |inodes| && inodes[i].addrs[NDIRECT] == 0 && Cleared(sb, blocks0, blocks, owner, i, 0, NDIRECT)
    ensures Cleared(sb, blocks0, blocks, owner, i, 0, INDIRECT + 1)
  {
    hide Bit, Word, BitSet;
  }

  ghost function WithoutFile(owner: map<nat, Slot>, i: nat): map<nat, Slot> {
    map b | b in owner && owner[b].inum != i :: owner[b]
  }

  function EmptyInode(): Inode {
    Inode(0, seq(NDIRECT + 1, _ => 0))
  }

  lemma EmptyFile(blocks: seq<Block>)
    ensures forall k: nat :: Addr(blocks, EmptyInode(), k) == 0
    ensures forall p: nat :: ByteAt(blocks, EmptyInode(), p) == 0
    ensures NoHoles(blocks, EmptyInode())
  {
  }

  /** When every slot has been cleared the file is gone and all others are whole. */
  lemma TruncateDone(sb: Super, blocks0: seq<Block>, inodes: seq<Inode>, blocks: seq<Block>, owner: map<nat, Slot>, i: nat)
    requires Geometry(sb, blocks0) && Owned(sb, blocks0, inodes, owner) && Geometry(sb, blocks)
    requires i < |inodes| && Cleared(sb, blocks0, blocks, owner, i, 0, INDIRECT + 1)
    ensures Owned(sb, blocks, inodes[i := EmptyInode()], WithoutFile(owner, i))
    ensures forall j: nat, k: nat :: j < |inodes| && j != i ==> Addr(blocks, inodes[j], k) == Addr(blocks0, inodes[j], k)
    ensures forall j: nat, p: nat :: j < |inodes| && j != i ==> ByteAt(blocks, inodes[j], p) == ByteAt(blocks0, inodes[j], p)
  {
    hide Bit, Word, BitSet, Addr, ByteAt;
    EmptyFile(blocks);
    forall j: nat | j < |inodes| && j != i
      ensures forall k: nat :: Addr(blocks, inodes[j], k) == Addr(blocks0, inodes[j], k)
      ensures forall p: nat :: ByteAt(blocks, inodes[j], p) == ByteAt(blocks0, inodes[j], p)
    {
      SameFile(blocks0, blocks, inodes[j]);
    }
  }


  /** A file as the byte sequence its readers see. */
  function Contents(blocks: seq<Block>, ino: Inode): (r: seq<Byte>)
    ensures |r| == ino.size
  {
    seq(ino.size, (p: nat) requires p < ino.size => ByteAt(blocks, ino, p))
  }

  /** `data` laid over `c` from `off` on, extending it if it sticks out. */
  function Splice(c: seq<Byte>, off: nat, data: seq<Byte>): (r: seq<Byte>)
    requires off <= |c|
    ensures |r| == if off + |data| > |c| then off + |data| else |c|
  {
    c[..off] + data + if off + |data| < |c| then c[off + |data|..] else []
  }

  function Max(a: nat, b: nat): nat {
    if a > b then a else b
  }

  /** What a write did to the bytes, as readers see it. */
  lemma FlatWrite(blocks: seq<Block>, inodes: seq<Inode>, blocks': seq<Block>, inodes': seq<Inode>,
                  i: nat, off: nat, data: seq<Byte>, end: nat)
    requires FileWritten(blocks, inodes, blocks', inodes', i, off, data, end)
    requires off <= inodes[i].size && end <= off + |data|
    ensures Contents(blocks', inodes'[i]) ==
            Splice(Contents(blocks, inodes[i]), off, data)[..Max(inodes[i].size, end)]
    ensures forall j: nat :: j < |inodes| && j != i ==> Contents(blocks', inodes'[j]) == Contents(blocks, inodes[j])
  {
    hide ByteAt;
    var c, c' := Contents(blocks, inodes[i]), Contents(blocks', inodes'[i]);
    assert c' == Splice(c, off, data)[..Max(inodes[i].size, end)];
    forall j: nat | j < |inodes| && j != i
      ensures Contents(blocks', inodes'[j]) == Contents(blocks, inodes[j])
    {
      assert forall p :: 0 <= p < inodes[j].size ==>
        Contents(blocks', inodes'[j])[p] == Contents(blocks, inodes[j])[p];
    }
  }

  lemma TruncateSeen(sb: Super, blocks0: seq<Block>, inodes: seq<Inode>, blocks: seq<Block>, owner: map<nat, Slot>, i: nat)
    requires Geometry(sb, blocks0) && Owned(sb, blocks0, inodes, owner) && Geometry(sb, blocks)
    requires i < |inodes| && Cleared(sb, blocks0, blocks, owner, i, 0, INDIRECT + 1)
    requires forall j :: 0 <= j < |inodes| ==> NoHoles(blocks0, inodes[j])
    ensures var inodes' := inodes[i := EmptyInode()]; forall j :: 0 <= j < |inodes'| ==> NoHoles(blocks, inodes'[j])
    ensures forall j: nat :: j < |inodes| && j != i ==> Contents(blocks, inodes[j]) == Contents(blocks0, inodes[j])
    ensures forall c: nat :: c < sb.size ==>
              (BitSet(sb, blocks, c) <==> BitSet(sb, blocks0, c) && !(c in owner && owner[c].inum == i))
  {
    hide Bit, Word, BitSet, Addr, ByteAt;
    EmptyFile(blocks);
    TruncateDone(sb, blocks0, inodes, blocks, owner, i);
    forall j: nat | j < |inodes| && j != i
      ensures Contents(blocks, inodes[j]) == Contents(blocks0, inodes[j]) && NoHoles(blocks, inodes[j])
    {
      assert forall p :: 0 <= p < inodes[j].size ==> Contents(blocks, inodes[j])[p] == Contents(blocks0, inodes[j])[p];
    }
  }

  lemma ReadBlock(blocks: seq<Block>, ino: Inode, off: nat, m: nat)
    requires off % BSIZE + m <= BSIZE && off + m <= ino.size && off / BSIZE < MAXFILE
    requires 0 < Addr(blocks, ino, off / BSIZE) < |blocks|
    ensures blocks[Addr(blocks, ino, off / BSIZE)][off % BSIZE..off % BSIZE + m] == Contents(blocks, ino)[off..off + m]
  {
    hide Addr;
    var a := Addr(blocks, ino, off / BSIZE);
    var x, y := blocks[a][off % BSIZE..off % BSIZE + m], Contents(blocks, ino)[off..off + m];
    forall k | 0 <= k < m
      ensures x[k] == y[k]
    {
      assert (off + k) / BSIZE == off / BSIZE && (off + k) % BSIZE == off % BSIZE + k;
    }
  }

  lemma SpliceTwice(c: seq<Byte>, off: nat, a: seq<Byte>, b: seq<Byte>)
    requires off <= |c|
    ensures Splice(Splice(c, off, a), off + |a|, b) == Splice(c, off, a + b)
  {
  }

  /** The log_writes of one operation stay within its share of the log, and every
      one of them is made with a block to spare. */
  ghost predicate FitsLog(op: seq<nat>) {
    op == [] || |Elements(op[..|op| - 1])| < Journal.MAXOPBLOCKS
  }

  lemma SizeBound(blocks: seq<Block>, ino: Inode)
    requires NoHoles(blocks, ino)
    ensures ino.size < UINT
  {
  }

  lemma SpliceNothing(c: seq<Byte>, off: nat, src: seq<Byte>)
    ensures off <= |c| ==> Splice(c, off, src[..0])[..Max(|c|, off)] == c
  {
  }

  lemma ChunkSplice(c0: seq<Byte>, off0: nat, src: seq<Byte>, i: nat, n1: nat, w1: nat, r: nat)
    requires off0 <= |c0| && i + n1 <= |src| && r <= w1 <= n1
    ensures var c := Splice(c0, off0, src[..i])[..Max(|c0|, off0 + i)];
            && off0 + i <= |c|
            && Splice(c, off0 + i, src[i..i + n1][..w1])[..Max(|c|, off0 + i + r)]
               == Splice(c0, off0, src[..i + w1])[..Max(|c0|, off0 + i + r)]
  {
    var a, b := src[..i], src[i..i + n1][..w1];
    assert a + b == src[..i + w1];
    SpliceTwice(c0, off0, a, b);
    var c := Splice(c0, off0, a);
    assert c[..Max(|c0|, off0 + i)] == c;
  }

  /** Exactly the bits below b are set. */
  ghost predicate Marked(sb: Super, blocks: seq<Block>, b: nat)
    requires Geometry(sb, blocks)
  {
    forall c: nat :: c < sb.size ==> (BitSet(sb, blocks, c) <==> c < b)
  }

  lemma FormattedOwned(sb: Super, blocks: seq<Block>, inodes: seq<Inode>)
    requires Geometry(sb, blocks) && Marked(sb, blocks, sb.datastart)
    requires forall i :: 0 <= i < |inodes| ==> inodes[i] == EmptyInode()
    ensures Owned(sb, blocks, inodes, map[])
    ensures forall i :: 0 <= i < |inodes| ==> NoHoles(blocks, inodes[i])
  {
    hide Bit, BitSet, Addr, NoHoles;
    EmptyFile(blocks);
  }

  lemma NoBits(sb: Super, blocks: seq<Block>)
    requires Geometry(sb, blocks) && forall i :: 0 <= i < |blocks| ==> blocks[i] == ZeroBlock()
    ensures Marked(sb, blocks, 0)
  {
    forall c: nat | c < sb.size
      ensures !BitSet(sb, blocks, c)
    {
      ZeroBit(c % BPB);
    }
  }

  lemma ZeroBit(j: nat)
    requires j < BPB
    ensures !Bit(ZeroBlock(), j)
  {
  }

  lemma MarkOne(sb: Super, blocks: seq<Block>, b: nat)
    requires Geometry(sb, blocks) && b < sb.size && Marked(sb, blocks, b)
    ensures Marked(sb, blocks[BBLOCK(sb, b) := SetBit(blocks[BBLOCK(sb, b)], b % BPB)], b + 1)
  {
    hide Bit, SetBit;
    var blocks' := blocks[BBLOCK(sb, b) := SetBit(blocks[BBLOCK(sb, b)], b % BPB)];
    forall c: nat | c < sb.size
      ensures BitSet(sb, blocks', c) <==> c < b + 1
    {
      assert BitSet(sb, blocks, c) <==> c < b;
    }
  }

  /** min(n - tot, BSIZE - off % BSIZE) */
  function Span(left: nat, off: nat): (m: nat)
    requires left > 0
    ensures 1 <= m <= left && off % BSIZE + m <= BSIZE && off + m <= (off / BSIZE + 1) * BSIZE
    ensures m < left ==> off + m == (off / BSIZE + 1) * BSIZE
  {
    if left < BSIZE - off % BSIZE then left else BSIZE - off % BSIZE
  }

  lemma RoundBudget(calls: seq<nat>, calls0: seq<nat>, b: Budget, off0: nat, end: nat, off: nat, ind: nat,
                    calls': seq<nat>, bitmaps: set<nat>, addr: nat, newSlot: bool, off': nat, ind': nat, stop': bool)
    returns (b': Budget)
    requires InBudget(calls, calls0, b, off0, end, off, ind, false) && off0 <= off < end
    requires var bn := off / BSIZE;
             && Elements(calls') <= Elements(calls) + bitmaps + {addr} + (if bn >= NDIRECT then {ind'} else {})
             && |bitmaps| <= Flag(newSlot) + Flag(bn >= NDIRECT && ind == 0)
             && (bn >= NDIRECT && !stop' ==> ind' != 0)
    requires ind != 0 ==> ind' == ind
    requires off == off0 && off0 % BSIZE != 0 ==> !newSlot
    requires !stop' && off' < end ==> off' == (off / BSIZE + 1) * BSIZE
    ensures InBudget(calls', calls0, b', off0, end, off', ind', stop')
  {
    hide InBudget, Spend, Elements;
    BudgetStart(calls, calls0, b, off0, end, off, ind, false);
    b' := Spend(b, bitmaps, addr, off / BSIZE, newSlot, ind, ind');
    BudgetStep(calls, calls0, b, off0, end, off, ind, calls', bitmaps, addr, newSlot, off', ind', stop');
  }

  class Fs {
    const sb: Super
    var blocks: seq<Block>
    var inodes: seq<Inode>
    ghost var owner: map<nat, Slot>
    /** The blocks given to log_write since the current begin_op. */
    ghost var calls: seq<nat>

    ghost predicate Valid()
      reads this
    {
      && Geometry(sb, blocks) && Owned(sb, blocks, inodes, owner)
      && |inodes| == sb.ninodes && forall i :: 0 <= i < |inodes| ==> NoHoles(blocks, inodes[i])
    }

    /** A formatted disk: zeros, the bits of everything before the data, and empty inodes. */
    constructor (layout: Super)
      requires Geometry(layout, seq(layout.size, _ => ZeroBlock()))
      ensures Valid() && sb == layout && owner == map[] && calls == []
      ensures forall i :: 0 <= i < |inodes| ==> inodes[i] == EmptyInode()
    {
      sb := layout;
      blocks := seq(layout.size, _ => ZeroBlock());
      inodes := seq(layout.ninodes, _ => EmptyInode());
      owner, calls := map[], [];
      new;
      NoBits(sb, blocks);
      hide Bit, ZeroBlock, BitSet, Owned, NoHoles;
      var b := 0;
      while b < sb.datastart
        invariant b <= sb.datastart && Geometry(sb, blocks) && Marked(sb, blocks, b)
        invariant inodes == seq(sb.ninodes, _ => EmptyInode()) && owner == map[] && calls == []
      {
        MarkOne(sb, blocks, b);
        blocks := blocks[BBLOCK(sb, b) := SetBit(blocks[BBLOCK(sb, b)], b % BPB)];
        b := b + 1;
      }
      FormattedOwned(sb, blocks, inodes);
    }

    ghost predicate Full()
      reads this
      requires Geometry(sb, blocks)
    {
      forall c: nat :: c < sb.size ==> BitSet(sb, blocks, c)
    }

    /** balloc: the first free block, marked and zeroed; 0 if there is none. */
    method Balloc() returns (r: nat)
      requires Geometry(sb, blocks) && forall c: nat :: c < sb.datastart ==> BitSet(sb, blocks, c)
      modifies this`blocks, this`calls
      ensures r == 0 ==> blocks == old(blocks) && calls == old(calls) && Full()
      ensures r != 0 ==>
                && sb.datastart <= r < sb.size && !BitSet(sb, old(blocks), r)
                && (forall c: nat :: c < r ==> BitSet(sb, old(blocks), c))
                && blocks == Allocated(sb, old(blocks), r)
                && calls == old(calls) + [BBLOCK(sb, r), r]
    {
      hide Bit, SetBit, ZeroBlock, BitSet, BBLOCK, Allocated;
      MapFits(sb, blocks);
      var b := 0;
      ghost var q := 0;
      while b < sb.size
        invariant b == BPB * q
        invariant blocks == old(blocks) && calls == old(calls)
        invariant forall c: nat :: c < sb.size && c < b ==> BitSet(sb, blocks, c)
      {
        var bi := FindClear(b, q);
        if bi < BPB && b + bi < sb.size {
          r := b + bi;
          Take(b, bi, q);
          return;
        }
        b := b + BPB;
        q := q + 1;
      }
      r := 0;
    }

    /** Mark bit bi of the q-th bitmap block, log it, and zero the block it stands for. */
    method Take(b: nat, bi: nat, ghost q: nat)
      requires Geometry(sb, blocks) && b == BPB * q && bi < BPB && b + bi < sb.size
      modifies this`blocks, this`calls
      ensures BBLOCK(sb, b + bi) < |old(blocks)| && blocks == Allocated(sb, old(blocks), b + bi)
      ensures calls == old(calls) + [BBLOCK(sb, b + bi), b + bi]
    {
      hide Bit, SetBit, ZeroBlock;
      SameBitmap(sb, q, bi);
      blocks := blocks[BBLOCK(sb, b) := SetBit(blocks[BBLOCK(sb, b)], bi)];
      blocks := blocks[b + bi := ZeroBlock()];
      calls := calls + [BBLOCK(sb, b), b + bi];
    }

    /** balloc's inner loop: the first clear bit of the q-th bitmap block. */
    method FindClear(b: nat, ghost q: nat) returns (bi: nat)
      requires Geometry(sb, blocks) && b == BPB * q < sb.size
      ensures bi <= BPB
      ensures bi < BPB && b + bi < sb.size ==> !BitSet(sb, blocks, b + bi)
      ensures forall c: nat :: b <= c < b + bi && c < sb.size ==> BitSet(sb, blocks, c)
    {
      hide Bit, BitSet;
      bi := 0;
      while bi < BPB && b + bi < sb.size
        invariant bi <= BPB
        invariant forall c: nat :: b <= c < b + bi && c < sb.size ==> BitSet(sb, blocks, c)
      {
        BitAt(sb, blocks, q, bi);
        if !Bit(blocks[BBLOCK(sb, b)], bi) {
          return;
        }
        bi := bi + 1;
      }
    }

    /** bfree; true is its panic. */
    method Bfree(b: nat) returns (panic: bool)
      requires Geometry(sb, blocks) && sb.datastart <= b < sb.size
      modifies this`blocks, this`calls
      ensures panic <==> !BitSet(sb, old(blocks), b)
      ensures panic ==> blocks == old(blocks) && calls == old(calls)
      ensures !panic ==> blocks == Freed(sb, old(blocks), b) && calls == old(calls) + [BBLOCK(sb, b)]
    {
      hide Bit, ClearBit;
      var bp := blocks[BBLOCK(sb, b)];
      var bi := b % BPB;
      if !Bit(bp, bi) {
        return true;
      }
      blocks := blocks[BBLOCK(sb, b) := ClearBit(bp, bi)];
      calls := calls + [BBLOCK(sb, b)];
      return false;
    }

    /** Allocate a block into a direct slot or as the indirect block. */
    method GrowDirect(inum: nat, j: nat) returns (addr: nat)
      requires Geometry(sb, blocks) && Owned(sb, blocks, inodes, owner) && inum < |inodes| && j <= NDIRECT
      requires inodes[inum].addrs[j] == 0
      modifies this`blocks, this`inodes, this`owner, this`calls
      ensures Geometry(sb, blocks) && Owned(sb, blocks, inodes, owner)
      ensures addr == 0 ==> Full() && blocks == old(blocks) && inodes == old(inodes) && calls == old(calls)
      ensures addr != 0 ==> addr < sb.size && calls == old(calls) + [BBLOCK(sb, addr), addr]
      ensures Grown(old(blocks), old(inodes), blocks, inodes, inum, SlotOf(j), addr)
    {
      hide Bit, Word, BitSet, Allocated, Owned;
      MetaBits(sb, blocks, inodes, owner);
      addr := Balloc();
      if addr != 0 {
        GrowDirectOk(sb, old(blocks), inodes, owner, inum, j, addr);
        var ino := inodes[inum];
        inodes := inodes[inum := ino.(addrs := ino.addrs[j := addr])];
        owner := owner[addr := Slot(inum, SlotOf(j))];
      }
    }

    /** Allocate a block into entry m of the indirect block. */
    method GrowEntry(inum: nat, m: nat) returns (addr: nat)
      requires Geometry(sb, blocks) && Owned(sb, blocks, inodes, owner) && inum < |inodes| && m < NINDIRECT
      requires |inodes[inum].addrs| == NDIRECT + 1 && inodes[inum].addrs[NDIRECT] != 0
      requires Addr(blocks, inodes[inum], NDIRECT + m) == 0
      modifies this`blocks, this`owner, this`calls
      ensures Geometry(sb, blocks) && Owned(sb, blocks, inodes, owner)
      ensures addr == 0 ==> Full() && blocks == old(blocks) && calls == old(calls)
      ensures addr != 0 ==> addr < sb.size && calls == old(calls) + [BBLOCK(sb, addr), addr, inodes[inum].addrs[NDIRECT]]
      ensures Grown(old(blocks), inodes, blocks, inodes, inum, NDIRECT + m, addr)
    {
      hide Bit, Word, BitSet, Allocated, Owned, SetWord, ZeroBlock;
      MetaBits(sb, blocks, inodes, owner);
      addr := Balloc();
      if addr != 0 {
        GrowEntryOk(sb, old(blocks), inodes, owner, inum, m, addr);
        var ind := inodes[inum].addrs[NDIRECT];
        blocks := blocks[ind := SetWord(blocks[ind], m, addr)];
        calls := calls + [ind];
        owner := owner[addr := Slot(inum, NDIRECT + m)];
      }
    }

    /** bmap: the block of slot bn, allocated if need be; 0 when the disk is full. */
    method Bmap(inum: nat, bn: nat) returns (addr: nat, ghost bitmaps: set<nat>)
      requires Geometry(sb, blocks) && Owned(sb, blocks, inodes, owner) && inum < |inodes| && bn < MAXFILE
      modifies this`blocks, this`inodes, this`owner, this`calls
      ensures Geometry(sb, blocks) && Owned(sb, blocks, inodes, owner)
      ensures Mapped(old(blocks), old(inodes), blocks, inodes, inum, bn)
      ensures addr == Addr(blocks, inodes[inum], bn) && (addr != 0 ==> sb.datastart <= addr < sb.size)
      ensures addr == 0 ==> Full()
      ensures Addr(old(blocks), old(inodes)[inum], bn) != 0 ==>
                calls == old(calls) && blocks == old(blocks) && inodes == old(inodes) && owner == old(owner)
      // the log_writes of this call
      ensures Elements(calls) <= Elements(old(calls)) + bitmaps + {addr} + IndirectOf(blocks, inodes[inum], bn)
      ensures |bitmaps| <= NewSlots(old(blocks), old(inodes)[inum], bn)
    {
      hide Bit, Word, BitSet, Owned, ByteAt, Addr, Mapped, Grown;
      bitmaps := {};
      SlotOwned(sb, blocks, inodes, owner, inum, bn);
      AddrCases(blocks, inodes[inum], bn);
      MappedRefl(blocks, inodes, inum, bn);
      if bn < NDIRECT {
        addr := inodes[inum].addrs[bn];
        if addr == 0 {
          addr := GrowDirect(inum, bn);
          GrownMapped(old(blocks), old(inodes), blocks, inodes, inum, bn, addr, bn);
          GrownSlot(old(blocks), old(inodes), blocks, inodes, inum, bn, addr);
          bitmaps := if addr == 0 then {} else {BBLOCK(sb, addr)};
          SlotOwned(sb, blocks, inodes, owner, inum, bn);
        }
      } else {
        addr, bitmaps := BmapIndirect(inum, bn);
      }
    }

    method BmapIndirect(inum: nat, bn: nat) returns (addr: nat, ghost bitmaps: set<nat>)
      requires Geometry(sb, blocks) && Owned(sb, blocks, inodes, owner) && inum < |inodes| && NDIRECT <= bn < MAXFILE
      modifies this`blocks, this`inodes, this`owner, this`calls
      ensures Geometry(sb, blocks) && Owned(sb, blocks, inodes, owner)
      ensures Mapped(old(blocks), old(inodes), blocks, inodes, inum, bn)
      ensures |inodes| == |old(inodes)|
      ensures addr == Addr(blocks, inodes[inum], bn) && (addr != 0 ==> sb.datastart <= addr < sb.size)
      ensures addr == 0 ==> Full()
      ensures Addr(old(blocks), old(inodes)[inum], bn) != 0 ==>
                calls == old(calls) && blocks == old(blocks) && inodes == old(inodes) && owner == old(owner)
      ensures Elements(calls) <= Elements(old(calls)) + bitmaps + {addr} + IndirectOf(blocks, inodes[inum], bn)
      ensures |bitmaps| <= NewSlots(old(blocks), old(inodes)[inum], bn)
    {
      hide Bit, Word, BitSet, Owned, ByteAt, Addr, Mapped, Grown;
      bitmaps := {};
      SlotOwned(sb, blocks, inodes, owner, inum, INDIRECT);
      SlotOwned(sb, blocks, inodes, owner, inum, bn);
      AddrCases(blocks, inodes[inum], bn);
      MappedRefl(blocks, inodes, inum, bn);
      var ind := inodes[inum].addrs[NDIRECT];
      if ind == 0 {
        ind := GrowDirect(inum, NDIRECT);
        GrownMapped(old(blocks), old(inodes), blocks, inodes, inum, INDIRECT, ind, bn);
        GrownSlot(old(blocks), old(inodes), blocks, inodes, inum, INDIRECT, ind);
        GrownOther(old(blocks), old(inodes), blocks, inodes, inum, INDIRECT, ind, bn);
        if ind == 0 {
          return 0, bitmaps;
        }
        bitmaps := {BBLOCK(sb, ind)};
        SlotOwned(sb, blocks, inodes, owner, inum, INDIRECT);
        AddrCases(blocks, inodes[inum], bn);
      }
      addr := Word(blocks[ind], bn - NDIRECT);
      if addr == 0 {
        ghost var blocks1, inodes1 := blocks, inodes;
        addr := GrowEntry(inum, bn - NDIRECT);
        GrownMapped(blocks1, inodes1, blocks, inodes, inum, bn, addr, bn);
        GrownSlot(blocks1, inodes1, blocks, inodes, inum, bn, addr);
        GrownOther(blocks1, inodes1, blocks, inodes, inum, bn, addr, INDIRECT);
        MappedTwice(old(blocks), old(inodes), blocks1, inodes1, blocks, inodes, inum, bn);
        bitmaps := bitmaps + if addr == 0 then {} else {BBLOCK(sb, addr)};
        SlotOwned(sb, blocks, inodes, owner, inum, bn);
      }
    }

    /** One round of writei's loop: map the block and copy bytes into it. */
    method WriteOne(inum: nat, off: nat, data: seq<Byte>) returns (addr: nat, ghost bitmaps: set<nat>)
      requires Geometry(sb, blocks) && Owned(sb, blocks, inodes, owner) && inum < |inodes|
      requires off / BSIZE < MAXFILE && off % BSIZE + |data| <= BSIZE
      modifies this`blocks, this`inodes, this`owner, this`calls
      ensures Geometry(sb, blocks) && Owned(sb, blocks, inodes, owner)
      ensures addr == 0 ==> Full()
      ensures Wrote(old(blocks), old(inodes), blocks, inodes, inum, off, if addr == 0 then [] else data)
      ensures addr == Addr(blocks, inodes[inum], off / BSIZE)
      ensures Elements(calls) <= Elements(old(calls)) + bitmaps + {addr} + IndirectOf(blocks, inodes[inum], off / BSIZE)
      ensures |bitmaps| <= NewSlots(old(blocks), old(inodes)[inum], off / BSIZE)
    {
      hide Bit, Word, BitSet, Owned, ByteAt, Addr, Mapped, Wrote, Patch, NewSlots;
      WroteNothing(blocks, inodes, inum, off);
      addr, bitmaps := Bmap(inum, off / BSIZE);
      MappedWrote(old(blocks), old(inodes), old(blocks), old(inodes), blocks, inodes, inum, off / BSIZE, off, []);
      MappedSize(old(blocks), old(inodes), blocks, inodes, inum, off / BSIZE);
      if addr != 0 {
        ghost var blocks1 := blocks;
        PatchWrites(sb, blocks, inodes, owner, inum, off, data);
        blocks := blocks[addr := Patch(blocks[addr], off % BSIZE, data)];
        calls := calls + [addr];
        WroteMore(old(blocks), old(inodes), blocks1, inodes, blocks, inodes, inum, off, [], data);
        assert [] + data == data;
        WroteKeeps(blocks1, inodes, blocks, inodes, inum, off, data, off / BSIZE);
        WroteKeeps(blocks1, inodes, blocks, inodes, inum, off, data, INDIRECT);
        IndirectMapped(sb, blocks1, inodes, owner, inum, off / BSIZE);
      }
    }

    method WriteRound(inum: nat, src: seq<Byte>, avail: nat, off0: nat, tot: nat, ghost bu: Budget,
                      ghost calls0: seq<nat>, ghost blocks0: seq<Block>, ghost inodes0: seq<Inode>)
      returns (stop: bool, tot': nat, off': nat, ghost w: nat, ghost bu': Budget)
      requires Geometry(sb, blocks) && Owned(sb, blocks, inodes, owner) && inum < |inodes|
      requires tot < |src| && tot <= avail && off0 + |src| <= MAXFILE * BSIZE
      requires Wrote(blocks0, inodes0, blocks, inodes, inum, off0, src[..tot])
      requires inum < |inodes0| && NoHoles(blocks0, inodes0[inum]) && off0 <= inodes0[inum].size
      requires Covered(blocks, inodes[inum], off0 + tot)
      requires InBudget(calls, calls0, bu, off0, off0 + |src|, off0 + tot, Addr(blocks, inodes[inum], INDIRECT), false)
      modifies this`blocks, this`inodes, this`owner, this`calls
      ensures Geometry(sb, blocks) && Owned(sb, blocks, inodes, owner) && |inodes| == |old(inodes)|
      ensures tot <= tot' <= w <= |src| && off' == off0 + tot' && tot' <= avail && (stop || tot < tot')
      ensures w != tot' ==> stop && w == avail < |src|
      ensures stop && |src| <= avail ==> Full()
      ensures Wrote(blocks0, inodes0, blocks, inodes, inum, off0, src[..w])
      ensures Covered(blocks, inodes[inum], off')
      ensures InBudget(calls, calls0, bu', off0, off0 + |src|, off', Addr(blocks, inodes[inum], INDIRECT), stop)
    {
      hide Bit, Word, BitSet, Owned, ByteAt, Addr, Wrote, InBudget, Covered, Elements, NoHoles, Span, Spend;
      var n, off := |src|, off0 + tot;
      var m := Span(n - tot, off);
      var ok := tot + m <= avail;
      var c := if ok then m else avail - tot;
      ghost var blocks1, inodes1, calls1 := blocks, inodes, calls;
      ghost var ind := Addr(blocks, inodes[inum], INDIRECT);
      var addr: nat;
      ghost var bitmaps;
      addr, bitmaps := WriteOne(inum, off, src[tot..tot + c]);
      stop := addr == 0 || !ok;
      tot', off' := if stop then tot else tot + m, if stop then off else off + m;
      w := if addr == 0 then tot else tot + c;
      ghost var data := if addr == 0 then [] else src[tot..tot + c];
      WroteMore(blocks0, inodes0, blocks1, inodes1, blocks, inodes, inum, off0, src[..tot], data);
      assert src[..tot] + data == src[..w];
      WroteKeeps(blocks1, inodes1, blocks, inodes, inum, off, data, INDIRECT);
      CoveredStep(blocks1, inodes1, blocks, inodes, inum, off, data, off');
      OldSlot(blocks0, inodes0, blocks1, inodes1, inum, off0, src[..tot], off);
      if addr != 0 {
        IndirectMapped(sb, blocks, inodes, owner, inum, off / BSIZE);
      }
      bu' := RoundBudget(calls1, calls0, bu, off0, off0 + n, off, ind, calls, bitmaps, addr,
                         Addr(blocks1, inodes1[inum], off / BSIZE) == 0, off', Addr(blocks, inodes[inum], INDIRECT), stop);
    }

    /** writei.  `avail` is how many bytes of the source can be read before the copy
        faults; `w` counts the bytes that reached the file, which after a fault may
        exceed the returned count. */
    method Writei(inum: nat, src: seq<Byte>, avail: nat, off0: nat) returns (r: int, ghost w: nat)
      requires Valid() && inum < |inodes| && off0 < UINT && |src| < UINT
      modifies this`blocks, this`inodes, this`owner, this`calls
      ensures Valid()
      ensures WriteRejected(old(inodes)[inum], off0, |src|) ==>
                r == -1 && blocks == old(blocks) && inodes == old(inodes) && calls == old(calls)
      ensures !WriteRejected(old(inodes)[inum], off0, |src|) ==>
                && 0 <= r <= w <= |src|
                && (r < |src| && |src| <= avail ==> Full())
                && (w != r ==> w == avail < |src|)
                && r <= avail
                && FileWritten(old(blocks), old(inodes), blocks, inodes, inum, off0, src[..w], off0 + r)
      ensures !WriteRejected(old(inodes)[inum], off0, |src|) && old(calls) == [] && |src| <= CHUNK ==>
                && |calls| > 0 && calls[|calls| - 1] == IBLOCK(sb, inum)
                && |Elements(calls[..|calls| - 1])| < Journal.MAXOPBLOCKS
    {
      hide Bit, Word, BitSet, Owned, ByteAt, Addr, Wrote, Covered, InBudget, NoHoles, FileWritten, Elements;
      w := 0;
      if off0 > inodes[inum].size || off0 + |src| >= UINT {
        return -1, 0;
      }
      if off0 + |src| > MAXFILE * BSIZE {
        return -1, 0;
      }
      BudgetInit(calls, off0, off0 + |src|, Addr(blocks, inodes[inum], INDIRECT));
      var n, tot, off, stop := |src|, 0, off0, false;
      ghost var bu := Budget({}, {}, {}, 0, 0, 0);
      WroteNothing(blocks, inodes, inum, off0);
      CoveredStart(blocks, inodes[inum], off0);
      while tot < n && !stop
        decreases n - tot, !stop
        invariant Geometry(sb, blocks) && Owned(sb, blocks, inodes, owner)
        invariant |inodes| == |old(inodes)|
        invariant tot <= w <= n && off == off0 + tot && tot <= avail
        invariant w != tot ==> stop && w == avail < n
        invariant stop && n <= avail ==> Full()
        invariant Wrote(old(blocks), old(inodes), blocks, inodes, inum, off0, src[..w])
        invariant Covered(blocks, inodes[inum], off)
        invariant InBudget(calls, old(calls), bu, off0, off0 + n, off, Addr(blocks, inodes[inum], INDIRECT), stop)
      {
        stop, tot, off, w, bu := WriteRound(inum, src, avail, off0, tot, bu, old(calls), old(blocks), old(inodes));
      }
      r := tot;
      BudgetTotalIf(calls, old(calls), bu, off0, n, off, Addr(blocks, inodes[inum], INDIRECT), stop);
      FinishWrite(old(blocks), old(inodes), blocks, inodes, inum, off0, src[..w], off);
      ghost var sz := if off > inodes[inum].size then off else inodes[inum].size;
      OwnedSize(sb, blocks, inodes, owner, inum, sz);
      ghost var inodes1 := inodes;
      if off > inodes[inum].size {
        inodes := inodes[inum := inodes[inum].(size := off)];
      }
      assert inodes == inodes1[inum := inodes1[inum].(size := sz)];
      calls := calls + [IBLOCK(sb, inum)];
    }

    /** One turn of readi's loop: up to the end of the block at off. */
    method ReadSome(inum: nat, off: nat, want: nat) returns (bytes: seq<Byte>)
      requires Valid() && inum < |inodes| && want > 0 && off + want <= inodes[inum].size
      modifies this`blocks, this`inodes, this`owner, this`calls
      ensures blocks == old(blocks) && inodes == old(inodes) && owner == old(owner) && calls == old(calls)
      ensures 1 <= |bytes| <= want && bytes == Contents(blocks, inodes[inum])[off..off + |bytes|]
    {
      hide Bit, Word, BitSet, Owned, Addr, Mapped, ByteAt, Contents;
      var ino := inodes[inum];
      var bn := off / BSIZE;
      assert off == BSIZE * bn + off % BSIZE;
      assert Addr(blocks, ino, bn) != 0;
      var addr: nat;
      ghost var bm;
      addr, bm := Bmap(inum, bn);
      var m := Span(want, off);
      ReadBlock(blocks, ino, off, m);
      bytes := blocks[addr][off % BSIZE..off % BSIZE + m];
    }

    /** readi.  `room` is how many bytes the destination takes before the copy
        faults.  Nothing is allocated: there are no holes below size. */
    method Readi(inum: nat, off0: nat, n0: nat, room: nat) returns (r: int, out: seq<Byte>)
      requires Valid() && inum < |inodes| && off0 < UINT && n0 < UINT
      modifies this`blocks, this`inodes, this`owner, this`calls
      ensures blocks == old(blocks) && inodes == old(inodes) && owner == old(owner) && calls == old(calls)
      ensures off0 > inodes[inum].size || off0 + n0 >= UINT ==> r == 0 && out == []
      ensures off0 <= inodes[inum].size && off0 + n0 < UINT ==>
                var n := if off0 + n0 > inodes[inum].size then inodes[inum].size - off0 else n0;
                if n <= room then r == n && out == Contents(blocks, inodes[inum])[off0..off0 + n]
                else r == -1
    {
      hide Bit, Word, BitSet, Owned, Addr, Mapped, ByteAt, Contents;
      out := [];
      var ino := inodes[inum];
      if off0 > ino.size || off0 + n0 >= UINT {
        return 0, [];
      }
      var n := if off0 + n0 > ino.size then ino.size - off0 else n0;
      var tot := 0;
      while tot < n
        invariant tot <= n && tot <= room && |out| == tot
        invariant blocks == old(blocks) && inodes == old(inodes) && owner == old(owner) && calls == old(calls)
        invariant out == Contents(blocks, ino)[off0..off0 + tot]
      {
        var bytes := ReadSome(inum, off0 + tot, n - tot);
        if tot + |bytes| > room {
          return -1, out;
        }
        ghost var all := Contents(blocks, ino);
        assert all[off0..off0 + tot] + bytes == all[off0..off0 + tot + |bytes|];
        out := out + bytes;
        tot := tot + |bytes|;
      }
      r := tot;
    }

    /** itrunc: frees exactly the blocks of this file; bfree never panics. */
    method Itrunc(inum: nat) returns (panic: bool)
      requires Valid() && inum < |inodes|
      modifies this`blocks, this`inodes, this`owner, this`calls
      ensures !panic && Valid()
      ensures inodes == old(inodes)[inum := EmptyInode()] && owner == WithoutFile(old(owner), inum)
      ensures forall c: nat :: c < sb.size ==>
                (BitSet(sb, blocks, c) <==>
                 BitSet(sb, old(blocks), c) && !(c in old(owner) && old(owner)[c].inum == inum))
      ensures forall j: nat :: j < |inodes| && j != inum ==> Contents(blocks, inodes[j]) == Contents(old(blocks), inodes[j])
    {
      hide Bit, Word, BitSet, Addr, Owned, ByteAt, NoHoles, Freed, Cleared;
      FreeDirect(inum);
      var ind := inodes[inum].addrs[NDIRECT];
      SlotOwned(sb, old(blocks), old(inodes), owner, inum, INDIRECT);
      if ind != 0 {
        FreeIndirect(inum, ind, old(blocks), old(inodes));
        inodes := inodes[inum := inodes[inum].(addrs := inodes[inum].addrs[NDIRECT := 0])];
      } else {
        NoIndirect(sb, old(blocks), old(inodes), blocks, owner, inum);
      }
      inodes := inodes[inum := inodes[inum].(size := 0)];
      assert inodes[inum].addrs == EmptyInode().addrs;
      assert inodes == old(inodes)[inum := EmptyInode()];
      calls := calls + [IBLOCK(sb, inum)];
      panic := false;
      TruncateDone(sb, old(blocks), old(inodes), blocks, owner, inum);
      TruncateSeen(sb, old(blocks), old(inodes), blocks, owner, inum);
      owner := WithoutFile(owner, inum);
    }

    method FreeDirect(inum: nat)
      requires Geometry(sb, blocks) && Owned(sb, blocks, inodes, owner) && inum < |inodes|
      modifies this`blocks, this`inodes, this`calls
      ensures Geometry(sb, blocks) && Cleared(sb, old(blocks), blocks, owner, inum, 0, NDIRECT)
      ensures |inodes| == |old(inodes)| && inodes == old(inodes)[inum := inodes[inum]]
      ensures |old(inodes)[inum].addrs| == NDIRECT + 1
      ensures inodes[inum].addrs == seq(NDIRECT, _ => 0) + [old(inodes)[inum].addrs[NDIRECT]]
    {
      hide Bit, Word, BitSet, Addr, Owned, ByteAt, Freed;
      ghost var ino := inodes[inum];
      SlotOwned(sb, blocks, inodes, owner, inum, 0);
      var i := 0;
      while i < NDIRECT
        invariant |inodes| == |old(inodes)| && inodes == old(inodes)[inum := inodes[inum]]
        invariant i <= NDIRECT && Geometry(sb, blocks) && Cleared(sb, old(blocks), blocks, owner, inum, 0, i)
        invariant inodes[inum].addrs == ZeroedTo(ino.addrs, i)
      {
        AddrCases(old(blocks), ino, i);
        ClearedStep(sb, old(blocks), old(inodes), blocks, owner, inum, 0, i);
        ZeroPrefix(ino.addrs, i);
        var a := inodes[inum].addrs[i];
        if a != 0 {
          var panic := Bfree(a);
          assert !panic;
          inodes := inodes[inum := inodes[inum].(addrs := inodes[inum].addrs[i := 0])];
        }
        i := i + 1;
      }
    }

    method FreeIndirect(inum: nat, ind: nat, ghost blocks0: seq<Block>, ghost inodes0: seq<Inode>)
      requires Geometry(sb, blocks0) && Owned(sb, blocks0, inodes0, owner) && inum < |inodes0|
      requires |inodes0[inum].addrs| == NDIRECT + 1 && 0 < ind == inodes0[inum].addrs[NDIRECT]
      requires Geometry(sb, blocks) && Cleared(sb, blocks0, blocks, owner, inum, 0, NDIRECT)
      modifies this`blocks, this`calls
      ensures Geometry(sb, blocks) && Cleared(sb, blocks0, blocks, owner, inum, 0, INDIRECT + 1)
    {
      hide Bit, Word, BitSet, Addr, Owned, ByteAt, Freed;
      SlotOwned(sb, blocks0, inodes0, owner, inum, INDIRECT);
      var j := 0;
      while j < NINDIRECT
        invariant j <= NINDIRECT && Geometry(sb, blocks)
        invariant Cleared(sb, blocks0, blocks, owner, inum, 0, NDIRECT + j)
      {
        AddrCases(blocks0, inodes0[inum], NDIRECT + j);
        ClearedStep(sb, blocks0, inodes0, blocks, owner, inum, 0, NDIRECT + j);
        var a := Word(blocks[ind], j);
        if a != 0 {
          var panic := Bfree(a);
          assert !panic;
        }
        j := j + 1;
      }
      ClearedStep(sb, blocks0, inodes0, blocks, owner, inum, 0, INDIRECT);
      var panic := Bfree(ind);
      assert !panic;
    }

    /** One operation of filewrite, in terms of what readers see. */
    method WriteChunk(inum: nat, chunk: seq<Byte>, avail: nat, off: nat) returns (r: int, ghost w: nat)
      requires Valid() && inum < |inodes| && off < UINT && |chunk| <= CHUNK
      modifies this`blocks, this`inodes, this`owner, this`calls
      ensures Valid() && |inodes| == |old(inodes)| && FitsLog(calls)
      ensures r < 0 ==> blocks == old(blocks) && inodes == old(inodes)
      ensures off > old(inodes)[inum].size ==> r < 0
      ensures r >= 0 ==>
                && r <= w <= |chunk| && (|chunk| <= avail ==> w == r)
                && Contents(blocks, inodes[inum]) ==
                   Splice(Contents(old(blocks), old(inodes)[inum]), off, chunk[..w])[..Max(old(inodes)[inum].size, off + r)]
                && inodes[inum].size == Max(old(inodes)[inum].size, off + r)
      ensures forall j: nat :: j < |inodes| && j != inum ==>
                Contents(blocks, inodes[j]) == Contents(old(blocks), old(inodes)[j])
    {
      hide Bit, Word, BitSet, Owned, ByteAt, Addr, NoHoles, Geometry, Contents, Splice, Elements;
      calls := [];
      r, w := Writei(inum, chunk, avail, off);
      if r >= 0 {
        FlatWrite(old(blocks), old(inodes), blocks, inodes, inum, off, chunk[..w], off + r);
      }
    }

    /** filewrite on an inode: one operation per chunk.  `ops` records the blocks
        each of these operations gave to log_write, in order. */
    method Filewrite(inum: nat, src: seq<Byte>, avail: nat, off0: nat)
      returns (ret: int, off: nat, ghost w: nat, ghost ops: seq<seq<nat>>)
      requires Valid() && inum < |inodes| && off0 < UINT && |src| < UINT
      modifies this`blocks, this`inodes, this`owner, this`calls
      ensures Valid() && |inodes| == |old(inodes)|
      ensures ret == |src| || ret == -1
      ensures off0 <= off <= off0 + w && w <= |src|
      ensures ret == |src| ==> off == off0 + |src| && w == |src|
      ensures |src| <= avail ==> off == off0 + w
      ensures off0 > old(inodes)[inum].size ==> w == 0
      ensures off0 <= old(inodes)[inum].size ==>
                Contents(blocks, inodes[inum]) ==
                Splice(Contents(old(blocks), old(inodes)[inum]), off0, src[..w])[..Max(old(inodes)[inum].size, off)]
      ensures forall j: nat :: j < |inodes| && j != inum ==>
                Contents(blocks, inodes[j]) == Contents(old(blocks), old(inodes)[j])
      ensures forall k :: 0 <= k < |ops| ==> FitsLog(ops[k])
    {
      hide Bit, Word, BitSet, Owned, ByteAt, Addr, NoHoles, Geometry, Contents, Elements, FitsLog, Splice;
      var n, i := |src|, 0;
      off, w, ops := off0, 0, [];
      ghost var c0 := Contents(blocks, inodes[inum]);
      var go := true;
      SpliceNothing(c0, off0, src);
      while i < n && go
        invariant Valid() && |inodes| == |old(inodes)|
        invariant i <= w <= n && off0 <= off <= off0 + w
        invariant if go then w == i && off == off0 + i else i < n
        invariant n <= avail ==> off == off0 + w
        invariant off0 > old(inodes)[inum].size ==> w == 0 && inodes[inum].size == old(inodes)[inum].size
        invariant off0 <= old(inodes)[inum].size ==>
                    && Contents(blocks, inodes[inum]) == Splice(c0, off0, src[..w])[..Max(|c0|, off)]
                    && off <= inodes[inum].size
        invariant forall j: nat :: j < |inodes| && j != inum ==>
                    Contents(blocks, inodes[j]) == Contents(old(blocks), old(inodes)[j])
        invariant forall k :: 0 <= k < |ops| ==> FitsLog(ops[k])
        decreases n - i, go
      {
        var n1 := if n - i > CHUNK then CHUNK else n - i;
        SizeBound(blocks, inodes[inum]);
        var r: int;
        ghost var w1: nat;
        r, w1 := WriteChunk(inum, src[i..i + n1], if avail > i then avail - i else 0, off);
        ops := ops + [calls];
        if r >= 0 {
          ChunkSplice(c0, off0, src, i, n1, w1, r);
          w := i + w1;
        }
        if r > 0 {
          off := off + r;
        }
        if r != n1 {
          go := false;
        } else {
          i := i + r;
        }
      }
      ret := if i == n then n else -1;
    }
  }
}
