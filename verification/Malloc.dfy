/** The user heap: a circular free list in address order, with neighbours merged on free.
  * Addresses count header-sized units (16 bytes). */
module Malloc {
  import opened Basics

  const UNIT: nat := 16
  const CHUNK: nat := 4096

  // ----- sizes -----

  /** Units for a request: whole units for the bytes plus one for the header. */
  function Units(nbytes: nat): (n: nat)
    ensures n >= 1 && (n - 1) * UNIT >= nbytes && (n - 1) * UNIT < nbytes + UNIT
  {
    (nbytes + UNIT - 1) / UNIT + 1
  }

  function Chunk(nu: nat): nat {
    if nu < CHUNK then CHUNK else nu
  }

  /** The byte count as sbrk's int parameter receives it. */
  function SbrkArgument(nu: nat): int {
    var low := nu * UNIT % 0x1_0000_0000;
    if low < 0x8000_0000 then low else low - 0x1_0000_0000
  }

  /** Among 32-bit unit counts, exactly those below 2^27 reach sbrk as they are; for any larger
    * count that malloc can ask for, sbrk is told to shrink or to add at most one unit. */
  lemma SbrkArgumentExact(nu: nat)
    requires nu < 0x1_0000_0000
    ensures SbrkArgument(nu) == nu * UNIT <==> nu < 0x800_0000
    ensures 0x800_0000 <= nu <= 0x1000_0001 ==> SbrkArgument(nu) <= UNIT
  {
    if nu < 0x800_0000 {
      assert nu * UNIT < 0x8000_0000;
    } else if nu >= 0x1000_0000 {
      assert nu * UNIT % 0x1_0000_0000 == (nu - 0x1000_0000) * UNIT % 0x1_0000_0000;
    }
  }

  /** What sbrk did with a request for nu units: it refused, or what it was told to add is what
    * was meant, at an address that was not in use. */
  ghost predicate Answers(base: int, own: map<int, int>, grant: Option<int>, nu: nat) {
    grant.Some? ==> SbrkArgument(nu) == nu * UNIT && Unused(base, own, grant.value, nu)
  }

  // ----- the shape of the heap -----

  function Succ(i: nat, n: nat): nat {
    if i + 1 == n then 0 else i + 1
  }

  predicate LinkAt(list: seq<int>, next: map<int, int>, i: nat)
    requires i < |list|
  {
    list[i] in next && next[list[i]] == list[Succ(i, |list|)]
  }

  /** The stored pointers close the list into a ring. */
  ghost predicate Ring(list: seq<int>, next: map<int, int>) {
    forall i :: 0 <= i < |list| ==> LinkAt(list, next, i)
  }

  /** Ascending, and never touching: two neighbouring free blocks would have been merged. */
  ghost predicate Spaced(list: seq<int>, size: map<int, int>) {
    && (forall i :: 0 <= i < |list| ==> list[i] in size && (i > 0 ==> size[list[i]] >= 1))
    && (forall i, j :: 0 <= i < j < |list| ==> list[i] + size[list[i]] < list[j])
  }

  ghost predicate Ascending(list: seq<int>) {
    forall i, j :: 0 <= i < j < |list| ==> list[i] < list[j]
  }

  lemma SpacedAscends(list: seq<int>, size: map<int, int>)
    requires Spaced(list, size) && |list| >= 1 && size[list[0]] >= 0
    ensures Ascending(list)
  {
  }

  ghost predicate Covers(own: map<int, int>, b: int, n: int) {
    forall u :: b <= u < b + n ==> u in own && own[u] == b
  }

  ghost predicate InBlock(blocks: map<int, int>, own: map<int, int>, u: int)
    requires u in own
  {
    own[u] in blocks && own[u] <= u < own[u] + blocks[own[u]]
  }

  /** The blocks tile the units obtained so far: own names, for each unit, the block it lies
    * in, and each block covers exactly its own units. */
  ghost predicate Tiled(blocks: map<int, int>, own: map<int, int>) {
    && (forall b :: b in blocks ==> blocks[b] >= 1 && Covers(own, b, blocks[b]))
    && (forall u :: u in own ==> InBlock(blocks, own, u))
  }

  /** Every block is free or live, not both, and its header holds its size. */
  ghost predicate Sorted(free: set<int>, live: set<int>, size: map<int, int>, blocks: map<int, int>) {
    && blocks.Keys == free + live && free !! live
    && (forall b :: b in blocks ==> b in size && size[b] == blocks[b])
  }

  /** The free blocks: the list without the base header. */
  ghost function Blocks(list: seq<int>): set<int> {
    set i | 1 <= i < |list| :: list[i]
  }

  ghost predicate Listed(base: int, list: seq<int>, freep: int) {
    |list| >= 1 && list[0] == base && freep in list
  }

  lemma AtIndex(list: seq<int>, i: nat)
    requires 1 <= i < |list|
    ensures list[i] in Blocks(list)
  {
  }

  ghost predicate AboveAll(base: int, own: map<int, int>) {
    forall u :: u in own ==> base < u
  }

  /** A heap at rest. */
  ghost predicate Sound(base: int, size: map<int, int>, next: map<int, int>, list: seq<int>,
                        live: set<int>, blocks: map<int, int>, own: map<int, int>) {
    && Listed(base, list, base) && Ring(list, next) && Spaced(list, size) && base in size && size[base] == 0
    && Tiled(blocks, own) && Sorted(Blocks(list), live, size, blocks)
  }

  /** In the middle of free: bp is free, cut out of the ring after entry t, and cannot be merged
    * upwards. */
  ghost predicate Pending(base: int, size: map<int, int>, next: map<int, int>, list: seq<int>,
                          live: set<int>, blocks: map<int, int>, own: map<int, int>, bp: int, t: nat) {
    && Listed(base, list, base) && base < bp && bp !in list && t < |list|
    && bp in next && Ring(list, next[list[t] := next[bp]])
    && Spaced(list, size) && base in size && size[base] == 0 && bp in size && size[bp] >= 1
    && list[t] in size && list[t] + size[list[t]] <= bp && (t + 1 < |list| ==> bp + size[bp] < list[t + 1])
    && Tiled(blocks, own) && Sorted(Blocks(list) + {bp}, live, size, blocks)
  }

  // ----- where a block belongs -----

  /** The last entry below bp. */
  ghost function Slot(list: seq<int>, bp: int): (t: nat)
    requires |list| >= 1 && list[0] < bp
    ensures t < |list| && list[t] < bp && forall j :: t < j < |list| ==> bp <= list[j]
    decreases |list|
  {
    if list[|list| - 1] < bp then |list| - 1 else Slot(list[..|list| - 1], bp)
  }

  /** Steps from entry i round the ring to entry t. */
  ghost function Ahead(i: nat, t: nat, n: nat): nat
    requires i < n && t < n
  {
    if i <= t then t - i else n - i + t
  }

  /** Two blocks do not overlap. */
  lemma Apart(blocks: map<int, int>, own: map<int, int>, b: int, c: int)
    requires Tiled(blocks, own) && b in blocks && c in blocks && b < c
    ensures b + blocks[b] <= c
  {
    assert Covers(own, b, blocks[b]) && Covers(own, c, blocks[c]);
    assert c in own && own[c] == c;
  }

  /** A block that is not in the list fits between its neighbours. */
  lemma Fits(list: seq<int>, size: map<int, int>, live: set<int>, blocks: map<int, int>, own: map<int, int>, bp: int)
    requires |list| >= 1 && list[0] < bp && list[0] in size && size[list[0]] == 0
    requires Tiled(blocks, own) && Sorted(Blocks(list), live, size, blocks) && bp in live
    ensures var t := Slot(list, bp);
            && list[t] in size && list[t] + size[list[t]] <= bp && bp in size && size[bp] >= 1
            && (t + 1 < |list| ==> bp + size[bp] <= list[t + 1])
  {
    var t := Slot(list, bp);
    if t > 0 {
      AtIndex(list, t);
      Apart(blocks, own, list[t], bp);
    }
    if t + 1 < |list| {
      AtIndex(list, t + 1);
      Apart(blocks, own, bp, list[t + 1]);
    }
  }

  // ----- changes to the list -----

  function Insert(list: seq<int>, t: nat, bp: int): (r: seq<int>)
    requires t < |list|
    ensures |r| == |list| + 1
    ensures forall i :: 0 <= i < |r| ==> r[i] == if i <= t then list[i] else if i == t + 1 then bp else list[i - 1]
  {
    list[..t + 1] + [bp] + list[t + 1..]
  }

  function Remove(list: seq<int>, t: nat): (r: seq<int>)
    requires t < |list|
    ensures |r| == |list| - 1
    ensures forall i :: 0 <= i < |r| ==> r[i] == if i < t then list[i] else list[i + 1]
  {
    list[..t] + list[t + 1..]
  }

  lemma BlocksInsert(list: seq<int>, t: nat, bp: int)
    requires t < |list|
    ensures Blocks(Insert(list, t, bp)) == Blocks(list) + {bp}
  {
    var l := Insert(list, t, bp);
    forall b
      ensures b in Blocks(l) <==> b in Blocks(list) + {bp}
    {
      if b in Blocks(list) {
        var i :| 1 <= i < |list| && list[i] == b;
        assert l[if i <= t then i else i + 1] == b;
      }
      assert l[t + 1] == bp;
    }
  }

  lemma BlocksRemove(list: seq<int>, t: nat)
    requires 1 <= t < |list|
    requires Ascending(list)
    ensures Blocks(Remove(list, t)) == Blocks(list) - {list[t]}
  {
    var l := Remove(list, t);
    forall b
      ensures b in Blocks(l) <==> b in Blocks(list) - {list[t]}
    {
      if b in Blocks(list) && b != list[t] {
        var i :| 1 <= i < |list| && list[i] == b;
        assert l[if i < t then i else i - 1] == b;
      }
    }
  }

  lemma RingInsert(list: seq<int>, next: map<int, int>, t: nat, bp: int)
    requires t < |list| && Ring(list, next) && Ascending(list) && bp !in list
    ensures LinkAt(list, next, t) && Ring(Insert(list, t, bp), next[bp := next[list[t]]][list[t] := bp])
  {
    var l := Insert(list, t, bp);
    assert LinkAt(list, next, t);
    var n := next[bp := next[list[t]]][list[t] := bp];
    forall i | 0 <= i < |l|
      ensures LinkAt(l, n, i)
    {
      var k := if i <= t then i else i - 1;
      assert LinkAt(list, next, k) && list[k] in list;
    }
  }

  lemma RingRemove(list: seq<int>, next: map<int, int>, t: nat)
    requires 1 <= t < |list| && Ring(list, next) && Ascending(list)
    ensures LinkAt(list, next, t) && Ring(Remove(list, t), next[list[t - 1] := next[list[t]]])
  {
    var l := Remove(list, t);
    assert LinkAt(list, next, t);
    var n := next[list[t - 1] := next[list[t]]];
    forall i | 0 <= i < |l|
      ensures LinkAt(l, n, i)
    {
      var k := if i < t then i else i + 1;
      assert LinkAt(list, next, k);
    }
  }

  /** Merge block b with the block c that starts where b ends. */
  ghost function Absorb(own: map<int, int>, b: int, c: int): map<int, int> {
    map u | u in own :: if own[u] == c then b else own[u]
  }

  lemma TiledAbsorb(blocks: map<int, int>, own: map<int, int>, b: int, c: int)
    requires Tiled(blocks, own) && b in blocks && c in blocks && b != c && b + blocks[b] == c
    ensures Tiled((blocks - {c})[b := blocks[b] + blocks[c]], Absorb(own, b, c))
    ensures Absorb(own, b, c).Keys == own.Keys
  {
    var own' := Absorb(own, b, c);
    forall d | d in blocks && d != c
      ensures Covers(own', d, if d == b then blocks[b] + blocks[c] else blocks[d])
    {
      assert Covers(own, d, blocks[d]) && Covers(own, c, blocks[c]);
    }
  }

  /** Give the last n units of the free block b to a live block. */
  ghost function Carve(own: map<int, int>, h: int, n: int): map<int, int> {
    map u | u in own :: if h <= u < h + n then h else own[u]
  }

  lemma InnerNotBlock(blocks: map<int, int>, own: map<int, int>, b: int, m: int)
    requires Tiled(blocks, own) && b in blocks && 1 <= m < blocks[b]
    ensures b + m !in blocks
  {
    assert Covers(own, b, blocks[b]);
    assert b + m in own && own[b + m] == b;
  }

  lemma TiledCarve(blocks: map<int, int>, own: map<int, int>, b: int, m: int, n: int)
    requires Tiled(blocks, own) && b in blocks && blocks[b] == m + n && m >= 1 && n >= 1
    ensures b + m !in blocks && Carve(own, b + m, n).Keys == own.Keys
    ensures Tiled(blocks[b := m][b + m := n], Carve(own, b + m, n))
  {
    hide Covers, InBlock;
    var h := b + m;
    var own' := Carve(own, h, n);
    var blocks' := blocks[b := m][h := n];
    InnerNotBlock(blocks, own, b, m);
    CarveNew(own, b, m, n);
    forall c | c in blocks'
      ensures blocks'[c] >= 1 && Covers(own', c, blocks'[c])
    {
      if c in blocks { CarveCovers(own, b, m, n, c, blocks[c]); }
    }
    forall u | u in own'
      ensures InBlock(blocks', own', u)
    {
      CarveInside(blocks, own, b, m, n, u);
    }
  }

  lemma CarveNew(own: map<int, int>, b: int, m: int, n: int)
    requires Covers(own, b, m + n) && m >= 1
    ensures Covers(Carve(own, b + m, n), b + m, n)
  {
  }

  lemma CarveInside(blocks: map<int, int>, own: map<int, int>, b: int, m: int, n: int, u: int)
    requires Tiled(blocks, own) && b in blocks && blocks[b] == m + n && m >= 1 && n >= 1 && u in own
    ensures InBlock(blocks[b := m][b + m := n], Carve(own, b + m, n), u)
  {
    assert InBlock(blocks, own, u);
    assert Covers(own, b, m + n);
    if own[u] in blocks { CarveCovers(own, b, m, n, own[u], blocks[own[u]]); }
  }

  lemma CarveCovers(own: map<int, int>, b: int, m: int, n: int, c: int, k: int)
    requires Covers(own, b, m + n) && Covers(own, c, k) && m >= 1 && n >= 1 && k >= 1
    requires c == b ==> k == m + n
    ensures c != b + m && Covers(Carve(own, b + m, n), c, if c == b then m else k)
  {
    assert own[b + m] == b;
    assert c in own && own[c] == c;
  }

  predicate Within(u: int, h: int, n: int) {
    h <= u < h + n
  }

  /** Units new from sbrk, as one block. */
  ghost function Grant(own: map<int, int>, h: int, n: int): map<int, int> {
    own + (map u | h <= u < h + n && Within(u, h, n) :: h)
  }

  lemma TiledGrow(blocks: map<int, int>, own: map<int, int>, h: int, n: int)
    requires Tiled(blocks, own) && n >= 1
    requires forall u :: h <= u < h + n ==> u !in own
    ensures h !in blocks && Tiled(blocks[h := n], Grant(own, h, n))
  {
    var own' := Grant(own, h, n);
    forall c | c in blocks
      ensures c != h && Covers(own', c, blocks[c])
    {
      assert Covers(own, c, blocks[c]) && c in own;
    }
    assert Covers(own', h, n);
  }

  // ----- the code -----

  class Heap {
    const base: int
    var size: map<int, int>
    var next: map<int, int>
    var freep: int
    ghost var list: seq<int>
    ghost var live: set<int>
    ghost var blocks: map<int, int>
    ghost var own: map<int, int>

    /** Before the first malloc freep is null and nothing has been obtained. */
    ghost predicate Valid()
      reads this
    {
      && 0 < base
      && AboveAll(base, own)
      && if freep == 0 then list == [] && live == {} && blocks == map[] && own == map[]
         else Ready()
    }

    ghost predicate Ready()
      reads this
    {
      Listed(base, list, freep) && Sound(base, size, next, list, live, blocks, own)
    }

    constructor (at: int)
      requires at > 0
      ensures Valid() && base == at && live == {} && own == map[]
    {
      base := at;
      size, next, freep := map[], map[], 0;
      list, live, blocks, own := [], {}, map[], map[];
    }

    /** The search in free: round the ring from freep to the entry bp comes after. */
    method FindSlot(bp: int) returns (p: int, ghost t: nat)
      requires Listed(base, list, freep) && Ring(list, next) && Ascending(list) && base < bp && bp !in list
      ensures t == Slot(list, bp) && p == list[t]
      ensures p < bp && p in next && (bp < next[p] || next[p] == base)
    {
      hide Slot;
      t := Slot(list, bp);
      p := freep;
      ghost var i: nat :| i < |list| && list[i] == freep;
      while !(bp > p && bp < next[p])
        invariant i < |list| && p == list[i] && LinkAt(list, next, i)
        decreases Ahead(i, t, |list|)
      {
        if p >= next[p] && (bp > p || bp < next[p]) {
          assert i == |list| - 1;
          return;
        }
        p := next[p];
        i := Succ(i, |list|);
      }
      assert i == t;
    }

    /** free's first merge: bp with the block above it, or else just bp's pointer set.  On return
      * the list runs past bp, which stands free but unlinked between its entries t and t + 1. */
    method MergeUp(bp: int, p: int, ghost t: nat)
      requires Ready() && bp in live && base < bp && t == Slot(list, bp) && p == list[t]
      modifies this`size, this`next, this`list, this`live, this`blocks, this`own
      ensures Pending(base, size, next, list, live, blocks, own, bp, t) && list[t] == p
      ensures live == old(live) - {bp} && own.Keys == old(own.Keys)
      ensures bp in old(size) && size[bp] >= old(size)[bp]
      ensures Same(old(size), size, {bp}) && Same(old(next), next, {bp}) && Blocks(list) <= old(Blocks(list))
    {
      hide Sound, Pending, Slot, Same, Absorb, Remove, Blocks;
      UpFacts(base, size, next, list, live, blocks, own, bp);
      live := live - {bp};
      if bp + size[bp] == next[p] {
        var q := next[p];
        UpMerged(base, size, next, list, old(live), blocks, own, bp);
        SameUpdate(size, bp, size[bp] + size[q]);
        SameUpdate(next, bp, next[q]);
        blocks := (blocks - {q})[bp := blocks[bp] + blocks[q]];
        own := Absorb(own, bp, q);
        size := size[bp := size[bp] + size[q]];
        next := next[bp := next[q]];
        list := Remove(list, t + 1);
      } else {
        UpAlone(base, size, next, list, old(live), blocks, own, bp);
        SameUpdate(size, bp, 0);
        SameUpdate(next, bp, next[p]);
        next := next[bp := next[p]];
      }
    }

    /** free's second merge: bp into the block below it, or else linked after it. */
    method MergeDown(bp: int, p: int, ghost t: nat) returns (ghost b: int)
      requires Pending(base, size, next, list, live, blocks, own, bp, t) && list[t] == p
      modifies this`size, this`next, this`list, this`freep, this`blocks, this`own
      ensures Ready() && own.Keys == old(own.Keys) && freep == p
      ensures b in Blocks(list) && b in size && bp in old(size) && size[b] >= old(size)[bp]
      ensures Same(old(size), size, {p}) && Same(old(next), next, {p})
    {
      hide Sound, Same, Absorb, Ring, Spaced, Tiled, Sorted, Blocks;
      SpacedAscends(list, size);
      assert p in list && p in size;
      if p + size[p] == bp {
        DownMerged(base, size, next, list, live, blocks, own, bp, t);
        SameUpdate(size, p, size[p] + size[bp]);
        SameUpdate(next, p, next[bp]);
        blocks := (blocks - {bp})[p := blocks[p] + blocks[bp]];
        own := Absorb(own, p, bp);
        size := size[p := size[p] + size[bp]];
        next := next[p := next[bp]];
        b := p;
      } else {
        DownAlone(base, size, next, list, live, blocks, own, bp, t);
        SameUpdate(size, p, 0);
        SameUpdate(next, p, bp);
        next := next[p := bp];
        list := Insert(list, t, bp);
        b := bp;
      }
      freep := p;
    }

    /** free: the block joins the free blocks, no other live block changes, and no header of
      * another live block is written.  b is the free block that now contains it. */
    method Free(ap: int) returns (ghost b: int)
      requires Valid() && freep != 0 && ap - 1 in live
      modifies this`size, this`next, this`freep, this`list, this`live, this`blocks, this`own
      ensures Valid() && freep != 0 && live == old(live) - {ap - 1} && own.Keys == old(own.Keys)
      ensures b in Blocks(list) && b in size && ap - 1 in old(size) && size[b] >= old(size)[ap - 1]
      ensures Same(old(size), size, old(Blocks(list)) + {base, ap - 1})
      ensures Same(old(next), next, old(Blocks(list)) + {base, ap - 1})
      ensures KeepsLive(live, old(size), size)
    {
      hide Slot, Tiled, Spaced, Ring;
      var bp := ap - 1;
      AboveBase(base, blocks, own, bp);
      NotListed(list, size, live, blocks, bp);
      SpacedAscends(list, size);
      var p, t := FindSlot(bp);
      assert p == base || p in Blocks(list);
      MergeUp(bp, p, t);
      b := MergeDown(bp, p, t);
      SettledFree(base, old(size), size, old(next), old(list), old(live), old(blocks), old(own), bp);
    }

    /** A new region from sbrk goes onto the free list as one block, merged with its neighbours.
      * grant is where sbrk put it, or None when it refused. */
    method Morecore(nunits: nat, grant: Option<int>) returns (ok: bool, ghost b: int)
      requires Valid() && freep != 0 && nunits >= 1 && Answers(base, own, grant, Chunk(nunits))
      modifies this`size, this`next, this`freep, this`list, this`live, this`blocks, this`own
      ensures Valid() && freep != 0 && live == old(live) && ok == grant.Some?
      ensures !ok ==> size == old(size) && next == old(next) && freep == old(freep) && list == old(list)
                      && blocks == old(blocks) && own == old(own)
      ensures ok ==> own.Keys == Grant(old(own), grant.value, Chunk(nunits)).Keys
      ensures ok ==> b in Blocks(list) && b in size && size[b] >= nunits
      ensures ok ==> KeepsLive(live, old(size), size)
    {
      hide Sound, Tiled, Sorted, Spaced, Ring, Grant, Blocks, Same, KeepsLive;
      b := base;
      if grant.None? {
        return false, b;
      }
      var nu := Chunk(nunits);
      var hp := grant.value;
      Obtained(base, size, next, list, live, blocks, own, hp, nu);
      size := size[hp := nu];
      live := live + {hp};
      blocks := blocks[hp := nu];
      own := Grant(own, hp, nu);
      label L:
      b := Free(hp + 1);
      assert live == old(live);
      KeepsOn(live, live, old(size), old@L(size), size);
      return true, b;
    }

    /** malloc's taking of units from the block p at entry i, whose predecessor is prevp. */
    method Take(p: int, prevp: int, nunits: nat, ghost i: nat) returns (h: int)
      requires Valid() && freep != 0 && 1 <= i < |list| && p == list[i] && prevp == list[i - 1]
      requires p in size && size[p] >= nunits >= 1
      modifies this`size, this`next, this`freep, this`list, this`live, this`blocks, this`own
      ensures Valid() && freep == prevp && own.Keys == old(own.Keys)
      ensures h !in old(live) && live == old(live) + {h} && h in size && size[h] == nunits && h > base
      ensures KeepsLive(old(live), old(size), size) && Same(old(next), next, {prevp})
    {
      hide Sound, Same, KeepsLive, Tiled, Sorted, Spaced, Ring, Blocks, Carve;
      if size[p] == nunits {
        TakenWhole(base, size, next, list, live, blocks, own, i);
        SameUpdate(next, prevp, next[p]);
        next := next[prevp := next[p]];
        list := Remove(list, i);
        live := live + {p};
        h := p;
      } else {
        TakenPart(base, size, next, list, live, blocks, own, i, nunits);
        h := p + size[p] - nunits;
        SameUpdate(next, prevp, 0);
        blocks := blocks[p := size[p] - nunits][h := nunits];
        own := Carve(own, h, nunits);
        live := live + {h};
        size := size[p := size[p] - nunits];
        size := size[h := nunits];
      }
      freep := prevp;
    }

    /** The list of one header that the first call sets up. */
    method Begin()
      requires Valid() && freep == 0
      modifies this`size, this`next, this`freep, this`list
      ensures Valid() && freep == base && list == [base] && base in size && size[base] == 0
    {
      next := next[base := base];
      freep := base;
      size := size[base := 0];
      list := [base];
      assert LinkAt(list, next, 0);
      assert Blocks(list) == {};
    }

    /** malloc: a live block of the asked-for units, disjoint from every other block, without
      * touching another live block; it fails exactly when no free block is large enough and sbrk
      * refuses.  More memory is asked for at most once, and only if no free block fits. */
    method Malloc(nbytes: nat, grant: Option<int>) returns (r: int)
      requires Valid() && nbytes < 0x1_0000_0000 && Answers(base, own, grant, Chunk(Units(nbytes)))
      modifies this`size, this`next, this`freep, this`list, this`live, this`blocks, this`own
      ensures Valid() && freep != 0
      ensures r == 0 <==> grant.None? && AllBelow(old(list), old(size), Units(nbytes))
      ensures r == 0 ==> live == old(live) && own == old(own)
      ensures r != 0 ==> r - 1 !in old(live) && live == old(live) + {r - 1} && r - 1 in size && size[r - 1] == Units(nbytes)
      ensures own.Keys == old(own.Keys) || Grown(old(list), old(size), old(own), Units(nbytes), grant, own)
      ensures KeepsLive(old(live), old(size), size)
    {
      hide AboveAll, Unused, Sound, Tiled, Sorted, Spaced, Ring, Blocks, Same, Grant, AllBelow, KeepsLive, Passed, Ascending;
      var nunits := Units(nbytes);
      BelowNone(size, nunits);
      KeepsNone(size);
      if freep == 0 {
        Begin();
        BaseBelow(base, size, nunits);
      }
      Facts(base, size, next, list, live, blocks, own);
      var prevp := freep;
      ghost var f: nat := IndexOf(list, freep);
      ghost var j: nat, i: nat := f, Succ(f, |list|);
      Linked(list, next, f);
      PassedNone(list, size, f, nunits);
      var p := next[prevp];
      ghost var asked, b := false, 0;
      while true
        invariant Valid() && freep != 0 && live == old(live)
        invariant f < |list| && list[f] == freep && j < |list| && list[j] == prevp && i == Succ(j, |list|) && list[i] == p
        invariant Passed(list, size, f, i, nunits)
        invariant asked ==> b in Blocks(list) && b in size && size[b] >= nunits
        invariant if asked then Grown(old(list), old(size), old(own), nunits, grant, own) else own == old(own)
        invariant asked ==> grant.Some?
        invariant !asked ==> AllBelow(old(list), old(size), nunits) == AllBelow(list, size, nunits)
        invariant KeepsLive(old(live), old(size), size)
        decreases !asked, Ahead(i, f, |list|)
      {
        Facts(base, size, next, list, live, blocks, own);
        if size[p] >= nunits {
          ghost var before := size;
          BigEnough(list, size, i, nunits);
          var h := Take(p, prevp, nunits, i);
          KeepsOn(old(live), old(live), old(size), before, size);
          return h + 1;
        }
        if p == freep {
          Distinct(list, i, f);
          PassedAll(list, size, f, nunits);
          if asked { Contained(list, size, b, nunits); }
          var ok;
          ghost var before := size;
          ok, b := Morecore(nunits, grant);
          if !ok {
            return 0;
          }
          KeepsOn(old(live), old(live), old(size), before, size);
          asked := true;
          p := freep;
          Facts(base, size, next, list, live, blocks, own);
          f := IndexOf(list, freep);
          i := f;
          PassedNone(list, size, f, nunits);
        } else {
          PassedOne(list, size, f, i, nunits);
        }
        Linked(list, next, i);
        prevp := p;
        p := next[p];
        j, i := i, Succ(i, |list|);
      }
    }
  }

  /** Two memories agree off the given headers. */
  ghost predicate Same(m0: map<int, int>, m1: map<int, int>, but: set<int>) {
    forall a :: a !in but ==> (a in m1 <==> a in m0) && (a in m0 ==> m1[a] == m0[a])
  }

  lemma SameUpdate(m: map<int, int>, k: int, v: int)
    ensures Same(m, m[k := v], {k})
    ensures Same(m, m, {k})
  {
  }

  /** Units sbrk may hand out: above the base header and not handed out before. */
  ghost predicate Unused(base: int, own: map<int, int>, h: int, n: int) {
    0 < base < h && forall u :: h <= u < h + n ==> u !in own
  }

  /** A block given back moves from the live to the free ones. */
  lemma LiveLeaves(list: seq<int>, size: map<int, int>, live: set<int>, blocks: map<int, int>, b: int)
    requires Sorted(Blocks(list), live, size, blocks) && b in live
    ensures Sorted(Blocks(list) + {b}, live - {b}, size, blocks)
  {
  }

  lemma Linked(list: seq<int>, next: map<int, int>, i: nat)
    requires Ring(list, next) && i < |list|
    ensures LinkAt(list, next, i)
  {
  }

  lemma NotListed(list: seq<int>, size: map<int, int>, live: set<int>, blocks: map<int, int>, b: int)
    requires Sorted(Blocks(list), live, size, blocks) && b in live && |list| >= 1 && list[0] != b
    ensures b !in list && b in blocks && b in size
  {
  }

  lemma RingIgnores(list: seq<int>, next: map<int, int>, x: int, v: int)
    requires Ring(list, next) && x !in list
    ensures Ring(list, next[x := v])
  {
    var n := next[x := v];
    forall i | 0 <= i < |list|
      ensures LinkAt(list, n, i)
    {
      assert LinkAt(list, next, i) && list[i] in list;
    }
  }

  lemma UpRing(list: seq<int>, next: map<int, int>, bp: int, t: nat)
    requires Ring(list, next) && Ascending(list) && t + 1 < |list| && bp !in list
    requires LinkAt(list, next, t) && LinkAt(list, next, t + 1)
    ensures var n := next[bp := next[list[t + 1]]];
            Ring(Remove(list, t + 1), n[list[t] := n[bp]])
  {
    RingRemove(list, next, t + 1);
    var m := next[list[t] := next[list[t + 1]]];
    RingIgnores(Remove(list, t + 1), m, bp, next[list[t + 1]]);
    var n := next[bp := next[list[t + 1]]];
    assert n[list[t] := n[bp]] == m[bp := next[list[t + 1]]];
  }

  lemma UpSpaced(list: seq<int>, size: map<int, int>, bp: int, t: nat)
    requires Spaced(list, size) && t + 1 < |list| && bp !in list && bp in size && bp + size[bp] == list[t + 1]
    ensures list[t + 1] in size && list[t] in size
    ensures Spaced(Remove(list, t + 1), size[bp := size[bp] + size[list[t + 1]]])
    ensures t + 2 < |list| ==> bp + size[bp] + size[list[t + 1]] < list[t + 2]
    ensures Remove(list, t + 1)[t] == list[t] && (t + 2 < |list| ==> Remove(list, t + 1)[t + 1] == list[t + 2])
    ensures bp !in Remove(list, t + 1)
  {
  }

  lemma UpBooks(list: seq<int>, size: map<int, int>, live: set<int>, blocks: map<int, int>, own: map<int, int>, bp: int, t: nat)
    requires Ascending(list) && t + 1 < |list| && bp in live && Tiled(blocks, own) && Sorted(Blocks(list), live, size, blocks)
    requires bp in size && bp + size[bp] == list[t + 1]
    ensures list[t + 1] in blocks && list[t + 1] in size && bp in blocks
    ensures var q := list[t + 1];
            var b' := (blocks - {q})[bp := blocks[bp] + blocks[q]];
            && Tiled(b', Absorb(own, bp, q)) && Absorb(own, bp, q).Keys == own.Keys
            && Sorted(Blocks(Remove(list, t + 1)) + {bp}, live - {bp}, size[bp := size[bp] + size[q]], b')
            && Blocks(Remove(list, t + 1)) <= Blocks(list)
            && size[q] >= 0
  {
    AtIndex(list, t + 1);
    BlocksRemove(list, t + 1);
    TiledAbsorb(blocks, own, bp, list[t + 1]);
  }

  lemma AboveBase(base: int, blocks: map<int, int>, own: map<int, int>, b: int)
    requires Tiled(blocks, own) && b in blocks && AboveAll(base, own)
    ensures base < b
  {
    assert Covers(own, b, blocks[b]);
    assert b in own;
  }

  lemma DownSpaced(list: seq<int>, size: map<int, int>, bp: int, t: nat)
    requires Spaced(list, size) && t < |list| && bp !in list && bp in size && size[bp] >= 1
    requires list[t] + size[list[t]] == bp && (t + 1 < |list| ==> bp + size[bp] < list[t + 1])
    requires t == 0 ==> size[list[0]] == 0 && list[0] < bp
    ensures t > 0 && Spaced(list, size[list[t] := size[list[t]] + size[bp]])
  {
  }

  lemma DownBooks(list: seq<int>, size: map<int, int>, live: set<int>, blocks: map<int, int>, own: map<int, int>, bp: int, t: nat)
    requires 1 <= t < |list| && bp !in list && Tiled(blocks, own) && Sorted(Blocks(list) + {bp}, live, size, blocks)
    requires list[t] in size && list[t] + size[list[t]] == bp
    ensures list[t] in blocks && list[t] in Blocks(list) && bp in blocks && bp in size && size[list[t]] >= 1
    ensures var p := list[t];
            var b' := (blocks - {bp})[p := blocks[p] + blocks[bp]];
            && Tiled(b', Absorb(own, p, bp)) && Absorb(own, p, bp).Keys == own.Keys
            && Sorted(Blocks(list), live, size[p := size[p] + size[bp]], b')
  {
    AtIndex(list, t);
    assert list[t] in list;
    TiledAbsorb(blocks, own, list[t], bp);
  }

  lemma InRing(list: seq<int>, next: map<int, int>, bp: int, t: nat)
    requires t < |list| && bp in next && bp !in list && Ring(list, next[list[t] := next[bp]]) && Ascending(list)
    ensures Ring(Insert(list, t, bp), next[list[t] := bp])
  {
    var m := next[list[t] := next[bp]];
    RingInsert(list, m, t, bp);
    assert list[t] in list;
    assert m[bp := m[list[t]]][list[t] := bp] == next[list[t] := bp];
  }

  lemma InSpaced(list: seq<int>, size: map<int, int>, bp: int, t: nat)
    requires Spaced(list, size) && t < |list| && bp in size && size[bp] >= 1
    requires list[t] + size[list[t]] < bp && (t + 1 < |list| ==> bp + size[bp] < list[t + 1])
    ensures Spaced(Insert(list, t, bp), size)
  {
    var l := Insert(list, t, bp);
    forall i, j | 0 <= i < j < |l|
      ensures l[i] in size && l[i] + size[l[i]] < l[j]
    {
      InsertPair(list, size, bp, t, i, j);
    }
    forall i | 0 <= i < |l|
      ensures l[i] in size && (i > 0 ==> size[l[i]] >= 1)
    {
      assert i > t + 1 ==> l[i] == list[i - 1];
    }
  }

  lemma InsertPair(list: seq<int>, size: map<int, int>, bp: int, t: nat, i: nat, j: nat)
    requires Spaced(list, size) && t < |list| && bp in size && size[bp] >= 1 && i < j <= |list|
    requires list[t] + size[list[t]] < bp && (t + 1 < |list| ==> bp + size[bp] < list[t + 1])
    ensures var l := Insert(list, t, bp); l[i] in size && l[i] + size[l[i]] < l[j]
  {
    if j <= t {
      assert list[i] + size[list[i]] < list[j];
    } else if j == t + 1 {
      assert i < t ==> list[i] + size[list[i]] < list[t];
    } else if i <= t {
      assert list[i] + size[list[i]] < list[j - 1];
    } else if i == t + 1 {
      assert t + 1 < j - 1 ==> list[t + 1] + size[list[t + 1]] < list[j - 1];
    } else {
      assert list[i - 1] + size[list[i - 1]] < list[j - 1];
    }
  }

  // ----- the four outcomes of free -----

  lemma UpFacts(base: int, size: map<int, int>, next: map<int, int>, list: seq<int>,
                live: set<int>, blocks: map<int, int>, own: map<int, int>, bp: int)
    requires Sound(base, size, next, list, live, blocks, own) && bp in live && base < bp
    ensures Listed(base, list, base) && bp !in list && bp in size && size[bp] >= 1 && bp in blocks && Ascending(list)
    ensures var t := Slot(list, bp);
            && LinkAt(list, next, t) && list[t] in size && list[t] + size[list[t]] <= bp
            && (t + 1 < |list| ==> bp + size[bp] <= list[t + 1])
            && (bp + size[bp] == next[list[t]] ==>
                  t + 1 < |list| && next[list[t]] == list[t + 1] && LinkAt(list, next, t + 1)
                  && list[t + 1] in blocks && list[t + 1] in size && size[list[t + 1]] >= 1)
  {
    hide Slot, Tiled, Spaced, Ring;
    NotListed(list, size, live, blocks, bp);
    Fits(list, size, live, blocks, own, bp);
    SpacedAscends(list, size);
    var t := Slot(list, bp);
    Linked(list, next, t);
    if t + 1 < |list| {
      Linked(list, next, t + 1);
      AtIndex(list, t + 1);
      BlockSize(blocks, own, list[t + 1]);
    }
  }

  lemma BlockSize(blocks: map<int, int>, own: map<int, int>, b: int)
    requires Tiled(blocks, own) && b in blocks
    ensures blocks[b] >= 1
  {
  }

  lemma UpMerged(base: int, size: map<int, int>, next: map<int, int>, list: seq<int>,
                 live: set<int>, blocks: map<int, int>, own: map<int, int>, bp: int)
    requires Sound(base, size, next, list, live, blocks, own) && bp in live && base < bp
    requires bp in size && bp in blocks && Slot(list, bp) + 1 < |list|
    requires var q := list[Slot(list, bp) + 1]; bp + size[bp] == q && q in size && q in next && q in blocks
    ensures var t := Slot(list, bp);
            var q := list[t + 1];
            && Pending(base, size[bp := size[bp] + size[q]], next[bp := next[q]], Remove(list, t + 1), live - {bp},
                       (blocks - {q})[bp := blocks[bp] + blocks[q]], Absorb(own, bp, q), bp, t)
            && Remove(list, t + 1)[t] == list[t] && Absorb(own, bp, q).Keys == own.Keys
            && Blocks(Remove(list, t + 1)) <= Blocks(list)
  {
    hide Slot, Tiled, Spaced, Ring, Sorted, Absorb, Blocks;
    UpFacts(base, size, next, list, live, blocks, own, bp);
    var t := Slot(list, bp);
    Linked(list, next, t + 1);
    UpRing(list, next, bp, t);
    UpSpaced(list, size, bp, t);
    UpBooks(list, size, live, blocks, own, bp, t);
  }

  lemma UpAlone(base: int, size: map<int, int>, next: map<int, int>, list: seq<int>,
                live: set<int>, blocks: map<int, int>, own: map<int, int>, bp: int)
    requires Sound(base, size, next, list, live, blocks, own) && bp in live && base < bp && bp in size
    requires var p := list[Slot(list, bp)]; p in next && bp + size[bp] != next[p]
    ensures var t := Slot(list, bp);
            Pending(base, size, next[bp := next[list[t]]], list, live - {bp}, blocks, own, bp, t)
  {
    hide Slot, Tiled, Spaced, Ring, Sorted, Blocks;
    UpFacts(base, size, next, list, live, blocks, own, bp);
    var t := Slot(list, bp);
    RingIgnores(list, next, bp, next[list[t]]);
    LiveLeaves(list, size, live, blocks, bp);
    var n := next[bp := next[list[t]]];
    assert n[list[t] := n[bp]] == n;
  }

  lemma DownMerged(base: int, size: map<int, int>, next: map<int, int>, list: seq<int>,
                   live: set<int>, blocks: map<int, int>, own: map<int, int>, bp: int, t: nat)
    requires Pending(base, size, next, list, live, blocks, own, bp, t)
    requires list[t] in size && list[t] + size[list[t]] == bp
    ensures var p := list[t];
            && p in blocks && bp in blocks && p in Blocks(list) && size[p] >= 1 && Absorb(own, p, bp).Keys == own.Keys
            && Sound(base, size[p := size[p] + size[bp]], next[p := next[bp]], list, live,
                     (blocks - {bp})[p := blocks[p] + blocks[bp]], Absorb(own, p, bp))
  {
    hide Tiled, Spaced, Ring, Sorted, Absorb, Blocks;
    DownSpaced(list, size, bp, t);
    DownBooks(list, size, live, blocks, own, bp, t);
    SpacedAscends(list, size);
    assert list[0] < list[t];
  }

  lemma DownAlone(base: int, size: map<int, int>, next: map<int, int>, list: seq<int>,
                  live: set<int>, blocks: map<int, int>, own: map<int, int>, bp: int, t: nat)
    requires Pending(base, size, next, list, live, blocks, own, bp, t)
    requires list[t] in size && list[t] + size[list[t]] != bp
    ensures Sound(base, size, next[list[t] := bp], Insert(list, t, bp), live, blocks, own)
    ensures bp in Blocks(Insert(list, t, bp)) && list[t] in Insert(list, t, bp)
  {
    hide Tiled, Spaced, Ring, Sorted, Blocks;
    SpacedAscends(list, size);
    InRing(list, next, bp, t);
    InSpaced(list, size, bp, t);
    BlocksInsert(list, t, bp);
    assert Insert(list, t, bp)[t] == list[t];
  }

  // ----- the outcomes of morecore and malloc -----

  lemma Obtained(base: int, size: map<int, int>, next: map<int, int>, list: seq<int>,
                 live: set<int>, blocks: map<int, int>, own: map<int, int>, h: int, n: int)
    requires Sound(base, size, next, list, live, blocks, own) && n >= 1 && Unused(base, own, h, n)
    requires AboveAll(base, own)
    ensures h !in live && Sound(base, size[h := n], next, list, live + {h}, blocks[h := n], Grant(own, h, n))
    ensures KeepsLive(live, size, size[h := n])
    ensures AboveAll(base, Grant(own, h, n))
  {
    hide Tiled, Spaced, Ring, Blocks;
    TiledGrow(blocks, own, h, n);
    assert h !in list by { Unlisted(list, size, live, blocks, h); }
    assert Spaced(list, size[h := n]) by { SpacedIgnores(list, size, h, n); }
  }

  lemma Unlisted(list: seq<int>, size: map<int, int>, live: set<int>, blocks: map<int, int>, h: int)
    requires Sorted(Blocks(list), live, size, blocks) && h !in blocks && |list| >= 1 && list[0] != h
    ensures h !in list
  {
  }

  lemma SpacedIgnores(list: seq<int>, size: map<int, int>, h: int, n: int)
    requires Spaced(list, size) && h !in list
    ensures Spaced(list, size[h := n])
  {
  }

  lemma SpacedRemove(list: seq<int>, size: map<int, int>, i: nat)
    requires Spaced(list, size) && 1 <= i < |list|
    ensures Spaced(Remove(list, i), size)
  {
  }

  lemma SortedTake(list: seq<int>, live: set<int>, size: map<int, int>, blocks: map<int, int>, i: nat)
    requires Ascending(list) && 1 <= i < |list| && Sorted(Blocks(list), live, size, blocks)
    ensures list[i] !in live && Sorted(Blocks(Remove(list, i)), live + {list[i]}, size, blocks)
  {
    AtIndex(list, i);
    BlocksRemove(list, i);
  }

  /** The entry before the i-th stays, and lies at or above the base. */
  lemma EntryBefore(base: int, list: seq<int>, i: nat)
    requires Ascending(list) && 1 <= i < |list| && list[0] == base
    ensures list[i - 1] in list && list[i - 1] >= base && list[i] > base
    ensures list[i - 1] in Remove(list, i) && Remove(list, i)[0] == base
  {
    assert Remove(list, i)[i - 1] == list[i - 1];
  }

  lemma TakenWhole(base: int, size: map<int, int>, next: map<int, int>, list: seq<int>,
                   live: set<int>, blocks: map<int, int>, own: map<int, int>, i: nat)
    requires Sound(base, size, next, list, live, blocks, own) && 1 <= i < |list|
    ensures list[i] in next && list[i] !in live && list[i - 1] in Remove(list, i) && list[i - 1] >= base && list[i] > base
    ensures KeepsLive(live, size, size)
    ensures Sound(base, size, next[list[i - 1] := next[list[i]]], Remove(list, i), live + {list[i]}, blocks, own)
  {
    hide Tiled, Ring, Spaced, Sorted, Blocks, Remove;
    KeepsStart(Blocks(list), live, size, blocks);
    SpacedAscends(list, size);
    RingRemove(list, next, i);
    SpacedRemove(list, size, i);
    SortedTake(list, live, size, blocks, i);
    EntryBefore(base, list, i);
    assert Remove(list, i)[0] in Remove(list, i);
  }

  lemma TakenPart(base: int, size: map<int, int>, next: map<int, int>, list: seq<int>,
                  live: set<int>, blocks: map<int, int>, own: map<int, int>, i: nat, n: int)
    requires Sound(base, size, next, list, live, blocks, own) && 1 <= i < |list|
    requires list[i] in size && 1 <= n < size[list[i]]
    ensures list[i - 1] in list && list[i - 1] >= base && list[i] > base
    ensures var p := list[i];
            var m := size[p] - n;
            && p + m !in live && Carve(own, p + m, n).Keys == own.Keys && KeepsLive(live, size, size[p := m][p + m := n])
            && Sound(base, size[p := m][p + m := n], next, list, live + {p + m}, blocks[p := m][p + m := n], Carve(own, p + m, n))
  {
    hide Tiled, Ring, Blocks, Spaced;
    var p := list[i];
    var m := size[p] - n;
    AtIndex(list, i);
    TiledCarve(blocks, own, p, m, n);
    SpacedAscends(list, size);
    EntryBefore(base, list, i);
    assert list[0] < p;
    Unlisted(list, size, live, blocks, p + m);
    SpacedShrinks(list, size, i, m);
    SpacedIgnores(list, size[p := m], p + m, n);
  }

  lemma SpacedShrinks(list: seq<int>, size: map<int, int>, i: nat, m: int)
    requires Spaced(list, size) && 1 <= i < |list| && 1 <= m <= size[list[i]] && Ascending(list)
    ensures Spaced(list, size[list[i] := m])
  {
  }

  lemma SettledFree(base: int, size0: map<int, int>, size1: map<int, int>, next0: map<int, int>, list0: seq<int>,
                    live0: set<int>, blocks0: map<int, int>, own0: map<int, int>, bp: int)
    requires Sound(base, size0, next0, list0, live0, blocks0, own0) && AboveAll(base, own0)
    requires Same(size0, size1, Blocks(list0) + {base, bp})
    ensures KeepsLive(live0 - {bp}, size0, size1)
  {
    forall b | b in live0
      ensures b != base
    {
      AboveBase(base, blocks0, own0, b);
    }
  }

  // ----- malloc's search -----

  ghost predicate AllBelow(list: seq<int>, size: map<int, int>, n: int) {
    forall k :: 0 <= k < |list| ==> list[k] in size && size[list[k]] < n
  }

  /** The entries between freep and the current one, going round, are too small. */
  ghost predicate Passed(list: seq<int>, size: map<int, int>, f: nat, i: nat, n: int)
    requires f < |list| && i < |list|
  {
    forall k :: 0 <= k < |list| && Ahead(k, f, |list|) > Ahead(i, f, |list|) ==> list[k] in size && size[list[k]] < n
  }

  /** Memory was asked for because nothing fitted, and exactly the granted units came in. */
  ghost predicate Grown(list0: seq<int>, size0: map<int, int>, own0: map<int, int>, n: nat, grant: Option<int>, own: map<int, int>) {
    grant.Some? && own.Keys == Grant(own0, grant.value, Chunk(n)).Keys && AllBelow(list0, size0, n)
  }

  ghost function IndexOf(list: seq<int>, p: int): (i: nat)
    requires p in list
    ensures i < |list| && list[i] == p
  {
    var i :| 0 <= i < |list| && list[i] == p; i
  }

  lemma Distinct(list: seq<int>, i: nat, j: nat)
    requires Ascending(list) && i < |list| && j < |list| && list[i] == list[j]
    ensures i == j
  {
  }

  lemma BelowNone(size: map<int, int>, n: int)
    ensures AllBelow([], size, n)
  {
  }

  lemma KeepsNone(size: map<int, int>)
    ensures forall size1: map<int, int> :: KeepsLive({}, size, size1)
  {
  }

  /** A block on the list is not below n if it holds n units. */
  lemma Contained(list: seq<int>, size: map<int, int>, b: int, n: int)
    requires b in Blocks(list) && b in size && size[b] >= n
    ensures !AllBelow(list, size, n)
  {
  }

  lemma BigEnough(list: seq<int>, size: map<int, int>, i: nat, n: int)
    requires i < |list| && list[i] in size && size[list[i]] >= n
    ensures !AllBelow(list, size, n)
  {
  }

  /** The list malloc begins with holds nothing. */
  lemma BaseBelow(base: int, size: map<int, int>, n: int)
    requires base in size && size[base] == 0 && n >= 1
    ensures AllBelow([base], size, n)
  {
  }

  lemma PassedNone(list: seq<int>, size: map<int, int>, f: nat, n: int)
    requires f < |list|
    ensures Succ(f, |list|) < |list| && Passed(list, size, f, Succ(f, |list|), n)
  {
  }

  lemma PassedOne(list: seq<int>, size: map<int, int>, f: nat, i: nat, n: int)
    requires f < |list| && i < |list| && i != f && Passed(list, size, f, i, n) && list[i] in size && size[list[i]] < n
    ensures Succ(i, |list|) < |list| && Passed(list, size, f, Succ(i, |list|), n)
    ensures Ahead(Succ(i, |list|), f, |list|) < Ahead(i, f, |list|)
  {
  }

  lemma PassedAll(list: seq<int>, size: map<int, int>, f: nat, n: int)
    requires f < |list| && Passed(list, size, f, f, n) && list[f] in size && size[list[f]] < n
    ensures AllBelow(list, size, n)
  {
    forall k | 0 <= k < |list|
      ensures list[k] in size && size[list[k]] < n
    {
      assert Ahead(k, f, |list|) > 0 || k == f;
    }
  }

  lemma Facts(base: int, size: map<int, int>, next: map<int, int>, list: seq<int>,
              live: set<int>, blocks: map<int, int>, own: map<int, int>)
    requires Sound(base, size, next, list, live, blocks, own)
    ensures Ring(list, next) && Ascending(list) && base in size && size[base] == 0 && |list| >= 1 && list[0] == base
    ensures forall k :: 0 <= k < |list| ==> list[k] in size
    ensures KeepsLive(live, size, size)
  {
    SpacedAscends(list, size);
  }

  /** Live blocks keep their headers. */
  ghost predicate KeepsLive(live: set<int>, size0: map<int, int>, size1: map<int, int>) {
    forall b :: b in live ==> b in size0 && b in size1 && size1[b] == size0[b]
  }

  lemma KeepsStart(free: set<int>, live: set<int>, size: map<int, int>, blocks: map<int, int>)
    requires Sorted(free, live, size, blocks)
    ensures KeepsLive(live, size, size)
  {
  }

  lemma KeepsOn(live0: set<int>, live: set<int>, size0: map<int, int>, size1: map<int, int>, size2: map<int, int>)
    requires KeepsLive(live0, size0, size1) && KeepsLive(live, size1, size2) && live0 <= live
    ensures KeepsLive(live0, size0, size2)
  {
  }

}
