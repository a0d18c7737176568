/** When bget has no buffer to give.  The log pins the buffers of its blocks, so with no holder
    around a block that is not logged cannot be read exactly when every buffer is pinned; and with
    as many buffers as log blocks, as the kernel has, a full log does that. */
module Pins {
  import opened Basics
  import opened Journal
  import opened BufferCache

  const NBUF: nat := MAXOPBLOCKS * 3

  /** Only the buffers in `held` are locked or waited for. */
  ghost predicate OnlyLocked(bufs: seq<Buf>, held: set<nat>) {
    forall i: nat :: i < |bufs| && i !in held ==> !bufs[i].locked && bufs[i].waiting == 0
  }

  /** The blocks cached in the first k slots outside `held`. */
  ghost function BlocksIn(bufs: seq<Buf>, held: set<nat>, k: nat): set<nat>
    requires k <= |bufs|
  {
    set i: nat | i < k && i !in held :: bufs[i].blockno
  }

  ghost function Below(held: set<nat>, k: nat): set<nat> {
    set i | i in held && i < k
  }

  lemma CountStep(bufs: seq<Buf>, held: set<nat>, k: nat)
    requires k < |bufs| && Unique(bufs) && forall i: nat :: i <= k && i !in held ==> bufs[i].dev == ROOTDEV
    ensures k in held ==> Below(held, k + 1) == Below(held, k) + {k} && k !in Below(held, k)
    ensures k in held ==> BlocksIn(bufs, held, k + 1) == BlocksIn(bufs, held, k)
    ensures k !in held ==> Below(held, k + 1) == Below(held, k) && bufs[k].blockno !in BlocksIn(bufs, held, k)
    ensures k !in held ==> BlocksIn(bufs, held, k + 1) == BlocksIn(bufs, held, k) + {bufs[k].blockno}
  {
  }

  lemma {:induction false} CountBlocks(bufs: seq<Buf>, held: set<nat>, k: nat)
    requires k <= |bufs| && Unique(bufs)
    requires forall i: nat :: i < k && i !in held ==> bufs[i].dev == ROOTDEV
    ensures |BlocksIn(bufs, held, k)| + |Below(held, k)| == k
  {
    if k == 0 {
      assert BlocksIn(bufs, held, 0) == {} && Below(held, 0) == {};
    } else {
      hide BlocksIn, Below;
      CountBlocks(bufs, held, k - 1);
      CountStep(bufs, held, k - 1);
    }
  }

  /** Fewer pins and holders than buffers leave an unreferenced buffer. */
  lemma FreeBuffer(c: Cached, held: set<nat>)
    requires CacheInv(c) && OnlyLocked(c.bufs, held)
    requires |Pinned(c)| + |held| < |c.bufs|
    ensures exists i: nat :: i < |c.bufs| && c.bufs[i].refcnt == 0
  {
    hide Inv;
    JournalFacts(c.j);
    var n := |c.bufs|;
    if forall i: nat :: i < n ==> c.bufs[i].refcnt != 0 {
      forall i: nat | i < n && i !in held
        ensures c.bufs[i].dev == ROOTDEV && c.bufs[i].blockno in Pinned(c)
      {
        assert c.bufs[i].refcnt != 0;
      }
      CountBlocks(c.bufs, held, n);
      ElementsBound(Pinned(c));
      SubsetSize(BlocksIn(c.bufs, held, n), Elements(Pinned(c)));
      SubsetSize(Below(held, n), held);
      assert false;
    }
  }

  // ---------------------------------------------------------------- every buffer pinned

  /** The blocks of the device cached in the first k slots other than `skip`. */
  ghost function BlocksBut(bufs: seq<Buf>, skip: nat, k: nat): set<nat>
    requires k <= |bufs|
  {
    set i: nat | i < k && i != skip && bufs[i].dev == ROOTDEV :: bufs[i].blockno
  }

  lemma {:induction false} CountBut(bufs: seq<Buf>, skip: nat, k: nat)
    requires k <= |bufs|
    ensures |BlocksBut(bufs, skip, k)| <= k - Bit(skip < k)
  {
    if k == 0 {
      assert BlocksBut(bufs, skip, 0) == {};
    } else {
      CountBut(bufs, skip, k - 1);
      if k - 1 == skip || bufs[k - 1].dev != ROOTDEV {
        assert BlocksBut(bufs, skip, k) == BlocksBut(bufs, skip, k - 1);
      } else {
        assert BlocksBut(bufs, skip, k) == BlocksBut(bufs, skip, k - 1) + {bufs[k - 1].blockno};
      }
    }
  }

  lemma {:induction false} DistinctSize(l: seq<nat>)
    requires Distinct(l)
    ensures |Elements(l)| == |l|
  {
    if l == [] {
      assert Elements(l) == {};
    } else {
      DistinctSize(l[1..]);
      assert l[0] !in l[1..];
      assert Elements(l) == Elements(l[1..]) + {l[0]};
    }
  }

  lemma PinnedDistinct(c: Cached)
    requires CacheInv(c)
    ensures Distinct(Pinned(c)) && PinnedCached(c.bufs, Pinned(c))
  {
    hide Inv;
    JournalFacts(c.j);
  }

  /** A buffer without a pin leaves too few buffers for more pins than the others. */
  lemma PinsBut(c: Cached, i: nat)
    requires CacheInv(c) && (i < |c.bufs| ==> !(c.bufs[i].dev == ROOTDEV && c.bufs[i].blockno in Pinned(c)))
    ensures |Pinned(c)| <= |c.bufs| - Bit(i < |c.bufs|)
  {
    PinnedDistinct(c);
    hide CacheInv, Pinned;
    var l, n := Pinned(c), |c.bufs|;
    forall b | b in l
      ensures b in BlocksBut(c.bufs, i, n)
    {
      assert InCache(c.bufs, b);
    }
    DistinctSize(l);
    SubsetSize(Elements(l), BlocksBut(c.bufs, i, n));
    CountBut(c.bufs, i, n);
  }

  /** With as many pins as buffers, a block that is not pinned has no buffer, whoever else is
      around. */
  lemma FullyPinnedPanics(c: Cached, b: nat)
    requires CacheInv(c) && |Pinned(c)| == |c.bufs| && b !in Pinned(c)
    ensures BgetPanics(c.bufs, b)
  {
    hide Inv, Pinned;
    forall i | 0 <= i < |c.bufs|
      ensures c.bufs[i].dev == ROOTDEV && c.bufs[i].blockno in Pinned(c) && c.bufs[i].refcnt != 0
    {
      if !(c.bufs[i].dev == ROOTDEV && c.bufs[i].blockno in Pinned(c)) { PinsBut(c, i); }
    }
  }

  /** The exact condition, for every block and every state of the cache in which nobody holds or
      waits for a buffer: bread finds no buffer if and only if the block is not in the log and
      the log pins every buffer. */
  lemma BgetPanicsIff(c: Cached, b: nat)
    requires CacheInv(c) && OnlyLocked(c.bufs, {})
    ensures |Pinned(c)| <= |c.bufs|
    ensures BgetPanics(c.bufs, b) <==> b !in Pinned(c) && |Pinned(c)| == |c.bufs|
  {
    PinsBut(c, |c.bufs|);
    PinnedDistinct(c);
    hide CacheInv, Pinned;
    if b in Pinned(c) {
      assert InCache(c.bufs, b);
    } else if |Pinned(c)| == |c.bufs| {
      FullyPinnedPanics(c, b);
    } else {
      FreeBuffer(c, {});
    }
  }

  // ---------------------------------------------------------------- a run that ends there

  ghost predicate PinnedBuf(x: Buf, b: nat) {
    && x.dev == ROOTDEV && x.blockno == b && x.refcnt == 1
    && !x.locked && x.waiting == 0 && !x.unlogged
  }

  ghost predicate SpareBuf(x: Buf) {
    && x.refcnt == 0 && !x.locked && x.waiting == 0 && !x.unlogged
    && !(x.dev == ROOTDEV && x.blockno >= 32)
  }

  /** Three open operations have logged blocks 32, 33, ... through buffers 0, 1, ... in turn. */
  ghost predicate Stuffed(c: Cached, j: nat) {
    && Filled(c.j, j) && !c.j.ops.committing && Blocks(c.j.st.disk, 64) && c.unpinned == 0 && |c.bufs| == NBUF && j <= NBUF
    && (forall i :: 0 <= i < j ==> PinnedBuf(c.bufs[i], 32 + i))
    && (forall i :: j <= i < NBUF ==> SpareBuf(c.bufs[i]))
  }

  lemma ExtendCache(run: seq<Cached>, acts: seq<Action>, a: Action) returns (run': seq<Cached>, acts': seq<Action>)
    requires IsCacheRun(run, acts) && Can(run[|run| - 1], a)
    ensures IsCacheRun(run', acts') && run'[|run'| - 1] == After(run[|run| - 1], a)
  {
    hide CacheInit, Can, After;
    run', acts' := run + [After(run[|run| - 1], a)], acts + [a];
  }

  /** Boot with recovery of an empty log through buffer 0, and three begin_ops. */
  lemma ThreeBegun() returns (run: seq<Cached>, acts: seq<Action>)
    ensures IsCacheRun(run, acts) && Stuffed(run[|run| - 1], 0)
  {
    var zero := seq(BLOCKWORDS, _ => 0);
    var disk := seq(64, _ => zero);
    var j := State(Store(0, disk, [], Booting), Ops(map[], 0, false, 0, 0, {}, map[]),
                   Past(disk, [], [0], disk, disk));
    run, acts := [Cached(j, seq(NBUF, _ => FreshBuf()), 0)], [];
    run, acts := ExtendCache(run, acts, Get(0, 0));
    run, acts := ExtendCache(run, acts, Lock(0, 0));
    run, acts := ExtendCache(run, acts, Fill(0, 0));
    run, acts := ExtendCache(run, acts, Load(0, 0));
    run, acts := ExtendCache(run, acts, Clear(0, 0));
    run, acts := ExtendCache(run, acts, Release(0, 0));
    run, acts := ExtendCache(run, acts, Begin(0));
    run, acts := ExtendCache(run, acts, Begin(1));
    run, acts := ExtendCache(run, acts, Begin(2));
  }

  /** bread of the next block into the next buffer. */
  ghost function Reading(c: Cached, i: nat, b: nat, t: Tid): (r: Cached)
    requires i < |c.bufs| && b < |c.j.st.disk|
  {
    var x := c.bufs[i];
    c.(bufs := c.bufs[i := Buf(ROOTDEV, b, true, 1, c.j.st.disk[b], true, t, 0, x.unlogged)])
  }

  lemma ReadOne(run: seq<Cached>, acts: seq<Action>, j: nat, t: Tid) returns (run': seq<Cached>, acts': seq<Action>)
    requires IsCacheRun(run, acts) && j < NBUF && Stuffed(run[|run| - 1], j)
    ensures IsCacheRun(run', acts') && run'[|run'| - 1] == Reading(run[|run| - 1], j, 32 + j, t)
  {
    var c := run[|run| - 1];
    assert Miss(c.bufs, 32 + j);
    hide IsCacheRun, Filled;
    run', acts' := ExtendCache(run, acts, Get(j, 32 + j));
    run', acts' := ExtendCache(run', acts', Lock(j, t));
    run', acts' := ExtendCache(run', acts', Fill(j, t));
  }

  /** log_write and brelse of that buffer leave it with the pin alone. */
  lemma LogAndRelease(c: Cached, i: nat, b: nat, t: Tid)
    requires i < |c.bufs| && b < |c.j.st.disk| && b !in c.j.st.lh && CanLogWrite(c.j, t, b, c.j.st.disk[b])
    ensures var d := Reading(c, i, b, t);
            && CanLog(d, i, t) && CanRelease(AfterLog(d, i, t), i, t)
            && AfterRelease(AfterLog(d, i, t), i, t) ==
               Cached(AfterLogWrite(c.j, t, b, c.j.st.disk[b]),
                      c.bufs[i := Buf(ROOTDEV, b, true, 1, c.j.st.disk[b], false, t, 0, false)], c.unpinned)
  {
    hide CanLogWrite, AfterLogWrite;
  }

  lemma LogOne(c: Cached, j: nat, t: nat)
    requires t <= 2 && 10 * t <= j < 10 * t + 10 && Stuffed(c, j)
    ensures var d := Reading(c, j, 32 + j, t);
            && CanLog(d, j, t) && CanRelease(AfterLog(d, j, t), j, t)
            && Stuffed(AfterRelease(AfterLog(d, j, t), j, t), j + 1)
  {
    hide Stuffed, Filled, CanLogWrite, AfterLogWrite, Reading, CanLog, AfterLog, CanRelease, AfterRelease;
    StuffedFacts(c, j);
    var data := c.j.st.disk[32 + j];
    FillOne(c.j, j + 1, t, data);
    LogWriteKeepsDisk(c.j, t, 32 + j, data);
    LogAndRelease(c, j, 32 + j, t);
    StuffedNext(c, j, AfterLogWrite(c.j, t, 32 + j, data), Buf(ROOTDEV, 32 + j, true, 1, data, false, t, 0, false));
  }

  lemma StuffedFacts(c: Cached, j: nat)
    requires Stuffed(c, j) && j < NBUF
    ensures Filled(c.j, j) && |c.bufs| == NBUF && |c.j.st.disk| == 64 && |c.j.st.disk[32 + j]| == BLOCKWORDS
    ensures 32 + j !in c.j.st.lh
  {
  }

  lemma StuffedNext(c: Cached, j: nat, s: State, x: Buf)
    requires Stuffed(c, j) && j < NBUF && PinnedBuf(x, 32 + j)
    requires Filled(s, j + 1) && s.ops.committing == c.j.ops.committing && s.st.disk == c.j.st.disk
    ensures |c.bufs| == NBUF && Stuffed(Cached(s, c.bufs[j := x], c.unpinned), j + 1)
  {
    hide Filled, Blocks;
  }

  lemma StuffOne(run: seq<Cached>, acts: seq<Action>, j: nat, t: nat) returns (run': seq<Cached>, acts': seq<Action>)
    requires IsCacheRun(run, acts) && t <= 2 && 10 * t <= j < 10 * t + 10 && Stuffed(run[|run| - 1], j)
    ensures IsCacheRun(run', acts') && Stuffed(run'[|run'| - 1], j + 1)
  {
    LogOne(run[|run| - 1], j, t);
    run', acts' := ReadOne(run, acts, j, t);
    hide IsCacheRun, Stuffed, Reading, CanLog, AfterLog, CanRelease, AfterRelease;
    run', acts' := ExtendCache(run', acts', Action.Log(j, t));
    run', acts' := ExtendCache(run', acts', Release(j, t));
  }

  lemma LogWriteKeepsDisk(s: State, t: Tid, b: nat, data: Block)
    requires CanLogWrite(s, t, b, data)
    ensures AfterLogWrite(s, t, b, data).st.disk == s.st.disk
    ensures AfterLogWrite(s, t, b, data).ops.committing == s.ops.committing
  {
  }

  lemma {:induction false} Stuff(j: nat) returns (run: seq<Cached>, acts: seq<Action>)
    requires j <= NBUF
    ensures IsCacheRun(run, acts) && Stuffed(run[|run| - 1], j)
  {
    hide IsCacheRun, Stuffed;
    if j == 0 {
      run, acts := ThreeBegun();
    } else {
      run, acts := Stuff(j - 1);
      run, acts := StuffOne(run, acts, j - 1, (j - 1) / 10);
    }
  }

  /** bget can panic in the middle of commit: there is a run with the kernel's own number of
      buffers after which the last end_op has started a commit of a full log and write_log's
      first bread has no buffer. */
  lemma FullLogStopsCommit() returns (run: seq<Cached>, acts: seq<Action>)
    ensures IsCacheRun(run, acts)
    ensures var c := run[|run| - 1];
            && |c.bufs| == NBUF && OnlyLocked(c.bufs, {}) && c.j.st.phase == WritingLog(0)
            && BgetPanics(c.bufs, c.j.st.start + 1)
  {
    run, acts := Stuff(NBUF);
    EndsCommitting(run[|run| - 1]);
    hide IsCacheRun, Stuffed;
    run, acts := ExtendCache(run, acts, End(0));
    run, acts := ExtendCache(run, acts, End(1));
    run, acts := ExtendCache(run, acts, End(2));
  }

  lemma EndsCommitting(c: Cached)
    requires Stuffed(c, NBUF)
    ensures OnlyLocked(c.bufs, {}) && BgetPanics(c.bufs, c.j.st.start + 1)
    ensures |c.bufs| == NBUF && c.j.st.lh != [] && c.j.ops.outstanding == 3 && !c.j.ops.committing
    ensures c.j.ops.open.Keys == {0, 1, 2} && forall i :: 0 <= i < NBUF ==> !c.bufs[i].unlogged
  {
  }
}
