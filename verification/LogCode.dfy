/** The functions of kernel/log.c as imperative code over a disk and its buffers.

    Class Log holds struct log, the buffers and the disk.  Each atomic action of
    the code is recorded in a ghost run, and Valid says that the record is a run
    of BufferCache ending in the present state; so every theorem about runs,
    crashes included, holds of what this code does.  The methods run alone: what
    other threads may do in between is BufferCache's business. */
module LogCode {
  import opened Basics
  import opened Journal
  import opened BufferCache
  import opened Pins

  lemma Unlocked(c: Cached, i: nat)
    requires CacheInv(c) && i < |c.bufs|
    ensures !c.bufs[i].locked ==> !c.bufs[i].unlogged
    ensures c.bufs[i].refcnt == 0 ==> !c.bufs[i].locked && c.bufs[i].waiting == 0
  {
    hide Inv;
    JournalFacts(c.j);
    assert BufOk(c.bufs[i], c.j);
  }

  lemma CopyIs(c: Cached, t: Tid, to: nat, from: nat)
    requires CanCopy(c, t, to, from)
    ensures Can(c, Copy(t, to, from)) && After(c, Copy(t, to, from)) == AfterCopy(c, t, to, from)
  {
  }

  lemma InstallIs(c: Cached, t: Tid, lbuf: nat, dbuf: nat)
    requires CanInstall(c, t, lbuf, dbuf)
    ensures Can(c, Install(t, lbuf, dbuf)) && After(c, Install(t, lbuf, dbuf)) == AfterInstall(c, t, lbuf, dbuf)
  {
  }

  lemma LoadIs(c: Cached, t: Tid, i: nat)
    requires CanLoad(c, t, i)
    ensures Can(c, Load(t, i)) && After(c, Load(t, i)) == AfterLoad(c, t, i)
  {
  }

  lemma BeginIs(c: Cached, t: Tid)
    requires CanBeginOp(c.j, t)
    ensures Can(c, Begin(t)) && After(c, Begin(t)) == c.(j := AfterBeginOp(c.j, t))
  {
  }

  lemma FinishIs(c: Cached)
    requires CanEndCommit(c.j)
    ensures Can(c, Finish) && After(c, Finish) == c.(j := AfterEndCommit(c.j))
  {
  }

  lemma EndIs(c: Cached, t: Tid)
    requires CanEnd(c, t)
    ensures Can(c, End(t)) && After(c, End(t)) == AfterEnd(c, t)
  {
  }

  lemma ClearIs(c: Cached, t: Tid, i: nat)
    requires CanClear(c, t, i)
    ensures Can(c, Clear(t, i)) && After(c, Clear(t, i)) == AfterClear(c, t, i)
  {
  }

  lemma LogIs(c: Cached, i: nat, t: Tid)
    requires CanLog(c, i, t)
    ensures Can(c, Action.Log(i, t)) && After(c, Action.Log(i, t)) == AfterLog(c, i, t)
  {
  }

  /** Outside `held`, nobody holds or waits for the buffer of a block of the log or of a logged
      block; other buffers may be in use. */
  ghost predicate LogFree(bufs: seq<Buf>, start: nat, lh: seq<nat>, held: set<nat>) {
    forall i: nat :: i < |bufs| && i !in held && bufs[i].dev == ROOTDEV
                     && (start <= bufs[i].blockno <= start + LOGBLOCKS || bufs[i].blockno in lh) ==>
      !bufs[i].locked && bufs[i].waiting == 0
  }

  ghost predicate Spare(bufs: seq<Buf>) {
    exists i: nat :: i < |bufs| && bufs[i].refcnt == 0
  }

  lemma SpareServes(bufs: seq<Buf>, b: nat)
    requires Spare(bufs)
    ensures !BgetPanics(bufs, b)
  {
  }

  /** Thread t now holds block b in buffer i, which nobody held or waited for; the others are as
      they were. */
  ghost predicate Grabbed(bufs: seq<Buf>, bufs': seq<Buf>, i: nat, t: Tid, b: nat) {
    && |bufs'| == |bufs| && i < |bufs| && !bufs[i].locked && bufs[i].waiting == 0
    && bufs'[i].locked && bufs'[i].owner == t && bufs'[i].dev == ROOTDEV && bufs'[i].blockno == b
    && bufs'[i].valid && bufs'[i].waiting == 0 && !bufs'[i].unlogged
    && forall k: nat :: k < |bufs| && k != i ==> bufs'[k] == bufs[k]
  }

  class Log {
    const start: nat
    var disk: Image
    var bufs: seq<Buf>
    // struct log
    var n: nat
    const block: array<nat>
    var outstanding: int
    var committing: bool
    var ncommit: nat
    // history
    ghost var phase: Phase
    ghost var open: map<Tid, Op>
    ghost var nextOp: nat
    ghost var ended: set<nat>
    ghost var syncs: map<Tid, Sync>
    ghost var past: Past
    ghost var unpinned: nat
    ghost var run: seq<Cached>
    ghost var acts: seq<Action>

    ghost function Journal(): State
      reads this, block
      requires n <= block.Length
    {
      State(Store(start, disk, block[..n], phase),
            Ops(open, outstanding, committing, ncommit, nextOp, ended, syncs),
            past)
    }

    ghost function Abs(): Cached
      reads this, block
      requires n <= block.Length
    {
      Cached(Journal(), bufs, unpinned)
    }

    ghost predicate Valid()
      reads this, block
    {
      && block.Length == LOGBLOCKS && n <= LOGBLOCKS
      && IsCacheRun(run, acts) && run[|run| - 1] == Abs()
    }

    ghost method Record(a: Action)
      requires block.Length == LOGBLOCKS && n <= LOGBLOCKS && IsCacheRun(run, acts)
      requires Can(run[|run| - 1], a) && Abs() == After(run[|run| - 1], a)
      modifies this`run, this`acts
      ensures Valid() && acts == old(acts) + [a]
    {
      hide Can, After, CacheInit;
      run := run + [Abs()];
      acts := acts + [a];
    }

    lemma Invariant()
      requires Valid()
      ensures CacheInv(Abs()) && Inv(Journal())
    {
      hide Inv;
      CacheRunInv(run, acts, |run| - 1);
    }

    /** The two searches of bget, None being its panic; BufferList has the list they follow. */
    method FindSlot(b: nat) returns (r: Option<nat>)
      ensures r.None? <==> BgetPanics(bufs, b)
      ensures r.Some? ==> r.value < |bufs| && (Hit(bufs, r.value, b) || (Miss(bufs, b) && bufs[r.value].refcnt == 0))
    {
      var i := 0;
      while i < |bufs|
        invariant i <= |bufs|
        invariant forall k :: 0 <= k < i ==> !(bufs[k].dev == ROOTDEV && bufs[k].blockno == b)
      {
        if Hit(bufs, i, b) {
          return Some(i);
        }
        i := i + 1;
      }
      i := 0;
      while i < |bufs|
        invariant i <= |bufs| && forall k :: 0 <= k < i ==> bufs[k].refcnt != 0
      {
        if bufs[i].refcnt == 0 {
          return Some(i);
        }
        i := i + 1;
      }
      return None;
    }

    method GetBuf(i: nat, b: nat)
      requires Valid() && CanGet(Abs(), i, b)
      modifies this`bufs, this`run, this`acts
      ensures Valid() && Abs() == AfterGet(old(Abs()), i, b)
    {
      hide IsCacheRun;
      var x := bufs[i];
      bufs := bufs[i := if Hit(bufs, i, b) then x.(refcnt := x.refcnt + 1, waiting := x.waiting + 1)
                        else x.(dev := ROOTDEV, blockno := b, valid := false, refcnt := 1, waiting := 1)];
      Record(Get(i, b));
    }

    method LockBuf(i: nat, t: Tid)
      requires Valid() && CanLock(Abs(), i, t)
      modifies this`bufs, this`run, this`acts
      ensures Valid() && Abs() == AfterLock(old(Abs()), i, t)
    {
      hide IsCacheRun;
      bufs := bufs[i := bufs[i].(waiting := bufs[i].waiting - 1, locked := true, owner := t)];
      Record(Lock(i, t));
    }

    method FillBuf(i: nat, t: Tid)
      requires Valid() && CanFill(Abs(), i, t)
      modifies this`bufs, this`run, this`acts
      ensures Valid() && Abs() == AfterFill(old(Abs()), i, t)
    {
      hide IsCacheRun;
      bufs := bufs[i := bufs[i].(valid := true, data := disk[bufs[i].blockno])];
      Record(Fill(i, t));
    }

    /** bread of a block whose buffer, if it has one, nobody holds or waits for; None is bget's
        panic. */
    method Bread(t: Tid, b: nat) returns (r: Option<nat>)
      requires Valid() && b < |disk|
      requires forall k: nat :: Hit(bufs, k, b) ==> !bufs[k].locked && bufs[k].waiting == 0
      modifies this`bufs, this`run, this`acts
      ensures Valid() && Journal() == old(Journal())
      ensures r.None? <==> BgetPanics(old(bufs), b)
      ensures r.None? ==> bufs == old(bufs)
      ensures r.Some? ==> Grabbed(old(bufs), bufs, r.value, t, b)
    {
      hide CacheInv, IsCacheRun, Inv;
      Invariant();
      r := FindSlot(b);
      if r.None? {
        return;
      }
      var i := r.value;
      Unlocked(Abs(), i);
      GetBuf(i, b);
      LockBuf(i, t);
      if !bufs[i].valid {
        FillBuf(i, t);
      }
    }

    method Brelse(t: Tid, i: nat)
      requires Valid() && Holds(Abs(), t, i) && !bufs[i].unlogged
      modifies this`bufs, this`run, this`acts
      ensures Valid() && Abs() == AfterRelease(old(Abs()), i, t)
    {
      hide IsCacheRun;
      bufs := bufs[i := bufs[i].(locked := false, refcnt := bufs[i].refcnt - 1)];
      Record(Release(i, t));
    }

    /** write_log: copy every logged block from its buffer to the log area.  It panics, with
        nothing changed, exactly if its first bread finds no buffer. */
    method WriteLog(t: Tid) returns (panic: bool)
      requires Valid() && phase == WritingLog(0) && LogFree(bufs, start, block[..n], {})
      modifies this`disk, this`bufs, this`phase, this`run, this`acts
      ensures Valid() && |bufs| == |old(bufs)| && LogFree(bufs, start, block[..n], {})
      ensures panic <==> n > 0 && BgetPanics(old(bufs), start + 1)
      ensures panic ==> Abs() == old(Abs())
      ensures !panic ==> phase == WritingLog(n) && (n > 0 ==> Spare(bufs))
    {
      hide IsCacheRun, LogFree;
      var tail := 0;
      while tail < n
        invariant Valid() && tail <= n && phase == WritingLog(tail)
        invariant LogFree(bufs, start, block[..n], {}) && |bufs| == |old(bufs)|
        invariant tail == 0 ==> Abs() == old(Abs())
        invariant tail > 0 ==> Spare(bufs) && !BgetPanics(old(bufs), start + 1)
        modifies this`disk, this`bufs, this`phase, this`run, this`acts
      {
        panic := CopyOne(t, tail);
        if panic {
          return;
        }
        tail := tail + 1;
      }
      panic := false;
    }

    /** The loop body of write_log. */
    method CopyOne(t: Tid, tail: nat) returns (panic: bool)
      requires Valid() && tail < n && phase == WritingLog(tail) && LogFree(bufs, start, block[..n], {})
      modifies this`disk, this`bufs, this`phase, this`run, this`acts
      ensures Valid() && |bufs| == |old(bufs)| && LogFree(bufs, start, block[..n], {})
      ensures panic <==> BgetPanics(old(bufs), start + tail + 1)
      ensures panic ==> Abs() == old(Abs())
      ensures !panic ==> phase == WritingLog(tail + 1) && Spare(bufs)
    {
      hide CacheInv, IsCacheRun, Inv, BgetPanics;
      LogArea();
      LogHome();
      var to := Bread(t, start + tail + 1);
      if to.None? {
        return true;
      }
      PinnedAvailable(tail);
      var from := Bread(t, block[tail]);
      CopyBuf(t, to.value, from.value);
      ReleaseTwo(t, from.value, to.value);
      return false;
    }

    /** The buffers of a copy go back; the one of a log block is then unreferenced. */
    method ReleaseTwo(t: Tid, i: nat, k: nat)
      requires Valid() && Holds(Abs(), t, i) && Holds(Abs(), t, k) && i != k
      requires !bufs[i].unlogged && !bufs[k].unlogged && bufs[i].waiting == bufs[k].waiting == 0
      requires bufs[k].blockno !in block[..n] && LogFree(bufs, start, block[..n], {i, k})
      modifies this`bufs, this`run, this`acts
      ensures Valid() && Journal() == old(Journal()) && |bufs| == |old(bufs)|
      ensures LogFree(bufs, start, block[..n], {}) && Spare(bufs)
    {
      hide IsCacheRun;
      Brelse(t, i);
      Brelse(t, k);
      Unreferenced(k);
    }

    /** A buffer that nobody holds or waits for and whose block is not logged is unreferenced. */
    lemma Unreferenced(k: nat)
      requires Valid() && k < |bufs| && !bufs[k].locked && bufs[k].waiting == 0 && bufs[k].blockno !in block[..n]
      ensures bufs[k].refcnt == 0 && Spare(bufs)
    {
      hide Inv;
      Invariant();
    }

    lemma LogArea()
      requires Valid()
      ensures start + LOGBLOCKS < |disk|
    {
      hide Inv;
      Invariant();
      JournalFacts(Journal());
    }

    /** memmove and bwrite of write_log. */
    method CopyBuf(t: Tid, to: nat, from: nat)
      requires Valid() && CanCopy(Abs(), t, to, from)
      modifies this`disk, this`bufs, this`phase, this`run, this`acts
      ensures Valid() && Abs() == AfterCopy(old(Abs()), t, to, from)
    {
      hide IsCacheRun, Can, After;
      CopyIs(Abs(), t, to, from);
      bufs := bufs[to := bufs[to].(data := bufs[from].data)];
      disk := disk[bufs[to].blockno := bufs[to].data];
      phase := WritingLog(phase.tail + 1);
      Record(Copy(t, to, from));
    }

    /** The buffer of a logged block is pinned, hence found. */
    lemma PinnedAvailable(tail: nat)
      requires Valid() && tail < n && (phase.WritingLog? || (phase.Installing? && unpinned <= tail))
      ensures block[tail] < |disk| && !BgetPanics(bufs, block[tail])
      ensures Home(start, |disk|, block[tail])
    {
      hide Inv;
      Invariant();
      JournalFacts(Journal());
      assert Pinned(Abs())[tail - unpinned] == block[tail];
      assert InCache(bufs, block[tail]);
    }

    /** The loop of write_head: the count and n entries over the old block. */
    method FillHeader(was: Block) returns (hb: Block)
      requires n <= block.Length && n < |was|
      ensures hb == EncodeHeader(was, block[..n])
    {
      hb := was[0 := n];
      var i := 0;
      while i < n
        invariant i <= n && |hb| == |was| && hb[0] == n
        invariant forall k :: 0 <= k < i ==> hb[1 + k] == block[k]
        invariant forall k :: i < k < |was| ==> hb[k] == was[k]
      {
        hb := hb[1 + i := block[i]];
        i := i + 1;
      }
      assert hb == [n] + block[..n] + was[1 + n..];
    }

    /** write_head at the commit point. */
    method WriteHead(t: Tid) returns (panic: bool)
      requires Valid() && phase == WritingLog(n) && LogFree(bufs, start, block[..n], {})
      modifies this`disk, this`bufs, this`phase, this`past, this`run, this`acts
      ensures Valid() && |bufs| == |old(bufs)| && LogFree(bufs, start, block[..n], {})
      ensures panic <==> BgetPanics(old(bufs), start)
      ensures panic ==> Abs() == old(Abs())
      ensures !panic ==> phase == Installing(0) && Spare(bufs)
      ensures !panic ==> past.mem == past.durable == old(past.mem) && past.writes == old(past.writes)
    {
      hide CacheInv, IsCacheRun, Inv, BgetPanics;
      LogArea();
      var r := Bread(t, start);
      if r.None? {
        return true;
      }
      BufWords(r.value);
      LogHome();
      HeadBuf(t, r.value);
      Brelse(t, r.value);
      Unreferenced(r.value);
      return false;
    }

    /** Logged blocks are not blocks of the log. */
    lemma LogHome()
      requires Valid()
      ensures forall b :: b in block[..n] ==> Home(start, |disk|, b)
    {
      hide Inv;
      Invariant();
      JournalFacts(Journal());
    }

    lemma BufWords(i: nat)
      requires Valid() && i < |bufs| && bufs[i].valid
      ensures |bufs[i].data| == BLOCKWORDS
    {
      hide Inv;
      Invariant();
      JournalFacts(Journal());
      assert BufOk(bufs[i], Journal());
    }

    method HeadBuf(t: Tid, i: nat)
      requires Valid() && CanHead(Abs(), t, i)
      modifies this`disk, this`bufs, this`phase, this`past, this`run, this`acts
      ensures Valid() && Abs() == AfterHead(old(Abs()), t, i)
    {
      hide IsCacheRun;
      var hb := FillHeader(bufs[i].data);
      bufs := bufs[i := bufs[i].(data := hb)];
      disk := disk[start := hb];
      phase := Installing(0);
      past := past.(marks := past.marks + [|past.writes|], durable := past.mem);
      Record(Head(t, i));
    }

    /** log.lh.n = 0 and the write_head that follows it. */
    method ClearHead(t: Tid) returns (panic: bool)
      requires Valid() && (phase == Installing(n) || phase == Replaying(n)) && (phase.Installing? ==> unpinned == n)
      requires LogFree(bufs, start, block[..n], {})
      modifies this`n, this`disk, this`bufs, this`phase, this`unpinned, this`run, this`acts
      ensures Valid() && |bufs| == |old(bufs)|
      ensures panic <==> BgetPanics(old(bufs), start)
      ensures panic ==> Abs() == old(Abs())
      ensures !panic ==> n == 0 && LogFree(bufs, start, [], {}) && phase == if old(phase).Installing? then Done else Idle
      ensures OnlyLocked(old(bufs), {}) ==> OnlyLocked(bufs, {})
    {
      hide CacheInv, IsCacheRun, Inv, BgetPanics;
      LogArea();
      var r := Bread(t, start);
      if r.None? {
        return true;
      }
      BufWords(r.value);
      ClearBuf(t, r.value);
      Brelse(t, r.value);
      return false;
    }

    method ClearBuf(t: Tid, i: nat)
      requires Valid() && CanClear(Abs(), t, i)
      modifies this`n, this`disk, this`bufs, this`phase, this`unpinned, this`run, this`acts
      ensures Valid() && n == 0 && Abs() == AfterClear(old(Abs()), t, i)
    {
      hide IsCacheRun, AfterClear, CanClear, Can, After;
      ClearIs(Abs(), t, i);
      ClearFields(t, i);
      Record(Clear(t, i));
    }

    method ClearFields(t: Tid, i: nat)
      requires n <= block.Length && CanClear(Abs(), t, i)
      modifies this`n, this`disk, this`bufs, this`phase, this`unpinned
      ensures n == 0 && Abs() == AfterClear(old(Abs()), t, i)
    {
      hide EncodeHeader;
      n := 0;
      assert block[..n] == [];
      var hb := FillHeader(bufs[i].data);
      bufs := bufs[i := bufs[i].(data := hb)];
      disk := disk[start := hb];
      phase := if phase.Installing? then Done else Idle;
      unpinned := 0;
    }

    /** install_trans: copy every log block to its home location.  At recovery, alone, it never
        panics; in a commit exactly if its first bread finds no buffer. */
    method InstallTrans(t: Tid, recovering: bool) returns (panic: bool)
      requires Valid() && phase == (if recovering then Replaying(0) else Installing(0))
      requires if recovering then OnlyLocked(bufs, {}) && 2 <= |bufs| else LogFree(bufs, start, block[..n], {})
      modifies this`disk, this`bufs, this`phase, this`unpinned, this`run, this`acts
      ensures Valid() && |bufs| == |old(bufs)|
      ensures if recovering then OnlyLocked(bufs, {}) else LogFree(bufs, start, block[..n], {})
      ensures panic <==> !recovering && n > 0 && BgetPanics(old(bufs), start + 1)
      ensures panic ==> Abs() == old(Abs())
      ensures !panic ==> phase == (if recovering then Replaying(n) else Installing(n))
      ensures !panic && !recovering ==> unpinned == n && (n > 0 || Spare(old(bufs)) ==> Spare(bufs))
    {
      hide IsCacheRun, LogFree, OnlyLocked;
      UnpinStart();
      var tail := 0;
      while tail < n
        invariant Valid() && tail <= n && phase == (if recovering then Replaying(tail) else Installing(tail))
        invariant if recovering then OnlyLocked(bufs, {}) else LogFree(bufs, start, block[..n], {})
        invariant |bufs| == |old(bufs)| && (!recovering ==> unpinned == tail)
        invariant tail == 0 ==> Abs() == old(Abs())
        invariant tail > 0 && !recovering ==> Spare(bufs) && !BgetPanics(old(bufs), start + 1)
        modifies this`disk, this`bufs, this`phase, this`unpinned, this`run, this`acts
      {
        panic := InstallOne(t, tail, recovering);
        if panic {
          return;
        }
        tail := tail + 1;
      }
      panic := false;
    }

    lemma UnpinStart()
      requires Valid() && (phase == Installing(0) || phase == Replaying(0))
      ensures unpinned == 0
    {
      hide Inv;
      Invariant();
    }

    /** The loop body of install_trans. */
    method InstallOne(t: Tid, tail: nat, recovering: bool) returns (panic: bool)
      requires Valid() && tail < n && phase == (if recovering then Replaying(tail) else Installing(tail))
      requires if recovering then OnlyLocked(bufs, {}) && 2 <= |bufs|
               else LogFree(bufs, start, block[..n], {}) && unpinned == tail
      modifies this`disk, this`bufs, this`phase, this`unpinned, this`run, this`acts
      ensures Valid() && |bufs| == |old(bufs)|
      ensures if recovering then OnlyLocked(bufs, {}) else LogFree(bufs, start, block[..n], {})
      ensures panic <==> !recovering && BgetPanics(old(bufs), start + tail + 1)
      ensures panic ==> Abs() == old(Abs())
      ensures !panic ==> phase == (if recovering then Replaying(tail + 1) else Installing(tail + 1))
      ensures !panic && !recovering ==> unpinned == tail + 1 && Spare(bufs)
    {
      hide CacheInv, IsCacheRun, Inv, BgetPanics;
      LogArea();
      if recovering {
        AloneFinds({}, start + tail + 1);
      }
      var lbuf := Bread(t, start + tail + 1);
      if lbuf.None? {
        return true;
      }
      InstallRest(t, tail, lbuf.value, recovering);
      return false;
    }

    /** The loop body once it has the log block's buffer. */
    method InstallRest(t: Tid, tail: nat, lbuf: nat, recovering: bool)
      requires Valid() && tail < n && phase == (if recovering then Replaying(tail) else Installing(tail))
      requires Holds(Abs(), t, lbuf) && bufs[lbuf].valid && !bufs[lbuf].unlogged && bufs[lbuf].waiting == 0
      requires bufs[lbuf].blockno == start + tail + 1 && start + LOGBLOCKS < |disk|
      requires if recovering then OnlyLocked(bufs, {lbuf}) && 2 <= |bufs|
               else LogFree(bufs, start, block[..n], {lbuf}) && unpinned == tail
      modifies this`disk, this`bufs, this`phase, this`unpinned, this`run, this`acts
      ensures Valid() && |bufs| == |old(bufs)|
      ensures phase == (if recovering then Replaying(tail + 1) else Installing(tail + 1))
      ensures if recovering then OnlyLocked(bufs, {})
              else LogFree(bufs, start, block[..n], {}) && unpinned == tail + 1 && Spare(bufs)
    {
      hide CacheInv, IsCacheRun, Inv, BgetPanics, Spare;
      LogHome();
      HomeAvailable(tail, lbuf);
      var dbuf := Bread(t, block[tail]);
      InstallBuf(t, lbuf, dbuf.value);
      FinishOne(t, lbuf, dbuf.value, recovering);
    }

    method FinishOne(t: Tid, lbuf: nat, dbuf: nat, recovering: bool)
      requires Valid() && Holds(Abs(), t, lbuf) && Holds(Abs(), t, dbuf) && lbuf != dbuf
      requires !bufs[lbuf].unlogged && !bufs[dbuf].unlogged && bufs[lbuf].blockno !in block[..n]
      requires bufs[lbuf].waiting == bufs[dbuf].waiting == 0
      requires if recovering then OnlyLocked(bufs, {lbuf, dbuf})
               else LogFree(bufs, start, block[..n], {dbuf, lbuf}) && CanUnpin(Abs(), dbuf)
      modifies this`bufs, this`unpinned, this`run, this`acts
      ensures Valid() && Journal() == old(Journal()) && |bufs| == |old(bufs)|
      ensures unpinned == old(unpinned) + Bit(!recovering)
      ensures if recovering then OnlyLocked(bufs, {}) else LogFree(bufs, start, block[..n], {}) && Spare(bufs)
    {
      hide IsCacheRun;
      if recovering {
        Brelse(t, lbuf);
        Brelse(t, dbuf);
      } else {
        UnpinBuf(dbuf);
        ReleaseTwo(t, dbuf, lbuf);
      }
    }

    /** At recovery, with one other buffer held at most, there is a buffer for every block. */
    lemma AloneFinds(held: set<nat>, b: nat)
      requires Valid() && Recovering(Journal()) && OnlyLocked(bufs, held) && |held| < |bufs|
      ensures !BgetPanics(bufs, b)
    {
      hide Inv;
      Invariant();
      FreeBuffer(Abs(), held);
    }

    lemma HomeAvailable(tail: nat, lbuf: nat)
      requires Valid() && tail < n && lbuf < |bufs|
      requires (phase == Replaying(tail) && OnlyLocked(bufs, {lbuf}) && 2 <= |bufs|)
               || (phase == Installing(tail) && unpinned <= tail)
      ensures block[tail] < |disk| && !BgetPanics(bufs, block[tail])
      ensures Home(start, |disk|, block[tail])
    {
      if phase.Installing? {
        PinnedAvailable(tail);
      } else {
        hide IsCacheRun, BgetPanics;
        LogHome();
        assert block[..n][tail] == block[tail] && block[tail] in block[..n];
        AloneFinds({lbuf}, block[tail]);
      }
    }

    method InstallBuf(t: Tid, lbuf: nat, dbuf: nat)
      requires Valid() && CanInstall(Abs(), t, lbuf, dbuf)
      modifies this`disk, this`bufs, this`phase, this`run, this`acts
      ensures Valid() && Abs() == AfterInstall(old(Abs()), t, lbuf, dbuf)
    {
      hide IsCacheRun, Can, After;
      InstallIs(Abs(), t, lbuf, dbuf);
      bufs := bufs[dbuf := bufs[dbuf].(data := bufs[lbuf].data)];
      disk := disk[bufs[dbuf].blockno := bufs[dbuf].data];
      phase := if phase.Installing? then Installing(phase.tail + 1) else Replaying(phase.tail + 1);
      Record(Install(t, lbuf, dbuf));
    }

    method UnpinBuf(i: nat)
      requires Valid() && CanUnpin(Abs(), i)
      modifies this`bufs, this`unpinned, this`run, this`acts
      ensures Valid() && Abs() == AfterUnpin(old(Abs()), i)
    {
      hide IsCacheRun;
      bufs := bufs[i := bufs[i].(refcnt := bufs[i].refcnt - 1)];
      unpinned := unpinned + 1;
      Record(Unpin(i));
    }

    /** commit: afterwards everything logged is both durable and in place.  It panics exactly if
        something is logged and write_log's first bread finds no buffer; then nothing has changed.
        With no buffer held elsewhere that is exactly a log as large as the cache. */
    method Commit(t: Tid) returns (panic: bool)
      requires Valid() && phase == (if n == 0 then Done else WritingLog(0)) && LogFree(bufs, start, block[..n], {})
      modifies this`n, this`disk, this`bufs, this`phase, this`past, this`unpinned, this`run, this`acts
      ensures Valid() && |bufs| == |old(bufs)|
      ensures panic <==> old(n) > 0 && BgetPanics(old(bufs), start + 1)
      ensures OnlyLocked(old(bufs), {}) ==> (panic <==> 0 < old(n) == |bufs|)
      ensures panic ==> Abs() == old(Abs())
      ensures !panic ==> phase == Done && n == 0
      ensures past.mem == old(past.mem) && past.writes == old(past.writes)
      ensures !panic ==> past.durable == past.mem && |past.mem| == |disk|
      ensures !panic ==> forall b :: Home(start, |disk|, b) ==> disk[b] == past.mem[b]
    {
      hide IsCacheRun, LogFree, Spare, BgetPanics, Home;
      ExactPanic();
      if n > 0 {
        panic := WriteLog(t);
        if panic {
          return;
        }
        FinishLog(t);
      }
      Settled();
      panic := false;
    }

    /** The rest of commit, once write_log has found a buffer: it never panics. */
    method FinishLog(t: Tid)
      requires Valid() && phase == WritingLog(n) && n > 0 && LogFree(bufs, start, block[..n], {}) && Spare(bufs)
      modifies this`n, this`disk, this`bufs, this`phase, this`past, this`unpinned, this`run, this`acts
      ensures Valid() && |bufs| == |old(bufs)| && phase == Done && n == 0
      ensures past.mem == old(past.mem) && past.writes == old(past.writes)
    {
      hide IsCacheRun, LogFree, Spare, BgetPanics;
      SpareServes(bufs, start);
      var panic := WriteHead(t);
      SpareServes(bufs, start + 1);
      panic := InstallTrans(t, false);
      SpareServes(bufs, start);
      panic := ClearHead(t);
    }

    /** Before a commit with nobody at a buffer, bread of the first log block fails exactly when
        the log is as large as the cache. */
    lemma ExactPanic()
      requires Valid() && (phase == Done || phase == WritingLog(0))
      ensures OnlyLocked(bufs, {}) && n > 0 ==> (BgetPanics(bufs, start + 1) <==> n == |bufs|)
    {
      hide Inv;
      Invariant();
      JournalFacts(Journal());
      if OnlyLocked(bufs, {}) && n > 0 {
        BgetPanicsIff(Abs(), start + 1);
        LogHome();
        NotRecovering();
      }
    }

    lemma NotRecovering()
      requires Valid() && (phase == Done || phase == WritingLog(0))
      ensures Pinned(Abs()) == block[..n]
    {
      hide Inv;
      Invariant();
    }

    lemma Settled()
      requires Valid() && (phase == Done || (phase == Idle && n == 0))
      ensures past.durable == past.mem && |past.mem| == |disk|
      ensures forall b :: Home(start, |disk|, b) ==> disk[b] == past.mem[b]
    {
      Invariant();
      AllMarked(past, |disk|);
    }

    /** read_head. */
    method ReadHead(t: Tid)
      requires Valid() && phase == Booting && OnlyLocked(bufs, {}) && 2 <= |bufs| && n == 0
      modifies this`n, block, this`bufs, this`phase, this`run, this`acts
      ensures Valid() && phase == Replaying(0) && OnlyLocked(bufs, {}) && |bufs| == |old(bufs)|
      ensures start < |disk| && block[..n] == DecodeHeader(disk[start])
    {
      hide CacheInv, IsCacheRun, Inv, BgetPanics;
      LogArea();
      AloneFinds({}, start);
      HeaderGood();
      var r := Bread(t, start);
      HeaderBuf(r.value);
      LoadBuf(t, r.value);
      Brelse(t, r.value);
    }

    lemma HeaderGood()
      requires Valid()
      ensures start < |disk| && GoodHeader(disk[start])
    {
      Invariant();
    }

    lemma HeaderBuf(i: nat)
      requires Valid() && i < |bufs| && bufs[i].valid && bufs[i].blockno == start && bufs[i].dev == ROOTDEV
      requires !bufs[i].unlogged
      ensures start < |disk| && bufs[i].data == disk[start]
    {
      hide Inv;
      Invariant();
      JournalFacts(Journal());
      assert BufOk(bufs[i], Journal());
    }

    method LoadBuf(t: Tid, i: nat)
      requires Valid() && CanLoad(Abs(), t, i) && GoodHeader(bufs[i].data)
      modifies this`n, block, this`phase, this`run, this`acts
      ensures Valid() && Abs() == AfterLoad(old(Abs()), t, i)
    {
      hide IsCacheRun, Can, After;
      LoadIs(Abs(), t, i);
      var hb := bufs[i].data;
      n := hb[0];
      var k := 0;
      while k < n
        invariant k <= n == hb[0] && forall m :: 0 <= m < k ==> block[m] == hb[1 + m]
        modifies block
      {
        block[k] := hb[1 + k];
        k := k + 1;
      }
      assert block[..n] == DecodeHeader(hb);
      phase := Replaying(0);
      Record(Load(t, i));
    }

    /** recover_from_log: afterwards the home blocks hold the last commit. */
    method RecoverFromLog(t: Tid)
      requires Valid() && phase == Booting && OnlyLocked(bufs, {}) && 2 <= |bufs| && n == 0
      modifies this`n, block, this`disk, this`bufs, this`phase, this`unpinned, this`run, this`acts
      ensures Valid() && phase == Idle && n == 0 && OnlyLocked(bufs, {}) && |bufs| == |old(bufs)|
      ensures |past.durable| == |disk| && forall b :: Home(start, |disk|, b) ==> disk[b] == past.durable[b]
    {
      hide IsCacheRun, BgetPanics, Home;
      ReadHead(t);
      var no := InstallTrans(t, true);
      AloneFinds({}, start);
      no := ClearHead(t);
      Settled();
    }

    /** A machine about to boot from a formatted disk, with `nbuf` buffers. */
    constructor (start: nat, disk: Image, nbuf: nat)
      requires start + LOGBLOCKS < |disk| && Blocks(disk, |disk|) && disk[start][0] == 0
      ensures Valid() && phase == Booting && n == 0 && OnlyLocked(bufs, {}) && |bufs| == nbuf
      ensures this.start == start && this.disk == disk && fresh(block)
      ensures past == Past(disk, [], [0], disk, disk)
    {
      this.start, this.disk := start, disk;
      bufs := seq(nbuf, _ => FreshBuf());
      n, block := 0, new nat[LOGBLOCKS](_ => 0);
      outstanding, committing, ncommit := 0, false, 0;
      phase, open, nextOp, ended, syncs := Booting, map[], 0, {}, map[];
      past := Past(disk, [], [0], disk, disk);
      unpinned := 0;
      acts := [];
      new;
      run := [Abs()];
    }

    /** One pass of the loop in begin_op; false is the decision to sleep. */
    method BeginOp(t: Tid) returns (ok: bool)
      requires Valid() && !Recovering(Journal()) && t !in open
      modifies this`outstanding, this`open, this`nextOp, this`run, this`acts
      ensures Valid()
      ensures ok <==> !committing && n + (old(outstanding) + 1) * MAXOPBLOCKS <= LOGBLOCKS
      ensures ok ==> Abs() == old(Abs()).(j := AfterBeginOp(old(Journal()), t))
      ensures !ok ==> Abs() == old(Abs())
    {
      hide IsCacheRun, Can, After;
      if committing {
        ok := false;
      } else if n + (outstanding + 1) * MAXOPBLOCKS > LOGBLOCKS {
        ok := false;
      } else {
        BeginIs(Abs(), t);
        open := open[t := Op(nextOp, {})];
        nextOp := nextOp + 1;
        outstanding := outstanding + 1;
        Record(Begin(t));
        ok := true;
      }
    }

    /** log_write(b) by the holder of buffer i; true is a panic: a full log, or no operation open.
        An operation stays within the MAXOPBLOCKS blocks that begin_op reserved for it. */
    method LogWrite(t: Tid, i: nat) returns (panic: bool)
      requires Valid() && Holds(Abs(), t, i) && bufs[i].valid && Home(start, |disk|, bufs[i].blockno)
      requires outstanding >= 1 ==> t in open && (bufs[i].blockno in open[t].logged || |open[t].logged| < MAXOPBLOCKS)
      modifies this`n, block, this`bufs, this`open, this`past, this`run, this`acts
      ensures Valid()
      ensures panic <==> old(n) == LOGBLOCKS || outstanding < 1
      ensures panic ==> Abs() == old(Abs())
      ensures !panic ==> CanLog(old(Abs()), i, t) && Abs() == AfterLog(old(Abs()), i, t)
      ensures t in old(open) && |old(open)[t].logged| < MAXOPBLOCKS ==> !panic
    {
      hide IsCacheRun;
      BufWords(i);
      if t in open { OpenCounts(t); }
      if n >= LOGBLOCKS {
        return true;
      }
      if outstanding < 1 {
        return true;
      }
      LogBuf(t, i);
      return false;
    }

    method LogBuf(t: Tid, i: nat)
      requires Valid() && CanLog(Abs(), i, t)
      modifies this`n, block, this`bufs, this`open, this`past, this`run, this`acts
      ensures Valid() && Abs() == AfterLog(old(Abs()), i, t)
    {
      hide IsCacheRun, CanLog, AfterLog, Can, After;
      LogIs(Abs(), i, t);
      LogFields(t, i);
      Record(Action.Log(i, t));
    }

    method LogFields(t: Tid, i: nat)
      requires block.Length == LOGBLOCKS && n <= LOGBLOCKS && CanLog(Abs(), i, t)
      modifies this`n, block, this`bufs, this`open, this`past
      ensures n <= LOGBLOCKS && Abs() == AfterLog(old(Abs()), i, t)
    {
      hide Absorb;
      var b := bufs[i].blockno;
      var added := Enter(b);
      bufs := bufs[i := bufs[i].(unlogged := false, refcnt := bufs[i].refcnt + if added then 1 else 0)];
      open := open[t := open[t].(logged := open[t].logged + {b})];
      past := past.(mem := if b < |past.mem| then past.mem[b := bufs[i].data] else past.mem,
                    writes := past.writes + [Write(open[t].id, b, bufs[i].data)]);
    }

    /** log_write's search and store: absorb the block or append it. */
    method Enter(b: nat) returns (added: bool)
      requires block.Length == LOGBLOCKS && n < LOGBLOCKS
      modifies this`n, block
      ensures n <= LOGBLOCKS && block[..n] == Absorb(old(block[..n]), b)
      ensures added <==> b !in old(block[..n])
    {
      var k := 0;
      while k < n && block[k] != b
        invariant k <= n && b !in block[..k]
      {
        k := k + 1;
      }
      ghost var lh := block[..n];
      block[k] := b;
      added := k == n;
      if added {
        n := n + 1;
        assert block[..n] == lh + [b];
      } else {
        assert lh[k] == b;
        assert block[..n] == lh;
      }
    }

    /** The counters agree with the open operations. */
    lemma OpenCounts(t: Tid)
      requires Valid() && t in open
      ensures outstanding >= 1 && !committing && phase.Idle?
      ensures |open[t].logged| < MAXOPBLOCKS ==> n < LOGBLOCKS
    {
      var jrun, jsteps := CacheRefinesJournal(run, acts, |run| - 1);
      NoOverflow(jrun, jsteps, |jrun| - 1, t);
      Invariant();
    }

    /** end_op.  The last operation out commits; on return nothing of it is pending and the commit
        is counted.  It panics only in that commit, and exactly when Commit does. */
    method EndOp(t: Tid) returns (didCommit: bool, panic: bool)
      requires Valid() && t in open && LogFree(bufs, start, block[..n], {})
      requires forall i :: 0 <= i < |bufs| && bufs[i].unlogged ==> bufs[i].owner != t
      modifies this`n, this`disk, this`bufs, this`phase, this`past, this`unpinned, this`run, this`acts
      modifies this`outstanding, this`committing, this`ncommit, this`open, this`ended
      ensures Valid() && |bufs| == |old(bufs)|
      ensures didCommit <==> old(outstanding) == 1
      ensures panic <==> didCommit && old(n) > 0 && BgetPanics(old(bufs), start + 1)
      ensures OnlyLocked(old(bufs), {}) ==> (panic <==> didCommit && 0 < old(n) == |bufs|)
      ensures open == old(open) - {t} && outstanding == old(outstanding) - 1
      ensures ended == old(ended) + {old(open[t].id)}
      ensures past.mem == old(past.mem) && past.writes == old(past.writes)
      ensures !didCommit || panic ==> disk == old(disk) && n == old(n)
      ensures committing == panic
      ensures didCommit && !panic ==>
                && ncommit == old(ncommit) + 1 && n == 0
                && Durable(past, ended)
                && past.durable == past.mem && |past.mem| == |disk|
                && forall b :: Home(start, |disk|, b) ==> disk[b] == past.mem[b]
    {
      hide IsCacheRun, LogFree, BgetPanics, OnlyLocked, Home, Durable;
      panic := false;
      didCommit := LeaveOp(t);
      if didCommit {
        panic := Commit(t);
        if !panic {
          FinishCommit();
        }
      }
    }

    /** The first locked section of end_op. */
    method LeaveOp(t: Tid) returns (last: bool)
      requires Valid() && t in open
      requires forall i :: 0 <= i < |bufs| && bufs[i].unlogged ==> bufs[i].owner != t
      modifies this`phase, this`run, this`acts, this`outstanding, this`committing, this`open, this`ended
      ensures Valid() && (last <==> old(outstanding) == 1) && committing == last
      ensures open == old(open) - {t} && outstanding == old(outstanding) - 1
      ensures ended == old(ended) + {old(open[t].id)}
      ensures last ==> phase == if n == 0 then Done else WritingLog(0)
    {
      hide IsCacheRun, Inv, CacheInv, Can, After;
      OpenCounts(t);
      EndIs(Abs(), t);
      ended := ended + {open[t].id};
      open := open - {t};
      outstanding := outstanding - 1;
      last := outstanding == 0;
      if last {
        committing := true;
        phase := if n == 0 then Done else WritingLog(0);
      }
      Record(End(t));
    }

    /** At the end of a commit everything ended is durable. */
    lemma Ended()
      requires Valid() && phase == Done && n == 0
      ensures committing && Durable(past, ended)
    {
      hide CacheInv;
      Invariant();
    }

    /** The last locked section of end_op. */
    method FinishCommit()
      requires Valid() && phase == Done && n == 0
      modifies this`committing, this`ncommit, this`phase, this`run, this`acts
      ensures Valid() && !committing && ncommit == old(ncommit) + 1 && phase == Idle
      ensures Durable(past, ended)
    {
      hide IsCacheRun, CacheInv, Can, After;
      Ended();
      FinishIs(Abs());
      committing := false;
      ncommit := ncommit + 1;
      phase := Idle;
      Record(Finish);
    }
  }
}
