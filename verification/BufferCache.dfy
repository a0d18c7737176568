/** The buffer cache of kernel/bio.c underneath the log.

    Threads get, lock, fill, modify, log and release buffers; the committing
    thread moves blocks through buffers as write_log, write_head and install_trans
    do.  Every step of this machine is one step of Journal, or none: the cache and
    the log together are a block store whose reads return the latest logged
    contents.  A recycled buffer may be any unreferenced one, so the result does
    not depend on the LRU order, which BufferList adds. */
module BufferCache {
  import opened Journal

  const ROOTDEV := 1

  /** struct buf.  `waiting` counts references whose holder is still in
      acquiresleep; `unlogged` is set between a change of data and its log_write. */
  datatype Buf = Buf(
    dev: nat, blockno: nat, valid: bool, refcnt: int, data: Block,
    locked: bool, owner: Tid, waiting: nat, unlogged: bool)

  /** `unpinned` counts the log entries install_trans has already unpinned. */
  datatype Cached = Cached(j: State, bufs: seq<Buf>, unpinned: nat)

  datatype Action =
    | Get(i: nat, b: nat)
    | Lock(i: nat, t: Tid)
    | Fill(i: nat, t: Tid)
    | Modify(i: nat, t: Tid, data: Block)
    | Log(i: nat, t: Tid)
    | Release(i: nat, t: Tid)
    | Begin(t: Tid)
    | End(t: Tid)
    | Copy(t: Tid, to: nat, from: nat)
    | Head(t: Tid, i: nat)
    | Install(t: Tid, lbuf: nat, dbuf: nat)
    | Unpin(i: nat)
    | Clear(t: Tid, i: nat)
    | Finish
    | CallSync(t: Tid)
    | ReturnSync(t: Tid)
    | PowerFail
    | Load(t: Tid, i: nat)

  // ---------------------------------------------------------------- steps

  predicate Holds(c: Cached, t: Tid, i: nat) {
    i < |c.bufs| && c.bufs[i].locked && c.bufs[i].owner == t && c.bufs[i].dev == ROOTDEV
  }

  /** bget's first loop finds the block in slot i. */
  predicate Hit(bufs: seq<Buf>, i: nat, b: nat) {
    i < |bufs| && bufs[i].dev == ROOTDEV && bufs[i].blockno == b
  }

  predicate Miss(bufs: seq<Buf>, b: nat) {
    forall k :: 0 <= k < |bufs| ==> !(bufs[k].dev == ROOTDEV && bufs[k].blockno == b)
  }

  predicate CanGet(c: Cached, i: nat, b: nat) {
    && i < |c.bufs| && b < |c.j.st.disk|
    && (Hit(c.bufs, i, b) || (Miss(c.bufs, b) && c.bufs[i].refcnt == 0))
  }

  /** The section of bget under bcache.lock. */
  function AfterGet(c: Cached, i: nat, b: nat): Cached
    requires CanGet(c, i, b)
  {
    var x := c.bufs[i];
    var x' := if Hit(c.bufs, i, b) then x.(refcnt := x.refcnt + 1, waiting := x.waiting + 1)
              else x.(dev := ROOTDEV, blockno := b, valid := false, refcnt := 1, waiting := 1);
    c.(bufs := c.bufs[i := x'])
  }

  predicate CanLock(c: Cached, i: nat, t: Tid) {
    i < |c.bufs| && c.bufs[i].waiting > 0 && !c.bufs[i].locked
  }

  function AfterLock(c: Cached, i: nat, t: Tid): Cached
    requires CanLock(c, i, t)
  {
    c.(bufs := c.bufs[i := c.bufs[i].(waiting := c.bufs[i].waiting - 1, locked := true, owner := t)])
  }

  predicate CanFill(c: Cached, i: nat, t: Tid) {
    Holds(c, t, i) && !c.bufs[i].valid && c.bufs[i].blockno < |c.j.st.disk|
  }

  function AfterFill(c: Cached, i: nat, t: Tid): Cached
    requires CanFill(c, i, t)
  {
    c.(bufs := c.bufs[i := c.bufs[i].(valid := true, data := c.j.st.disk[c.bufs[i].blockno])])
  }

  predicate CanModify(c: Cached, i: nat, t: Tid, data: Block) {
    && Holds(c, t, i) && c.bufs[i].valid && t in c.j.ops.open
    && Home(c.j.st.start, |c.j.st.disk|, c.bufs[i].blockno) && |data| == BLOCKWORDS
  }

  function AfterModify(c: Cached, i: nat, t: Tid, data: Block): Cached
    requires CanModify(c, i, t, data)
  {
    c.(bufs := c.bufs[i := c.bufs[i].(data := data, unlogged := true)])
  }

  predicate CanLog(c: Cached, i: nat, t: Tid) {
    Holds(c, t, i) && c.bufs[i].valid && CanLogWrite(c.j, t, c.bufs[i].blockno, c.bufs[i].data)
  }

  /** log_write pins the buffer when its block enters the header. */
  function AfterLog(c: Cached, i: nat, t: Tid): Cached
    requires CanLog(c, i, t)
  {
    var x := c.bufs[i];
    var pin := if x.blockno in c.j.st.lh then 0 else 1;
    c.(j := AfterLogWrite(c.j, t, x.blockno, x.data),
       bufs := c.bufs[i := x.(unlogged := false, refcnt := x.refcnt + pin)])
  }

  predicate CanRelease(c: Cached, i: nat, t: Tid) {
    Holds(c, t, i) && !c.bufs[i].unlogged
  }

  function AfterRelease(c: Cached, i: nat, t: Tid): Cached
    requires CanRelease(c, i, t)
  {
    c.(bufs := c.bufs[i := c.bufs[i].(locked := false, refcnt := c.bufs[i].refcnt - 1)])
  }

  /** An operation logs what it changed before it ends. */
  predicate CanEnd(c: Cached, t: Tid) {
    && CanEndOp(c.j, t)
    && forall i :: 0 <= i < |c.bufs| && c.bufs[i].unlogged ==> c.bufs[i].owner != t
  }

  function AfterEnd(c: Cached, t: Tid): Cached
    requires CanEnd(c, t)
  {
    c.(j := AfterEndOp(c.j, t))
  }

  /** One round of write_log: both buffers locked and valid, memmove, bwrite. */
  predicate CanCopy(c: Cached, t: Tid, to: nat, from: nat) {
    var st := c.j.st;
    && Holds(c, t, to) && Holds(c, t, from) && c.bufs[to].valid && c.bufs[from].valid
    && st.phase.WritingLog? && st.phase.tail < |st.lh| && st.start + 1 + st.phase.tail < |st.disk|
    && c.bufs[to].blockno == st.start + 1 + st.phase.tail && c.bufs[from].blockno == st.lh[st.phase.tail]
  }

  function AfterCopy(c: Cached, t: Tid, to: nat, from: nat): Cached
    requires CanCopy(c, t, to, from)
  {
    var st := c.j.st;
    var d := c.bufs[from].data;
    c.(j := c.j.(st := st.(disk := st.disk[c.bufs[to].blockno := d], phase := WritingLog(st.phase.tail + 1))),
       bufs := c.bufs[to := c.bufs[to].(data := d)])
  }

  /** write_head through the buffer of the header block; the commit point. */
  predicate CanHead(c: Cached, t: Tid, i: nat) {
    var st := c.j.st;
    && Holds(c, t, i) && c.bufs[i].valid && c.bufs[i].blockno == st.start < |st.disk|
    && st.phase.WritingLog? && st.phase.tail >= |st.lh| && |st.lh| < |c.bufs[i].data|
  }

  function AfterHead(c: Cached, t: Tid, i: nat): Cached
    requires CanHead(c, t, i)
  {
    var st := c.j.st;
    var d := EncodeHeader(c.bufs[i].data, st.lh);
    c.(j := c.j.(st := st.(disk := st.disk[st.start := d], phase := Installing(0)),
                 past := c.j.past.(marks := c.j.past.marks + [|c.j.past.writes|], durable := c.j.past.mem)),
       bufs := c.bufs[i := c.bufs[i].(data := d)])
  }

  /** One round of install_trans up to its bwrite. */
  predicate CanInstall(c: Cached, t: Tid, lbuf: nat, dbuf: nat) {
    var st := c.j.st;
    && Holds(c, t, lbuf) && Holds(c, t, dbuf) && c.bufs[lbuf].valid && c.bufs[dbuf].valid
    && (st.phase.Installing? || st.phase.Replaying?)
    && st.phase.tail < |st.lh| && st.lh[st.phase.tail] < |st.disk|
    && (st.phase.Installing? ==> c.unpinned == st.phase.tail)
    && c.bufs[lbuf].blockno == st.start + 1 + st.phase.tail && c.bufs[dbuf].blockno == st.lh[st.phase.tail]
  }

  function AfterInstall(c: Cached, t: Tid, lbuf: nat, dbuf: nat): Cached
    requires CanInstall(c, t, lbuf, dbuf)
  {
    var st := c.j.st;
    var d := c.bufs[lbuf].data;
    var next := st.phase.tail + 1;
    c.(j := c.j.(st := st.(disk := st.disk[c.bufs[dbuf].blockno := d],
                           phase := if st.phase.Installing? then Installing(next) else Replaying(next))),
       bufs := c.bufs[dbuf := c.bufs[dbuf].(data := d)])
  }

  predicate CanUnpin(c: Cached, i: nat) {
    var st := c.j.st;
    && i < |c.bufs| && st.phase.Installing? && c.unpinned < st.phase.tail && c.unpinned < |st.lh|
    && Hit(c.bufs, i, st.lh[c.unpinned])
  }

  function AfterUnpin(c: Cached, i: nat): Cached
    requires CanUnpin(c, i)
  {
    c.(unpinned := c.unpinned + 1, bufs := c.bufs[i := c.bufs[i].(refcnt := c.bufs[i].refcnt - 1)])
  }

  /** log.lh.n = 0 and write_head, at the end of commit or of recovery. */
  predicate CanClear(c: Cached, t: Tid, i: nat) {
    var st := c.j.st;
    && Holds(c, t, i) && c.bufs[i].valid && c.bufs[i].blockno == st.start < |st.disk|
    && (st.phase.Installing? || st.phase.Replaying?) && st.phase.tail >= |st.lh|
    && (st.phase.Installing? ==> c.unpinned >= |st.lh|)
    && 0 < |c.bufs[i].data|
  }

  function AfterClear(c: Cached, t: Tid, i: nat): Cached
    requires CanClear(c, t, i)
  {
    var st := c.j.st;
    var d := EncodeHeader(c.bufs[i].data, []);
    c.(j := c.j.(st := st.(lh := [], disk := st.disk[st.start := d],
                           phase := if st.phase.Installing? then Done else Idle)),
       bufs := c.bufs[i := c.bufs[i].(data := d)],
       unpinned := 0)
  }

  /** read_head through the buffer of the header block. */
  predicate CanLoad(c: Cached, t: Tid, i: nat) {
    Holds(c, t, i) && c.bufs[i].valid && c.bufs[i].blockno == c.j.st.start && c.j.st.phase.Booting?
  }

  function AfterLoad(c: Cached, t: Tid, i: nat): Cached
    requires CanLoad(c, t, i)
  {
    c.(j := c.j.(st := c.j.st.(lh := DecodeHeader(c.bufs[i].data), phase := Replaying(0))))
  }

  function FreshBuf(): Buf {
    Buf(0, 0, false, 0, [], false, 0, 0, false)
  }

  /** Memory is lost; the machine restarts with the zeroed buffers of binit. */
  function AfterPowerFail(c: Cached): Cached
    requires CanCrash(c.j)
  {
    Cached(AfterCrash(c.j), seq(|c.bufs|, _ => FreshBuf()), 0)
  }

  predicate Can(c: Cached, a: Action) {
    match a
    case Get(i, b) => CanGet(c, i, b)
    case Lock(i, t) => CanLock(c, i, t)
    case Fill(i, t) => CanFill(c, i, t)
    case Modify(i, t, data) => CanModify(c, i, t, data)
    case Log(i, t) => CanLog(c, i, t)
    case Release(i, t) => CanRelease(c, i, t)
    case Begin(t) => CanBeginOp(c.j, t)
    case End(t) => CanEnd(c, t)
    case Copy(t, to, from) => CanCopy(c, t, to, from)
    case Head(t, i) => CanHead(c, t, i)
    case Install(t, lbuf, dbuf) => CanInstall(c, t, lbuf, dbuf)
    case Unpin(i) => CanUnpin(c, i)
    case Clear(t, i) => CanClear(c, t, i)
    case Finish => CanEndCommit(c.j)
    case CallSync(t) => CanSyncCall(c.j, t)
    case ReturnSync(t) => CanSyncReturn(c.j, t)
    case PowerFail => CanCrash(c.j)
    case Load(t, i) => CanLoad(c, t, i)
  }

  function After(c: Cached, a: Action): Cached
    requires Can(c, a)
  {
    match a
    case Get(i, b) => AfterGet(c, i, b)
    case Lock(i, t) => AfterLock(c, i, t)
    case Fill(i, t) => AfterFill(c, i, t)
    case Modify(i, t, data) => AfterModify(c, i, t, data)
    case Log(i, t) => AfterLog(c, i, t)
    case Release(i, t) => AfterRelease(c, i, t)
    case Begin(t) => c.(j := AfterBeginOp(c.j, t))
    case End(t) => AfterEnd(c, t)
    case Copy(t, to, from) => AfterCopy(c, t, to, from)
    case Head(t, i) => AfterHead(c, t, i)
    case Install(t, lbuf, dbuf) => AfterInstall(c, t, lbuf, dbuf)
    case Unpin(i) => AfterUnpin(c, i)
    case Clear(t, i) => AfterClear(c, t, i)
    case Finish => c.(j := AfterEndCommit(c.j))
    case CallSync(t) => c.(j := AfterSyncCall(c.j, t))
    case ReturnSync(t) => c.(j := AfterSyncReturn(c.j, t))
    case PowerFail => AfterPowerFail(c)
    case Load(t, i) => AfterLoad(c, t, i)
  }

  // ---------------------------------------------------------------- invariant

  /** The log entries whose buffer holds a pin. */
  function Pinned(c: Cached): seq<nat> {
    if Recovering(c.j) || c.unpinned > |c.j.st.lh| then [] else c.j.st.lh[c.unpinned..]
  }

  /** What a bread of block b must return. */
  function Current(j: State, b: nat): Block
    requires b < |j.st.disk| && |j.past.mem| == |j.st.disk|
  {
    if Home(j.st.start, |j.st.disk|, b) && !Recovering(j) then j.past.mem[b] else j.st.disk[b]
  }

  /** At most one buffer per (nonzero device, block). */
  ghost predicate Unique(bufs: seq<Buf>) {
    forall i, k :: 0 <= i < k < |bufs| && bufs[i].dev == ROOTDEV && bufs[k].dev == ROOTDEV ==>
      bufs[i].blockno != bufs[k].blockno
  }

  function Bit(p: bool): int {
    if p then 1 else 0
  }

  /** refcnt is exact: waiters, the lock holder, and one pin per log entry. */
  ghost predicate RefsExact(bufs: seq<Buf>, pinned: seq<nat>) {
    forall i :: 0 <= i < |bufs| ==>
      var x := bufs[i];
      x.refcnt == x.waiting + Bit(x.locked) + Bit(x.dev == ROOTDEV && x.blockno in pinned)
  }

  ghost predicate InCache(bufs: seq<Buf>, b: nat) {
    exists i :: 0 <= i < |bufs| && Hit(bufs, i, b) && bufs[i].valid
  }

  ghost predicate PinnedCached(bufs: seq<Buf>, pinned: seq<nat>) {
    forall b :: b in pinned ==> InCache(bufs, b)
  }

  ghost predicate BufOk(x: Buf, j: State)
    requires |j.past.mem| == |j.st.disk|
  {
    && (x.dev == 0 || x.dev == ROOTDEV)
    && (x.dev == 0 ==> !x.valid && !x.locked && x.waiting == 0)
    && (x.dev == ROOTDEV ==> x.blockno < |j.st.disk|)
    && (x.valid ==> |x.data| == BLOCKWORDS)
    && (x.valid && !x.unlogged ==> x.data == Current(j, x.blockno))
    && (x.unlogged ==> x.dev == ROOTDEV && x.locked && x.valid && x.owner in j.ops.open
                       && Home(j.st.start, |j.st.disk|, x.blockno))
  }

  ghost predicate Coherent(bufs: seq<Buf>, j: State)
    requires |j.past.mem| == |j.st.disk|
  {
    forall i :: 0 <= i < |bufs| ==> BufOk(bufs[i], j)
  }

  ghost predicate UnpinProgress(c: Cached) {
    if c.j.st.phase.Installing? then c.unpinned <= c.j.st.phase.tail <= c.unpinned + 1 && c.unpinned <= |c.j.st.lh|
    else c.unpinned == 0
  }

  ghost predicate CacheInv(c: Cached) {
    && Inv(c.j)
    && UnpinProgress(c)
    && Unique(c.bufs)
    && RefsExact(c.bufs, Pinned(c))
    && PinnedCached(c.bufs, Pinned(c))
    && Coherent(c.bufs, c.j)
  }

  ghost predicate CacheInit(c: Cached) {
    Init(c.j) && c.unpinned == 0 && forall i :: 0 <= i < |c.bufs| ==> c.bufs[i] == FreshBuf()
  }

  // ---------------------------------------------------------------- refinement

  /** The Journal step an action stands for, if any. */
  function JournalStep(c: Cached, a: Action): seq<Step>
    requires Can(c, a)
  {
    match a
    case Log(i, t) => [LogWrite(t, c.bufs[i].blockno, c.bufs[i].data)]
    case Begin(t) => [BeginOp(t)]
    case End(t) => [EndOp(t)]
    case Copy(_, _, _) => [CopyToLog]
    case Head(_, _) => [WriteHead]
    case Install(_, _, _) => if c.j.st.phase.Installing? then [InstallBlock] else [ReplayBlock]
    case Clear(_, _) => if c.j.st.phase.Installing? then [ClearHead] else [ReplayClear]
    case Finish => [EndCommit]
    case CallSync(t) => [SyncCall(t)]
    case ReturnSync(t) => [SyncReturn(t)]
    case PowerFail => [Crash]
    case Load(_, _) => [ReadHead]
    case _ => []
  }

  /** The facts about a journal state that the cache relies on. */
  lemma JournalFacts(j: State)
    requires Inv(j)
    ensures Shape(j.st) && Blocks(j.past.mem, |j.st.disk|) && |j.past.durable| == |j.st.disk|
    ensures j.ops.open != map[] ==> j.st.phase.Idle?
    ensures j.st.phase.Idle? || j.st.phase.Done? || j.st.phase.Booting? || j.st.phase.Installing?
            || j.st.phase.Replaying? || j.st.phase.WritingLog?
    ensures j.st.phase.Done? || j.st.phase.Booting? ==> j.st.lh == []
    ensures j.st.phase.Idle? && j.ops.open == map[] ==> j.st.lh == []
  {
  }

  /** A home block that is not pinned is up to date on the disk. */
  lemma UnpinnedOnDisk(c: Cached, b: nat)
    requires Inv(c.j) && UnpinProgress(c) && !Recovering(c.j)
    requires Home(c.j.st.start, |c.j.st.disk|, b) && b !in Pinned(c)
    ensures |c.j.past.mem| == |c.j.st.disk| && c.j.past.mem[b] == c.j.st.disk[b]
  {
    var st := c.j.st;
    if b in st.lh {
      var i :| 0 <= i < |st.lh| && st.lh[i] == b;
      AllMarked(c.j.past, |st.disk|);
    }
  }

  lemma GetKept(c: Cached, i: nat, b: nat)
    requires CacheInv(c) && CanGet(c, i, b)
    ensures CacheInv(AfterGet(c, i, b))
  {
    hide Inv;
    JournalFacts(c.j);
    var c' := AfterGet(c, i, b);
    assert b in Pinned(c) ==> InCache(c.bufs, b);
    assert BufOk(c.bufs[i], c.j);
    forall x | x in Pinned(c')
      ensures InCache(c'.bufs, x)
    {
      assert InCache(c.bufs, x);
      var k :| 0 <= k < |c.bufs| && Hit(c.bufs, k, x) && c.bufs[k].valid;
      assert Hit(c'.bufs, k, x) && c'.bufs[k].valid;
    }
  }

  lemma LockKept(c: Cached, i: nat, t: Tid)
    requires CacheInv(c) && CanLock(c, i, t)
    ensures CacheInv(AfterLock(c, i, t))
  {
    hide Inv;
    JournalFacts(c.j);
    PinnedSame(c.bufs, AfterLock(c, i, t).bufs, Pinned(c));
  }

  /** Slots keep their block and stay valid: pinned blocks stay cached. */
  lemma PinnedSame(bufs: seq<Buf>, bufs': seq<Buf>, pinned: seq<nat>)
    requires PinnedCached(bufs, pinned) && |bufs'| == |bufs|
    requires forall k :: 0 <= k < |bufs| && bufs[k].valid ==>
               bufs'[k].dev == bufs[k].dev && bufs'[k].blockno == bufs[k].blockno && bufs'[k].valid
    ensures PinnedCached(bufs', pinned)
  {
    forall b | b in pinned
      ensures InCache(bufs', b)
    {
      assert InCache(bufs, b);
      var k :| 0 <= k < |bufs| && Hit(bufs, k, b) && bufs[k].valid;
      assert Hit(bufs', k, b) && bufs'[k].valid;
    }
  }

  lemma FillKept(c: Cached, i: nat, t: Tid)
    requires CacheInv(c) && CanFill(c, i, t)
    ensures CacheInv(AfterFill(c, i, t))
  {
    hide Inv;
    JournalFacts(c.j);
    PinnedSame(c.bufs, AfterFill(c, i, t).bufs, Pinned(c));
    var b := c.bufs[i].blockno;
    if Home(c.j.st.start, |c.j.st.disk|, b) && !Recovering(c.j) {
      assert b in Pinned(c) ==> InCache(c.bufs, b);
      UnpinnedOnDisk(c, b);
    }
  }

  lemma ModifyKept(c: Cached, i: nat, t: Tid, data: Block)
    requires CacheInv(c) && CanModify(c, i, t, data)
    ensures CacheInv(AfterModify(c, i, t, data))
  {
    hide Inv;
    JournalFacts(c.j);
    PinnedSame(c.bufs, AfterModify(c, i, t, data).bufs, Pinned(c));
  }

  /** Only block b's contents change when it is logged. */
  lemma LogCoherent(bufs: seq<Buf>, j: State, i: nat, t: Tid)
    requires Inv(j) && Unique(bufs) && Coherent(bufs, j)
    requires i < |bufs| && bufs[i].dev == ROOTDEV && bufs[i].locked && bufs[i].valid
    requires CanLogWrite(j, t, bufs[i].blockno, bufs[i].data)
    ensures var j' := AfterLogWrite(j, t, bufs[i].blockno, bufs[i].data);
            && |j'.past.mem| == |j'.st.disk|
            && forall r :: Coherent(bufs[i := bufs[i].(unlogged := false, refcnt := r)], j')
  {
    hide Inv;
    JournalFacts(j);
  }

  lemma LogRefs(bufs: seq<Buf>, lh: seq<nat>, i: nat)
    requires Unique(bufs) && RefsExact(bufs, lh) && PinnedCached(bufs, lh)
    requires i < |bufs| && bufs[i].dev == ROOTDEV && bufs[i].valid
    ensures var x := bufs[i];
            var bufs' := bufs[i := x.(unlogged := false, refcnt := x.refcnt + Bit(x.blockno !in lh))];
            && Unique(bufs') && RefsExact(bufs', Absorb(lh, x.blockno)) && PinnedCached(bufs', Absorb(lh, x.blockno))
  {
    var x := bufs[i];
    var bufs' := bufs[i := x.(unlogged := false, refcnt := x.refcnt + Bit(x.blockno !in lh))];
    PinnedSame(bufs, bufs', lh);
    assert Hit(bufs', i, x.blockno);
    assert InCache(bufs', x.blockno);
  }

  lemma LogKept(c: Cached, i: nat, t: Tid)
    requires CacheInv(c) && CanLog(c, i, t)
    ensures CacheInv(AfterLog(c, i, t))
  {
    hide Inv, Coherent, Unique, RefsExact, PinnedCached;
    JournalFacts(c.j);
    var c' := AfterLog(c, i, t);
    LogWriteKept(c.j, t, c.bufs[i].blockno, c.bufs[i].data);
    LogCoherent(c.bufs, c.j, i, t);
    LogRefs(c.bufs, c.j.st.lh, i);
    assert c.j.st.lh[0..] == c.j.st.lh && c'.j.st.lh[0..] == c'.j.st.lh;
  }

  lemma ReleaseKept(c: Cached, i: nat, t: Tid)
    requires CacheInv(c) && CanRelease(c, i, t)
    ensures CacheInv(AfterRelease(c, i, t))
  {
    hide Inv;
    JournalFacts(c.j);
    PinnedSame(c.bufs, AfterRelease(c, i, t).bufs, Pinned(c));
  }

  /** Opening, ending and syncing leave the buffers and what they must hold alone. */
  lemma BeginKept(c: Cached, t: Tid)
    requires CacheInv(c) && CanBeginOp(c.j, t)
    ensures CacheInv(c.(j := AfterBeginOp(c.j, t)))
  {
    hide Inv;
    BeginOpKept(c.j, t);
    JournalFacts(c.j);
  }

  lemma EndKept(c: Cached, t: Tid)
    requires CacheInv(c) && CanEnd(c, t)
    ensures CacheInv(AfterEnd(c, t))
  {
    hide Inv;
    EndOpKept(c.j, t);
    JournalFacts(c.j);
    var c' := AfterEnd(c, t);
    assert Pinned(c') == Pinned(c);
    forall i | 0 <= i < |c.bufs|
      ensures BufOk(c'.bufs[i], c'.j)
    {
      assert BufOk(c.bufs[i], c.j);
    }
  }

  /** The buffers read for the committer hold what Journal says it copies. */
  lemma CopyRefines(c: Cached, t: Tid, to: nat, from: nat)
    requires CacheInv(c) && CanCopy(c, t, to, from)
    ensures CanCopyToLog(c.j) && AfterCopy(c, t, to, from).j == AfterCopyToLog(c.j)
  {
    hide Inv;
    JournalFacts(c.j);
    assert BufOk(c.bufs[from], c.j);
    assert Home(c.j.st.start, |c.j.st.disk|, c.j.st.lh[c.j.st.phase.tail]);
  }

  /** A disk write through buffer `i` that keeps buffer and disk equal, to a block
      outside the file system or to one whose new contents are the current ones. */
  lemma WriteThrough(bufs: seq<Buf>, j: State, j': State, i: nat, d: Block)
    requires |j.past.mem| == |j.st.disk| && Unique(bufs) && Coherent(bufs, j)
    requires i < |bufs| && bufs[i].dev == ROOTDEV && bufs[i].valid && !bufs[i].unlogged
    requires j.ops.open == map[] && j'.ops == j.ops && j'.past.mem == j.past.mem && j'.st.start == j.st.start
    requires |d| == BLOCKWORDS && j'.st.disk == j.st.disk[bufs[i].blockno := d]
    requires Recovering(j') ==> Recovering(j)
    requires forall b :: Recovering(j) && !Recovering(j') && Home(j.st.start, |j.st.disk|, b) ==> j.past.mem[b] == j'.st.disk[b]
    requires Home(j.st.start, |j.st.disk|, bufs[i].blockno) && !Recovering(j') ==> d == j.past.mem[bufs[i].blockno]
    ensures Coherent(bufs[i := bufs[i].(data := d)], j')
  {
    var bufs' := bufs[i := bufs[i].(data := d)];
    forall k | 0 <= k < |bufs|
      ensures BufOk(bufs'[k], j')
    {
      assert BufOk(bufs[k], j);
    }
  }

  lemma CopyKept(c: Cached, t: Tid, to: nat, from: nat)
    requires CacheInv(c) && CanCopy(c, t, to, from)
    ensures CacheInv(AfterCopy(c, t, to, from))
  {
    hide Inv;
    JournalFacts(c.j);
    CopyRefines(c, t, to, from);
    CopyToLogKept(c.j);
    var c' := AfterCopy(c, t, to, from);
    CommitIsAlone(c.j);
    assert BufOk(c.bufs[to], c.j) && BufOk(c.bufs[from], c.j);
    WriteThrough(c.bufs, c.j, c'.j, to, c.bufs[from].data);
    PinnedSame(c.bufs, c'.bufs, Pinned(c));
  }

  lemma CommitIsAlone(j: State)
    requires Inv(j)
    ensures !j.st.phase.Idle? ==> j.ops.open == map[]
  {
  }

  lemma HeadRefines(c: Cached, t: Tid, i: nat)
    requires CacheInv(c) && CanHead(c, t, i)
    ensures CanWriteHead(c.j) && AfterHead(c, t, i).j == AfterWriteHead(c.j)
  {
    hide Inv;
    JournalFacts(c.j);
    CommitIsAlone(c.j);
    assert BufOk(c.bufs[i], c.j);
  }

  lemma HeadKept(c: Cached, t: Tid, i: nat)
    requires CacheInv(c) && CanHead(c, t, i)
    ensures CacheInv(AfterHead(c, t, i))
  {
    hide Inv;
    JournalFacts(c.j);
    HeadRefines(c, t, i);
    WriteHeadKept(c.j);
    CommitIsAlone(c.j);
    var c' := AfterHead(c, t, i);
    assert BufOk(c.bufs[i], c.j);
    WriteThrough(c.bufs, c.j, c'.j, i, c'.bufs[i].data);
    PinnedSame(c.bufs, c'.bufs, Pinned(c));
  }

  lemma InstallRefines(c: Cached, t: Tid, lbuf: nat, dbuf: nat)
    requires CacheInv(c) && CanInstall(c, t, lbuf, dbuf)
    ensures c.j.st.phase.Installing? ==> CanInstallBlock(c.j) && AfterInstall(c, t, lbuf, dbuf).j == AfterInstallBlock(c.j)
    ensures c.j.st.phase.Replaying? ==> CanReplayBlock(c.j) && AfterInstall(c, t, lbuf, dbuf).j == AfterReplayBlock(c.j)
  {
    hide Inv, Pinned, Distinct;
    JournalFacts(c.j);
    CommitIsAlone(c.j);
    assert BufOk(c.bufs[lbuf], c.j);
  }

  /** What install_trans puts home is what the file system last logged there. */
  lemma InstallContents(j: State)
    requires Inv(j) && (j.st.phase.Installing? || j.st.phase.Replaying?) && j.st.phase.tail < |j.st.lh|
    ensures j.past.mem == j.past.durable
    ensures j.st.lh[j.st.phase.tail] < |j.past.mem| && j.st.start + 1 + j.st.phase.tail < |j.st.disk|
    ensures j.st.disk[j.st.start + 1 + j.st.phase.tail] == j.past.mem[j.st.lh[j.st.phase.tail]]
  {
    hide Identities, Syncs, Space, Counters;
    InstallTarget(j.st, j.past);
    AllMarked(j.past, |j.st.disk|);
  }

  lemma InstallKept(c: Cached, t: Tid, lbuf: nat, dbuf: nat)
    requires CacheInv(c) && CanInstall(c, t, lbuf, dbuf)
    ensures CacheInv(AfterInstall(c, t, lbuf, dbuf))
  {
    hide Inv;
    JournalFacts(c.j);
    InstallRefines(c, t, lbuf, dbuf);
    if c.j.st.phase.Installing? { InstallBlockKept(c.j); } else { ReplayBlockKept(c.j); }
    CommitIsAlone(c.j);
    InstallContents(c.j);
    var c' := AfterInstall(c, t, lbuf, dbuf);
    assert BufOk(c.bufs[lbuf], c.j) && BufOk(c.bufs[dbuf], c.j);
    WriteThrough(c.bufs, c.j, c'.j, dbuf, c.bufs[lbuf].data);
    PinnedSame(c.bufs, c'.bufs, Pinned(c));
  }

  lemma UnpinKept(c: Cached, i: nat)
    requires CacheInv(c) && CanUnpin(c, i)
    ensures CacheInv(AfterUnpin(c, i))
  {
    hide Inv;
    JournalFacts(c.j);
    var c' := AfterUnpin(c, i);
    var lh := c.j.st.lh;
    assert Pinned(c) == [lh[c.unpinned]] + Pinned(c');
    assert forall b :: b in Pinned(c') ==> b in Pinned(c);
    PinnedSame(c.bufs, c'.bufs, Pinned(c));
    assert lh[c.unpinned] !in Pinned(c');
    assert forall k :: 0 <= k < |c.bufs| && k != i && c.bufs[k].dev == ROOTDEV ==> c.bufs[k].blockno != lh[c.unpinned];
  }

  lemma ClearRefines(c: Cached, t: Tid, i: nat)
    requires CacheInv(c) && CanClear(c, t, i)
    ensures c.j.st.phase.Installing? ==> CanClearHead(c.j) && AfterClear(c, t, i).j == AfterClearHead(c.j)
    ensures c.j.st.phase.Replaying? ==> CanReplayClear(c.j) && AfterClear(c, t, i).j == AfterReplayClear(c.j)
  {
    hide Inv;
    JournalFacts(c.j);
    CommitIsAlone(c.j);
    assert BufOk(c.bufs[i], c.j);
  }

  /** Once everything is installed the disk is the latest image. */
  lemma ClearContents(j: State)
    requires Inv(j) && (j.st.phase.Installing? || j.st.phase.Replaying?) && j.st.phase.tail >= |j.st.lh|
    ensures |j.past.mem| == |j.st.disk|
    ensures forall b :: Home(j.st.start, |j.st.disk|, b) ==> j.past.mem[b] == j.st.disk[b]
  {
    AllMarked(j.past, |j.st.disk|);
    forall b | Home(j.st.start, |j.st.disk|, b)
      ensures j.past.mem[b] == j.st.disk[b]
    {
      if b in j.st.lh {
        var i :| 0 <= i < |j.st.lh| && j.st.lh[i] == b;
      }
    }
  }

  lemma ClearKept(c: Cached, t: Tid, i: nat)
    requires CacheInv(c) && CanClear(c, t, i)
    ensures CacheInv(AfterClear(c, t, i))
  {
    hide Inv;
    JournalFacts(c.j);
    ClearRefines(c, t, i);
    if c.j.st.phase.Installing? { ClearHeadKept(c.j); } else { ReplayClearKept(c.j); }
    CommitIsAlone(c.j);
    ClearContents(c.j);
    var c' := AfterClear(c, t, i);
    assert BufOk(c.bufs[i], c.j);
    WriteThrough(c.bufs, c.j, c'.j, i, c'.bufs[i].data);
    assert Pinned(c) == [] && Pinned(c') == [];
  }

  lemma FinishKept(c: Cached)
    requires CacheInv(c) && CanEndCommit(c.j)
    ensures CacheInv(c.(j := AfterEndCommit(c.j)))
  {
    hide Inv;
    EndCommitKept(c.j);
    JournalFacts(c.j);
    CommitIsAlone(c.j);
    var c' := c.(j := AfterEndCommit(c.j));
    assert Pinned(c') == Pinned(c);
    forall i | 0 <= i < |c.bufs|
      ensures BufOk(c'.bufs[i], c'.j)
    {
      assert BufOk(c.bufs[i], c.j);
    }
  }

  lemma SyncKept(c: Cached, j': State)
    requires CacheInv(c) && Inv(j') && j'.st == c.j.st && j'.past == c.j.past && j'.ops.open == c.j.ops.open
    ensures CacheInv(c.(j := j'))
  {
    hide Inv;
    JournalFacts(c.j);
    var c' := c.(j := j');
    assert Pinned(c') == Pinned(c);
    forall i | 0 <= i < |c.bufs|
      ensures BufOk(c'.bufs[i], c'.j)
    {
      assert BufOk(c.bufs[i], c.j);
    }
  }

  lemma PowerFailKept(c: Cached)
    requires CacheInv(c) && CanCrash(c.j)
    ensures CacheInv(AfterPowerFail(c))
  {
    hide Inv;
    CrashKept(c.j);
    JournalFacts(AfterCrash(c.j));
  }

  lemma LoadRefines(c: Cached, t: Tid, i: nat)
    requires CacheInv(c) && CanLoad(c, t, i)
    ensures CanReadHead(c.j) && AfterLoad(c, t, i).j == AfterReadHead(c.j)
  {
    hide Inv;
    JournalFacts(c.j);
    CommitIsAlone(c.j);
    assert BufOk(c.bufs[i], c.j);
  }

  lemma LoadKept(c: Cached, t: Tid, i: nat)
    requires CacheInv(c) && CanLoad(c, t, i)
    ensures CacheInv(AfterLoad(c, t, i))
  {
    hide Inv;
    JournalFacts(c.j);
    LoadRefines(c, t, i);
    ReadHeadKept(c.j);
    CommitIsAlone(c.j);
    var c' := AfterLoad(c, t, i);
    forall k | 0 <= k < |c.bufs|
      ensures BufOk(c'.bufs[k], c'.j)
    {
      assert BufOk(c.bufs[k], c.j);
    }
  }

  lemma CacheKept(c: Cached, a: Action)
    requires CacheInv(c) && Can(c, a)
    ensures CacheInv(After(c, a))
  {
    hide CacheInv;
    match a
    case Get(i, b) => GetKept(c, i, b);
    case Lock(i, t) => LockKept(c, i, t);
    case Fill(i, t) => FillKept(c, i, t);
    case Modify(i, t, data) => ModifyKept(c, i, t, data);
    case Log(i, t) => LogKept(c, i, t);
    case Release(i, t) => ReleaseKept(c, i, t);
    case Begin(t) => BeginKept(c, t);
    case End(t) => EndKept(c, t);
    case Copy(t, to, from) => CopyKept(c, t, to, from);
    case Head(t, i) => HeadKept(c, t, i);
    case Install(t, lbuf, dbuf) => InstallKept(c, t, lbuf, dbuf);
    case Unpin(i) => UnpinKept(c, i);
    case Clear(t, i) => ClearKept(c, t, i);
    case Finish => FinishKept(c);
    case CallSync(t) => JournalInv(c); SyncCallKept(c.j, t); SyncKept(c, AfterSyncCall(c.j, t));
    case ReturnSync(t) => JournalInv(c); SyncReturnKept(c.j, t); SyncKept(c, AfterSyncReturn(c.j, t));
    case PowerFail => PowerFailKept(c);
    case Load(t, i) => LoadKept(c, t, i);
  }

  lemma JournalInv(c: Cached)
    requires CacheInv(c)
    ensures Inv(c.j)
  {
  }

  predicate Simulates(j: State, j': State, js: seq<Step>) {
    if js == [] then j' == j else Enabled(j, js[0]) && j' == Do(j, js[0])
  }

  /** Actions that move a block between buffers and disk for the log. */
  predicate Transfers(a: Action) {
    a.Copy? || a.Head? || a.Install? || a.Clear? || a.Load?
  }

  lemma DirectRefines(c: Cached, a: Action)
    requires Can(c, a) && !Transfers(a)
    ensures Simulates(c.j, After(c, a).j, JournalStep(c, a))
  {
    hide AfterLogWrite, AfterBeginOp, AfterEndOp, AfterEndCommit, AfterSyncCall, AfterSyncReturn, AfterCrash;
    hide CanLogWrite, CanBeginOp, CanEndOp, CanEndCommit, CanSyncCall, CanSyncReturn, CanCrash;
  }

  lemma TransferRefines(c: Cached, a: Action)
    requires CacheInv(c) && Can(c, a) && Transfers(a)
    ensures Simulates(c.j, After(c, a).j, JournalStep(c, a))
  {
    hide CacheInv, AfterCopyToLog, AfterWriteHead, AfterInstallBlock, AfterClearHead, AfterReadHead, AfterReplayBlock, AfterReplayClear;
    hide AfterCopy, AfterHead, AfterInstall, AfterClear, AfterLoad;
    match a
    case Copy(t, to, from) => CopyRefines(c, t, to, from);
    case Head(t, i) => HeadRefines(c, t, i);
    case Install(t, lbuf, dbuf) => InstallRefines(c, t, lbuf, dbuf);
    case Clear(t, i) => ClearRefines(c, t, i);
    case Load(t, i) => LoadRefines(c, t, i);
  }

  /** Each action is the Journal step it stands for, or leaves the journal alone. */
  lemma ActionRefines(c: Cached, a: Action)
    requires CacheInv(c) && Can(c, a)
    ensures Simulates(c.j, After(c, a).j, JournalStep(c, a))
  {
    hide CacheInv, Simulates, Can, After, JournalStep;
    if Transfers(a) {
      TransferRefines(c, a);
    } else {
      DirectRefines(c, a);
    }
  }

  // ---------------------------------------------------------------- whole runs

  ghost predicate IsCacheRun(run: seq<Cached>, acts: seq<Action>) {
    && |run| == |acts| + 1
    && CacheInit(run[0])
    && forall i {:trigger acts[i]} :: 0 <= i < |acts| ==> Can(run[i], acts[i]) && run[i + 1] == After(run[i], acts[i])
  }

  lemma CacheInitInv(c: Cached)
    requires CacheInit(c)
    ensures CacheInv(c)
  {
    hide Inv;
    InitInv(c.j);
    JournalFacts(c.j);
  }

  lemma {:induction false} CacheRunInv(run: seq<Cached>, acts: seq<Action>, k: nat)
    requires IsCacheRun(run, acts) && k < |run|
    ensures CacheInv(run[k])
  {
    hide CacheInv, Can, After;
    if k == 0 {
      CacheInitInv(run[0]);
    } else {
      CacheRunInv(run, acts, k - 1);
      CacheKept(run[k - 1], acts[k - 1]);
    }
  }

  /** Refinement: every run of cache and log is, seen through the journal, a run of
      Journal; so all of Journal's theorems about runs hold of it. */
  lemma {:induction false} CacheRefinesJournal(run: seq<Cached>, acts: seq<Action>, k: nat)
    returns (jrun: seq<State>, jsteps: seq<Step>)
    requires IsCacheRun(run, acts) && k < |run|
    ensures IsRun(jrun, jsteps) && jrun[|jrun| - 1] == run[k].j
  {
    hide CacheInv, Can, After, Enabled, Do, JournalStep;
    if k == 0 {
      jrun, jsteps := [run[0].j], [];
    } else {
      jrun, jsteps := CacheRefinesJournal(run, acts, k - 1);
      CacheRunInv(run, acts, k - 1);
      ActionRefines(run[k - 1], acts[k - 1]);
      var js := JournalStep(run[k - 1], acts[k - 1]);
      if js != [] {
        jrun, jsteps := jrun + [run[k].j], jsteps + [js[0]];
      }
    }
  }

  /** What bread(b) delivers: the cached data if the block is cached and valid,
      otherwise what it reads from the disk. */
  ghost predicate BreadReturns(c: Cached, b: nat, d: Block) {
    || (exists i :: 0 <= i < |c.bufs| && Hit(c.bufs, i, b) && c.bufs[i].valid && !c.bufs[i].unlogged && c.bufs[i].data == d)
    || (!InCache(c.bufs, b) && b < |c.j.st.disk| && c.j.st.disk[b] == d)
  }

  /** Reads see the latest logged contents, whatever was evicted, committed,
      installed or lost in a crash before. */
  lemma ReadsLatest(run: seq<Cached>, acts: seq<Action>, k: nat, b: nat, d: Block)
    requires IsCacheRun(run, acts) && k < |run|
    requires !Recovering(run[k].j) && Home(run[k].j.st.start, |run[k].j.st.disk|, b)
    requires BreadReturns(run[k], b, d)
    ensures var p := run[k].j.past;
            p.mem == Replay(p.init, p.writes) && b < |p.mem| && d == p.mem[b]
  {
    CacheRunInv(run, acts, k);
    var c := run[k];
    if !InCache(c.bufs, b) {
      UnpinnedOnDisk(c, b);
    } else {
      var i :| 0 <= i < |c.bufs| && Hit(c.bufs, i, b) && c.bufs[i].valid && !c.bufs[i].unlogged && c.bufs[i].data == d;
      assert BufOk(c.bufs[i], c.j);
    }
  }

  /** Pins are exactly the log entries: a buffer's references beyond its waiters
      and its lock holder are one if its block is in the uninstalled part of the
      log and none otherwise; with no operation and an empty log nothing is pinned. */
  lemma PinsMatchLog(run: seq<Cached>, acts: seq<Action>, k: nat, i: nat)
    requires IsCacheRun(run, acts) && k < |run| && i < |run[k].bufs|
    ensures var x := run[k].bufs[i];
            x.refcnt - x.waiting - Bit(x.locked) == Bit(x.dev == ROOTDEV && x.blockno in Pinned(run[k]))
    ensures forall m :: 0 <= m < |run[k].bufs| && m != i && run[k].bufs[i].dev == run[k].bufs[m].dev == ROOTDEV ==>
              run[k].bufs[m].blockno != run[k].bufs[i].blockno
    ensures !Recovering(run[k].j) && !run[k].j.st.phase.Installing? ==> Pinned(run[k]) == run[k].j.st.lh
    ensures run[k].j.st.phase.Idle? && run[k].j.ops.outstanding == 0 ==> Pinned(run[k]) == []
  {
    CacheRunInv(run, acts, k);
    JournalFacts(run[k].j);
  }

  /** bget's panic: the block is not cached and every buffer is referenced. */
  predicate BgetPanics(bufs: seq<Buf>, b: nat) {
    Miss(bufs, b) && forall i :: 0 <= i < |bufs| ==> bufs[i].refcnt != 0
  }
}
