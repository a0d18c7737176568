/** The write-ahead log of kernel/log.c as a state machine over block writes.

    One step is one section run under log.lock, one block write to the disk, or a
    crash.  A crash may fall between any two block writes, also during recovery.
    Besides the kernel's own variables a state carries its history: every
    log_write so far, and the points of that history at which a commit record
    reached the disk.  The buffer cache of kernel/bio.c is added in BufferCache;
    here the latest contents of a logged block are simply known. */
module Journal {

  const MAXOPBLOCKS := 10
  const LOGBLOCKS := MAXOPBLOCKS * 3
  /** A disk block, seen as BSIZE / sizeof(uint) words. */
  const BLOCKWORDS := 256

  type Word = nat
  type Block = seq<Word>
  type Image = seq<Block>
  type Tid = nat

  /** One log_write: operation `op` gave block `blk` the contents `data`. */
  datatype Write = Write(op: nat, blk: nat, data: Block)

  /** An operation between begin_op and end_op, with the blocks it has logged. */
  datatype Op = Op(id: nat, logged: set<nat>)

  /** A sys_sync call that is still waiting, with the operations ended before it. */
  datatype Sync = Sync(target: nat, before: set<nat>)

  /** Where the committing (or recovering) thread stands.  `tail` is the loop
      variable of write_log and install_trans. */
  datatype Phase =
    | Idle
    | WritingLog(tail: nat)
    | Installing(tail: nat)
    | Done
    | Booting
    | Replaying(tail: nat)

  /** The disk, the in-memory header log.lh and the progress of a commit. */
  datatype Store = Store(start: nat, disk: Image, lh: seq<nat>, phase: Phase)

  /** The counters of struct log and the operations and syncs behind them. */
  datatype Ops = Ops(
    open: map<Tid, Op>,
    outstanding: int,
    committing: bool,
    ncommit: nat,
    nextOp: nat,
    ended: set<nat>,
    syncs: map<Tid, Sync>)

  /** What has been logged: `mem` is the latest logical contents of the disk and
      `durable` the contents as of the last commit record, marks[|marks| - 1]. */
  datatype Past = Past(init: Image, writes: seq<Write>, marks: seq<nat>, mem: Image, durable: Image)

  datatype State = State(st: Store, ops: Ops, past: Past)

  datatype Step =
    | BeginOp(t: Tid)
    | LogWrite(t: Tid, blk: nat, data: Block)
    | EndOp(t: Tid)
    | CopyToLog
    | WriteHead
    | InstallBlock
    | ClearHead
    | EndCommit
    | SyncCall(t: Tid)
    | SyncReturn(t: Tid)
    | Crash
    | ReadHead
    | ReplayBlock
    | ReplayClear

  // ---------------------------------------------------------------- block format

  /** Block numbers that belong to the file system, not to the log. */
  predicate Home(start: nat, size: nat, b: int) {
    0 <= b < size && !(start <= b <= start + LOGBLOCKS)
  }

  /** read_head: the block list a header block holds. */
  function DecodeHeader(blk: Block): seq<nat> {
    if blk != [] && blk[0] < |blk| then blk[1 .. 1 + blk[0]] else []
  }

  /** write_head overwrites the count and the entries in use, nothing else. */
  function EncodeHeader(blk: Block, l: seq<nat>): (r: Block)
    requires |l| < |blk|
    ensures |r| == |blk| && r[0] == |l|
    ensures DecodeHeader(r) == l
    ensures r[1 + |l| ..] == blk[1 + |l| ..]
  {
    [|l|] + l + blk[1 + |l| ..]
  }

  /** The count a header block may hold. */
  predicate GoodHeader(blk: Block) {
    |blk| > LOGBLOCKS && blk[0] <= LOGBLOCKS
  }

  predicate Distinct(l: seq<nat>) {
    forall i, j :: 0 <= i < j < |l| ==> l[i] != l[j]
  }

  // ---------------------------------------------------------------- history

  /** The image left by a history of log_writes, oldest first. */
  function Replay(init: Image, ws: seq<Write>): (r: Image)
    ensures |r| == |init|
  {
    if ws == [] then init
    else
      var m := Replay(init, ws[..|ws| - 1]);
      var w := ws[|ws| - 1];
      if w.blk < |m| then m[w.blk := w.data] else m
  }

  lemma ReplayAppend(init: Image, ws: seq<Write>, w: Write)
    ensures Replay(init, ws + [w]) ==
            (var m := Replay(init, ws); if w.blk < |m| then m[w.blk := w.data] else m)
  {
    assert (ws + [w])[..|ws|] == ws;
  }

  /** No operation has writes on both sides of position `m` of the history. */
  ghost predicate Boundary(ws: seq<Write>, m: nat) {
    forall i, j :: 0 <= i < m <= j < |ws| ==> ws[i].op != ws[j].op
  }

  function LastMark(p: Past): nat
    requires p.marks != []
  {
    p.marks[|p.marks| - 1]
  }

  // ---------------------------------------------------------------- log space

  function Credit(o: Op): int {
    MAXOPBLOCKS - |o.logged|
  }

  /** The log blocks all open operations may still use. */
  ghost function TotalCredit(open: map<Tid, Op>): int {
    if open == map[] then 0
    else
      var t :| t in open;
      Credit(open[t]) + TotalCredit(open - {t})
  }

  lemma {:induction false} TotalCreditSplit(open: map<Tid, Op>, t: Tid)
    requires t in open
    ensures TotalCredit(open) == Credit(open[t]) + TotalCredit(open - {t})
    decreases |open|
  {
    var u :| u in open && TotalCredit(open) == Credit(open[u]) + TotalCredit(open - {u});
    if u != t {
      TotalCreditSplit(open - {u}, t);
      TotalCreditSplit(open - {t}, u);
      assert open - {u} - {t} == open - {t} - {u};
    }
  }

  lemma RemoveOne(open: map<Tid, Op>, t: Tid)
    requires t in open
    ensures |open - {t}| == |open| - 1
  {
    assert (open - {t}).Keys == open.Keys - {t};
    assert |(open - {t}).Keys| == |open.Keys| - 1;
  }

  lemma {:induction false} TotalCreditBounds(open: map<Tid, Op>)
    requires forall t :: t in open ==> |open[t].logged| <= MAXOPBLOCKS
    ensures 0 <= TotalCredit(open) <= MAXOPBLOCKS * |open|
    decreases |open|
  {
    if open != map[] {
      var t :| t in open;
      TotalCreditSplit(open, t);
      RemoveOne(open, t);
      TotalCreditBounds(open - {t});
    }
  }

  // ---------------------------------------------------------------- steps

  predicate Recovering(s: State) {
    s.st.phase.Booting? || s.st.phase.Replaying?
  }

  /** The two panics of log_write.  The first is tested before absorption. */
  predicate LogWritePanics(s: State) {
    |s.st.lh| >= LOGBLOCKS || s.ops.outstanding < 1
  }

  /** The header after log_write: an already listed block is absorbed. */
  function Absorb(lh: seq<nat>, b: nat): (r: seq<nat>)
    ensures Distinct(lh) ==> Distinct(r)
    ensures forall x :: x in r <==> x in lh || x == b
  {
    if b in lh then lh else lh + [b]
  }

  predicate CanBeginOp(s: State, t: Tid) {
    && t !in s.ops.open && !Recovering(s)
    && !s.ops.committing
    && |s.st.lh| + (s.ops.outstanding + 1) * MAXOPBLOCKS <= LOGBLOCKS
  }

  function AfterBeginOp(s: State, t: Tid): State
    requires CanBeginOp(s, t)
  {
    s.(ops := s.ops.(open := s.ops.open[t := Op(s.ops.nextOp, {})],
                     nextOp := s.ops.nextOp + 1,
                     outstanding := s.ops.outstanding + 1))
  }

  predicate CanLogWrite(s: State, t: Tid, blk: nat, data: Block) {
    && t in s.ops.open && !LogWritePanics(s)
    && Home(s.st.start, |s.st.disk|, blk) && |data| == BLOCKWORDS
    && (blk in s.ops.open[t].logged || |s.ops.open[t].logged| < MAXOPBLOCKS)
  }

  function AfterLogWrite(s: State, t: Tid, blk: nat, data: Block): State
    requires CanLogWrite(s, t, blk, data)
  {
    var o := s.ops.open[t];
    s.(st := s.st.(lh := Absorb(s.st.lh, blk)),
       ops := s.ops.(open := s.ops.open[t := o.(logged := o.logged + {blk})]),
       past := s.past.(mem := if blk < |s.past.mem| then s.past.mem[blk := data] else s.past.mem,
                       writes := s.past.writes + [Write(o.id, blk, data)]))
  }

  predicate CanEndOp(s: State, t: Tid) {
    t in s.ops.open && !s.ops.committing
  }

  function AfterEndOp(s: State, t: Tid): State
    requires CanEndOp(s, t)
  {
    var o := s.ops.(open := s.ops.open - {t}, outstanding := s.ops.outstanding - 1,
                    ended := s.ops.ended + {s.ops.open[t].id});
    if s.ops.outstanding == 1 then
      s.(ops := o.(committing := true),
         st := s.st.(phase := if s.st.lh == [] then Done else WritingLog(0)))
    else s.(ops := o)
  }

  predicate CanCopyToLog(s: State) {
    && s.st.phase.WritingLog? && s.st.phase.tail < |s.st.lh| && s.st.lh[s.st.phase.tail] < |s.past.mem|
    && s.st.start + 1 + s.st.phase.tail < |s.st.disk|
  }

  function AfterCopyToLog(s: State): State
    requires CanCopyToLog(s)
  {
    var tail := s.st.phase.tail;
    s.(st := s.st.(disk := s.st.disk[s.st.start + 1 + tail := s.past.mem[s.st.lh[tail]]],
                   phase := WritingLog(tail + 1)))
  }

  predicate CanWriteHead(s: State) {
    && s.st.phase.WritingLog? && s.st.phase.tail >= |s.st.lh|
    && s.st.start < |s.st.disk| && |s.st.lh| < |s.st.disk[s.st.start]|
  }

  function AfterWriteHead(s: State): State
    requires CanWriteHead(s)
  {
    s.(st := s.st.(disk := s.st.disk[s.st.start := EncodeHeader(s.st.disk[s.st.start], s.st.lh)],
                   phase := Installing(0)),
       past := s.past.(marks := s.past.marks + [|s.past.writes|], durable := s.past.mem))
  }

  predicate CanInstallBlock(s: State) {
    && s.st.phase.Installing? && s.st.phase.tail < |s.st.lh|
    && s.st.lh[s.st.phase.tail] < |s.st.disk| && s.st.start + 1 + s.st.phase.tail < |s.st.disk|
  }

  function AfterInstallBlock(s: State): State
    requires CanInstallBlock(s)
  {
    var tail := s.st.phase.tail;
    s.(st := s.st.(disk := s.st.disk[s.st.lh[tail] := s.st.disk[s.st.start + 1 + tail]],
                   phase := Installing(tail + 1)))
  }

  predicate CanClearHead(s: State) {
    && s.st.phase.Installing? && s.st.phase.tail >= |s.st.lh|
    && s.st.start < |s.st.disk| && 0 < |s.st.disk[s.st.start]|
  }

  function AfterClearHead(s: State): State
    requires CanClearHead(s)
  {
    s.(st := s.st.(lh := [], disk := s.st.disk[s.st.start := EncodeHeader(s.st.disk[s.st.start], [])],
                   phase := Done))
  }

  predicate CanEndCommit(s: State) {
    s.st.phase.Done?
  }

  function AfterEndCommit(s: State): State
    requires CanEndCommit(s)
  {
    s.(st := s.st.(phase := Idle),
       ops := s.ops.(committing := false, ncommit := s.ops.ncommit + 1))
  }

  predicate CanSyncCall(s: State, t: Tid) {
    t !in s.ops.syncs && t !in s.ops.open && !Recovering(s)
  }

  function AfterSyncCall(s: State, t: Tid): State
    requires CanSyncCall(s, t)
  {
    var wait := s.ops.committing || s.ops.outstanding > 0;
    var target := if wait then s.ops.ncommit + 1 else s.ops.ncommit;
    s.(ops := s.ops.(syncs := s.ops.syncs[t := Sync(target, s.ops.ended)]))
  }

  predicate CanSyncReturn(s: State, t: Tid) {
    t in s.ops.syncs && s.ops.ncommit >= s.ops.syncs[t].target
  }

  function AfterSyncReturn(s: State, t: Tid): State
    requires CanSyncReturn(s, t)
  {
    s.(ops := s.ops.(syncs := s.ops.syncs - {t}))
  }

  predicate CanCrash(s: State) {
    s.past.marks != [] && LastMark(s.past) <= |s.past.writes|
  }

  function AfterCrash(s: State): State
    requires CanCrash(s)
  {
    s.(st := s.st.(lh := [], phase := Booting),
       ops := s.ops.(open := map[], outstanding := 0, committing := false, ncommit := 0, syncs := map[]),
       past := s.past.(mem := s.past.durable, writes := s.past.writes[..LastMark(s.past)]))
  }

  predicate CanReadHead(s: State) {
    s.st.phase.Booting? && s.st.start < |s.st.disk|
  }

  function AfterReadHead(s: State): State
    requires CanReadHead(s)
  {
    s.(st := s.st.(lh := DecodeHeader(s.st.disk[s.st.start]), phase := Replaying(0)))
  }

  predicate CanReplayBlock(s: State) {
    && s.st.phase.Replaying? && s.st.phase.tail < |s.st.lh|
    && s.st.lh[s.st.phase.tail] < |s.st.disk| && s.st.start + 1 + s.st.phase.tail < |s.st.disk|
  }

  function AfterReplayBlock(s: State): State
    requires CanReplayBlock(s)
  {
    var tail := s.st.phase.tail;
    s.(st := s.st.(disk := s.st.disk[s.st.lh[tail] := s.st.disk[s.st.start + 1 + tail]],
                   phase := Replaying(tail + 1)))
  }

  predicate CanReplayClear(s: State) {
    && s.st.phase.Replaying? && s.st.phase.tail >= |s.st.lh|
    && s.st.start < |s.st.disk| && 0 < |s.st.disk[s.st.start]|
  }

  function AfterReplayClear(s: State): State
    requires CanReplayClear(s)
  {
    s.(st := s.st.(lh := [], disk := s.st.disk[s.st.start := EncodeHeader(s.st.disk[s.st.start], [])],
                   phase := Idle))
  }

  predicate Enabled(s: State, step: Step) {
    match step
    case BeginOp(t) => CanBeginOp(s, t)
    case LogWrite(t, blk, data) => CanLogWrite(s, t, blk, data)
    case EndOp(t) => CanEndOp(s, t)
    case CopyToLog => CanCopyToLog(s)
    case WriteHead => CanWriteHead(s)
    case InstallBlock => CanInstallBlock(s)
    case ClearHead => CanClearHead(s)
    case EndCommit => CanEndCommit(s)
    case SyncCall(t) => CanSyncCall(s, t)
    case SyncReturn(t) => CanSyncReturn(s, t)
    case Crash => CanCrash(s)
    case ReadHead => CanReadHead(s)
    case ReplayBlock => CanReplayBlock(s)
    case ReplayClear => CanReplayClear(s)
  }

  function Do(s: State, step: Step): State
    requires Enabled(s, step)
  {
    match step
    case BeginOp(t) => AfterBeginOp(s, t)
    case LogWrite(t, blk, data) => AfterLogWrite(s, t, blk, data)
    case EndOp(t) => AfterEndOp(s, t)
    case CopyToLog => AfterCopyToLog(s)
    case WriteHead => AfterWriteHead(s)
    case InstallBlock => AfterInstallBlock(s)
    case ClearHead => AfterClearHead(s)
    case EndCommit => AfterEndCommit(s)
    case SyncCall(t) => AfterSyncCall(s, t)
    case SyncReturn(t) => AfterSyncReturn(s, t)
    case Crash => AfterCrash(s)
    case ReadHead => AfterReadHead(s)
    case ReplayBlock => AfterReplayBlock(s)
    case ReplayClear => AfterReplayClear(s)
  }

  // ---------------------------------------------------------------- invariant

  ghost predicate Blocks(m: Image, size: nat) {
    |m| == size && forall b :: 0 <= b < |m| ==> |m[b]| == BLOCKWORDS
  }

  ghost predicate Shape(st: Store) {
    && st.start + LOGBLOCKS < |st.disk|
    && Blocks(st.disk, |st.disk|)
    && |st.lh| <= LOGBLOCKS && Distinct(st.lh)
    && (forall i :: 0 <= i < |st.lh| ==> Home(st.start, |st.disk|, st.lh[i]))
  }

  /** mem and durable are what the recorded history says they are, and every
      commit record stands between operations. */
  ghost predicate History(p: Past, size: nat) {
    && |p.init| == size && Blocks(p.mem, size) && Blocks(p.durable, size)
    && p.mem == Replay(p.init, p.writes)
    && p.marks != [] && LastMark(p) <= |p.writes|
    && p.durable == Replay(p.init, p.writes[..LastMark(p)])
    && (forall k :: 0 <= k < |p.marks| ==> p.marks[k] <= LastMark(p) && Boundary(p.writes, p.marks[k]))
  }

  ghost predicate Counters(o: Ops, phase: Phase) {
    && o.outstanding == |o.open|
    && (o.committing <==> phase.WritingLog? || phase.Installing? || phase.Done?)
    && (!phase.Idle? ==> o.open == map[])
  }

  /** Log space: what is used plus what open operations may still use fits. */
  ghost predicate Space(open: map<Tid, Op>, lh: seq<nat>) {
    && (forall t :: t in open ==>
          |open[t].logged| <= MAXOPBLOCKS && forall b :: b in open[t].logged ==> b in lh)
    && |lh| + TotalCredit(open) <= LOGBLOCKS
  }

  /** Operation identities are fresh; open and ended ones are apart; an open
      operation has nothing in an earlier commit. */
  ghost predicate Identities(o: Ops, p: Past) {
    && (forall i :: 0 <= i < |p.writes| ==> p.writes[i].op < o.nextOp)
    && (forall t :: t in o.open ==> o.open[t].id < o.nextOp && o.open[t].id !in o.ended)
    && (forall t, u :: t in o.open && u in o.open && t != u ==> o.open[t].id != o.open[u].id)
    && (forall e :: e in o.ended ==> e < o.nextOp)
    && (forall i, t :: 0 <= i < |p.writes| && t in o.open && p.writes[i].op == o.open[t].id ==>
          p.marks != [] && LastMark(p) <= i)
  }

  /** The disk, read the way recovery reads it, holds `image`. */
  ghost predicate Recoverable(start: nat, disk: Image, image: Image) {
    && start + LOGBLOCKS < |disk| && |image| == |disk|
    && GoodHeader(disk[start])
    && var l := DecodeHeader(disk[start]);
    && |l| <= LOGBLOCKS && Distinct(l)
    && (forall i :: 0 <= i < |l| ==> Home(start, |disk|, l[i]) && disk[start + 1 + i] == image[l[i]])
    && (forall b :: Home(start, |disk|, b) && b !in l ==> disk[b] == image[b])
  }

  ghost predicate DiskState(st: Store, p: Past)
    requires Shape(st) && History(p, |st.disk|)
  {
    && Recoverable(st.start, st.disk, p.durable)
    && (forall b :: Home(st.start, |st.disk|, b) && b !in st.lh ==> p.mem[b] == p.durable[b])
    && (st.lh == [] ==> |p.writes| == LastMark(p))
    && (st.phase.Done? || st.phase.Booting? ==> st.lh == [])
    && var l := DecodeHeader(st.disk[st.start]);
    && (st.phase.Idle? || st.phase.Done? || st.phase.WritingLog? ==> l == [])
    && (st.phase.WritingLog? ==>
          && st.lh != [] && st.phase.tail <= |st.lh|
          && forall i :: 0 <= i < st.phase.tail ==> st.disk[st.start + 1 + i] == p.mem[st.lh[i]])
    && (st.phase.Installing? || st.phase.Replaying? ==> Installed(st, p, st.phase.tail))
  }

  /** The header block names lh, and the first `tail` entries are in place. */
  ghost predicate Installed(st: Store, p: Past, tail: nat)
    requires Shape(st) && History(p, |st.disk|)
  {
    && DecodeHeader(st.disk[st.start]) == st.lh && tail <= |st.lh|
    && |p.writes| == LastMark(p)
    && (forall i :: 0 <= i < tail ==> st.disk[st.lh[i]] == p.durable[st.lh[i]])
  }

  /** Every log_write of the operations `ops` is covered by a commit record. */
  ghost predicate Durable(p: Past, ops: set<nat>) {
    && p.marks != []
    && forall i :: LastMark(p) <= i < |p.writes| ==> p.writes[i].op !in ops
  }

  ghost predicate Syncs(o: Ops, p: Past) {
    forall t :: t in o.syncs ==>
      && o.syncs[t].before <= o.ended
      && o.syncs[t].target <= o.ncommit + 1
      && (o.ncommit >= o.syncs[t].target ==> Durable(p, o.syncs[t].before))
  }

  ghost predicate Inv(s: State) {
    && Shape(s.st) && History(s.past, |s.st.disk|) && DiskState(s.st, s.past)
    && Counters(s.ops, s.st.phase)
    && (s.st.phase.Idle? ==> Space(s.ops.open, s.st.lh))
    && (s.st.phase.Idle? && s.ops.open == map[] ==> s.st.lh == [])
    && Identities(s.ops, s.past) && Syncs(s.ops, s.past)
  }

  /** A formatted disk just before the kernel first boots: empty log. */
  ghost predicate Init(s: State) {
    && s.st.start + LOGBLOCKS < |s.st.disk|
    && Blocks(s.st.disk, |s.st.disk|)
    && s.st.disk[s.st.start][0] == 0
    && s.st.lh == [] && s.st.phase.Booting?
    && s.past == Past(s.st.disk, [], [0], s.st.disk, s.st.disk)
    && s.ops.open == map[] && s.ops.outstanding == 0 && !s.ops.committing
    && s.ops.ended == {} && s.ops.syncs == map[]
  }

  // ---------------------------------------------------------------- preservation

  lemma InitInv(s: State)
    requires Init(s)
    ensures Inv(s)
  {
  }

  lemma LogWriteSpace(open: map<Tid, Op>, lh: seq<nat>, t: Tid, b: nat)
    requires Space(open, lh) && t in open && (b in open[t].logged || |open[t].logged| < MAXOPBLOCKS)
    ensures Space(open[t := open[t].(logged := open[t].logged + {b})], Absorb(lh, b))
  {
    var o := open[t].(logged := open[t].logged + {b});
    TotalCreditSplit(open, t);
    TotalCreditSplit(open[t := o], t);
    assert open[t := o] - {t} == open - {t};
    if b in open[t].logged {
      assert o.logged == open[t].logged;
    }
  }

  lemma LogWriteHistory(p: Past, size: nat, w: Write)
    requires History(p, size) && w.blk < size && |w.data| == BLOCKWORDS
    requires forall i :: 0 <= i < LastMark(p) ==> p.writes[i].op != w.op
    ensures History(p.(mem := p.mem[w.blk := w.data], writes := p.writes + [w]), size)
  {
    var p' := p.(mem := p.mem[w.blk := w.data], writes := p.writes + [w]);
    ReplayAppend(p.init, p.writes, w);
    assert p'.writes[..LastMark(p)] == p.writes[..LastMark(p)];
    forall k | 0 <= k < |p.marks|
      ensures Boundary(p'.writes, p'.marks[k])
    {
      assert Boundary(p.writes, p.marks[k]);
    }
  }

  lemma MarksInRange(p: Past, size: nat)
    requires History(p, size)
    ensures p.marks != [] && LastMark(p) <= |p.writes|
    ensures |p.mem| == |p.durable| == size
  {
  }

  lemma LogWriteNames(o: Ops, p: Past, t: Tid, blk: nat, data: Block)
    requires Identities(o, p) && Syncs(o, p) && t in o.open
    ensures forall i :: p.marks != [] && 0 <= i < LastMark(p) && i < |p.writes| ==> p.writes[i].op != o.open[t].id
    ensures var o' := o.(open := o.open[t := o.open[t].(logged := o.open[t].logged + {blk})]);
            var p' := p.(mem := if blk < |p.mem| then p.mem[blk := data] else p.mem,
                         writes := p.writes + [Write(o.open[t].id, blk, data)]);
            p.marks != [] && LastMark(p) <= |p.writes| ==> Identities(o', p') && Syncs(o', p')
  {
  }

  lemma EndOpSpace(open: map<Tid, Op>, lh: seq<nat>, t: Tid)
    requires Space(open, lh) && t in open
    ensures Space(open - {t}, lh)
  {
    TotalCreditSplit(open, t);
  }

  lemma EndOpNames(o: Ops, p: Past, t: Tid, c: bool)
    requires Identities(o, p) && Syncs(o, p) && t in o.open
    ensures var o' := o.(open := o.open - {t}, outstanding := o.outstanding - 1,
                         ended := o.ended + {o.open[t].id}, committing := c);
            Identities(o', p) && Syncs(o', p)
  {
  }

  lemma EndOpDisk(st: Store, p: Past)
    requires Shape(st) && History(p, |st.disk|) && DiskState(st, p) && st.phase.Idle?
    ensures var st' := st.(phase := if st.lh == [] then Done else WritingLog(0));
            Shape(st') && DiskState(st', p)
  {
  }

  lemma LogWriteDisk(st: Store, p: Past, w: Write)
    requires Shape(st) && History(p, |st.disk|) && DiskState(st, p)
    requires st.phase.Idle? && |st.lh| < LOGBLOCKS
    requires Home(st.start, |st.disk|, w.blk) && |w.data| == BLOCKWORDS
    requires forall i :: 0 <= i < LastMark(p) ==> p.writes[i].op != w.op
    ensures var st' := st.(lh := Absorb(st.lh, w.blk));
            var p' := p.(mem := p.mem[w.blk := w.data], writes := p.writes + [w]);
            Shape(st') && History(p', |st.disk|) && DiskState(st', p')
  {
    LogWriteHistory(p, |st.disk|, w);
    assert w.blk in Absorb(st.lh, w.blk);
  }

  lemma AllMarked(p: Past, size: nat)
    requires History(p, size) && |p.writes| == LastMark(p)
    ensures p.mem == p.durable
  {
    assert p.writes[..LastMark(p)] == p.writes;
  }

  /** One round of install_trans: the disk still recovers to the same image. */
  lemma InstallOne(st: Store, p: Past, tail: nat, next: Phase)
    requires Shape(st) && History(p, |st.disk|) && Recoverable(st.start, st.disk, p.durable)
    requires Installed(st, p, tail) && tail < |st.lh|
    ensures var st' := st.(disk := st.disk[st.lh[tail] := st.disk[st.start + 1 + tail]], phase := next);
            Shape(st') && Recoverable(st.start, st'.disk, p.durable) && Installed(st', p, tail + 1)
  {
    hide History, Distinct, DecodeHeader, GoodHeader;
    var b := st.lh[tail];
    var disk' := st.disk[b := st.disk[st.start + 1 + tail]];
    assert Home(st.start, |st.disk|, b);
    assert disk'[st.start] == st.disk[st.start];
  }

  /** After the last round the header can go: every block is home. */
  lemma ClearOne(st: Store, p: Past)
    requires Shape(st) && History(p, |st.disk|) && Recoverable(st.start, st.disk, p.durable)
    requires Installed(st, p, |st.lh|)
    ensures var st' := st.(lh := [], disk := st.disk[st.start := EncodeHeader(st.disk[st.start], [])]);
            Shape(st') && Recoverable(st.start, st'.disk, p.durable) && DecodeHeader(st'.disk[st.start]) == []
  {
    forall b | Home(st.start, |st.disk|, b)
      ensures st.disk[b] == p.durable[b]
    {
      if b in st.lh {
        var i :| 0 <= i < |st.lh| && st.lh[i] == b;
      }
    }
  }

  lemma BeginOpKept(s: State, t: Tid)
    requires Inv(s) && CanBeginOp(s, t)
    ensures Inv(AfterBeginOp(s, t))
  {
    hide Shape, History, DiskState, TotalCredit;
    var s' := AfterBeginOp(s, t);
    TotalCreditBounds(s.ops.open);
    TotalCreditSplit(s'.ops.open, t);
    assert s'.ops.open - {t} == s.ops.open;
  }

  lemma LogWriteKept(s: State, t: Tid, blk: nat, data: Block)
    requires Inv(s) && CanLogWrite(s, t, blk, data)
    ensures Inv(AfterLogWrite(s, t, blk, data))
  {
    hide Space, Shape, History, DiskState, Identities, Syncs;
    LogWriteSpace(s.ops.open, s.st.lh, t, blk);
    MarksInRange(s.past, |s.st.disk|);
    LogWriteNames(s.ops, s.past, t, blk, data);
    LogWriteDisk(s.st, s.past, Write(s.ops.open[t].id, blk, data));
  }

  lemma EndOpKept(s: State, t: Tid)
    requires Inv(s) && CanEndOp(s, t)
    ensures Inv(AfterEndOp(s, t))
  {
    hide History, DiskState, Identities, Syncs, Space, Shape;
    RemoveOne(s.ops.open, t);
    EndOpSpace(s.ops.open, s.st.lh, t);
    EndOpNames(s.ops, s.past, t, s.ops.committing || s.ops.outstanding == 1);
    EndOpDisk(s.st, s.past);
  }

  lemma CopyToLogKept(s: State)
    requires Inv(s) && CanCopyToLog(s)
    ensures Inv(AfterCopyToLog(s))
  {
    hide Identities, Syncs, Space;
  }

  lemma WriteHeadStore(s: State)
    requires Inv(s) && CanWriteHead(s)
    ensures var t := AfterWriteHead(s);
            Shape(t.st) && History(t.past, |t.st.disk|) && DiskState(t.st, t.past)
  {
    hide Identities, Syncs, Space, Distinct, DecodeHeader;
    assert s.past.writes[..|s.past.writes|] == s.past.writes;
  }

  lemma WriteHeadKept(s: State)
    requires Inv(s) && CanWriteHead(s)
    ensures Inv(AfterWriteHead(s))
  {
    hide Shape, DiskState, History;
    WriteHeadStore(s);
  }

  lemma InstallBlockKept(s: State)
    requires Inv(s) && CanInstallBlock(s)
    ensures Inv(AfterInstallBlock(s))
  {
    hide History, Identities, Syncs, Recoverable, Shape, Installed;
    var s' := AfterInstallBlock(s);
    InstallOne(s.st, s.past, s.st.phase.tail, s'.st.phase);
  }

  lemma ClearHeadKept(s: State)
    requires Inv(s) && CanClearHead(s)
    ensures Inv(AfterClearHead(s))
  {
    ClearOne(s.st, s.past);
    assert s.past.mem == s.past.durable by { AllMarked(s.past, |s.st.disk|); }
  }

  lemma EndCommitKept(s: State)
    requires Inv(s) && CanEndCommit(s)
    ensures Inv(AfterEndCommit(s))
  {
    TotalCreditBounds(s.ops.open);
  }

  lemma SyncCallKept(s: State, t: Tid)
    requires Inv(s) && CanSyncCall(s, t)
    ensures Inv(AfterSyncCall(s, t))
  {
  }

  lemma SyncReturnKept(s: State, t: Tid)
    requires Inv(s) && CanSyncReturn(s, t)
    ensures Inv(AfterSyncReturn(s, t))
  {
  }

  lemma CrashKept(s: State)
    requires Inv(s) && CanCrash(s)
    ensures Inv(AfterCrash(s))
  {
    var s' := AfterCrash(s);
    assert s'.past.writes[..LastMark(s.past)] == s'.past.writes;
  }

  lemma ReadHeadKept(s: State)
    requires Inv(s) && CanReadHead(s)
    ensures Inv(AfterReadHead(s))
  {
  }

  lemma ReplayBlockKept(s: State)
    requires Inv(s) && CanReplayBlock(s)
    ensures Inv(AfterReplayBlock(s))
  {
    hide History, Identities, Syncs, Recoverable, Shape, Installed;
    var s' := AfterReplayBlock(s);
    InstallOne(s.st, s.past, s.st.phase.tail, s'.st.phase);
  }

  lemma ReplayClearKept(s: State)
    requires Inv(s) && CanReplayClear(s)
    ensures Inv(AfterReplayClear(s))
  {
    ClearOne(s.st, s.past);
    AllMarked(s.past, |s.st.disk|);
    TotalCreditBounds(s.ops.open);
  }

  lemma InvKept(s: State, step: Step)
    requires Inv(s) && Enabled(s, step)
    ensures Inv(Do(s, step))
  {
    match step
    case BeginOp(t) => BeginOpKept(s, t);
    case LogWrite(t, blk, data) => LogWriteKept(s, t, blk, data);
    case EndOp(t) => EndOpKept(s, t);
    case CopyToLog => CopyToLogKept(s);
    case WriteHead => WriteHeadKept(s);
    case InstallBlock => InstallBlockKept(s);
    case ClearHead => ClearHeadKept(s);
    case EndCommit => EndCommitKept(s);
    case SyncCall(t) => SyncCallKept(s, t);
    case SyncReturn(t) => SyncReturnKept(s, t);
    case Crash => CrashKept(s);
    case ReadHead => ReadHeadKept(s);
    case ReplayBlock => ReplayBlockKept(s);
    case ReplayClear => ReplayClearKept(s);
  }

  // ---------------------------------------------------------------- whole runs

  /** An execution from a formatted disk: states joined by steps, crashes included. */
  ghost predicate IsRun(run: seq<State>, steps: seq<Step>) {
    && |run| == |steps| + 1
    && Init(run[0])
    && forall i {:trigger steps[i]} :: 0 <= i < |steps| ==> Enabled(run[i], steps[i]) && run[i + 1] == Do(run[i], steps[i])
  }

  lemma {:induction false} RunInv(run: seq<State>, steps: seq<Step>, k: nat)
    requires IsRun(run, steps) && k < |run|
    ensures Inv(run[k])
  {
    if k == 0 {
      InitInv(run[0]);
    } else {
      RunInv(run, steps, k - 1);
      InvKept(run[k - 1], steps[k - 1]);
    }
  }

  /** What an undisturbed recover_from_log makes of a disk: install_trans(1) over
      the header's list from entry `i` on, then an empty header. */
  function InstallFrom(start: nat, disk: Image, l: seq<nat>, i: nat): (r: Image)
    requires start + |l| < |disk| && forall j :: 0 <= j < |l| ==> l[j] < |disk|
    ensures |r| == |disk|
    decreases |l| - i
  {
    if i >= |l| then disk
    else InstallFrom(start, disk[l[i] := disk[start + 1 + i]], l, i + 1)
  }

  function RecoverDisk(start: nat, disk: Image): (r: Image)
    requires start + LOGBLOCKS < |disk| && 0 < |disk[start]|
    requires var l := DecodeHeader(disk[start]);
             |l| <= LOGBLOCKS && forall j :: 0 <= j < |l| ==> Home(start, |disk|, l[j])
    ensures |r| == |disk|
  {
    var d := InstallFrom(start, disk, DecodeHeader(disk[start]), 0);
    if 0 < |d[start]| then d[start := EncodeHeader(d[start], [])] else d
  }

  lemma {:induction false} InstallFromImage(start: nat, disk: Image, image: Image, l: seq<nat>, i: nat)
    requires start + LOGBLOCKS < |disk| && |image| == |disk| && |l| <= LOGBLOCKS && i <= |l|
    requires forall j :: 0 <= j < |l| ==> l[j] < |disk| && Home(start, |disk|, l[j])
    requires forall j :: i <= j < |l| ==> disk[start + 1 + j] == image[l[j]]
    requires forall b :: Home(start, |disk|, b) && b !in l[i..] ==> disk[b] == image[b]
    ensures var d := InstallFrom(start, disk, l, i);
            forall b :: Home(start, |disk|, b) ==> d[b] == image[b]
    decreases |l| - i
  {
    if i < |l| {
      var d := disk[l[i] := disk[start + 1 + i]];
      assert Home(start, |disk|, l[i]);
      assert forall b :: b in l[i..] ==> b == l[i] || b in l[i + 1..];
      InstallFromImage(start, d, image, l, i + 1);
    }
  }

  /** Recovery turns a recoverable disk into its image. */
  lemma RecoversTo(start: nat, disk: Image, image: Image)
    requires Recoverable(start, disk, image)
    ensures start + LOGBLOCKS < |disk| == |image| && 0 < |disk[start]|
    ensures forall b :: Home(start, |disk|, b) ==> RecoverDisk(start, disk)[b] == image[b]
  {
    hide DecodeHeader, Distinct;
    InstallFromImage(start, disk, image, DecodeHeader(disk[start]), 0);
  }

  /** Crash atomicity.  Stop any run anywhere: recovery finds on the disk exactly
      the state after a whole number of commits, namely all whose header write
      finished, and no operation is split by that point. */
  lemma CrashAtomicity(run: seq<State>, steps: seq<Step>, k: nat)
    requires IsRun(run, steps) && k < |run|
    ensures var s := run[k]; var p := s.past;
            && s.st.start + LOGBLOCKS < |s.st.disk| && 0 < |s.st.disk[s.st.start]|
            && Recoverable(s.st.start, s.st.disk, p.durable)
            && p.marks != [] && LastMark(p) <= |p.writes|
            && p.durable == Replay(p.init, p.writes[..LastMark(p)])
            && Boundary(p.writes, LastMark(p))
            && forall b :: Home(s.st.start, |s.st.disk|, b) ==>
                 RecoverDisk(s.st.start, s.st.disk)[b] == p.durable[b]
  {
    RunInv(run, steps, k);
    hide IsRun, Identities, Syncs, Space, Counters, Shape, DecodeHeader, GoodHeader, Recoverable, RecoverDisk, Installed;
    var s := run[k];
    RecoversTo(s.st.start, s.st.disk, s.past.durable);
    assert Boundary(s.past.writes, s.past.marks[|s.past.marks| - 1]);
  }

  /** A recovery that completes inside the run, however many crashes came before
      or during it, leaves that state in the home blocks. */
  lemma RecoveryCompletes(run: seq<State>, steps: seq<Step>, k: nat)
    requires IsRun(run, steps) && k < |steps| && steps[k] == ReplayClear
    ensures var s' := run[k + 1];
            && s'.past == run[k].past
            && |s'.past.durable| == |s'.st.disk|
            && forall b :: Home(s'.st.start, |s'.st.disk|, b) ==> s'.st.disk[b] == s'.past.durable[b]
  {
    RunInv(run, steps, k);
    RunInv(run, steps, k + 1);
  }

  /** The commit points of p, and the history before the last of them, are still there in q. */
  predicate Outlasts(q: Past, p: Past) {
    && q.init == p.init && p.marks != [] && p.marks <= q.marks
    && LastMark(p) <= |p.writes| && p.writes[..LastMark(p)] <= q.writes
    && LastMark(p) <= LastMark(q)
  }

  lemma OutlastsTwice(p: Past, q: Past, r: Past)
    requires Outlasts(q, p) && Outlasts(r, q)
    ensures Outlasts(r, p)
  {
    assert p.writes[..LastMark(p)] == q.writes[..LastMark(q)][..LastMark(p)];
  }

  lemma PastGrows(s: State, step: Step)
    requires Inv(s) && Enabled(s, step)
    ensures Outlasts(Do(s, step).past, s.past)
  {
    hide Shape, DiskState, Identities, Syncs, Space, Counters, Enabled;
    assert LastMark(s.past) <= |s.past.writes|;
    InvKept(s, step);
    hide Inv;
    PastStep(s, step);
  }

  /** What a step does to the history: nothing, one more write, a commit point, or the loss of
      what was not committed. */
  lemma PastStep(s: State, step: Step)
    requires Enabled(s, step)
    ensures var p, p' := s.past, Do(s, step).past;
            && p'.init == p.init
            && (|| (p'.marks == p.marks && p.writes <= p'.writes)
                || (p'.marks == p.marks + [|p.writes|] && p'.writes == p.writes)
                || (p'.marks == p.marks && p.marks != [] && LastMark(p) <= |p.writes| && p'.writes == p.writes[..LastMark(p)])
                || (p'.marks == p.marks && p'.writes == p.writes))
  {
  }

  /** Commits are never lost: whatever happens later, crashes included, the commit
      points of an earlier state stay, with the same history before them. */
  lemma {:induction false} CommitsStay(run: seq<State>, steps: seq<Step>, i: nat, j: nat)
    requires IsRun(run, steps) && i <= j < |run|
    ensures Outlasts(run[j].past, run[i].past)
    decreases j - i
  {
    RunInv(run, steps, i);
    if i == j {
      hide IsRun, Shape, DiskState, Identities, Syncs, Space, Counters;
    } else {
      assert Enabled(run[i], steps[i]) && run[i + 1] == Do(run[i], steps[i]);
      hide IsRun, Inv, Outlasts, Enabled, Do;
      PastGrows(run[i], steps[i]);
      CommitsStay(run, steps, i + 1, j);
      OutlastsTwice(run[i].past, run[i + 1].past, run[j].past);
    }
  }

  /** The block install_trans is about to overwrite, and with what. */
  lemma InstallTarget(st: Store, p: Past)
    requires Shape(st) && History(p, |st.disk|) && DiskState(st, p)
    requires (st.phase.Installing? || st.phase.Replaying?) && st.phase.tail < |st.lh|
    ensures |p.durable| == |st.disk| && st.start + LOGBLOCKS < |st.disk|
    ensures st.lh[st.phase.tail] in DecodeHeader(st.disk[st.start])
    ensures st.lh[st.phase.tail] < |st.disk|
    ensures st.disk[st.start + 1 + st.phase.tail] == p.durable[st.lh[st.phase.tail]]
  {
    hide Distinct, History, DecodeHeader, GoodHeader, Blocks;
    assert st.lh[st.phase.tail] in st.lh;
  }

  lemma WriteAheadStep(s: State, step: Step, b: nat)
    requires Inv(s) && Enabled(s, step) && Home(s.st.start, |s.st.disk|, b)
    ensures |s.past.durable| == |s.st.disk| && |Do(s, step).st.disk| == |s.st.disk|
    ensures Do(s, step).st.disk[b] != s.st.disk[b] ==>
              && b in DecodeHeader(s.st.disk[s.st.start])
              && Do(s, step).st.disk[b] == s.past.durable[b]
  {
    hide Shape, History, DiskState, Identities, Syncs, Space, DecodeHeader;
    MarksInRange(s.past, |s.st.disk|);
    if step.InstallBlock? || step.ReplayBlock? {
      InstallTarget(s.st, s.past);
    } else if step.CopyToLog? {
      CopyTarget(s.st, s.past);
    }
  }

  lemma CopyTarget(st: Store, p: Past)
    requires Shape(st) && History(p, |st.disk|) && DiskState(st, p)
    requires st.phase.WritingLog? && st.phase.tail < |st.lh|
    ensures !Home(st.start, |st.disk|, st.start + 1 + st.phase.tail)
  {
  }

  /** A home block is only ever overwritten while the header on disk names it, and
      with the contents the committed history gives it. */
  lemma WriteAhead(run: seq<State>, steps: seq<Step>, k: nat, b: nat)
    requires IsRun(run, steps) && k < |steps|
    requires Home(run[k].st.start, |run[k].st.disk|, b)
    ensures |run[k + 1].st.disk| == |run[k].st.disk| == |run[k].past.durable| && run[k].st.start < |run[k].st.disk|
    ensures run[k + 1].st.disk[b] != run[k].st.disk[b] ==>
              && b in DecodeHeader(run[k].st.disk[run[k].st.start])
              && run[k + 1].st.disk[b] == run[k].past.durable[b]
  {
    RunInv(run, steps, k);
    WriteAheadStep(run[k], steps[k], b);
  }

  /** Group commit: while a commit runs no operation is open and none can open,
      and all writes of one operation lie between the same two commit points. */
  lemma GroupCommit(run: seq<State>, steps: seq<Step>, k: nat)
    requires IsRun(run, steps) && k < |run|
    ensures run[k].ops.committing ==>
              run[k].ops.open == map[] && forall t :: !CanBeginOp(run[k], t) && !CanEndOp(run[k], t)
    ensures var p := run[k].past;
            forall i, j, m :: 0 <= i < j < |p.writes| && p.writes[i].op == p.writes[j].op && m in p.marks ==>
              (m <= i <==> m <= j)
  {
    RunInv(run, steps, k);
    var p := run[k].past;
    forall i, j, m | 0 <= i < j < |p.writes| && p.writes[i].op == p.writes[j].op && m in p.marks
      ensures m <= i <==> m <= j
    {
      var q :| 0 <= q < |p.marks| && p.marks[q] == m;
      assert Boundary(p.writes, p.marks[q]);
    }
  }

  /** Log space: an operation that has not used up its MAXOPBLOCKS blocks never
      meets the "too big a transaction" panic, and end_op never meets its own. */
  lemma NoOverflow(run: seq<State>, steps: seq<Step>, k: nat, t: Tid)
    requires IsRun(run, steps) && k < |run| && t in run[k].ops.open
    ensures !run[k].ops.committing
    ensures |run[k].ops.open[t].logged| < MAXOPBLOCKS ==> !LogWritePanics(run[k])
    ensures LogWritePanics(run[k]) <==> |run[k].st.lh| == LOGBLOCKS
    ensures LogWritePanics(run[k]) ==>
              forall u :: u in run[k].ops.open ==> |run[k].ops.open[u].logged| == MAXOPBLOCKS
  {
    RunInv(run, steps, k);
    var open := run[k].ops.open;
    forall u | u in open
      ensures |run[k].st.lh| + Credit(open[u]) <= LOGBLOCKS && 0 < |open|
    {
      TotalCreditSplit(open, u);
      TotalCreditBounds(open - {u});
      RemoveOne(open, u);
    }
  }

  lemma {:induction false} SyncStays(run: seq<State>, steps: seq<Step>, t: Tid, i: nat, j: nat)
    requires IsRun(run, steps) && i < j < |steps|
    requires steps[i] == SyncCall(t)
    requires forall k :: i < k < j ==> steps[k] != Crash && steps[k] != SyncReturn(t)
    ensures t in run[j].ops.syncs && run[j].ops.syncs[t].before == run[i].ops.ended
    decreases j
  {
    assert run[j - 1 + 1] == Do(run[j - 1], steps[j - 1]);
    if i + 1 < j {
      SyncStays(run, steps, t, i, j - 1);
    }
  }

  /** sys_sync: when it returns, every log_write of every operation that ended
      before the call is covered by a commit record on the disk. */
  lemma SyncIsDurable(run: seq<State>, steps: seq<Step>, t: Tid, i: nat, j: nat)
    requires IsRun(run, steps) && i < j < |steps|
    requires steps[i] == SyncCall(t) && steps[j] == SyncReturn(t)
    requires forall k :: i < k < j ==> steps[k] != Crash && steps[k] != SyncReturn(t)
    ensures Durable(run[j].past, run[i].ops.ended)
  {
    RunInv(run, steps, j);
    SyncStays(run, steps, t, i, j);
  }

  // ------------------------------------------------- a full log refuses absorption

  function Clamp(x: int): nat {
    if x < 0 then 0 else if x > MAXOPBLOCKS then MAXOPBLOCKS else x
  }

  /** Three open operations that have logged blocks 32, 33, ... in turn, ten each. */
  ghost predicate Filled(s: State, j: nat) {
    && s.st.phase.Idle? && s.st.start == 0 && |s.st.disk| == 64
    && |s.st.lh| == j && (forall b :: b in s.st.lh ==> 32 <= b < 32 + j)
    && s.ops.outstanding == 3 && s.ops.open.Keys == {0, 1, 2}
    && (forall t :: t in s.ops.open ==> |s.ops.open[t].logged| == Clamp(j - 10 * t))
    && (forall t, b :: t in s.ops.open && b in s.ops.open[t].logged ==> b < 32 + j)
  }

  lemma Extend(run: seq<State>, steps: seq<Step>, step: Step) returns (run': seq<State>, steps': seq<Step>)
    requires IsRun(run, steps) && Enabled(run[|run| - 1], step)
    ensures IsRun(run', steps') && run'[|run'| - 1] == Do(run[|run| - 1], step)
  {
    hide Init, Enabled, Do;
    run', steps' := run + [Do(run[|run| - 1], step)], steps + [step];
  }

  lemma ThreeOpen() returns (run: seq<State>, steps: seq<Step>)
    ensures IsRun(run, steps) && Filled(run[|run| - 1], 0)
  {
    var zero := seq(BLOCKWORDS, _ => 0);
    var disk := seq(64, _ => zero);
    var s := State(Store(0, disk, [], Booting), Ops(map[], 0, false, 0, 0, {}, map[]),
                   Past(disk, [], [0], disk, disk));
    run, steps := [s], [];
    run, steps := Extend(run, steps, ReadHead);
    run, steps := Extend(run, steps, ReplayClear);
    run, steps := Extend(run, steps, BeginOp(0));
    run, steps := Extend(run, steps, BeginOp(1));
    run, steps := Extend(run, steps, BeginOp(2));
  }

  /** Operation t logs the j-th block, where t's turn is blocks 10t + 1 to 10t + 10. */
  lemma FillOne(s: State, j: nat, t: nat, data: Block)
    requires t <= 2 && 10 * t < j <= 10 * t + 10 && Filled(s, j - 1) && |data| == BLOCKWORDS
    ensures CanLogWrite(s, t, 31 + j, data) && Filled(AfterLogWrite(s, t, 31 + j, data), j)
  {
    assert 31 + j !in s.st.lh && 31 + j !in s.ops.open[t].logged;
    assert |s.ops.open[t].logged + {31 + j}| == |s.ops.open[t].logged| + 1;
    hide Distinct;
    var u := AfterLogWrite(s, t, 31 + j, data);
    assert u.ops.open.Keys == {0, 1, 2};
    assert u.st.lh == s.st.lh + [31 + j];
  }

  lemma {:induction false} FillLog(j: nat) returns (run: seq<State>, steps: seq<Step>)
    requires j <= LOGBLOCKS
    ensures IsRun(run, steps) && Filled(run[|run| - 1], j)
  {
    if j == 0 {
      run, steps := ThreeOpen();
    } else {
      run, steps := FillLog(j - 1);
      var data := seq(BLOCKWORDS, _ => 0);
      FillOne(run[|run| - 1], j, (j - 1) / 10, data);
      hide IsRun, Filled, AfterLogWrite;
      run, steps := Extend(run, steps, LogWrite((j - 1) / 10, 31 + j, data));
    }
  }

  /** Absorption is not always available: there is a run after which an operation
      that re-logs a block it has already logged meets the panic, because the test
      for a full log comes first.  NoOverflow says exactly when. */
  lemma FullLogRefusesAbsorption() returns (run: seq<State>, steps: seq<Step>, t: Tid, b: nat)
    ensures IsRun(run, steps)
    ensures t in run[|run| - 1].ops.open && b in run[|run| - 1].ops.open[t].logged
    ensures LogWritePanics(run[|run| - 1])
  {
    run, steps := FillLog(LOGBLOCKS);
    t := 0;
    var l := run[|run| - 1].ops.open[0].logged;
    assert l != {};
    b :| b in l;
  }
}
