/** The virtio disk driver: driver threads, the device and the interrupt handler interleaved.
  * Threads and the handler act under the driver's lock, so each of their sections is one step;
  * the device takes published requests and completes them in any order, at any time.  The split
  * virtqueue is that of section 2.6 of VIRTIO 1.1. */
module Virtio {
  import opened Basics

  const NUM: int := 8
  const WRAP: int := 0x1_0000

  /** What a descriptor can point at: a command header, a buffer's data, a status byte. */
  datatype Addr = Null | Header(slot: nat) | Data(buf: int) | Status(slot: nat)

  datatype Desc = Desc(addr: Addr, more: bool, devWrites: bool, next: nat)

  datatype Op = Op(write: bool, sector: int)

  /** b is the buffer waiting on this slot, if any; 0xff means not yet answered. */
  datatype Info = Info(b: Option<int>, status: int)

  /** Where a request stands: at position k of the available ring, inside the device, at
    * position k of the used ring, or acknowledged by the handler. */
  datatype Stage = Queued(k: int) | Held | Served(k: int) | Done

  datatype Request = Request(buf: int, op: Op, d0: int, d1: int, d2: int, stage: Stage)

  /** The rings as memory holds them, with their 16-bit indices. */
  datatype Rings = Rings(avail: seq<int>, availIdx: int, used: seq<int>, usedIdx: int, seenUsed: int, seenAvail: int)

  /** Every publication and every completion so far, by thread; how many the device has taken
    * and the handler has seen. */
  datatype Past = Past(published: seq<int>, taken: nat, completed: seq<int>, seen: nat)

  datatype State = State(
    free: seq<bool>,
    desc: seq<Desc>,
    ops: seq<Op>,
    info: seq<Info>,
    rings: Rings,
    busy: set<int>,
    held: set<int>,
    reqs: map<int, Request>,
    owner: map<int, int>,
    past: Past)

  datatype Step =
    | Issue(t: int, buf: int, blockno: int, write: bool, d0: int, d1: int, d2: int)
    | Take
    | Serve(head: int)
    | Handle
    | Finish(t: int)

  /** The ring slot of a position, and a count as a 16-bit index holds it. */
  function Pos(k: int): (r: int)
    ensures 0 <= r < NUM
  {
    k % NUM
  }

  function Idx(n: int): (r: int)
    ensures 0 <= r < WRAP
  {
    n % WRAP
  }

  /** 1024-byte blocks in 512-byte sectors, in 32-bit arithmetic. */
  function Sector(blockno: int): int {
    blockno * 2 % 0x1_0000_0000
  }

  predicate Shape(s: State) {
    && |s.free| == NUM && |s.desc| == NUM && |s.ops| == NUM && |s.info| == NUM
    && |s.rings.avail| == NUM && |s.rings.used| == NUM
  }

  predicate Distinct(d0: int, d1: int, d2: int) {
    0 <= d0 < NUM && 0 <= d1 < NUM && 0 <= d2 < NUM && d0 != d1 && d0 != d2 && d1 != d2
  }

  // ----- the steps -----

  predicate CanIssue(s: State, e: Step)
    requires e.Issue?
  {
    && Shape(s) && Distinct(e.d0, e.d1, e.d2) && s.free[e.d0] && s.free[e.d1] && s.free[e.d2]
    && e.t !in s.reqs && (forall t :: t in s.reqs ==> s.reqs[t].buf != e.buf)
  }

  function Filled(desc: seq<Desc>, buf: int, write: bool, d0: int, d1: int, d2: int): seq<Desc>
    requires |desc| == NUM && Distinct(d0, d1, d2)
  {
    desc[d0 := Desc(Header(d0), true, false, d1)]
        [d1 := Desc(Data(buf), true, !write, d2)]
        [d2 := Desc(Status(d0), false, true, 0)]
  }

  function AfterIssue(s: State, e: Step): State
    requires e.Issue? && CanIssue(s, e)
  {
    var op := Op(e.write, Sector(e.blockno));
    var r := s.rings;
    State(
      s.free[e.d0 := false][e.d1 := false][e.d2 := false],
      Filled(s.desc, e.buf, e.write, e.d0, e.d1, e.d2),
      s.ops[e.d0 := op],
      s.info[e.d0 := Info(Some(e.buf), 0xff)],
      r.(avail := r.avail[Pos(r.availIdx) := e.d0], availIdx := Idx(r.availIdx + 1)),
      s.busy + {e.buf},
      s.held,
      s.reqs[e.t := Request(e.buf, op, e.d0, e.d1, e.d2, Queued(|s.past.published|))],
      s.owner[e.d0 := e.t][e.d1 := e.t][e.d2 := e.t],
      s.past.(published := s.past.published + [e.t]))
  }

  predicate CanTake(s: State) {
    Shape(s) && s.rings.seenAvail != s.rings.availIdx
  }

  function AfterTake(s: State): State
    requires CanTake(s)
  {
    var head := s.rings.avail[Pos(s.rings.seenAvail)];
    s.(rings := s.rings.(seenAvail := Idx(s.rings.seenAvail + 1)),
       held := s.held + {head},
       reqs := Restage(s, head, Held),
       past := s.past.(taken := s.past.taken + 1))
  }

  /** The request that owns a head descriptor moves to a new stage. */
  function Restage(s: State, head: int, to: Stage): map<int, Request> {
    if head in s.owner && s.owner[head] in s.reqs
    then s.reqs[s.owner[head] := s.reqs[s.owner[head]].(stage := to)] else s.reqs
  }

  predicate CanServe(s: State, head: int) {
    Shape(s) && 0 <= head < NUM && head in s.held
  }

  /** The device finishes a command: it answers through the chain's status descriptor and puts
    * the head on the used ring. */
  function AfterServe(s: State, head: int): State
    requires CanServe(s, head)
  {
    var r := s.rings;
    var c := Command(s.desc, s.ops, head);
    s.(info := if c.Some? then s.info[c.value.status := s.info[c.value.status].(status := 0)] else s.info,
       rings := r.(used := r.used[Pos(r.usedIdx) := head], usedIdx := Idx(r.usedIdx + 1)),
       held := s.held - {head},
       reqs := Restage(s, head, Served(|s.past.completed|)),
       past := s.past.(completed := s.past.completed + [if head in s.owner then s.owner[head] else 0]))
  }

  predicate CanHandle(s: State) {
    Shape(s) && s.rings.seenUsed != s.rings.usedIdx && 0 <= s.rings.used[Pos(s.rings.seenUsed)] < NUM
  }

  /** One turn of the handler's loop; a nonzero status would be a panic. */
  function AfterHandle(s: State): State
    requires CanHandle(s)
  {
    var id := s.rings.used[Pos(s.rings.seenUsed)];
    s.(rings := s.rings.(seenUsed := Idx(s.rings.seenUsed + 1)),
       busy := if s.info[id].b.Some? then s.busy - {s.info[id].b.value} else s.busy,
       reqs := Restage(s, id, Done),
       past := s.past.(seen := s.past.seen + 1))
  }

  predicate CanFinish(s: State, t: int) {
    Shape(s) && t in s.reqs && s.reqs[t].buf !in s.busy
  }

  const CLEAR := Desc(Null, false, false, 0)

  function AfterFinish(s: State, t: int): State
    requires CanFinish(s, t) && Distinct(s.reqs[t].d0, s.reqs[t].d1, s.reqs[t].d2)
  {
    var r := s.reqs[t];
    s.(free := s.free[r.d0 := true][r.d1 := true][r.d2 := true],
       desc := s.desc[r.d0 := CLEAR][r.d1 := CLEAR][r.d2 := CLEAR],
       info := s.info[r.d0 := s.info[r.d0].(b := None)],
       reqs := s.reqs - {t},
       owner := s.owner - {r.d0, r.d1, r.d2})
  }

  predicate Enabled(s: State, e: Step) {
    match e
    case Issue(_, _, _, _, _, _, _) => CanIssue(s, e)
    case Take => CanTake(s)
    case Serve(head) => CanServe(s, head)
    case Handle => CanHandle(s)
    case Finish(t) => CanFinish(s, t) && Distinct(s.reqs[t].d0, s.reqs[t].d1, s.reqs[t].d2)
  }

  function Do(s: State, e: Step): State
    requires Enabled(s, e)
  {
    match e
    case Issue(_, _, _, _, _, _, _) => AfterIssue(s, e)
    case Take => AfterTake(s)
    case Serve(head) => AfterServe(s, head)
    case Handle => AfterHandle(s)
    case Finish(t) => AfterFinish(s, t)
  }

  // ----- what the device reads -----

  /** A command as the device finds it by following a chain: operation, sector, the buffer whose
    * data it moves and in which direction, and the status byte it answers in. */
  datatype Cmd = Cmd(op: Op, buf: int, deviceWrites: bool, status: nat)

  function Command(desc: seq<Desc>, ops: seq<Op>, head: int): (r: Option<Cmd>)
    requires |desc| == NUM && |ops| == NUM && 0 <= head < NUM
    ensures r.Some? ==> r.value.status < NUM
  {
    var a := desc[head];
    if !a.more || a.next >= NUM || !a.addr.Header? || a.addr.slot >= NUM then None else
    var b := desc[a.next];
    if !b.more || b.next >= NUM || !b.addr.Data? then None else
    var c := desc[b.next];
    if c.more || !c.addr.Status? || c.addr.slot >= NUM || !c.devWrites then None else
    Some(Cmd(ops[a.addr.slot], b.addr.buf, b.devWrites, c.addr.slot))
  }

  // ----- the invariant -----

  /** The request's three descriptors are taken, chained, and describe what it asked for. */
  ghost predicate Owns(s: State, t: int)
    requires Shape(s) && t in s.reqs
  {
    var r := s.reqs[t];
    && Distinct(r.d0, r.d1, r.d2)
    && !s.free[r.d0] && !s.free[r.d1] && !s.free[r.d2]
    && r.d0 in s.owner && s.owner[r.d0] == t && r.d1 in s.owner && s.owner[r.d1] == t && r.d2 in s.owner && s.owner[r.d2] == t
    && s.desc[r.d0] == Desc(Header(r.d0), true, false, r.d1)
    && s.desc[r.d1] == Desc(Data(r.buf), true, !r.op.write, r.d2)
    && s.desc[r.d2] == Desc(Status(r.d0), false, true, 0)
    && s.ops[r.d0] == r.op && s.info[r.d0].b == Some(r.buf)
  }

  /** Descriptors not free belong to one of a request's three; the rest are free. */
  ghost predicate Owned(s: State)
    requires Shape(s)
  {
    && (forall t :: t in s.reqs ==> Owns(s, t))
    && (forall d :: 0 <= d < NUM ==> (s.free[d] <==> d !in s.owner))
    && (forall d :: d in s.owner ==>
          0 <= d < NUM && s.owner[d] in s.reqs && d in {s.reqs[s.owner[d]].d0, s.reqs[s.owner[d]].d1, s.reqs[s.owner[d]].d2})
  }

  /** A buffer is marked in flight exactly until its own completion is handled. */
  ghost predicate Buffers(s: State) {
    && (forall t :: t in s.reqs ==> (s.reqs[t].buf in s.busy <==> s.reqs[t].stage != Done))
    && (forall t, u :: t in s.reqs && u in s.reqs && t != u ==> s.reqs[t].buf != s.reqs[u].buf)
  }

  /** The available ring holds the untaken heads at their positions. */
  ghost predicate Available(s: State)
    requires Shape(s)
  {
    var h := s.past;
    && h.taken <= |h.published|
    && s.rings.availIdx == Idx(|h.published|) && s.rings.seenAvail == Idx(h.taken)
    && (forall k :: h.taken <= k < |h.published| ==>
          && h.published[k] in s.reqs && s.reqs[h.published[k]].stage == Queued(k)
          && s.rings.avail[Pos(k)] == s.reqs[h.published[k]].d0)
    && (forall t :: t in s.reqs && s.reqs[t].stage.Queued? ==>
          h.taken <= s.reqs[t].stage.k < |h.published| && h.published[s.reqs[t].stage.k] == t)
  }

  /** The used ring holds the unseen completions at their positions, answered with success. */
  ghost predicate Completed(s: State)
    requires Shape(s)
  {
    var h := s.past;
    && h.seen <= |h.completed|
    && s.rings.usedIdx == Idx(|h.completed|) && s.rings.seenUsed == Idx(h.seen)
    && (forall k :: h.seen <= k < |h.completed| ==>
          && h.completed[k] in s.reqs && s.reqs[h.completed[k]].stage == Served(k)
          && s.rings.used[Pos(k)] == s.reqs[h.completed[k]].d0)
    && (forall t :: t in s.reqs && s.reqs[t].stage.Served? ==>
          h.seen <= s.reqs[t].stage.k < |h.completed| && h.completed[s.reqs[t].stage.k] == t)
    && (forall t :: t in s.reqs && s.reqs[t].stage.Served? && 0 <= s.reqs[t].d0 < NUM ==> s.info[s.reqs[t].d0].status == 0)
  }

  ghost predicate InDevice(s: State) {
    && (forall h :: h in s.held ==> h in s.owner && s.owner[h] in s.reqs && s.reqs[s.owner[h]].d0 == h && s.reqs[s.owner[h]].stage == Held)
    && (forall t :: t in s.reqs && s.reqs[t].stage == Held ==>
          s.reqs[t].d0 in s.held && s.reqs[t].d0 in s.owner && s.owner[s.reqs[t].d0] == t)
  }

  ghost predicate Inv(s: State) {
    Shape(s) && Owned(s) && Buffers(s) && Available(s) && Completed(s) && InDevice(s) && Counts(s)
  }

  // ----- counting descriptors -----

  function Count(free: seq<bool>): nat {
    if free == [] then 0 else Count(free[..|free| - 1]) + if free[|free| - 1] then 1 else 0
  }

  /** Three descriptors per request, and the rest free. */
  ghost predicate Counts(s: State) {
    Count(s.free) + 3 * |s.reqs| == NUM
  }

  lemma {:induction false} CountSet(free: seq<bool>, i: nat, b: bool)
    requires i < |free|
    ensures Count(free[i := b]) == Count(free) - (if free[i] then 1 else 0) + (if b then 1 else 0)
  {
    var n := |free| - 1;
    if i == n {
      assert free[i := b][..n] == free[..n];
    } else {
      CountSet(free[..n], i, b);
      assert free[i := b][..n] == free[..n][i := b];
    }
  }

  lemma CountThree(free: seq<bool>, d0: int, d1: int, d2: int, b: bool)
    requires |free| == NUM && Distinct(d0, d1, d2) && free[d0] == free[d1] == free[d2] == !b
    ensures Count(free[d0 := b][d1 := b][d2 := b]) == Count(free) + (if b then 3 else -3)
  {
    CountSet(free, d0, b);
    CountSet(free[d0 := b], d1, b);
    CountSet(free[d0 := b][d1 := b], d2, b);
  }

  lemma ThreeKeys(reqs: map<int, Request>, a: int, b: int, c: int)
    requires a in reqs && b in reqs && c in reqs && a != b && a != c && b != c
    ensures |reqs| >= 3
  {
    var rest := reqs.Keys - {a} - {b};
    assert c in rest;
    assert |reqs.Keys| == |rest| + 2;
  }

  /** At most two requests exist, so at most two positions of a ring are pending. */
  lemma FewPending(s: State)
    requires Shape(s) && Counts(s) && Available(s) && Completed(s)
    ensures |s.past.published| - s.past.taken <= 2
    ensures |s.past.completed| - s.past.seen <= 2
  {
    hide Count;
    var h := s.past;
    if |h.published| - h.taken > 2 {
      ThreeKeys(s.reqs, h.published[h.taken], h.published[h.taken + 1], h.published[h.taken + 2]);
    }
    if |h.completed| - h.seen > 2 {
      ThreeKeys(s.reqs, h.completed[h.seen], h.completed[h.seen + 1], h.completed[h.seen + 2]);
    }
  }

  /** Wrapping at 16 bits keeps the ring position, and never confuses nearby counts. */
  lemma Wraps(n: int)
    ensures Pos(Idx(n)) == Pos(n) && Idx(Idx(n) + 1) == Idx(n + 1)
  {
    var q, r := n / WRAP, n % WRAP;
    SameSlot(q, r);
    SameIndex(q, r + 1);
  }

  lemma SameSlot(q: int, r: int)
    ensures Pos(WRAP * q + r) == Pos(r)
  {
    assert WRAP * q + r == NUM * (8192 * q) + r;
  }

  lemma SameIndex(q: int, r: int)
    ensures Idx(WRAP * q + r) == Idx(r)
  {
  }

  lemma Near(a: int, b: int)
    requires a <= b <= a + 2
    ensures Idx(a) == Idx(b) <==> a == b
    ensures a < b ==> Pos(a) != Pos(b)
  {
  }

  // ----- every step keeps it: publishing -----

  /** A request whose descriptors are left alone still owns them. */
  lemma OwnsStill(s: State, u: State, t: int)
    requires Shape(s) && Shape(u) && t in s.reqs && Owns(s, t) && t in u.reqs
    requires u.reqs[t].(stage := s.reqs[t].stage) == s.reqs[t]
    requires forall d :: d in {s.reqs[t].d0, s.reqs[t].d1, s.reqs[t].d2} ==>
               0 <= d < NUM && !u.free[d] && d in u.owner && u.owner[d] == t && u.desc[d] == s.desc[d]
               && u.ops[d] == s.ops[d] && u.info[d].b == s.info[d].b
    ensures Owns(u, t)
  {
  }

  lemma IssueOld(s: State, e: Step, t: int)
    requires e.Issue? && CanIssue(s, e) && t in s.reqs && Owns(s, t)
    ensures Owns(AfterIssue(s, e), t)
  {
    var u := AfterIssue(s, e);
    forall d | d in {s.reqs[t].d0, s.reqs[t].d1, s.reqs[t].d2}
      ensures 0 <= d < NUM && !u.free[d] && d in u.owner && u.owner[d] == t && u.desc[d] == s.desc[d]
      ensures u.ops[d] == s.ops[d] && u.info[d] == s.info[d]
    {
      assert !s.free[d] && d != e.d0 && d != e.d1 && d != e.d2;
    }
    hide AfterIssue;
    assert u.reqs[t] == s.reqs[t] by { IssueReqs(s, e); }
    OwnsStill(s, u, t);
  }

  lemma IssueReqs(s: State, e: Step)
    requires e.Issue? && CanIssue(s, e)
    ensures Shape(AfterIssue(s, e)) && AfterIssue(s, e).reqs.Keys == s.reqs.Keys + {e.t}
    ensures forall t :: t in s.reqs ==> AfterIssue(s, e).reqs[t] == s.reqs[t]
    ensures |AfterIssue(s, e).reqs| == |s.reqs| + 1
  {
    hide Sector, Idx;
  }

  lemma IssueNew(s: State, e: Step)
    requires e.Issue? && CanIssue(s, e)
    ensures Shape(AfterIssue(s, e)) && Owns(AfterIssue(s, e), e.t)
  {
  }

  lemma IssueOwned(s: State, e: Step)
    requires e.Issue? && CanIssue(s, e) && Owned(s)
    ensures Owned(AfterIssue(s, e))
  {
    hide Owns, AfterIssue;
    var u := AfterIssue(s, e);
    IssueReqs(s, e);
    IssueOwner(s, e);
    forall t | t in u.reqs
      ensures Owns(u, t)
    {
      if t == e.t { IssueNew(s, e); } else { IssueOld(s, e, t); }
    }
  }

  lemma IssueOwner(s: State, e: Step)
    requires e.Issue? && CanIssue(s, e) && Owned(s)
    ensures var u := AfterIssue(s, e);
            && Shape(u) && (forall d :: 0 <= d < NUM ==> (u.free[d] <==> d !in u.owner))
            && (forall d :: d in u.owner ==>
                  0 <= d < NUM && u.owner[d] in u.reqs
                  && d in {u.reqs[u.owner[d]].d0, u.reqs[u.owner[d]].d1, u.reqs[u.owner[d]].d2})
  {
    hide Owns, Sector, Idx;
    var u := AfterIssue(s, e);
    IssueReqs(s, e);
    forall d | 0 <= d < NUM
      ensures u.free[d] <==> d !in u.owner
    {
      assert u.free[d] <==> s.free[d] && d != e.d0 && d != e.d1 && d != e.d2;
    }
    forall d | d in u.owner
      ensures 0 <= d < NUM && u.owner[d] in u.reqs
      ensures d in {u.reqs[u.owner[d]].d0, u.reqs[u.owner[d]].d1, u.reqs[u.owner[d]].d2}
    {
      assert u.owner[d] == if d == e.d0 || d == e.d1 || d == e.d2 then e.t else s.owner[d];
    }
  }

  lemma IssueAvailable(s: State, e: Step)
    requires e.Issue? && CanIssue(s, e) && Available(s) && |s.past.published| - s.past.taken <= 2
    ensures Available(AfterIssue(s, e))
  {
    var h := s.past;
    Wraps(|h.published|);
    forall k | h.taken <= k < |h.published|
      ensures Pos(k) != Pos(|h.published|)
    {
      Near(k, |h.published|);
    }
  }

  /** The new request's descriptors are nobody else's. */
  lemma IssueApart(s: State, e: Step)
    requires e.Issue? && CanIssue(s, e) && Owned(s)
    ensures forall t :: t in s.reqs ==> s.reqs[t].d0 != e.d0
    ensures e.d0 !in s.owner && e.d1 !in s.owner && e.d2 !in s.owner
  {
    forall t | t in s.reqs
      ensures s.reqs[t].d0 != e.d0
    {
      assert Owns(s, t);
    }
  }

  lemma IssueCompleted(s: State, e: Step)
    requires e.Issue? && CanIssue(s, e) && Completed(s) && forall t :: t in s.reqs ==> s.reqs[t].d0 != e.d0
    ensures Completed(AfterIssue(s, e))
  {
    hide Filled, Pos, Idx;
  }

  lemma IssueInDevice(s: State, e: Step)
    requires e.Issue? && CanIssue(s, e) && Buffers(s) && InDevice(s)
    requires e.d0 !in s.owner && e.d1 !in s.owner && e.d2 !in s.owner
    ensures Buffers(AfterIssue(s, e)) && InDevice(AfterIssue(s, e))
  {
    hide Filled, Pos, Idx;
  }

  lemma IssueCounts(s: State, e: Step)
    requires e.Issue? && CanIssue(s, e) && Counts(s)
    ensures Counts(AfterIssue(s, e))
  {
    hide Count, Filled;
    CountThree(s.free, e.d0, e.d1, e.d2, false);
    IssueReqs(s, e);
  }

  lemma IssueKept(s: State, e: Step)
    requires e.Issue? && CanIssue(s, e) && Inv(s)
    ensures Inv(AfterIssue(s, e))
  {
    hide AfterIssue, Owned, Buffers, Available, Completed, InDevice, Counts;
    FewPending(s);
    IssueReqs(s, e);
    IssueOwned(s, e);
    IssueAvailable(s, e);
    IssueApart(s, e);
    IssueCompleted(s, e);
    IssueInDevice(s, e);
    IssueCounts(s, e);
  }

  // ----- moving on -----

  /** A request's move from stage to stage touches no descriptor. */
  lemma OwnedMoves(s: State, t: int, to: Stage, u: State)
    requires Shape(s) && Shape(u) && Owned(s) && t in s.reqs
    requires u.free == s.free && u.desc == s.desc && u.ops == s.ops && u.owner == s.owner
    requires forall d :: 0 <= d < NUM ==> u.info[d].b == s.info[d].b
    requires u.reqs == s.reqs[t := s.reqs[t].(stage := to)]
    ensures Owned(u)
  {
    forall x | x in u.reqs
      ensures Owns(u, x)
    {
      assert Owns(s, x);
    }
  }

  /** The device takes the head its index points at: the oldest pending request. */
  lemma TakesOldest(s: State)
    requires CanTake(s) && Owned(s) && Available(s) && |s.past.published| - s.past.taken <= 2
    ensures s.past.taken < |s.past.published| && s.past.published[s.past.taken] in s.reqs
    ensures var t := s.past.published[s.past.taken];
            && s.reqs[t].stage == Queued(s.past.taken)
            && s.rings.avail[Pos(s.rings.seenAvail)] == s.reqs[t].d0
            && Restage(s, s.reqs[t].d0, Held) == s.reqs[t := s.reqs[t].(stage := Held)]
  {
    Wraps(s.past.taken);
    var t := s.past.published[s.past.taken];
    assert Owns(s, t);
  }

  /** Moves between other stages leave the available ring as it is. */
  lemma AvailableStays(s: State, t: int, to: Stage, u: State)
    requires Shape(s) && Shape(u) && Available(s) && t in s.reqs && !s.reqs[t].stage.Queued? && !to.Queued?
    requires u.reqs == s.reqs[t := s.reqs[t].(stage := to)]
    requires u.rings.avail == s.rings.avail && u.rings.availIdx == s.rings.availIdx && u.rings.seenAvail == s.rings.seenAvail
    requires u.past.published == s.past.published && u.past.taken == s.past.taken
    ensures Available(u)
  {
    hide Pos, Idx;
  }

  lemma CompletedStays(s: State, t: int, to: Stage, u: State)
    requires Shape(s) && Shape(u) && Completed(s) && t in s.reqs && !s.reqs[t].stage.Served? && !to.Served?
    requires u.reqs == s.reqs[t := s.reqs[t].(stage := to)] && u.info == s.info
    requires u.rings.used == s.rings.used && u.rings.usedIdx == s.rings.usedIdx && u.rings.seenUsed == s.rings.seenUsed
    requires u.past.completed == s.past.completed && u.past.seen == s.past.seen
    ensures Completed(u)
  {
    hide Pos, Idx;
  }

  lemma BuffersStay(s: State, t: int, to: Stage, u: State)
    requires Buffers(s) && t in s.reqs && s.reqs[t].stage != Done && to != Done
    requires u.reqs == s.reqs[t := s.reqs[t].(stage := to)] && u.busy == s.busy
    ensures Buffers(u)
  {
  }

  lemma TakeAvailable(s: State, t: int)
    requires CanTake(s) && Available(s) && s.past.taken < |s.past.published|
    requires t == s.past.published[s.past.taken] && t in s.reqs && s.reqs[t].stage == Queued(s.past.taken)
    requires AfterTake(s).reqs == s.reqs[t := s.reqs[t].(stage := Held)]
    ensures Available(AfterTake(s))
  {
    Wraps(s.past.taken);
    hide Pos, Idx, Restage;
  }

  lemma TakeInDevice(s: State, t: int)
    requires CanTake(s) && InDevice(s) && t in s.reqs && s.reqs[t].stage.Queued?
    requires s.rings.avail[Pos(s.rings.seenAvail)] == s.reqs[t].d0
    requires s.reqs[t].d0 in s.owner && s.owner[s.reqs[t].d0] == t
    requires AfterTake(s).reqs == s.reqs[t := s.reqs[t].(stage := Held)]
    ensures InDevice(AfterTake(s))
  {
    hide Pos, Idx, Restage;
  }

  lemma TakeKept(s: State)
    requires CanTake(s) && Inv(s)
    ensures Inv(AfterTake(s))
  {
    FewPending(s);
    TakesOldest(s);
    var t := s.past.published[s.past.taken];
    var u := AfterTake(s);
    assert Owns(s, t);
    hide Owned, Owns, Count, Restage, Buffers, Available, Completed, InDevice, Pos, Idx;
    OwnedMoves(s, t, Held, u);
    TakeAvailable(s, t);
    TakeInDevice(s, t);
    CompletedStays(s, t, Held, u);
    BuffersStay(s, t, Held, u);
  }

  /** What the device reads through the chain is what the thread asked for. */
  lemma DeviceSees(s: State, t: int)
    requires Shape(s) && t in s.reqs && Owns(s, t)
    ensures var r := s.reqs[t];
            Command(s.desc, s.ops, r.d0) == Some(Cmd(r.op, r.buf, !r.op.write, r.d0))
  {
  }

  lemma ServeCompleted(s: State, t: int)
    requires Shape(s) && Completed(s) && |s.past.completed| - s.past.seen <= 2
    requires t in s.reqs && s.reqs[t].stage == Held && 0 <= s.reqs[t].d0 < NUM && s.reqs[t].d0 in s.held
    requires s.reqs[t].d0 in s.owner && s.owner[s.reqs[t].d0] == t
    requires Command(s.desc, s.ops, s.reqs[t].d0).Some? && Command(s.desc, s.ops, s.reqs[t].d0).value.status == s.reqs[t].d0
    ensures Completed(AfterServe(s, s.reqs[t].d0))
  {
    var n := |s.past.completed|;
    Wraps(n);
    forall k | s.past.seen <= k < n
      ensures Pos(k) != Pos(n)
    {
      Near(k, n);
    }
    hide Pos, Idx, Command;
  }

  lemma ServeInDevice(s: State, t: int, u: State)
    requires InDevice(s) && t in s.reqs && s.reqs[t].d0 in s.owner && s.owner[s.reqs[t].d0] == t
    requires u.reqs == s.reqs[t := s.reqs[t].(stage := Served(|s.past.completed|))]
    requires u.held == s.held - {s.reqs[t].d0} && u.owner == s.owner
    ensures InDevice(u)
  {
  }

  lemma ServeKept(s: State, head: int)
    requires CanServe(s, head) && Inv(s)
    ensures Inv(AfterServe(s, head))
  {
    FewPending(s);
    var t := s.owner[head];
    assert Owns(s, t);
    DeviceSees(s, t);
    var u := AfterServe(s, head);
    var to := Served(|s.past.completed|);
    assert u.reqs == s.reqs[t := s.reqs[t].(stage := to)];
    hide Owned, Owns, Count, Buffers, Available, Completed, InDevice, Command, Pos, Idx, Restage;
    ServeCompleted(s, t);
    ServeInDevice(s, t, u);
    AvailableStays(s, t, to, u);
    BuffersStay(s, t, to, u);
    OwnedMoves(s, t, to, u);
  }

  /** The handler's next entry is the oldest unseen completion, answered with success, and the
    * buffer it clears is the one whose thread issued the request. */
  lemma HandlesOldest(s: State)
    requires CanHandle(s) && Owned(s) && Completed(s) && |s.past.completed| - s.past.seen <= 2
    ensures s.past.seen < |s.past.completed| && s.past.completed[s.past.seen] in s.reqs
    ensures var t := s.past.completed[s.past.seen];
            var id := s.rings.used[Pos(s.rings.seenUsed)];
            && s.reqs[t].stage == Served(s.past.seen) && id == s.reqs[t].d0
            && s.info[id].status == 0 && s.info[id].b == Some(s.reqs[t].buf)
            && Restage(s, id, Done) == s.reqs[t := s.reqs[t].(stage := Done)]
  {
    Wraps(s.past.seen);
    Near(s.past.seen, |s.past.completed|);
    var t := s.past.completed[s.past.seen];
    assert Owns(s, t);
  }

  lemma HandleCompleted(s: State, t: int)
    requires CanHandle(s) && Completed(s) && s.past.seen < |s.past.completed|
    requires t == s.past.completed[s.past.seen] && t in s.reqs && s.reqs[t].stage == Served(s.past.seen)
    requires AfterHandle(s).reqs == s.reqs[t := s.reqs[t].(stage := Done)]
    ensures Completed(AfterHandle(s))
  {
    Wraps(s.past.seen);
    hide Pos, Idx, Restage;
  }

  lemma HandleBuffers(s: State, t: int, u: State)
    requires Buffers(s) && InDevice(s) && t in s.reqs && s.reqs[t].stage.Served?
    requires u.reqs == s.reqs[t := s.reqs[t].(stage := Done)] && u.busy == s.busy - {s.reqs[t].buf}
    requires u.held == s.held && u.owner == s.owner
    ensures Buffers(u) && InDevice(u)
  {
  }

  lemma HandleKept(s: State)
    requires CanHandle(s) && Inv(s)
    ensures Inv(AfterHandle(s))
  {
    FewPending(s);
    HandlesOldest(s);
    hide Owned, Count, Restage, Buffers, Available, Completed, InDevice, Pos, Idx;
    var t := s.past.completed[s.past.seen];
    var u := AfterHandle(s);
    OwnedMoves(s, t, Done, u);
    HandleCompleted(s, t);
    HandleBuffers(s, t, u);
    AvailableStays(s, t, Done, u);
  }

  // ----- finishing -----

  lemma FinishOther(s: State, t: int, x: int)
    requires CanFinish(s, t) && Distinct(s.reqs[t].d0, s.reqs[t].d1, s.reqs[t].d2)
    requires Owns(s, t) && x in s.reqs && x != t && Owns(s, x)
    ensures Shape(AfterFinish(s, t)) && x in AfterFinish(s, t).reqs && Owns(AfterFinish(s, t), x)
    ensures s.reqs[x].d0 !in {s.reqs[t].d0, s.reqs[t].d1, s.reqs[t].d2}
  {
    var u := AfterFinish(s, t);
    OwnsStill(s, u, x);
  }

  lemma FinishOwned(s: State, t: int)
    requires CanFinish(s, t) && Owned(s) && Distinct(s.reqs[t].d0, s.reqs[t].d1, s.reqs[t].d2)
    ensures Shape(AfterFinish(s, t)) && Owned(AfterFinish(s, t))
    ensures forall x :: x in s.reqs && x != t ==> s.reqs[x].d0 !in {s.reqs[t].d0, s.reqs[t].d1, s.reqs[t].d2}
  {
    var u := AfterFinish(s, t);
    assert Owns(s, t);
    hide Owns;
    forall x | x in s.reqs && x != t
      ensures Owns(u, x) && s.reqs[x].d0 !in {s.reqs[t].d0, s.reqs[t].d1, s.reqs[t].d2}
    {
      FinishOther(s, t, x);
    }
  }

  lemma FinishRings(s: State, t: int)
    requires CanFinish(s, t) && Distinct(s.reqs[t].d0, s.reqs[t].d1, s.reqs[t].d2) && s.reqs[t].stage == Done
    requires Available(s) && Completed(s)
    requires forall x :: x in s.reqs && x != t ==> s.reqs[x].d0 !in {s.reqs[t].d0, s.reqs[t].d1, s.reqs[t].d2}
    ensures Available(AfterFinish(s, t)) && Completed(AfterFinish(s, t))
  {
    hide Pos, Idx;
  }

  lemma FinishRest(s: State, t: int)
    requires CanFinish(s, t) && Distinct(s.reqs[t].d0, s.reqs[t].d1, s.reqs[t].d2) && s.reqs[t].stage == Done
    requires Buffers(s) && InDevice(s)
    requires forall x :: x in s.reqs && x != t ==> s.reqs[x].d0 !in {s.reqs[t].d0, s.reqs[t].d1, s.reqs[t].d2}
    ensures Buffers(AfterFinish(s, t)) && InDevice(AfterFinish(s, t))
  {
    forall h | h in s.held
      ensures h !in {s.reqs[t].d0, s.reqs[t].d1, s.reqs[t].d2}
    {
      var x := s.owner[h];
      assert x in s.reqs && x != t && s.reqs[x].d0 == h;
    }
  }

  lemma DoneIsClear(s: State, t: int)
    requires Buffers(s) && t in s.reqs && s.reqs[t].buf !in s.busy
    ensures s.reqs[t].stage == Done
  {
  }

  lemma FinishKept(s: State, t: int)
    requires CanFinish(s, t) && Inv(s)
    ensures Distinct(s.reqs[t].d0, s.reqs[t].d1, s.reqs[t].d2) && Inv(AfterFinish(s, t))
  {
    assert Owns(s, t);
    hide Owned, Count, Buffers, Available, Completed, InDevice;
    FinishOwned(s, t);
    assert s.reqs[t].stage == Done by { DoneIsClear(s, t); }
    FinishRings(s, t);
    FinishRest(s, t);
    var r := s.reqs[t];
    CountThree(s.free, r.d0, r.d1, r.d2, true);
    assert (s.reqs - {t}).Keys == s.reqs.Keys - {t};
  }

  // ----- whole runs -----

  ghost predicate Boot(s: State) {
    && Shape(s) && s.reqs == map[] && s.owner == map[] && s.held == {} && s.busy == {}
    && s.free == [true, true, true, true, true, true, true, true]
    && s.past == Past([], 0, [], 0)
    && s.rings.availIdx == 0 && s.rings.usedIdx == 0 && s.rings.seenUsed == 0 && s.rings.seenAvail == 0
  }

  ghost predicate IsRun(run: seq<State>, steps: seq<Step>) {
    && |run| == |steps| + 1
    && Boot(run[0])
    && (forall i {:trigger steps[i]} :: 0 <= i < |steps| ==> Enabled(run[i], steps[i]) && run[i + 1] == Do(run[i], steps[i]))
  }

  lemma BootInv(s: State)
    requires Boot(s)
    ensures Inv(s)
  {
    AllCount(s.free, 8);
  }

  lemma {:induction false} AllCount(free: seq<bool>, n: nat)
    requires |free| == n && forall i :: 0 <= i < n ==> free[i]
    ensures Count(free) == n
  {
    if n > 0 { AllCount(free[..n - 1], n - 1); }
  }

  lemma InvKept(s: State, e: Step)
    requires Inv(s) && Enabled(s, e)
    ensures Inv(Do(s, e))
  {
    hide Inv;
    match e
    case Issue(_, _, _, _, _, _, _) => IssueKept(s, e);
    case Take => TakeKept(s);
    case Serve(head) => ServeKept(s, head);
    case Handle => HandleKept(s);
    case Finish(t) => FinishKept(s, t);
  }

  lemma {:induction false} RunInv(run: seq<State>, steps: seq<Step>, k: nat)
    requires IsRun(run, steps) && k < |run|
    ensures Inv(run[k])
  {
    hide Inv, Do, Enabled, Boot;
    if k == 0 {
      BootInv(run[0]);
    } else {
      RunInv(run, steps, k - 1);
      InvKept(run[k - 1], steps[k - 1]);
      assert run[k - 1 + 1] == Do(run[k - 1], steps[k - 1]);
    }
  }

  /** The descriptors of a request. */
  function Trio(r: Request): set<int> {
    {r.d0, r.d1, r.d2}
  }

  /** Descriptor i is no request's. */
  ghost predicate Unclaimed(s: State, i: int) {
    forall t :: t in s.reqs ==> i !in Trio(s.reqs[t])
  }

  /** Whenever the lock is free: every request owns three distinct chained descriptors, exactly
    * the descriptors of no request are free, NUM minus three per request of them, and no two
    * requests share one. */
  lemma ThreeEach(run: seq<State>, steps: seq<Step>, k: nat)
    requires IsRun(run, steps) && k < |run|
    ensures Shape(run[k]) && forall t :: t in run[k].reqs ==> Owns(run[k], t)
    ensures forall i :: 0 <= i < NUM ==>
              (run[k].free[i] <==> Unclaimed(run[k], i))
    ensures Count(run[k].free) == NUM - 3 * |run[k].reqs|
    ensures forall t, u :: t in run[k].reqs && u in run[k].reqs && t != u ==>
              Trio(run[k].reqs[t]) !! Trio(run[k].reqs[u])
  {
    hide Owns, Buffers, Available, Completed, InDevice;
    RunInv(run, steps, k);
    TriosApart(run[k]);
    forall i | 0 <= i < NUM
      ensures run[k].free[i] <==> Unclaimed(run[k], i)
    {
      FreeOrOwned(run[k], i);
    }
  }

  lemma TriosApart(s: State)
    requires Shape(s) && Owned(s)
    ensures forall t, u :: t in s.reqs && u in s.reqs && t != u ==> Trio(s.reqs[t]) !! Trio(s.reqs[u])
  {
    forall t, u | t in s.reqs && u in s.reqs && t != u
      ensures Trio(s.reqs[t]) !! Trio(s.reqs[u])
    {
      assert Owns(s, t) && Owns(s, u);
    }
  }

  lemma FreeOrOwned(s: State, i: int)
    requires Shape(s) && Owned(s) && 0 <= i < NUM
    ensures s.free[i] <==> Unclaimed(s, i)
  {
    if s.free[i] {
      forall t | t in s.reqs
        ensures i !in Trio(s.reqs[t])
      {
        assert Owns(s, t);
      }
    } else {
      assert i in s.owner;
      var t: int := s.owner[i];
      assert t in s.reqs && i in Trio(s.reqs[t]);
    }
  }

  /** A publication or a completion never overwrites a ring entry still to be read, at any
    * value of the 16-bit indices. */
  lemma NoOverwrite(run: seq<State>, steps: seq<Step>, k: nat, x: nat)
    requires IsRun(run, steps) && k < |run|
    ensures run[k].past.taken <= x < |run[k].past.published| ==> Pos(x) != Pos(run[k].rings.availIdx)
    ensures run[k].past.seen <= x < |run[k].past.completed| ==> Pos(x) != Pos(run[k].rings.usedIdx)
  {
    RunInv(run, steps, k);
    FewPending(run[k]);
    Wraps(|run[k].past.published|);
    Wraps(|run[k].past.completed|);
    if run[k].past.taken <= x < |run[k].past.published| { Near(x, |run[k].past.published|); }
    if run[k].past.seen <= x < |run[k].past.completed| { Near(x, |run[k].past.completed|); }
  }

  /** The handler finds success in every entry and clears exactly the buffer of the thread whose
    * request completed. */
  lemma ClearsIssuer(run: seq<State>, steps: seq<Step>, k: nat)
    requires IsRun(run, steps) && k < |steps| && steps[k] == Handle
    ensures var s := run[k];
            && CanHandle(s) && s.past.seen < |s.past.completed| && s.past.completed[s.past.seen] in s.reqs
            && s.info[s.rings.used[Pos(s.rings.seenUsed)]].status == 0
            && run[k + 1].busy == s.busy - {s.reqs[s.past.completed[s.past.seen]].buf}
  {
    assert Enabled(run[k], steps[k]) && run[k + 1] == Do(run[k], steps[k]);
    RunInv(run, steps, k);
    FewPending(run[k]);
    HandlesOldest(run[k]);
  }

  /** A thread's wait ends only after the device has served its own request. */
  lemma WaitsForOwn(run: seq<State>, steps: seq<Step>, k: nat, t: int)
    requires IsRun(run, steps) && k < |run| && t in run[k].reqs && run[k].reqs[t].buf !in run[k].busy
    ensures run[k].reqs[t].stage == Done
  {
    RunInv(run, steps, k);
  }

  /** Whatever the device holds is a request's head, and the chain it reads from there is that
    * request's command. */
  lemma DeviceServesRequests(run: seq<State>, steps: seq<Step>, k: nat, head: int)
    requires IsRun(run, steps) && k < |run| && head in run[k].held
    ensures var s := run[k];
            && Shape(s) && 0 <= head < NUM && head in s.owner && s.owner[head] in s.reqs
            && var r := s.reqs[s.owner[head]];
               r.d0 == head && Command(s.desc, s.ops, head) == Some(Cmd(r.op, r.buf, !r.op.write, head))
  {
    RunInv(run, steps, k);
    assert Owns(run[k], run[k].owner[head]);
    DeviceSees(run[k], run[k].owner[head]);
  }

  // ----- the code -----

  /** Following the next links from i visits exactly these descriptors. */
  ghost predicate Chained(desc: seq<Desc>, i: int, chain: seq<int>)
    requires |desc| == NUM
    decreases |chain|
  {
    && chain != [] && chain[0] == i && 0 <= i < NUM && i !in chain[1..]
    && (if |chain| == 1 then !desc[i].more else desc[i].more && Chained(desc, desc[i].next, chain[1..]))
  }

  /** A request's chain is its three descriptors. */
  lemma RequestChain(s: State, t: int)
    requires Shape(s) && t in s.reqs && Owns(s, t)
    ensures var r := s.reqs[t];
            Chained(s.desc, r.d0, [r.d0, r.d1, r.d2])
  {
    var r := s.reqs[t];
    var chain := [r.d0, r.d1, r.d2];
    assert chain[1..] == [r.d1, r.d2] && chain[1..][1..] == [r.d2];
  }

  /** The free flags after giving back a set of descriptors. */
  ghost predicate Returned(free0: seq<bool>, free1: seq<bool>, back: seq<int>) {
    |free1| == |free0| && forall d :: 0 <= d < |free0| ==> free1[d] == (free0[d] || d in back)
  }

  ghost predicate Cleared(desc0: seq<Desc>, desc1: seq<Desc>, back: seq<int>) {
    |desc1| == |desc0| && forall d :: 0 <= d < |desc0| ==> desc1[d] == (if d in back then CLEAR else desc0[d])
  }

  ghost predicate AllTaken(free: seq<bool>, chain: seq<int>) {
    forall k :: 0 <= k < |chain| ==> 0 <= chain[k] < |free| && !free[chain[k]]
  }

  class Queue {
    const free: array<bool>
    const desc: array<Desc>

    ghost predicate Valid()
      reads this
    {
      free.Length == NUM && desc.Length == NUM
    }

    constructor ()
      ensures Valid() && fresh(free) && fresh(desc) && forall d :: 0 <= d < NUM ==> free[d]
    {
      free := new bool[NUM](_ => true);
      desc := new Desc[NUM](_ => CLEAR);
    }

    /** The lowest free descriptor, now taken; none exactly when all are taken. */
    method AllocDesc() returns (r: Option<nat>)
      requires Valid()
      modifies free
      ensures r.None? ==> free[..] == old(free[..]) && Count(old(free[..])) == 0
      ensures r.Some? ==> r.value < NUM && old(free[r.value]) && free[..] == old(free[..])[r.value := false]
      ensures r.Some? ==> forall d :: 0 <= d < r.value ==> !old(free[d])
      ensures r.Some? ==> Count(free[..]) == Count(old(free[..])) - 1
    {
      var i := 0;
      while i < NUM
        invariant 0 <= i <= NUM && free[..] == old(free[..])
        invariant forall d :: 0 <= d < i ==> !free[d]
      {
        if free[i] {
          CountSet(free[..], i, false);
          free[i] := false;
          assert free[..] == old(free[..])[i := false];
          return Some(i);
        }
        i := i + 1;
      }
      NoneCount(free[..], NUM);
      return None;
    }

    /** Giving back a descriptor that is free already is a panic: nothing changes. */
    method FreeDesc(i: nat) returns (ok: bool)
      requires Valid() && i < NUM
      modifies free, desc
      ensures ok == !old(free[i])
      ensures ok ==> free[..] == old(free[..])[i := true] && desc[..] == old(desc[..])[i := CLEAR]
      ensures ok ==> Count(free[..]) == Count(old(free[..])) + 1
      ensures !ok ==> free[..] == old(free[..]) && desc[..] == old(desc[..])
    {
      if free[i] {
        return false;
      }
      CountSet(free[..], i, true);
      desc[i] := CLEAR;
      free[i] := true;
      assert free[..] == old(free[..])[i := true] && desc[..] == old(desc[..])[i := CLEAR];
      return true;
    }

    /** One turn of free_chain's loop. */
    method FreeLink(i: int, ghost rest: seq<int>) returns (more: bool, nxt: int)
      requires Valid() && Chained(desc[..], i, rest) && AllTaken(free[..], rest)
      modifies free, desc
      ensures 0 <= i < NUM && rest != [] && rest[0] == i
      ensures free[..] == old(free[..])[i := true] && desc[..] == old(desc[..])[i := CLEAR]
      ensures !more ==> rest == [i]
      ensures more ==> Chained(desc[..], nxt, rest[1..]) && AllTaken(free[..], rest[1..])
    {
      hide Chained, Count;
      ChainFacts(desc[..], i, rest);
      more, nxt := desc[i].more, desc[i].next;
      ghost var was := desc[..];
      assert i in rest;
      var ok := FreeDesc(i);
      if more {
        ChainApart(was, desc[..], nxt, rest[1..], i);
      }
    }

    /** Gives back exactly the descriptors of the chain, however long. */
    method FreeChain(head: nat, ghost chain: seq<int>)
      requires Valid() && Chained(desc[..], head, chain) && AllTaken(free[..], chain)
      modifies free, desc
      ensures Returned(old(free[..]), free[..], chain) && Cleared(old(desc[..]), desc[..], chain)
    {
      hide Chained, AllTaken;
      var i: int := head;
      var more := true;
      ghost var rest, gone := chain, chain[..0];
      while more
        invariant more ==> Chained(desc[..], i, rest) && AllTaken(free[..], rest) && gone + rest == chain
        invariant !more ==> gone == chain
        invariant Returned(old(free[..]), free[..], gone) && Cleared(old(desc[..]), desc[..], gone)
        decreases more, |rest|
      {
        ghost var flags, was := free[..], desc[..];
        var nxt;
        more, nxt := FreeLink(i, rest);
        ReturnedOne(old(free[..]), flags, free[..], gone, i);
        ClearedOne(old(desc[..]), was, desc[..], gone, i);
        assert rest == [rest[0]] + rest[1..];
        gone := gone + [i];
        rest := rest[1..];
        i := nxt;
      }
    }

    /** virtio_disk_rw's writing of the chain. */
    method Fill(buf: int, write: bool, d0: nat, d1: nat, d2: nat)
      requires Valid() && Distinct(d0, d1, d2)
      modifies desc
      ensures desc[..] == Filled(old(desc[..]), buf, write, d0, d1, d2)
      ensures Chained(desc[..], d0, [d0, d1, d2])
    {
      desc[d0] := Desc(Header(d0), true, false, d1);
      desc[d1] := Desc(Data(buf), true, !write, d2);
      desc[d2] := Desc(Status(d0), false, true, 0);
      ghost var chain: seq<int> := [d0, d1, d2];
      assert chain[1..] == [d1, d2] && chain[1..][1..] == [d2];
    }

    /** Three descriptors or none: it fails exactly when fewer than three are free, and then
      * leaves the free ones as they were. */
    method Alloc3() returns (r: Option<(nat, nat, nat)>)
      requires Valid()
      modifies free, desc
      ensures r.None? <==> Count(old(free[..])) < 3
      ensures r.None? ==> free[..] == old(free[..])
      ensures r.Some? ==> Distinct(r.value.0, r.value.1, r.value.2)
      ensures r.Some? ==> old(free[r.value.0]) && old(free[r.value.1]) && old(free[r.value.2])
      ensures r.Some? ==> free[..] == old(free[..])[r.value.0 := false][r.value.1 := false][r.value.2 := false]
    {
      var a := AllocDesc();
      if a.None? {
        return None;
      }
      var b := AllocDesc();
      if b.None? {
        var ok := FreeDesc(a.value);
        assert free[..] == old(free[..]);
        return None;
      }
      var c := AllocDesc();
      if c.None? {
        var ok := FreeDesc(a.value);
        ok := FreeDesc(b.value);
        assert free[..] == old(free[..]);
        return None;
      }
      return Some((a.value, b.value, c.value));
    }
  }

  lemma ChainFacts(desc: seq<Desc>, i: int, chain: seq<int>)
    requires |desc| == NUM && Chained(desc, i, chain)
    ensures 0 <= i < NUM && chain != [] && chain[0] == i
    ensures !desc[i].more ==> chain == [i]
    ensures desc[i].more ==> Chained(desc, desc[i].next, chain[1..]) && i !in chain[1..]
  {
  }

  lemma ClearedOne(desc0: seq<Desc>, desc1: seq<Desc>, desc2: seq<Desc>, back: seq<int>, i: int)
    requires Cleared(desc0, desc1, back) && 0 <= i < |desc1| && desc2 == desc1[i := CLEAR]
    ensures Cleared(desc0, desc2, back + [i])
  {
  }

  lemma ReturnedOne(free0: seq<bool>, free1: seq<bool>, free2: seq<bool>, back: seq<int>, i: int)
    requires Returned(free0, free1, back) && 0 <= i < |free1| && free2 == free1[i := true]
    ensures Returned(free0, free2, back + [i])
  {
  }

  /** A chain does not notice changes to descriptors outside it. */
  lemma {:induction false} ChainApart(desc0: seq<Desc>, desc1: seq<Desc>, i: int, chain: seq<int>, x: int)
    requires |desc0| == |desc1| == NUM && Chained(desc0, i, chain) && x !in chain
    requires forall d :: 0 <= d < NUM && d != x ==> desc1[d] == desc0[d]
    ensures Chained(desc1, i, chain)
    decreases |chain|
  {
    if |chain| > 1 { ChainApart(desc0, desc1, desc0[i].next, chain[1..], x); }
  }

  lemma {:induction false} NoneCount(free: seq<bool>, n: nat)
    requires |free| == n && forall i :: 0 <= i < n ==> !free[i]
    ensures Count(free) == 0
  {
    if n > 0 { NoneCount(free[..n - 1], n - 1); }
  }
}
