/** fork, exit and wait.  Every process takes the steps of kfork, kexit and kwait one locked
  * section at a time, interleaved with all other processes, with kill, and with unrelated
  * sleeps and wakeups.  Process p's own channel is p + 1; channels above the table size
  * belong to the rest of the kernel. */
module ExitWait {
  import opened Basics
  import opened Sleep

  /** How far a process is in kfork (Forking, Parented), kexit (Reparent, Rewake, WakeParent)
    * or kwait (Search, Prepared, Going, Slept). */
  datatype Pc =
    | Idle
    | Forking(child: nat)
    | Parented(child: nat)
    | Reparent(pos: nat)
    | Rewake(pos: nat, k: nat)
    | WakeParent(k: nat)
    | Search(pos: nat, kids: bool)
    | Prepared
    | Going
    | Slept

  /** What has happened to exit statuses: exited by pid, and what each successful kwait returned. */
  datatype Reap = Reap(pid: nat, status: int)
  datatype Past = Past(exited: map<nat, int>, reaped: seq<Reap>, slot: map<nat, nat>)

  datatype State = World(
    procs: seq<Proc>,
    parent: seq<Option<nat>>,
    xstate: seq<int>,
    pc: seq<Pc>,
    wait: Option<nat>,
    nextpid: nat,
    init: nat,
    past: Past)

  datatype Step =
    | Fork(p: nat, q: nat)
    | Abort(p: nat)
    | Adopt(p: nat)
    | Start(p: nat)
    | ExitBegin(p: nat)
    | ReparentOne(p: nat)
    | RewakeOne(p: nat)
    | ReparentDone(p: nat)
    | WakeOne(p: nat)
    | Die(p: nat, status: int)
    | WaitBegin(p: nat)
    | ScanOne(p: nat)
    | Reaps(p: nat)
    | ReapFails(p: nat)
    | GiveUp(p: nat)
    | Prepare(p: nat)
    | Drop(p: nat)
    | Doze(p: nat)
    | Relock(p: nat)
    | PrepareOther(p: nat, chan: nat)
    | DozeOther(p: nat)
    | Stray(p: nat)
    | Kill(p: nat)
    | Resume(p: nat)
    | Yield(p: nat)

  predicate Live(r: Run) {
    r == Runnable || r == Running || r == Sleeping
  }

  predicate Inside(at: Pc) {
    at.Reparent? || at.Rewake? || at.WakeParent? || at.Search? || at.Prepared?
  }

  predicate Shape(s: State) {
    |s.parent| == |s.procs| && |s.xstate| == |s.procs| && |s.pc| == |s.procs| && s.init < |s.procs|
  }

  /** Slot z is a child of p. */
  predicate Child(s: State, p: nat, z: nat)
    requires Shape(s) && z < |s.procs|
  {
    s.parent[z] == Some(p)
  }

  predicate Enabled(s: State, e: Step) {
    Shape(s) && e.p < |s.procs|
    && var n := |s.procs|;
       var at := s.pc[e.p];
       var me := s.procs[e.p];
       match e
       case Fork(p, q) => at.Idle? && me.run == Running && q < n && s.procs[q].run == Unused
       case Abort(p) => at.Forking? && me.run == Running && at.child < n
       case Adopt(p) => at.Forking? && me.run == Running && at.child < n && s.wait == None
       case Start(p) => at.Parented? && me.run == Running && at.child < n
       case ExitBegin(p) => at.Idle? && me.run == Running && s.wait == None && p != s.init
       case ReparentOne(p) => at.Reparent? && me.run == Running && at.pos < n
       case RewakeOne(p) => at.Rewake? && me.run == Running && at.k <= n
       case ReparentDone(p) => at == Reparent(n) && me.run == Running
       case WakeOne(p) => at.WakeParent? && me.run == Running && at.k < n && s.parent[p].Some?
       case Die(p, status) => at == WakeParent(n) && me.run == Running
       case WaitBegin(p) => at.Idle? && me.run == Running && s.wait == None
       case ScanOne(p) =>
         at.Search? && me.run == Running && at.pos < n && !(Child(s, p, at.pos) && s.procs[at.pos].run == Zombie)
       case Reaps(p) =>
         at.Search? && me.run == Running && at.pos < n && Child(s, p, at.pos) && s.procs[at.pos].run == Zombie
       case ReapFails(p) =>
         at.Search? && me.run == Running && at.pos < n && Child(s, p, at.pos) && s.procs[at.pos].run == Zombie
       case GiveUp(p) => at.Search? && me.run == Running && at.pos == n && (!at.kids || me.killed)
       case Prepare(p) => at == Search(n, true) && me.run == Running && !me.killed
       case Drop(p) => at.Prepared? && me.run == Running
       case Doze(p) => at.Going? && me.run == Running
       case Relock(p) => at.Slept? && me.run == Running && s.wait == None
       case PrepareOther(p, c) => at.Idle? && me.run == Running && c > n
       case DozeOther(p) => at.Idle? && me.run == Running && (me.chan == 0 || me.chan > n)
       case Stray(p) => true
       case Kill(p) => true
       case Resume(p) => me.run == Runnable
       case Yield(p) => me.run == Running
  }

  function Go(s: State, p: nat, at: Pc): State
    requires Shape(s) && p < |s.procs|
  {
    s.(pc := s.pc[p := at])
  }

  function Put(s: State, p: nat, q: Proc): State
    requires Shape(s) && p < |s.procs|
  {
    s.(procs := s.procs[p := q])
  }

  const FREE := Proc(Unused, 0, false, 0)

  function AfterFork(s: State, p: nat, q: nat): State
    requires Shape(s) && p < |s.procs| && q < |s.procs|
  {
    Go(Put(s, q, s.procs[q].(run := Used, pid := s.nextpid)), p, Forking(q))
      .(nextpid := s.nextpid + 1, past := s.past.(slot := s.past.slot[s.nextpid := q]))
  }

  function AfterAbort(s: State, p: nat, q: nat): State
    requires Shape(s) && p < |s.procs| && q < |s.procs|
  {
    Go(Put(s, q, FREE), p, Idle).(xstate := s.xstate[q := 0])
  }

  function AfterAdopt(s: State, p: nat, q: nat): State
    requires Shape(s) && p < |s.procs| && q < |s.procs|
  {
    Go(s, p, Parented(q)).(parent := s.parent[q := Some(p)])
  }

  function AfterStart(s: State, p: nat, q: nat): State
    requires Shape(s) && p < |s.procs| && q < |s.procs|
  {
    Go(Put(s, q, s.procs[q].(run := Runnable)), p, Idle)
  }

  function AfterReparentOne(s: State, p: nat): State
    requires Shape(s) && p < |s.procs| && s.pc[p].Reparent? && s.pc[p].pos < |s.procs|
  {
    var pos := s.pc[p].pos;
    if Child(s, p, pos) then Go(s, p, Rewake(pos + 1, 0)).(parent := s.parent[pos := Some(s.init)])
    else Go(s, p, Reparent(pos + 1))
  }

  function AfterRewakeOne(s: State, p: nat): State
    requires Shape(s) && p < |s.procs| && s.pc[p].Rewake? && s.pc[p].k <= |s.procs|
  {
    var at := s.pc[p];
    if at.k == |s.procs| then Go(s, p, Reparent(at.pos))
    else Go(Put(s, at.k, Woken(s.procs[at.k], s.init + 1)), p, Rewake(at.pos, at.k + 1))
  }

  function AfterDie(s: State, p: nat, status: int): State
    requires Shape(s) && p < |s.procs|
  {
    Go(Put(s, p, s.procs[p].(run := Zombie)), p, Idle)
      .(xstate := s.xstate[p := status], wait := None,
        past := s.past.(exited := s.past.exited[s.procs[p].pid := status]))
  }

  function AfterReaps(s: State, p: nat): State
    requires Shape(s) && p < |s.procs| && s.pc[p].Search? && s.pc[p].pos < |s.procs|
  {
    var z := s.pc[p].pos;
    Go(Put(s, z, FREE), p, Idle)
      .(parent := s.parent[z := None], xstate := s.xstate[z := 0], wait := None,
        past := s.past.(reaped := s.past.reaped + [Reap(s.procs[z].pid, s.xstate[z])]))
  }

  function Do(s: State, e: Step): State
    requires Enabled(s, e)
  {
    var me := s.procs[e.p];
    var at := s.pc[e.p];
    match e
    case Fork(p, q) => AfterFork(s, p, q)
    case Abort(p) => AfterAbort(s, p, at.child)
    case Adopt(p) => AfterAdopt(s, p, at.child)
    case Start(p) => AfterStart(s, p, at.child)
    case ExitBegin(p) => Go(s, p, Reparent(0)).(wait := Some(p))
    case ReparentOne(p) => AfterReparentOne(s, p)
    case RewakeOne(p) => AfterRewakeOne(s, p)
    case ReparentDone(p) => Go(s, p, WakeParent(0))
    case WakeOne(p) =>
      Go(Put(s, at.k, Woken(s.procs[at.k], s.parent[p].value + 1)), p, WakeParent(at.k + 1))
    case Die(p, status) => AfterDie(s, p, status)
    case WaitBegin(p) => Go(s, p, Search(0, false)).(wait := Some(p))
    case ScanOne(p) => Go(s, p, Search(at.pos + 1, at.kids || Child(s, p, at.pos)))
    case Reaps(p) => AfterReaps(s, p)
    case ReapFails(p) => Go(s, p, Idle).(wait := None)
    case GiveUp(p) => Go(s, p, Idle).(wait := None)
    case Prepare(p) => Go(Put(s, p, me.(chan := p + 1)), p, Prepared)
    case Drop(p) => Go(s, p, Going).(wait := None)
    case Doze(p) => Go(Put(s, p, Dozed(me)), p, Slept)
    case Relock(p) => Go(s, p, Search(0, false)).(wait := Some(p))
    case PrepareOther(p, c) => Put(s, p, me.(chan := c))
    case DozeOther(p) => Put(s, p, Dozed(me))
    case Stray(p) => Put(s, p, Rouse(me).(chan := 0))
    case Kill(p) => Put(s, p, Killed(me))
    case Resume(p) => Put(s, p, me.(run := Running))
    case Yield(p) => Put(s, p, me.(run := Runnable))
  }

  // ----- the invariant -----

  ghost predicate Guarded(s: State)
    requires Shape(s)
  {
    forall p :: 0 <= p < |s.procs| ==> (Inside(s.pc[p]) <==> s.wait == Some(p))
  }

  /** Who is alive: whoever is in the middle of a call, and the first process. */
  ghost predicate Alive(s: State)
    requires Shape(s)
  {
    && Live(s.procs[s.init].run)
    && (forall p :: 0 <= p < |s.procs| && s.pc[p] != Idle ==> Live(s.procs[p].run))
    && (forall p :: 0 <= p < |s.procs| && (s.pc[p].Reparent? || s.pc[p].Rewake? || s.pc[p].WakeParent?) ==> p != s.init)
  }

  predicate Making(at: Pc) {
    at.Forking? || at.Parented?
  }

  /** A slot being created belongs to one creator, and has that parent only once stored. */
  ghost predicate Creators(s: State)
    requires Shape(s)
  {
    && (forall p :: 0 <= p < |s.procs| && Making(s.pc[p]) ==>
          && s.pc[p].child < |s.procs| && s.procs[s.pc[p].child].run == Used
          && s.parent[s.pc[p].child] == (if s.pc[p].Forking? then None else Some(p)))
    && (forall p, r :: 0 <= p < r < |s.procs| && Making(s.pc[p]) && Making(s.pc[r]) ==> s.pc[p].child != s.pc[r].child)
  }

  /** Parents are alive; everything that ran and is not the first process has a parent. */
  ghost predicate Family(s: State)
    requires Shape(s)
  {
    && (forall z {:trigger s.parent[z]} :: 0 <= z < |s.procs| && s.parent[z].Some? ==>
          s.parent[z].value < |s.procs| && Live(s.procs[s.parent[z].value].run))
    && (forall z {:trigger s.parent[z]} :: 0 <= z < |s.procs| && z != s.init && (Live(s.procs[z].run) || s.procs[z].run == Zombie) ==> s.parent[z].Some?)
    && (forall z {:trigger s.parent[z]} :: 0 <= z < |s.procs| && s.procs[z].run == Unused ==> s.parent[z] == None)
  }

  /** An exiting process has no child left behind its scan. */
  ghost predicate Emptied(s: State)
    requires Shape(s)
  {
    forall p, z :: 0 <= p < |s.procs| && 0 <= z < |s.procs| && Child(s, p, z) ==>
      && (s.pc[p].Reparent? || s.pc[p].Rewake? ==> s.pc[p].pos <= z)
      && !s.pc[p].WakeParent?
  }

  /** A waiting parent's scan has met no zombie, and no child at all if it counted none. */
  ghost predicate Scanned(s: State)
    requires Shape(s)
  {
    forall p, z :: 0 <= p < |s.procs| && 0 <= z < |s.procs| && Child(s, p, z) ==>
      && (s.pc[p].Search? && z < s.pc[p].pos ==> s.pc[p].kids && s.procs[z].run != Zombie)
      && (s.pc[p].Prepared? ==> s.procs[z].run != Zombie)
  }

  ghost predicate Sleepers(s: State)
    requires Shape(s)
  {
    && SleepersNamed(s.procs)
    && (forall p :: 0 <= p < |s.procs| && s.procs[p].run == Sleeping && s.procs[p].chan <= |s.procs| ==>
          s.procs[p].chan == p + 1 && s.pc[p] == Slept)
    && (forall p :: 0 <= p < |s.procs| && (s.pc[p].Prepared? || s.pc[p].Going?) && s.procs[p].chan != 0 ==>
          s.procs[p].chan == p + 1)
  }

  /** Asleep in kwait, or past its check and sure to fall asleep. */
  ghost predicate Waiting(s: State, p: nat)
    requires Shape(s)
  {
    p < |s.procs| && s.procs[p].chan == p + 1 && (s.pc[p].Going? || s.procs[p].run == Sleeping)
  }

  /** A wakeup of the first process, owed after a reparenting, is on its way. */
  ghost predicate Reaching(s: State, p: nat)
    requires Shape(s)
  {
    && p == s.init && s.wait.Some? && s.wait.value < |s.procs|
    && s.pc[s.wait.value].Rewake? && s.pc[s.wait.value].k <= p
  }

  ghost predicate NoMissed(s: State)
    requires Shape(s)
  {
    && (forall p, z :: 0 <= p < |s.procs| && 0 <= z < |s.procs| && Child(s, p, z) && s.procs[z].run == Zombie && Waiting(s, p) ==>
          Reaching(s, p))
    && (forall z, p :: 0 <= p < |s.procs| && 0 <= z < |s.procs| && Child(s, p, z) && s.pc[z].WakeParent? && p < s.pc[z].k ==>
          !Waiting(s, p))
  }

  ghost predicate Pids(s: State)
    requires Shape(s)
  {
    && 0 < s.nextpid
    && (forall z :: 0 <= z < |s.procs| && s.procs[z].run != Unused ==>
          && 0 < s.procs[z].pid < s.nextpid
          && s.procs[z].pid in s.past.slot && s.past.slot[s.procs[z].pid] == z)
    && (forall z :: 0 <= z < |s.procs| && s.procs[z].run == Unused ==> s.procs[z].pid == 0)
    && (forall x :: x in s.past.slot ==> x < s.nextpid && s.past.slot[x] < |s.procs|)
  }

  ghost predicate WasReaped(reaped: seq<Reap>, pid: nat) {
    exists i :: 0 <= i < |reaped| && reaped[i].pid == pid
  }

  ghost predicate History(s: State)
    requires Shape(s)
  {
    && (forall x :: x in s.past.exited ==> x in s.past.slot)
    && (forall i :: 0 <= i < |s.past.reaped| ==>
          s.past.reaped[i].pid in s.past.exited && s.past.exited[s.past.reaped[i].pid] == s.past.reaped[i].status)
    && (forall i, j :: 0 <= i < j < |s.past.reaped| ==> s.past.reaped[i].pid != s.past.reaped[j].pid)
    && (forall z :: 0 <= z < |s.procs| && s.procs[z].run == Zombie ==>
          && s.procs[z].pid in s.past.exited && s.past.exited[s.procs[z].pid] == s.xstate[z]
          && !WasReaped(s.past.reaped, s.procs[z].pid))
    && (forall z :: 0 <= z < |s.procs| && s.procs[z].run != Zombie && s.procs[z].run != Unused ==>
          s.procs[z].pid !in s.past.exited)
    && (forall x :: x in s.past.exited && !WasReaped(s.past.reaped, x) ==>
          x in s.past.slot && s.past.slot[x] < |s.procs|
          && s.procs[s.past.slot[x]].pid == x && s.procs[s.past.slot[x]].run == Zombie)
  }

  ghost predicate Inv(s: State) {
    && Shape(s) && Guarded(s) && Alive(s) && Creators(s) && Family(s) && Emptied(s) && Scanned(s)
    && Sleepers(s) && NoMissed(s) && Pids(s) && History(s)
  }

  // ----- steps that change no family tie -----

  datatype Kind = Nobody | Unborn | Breathing | Dead

  function KindOf(r: Run): Kind {
    match r
    case Unused => Nobody
    case Used => Unborn
    case Zombie => Dead
    case _ => Breathing
  }

  ghost predicate SameFamily(s: State, t: State)
    requires Shape(s)
  {
    && Shape(t) && |t.procs| == |s.procs|
    && t.parent == s.parent && t.xstate == s.xstate && t.past == s.past && t.nextpid == s.nextpid && t.init == s.init
    && (forall z :: 0 <= z < |s.procs| ==>
          KindOf(t.procs[z].run) == KindOf(s.procs[z].run) && t.procs[z].pid == s.procs[z].pid)
  }

  predicate Ties(e: Step) {
    e.Fork? || e.Abort? || e.Adopt? || e.Start? || e.ReparentOne? || e.Die? || e.Reaps?
  }

  /** How a step that keeps the ties may move its own process. */
  ghost predicate Moves(s: State, p: nat, to: Pc)
    requires Shape(s) && p < |s.procs|
  {
    var at := s.pc[p];
    var n := |s.procs|;
    at == to
    || (&& Live(s.procs[p].run)
        && !to.Forking? && !to.Parented? && !at.Forking? && !at.Parented?
        && (to.Reparent? ==> (to == Reparent(0) && p != s.init) || (at.Rewake? && at.pos == to.pos))
        && (to.Rewake? ==> at.Rewake? && at.pos == to.pos)
        && (to.WakeParent? ==> at.WakeParent? || at == Reparent(n))
        && (to.Search? ==>
              || to == Search(0, false)
              || (&& at.Search? && at.pos < n && to == Search(at.pos + 1, at.kids || Child(s, p, at.pos))
                  && !(Child(s, p, at.pos) && s.procs[at.pos].run == Zombie)))
        && (to.Prepared? ==> at == Search(n, true)))
  }

  ghost predicate Quiet(s: State, t: State, p: nat)
    requires Shape(s) && p < |s.procs|
  {
    SameFamily(s, t) && t.pc == s.pc[p := t.pc[p]] && Moves(s, p, t.pc[p])
  }

  lemma QuietSteps(s: State, e: Step)
    requires Enabled(s, e) && !Ties(e)
    ensures Shape(s) && e.p < |s.procs| && Quiet(s, Do(s, e), e.p)
  {
    QuietFamily(s, e);
    QuietMoves(s, e);
  }

  lemma QuietFamily(s: State, e: Step)
    requires Enabled(s, e) && !Ties(e)
    ensures Shape(s) && SameFamily(s, Do(s, e))
  {
    hide AfterFork, AfterAbort, AfterAdopt, AfterStart, AfterReparentOne, AfterDie, AfterReaps, SameFamily;
    var at := s.pc[e.p];
    OneSlot(s, Do(s, e), if (e.RewakeOne? || e.WakeOne?) && at.k < |s.procs| then at.k else e.p);
  }

  lemma OneSlot(s: State, t: State, x: nat)
    requires Shape(s) && Shape(t) && x < |s.procs| == |t.procs| && t.procs == s.procs[x := t.procs[x]]
    requires KindOf(t.procs[x].run) == KindOf(s.procs[x].run) && t.procs[x].pid == s.procs[x].pid
    requires t.parent == s.parent && t.xstate == s.xstate && t.past == s.past && t.nextpid == s.nextpid && t.init == s.init
    ensures SameFamily(s, t)
  {
  }

  lemma QuietMoves(s: State, e: Step)
    requires Enabled(s, e) && !Ties(e)
    ensures Shape(s) && e.p < |s.procs| && Shape(Do(s, e)) && |Do(s, e).procs| == |s.procs|
    ensures Do(s, e).pc == s.pc[e.p := Do(s, e).pc[e.p]] && Moves(s, e.p, Do(s, e).pc[e.p])
  {
    hide AfterFork, AfterAbort, AfterAdopt, AfterStart, AfterReparentOne, AfterDie, AfterReaps, Woken, Dozed, Killed;
  }

  lemma QuietKeeps(s: State, t: State, p: nat)
    requires Shape(s) && p < |s.procs| && Quiet(s, t, p)
    ensures Alive(s) ==> Alive(t)
    ensures Creators(s) ==> Creators(t)
    ensures Family(s) ==> Family(t)
    ensures Pids(s) ==> Pids(t)
    ensures History(s) ==> History(t)
  {
    forall z | 0 <= z < |s.procs|
      ensures Live(t.procs[z].run) == Live(s.procs[z].run)
      ensures (t.procs[z].run == Zombie) == (s.procs[z].run == Zombie)
      ensures (t.procs[z].run == Unused) == (s.procs[z].run == Unused)
      ensures (t.procs[z].run == Used) == (s.procs[z].run == Used)
    {
      assert KindOf(t.procs[z].run) == KindOf(s.procs[z].run);
    }
  }

  lemma QuietScans(s: State, t: State, p: nat)
    requires Shape(s) && p < |s.procs| && Quiet(s, t, p)
    ensures Emptied(s) ==> Emptied(t)
    ensures Scanned(s) ==> Scanned(t)
  {
    forall r, z | 0 <= r < |t.procs| && 0 <= z < |t.procs| && Child(t, r, z)
      ensures Emptied(s) && (t.pc[r].Reparent? || t.pc[r].Rewake?) ==> t.pc[r].pos <= z
      ensures Emptied(s) ==> !t.pc[r].WakeParent?
      ensures Scanned(s) && t.pc[r].Search? && z < t.pc[r].pos ==> t.pc[r].kids && t.procs[z].run != Zombie
      ensures Scanned(s) && t.pc[r].Prepared? ==> t.procs[z].run != Zombie
    {
      assert Child(s, r, z);
      assert KindOf(t.procs[z].run) == KindOf(s.procs[z].run);
    }
  }

  // ----- steps that do -----

  /** The parts of the invariant about family ties. */
  ghost predicate Tied(s: State)
    requires Shape(s)
  {
    Alive(s) && Creators(s) && Family(s) && Emptied(s) && Scanned(s)
  }

  /** A step that leaves p outside every scan, gives children only to p and kills nobody. */
  lemma ScansStay(s: State, t: State, p: nat)
    requires Shape(s) && Shape(t) && |t.procs| == |s.procs| && p < |s.procs| && Emptied(s) && Scanned(s)
    requires t.pc == s.pc[p := t.pc[p]] && !Inside(t.pc[p])
    requires forall z :: 0 <= z < |s.procs| ==> t.parent[z] in {s.parent[z], None, Some(p)}
    requires forall z :: 0 <= z < |s.procs| && t.procs[z].run == Zombie ==> s.procs[z].run == Zombie
    ensures Emptied(t) && Scanned(t)
  {
    forall r, z | 0 <= r < |t.procs| && 0 <= z < |t.procs| && Child(t, r, z) && r != p
      ensures Child(s, r, z)
    {
    }
  }

  lemma ForkTies(s: State, p: nat, q: nat)
    requires Shape(s) && p < |s.procs| && q < |s.procs| && s.pc[p] == Idle && s.procs[p].run == Running && s.procs[q].run == Unused && Tied(s)
    ensures Shape(AfterFork(s, p, q)) && Tied(AfterFork(s, p, q))
  {
    hide Alive, Creators, Family, Emptied, Scanned;
    ForkPeople(s, p, q);
    ScansStay(s, AfterFork(s, p, q), p);
  }

  lemma ForkPeople(s: State, p: nat, q: nat)
    requires Shape(s) && p < |s.procs| && q < |s.procs| && s.pc[p] == Idle && s.procs[p].run == Running && s.procs[q].run == Unused && Alive(s) && Creators(s) && Family(s)
    ensures Alive(AfterFork(s, p, q)) && Creators(AfterFork(s, p, q)) && Family(AfterFork(s, p, q))
  {
  }

  lemma AbortTies(s: State, p: nat)
    requires Shape(s) && p < |s.procs| && s.pc[p].Forking? && s.pc[p].child < |s.procs| && Tied(s)
    ensures Shape(AfterAbort(s, p, s.pc[p].child)) && Tied(AfterAbort(s, p, s.pc[p].child))
  {
    hide Alive, Creators, Family, Emptied, Scanned;
    AbortPeople(s, p);
    ScansStay(s, AfterAbort(s, p, s.pc[p].child), p);
  }

  lemma AbortPeople(s: State, p: nat)
    requires Shape(s) && p < |s.procs| && s.pc[p].Forking? && s.pc[p].child < |s.procs| && Alive(s) && Creators(s) && Family(s)
    ensures Alive(AfterAbort(s, p, s.pc[p].child)) && Creators(AfterAbort(s, p, s.pc[p].child)) && Family(AfterAbort(s, p, s.pc[p].child))
  {
    assert Making(s.pc[p]);
  }

  lemma AdoptTies(s: State, p: nat)
    requires Shape(s) && p < |s.procs| && s.pc[p].Forking? && s.pc[p].child < |s.procs| && Tied(s)
    ensures Shape(AfterAdopt(s, p, s.pc[p].child)) && Tied(AfterAdopt(s, p, s.pc[p].child))
  {
    hide Alive, Creators, Family, Emptied, Scanned;
    AdoptPeople(s, p);
    ScansStay(s, AfterAdopt(s, p, s.pc[p].child), p);
  }

  lemma AdoptPeople(s: State, p: nat)
    requires Shape(s) && p < |s.procs| && s.pc[p].Forking? && s.pc[p].child < |s.procs| && Alive(s) && Creators(s) && Family(s)
    ensures Alive(AfterAdopt(s, p, s.pc[p].child)) && Creators(AfterAdopt(s, p, s.pc[p].child)) && Family(AfterAdopt(s, p, s.pc[p].child))
  {
    assert Making(s.pc[p]);
  }

  lemma StartTies(s: State, p: nat)
    requires Shape(s) && p < |s.procs| && s.pc[p].Parented? && s.pc[p].child < |s.procs| && Tied(s)
    ensures Shape(AfterStart(s, p, s.pc[p].child)) && Tied(AfterStart(s, p, s.pc[p].child))
  {
    hide Alive, Creators, Family, Emptied, Scanned;
    StartPeople(s, p);
    ScansStay(s, AfterStart(s, p, s.pc[p].child), p);
  }

  lemma StartPeople(s: State, p: nat)
    requires Shape(s) && p < |s.procs| && s.pc[p].Parented? && s.pc[p].child < |s.procs| && Alive(s) && Creators(s) && Family(s)
    ensures Alive(AfterStart(s, p, s.pc[p].child)) && Creators(AfterStart(s, p, s.pc[p].child)) && Family(AfterStart(s, p, s.pc[p].child))
  {
    assert Making(s.pc[p]);
  }

  lemma ReapsTies(s: State, p: nat)
    requires Shape(s) && p < |s.procs| && s.pc[p].Search? && s.pc[p].pos < |s.procs| && s.procs[s.pc[p].pos].run == Zombie && Tied(s)
    ensures Shape(AfterReaps(s, p)) && Tied(AfterReaps(s, p))
  {
    hide Alive, Creators, Family, Emptied, Scanned;
    ReapsPeople(s, p);
    ScansStay(s, AfterReaps(s, p), p);
  }

  lemma ReapsPeople(s: State, p: nat)
    requires Shape(s) && p < |s.procs| && s.pc[p].Search? && s.pc[p].pos < |s.procs| && s.procs[s.pc[p].pos].run == Zombie && Alive(s) && Creators(s) && Family(s)
    ensures Alive(AfterReaps(s, p)) && Creators(AfterReaps(s, p)) && Family(AfterReaps(s, p))
  {
    ReapsAlive(s, p);
    ReapsCreators(s, p);
    ReapsFamily(s, p);
  }

  lemma ReapsAlive(s: State, p: nat)
    requires Shape(s) && p < |s.procs| && s.pc[p].Search? && s.pc[p].pos < |s.procs| && s.procs[s.pc[p].pos].run == Zombie && Alive(s)
    ensures Alive(AfterReaps(s, p))
  {
  }

  lemma ReapsCreators(s: State, p: nat)
    requires Shape(s) && p < |s.procs| && s.pc[p].Search? && s.pc[p].pos < |s.procs| && s.procs[s.pc[p].pos].run == Zombie && Creators(s)
    ensures Creators(AfterReaps(s, p))
  {
  }

  lemma ReapsFamily(s: State, p: nat)
    requires Shape(s) && p < |s.procs| && s.pc[p].Search? && s.pc[p].pos < |s.procs| && s.procs[s.pc[p].pos].run == Zombie
    requires Alive(s) && Creators(s) && Family(s)
    ensures Family(AfterReaps(s, p))
  {
  }

  lemma ReparentTies(s: State, p: nat)
    requires Shape(s) && p < |s.procs| && Guarded(s) && Tied(s)
    requires s.pc[p].Reparent? && s.pc[p].pos < |s.procs|
    ensures Shape(AfterReparentOne(s, p)) && Tied(AfterReparentOne(s, p))
  {
    hide Creators, Family;
    var t := AfterReparentOne(s, p);
    var pos := s.pc[p].pos;
    assert Alive(t) && Creators(t) && Family(t) by { ReparentPeople(s, p); }
    assert forall r, z :: 0 <= r < |s.procs| && 0 <= z < |s.procs| && Child(t, r, z) ==>
             Child(s, r, z) || (r == s.init && z == pos);
    assert Inside(s.pc[p]);
    assert !Inside(s.pc[s.init]);
  }

  lemma ReparentPeople(s: State, p: nat)
    requires Shape(s) && p < |s.procs| && s.pc[p].Reparent? && s.pc[p].pos < |s.procs|
    requires Alive(s) && Creators(s) && Family(s)
    ensures Alive(AfterReparentOne(s, p)) && Creators(AfterReparentOne(s, p)) && Family(AfterReparentOne(s, p))
  {
    hide Creators;
    assert Creators(AfterReparentOne(s, p)) by { ReparentCreators(s, p); }
  }

  lemma ReparentCreators(s: State, p: nat)
    requires Shape(s) && p < |s.procs| && s.pc[p].Reparent? && s.pc[p].pos < |s.procs| && Creators(s)
    ensures Creators(AfterReparentOne(s, p))
  {
    var t := AfterReparentOne(s, p);
    assert forall r :: 0 <= r < |s.procs| && Making(t.pc[r]) ==> r != p && t.pc[r] == s.pc[r];
  }

  lemma DieTies(s: State, p: nat, status: int)
    requires Shape(s) && p < |s.procs| && Guarded(s) && Tied(s) && s.pc[p].WakeParent?
    ensures Shape(AfterDie(s, p, status)) && Tied(AfterDie(s, p, status))
  {
    hide Creators, Family;
    var t := AfterDie(s, p, status);
    assert Alive(t) && Creators(t) && Family(t) by { DiePeople(s, p, status); }
    assert forall r, z :: 0 <= r < |s.procs| && 0 <= z < |s.procs| && Child(t, r, z) ==> Child(s, r, z);
    assert forall r :: 0 <= r < |s.procs| && r != p ==> !Inside(s.pc[r]);
  }

  /** Nobody is left with a dead parent, because the dying process has no child any more. */
  lemma DiePeople(s: State, p: nat, status: int)
    requires Shape(s) && p < |s.procs| && s.pc[p].WakeParent?
    requires Alive(s) && Creators(s) && Family(s) && Emptied(s)
    ensures Alive(AfterDie(s, p, status)) && Creators(AfterDie(s, p, status)) && Family(AfterDie(s, p, status))
  {
    DieCreators(s, p, status);
    DieFamily(s, p, status);
    hide Creators, Family, Emptied;
  }

  lemma DieCreators(s: State, p: nat, status: int)
    requires Shape(s) && p < |s.procs| && s.pc[p].WakeParent? && Alive(s) && Creators(s)
    ensures Creators(AfterDie(s, p, status))
  {
  }

  lemma DieFamily(s: State, p: nat, status: int)
    requires Shape(s) && p < |s.procs| && s.pc[p].WakeParent? && Alive(s) && Family(s) && Emptied(s)
    ensures Family(AfterDie(s, p, status))
  {
    forall z | 0 <= z < |s.procs|
      ensures s.parent[z] != Some(p)
    {
      assert !Child(s, p, z);
    }
    assert s.parent[p].Some?;
  }

  lemma TiedKept(s: State, e: Step)
    requires Enabled(s, e) && Guarded(s) && Tied(s)
    ensures Shape(Do(s, e)) && Tied(Do(s, e))
  {
    hide Guarded, Tied, Alive, Creators, Family, Emptied, Scanned;
    hide AfterFork, AfterAbort, AfterAdopt, AfterStart, AfterReparentOne, AfterDie, AfterReaps, AfterRewakeOne;
    match e
    case Fork(p, q) => ForkTies(s, p, q);
    case Abort(p) => AbortTies(s, p);
    case Adopt(p) => AdoptTies(s, p);
    case Start(p) => StartTies(s, p);
    case ReparentOne(p) => ReparentTies(s, p);
    case Die(p, status) => DieTies(s, p, status);
    case Reaps(p) => ReapsTies(s, p);
    case _ =>
      QuietSteps(s, e);
      QuietTied(s, Do(s, e), e.p);
  }

  lemma QuietTied(s: State, t: State, p: nat)
    requires Shape(s) && p < |s.procs| && Quiet(s, t, p) && Tied(s)
    ensures Tied(t)
  {
    hide Alive, Creators, Family, Emptied, Scanned, Pids, History, Moves;
    QuietKeeps(s, t, p);
    QuietScans(s, t, p);
  }

  lemma TiesGuarded(s: State, e: Step)
    requires Enabled(s, e) && Ties(e) && Guarded(s)
    ensures Shape(Do(s, e)) && Guarded(Do(s, e))
  {
  }

  lemma QuietGuarded(s: State, e: Step)
    requires Enabled(s, e) && !Ties(e) && Guarded(s)
    ensures Shape(Do(s, e)) && Guarded(Do(s, e))
  {
    assert s.pc[e.p].Going? || s.pc[e.p].Slept? || s.pc[e.p].Idle? ==> !Inside(s.pc[e.p]);
  }

  lemma GuardedKept(s: State, e: Step)
    requires Enabled(s, e) && Guarded(s)
    ensures Shape(Do(s, e)) && Guarded(Do(s, e))
  {
    hide Do, Guarded;
    if Ties(e) { TiesGuarded(s, e); } else { QuietGuarded(s, e); }
  }

  // ----- sleeping -----

  /** Nobody falls asleep and nobody stores a channel. */
  ghost predicate Calm(s: State, t: State, p: nat)
    requires Shape(s) && p < |s.procs|
  {
    && Shape(t) && |t.procs| == |s.procs|
    && (forall z :: 0 <= z < |s.procs| ==>
          && (t.procs[z].run == Sleeping ==> s.procs[z].run == Sleeping && t.procs[z].chan == s.procs[z].chan)
          && (t.procs[z].chan == s.procs[z].chan || t.procs[z].chan == 0))
    && t.pc == s.pc[p := t.pc[p]]
    && (t.pc[p] == s.pc[p]
        || (&& s.procs[p].run == Running && !t.pc[p].Prepared? && !t.pc[p].Slept?
            && (t.pc[p].Going? ==> s.pc[p].Prepared? && s.wait == Some(p))))
  }

  predicate Stirs(e: Step) {
    e.Prepare? || e.Doze? || e.PrepareOther? || e.DozeOther?
  }

  lemma CalmSteps(s: State, e: Step)
    requires Enabled(s, e) && Guarded(s) && !Stirs(e)
    ensures Shape(s) && e.p < |s.procs| && Calm(s, Do(s, e), e.p)
  {
    if Ties(e) {
      CalmTies(s, e);
    } else {
      CalmRest(s, e);
    }
  }

  lemma CalmTies(s: State, e: Step)
    requires Enabled(s, e) && Ties(e)
    ensures Shape(s) && e.p < |s.procs| && Calm(s, Do(s, e), e.p)
  {
    var t := Do(s, e);
    assert t.pc == s.pc[e.p := t.pc[e.p]];
  }

  lemma CalmRest(s: State, e: Step)
    requires Enabled(s, e) && Guarded(s) && !Stirs(e) && !Ties(e)
    ensures Shape(s) && e.p < |s.procs| && Calm(s, Do(s, e), e.p)
  {
    hide AfterFork, AfterAbort, AfterAdopt, AfterStart, AfterReparentOne, AfterDie, AfterReaps;
    var t := Do(s, e);
    assert t.pc == s.pc[e.p := t.pc[e.p]];
    assert s.pc[e.p].Prepared? ==> Inside(s.pc[e.p]);
  }

  lemma CalmSleepers(s: State, t: State, p: nat)
    requires Shape(s) && p < |s.procs| && Calm(s, t, p) && Sleepers(s)
    ensures Sleepers(t)
  {
  }

  lemma StirSleepers(s: State, e: Step)
    requires Enabled(s, e) && Stirs(e) && Sleepers(s)
    ensures Shape(Do(s, e)) && Sleepers(Do(s, e))
  {
  }

  lemma SleepersKept(s: State, e: Step)
    requires Enabled(s, e) && Guarded(s) && Sleepers(s)
    ensures Shape(Do(s, e)) && Sleepers(Do(s, e))
  {
    hide Do, Sleepers, Guarded;
    if Stirs(e) {
      StirSleepers(s, e);
    } else {
      CalmSteps(s, e);
      CalmSleepers(s, Do(s, e), e.p);
    }
  }

  /** A process waits after a step only if it waited before, or has just dropped wait_lock. */
  lemma WaitedBefore(s: State, e: Step, p: nat)
    requires Enabled(s, e) && Guarded(s) && Shape(Do(s, e)) && Waiting(Do(s, e), p)
    ensures Shape(s) && p < |s.procs|
    ensures Waiting(s, p) || (e == Step.Drop(p) && s.pc[p].Prepared? && s.wait == Some(p))
  {
    hide Guarded;
    if !Stirs(e) {
      hide Do;
      CalmSteps(s, e);
    }
  }

  /** The holder is the only process inside. */
  lemma OnlyHolder(s: State, p: nat, q: nat)
    requires Shape(s) && Guarded(s) && p < |s.procs| && q < |s.procs| && Inside(s.pc[p]) && Inside(s.pc[q])
    ensures p == q && s.wait == Some(p)
  {
  }

  lemma QuietMissed(s: State, e: Step, p: nat, z: nat)
    requires Enabled(s, e) && !Ties(e) && Guarded(s) && Scanned(s) && NoMissed(s)
    requires Shape(Do(s, e)) && p < |s.procs| && z < |s.procs| == |Do(s, e).procs|
    requires Child(Do(s, e), p, z) && Do(s, e).procs[z].run == Zombie && Waiting(Do(s, e), p)
    ensures Reaching(Do(s, e), p)
  {
    hide Scanned, Guarded, NoMissed;
    var t := Do(s, e);
    QuietSteps(s, e);
    WaitedBefore(s, e, p);
    assert Child(s, p, z) && s.procs[z].run == Zombie by { assert KindOf(t.procs[z].run) == KindOf(s.procs[z].run); }
    assert !s.pc[p].Prepared? by { ScannedPair(s, p, z); }
    assert Reaching(s, p) by { MissedPair(s, p, z); }
    assert Inside(s.pc[s.wait.value]);
    HolderStays(s, e);
  }

  lemma ScannedPair(s: State, p: nat, z: nat)
    requires Shape(s) && Scanned(s) && p < |s.procs| && z < |s.procs| && Child(s, p, z) && s.procs[z].run == Zombie
    ensures !s.pc[p].Prepared?
  {
  }

  lemma MissedPair(s: State, p: nat, z: nat)
    requires Shape(s) && NoMissed(s) && p < |s.procs| && z < |s.procs| && Child(s, p, z) && s.procs[z].run == Zombie
    requires Waiting(s, p)
    ensures Reaching(s, p)
  {
  }

  /** While a wakeup owed to the first process runs, no other process changes wait_lock. */
  lemma HolderStays(s: State, e: Step)
    requires Enabled(s, e) && Guarded(s) && Shape(s) && s.wait.Some? && s.wait.value < |s.procs|
    requires s.pc[s.wait.value].Rewake?
    ensures Do(s, e).wait == s.wait && Do(s, e).init == s.init && |Do(s, e).pc| == |s.pc|
    ensures e != RewakeOne(s.wait.value) ==> Do(s, e).pc[s.wait.value] == s.pc[s.wait.value]
  {
    assert Inside(s.pc[e.p]) ==> e.p == s.wait.value;
  }

  lemma QuietPromise(s: State, e: Step, p: nat, z: nat)
    requires Enabled(s, e) && !Ties(e) && Guarded(s) && Emptied(s) && NoMissed(s)
    requires Shape(Do(s, e)) && p < |s.procs| && z < |s.procs| == |Do(s, e).procs|
    requires Child(Do(s, e), p, z) && Do(s, e).pc[z].WakeParent? && p < Do(s, e).pc[z].k
    ensures !Waiting(Do(s, e), p)
  {
    hide Guarded, Emptied, NoMissed;
    var t := Do(s, e);
    QuietSteps(s, e);
    if Waiting(t, p) {
      WaitedBefore(s, e, p);
      assert Inside(s.pc[z]);
      if !Waiting(s, p) {
        OnlyHolder(s, p, z);
        assert false;
      } else {
        PromisePair(s, p, z);
      }
    }
  }

  lemma PromisePair(s: State, p: nat, z: nat)
    requires Shape(s) && NoMissed(s) && p < |s.procs| && z < |s.procs| && Child(s, p, z)
    requires Waiting(s, p) && s.pc[z].WakeParent?
    ensures s.pc[z].k <= p
  {
  }

  lemma QuietNoMissed(s: State, e: Step)
    requires Enabled(s, e) && !Ties(e) && Guarded(s) && Emptied(s) && Scanned(s) && NoMissed(s)
    ensures Shape(Do(s, e)) && NoMissed(Do(s, e))
  {
    hide Do, Guarded, Emptied, Scanned, Moves;
    var t := Do(s, e);
    QuietSteps(s, e);
    forall p, z | 0 <= p < |t.procs| && 0 <= z < |t.procs| && Child(t, p, z) && t.procs[z].run == Zombie && Waiting(t, p)
      ensures Reaching(t, p)
    {
      QuietMissed(s, e, p, z);
    }
    forall p, z | 0 <= p < |t.procs| && 0 <= z < |t.procs| && Child(t, p, z) && t.pc[z].WakeParent? && p < t.pc[z].k
      ensures !Waiting(t, p)
    {
      QuietPromise(s, e, p, z);
    }
  }

  /** kfork gives nobody a zombie child. */
  lemma ForkMissed(s: State, e: Step, p: nat, z: nat)
    requires Enabled(s, e) && (e.Fork? || e.Abort? || e.Adopt? || e.Start?) && Guarded(s) && Creators(s) && NoMissed(s)
    requires Shape(Do(s, e)) && p < |s.procs| && z < |s.procs| == |Do(s, e).procs|
    requires Child(Do(s, e), p, z) && Do(s, e).procs[z].run == Zombie && Waiting(Do(s, e), p)
    ensures Reaching(Do(s, e), p)
  {
    hide Guarded, NoMissed;
    WaitedBefore(s, e, p);
    assert !e.Fork? ==> Making(s.pc[e.p]);
    assert Child(s, p, z) && s.procs[z].run == Zombie;
    MissedPair(s, p, z);
    HolderStays(s, e);
  }

  /** Moving a zombie to the first process starts a wakeup of that process. */
  lemma ExitMissed(s: State, e: Step, p: nat, z: nat)
    requires Enabled(s, e) && (e.ReparentOne? || e.Die? || e.Reaps?) && Guarded(s) && NoMissed(s)
    requires Shape(Do(s, e)) && p < |s.procs| && z < |s.procs| == |Do(s, e).procs|
    requires Child(Do(s, e), p, z) && Do(s, e).procs[z].run == Zombie && Waiting(Do(s, e), p)
    ensures Reaching(Do(s, e), p)
  {
    hide Guarded, NoMissed;
    WaitedBefore(s, e, p);
    assert s.wait == Some(e.p) by { assert Inside(s.pc[e.p]); OnlyHolder(s, e.p, e.p); }
    assert !Reaching(s, p);
    if Child(s, p, z) {
      if s.procs[z].run == Zombie {
        MissedPair(s, p, z);
      } else {
        PromisePair(s, p, z);
      }
    }
  }

  lemma TiesPromise(s: State, e: Step, p: nat, z: nat)
    requires Enabled(s, e) && Ties(e) && Guarded(s) && NoMissed(s)
    requires Shape(Do(s, e)) && p < |s.procs| && z < |s.procs| == |Do(s, e).procs|
    requires Child(Do(s, e), p, z) && Do(s, e).pc[z].WakeParent? && p < Do(s, e).pc[z].k
    ensures !Waiting(Do(s, e), p)
  {
    hide Guarded, NoMissed;
    assert s.pc[z] == Do(s, e).pc[z] && Inside(s.pc[z]);
    OnlyHolder(s, z, z);
    assert s.wait == Some(z);
    if Waiting(Do(s, e), p) {
      WaitedBefore(s, e, p);
      if Inside(s.pc[e.p]) { OnlyHolder(s, e.p, z); }
      assert Child(s, p, z);
      PromisePair(s, p, z);
    }
  }

  lemma TiesNoMissed(s: State, e: Step)
    requires Enabled(s, e) && Ties(e) && Guarded(s) && Creators(s) && NoMissed(s)
    ensures Shape(Do(s, e)) && NoMissed(Do(s, e))
  {
    var t := Do(s, e);
    assert Shape(t) && |t.procs| == |s.procs|;
    hide Do, Guarded, Creators;
    forall p, z | 0 <= p < |t.procs| && 0 <= z < |t.procs| && Child(t, p, z) && t.procs[z].run == Zombie && Waiting(t, p)
      ensures Reaching(t, p)
    {
      if e.ReparentOne? || e.Die? || e.Reaps? { ExitMissed(s, e, p, z); } else { ForkMissed(s, e, p, z); }
    }
    forall p, z | 0 <= p < |t.procs| && 0 <= z < |t.procs| && Child(t, p, z) && t.pc[z].WakeParent? && p < t.pc[z].k
      ensures !Waiting(t, p)
    {
      TiesPromise(s, e, p, z);
    }
  }

  // ----- pids and exit statuses -----

  ghost predicate Books(s: State)
    requires Shape(s)
  {
    Pids(s) && History(s)
  }

  lemma ForkBooks(s: State, p: nat, q: nat)
    requires Shape(s) && p < |s.procs| && q < |s.procs| && s.procs[q].run == Unused && Books(s)
    ensures Shape(AfterFork(s, p, q)) && Books(AfterFork(s, p, q))
  {
    assert s.nextpid !in s.past.slot;
    assert forall x :: x in s.past.exited && !WasReaped(s.past.reaped, x) ==> s.past.slot[x] != q;
  }

  /** A slot given back before it ever ran takes no exit status with it. */
  lemma AbortBooks(s: State, p: nat, q: nat)
    requires Shape(s) && p < |s.procs| && q < |s.procs| && s.procs[q].run == Used && Books(s)
    ensures Shape(AfterAbort(s, p, q)) && Books(AfterAbort(s, p, q))
  {
    assert forall x :: x in s.past.exited && !WasReaped(s.past.reaped, x) ==> s.past.slot[x] != q;
  }

  lemma StartBooks(s: State, p: nat, q: nat)
    requires Shape(s) && p < |s.procs| && q < |s.procs| && s.procs[q].run == Used && Books(s)
    ensures Shape(AfterStart(s, p, q)) && Books(AfterStart(s, p, q))
  {
  }

  lemma DieBooks(s: State, p: nat, status: int)
    requires Shape(s) && p < |s.procs| && Live(s.procs[p].run) && Books(s)
    ensures Shape(AfterDie(s, p, status)) && Books(AfterDie(s, p, status))
  {
    assert s.procs[p].pid !in s.past.exited;
    assert !WasReaped(s.past.reaped, s.procs[p].pid);
  }

  lemma ReapsBooks(s: State, p: nat)
    requires Shape(s) && p < |s.procs| && s.pc[p].Search? && s.pc[p].pos < |s.procs|
    requires s.procs[s.pc[p].pos].run == Zombie && Books(s)
    ensures Shape(AfterReaps(s, p)) && Books(AfterReaps(s, p))
  {
    var t := AfterReaps(s, p);
    var z := s.pc[p].pos;
    forall x
      ensures WasReaped(t.past.reaped, x) <==> WasReaped(s.past.reaped, x) || x == s.procs[z].pid
    {
      ReapedMore(s.past.reaped, Reap(s.procs[z].pid, s.xstate[z]), x);
    }
  }

  lemma ReapedMore(reaped: seq<Reap>, r: Reap, x: nat)
    ensures WasReaped(reaped + [r], x) <==> WasReaped(reaped, x) || x == r.pid
  {
    if WasReaped(reaped, x) {
      var i :| 0 <= i < |reaped| && reaped[i].pid == x;
      assert (reaped + [r])[i].pid == x;
    }
    assert (reaped + [r])[|reaped|] == r;
  }

  lemma MadeIsUsed(s: State, p: nat)
    requires Shape(s) && Creators(s) && p < |s.procs| && Making(s.pc[p])
    ensures s.pc[p].child < |s.procs| && s.procs[s.pc[p].child].run == Used
  {
  }

  lemma TiesBooks(s: State, e: Step)
    requires Enabled(s, e) && Ties(e) && Creators(s) && Books(s)
    ensures Shape(Do(s, e)) && Books(Do(s, e))
  {
    hide Creators, Books;
    if Making(s.pc[e.p]) { MadeIsUsed(s, e.p); }
    match e
    case Fork(p, q) => ForkBooks(s, p, q);
    case Abort(p) => AbortBooks(s, p, s.pc[p].child);
    case Adopt(p) => AdoptBooks(s, AfterAdopt(s, p, s.pc[p].child));
    case Start(p) => StartBooks(s, p, s.pc[p].child);
    case ReparentOne(p) => AdoptBooks(s, AfterReparentOne(s, p));
    case Die(p, status) => DieBooks(s, p, status);
    case Reaps(p) => ReapsBooks(s, p);
  }

  lemma BooksKept(s: State, e: Step)
    requires Enabled(s, e) && Creators(s) && Books(s)
    ensures Shape(Do(s, e)) && Books(Do(s, e))
  {
    hide Do, Creators, Pids, History, Moves;
    if Ties(e) {
      TiesBooks(s, e);
    } else {
      QuietSteps(s, e);
      QuietKeeps(s, Do(s, e), e.p);
    }
  }

  lemma AdoptBooks(s: State, t: State)
    requires Shape(s) && Shape(t) && Books(s)
    requires t.procs == s.procs && t.xstate == s.xstate && t.past == s.past && t.nextpid == s.nextpid
    ensures Books(t)
  {
  }

  // ----- whole runs -----

  ghost predicate Boot(s: State) {
    && Shape(s) && s.wait == None && s.past.exited == map[] && s.past.reaped == []
    && (forall p :: 0 <= p < |s.procs| ==> s.pc[p] == Idle && s.parent[p] == None)
    && (forall p :: 0 <= p < |s.procs| && p != s.init ==> s.procs[p] == FREE)
    && s.procs[s.init] == Proc(Runnable, 0, false, 1) && s.nextpid == 2 && s.past.slot == map[1 := s.init]
  }

  ghost predicate IsRun(run: seq<State>, steps: seq<Step>) {
    && |run| == |steps| + 1
    && Boot(run[0])
    && (forall i {:trigger steps[i]} :: 0 <= i < |steps| ==> Enabled(run[i], steps[i]) && run[i + 1] == Do(run[i], steps[i]))
  }

  lemma InvKept(s: State, e: Step)
    requires Inv(s) && Enabled(s, e)
    ensures Inv(Do(s, e))
  {
    hide Do, Guarded, Alive, Creators, Family, Emptied, Scanned, Sleepers, NoMissed, Pids, History;
    GuardedKept(s, e);
    TiedKept(s, e);
    SleepersKept(s, e);
    BooksKept(s, e);
    if Ties(e) { TiesNoMissed(s, e); } else { QuietNoMissed(s, e); }
  }

  lemma BootInv(s: State)
    requires Boot(s)
    ensures Inv(s)
  {
    forall p | 0 <= p < |s.procs|
      ensures s.procs[p].run == (if p == s.init then Runnable else Unused) && s.procs[p].chan == 0
      ensures s.pc[p] == Idle && s.parent[p] == None
    {
    }
    BootBooks(s);
    hide Boot, Pids, History;
    assert forall p, z :: 0 <= p < |s.procs| && 0 <= z < |s.procs| ==> !Child(s, p, z);
  }

  lemma BootBooks(s: State)
    requires Boot(s)
    ensures Pids(s) && History(s)
  {
  }

  lemma {:induction false} RunInv(run: seq<State>, steps: seq<Step>, k: nat)
    requires IsRun(run, steps) && k < |run|
    ensures Inv(run[k])
  {
    hide Do, Inv, Boot;
    if k == 0 {
      BootInv(run[0]);
    } else {
      RunInv(run, steps, k - 1);
      InvKept(run[k - 1], steps[k - 1]);
      assert run[k - 1 + 1] == Do(run[k - 1], steps[k - 1]);
    }
  }

  /** Every zombie has a live parent to collect it, and no child of its own. */
  lemma ZombiesHaveParents(run: seq<State>, steps: seq<Step>, k: nat, z: nat)
    requires IsRun(run, steps) && k < |run| && z < |run[k].procs| && run[k].procs[z].run == Zombie
    ensures Shape(run[k]) && run[k].parent[z].Some? && run[k].parent[z].value < |run[k].procs|
    ensures Live(run[k].procs[run[k].parent[z].value].run)
    ensures forall c :: 0 <= c < |run[k].procs| ==> !Child(run[k], z, c)
  {
    RunInv(run, steps, k);
  }

  /** Whenever wait_lock is free, no parent is asleep in kwait, or on its way to sleep there,
    * while one of its children is a zombie. */
  lemma NoMissedChild(run: seq<State>, steps: seq<Step>, k: nat, p: nat, z: nat)
    requires IsRun(run, steps) && k < |run| && p < |run[k].procs| && z < |run[k].procs|
    requires run[k].wait == None && run[k].procs[z].run == Zombie
    requires Shape(run[k]) && Child(run[k], p, z)
    ensures !Waiting(run[k], p)
  {
    RunInv(run, steps, k);
  }

  /** Processes in use have different pids. */
  lemma PidsUnique(run: seq<State>, steps: seq<Step>, k: nat, p: nat, q: nat)
    requires IsRun(run, steps) && k < |run| && p < |run[k].procs| && q < |run[k].procs| && p != q
    requires run[k].procs[p].run != Unused && run[k].procs[q].run != Unused
    ensures run[k].procs[p].pid != run[k].procs[q].pid && run[k].procs[p].pid != 0
  {
    RunInv(run, steps, k);
  }

  /** Each exit is collected at most once, with the status it exited with, and until then it
    * sits in the table as a zombie. */
  lemma ReapedOnce(run: seq<State>, steps: seq<Step>, k: nat)
    requires IsRun(run, steps) && k < |run|
    ensures forall i, j :: 0 <= i < j < |run[k].past.reaped| ==> run[k].past.reaped[i].pid != run[k].past.reaped[j].pid
    ensures forall i :: 0 <= i < |run[k].past.reaped| ==>
              && run[k].past.reaped[i].pid in run[k].past.exited
              && run[k].past.exited[run[k].past.reaped[i].pid] == run[k].past.reaped[i].status
    ensures forall x :: x in run[k].past.exited && !WasReaped(run[k].past.reaped, x) ==>
              exists z :: 0 <= z < |run[k].procs| && run[k].procs[z].pid == x && run[k].procs[z].run == Zombie
  {
    RunInv(run, steps, k);
  }

  /** kwait reports failure for want of children only if there is no child, unless killed. */
  lemma GivesUpRightly(run: seq<State>, steps: seq<Step>, k: nat, p: nat)
    requires IsRun(run, steps) && k < |steps| && steps[k] == GiveUp(p)
    ensures Shape(run[k]) && p < |run[k].procs|
    ensures run[k].procs[p].killed || forall c :: 0 <= c < |run[k].procs| ==> !Child(run[k], p, c)
  {
    assert Enabled(run[k], steps[k]);
    RunInv(run, steps, k);
  }
}
