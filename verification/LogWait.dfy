/** begin_op, end_op and sys_sync as clients of the same discipline on the log's channel.
  * Reason 0 is room for one more operation; reason t > 0 is commit number t. */
module LogWait {
  import opened Basics
  import Journal
  import Monitor
  import opened Sleep

  datatype Log = Log(n: nat, outstanding: nat, committing: bool, ncommit: nat)

  datatype State = LogState(mon: Monitor.State, log: Log)

  datatype Step =
    | Quiet(e: Monitor.Step)
    | Enter(p: nat)
    | Grow(p: nat)
    | Leave(p: nat)
    | Clear
    | Finish(p: nat)

  predicate Room(g: Log) {
    !g.committing && g.n + (g.outstanding + 1) * Journal.MAXOPBLOCKS <= Journal.LOGBLOCKS
  }

  predicate Blocks(g: Log, why: nat) {
    if why == 0 then !Room(g) else g.ncommit < why
  }

  ghost function Reasons(g: Log): iset<nat> {
    iset w: nat | Blocks(g, w)
  }

  ghost predicate Enabled(s: State, e: Step) {
    Monitor.Shape(s.mon)
    && match e
       case Quiet(m) => Monitor.Enabled(s.mon, m) && !m.Update? && !m.Signal?
       case Enter(p) => Monitor.Can(s.mon, p, Monitor.Hold) && Room(s.log)
       case Grow(p) => Monitor.Can(s.mon, p, Monitor.Hold) && s.log.outstanding >= 1
       case Leave(p) => Monitor.Can(s.mon, p, Monitor.Hold) && s.log.outstanding >= 1 && !s.log.committing
       case Clear => s.log.committing
       case Finish(p) => Monitor.Can(s.mon, p, Monitor.Hold) && s.log.committing
  }

  ghost function Release(m: Monitor.State, p: nat, g: Log): State
    requires Monitor.Shape(m) && Monitor.Can(m, p, Monitor.Hold)
  {
    LogState(Monitor.Do(m.(blocked := Reasons(g)), Monitor.Unlock(p)), g)
  }

  ghost function Announce(m: Monitor.State, p: nat, g: Log): State
    requires Monitor.Shape(m) && Monitor.Can(m, p, Monitor.Hold)
  {
    LogState(Monitor.Do(m, Monitor.Signal(p, Reasons(g))), g)
  }

  ghost function Do(s: State, e: Step): State
    requires Enabled(s, e)
  {
    var g := s.log;
    match e
    case Quiet(m) => s.(mon := Monitor.Do(s.mon, m))
    case Enter(p) => Release(s.mon, p, g.(outstanding := g.outstanding + 1))
    case Grow(p) => Release(s.mon, p, g.(n := g.n + 1))
    case Leave(p) =>
      if g.outstanding == 1 then Release(s.mon, p, g.(outstanding := 0, committing := true))
      else Announce(s.mon, p, g.(outstanding := g.outstanding - 1))
    case Clear => s.(log := g.(n := 0))
    case Finish(p) => Announce(s.mon, p, g.(committing := false, ncommit := g.ncommit + 1))
  }

  ghost predicate Inv(s: State) {
    Monitor.Inv(s.mon) && s.mon.blocked == Reasons(s.log)
  }

  ghost predicate IsRun(run: seq<State>, steps: seq<Step>) {
    && |run| == |steps| + 1
    && Inv(run[0])
    && (forall i {:trigger steps[i]} :: 0 <= i < |steps| ==> Enabled(run[i], steps[i]) && run[i + 1] == Do(run[i], steps[i]))
  }

  /** The log after initlog has emptied it, with every process outside it. */
  lemma InitInv(procs: seq<Proc>)
    requires forall p :: 0 <= p < |procs| ==> procs[p].run != Sleeping
    ensures var g := Log(0, 0, false, 0);
            Inv(LogState(Monitor.State(procs, seq(|procs|, _ => Monitor.Idle), None, Reasons(g)), g))
  {
    var m := Monitor.State(procs, seq(|procs|, _ => Monitor.Idle), None, Reasons(Log(0, 0, false, 0)));
    assert forall p :: 0 <= p < |procs| ==> m.pc[p] == Monitor.Idle;
  }

  lemma ReleaseKept(s: State, p: nat, g: Log)
    requires Inv(s) && Monitor.Shape(s.mon) && Monitor.Can(s.mon, p, Monitor.Hold) && Reasons(s.log) <= Reasons(g)
    ensures Inv(Release(s.mon, p, g))
  {
    hide Monitor.Inv, Reasons;
    Monitor.InvKept(s.mon, Monitor.Update(p, Reasons(g)));
    Monitor.InvKept(s.mon.(blocked := Reasons(g)), Monitor.Unlock(p));
  }

  lemma AnnounceKept(s: State, p: nat, g: Log)
    requires Inv(s) && Monitor.Shape(s.mon) && Monitor.Can(s.mon, p, Monitor.Hold)
    ensures Inv(Announce(s.mon, p, g))
  {
    hide Monitor.Inv, Reasons;
    Monitor.InvKept(s.mon, Monitor.Signal(p, Reasons(g)));
  }

  lemma InvKept(s: State, e: Step)
    requires Inv(s) && Enabled(s, e)
    ensures Inv(Do(s, e))
  {
    hide Monitor.Inv;
    var g := s.log;
    match e
    case Quiet(m) => Monitor.InvKept(s.mon, m);
    case Enter(p) => ReleaseKept(s, p, g.(outstanding := g.outstanding + 1));
    case Grow(p) => ReleaseKept(s, p, g.(n := g.n + 1));
    case Leave(p) =>
      if g.outstanding == 1 {
        ReleaseKept(s, p, g.(outstanding := 0, committing := true));
      } else {
        AnnounceKept(s, p, g.(outstanding := g.outstanding - 1));
      }
    case Clear => assert Reasons(g.(n := 0)) == Reasons(g);
    case Finish(p) => AnnounceKept(s, p, g.(committing := false, ncommit := g.ncommit + 1));
  }

  lemma {:induction false} RunInv(run: seq<State>, steps: seq<Step>, k: nat)
    requires IsRun(run, steps) && k < |run|
    ensures Inv(run[k])
  {
    hide Inv;
    if k > 0 {
      RunInv(run, steps, k - 1);
      InvKept(run[k - 1], steps[k - 1]);
      assert run[k - 1 + 1] == Do(run[k - 1], steps[k - 1]);
    }
  }

  /** With the log's spinlock free, nobody waits in begin_op while there is room, and nobody
    * waits in sys_sync for a commit already made. */
  lemma NoIdleWaiter(run: seq<State>, steps: seq<Step>, k: nat, p: nat)
    requires IsRun(run, steps) && k < |run|
    requires Monitor.Shape(run[k].mon) && run[k].mon.guard == None && Monitor.Waiting(run[k].mon, p)
    ensures run[k].mon.pc[p].Going? || run[k].mon.pc[p].Slept?
    ensures run[k].mon.pc[p].why == 0 ==> !Room(run[k].log)
    ensures run[k].mon.pc[p].why > 0 ==> run[k].log.ncommit < run[k].mon.pc[p].why
  {
    RunInv(run, steps, k);
    Monitor.FreeMeansBlocked(run[k].mon, p);
  }
}
