/** Sleeplocks as a client of the waiting discipline. */
module Sleeplock {
  import opened Basics
  import opened Sleep
  import Monitor

  /** inside holds the processes that have returned from acquiresleep and not yet released. */
  datatype State = LockState(mon: Monitor.State, locked: bool, pid: nat, inside: set<nat>)

  /** Quiet steps leave the lock word alone: waiting, waking, reading it, and everything else
    * processes do meanwhile. */
  datatype Step = Quiet(e: Monitor.Step) | Take(p: nat) | Give(p: nat)

  ghost predicate Enabled(s: State, e: Step) {
    Monitor.Shape(s.mon)
    && match e
       case Quiet(m) => Monitor.Enabled(s.mon, m) && !m.Update? && !m.Signal? && (m.Life? ==> m.p !in s.inside)
       case Take(p) => Monitor.Can(s.mon, p, Monitor.Hold) && !s.locked
       case Give(p) => Monitor.Can(s.mon, p, Monitor.Hold) && p in s.inside
  }

  ghost function Reasons(locked: bool): iset<nat> {
    if locked then iset{0} else iset{}
  }

  ghost function Do(s: State, e: Step): State
    requires Enabled(s, e)
  {
    match e
    case Quiet(m) => s.(mon := Monitor.Do(s.mon, m))
    case Take(p) =>
      var m := s.mon.(blocked := Reasons(true));
      LockState(Monitor.Do(m, Monitor.Unlock(p)), true, s.mon.procs[p].pid, s.inside + {p})
    case Give(p) =>
      LockState(Monitor.Do(s.mon, Monitor.Signal(p, Reasons(false))), false, 0, s.inside - {p})
  }

  ghost predicate Inv(s: State) {
    && Monitor.Inv(s.mon)
    && s.mon.blocked == Reasons(s.locked)
    && (s.locked <==> s.inside != {})
    && (forall p, q :: p in s.inside && q in s.inside ==> p == q)
    && (forall p :: p in s.inside ==> p < |s.mon.procs| && s.mon.procs[p].pid == s.pid)
  }

  ghost predicate IsRun(run: seq<State>, steps: seq<Step>) {
    && |run| == |steps| + 1
    && Inv(run[0])
    && (forall i {:trigger steps[i]} :: 0 <= i < |steps| ==> Enabled(run[i], steps[i]) && run[i + 1] == Do(run[i], steps[i]))
  }

  /** initsleeplock before anyone waits. */
  lemma InitInv(procs: seq<Proc>)
    requires forall p :: 0 <= p < |procs| ==> procs[p].run != Sleeping
    ensures Inv(LockState(Monitor.State(procs, seq(|procs|, _ => Monitor.Idle), None, Reasons(false)), false, 0, {}))
  {
    var m := Monitor.State(procs, seq(|procs|, _ => Monitor.Idle), None, Reasons(false));
    assert forall p :: 0 <= p < |procs| ==> m.pc[p] == Monitor.Idle;
  }

  lemma QuietKept(s: State, m: Monitor.Step)
    requires Inv(s) && Enabled(s, Quiet(m))
    ensures Inv(Do(s, Quiet(m)))
  {
    hide Monitor.Inv;
    Monitor.InvKept(s.mon, m);
  }

  lemma TakeKept(s: State, p: nat)
    requires Inv(s) && Enabled(s, Take(p))
    ensures Inv(Do(s, Take(p)))
  {
    hide Monitor.Inv;
    var now := Reasons(true);
    Monitor.InvKept(s.mon, Monitor.Update(p, now));
    Monitor.InvKept(s.mon.(blocked := now), Monitor.Unlock(p));
  }

  lemma GiveKept(s: State, p: nat)
    requires Inv(s) && Enabled(s, Give(p))
    ensures Inv(Do(s, Give(p)))
  {
    hide Monitor.Inv;
    Monitor.InvKept(s.mon, Monitor.Signal(p, Reasons(false)));
  }

  lemma {:induction false} RunInv(run: seq<State>, steps: seq<Step>, k: nat)
    requires IsRun(run, steps) && k < |run|
    ensures Inv(run[k])
  {
    hide Inv;
    if k > 0 {
      RunInv(run, steps, k - 1);
      match steps[k - 1]
      case Quiet(m) => QuietKept(run[k - 1], m);
      case Take(p) => TakeKept(run[k - 1], p);
      case Give(p) => GiveKept(run[k - 1], p);
    }
  }

  /** At most one process is between acquiresleep and releasesleep, and its pid is the one recorded. */
  lemma MutualExclusion(run: seq<State>, steps: seq<Step>, k: nat, p: nat, q: nat)
    requires IsRun(run, steps) && k < |run| && p in run[k].inside
    ensures q in run[k].inside ==> p == q
    ensures run[k].locked && p < |run[k].mon.procs| && run[k].mon.procs[p].pid == run[k].pid
  {
    RunInv(run, steps, k);
  }

  /** A free sleeplock has no sleeping waiter, and none about to sleep, once its spinlock is free. */
  lemma FreeHasNoSleeper(run: seq<State>, steps: seq<Step>, k: nat, p: nat)
    requires IsRun(run, steps) && k < |run|
    requires run[k].mon.guard == None && !run[k].locked
    ensures Monitor.Shape(run[k].mon) && !Monitor.Waiting(run[k].mon, p)
  {
    RunInv(run, steps, k);
  }

  /** holdingsleep answers the question it is asked: with distinct pids, exactly the process
    * inside sees its own pid. */
  lemma HoldingIsInside(run: seq<State>, steps: seq<Step>, k: nat, me: nat)
    requires IsRun(run, steps) && k < |run| && me < |run[k].mon.procs|
    requires forall q :: 0 <= q < |run[k].mon.procs| && q != me ==> run[k].mon.procs[q].pid != run[k].mon.procs[me].pid
    ensures (run[k].locked && run[k].pid == run[k].mon.procs[me].pid) <==> me in run[k].inside
  {
    RunInv(run, steps, k);
    if run[k].locked {
      var p :| p in run[k].inside;
    }
  }

  // ----- the code, one pass of each loop -----

  class Lock {
    var locked: bool
    var pid: nat

    constructor ()
      ensures !locked && pid == 0
    {
      locked, pid := false, 0;
    }

    /** One pass of acquiresleep's loop: take the lock if it is free, else store the channel. */
    method AcquireOnce(t: ProcTable, me: nat) returns (got: bool)
      requires me < |t.procs|
      modifies this, t
      ensures got == !old(locked) && locked
      ensures got ==> t.procs == old(t.procs) && pid == t.procs[me].pid
      ensures !got ==> pid == old(pid) && t.procs == old(t.procs)[me := old(t.procs)[me].(chan := Monitor.CHAN)]
    {
      if locked {
        var ok := t.SleepPrepare(me, Monitor.CHAN);
        return false;
      }
      locked := true;
      pid := t.procs[me].pid;
      return true;
    }

    method Releasesleep(t: ProcTable)
      modifies this, t
      ensures !locked && pid == 0 && t.procs == WakeAll(old(t.procs), Monitor.CHAN)
    {
      locked := false;
      pid := 0;
      t.Wakeup(Monitor.CHAN);
    }

    method Holdingsleep(t: ProcTable, me: nat) returns (r: bool)
      requires me < |t.procs|
      ensures r == (locked && pid == t.procs[me].pid)
    {
      r := locked && pid == t.procs[me].pid;
    }
  }
}
