/** The sleep and wakeup protocol.  A process first stores the channel it will wait for
  * (sleep_prepare) and only later goes to sleep, and only if the channel is still stored.
  * A wakeup visits the process table one slot at a time, taking each process lock by itself,
  * so any number of other steps fall between two visits. */
module Sleep {
  datatype Run = Unused | Used | Sleeping | Runnable | Running | Zombie

  /** One slot of the process table; channel 0 is "none". */
  datatype Proc = Proc(run: Run, chan: nat, killed: bool, pid: nat)

  /** A wakeup in progress: its channel, the step it began at, the next slot to visit. */
  datatype Scan = Scan(chan: nat, start: nat, pos: nat)

  /** prep[p] is the step of p's last sleep_prepare; woke[c] is the latest beginning among
    * the finished wakeups of channel c; scans holds the wakeups in progress by agent, an
    * agent being a process or the interrupt handler of a CPU. */
  datatype State = State(procs: seq<Proc>, prep: seq<nat>, scans: map<nat, Scan>, woke: map<nat, nat>, clock: nat)

  datatype Step =
    | Prepare(p: nat, chan: nat)
    | Doze(p: nat)
    | Resume(p: nat)
    | Yield(p: nat)
    | Kill(p: nat)
    | Begin(agent: nat, chan: nat)
    | Visit(agent: nat)
    | Finish(agent: nat)
    | Alloc(p: nat, pid: nat)
    | Launch(p: nat)
    | Exit(p: nat)
    | Free(p: nat)

  // ----- what one locked section does to one process -----

  /** sleep(): only a process whose channel is still stored goes to sleep. */
  function Dozed(q: Proc): (r: Proc)
    ensures r.run == Sleeping && q.run != Sleeping ==> q.chan != 0
  {
    if q.chan != 0 then q.(run := Sleeping) else q
  }

  function Rouse(q: Proc): Proc {
    if q.run == Sleeping then q.(run := Runnable) else q
  }

  function Woken(q: Proc, chan: nat): (r: Proc)
    ensures chan != 0 ==> r.chan != chan
    ensures r.run == Sleeping ==> q.run == Sleeping && q.chan != chan
  {
    if q.chan == chan then Rouse(q).(chan := 0) else q
  }

  function Killed(q: Proc): (r: Proc)
    ensures r.run != Sleeping && r.chan == q.chan
  {
    Rouse(q).(killed := true)
  }

  // ----- the machine -----

  predicate Enabled(s: State, e: Step) {
    |s.prep| == |s.procs|
    && match e
       case Prepare(p, c) => p < |s.procs| && s.procs[p].run == Running && c != 0
       case Doze(p) => p < |s.procs| && s.procs[p].run == Running
       case Resume(p) => p < |s.procs| && s.procs[p].run == Runnable
       case Yield(p) => p < |s.procs| && s.procs[p].run == Running
       case Kill(p) => p < |s.procs|
       case Begin(a, c) => a !in s.scans
       case Visit(a) => a in s.scans && s.scans[a].pos < |s.procs|
       case Finish(a) => a in s.scans && s.scans[a].pos == |s.procs|
       case Alloc(p, pid) => p < |s.procs| && s.procs[p].run == Unused
       case Launch(p) => p < |s.procs| && s.procs[p].run == Used
       case Exit(p) => p < |s.procs| && s.procs[p].run == Running
       case Free(p) => p < |s.procs| && s.procs[p].run in {Used, Zombie}
  }

  function SetProc(s: State, p: nat, q: Proc): State
    requires p < |s.procs|
  {
    s.(procs := s.procs[p := q], clock := s.clock + 1)
  }

  function Later(woke: map<nat, nat>, c: nat, start: nat): map<nat, nat> {
    if c in woke && start < woke[c] then woke else woke[c := start]
  }

  function Do(s: State, e: Step): State
    requires Enabled(s, e)
  {
    match e
    case Prepare(p, c) => SetProc(s, p, s.procs[p].(chan := c)).(prep := s.prep[p := s.clock])
    case Doze(p) => SetProc(s, p, Dozed(s.procs[p]))
    case Resume(p) => SetProc(s, p, s.procs[p].(run := Running))
    case Yield(p) => SetProc(s, p, s.procs[p].(run := Runnable))
    case Kill(p) => SetProc(s, p, Killed(s.procs[p]))
    case Begin(a, c) => s.(scans := s.scans[a := Scan(c, s.clock, 0)], clock := s.clock + 1)
    case Visit(a) =>
      var w := s.scans[a];
      SetProc(s, w.pos, Woken(s.procs[w.pos], w.chan)).(scans := s.scans[a := w.(pos := w.pos + 1)])
    case Finish(a) =>
      s.(scans := s.scans - {a}, woke := Later(s.woke, s.scans[a].chan, s.scans[a].start), clock := s.clock + 1)
    case Alloc(p, pid) => SetProc(s, p, s.procs[p].(run := Used, pid := pid))
    case Launch(p) => SetProc(s, p, s.procs[p].(run := Runnable))
    case Exit(p) => SetProc(s, p, s.procs[p].(run := Zombie))
    case Free(p) => SetProc(s, p, Proc(Unused, 0, false, 0))
  }

  /** States reached from any start in which nobody waits and no wakeup is under way. */
  ghost predicate IsRun(run: seq<State>, steps: seq<Step>) {
    && |run| == |steps| + 1
    && Fresh(run[0])
    && (forall i {:trigger steps[i]} :: 0 <= i < |steps| ==> Enabled(run[i], steps[i]) && run[i + 1] == Do(run[i], steps[i]))
  }

  ghost predicate Fresh(s: State) {
    && |s.prep| == |s.procs| && s.scans == map[] && s.woke == map[]
    && (forall p :: 0 <= p < |s.procs| ==> s.procs[p].chan == 0 && s.procs[p].run != Sleeping)
    && (forall p :: 0 <= p < |s.prep| ==> s.prep[p] <= s.clock)
  }

  // ----- the invariant -----

  ghost predicate SleepersNamed(procs: seq<Proc>) {
    forall p :: 0 <= p < |procs| && procs[p].run == Sleeping ==> procs[p].chan != 0
  }

  /** Behind a wakeup's position, a stored copy of its channel was stored after it began. */
  ghost predicate Passed(procs: seq<Proc>, prep: seq<nat>, w: Scan)
    requires |prep| == |procs| && w.pos <= |procs|
  {
    forall p :: 0 <= p < w.pos && procs[p].chan == w.chan != 0 ==> w.start < prep[p]
  }

  ghost predicate Inv(s: State) {
    && |s.prep| == |s.procs|
    && SleepersNamed(s.procs)
    && (forall p :: 0 <= p < |s.prep| ==> s.prep[p] <= s.clock)
    && (forall a :: a in s.scans ==> s.scans[a].pos <= |s.procs| && s.scans[a].start < s.clock)
    && (forall a :: a in s.scans ==> Passed(s.procs, s.prep, s.scans[a]))
    && (forall c :: c in s.woke ==> s.woke[c] < s.clock)
    && (forall p :: 0 <= p < |s.procs| && s.procs[p].chan != 0 && s.procs[p].chan in s.woke ==>
          s.woke[s.procs[p].chan] < s.prep[p])
  }

  /** A change of one slot that stores no new channel and lets nobody sleep without one. */
  lemma SlotKept(s: State, p: nat, q: Proc)
    requires Inv(s) && p < |s.procs| && (q.chan == s.procs[p].chan || q.chan == 0) && (q.run == Sleeping ==> q.chan != 0)
    ensures Inv(SetProc(s, p, q))
  {
    var t := SetProc(s, p, q);
    forall a | a in t.scans
      ensures Passed(t.procs, t.prep, t.scans[a])
    {
      assert Passed(s.procs, s.prep, s.scans[a]);
    }
  }

  lemma PrepareKept(s: State, p: nat, c: nat)
    requires Inv(s) && p < |s.procs| && s.procs[p].run == Running
    ensures Inv(SetProc(s, p, s.procs[p].(chan := c)).(prep := s.prep[p := s.clock]))
  {
    var t := SetProc(s, p, s.procs[p].(chan := c)).(prep := s.prep[p := s.clock]);
    forall a | a in t.scans
      ensures Passed(t.procs, t.prep, t.scans[a])
    {
      assert Passed(s.procs, s.prep, s.scans[a]);
    }
  }

  /** A wakeup moves past a slot it has cleared or that waits for something else. */
  lemma VisitKept(s: State, a: nat)
    requires Inv(s) && a in s.scans && s.scans[a].pos < |s.procs|
    ensures var w := s.scans[a];
            Inv(SetProc(s, w.pos, Woken(s.procs[w.pos], w.chan)).(scans := s.scans[a := w.(pos := w.pos + 1)]))
  {
    var w := s.scans[a];
    SlotKept(s, w.pos, Woken(s.procs[w.pos], w.chan));
    var u := SetProc(s, w.pos, Woken(s.procs[w.pos], w.chan));
    var t := u.(scans := s.scans[a := w.(pos := w.pos + 1)]);
    forall b | b in t.scans
      ensures Passed(t.procs, t.prep, t.scans[b])
    {
      assert Passed(u.procs, u.prep, u.scans[b]);
    }
  }

  lemma InvKept(s: State, e: Step)
    requires Inv(s) && Enabled(s, e)
    ensures Inv(Do(s, e))
  {
    match e
    case Prepare(p, c) => PrepareKept(s, p, c);
    case Begin(_, _) =>
    case Visit(a) => VisitKept(s, a);
    case Finish(a) => FinishKept(s, a);
    case _ => SlotKept(s, e.p, Do(s, e).procs[e.p]);
  }

  lemma FinishKept(s: State, a: nat)
    requires Inv(s) && Enabled(s, Finish(a))
    ensures Inv(Do(s, Finish(a)))
  {
    assert Passed(s.procs, s.prep, s.scans[a]);
  }

  lemma {:induction false} RunInv(run: seq<State>, steps: seq<Step>, k: nat)
    requires IsRun(run, steps) && k < |run|
    ensures Inv(run[k])
  {
    if k > 0 {
      RunInv(run, steps, k - 1);
      InvKept(run[k - 1], steps[k - 1]);
      assert run[k - 1 + 1] == Do(run[k - 1], steps[k - 1]);
    }
  }

  /** A sleeping process always has a channel stored, so some wakeup can reach it. */
  lemma SleeperHasChannel(run: seq<State>, steps: seq<Step>, k: nat, p: nat)
    requires IsRun(run, steps) && k < |run| && p < |run[k].procs|
    requires run[k].procs[p].run == Sleeping
    ensures run[k].procs[p].chan != 0
  {
    RunInv(run, steps, k);
  }

  // ----- no lost wakeup, over whole runs -----

  ghost predicate Prepares(e: Step, p: nat) {
    e.Prepare? && e.p == p
  }

  lemma {:induction false} SlotsStay(run: seq<State>, steps: seq<Step>, i: nat, j: nat)
    requires IsRun(run, steps) && i <= j < |run|
    ensures |run[j].procs| == |run[i].procs| && run[j].clock == run[i].clock + (j - i)
    decreases j - i
  {
    if i < j {
      SlotsStay(run, steps, i, j - 1);
      assert run[j - 1 + 1] == Do(run[j - 1], steps[j - 1]);
    }
  }

  /** Until p prepares again its channel is the prepared one or none, and its mark is the old one. */
  lemma {:induction false} PreparedStays(run: seq<State>, steps: seq<Step>, i: nat, m: nat, p: nat, c: nat)
    requires IsRun(run, steps) && i < m < |run|
    requires steps[i] == Prepare(p, c)
    requires forall x :: i < x < m ==> !Prepares(steps[x], p)
    ensures p < |run[m].procs| == |run[m].prep|
    ensures run[m].procs[p].chan in {0, c} && run[m].prep[p] == run[i].clock
  {
    assert run[m - 1 + 1] == Do(run[m - 1], steps[m - 1]);
    RunInv(run, steps, m);
    if i < m - 1 {
      PreparedStays(run, steps, i, m - 1, p, c);
      assert !Prepares(steps[m - 1], p);
    }
  }

  lemma {:induction false} ScanStays(run: seq<State>, steps: seq<Step>, j: nat, k: nat, a: nat, c: nat)
    requires IsRun(run, steps) && j < k < |run|
    requires steps[j] == Begin(a, c)
    requires forall x :: j < x < k ==> steps[x] != Finish(a)
    ensures a in run[k].scans && run[k].scans[a].chan == c && run[k].scans[a].start == run[j].clock
  {
    assert run[k - 1 + 1] == Do(run[k - 1], steps[k - 1]);
    if j < k - 1 {
      ScanStays(run, steps, j, k - 1, a, c);
      assert steps[k - 1] != Finish(a);
    }
  }

  lemma {:induction false} WokeGrows(run: seq<State>, steps: seq<Step>, k: nat, m: nat, c: nat)
    requires IsRun(run, steps) && k <= m < |run| && c in run[k].woke
    ensures c in run[m].woke && run[k].woke[c] <= run[m].woke[c]
    decreases m - k
  {
    if k < m {
      WokeGrows(run, steps, k, m - 1, c);
      assert run[m - 1 + 1] == Do(run[m - 1], steps[m - 1]);
    }
  }

  /** No lost wakeup.  Process p prepares on c at step i; a wakeup of c begins later, at j, and
    * ends at k.  Then p is not asleep at any later point m before it prepares anew, whatever
    * the interleaving and wherever p's own sleep() fell. */
  lemma NoLostWakeup(run: seq<State>, steps: seq<Step>, i: nat, j: nat, k: nat, m: nat, p: nat, c: nat, a: nat)
    requires IsRun(run, steps) && i < j < k < m < |run|
    requires steps[i] == Prepare(p, c) && steps[j] == Begin(a, c) && steps[k] == Finish(a)
    requires forall x :: j < x < k ==> steps[x] != Finish(a)
    requires forall x :: i < x < m ==> !Prepares(steps[x], p)
    ensures p < |run[m].procs| && run[m].procs[p].run != Sleeping && run[m].procs[p].chan != c
  {
    PreparedStays(run, steps, i, m, p, c);
    ScanStays(run, steps, j, k, a, c);
    assert run[k + 1] == Do(run[k], steps[k]);
    WokeGrows(run, steps, k + 1, m, c);
    SlotsStay(run, steps, i, j);
    RunInv(run, steps, m);
    assert c != 0 by { assert Enabled(run[i], steps[i]); }
  }

  // ----- the code -----

  function WakeAll(procs: seq<Proc>, chan: nat): (r: seq<Proc>)
    ensures |r| == |procs|
    ensures forall p :: 0 <= p < |r| ==> r[p] == Woken(procs[p], chan)
  {
    seq(|procs|, i requires 0 <= i < |procs| => Woken(procs[i], chan))
  }

  /** A slot found by its pid, as kkill searches: the first match. */
  ghost predicate FirstWithPid(procs: seq<Proc>, pid: nat, p: nat) {
    p < |procs| && procs[p].pid == pid && (forall q :: 0 <= q < p ==> procs[q].pid != pid)
  }

  class ProcTable {
    var procs: seq<Proc>

    constructor (n: nat)
      ensures |procs| == n && forall p :: 0 <= p < n ==> procs[p] == Proc(Unused, 0, false, 0)
    {
      procs := seq(n, _ => Proc(Unused, 0, false, 0));
    }

    /** Storing channel zero is a panic: nothing is stored. */
    method SleepPrepare(me: nat, chan: nat) returns (ok: bool)
      requires me < |procs|
      modifies this
      ensures ok == (chan != 0)
      ensures procs == if ok then old(procs)[me := old(procs)[me].(chan := chan)] else old(procs)
      ensures SleepersNamed(old(procs)) ==> SleepersNamed(procs)
    {
      if chan == 0 {
        return false;
      }
      procs := procs[me := procs[me].(chan := chan)];
      return true;
    }

    /** Up to the switch to the scheduler. */
    method Sleep(me: nat) returns (switched: bool)
      requires me < |procs| && procs[me].run == Running
      modifies this
      ensures procs == old(procs)[me := Dozed(old(procs)[me])]
      ensures switched == (procs[me].run == Sleeping)
      ensures SleepersNamed(old(procs)) ==> SleepersNamed(procs)
    {
      if procs[me].chan != 0 {
        procs := procs[me := procs[me].(run := Sleeping)];
        return true;
      }
      return false;
    }

    /** With no interference: every process waiting on the channel becomes runnable, no other
      * process changes, and nobody is left holding the channel. */
    method Wakeup(chan: nat)
      modifies this
      ensures procs == WakeAll(old(procs), chan)
      ensures chan != 0 ==> forall p :: 0 <= p < |procs| ==> procs[p].chan != chan
      ensures SleepersNamed(old(procs)) ==> SleepersNamed(procs)
    {
      var p := 0;
      while p < |procs|
        invariant p <= |procs| == |old(procs)|
        invariant forall q :: 0 <= q < p ==> procs[q] == Woken(old(procs)[q], chan)
        invariant forall q :: p <= q < |procs| ==> procs[q] == old(procs)[q]
      {
        if procs[p].chan == chan {
          procs := procs[p := procs[p].(chan := 0)];
          if procs[p].run == Sleeping {
            procs := procs[p := procs[p].(run := Runnable)];
          }
        }
        p := p + 1;
      }
      assert procs == WakeAll(old(procs), chan);
    }

    /** Fails exactly when no slot carries the pid; otherwise only the first match changes, it is
      * no longer asleep, and its channel stays stored. */
    method Kkill(pid: nat) returns (ok: bool, ghost hit: nat)
      modifies this
      ensures !ok ==> procs == old(procs) && forall p :: 0 <= p < |procs| ==> procs[p].pid != pid
      ensures ok ==> FirstWithPid(old(procs), pid, hit)
                     && procs == old(procs)[hit := Killed(old(procs)[hit])]
      ensures SleepersNamed(old(procs)) ==> SleepersNamed(procs)
    {
      var p := 0;
      hit := 0;
      while p < |procs|
        invariant p <= |procs| && procs == old(procs)
        invariant forall q :: 0 <= q < p ==> procs[q].pid != pid
      {
        if procs[p].pid == pid {
          procs := procs[p := procs[p].(killed := true)];
          if procs[p].run == Sleeping {
            procs := procs[p := procs[p].(run := Runnable)];
          }
          hit := p;
          return true, hit;
        }
        p := p + 1;
      }
      return false, hit;
    }
  }

  /** An undisturbed wakeup in the machine does what the loop does. */
  lemma {:induction false} ScanIsWakeAll(s: State, a: nat, c: nat, k: nat, t: State)
    requires |s.prep| == |s.procs| && a in s.scans && s.scans[a].chan == c && s.scans[a].pos + k == |s.procs|
    requires t == Visits(s, a, k)
    ensures t.procs == s.procs[..s.scans[a].pos] + WakeAll(s.procs[s.scans[a].pos..], c)
    ensures Enabled(t, Finish(a))
    decreases k
  {
    var pos := s.scans[a].pos;
    if k > 0 {
      var u := Do(s, Visit(a));
      assert u.scans[a] == Scan(c, s.scans[a].start, pos + 1) && u.procs == s.procs[pos := Woken(s.procs[pos], c)];
      assert |u.prep| == |u.procs|;
      hide Do, Enabled, Woken;
      ScanIsWakeAll(u, a, c, k - 1, t);
      assert u.procs[pos + 1..] == s.procs[pos + 1..];
    }
  }

  ghost function Visits(s: State, a: nat, k: nat): State
    requires |s.prep| == |s.procs| && a in s.scans && s.scans[a].pos + k <= |s.procs|
    decreases k
  {
    if k == 0 then s else Visits(Do(s, Visit(a)), a, k - 1)
  }
}
