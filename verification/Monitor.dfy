/** Waiting under a spinlock with sleep and wakeup, as every client of the protocol does it:
  * take the spinlock, and while the awaited condition fails store the channel, drop the
  * spinlock, sleep, take it again.  Whoever makes a condition true holds the spinlock and
  * runs a wakeup before dropping it.  One channel is watched; processes also wait on other
  * channels, are killed, and are hit by unrelated wakeups. */
module Monitor {
  import opened Basics
  import opened Sleep

  const CHAN: nat := 1

  /** Where a process is with respect to the watched spinlock.  The number is the reason it
    * waits for; Wake carries the next slot its wakeup visits. */
  datatype Pc =
    | Idle
    | Hold
    | Ready(why: nat)
    | Going(why: nat)
    | Slept(why: nat)
    | Wake(pos: nat)

  /** blocked is the set of reasons whose condition fails at present. */
  datatype State = State(procs: seq<Proc>, pc: seq<Pc>, guard: Option<nat>, blocked: iset<nat>)

  datatype Step =
    | Lock(p: nat)
    | Prepare(p: nat, why: nat)
    | Drop(p: nat)
    | Doze(p: nat)
    | Relock(p: nat)
    | Update(p: nat, now: iset<nat>)
    | Signal(p: nat, now: iset<nat>)
    | Visit(p: nat)
    | Unlock(p: nat)
    | PrepareOther(p: nat, chan: nat)
    | DozeOther(p: nat)
    | Stray(p: nat)
    | Kill(p: nat)
    | Resume(p: nat)
    | Yield(p: nat)
    | Life(p: nat, q: Proc)

  predicate Shape(s: State) {
    |s.pc| == |s.procs|
  }

  ghost predicate Can(s: State, p: nat, at: Pc)
    requires Shape(s)
  {
    p < |s.procs| && s.procs[p].run == Running && s.pc[p] == at
  }

  /** A holder may change the conditions; making some condition true obliges it to signal. */
  ghost predicate Enabled(s: State, e: Step) {
    Shape(s)
    && e.p < |s.procs|
    && match e
       case Lock(p) => s.guard == None && Can(s, p, Idle)
       case Prepare(p, why) => Can(s, p, Hold) && why in s.blocked
       case Drop(p) => s.pc[p].Ready? && Can(s, p, s.pc[p])
       case Doze(p) => s.pc[p].Going? && Can(s, p, s.pc[p])
       case Relock(p) => s.guard == None && s.pc[p].Slept? && Can(s, p, s.pc[p])
       case Update(p, now) => Can(s, p, Hold) && s.blocked <= now
       case Signal(p, now) => Can(s, p, Hold)
       case Visit(p) => s.pc[p].Wake? && s.pc[p].pos < |s.procs|
       case Unlock(p) => Can(s, p, Hold) || Can(s, p, Wake(|s.procs|))
       case PrepareOther(p, c) => Can(s, p, Idle) && c != 0 && c != CHAN
       case DozeOther(p) => Can(s, p, Idle) && s.procs[p].chan != CHAN
       case Stray(p) => true
       case Kill(p) => true
       case Resume(p) => s.procs[p].run == Runnable
       case Yield(p) => s.procs[p].run == Running
       case Life(p, q) => s.pc[p] == Idle && s.procs[p].run != Sleeping && q.run != Sleeping && q.chan == 0
  }

  ghost function Put(s: State, p: nat, q: Proc, at: Pc): State
    requires Shape(s) && p < |s.procs|
  {
    s.(procs := s.procs[p := q], pc := s.pc[p := at])
  }

  ghost function Do(s: State, e: Step): State
    requires Enabled(s, e)
  {
    var q := s.procs[e.p];
    match e
    case Lock(p) => Put(s, p, q, Hold).(guard := Some(p))
    case Prepare(p, why) => Put(s, p, q.(chan := CHAN), Ready(why))
    case Drop(p) => Put(s, p, q, Going(s.pc[p].why)).(guard := None)
    case Doze(p) => Put(s, p, Dozed(q), Slept(s.pc[p].why))
    case Relock(p) => Put(s, p, q, Hold).(guard := Some(p))
    case Update(p, now) => s.(blocked := now)
    case Signal(p, now) => Put(s, p, q, Wake(0)).(blocked := now)
    case Visit(p) =>
      var k := s.pc[p].pos;
      s.(procs := s.procs[k := Woken(s.procs[k], CHAN)], pc := s.pc[p := Wake(k + 1)])
    case Unlock(p) => Put(s, p, q, Idle).(guard := None)
    case PrepareOther(p, c) => Put(s, p, q.(chan := c), Idle)
    case DozeOther(p) => Put(s, p, Dozed(q), Idle)
    case Stray(p) => Put(s, p, Rouse(q).(chan := 0), s.pc[p])
    case Kill(p) => Put(s, p, Killed(q), s.pc[p])
    case Resume(p) => Put(s, p, q.(run := Running), s.pc[p])
    case Yield(p) => Put(s, p, q.(run := Runnable), s.pc[p])
    case Life(p, r) => Put(s, p, r, Idle)
  }

  predicate Inside(at: Pc) {
    at.Hold? || at.Ready? || at.Wake?
  }

  /** Asleep on the watched channel, or past the check and sure to fall asleep on it. */
  ghost predicate Waiting(s: State, p: nat)
    requires Shape(s)
  {
    p < |s.procs| && s.procs[p].chan == CHAN && (s.pc[p].Going? || s.procs[p].run == Sleeping)
  }

  /** A wakeup of the channel is under way and has not yet passed p. */
  ghost predicate Reaching(s: State, p: nat)
    requires Shape(s)
  {
    s.guard.Some? && s.guard.value < |s.procs| && s.pc[s.guard.value].Wake? && s.pc[s.guard.value].pos <= p
  }

  ghost predicate Inv(s: State) {
    && Shape(s)
    && (forall p :: 0 <= p < |s.procs| ==> (Inside(s.pc[p]) <==> s.guard == Some(p)))
    && SleepersNamed(s.procs)
    && (forall p :: 0 <= p < |s.procs| && s.procs[p].run == Sleeping && s.procs[p].chan == CHAN ==> s.pc[p].Slept?)
    && (forall p :: 0 <= p < |s.procs| && s.pc[p].Ready? ==> s.pc[p].why in s.blocked)
    && (forall p :: 0 <= p < |s.procs| && Waiting(s, p) ==> s.pc[p].why in s.blocked || Reaching(s, p))
  }

  lemma GuardKept(s: State, e: Step)
    requires Inv(s) && Enabled(s, e)
    ensures Shape(Do(s, e)) && |Do(s, e).procs| == |s.procs|
    ensures forall p :: 0 <= p < |s.procs| ==> (Inside(Do(s, e).pc[p]) <==> Do(s, e).guard == Some(p))
  {
  }

  lemma SleepersKept(s: State, e: Step, p: nat)
    requires Inv(s) && Enabled(s, e) && p < |s.procs| && Shape(Do(s, e)) && |Do(s, e).procs| == |s.procs|
    ensures var t := Do(s, e);
            && (t.procs[p].run == Sleeping ==> t.procs[p].chan != 0)
            && (t.procs[p].run == Sleeping && t.procs[p].chan == CHAN ==> t.pc[p].Slept?)
            && (t.pc[p].Ready? ==> t.pc[p].why in t.blocked)
  {
  }

  lemma WaitersKept(s: State, e: Step, p: nat)
    requires Inv(s) && Enabled(s, e) && Shape(Do(s, e)) && |Do(s, e).procs| == |s.procs| && Waiting(Do(s, e), p)
    ensures var t := Do(s, e);
            (t.pc[p].Going? || t.pc[p].Slept?) && (t.pc[p].why in t.blocked || Reaching(t, p))
  {
    assert p != e.p ==> Waiting(s, p);
    assert p == e.p && !e.Drop? ==> Waiting(s, p);
  }

  /** Every step keeps the waiting discipline. */
  lemma InvKept(s: State, e: Step)
    requires Inv(s) && Enabled(s, e)
    ensures Inv(Do(s, e))
  {
    hide Do, Enabled;
    var t := Do(s, e);
    GuardKept(s, e);
    forall p | 0 <= p < |t.procs|
      ensures t.procs[p].run == Sleeping ==> t.procs[p].chan != 0
      ensures t.procs[p].run == Sleeping && t.procs[p].chan == CHAN ==> t.pc[p].Slept?
      ensures t.pc[p].Ready? ==> t.pc[p].why in t.blocked
      ensures Waiting(t, p) ==> (t.pc[p].Going? || t.pc[p].Slept?) && (t.pc[p].why in t.blocked || Reaching(t, p))
    {
      SleepersKept(s, e, p);
      if Waiting(t, p) { WaitersKept(s, e, p); }
    }
  }

  /** With the spinlock free, everybody still waiting waits for a condition that fails. */
  lemma FreeMeansBlocked(s: State, p: nat)
    requires Inv(s) && s.guard == None && Waiting(s, p)
    ensures (s.pc[p].Going? || s.pc[p].Slept?) && s.pc[p].why in s.blocked
  {
  }
}
