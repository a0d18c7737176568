/** The table loops of kfork, kexit and kwait as code.  The real fields are the process table;
  * beside them the machine state of ExitWait takes one step for every locked section, so each
  * call is a run of the machine and keeps its invariant. */
module ProcCode {
  import opened Basics
  import S = Sleep
  import opened ExitWait

  datatype WaitResult = Reaped(pid: nat, status: int) | CopyFailed | NoChildren | MustSleep

  /** The parents after p's children go to the first process. */
  function Orphaned(parent: seq<Option<nat>>, p: nat, init: nat): (r: seq<Option<nat>>)
    ensures |r| == |parent|
    ensures forall z :: 0 <= z < |r| ==> r[z] == (if parent[z] == Some(p) then Some(init) else parent[z])
  {
    seq(|parent|, z requires 0 <= z < |parent| => if parent[z] == Some(p) then Some(init) else parent[z])
  }

  /** The parents when reparent has looked at the first k slots. */
  function Adopting(parent: seq<Option<nat>>, p: nat, init: nat, k: nat): (r: seq<Option<nat>>)
    requires k <= |parent|
  {
    Orphaned(parent[..k], p, init) + parent[k..]
  }

  lemma AdoptingEnds(parent: seq<Option<nat>>, p: nat, init: nat)
    ensures Adopting(parent, p, init, 0) == parent && Adopting(parent, p, init, |parent|) == Orphaned(parent, p, init)
    ensures parent[..0] == [] && parent[..|parent|] == parent
  {
  }

  lemma AdoptingStep(parent: seq<Option<nat>>, p: nat, init: nat, k: nat)
    requires k < |parent|
    ensures var now := Adopting(parent, p, init, k);
            && |now| == |parent| && now[k] == parent[k]
            && Adopting(parent, p, init, k + 1) == if parent[k] == Some(p) then now[k := Some(init)] else now
    ensures Some(p) in parent[..k + 1] <==> Some(p) in parent[..k] || parent[k] == Some(p)
  {
    assert parent[..k + 1] == parent[..k] + [parent[k]];
  }

  predicate AnyUnused(procs: seq<S.Proc>) {
    exists q :: 0 <= q < |procs| && procs[q].run == S.Unused
  }

  lemma UnusedFound(procs: seq<S.Proc>, r: Option<nat>)
    requires r.None? ==> forall z :: 0 <= z < |procs| ==> procs[z].run != S.Unused
    requires r.Some? ==> FirstUnused(procs, r.value)
    ensures r.Some? <==> AnyUnused(procs)
  {
  }

  predicate FirstUnused(procs: seq<S.Proc>, q: nat) {
    q < |procs| && procs[q].run == S.Unused && forall z :: 0 <= z < q ==> procs[z].run != S.Unused
  }

  /** What a successful kfork leaves: the first free slot runs, under p. */
  predicate Forked(procs0: seq<S.Proc>, parent0: seq<Option<nat>>, p: nat, q: nat, pid: nat,
                   procs: seq<S.Proc>, parent: seq<Option<nat>>)
    requires |parent0| == |procs0|
  {
    && FirstUnused(procs0, q)
    && procs == procs0[q := procs0[q].(run := S.Runnable, pid := pid)]
    && parent == parent0[q := Some(p)]
  }

  /** z is the first child of p that is a zombie. */
  predicate FirstZombie(procs: seq<S.Proc>, parent: seq<Option<nat>>, p: nat, z: nat)
    requires |parent| == |procs|
  {
    && z < |procs| && parent[z] == Some(p) && procs[z].run == S.Zombie
    && forall y :: 0 <= y < z && parent[y] == Some(p) ==> procs[y].run != S.Zombie
  }

  /** The table p leaves behind: the first process woken if it inherits a child, then p's
    * parent woken, then p dead. */
  function Exited(procs: seq<S.Proc>, p: nat, inherits: bool, init: nat, parent: nat): seq<S.Proc>
    requires p < |procs|
  {
    var told := S.WakeAll(if inherits then S.WakeAll(procs, init + 1) else procs, parent + 1);
    told[p := told[p].(run := S.Zombie)]
  }

  class Table {
    var procs: seq<S.Proc>
    var parent: seq<Option<nat>>
    var xstate: seq<int>
    var nextpid: nat
    var initproc: nat
    ghost var s: State

    ghost predicate Coupled()
      reads this
    {
      s.procs == procs && s.parent == parent && s.xstate == xstate && s.nextpid == nextpid && s.init == initproc
    }

    ghost predicate Valid()
      reads this
    {
      Coupled() && Inv(s)
    }

    /** p runs, at the given place. */
    ghost predicate At(p: nat, at: Pc)
      reads this
    {
      Shape(s) && p < |s.procs| && s.procs[p].run == S.Running && s.pc[p] == at
    }

    /** userinit's table: one runnable process, its own slot the first. */
    constructor (n: nat)
      requires n > 0
      ensures Valid() && Boot(s) && |procs| == n
    {
      var free := seq(n, _ => FREE);
      var none: seq<Option<nat>> := seq(n, _ => None);
      procs := free[0 := S.Proc(S.Runnable, 0, false, 1)];
      parent := none;
      xstate := seq(n, _ => 0);
      nextpid := 2;
      initproc := 0;
      s := World(free[0 := S.Proc(S.Runnable, 0, false, 1)], none, seq(n, _ => 0), seq(n, _ => Idle), None, 2, 0,
                 Past(map[], [], map[1 := 0]));
      new;
      BootInv(s);
    }

    ghost method Take(e: Step)
      requires Inv(s) && Enabled(s, e)
      modifies this`s
      ensures s == Do(old(s), e) && Inv(s)
    {
      InvKept(s, e);
      s := Do(s, e);
    }

    ghost method Search1(p: nat)
      requires Inv(s) && Shape(s) && p < |s.procs| && s.procs[p].run == S.Running && s.pc[p].Search? && s.pc[p].pos < |s.procs|
      requires s.parent[s.pc[p].pos] == Some(p) ==> s.procs[s.pc[p].pos].run != S.Zombie
      modifies this`s
      ensures s == Go(old(s), p, Search(old(s.pc[p].pos) + 1, old(s.pc[p].kids) || old(s.parent[s.pc[p].pos]) == Some(p)))
      ensures Inv(s)
    {
      hide Inv;
      Take(ScanOne(p));
    }

    ghost method Reap1(p: nat)
      requires Inv(s) && Shape(s) && p < |s.procs| && s.procs[p].run == S.Running && s.pc[p].Search? && s.pc[p].pos < |s.procs|
      requires s.parent[s.pc[p].pos] == Some(p) && s.procs[s.pc[p].pos].run == S.Zombie
      modifies this`s
      ensures s == AfterReaps(old(s), p) && Inv(s)
    {
      hide Inv;
      Take(Reaps(p));
    }

    /** The ways kwait lets go of wait_lock without collecting anybody. */
    ghost method Leave(p: nat, e: Step)
      requires Inv(s) && Shape(s) && p < |s.procs| && s.procs[p].run == S.Running && s.pc[p].Search?
      requires (e == GiveUp(p) && s.pc[p].pos == |s.procs| && (!s.pc[p].kids || s.procs[p].killed))
               || (e == ReapFails(p) && s.pc[p].pos < |s.procs| && s.parent[s.pc[p].pos] == Some(p)
                   && s.procs[s.pc[p].pos].run == S.Zombie)
      modifies this`s
      ensures s == Go(old(s), p, Idle).(wait := None) && Inv(s)
    {
      hide Inv;
      Take(e);
    }

    ghost method Prepare1(p: nat)
      requires Inv(s) && Shape(s) && p < |s.procs| && s.procs[p].run == S.Running
      requires s.pc[p] == Search(|s.procs|, true) && !s.procs[p].killed
      modifies this`s
      ensures s == Go(Put(old(s), p, old(s.procs[p]).(chan := p + 1)), p, Prepared) && Inv(s)
    {
      hide Inv;
      Take(Prepare(p));
    }

    ghost method Reparent1(p: nat)
      requires Inv(s) && Shape(s) && p < |s.procs| && s.procs[p].run == S.Running && s.pc[p].Reparent? && s.pc[p].pos < |s.procs|
      modifies this`s
      ensures s == AfterReparentOne(old(s), p) && Inv(s)
    {
      hide Inv;
      Take(ReparentOne(p));
    }

    ghost method Rewake1(p: nat)
      requires Inv(s) && Shape(s) && p < |s.procs| && s.procs[p].run == S.Running && s.pc[p].Rewake? && s.pc[p].k <= |s.procs|
      modifies this`s
      ensures s == AfterRewakeOne(old(s), p) && Inv(s)
    {
      hide Inv;
      Take(RewakeOne(p));
    }

    ghost method Wake1(p: nat)
      requires Inv(s) && Shape(s) && p < |s.procs| && s.procs[p].run == S.Running && s.pc[p].WakeParent? && s.pc[p].k < |s.procs|
      requires s.parent[p].Some?
      modifies this`s
      ensures var k := old(s.pc[p].k);
              s == Go(Put(old(s), k, S.Woken(old(s.procs)[k], old(s.parent)[p].value + 1)), p, WakeParent(k + 1))
      ensures Inv(s)
    {
      hide Inv;
      Take(WakeOne(p));
    }

    ghost method Exit1(p: nat)
      requires Inv(s) && Shape(s) && p < |s.procs| && s.procs[p].run == S.Running && s.pc[p] == Idle && s.wait == None && p != s.init
      modifies this`s
      ensures s == Go(old(s), p, Reparent(0)).(wait := Some(p)) && Inv(s)
    {
      hide Inv;
      Take(ExitBegin(p));
    }

    ghost method Announce1(p: nat)
      requires Inv(s) && Shape(s) && p < |s.procs| && s.procs[p].run == S.Running && s.pc[p] == Reparent(|s.procs|)
      modifies this`s
      ensures s == Go(old(s), p, WakeParent(0)) && Inv(s)
    {
      hide Inv;
      Take(ReparentDone(p));
    }

    ghost method Die1(p: nat, status: int)
      requires Inv(s) && Shape(s) && p < |s.procs| && s.procs[p].run == S.Running && s.pc[p] == WakeParent(|s.procs|)
      modifies this`s
      ensures s == AfterDie(old(s), p, status) && Inv(s)
    {
      hide Inv;
      Take(Die(p, status));
    }

    /** kfork's search for a slot and the pid it gets. */
    method Allocproc(p: nat) returns (r: Option<nat>)
      requires Valid() && At(p, Idle)
      modifies this
      ensures Valid() && parent == old(parent) && xstate == old(xstate) && initproc == old(initproc)
      ensures r.None? ==> procs == old(procs) && nextpid == old(nextpid) && s == old(s)
      ensures r.None? ==> forall z :: 0 <= z < |procs| ==> procs[z].run != S.Unused
      ensures r.Some? ==> FirstUnused(old(procs), r.value) && nextpid == old(nextpid) + 1
      ensures r.Some? ==> procs == old(procs)[r.value := old(procs)[r.value].(run := S.Used, pid := old(nextpid))]
      ensures r.Some? ==> At(p, Forking(r.value)) && s == Do(old(s), Fork(p, r.value))
    {
      hide Inv;
      var q := 0;
      while q < |procs|
        invariant q <= |procs| && procs == old(procs) && s == old(s) && nextpid == old(nextpid)
        invariant parent == old(parent) && xstate == old(xstate) && initproc == old(initproc)
        invariant forall z :: 0 <= z < q ==> procs[z].run != S.Unused
      {
        if procs[q].run == S.Unused {
          procs := procs[q := procs[q].(pid := nextpid, run := S.Used)];
          nextpid := nextpid + 1;
          Take(Fork(p, q));
          return Some(q);
        }
        q := q + 1;
      }
      return None;
    }

    /** kfork: it succeeds exactly if some slot is unused and there is memory for the child
        (copied); a pid is used up whenever a slot was found. */
    method Kfork(p: nat, copied: bool) returns (r: Option<nat>)
      requires Valid() && At(p, Idle) && s.wait == None
      modifies this
      ensures Valid() && At(p, Idle) && s.wait == None
      ensures r.Some? <==> copied && AnyUnused(old(procs))
      ensures nextpid == old(nextpid) + if AnyUnused(old(procs)) then 1 else 0
      ensures r.None? ==> parent == old(parent) && |procs| == |old(procs)|
      ensures r.None? ==> forall z :: 0 <= z < |procs| ==> procs[z].run == old(procs)[z].run
      ensures r.Some? ==> r.value == old(nextpid)
      ensures r.Some? ==> exists q :: Forked(old(procs), old(parent), p, q, old(nextpid), procs, parent)
    {
      hide Inv, AnyUnused;
      var np := Allocproc(p);
      UnusedFound(old(procs), np);
      if np == None {
        return None;
      }
      var q := np.value;
      if !copied {
        AbandonChild(p, q);
        return None;
      }
      LaunchChild(p, q);
      assert Forked(old(procs), old(parent), p, q, old(nextpid), procs, parent);
      return Some(procs[q].pid);
    }

    /** kfork without memory: freeproc. */
    method AbandonChild(p: nat, q: nat)
      requires Valid() && At(p, Forking(q)) && q < |procs| && procs[q].run == S.Used && s.wait == None
      modifies this`procs, this`xstate, this`s
      ensures Valid() && At(p, Idle) && s.wait == None && procs == old(procs)[q := FREE]
    {
      hide Inv;
      procs := procs[q := FREE];
      xstate := xstate[q := 0];
      Take(Abort(p));
    }

    /** The end of kfork: the parent is set, then the child may run. */
    method LaunchChild(p: nat, q: nat)
      requires Valid() && At(p, Forking(q)) && q < |procs| && procs[q].run == S.Used && s.wait == None
      modifies this`procs, this`parent, this`s
      ensures Valid() && At(p, Idle) && s.wait == None
      ensures q < |old(parent)| && parent == old(parent)[q := Some(p)]
      ensures procs == old(procs)[q := old(procs)[q].(run := S.Runnable)]
    {
      hide Inv;
      parent := parent[q := Some(p)];
      Take(Adopt(p));
      procs := procs[q := procs[q].(run := S.Runnable)];
      Take(Start(p));
    }

    /** wakeup(initproc) inside reparent, one slot at a time. */
    method WakeInit(p: nat, ghost pos: nat)
      requires Valid() && At(p, Rewake(pos, 0))
      modifies this`procs, this`s
      ensures Valid() && At(p, Reparent(pos)) && s.wait == old(s.wait) && s.past == old(s.past)
      ensures procs == S.WakeAll(old(procs), initproc + 1)
    {
      hide Inv;
      var k := 0;
      while k < |procs|
        invariant k <= |procs| == |old(procs)| && Valid() && At(p, Rewake(pos, k)) && s.wait == old(s.wait) && s.past == old(s.past)
        invariant forall z :: 0 <= z < k ==> procs[z] == S.Woken(old(procs)[z], initproc + 1)
        invariant forall z :: k <= z < |procs| ==> procs[z] == old(procs)[z]
      {
        if procs[k].chan == initproc + 1 {
          procs := procs[k := S.Rouse(procs[k]).(chan := 0)];
        }
        Rewake1(p);
        k := k + 1;
      }
      Rewake1(p);
      assert procs == S.WakeAll(old(procs), initproc + 1);
    }

    /** One turn of reparent's loop. */
    method GiveOne(p: nat, pp: nat)
      requires Valid() && At(p, Reparent(pp)) && pp < |parent|
      modifies this`procs, this`parent, this`s
      ensures Valid() && At(p, Reparent(pp + 1)) && s.wait == old(s.wait) && s.past == old(s.past)
      ensures parent == if old(parent)[pp] == Some(p) then old(parent)[pp := Some(initproc)] else old(parent)
      ensures procs == if old(parent)[pp] == Some(p) then S.WakeAll(old(procs), initproc + 1) else old(procs)
    {
      hide Inv;
      if parent[pp] == Some(p) {
        parent := parent[pp := Some(initproc)];
        Reparent1(p);
        WakeInit(p, pp + 1);
      } else {
        Reparent1(p);
      }
    }

    /** Hand every child of p to the first process, waking it for each. */
    method GiveAway(p: nat)
      requires Valid() && At(p, Reparent(0))
      modifies this`procs, this`parent, this`s
      ensures Valid() && At(p, Reparent(|procs|)) && s.wait == old(s.wait) && s.past == old(s.past)
      ensures parent == Orphaned(old(parent), p, initproc)
      ensures procs == if Some(p) in old(parent) then S.WakeAll(old(procs), initproc + 1) else old(procs)
    {
      hide Inv, S.WakeAll, Orphaned, Adopting;
      var pp := 0;
      WakeTwice(procs, initproc + 1);
      AdoptingEnds(parent, p, initproc);
      while pp < |procs|
        invariant pp <= |procs| == |parent| == |old(parent)|
        invariant Valid() && At(p, Reparent(pp)) && s.wait == old(s.wait) && s.past == old(s.past)
        invariant parent == Adopting(old(parent), p, initproc, pp)
        invariant procs == if Some(p) in old(parent)[..pp] then S.WakeAll(old(procs), initproc + 1) else old(procs)
      {
        AdoptingStep(old(parent), p, initproc, pp);
        GiveOne(p, pp);
        pp := pp + 1;
      }
    }

    method WakeMyParent(p: nat)
      requires Valid() && At(p, WakeParent(0)) && p < |parent| && parent[p].Some?
      modifies this`procs, this`s
      ensures Valid() && At(p, WakeParent(|procs|)) && s.wait == old(s.wait) && s.past == old(s.past)
      ensures p < |parent| && parent[p].Some? && procs == S.WakeAll(old(procs), parent[p].value + 1)
    {
      hide Inv;
      var chan := parent[p].value + 1;
      var k := 0;
      while k < |procs|
        invariant k <= |procs| == |old(procs)| && Valid() && At(p, WakeParent(k)) && s.wait == old(s.wait) && s.past == old(s.past)
        invariant forall z :: 0 <= z < k ==> procs[z] == S.Woken(old(procs)[z], chan)
        invariant forall z :: k <= z < |procs| ==> procs[z] == old(procs)[z]
      {
        if procs[k].chan == chan {
          procs := procs[k := S.Rouse(procs[k]).(chan := 0)];
        }
        Wake1(p);
        k := k + 1;
      }
      assert procs == S.WakeAll(old(procs), chan);
    }

    /** The last lines of kexit. */
    method Finish(p: nat, status: int)
      requires Valid() && At(p, WakeParent(|procs|)) && p < |xstate|
      modifies this`procs, this`xstate, this`s
      ensures Valid() && s.wait == None
      ensures p < |old(procs)| && procs == old(procs)[p := old(procs)[p].(run := S.Zombie)]
      ensures xstate == old(xstate)[p := status]
      ensures s.past.exited == old(s.past.exited)[old(procs)[p].pid := status]
    {
      hide Inv;
      xstate := xstate[p := status];
      procs := procs[p := procs[p].(run := S.Zombie)];
      Die1(p, status);
    }

    /** Taking wait_lock and giving the children away. */
    method HandOver(p: nat)
      requires Valid() && At(p, Idle) && s.wait == None && p != initproc
      modifies this`procs, this`parent, this`s
      ensures Valid() && At(p, Reparent(|procs|)) && s.past == old(s.past)
      ensures parent == Orphaned(old(parent), p, initproc) && p < |parent| && parent[p].Some?
      ensures procs == if Some(p) in old(parent) then S.WakeAll(old(procs), initproc + 1) else old(procs)
    {
      hide Inv, S.WakeAll, Orphaned;
      Exit1(p);
      GiveAway(p);
      HasParent(s, p);
    }

    method Notify(p: nat)
      requires Valid() && At(p, Reparent(|procs|)) && p < |parent| && parent[p].Some?
      modifies this`procs, this`s
      ensures Valid() && At(p, WakeParent(|procs|)) && s.past == old(s.past)
      ensures p < |parent| && parent[p].Some? && procs == S.WakeAll(old(procs), parent[p].value + 1)
    {
      hide Inv, S.WakeAll;
      Announce1(p);
      WakeMyParent(p);
    }

    /** kexit from the taking of wait_lock to the final switch. */
    method Kexit(p: nat, status: int)
      requires Valid() && At(p, Idle) && s.wait == None && p != initproc
      modifies this`procs, this`parent, this`xstate, this`s
      ensures Valid() && s.wait == None
      ensures p < |old(procs)| && p < |old(xstate)| && p < |parent| && parent[p].Some?
      ensures parent == Orphaned(old(parent), p, initproc)
      ensures xstate == old(xstate)[p := status]
      ensures procs == Exited(old(procs), p, Some(p) in old(parent), initproc, parent[p].value)
      ensures s.past.exited == old(s.past.exited)[old(procs)[p].pid := status]
    {
      hide Inv, Orphaned;
      HandOver(p);
      Notify(p);
      Finish(p, status);
    }

    /** Collect the zombie at pp: its status goes to the caller and its slot is freed. */
    method Collect(p: nat, pp: nat) returns (r: WaitResult)
      requires Valid() && Shape(s) && p < |procs| && procs[p].run == S.Running && s.pc[p].Search? && s.pc[p].pos == pp
      requires |procs| == |parent| == |xstate| && FirstZombie(procs, parent, p, pp)
      modifies this`procs, this`parent, this`xstate, this`s
      ensures Valid() && |old(procs)| == |old(parent)| == |old(xstate)| && r.Reaped?
      ensures Collected(old(procs), old(parent), old(xstate), p, pp, r, procs, parent, xstate)
      ensures s.wait == None && s.past.reaped == old(s.past.reaped) + [Reap(r.pid, r.status)]
    {
      hide Inv;
      r := Reaped(procs[pp].pid, xstate[pp]);
      parent := parent[pp := None];
      procs := procs[pp := FREE];
      xstate := xstate[pp := 0];
      Reap1(p);
    }

    /** kwait's loop over the table: stops at the first zombie child, else says whether there
      * was any child. */
    method FindZombie(p: nat) returns (z: nat, kids: bool)
      requires Valid() && At(p, Search(0, false))
      modifies this`s
      ensures Valid() && p < |procs| == |parent| == |xstate| && procs[p].run == S.Running && z <= |procs|
      ensures Shape(s) && s.pc[p].Search? && s.pc[p].pos == z && s.past == old(s.past)
      ensures z < |procs| ==> FirstZombie(procs, parent, p, z)
      ensures z == |procs| ==> s.pc[p].kids == kids == (Some(p) in parent)
      ensures z == |procs| ==> forall y :: 0 <= y < |procs| && parent[y] == Some(p) ==> procs[y].run != S.Zombie
    {
      hide Inv;
      z, kids := 0, false;
      while z < |procs|
        invariant z <= |procs| == |parent| && Valid() && At(p, Search(z, kids)) && s.past == old(s.past)
        invariant kids == (Some(p) in parent[..z])
        invariant forall y :: 0 <= y < z && parent[y] == Some(p) ==> procs[y].run != S.Zombie
      {
        assert parent[..z + 1] == parent[..z] + [parent[z]];
        if parent[z] == Some(p) {
          if procs[z].run == S.Zombie {
            return;
          }
          kids := true;
        }
        Search1(p);
        z := z + 1;
      }
      assert parent[..z] == parent;
    }

    /** One pass of kwait, wait_lock held: collect the first zombie child, or report no
      * children, or store the channel and prepare to sleep.  canCopy is whether copyout works. */
    method KwaitPass(p: nat, canCopy: bool) returns (r: WaitResult)
      requires Valid() && At(p, Search(0, false))
      modifies this`procs, this`parent, this`xstate, this`s
      ensures Valid() && |old(procs)| == |old(parent)| == |old(xstate)| && p < |old(procs)|
      ensures r.Reaped? ==> canCopy && s.wait == None && s.past.reaped == old(s.past.reaped) + [Reap(r.pid, r.status)]
      ensures r.Reaped? ==> exists z :: Collected(old(procs), old(parent), old(xstate), p, z, r, procs, parent, xstate)
      ensures !r.Reaped? ==> parent == old(parent) && xstate == old(xstate)
      ensures r.CopyFailed? ==> !canCopy && procs == old(procs) && s.wait == None
      ensures r.NoChildren? ==> procs == old(procs) && s.wait == None && (Some(p) !in parent || procs[p].killed)
      ensures r.MustSleep? ==> procs == old(procs)[p := old(procs)[p].(chan := p + 1)] && Some(p) in parent
      ensures r.MustSleep? ==> forall z :: !FirstZombie(old(procs), old(parent), p, z)
    {
      hide Inv;
      var z, kids := FindZombie(p);
      if z < |procs| {
        if !canCopy {
          Leave(p, ReapFails(p));
          return CopyFailed;
        }
        r := Collect(p, z);
        return;
      }
      if !kids || procs[p].killed {
        Leave(p, GiveUp(p));
        return NoChildren;
      }
      procs := procs[p := procs[p].(chan := p + 1)];
      Prepare1(p);
      return MustSleep;
    }
  }

  /** What a successful pass leaves: the first zombie child is gone, its status handed over. */
  predicate Collected(procs0: seq<S.Proc>, parent0: seq<Option<nat>>, xstate0: seq<int>, p: nat, z: nat, r: WaitResult,
                      procs: seq<S.Proc>, parent: seq<Option<nat>>, xstate: seq<int>)
    requires |parent0| == |procs0| == |xstate0|
  {
    && FirstZombie(procs0, parent0, p, z)
    && r == Reaped(procs0[z].pid, xstate0[z])
    && procs == procs0[z := FREE] && parent == parent0[z := None] && xstate == xstate0[z := 0]
  }

  lemma WakeTwice(procs: seq<S.Proc>, chan: nat)
    requires chan != 0
    ensures S.WakeAll(S.WakeAll(procs, chan), chan) == S.WakeAll(procs, chan)
  {
  }

  lemma HasParent(s: State, p: nat)
    requires Inv(s) && p < |s.procs| && p != s.init && s.procs[p].run == S.Running
    ensures s.parent[p].Some?
  {
  }
}
