/** File-system operations between begin_op and end_op, and crashes, over the machine of
    Links.

    Whatever changes inodes or directories runs inside an operation.  end_op commits when it
    is the last to leave, so what is on the disk is the tree of a moment at which no operation
    was open.  A crash falls back to that tree, with the inode table empty; ireclaim then
    frees the inodes that only a reference had kept, each in an operation of its own, and may
    be cut short by the next crash. */
module Transactions {
  import opened Basics
  import L = Links
  import Sysfile

  /** What an operation still has to do before end_op: enter or undo a counted link, and
      hand an inode to ifree. */
  datatype Open = Open(link: Option<nat>, freeing: Option<nat>)

  /** `durable` and `depth` are the tree as of the last commit; `up` is false until ireclaim
      is through. */
  datatype State = State(fs: L.Fs, ops: map<nat, Open>, durable: map<nat, L.Node>, depth: map<nat, nat>, up: bool)

  datatype Step =
    | Begin(t: nat)
    | End(t: nat)
    | Act(t: nat, e: L.Step)
    | Crash
    | Reclaim(i: nat)
    | Up

  // ---------------------------------------------------------------- steps

  /** Everything but taking references and reading inodes in. */
  predicate Writes(e: L.Step) {
    !(e.GetRoot? || e.Dup? || e.Ilock? || e.Lookup?)
  }

  /** sys_link counts one link at a time and only its own; iput frees one inode at a time. */
  predicate InTurn(o: Open, e: L.Step) {
    match e
    case LinkBump(_) => o.link.None?
    case LinkEnter(_, _, i, _) => o.link == Some(i)
    case LinkUndo(i) => o.link == Some(i)
    case Put(_) => o.freeing.None?
    case Free(i) => o.freeing == Some(i)
    case _ => true
  }

  function Owing(o: Open, f: L.Fs, f': L.Fs, e: L.Step): Open {
    match e
    case LinkBump(i) => if f'.pending != f.pending then o.(link := Some(i)) else o
    case LinkEnter(_, _, i, _) => if f'.pending != f.pending then o.(link := None) else o
    case LinkUndo(i) => o.(link := None)
    case Put(i) => if i in f'.freeing then o.(freeing := Some(i)) else o
    case Free(i) => o.(freeing := None)
    case _ => o
  }

  ghost predicate CanStep(s: State, step: Step) {
    match step
    case Begin(t) => s.up && t !in s.ops
    case End(t) => t in s.ops && s.ops[t] == Open(None, None)
    case Act(t, e) => s.up && L.CanStep(s.fs, e) && (Writes(e) ==> t in s.ops && InTurn(s.ops[t], e))
    case Crash => true
    case Reclaim(i) => !s.up && i in s.fs.nodes && s.fs.nodes[i].nlink == 0
    case Up => !s.up && forall i :: i in s.fs.nodes ==> s.fs.nodes[i].nlink > 0
  }

  /** The tree with nothing in memory yet. */
  function Cold(nodes: map<nat, L.Node>, depth: map<nat, nat>): L.Fs {
    L.Fs(nodes, map[], {}, {}, multiset{}, depth)
  }

  function AfterEnd(s: State, t: nat): State {
    if s.ops - {t} == map[] then State(s.fs, map[], s.fs.nodes, s.fs.depth, s.up)
    else s.(ops := s.ops - {t})
  }

  function AfterAct(s: State, t: nat, e: L.Step): State
    requires L.CanStep(s.fs, e)
  {
    var f := L.Do(s.fs, e);
    s.(fs := f, ops := if Writes(e) && t in s.ops then s.ops[t := Owing(s.ops[t], s.fs, f, e)] else s.ops)
  }

  ghost function Do(s: State, step: Step): State
    requires CanStep(s, step)
  {
    match step
    case Begin(t) => s.(ops := s.ops[t := Open(None, None)])
    case End(t) => AfterEnd(s, t)
    case Act(t, e) => AfterAct(s, t, e)
    case Crash => State(Cold(s.durable, s.depth), map[], s.durable, s.depth, false)
    case Reclaim(i) => s.(fs := Cold(s.fs.nodes - {i}, s.fs.depth), durable := s.fs.nodes - {i})
    case Up => s.(up := true)
  }

  ghost predicate Init(s: State) {
    && s.up && s.ops == map[] && s.durable == s.fs.nodes && s.depth == s.fs.depth
    && L.Inv(s.fs) && s.fs.pending == multiset{} && s.fs.freeing == {}
  }

  ghost predicate IsRun(run: seq<State>, steps: seq<Step>) {
    && |run| == |steps| + 1
    && Init(run[0])
    && forall i {:trigger steps[i]} :: 0 <= i < |steps| ==> CanStep(run[i], steps[i]) && run[i + 1] == Do(run[i], steps[i])
  }

  // ---------------------------------------------------------------- invariant

  /** The operations that have counted a link for i and not entered it. */
  ghost function Owers(ops: map<nat, Open>, i: nat): set<nat> {
    set t | t in ops && ops[t].link == Some(i)
  }

  /** Every pending link and every inode on its way to ifree is some open operation's, and no
      inode is two operations'. */
  ghost predicate Debts(f: L.Fs, ops: map<nat, Open>) {
    && (forall i: nat :: f.pending[i] == |Owers(ops, i)|)
    && (forall i: nat :: i in f.freeing <==> exists t :: t in ops && ops[t].freeing == Some(i))
    && (forall t, u :: t in ops && u in ops && t != u && ops[t].freeing.Some? ==> ops[t].freeing != ops[u].freeing)
  }

  ghost predicate Inv(s: State) {
    && L.Counts(s.durable, multiset{}) && L.Rooted(s.durable, s.depth)
    && (if s.up then L.Inv(s.fs) && Debts(s.fs, s.ops) else s.fs == Cold(s.durable, s.depth) && s.ops == map[])
    && (s.ops == map[] ==> s.fs.nodes == s.durable && s.fs.depth == s.depth)
  }

  lemma NoDebts(f: L.Fs)
    requires Debts(f, map[])
    ensures f.pending == multiset{} && f.freeing == {}
  {
    forall i: nat
      ensures f.pending[i] == 0
    {
      assert Owers(map[], i) == {};
    }
  }

  lemma InitInv(s: State)
    requires Init(s)
    ensures Inv(s)
  {
    hide L.Counts, L.Rooted, L.Lifetime;
    forall i: nat
      ensures |Owers(s.ops, i)| == 0
    {
      assert Owers(s.ops, i) == {};
    }
  }

  lemma OwersSet(ops: map<nat, Open>, t: nat, o: Open, i: nat)
    ensures Owers(ops[t := o], i) == if o.link == Some(i) then Owers(ops, i) + {t} else Owers(ops, i) - {t}
    ensures t in Owers(ops, i) <==> t in ops && ops[t].link == Some(i)
  {
  }

  lemma SameLink(f: L.Fs, f': L.Fs, ops: map<nat, Open>, t: nat, o: Open)
    requires Debts(f, ops) && f'.pending == f.pending && o.link == if t in ops then ops[t].link else None
    ensures forall i: nat :: f'.pending[i] == |Owers(ops[t := o], i)|
  {
    forall i: nat
      ensures Owers(ops[t := o], i) == Owers(ops, i)
    {
    }
  }

  lemma BeginDebts(f: L.Fs, ops: map<nat, Open>, t: nat)
    requires Debts(f, ops) && t !in ops
    ensures Debts(f, ops[t := Open(None, None)])
  {
    var ops' := ops[t := Open(None, None)];
    SameLink(f, f, ops, t, Open(None, None));
    forall i: nat
      ensures i in f.freeing <==> exists u :: u in ops' && ops'[u].freeing == Some(i)
    {
      if i in f.freeing {
        var u :| u in ops && ops[u].freeing == Some(i);
        assert u in ops' && ops'[u].freeing == Some(i);
      }
    }
  }

  lemma EndDebts(f: L.Fs, ops: map<nat, Open>, t: nat)
    requires Debts(f, ops) && t in ops && ops[t] == Open(None, None)
    ensures Debts(f, ops - {t})
  {
    var ops' := ops - {t};
    forall i: nat
      ensures Owers(ops', i) == Owers(ops, i)
    {
    }
    forall i: nat
      ensures i in f.freeing <==> exists u :: u in ops' && ops'[u].freeing == Some(i)
    {
      if i in f.freeing {
        var u :| u in ops && ops[u].freeing == Some(i);
        assert u in ops' && ops'[u].freeing == Some(i);
      }
    }
  }

  /** A link counted by t, or entered or undone by it. */
  lemma LinkDebts(f: L.Fs, f': L.Fs, ops: map<nat, Open>, t: nat, i: nat, o: Open)
    requires Debts(f, ops) && t in ops && f'.freeing == f.freeing && o.freeing == ops[t].freeing
    requires (ops[t].link == None && o.link == Some(i) && f'.pending == f.pending + multiset{i})
          || (ops[t].link == Some(i) && o.link == None && f'.pending == f.pending - multiset{i})
    ensures Debts(f', ops[t := o])
  {
    hide Owers;
    var ops' := ops[t := o];
    forall j: nat
      ensures f'.pending[j] == |Owers(ops', j)|
    {
      OwersSet(ops, t, o, j);
      assert f.pending[j] == |Owers(ops, j)|;
    }
    SameFreeing(f, f', ops, t, o);
  }

  lemma SameFreeing(f: L.Fs, f': L.Fs, ops: map<nat, Open>, t: nat, o: Open)
    requires Debts(f, ops) && t in ops && f'.freeing == f.freeing && o.freeing == ops[t].freeing
    ensures var ops' := ops[t := o];
            && (forall i: nat :: i in f'.freeing <==> exists u :: u in ops' && ops'[u].freeing == Some(i))
            && (forall u, v :: u in ops' && v in ops' && u != v && ops'[u].freeing.Some? ==> ops'[u].freeing != ops'[v].freeing)
  {
    hide Owers;
    var ops' := ops[t := o];
    forall i: nat
      ensures i in f'.freeing <==> exists u :: u in ops' && ops'[u].freeing == Some(i)
    {
      if i in f.freeing {
        var u :| u in ops && ops[u].freeing == Some(i);
        assert u in ops' && ops'[u].freeing == Some(i);
      }
    }
  }

  /** iput has truncated i, which nobody else is freeing. */
  lemma PutDebts(f: L.Fs, f': L.Fs, ops: map<nat, Open>, t: nat, i: nat)
    requires Debts(f, ops) && t in ops && ops[t].freeing == None && i !in f.freeing
    requires f'.pending == f.pending && f'.freeing == f.freeing + {i}
    ensures Debts(f', ops[t := ops[t].(freeing := Some(i))])
  {
    var ops' := ops[t := ops[t].(freeing := Some(i))];
    SameLink(f, f', ops, t, ops'[t]);
    hide Owers;
    forall j: nat
      ensures j in f'.freeing <==> exists u :: u in ops' && ops'[u].freeing == Some(j)
    {
      if j == i {
        assert t in ops' && ops'[t].freeing == Some(j);
      } else if j in f.freeing {
        var u :| u in ops && ops[u].freeing == Some(j);
        assert u in ops' && ops'[u].freeing == Some(j);
      }
    }
  }

  /** ifree of i by the operation that truncated it. */
  lemma FreeDebts(f: L.Fs, f': L.Fs, ops: map<nat, Open>, t: nat, i: nat)
    requires Debts(f, ops) && t in ops && ops[t].freeing == Some(i)
    requires f'.pending == f.pending && f'.freeing == f.freeing - {i}
    ensures Debts(f', ops[t := ops[t].(freeing := None)])
  {
    var ops' := ops[t := ops[t].(freeing := None)];
    SameLink(f, f', ops, t, ops'[t]);
    hide Owers;
    forall j: nat
      ensures j in f'.freeing <==> exists u :: u in ops' && ops'[u].freeing == Some(j)
    {
      if j in f.freeing && j != i {
        var u :| u in ops && ops[u].freeing == Some(j);
        assert u in ops' && ops'[u].freeing == Some(j);
      }
    }
  }

  // ---------------------------------------------------------------- the steps of Links

  /** What a step does to the pending links and the inodes being freed. */
  lemma Effects(f: L.Fs, e: L.Step)
    requires L.CanStep(f, e)
    ensures var f' := L.Do(f, e);
            && (!e.LinkBump? && !e.LinkEnter? && !e.LinkUndo? ==> f'.pending == f.pending)
            && (e.LinkBump? ==> f'.pending == f.pending || f'.pending == f.pending + multiset{e.i})
            && (e.LinkEnter? ==> f'.pending == f.pending || f'.pending == f.pending - multiset{e.i})
            && (e.LinkUndo? ==> f'.pending == f.pending - multiset{e.i})
            && (!e.Put? && !e.Free? ==> f'.freeing == f.freeing)
            && (e.Put? ==> f'.freeing == f.freeing || f'.freeing == f.freeing + {e.i})
            && (e.Free? ==> f'.freeing == f.freeing - {e.i})
  {
    hide L.Find, L.Enters, L.Enter, L.Unlinkable, L.Unlinked, L.Created, L.NewEnts;
  }

  lemma ReadsOnly(f: L.Fs, e: L.Step)
    requires L.CanStep(f, e) && !Writes(e)
    ensures L.Do(f, e).nodes == f.nodes && L.Do(f, e).depth == f.depth
  {
    hide L.Find;
  }

  lemma ActDebts(f: L.Fs, ops: map<nat, Open>, t: nat, e: L.Step)
    requires L.CanStep(f, e) && L.Lifetime(f) && Debts(f, ops) && Writes(e) && t in ops && InTurn(ops[t], e)
    ensures Debts(L.Do(f, e), ops[t := Owing(ops[t], f, L.Do(f, e), e)])
  {
    Effects(f, e);
    var f' := L.Do(f, e);
    assert e.Put? ==> e.i !in f.freeing;
    hide L.Do, L.CanStep, L.Lifetime;
    DebtsFollow(f, f', ops, t, e);
  }

  lemma DebtsFollow(f: L.Fs, f': L.Fs, ops: map<nat, Open>, t: nat, e: L.Step)
    requires Debts(f, ops) && Writes(e) && t in ops && InTurn(ops[t], e)
    requires e.Put? ==> e.i !in f.freeing
    requires !e.LinkBump? && !e.LinkEnter? && !e.LinkUndo? ==> f'.pending == f.pending
    requires e.LinkBump? ==> f'.pending == f.pending || f'.pending == f.pending + multiset{e.i}
    requires e.LinkEnter? ==> f'.pending == f.pending || f'.pending == f.pending - multiset{e.i}
    requires e.LinkUndo? ==> f'.pending == f.pending - multiset{e.i}
    requires !e.Put? && !e.Free? ==> f'.freeing == f.freeing
    requires e.Put? ==> f'.freeing == f.freeing || f'.freeing == f.freeing + {e.i}
    requires e.Free? ==> f'.freeing == f.freeing - {e.i}
    ensures Debts(f', ops[t := Owing(ops[t], f, f', e)])
  {
    var o := Owing(ops[t], f, f', e);
    if e.LinkUndo? || ((e.LinkBump? || e.LinkEnter?) && f'.pending != f.pending) {
      LinkDebts(f, f', ops, t, e.i, o);
    } else if e.Put? && f'.freeing != f.freeing {
      PutDebts(f, f', ops, t, e.i);
    } else if e.Free? {
      FreeDebts(f, f', ops, t, e.i);
    } else {
      assert ops[t := o] == ops;
      assert Debts(f', ops);
    }
  }

  // ---------------------------------------------------------------- runs

  lemma ActKept(s: State, t: nat, e: L.Step)
    requires Inv(s) && CanStep(s, Act(t, e))
    ensures Inv(AfterAct(s, t, e))
  {
    hide L.Counts, L.Rooted, Debts, Owing, L.Do, L.CanStep, L.Lifetime;
    L.InvKept(s.fs, e);
    Effects(s.fs, e);
    var s' := AfterAct(s, t, e);
    if Writes(e) {
      ActDebts(s.fs, s.ops, t, e);
      assert t in s'.ops;
    } else {
      ReadsOnly(s.fs, e);
      DebtsSame(s.fs, s'.fs, s.ops);
    }
  }

  lemma DebtsSame(f: L.Fs, f': L.Fs, ops: map<nat, Open>)
    requires Debts(f, ops) && f'.pending == f.pending && f'.freeing == f.freeing
    ensures Debts(f', ops)
  {
    hide Owers;
  }

  lemma EndKept(s: State, t: nat)
    requires Inv(s) && CanStep(s, End(t))
    ensures Inv(AfterEnd(s, t))
  {
    hide L.Counts, L.Rooted, L.Lifetime, Debts;
    EndDebts(s.fs, s.ops, t);
    if s.ops - {t} == map[] {
      NoDebts(s.fs);
    }
  }

  lemma InvKept(s: State, step: Step)
    requires Inv(s) && CanStep(s, step)
    ensures Inv(Do(s, step))
  {
    hide L.Counts, L.Rooted, L.Lifetime, Debts, AfterAct, AfterEnd, L.CanStep;
    match step
    case Begin(t) => BeginDebts(s.fs, s.ops, t);
    case End(t) => EndKept(s, t);
    case Act(t, e) => ActKept(s, t, e);
    case Crash =>
    case Reclaim(i) => Sysfile.ReclaimOne(s.fs.nodes, s.fs.depth, i);
    case Up =>
      Sysfile.AllLinked(s.fs.nodes, s.fs.depth);
      ColdDebts(s.fs);
  }

  lemma ColdDebts(f: L.Fs)
    requires f.pending == multiset{} && f.freeing == {}
    ensures Debts(f, map[])
  {
    forall i: nat
      ensures Owers(map[], i) == {}
    {
    }
  }

  lemma {:induction false} RunInv(run: seq<State>, steps: seq<Step>, k: nat)
    requires IsRun(run, steps) && k < |run|
    ensures Inv(run[k])
  {
    hide Inv, Do, CanStep, Init;
    if k == 0 {
      InitInv(run[0]);
    } else {
      RunInv(run, steps, k - 1);
      InvKept(run[k - 1], steps[k - 1]);
    }
  }

  /** With no operation open nothing is left undone: no link is counted without a name, and no
      truncated inode waits for ifree. */
  lemma NothingOwed(run: seq<State>, steps: seq<Step>, k: nat)
    requires IsRun(run, steps) && k < |run| && run[k].ops == map[]
    ensures run[k].fs.pending == multiset{} && run[k].fs.freeing == {}
  {
    hide IsRun, L.Counts, L.Rooted, L.Inv, Debts;
    RunInv(run, steps, k);
    if run[k].up {
      NoDebts(run[k].fs);
    }
  }

  /** So what the disk holds is a whole tree at every moment of every run, in the middle of
      operations, of recoveries and of recoveries from those: its counts are exact with no link
      pending, and its directories lead to the root. */
  lemma DurableTree(run: seq<State>, steps: seq<Step>, k: nat)
    requires IsRun(run, steps) && k < |run|
    ensures L.Counts(run[k].durable, multiset{}) && L.Rooted(run[k].durable, run[k].depth)
  {
    hide IsRun, L.Counts, L.Rooted, L.Inv, Debts;
    RunInv(run, steps, k);
  }

  lemma DurableStep(s: State, step: Step)
    requires Inv(s) && CanStep(s, step)
    ensures var s' := Do(s, step); s'.durable == s.durable || (s'.ops == map[] && s'.fs.nodes == s'.durable)
  {
    hide L.Counts, L.Rooted, L.Inv, Debts, AfterAct, L.CanStep;
    if step.Act? {
      ActDurable(s, step.t, step.e);
    }
  }

  lemma ActDurable(s: State, t: nat, e: L.Step)
    requires L.CanStep(s.fs, e)
    ensures AfterAct(s, t, e).durable == s.durable
  {
    hide L.Do, L.CanStep;
  }

  /** No operation is ever half on the disk: the durable tree is the tree of an earlier moment
      at which none was open. */
  lemma {:induction false} DurableIsPast(run: seq<State>, steps: seq<Step>, k: nat) returns (j: nat)
    requires IsRun(run, steps) && k < |run|
    ensures j <= k && run[j].ops == map[] && run[k].durable == run[j].fs.nodes
  {
    hide Inv, Do, CanStep, L.Inv;
    if k == 0 || (run[k].ops == map[] && run[k].fs.nodes == run[k].durable) {
      return k;
    }
    RunInv(run, steps, k - 1);
    DurableStep(run[k - 1], steps[k - 1]);
    j := DurableIsPast(run, steps, k - 1);
  }

  /** A restart after a crash at any point: ireclaim finds the durable tree, keeps every inode
      that has a link as it was at the last commit, and leaves a state in which the machine of
      Links can run again. */
  method Restart(nodes0: map<nat, L.Node>, ninodes: nat, ghost run: seq<State>, ghost steps: seq<Step>)
    returns (nodes: map<nat, L.Node>)
    requires IsRun(run, steps) && nodes0 == run[|run| - 1].durable
    requires forall i :: i in nodes0 ==> 0 < i < ninodes
    ensures L.Inv(Cold(nodes, run[|run| - 1].depth))
    ensures forall i :: i in nodes <==> i in nodes0 && nodes0[i].nlink > 0
    ensures forall i :: i in nodes ==> nodes[i] == nodes0[i]
  {
    hide L.Counts, L.Rooted, L.Inv, Init, Do, CanStep;
    DurableTree(run, steps, |run| - 1);
    nodes := Sysfile.Ireclaim(nodes0, run[|run| - 1].depth, ninodes);
  }
}
