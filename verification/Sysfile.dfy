/** sys_link, sys_unlink, create, iput and ireclaim as code: the loops over directory
    slots and the paths their gotos take.  Every locked section is recorded as a step
    of Links, so Valid says that what the code did is a run of that machine. */
module Sysfile {
  import opened Basics
  import opened Links

  /** The loop of dirlookup. */
  method Dirlookup(ents: seq<Dirent>, name: string) returns (p: int)
    ensures p == Find(ents, name)
  {
    p := 0;
    while p < |ents|
      invariant 0 <= p <= |ents| && Find(ents, name) == Find(ents, name, p)
    {
      if ents[p].inum != 0 && ents[p].name == name {
        return;
      }
      p := p + 1;
    }
    p := -1;
  }

  /** dirlink: refuse a known name, else take the first free slot or the end; a slot at
      the end may need a block that is not there. */
  method Dirlink(ents: seq<Dirent>, name: string, inum: nat, space: bool) returns (ok: bool, r: seq<Dirent>)
    ensures ok == Enters(ents, name, space)
    ensures r == if ok then Enter(ents, name, inum) else ents
  {
    var found := Dirlookup(ents, name);
    if found >= 0 {
      return false, ents;
    }
    var off := 0;
    while off < |ents| && ents[off].inum != 0
      invariant off <= |ents| && FreeSlot(ents) == FreeSlot(ents, off)
    {
      off := off + 1;
    }
    if off < |ents| {
      return true, ents[off := Dirent(inum, name)];
    }
    if !space {
      return false, ents;
    }
    return true, ents + [Dirent(inum, name)];
  }

  method Isdirempty(ents: seq<Dirent>) returns (r: bool)
    ensures r == EmptyDir(ents)
  {
    var off := 2;
    while off < |ents|
      invariant 2 <= off && forall p :: 2 <= p < off && p < |ents| ==> ents[p].inum == 0
    {
      if ents[off].inum != 0 {
        return false;
      }
      off := off + 1;
    }
    return true;
  }

  predicate Linkable(nodes: map<nat, Node>, i: nat, d: nat, name: string, space: bool) {
    && i in nodes && !nodes[i].kind.Dir? && nodes[i].nlink < NLINK_MAX
    && Live(nodes, d) && Enters(nodes[d].ents, name, space)
  }

  /** A successful link: one more count, one more name. */
  function Linked(nodes: map<nat, Node>, i: nat, d: nat, name: string): map<nat, Node>
    requires i in nodes && d in nodes
  {
    nodes[i := nodes[i].(nlink := nodes[i].nlink + 1)]
         [d := nodes[d].(ents := Enter(nodes[d].ents, name, i))]
  }

  /** The nodes once one of the ref references to i is dropped: without a link, i goes with the last. */
  function Released(nodes: map<nat, Node>, i: nat, ref: nat): map<nat, Node> {
    if i in nodes && nodes[i].nlink == 0 && ref == 1 then nodes - {i} else nodes
  }

  /** create's result r and its effect, case by case. */
  predicate CreateOutcome(nodes: map<nat, Node>, d: nat, name: string, kind: Kind, inum: nat,
                          dot: bool, dotdot: bool, space: bool, r: nat, nodes': map<nat, Node>)
    requires d in nodes
  {
    var e := nodes[d].ents;
    if nodes[d].nlink == 0 || (kind.Dir? && nodes[d].nlink >= NLINK_MAX) then r == 0
    else if Find(e, name) >= 0 then
      var i := e[Find(e, name)].inum;
      i in nodes && nodes' == nodes && r == if kind.File? && !nodes[i].kind.Dir? then i else 0
    else if inum == 0 || !Enters(e, name, space) || (kind.Dir? && !(dot && dotdot)) then r == 0 && nodes' == nodes
    else r == inum && nodes' == Created(nodes, d, name, inum, Node(kind, 1, NewEnts(kind, d, inum, dot, dotdot)))
  }

  /** The "." and ".." of a new directory, through dirlink. */
  method NewEntries(kind: Kind, d: nat, inum: nat, dot: bool, dotdot: bool) returns (ok: bool, e: seq<Dirent>)
    requires inum > 0
    ensures ok <==> (kind.Dir? ==> dot && dotdot)
    ensures e == NewEnts(kind, d, inum, dot, dotdot)
  {
    if !kind.Dir? {
      return true, [];
    }
    ok, e := Dirlink([], ".", inum, dot);
    if ok {
      assert e == [Dirent(inum, ".")];
      ok, e := Dirlink(e, "..", d, dotdot);
      assert ok ==> e == [Dirent(inum, "."), Dirent(d, "..")];
    }
  }

  lemma CreateIs(s: Fs, d: nat, name: string, kind: Kind, inum: nat, dot: bool, dotdot: bool, space: bool)
    requires HeldDir(s, d) && inum > 0 && inum !in s.nodes
    ensures CanStep(s, Step.Create(d, name, kind, inum, dot, dotdot, space))
    ensures Do(s, Step.Create(d, name, kind, inum, dot, dotdot, space)) == AfterCreate(s, d, name, kind, inum, dot, dotdot, space)
  {
  }

  /** ireclaim after a crash: references, valid flags and pending links are gone, so
      unlinked inodes have no one left to free them.  Each is read in, put and freed;
      afterwards the whole invariant holds and no linked inode has changed. */
  method Ireclaim(nodes0: map<nat, Node>, ghost depth: map<nat, nat>, ninodes: nat) returns (nodes: map<nat, Node>)
    requires forall i :: i in nodes0 ==> 0 < i < ninodes
    requires Counts(nodes0, multiset{}) && Rooted(nodes0, depth)
    ensures Inv(Fs(nodes, map[], {}, {}, multiset{}, depth))
    ensures nodes == LinkedBelow(nodes0, ninodes)
  {
    hide Counts, Rooted, Inv;
    nodes := nodes0;
    assert nodes == LinkedBelow(nodes0, 1);
    var inum := 1;
    while inum < ninodes
      invariant inum >= 1 && (inum <= ninodes || inum == 1)
      invariant Counts(nodes, multiset{}) && Rooted(nodes, depth) && nodes == LinkedBelow(nodes0, inum)
    {
      if inum in nodes && nodes[inum].nlink == 0 {
        ReclaimOne(nodes, depth, inum);
        nodes := nodes - {inum};
      }
      assert nodes == LinkedBelow(nodes0, inum + 1);
      inum := inum + 1;
    }
    AllLinked(nodes, depth);
  }

  /** The nodes without the unlinked ones numbered below n. */
  function LinkedBelow(nodes: map<nat, Node>, n: nat): map<nat, Node> {
    map i | i in nodes && (i >= n || nodes[i].nlink > 0) :: nodes[i]
  }

  lemma ReclaimOne(nodes: map<nat, Node>, depth: map<nat, nat>, i: nat)
    requires i in nodes && nodes[i].nlink == 0 && Counts(nodes, multiset{}) && Rooted(nodes, depth)
    ensures Counts(nodes - {i}, multiset{}) && Rooted(nodes - {i}, depth)
  {
    hide Counts, Rooted, Named;
    DeadFacts(nodes, multiset{}, i);
    GoneCounts(nodes, multiset{}, nodes - {i}, i);
    GoneRooted(nodes, nodes - {i}, depth, i);
  }

  lemma AllLinked(nodes: map<nat, Node>, depth: map<nat, nat>)
    requires Counts(nodes, multiset{}) && Rooted(nodes, depth) && forall i :: i in nodes ==> nodes[i].nlink > 0
    ensures Inv(Fs(nodes, map[], {}, {}, multiset{}, depth))
  {
    hide Counts, Rooted;
  }

  lemma EnterIs(s: Fs, d: nat, name: string, i: nat, space: bool)
    requires HeldDir(s, d) && i in s.pending && i in s.nodes
    ensures CanStep(s, LinkEnter(d, name, i, space))
    ensures Do(s, LinkEnter(d, name, i, space)) == AfterLinkEnter(s, d, name, i, space)
  {
  }

  lemma UnlinkIs(s: Fs, d: nat, name: string)
    requires HeldDir(s, d)
    ensures CanStep(s, Step.Unlink(d, name)) && Do(s, Step.Unlink(d, name)) == AfterUnlink(s, d, name)
  {
  }

  lemma FreeIs(s: Fs, i: nat)
    requires i in s.freeing
    ensures CanStep(s, Free(i)) && Do(s, Free(i)) == s.(nodes := s.nodes - {i}, freeing := s.freeing - {i})
  {
  }

  lemma PutIs(s: Fs, i: nat)
    requires Ref(s, i) > 0 && i in s.nodes
    ensures CanStep(s, Put(i)) && Do(s, Put(i)) == AfterPut(s, i)
  {
  }

  /** One reference to i is gone and no other. */
  ghost predicate DropsOne(s: Fs, s': Fs, i: nat) {
    forall j :: Ref(s', j) == Ref(s, j) - if j == i then 1 else 0
  }

  /** A successful unlink of the entry at p: the slot is cleared, the counts go down, and the
      inode goes if that was its last link and nobody holds it; no other node changes. */
  ghost predicate Removes(s: Fs, d: nat, p: nat, nodes: map<nat, Node>)
    requires d in s.nodes && p < |s.nodes[d].ents|
  {
    var i := s.nodes[d].ents[p].inum;
    && Live(s.nodes, d) && Live(s.nodes, i) && i != d
    && nodes == Released(Unlinked(s.nodes, d, p), i, Ref(s, i) + 1)
  }

  class Tree {
    var nodes: map<nat, Node>
    var refs: map<nat, nat>
    var valid: set<nat>
    var freeing: set<nat>
    ghost var pending: multiset<nat>
    ghost var depth: map<nat, nat>
    ghost var run: seq<Fs>
    ghost var steps: seq<Step>

    ghost function St(): Fs
      reads this
    {
      Fs(nodes, refs, valid, freeing, pending, depth)
    }

    ghost predicate Valid()
      reads this
    {
      IsRun(run, steps) && run[|run| - 1] == St()
    }

    ghost method Record(step: Step)
      requires IsRun(run, steps) && CanStep(run[|run| - 1], step) && St() == Do(run[|run| - 1], step)
      modifies this`run, this`steps
      ensures Valid() && steps == old(steps) + [step]
    {
      hide Inv, CanStep, Do;
      run := run + [St()];
      steps := steps + [step];
    }

    lemma Invariant()
      requires Valid()
      ensures Inv(St())
    {
      hide Inv;
      RunInv(run, steps, |run| - 1);
    }

    /** iput, its ifree included. */
    method Iput(i: nat)
      requires i in nodes && Ref(St(), i) > 0 && Valid()
      modifies this
      ensures Valid() && pending == old(pending) && depth == old(depth)
      ensures old(Ref(St(), i)) == 1 && i in old(valid) && old(nodes)[i].nlink == 0 ==>
                nodes == old(nodes) - {i} && Ref(St(), i) == 0 && freeing == old(freeing) - {i}
      ensures !(old(Ref(St(), i)) == 1 && i in old(valid) && old(nodes)[i].nlink == 0) ==>
                nodes == old(nodes) && Ref(St(), i) == old(Ref(St(), i)) - 1 && freeing == old(freeing)
      ensures DropsOne(old(St()), St(), i) && forall j :: j != i ==> (j in valid <==> j in old(valid))
      ensures Ref(St(), i) > 0 ==> valid == old(valid)
    {
      hide IsRun, Inv, CanStep, Do;
      PutIs(St(), i);
      var last := refs[i] == 1 && i in valid && nodes[i].nlink == 0;
      if last {
        nodes := nodes[i := nodes[i].(ents := [])];
        valid := valid - {i};
        freeing := freeing + {i};
        refs := refs[i := 0];
        Record(Put(i));
        FreeIs(St(), i);
        nodes := nodes - {i};
        freeing := freeing - {i};
        Record(Free(i));
      } else {
        valid := if refs[i] == 1 then valid - {i} else valid;
        refs := refs[i := refs[i] - 1];
        Record(Put(i));
      }
    }

    /** What a name in a held directory can lead to. */
    lemma Finds(d: nat, name: string)
      requires HeldDir(St(), d) && Valid()
      ensures !IsDots(name) && Find(nodes[d].ents, name) >= 0 ==>
                var i := nodes[d].ents[Find(nodes[d].ents, name)].inum;
                Find(nodes[d].ents, name) >= 2 && LiveDir(nodes, d) && Live(nodes, i) && i != d
                && (nodes[i].kind.Dir? ==> nodes[d].nlink >= 2)
    {
      hide IsRun, Counts, Rooted, Lifetime;
      Invariant();
      if !IsDots(name) && Find(nodes[d].ents, name) >= 0 {
        UnlinkFinds(nodes, pending, d, name);
        ParentOfDir(nodes, pending, d, Find(nodes[d].ents, name));
      }
    }

    /** sys_unlink from the locked directory on; the caller's reference to the
        directory is used up.  Its panics are unreachable. */
    method Unlink(d: nat, name: string) returns (ok: bool)
      requires HeldDir(St(), d) && Valid()
      modifies this
      ensures Valid() && pending == old(pending) && DropsOne(old(St()), St(), d)
      ensures ok <==> (!IsDots(name) && Find(old(nodes)[d].ents, name) >= 0
                       && Unlinkable(old(St()), old(nodes)[d].ents[Find(old(nodes)[d].ents, name)].inum))
      ensures !ok ==> nodes == Released(old(nodes), d, old(Ref(St(), d)))
      ensures ok ==> Removes(old(St()), d, Find(old(nodes)[d].ents, name), nodes)
    {
      hide IsRun, Find, EmptyDir, CanStep, Do;
      Finds(d, name);
      UnlinkIs(St(), d, name);
      ghost var v := valid;
      valid := valid + {d};
      if IsDots(name) {
        Record(Step.Unlink(d, name));
        Iput(d);
        return false;
      }
      var p := Dirlookup(nodes[d].ents, name);
      if p < 0 {
        Record(Step.Unlink(d, name));
        Iput(d);
        return false;
      }
      ok := UnlinkFound(d, name, p, v);
    }

    /** sys_unlink once the entry is found. */
    method UnlinkFound(d: nat, name: string, p: nat, ghost v: set<nat>) returns (ok: bool)
      requires d in nodes && nodes[d].kind.Dir? && Ref(St(), d) > 0 && d in valid
      requires !IsDots(name) && p < |nodes[d].ents| && p == Find(nodes[d].ents, name)
      requires var i := nodes[d].ents[p].inum;
               LiveDir(nodes, d) && Live(nodes, i) && i != d && p >= 2 && (nodes[i].kind.Dir? ==> nodes[d].nlink >= 2)
      requires IsRun(run, steps) && run[|run| - 1] == St().(valid := v) && valid == v + {d}
      modifies this
      ensures Valid() && pending == old(pending) && DropsOne(old(St()), St(), d)
      ensures ok <==> Unlinkable(old(St()), old(nodes)[d].ents[p].inum)
      ensures !ok ==> nodes == old(nodes)
      ensures ok ==> Removes(old(St()), d, p, nodes)
    {
      hide IsRun, Find, EmptyDir;
      var i := nodes[d].ents[p].inum;
      ok := Strike(d, name, p, v);
      if ok {
        PutTwo(d, i);
      } else {
        PutTwo(i, d);
      }
    }

    /** The locked part: the lookup's reference to the inode, the check, the cleared slot and
        the counts. */
    method Strike(d: nat, name: string, p: nat, ghost v: set<nat>) returns (ok: bool)
      requires d in nodes && nodes[d].kind.Dir? && Ref(St(), d) > 0 && d in valid
      requires !IsDots(name) && p < |nodes[d].ents| && p == Find(nodes[d].ents, name)
      requires var i := nodes[d].ents[p].inum;
               LiveDir(nodes, d) && Live(nodes, i) && i != d && p >= 2 && (nodes[i].kind.Dir? ==> nodes[d].nlink >= 2)
      requires IsRun(run, steps) && run[|run| - 1] == St().(valid := v) && valid == v + {d}
      modifies this
      ensures Valid() && pending == old(pending)
      ensures var i := old(nodes)[d].ents[p].inum;
              && (ok <==> Unlinkable(old(St()), i)) && i in valid && d in valid
              && (forall j :: Ref(St(), j) == old(Ref(St(), j)) + if j == i then 1 else 0)
              && nodes == if ok then Unlinked(old(nodes), d, p) else old(nodes)
    {
      hide IsRun, Find, EmptyDir, CanStep, Do;
      var i := nodes[d].ents[p].inum;
      UnlinkIs(St().(valid := v), d, name);
      refs := refs[i := 1 + if i in refs then refs[i] else 0];
      valid := valid + {i};
      var isDir := nodes[i].kind.Dir?;
      ok := true;
      if isDir {
        ok := Isdirempty(nodes[i].ents);
      }
      if ok {
        nodes := nodes[d := nodes[d].(ents := nodes[d].ents[p := Dirent(0, "")], nlink := nodes[d].nlink - if isDir then 1 else 0)]
                      [i := nodes[i].(nlink := nodes[i].nlink - 1)];
      }
      Record(Step.Unlink(d, name));
    }

    /** Two references dropped, the first to an inode that still has a link. */
    method PutTwo(a: nat, b: nat)
      requires Valid() && a != b && a in nodes && b in nodes && b in valid && Ref(St(), a) > 0 && Ref(St(), b) > 0 && nodes[a].nlink > 0
      modifies this
      ensures Valid() && pending == old(pending) && nodes == Released(old(nodes), b, old(Ref(St(), b)))
      ensures forall j :: Ref(St(), j) == old(Ref(St(), j)) - if j == a || j == b then 1 else 0
    {
      hide IsRun;
      Iput(a);
      Iput(b);
    }

    /** sys_link on a file that namei has delivered, whose reference is used up.  `dir` is the
        directory nameiparent will find, if any. */
    method Link(i: nat, dir: Option<nat>, name: string, space: bool) returns (ok: bool)
      requires i in nodes && Ref(St(), i) > 0 && (dir.Some? ==> HeldDir(St(), dir.value)) && Valid()
      modifies this
      ensures Valid() && pending == old(pending) && DropsOne(old(St()), St(), i)
      ensures ok <==> dir.Some? && Linkable(old(nodes), i, dir.value, name, space)
      ensures ok ==> nodes == Linked(old(nodes), i, dir.value, name)
      ensures !ok ==> nodes == Released(old(nodes), i, old(Ref(St(), i)))
    {
      hide IsRun, Find, Enter, Enters;
      ok := BumpLink(i);
      if ok {
        ok := FinishLink(i, dir, name, space);
        assert old(nodes)[i := old(nodes)[i]] == old(nodes);
      } else {
        Iput(i);
      }
    }

    /** sys_link after the count is raised. */
    method FinishLink(i: nat, dir: Option<nat>, name: string, space: bool) returns (ok: bool)
      requires i in pending && Live(nodes, i) && !nodes[i].kind.Dir? && Ref(St(), i) > 0 && i in valid
      requires (dir.Some? ==> HeldDir(St(), dir.value)) && Valid()
      modifies this
      ensures Valid() && pending == old(pending) - multiset{i} && DropsOne(old(St()), St(), i)
      ensures ok <==> dir.Some? && Live(old(nodes), dir.value) && Enters(old(nodes)[dir.value].ents, name, space)
      ensures ok ==> var d := dir.value; nodes == old(nodes)[d := old(nodes)[d].(ents := Enter(old(nodes)[d].ents, name, i))]
      ensures !ok ==> nodes == Released(old(nodes)[i := old(nodes)[i].(nlink := old(nodes)[i].nlink - 1)], i, old(Ref(St(), i)))
    {
      hide IsRun, Find, Enter, Enters;
      ok := false;
      if dir.Some? {
        ok := TryEnter(i, dir.value, name, space);
      }
      if !ok {
        UndoLink(i);
      }
      Iput(i);
    }

    /** sys_link's part with the directory: nameiparent's reference, the entry, and the
        reference given back. */
    method TryEnter(i: nat, d: nat, name: string, space: bool) returns (ok: bool)
      requires i in pending && Live(nodes, i) && i != d && Ref(St(), i) > 0 && HeldDir(St(), d) && Valid()
      modifies this
      ensures Valid() && forall j :: Ref(St(), j) == old(Ref(St(), j))
      ensures ok <==> Live(old(nodes), d) && Enters(old(nodes)[d].ents, name, space)
      ensures pending == if ok then old(pending) - multiset{i} else old(pending)
      ensures nodes == if ok then old(nodes)[d := old(nodes)[d].(ents := Enter(old(nodes)[d].ents, name, i))] else old(nodes)
      ensures i in old(valid) ==> i in valid
    {
      hide IsRun, Find, Enter, Enters;
      refs := refs[d := refs[d] + 1];
      Record(Dup(d));
      ok := EnterLink(i, d, name, space);
      Iput(d);
    }

    /** The first locked section of sys_link. */
    method BumpLink(i: nat) returns (ok: bool)
      requires i in nodes && Ref(St(), i) > 0 && Valid()
      modifies this`nodes, this`valid, this`pending, this`run, this`steps
      ensures Valid() && St() == AfterLinkBump(old(St()), i)
      ensures ok <==> !old(nodes)[i].kind.Dir? && old(nodes)[i].nlink < NLINK_MAX
    {
      hide IsRun;
      valid := valid + {i};
      ok := !nodes[i].kind.Dir? && nodes[i].nlink < NLINK_MAX;
      if ok {
        nodes := nodes[i := nodes[i].(nlink := nodes[i].nlink + 1)];
        pending := pending + multiset{i};
      }
      Record(LinkBump(i));
    }

    /** sys_link with the directory locked. */
    method EnterLink(i: nat, d: nat, name: string, space: bool) returns (ok: bool)
      requires HeldDir(St(), d) && i in pending && i in nodes && Valid()
      modifies this`nodes, this`valid, this`pending, this`run, this`steps
      ensures Valid() && St() == AfterLinkEnter(old(St()), d, name, i, space)
      ensures ok <==> old(nodes)[d].nlink > 0 && Enters(old(nodes)[d].ents, name, space)
    {
      hide IsRun, Find, Enter, Enters, CanStep, Do;
      EnterIs(St(), d, name, i, space);
      valid := valid + {d};
      ok := false;
      if nodes[d].nlink > 0 {
        var e: seq<Dirent>;
        ok, e := Dirlink(nodes[d].ents, name, i, space);
        if ok {
          nodes := nodes[d := nodes[d].(ents := e)];
          pending := pending - multiset{i};
        }
      }
      Record(LinkEnter(d, name, i, space));
    }

    /** The bad: path of sys_link. */
    method UndoLink(i: nat)
      requires i in nodes && Ref(St(), i) > 0 && i in pending && nodes[i].nlink > 0 && Valid()
      modifies this`nodes, this`valid, this`pending, this`run, this`steps
      ensures Valid() && St() == AfterLinkUndo(old(St()), i)
    {
      hide IsRun;
      valid := valid + {i};
      nodes := nodes[i := nodes[i].(nlink := nodes[i].nlink - 1)];
      pending := pending - multiset{i};
      Record(LinkUndo(i));
    }

    /** create() in a directory nameiparent has delivered; `inum` is the free inode
        ialloc finds, 0 if there is none.  Returns the inode, referenced, or 0. */
    method Create(d: nat, name: string, kind: Kind, inum: nat, dot: bool, dotdot: bool, space: bool) returns (r: nat)
      requires HeldDir(St(), d) && inum !in nodes && Valid()
      modifies this
      ensures Valid() && pending == old(pending)
      ensures CreateOutcome(old(nodes), d, name, kind, inum, dot, dotdot, space, r, nodes)
    {
      hide IsRun, Find, Enter, Enters;
      if nodes[d].nlink == 0 || (kind.Dir? && nodes[d].nlink >= NLINK_MAX) {
        LockOnly(d);
        Iput(d);
        return 0;
      }
      var p := Dirlookup(nodes[d].ents, name);
      if p >= 0 {
        r := CreateFound(d, name, kind, p);
      } else if inum == 0 {
        LockOnly(d);
        Iput(d);
        return 0;
      } else {
        r := CreateNew(d, name, kind, inum, dot, dotdot, space);
      }
    }

    /** ilock, which reads the inode in. */
    method LockOnly(i: nat)
      requires Ref(St(), i) > 0 && Valid()
      modifies this`valid, this`run, this`steps
      ensures Valid() && valid == old(valid) + {i}
    {
      hide IsRun;
      valid := valid + {i};
      Record(Ilock(i));
    }

    /** create() when the name exists. */
    method CreateFound(d: nat, name: string, kind: Kind, p: nat) returns (r: nat)
      requires HeldDir(St(), d) && Live(nodes, d) && p < |nodes[d].ents| && p == Find(nodes[d].ents, name) && Valid()
      modifies this
      ensures Valid() && pending == old(pending) && nodes == old(nodes)
      ensures var i := nodes[d].ents[p].inum;
              i in nodes && r == if kind.File? && !nodes[i].kind.Dir? then i else 0
    {
      hide IsRun, Find;
      FoundHere(d, name);
      var i := nodes[d].ents[p].inum;
      valid := valid + {d};
      refs := refs[i := 1 + if i in refs then refs[i] else 0];
      Record(Lookup(d, name));
      Iput(d);
      LockOnly(i);
      if kind.File? && !nodes[i].kind.Dir? {
        return i;
      }
      Iput(i);
      return 0;
    }

    lemma FoundHere(d: nat, name: string)
      requires LiveDir(nodes, d) && Valid()
      ensures Find(nodes[d].ents, name) >= 0 ==> Live(nodes, nodes[d].ents[Find(nodes[d].ents, name)].inum)
    {
      hide IsRun, Counts, Rooted, Lifetime;
      Invariant();
      FoundLive(nodes, pending, d, name);
    }

    /** create() when the name is new and ialloc found a free inode. */
    method CreateNew(d: nat, name: string, kind: Kind, inum: nat, dot: bool, dotdot: bool, space: bool) returns (r: nat)
      requires HeldDir(St(), d) && inum > 0 && inum !in nodes && Live(nodes, d) && Find(nodes[d].ents, name) < 0
      requires (kind.Dir? ==> nodes[d].nlink < NLINK_MAX) && Valid()
      modifies this
      ensures Valid() && pending == old(pending)
      ensures if !Enters(old(nodes)[d].ents, name, space) || (kind.Dir? && !(dot && dotdot))
              then r == 0 && nodes == old(nodes)
              else r == inum && nodes == Created(old(nodes), d, name, inum, Node(kind, 1, NewEnts(kind, d, inum, dot, dotdot)))
    {
      hide IsRun, Find, Enter, Enters;
      var ok := CreateStep(d, name, kind, inum, dot, dotdot, space);
      if ok {
        Iput(d);
        return inum;
      }
      assert nodes - {inum} == old(nodes);
      Iput(inum);
      Iput(d);
      return 0;
    }

    method CreateStep(d: nat, name: string, kind: Kind, inum: nat, dot: bool, dotdot: bool, space: bool) returns (ok: bool)
      requires HeldDir(St(), d) && inum > 0 && inum !in nodes && Live(nodes, d) && Find(nodes[d].ents, name) < 0
      requires (kind.Dir? ==> nodes[d].nlink < NLINK_MAX) && Valid()
      modifies this
      ensures Valid() && St() == AfterCreate(old(St()), d, name, kind, inum, dot, dotdot, space)
      ensures ok <==> Enters(old(nodes)[d].ents, name, space) && (kind.Dir? ==> dot && dotdot)
      ensures Ref(St(), inum) == 1 && inum in valid
    {
      hide IsRun, Find, Enter, Enters, CanStep, Do, NewEnts, Deeper;
      NewRef(inum);
      ghost var s := St();
      CreateIs(s, d, name, kind, inum, dot, dotdot, space);
      var e: seq<Dirent>;
      ok, e := NewEntries(kind, d, inum, dot, dotdot);
      var e' := nodes[d].ents;
      if ok {
        ok, e' := Dirlink(nodes[d].ents, name, inum, space);
      }
      valid := valid + {d} + {inum};
      refs := refs[inum := 1];
      if ok {
        nodes := nodes[inum := Node(kind, 1, e)]
                      [d := nodes[d].(ents := e', nlink := nodes[d].nlink + if kind.Dir? then 1 else 0)];
        depth := Deeper(depth, d, inum);
      } else {
        nodes := nodes[inum := Node(kind, 0, e)];
      }
      assert St() == AfterCreate(s, d, name, kind, inum, dot, dotdot, space);
      Record(Step.Create(d, name, kind, inum, dot, dotdot, space));
    }

    lemma NewRef(i: nat)
      requires i !in nodes && Valid()
      ensures Ref(St(), i) == 0
    {
      hide IsRun, Counts, Rooted;
      Invariant();
    }
  }
}
