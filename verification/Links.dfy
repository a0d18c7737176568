/** Directories, link counts and the lifetime of inodes (kernel/fs.c,
    kernel/sysfile.c) as a state machine.

    One step is one section run under the inode locks it needs, or one section
    under itable.lock.  sys_link raises the count of its file in one step and enters
    the name in another, so the machine remembers how many such links are pending. */
module Links {

  const ROOTINO := 1
  const NLINK_MAX := 32767

  datatype Kind = Dir | File | Device
  /** struct dirent; inum 0 marks a free slot. */
  datatype Dirent = Dirent(inum: nat, name: string)
  datatype Node = Node(kind: Kind, nlink: nat, ents: seq<Dirent>)

  /** Allocated inodes (type != 0); the reference counts and valid flags of the
      inode table; inodes iput has truncated but not yet handed to ifree; links
      counted but not yet entered; and, for each directory made, how many parents
      lie between it and the root. */
  datatype Fs = Fs(
    nodes: map<nat, Node>,
    refs: map<nat, nat>,
    valid: set<nat>,
    freeing: set<nat>,
    pending: multiset<nat>,
    depth: map<nat, nat>)

  function Ref(s: Fs, i: nat): nat {
    if i in s.refs then s.refs[i] else 0
  }

  function AddRef(s: Fs, i: nat): Fs {
    s.(refs := s.refs[i := Ref(s, i) + 1])
  }

  // ---------------------------------------------------------------- directories

  /** dirlookup: the first used slot with this name, or -1. */
  function Find(ents: seq<Dirent>, name: string, p: nat := 0): (r: int)
    requires p <= |ents|
    ensures -1 <= r < |ents|
    ensures r >= 0 ==> p <= r && ents[r].inum != 0 && ents[r].name == name
    ensures r >= 0 ==> forall q :: p <= q < r ==> ents[q].inum == 0 || ents[q].name != name
    ensures r < 0 ==> forall q :: p <= q < |ents| ==> ents[q].inum == 0 || ents[q].name != name
    decreases |ents| - p
  {
    if p == |ents| then -1
    else if ents[p].inum != 0 && ents[p].name == name then p
    else Find(ents, name, p + 1)
  }

  /** dirlink's slot: the first free one, or the end. */
  function FreeSlot(ents: seq<Dirent>, p: nat := 0): (r: nat)
    requires p <= |ents|
    ensures p <= r <= |ents| && (r < |ents| ==> ents[r].inum == 0)
    ensures forall q :: p <= q < r ==> ents[q].inum != 0
    decreases |ents| - p
  {
    if p == |ents| || ents[p].inum == 0 then p else FreeSlot(ents, p + 1)
  }

  /** The directory after a successful dirlink. */
  function Enter(ents: seq<Dirent>, name: string, inum: nat): (r: seq<Dirent>) {
    var p := FreeSlot(ents);
    if p < |ents| then ents[p := Dirent(inum, name)] else ents + [Dirent(inum, name)]
  }

  /** dirlink succeeds unless the name exists or a new block is needed and missing. */
  predicate Enters(ents: seq<Dirent>, name: string, space: bool) {
    Find(ents, name) < 0 && (FreeSlot(ents) < |ents| || space)
  }

  /** isdirempty: every slot after "." and ".." is free. */
  predicate EmptyDir(ents: seq<Dirent>) {
    forall p :: 2 <= p < |ents| ==> ents[p].inum == 0
  }

  predicate IsDots(name: string) {
    name == "." || name == ".."
  }

  /** Only "." and ".." are left. */
  predicate Bare(ents: seq<Dirent>) {
    forall p :: 0 <= p < |ents| && ents[p].inum != 0 ==> p < 2 && IsDots(ents[p].name)
  }

  predicate UniqueNames(ents: seq<Dirent>) {
    forall p, q :: 0 <= p < q < |ents| && ents[p].inum != 0 && ents[q].inum != 0 ==> ents[p].name != ents[q].name
  }

  // ---------------------------------------------------------------- counting

  /** The places that name inode i, "." and ".." apart. */
  ghost function Named(nodes: map<nat, Node>, i: nat): set<(nat, nat)> {
    set d, p | d in nodes && 2 <= p < |nodes[d].ents| && nodes[d].ents[p].inum == i :: (d, p)
  }

  /** The slots of directory d that name directories. */
  ghost function Subdirs(nodes: map<nat, Node>, d: nat): set<nat>
    requires d in nodes
  {
    set p: nat | 2 <= p < |nodes[d].ents| && nodes[d].ents[p].inum in nodes && nodes[nodes[d].ents[p].inum].kind.Dir?
  }

  predicate Live(nodes: map<nat, Node>, i: nat) {
    i in nodes && nodes[i].nlink > 0
  }

  predicate LiveDir(nodes: map<nat, Node>, i: nat) {
    Live(nodes, i) && nodes[i].kind.Dir?
  }

  // ---------------------------------------------------------------- invariant

  /** A directory that is still linked: its own two entries, its parent alive, one
      name for it (none for the root), and a count of one plus its subdirectories. */
  ghost predicate DirOk(nodes: map<nat, Node>, i: nat)
    requires LiveDir(nodes, i)
  {
    var e := nodes[i].ents;
    && |e| >= 2 && e[0] == Dirent(i, ".") && e[1].name == ".."
    && LiveDir(nodes, e[1].inum) && UniqueNames(e)
    && nodes[i].nlink == 1 + |Subdirs(nodes, i)|
    && (if i == ROOTINO then Named(nodes, i) == {} && e[1].inum == ROOTINO
        else e[1].inum != i && exists p: nat :: Named(nodes, i) == {(e[1].inum, p)})
    && (forall p :: 2 <= p < |e| && e[p].inum != 0 ==> Live(nodes, e[p].inum))
  }

  ghost predicate NodeOk(nodes: map<nat, Node>, pending: multiset<nat>, i: nat)
    requires i in nodes
  {
    && nodes[i].nlink <= NLINK_MAX
    && (!nodes[i].kind.Dir? ==> nodes[i].ents == [] && nodes[i].nlink == |Named(nodes, i)| + pending[i])
    && (nodes[i].kind.Dir? ==> pending[i] == 0)
    && (nodes[i].kind.Dir? && nodes[i].nlink == 0 ==> Bare(nodes[i].ents) && Named(nodes, i) == {})
    && (LiveDir(nodes, i) ==> DirOk(nodes, i))
  }

  ghost predicate Counts(nodes: map<nat, Node>, pending: multiset<nat>) {
    && 0 !in nodes && LiveDir(nodes, ROOTINO)
    && (forall i :: i in pending ==> i in nodes)
    && forall i :: i in nodes ==> NodeOk(nodes, pending, i)
  }

  /** An unlinked inode is held by a valid reference or is on its way to ifree. */
  ghost predicate Lifetime(s: Fs) {
    && (forall i :: i in s.nodes && s.nodes[i].nlink == 0 ==>
          (i in s.freeing) != (Ref(s, i) > 0 && i in s.valid))
    && (forall i :: i in s.freeing ==> i in s.nodes && s.nodes[i].nlink == 0 && Ref(s, i) == 0)
    && (forall i :: i in s.refs && s.refs[i] > 0 ==> i in s.nodes)
  }

  /** ".." of a linked directory is one step nearer the root. */
  ghost predicate Rooted(nodes: map<nat, Node>, depth: map<nat, nat>) {
    forall i :: LiveDir(nodes, i) ==> RootedAt(nodes[i].ents, depth, i)
  }

  ghost predicate RootedAt(ents: seq<Dirent>, depth: map<nat, nat>, i: nat) {
    && i in depth && (depth[i] == 0 <==> i == ROOTINO)
    && |ents| >= 2
    && (i != ROOTINO ==> ents[1].inum in depth && depth[i] == depth[ents[1].inum] + 1)
  }

  ghost predicate Inv(s: Fs) {
    Counts(s.nodes, s.pending) && Rooted(s.nodes, s.depth) && Lifetime(s)
  }

  // ---------------------------------------------------------------- steps

  datatype Step =
    | GetRoot
    | Dup(i: nat)
    | Ilock(i: nat)
    | Lookup(d: nat, name: string)
    | Put(i: nat)
    | Free(i: nat)
    | LinkBump(i: nat)
    | LinkEnter(d: nat, name: string, i: nat, space: bool)
    | LinkUndo(i: nat)
    | Unlink(d: nat, name: string)
    | Create(d: nat, name: string, kind: Kind, inum: nat, dot: bool, dotdot: bool, space: bool)

  /** A directory the caller holds a reference to. */
  predicate HeldDir(s: Fs, d: nat) {
    Ref(s, d) > 0 && d in s.nodes && s.nodes[d].kind.Dir?
  }

  function Lock(s: Fs, i: nat): Fs {
    s.(valid := s.valid + {i})
  }

  predicate CanStep(s: Fs, step: Step) {
    match step
    case GetRoot => true
    case Dup(i) => Ref(s, i) > 0
    case Ilock(i) => Ref(s, i) > 0
    case Lookup(d, _) => Ref(s, d) > 0 && d in s.nodes
    case Put(i) => Ref(s, i) > 0 && i in s.nodes
    case Free(i) => i in s.freeing
    case LinkBump(i) => Ref(s, i) > 0 && i in s.nodes
    case LinkEnter(d, _, i, _) => HeldDir(s, d) && i in s.pending && i in s.nodes
    case LinkUndo(i) => Ref(s, i) > 0 && i in s.pending && i in s.nodes && s.nodes[i].nlink > 0
    case Unlink(d, _) => HeldDir(s, d)
    case Create(d, _, _, inum, _, _, _) => HeldDir(s, d) && inum > 0 && inum !in s.nodes
  }

  /** One component of namex: a directory that is gone leads nowhere. */
  function AfterLookup(s: Fs, d: nat, name: string): Fs
    requires d in s.nodes
  {
    var s1 := Lock(s, d);
    if !LiveDir(s.nodes, d) then s1
    else
      var p := Find(s.nodes[d].ents, name);
      if p < 0 then s1 else AddRef(s1, s.nodes[d].ents[p].inum)
  }

  /** iput up to its last release of itable.lock. */
  function AfterPut(s: Fs, i: nat): Fs
    requires Ref(s, i) > 0 && i in s.nodes
  {
    if Ref(s, i) == 1 && i in s.valid && s.nodes[i].nlink == 0 then
      Fs(s.nodes[i := s.nodes[i].(ents := [])], s.refs[i := 0], s.valid - {i}, s.freeing + {i}, s.pending, s.depth)
    else
      s.(refs := s.refs[i := Ref(s, i) - 1], valid := if Ref(s, i) == 1 then s.valid - {i} else s.valid)
  }

  /** sys_link before it looks up the new name. */
  function AfterLinkBump(s: Fs, i: nat): Fs
    requires i in s.nodes
  {
    if s.nodes[i].kind.Dir? || s.nodes[i].nlink >= NLINK_MAX then Lock(s, i)
    else Lock(s, i).(nodes := s.nodes[i := s.nodes[i].(nlink := s.nodes[i].nlink + 1)],
                     pending := s.pending + multiset{i})
  }

  /** sys_link with the new directory locked.  On failure the link stays pending
      until LinkUndo. */
  function AfterLinkEnter(s: Fs, d: nat, name: string, i: nat, space: bool): Fs
    requires d in s.nodes
  {
    if s.nodes[d].nlink == 0 || !Enters(s.nodes[d].ents, name, space) then Lock(s, d)
    else Lock(s, d).(nodes := s.nodes[d := s.nodes[d].(ents := Enter(s.nodes[d].ents, name, i))],
                     pending := s.pending - multiset{i})
  }

  function AfterLinkUndo(s: Fs, i: nat): Fs
    requires i in s.nodes && s.nodes[i].nlink > 0
  {
    Lock(s, i).(nodes := s.nodes[i := s.nodes[i].(nlink := s.nodes[i].nlink - 1)],
                pending := s.pending - multiset{i})
  }

  /** The checks of sys_unlink once the entry is found. */
  predicate Unlinkable(s: Fs, i: nat) {
    i in s.nodes && s.nodes[i].nlink > 0 && !(s.nodes[i].kind.Dir? && !EmptyDir(s.nodes[i].ents))
  }

  function Unlinked(nodes: map<nat, Node>, d: nat, p: nat): map<nat, Node>
    requires d in nodes && p < |nodes[d].ents| && Live(nodes, nodes[d].ents[p].inum) && nodes[d].nlink > 0
    requires nodes[d].ents[p].inum != d
  {
    var i := nodes[d].ents[p].inum;
    var down := if nodes[i].kind.Dir? then 1 else 0;
    nodes[d := nodes[d].(ents := nodes[d].ents[p := Dirent(0, "")], nlink := nodes[d].nlink - down)]
         [i := nodes[i].(nlink := nodes[i].nlink - 1)]
  }

  /** sys_unlink with the directory, then the file, locked; the reference taken by
      dirlookup is dropped by a later Put. */
  function AfterUnlink(s: Fs, d: nat, name: string): Fs
    requires HeldDir(s, d)
  {
    var s1 := Lock(s, d);
    var e := s.nodes[d].ents;
    if IsDots(name) || Find(e, name) < 0 then s1
    else
      var p := Find(e, name);
      var s2 := Lock(AddRef(s1, e[p].inum), e[p].inum);
      if !Unlinkable(s, e[p].inum) || s.nodes[d].nlink == 0 || e[p].inum == d then s2
      else s2.(nodes := Unlinked(s.nodes, d, p))
  }

  /** The entries of a new inode when dirlink for "." and ".." had space as given. */
  function NewEnts(kind: Kind, d: nat, inum: nat, dot: bool, dotdot: bool): seq<Dirent> {
    if !kind.Dir? || !dot then []
    else if !dotdot then [Dirent(inum, ".")]
    else [Dirent(inum, "."), Dirent(d, "..")]
  }

  /** create() up to its last release of the directory: the new inode is either
      entered with one link, or left with none for iput to free. */
  function AfterCreate(s: Fs, d: nat, name: string, kind: Kind, inum: nat, dot: bool, dotdot: bool, space: bool): Fs
    requires HeldDir(s, d) && inum !in s.nodes
  {
    var s1 := Lock(s, d);
    var n := s.nodes[d];
    if n.nlink == 0 || (kind.Dir? && n.nlink >= NLINK_MAX) then s1
    else if Find(n.ents, name) >= 0 then
      var i := n.ents[Find(n.ents, name)].inum;
      Lock(AddRef(s1, i), i)
    else
      var s2 := Lock(AddRef(s1, inum), inum);
      var ents := NewEnts(kind, d, inum, dot, dotdot);
      var ok := (kind.Dir? ==> dot && dotdot) && Enters(n.ents, name, space);
      if !ok then s2.(nodes := s.nodes[inum := Node(kind, 0, ents)])
      else s2.(nodes := Created(s.nodes, d, name, inum, Node(kind, 1, ents)), depth := Deeper(s.depth, d, inum))
  }

  function Created(nodes: map<nat, Node>, d: nat, name: string, inum: nat, n: Node): map<nat, Node>
    requires d in nodes
  {
    var up := if n.kind.Dir? then 1 else 0;
    nodes[inum := n][d := nodes[d].(ents := Enter(nodes[d].ents, name, inum), nlink := nodes[d].nlink + up)]
  }

  function Deeper(depth: map<nat, nat>, d: nat, inum: nat): map<nat, nat> {
    depth[inum := 1 + if d in depth then depth[d] else 0]
  }

  function Do(s: Fs, step: Step): Fs
    requires CanStep(s, step)
  {
    match step
    case GetRoot => AddRef(s, ROOTINO)
    case Dup(i) => AddRef(s, i)
    case Ilock(i) => Lock(s, i)
    case Lookup(d, name) => AfterLookup(s, d, name)
    case Put(i) => AfterPut(s, i)
    case Free(i) => s.(nodes := s.nodes - {i}, freeing := s.freeing - {i})
    case LinkBump(i) => AfterLinkBump(s, i)
    case LinkEnter(d, name, i, space) => AfterLinkEnter(s, d, name, i, space)
    case LinkUndo(i) => AfterLinkUndo(s, i)
    case Unlink(d, name) => AfterUnlink(s, d, name)
    case Create(d, name, kind, inum, dot, dotdot, space) => AfterCreate(s, d, name, kind, inum, dot, dotdot, space)
  }

  // ---------------------------------------------------------------- preservation

  lemma LockKept(s: Fs, i: nat)
    requires Lifetime(s) && Ref(s, i) > 0
    ensures Lifetime(Lock(s, i))
  {
  }

  /** Where a lookup in a live directory can lead. */
  lemma FoundLive(nodes: map<nat, Node>, pending: multiset<nat>, d: nat, name: string)
    requires Counts(nodes, pending) && LiveDir(nodes, d)
    ensures var p := Find(nodes[d].ents, name);
            && (p >= 0 ==> Live(nodes, nodes[d].ents[p].inum))
            && (p >= 0 && name != "." && name != ".." ==> p >= 2)
            && (p >= 2 ==> (d, p) in Named(nodes, nodes[d].ents[p].inum) && nodes[d].ents[p].inum != d)
  {
    assert NodeOk(nodes, pending, d) && DirOk(nodes, d);
    var e := nodes[d].ents;
    var p := Find(e, name);
    if p >= 2 {
      assert (d, p) in Named(nodes, e[p].inum);
    }
  }

  // Counts of nodes that keep their entries and kinds.

  ghost predicate SameShape(nodes: map<nat, Node>, nodes': map<nat, Node>) {
    && nodes'.Keys == nodes.Keys
    && forall i :: i in nodes ==> nodes'[i].kind == nodes[i].kind && nodes'[i].ents == nodes[i].ents
  }

  lemma ShapeCounts(nodes: map<nat, Node>, nodes': map<nat, Node>)
    requires SameShape(nodes, nodes')
    ensures forall i :: Named(nodes', i) == Named(nodes, i)
    ensures forall d :: d in nodes ==> Subdirs(nodes', d) == Subdirs(nodes, d)
  {
    forall i
      ensures Named(nodes', i) == Named(nodes, i)
    {
      assert Named(nodes', i) == Named(nodes, i);
    }
    forall d | d in nodes
      ensures Subdirs(nodes', d) == Subdirs(nodes, d)
    {
      assert Subdirs(nodes', d) == Subdirs(nodes, d);
    }
  }

  /** A file's count moves together with its pending links. */
  lemma RecountFile(nodes: map<nat, Node>, pending: multiset<nat>, i: nat, n: nat, pending': multiset<nat>)
    requires Counts(nodes, pending) && i in nodes && !nodes[i].kind.Dir? && n <= NLINK_MAX
    requires forall j :: j != i ==> pending'[j] == pending[j]
    requires n - pending'[i] == nodes[i].nlink - pending[i]
    requires n == 0 ==> Named(nodes, i) == {}
    ensures Counts(nodes[i := nodes[i].(nlink := n)], pending')
  {
    var nodes' := nodes[i := nodes[i].(nlink := n)];
    ShapeCounts(nodes, nodes');
    forall j | j in nodes'
      ensures NodeOk(nodes', pending', j)
    {
      assert NodeOk(nodes, pending, j);
      if LiveDir(nodes', j) {
        assert DirOk(nodes, j);
        var e := nodes[j].ents;
        forall p | 2 <= p < |e| && e[p].inum != 0
          ensures Live(nodes', e[p].inum)
        {
          assert (j, p) in Named(nodes, e[p].inum);
        }
      }
    }
  }

  lemma FileFacts(nodes: map<nat, Node>, pending: multiset<nat>, i: nat)
    requires Counts(nodes, pending) && i in nodes
    ensures i in pending ==> !nodes[i].kind.Dir?
    ensures !nodes[i].kind.Dir? ==> nodes[i].nlink == |Named(nodes, i)| + pending[i] <= NLINK_MAX
  {
    assert NodeOk(nodes, pending, i);
  }

  lemma RootedFile(nodes: map<nat, Node>, depth: map<nat, nat>, i: nat, n: nat)
    requires Rooted(nodes, depth) && i in nodes && !nodes[i].kind.Dir?
    ensures Rooted(nodes[i := nodes[i].(nlink := n)], depth)
  {
  }

  lemma LinkBumpKept(s: Fs, i: nat)
    requires Ref(s, i) > 0 && i in s.nodes && Inv(s)
    ensures Inv(AfterLinkBump(s, i))
  {
    hide Counts, Rooted;
    FileFacts(s.nodes, s.pending, i);
    if !s.nodes[i].kind.Dir? && s.nodes[i].nlink < NLINK_MAX {
      RecountFile(s.nodes, s.pending, i, s.nodes[i].nlink + 1, s.pending + multiset{i});
      RootedFile(s.nodes, s.depth, i, s.nodes[i].nlink + 1);
    }
  }

  lemma LinkUndoKept(s: Fs, i: nat)
    requires Ref(s, i) > 0 && i in s.pending && i in s.nodes && s.nodes[i].nlink > 0 && Inv(s)
    ensures Inv(AfterLinkUndo(s, i))
  {
    hide Counts, Rooted;
    FileFacts(s.nodes, s.pending, i);
    RecountFile(s.nodes, s.pending, i, s.nodes[i].nlink - 1, s.pending - multiset{i});
    RootedFile(s.nodes, s.depth, i, s.nodes[i].nlink - 1);
  }

  // Entering a name.

  /** The slot dirlink takes in a live directory lies behind "." and "..". */
  lemma EnterSlot(nodes: map<nat, Node>, pending: multiset<nat>, d: nat, name: string, i: nat)
    requires Counts(nodes, pending) && LiveDir(nodes, d) && i != 0 && Find(nodes[d].ents, name) < 0
    ensures var e, e' := nodes[d].ents, Enter(nodes[d].ents, name, i);
            var p := FreeSlot(e);
            && 2 <= p <= |e| && |e'| == (if p < |e| then |e| else |e| + 1) && e'[p] == Dirent(i, name)
            && (p < |e| ==> e[p].inum == 0)
            && (forall q :: 0 <= q < |e| && q != p ==> e'[q] == e[q])
            && UniqueNames(e')
  {
    assert NodeOk(nodes, pending, d) && DirOk(nodes, d);
    assert LiveDir(nodes, nodes[d].ents[1].inum);
  }

  /** What a changed directory d means for the places that name an inode. */
  lemma NamedEnter(nodes: map<nat, Node>, nodes': map<nat, Node>, d: nat, p: nat, i: nat, x: nat)
    requires d in nodes && nodes'.Keys == nodes.Keys && i != 0 && x != 0 && p >= 2
    requires forall k :: k in nodes && k != d ==> nodes'[k].ents == nodes[k].ents
    requires var e, e' := nodes[d].ents, nodes'[d].ents;
             && p <= |e| && |e'| == (if p < |e| then |e| else |e| + 1) && e'[p].inum == i
             && (p < |e| ==> e[p].inum == 0)
             && (forall q :: 0 <= q < |e| && q != p ==> e'[q] == e[q])
    ensures Named(nodes', x) == if x == i then Named(nodes, x) + {(d, p)} else Named(nodes, x)
    ensures (d, p) !in Named(nodes, x)
  {
    assert Named(nodes', x) == if x == i then Named(nodes, x) + {(d, p)} else Named(nodes, x);
  }

  lemma LinkEnterCounts(nodes: map<nat, Node>, pending: multiset<nat>, d: nat, name: string, i: nat)
    requires Counts(nodes, pending) && LiveDir(nodes, d) && i in pending && i in nodes && Find(nodes[d].ents, name) < 0
    ensures Counts(nodes[d := nodes[d].(ents := Enter(nodes[d].ents, name, i))], pending - multiset{i})
  {
    hide NodeOk, Find, Enter, FreeSlot;
    var nodes' := nodes[d := nodes[d].(ents := Enter(nodes[d].ents, name, i))];
    var pending' := pending - multiset{i};
    var p := FreeSlot(nodes[d].ents);
    FileFacts(nodes, pending, i);
    EnterSlot(nodes, pending, d, name, i);
    forall j | j in nodes'
      ensures NodeOk(nodes', pending', j)
    {
      assert NodeOk(nodes, pending, j);
      LinkEnterNode(nodes, pending, nodes', pending', d, p, i, j);
    }
  }

  /** Entering inode i in slot p of d adds a subdirectory to d if i is one. */
  lemma SubdirsEnter(nodes: map<nat, Node>, nodes': map<nat, Node>, d: nat, p: nat, i: nat, j: nat)
    requires d in nodes && j in nodes && nodes'.Keys == nodes.Keys && i in nodes && 0 !in nodes && p >= 2
    requires forall k :: k in nodes ==> nodes'[k].kind == nodes[k].kind
    requires forall k :: k in nodes && k != d ==> nodes'[k].ents == nodes[k].ents
    requires var e, e' := nodes[d].ents, nodes'[d].ents;
             && p <= |e| && |e'| == (if p < |e| then |e| else |e| + 1) && e'[p].inum == i
             && (p < |e| ==> e[p].inum == 0)
             && (forall q :: 0 <= q < |e| && q != p ==> e'[q] == e[q])
    ensures Subdirs(nodes', j) == Subdirs(nodes, j) + if j == d && nodes[i].kind.Dir? then {p} else {}
    ensures j == d ==> p !in Subdirs(nodes, j)
  {
    assert Subdirs(nodes', j) == Subdirs(nodes, j) + if j == d && nodes[i].kind.Dir? then {p} else {};
  }

  lemma LinkEnterNode(nodes: map<nat, Node>, pending: multiset<nat>, nodes': map<nat, Node>, pending': multiset<nat>,
                      d: nat, p: nat, i: nat, j: nat)
    requires j in nodes && i in nodes && NodeOk(nodes, pending, j) && 0 !in nodes
    requires LiveDir(nodes, d) && i in pending && !nodes[i].kind.Dir? && nodes[i].nlink > 0
    requires pending' == pending - multiset{i} && nodes'.Keys == nodes.Keys && p >= 2
    requires forall k :: k in nodes ==> nodes'[k] == nodes[k].(ents := nodes'[k].ents)
    requires forall k :: k in nodes && k != d ==> nodes'[k] == nodes[k]
    requires var e, e' := nodes[d].ents, nodes'[d].ents;
             && p <= |e| && |e'| == (if p < |e| then |e| else |e| + 1) && e'[p].inum == i
             && (p < |e| ==> e[p].inum == 0)
             && (forall q :: 0 <= q < |e| && q != p ==> e'[q] == e[q])
             && UniqueNames(e')
    ensures NodeOk(nodes', pending', j)
  {
    hide Named, Subdirs, UniqueNames;
    NamedEnter(nodes, nodes', d, p, i, j);
    if LiveDir(nodes, j) {
      SubdirsEnter(nodes, nodes', d, p, i, j);
      assert DirOk(nodes', j);
    }
  }

  // Erasing a name.

  /** nodes' is nodes with slot p of d, which named i, erased. */
  ghost predicate Erased(nodes: map<nat, Node>, nodes': map<nat, Node>, d: nat, p: nat, i: nat) {
    && d in nodes && i in nodes && d != i && i != 0 && nodes'.Keys == nodes.Keys && 0 !in nodes
    && 2 <= p < |nodes[d].ents| && nodes[d].ents[p].inum == i
    && nodes'[d].ents == nodes[d].ents[p := Dirent(0, "")]
    && (forall k :: k in nodes ==> nodes'[k].kind == nodes[k].kind)
    && (forall k :: k in nodes && k != d ==> nodes'[k].ents == nodes[k].ents)
    && (forall k :: k in nodes && k != d && k != i ==> nodes'[k] == nodes[k])
    && nodes[i].nlink > 0 && nodes'[i].nlink == nodes[i].nlink - 1
    && nodes'[d].nlink == nodes[d].nlink - if nodes[i].kind.Dir? then 1 else 0
  }

  lemma NamedErase(nodes: map<nat, Node>, nodes': map<nat, Node>, d: nat, p: nat, i: nat, x: nat)
    requires Erased(nodes, nodes', d, p, i) && x != 0
    ensures Named(nodes', x) == if x == i then Named(nodes, x) - {(d, p)} else Named(nodes, x)
    ensures (d, p) in Named(nodes, i)
  {
    assert Named(nodes', x) == if x == i then Named(nodes, x) - {(d, p)} else Named(nodes, x);
  }

  lemma SubdirsErase(nodes: map<nat, Node>, nodes': map<nat, Node>, d: nat, p: nat, i: nat, j: nat)
    requires Erased(nodes, nodes', d, p, i) && j in nodes
    ensures Subdirs(nodes', j) == Subdirs(nodes, j) - if j == d && nodes[i].kind.Dir? then {p} else {}
    ensures nodes[i].kind.Dir? ==> p in Subdirs(nodes, d)
  {
    assert Subdirs(nodes', j) == Subdirs(nodes, j) - if j == d && nodes[i].kind.Dir? then {p} else {};
  }

  lemma EmptySubdirs(nodes: map<nat, Node>, i: nat)
    requires i in nodes && EmptyDir(nodes[i].ents) && 0 !in nodes
    ensures Subdirs(nodes, i) == {}
  {
  }

  /** What a linked inode's parent and entries look like from outside. */
  lemma ParentFacts(nodes: map<nat, Node>, pending: multiset<nat>, j: nat)
    requires Counts(nodes, pending) && LiveDir(nodes, j)
    ensures |nodes[j].ents| >= 2 && LiveDir(nodes, nodes[j].ents[1].inum)
    ensures j != ROOTINO ==> exists q: nat :: (nodes[j].ents[1].inum, q) in Named(nodes, j)
    ensures j == ROOTINO ==> nodes[j].ents[1].inum == ROOTINO && Named(nodes, j) == {}
  {
    assert NodeOk(nodes, pending, j) && DirOk(nodes, j);
    if j != ROOTINO {
      var p: nat :| Named(nodes, j) == {(nodes[j].ents[1].inum, p)};
      assert (nodes[j].ents[1].inum, p) in Named(nodes, j);
    }
  }

  /** An empty directory is nobody's parent. */
  lemma EmptyHasNoChildren(nodes: map<nat, Node>, pending: multiset<nat>, i: nat, j: nat)
    requires Counts(nodes, pending) && LiveDir(nodes, i) && EmptyDir(nodes[i].ents) && LiveDir(nodes, j) && i != ROOTINO
    ensures |nodes[j].ents| >= 2 && nodes[j].ents[1].inum != i
  {
    ParentFacts(nodes, pending, j);
    if j != ROOTINO {
      var q: nat :| (nodes[j].ents[1].inum, q) in Named(nodes, j);
      assert 2 <= q && nodes[nodes[j].ents[1].inum].ents[q].inum == j;
    }
  }

  lemma EraseCounts(nodes: map<nat, Node>, pending: multiset<nat>, nodes': map<nat, Node>, d: nat, p: nat, i: nat)
    requires Counts(nodes, pending) && LiveDir(nodes, d) && Erased(nodes, nodes', d, p, i)
    requires nodes[i].kind.Dir? ==> EmptyDir(nodes[i].ents)
    ensures Counts(nodes', pending)
  {
    assert NodeOk(nodes, pending, i) && NodeOk(nodes, pending, d) && DirOk(nodes, d);
    NamedErase(nodes, nodes', d, p, i, i);
    SubdirsErase(nodes, nodes', d, p, i, d);
    assert i != ROOTINO;
    if nodes[i].kind.Dir? {
      EmptySubdirs(nodes, i);
      assert DirOk(nodes, i);
    }
    assert LiveDir(nodes', d);
    forall j | j in nodes'
      ensures NodeOk(nodes', pending, j)
    {
      assert NodeOk(nodes, pending, j);
      if nodes[i].kind.Dir? && LiveDir(nodes, j) {
        EmptyHasNoChildren(nodes, pending, i, j);
      }
      EraseNode(nodes, pending, nodes', d, p, i, j);
    }
  }

  lemma EraseNode(nodes: map<nat, Node>, pending: multiset<nat>, nodes': map<nat, Node>, d: nat, p: nat, i: nat, j: nat)
    requires Erased(nodes, nodes', d, p, i) && j in nodes && NodeOk(nodes, pending, j) && NodeOk(nodes, pending, i)
    requires nodes[i].kind.Dir? ==> nodes'[i].nlink == 0 && Named(nodes', i) == {} && EmptyDir(nodes[i].ents)
    requires i != ROOTINO && LiveDir(nodes, d) && LiveDir(nodes', d)
    requires nodes[i].kind.Dir? && LiveDir(nodes, j) ==> |nodes[j].ents| >= 2 && nodes[j].ents[1].inum != i
    ensures NodeOk(nodes', pending, j)
  {
    hide Named, Subdirs;
    NamedErase(nodes, nodes', d, p, i, j);
    if LiveDir(nodes', j) {
      EraseDir(nodes, pending, nodes', d, p, i, j);
    }
  }

  lemma EraseDir(nodes: map<nat, Node>, pending: multiset<nat>, nodes': map<nat, Node>, d: nat, p: nat, i: nat, j: nat)
    requires Erased(nodes, nodes', d, p, i) && LiveDir(nodes, j) && DirOk(nodes, j) && NodeOk(nodes, pending, i)
    requires nodes[i].kind.Dir? ==> nodes'[i].nlink == 0 && Named(nodes', i) == {}
    requires LiveDir(nodes, d) && LiveDir(nodes', d) && LiveDir(nodes', j)
    requires nodes[i].kind.Dir? ==> nodes[j].ents[1].inum != i
    ensures DirOk(nodes', j)
  {
    hide Named, Subdirs, NodeOk;
    NamedErase(nodes, nodes', d, p, i, j);
    SubdirsErase(nodes, nodes', d, p, i, j);
    SubdirsErase(nodes, nodes', d, p, i, d);
    var e' := nodes'[j].ents;
    forall q | 2 <= q < |e'| && e'[q].inum != 0
      ensures Live(nodes', e'[q].inum)
    {
      EntryStaysLive(nodes, pending, nodes', d, p, i, j, q);
    }
    assert LiveDir(nodes', e'[1].inum);
    assert UniqueNames(e');
  }

  lemma EntryStaysLive(nodes: map<nat, Node>, pending: multiset<nat>, nodes': map<nat, Node>,
                       d: nat, p: nat, i: nat, j: nat, q: nat)
    requires Erased(nodes, nodes', d, p, i) && j in nodes && 2 <= q < |nodes'[j].ents| && nodes'[j].ents[q].inum != 0
    requires NodeOk(nodes, pending, i) && LiveDir(nodes', d)
    requires nodes[i].kind.Dir? ==> Named(nodes', i) == {}
    requires Live(nodes, nodes'[j].ents[q].inum)
    ensures Live(nodes', nodes'[j].ents[q].inum)
  {
    var x := nodes'[j].ents[q].inum;
    assert (j, q) in Named(nodes', x);
    NamedErase(nodes, nodes', d, p, i, i);
    assert x == i ==> |Named(nodes', i)| == |Named(nodes, i)| - 1 >= 1;
  }

  // A new inode.

  lemma Unnamed(nodes: map<nat, Node>, pending: multiset<nat>, x: nat)
    requires Counts(nodes, pending) && x !in nodes && x != 0
    ensures Named(nodes, x) == {} && pending[x] == 0
  {
    forall d, p | d in nodes && 2 <= p < |nodes[d].ents|
      ensures nodes[d].ents[p].inum != x
    {
      assert NodeOk(nodes, pending, d);
      if LiveDir(nodes, d) {
        assert DirOk(nodes, d);
      }
    }
  }

  lemma NamedAddDead(nodes: map<nat, Node>, x: nat, n: Node, j: nat)
    requires x !in nodes && |n.ents| <= 2
    ensures Named(nodes[x := n], j) == Named(nodes, j)
  {
  }

  lemma AddDeadNode(nodes: map<nat, Node>, pending: multiset<nat>, x: nat, n: Node, j: nat)
    requires x !in nodes && x != 0 && Named(nodes, x) == {} && pending[x] == 0 && (j in nodes || j == x)
    requires n.nlink == 0 && |n.ents| <= 2 && Bare(n.ents) && (!n.kind.Dir? ==> n.ents == [])
    requires j in nodes ==> NodeOk(nodes, pending, j)
    ensures NodeOk(nodes[x := n], pending, j)
  {
    NamedAddDead(nodes, x, n, j);
    if j in nodes { SubdirsAdd(nodes, pending, x, n, j); }
    hide Named, Subdirs, UniqueNames, Bare;
  }

  lemma AddDeadCounts(nodes: map<nat, Node>, pending: multiset<nat>, x: nat, n: Node)
    requires Counts(nodes, pending) && x !in nodes && x != 0
    requires n.nlink == 0 && |n.ents| <= 2 && Bare(n.ents) && (!n.kind.Dir? ==> n.ents == [])
    ensures Counts(nodes[x := n], pending) && Named(nodes[x := n], x) == {} && pending[x] == 0
  {
    var nodes' := nodes[x := n];
    Unnamed(nodes, pending, x);
    NamedAddDead(nodes, x, n, x);
    hide NodeOk, Named, Bare;
    forall j | j in nodes'
      ensures NodeOk(nodes', pending, j)
    {
      AddDeadNode(nodes, pending, x, n, j);
    }
  }

  lemma SubdirsAdd(nodes: map<nat, Node>, pending: multiset<nat>, x: nat, n: Node, j: nat)
    requires x !in nodes && x != 0 && j in nodes && Named(nodes, x) == {}
    ensures Subdirs(nodes[x := n], j) == Subdirs(nodes, j)
  {
    forall p | 2 <= p < |nodes[j].ents|
      ensures nodes[j].ents[p].inum != x
    {
      assert (j, p) !in Named(nodes, x);
    }
  }

  /** nodes' is nodes with the unlinked, unnamed inode i entered in slot p of d. */
  ghost predicate Adopted(nodes: map<nat, Node>, nodes': map<nat, Node>, d: nat, p: nat, i: nat) {
    && LiveDir(nodes, d) && i in nodes && d != i && i != 0 && nodes'.Keys == nodes.Keys && 0 !in nodes
    && nodes[i].nlink == 0 && Named(nodes, i) == {}
    && nodes'[i] == nodes[i].(nlink := 1)
    && (nodes[i].kind.Dir? ==> nodes[i].ents == [Dirent(i, "."), Dirent(d, "..")])
    && (forall k :: k in nodes && k != d && k != i ==> nodes'[k] == nodes[k])
    && nodes'[d].kind == nodes[d].kind
    && nodes'[d].nlink == nodes[d].nlink + (if nodes[i].kind.Dir? then 1 else 0) <= NLINK_MAX
    && var e, e' := nodes[d].ents, nodes'[d].ents;
    && 2 <= p <= |e| && |e'| == (if p < |e| then |e| else |e| + 1) && e'[p].inum == i
    && (p < |e| ==> e[p].inum == 0)
    && (forall q :: 0 <= q < |e| && q != p ==> e'[q] == e[q])
    && UniqueNames(e')
  }

  lemma AdoptNode(nodes: map<nat, Node>, pending: multiset<nat>, nodes': map<nat, Node>, d: nat, p: nat, i: nat, j: nat)
    requires Adopted(nodes, nodes', d, p, i) && j in nodes && NodeOk(nodes, pending, j) && pending[i] == 0
    requires i != ROOTINO
    ensures NodeOk(nodes', pending, j)
  {
    hide Named, Subdirs, UniqueNames;
    NamedEnter(nodes, nodes', d, p, i, j);
    SubdirsEnter(nodes, nodes', d, p, i, j);
    if j == i {
      assert Named(nodes', i) == {(d, p)};
      if nodes[i].kind.Dir? {
        AdoptedDir(nodes, nodes', d, p, i);
      }
    } else if LiveDir(nodes', j) {
      AdoptOther(nodes, pending, nodes', d, p, i, j);
    }
  }

  lemma AdoptedDir(nodes: map<nat, Node>, nodes': map<nat, Node>, d: nat, p: nat, i: nat)
    requires Adopted(nodes, nodes', d, p, i) && nodes[i].kind.Dir? && i != ROOTINO && Named(nodes', i) == {(d, p)}
    ensures LiveDir(nodes', i) && DirOk(nodes', i)
  {
    assert Subdirs(nodes', i) == {};
  }

  lemma AdoptOther(nodes: map<nat, Node>, pending: multiset<nat>, nodes': map<nat, Node>, d: nat, p: nat, i: nat, j: nat)
    requires Adopted(nodes, nodes', d, p, i) && LiveDir(nodes, j) && DirOk(nodes, j) && j != i
    ensures LiveDir(nodes', j) && DirOk(nodes', j)
  {
    hide Named, Subdirs;
    NamedEnter(nodes, nodes', d, p, i, j);
    SubdirsEnter(nodes, nodes', d, p, i, j);
    assert UniqueNames(nodes'[j].ents);
  }

  lemma AdoptCounts(nodes: map<nat, Node>, pending: multiset<nat>, nodes': map<nat, Node>, d: nat, p: nat, i: nat)
    requires Counts(nodes, pending) && Adopted(nodes, nodes', d, p, i) && pending[i] == 0
    ensures Counts(nodes', pending)
  {
    forall j | j in nodes'
      ensures NodeOk(nodes', pending, j)
    {
      assert NodeOk(nodes, pending, j);
      AdoptNode(nodes, pending, nodes', d, p, i, j);
    }
  }

  // The end of an inode.

  /** nodes' is nodes without the entries of the unlinked inode i, or without i. */
  ghost predicate Gone(nodes: map<nat, Node>, nodes': map<nat, Node>, i: nat) {
    && 0 !in nodes && i in nodes && nodes[i].nlink == 0 && EmptyDir(nodes[i].ents) && Named(nodes, i) == {}
    && (nodes'.Keys == nodes.Keys || nodes'.Keys == nodes.Keys - {i})
    && (i in nodes' ==> nodes'[i] == nodes[i].(ents := []))
    && forall k :: k in nodes && k != i ==> nodes'[k] == nodes[k]
  }

  lemma NamedGone(nodes: map<nat, Node>, nodes': map<nat, Node>, i: nat, x: nat)
    requires Gone(nodes, nodes', i) && x != 0
    ensures Named(nodes', x) == Named(nodes, x)
  {
    forall d, p
      ensures (d, p) in Named(nodes', x) <==> (d, p) in Named(nodes, x)
    {
    }
  }

  lemma SubdirsGone(nodes: map<nat, Node>, nodes': map<nat, Node>, i: nat, j: nat)
    requires Gone(nodes, nodes', i) && j in nodes && j != i
    ensures Subdirs(nodes', j) == Subdirs(nodes, j)
  {
    forall p | 2 <= p < |nodes[j].ents|
      ensures nodes[j].ents[p].inum != i
    {
      assert (j, p) !in Named(nodes, i);
    }
  }

  lemma GoneNode(nodes: map<nat, Node>, pending: multiset<nat>, nodes': map<nat, Node>, i: nat, j: nat)
    requires Gone(nodes, nodes', i) && j in nodes' && NodeOk(nodes, pending, j)
    ensures NodeOk(nodes', pending, j)
  {
    hide Named, Subdirs, UniqueNames;
    NamedGone(nodes, nodes', i, j);
    if j != i {
      SubdirsGone(nodes, nodes', i, j);
    }
  }

  lemma GoneCounts(nodes: map<nat, Node>, pending: multiset<nat>, nodes': map<nat, Node>, i: nat)
    requires Counts(nodes, pending) && Gone(nodes, nodes', i) && (i in nodes' || pending[i] == 0)
    ensures Counts(nodes', pending)
  {
    hide Named, NodeOk, Gone;
    GoneKeys(nodes, nodes', i);
    forall j | j in nodes'
      ensures NodeOk(nodes', pending, j)
    {
      GoneNode(nodes, pending, nodes', i, j);
    }
  }

  lemma GoneKeys(nodes: map<nat, Node>, nodes': map<nat, Node>, i: nat)
    requires Gone(nodes, nodes', i)
    ensures nodes'.Keys == nodes.Keys || nodes'.Keys == nodes.Keys - {i}
    ensures forall k :: k in nodes && k != i ==> k in nodes' && nodes'[k] == nodes[k]
    ensures i in nodes && nodes[i].nlink == 0
  {
  }

  /** An unlinked inode has no names, no pending links and no entries that count. */
  lemma DeadFacts(nodes: map<nat, Node>, pending: multiset<nat>, i: nat)
    requires Counts(nodes, pending) && i in nodes && nodes[i].nlink == 0
    ensures Named(nodes, i) == {} && pending[i] == 0 && EmptyDir(nodes[i].ents) && 0 !in nodes && i != ROOTINO
  {
    assert NodeOk(nodes, pending, i);
  }

  // ---------------------------------------------------------------- steps keep Inv

  lemma RootHeld(nodes: map<nat, Node>, pending: multiset<nat>)
    requires Counts(nodes, pending)
    ensures Live(nodes, ROOTINO)
  {
  }

  lemma LookupKept(s: Fs, d: nat, name: string)
    requires Ref(s, d) > 0 && d in s.nodes && Inv(s)
    ensures Inv(AfterLookup(s, d, name))
  {
    hide Counts, Rooted;
    if LiveDir(s.nodes, d) {
      FoundLive(s.nodes, s.pending, d, name);
    }
  }

  lemma PutKept(s: Fs, i: nat)
    requires Ref(s, i) > 0 && i in s.nodes && Inv(s)
    ensures Inv(AfterPut(s, i))
  {
    hide Counts, Rooted;
    var s' := AfterPut(s, i);
    if Ref(s, i) == 1 && i in s.valid && s.nodes[i].nlink == 0 {
      DeadFacts(s.nodes, s.pending, i);
      GoneCounts(s.nodes, s.pending, s'.nodes, i);
      GoneRooted(s.nodes, s'.nodes, s.depth, i);
    }
  }

  lemma GoneRooted(nodes: map<nat, Node>, nodes': map<nat, Node>, depth: map<nat, nat>, i: nat)
    requires Rooted(nodes, depth) && Gone(nodes, nodes', i)
    ensures Rooted(nodes', depth)
  {
    hide Named;
  }

  lemma FreeKept(s: Fs, i: nat)
    requires i in s.freeing && Inv(s)
    ensures Inv(s.(nodes := s.nodes - {i}, freeing := s.freeing - {i}))
  {
    hide Counts, Rooted;
    DeadFacts(s.nodes, s.pending, i);
    GoneCounts(s.nodes, s.pending, s.nodes - {i}, i);
    GoneRooted(s.nodes, s.nodes - {i}, s.depth, i);
  }

  lemma LinkEnterKept(s: Fs, d: nat, name: string, i: nat, space: bool)
    requires HeldDir(s, d) && i in s.pending && i in s.nodes && Inv(s)
    ensures Inv(AfterLinkEnter(s, d, name, i, space))
  {
    hide Counts, Rooted, Enter, Find, FreeSlot;
    if s.nodes[d].nlink > 0 && Enters(s.nodes[d].ents, name, space) {
      FileFacts(s.nodes, s.pending, i);
      ZeroFree(s.nodes, s.pending);
      EnterSlot(s.nodes, s.pending, d, name, i);
      LinkEnterCounts(s.nodes, s.pending, d, name, i);
      EnterRooted(s.nodes, s.depth, d, Enter(s.nodes[d].ents, name, i), s.nodes[d].nlink);
    }
  }

  lemma ZeroFree(nodes: map<nat, Node>, pending: multiset<nat>)
    requires Counts(nodes, pending)
    ensures 0 !in nodes && LiveDir(nodes, ROOTINO)
  {
  }

  lemma EnterRooted(nodes: map<nat, Node>, depth: map<nat, nat>, d: nat, e: seq<Dirent>, n: nat)
    requires Rooted(nodes, depth) && LiveDir(nodes, d) && n > 0
    requires |e| >= 2 && |nodes[d].ents| >= 2 && e[1] == nodes[d].ents[1]
    ensures Rooted(nodes[d := nodes[d].(ents := e, nlink := n)], depth)
  {
  }

  /** Why sys_unlink's panics cannot happen: what dirlookup finds under a name other
      than "." and ".." is another, linked inode, and the directory is linked. */
  lemma UnlinkFinds(nodes: map<nat, Node>, pending: multiset<nat>, d: nat, name: string)
    requires Counts(nodes, pending) && d in nodes && nodes[d].kind.Dir? && !IsDots(name) && Find(nodes[d].ents, name) >= 0
    ensures var p := Find(nodes[d].ents, name);
            var i := nodes[d].ents[p].inum;
            p >= 2 && LiveDir(nodes, d) && Live(nodes, i) && i != d && 0 !in nodes
  {
    assert NodeOk(nodes, pending, d);
    if nodes[d].nlink > 0 {
      FoundLive(nodes, pending, d, name);
    }
  }

  /** The directory and the found inode are both held and valid when counts change. */
  lemma UnlinkLifetime(s: Fs, d: nat, i: nat, nodes': map<nat, Node>)
    requires Lifetime(s) && Ref(s, d) > 0 && Live(s.nodes, i) && d in s.nodes
    requires nodes'.Keys == s.nodes.Keys && nodes'[d].nlink > 0
    requires forall k :: k in s.nodes && k != d && k != i ==> nodes'[k].nlink == s.nodes[k].nlink
    ensures Lifetime(Lock(AddRef(Lock(s, d), i), i).(nodes := nodes'))
  {
  }

  lemma LookedUp(s: Fs, d: nat, i: nat)
    requires Lifetime(s) && Ref(s, d) > 0 && Live(s.nodes, i)
    ensures Lifetime(Lock(s, d)) && Lifetime(Lock(AddRef(Lock(s, d), i), i))
  {
  }

  lemma UnlinkKept(s: Fs, d: nat, name: string)
    requires HeldDir(s, d) && Inv(s)
    ensures Inv(AfterUnlink(s, d, name))
  {
    hide Counts, Rooted, Lifetime, Find;
    var e := s.nodes[d].ents;
    LockKept(s, d);
    if !IsDots(name) && Find(e, name) >= 0 {
      UnlinkFinds(s.nodes, s.pending, d, name);
      var p := Find(e, name);
      var i := e[p].inum;
      LookedUp(s, d, i);
      if Unlinkable(s, i) {
        var nodes' := Unlinked(s.nodes, d, p);
        assert Erased(s.nodes, nodes', d, p, i);
        EraseCounts(s.nodes, s.pending, nodes', d, p, i);
        EraseRooted(s.nodes, nodes', s.depth, d, p, i);
        DirStays(s.nodes, s.pending, nodes', d, p, i);
        UnlinkLifetime(s, d, i, nodes');
      }
    }
  }

  lemma EraseRooted(nodes: map<nat, Node>, nodes': map<nat, Node>, depth: map<nat, nat>, d: nat, p: nat, i: nat)
    requires Rooted(nodes, depth) && Erased(nodes, nodes', d, p, i)
    ensures Rooted(nodes', depth)
  {
  }

  lemma ParentOfDir(nodes: map<nat, Node>, pending: multiset<nat>, d: nat, p: nat)
    requires LiveDir(nodes, d) && 2 <= p < |nodes[d].ents| && Counts(nodes, pending)
    ensures nodes[d].ents[p].inum in nodes && nodes[nodes[d].ents[p].inum].kind.Dir? ==> nodes[d].nlink >= 2
  {
    assert NodeOk(nodes, pending, d) && DirOk(nodes, d);
    assert nodes[d].ents[p].inum in nodes && nodes[nodes[d].ents[p].inum].kind.Dir? ==> p in Subdirs(nodes, d);
  }

  lemma DirStays(nodes: map<nat, Node>, pending: multiset<nat>, nodes': map<nat, Node>, d: nat, p: nat, i: nat)
    requires Counts(nodes, pending) && LiveDir(nodes, d) && Erased(nodes, nodes', d, p, i)
    ensures nodes'[d].nlink > 0
  {
    assert NodeOk(nodes, pending, d) && DirOk(nodes, d);
    SubdirsErase(nodes, nodes', d, p, i, d);
  }

  lemma CreateLifetime(s: Fs, d: nat, i: nat, nodes': map<nat, Node>, depth': map<nat, nat>)
    requires Lifetime(s) && Ref(s, d) > 0 && Live(s.nodes, d) && i !in s.nodes
    requires nodes'.Keys == s.nodes.Keys + {i} && nodes'[d].nlink > 0
    requires forall k :: k in s.nodes && k != d ==> nodes'[k].nlink == s.nodes[k].nlink
    ensures Lifetime(Lock(AddRef(Lock(s, d), i), i).(nodes := nodes'))
    ensures Lifetime(Lock(AddRef(Lock(s, d), i), i).(nodes := nodes', depth := depth'))
  {
  }

  lemma CreateKept(s: Fs, d: nat, name: string, kind: Kind, inum: nat, dot: bool, dotdot: bool, space: bool)
    requires HeldDir(s, d) && inum > 0 && inum !in s.nodes && Inv(s)
    ensures Inv(AfterCreate(s, d, name, kind, inum, dot, dotdot, space))
  {
    hide Counts, Rooted, Enter, FreeSlot, Find, Lifetime, Bare, Enters;
    var n := s.nodes[d];
    LockKept(s, d);
    if n.nlink > 0 && !(kind.Dir? && n.nlink >= NLINK_MAX) {
      FoundLive(s.nodes, s.pending, d, name);
      if Find(n.ents, name) >= 0 {
        LookedUp(s, d, n.ents[Find(n.ents, name)].inum);
      } else {
        CreateNew(s, d, name, kind, inum, dot, dotdot, space);
      }
    }
  }

  lemma CreateNew(s: Fs, d: nat, name: string, kind: Kind, inum: nat, dot: bool, dotdot: bool, space: bool)
    requires HeldDir(s, d) && inum > 0 && inum !in s.nodes && Inv(s)
    requires LiveDir(s.nodes, d) && !(kind.Dir? && s.nodes[d].nlink >= NLINK_MAX) && Find(s.nodes[d].ents, name) < 0
    ensures Inv(AfterCreate(s, d, name, kind, inum, dot, dotdot, space))
  {
    hide Counts, Rooted, Enter, FreeSlot, Find, Lifetime, Bare;
    var n := s.nodes[d];
    var s' := AfterCreate(s, d, name, kind, inum, dot, dotdot, space);
    var ents := NewEnts(kind, d, inum, dot, dotdot);
    if (kind.Dir? ==> dot && dotdot) && Enters(n.ents, name, space) {
      CreateCounts(s.nodes, s.pending, d, name, kind, inum, ents);
      CreateRooted(s.nodes, s.pending, s.depth, d, name, kind, inum, ents);
    } else {
      var dead := Node(kind, 0, ents);
      NewBare(kind, d, inum, dot, dotdot);
      AddDeadCounts(s.nodes, s.pending, inum, dead);
      DeadRooted(s.nodes, s.depth, inum, dead);
    }
    CreateLifetime(s, d, inum, s'.nodes, s'.depth);
  }

  lemma NewBare(kind: Kind, d: nat, inum: nat, dot: bool, dotdot: bool)
    ensures var e := NewEnts(kind, d, inum, dot, dotdot); Bare(e) && |e| <= 2
  {
  }

  lemma CreateCounts(nodes: map<nat, Node>, pending: multiset<nat>,
                     d: nat, name: string, kind: Kind, inum: nat, ents: seq<Dirent>)
    requires LiveDir(nodes, d) && inum > 0 && inum !in nodes && Counts(nodes, pending)
    requires Find(nodes[d].ents, name) < 0 && (kind.Dir? ==> nodes[d].nlink < NLINK_MAX)
    requires ents == if kind.Dir? then [Dirent(inum, "."), Dirent(d, "..")] else []
    ensures Counts(Created(nodes, d, name, inum, Node(kind, 1, ents)), pending)
  {
    hide Counts, Enter, FreeSlot, Find, UniqueNames, Named;
    var n := nodes[d];
    var nodes1 := nodes[inum := Node(kind, 0, ents)];
    var nodes' := Created(nodes, d, name, inum, Node(kind, 1, ents));
    ZeroFree(nodes, pending);
    LinkBound(nodes, pending, d);
    AddDeadCounts(nodes, pending, inum, Node(kind, 0, ents));
    EnterSlot(nodes1, pending, d, name, inum);
    assert Adopted(nodes1, nodes', d, FreeSlot(n.ents), inum);
    AdoptCounts(nodes1, pending, nodes', d, FreeSlot(n.ents), inum);
  }

  lemma CreateRooted(nodes: map<nat, Node>, pending: multiset<nat>, depth: map<nat, nat>,
                     d: nat, name: string, kind: Kind, inum: nat, ents: seq<Dirent>)
    requires LiveDir(nodes, d) && inum > 0 && inum !in nodes && Find(nodes[d].ents, name) < 0
    requires Counts(nodes, pending) && Rooted(nodes, depth)
    requires ents == if kind.Dir? then [Dirent(inum, "."), Dirent(d, "..")] else []
    ensures Rooted(Created(nodes, d, name, inum, Node(kind, 1, ents)), Deeper(depth, d, inum))
  {
    hide Counts, Rooted, Enter, FreeSlot, Find, UniqueNames, Deeper;
    ZeroFree(nodes, pending);
    EnterSlot(nodes, pending, d, name, inum);
    ParentsLive(nodes, pending);
    AdoptRooted(nodes, depth, d, inum, ents, Created(nodes, d, name, inum, Node(kind, 1, ents)));
  }

  lemma ParentsLive(nodes: map<nat, Node>, pending: multiset<nat>)
    requires Counts(nodes, pending)
    ensures forall k :: LiveDir(nodes, k) ==> |nodes[k].ents| >= 2 && LiveDir(nodes, nodes[k].ents[1].inum)
  {
    forall k | LiveDir(nodes, k)
      ensures |nodes[k].ents| >= 2 && LiveDir(nodes, nodes[k].ents[1].inum)
    {
      ParentFacts(nodes, pending, k);
    }
  }

  lemma LinkBound(nodes: map<nat, Node>, pending: multiset<nat>, d: nat)
    requires Counts(nodes, pending) && d in nodes
    ensures nodes[d].nlink <= NLINK_MAX
  {
    assert NodeOk(nodes, pending, d);
  }

  lemma AdoptRooted(nodes: map<nat, Node>, depth: map<nat, nat>, d: nat, inum: nat, ents: seq<Dirent>, nodes': map<nat, Node>)
    requires Rooted(nodes, depth) && LiveDir(nodes, d) && inum > 0 && inum !in nodes && LiveDir(nodes, ROOTINO)
    requires nodes'.Keys == nodes.Keys + {inum} && nodes'[inum].ents == ents
    requires nodes'[inum].kind.Dir? ==> ents == [Dirent(inum, "."), Dirent(d, "..")]
    requires forall k :: k in nodes && k != d ==> nodes'[k] == nodes[k]
    requires nodes'[d].kind.Dir? && |nodes'[d].ents| >= 2 && nodes'[d].ents[1] == nodes[d].ents[1]
    requires forall k :: LiveDir(nodes, k) ==> |nodes[k].ents| >= 2 && LiveDir(nodes, nodes[k].ents[1].inum)
    ensures Rooted(nodes', Deeper(depth, d, inum))
  {
    var depth' := Deeper(depth, d, inum);
    forall i | LiveDir(nodes', i)
      ensures RootedAt(nodes'[i].ents, depth', i)
    {
      if i != inum {
        assert i in nodes && (i == d || nodes'[i] == nodes[i]) && LiveDir(nodes, i);
        assert nodes'[i].ents[1] == nodes[i].ents[1];
      } else {
        assert RootedAt(nodes[d].ents, depth, d);
      }
    }
  }

  lemma DeadRooted(nodes: map<nat, Node>, depth: map<nat, nat>, x: nat, n: Node)
    requires Rooted(nodes, depth) && x !in nodes && n.nlink == 0
    ensures Rooted(nodes[x := n], depth)
  {
  }

  lemma InvKept(s: Fs, step: Step)
    requires CanStep(s, step) && Inv(s)
    ensures Inv(Do(s, step))
  {
    hide Inv, AfterLookup, AfterPut, AfterLinkBump, AfterLinkEnter, AfterLinkUndo, AfterUnlink, AfterCreate;
    match step
    case GetRoot => RefKept(s, ROOTINO);
    case Dup(i) => RefKept(s, i);
    case Ilock(i) => IlockKept(s, i);
    case Lookup(d, name) => LookupKept(s, d, name);
    case Put(i) => PutKept(s, i);
    case Free(i) => FreeKept(s, i);
    case LinkBump(i) => LinkBumpKept(s, i);
    case LinkEnter(d, name, i, space) => LinkEnterKept(s, d, name, i, space);
    case LinkUndo(i) => LinkUndoKept(s, i);
    case Unlink(d, name) => UnlinkKept(s, d, name);
    case Create(d, name, kind, inum, dot, dotdot, space) => CreateKept(s, d, name, kind, inum, dot, dotdot, space);
  }

  lemma IlockKept(s: Fs, i: nat)
    requires Ref(s, i) > 0 && Inv(s)
    ensures Inv(Lock(s, i))
  {
    hide Counts, Rooted;
  }

  lemma RefKept(s: Fs, i: nat)
    requires (i == ROOTINO || Ref(s, i) > 0) && Inv(s)
    ensures Inv(AddRef(s, i))
  {
    hide Counts, Rooted;
    RootHeld(s.nodes, s.pending);
  }

  // ---------------------------------------------------------------- whole runs

  /** A freshly formatted tree. */
  function FreshTree(): Fs {
    Fs(map[ROOTINO := Node(Dir, 1, [Dirent(ROOTINO, "."), Dirent(ROOTINO, "..")])],
       map[], {}, {}, multiset{}, map[ROOTINO := 0])
  }

  lemma FreshInv()
    ensures Inv(FreshTree())
  {
    var nodes := FreshTree().nodes;
    assert Named(nodes, ROOTINO) == {} && Subdirs(nodes, ROOTINO) == {};
  }

  ghost predicate IsRun(run: seq<Fs>, steps: seq<Step>) {
    && |run| == |steps| + 1
    && Inv(run[0])
    && forall i {:trigger steps[i]} :: 0 <= i < |steps| ==> CanStep(run[i], steps[i]) && run[i + 1] == Do(run[i], steps[i])
  }

  lemma {:induction false} RunInv(run: seq<Fs>, steps: seq<Step>, k: nat)
    requires k < |run| && IsRun(run, steps)
    ensures Inv(run[k])
  {
    hide Inv, Do, CanStep;
    if k > 0 {
      RunInv(run, steps, k - 1);
      InvKept(run[k - 1], steps[k - 1]);
    }
  }

  /** Link counts, in every state of every run of lookups, links, unlinks, creations
      and releases, whatever fails on the way: a file's count is the number of
      directory slots that name it plus the links not yet entered; a linked
      directory's is one plus its subdirectories, and exactly one slot, in its parent,
      names it (none names the root).  No count overflows a short. */
  lemma LinkCounts(run: seq<Fs>, steps: seq<Step>, k: nat, i: nat)
    requires k < |run| && IsRun(run, steps) && i in run[k].nodes
    ensures var s := run[k]; var n := s.nodes[i];
            && n.nlink <= NLINK_MAX
            && (!n.kind.Dir? ==> n.nlink == |Named(s.nodes, i)| + s.pending[i])
            && (n.kind.Dir? && n.nlink > 0 ==>
                  && n.nlink == 1 + |Subdirs(s.nodes, i)| && UniqueNames(n.ents)
                  && |Named(s.nodes, i)| == (if i == ROOTINO then 0 else 1)
                  && |n.ents| >= 2 && forall x :: x in Named(s.nodes, i) ==> x.0 == n.ents[1].inum)
            && (n.nlink == 0 ==> Named(s.nodes, i) == {})
  {
    RunInv(run, steps, k);
    hide IsRun, Rooted, Lifetime;
    assert NodeOk(run[k].nodes, run[k].pending, i);
    if LiveDir(run[k].nodes, i) {
      assert DirOk(run[k].nodes, i);
    }
  }

  /** No dangling names: a used slot of a linked directory, ".." included, and a held
      reference always name an allocated inode, and the slot's is still linked. */
  lemma NoDangling(run: seq<Fs>, steps: seq<Step>, k: nat, d: nat, p: nat)
    requires k < |run| && IsRun(run, steps)
    ensures LiveDir(run[k].nodes, d) && p < |run[k].nodes[d].ents| && run[k].nodes[d].ents[p].inum != 0 ==>
              Live(run[k].nodes, run[k].nodes[d].ents[p].inum)
    ensures forall i :: Ref(run[k], i) > 0 ==> i in run[k].nodes && i !in run[k].freeing
  {
    RunInv(run, steps, k);
    hide IsRun, Counts;
    if LiveDir(run[k].nodes, d) {
      EntriesLive(run[k].nodes, run[k].pending, d);
    }
  }

  lemma EntriesLive(nodes: map<nat, Node>, pending: multiset<nat>, d: nat)
    requires LiveDir(nodes, d) && Counts(nodes, pending)
    ensures forall p :: 0 <= p < |nodes[d].ents| && nodes[d].ents[p].inum != 0 ==> Live(nodes, nodes[d].ents[p].inum)
  {
    hide Named, Subdirs, UniqueNames;
    assert NodeOk(nodes, pending, d) && DirOk(nodes, d);
  }

  /** An inode disappears only in an ifree whose last link, last pending link and last
      reference are gone; and once they are gone nothing but that ifree is left. */
  lemma FreedExactly(run: seq<Fs>, steps: seq<Step>, k: nat, i: nat)
    requires k < |steps| && IsRun(run, steps) && i in run[k].nodes
    ensures i !in run[k + 1].nodes ==>
              && steps[k] == Free(i) && run[k].nodes[i].nlink == 0 && Ref(run[k], i) == 0
              && Named(run[k].nodes, i) == {} && run[k].pending[i] == 0
    ensures run[k].nodes[i].nlink == 0 && Ref(run[k], i) == 0 ==> CanStep(run[k], Free(i))
  {
    RunInv(run, steps, k);
    KeysKept(run[k], steps[k]);
    if run[k].nodes[i].nlink == 0 {
      DeadFacts(run[k].nodes, run[k].pending, i);
    }
  }

  lemma KeysKept(s: Fs, step: Step)
    requires CanStep(s, step)
    ensures forall i :: i in s.nodes && i !in Do(s, step).nodes ==> step == Free(i)
  {
    hide Find, FreeSlot, Enter, Enters, NewEnts;
  }

  function Parent(nodes: map<nat, Node>, i: nat): nat {
    if i in nodes && |nodes[i].ents| >= 2 then nodes[i].ents[1].inum else 0
  }

  /** Following ".." n times. */
  function Climb(nodes: map<nat, Node>, i: nat, n: nat): nat
    decreases n
  {
    if n == 0 then i else Climb(nodes, Parent(nodes, i), n - 1)
  }

  lemma {:induction false} ClimbToRoot(s: Fs, i: nat, n: nat)
    requires LiveDir(s.nodes, i) && Inv(s)
    ensures i in s.depth
    ensures n <= s.depth[i] ==> LiveDir(s.nodes, Climb(s.nodes, i, n))
    ensures n == s.depth[i] ==> Climb(s.nodes, i, n) == ROOTINO
    decreases n
  {
    hide Inv, Parent;
    ClimbOne(s, i);
    if n > 0 && i != ROOTINO {
      ClimbToRoot(s, Parent(s.nodes, i), n - 1);
    }
  }

  /** The directories form a tree: from every linked directory ".." leads through
      linked directories to the root. */
  lemma AllRooted(run: seq<Fs>, steps: seq<Step>, k: nat, i: nat, n: nat)
    requires k < |run| && IsRun(run, steps) && LiveDir(run[k].nodes, i)
    ensures i in run[k].depth
    ensures n <= run[k].depth[i] ==> LiveDir(run[k].nodes, Climb(run[k].nodes, i, n))
    ensures n == run[k].depth[i] ==> Climb(run[k].nodes, i, n) == ROOTINO
  {
    RunInv(run, steps, k);
    hide Inv, IsRun;
    ClimbToRoot(run[k], i, n);
  }

  lemma ClimbOne(s: Fs, i: nat)
    requires Inv(s) && LiveDir(s.nodes, i)
    ensures i in s.depth && (s.depth[i] == 0 <==> i == ROOTINO)
    ensures i != ROOTINO ==>
              var p := Parent(s.nodes, i); LiveDir(s.nodes, p) && p in s.depth && s.depth[i] == s.depth[p] + 1
  {
    hide Counts;
    ParentFacts(s.nodes, s.pending, i);
  }
}
