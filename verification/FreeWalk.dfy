/** Tearing a page table down (freewalk, uvmfree, proc_freepagetable): every table page
    and every user page goes back to the free list once. */
module FreeWalk {
  import opened Basics
  import opened PageTree
  import opened Vm

  /** k is h or lies below it. */
  predicate Under(k: Home, h: Home)
    decreases h.level - k.level
  {
    k == h || (k.level < h.level && Under(Up(k), h))
  }

  /** The entry of h through which k, strictly below h, is reached. */
  function Branch(k: Home, h: Home): nat
    requires k.level < h.level
    decreases h.level - k.level
  {
    if k.level + 1 == h.level then k.prefix % ENTRIES else Branch(Up(k), h)
  }

  lemma {:induction false} UnderChild(k: Home, h: Home, i: nat)
    requires h.level > 0 && i < ENTRIES
    ensures Under(k, Down(h, i)) <==> Under(k, h) && k.level < h.level && Branch(k, h) == i
    decreases h.level - k.level
  {
    if k.level < h.level {
      if k.level + 1 == h.level {
        assert Under(k, h) <==> Up(k) == h;
        assert Up(k) == h && k.prefix % ENTRIES == i <==> k == Down(h, i);
      } else {
        UnderChild(Up(k), h, i);
      }
    }
  }

  lemma {:induction false} UnderLevel(k: Home, h: Home)
    ensures Under(k, h) ==> k.level <= h.level && (k.level == h.level ==> k == h)
    decreases h.level - k.level
  {
    if k.level < h.level {
      UnderLevel(Up(k), h);
    }
  }

  /** Linked but for the slot that leads to x. */
  ghost predicate LinkedBut(tables: map<nat, Table>, nm: Names, x: Home) {
    forall h, i: nat :: h in nm.at && nm.at[h] in tables && h.level > 0 && i < ENTRIES && Down(h, i) != x ==>
      (tables[nm.at[h]][i].v <==> Down(h, i) in nm.at)
      && (tables[nm.at[h]][i].v ==> tables[nm.at[h]][i] == Pointer(nm.at[Down(h, i)]))
  }

  /** pagetable[i] = 0, once the table it led to is gone. */
  lemma ClearSlot(tables: map<nat, Table>, nm: Names, h: Home, i: nat)
    requires h in nm.at && nm.at[h] in tables && h.level > 0 && i < ENTRIES && Down(h, i) !in nm.at
    requires NamesOk(tables, nm) && LinkedBut(tables, nm, Down(h, i))
    ensures Tree(tables[nm.at[h] := tables[nm.at[h]][i := NoPte()]], nm)
  {
    var t := nm.at[h];
    var tables' := tables[t := tables[t][i := NoPte()]];
    forall k, j: nat | k in nm.at && nm.at[k] in tables' && k.level > 0 && j < ENTRIES
      ensures (tables'[nm.at[k]][j].v <==> Down(k, j) in nm.at)
              && (tables'[nm.at[k]][j].v ==> tables'[nm.at[k]][j] == Pointer(nm.at[Down(k, j)]))
    {
      DownUp(k, j);
      DownUp(h, i);
    }
  }

  function Drop(nm: Names, h: Home): Names
    requires h in nm.at
  {
    Names(nm.at - {h}, nm.home - {nm.at[h]})
  }

  lemma UpDown(k: Home)
    requires k.level < 2
    ensures Down(Up(k), k.prefix % ENTRIES) == k
  {
  }

  /** A table without children can go. */
  lemma DropTop(tables: map<nat, Table>, nm: Names, h: Home)
    requires h in nm.at && nm.at[h] in tables && Tree(tables, nm)
    requires h.level > 0 ==> forall i :: 0 <= i < ENTRIES ==> !tables[nm.at[h]][i].v
    ensures NamesOk(tables - {nm.at[h]}, Drop(nm, h)) && LinkedBut(tables - {nm.at[h]}, Drop(nm, h), h)
    ensures h.level == 2 ==> Linked(tables - {nm.at[h]}, Drop(nm, h))
  {
    var nm' := Drop(nm, h);
    forall k | k in nm'.at && k.level < 2
      ensures Up(k) in nm'.at
    {
      UpDown(k);
    }
  }

  /** No leaf table below h maps anything. */
  ghost predicate Bare(tables: map<nat, Table>, nm: Names, h: Home) {
    forall k, j :: k in nm.at && nm.at[k] in tables && k.level == 0 && Under(k, h) && 0 <= j < ENTRIES ==>
      !tables[nm.at[k]][j].v
  }

  /** What is left: exactly the tables not under h, as they were. */
  ghost predicate Left(tables: map<nat, Table>, nm: Names, tables': map<nat, Table>, nm': Names, h: Home) {
    && (forall k :: k in nm'.at <==> k in nm.at && !Under(k, h))
    && (forall k :: k in nm'.at ==> nm'.at[k] == nm.at[k])
    && (forall t :: t in tables' ==> t in tables && tables'[t] == tables[t])
  }

  /** In the loop of freewalk over table h, before entry i. */
  ghost predicate Swept(tables: map<nat, Table>, nm: Names, tables': map<nat, Table>, nm': Names, h: Home, i: nat) {
    && h in nm.at && nm.at[h] in tables && h in nm'.at && nm.at[h] in tables'
    && (forall k :: k in nm'.at <==> k in nm.at && !(Under(k, h) && k.level < h.level && Branch(k, h) < i))
    && (forall k :: k in nm'.at ==> nm'.at[k] == nm.at[k])
    && (forall t :: t in tables' ==> t in tables && (t != nm.at[h] ==> tables'[t] == tables[t]))
    && (forall j :: 0 <= j < i && j < ENTRIES ==> !tables'[nm.at[h]][j].v)
    && (forall j :: i <= j < ENTRIES ==> tables'[nm.at[h]][j] == tables[nm.at[h]][j])
  }

  lemma SweptStart(tables: map<nat, Table>, nm: Names, h: Home)
    requires h in nm.at && nm.at[h] in tables
    ensures Swept(tables, nm, tables, nm, h, 0)
  {
  }

  lemma {:induction false} UpClosed(tables: map<nat, Table>, nm: Names, k: Home, d: Home)
    requires NamesOk(tables, nm) && k in nm.at && Under(k, d) && d.level <= 2
    ensures d in nm.at
    decreases d.level - k.level
  {
    if k != d {
      UpClosed(tables, nm, Up(k), d);
    }
  }

  /** A valid entry of a table without leaves leads to a table. */
  lemma EntryKind(tables: map<nat, Table>, nm: Names, h: Home, i: nat)
    requires h in nm.at && nm.at[h] in tables && i < ENTRIES && Tree(tables, nm) && Bare(tables, nm, h)
    ensures tables[nm.at[h]][i].v ==>
              h.level > 0 && Down(h, i) in nm.at && tables[nm.at[h]][i] == Pointer(nm.at[Down(h, i)])
              && nm.at[Down(h, i)] in tables
  {
    assert Under(h, h);
  }

  lemma SweptSkip(t0: map<nat, Table>, n0: Names, tables: map<nat, Table>, nm: Names, h: Home, i: nat)
    requires i < ENTRIES && Swept(t0, n0, tables, nm, h, i) && Tree(tables, nm) && !tables[n0.at[h]][i].v
    ensures Swept(t0, n0, tables, nm, h, i + 1)
  {
    assert nm.at[h] == n0.at[h];
    forall k | k in nm.at
      ensures !(Under(k, h) && k.level < h.level && Branch(k, h) == i)
    {
      if k.level < h.level {
        UnderChild(k, h, i);
        if Under(k, Down(h, i)) {
          UpClosed(tables, nm, k, Down(h, i));
        }
      }
    }
  }

  lemma BareChild(tables: map<nat, Table>, nm: Names, h: Home, i: nat)
    requires h.level > 0 && i < ENTRIES && Bare(tables, nm, h)
    ensures Bare(tables, nm, Down(h, i))
  {
    forall k, j | k in nm.at && nm.at[k] in tables && k.level == 0 && Under(k, Down(h, i)) && 0 <= j < ENTRIES
      ensures !tables[nm.at[k]][j].v
    {
      UnderChild(k, h, i);
    }
  }

  lemma LeftParent(tA: map<nat, Table>, nA: Names, tB: map<nat, Table>, nB: Names, h: Home, i: nat)
    requires h in nA.at && h.level > 0 && i < ENTRIES && Left(tA, nA, tB, nB, Down(h, i)) && NamesOk(tB, nB)
    ensures h in nB.at && nB.at[h] == nA.at[h] && nB.at[h] in tB && Down(h, i) !in nB.at
  {
    UnderLevel(h, Down(h, i));
    assert Under(Down(h, i), Down(h, i));
  }

  lemma SweptNext(t0: map<nat, Table>, n0: Names, tA: map<nat, Table>, nA: Names, tB: map<nat, Table>, nB: Names,
                  h: Home, i: nat)
    requires h.level > 0 && i < ENTRIES && Swept(t0, n0, tA, nA, h, i) && Left(tA, nA, tB, nB, Down(h, i))
    requires h in nB.at && nB.at[h] in tB && Bare(tA, nA, h)
    ensures var tC := tB[nB.at[h] := tB[nB.at[h]][i := NoPte()]];
            Swept(t0, n0, tC, nB, h, i + 1) && Bare(tC, nB, h)
  {
    forall k | k in nA.at
      ensures Under(k, Down(h, i)) <==> Under(k, h) && k.level < h.level && Branch(k, h) == i
    {
      UnderChild(k, h, i);
    }
    var tC := tB[nB.at[h] := tB[nB.at[h]][i := NoPte()]];
    assert Swept(t0, n0, tC, nB, h, i + 1);
  }

  lemma SweptEmpty(t0: map<nat, Table>, n0: Names, tables: map<nat, Table>, nm: Names, h: Home)
    requires Swept(t0, n0, tables, nm, h, ENTRIES)
    ensures h in nm.at && nm.at[h] in tables && forall i :: 0 <= i < ENTRIES ==> !tables[nm.at[h]][i].v
  {
  }

  lemma {:induction false} BranchBound(k: Home, h: Home)
    requires k.level < h.level
    ensures Branch(k, h) < ENTRIES
    decreases h.level - k.level
  {
    if k.level + 1 != h.level {
      BranchBound(Up(k), h);
    }
  }

  lemma SweptLeft(t0: map<nat, Table>, n0: Names, tables: map<nat, Table>, nm: Names, h: Home)
    requires Swept(t0, n0, tables, nm, h, ENTRIES) && NamesOk(tables, nm)
    ensures h in nm.at && Left(t0, n0, tables - {nm.at[h]}, Drop(nm, h), h)
  {
    forall k | k in n0.at
      ensures k in nm.at && k != h <==> !Under(k, h)
    {
      UnderLevel(k, h);
      if k.level < h.level {
        BranchBound(k, h);
      }
    }
  }

  lemma PageMoves(all: set<nat>, free: seq<nat>, tables: set<nat>, user: set<nat>, other: set<nat>, t: nat)
    requires Parts(all, free, tables, user, other) && t in tables
    ensures Parts(all, [t] + free, tables - {t}, user, other)
  {
  }

  /** freewalk of table t, whose place is h; true is its panic. */
  method Freewalk(m: Memory, t: nat, ghost h: Home) returns (panic: bool)
    requires h in m.nm.at && m.nm.at[h] == t && t in m.tables && m.Whole() && Bare(m.tables, m.nm, h)
    modifies m`tables, m`nm, m`free, m`other
    ensures !panic && m.other == old(m.other)
    ensures Parts(m.all, m.free, m.tables.Keys, m.user.Keys, m.other)
    ensures NamesOk(m.tables, m.nm) && LinkedBut(m.tables, m.nm, h) && (h.level == 2 ==> Tree(m.tables, m.nm))
    ensures Left(old(m.tables), old(m.nm), m.tables, m.nm, h)
    decreases h.level, 0
  {
    hide NamesOk, Linked, LinkedBut, Parts, Bare, Left, Swept;
    var i := 0;
    SweptStart(m.tables, m.nm, h);
    while i < ENTRIES
      invariant i <= ENTRIES && m.Whole() && m.other == old(m.other) && h in m.nm.at && m.nm.at[h] == t && t in m.tables
      invariant Swept(old(m.tables), old(m.nm), m.tables, m.nm, h, i) && Bare(m.tables, m.nm, h)
    {
      var pte := m.tables[t][i];
      EntryKind(m.tables, m.nm, h, i);
      if pte.v && !(pte.f.r || pte.f.w || pte.f.x) {
        FreeChild(m, t, i, pte.ppn, h, old(m.tables), old(m.nm));
      } else if pte.v {
        return true;
      } else {
        SweptSkip(old(m.tables), old(m.nm), m.tables, m.nm, h, i);
      }
      i := i + 1;
    }
    SweptEmpty(old(m.tables), old(m.nm), m.tables, m.nm, h);
    DropTop(m.tables, m.nm, h);
    SweptLeft(old(m.tables), old(m.nm), m.tables, m.nm, h);
    PageMoves(m.all, m.free, m.tables.Keys, m.user.Keys, m.other, t);
    m.nm := Drop(m.nm, h);
    m.tables := m.tables - {t};
    m.free := [t] + m.free;
    return false;
  }

  /** One valid entry: free what it leads to, then clear it. */
  method FreeChild(m: Memory, t: nat, i: nat, c: nat, ghost h: Home, ghost t0: map<nat, Table>, ghost n0: Names)
    requires h in m.nm.at && m.nm.at[h] == t && t in m.tables && i < ENTRIES && h.level > 0 && m.Whole()
    requires Down(h, i) in m.nm.at && m.nm.at[Down(h, i)] == c && c in m.tables
    requires Swept(t0, n0, m.tables, m.nm, h, i) && Bare(m.tables, m.nm, h)
    modifies m`tables, m`nm, m`free, m`other
    ensures m.Whole() && m.other == old(m.other) && h in m.nm.at && m.nm.at[h] == t && t in m.tables
    ensures Swept(t0, n0, m.tables, m.nm, h, i + 1) && Bare(m.tables, m.nm, h)
    decreases h.level - 1, 1
  {
    hide NamesOk, Linked, LinkedBut, Parts, Bare, Left, Swept;
    BareChild(m.tables, m.nm, h, i);
    var panic := Freewalk(m, c, Down(h, i));
    assert !panic;
    LeftParent(old(m.tables), old(m.nm), m.tables, m.nm, h, i);
    ClearSlot(m.tables, m.nm, h, i);
    SweptNext(t0, n0, old(m.tables), old(m.nm), m.tables, m.nm, h, i);
    ghost var keys := m.tables.Keys;
    m.tables := m.tables[t := m.tables[t][i := NoPte()]];
    assert m.tables.Keys == keys;
  }

  // ---------------------------------------------------------------- whole page tables

  lemma {:induction false} UnderRoot(k: Home, r: nat)
    ensures Under(k, RootHome(r)) ==> k.root == r
    decreases 2 - k.level
  {
    if k.level < 2 {
      UnderRoot(Up(k), r);
    }
  }

  lemma {:induction false} RootCovers(tables: map<nat, Table>, nm: Names, k: Home)
    requires NamesOk(tables, nm) && k in nm.at
    ensures Under(k, RootHome(k.root))
    decreases 2 - k.level
  {
    if k.level < 2 {
      RootCovers(tables, nm, Up(k));
    }
  }

  lemma BareRoot(tables: map<nat, Table>, nm: Names, r: nat)
    requires forall v: nat :: !Leaf(tables, nm, r, v).v
    ensures Bare(tables, nm, RootHome(r))
  {
    forall k, j | k in nm.at && nm.at[k] in tables && k.level == 0 && Under(k, RootHome(r)) && 0 <= j < ENTRIES
      ensures !tables[nm.at[k]][j].v
    {
      UnderRoot(k, r);
      var v := k.prefix * ENTRIES + j;
      assert LeafHome(r, v) == k && v % ENTRIES == j;
      assert !Leaf(tables, nm, r, v).v;
    }
  }

  /** With root r's tables gone, r maps nothing and every other page table is whole. */
  lemma LeftLeaves(t0: map<nat, Table>, n0: Names, t1: map<nat, Table>, n1: Names, r: nat, q: nat, v: nat)
    requires Left(t0, n0, t1, n1, RootHome(r)) && NamesOk(t0, n0) && NamesOk(t1, n1)
    ensures Leaf(t1, n1, q, v) == if q == r then NoPte() else Leaf(t0, n0, q, v)
  {
    var k := LeafHome(q, v);
    UnderRoot(k, r);
    if k in n0.at {
      RootCovers(t0, n0, k);
    }
  }

  lemma LeftUser(t0: map<nat, Table>, n0: Names, t1: map<nat, Table>, n1: Names, user: map<nat, Va>, r: nat)
    requires Left(t0, n0, t1, n1, RootHome(r)) && NamesOk(t0, n0) && NamesOk(t1, n1) && UserOk(t0, n0, user)
    requires forall v: nat :: !Leaf(t0, n0, r, v).v
    ensures UserOk(t1, n1, user) && forall q: nat, v: nat :: q != r ==> Leaf(t1, n1, q, v) == Leaf(t0, n0, q, v)
    ensures forall k :: k in n1.at ==> k.root != r && k in n0.at
    ensures forall k :: k in n0.at && k.root != r ==> k in n1.at && n1.at[k] == n0.at[k]
  {
    hide Leaf, NamesOk;
    forall q: nat, v: nat
      ensures Leaf(t1, n1, q, v) == if q == r then NoPte() else Leaf(t0, n0, q, v)
    {
      LeftLeaves(t0, n0, t1, n1, r, q, v);
    }
    forall k | k in n0.at
      ensures Under(k, RootHome(r)) <==> k.root == r
    {
      UnderRoot(k, r);
      RootCovers(t0, n0, k);
    }
  }

  /** No page table other than r's has changed, and r's is gone with all its tables. */
  ghost predicate RootGone(t0: map<nat, Table>, n0: Names, t1: map<nat, Table>, n1: Names, r: nat) {
    && (forall q: nat, v: nat :: q != r ==> Leaf(t1, n1, q, v) == Leaf(t0, n0, q, v))
    && (forall k :: k in n1.at ==> k.root != r && k in n0.at)
    && (forall k :: k in n0.at && k.root != r ==> k in n1.at && n1.at[k] == n0.at[k])
  }

  lemma RootGoneTrans(t0: map<nat, Table>, nm: Names, t1: map<nat, Table>, t2: map<nat, Table>, n2: Names, r: nat, v: nat, n: nat)
    requires Unmaps(t0, nm, t1, nm, r, v, n) && RootGone(t1, nm, t2, n2, r)
    ensures RootGone(t0, nm, t2, n2, r)
  {
    hide Leaf;
    forall q: nat, w: nat | q != r
      ensures Leaf(t2, n2, q, w) == Leaf(t0, nm, q, w)
    {
      assert Leaf(t1, nm, q, w) == Leaf(t0, nm, q, w);
    }
  }

  /** uvmfree of a page table that maps nothing at or above sz. */
  method Uvmfree(m: Memory, r: nat, sz: nat) returns (panic: bool)
    requires RootHome(r) in m.nm.at && PgUp(sz) <= TRAPFRAME && m.Valid()
    requires forall v: nat :: Leaf(m.tables, m.nm, r, v).v ==> v < PgUp(sz)
    modifies m`tables, m`data, m`nm, m`free, m`user, m`other
    ensures !panic && m.Valid() && m.other == old(m.other)
    ensures RootGone(old(m.tables), old(m.nm), m.tables, m.nm, r)
    ensures m.user == UserWithout(old(m.user), r, 0, PgUp(sz)) && SameData(old(m.data), m.data)
  {
    hide NamesOk, Linked, Leaf, Parts, UserOk, Bare, Left;
    if sz > 0 {
      m.Uvmunmap(r, 0, PgUp(sz), true);
    } else {
      assert PgUp(0) == 0;
      UnmapsNothing(m.tables, m.nm, r, 0);
      assert UserWithout(m.user, r, 0, 0) == m.user;
    }
    ghost var t1 := m.tables;
    Nothing(old(m.tables), m.nm, t1, r, PgUp(sz));
    BareRoot(m.tables, m.nm, r);
    RootNamed(m.tables, m.nm, r);
    panic := Freewalk(m, r, RootHome(r));
    LeftUser(t1, old(m.nm), m.tables, m.nm, m.user, r);
    RootGoneTrans(old(m.tables), old(m.nm), t1, m.tables, m.nm, r, 0, PgUp(sz));
  }

  lemma Nothing(t0: map<nat, Table>, nm: Names, t1: map<nat, Table>, r: nat, n: nat)
    requires Unmaps(t0, nm, t1, nm, r, 0, n) && forall v: nat :: Leaf(t0, nm, r, v).v ==> v < n
    ensures forall v: nat :: !Leaf(t1, nm, r, v).v
  {
    hide Leaf;
  }

  /** proc_freepagetable: the trampoline and trapframe are let go, every user page below
      sz and every table page of r returns to the free list, and freewalk's panic is
      unreachable. */
  method ProcFreepagetable(m: Memory, r: nat, sz: nat) returns (panic: bool)
    requires RootHome(r) in m.nm.at && PgUp(sz) <= TRAPFRAME && m.Valid()
    requires forall v: nat :: Leaf(m.tables, m.nm, r, v).v ==> v < PgUp(sz) || v == TRAMPOLINE || v == TRAPFRAME
    modifies m`tables, m`data, m`nm, m`free, m`user, m`other
    ensures !panic && m.Valid() && m.other == old(m.other)
    ensures RootGone(old(m.tables), old(m.nm), m.tables, m.nm, r)
    ensures m.user == UserWithout(old(m.user), r, 0, PgUp(sz)) && SameData(old(m.data), m.data)
  {
    hide NamesOk, Linked, Leaf, Parts, UserOk;
    TopUnowned(m.tables, m.nm, m.user, r, TRAMPOLINE, 1);
    m.Uvmunmap(r, TRAMPOLINE, 1, false);
    ghost var t1 := m.tables;
    TopUnowned(m.tables, m.nm, m.user, r, TRAPFRAME, 1);
    m.Uvmunmap(r, TRAPFRAME, 1, false);
    ghost var t2 := m.tables;
    OnlyUser(old(m.tables), m.nm, t1, t2, r, PgUp(sz));
    panic := Uvmfree(m, r, sz);
    RootGoneTrans(t1, old(m.nm), t2, m.tables, m.nm, r, TRAPFRAME, 1);
    RootGoneTrans(old(m.tables), old(m.nm), t1, m.tables, m.nm, r, TRAMPOLINE, 1);
  }

  lemma OnlyUser(t0: map<nat, Table>, nm: Names, t1: map<nat, Table>, t2: map<nat, Table>, r: nat, n: nat)
    requires Unmaps(t0, nm, t1, nm, r, TRAMPOLINE, 1) && Unmaps(t1, nm, t2, nm, r, TRAPFRAME, 1)
    requires forall v: nat :: Leaf(t0, nm, r, v).v ==> v < n || v == TRAMPOLINE || v == TRAPFRAME
    ensures forall v: nat :: Leaf(t2, nm, r, v).v ==> v < n
  {
    hide Leaf;
  }

  /** uvmcreate. */
  method Uvmcreate(m: Memory) returns (r: Option<nat>)
    requires m.Valid()
    modifies m`tables, m`nm, m`free, m`other
    ensures m.Valid() && m.other == old(m.other)
    ensures r.None? ==> m.tables == old(m.tables) && m.nm == old(m.nm) && m.free == []
    ensures r.Some? ==> RootHome(r.value) in m.nm.at && NewRoot(old(m.tables), old(m.nm), m.tables, m.nm, r.value)
    ensures r.Some? ==> forall k :: k in old(m.nm).at ==> k.root != r.value
  {
    hide NamesOk, Linked, Leaf, UserOk;
    var c := m.Kalloc();
    if c.None? {
      return None;
    }
    AddRoot(m.tables, m.nm, c.value);
    NewRootUser(m.tables, m.nm, m.user, c.value);
    m.nm := Name(m.nm, RootHome(c.value), c.value);
    m.tables := m.tables[c.value := EmptyTable()];
    m.other := m.other - {c.value};
    assert m.tables.Keys == old(m.tables).Keys + {c.value};
    return Some(c.value);
  }

  /** Page table r exists and maps nothing; no other has changed. */
  ghost predicate NewRoot(t0: map<nat, Table>, n0: Names, t1: map<nat, Table>, n1: Names, r: nat) {
    && (forall k :: k in n0.at ==> k in n1.at && n1.at[k] == n0.at[k])
    && GrowsAt(n0, n1, r)
    && (forall q: nat, v: nat :: q != r ==> Leaf(t1, n1, q, v) == Leaf(t0, n0, q, v))
    && (forall v: nat :: !Leaf(t1, n1, r, v).v)
  }

  lemma NewRootUser(tables: map<nat, Table>, nm: Names, user: map<nat, Va>, c: nat)
    requires Tree(tables, nm) && UserOk(tables, nm, user) && c !in tables
    requires var t1, n1 := tables[c := EmptyTable()], Name(nm, RootHome(c), c);
             && (forall q, v: nat :: Leaf(t1, n1, q, v) == Leaf(tables, nm, q, v))
             && (forall h :: h in nm.at ==> h.root != c)
    ensures var t1, n1 := tables[c := EmptyTable()], Name(nm, RootHome(c), c);
            UserOk(t1, n1, user) && NewRoot(tables, nm, t1, n1, c)
  {
    hide Linked, NamesOk;
    assert forall v: nat :: LeafHome(c, v) !in nm.at;
  }

  /** Page table r maps the trampoline and a trapframe page, without PTE_U, and nothing else. */
  ghost predicate FreshProc(tables: map<nat, Table>, nm: Names, r: nat, trampoline: nat, trapframe: nat) {
    && RootHome(r) in nm.at
    && Leaf(tables, nm, r, TRAMPOLINE) == Pte(true, trampoline, Flags(true, false, true, false))
    && Leaf(tables, nm, r, TRAPFRAME) == Pte(true, trapframe, Flags(true, true, false, false))
    && forall v: nat :: Leaf(tables, nm, r, v).v ==> v == TRAMPOLINE || v == TRAPFRAME
  }

  ghost predicate OthersSame(t0: map<nat, Table>, n0: Names, t1: map<nat, Table>, n1: Names, r: nat) {
    forall q: nat, v: nat :: q != r ==> Leaf(t1, n1, q, v) == Leaf(t0, n0, q, v)
  }

  /** A page table r under construction beside those of an earlier state. */
  ghost predicate Building(t0: map<nat, Table>, n0: Names, t1: map<nat, Table>, n1: Names, r: nat) {
    && RootHome(r) in n1.at && GrowsAt(n0, n1, r) && OthersSame(t0, n0, t1, n1, r)
    && (forall k :: k in n0.at ==> k.root != r && k in n1.at && n1.at[k] == n0.at[k])
  }

  lemma BuildingMaps(t0: map<nat, Table>, n0: Names, t1: map<nat, Table>, n1: Names, t2: map<nat, Table>, n2: Names,
                     user: map<nat, Va>, r: nat, v: nat, k: nat, p: nat, f: Flags)
    requires Building(t0, n0, t1, n1, r) && Maps(t1, n1, t2, n2, r, v, k, p, f) && GrowsAt(n1, n2, r)
    requires UserOk(t1, n1, user) && k <= 1 && v >= TRAPFRAME && !f.u && LeafFlags(f)
    requires forall h :: h in n1.at ==> n2.at[h] == n1.at[h]
    ensures Building(t0, n0, t2, n2, r) && UserOk(t2, n2, user)
  {
    hide Leaf;
    forall q: nat, w: nat
      ensures Leaf(t2, n2, q, w) == if q == r && v <= w < v + k then Pte(true, p + (w - v), f) else Leaf(t1, n1, q, w)
    {
    }
  }

  method MapTop(m: Memory, r: nat, v: nat, p: nat, f: Flags, ghost t0: map<nat, Table>, ghost n0: Names) returns (ok: bool)
    requires TRAPFRAME <= v < MAXVPN && !f.u && LeafFlags(f) && m.Valid() && Building(t0, n0, m.tables, m.nm, r)
    requires !Leaf(m.tables, m.nm, r, v).v
    modifies m`tables, m`nm, m`free, m`other
    ensures m.Valid() && m.other == old(m.other) && Building(t0, n0, m.tables, m.nm, r)
    ensures Maps(old(m.tables), old(m.nm), m.tables, m.nm, r, v, if ok then 1 else 0, p, f)
  {
    hide NamesOk, Linked, Leaf, Parts, UserOk;
    ghost var k;
    ok, k := m.Mappages(r, v, 1, p, f);
    BuildingMaps(t0, n0, old(m.tables), old(m.nm), m.tables, m.nm, m.user, r, v, k, p, f);
  }

  /** uvmfree(pagetable, 0) on a table under construction undoes it. */
  method Discard(m: Memory, r: nat, ghost t0: map<nat, Table>, ghost n0: Names)
    requires m.Valid() && Building(t0, n0, m.tables, m.nm, r) && Tree(t0, n0)
    requires forall v: nat :: !Leaf(m.tables, m.nm, r, v).v
    modifies m`tables, m`data, m`nm, m`free, m`user, m`other
    ensures m.Valid() && m.other == old(m.other) && m.user == old(m.user) && m.data == old(m.data)
    ensures m.nm.at == n0.at && m.tables.Keys == t0.Keys
    ensures forall q: nat, v: nat :: Leaf(m.tables, m.nm, q, v) == Leaf(t0, n0, q, v)
  {
    hide NamesOk, Linked, Leaf, Parts, UserOk;
    ghost var t1, n1 := m.tables, m.nm;
    var panic := Uvmfree(m, r, 0);
    assert PgUp(0) == 0;
    assert UserWithout(old(m.user), r, 0, 0) == old(m.user);
    assert m.nm.at == n0.at;
    Undone(t0, n0, t1, n1, m.tables, m.nm, r);
  }

  lemma Undone(t0: map<nat, Table>, n0: Names, t1: map<nat, Table>, n1: Names, t2: map<nat, Table>, n2: Names, r: nat)
    requires Tree(t0, n0) && Tree(t2, n2) && n2.at == n0.at
    requires Building(t0, n0, t1, n1, r) && RootGone(t1, n1, t2, n2, r)
    ensures t2.Keys == t0.Keys
    ensures forall q: nat, v: nat :: Leaf(t2, n2, q, v) == Leaf(t0, n0, q, v)
  {
    SameTables(t0, n0, t2, n2);
    hide NamesOk, Linked;
    forall q: nat, v: nat
      ensures Leaf(t2, n2, q, v) == Leaf(t0, n0, q, v)
    {
      if q != r {
        hide Leaf;
        assert Leaf(t1, n1, q, v) == Leaf(t0, n0, q, v);
      }
    }
  }

  lemma SameTables(t0: map<nat, Table>, n0: Names, t2: map<nat, Table>, n2: Names)
    requires NamesOk(t0, n0) && NamesOk(t2, n2) && n2.at == n0.at
    ensures t2.Keys == t0.Keys
  {
    forall t | t in t0
      ensures t in t2
    {
      assert n2.at[n0.home[t]] == t;
    }
    forall t | t in t2
      ensures t in t0
    {
      assert n0.at[n2.home[t]] == t;
    }
  }

  /** proc_pagetable.  On failure every page table is as before, no table page is left
      over, and so every page is back on the free list. */
  method ProcPagetable(m: Memory, trampoline: nat, trapframe: nat) returns (r: Option<nat>)
    requires m.Valid()
    modifies m`tables, m`data, m`nm, m`free, m`user, m`other
    ensures m.Valid() && m.other == old(m.other) && m.user == old(m.user) && m.data == old(m.data)
    ensures r.Some? ==> FreshProc(m.tables, m.nm, r.value, trampoline, trapframe)
                        && OthersSame(old(m.tables), old(m.nm), m.tables, m.nm, r.value)
    ensures r.None? ==> m.nm.at == old(m.nm).at && m.tables.Keys == old(m.tables).Keys
    ensures r.None? ==> forall q: nat, v: nat :: Leaf(m.tables, m.nm, q, v) == Leaf(old(m.tables), old(m.nm), q, v)
  {
    hide NamesOk, Linked, Leaf, Parts, UserOk;
    r := Uvmcreate(m);
    if r.None? {
      return;
    }
    var ok := MapTop(m, r.value, TRAMPOLINE, trampoline, Flags(true, false, true, false), old(m.tables), old(m.nm));
    if ok {
      ghost var t2, n2 := m.tables, m.nm;
      ok := MapTop(m, r.value, TRAPFRAME, trapframe, Flags(true, true, false, false), old(m.tables), old(m.nm));
      if !ok {
        TopUnowned(m.tables, m.nm, m.user, r.value, TRAMPOLINE, 1);
        m.Uvmunmap(r.value, TRAMPOLINE, 1, false);
      }
    }
    if !ok {
      Discard(m, r.value, old(m.tables), old(m.nm));
      return None;
    }
  }
}
