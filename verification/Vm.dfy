/** Page allocation, page tables and user memory (kernel/kalloc.c, kernel/vm.c).

    Class Memory is the machine's memory: table pages, user pages with their bytes, and
    the free list.  `user` says which virtual page of which page table a user page
    backs; `other` are the pages in the hands of the rest of the kernel. */
module Vm {
  import opened Basics
  import opened PageTree

  type Byte = bv8
  type Page = s: seq<Byte> | |s| == PGSIZE witness seq(PGSIZE, _ => 0)
  datatype Va = Va(root: nat, v: nat)

  function ZeroPage(): Page { seq(PGSIZE, _ => 0) }

  /** The pages from lo up to hi. */
  ghost function PageRange(lo: nat, hi: nat): (r: set<nat>)
    ensures forall p {:trigger p in r} :: p in r <==> lo <= p < hi
    decreases hi - lo
  {
    if lo >= hi then {} else {lo} + PageRange(lo + 1, hi)
  }

  /** Every page is in exactly one place, and once. */
  ghost predicate Parts(all: set<nat>, free: seq<nat>, tables: set<nat>, user: set<nat>, other: set<nat>) {
    && (forall i, j :: 0 <= i < j < |free| ==> free[i] != free[j])
    && (forall i :: 0 <= i < |free| ==> free[i] in all && free[i] !in tables && free[i] !in user && free[i] !in other)
    && tables <= all && user <= all && other <= all && tables !! user !! other
    && (forall p :: p in all ==> p in free || p in tables || p in user || p in other)
  }

  /** Leaf entries below the trapframe and user pages correspond one to one; those above
      are closed to the user; and the hardware takes every one of them for a leaf. */
  ghost predicate UserOk(tables: map<nat, Table>, nm: Names, user: map<nat, Va>) {
    && (forall r: nat, v: nat :: v < TRAPFRAME && Leaf(tables, nm, r, v).v ==>
          Leaf(tables, nm, r, v).ppn in user && user[Leaf(tables, nm, r, v).ppn] == Va(r, v))
    && (forall p :: p in user ==>
          user[p].v < TRAPFRAME && Leaf(tables, nm, user[p].root, user[p].v).v
          && Leaf(tables, nm, user[p].root, user[p].v).ppn == p)
    && (forall r: nat, v: nat :: v >= TRAPFRAME && Leaf(tables, nm, r, v).v ==> !Leaf(tables, nm, r, v).f.u)
    && (forall r: nat, v: nat :: Proper(Leaf(tables, nm, r, v)))
  }

  /** The names only grow, and no leaf entry changes. */
  ghost predicate Extends(tables: map<nat, Table>, nm: Names, tables': map<nat, Table>, nm': Names) {
    && (forall h :: h in nm.at ==> h in nm'.at && nm'.at[h] == nm.at[h])
    && (forall r: nat, v: nat :: Leaf(tables', nm', r, v) == Leaf(tables, nm, r, v))
  }

  /** New tables belong to page table r. */
  ghost predicate GrowsAt(nm: Names, nm': Names, r: nat) {
    forall h :: h in nm'.at && h !in nm.at ==> h.root == r
  }

  lemma ExtendsTwice(t0: map<nat, Table>, n0: Names, t1: map<nat, Table>, n1: Names, t2: map<nat, Table>, n2: Names)
    requires Extends(t0, n0, t1, n1) && Extends(t1, n1, t2, n2)
    ensures Extends(t0, n0, t2, n2)
  {
    hide Leaf;
  }

  lemma HangExtends(tables: map<nat, Table>, nm: Names, h: Home, i: nat, c: nat)
    requires h in nm.at && nm.at[h] in tables && h.level > 0 && i < ENTRIES && !tables[nm.at[h]][i].v && c !in tables
    requires Tree(tables, nm)
    ensures Tree(Hang(tables, nm, h, i, c), Name(nm, Down(h, i), c))
    ensures Extends(tables, nm, Hang(tables, nm, h, i, c), Name(nm, Down(h, i), c))
    ensures Down(h, i) !in nm.at
  {
    AddTable(tables, nm, h, i, c);
  }

  /** Pages v .. v+m-1 of page table r now lead to pages ppn .. ppn+m-1; every other
      leaf entry of every page table is as before. */
  ghost predicate Maps(t0: map<nat, Table>, n0: Names, t1: map<nat, Table>, n1: Names,
                       r: nat, v: nat, m: nat, ppn: nat, f: Flags)
  {
    && (forall h :: h in n0.at ==> h in n1.at && n1.at[h] == n0.at[h])
    && (forall q: nat, w: nat :: Leaf(t1, n1, q, w) ==
          if q == r && v <= w < v + m then Pte(true, ppn + (w - v), f) else Leaf(t0, n0, q, w))
  }

  /** Pages v .. v+n-1 of page table r lead nowhere; every other leaf entry is as before. */
  ghost predicate Unmaps(t0: map<nat, Table>, n0: Names, t1: map<nat, Table>, n1: Names, r: nat, v: nat, n: nat) {
    && (forall h :: h in n0.at ==> h in n1.at)
    && (forall q: nat, w: nat ::
          if q == r && v <= w < v + n then !Leaf(t1, n1, q, w).v else Leaf(t1, n1, q, w) == Leaf(t0, n0, q, w))
  }

  ghost function UserWithout(user: map<nat, Va>, r: nat, v: nat, n: nat): map<nat, Va> {
    map p | p in user && !(user[p].root == r && v <= user[p].v < v + n) :: user[p]
  }

  lemma UnmapsNone(t: map<nat, Table>, n: Names, user: map<nat, Va>, r: nat, v: nat)
    ensures Unmaps(t, n, t, n, r, v, 0) && UserWithout(user, r, v, 0) == user
  {
  }

  lemma MapsNext(t0: map<nat, Table>, n0: Names, t1: map<nat, Table>, n1: Names,
                 t2: map<nat, Table>, n2: Names, t3: map<nat, Table>,
                 r: nat, v: nat, m: nat, ppn: nat, f: Flags)
    requires Maps(t0, n0, t1, n1, r, v, m, ppn, f) && Extends(t1, n1, t2, n2)
    requires forall q: nat, w: nat ::
               Leaf(t3, n2, q, w) == if q == r && w == v + m then Pte(true, ppn + m, f) else Leaf(t2, n2, q, w)
    ensures Maps(t0, n0, t3, n2, r, v, m + 1, ppn, f)
  {
    hide Leaf;
  }

  lemma MapsExtends(t0: map<nat, Table>, n0: Names, t1: map<nat, Table>, n1: Names,
                    t2: map<nat, Table>, n2: Names, r: nat, v: nat, m: nat, ppn: nat, f: Flags)
    requires Maps(t0, n0, t1, n1, r, v, m, ppn, f) && Extends(t1, n1, t2, n2)
    ensures Maps(t0, n0, t2, n2, r, v, m, ppn, f)
  {
    hide Leaf;
  }

  lemma UserErase(t0: map<nat, Table>, nm: Names, t1: map<nat, Table>, user: map<nat, Va>, r: nat, v: nat)
    requires UserOk(t0, nm, user) && v < TRAPFRAME && Leaf(t0, nm, r, v).v
    requires forall q: nat, w: nat ::
               Leaf(t1, nm, q, w) == if q == r && w == v then NoPte() else Leaf(t0, nm, q, w)
    ensures var p := Leaf(t0, nm, r, v).ppn;
            p in user && user - {p} == UserWithout(user, r, v, 1) && UserOk(t1, nm, user - {p})
  {
    hide Leaf;
  }

  lemma UserBorrowed(t0: map<nat, Table>, nm: Names, t1: map<nat, Table>, user: map<nat, Va>, r: nat, v: nat)
    requires UserOk(t0, nm, user) && v >= TRAPFRAME
    requires forall q: nat, w: nat ::
               Leaf(t1, nm, q, w) == if q == r && w == v then NoPte() else Leaf(t0, nm, q, w)
    ensures UserOk(t1, nm, user) && UserWithout(user, r, v, 1) == user
  {
    hide Leaf;
  }

  /** Nothing at or above the trapframe is backed by a user page. */
  lemma TopUnowned(tables: map<nat, Table>, nm: Names, user: map<nat, Va>, r: nat, v: nat, n: nat)
    requires UserOk(tables, nm, user) && v >= TRAPFRAME
    ensures UserWithout(user, r, v, n) == user
  {
    hide Leaf;
  }

  lemma UserAbsent(tables: map<nat, Table>, nm: Names, user: map<nat, Va>, r: nat, v: nat)
    requires UserOk(tables, nm, user) && !Leaf(tables, nm, r, v).v
    ensures UserWithout(user, r, v, 1) == user
  {
    hide Leaf;
  }

  lemma UnmapsNext(t0: map<nat, Table>, nm: Names, t1: map<nat, Table>, t2: map<nat, Table>, r: nat, v: nat, n: nat)
    requires Unmaps(t0, nm, t1, nm, r, v, n) && Unmaps(t1, nm, t2, nm, r, v + n, 1)
    ensures Unmaps(t0, nm, t2, nm, r, v, n + 1)
  {
    hide Leaf;
    forall q: nat, w: nat
      ensures if q == r && v <= w < v + (n + 1) then !Leaf(t2, nm, q, w).v else Leaf(t2, nm, q, w) == Leaf(t0, nm, q, w)
    {
      assert Leaf(t1, nm, q, w) == Leaf(t0, nm, q, w) || (q == r && v <= w < v + n);
    }
  }

  lemma UserWithoutNext(user: map<nat, Va>, r: nat, v: nat, n: nat)
    ensures UserWithout(UserWithout(user, r, v, n), r, v + n, 1) == UserWithout(user, r, v, n + 1)
  {
  }

  /** The bytes of the pages that are still there. */
  ghost predicate SameData(data: map<nat, Page>, data': map<nat, Page>) {
    forall p :: p in data' ==> p in data && data'[p] == data[p]
  }

  lemma UserAdd(t0: map<nat, Table>, n0: Names, t1: map<nat, Table>, n1: Names, user: map<nat, Va>,
                r: nat, v: nat, p: nat, f: Flags)
    requires UserOk(t0, n0, user) && v < TRAPFRAME && p !in user && !Leaf(t0, n0, r, v).v
    requires Maps(t0, n0, t1, n1, r, v, 1, p, f) && LeafFlags(f)
    ensures UserOk(t1, n1, user[p := Va(r, v)])
  {
    hide Leaf;
  }

  function PgUp(sz: nat): nat { (sz + PGSIZE - 1) / PGSIZE }

  /** Pages lo .. hi-1 of page table r are mapped with flags f; nothing else changed. */
  ghost predicate Grew(t0: map<nat, Table>, n0: Names, t1: map<nat, Table>, n1: Names, r: nat, lo: nat, hi: nat, f: Flags) {
    && (forall h :: h in n0.at ==> h in n1.at)
    && (forall q: nat, w: nat ::
          if q == r && lo <= w < hi then Leaf(t1, n1, q, w).v && Leaf(t1, n1, q, w).f == f
          else Leaf(t1, n1, q, w) == Leaf(t0, n0, q, w))
  }

  lemma GrewNext(t0: map<nat, Table>, n0: Names, t1: map<nat, Table>, n1: Names, t2: map<nat, Table>, n2: Names,
                 r: nat, lo: nat, hi: nat, p: nat, f: Flags)
    requires Grew(t0, n0, t1, n1, r, lo, hi, f) && Maps(t1, n1, t2, n2, r, hi, 1, p, f) && lo <= hi
    ensures Grew(t0, n0, t2, n2, r, lo, hi + 1, f)
  {
    hide Leaf;
  }

  /** Growing and then unmapping the same pages restores every leaf entry. */
  lemma GrewUndone(t0: map<nat, Table>, n0: Names, t1: map<nat, Table>, n1: Names, t2: map<nat, Table>, n2: Names,
                   r: nat, lo: nat, hi: nat, f: Flags, n: nat)
    requires Grew(t0, n0, t1, n1, r, lo, hi, f) && lo <= hi && n == hi - lo && Unmaps(t1, n1, t2, n2, r, lo, n)
    requires forall w: nat :: lo <= w < hi ==> !Leaf(t0, n0, r, w).v
    ensures forall q: nat, w: nat :: if q == r && lo <= w < hi then !Leaf(t2, n2, q, w).v
                                     else Leaf(t2, n2, q, w) == Leaf(t0, n0, q, w)
    ensures SameMap(t0, n0, t2, n2)
  {
    hide Leaf;
    forall q: nat, w: nat
      ensures if q == r && lo <= w < hi then !Leaf(t2, n2, q, w).v else Leaf(t2, n2, q, w) == Leaf(t0, n0, q, w)
    {
      assert !(q == r && lo <= w < hi) ==> Leaf(t1, n1, q, w) == Leaf(t0, n0, q, w);
    }
  }

  /** The same pages are mapped, to the same places with the same flags. */
  ghost predicate SameMap(t0: map<nat, Table>, n0: Names, t1: map<nat, Table>, n1: Names) {
    && (forall h :: h in n0.at ==> h in n1.at)
    && (forall q: nat, w: nat ::
          Leaf(t1, n1, q, w).v == Leaf(t0, n0, q, w).v
          && (Leaf(t0, n0, q, w).v ==> Leaf(t1, n1, q, w) == Leaf(t0, n0, q, w)))
  }

  lemma MapsNothing(tables: map<nat, Table>, nm: Names, r: nat, v: nat, f: Flags)
    ensures Maps(tables, nm, tables, nm, r, v, 0, 0, f)
  {
  }

  lemma UserKept(t0: map<nat, Table>, n0: Names, t1: map<nat, Table>, n1: Names, user: map<nat, Va>,
                 r: nat, v: nat, p: nat, f: Flags)
    requires UserOk(t0, n0, user) && Maps(t0, n0, t1, n1, r, v, 0, p, f)
    ensures UserOk(t1, n1, user) && Maps(t0, n0, t1, n1, r, v, 0, 0, f)
  {
    hide Leaf;
  }

  lemma GrewKept(t0: map<nat, Table>, n0: Names, t1: map<nat, Table>, n1: Names, t2: map<nat, Table>, n2: Names,
                 r: nat, lo: nat, hi: nat, f: Flags)
    requires Grew(t0, n0, t1, n1, r, lo, hi, f) && Maps(t1, n1, t2, n2, r, hi, 0, 0, f)
    ensures Grew(t0, n0, t2, n2, r, lo, hi, f)
  {
    hide Leaf;
  }

  lemma UnmapsNothing(tables: map<nat, Table>, nm: Names, r: nat, v: nat)
    ensures Unmaps(tables, nm, tables, nm, r, v, 0)
  {
  }

  lemma UserUndone(tables: map<nat, Table>, nm: Names, user: map<nat, Va>, user1: map<nat, Va>, r: nat, lo: nat, n: nat)
    requires UserOk(tables, nm, user) && forall w: nat :: lo <= w < lo + n ==> !Leaf(tables, nm, r, w).v
    requires forall p :: p in user ==> p in user1 && user1[p] == user[p]
    requires forall p :: p in user1 && p !in user ==> user1[p].root == r && lo <= user1[p].v < lo + n
    ensures UserWithout(user1, r, lo, n) == user
  {
    hide Leaf;
  }

  // ---------------------------------------------------------------- what a process sees

  /** The byte at virtual address va of page table r: a page not yet there reads as
      zero, a page without PTE_U cannot be read. */
  function Mem(tables: map<nat, Table>, nm: Names, data: map<nat, Page>, r: nat, va: nat): Option<Byte> {
    var p := Leaf(tables, nm, r, va / PGSIZE);
    if !p.v then Some(0)
    else if p.f.u && p.ppn in data then Some(data[p.ppn][va % PGSIZE])
    else None
  }

  /** Process r sees `src` from address dst on, and otherwise what it saw before; other
      processes see no change; pages new to r lie below psz. */
  ghost predicate Sees(t0: map<nat, Table>, n0: Names, d0: map<nat, Page>,
                       t1: map<nat, Table>, n1: Names, d1: map<nat, Page>,
                       r: nat, psz: nat, dst: nat, src: seq<Byte>)
  {
    && (forall va: nat :: Mem(t1, n1, d1, r, va) ==
          if dst <= va < dst + |src| then Some(src[va - dst]) else Mem(t0, n0, d0, r, va))
    && (forall q: nat, va: nat :: q != r ==> Mem(t1, n1, d1, q, va) == Mem(t0, n0, d0, q, va))
    && (forall v: nat :: Leaf(t0, n0, r, v).v ==> Leaf(t1, n1, r, v) == Leaf(t0, n0, r, v))
    && (forall v: nat :: Leaf(t1, n1, r, v).v && !Leaf(t0, n0, r, v).v ==>
          v * PGSIZE < psz && Leaf(t1, n1, r, v).f == Flags(true, true, false, true))
  }

  /** What copyin returns from a range that copyout has just filled is what was copied out:
      the premises are the two methods' postconditions. */
  lemma CopyinAfterCopyout(t0: map<nat, Table>, n0: Names, d0: map<nat, Page>, t1: map<nat, Table>, n1: Names,
                           d1: map<nat, Page>, r: nat, psz: nat, dst: nat, src: seq<Byte>, out: seq<Byte>)
    requires Sees(t0, n0, d0, t1, n1, d1, r, psz, dst, src) && |out| == |src|
    requires forall k :: 0 <= k < |out| ==> Mem(t1, n1, d1, r, dst + k) == Some(out[k])
    ensures out == src
  {
    hide Mem, Leaf;
    forall k | 0 <= k < |out|
      ensures out[k] == src[k]
    {
      assert Mem(t1, n1, d1, r, dst + k) == Some(src[dst + k - dst]);
    }
  }

  /** Mapping a zeroed page where none was is invisible. */
  lemma FaultSees(t0: map<nat, Table>, n0: Names, d0: map<nat, Page>, t1: map<nat, Table>, n1: Names,
                  user: map<nat, Va>, r: nat, v: nat, p: nat, psz: nat, dst: nat)
    requires Maps(t0, n0, t1, n1, r, v, 1, p, Flags(true, true, false, true)) && !Leaf(t0, n0, r, v).v
    requires v * PGSIZE < psz && p !in d0 && UserOk(t0, n0, user) && d0.Keys == user.Keys
    ensures Sees(t0, n0, d0, t1, n1, d0[p := ZeroPage()], r, psz, dst, [])
  {
    hide Leaf;
    var d1 := d0[p := ZeroPage()];
    forall q: nat, va: nat
      ensures Mem(t1, n1, d1, q, va) == Mem(t0, n0, d0, q, va)
    {
      FaultByte(t0, n0, d0, t1, n1, user, r, v, p, q, va);
    }
  }

  function PatchPage(b: Page, at: nat, src: seq<Byte>): (r: Page)
    requires at + |src| <= PGSIZE
    ensures forall j :: 0 <= j < PGSIZE ==> r[j] == if at <= j < at + |src| then src[j - at] else b[j]
  {
    b[..at] + src + b[at + |src|..]
  }

  /** No access to page v: beyond the size and not there, or closed to the user. */
  ghost predicate Unreachable(tables: map<nat, Table>, nm: Names, r: nat, psz: nat, v: nat) {
    var p := Leaf(tables, nm, r, v);
    (!p.v && v * PGSIZE >= psz) || (p.v && !p.f.u)
  }

  ghost predicate NoWrite(tables: map<nat, Table>, nm: Names, r: nat, psz: nat, v: nat) {
    v >= MAXVPN || Unreachable(tables, nm, r, psz, v) || !Leaf(tables, nm, r, v).f.w
  }

  lemma UserPages(tables: map<nat, Table>, nm: Names, user: map<nat, Va>)
    requires UserOk(tables, nm, user)
    ensures forall r: nat, v: nat :: Leaf(tables, nm, r, v).v && Leaf(tables, nm, r, v).f.u ==>
              v < TRAPFRAME && Leaf(tables, nm, r, v).ppn in user
  {
    hide Leaf;
  }

  lemma SeesEmpty(t0: map<nat, Table>, n0: Names, d0: map<nat, Page>, t1: map<nat, Table>, n1: Names, d1: map<nat, Page>,
                  r: nat, psz: nat, dst: nat, dst': nat)
    requires Sees(t0, n0, d0, t1, n1, d1, r, psz, dst, [])
    ensures Sees(t0, n0, d0, t1, n1, d1, r, psz, dst', [])
  {
    hide Leaf, Mem;
  }

  lemma SeesMore(t0: map<nat, Table>, n0: Names, d0: map<nat, Page>, t1: map<nat, Table>, n1: Names, d1: map<nat, Page>,
                 t2: map<nat, Table>, n2: Names, d2: map<nat, Page>, r: nat, psz: nat, dst: nat, a: seq<Byte>, b: seq<Byte>)
    requires Sees(t0, n0, d0, t1, n1, d1, r, psz, dst, a) && Sees(t1, n1, d1, t2, n2, d2, r, psz, dst + |a|, b)
    ensures Sees(t0, n0, d0, t2, n2, d2, r, psz, dst, a + b)
  {
    hide Leaf, Mem;
    forall v: nat | Leaf(t2, n2, r, v).v && !Leaf(t0, n0, r, v).v
      ensures v * PGSIZE < psz && Leaf(t2, n2, r, v).f == Flags(true, true, false, true)
    {
      assert Leaf(t1, n1, r, v).v ==> Leaf(t2, n2, r, v) == Leaf(t1, n1, r, v);
    }
    forall v: nat | Leaf(t0, n0, r, v).v
      ensures Leaf(t2, n2, r, v) == Leaf(t0, n0, r, v)
    {
      assert Leaf(t1, n1, r, v) == Leaf(t0, n0, r, v);
    }
    forall q: nat, va: nat | q != r
      ensures Mem(t2, n2, d2, q, va) == Mem(t0, n0, d0, q, va)
    {
      assert Mem(t1, n1, d1, q, va) == Mem(t0, n0, d0, q, va);
    }
  }

  /** Bytes stored into the page behind v appear there, and only there: no other
      virtual page of any process is backed by it. */
  lemma WriteSees(tables: map<nat, Table>, nm: Names, data: map<nat, Page>, user: map<nat, Va>,
                  r: nat, v: nat, at: nat, src: seq<Byte>, psz: nat)
    requires UserOk(tables, nm, user) && data.Keys == user.Keys && at + |src| <= PGSIZE
    requires Leaf(tables, nm, r, v).v && Leaf(tables, nm, r, v).f.u && Leaf(tables, nm, r, v).ppn in data
    ensures var p := Leaf(tables, nm, r, v).ppn;
            Sees(tables, nm, data, tables, nm, data[p := PatchPage(data[p], at, src)], r, psz, v * PGSIZE + at, src)
  {
    hide Leaf, PatchPage, UserOk;
    var p := Leaf(tables, nm, r, v).ppn;
    var data' := data[p := PatchPage(data[p], at, src)];
    UserPages(tables, nm, user);
    forall q: nat, va: nat
      ensures Mem(tables, nm, data', q, va) ==
              if q == r && v * PGSIZE + at <= va < v * PGSIZE + at + |src| then Some(src[va - (v * PGSIZE + at)])
              else Mem(tables, nm, data, q, va)
    {
      OnePage(tables, nm, user, r, v, q, va / PGSIZE);
    }
  }

  lemma OnePage(tables: map<nat, Table>, nm: Names, user: map<nat, Va>, r: nat, v: nat, q: nat, w: nat)
    requires UserOk(tables, nm, user) && Leaf(tables, nm, r, v).v && Leaf(tables, nm, r, v).f.u
    ensures var x := Leaf(tables, nm, q, w);
            x.v && x.f.u && x.ppn == Leaf(tables, nm, r, v).ppn ==> q == r && w == v
  {
    hide Leaf;
  }

  lemma UnreachableStays(t0: map<nat, Table>, n0: Names, d0: map<nat, Page>, t1: map<nat, Table>, n1: Names, d1: map<nat, Page>,
                         r: nat, psz: nat, dst: nat, v: nat)
    requires Sees(t0, n0, d0, t1, n1, d1, r, psz, dst, [])
    ensures Unreachable(t0, n0, r, psz, v) ==> Unreachable(t1, n1, r, psz, v)
  {
    hide Leaf, Mem;
  }

  lemma SeesNothing(tables: map<nat, Table>, nm: Names, data: map<nat, Page>, r: nat, psz: nat)
    ensures Sees(tables, nm, data, tables, nm, data, r, psz, 0, [])
  {
  }

  lemma NothingSees(t0: map<nat, Table>, n0: Names, t1: map<nat, Table>, n1: Names, data: map<nat, Page>,
                    r: nat, v: nat, psz: nat)
    requires Maps(t0, n0, t1, n1, r, v, 0, 0, Flags(true, true, false, true))
    ensures Sees(t0, n0, data, t1, n1, data, r, psz, 0, [])
  {
    hide Leaf;
    forall q: nat, w: nat
      ensures Leaf(t1, n1, q, w) == Leaf(t0, n0, q, w)
    {
    }
  }

  lemma FaultByte(t0: map<nat, Table>, n0: Names, d0: map<nat, Page>, t1: map<nat, Table>, n1: Names,
                  user: map<nat, Va>, r: nat, v: nat, p: nat, q: nat, va: nat)
    requires Maps(t0, n0, t1, n1, r, v, 1, p, Flags(true, true, false, true)) && !Leaf(t0, n0, r, v).v
    requires p !in d0 && UserOk(t0, n0, user) && d0.Keys == user.Keys
    ensures Mem(t1, n1, d0[p := ZeroPage()], q, va) == Mem(t0, n0, d0, q, va)
  {
    hide Leaf;
    var x := Leaf(t0, n0, q, va / PGSIZE);
    assert Leaf(t1, n1, q, va / PGSIZE) ==
      if q == r && va / PGSIZE == v then Pte(true, p, Flags(true, true, false, true)) else x;
    assert x.v && x.f.u ==> x.ppn in user;
  }

  /** Pages below hi of page table c are copies of r's; no other leaf entry changed. */
  ghost predicate Cloned(t0: map<nat, Table>, n0: Names, t1: map<nat, Table>, n1: Names, d1: map<nat, Page>,
                         r: nat, c: nat, hi: nat)
  {
    && (forall h :: h in n0.at ==> h in n1.at)
    && (forall q: nat, w: nat :: !(q == c && w < hi) ==> Leaf(t1, n1, q, w) == Leaf(t0, n0, q, w))
    && (forall w: nat :: w < hi ==>
          var x, y := Leaf(t1, n1, c, w), Leaf(t1, n1, r, w);
          x.v == y.v && (x.v ==> x.f == y.f && x.ppn in d1 && y.ppn in d1 && d1[x.ppn] == d1[y.ppn]))
  }

  /** So parent and child see the same memory. */
  lemma ClonesSeeSame(t0: map<nat, Table>, n0: Names, t1: map<nat, Table>, n1: Names, d1: map<nat, Page>,
                      r: nat, c: nat, hi: nat, va: nat)
    requires Cloned(t0, n0, t1, n1, d1, r, c, hi) && va < hi * PGSIZE
    ensures Mem(t1, n1, d1, c, va) == Mem(t1, n1, d1, r, va)
  {
    hide Leaf;
    assert va / PGSIZE < hi;
  }

  lemma ClonedNothing(tables: map<nat, Table>, nm: Names, data: map<nat, Page>, r: nat, c: nat)
    ensures Cloned(tables, nm, tables, nm, data, r, c, 0)
  {
  }

  lemma ClonedSkip(t0: map<nat, Table>, n0: Names, t1: map<nat, Table>, n1: Names, d: map<nat, Page>, r: nat, c: nat, i: nat)
    requires Cloned(t0, n0, t1, n1, d, r, c, i) && !Leaf(t1, n1, r, i).v && !Leaf(t0, n0, c, i).v
    ensures Cloned(t0, n0, t1, n1, d, r, c, i + 1)
  {
    hide Leaf;
  }

  lemma UserHas(tables: map<nat, Table>, nm: Names, user: map<nat, Va>, r: nat, v: nat)
    requires UserOk(tables, nm, user) && v < TRAPFRAME && Leaf(tables, nm, r, v).v
    ensures Leaf(tables, nm, r, v).ppn in user && LeafFlags(Leaf(tables, nm, r, v).f)
  {
    hide Leaf;
  }

  lemma ClonedNext(t0: map<nat, Table>, n0: Names, t1: map<nat, Table>, n1: Names, t2: map<nat, Table>, n2: Names,
                   d1: map<nat, Page>, user: map<nat, Va>, r: nat, c: nat, i: nat, p: nat)
    requires Cloned(t0, n0, t1, n1, d1, r, c, i) && r != c && p !in d1
    requires Leaf(t1, n1, r, i).v && Leaf(t1, n1, r, i).ppn in d1
    requires Maps(t1, n1, t2, n2, c, i, 1, p, Leaf(t1, n1, r, i).f)
    ensures Cloned(t0, n0, t2, n2, d1[p := d1[Leaf(t1, n1, r, i).ppn]], r, c, i + 1)
  {
    hide Leaf;
    forall q: nat, w: nat
      ensures Leaf(t2, n2, q, w) == if q == c && w == i then Pte(true, p, Leaf(t1, n1, r, i).f) else Leaf(t1, n1, q, w)
    {
    }
  }

  lemma ClonedKept(t0: map<nat, Table>, n0: Names, t1: map<nat, Table>, n1: Names, t2: map<nat, Table>, n2: Names,
                   d: map<nat, Page>, r: nat, c: nat, i: nat, f: Flags)
    requires Cloned(t0, n0, t1, n1, d, r, c, i) && Maps(t1, n1, t2, n2, c, i, 0, 0, f)
    ensures Cloned(t0, n0, t2, n2, d, r, c, i)
  {
    hide Leaf;
    forall q: nat, w: nat
      ensures Leaf(t2, n2, q, w) == Leaf(t1, n1, q, w)
    {
    }
  }

  lemma ClonedUndone(t0: map<nat, Table>, n0: Names, t1: map<nat, Table>, t2: map<nat, Table>, nm: Names,
                     d: map<nat, Page>, r: nat, c: nat, i: nat)
    requires Cloned(t0, n0, t1, nm, d, r, c, i) && Unmaps(t1, nm, t2, nm, c, 0, i)
    requires forall w: nat :: w < i ==> !Leaf(t0, n0, c, w).v
    ensures SameMap(t0, n0, t2, nm)
  {
    hide Leaf;
    forall q: nat, w: nat
      ensures if q == c && w < i then !Leaf(t2, nm, q, w).v else Leaf(t2, nm, q, w) == Leaf(t0, n0, q, w)
    {
      assert !(q == c && w < i) ==> Leaf(t1, nm, q, w) == Leaf(t0, n0, q, w);
    }
  }

  /** What a read of a resolved page returns is what the process saw all along. */
  lemma ReadSees(t0: map<nat, Table>, n0: Names, d0: map<nat, Page>, t1: map<nat, Table>, n1: Names, d1: map<nat, Page>,
                 r: nat, psz: nat, va: nat, n: nat)
    requires Sees(t0, n0, d0, t1, n1, d1, r, psz, 0, []) && va % PGSIZE + n <= PGSIZE
    requires var x := Leaf(t1, n1, r, va / PGSIZE); x.v && x.f.u && x.ppn in d1
    ensures var b := d1[Leaf(t1, n1, r, va / PGSIZE).ppn][va % PGSIZE..va % PGSIZE + n];
            forall k :: 0 <= k < |b| ==> Mem(t0, n0, d0, r, va + k) == Some(b[k])
  {
    hide Leaf;
    var b := d1[Leaf(t1, n1, r, va / PGSIZE).ppn][va % PGSIZE..va % PGSIZE + n];
    forall k | 0 <= k < |b|
      ensures Mem(t0, n0, d0, r, va + k) == Some(b[k])
    {
      assert (va + k) / PGSIZE == va / PGSIZE && (va + k) % PGSIZE == va % PGSIZE + k;
      assert Mem(t1, n1, d1, r, va + k) == Mem(t0, n0, d0, r, va + k);
    }
  }

  lemma NoTables(all: set<nat>)
    ensures Tree(map[], Names(map[], map[])) && UserOk(map[], Names(map[], map[]), map[])
    ensures Parts(all, [], {}, {}, all)
  {
  }

  class Memory {
    var tables: map<nat, Table>
    var data: map<nat, Page>
    var free: seq<nat>
    ghost var nm: Names
    ghost var user: map<nat, Va>
    ghost var other: set<nat>
    ghost const all: set<nat>

    ghost predicate Whole()
      reads this
    {
      Tree(tables, nm) && Parts(all, free, tables.Keys, user.Keys, other)
    }

    ghost predicate Valid()
      reads this
    {
      Whole() && UserOk(tables, nm, user) && data.Keys == user.Keys
    }

    /** kinit and freerange over the pages from lo up to hi: all of them are free, the last
        one first, and there is no page table yet. */
    constructor (lo: nat, hi: nat)
      ensures Valid() && tables == map[] && user == map[] && other == {} && nm.at == map[]
      ensures all == PageRange(lo, hi)
      ensures forall i :: 0 <= i < |free| ==> free[i] == hi - 1 - i
      ensures |free| == if lo < hi then hi - lo else 0
    {
      tables, data, free := map[], map[], [];
      nm, user := Names(map[], map[]), map[];
      all := PageRange(lo, hi);
      other := PageRange(lo, hi);
      new;
      NoTables(all);
      assert tables.Keys == {} && user.Keys == {};
      hide Tree, UserOk, Parts;
      var p := lo;
      while p < hi
        invariant lo <= p && (p == lo || p <= hi) && Valid() && tables == map[] && user == map[] && nm.at == map[]
        invariant other == PageRange(p, hi)
        invariant |free| == p - lo && forall i :: 0 <= i < |free| ==> free[i] == p - 1 - i
      {
        Kfree(p);
        p := p + 1;
      }
    }

    /** kalloc: the page at the head of the free list. */
    method Kalloc() returns (p: Option<nat>)
      requires Parts(all, free, tables.Keys, user.Keys, other)
      modifies this`free, this`other
      ensures Parts(all, free, tables.Keys, user.Keys, other)
      ensures p.None? ==> old(free) == [] && free == [] && other == old(other)
      ensures p.Some? ==> old(free) == [p.value] + free && other == old(other) + {p.value} && p.value !in old(other)
    {
      if free == [] {
        return None;
      }
      p := Some(free[0]);
      other := other + {free[0]};
      free := free[1..];
    }

    /** kfree: push the page back. */
    method Kfree(p: nat)
      requires p in other && Parts(all, free, tables.Keys, user.Keys, other)
      modifies this`free, this`other
      ensures Parts(all, free, tables.Keys, user.Keys, other)
      ensures free == [p] + old(free) && other == old(other) - {p}
    {
      other := other - {p};
      free := [p] + free;
    }

    /** kfree of a page that a leaf entry named. */
    method KfreeUser(p: nat)
      requires p in user && data.Keys == user.Keys && Parts(all, free, tables.Keys, user.Keys, other)
      modifies this`free, this`other, this`data, this`user
      ensures Parts(all, free, tables.Keys, user.Keys, other) && other == old(other) && free == [p] + old(free)
      ensures data == old(data) - {p} && user == old(user) - {p} && data.Keys == user.Keys
    {
      data := data - {p};
      user := user - {p};
      other := other + {p};
      assert Parts(all, free, tables.Keys, user.Keys, other);
      Kfree(p);
    }

    /** A zeroed page becomes a table and is hung into its parent. */
    method HangTable(ghost h: Home, a: nat, i: nat, c: nat)
      requires h in nm.at && nm.at[h] == a && a in tables && h.level > 0 && i < ENTRIES && !tables[a][i].v
      requires c in other && Whole()
      modifies this`tables, this`nm, this`other
      ensures Whole() && other == old(other) - {c} && Extends(old(tables), old(nm), tables, nm)
      ensures nm.at == old(nm).at[Down(h, i) := c]
      ensures Down(h, i) in nm.at && nm.at[Down(h, i)] == c && c in tables
    {
      hide NamesOk, Linked, Leaf, Extends;
      HangExtends(tables, nm, h, i, c);
      tables := tables[c := EmptyTable()];
      tables := tables[a := tables[a][i := Pointer(c)]];
      nm := Name(nm, Down(h, i), c);
      other := other - {c};
      assert tables.Keys == old(tables).Keys + {c};
    }

    /** walk: the table page that holds the leaf entry of v, allocating tables on the
        way if asked to.  Nothing visible changes, even when it fails half way. */
    method Walk(r: nat, v: nat, alloc: bool) returns (t: Option<nat>)
      requires RootHome(r) in nm.at && v < MAXVPN && Whole()
      modifies this`tables, this`nm, this`free, this`other
      ensures Whole() && other == old(other)
      ensures Extends(old(tables), old(nm), tables, nm) && GrowsAt(old(nm), nm, r)
      ensures t.Some? <==> LeafHome(r, v) in nm.at
      ensures t.Some? ==> t.value == nm.at[LeafHome(r, v)] && t.value in tables
      ensures alloc && t.None? ==> free == []
      ensures !alloc ==> tables == old(tables) && nm == old(nm) && free == old(free)
    {
      hide NamesOk, Linked, Parts, Leaf;
      var level := 2;
      var a := r;
      ghost var h := RootHome(r);
      RootNamed(tables, nm, r);
      while level > 0
        invariant 0 <= level <= 2 && Whole() && other == old(other)
        invariant h.root == r && h.level == level && h in nm.at && nm.at[h] == a && a in tables
        invariant h.prefix == (if level == 2 then 0 else if level == 1 then v / ENTRIES / ENTRIES else v / ENTRIES)
        invariant Extends(old(tables), old(nm), tables, nm) && GrowsAt(old(nm), nm, r)
        invariant !alloc ==> tables == old(tables) && nm == old(nm) && free == old(free)
      {
        Split(v);
        ghost var d := Down(h, PX(level, v));
        LinkedAt(tables, nm, h, PX(level, v));
        var pte := tables[a][PX(level, v)];
        if pte.v {
          a := pte.ppn;
        } else {
          PathMissing(tables, nm, r, v, d);
          if !alloc {
            return None;
          }
          var c := Kalloc();
          if c.None? {
            return None;
          }
          ghost var t1, n1 := tables, nm;
          HangTable(h, a, PX(level, v), c.value);
          ExtendsTwice(old(tables), old(nm), t1, n1, tables, nm);
          a := c.value;
        }
        h := d;
        level := level - 1;
      }
      return Some(a);
    }

    /** Write the leaf entry of v, whose table exists. */
    method SetEntry(r: nat, v: nat, t: nat, p: Pte)
      requires LeafHome(r, v) in nm.at && nm.at[LeafHome(r, v)] == t && t in tables && Whole()
      modifies this`tables
      ensures Whole()
      ensures forall q: nat, w: nat ::
                Leaf(tables, nm, q, w) == if q == r && w == v then p else Leaf(old(tables), nm, q, w)
    {
      hide NamesOk, Linked, Leaf;
      SetLeaf(tables, nm, r, v, p);
      tables := tables[t := tables[t][v % ENTRIES := p]];
      assert tables.Keys == old(tables).Keys;
    }

    /** mappages.  On failure the first m pages stay mapped. */
    method Mappages(r: nat, v: nat, n: nat, ppn: nat, f: Flags) returns (ok: bool, ghost m: nat)
      requires RootHome(r) in nm.at && 1 <= n && v + n <= MAXVPN && Whole()
      requires forall w: nat :: v <= w < v + n ==> !Leaf(tables, nm, r, w).v
      modifies this`tables, this`nm, this`free, this`other
      ensures Whole() && other == old(other)
      ensures m <= n && (ok <==> m == n) && (!ok ==> free == []) && GrowsAt(old(nm), nm, r)
      ensures Maps(old(tables), old(nm), tables, nm, r, v, m, ppn, f)
    {
      hide NamesOk, Linked, Parts, Leaf;
      m := 0;
      var a := v;
      while true
        invariant m < n && a == v + m && Whole() && other == old(other) && RootHome(r) in nm.at && GrowsAt(old(nm), nm, r)
        invariant Maps(old(tables), old(nm), tables, nm, r, v, m, ppn, f)
        decreases n - m
      {
        ghost var t1, n1 := tables, nm;
        var t := Walk(r, a, true);
        if t.None? {
          MapsExtends(old(tables), old(nm), t1, n1, tables, nm, r, v, m, ppn, f);
          return false, m;
        }
        assert !Leaf(tables, nm, r, a).v;
        ghost var t2 := tables;
        SetEntry(r, a, t.value, Pte(true, ppn + (a - v), f));
        MapsNext(old(tables), old(nm), t1, n1, t2, nm, tables, r, v, m, ppn, f);
        m := m + 1;
        if a == v + n - 1 {
          return true, m;
        }
        a := a + 1;
      }
    }

    /** A user page that is no longer mapped is left to the caller. */
    method LeaveUser(p: nat)
      requires p in user && data.Keys == user.Keys && Parts(all, free, tables.Keys, user.Keys, other)
      modifies this`other, this`data, this`user
      ensures Parts(all, free, tables.Keys, user.Keys, other) && other == old(other) + {p}
      ensures data == old(data) - {p} && user == old(user) - {p} && data.Keys == user.Keys
    {
      data := data - {p};
      user := user - {p};
      other := other + {p};
    }

    /** The loop body of uvmunmap: a user page is freed with its mapping or left to the
        caller; the trampoline and the trapframe are only unmapped. */
    method UnmapOne(r: nat, v: nat, doFree: bool)
      requires RootHome(r) in nm.at && v < MAXVPN && (doFree ==> v < TRAPFRAME) && Valid()
      modifies this`tables, this`data, this`free, this`nm, this`user, this`other
      ensures Valid() && nm == old(nm) && other == if doFree then old(other) else old(other) + (old(user).Keys - user.Keys)
      ensures Unmaps(old(tables), nm, tables, nm, r, v, 1)
      ensures user == UserWithout(old(user), r, v, 1)
      ensures SameData(old(data), data) && if doFree then |free| >= |old(free)| else free == old(free)
    {
      hide NamesOk, Linked, Leaf, UserOk, Extends, Parts;
      var t := Walk(r, v, false);
      LeafIs(tables, nm, r, v);
      if t.None? || !tables[t.value][v % ENTRIES].v {
        UserAbsent(tables, nm, user, r, v);
        return;
      }
      var pte := tables[t.value][v % ENTRIES];
      SetEntry(r, v, t.value, NoPte());
      if v >= TRAPFRAME {
        UserBorrowed(old(tables), nm, tables, user, r, v);
        return;
      }
      UserErase(old(tables), nm, tables, user, r, v);
      if doFree {
        KfreeUser(pte.ppn);
      } else {
        LeaveUser(pte.ppn);
        assert old(user).Keys - user.Keys == {pte.ppn};
      }
    }

    /** uvmunmap. */
    method Uvmunmap(r: nat, v: nat, npages: nat, doFree: bool)
      requires RootHome(r) in nm.at && v + npages <= MAXVPN && (doFree ==> v + npages <= TRAPFRAME) && Valid()
      modifies this`tables, this`data, this`free, this`nm, this`user, this`other
      ensures Valid() && nm == old(nm) && other == if doFree then old(other) else old(other) + (old(user).Keys - user.Keys)
      ensures Unmaps(old(tables), nm, tables, nm, r, v, npages)
      ensures user == UserWithout(old(user), r, v, npages)
      ensures SameData(old(data), data) && if doFree then |free| >= |old(free)| else free == old(free)
    {
      hide NamesOk, Linked, Leaf, UserOk, Parts;
      var a := v;
      UnmapsNone(tables, nm, user, r, v);
      hide Unmaps, UserWithout;
      while a < v + npages
        invariant v <= a <= v + npages && Valid() && nm == old(nm)
        invariant other == if doFree then old(other) else old(other) + (old(user).Keys - user.Keys)
        invariant Unmaps(old(tables), nm, tables, nm, r, v, a - v)
        invariant user == UserWithout(old(user), r, v, a - v) && user.Keys <= old(user).Keys
        invariant SameData(old(data), data) && if doFree then |free| >= |old(free)| else free == old(free)
      {
        ghost var t1, user1 := tables, user;
        UnmapOne(r, a, doFree);
        assert UserWithout(user1, r, a, 1).Keys <= user1.Keys;
        UnmapsNext(old(tables), nm, t1, tables, r, v, a - v);
        UserWithoutNext(old(user), r, v, a - v);
        a := a + 1;
      }
    }

    /** Page p now backs page v of r and holds `content`. */
    method OwnPage(r: nat, v: nat, p: nat, content: Page)
      requires p in other && data.Keys == user.Keys && Parts(all, free, tables.Keys, user.Keys, other)
      modifies this`data, this`user, this`other
      ensures Parts(all, free, tables.Keys, user.Keys, other) && other == old(other) - {p} && p !in old(user)
      ensures data == old(data)[p := content] && user == old(user)[p := Va(r, v)] && data.Keys == user.Keys
    {
      other := other - {p};
      user := user[p := Va(r, v)];
      data := data[p := content];
    }

    /** kalloc a page, fill it, map it at v; give it back if that fails. */
    method MapUser(r: nat, v: nat, f: Flags, content: Page) returns (ok: bool, p: nat)
      requires RootHome(r) in nm.at && v < TRAPFRAME && Valid() && !Leaf(tables, nm, r, v).v && LeafFlags(f)
      modifies this`tables, this`data, this`free, this`nm, this`user, this`other
      ensures Valid() && other == old(other)
      ensures ok ==> Maps(old(tables), old(nm), tables, nm, r, v, 1, p, f)
                     && p !in old(user) && user == old(user)[p := Va(r, v)] && data == old(data)[p := content]
      ensures !ok ==> Maps(old(tables), old(nm), tables, nm, r, v, 0, 0, f) && user == old(user) && data == old(data)
                      && |free| <= 1
    {
      hide NamesOk, Linked, Leaf, UserOk, Parts, Maps;
      p := 0;
      var mem := Kalloc();
      if mem.None? {
        MapsNothing(tables, nm, r, v, f);
        return false, 0;
      }
      ghost var m;
      ok, m := Mappages(r, v, 1, mem.value, f);
      if !ok {
        UserKept(old(tables), old(nm), tables, nm, user, r, v, mem.value, f);
        Kfree(mem.value);
        assert other == old(other);
        return false, 0;
      }
      p := mem.value;
      OwnPage(r, v, p, content);
      UserAdd(old(tables), old(nm), tables, nm, old(user), r, v, p, f);
      assert other == old(other);
    }

    /** uvmdealloc. */
    method Uvmdealloc(r: nat, oldsz: nat, newsz: nat) returns (sz: nat)
      requires RootHome(r) in nm.at && PgUp(oldsz) <= TRAPFRAME && Valid()
      modifies this`tables, this`data, this`free, this`nm, this`user, this`other
      ensures Valid() && nm == old(nm) && other == old(other) && SameData(old(data), data)
      ensures newsz >= oldsz ==> sz == oldsz && tables == old(tables) && user == old(user) && data == old(data)
      ensures newsz < oldsz ==>
                && sz == newsz && PgUp(newsz) <= PgUp(oldsz)
                && Unmaps(old(tables), nm, tables, nm, r, PgUp(newsz), PgUp(oldsz) - PgUp(newsz))
                && user == UserWithout(old(user), r, PgUp(newsz), PgUp(oldsz) - PgUp(newsz))
    {
      hide NamesOk, Linked, Leaf, UserOk, Parts;
      if newsz >= oldsz {
        return oldsz;
      }
      if PgUp(newsz) < PgUp(oldsz) {
        Uvmunmap(r, PgUp(newsz), PgUp(oldsz) - PgUp(newsz), true);
      } else {
        assert UserWithout(user, r, PgUp(newsz), 0) == user;
      }
      return newsz;
    }

    /** The rollback of a growth that stopped at page a. */
    method Roll(r: nat, lo: nat, a: nat, f: Flags, ghost t0: map<nat, Table>, ghost n0: Names,
                ghost user0: map<nat, Va>, ghost data0: map<nat, Page>)
      requires RootHome(r) in nm.at && lo <= a <= TRAPFRAME && Valid()
      requires Grew(t0, n0, tables, nm, r, lo, a, f) && UserOk(t0, n0, user0) && data0.Keys == user0.Keys
      requires forall w: nat :: lo <= w < a ==> !Leaf(t0, n0, r, w).v
      requires forall p :: p in data0 ==> p in data && data[p] == data0[p]
      requires forall p :: p in user0 ==> p in user && user[p] == user0[p]
      requires forall p :: p in user && p !in user0 ==> user[p].root == r && lo <= user[p].v < a
      modifies this`tables, this`data, this`free, this`nm, this`user, this`other
      ensures Valid() && other == old(other)
      ensures SameMap(t0, n0, tables, nm) && user == user0 && data == data0
    {
      hide NamesOk, Linked, Leaf, UserOk, Parts;
      assert PgUp(a * PGSIZE) == a && PgUp(lo * PGSIZE) == lo;
      ghost var t1 := tables;
      var sz := Uvmdealloc(r, a * PGSIZE, lo * PGSIZE);
      UserUndone(t0, n0, user0, old(user), r, lo, a - lo);
      if lo == a {
        UnmapsNothing(tables, nm, r, lo);
      }
      GrewUndone(t0, n0, t1, nm, tables, nm, r, lo, a, f, a - lo);
    }

    /** uvmalloc; 0 is failure, after which every mapping, page and byte is as before. */
    method Uvmalloc(r: nat, oldsz: nat, newsz: nat, w: bool, x: bool) returns (sz: nat, ghost ok: bool)
      requires RootHome(r) in nm.at && PgUp(newsz) <= TRAPFRAME && Valid()
      requires forall v: nat :: PgUp(oldsz) <= v < PgUp(newsz) ==> !Leaf(tables, nm, r, v).v
      modifies this`tables, this`data, this`free, this`nm, this`user, this`other
      ensures Valid() && other == old(other)
      ensures newsz < oldsz ==> sz == oldsz && tables == old(tables) && user == old(user) && data == old(data)
      ensures newsz >= oldsz ==> sz == if ok then newsz else 0
      ensures newsz >= oldsz && ok ==>
                && Grew(old(tables), old(nm), tables, nm, r, PgUp(oldsz), PgUp(newsz), Flags(true, w, x, true))
                && (forall p :: p in old(data) ==> p in data && data[p] == old(data)[p])
                && (forall p :: p in data && p !in old(data) ==> data[p] == ZeroPage())
      ensures newsz >= oldsz && !ok ==>
                SameMap(old(tables), old(nm), tables, nm) && user == old(user) && data == old(data)
    {
      hide NamesOk, Linked, Leaf, UserOk, Parts;
      ok := true;
      if newsz < oldsz {
        return oldsz, true;
      }
      var f := Flags(true, w, x, true);
      var lo := PgUp(oldsz);
      var a := lo;
      while a * PGSIZE < newsz
        invariant lo <= a && (a <= PgUp(newsz) || a == lo) && Valid() && other == old(other) && RootHome(r) in nm.at
        invariant Grew(old(tables), old(nm), tables, nm, r, lo, a, f)
        invariant forall p :: p in old(data) ==> p in data && data[p] == old(data)[p]
        invariant forall p :: p in data && p !in old(data) ==> data[p] == ZeroPage()
        invariant forall p :: p in old(user) ==> p in user && user[p] == old(user)[p]
        invariant forall p :: p in user && p !in old(user) ==> user[p].root == r && lo <= user[p].v < a
        decreases newsz - a * PGSIZE
      {
        ghost var t1, n1 := tables, nm;
        var done, p := MapUser(r, a, f, ZeroPage());
        if !done {
          GrewKept(old(tables), old(nm), t1, n1, tables, nm, r, lo, a, f);
          Roll(r, lo, a, f, old(tables), old(nm), old(user), old(data));
          return 0, false;
        }
        GrewNext(old(tables), old(nm), t1, n1, tables, nm, r, lo, a, p, f);
        a := a + 1;
      }
      return newsz, true;
    }

    /** walkaddr: the page behind v, if a user may touch it. */
    method Walkaddr(r: nat, v: nat) returns (p: Option<nat>)
      requires RootHome(r) in nm.at && Valid()
      modifies this`tables, this`nm, this`free, this`other
      ensures tables == old(tables) && nm == old(nm) && free == old(free) && other == old(other)
      ensures p == if v < MAXVPN && Leaf(tables, nm, r, v).v && Leaf(tables, nm, r, v).f.u
                   then Some(Leaf(tables, nm, r, v).ppn) else None
    {
      hide NamesOk, Linked, Leaf, UserOk, Parts, Extends;
      if v >= MAXVPN {
        return None;
      }
      var t := Walk(r, v, false);
      LeafIs(tables, nm, r, v);
      if t.None? {
        return None;
      }
      var pte := tables[t.value][v % ENTRIES];
      if !pte.v || !pte.f.u {
        return None;
      }
      return Some(pte.ppn);
    }

    /** vmfault: back the page of va with zeros, unless va lies beyond the size, its page
        is already mapped, or memory is short.  No process sees a difference. */
    method Vmfault(r: nat, psz: nat, va: nat) returns (p: Option<nat>)
      requires RootHome(r) in nm.at && PgUp(psz) <= TRAPFRAME && Valid()
      modifies this`tables, this`data, this`free, this`nm, this`user, this`other
      ensures Valid() && other == old(other) && RootHome(r) in nm.at
      ensures Sees(old(tables), old(nm), old(data), tables, nm, data, r, psz, 0, [])
      ensures p.Some? ==> Leaf(tables, nm, r, va / PGSIZE) == Pte(true, p.value, Flags(true, true, false, true))
      ensures va >= psz || Leaf(old(tables), old(nm), r, va / PGSIZE).v ==> p.None?
      ensures p.None? ==> va >= psz || Leaf(old(tables), old(nm), r, va / PGSIZE).v || |free| <= 1
    {
      hide NamesOk, Linked, Leaf, UserOk, Parts;
      SeesNothing(tables, nm, data, r, psz);
      if va >= psz {
        return None;
      }
      var v := va / PGSIZE;
      var t := Walk(r, v, false);
      LeafIs(tables, nm, r, v);
      if t.Some? && tables[t.value][v % ENTRIES].v {
        return None;
      }
      var ok, mem := MapUser(r, v, Flags(true, true, false, true), ZeroPage());
      if !ok {
        NothingSees(old(tables), old(nm), tables, nm, data, r, v, psz);
        return None;
      }
      FaultSees(old(tables), old(nm), old(data), tables, nm, old(user), r, v, mem, psz, 0);
      return Some(mem);
    }

    /** walkaddr, and vmfault if it finds nothing. */
    method Resolve(r: nat, psz: nat, v: nat) returns (p: Option<nat>)
      requires RootHome(r) in nm.at && PgUp(psz) <= TRAPFRAME && Valid()
      modifies this`tables, this`data, this`free, this`nm, this`user, this`other
      ensures Valid() && other == old(other) && RootHome(r) in nm.at
      ensures Sees(old(tables), old(nm), old(data), tables, nm, data, r, psz, 0, [])
      ensures p.Some? ==> v < MAXVPN && Leaf(tables, nm, r, v).v && Leaf(tables, nm, r, v).f.u
                          && Leaf(tables, nm, r, v).ppn == p.value && p.value in data
      ensures p.None? ==> v >= MAXVPN || Unreachable(old(tables), old(nm), r, psz, v) || |free| <= 1
    {
      hide NamesOk, Linked, Leaf, UserOk, Parts;
      SeesNothing(tables, nm, data, r, psz);
      p := Walkaddr(r, v);
      if p.None? {
        p := Vmfault(r, psz, v * PGSIZE);
      }
      UserPages(tables, nm, user);
    }

    /** copyout: afterwards the process sees the first m bytes of src from dst on; all of
        them exactly when it succeeds. */
    method Copyout(r: nat, psz: nat, dst: nat, src: seq<Byte>) returns (ok: bool, ghost m: nat)
      requires RootHome(r) in nm.at && PgUp(psz) <= TRAPFRAME && Valid()
      modifies this`tables, this`data, this`free, this`nm, this`user, this`other
      ensures Valid() && other == old(other)
      ensures m <= |src| && (ok <==> m == |src|)
      ensures Sees(old(tables), old(nm), old(data), tables, nm, data, r, psz, dst, src[..m])
      ensures !ok ==> NoWrite(tables, nm, r, psz, (dst + m) / PGSIZE) || |free| <= 1
    {
      hide NamesOk, Linked, Leaf, UserOk, Parts, Sees, Mem;
      SeesNothing(tables, nm, data, r, psz);
      SeesEmpty(tables, nm, data, tables, nm, data, r, psz, 0, dst);
      m := 0;
      var i := 0;
      assert src[..0] == [];
      while i < |src|
        invariant i == m <= |src| && Valid() && other == old(other) && RootHome(r) in nm.at
        invariant Sees(old(tables), old(nm), old(data), tables, nm, data, r, psz, dst, src[..i])
      {
        var va0 := (dst + i) / PGSIZE;
        if va0 >= MAXVPN {
          return false, m;
        }
        ghost var t1, n1, d1 := tables, nm, data;
        var p := Resolve(r, psz, va0);
        SeesEmpty(t1, n1, d1, tables, nm, data, r, psz, 0, dst + i);
        SeesMore(old(tables), old(nm), old(data), t1, n1, d1, tables, nm, data, r, psz, dst, src[..i], []);
        assert src[..i] + [] == src[..i];
        if p.None? {
          UnreachableStays(t1, n1, d1, tables, nm, data, r, psz, dst + i, va0);
          return false, m;
        }
        var t := Walk(r, va0, false);
        LeafIs(tables, nm, r, va0);
        if !tables[t.value][va0 % ENTRIES].f.w {
          return false, m;
        }
        var at := (dst + i) % PGSIZE;
        var n := if PGSIZE - at > |src| - i then |src| - i else PGSIZE - at;
        ghost var d2 := data;
        data := data[p.value := PatchPage(data[p.value], at, src[i..i + n])];
        WriteSees(tables, nm, d2, user, r, va0, at, src[i..i + n], psz);
        assert dst + i == va0 * PGSIZE + at;
        SeesMore(old(tables), old(nm), old(data), tables, nm, d2, tables, nm, data, r, psz, dst, src[..i], src[i..i + n]);
        assert src[..i] + src[i..i + n] == src[..i + n];
        i, m := i + n, m + n;
      }
      return true, m;
    }

    /** copyin: on success the bytes the process sees at src; it sees no difference. */
    method Copyin(r: nat, psz: nat, src: nat, len: nat) returns (ok: bool, out: seq<Byte>)
      requires RootHome(r) in nm.at && PgUp(psz) <= TRAPFRAME && Valid()
      modifies this`tables, this`data, this`free, this`nm, this`user, this`other
      ensures Valid() && other == old(other)
      ensures Sees(old(tables), old(nm), old(data), tables, nm, data, r, psz, 0, [])
      ensures ok ==> |out| == len
      ensures |out| <= len && forall k :: 0 <= k < |out| ==> Mem(old(tables), old(nm), old(data), r, src + k) == Some(out[k])
      ensures !ok ==> (src + |out|) / PGSIZE >= MAXVPN || |free| <= 1
                      || Unreachable(tables, nm, r, psz, (src + |out|) / PGSIZE)
    {
      hide NamesOk, Linked, Leaf, UserOk, Parts, Sees, Mem;
      SeesNothing(tables, nm, data, r, psz);
      out := [];
      while |out| < len
        invariant |out| <= len && Valid() && other == old(other) && RootHome(r) in nm.at
        invariant Sees(old(tables), old(nm), old(data), tables, nm, data, r, psz, 0, [])
        invariant forall k :: 0 <= k < |out| ==> Mem(old(tables), old(nm), old(data), r, src + k) == Some(out[k])
      {
        var va := src + |out|;
        var v, at := va / PGSIZE, va % PGSIZE;
        ghost var t1, n1, d1 := tables, nm, data;
        var p := Resolve(r, psz, v);
        SeesMore(old(tables), old(nm), old(data), t1, n1, d1, tables, nm, data, r, psz, 0, [], []);
        ghost var none: seq<Byte> := [];
        assert none + none == none;
        if p.None? {
          UnreachableStays(t1, n1, d1, tables, nm, data, r, psz, 0, v);
          return false, out;
        }
        var n := if PGSIZE - at > len - |out| then len - |out| else PGSIZE - at;
        ReadSees(old(tables), old(nm), old(data), tables, nm, data, r, psz, va, n);
        var b := data[p.value][at..at + n];
        assert b == data[Leaf(tables, nm, r, va / PGSIZE).ppn][va % PGSIZE..va % PGSIZE + n];
        assert forall k :: 0 <= k < |b| ==> Mem(old(tables), old(nm), old(data), r, va + k) == Some(b[k]);
        forall k | 0 <= k < |out| + n
          ensures Mem(old(tables), old(nm), old(data), r, src + k) == Some((out + b)[k])
        {
          if k >= |out| {
            var j := k - |out|;
            assert (out + b)[k] == b[j] && src + k == va + j;
            assert Mem(old(tables), old(nm), old(data), r, va + j) == Some(b[j]);
          } else {
            assert (out + b)[k] == out[k];
          }
        }
        out := out + b;
      }
      return true, out;
    }

    /** uvmcopy: the child gets the same pages, flags and bytes; if memory runs out it
        gets nothing and every mapping, page and byte is as before. */
    method Uvmcopy(r: nat, c: nat, sz: nat) returns (ok: bool)
      requires RootHome(r) in nm.at && RootHome(c) in nm.at && r != c && PgUp(sz) <= TRAPFRAME && Valid()
      requires forall w: nat :: w < PgUp(sz) ==> !Leaf(tables, nm, c, w).v
      modifies this`tables, this`data, this`free, this`nm, this`user, this`other
      ensures Valid() && other == old(other)
      ensures ok ==> Cloned(old(tables), old(nm), tables, nm, data, r, c, PgUp(sz))
                     && forall p :: p in old(data) ==> p in data && data[p] == old(data)[p]
      ensures !ok ==> SameMap(old(tables), old(nm), tables, nm) && user == old(user) && data == old(data)
    {
      hide NamesOk, Linked, Leaf, UserOk, Parts;
      var i := 0;
      ClonedNothing(tables, nm, data, r, c);
      while i * PGSIZE < sz
        invariant i <= PgUp(sz) && Valid() && other == old(other) && RootHome(r) in nm.at && RootHome(c) in nm.at
        invariant Cloned(old(tables), old(nm), tables, nm, data, r, c, i)
        invariant forall p :: p in old(data) ==> p in data && data[p] == old(data)[p]
        invariant forall p :: p in old(user) ==> p in user && user[p] == old(user)[p]
        invariant forall p :: p in user && p !in old(user) ==> user[p].root == c && user[p].v < i
        decreases sz - i * PGSIZE
      {
        var done := CloneOne(r, c, i, old(tables), old(nm));
        if !done {
          RollClone(r, c, i, old(tables), old(nm), old(user), old(data));
          return false;
        }
        i := i + 1;
      }
      return true;
    }

    /** The loop body of uvmcopy. */
    method CloneOne(r: nat, c: nat, i: nat, ghost t0: map<nat, Table>, ghost n0: Names) returns (ok: bool)
      requires RootHome(r) in nm.at && RootHome(c) in nm.at && r != c && i < TRAPFRAME && Valid()
      requires !Leaf(t0, n0, c, i).v && Cloned(t0, n0, tables, nm, data, r, c, i)
      modifies this`tables, this`data, this`free, this`nm, this`user, this`other
      ensures Valid() && other == old(other) && RootHome(r) in nm.at && RootHome(c) in nm.at
      ensures Cloned(t0, n0, tables, nm, data, r, c, if ok then i + 1 else i)
      ensures forall p :: p in old(data) ==> p in data && data[p] == old(data)[p]
      ensures forall p :: p in old(user) ==> p in user && user[p] == old(user)[p]
      ensures forall p :: p in user && p !in old(user) ==> ok && user[p] == Va(c, i)
    {
      hide NamesOk, Linked, Leaf, UserOk, Parts;
      var t := Walk(r, i, false);
      LeafIs(tables, nm, r, i);
      if t.None? || !tables[t.value][i % ENTRIES].v {
        ClonedSkip(t0, n0, tables, nm, data, r, c, i);
        return true;
      }
      var pte := tables[t.value][i % ENTRIES];
      UserHas(tables, nm, user, r, i);
      var p: nat;
      ok, p := MapUser(c, i, pte.f, data[pte.ppn]);
      if ok {
        ClonedNext(t0, n0, old(tables), old(nm), tables, nm, old(data), old(user), r, c, i, p);
      } else {
        ClonedKept(t0, n0, old(tables), old(nm), tables, nm, data, r, c, i, pte.f);
      }
    }

    method RollClone(r: nat, c: nat, i: nat, ghost t0: map<nat, Table>, ghost n0: Names,
                     ghost user0: map<nat, Va>, ghost data0: map<nat, Page>)
      requires RootHome(c) in nm.at && i <= TRAPFRAME && r != c && Valid()
      requires Cloned(t0, n0, tables, nm, data, r, c, i) && UserOk(t0, n0, user0) && data0.Keys == user0.Keys
      requires forall w: nat :: w < i ==> !Leaf(t0, n0, c, w).v
      requires forall p :: p in data0 ==> p in data && data[p] == data0[p]
      requires forall p :: p in user0 ==> p in user && user[p] == user0[p]
      requires forall p :: p in user && p !in user0 ==> user[p].root == c && user[p].v < i
      modifies this`tables, this`data, this`free, this`nm, this`user, this`other
      ensures Valid() && other == old(other)
      ensures SameMap(t0, n0, tables, nm) && user == user0 && data == data0
    {
      hide NamesOk, Linked, Leaf, UserOk, Parts;
      ghost var t1 := tables;
      Uvmunmap(c, 0, i, true);
      UserUndone(t0, n0, user0, old(user), c, 0, i);
      ClonedUndone(t0, n0, t1, tables, nm, old(data), r, c, i);
    }
  }

  /** In every page table the kernel builds, the hardware finds for a virtual page exactly
      the entry that walk finds, and faults exactly where walk finds none. */
  lemma TranslateAgrees(m: Memory, r: nat, v: nat)
    requires m.Valid() && RootHome(r) in m.nm.at && v < MAXVPN
    ensures var p := Leaf(m.tables, m.nm, r, v); Translate(m.tables, r, 2, v) == if p.v then Some(p) else None
  {
    hide Leaf, Parts, Translate;
    TranslateLeaf(m.tables, m.nm, r, v);
  }
}
