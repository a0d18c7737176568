/** Sv39 page tables as trees of table pages (kernel/vm.c, kernel/riscv.h).

    Addresses are page numbers where the code works page by page.  `at` names every
    table page by its place: the root it belongs to, its level, and the part of the
    virtual page number that leads to it.  Tree says that following pointers and
    following names is the same. */
module PageTree {
  import opened Basics


  const PGSIZE := 4096
  const ENTRIES := 512
  /** Virtual page numbers below MAXVA; the two topmost pages hold the trampoline and
      the trapframe. */
  const MAXVPN := 0x400_0000
  const TRAMPOLINE := MAXVPN - 1
  const TRAPFRAME := MAXVPN - 2

  datatype Flags = Flags(r: bool, w: bool, x: bool, u: bool)
  datatype Pte = Pte(v: bool, ppn: nat, f: Flags)
  type Table = s: seq<Pte> | |s| == ENTRIES witness seq(ENTRIES, _ => NoPte())
  datatype Home = Home(root: nat, level: nat, prefix: nat)

  function NoFlags(): Flags { Flags(false, false, false, false) }
  function NoPte(): Pte { Pte(false, 0, NoFlags()) }
  function Pointer(p: nat): Pte { Pte(true, p, NoFlags()) }
  function EmptyTable(): Table { seq(ENTRIES, _ => NoPte()) }

  // ---------------------------------------------------------------- PTE words

  function Bit(b: bool): nat { if b then 1 else 0 }

  /** PA2PTE(pa) | flags, with pa the page's address. */
  function PteWord(p: Pte): nat {
    p.ppn * 1024 + Bit(p.v) + 2 * Bit(p.f.r) + 4 * Bit(p.f.w) + 8 * Bit(p.f.x) + 16 * Bit(p.f.u)
  }

  /** PTE2PA and the PTE_* tests, bit by bit. */
  function WordPte(w: nat): Pte {
    Pte(w % 2 == 1, w / 1024,
        Flags(w / 2 % 2 == 1, w / 2 / 2 % 2 == 1, w / 2 / 2 / 2 % 2 == 1, w / 2 / 2 / 2 / 2 % 2 == 1))
  }

  lemma Halve(a: nat, b: nat)
    requires b < 2
    ensures (2 * a + b) / 2 == a && (2 * a + b) % 2 == b
  {
  }

  lemma PteRoundTrip(p: Pte)
    ensures WordPte(PteWord(p)) == p
  {
    var w4 := 2 * (p.ppn * 32) + Bit(p.f.u);
    var w3 := 2 * w4 + Bit(p.f.x);
    var w2 := 2 * w3 + Bit(p.f.w);
    var w1 := 2 * w2 + Bit(p.f.r);
    assert PteWord(p) == 2 * w1 + Bit(p.v);
    Halve(p.ppn * 32, Bit(p.f.u));
    Halve(w4, Bit(p.f.x));
    Halve(w3, Bit(p.f.w));
    Halve(w2, Bit(p.f.r));
    Halve(w1, Bit(p.v));
  }

  // ---------------------------------------------------------------- indices

  /** PX(level, va), for levels 0, 1 and 2. */
  function PX(level: nat, v: nat): (r: nat)
    ensures r < ENTRIES
  {
    v / (if level == 0 then 1 else if level == 1 then ENTRIES else ENTRIES * ENTRIES) % ENTRIES
  }

  /** Distinct pages below MAXVA take distinct paths. */
  lemma PathsDistinct(v: nat, w: nat)
    requires v < ENTRIES * ENTRIES * ENTRIES && w < ENTRIES * ENTRIES * ENTRIES
    ensures PX(2, v) == PX(2, w) && PX(1, v) == PX(1, w) && PX(0, v) == PX(0, w) ==> v == w
  {
    Split(v);
    Split(w);
  }

  lemma Split(v: nat)
    requires v < ENTRIES * ENTRIES * ENTRIES
    ensures v / ENTRIES / ENTRIES == PX(2, v) && v / ENTRIES % ENTRIES == PX(1, v) && v % ENTRIES == PX(0, v)
    ensures v == PX(2, v) * ENTRIES * ENTRIES + PX(1, v) * ENTRIES + PX(0, v)
  {
    assert v / ENTRIES / ENTRIES == v / (ENTRIES * ENTRIES);
  }

  function Down(h: Home, i: nat): Home
    requires h.level > 0
  {
    Home(h.root, h.level - 1, h.prefix * ENTRIES + i)
  }

  function Up(h: Home): Home {
    Home(h.root, h.level + 1, h.prefix / ENTRIES)
  }

  // ---------------------------------------------------------------- trees

  /** The table page with a given name, and the name of a given table page. */
  datatype Names = Names(at: map<Home, nat>, home: map<nat, Home>)

  function Name(nm: Names, h: Home, t: nat): Names {
    Names(nm.at[h := t], nm.home[t := h])
  }

  ghost predicate NamesOk(tables: map<nat, Table>, nm: Names) {
    && (forall h :: h in nm.at ==> nm.at[h] in tables && h.level <= 2 && nm.at[h] in nm.home && nm.home[nm.at[h]] == h)
    && (forall t :: t in tables ==> t in nm.home && nm.home[t] in nm.at && nm.at[nm.home[t]] == t)
    && (forall h :: h in nm.at && h.level == 2 ==> nm.at[h] == h.root && h.prefix == 0)
    && (forall h :: h in nm.at && h.level < 2 ==> Up(h) in nm.at)
  }

  /** An entry of a table above the leaves is valid exactly when the table it should
      lead to exists, and then points there. */
  ghost predicate Linked(tables: map<nat, Table>, nm: Names) {
    forall h, i: nat :: h in nm.at && nm.at[h] in tables && h.level > 0 && i < ENTRIES ==>
      (tables[nm.at[h]][i].v <==> Down(h, i) in nm.at)
      && (tables[nm.at[h]][i].v ==> tables[nm.at[h]][i] == Pointer(nm.at[Down(h, i)]))
  }

  ghost predicate Tree(tables: map<nat, Table>, nm: Names) {
    NamesOk(tables, nm) && Linked(tables, nm)
  }

  function RootHome(r: nat): Home { Home(r, 2, 0) }
  function LeafHome(r: nat, v: nat): Home { Home(r, 0, v / ENTRIES) }

  /** The leaf entry for a virtual page, as a flat map: what the tree means. */
  function Leaf(tables: map<nat, Table>, nm: Names, r: nat, v: nat): Pte {
    if LeafHome(r, v) in nm.at && nm.at[LeafHome(r, v)] in tables then tables[nm.at[LeafHome(r, v)]][v % ENTRIES] else NoPte()
  }

  /** walk() without allocation: the level-0 table for v, or none. */
  function Walk(tables: map<nat, Table>, r: nat, v: nat): Option<nat> {
    if r !in tables || !tables[r][PX(2, v)].v then None
    else
      var t1 := tables[r][PX(2, v)].ppn;
      if t1 !in tables || !tables[t1][PX(1, v)].v then None
      else Some(tables[t1][PX(1, v)].ppn)
  }

  /** Following pointers finds the table whose name says it holds v. */
  lemma WalkFinds(tables: map<nat, Table>, nm: Names, r: nat, v: nat)
    requires Tree(tables, nm) && RootHome(r) in nm.at && v < MAXVPN
    ensures Walk(tables, r, v) == if LeafHome(r, v) in nm.at then Some(nm.at[LeafHome(r, v)]) else None
  {
    Split(v);
    var h := RootHome(r);
    var h1 := Down(h, PX(2, v));
    var h0 := Home(r, 0, v / ENTRIES);
    assert nm.at[h] == r;
    assert h1.prefix == v / ENTRIES / ENTRIES && Up(h0) == h1 && Up(h1) == h;
    assert h1 in nm.at ==> Down(h1, PX(1, v)) == h0;
  }

  // ---------------------------------------------------------------- the hardware's walk

  /** Steps 1 to 5 of the translation algorithm in section 4.3.2 of the RISC-V
      Privileged Architecture, version 20211203, for Sv39: from table a at level i. */
  function Translate(tables: map<nat, Table>, a: nat, i: nat, v: nat): Option<Pte>
    requires i <= 2
    decreases i
  {
    if a !in tables then None
    else
      var pte := tables[a][PX(i, v)];
      if !pte.v || (!pte.f.r && pte.f.w) then None
      else if pte.f.r || pte.f.x then
        if i > 0 && pte.ppn % (if i == 1 then ENTRIES else ENTRIES * ENTRIES) != 0 then None
        else if i > 0 then Some(pte.(ppn := pte.ppn + v % (if i == 1 then ENTRIES else ENTRIES * ENTRIES)))
        else Some(pte)
      else if i == 0 then None
      else Translate(tables, pte.ppn, i - 1, v)
  }

  /** The hardware takes an entry with these flags for a leaf, and not for a reserved one. */
  predicate LeafFlags(f: Flags) {
    (f.r || f.x) && (f.w ==> f.r)
  }

  predicate Proper(p: Pte) {
    p.v ==> LeafFlags(p.f)
  }

  /** The software walk and the hardware's agree where the leaf is proper. */
  lemma TranslateLeaf(tables: map<nat, Table>, nm: Names, r: nat, v: nat)
    requires Tree(tables, nm) && RootHome(r) in nm.at && v < MAXVPN && Proper(Leaf(tables, nm, r, v))
    ensures Translate(tables, r, 2, v) == if Leaf(tables, nm, r, v).v then Some(Leaf(tables, nm, r, v)) else None
  {
    Split(v);
    var h := RootHome(r);
    var h1 := Down(h, PX(2, v));
    var h0 := LeafHome(r, v);
    assert nm.at[h] == r;
    assert h1.prefix == v / ENTRIES / ENTRIES && Up(h0) == h1 && Up(h1) == h;
    if h1 in nm.at {
      assert Down(h1, PX(1, v)) == h0;
      assert Translate(tables, r, 2, v) == Translate(tables, nm.at[h1], 1, v);
    }
  }

  // ---------------------------------------------------------------- changing a tree

  /** The tables and names after a fresh table c is hung into slot i of h. */
  function Hang(tables: map<nat, Table>, nm: Names, h: Home, i: nat, c: nat): map<nat, Table>
    requires h in nm.at && nm.at[h] in tables && i < ENTRIES
  {
    tables[c := EmptyTable()][nm.at[h] := tables[nm.at[h]][i := Pointer(c)]]
  }

  /** Hanging a fresh, empty table into an empty slot changes no leaf. */
  lemma AddTable(tables: map<nat, Table>, nm: Names, h: Home, i: nat, c: nat)
    requires h in nm.at && nm.at[h] in tables && h.level > 0 && i < ENTRIES && !tables[nm.at[h]][i].v && c !in tables
    requires Tree(tables, nm)
    ensures Tree(Hang(tables, nm, h, i, c), Name(nm, Down(h, i), c))
    ensures forall r, v: nat :: Leaf(Hang(tables, nm, h, i, c), Name(nm, Down(h, i), c), r, v) == Leaf(tables, nm, r, v)
  {
    var d := Down(h, i);
    var tables' := Hang(tables, nm, h, i, c);
    var nm' := Name(nm, d, c);
    DownUp(h, i);
    assert d !in nm.at && Up(d) == h;
    forall k, j: nat | k in nm'.at && k.level > 0 && j < ENTRIES
      ensures (tables'[nm'.at[k]][j].v <==> Down(k, j) in nm'.at)
              && (tables'[nm'.at[k]][j].v ==> tables'[nm'.at[k]][j] == Pointer(nm'.at[Down(k, j)]))
    {
      HangEntry(tables, nm, h, i, c, k, j);
    }
    HangLeaves(tables, nm, h, i, c);
  }

  lemma HangEntry(tables: map<nat, Table>, nm: Names, h: Home, i: nat, c: nat, k: Home, j: nat)
    requires h in nm.at && nm.at[h] in tables && h.level > 0 && i < ENTRIES && !tables[nm.at[h]][i].v && c !in tables
    requires Tree(tables, nm) && k in Name(nm, Down(h, i), c).at && k.level > 0 && j < ENTRIES
    ensures var tables', nm' := Hang(tables, nm, h, i, c), Name(nm, Down(h, i), c);
            && nm'.at[k] in tables'
            && (tables'[nm'.at[k]][j].v <==> Down(k, j) in nm'.at)
            && (tables'[nm'.at[k]][j].v ==> tables'[nm'.at[k]][j] == Pointer(nm'.at[Down(k, j)]))
  {
    DownUp(k, j);
    DownUp(h, i);
  }

  lemma HangLeaves(tables: map<nat, Table>, nm: Names, h: Home, i: nat, c: nat)
    requires h in nm.at && nm.at[h] in tables && h.level > 0 && i < ENTRIES && !tables[nm.at[h]][i].v && c !in tables
    requires Tree(tables, nm)
    ensures forall r, v: nat :: Leaf(Hang(tables, nm, h, i, c), Name(nm, Down(h, i), c), r, v) == Leaf(tables, nm, r, v)
  {
  }

  lemma DownUp(h: Home, i: nat)
    requires h.level > 0 && i < ENTRIES
    ensures Up(Down(h, i)) == h && Down(h, i).prefix % ENTRIES == i
  {
  }

  /** Writing a leaf entry changes that page and no other, in any page table. */
  lemma SetLeaf(tables: map<nat, Table>, nm: Names, r: nat, v: nat, p: Pte)
    requires Tree(tables, nm) && LeafHome(r, v) in nm.at
    ensures var t := nm.at[LeafHome(r, v)];
            var tables' := tables[t := tables[t][v % ENTRIES := p]];
            && Tree(tables', nm)
            && forall q, w: nat :: Leaf(tables', nm, q, w) == if q == r && w == v then p else Leaf(tables, nm, q, w)
  {
  }

  /** A new root (uvmcreate). */
  lemma AddRoot(tables: map<nat, Table>, nm: Names, c: nat)
    requires Tree(tables, nm) && c !in tables
    ensures var tables' := tables[c := EmptyTable()];
            var nm' := Name(nm, RootHome(c), c);
            && RootHome(c) !in nm.at && Tree(tables', nm')
            && (forall q, v: nat :: Leaf(tables', nm', q, v) == Leaf(tables, nm, q, v))
            && (forall h :: h in nm.at ==> h.root != c)
  {
    var tables', nm' := tables[c := EmptyTable()], Name(nm, RootHome(c), c);
    hide NamesOk, Linked;
    NewRootTree(tables, nm, c);
    forall h | h in nm.at
      ensures h.root != c
    {
      RootOf(tables, nm, h);
    }
  }

  lemma NewRootTree(tables: map<nat, Table>, nm: Names, c: nat)
    requires c !in tables && Tree(tables, nm)
    ensures RootHome(c) !in nm.at && Tree(tables[c := EmptyTable()], Name(nm, RootHome(c), c))
  {
    hide NamesOk, Linked;
    forall h | h in nm.at
      ensures h.root != c && nm.at[h] in tables
    {
      RootOf(tables, nm, h);
    }
    NewRootNames(tables, nm, c);
    NewRootLinks(tables, nm, c);
  }

  lemma NewRootNames(tables: map<nat, Table>, nm: Names, c: nat)
    requires c !in tables && NamesOk(tables, nm) && forall h :: h in nm.at ==> h.root != c
    ensures NamesOk(tables[c := EmptyTable()], Name(nm, RootHome(c), c))
  {
  }

  lemma NewRootLinks(tables: map<nat, Table>, nm: Names, c: nat)
    requires c !in tables && Linked(tables, nm) && forall h :: h in nm.at ==> h.root != c && nm.at[h] in tables
    ensures Linked(tables[c := EmptyTable()], Name(nm, RootHome(c), c))
  {
  }

  /** Every table's root is there. */
  lemma RootOf(tables: map<nat, Table>, nm: Names, h: Home)
    requires h in nm.at && NamesOk(tables, nm)
    ensures h.root in tables && RootHome(h.root) in nm.at && nm.at[RootHome(h.root)] == h.root && nm.at[h] in tables
  {
    var k := if h.level == 2 then h else if h.level == 1 then Up(h) else Up(Up(h));
    assert k in nm.at && k.level == 2;
  }

  lemma RootNamed(tables: map<nat, Table>, nm: Names, r: nat)
    requires RootHome(r) in nm.at && Tree(tables, nm)
    ensures nm.at[RootHome(r)] == r && r in tables
  {
  }

  lemma LinkedAt(tables: map<nat, Table>, nm: Names, h: Home, i: nat)
    requires h in nm.at && nm.at[h] in tables && h.level > 0 && i < ENTRIES && Tree(tables, nm)
    ensures tables[nm.at[h]][i].v <==> Down(h, i) in nm.at
    ensures tables[nm.at[h]][i].v ==> tables[nm.at[h]][i].ppn == nm.at[Down(h, i)] && nm.at[Down(h, i)] in tables
  {
  }

  /** If a table on the way to v is missing, so is v's leaf table. */
  lemma PathMissing(tables: map<nat, Table>, nm: Names, r: nat, v: nat, d: Home)
    requires d !in nm.at && (d == LeafHome(r, v) || d == Home(r, 1, v / ENTRIES / ENTRIES)) && Tree(tables, nm)
    ensures LeafHome(r, v) !in nm.at
  {
    assert LeafHome(r, v) in nm.at ==> Up(LeafHome(r, v)) in nm.at;
  }

  lemma LeafIs(tables: map<nat, Table>, nm: Names, r: nat, v: nat)
    requires Tree(tables, nm)
    ensures LeafHome(r, v) in nm.at ==>
              nm.at[LeafHome(r, v)] in tables && Leaf(tables, nm, r, v) == tables[nm.at[LeafHome(r, v)]][v % ENTRIES]
    ensures LeafHome(r, v) !in nm.at ==> Leaf(tables, nm, r, v) == NoPte()
  {
  }
}
