/** The doubly linked LRU list of kernel/bio.c and the loops that walk it.

    Buffers are the indices 0 .. n-1 and the list head is index n; `next` and
    `prev` are the pointer fields of struct buf.  `order` is the list read from
    head.next, most recently released first. */
module BufferList {
  import opened Basics
  import opened Journal
  import opened BufferCache

  /** Position p of the list read circularly, with the head at both ends. */
  function Ring(n: nat, order: seq<nat>): seq<nat> {
    [n] + order + [n]
  }

  function Without(order: seq<nat>, p: nat): (r: seq<nat>)
    requires p < |order|
    ensures Distinct(order) ==> Distinct(r) && order[p] !in r
    ensures forall x :: x in r ==> x in order
    ensures forall x :: x in order && x != order[p] ==> x in r
  {
    order[..p] + order[p + 1..]
  }

  /** bget's second loop: the last unreferenced buffer from the tail. */
  ghost predicate LeastRecent(order: seq<nat>, bufs: seq<Buf>, i: nat) {
    exists p :: 0 <= p < |order| && order[p] == i && i < |bufs| && bufs[i].refcnt == 0
      && forall q :: p < q < |order| && order[q] < |bufs| ==> bufs[order[q]].refcnt != 0
  }

  class Bcache {
    var bufs: seq<Buf>
    const n: nat
    const next: array<nat>
    const prev: array<nat>
    ghost var order: seq<nat>

    ghost predicate Linked()
      reads this, next, prev
    {
      && next.Length == prev.Length == n + 1 && next != prev
      && Distinct(order) && (forall p :: 0 <= p < |order| ==> order[p] < n)
      && var ring := Ring(n, order);
      forall p :: 0 <= p <= |order| ==> next[ring[p]] == ring[p + 1] && prev[ring[p + 1]] == ring[p]
    }

    /** Every buffer is on the list. */
    ghost predicate Valid()
      reads this, next, prev
    {
      Linked() && |bufs| == n && forall i: nat :: i < n ==> i in order
    }

    /** Insert at the head: the last four assignments of brelse, the loop body of binit. */
    method PushFront(b: nat)
      requires Linked() && b < n && b !in order
      modifies next, prev, this`order
      ensures Linked() && order == [b] + old(order)
    {
      ghost var ring := Ring(n, order);
      assert next[ring[0]] == ring[1] && prev[ring[1]] == ring[0];
      next[b] := next[n];
      prev[b] := n;
      prev[next[n]] := b;
      next[n] := b;
      order := [b] + order;
      ghost var ring' := Ring(n, order);
      assert ring' == [n, b] + ring[1..];
      forall p | 0 <= p <= |order|
        ensures next[ring'[p]] == ring'[p + 1] && prev[ring'[p + 1]] == ring'[p]
      {
        if p >= 2 {
          assert ring'[p] == ring[p - 1] == order[p - 1];
          assert next[ring[p - 1]] == ring[p] && old(prev[ring[p]]) == ring[p - 1];
          assert ring[p] != ring[1];
        }
      }
    }

    /** The first two assignments of brelse's list surgery. */
    method Unlink(b: nat, ghost p: nat)
      requires Linked() && p < |order| && order[p] == b
      modifies next, prev, this`order
      ensures Linked() && order == Without(old(order), p)
    {
      ghost var ring := Ring(n, order);
      assert ring[p + 1] == b;
      assert next[ring[p + 1]] == ring[p + 2] && prev[ring[p + 1]] == ring[p];
      prev[next[b]] := prev[b];
      next[prev[b]] := next[b];
      order := Without(order, p);
      ghost var ring' := Ring(n, order);
      assert forall q :: 0 <= q <= p ==> ring'[q] == ring[q];
      assert forall q :: p < q < |ring'| ==> ring'[q] == ring[q + 1];
    }

    /** binit: an empty ring, then every buffer pushed in turn. */
    constructor (n: nat)
      ensures Valid() && this.n == n && fresh(next) && fresh(prev)
      ensures bufs == seq(n, _ => FreshBuf())
      ensures |order| == n && forall p :: 0 <= p < n ==> order[p] == n - 1 - p
    {
      this.n := n;
      next := new nat[n + 1](_ => n);
      prev := new nat[n + 1](_ => n);
      order := [];
      bufs := seq(n, _ => FreshBuf());
      new;
      var b := 0;
      while b < n
        invariant Linked() && b <= n && |order| == b && fresh(next) && fresh(prev)
        invariant forall p :: 0 <= p < b ==> order[p] == b - 1 - p
        invariant bufs == seq(n, _ => FreshBuf())
        modifies this`order, next, prev
      {
        PushFront(b);
        b := b + 1;
      }
      forall i: nat | i < n
        ensures i in order
      {
        assert order[n - 1 - i] == i;
      }
    }

    /** bget under bcache.lock.  None is its panic. */
    method Bget(blockno: nat) returns (r: Option<nat>)
      requires Valid()
      modifies this`bufs
      ensures Valid() && order == old(order)
      ensures r.None? <==> BgetPanics(old(bufs), blockno)
      ensures r.None? ==> bufs == old(bufs)
      ensures r.Some? ==>
                Hit(old(bufs), r.value, blockno)
                || (Miss(old(bufs), blockno) && LeastRecent(order, old(bufs), r.value))
      ensures r.Some? ==> forall c: Cached :: c.bufs == old(bufs) && blockno < |c.j.st.disk| ==>
                CanGet(c, r.value, blockno) && bufs == AfterGet(c, r.value, blockno).bufs
    {
      ghost var ring := Ring(n, order);
      var b := next[n];
      ghost var p := 0;
      assert next[ring[0]] == ring[1];
      while b != n
        invariant p <= |order| && b == ring[p + 1]
        invariant forall q :: 0 <= q < p ==> !Hit(bufs, order[q], blockno)
        decreases |order| - p
      {
        assert b == order[p];
        if bufs[b].dev == ROOTDEV && bufs[b].blockno == blockno {
          bufs := bufs[b := bufs[b].(refcnt := bufs[b].refcnt + 1, waiting := bufs[b].waiting + 1)];
          return Some(b);
        }
        assert next[ring[p + 1]] == ring[p + 2];
        b := next[b];
        p := p + 1;
      }
      assert p == |order|;
      assert Miss(bufs, blockno) by {
        forall k | 0 <= k < |bufs|
          ensures !(bufs[k].dev == ROOTDEV && bufs[k].blockno == blockno)
        {
          assert k in order;
          var q :| 0 <= q < |order| && order[q] == k;
          assert !Hit(bufs, order[q], blockno);
        }
      }
      b := prev[n];
      p := |order|;
      assert prev[ring[|order| + 1]] == ring[|order|];
      while b != n
        invariant 0 <= p <= |order| && b == ring[p]
        invariant forall q :: p <= q < |order| ==> bufs[order[q]].refcnt != 0
        decreases p
      {
        assert b == order[p - 1];
        if bufs[b].refcnt == 0 {
          bufs := bufs[b := bufs[b].(dev := ROOTDEV, blockno := blockno, valid := false, refcnt := 1, waiting := 1)];
          return Some(b);
        }
        assert prev[ring[p]] == ring[p - 1];
        b := prev[b];
        p := p - 1;
      }
      assert p == 0;
      assert BgetPanics(bufs, blockno) by {
        forall k | 0 <= k < |bufs|
          ensures bufs[k].refcnt != 0
        {
          assert k in order;
          var q :| 0 <= q < |order| && order[q] == k;
        }
      }
      return None;
    }

    /** brelse by the holder of the buffer's lock: the last reference moves the
        buffer to the front of the list. */
    method Brelse(b: nat, ghost p: nat)
      requires Valid() && p < |order| && order[p] == b
      requires bufs[b].locked && !bufs[b].unlogged
      modifies this`bufs, this`order, next, prev
      ensures Valid()
      ensures bufs == old(bufs)[b := old(bufs)[b].(locked := false, refcnt := old(bufs)[b].refcnt - 1)]
      ensures order == if bufs[b].refcnt == 0 then [b] + Without(old(order), p) else old(order)
      ensures forall c: Cached, t: Tid :: c.bufs == old(bufs) && CanRelease(c, b, t) ==>
                bufs == AfterRelease(c, b, t).bufs
    {
      bufs := bufs[b := bufs[b].(locked := false, refcnt := bufs[b].refcnt - 1)];
      if bufs[b].refcnt == 0 {
        Unlink(b, p);
        PushFront(b);
      }
    }
  }
}
