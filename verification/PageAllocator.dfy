/** The page allocator of the memory pool: a doubly linked list of free blocks,
    sorted by size, that requests are served from. */
module PageAllocator {

  type Addr = nat

  datatype Ptr = Null | At(a: Addr)

  /** The least memory that is asked from the system, in bytes. */
  const POOL_MMAP: nat := 128 * 1024 * 1024

  // ---------- The list ----------

  function PtrAt(order: seq<Addr>, i: int): Ptr {
    if 0 <= i < |order| then At(order[i]) else Null
  }

  function PtrOf(m: map<Addr, Ptr>, a: Addr): Ptr {
    if a in m then m[a] else Null
  }

  function SizeOf(m: map<Addr, nat>, a: Addr): nat {
    if a in m then m[a] else 0
  }

  /** The links of the block at place `i` lead to its neighbours. */
  predicate LinkOk(order: seq<Addr>, next: map<Addr, Ptr>, prev: map<Addr, Ptr>, i: int) {
    0 <= i < |order| ==> PtrOf(next, order[i]) == PtrAt(order, i + 1) && PtrOf(prev, order[i]) == PtrAt(order, i - 1)
  }

  predicate Distinct(order: seq<Addr>) {
    forall i, j :: 0 <= i < j < |order| ==> order[i] != order[j]
  }

  predicate Sorted(order: seq<Addr>, size: map<Addr, nat>) {
    forall i, j :: 0 <= i < j < |order| ==> SizeOf(size, order[i]) <= SizeOf(size, order[j])
  }

  /** The blocks in `order` are linked in both directions. */
  ghost predicate Linked(order: seq<Addr>, head: Ptr, next: map<Addr, Ptr>, prev: map<Addr, Ptr>) {
    && head == PtrAt(order, 0) && Distinct(order)
    && forall i: int {:trigger LinkOk(order, next, prev, i)} :: LinkOk(order, next, prev, i)
  }

  function Sum(order: seq<Addr>, size: map<Addr, nat>): nat {
    if order == [] then 0 else SizeOf(size, order[0]) + Sum(order[1..], size)
  }

  lemma {:induction false} SumSplit(a: seq<Addr>, b: seq<Addr>, size: map<Addr, nat>)
    ensures Sum(a + b, size) == Sum(a, size) + Sum(b, size)
    decreases |a|
  {
    if a == [] {
      assert a + b == b;
    } else {
      assert (a + b)[1..] == a[1..] + b;
      SumSplit(a[1..], b, size);
    }
  }

  lemma {:induction false} SumSame(order: seq<Addr>, size: map<Addr, nat>, size': map<Addr, nat>)
    requires forall i :: 0 <= i < |order| ==> SizeOf(size', order[i]) == SizeOf(size, order[i])
    ensures Sum(order, size') == Sum(order, size)
    decreases |order|
  {
    if order != [] { SumSame(order[1..], size, size'); }
  }

  function InsertAt(order: seq<Addr>, i: nat, b: Addr): seq<Addr>
    requires i <= |order|
  {
    order[..i] + [b] + order[i..]
  }

  function RemoveAt(order: seq<Addr>, i: nat): seq<Addr>
    requires i < |order|
  {
    order[..i] + order[i + 1..]
  }

  lemma InsertedAt(order: seq<Addr>, i: nat, b: Addr, j: int)
    requires i <= |order|
    ensures PtrAt(InsertAt(order, i, b), j) == if j < i then PtrAt(order, j) else if j == i then At(b) else PtrAt(order, j - 1)
  {
  }

  lemma RemovedAt(order: seq<Addr>, i: nat, j: int)
    requires i < |order|
    ensures PtrAt(RemoveAt(order, i), j) == if j < i then PtrAt(order, j) else PtrAt(order, j + 1)
  {
  }

  /** The effect of the pointer writes of an insertion between two neighbours. */
  function Before(next: map<Addr, Ptr>, b: Addr, p: Ptr, n: Ptr): map<Addr, Ptr> {
    var m := next[b := n];
    match p case Null => m case At(a) => m[a := At(b)]
  }

  lemma InsertLinks(order: seq<Addr>, head: Ptr, next: map<Addr, Ptr>, prev: map<Addr, Ptr>, i: nat, b: Addr)
    requires Linked(order, head, next, prev) && i <= |order| && b !in order
    ensures var p, n := PtrAt(order, i - 1), PtrAt(order, i);
      Linked(InsertAt(order, i, b), if p == Null then At(b) else head, Before(next, b, p, n), Before(prev, b, n, p))
  {
    var p, n := PtrAt(order, i - 1), PtrAt(order, i);
    var order', next', prev' := InsertAt(order, i, b), Before(next, b, p, n), Before(prev, b, n, p);
    forall j: int {:trigger LinkOk(order', next', prev', j)} ensures LinkOk(order', next', prev', j) {
      InsertedAt(order, i, b, j - 1);
      InsertedAt(order, i, b, j);
      InsertedAt(order, i, b, j + 1);
      assert LinkOk(order, next, prev, j) && LinkOk(order, next, prev, j - 1);
    }
    InsertedAt(order, i, b, 0);
  }

  /** The effect of the pointer writes of a removal. */
  function Around(next: map<Addr, Ptr>, p: Ptr, n: Ptr): map<Addr, Ptr> {
    match p case Null => next case At(a) => next[a := n]
  }

  lemma RemoveLinks(order: seq<Addr>, head: Ptr, next: map<Addr, Ptr>, prev: map<Addr, Ptr>, i: nat)
    requires Linked(order, head, next, prev) && i < |order|
    ensures var p, n := PtrAt(order, i - 1), PtrAt(order, i + 1);
      Linked(RemoveAt(order, i), if p == Null then n else head, Around(next, p, n), Around(prev, n, p))
  {
    var p, n := PtrAt(order, i - 1), PtrAt(order, i + 1);
    var order', next', prev' := RemoveAt(order, i), Around(next, p, n), Around(prev, n, p);
    forall j: int {:trigger LinkOk(order', next', prev', j)} ensures LinkOk(order', next', prev', j) {
      RemovedAt(order, i, j - 1);
      RemovedAt(order, i, j);
      RemovedAt(order, i, j + 1);
      assert LinkOk(order, next, prev, j) && LinkOk(order, next, prev, j + 1);
    }
    RemovedAt(order, i, 0);
  }

  lemma SumInsert(order: seq<Addr>, i: nat, b: Addr, size: map<Addr, nat>)
    requires i <= |order|
    ensures Sum(InsertAt(order, i, b), size) == Sum(order, size) + SizeOf(size, b)
  {
    SumSplit(order[..i], [b], size);
    SumSplit(order[..i] + [b], order[i..], size);
    SumSplit(order[..i], order[i..], size);
    assert order == order[..i] + order[i..];
    assert Sum([b], size) == SizeOf(size, b) + Sum([], size);
  }

  lemma SumRemove(order: seq<Addr>, i: nat, size: map<Addr, nat>)
    requires i < |order|
    ensures Sum(order, size) == Sum(RemoveAt(order, i), size) + SizeOf(size, order[i])
  {
    SumInsert(RemoveAt(order, i), i, order[i], size);
    assert order == InsertAt(RemoveAt(order, i), i, order[i]);
  }

  lemma SumUpdate(order: seq<Addr>, i: nat, size: map<Addr, nat>, v: nat)
    requires i < |order| && Distinct(order)
    ensures Sum(order, size[order[i] := v]) == Sum(order, size) - SizeOf(size, order[i]) + v
  {
    var size' := size[order[i] := v];
    SumRemove(order, i, size);
    SumRemove(order, i, size');
    SumSame(RemoveAt(order, i), size, size');
  }

  /** Among the elements of a list from which one is removed. */
  lemma RemovedIn(order: seq<Addr>, i: nat, a: Addr)
    requires i < |order| && Distinct(order)
    ensures a in RemoveAt(order, i) <==> a in order && a != order[i]
  {
    if a in order && a != order[i] {
      var j :| 0 <= j < |order| && order[j] == a;
      assert RemoveAt(order, i)[if j < i then j else j - 1] == a;
    }
  }

  // ---------- Regions of memory ----------

  predicate Apart(a: Addr, n: nat, b: Addr, m: nat) {
    a + n <= b || b + m <= a
  }

  /** No two regions overlap. */
  ghost predicate Disjoint(r: map<Addr, nat>) {
    forall a, b {:trigger Apart(a, SizeOf(r, a), b, SizeOf(r, b))} ::
      a in r && b in r && a != b ==> Apart(a, SizeOf(r, a), b, SizeOf(r, b))
  }

  ghost predicate DisjointFrom(r: map<Addr, nat>, q: map<Addr, nat>) {
    forall a, b {:trigger Apart(a, SizeOf(r, a), b, SizeOf(q, b))} ::
      a in r && b in q ==> Apart(a, SizeOf(r, a), b, SizeOf(q, b))
  }

  predicate Positive(r: map<Addr, nat>) {
    forall a :: a in r ==> r[a] > 0
  }

  /** Free blocks and outstanding allocations are apart from each other. */
  ghost predicate Regions(free: map<Addr, nat>, busy: map<Addr, nat>) {
    Positive(free) && Positive(busy) && Disjoint(free) && Disjoint(busy) && DisjointFrom(free, busy)
  }

  ghost predicate ApartFromAll(a: Addr, n: nat, r: map<Addr, nat>) {
    forall b {:trigger Apart(a, n, b, SizeOf(r, b))} :: b in r ==> Apart(a, n, b, SizeOf(r, b))
  }

  lemma ShrinkDisjoint(r: map<Addr, nat>, b: Addr, n: nat)
    requires Disjoint(r) && b in r && n <= r[b]
    ensures Disjoint(r[b := n])
  {
    var r' := r[b := n];
    forall c, d {:trigger Apart(c, SizeOf(r', c), d, SizeOf(r', d))} | c in r' && d in r' && c != d
      ensures Apart(c, SizeOf(r', c), d, SizeOf(r', d))
    {
      assert Apart(c, SizeOf(r, c), d, SizeOf(r, d));
    }
  }

  lemma AddDisjoint(r: map<Addr, nat>, a: Addr, n: nat)
    requires Disjoint(r) && a !in r && ApartFromAll(a, n, r)
    ensures Disjoint(r[a := n])
  {
    var r' := r[a := n];
    forall c, d {:trigger Apart(c, SizeOf(r', c), d, SizeOf(r', d))} | c in r' && d in r' && c != d
      ensures Apart(c, SizeOf(r', c), d, SizeOf(r', d))
    {
      assert c == a ==> Apart(a, n, d, SizeOf(r, d));
      assert d == a ==> Apart(a, n, c, SizeOf(r, c));
      assert c != a && d != a ==> Apart(c, SizeOf(r, c), d, SizeOf(r, d));
    }
  }

  /** Serving a request from the end of a block. */
  lemma CutRegion(free: map<Addr, nat>, busy: map<Addr, nat>, b: Addr, n: nat)
    requires Regions(free, busy) && b in free && 0 < n < free[b]
    ensures Regions(free[b := free[b] - n], busy[b + (free[b] - n) := n]) && b + (free[b] - n) !in busy
  {
    var rem := free[b] - n;
    var p := b + rem;
    var free', busy' := free[b := rem], busy[p := n];
    ShrinkDisjoint(free, b, rem);
    forall a {:trigger Apart(p, n, a, SizeOf(busy, a))} | a in busy ensures Apart(p, n, a, SizeOf(busy, a)) {
      assert Apart(b, SizeOf(free, b), a, SizeOf(busy, a));
    }
    forall a | a in busy ensures a != p { assert Apart(b, SizeOf(free, b), a, SizeOf(busy, a)); }
    AddDisjoint(busy, p, n);
    forall c, d {:trigger Apart(c, SizeOf(free', c), d, SizeOf(busy', d))} | c in free' && d in busy'
      ensures Apart(c, SizeOf(free', c), d, SizeOf(busy', d))
    {
      if d == p {
        if c != b { assert Apart(c, SizeOf(free, c), b, SizeOf(free, b)); }
      } else {
        assert Apart(c, SizeOf(free, c), d, SizeOf(busy, d));
      }
    }
  }

  /** Serving a request with a whole block, and taking memory back. */
  lemma MoveRegion(from: map<Addr, nat>, to: map<Addr, nat>, b: Addr)
    requires Regions(from, to) && b in from
    ensures Regions(from - {b}, to[b := from[b]]) && b !in to
  {
    var from', to' := from - {b}, to[b := from[b]];
    forall a {:trigger Apart(b, from[b], a, SizeOf(to, a))} | a in to ensures Apart(b, from[b], a, SizeOf(to, a)) {
      assert Apart(b, SizeOf(from, b), a, SizeOf(to, a));
    }
    forall a | a in to ensures a != b { assert Apart(b, SizeOf(from, b), a, SizeOf(to, a)); }
    AddDisjoint(to, b, from[b]);
    forall c, d {:trigger Apart(c, SizeOf(from', c), d, SizeOf(from', d))} | c in from' && d in from' && c != d
      ensures Apart(c, SizeOf(from', c), d, SizeOf(from', d))
    {
      assert Apart(c, SizeOf(from, c), d, SizeOf(from, d));
    }
    forall c, d {:trigger Apart(c, SizeOf(from', c), d, SizeOf(to', d))} | c in from' && d in to'
      ensures Apart(c, SizeOf(from', c), d, SizeOf(to', d))
    {
      assert d == b ==> Apart(c, SizeOf(from, c), b, SizeOf(from, b));
      assert d != b ==> Apart(c, SizeOf(from, c), d, SizeOf(to, d));
    }
  }

  lemma RegionsSwap(free: map<Addr, nat>, busy: map<Addr, nat>)
    requires Regions(free, busy)
    ensures Regions(busy, free)
  {
    forall a, b {:trigger Apart(a, SizeOf(busy, a), b, SizeOf(free, b))} | a in busy && b in free
      ensures Apart(a, SizeOf(busy, a), b, SizeOf(free, b))
    {
      assert Apart(b, SizeOf(free, b), a, SizeOf(busy, a));
    }
  }

  /** Fresh memory as a free block. */
  lemma NewRegion(free: map<Addr, nat>, busy: map<Addr, nat>, a: Addr, n: nat)
    requires Regions(free, busy) && n > 0 && ApartFromAll(a, n, free) && ApartFromAll(a, n, busy)
    ensures Regions(free[a := n], busy) && a !in free && a !in busy
  {
    var free' := free[a := n];
    forall c | c in free ensures c != a { assert Apart(a, n, c, SizeOf(free, c)); }
    forall c | c in busy ensures c != a { assert Apart(a, n, c, SizeOf(busy, c)); }
    AddDisjoint(free, a, n);
    forall c, d {:trigger Apart(c, SizeOf(free', c), d, SizeOf(busy, d))} | c in free' && d in busy
      ensures Apart(c, SizeOf(free', c), d, SizeOf(busy, d))
    {
      assert c == a ==> Apart(a, n, d, SizeOf(busy, d));
      assert c != a ==> Apart(c, SizeOf(free, c), d, SizeOf(busy, d));
    }
  }

  /** Fresh memory, of which the end serves a request. */
  lemma FreshBlock(free: map<Addr, nat>, busy: map<Addr, nat>, a: Addr, n: nat)
    requires Regions(free, busy) && 0 < n < POOL_MMAP && ApartFromAll(a, POOL_MMAP, free) && ApartFromAll(a, POOL_MMAP, busy)
    ensures Regions(free[a := POOL_MMAP - n], busy[a + (POOL_MMAP - n) := n])
    ensures a !in free && a + (POOL_MMAP - n) !in busy
  {
    NewRegion(free, busy, a, POOL_MMAP);
    CutRegion(free[a := POOL_MMAP], busy, a, n);
    assert free[a := POOL_MMAP][a := POOL_MMAP - n] == free[a := POOL_MMAP - n];
  }

  // ---------- The allocator ----------

  /** Place `i` is behind the blocks that are not larger than `n`, and before the
      larger ones. */
  predicate Place(order: seq<Addr>, size: map<Addr, nat>, n: nat, i: nat) {
    && i <= |order|
    && (forall j :: 0 <= j < i ==> SizeOf(size, order[j]) <= n)
    && (forall j :: i <= j < |order| ==> n < SizeOf(size, order[j]))
  }

  /** The first block of a sorted list that is large enough is the smallest one. */
  predicate BestFit(size: map<Addr, nat>, n: nat, b: Addr) {
    b in size && size[b] >= n && forall a :: a in size && size[a] >= n ==> size[b] <= size[a]
  }

  /** The blocks without what a request of `n` takes from block `b`. */
  function Cut(size: map<Addr, nat>, b: Addr, n: nat): map<Addr, nat> {
    if SizeOf(size, b) > n then size[b := SizeOf(size, b) - n] else size - {b}
  }

  class Pages {
    var head: Ptr
    var next: map<Addr, Ptr>
    var prev: map<Addr, Ptr>
    var size: map<Addr, nat>
    var total: nat
    ghost var order: seq<Addr>
    ghost var busy: map<Addr, nat>

    /** The list holds the blocks in `size`, sorted and linked both ways, the
        total is their sum, and no two regions overlap; `busy` are the allocations
        that were not given back. */
    ghost predicate Valid()
      reads this
    {
      ListOk() && Regions(size, busy)
    }

    ghost predicate ListOk()
      reads this`order, this`head, this`next, this`prev, this`size, this`total
    {
      && Linked(order, head, next, prev) && Sorted(order, size)
      && (forall a :: a in order <==> a in size) && total == Sum(order, size)
    }

    constructor ()
      ensures Valid() && size == map[] && busy == map[] && total == 0
    {
      head, next, prev, size, total := Null, map[], map[], map[], 0;
      order, busy := [], map[];
    }

    method Remove(block: Addr, ghost i: nat)
      requires Linked(order, head, next, prev) && i < |order| && order[i] == block
      modifies `head, `next, `prev, `order
      ensures unchanged(`size, `total, `busy) && Linked(order, head, next, prev) && order == RemoveAt(old(order), i)
    {
      assert LinkOk(order, next, prev, i);
      RemoveLinks(order, head, next, prev, i);
      var p, n := PtrOf(prev, block), PtrOf(next, block);
      match p {
        case At(a) => next := next[a := n];
        case Null => head := n;
      }
      match n {
        case At(a) => prev := prev[a := p];
        case Null =>
      }
      order := RemoveAt(order, i);
    }

    /** The neighbours of the place where a block of the size belongs. */
    method FindPlace(s: nat) returns (p: Ptr, n: Ptr, ghost i: nat)
      requires Linked(order, head, next, prev) && Sorted(order, size)
      ensures Place(order, size, s, i) && p == PtrAt(order, i - 1) && n == PtrAt(order, i)
    {
      n, p := head, Null;
      i := 0;
      while n.At?
        invariant i <= |order| && n == PtrAt(order, i) && p == PtrAt(order, i - 1)
        invariant forall j :: 0 <= j < i ==> SizeOf(size, order[j]) <= s
        decreases |order| - i
      {
        if s < SizeOf(size, n.a) { break; }
        assert LinkOk(order, next, prev, i);
        p := n;
        n := PtrOf(next, n.a);
        i := i + 1;
      }
    }

    /** Puts a block into the list, behind the blocks that are not larger. */
    method Insert(block: Addr) returns (ghost i: nat)
      requires Linked(order, head, next, prev) && Sorted(order, size) && block !in order
      modifies `head, `next, `prev, `order
      ensures unchanged(`size, `total, `busy) && Linked(order, head, next, prev) && Sorted(order, size)
      ensures Place(old(order), size, SizeOf(size, block), i) && order == InsertAt(old(order), i, block)
    {
      var p, n;
      p, n, i := FindPlace(SizeOf(size, block));
      InsertLinks(order, head, next, prev, i, block);
      InsertSorted(order, size, i, block);
      next := next[block := n];
      prev := prev[block := p];
      match p {
        case At(a) => next := next[a := At(block)];
        case Null => head := At(block);
      }
      match n {
        case At(a) => prev := prev[a := At(block)];
        case Null =>
      }
      order := InsertAt(order, i, block);
    }

    /** Takes a block out of the list and puts it where it belongs. */
    method Resort(block: Addr, ghost i: nat) returns (ghost j: nat)
      requires Linked(order, head, next, prev) && i < |order| && order[i] == block && Sorted(RemoveAt(order, i), size)
      modifies `head, `next, `prev, `order
      ensures unchanged(`size, `total, `busy)
      ensures Linked(order, head, next, prev) && Sorted(order, size) && Sum(order, size) == old(Sum(order, size))
      ensures forall a :: a in order <==> a in old(order)
      ensures Place(RemoveAt(old(order), i), size, SizeOf(size, block), j)
      ensures order == InsertAt(RemoveAt(old(order), i), j, block)
    {
      ghost var o := order;
      SumRemove(o, i, size);
      Remove(block, i);
      InRemoved(o, i);
      j := Insert(block);
      SumInsert(RemoveAt(o, i), j, block, size);
      InInserted(RemoveAt(o, i), j, block);
    }

    /** Takes a block out of the list. */
    method Drop(block: Addr, ghost i: nat)
      requires ListOk() && i < |order| && order[i] == block
      modifies `head, `next, `prev, `order, `size, `total
      ensures unchanged(`busy) && ListOk() && size == old(size) - {block} && total == old(total) - SizeOf(old(size), block)
    {
      DropBlock(order, size, i);
      var n := SizeOf(size, block);
      Remove(block, i);
      total := total - n;
      size := size - {block};
    }

    /** Makes a block smaller, wherever it goes. */
    method Lessen(block: Addr, rem: nat, ghost i: nat)
      requires ListOk() && i < |order| && order[i] == block && rem <= SizeOf(size, block)
      modifies `head, `next, `prev, `order, `size, `total
      ensures unchanged(`busy) && ListOk()
      ensures size == old(size)[block := rem] && total == old(total) - (SizeOf(old(size), block) - rem)
    {
      var _, _ := Shrink(block, rem, i);
    }

    /** Records a region that was handed out. */
    ghost method Occupy(p: Addr, n: nat)
      modifies `busy
      ensures unchanged(`head, `next, `prev, `order, `size, `total) && busy == old(busy)[p := n]
    {
      busy := busy[p := n];
    }

    /** Takes `n` bytes from the end of a larger block. */
    method TakePart(block: Addr, n: nat, ghost i: nat) returns (p: Addr)
      requires Valid() && i < |order| && order[i] == block && 0 < n < SizeOf(size, block)
      modifies this
      ensures Valid() && size == Cut(old(size), block, n) && busy == old(busy)[p := n] && p !in old(busy)
      ensures total == old(total) - n && p == block + (SizeOf(old(size), block) - n)
    {
      var rem := SizeOf(size, block) - n;
      CutRegion(size, busy, block, n);
      Lessen(block, rem, i);
      Occupy(block + rem, n);
      return block + rem;
    }

    /** Takes a block that has exactly the size of the request. */
    method TakeWhole(block: Addr, n: nat, ghost i: nat) returns (p: Addr)
      requires Valid() && i < |order| && order[i] == block && 0 < n == SizeOf(size, block)
      modifies this
      ensures Valid() && size == Cut(old(size), block, n) && busy == old(busy)[p := n] && p !in old(busy)
      ensures total == old(total) - n && p == block
    {
      MoveRegion(size, busy, block);
      Drop(block, i);
      Occupy(block, n);
      return block;
    }

    /** Adds a free block to the list. */
    method AddBlock(b: Addr, n: nat)
      requires ListOk() && b !in size
      modifies `head, `next, `prev, `order, `size, `total
      ensures ListOk() && size == old(size)[b := n] && total == old(total) + n
    {
      ghost var o, was := order, size;
      SumSame(o, was, was[b := n]);
      size := size[b := n];
      total := total + n;
      ghost var i := Insert(b);
      SumInsert(o, i, b, size);
      InInserted(o, i, b);
    }

    method SetSize(block: Addr, rem: nat, ghost i: nat)
      requires ListOk() && i < |order| && order[i] == block && rem <= SizeOf(size, block)
      modifies `size, `total
      ensures unchanged(`head, `next, `prev, `order, `busy)
      ensures size == old(size)[block := rem] && total == old(total) - (SizeOf(old(size), block) - rem)
      ensures SizeOf(size, block) == rem && total == Sum(order, size) && (forall a :: a in order <==> a in size)
      ensures Sorted(RemoveAt(order, i), size) && (Sorted(order, size) <==> i == 0 || SizeOf(size, order[i - 1]) <= rem)
    {
      SumUpdate(order, i, size, rem);
      ShrunkSorted(order, size, i, rem);
      CutSorted(order, size, i, rem);
      total := total - (SizeOf(size, block) - rem);
      size := size[block := rem];
    }

    /** Makes a block smaller, and moves it forward in the list if it is now
        smaller than the one before it. It is moved exactly if the list would not
        be sorted otherwise, and goes behind the blocks that are not larger. */
    method Shrink(block: Addr, rem: nat, ghost i: nat) returns (moved: bool, ghost j: nat)
      requires ListOk() && i < |order| && order[i] == block && rem <= SizeOf(size, block)
      modifies `head, `next, `prev, `order, `size, `total
      ensures unchanged(`busy) && ListOk()
      ensures size == old(size)[block := rem] && total == old(total) - (SizeOf(old(size), block) - rem)
      ensures moved <==> !Sorted(old(order), size)
      ensures if moved then Place(RemoveAt(old(order), i), size, rem, j) && order == InsertAt(RemoveAt(old(order), i), j, block)
              else order == old(order)
    {
      SetSize(block, rem, i);
      assert LinkOk(order, next, prev, i);
      var before := PtrOf(prev, block);
      moved, j := before.At? && SizeOf(size, before.a) > rem, i;
      if moved {
        j := Resort(block, i);
      }
    }

    /** Serves a request from memory at `at` that the system has just handed
        out: the whole of it for a large request, and the end of a fresh block
        otherwise. */
    method Grow(n: nat, at: Addr) returns (p: Addr)
      requires Valid() && n > 0
      requires ApartFromAll(at, if n < POOL_MMAP then POOL_MMAP else n, size)
      requires ApartFromAll(at, if n < POOL_MMAP then POOL_MMAP else n, busy)
      modifies this
      ensures Valid() && busy == old(busy)[p := n] && p !in old(busy)
      ensures if n >= POOL_MMAP then p == at && size == old(size) && total == old(total)
              else p == at + (POOL_MMAP - n) && size == old(size)[at := POOL_MMAP - n] && at !in old(size)
                   && total == old(total) + (POOL_MMAP - n)
    {
      if n >= POOL_MMAP {
        RegionsSwap(size, busy);
        NewRegion(busy, size, at, n);
        RegionsSwap(busy[at := n], size);
        busy := busy[at := n];
        return at;
      }
      var rem := POOL_MMAP - n;
      FreshBlock(size, busy, at, n);
      AddBlock(at, rem);
      busy := busy[at + rem := n];
      return at + rem;
    }

    /** Serves a request of `n` bytes; `at` is where the system would hand out
        fresh memory. */
    method AllocPages(n: nat, at: Addr) returns (p: Addr)
      requires Valid() && n > 0
      requires ApartFromAll(at, if n < POOL_MMAP then POOL_MMAP else n, size)
      requires ApartFromAll(at, if n < POOL_MMAP then POOL_MMAP else n, busy)
      modifies this
      ensures Valid() && busy == old(busy)[p := n] && p !in old(busy)
      ensures (exists a :: a in old(size) && old(size)[a] >= n) ==>
        exists b :: BestFit(old(size), n, b) && size == Cut(old(size), b, n) && p + n == b + old(size)[b]
      ensures (forall a :: a in old(size) ==> old(size)[a] < n) ==>
        if n >= POOL_MMAP then p == at && size == old(size)
        else p == at + (POOL_MMAP - n) && size == old(size)[at := POOL_MMAP - n]
    {
      if total >= n {
        var block := head;
        ghost var i := 0;
        while block.At?
          invariant i <= |order| && block == PtrAt(order, i)
          invariant forall j :: 0 <= j < i ==> SizeOf(size, order[j]) < n
          decreases |order| - i
        {
          assert LinkOk(order, next, prev, i);
          if SizeOf(size, block.a) > n {
            FirstIsBest(order, size, n, i);
            p := TakePart(block.a, n, i);
            return;
          } else if SizeOf(size, block.a) == n {
            FirstIsBest(order, size, n, i);
            p := TakeWhole(block.a, n, i);
            return;
          }
          block := PtrOf(next, block.a);
          i := i + 1;
        }
        NoneFits(order, size, n);
      } else {
        TooSmall(order, size, n);
      }
      p := Grow(n, at);
    }

    /** Takes back memory that was handed out. */
    method FreePages(p: Addr, n: nat)
      requires Valid() && p in busy && busy[p] == n
      modifies this
      ensures Valid() && busy == old(busy) - {p} && size == old(size)[p := n] && p !in old(size)
      ensures total == old(total) + n
    {
      RegionsSwap(size, busy);
      MoveRegion(busy, size, p);
      RegionsSwap(busy - {p}, size[p := n]);
      AddBlock(p, n);
      busy := busy - {p};
    }
  }

  lemma FirstIsBest(order: seq<Addr>, size: map<Addr, nat>, n: nat, i: nat)
    requires Sorted(order, size) && (forall a :: a in order <==> a in size) && i < |order| && SizeOf(size, order[i]) >= n
    requires forall j :: 0 <= j < i ==> SizeOf(size, order[j]) < n
    ensures BestFit(size, n, order[i])
  {
    forall a | a in size && size[a] >= n ensures SizeOf(size, order[i]) <= size[a] {
      assert a in order;
      var j :| 0 <= j < |order| && order[j] == a;
    }
  }

  lemma NoneFits(order: seq<Addr>, size: map<Addr, nat>, n: nat)
    requires (forall a :: a in order <==> a in size) && forall j :: 0 <= j < |order| ==> SizeOf(size, order[j]) < n
    ensures forall a :: a in size ==> size[a] < n
  {
    forall a | a in size ensures size[a] < n {
      assert a in order;
      var j :| 0 <= j < |order| && order[j] == a;
    }
  }

  /** No block is larger than all of them together. */
  lemma TooSmall(order: seq<Addr>, size: map<Addr, nat>, n: nat)
    requires (forall a :: a in order <==> a in size) && Sum(order, size) < n
    ensures forall a :: a in size ==> size[a] < n
  {
    forall a | a in size ensures size[a] < n {
      assert a in order;
      var j :| 0 <= j < |order| && order[j] == a;
      SumRemove(order, j, size);
    }
  }

  /** Without a block that became smaller, the list is sorted as before. */
  lemma CutSorted(order: seq<Addr>, size: map<Addr, nat>, i: nat, rem: nat)
    requires Sorted(order, size) && Distinct(order) && i < |order|
    ensures Sorted(RemoveAt(order, i), size[order[i] := rem])
  {
  }

  lemma DropBlock(order: seq<Addr>, size: map<Addr, nat>, i: nat)
    requires Sorted(order, size) && Distinct(order) && i < |order| && (forall a :: a in order <==> a in size)
    ensures var o, s := RemoveAt(order, i), size - {order[i]};
      && Sorted(o, s) && (forall a :: a in o <==> a in s) && Sum(o, s) == Sum(order, size) - SizeOf(size, order[i])
  {
    var o, s := RemoveAt(order, i), size - {order[i]};
    InRemoved(order, i);
    DropSorted(order, i, size);
    SumRemove(order, i, size);
    SumSame(o, size, s);
  }

  lemma DropSorted(order: seq<Addr>, i: nat, size: map<Addr, nat>)
    requires Sorted(order, size) && Distinct(order) && i < |order|
    ensures Sorted(RemoveAt(order, i), size - {order[i]})
  {
  }

  /** A block that became smaller is out of order exactly if the one before it is
      larger now. */
  lemma ShrunkSorted(order: seq<Addr>, size: map<Addr, nat>, i: nat, rem: nat)
    requires Sorted(order, size) && Distinct(order) && i < |order| && rem <= SizeOf(size, order[i])
    ensures Sorted(order, size[order[i] := rem]) <==> i == 0 || SizeOf(size, order[i - 1]) <= rem
    ensures i > 0 ==> SizeOf(size[order[i] := rem], order[i - 1]) == SizeOf(size, order[i - 1])
  {
  }

  lemma InRemoved(order: seq<Addr>, i: nat)
    requires i < |order| && Distinct(order)
    ensures forall a :: a in RemoveAt(order, i) <==> a in order && a != order[i]
  {
    forall a ensures a in RemoveAt(order, i) <==> a in order && a != order[i] { RemovedIn(order, i, a); }
  }

  lemma InInserted(order: seq<Addr>, i: nat, b: Addr)
    requires i <= |order|
    ensures forall a :: a in InsertAt(order, i, b) <==> a in order || a == b
  {
    assert order == order[..i] + order[i..];
  }

  lemma InsertSorted(order: seq<Addr>, size: map<Addr, nat>, i: nat, b: Addr)
    requires Sorted(order, size) && i <= |order|
    requires forall j :: 0 <= j < i ==> SizeOf(size, order[j]) <= SizeOf(size, b)
    requires i < |order| ==> SizeOf(size, b) < SizeOf(size, order[i])
    ensures Sorted(InsertAt(order, i, b), size)
  {
  }
}
