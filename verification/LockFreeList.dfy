/** The lock-free sorted list: find, insert, delete and search of any number of
    threads, every read, write and compare-and-swap of shared memory one step.
    Nodes are not reused. */
module LockFreeList {

  import opened Basics
  import opened History

  /** A node is named by the thread that allocated it. */
  datatype Addr = Addr(owner: Tid, serial: nat)

  datatype Ptr = Null | At(a: Addr)

  /** A next field: a pointer whose low bit may be marked. */
  datatype Link = Link(ptr: Ptr, marked: bool)

  datatype Cell = Cell(key: int, link: Link)

  /** What `prev` points to: the head of the list or the next field of a node. */
  datatype Loc = Head | NextOf(a: Addr)

  /** `published` are the nodes that were ever linked in, `linked` those that
      were not unlinked since, and `retired` those handed to free_node_later. */
  datatype List = List(mem: map<Addr, Cell>, head: Ptr, published: set<Addr>, linked: set<Addr>, retired: set<Addr>)

  datatype Op = Search | Insert | Delete

  /** The statement that a thread executes next, with its local variables. */
  datatype Pc =
    | Idle
    | Start
    | Check(prev: Loc, cur: Addr)
    | ReadNext(prev: Loc, cur: Addr)
    | Unlink(prev: Loc, cur: Addr, next: Ptr)
    | ReadKey(prev: Loc, cur: Addr, next: Ptr)
    | Recheck(prev: Loc, cur: Addr, next: Ptr, ckey: int)
    | Write(prev: Loc, found: Ptr)
    | LinkIn(prev: Loc, found: Ptr)
    | Mark(prev: Loc, cur: Addr, next: Ptr)
    | UnlinkMine(prev: Loc, cur: Addr, next: Ptr)
    | Done(answer: bool)

  /** `n` is the node of an insert; `began` is the length of the history when
      the current call began. */
  datatype Thread = Thread(pc: Pc, op: Op, key: int, n: Addr, began: nat)

  datatype Effect = Added(key: int) | Removed(key: int)

  type Steps = seq<Event<Effect, set<int>>>

  /** `hist` are the steps so far, behind an event that stands for the start. */
  datatype State = State(l: List, threads: seq<Thread>, hist: Steps)

  datatype Choice = Call(op: Op, key: int, serial: nat) | Go

  function CellAt(l: List, a: Addr): Cell {
    if a in l.mem then l.mem[a] else Cell(0, Link(Null, false))
  }

  function Read(l: List, loc: Loc): Link {
    match loc
    case Head => Link(l.head, false)
    case NextOf(a) => CellAt(l, a).link
  }

  function Store(l: List, loc: Loc, p: Ptr): List {
    match loc
    case Head => l.(head := p)
    case NextOf(a) => l.(mem := l.mem[a := CellAt(l, a).(link := Link(p, false))])
  }

  /** The set that the list stands for: the keys of the unmarked nodes. */
  function Abs(l: List): set<int> {
    set a | a in l.published && !CellAt(l, a).link.marked :: CellAt(l, a).key
  }

  /** The effect of a successful CAS(prev, cur, next) that unlinks `cur`. */
  function Bypass(l: List, prev: Loc, cur: Addr, next: Ptr): List {
    var l' := Store(l, prev, next);
    l'.(linked := l.linked - {cur}, retired := l.retired + {cur})
  }

  /** The effect of a successful CAS(prev, cur, n) that links in `n`. */
  function Splice(l: List, prev: Loc, n: Addr): List {
    var l' := Store(l, prev, At(n));
    l'.(published := l.published + {n}, linked := l.linked + {n})
  }

  /** The effect of a successful CAS of cur->next that sets the mark. */
  function Marked(l: List, cur: Addr): List {
    l.(mem := l.mem[cur := CellAt(l, cur).(link := Link(CellAt(l, cur).link.ptr, true))])
  }

  /** What follows when find or search returns with `cur` in `found`. */
  function Finish(th: Thread, prev: Loc, found: Ptr, next: Ptr, hit: bool): Pc {
    match th.op
    case Search => Done(hit)
    case Insert => if hit then Done(false) else Write(prev, found)
    case Delete => if hit && found.At? then Mark(prev, found.a, next) else Done(false)
  }

  /** The loop of find goes on with cur = p. */
  function Visit(th: Thread, prev: Loc, p: Ptr): Pc {
    match p
    case Null => Finish(th, prev, Null, Null, false)
    case At(a) => Check(prev, a)
  }

  predicate Enabled(s: State, t: Tid, c: Choice) {
    && t < |s.threads|
    && if s.threads[t].pc.Idle? || s.threads[t].pc.Done? then c.Call? && Addr(t, c.serial) !in s.l.mem else c.Go?
  }

  /** The list and the statement of the thread after its next statement. */
  function Act(l: List, th: Thread): (List, Pc) {
    match th.pc
    case Idle => (l, Idle)
    case Done(_) => (l, th.pc)
    case Start => (l, Visit(th, Head, l.head))
    case Check(prev, cur) => (l, if Read(l, prev) != Link(At(cur), false) then Start else ReadNext(prev, cur))
    case ReadNext(prev, cur) =>
      var next := CellAt(l, cur).link;
      (l, if next.marked then Unlink(prev, cur, next.ptr) else ReadKey(prev, cur, next.ptr))
    case Unlink(prev, cur, next) =>
      if Read(l, prev) != Link(At(cur), false) then (l, Start)
      else (Bypass(l, prev, cur, next), Visit(th, prev, next))
    case ReadKey(prev, cur, next) => (l, Recheck(prev, cur, next, CellAt(l, cur).key))
    case Recheck(prev, cur, next, ckey) =>
      (l, if Read(l, prev) != Link(At(cur), false) then Start
          else if ckey >= th.key then Finish(th, prev, At(cur), next, ckey == th.key)
          else Visit(th, NextOf(cur), next))
    case Write(prev, found) =>
      (l.(mem := l.mem[th.n := Cell(th.key, Link(found, false))]), LinkIn(prev, found))
    case LinkIn(prev, found) =>
      if Read(l, prev) != Link(found, false) then (l, Start)
      else (Splice(l, prev, th.n), Done(true))
    case Mark(prev, cur, next) =>
      if CellAt(l, cur).link != Link(next, false) then (l, Start)
      else (Marked(l, cur), UnlinkMine(prev, cur, next))
    case UnlinkMine(prev, cur, next) =>
      if Read(l, prev) != Link(At(cur), false) then (l, Done(true))
      else (Bypass(l, prev, cur, next), Done(true))
  }

  /** A call of insert allocates a node that was never used before. */
  function Begin(l: List, th: Thread, t: Tid, c: Choice, now: nat): (List, Thread)
    requires c.Call?
  {
    var n := Addr(t, c.serial);
    (if c.op == Insert then l.(mem := l.mem[n := Cell(0, Link(Null, false))]) else l,
     Thread(Start, c.op, c.key, n, now))
  }

  /** The steps that change the set: linking in a node and marking one. */
  function EffectOf(l: List, th: Thread): Option<Effect> {
    match th.pc
    case LinkIn(prev, found) => if Read(l, prev) == Link(found, false) then Some(Added(th.key)) else None
    case Mark(prev, cur, next) => if CellAt(l, cur).link == Link(next, false) then Some(Removed(th.key)) else None
    case _ => None
  }

  /** What a set does: add a key that it does not have, or remove one it has. */
  predicate Effected(before: set<int>, e: Option<Effect>, after: set<int>) {
    match e
    case None => after == before
    case Some(Added(key)) => key !in before && after == before + {key}
    case Some(Removed(key)) => key in before && after == before - {key}
  }

  /** A step also appends what it did to the history. */
  function Step(s: State, t: Tid, c: Choice): State
    requires Enabled(s, t, c)
  {
    var th := s.threads[t];
    if c.Call? then
      var (l, th') := Begin(s.l, th, t, c, |s.hist|);
      State(l, s.threads[t := th'], s.hist + [Event(t, None, Abs(l))])
    else
      var (l, pc) := Act(s.l, th);
      State(l, s.threads[t := th.(pc := pc)], s.hist + [Event(t, EffectOf(s.l, th), Abs(l))])
  }

  predicate Init(s: State) {
    && s.l == List(map[], Null, {}, {}, {}) && s.hist == [Event(0, None, {})]
    && (forall t :: 0 <= t < |s.threads| ==> s.threads[t].pc == Idle && s.threads[t].began == 0)
  }

  // ---------- The shape of the list ----------

  /** `k` is behind the location: every key is behind the head. */
  predicate Behind(l: List, loc: Loc, k: int) {
    loc.Head? || CellAt(l, loc.a).key < k
  }

  /** The location points to the linked node with the next larger key. */
  predicate Sorted(l: List, loc: Loc) {
    match Read(l, loc).ptr
    case Null => forall a :: a in l.linked ==> !Behind(l, loc, CellAt(l, a).key)
    case At(b) =>
      && b in l.linked && Behind(l, loc, CellAt(l, b).key)
      && forall a :: a in l.linked && Behind(l, loc, CellAt(l, a).key) ==> CellAt(l, b).key <= CellAt(l, a).key
  }

  predicate ListOk(l: List) {
    && l.linked <= l.published <= l.mem.Keys
    && (forall a :: a in l.published && !CellAt(l, a).link.marked ==> a in l.linked)
    && (forall a :: a in l.retired ==> a in l.published && a !in l.linked)
    && (forall a, b :: a in l.linked && b in l.linked && CellAt(l, a).key == CellAt(l, b).key ==> a == b)
    && Sorted(l, Head)
    && (forall a {:trigger Sorted(l, NextOf(a))} :: a in l.linked ==> Sorted(l, NextOf(a)))
  }

  /** An unmarked location points to the linked node with the next larger key. */
  lemma PrevSorted(l: List, prev: Loc)
    requires ListOk(l) && LocOk(l, prev) && !Read(l, prev).marked
    ensures Sorted(l, prev) && (prev.NextOf? ==> prev.a in l.linked)
  {
    assert prev.NextOf? ==> Sorted(l, NextOf(prev.a));
  }

  predicate LocOk(l: List, loc: Loc) {
    loc.NextOf? ==> loc.a in l.published
  }

  /** Storing into an unmarked location changes no key and no mark. */
  lemma StoreKeeps(l: List, loc: Loc, p: Ptr, a: Addr)
    requires !Read(l, loc).marked
    ensures CellAt(Store(l, loc, p), a).key == CellAt(l, a).key
    ensures CellAt(Store(l, loc, p), a).link.marked == CellAt(l, a).link.marked
    ensures loc != NextOf(a) ==> CellAt(Store(l, loc, p), a) == CellAt(l, a)
  {
  }

  /** Two linked nodes in a row: the first location points past the second. */
  lemma BypassSorted(l: List, prev: Loc, cur: Addr, next: Ptr, loc: Loc)
    requires Sorted(l, prev) && Sorted(l, NextOf(cur)) && Sorted(l, loc) && loc != NextOf(cur)
    requires Read(l, prev) == Link(At(cur), false) && CellAt(l, cur).link == Link(next, true)
    requires loc.NextOf? ==> loc.a in l.linked
    requires prev.NextOf? ==> prev.a in l.linked
    requires forall a, b :: a in l.linked && b in l.linked && CellAt(l, a).key == CellAt(l, b).key ==> a == b
    ensures Sorted(Bypass(l, prev, cur, next), loc)
  {
    var l' := Bypass(l, prev, cur, next);
    forall a ensures CellAt(l', a).key == CellAt(l, a).key { StoreKeeps(l, prev, next, a); }
    if loc == prev {
      assert Read(l', loc).ptr == next;
    } else {
      assert Read(l', loc) == Read(l, loc);
      if prev.NextOf? && loc.NextOf? { assert CellAt(l, loc.a).key != CellAt(l, prev.a).key; }
    }
  }

  lemma BypassAbs(l: List, prev: Loc, cur: Addr, next: Ptr)
    requires !Read(l, prev).marked
    ensures Abs(Bypass(l, prev, cur, next)) == Abs(l)
  {
    var l' := Bypass(l, prev, cur, next);
    forall a ensures CellAt(l', a).key == CellAt(l, a).key && CellAt(l', a).link.marked == CellAt(l, a).link.marked {
      StoreKeeps(l, prev, next, a);
    }
  }

  lemma BypassOk(l: List, prev: Loc, cur: Addr, next: Ptr)
    requires ListOk(l) && LocOk(l, prev)
    requires Read(l, prev) == Link(At(cur), false) && CellAt(l, cur).link == Link(next, true)
    ensures ListOk(Bypass(l, prev, cur, next)) && cur in l.linked
    ensures next.At? ==> next.a in l.published
  {
    var l' := Bypass(l, prev, cur, next);
    forall a ensures CellAt(l', a).key == CellAt(l, a).key && CellAt(l', a).link.marked == CellAt(l, a).link.marked {
      StoreKeeps(l, prev, next, a);
    }
    PrevSorted(l, prev);
    assert Sorted(l, NextOf(cur));
    BypassSorted(l, prev, cur, next, Head);
    forall a {:trigger Sorted(l', NextOf(a))} | a in l'.linked ensures Sorted(l', NextOf(a)) {
      assert Sorted(l, NextOf(a));
      BypassSorted(l, prev, cur, next, NextOf(a));
    }
  }

  lemma SpliceSorted(l: List, prev: Loc, found: Ptr, n: Addr, loc: Loc)
    requires Sorted(l, prev) && Read(l, prev) == Link(found, false) && CellAt(l, n).link == Link(found, false)
    requires loc == NextOf(n) || (Sorted(l, loc) && (loc.NextOf? ==> loc.a in l.linked))
    requires prev != NextOf(n) && (prev.NextOf? ==> prev.a in l.linked)
    requires forall a, b :: a in l.linked && b in l.linked && CellAt(l, a).key == CellAt(l, b).key ==> a == b
    requires Behind(l, prev, CellAt(l, n).key) && (found.At? ==> CellAt(l, n).key < CellAt(l, found.a).key)
    ensures Sorted(Splice(l, prev, n), loc)
  {
    var l' := Splice(l, prev, n);
    forall a ensures CellAt(l', a).key == CellAt(l, a).key { StoreKeeps(l, prev, At(n), a); }
    if loc != prev && loc != NextOf(n) {
      assert Read(l', loc) == Read(l, loc);
      if loc.NextOf? && prev.NextOf? { assert CellAt(l, loc.a).key != CellAt(l, prev.a).key; }
    }
  }

  lemma SpliceAbs(l: List, prev: Loc, found: Ptr, n: Addr)
    requires ListOk(l) && LocOk(l, prev) && Read(l, prev) == Link(found, false) && !CellAt(l, n).link.marked
    requires Behind(l, prev, CellAt(l, n).key) && (found.At? ==> CellAt(l, n).key < CellAt(l, found.a).key)
    ensures CellAt(l, n).key !in Abs(l) && Abs(Splice(l, prev, n)) == Abs(l) + {CellAt(l, n).key}
  {
    var l' := Splice(l, prev, n);
    forall a ensures CellAt(l', a).key == CellAt(l, a).key && CellAt(l', a).link.marked == CellAt(l, a).link.marked {
      StoreKeeps(l, prev, At(n), a);
    }
    assert n in l'.published;
    PrevSorted(l, prev);
  }

  lemma SpliceOk(l: List, prev: Loc, found: Ptr, n: Addr)
    requires ListOk(l) && LocOk(l, prev) && Read(l, prev) == Link(found, false)
    requires n in l.mem && n !in l.published && CellAt(l, n).link == Link(found, false)
    requires Behind(l, prev, CellAt(l, n).key) && (found.At? ==> CellAt(l, n).key < CellAt(l, found.a).key)
    ensures ListOk(Splice(l, prev, n))
  {
    var l' := Splice(l, prev, n);
    forall a ensures CellAt(l', a).key == CellAt(l, a).key && CellAt(l', a).link.marked == CellAt(l, a).link.marked {
      StoreKeeps(l, prev, At(n), a);
    }
    PrevSorted(l, prev);
    SpliceSorted(l, prev, found, n, Head);
    forall a {:trigger Sorted(l', NextOf(a))} | a in l'.linked ensures Sorted(l', NextOf(a)) {
      if a != n { assert Sorted(l, NextOf(a)); }
      SpliceSorted(l, prev, found, n, NextOf(a));
    }
    assert forall a :: a in l.linked ==> CellAt(l, a).key != CellAt(l, n).key;
  }

  lemma MarkedOk(l: List, cur: Addr)
    requires ListOk(l) && cur in l.published && !CellAt(l, cur).link.marked
    ensures ListOk(Marked(l, cur))
    ensures CellAt(l, cur).key in Abs(l) && Abs(Marked(l, cur)) == Abs(l) - {CellAt(l, cur).key}
  {
    var l' := Marked(l, cur);
    assert forall a :: CellAt(l', a).key == CellAt(l, a).key && CellAt(l', a).link.ptr == CellAt(l, a).link.ptr;
    assert forall a :: a != cur ==> CellAt(l', a) == CellAt(l, a);
    assert cur in l.linked;
    forall a {:trigger Sorted(l', NextOf(a))} | a in l'.linked ensures Sorted(l', NextOf(a)) {
      assert Sorted(l, NextOf(a));
    }
  }

  lemma PrivateOk(l: List, n: Addr, cell: Cell)
    requires ListOk(l) && n !in l.published
    ensures var l' := l.(mem := l.mem[n := cell]); ListOk(l') && Abs(l') == Abs(l)
  {
    var l' := l.(mem := l.mem[n := cell]);
    assert forall a :: a != n ==> CellAt(l', a) == CellAt(l, a);
    forall a {:trigger Sorted(l', NextOf(a))} | a in l'.linked ensures Sorted(l', NextOf(a)) {
      assert Sorted(l, NextOf(a));
    }
    assert Sorted(l', Head);
  }

  /** The nodes met from a location on, with growing keys. */
  predicate Chain(l: List, loc: Loc, chain: seq<Addr>)
    decreases |chain|
  {
    if chain == [] then Read(l, loc).ptr == Null
    else
      && Read(l, loc).ptr == At(chain[0]) && Behind(l, loc, CellAt(l, chain[0]).key)
      && Chain(l, NextOf(chain[0]), chain[1..])
  }

  lemma Nearest(l: List, loc: Loc, b: Addr, rest: set<Addr>, more: set<Addr>)
    requires Sorted(l, loc) && Read(l, loc).ptr == At(b)
    requires forall a, c :: a in l.linked && c in l.linked && CellAt(l, a).key == CellAt(l, c).key ==> a == c
    requires rest == set a | a in l.linked && Behind(l, loc, CellAt(l, a).key)
    requires more == set a | a in l.linked && Behind(l, NextOf(b), CellAt(l, a).key)
    ensures rest == more + {b} && |more| < |rest|
  {
    forall a | a in rest ensures a == b || a in more {
      assert CellAt(l, b).key <= CellAt(l, a).key;
    }
    assert rest == more + {b} && b !in more;
  }

  /** Following the pointers from a location meets exactly the linked nodes
      behind it, with growing keys. */
  lemma {:induction false} Reachable(l: List, loc: Loc, rest: set<Addr>) returns (chain: seq<Addr>)
    requires ListOk(l) && (loc.NextOf? ==> loc.a in l.linked)
    requires rest == set a | a in l.linked && Behind(l, loc, CellAt(l, a).key)
    ensures Chain(l, loc, chain) && (forall a :: a in chain <==> a in rest)
    decreases |rest|
  {
    assert loc.NextOf? ==> Sorted(l, NextOf(loc.a));
    match Read(l, loc).ptr
    case Null => chain := [];
    case At(b) =>
      var more := set a | a in l.linked && Behind(l, NextOf(b), CellAt(l, a).key);
      Nearest(l, loc, b, rest, more);
      var tail := Reachable(l, NextOf(b), more);
      chain := [b] + tail;
      assert chain[1..] == tail;
  }

  // ---------- What a call has seen ----------

  /** The effect of an insert or delete that succeeds. */
  function EffectFor(op: Op, key: int): Effect {
    if op == Insert then Added(key) else Removed(key)
  }

  /** The call of thread `t` takes effect with event `j`: a successful insert adds
      its key and a successful delete removes it by a step of its own, and by one
      only; the other calls change nothing, and their answer was right then. */
  ghost predicate Point(hist: Steps, t: Tid, began: nat, op: Op, key: int, answer: bool, j: nat) {
    if answer && op != Search then Only(hist, t, began, j, EffectFor(op, key))
    else && began <= j < |hist| && Quiet(hist, t, began)
         && (if op == Insert then true else answer) == (key in hist[j].after)
  }

  ghost predicate Justified(hist: Steps, t: Tid, began: nat, op: Op, key: int, answer: bool) {
    exists j: nat :: Point(hist, t, began, op, key, answer, j)
  }

  /** At some moment of the call the key was in the set, or was not. */
  ghost predicate Saw(hist: Steps, began: nat, key: int, present: bool) {
    exists j :: began <= j < |hist| && present == (key in hist[j].after)
  }

  lemma SawLater(hist: Steps, e: Event<Effect, set<int>>, began: nat, key: int, present: bool)
    requires Saw(hist, began, key, present)
    ensures Saw(hist + [e], began, key, present)
  {
    var j :| began <= j < |hist| && present == (key in hist[j].after);
    assert (hist + [e])[j] == hist[j];
  }

  lemma SawNow(hist: Steps, e: Event<Effect, set<int>>, began: nat, key: int)
    requires began <= |hist|
    ensures Saw(hist + [e], began, key, key in e.after)
  {
    assert (hist + [e])[|hist|] == e;
  }

  lemma JustifiedLater(hist: Steps, e: Event<Effect, set<int>>, t: Tid, began: nat, op: Op, key: int, answer: bool)
    requires Justified(hist, t, began, op, key, answer) && (e.who == t ==> e.effect == None)
    ensures Justified(hist + [e], t, began, op, key, answer)
  {
    var j: nat :| Point(hist, t, began, op, key, answer, j);
    if answer && op != Search { OnlyLater(hist, e, t, began, j, EffectFor(op, key)); } else { QuietLater(hist, e, t, began); }
    assert Point(hist + [e], t, began, op, key, answer, j);
  }

  lemma JustifiedSaw(hist: Steps, t: Tid, began: nat, op: Op, key: int, present: bool)
    requires Saw(hist, began, key, present) && Quiet(hist, t, began)
    requires op == Search || (op == Insert && present) || (op == Delete && !present)
    ensures Justified(hist, t, began, op, key, if op == Insert then false else present)
  {
    var j :| began <= j < |hist| && present == (key in hist[j].after);
    assert Point(hist, t, began, op, key, if op == Insert then false else present, j);
  }

  lemma JustifiedStep(hist: Steps, e: Event<Effect, set<int>>, t: Tid, began: nat, op: Op, key: int)
    requires began <= |hist| && Quiet(hist, t, began) && op != Search && e.who == t
    requires e.effect == Some(EffectFor(op, key))
    ensures Justified(hist + [e], t, began, op, key, true)
  {
    OnlyNow(hist, e, t, began, EffectFor(op, key));
    assert Point(hist + [e], t, began, op, key, true, |hist|);
  }

  // ---------- The threads ----------

  predicate PtrOk(l: List, p: Ptr) {
    p.At? ==> p.a in l.published
  }

  /** `prev` is in front of every node with the key of the call. */
  predicate PrevOk(l: List, th: Thread, prev: Loc) {
    LocOk(l, prev) && Behind(l, prev, th.key)
  }

  /** What a call has seen when it read the unmarked next field of `cur`. */
  ghost predicate Seen(l: List, hist: Steps, th: Thread, cur: Addr, next: Ptr) {
    && Saw(hist, th.began, CellAt(l, cur).key, true)
    && (next == Null && CellAt(l, cur).key < th.key ==> Saw(hist, th.began, th.key, false))
  }

  ghost predicate PcOk(l: List, hist: Steps, t: Tid, th: Thread) {
    match th.pc
    case Idle => true
    case Start => true
    case Check(prev, cur) => PrevOk(l, th, prev) && cur in l.published
    case ReadNext(prev, cur) => PrevOk(l, th, prev) && cur in l.published
    case Unlink(prev, cur, next) =>
      PrevOk(l, th, prev) && cur in l.published && CellAt(l, cur).link == Link(next, true)
    case ReadKey(prev, cur, next) =>
      PrevOk(l, th, prev) && cur in l.published && PtrOk(l, next) && Seen(l, hist, th, cur, next)
    case Recheck(prev, cur, next, ckey) =>
      && PrevOk(l, th, prev) && cur in l.published && PtrOk(l, next) && Seen(l, hist, th, cur, next)
      && ckey == CellAt(l, cur).key
    case Write(prev, found) =>
      && th.op == Insert && PrevOk(l, th, prev) && PtrOk(l, found)
      && (found.At? ==> th.key < CellAt(l, found.a).key)
    case LinkIn(prev, found) =>
      && th.op == Insert && PrevOk(l, th, prev) && PtrOk(l, found)
      && (found.At? ==> th.key < CellAt(l, found.a).key)
      && CellAt(l, th.n) == Cell(th.key, Link(found, false))
    case Mark(prev, cur, next) =>
      th.op == Delete && PrevOk(l, th, prev) && cur in l.published && CellAt(l, cur).key == th.key
    case UnlinkMine(prev, cur, next) =>
      && th.op == Delete && PrevOk(l, th, prev) && cur in l.published && CellAt(l, cur).link == Link(next, true)
      && Justified(hist, t, th.began, Delete, th.key, true)
    case Done(answer) => Justified(hist, t, th.began, th.op, th.key, answer)
  }

  predicate Active(pc: Pc) {
    !pc.Idle? && !pc.Done?
  }

  ghost predicate ThreadOk(l: List, hist: Steps, t: Tid, th: Thread) {
    && th.began <= |hist| && (Active(th.pc) && !th.pc.UnlinkMine? ==> Quiet(hist, t, th.began))
    && (Active(th.pc) && th.op == Insert ==> th.n.owner == t && th.n in l.mem && th.n !in l.published)
    && PcOk(l, hist, t, th)
  }

  /** The history is one of a sequential set. */
  predicate Replays(hist: Steps) {
    && |hist| > 0 && hist[0].after == {}
    && forall j :: 1 <= j < |hist| ==> Effected(hist[j - 1].after, hist[j].effect, hist[j].after)
  }

  ghost predicate Inv(s: State) {
    && ListOk(s.l)
    && (forall t :: 0 <= t < |s.threads| ==> ThreadOk(s.l, s.hist, t, s.threads[t]))
    && Replays(s.hist) && s.hist[|s.hist| - 1].after == Abs(s.l)
  }

  // ---------- What a step does to the others ----------

  /** Keys never change, marks stay and freeze the pointer, published nodes
      stay published, and the unpublished nodes of others are left alone. */
  ghost predicate Guarantee(l: List, l': List, t: Tid) {
    && l.published <= l'.published && l.mem.Keys <= l'.mem.Keys
    && (forall a {:trigger CellAt(l', a)} :: a in l.published ==>
          CellAt(l', a).key == CellAt(l, a).key && (CellAt(l, a).link.marked ==> CellAt(l', a).link == CellAt(l, a).link))
    && (forall a: Addr {:trigger CellAt(l', a)} :: a.owner != t && a in l.mem && a !in l.published ==>
          a !in l'.published && CellAt(l', a) == CellAt(l, a))
  }

  lemma RelyOk(l: List, hist: Steps, t: Tid, l': List, u: Tid, th: Thread, e: Event<Effect, set<int>>)
    requires ThreadOk(l, hist, u, th) && Guarantee(l, l', t) && t != u && e.who == t
    ensures ThreadOk(l', hist + [e], u, th)
  {
    if Active(th.pc) && th.op == Insert { assert CellAt(l', th.n) == CellAt(l, th.n); }
    if th.pc.ReadKey? || th.pc.Recheck? {
      SawLater(hist, e, th.began, CellAt(l, th.pc.cur).key, true);
      if th.pc.next == Null && CellAt(l, th.pc.cur).key < th.key { SawLater(hist, e, th.began, th.key, false); }
    } else if th.pc.UnlinkMine? {
      JustifiedLater(hist, e, u, th.began, Delete, th.key, true);
    } else if th.pc.Done? {
      JustifiedLater(hist, e, u, th.began, th.op, th.key, th.pc.answer);
    }
  }

  // ---------- What a step does to the list ----------

  lemma BypassGuarantee(l: List, t: Tid, prev: Loc, cur: Addr, next: Ptr)
    requires ListOk(l) && LocOk(l, prev) && !Read(l, prev).marked
    ensures Guarantee(l, Bypass(l, prev, cur, next), t)
  {
    forall a ensures CellAt(Bypass(l, prev, cur, next), a) == CellAt(Store(l, prev, next), a) {
      StoreKeeps(l, prev, next, a);
    }
  }

  lemma SpliceGuarantee(l: List, t: Tid, prev: Loc, n: Addr)
    requires ListOk(l) && LocOk(l, prev) && !Read(l, prev).marked && n.owner == t && n in l.mem
    ensures Guarantee(l, Splice(l, prev, n), t)
  {
    forall a ensures CellAt(Splice(l, prev, n), a) == CellAt(Store(l, prev, At(n)), a) {
      StoreKeeps(l, prev, At(n), a);
    }
  }

  lemma MarkedGuarantee(l: List, t: Tid, cur: Addr)
    requires ListOk(l) && cur in l.published && !CellAt(l, cur).link.marked
    ensures Guarantee(l, Marked(l, cur), t)
  {
    assert forall a :: a != cur ==> CellAt(Marked(l, cur), a) == CellAt(l, a);
  }

  lemma PrivateGuarantee(l: List, t: Tid, n: Addr, cell: Cell)
    requires n !in l.published && (n.owner == t || n !in l.mem)
    ensures Guarantee(l, l.(mem := l.mem[n := cell]), t)
  {
    assert forall a :: a != n ==> CellAt(l.(mem := l.mem[n := cell]), a) == CellAt(l, a);
  }

  lemma NoneGuarantee(l: List, t: Tid)
    ensures Guarantee(l, l, t)
  {
  }

  lemma ActList(l: List, hist: Steps, t: Tid, th: Thread)
    requires ListOk(l) && ThreadOk(l, hist, t, th) && Active(th.pc)
    ensures var l' := Act(l, th).0; ListOk(l') && Guarantee(l, l', t) && Effected(Abs(l), EffectOf(l, th), Abs(l'))
  {
    NoneGuarantee(l, t);
    match th.pc
    case Unlink(prev, cur, next) =>
      if Read(l, prev) == Link(At(cur), false) {
        BypassOk(l, prev, cur, next);
        BypassAbs(l, prev, cur, next);
        BypassGuarantee(l, t, prev, cur, next);
      }
    case UnlinkMine(prev, cur, next) =>
      if Read(l, prev) == Link(At(cur), false) {
        BypassOk(l, prev, cur, next);
        BypassAbs(l, prev, cur, next);
        BypassGuarantee(l, t, prev, cur, next);
      }
    case Write(prev, found) =>
      PrivateOk(l, th.n, Cell(th.key, Link(found, false)));
      PrivateGuarantee(l, t, th.n, Cell(th.key, Link(found, false)));
    case LinkIn(prev, found) =>
      if Read(l, prev) == Link(found, false) {
        SpliceOk(l, prev, found, th.n);
        SpliceAbs(l, prev, found, th.n);
        SpliceGuarantee(l, t, prev, th.n);
      }
    case Mark(prev, cur, next) => if CellAt(l, cur).link == Link(next, false) { MarkedOk(l, cur); MarkedGuarantee(l, t, cur); }
    case _ =>
  }

  // ---------- What a step does to its own thread ----------

  /** An unmarked location in front of the key that points past it shows that
      the key is not in the set. */
  lemma Absent(l: List, prev: Loc, k: int)
    requires ListOk(l) && LocOk(l, prev) && !Read(l, prev).marked && Behind(l, prev, k)
    requires Read(l, prev).ptr.At? ==> k < CellAt(l, Read(l, prev).ptr.a).key
    ensures k !in Abs(l)
  {
    PrevSorted(l, prev);
  }

  /** Where an unmarked location points to. */
  lemma PointsOk(l: List, prev: Loc)
    requires ListOk(l) && LocOk(l, prev) && !Read(l, prev).marked
    ensures PtrOk(l, Read(l, prev).ptr)
  {
    PrevSorted(l, prev);
  }

  lemma MissOk(l: List, hist: Steps, t: Tid, th: Thread, prev: Loc, found: Ptr, next: Ptr)
    requires ThreadOk(l, hist, t, th.(pc := Start)) && PrevOk(l, th, prev) && PtrOk(l, found)
    requires Saw(hist, th.began, th.key, false) && (found.At? ==> th.key < CellAt(l, found.a).key)
    ensures ThreadOk(l, hist, t, th.(pc := Finish(th, prev, found, next, false)))
  {
    if th.op != Insert { JustifiedSaw(hist, t, th.began, th.op, th.key, false); }
  }

  lemma VisitOk(l: List, hist: Steps, t: Tid, th: Thread, prev: Loc, p: Ptr)
    requires ThreadOk(l, hist, t, th.(pc := Start)) && PrevOk(l, th, prev) && PtrOk(l, p)
    requires p == Null ==> Saw(hist, th.began, th.key, false)
    ensures ThreadOk(l, hist, t, th.(pc := Visit(th, prev, p)))
  {
    if p == Null { MissOk(l, hist, t, th, prev, Null, Null); }
  }

  lemma HitOk(l: List, hist: Steps, t: Tid, th: Thread, prev: Loc, cur: Addr, next: Ptr)
    requires ThreadOk(l, hist, t, th.(pc := Start)) && PrevOk(l, th, prev) && cur in l.published
    requires CellAt(l, cur).key == th.key && Saw(hist, th.began, th.key, true)
    ensures ThreadOk(l, hist, t, th.(pc := Finish(th, prev, At(cur), next, true)))
  {
    if th.op != Delete { JustifiedSaw(hist, t, th.began, th.op, th.key, true); }
  }

  /** The steps of the loop of find and search that change nothing. */
  lemma ReadThread(l: List, hist: Steps, t: Tid, th: Thread)
    requires ListOk(l) && ThreadOk(l, hist, t, th)
    requires th.pc.Start? || th.pc.Check? || th.pc.ReadNext? || th.pc.ReadKey? || th.pc.Recheck?
    ensures ThreadOk(l, hist + [Event(t, None, Abs(l))], t, th.(pc := Act(l, th).1))
  {
    var e := Event(t, None, Abs(l));
    var now := hist + [e];
    match th.pc
    case Start =>
      PointsOk(l, Head);
      if l.head == Null { Absent(l, Head, th.key); SawNow(hist, e, th.began, th.key); }
      VisitOk(l, now, t, th, Head, l.head);
    case Check(prev, cur) =>
    case ReadNext(prev, cur) =>
      if !CellAt(l, cur).link.marked {
        PointsOk(l, NextOf(cur));
        SawNow(hist, e, th.began, CellAt(l, cur).key);
        if CellAt(l, cur).link.ptr == Null && CellAt(l, cur).key < th.key {
          Absent(l, NextOf(cur), th.key);
          SawNow(hist, e, th.began, th.key);
        }
      }
    case ReadKey(prev, cur, next) => SeenLater(l, hist, e, th, cur, next);
    case Recheck(prev, cur, next, ckey) =>
      SeenLater(l, hist, e, th, cur, next);
      if Read(l, prev) == Link(At(cur), false) {
        if ckey == th.key {
          HitOk(l, now, t, th, prev, cur, next);
        } else if ckey > th.key {
          Absent(l, prev, th.key);
          SawNow(hist, e, th.began, th.key);
          MissOk(l, now, t, th, prev, At(cur), next);
        } else {
          VisitOk(l, now, t, th, NextOf(cur), next);
        }
      }
  }

  lemma SeenLater(l: List, hist: Steps, e: Event<Effect, set<int>>, th: Thread, cur: Addr, next: Ptr)
    requires Seen(l, hist, th, cur, next)
    ensures Seen(l, hist + [e], th, cur, next)
  {
    SawLater(hist, e, th.began, CellAt(l, cur).key, true);
    if next == Null && CellAt(l, cur).key < th.key { SawLater(hist, e, th.began, th.key, false); }
  }

  lemma WriteThread(l: List, hist: Steps, t: Tid, th: Thread)
    requires ListOk(l) && ThreadOk(l, hist, t, th)
    requires th.pc.Unlink? || th.pc.Write? || th.pc.LinkIn? || th.pc.Mark? || th.pc.UnlinkMine?
    ensures var (l', pc') := Act(l, th); ThreadOk(l', hist + [Event(t, EffectOf(l, th), Abs(l'))], t, th.(pc := pc'))
  {
    var (l', pc') := Act(l, th);
    var e := Event(t, EffectOf(l, th), Abs(l'));
    ActList(l, hist, t, th);
    match th.pc
    case Unlink(prev, cur, next) =>
      if Read(l, prev) == Link(At(cur), false) {
        BypassOk(l, prev, cur, next);
        if next == Null { Absent(l', prev, th.key); SawNow(hist, e, th.began, th.key); }
        VisitOk(l', hist + [e], t, th, prev, next);
      }
    case Write(prev, found) =>
    case LinkIn(prev, found) =>
      if Read(l, prev) == Link(found, false) { JustifiedStep(hist, e, t, th.began, Insert, th.key); }
    case Mark(prev, cur, next) =>
      if CellAt(l, cur).link == Link(next, false) { JustifiedStep(hist, e, t, th.began, Delete, th.key); }
    case UnlinkMine(prev, cur, next) => JustifiedLater(hist, e, t, th.began, Delete, th.key, true);
  }

  lemma BeginOk(s: State, t: Tid, c: Choice)
    requires ListOk(s.l) && Enabled(s, t, c) && c.Call?
    ensures var s' := Step(s, t, c);
      && ListOk(s'.l) && Guarantee(s.l, s'.l, t) && Abs(s'.l) == Abs(s.l)
      && ThreadOk(s'.l, s'.hist, t, s'.threads[t])
  {
    NoneGuarantee(s.l, t);
    if c.op == Insert {
      PrivateOk(s.l, Addr(t, c.serial), Cell(0, Link(Null, false)));
      PrivateGuarantee(s.l, t, Addr(t, c.serial), Cell(0, Link(Null, false)));
    }
  }

  // ---------- Runs ----------

  /** What the step of a thread does to the set. */
  function StepEffect(s: State, t: Tid, c: Choice): Option<Effect>
    requires t < |s.threads|
  {
    if c.Call? then None else EffectOf(s.l, s.threads[t])
  }

  /** What a step does to the list and to its own thread. */
  lemma StepMine(s: State, t: Tid, c: Choice)
    requires Enabled(s, t, c) && ListOk(s.l) && ThreadOk(s.l, s.hist, t, s.threads[t])
    ensures var s' := Step(s, t, c);
      && ListOk(s'.l) && Guarantee(s.l, s'.l, t) && ThreadOk(s'.l, s'.hist, t, s'.threads[t])
      && Effected(Abs(s.l), StepEffect(s, t, c), Abs(s'.l))
  {
    var th := s.threads[t];
    if c.Call? {
      BeginOk(s, t, c);
    } else {
      ActList(s.l, s.hist, t, th);
      if th.pc.Unlink? || th.pc.Write? || th.pc.LinkIn? || th.pc.Mark? || th.pc.UnlinkMine? {
        WriteThread(s.l, s.hist, t, th);
      } else {
        ReadThread(s.l, s.hist, t, th);
      }
    }
  }

  lemma StepFrame(s: State, t: Tid, c: Choice)
    requires Enabled(s, t, c)
    ensures var s' := Step(s, t, c);
      && |s'.threads| == |s.threads| && s'.hist == s.hist + [Event(t, StepEffect(s, t, c), Abs(s'.l))]
      && forall u :: 0 <= u < |s.threads| && u != t ==> s'.threads[u] == s.threads[u]
  {
  }

  lemma ReplaysMore(hist: Steps, e: Event<Effect, set<int>>)
    requires Replays(hist) && Effected(hist[|hist| - 1].after, e.effect, e.after)
    ensures Replays(hist + [e])
  {
  }

  lemma StepInv(s: State, t: Tid, c: Choice)
    requires Inv(s) && Enabled(s, t, c)
    ensures Inv(Step(s, t, c)) && Guarantee(s.l, Step(s, t, c).l, t)
  {
    var s' := Step(s, t, c);
    StepMine(s, t, c);
    StepFrame(s, t, c);
    ReplaysMore(s.hist, s'.hist[|s.hist|]);
    forall u | 0 <= u < |s'.threads| ensures ThreadOk(s'.l, s'.hist, u, s'.threads[u]) {
      if u != t { RelyOk(s.l, s.hist, t, s'.l, u, s.threads[u], s'.hist[|s.hist|]); }
    }
  }

  ghost predicate Run(states: seq<State>, tids: seq<Tid>, choices: seq<Choice>) {
    && |states| == |tids| + 1 && |choices| == |tids| && Init(states[0])
    && forall i :: 0 <= i < |tids| ==> Enabled(states[i], tids[i], choices[i])
                                       && states[i + 1] == Step(states[i], tids[i], choices[i])
  }

  lemma {:induction false} RunInv(states: seq<State>, tids: seq<Tid>, choices: seq<Choice>, i: nat)
    requires Run(states, tids, choices) && i < |states|
    ensures Inv(states[i])
  {
    if i > 0 {
      RunInv(states, tids, choices, i - 1);
      assert states[i - 1 + 1] == Step(states[i - 1], tids[i - 1], choices[i - 1]);
      StepInv(states[i - 1], tids[i - 1], choices[i - 1]);
    }
  }

  lemma {:induction false} RunHist(states: seq<State>, tids: seq<Tid>, choices: seq<Choice>, i: nat, j: nat)
    requires Run(states, tids, choices) && j <= i < |states|
    ensures |states[i].hist| == i + 1 && states[i].hist[..j + 1] == states[j].hist
    ensures |states[i].threads| == |states[0].threads|
  {
    if i == 0 {
    } else {
      assert states[i - 1 + 1] == Step(states[i - 1], tids[i - 1], choices[i - 1]);
      RunHist(states, tids, choices, i - 1, if j < i then j else i - 1);
    }
  }

  lemma RunEvent(states: seq<State>, tids: seq<Tid>, choices: seq<Choice>, i: nat)
    requires Run(states, tids, choices) && i < |tids| && tids[i] < |states[i].threads|
    ensures var hist := states[|tids|].hist;
      && |hist| == |states|
      && hist[i + 1] == Event(tids[i], StepEffect(states[i], tids[i], choices[i]), Abs(states[i + 1].l))
  {
    RunHist(states, tids, choices, |tids|, i + 1);
    RunHist(states, tids, choices, i, i);
    StepFrame(states[i], tids[i], choices[i]);
    assert states[i + 1].hist[i + 1] == states[|tids|].hist[..i + 2][i + 1];
  }

  /** In state `i` thread `t` has finished a call that took effect with event `j`. */
  ghost predicate Finished(states: seq<State>, i: nat, t: Tid, j: nat) {
    && i < |states| && t < |states[i].threads| && states[i].threads[t].pc.Done?
    && var th := states[i].threads[t]; Point(states[i].hist, t, th.began, th.op, th.key, th.pc.answer, j)
  }

  /** Every call of every run takes effect at one moment between its begin and its
      end: a successful insert adds its key and a successful delete removes it by
      exactly one step of the call itself; every other call changes nothing, and
      its answer is that of the set at that moment. */
  lemma Linearizable(states: seq<State>, tids: seq<Tid>, choices: seq<Choice>, i: nat, t: Tid) returns (j: nat)
    requires Run(states, tids, choices) && i < |states| && t < |states[i].threads| && states[i].threads[t].pc.Done?
    ensures Finished(states, i, t, j)
  {
    RunInv(states, tids, choices, i);
    var th := states[i].threads[t];
    assert ThreadOk(states[i].l, states[i].hist, t, th);
    assert Justified(states[i].hist, t, th.began, th.op, th.key, th.pc.answer);
    j :| Point(states[i].hist, t, th.began, th.op, th.key, th.pc.answer, j);
  }

  /** A later call of the same thread begins after an earlier one has ended. */
  lemma {:induction false} BeganLater(states: seq<State>, tids: seq<Tid>, choices: seq<Choice>, i: nat, k: nat, t: Tid)
    requires Run(states, tids, choices) && i <= k < |states| && t < |states[i].threads| == |states[k].threads|
    ensures states[k].threads[t].began == states[i].threads[t].began || states[k].threads[t].began > i
  {
    if i < k {
      assert states[k - 1 + 1] == Step(states[k - 1], tids[k - 1], choices[k - 1]);
      RunHist(states, tids, choices, k - 1, 0);
      BeganLater(states, tids, choices, i, k - 1, t);
    }
  }

  /** Whether the call that the thread has finished changed the set. */
  predicate Changed(th: Thread) {
    th.pc.Done? && th.pc.answer && th.op != Search
  }

  /** Different calls that changed the set did so by different steps: no two
      successful inserts or deletes share a change. */
  lemma {:induction false} OwnPoints(states: seq<State>, tids: seq<Tid>, choices: seq<Choice>,
                                     i: nat, t: Tid, j: nat, k: nat, u: Tid, l: nat)
    requires Run(states, tids, choices) && Finished(states, i, t, j) && Finished(states, k, u, l)
    requires Changed(states[i].threads[t]) && Changed(states[k].threads[u])
    requires t != u || states[i].threads[t].began != states[k].threads[u].began
    ensures j != l
    decreases i > k
  {
    if i > k {
      OwnPoints(states, tids, choices, k, u, l, i, t, j);
    } else {
      var th, th' := states[i].threads[t], states[k].threads[u];
      RunHist(states, tids, choices, k, i);
      RunHist(states, tids, choices, i, i);
      if t == u { BeganLater(states, tids, choices, i, k, t); }
      Apart(states[i].hist, t, th.began, j, EffectFor(th.op, th.key),
            states[k].hist, u, th'.began, l, EffectFor(th'.op, th'.key));
    }
  }

  /** In every state of every run the nodes met from the head on are exactly
      the linked ones, with growing keys; every unmarked node is one of them and
      no retired node is. */
  lemma AlwaysSorted(states: seq<State>, tids: seq<Tid>, choices: seq<Choice>, i: nat) returns (chain: seq<Addr>)
    requires Run(states, tids, choices) && i < |states|
    ensures var l := states[i].l;
      && Chain(l, Head, chain)
      && (forall a :: a in l.published && !CellAt(l, a).link.marked ==> a in chain)
      && (forall a :: a in l.retired ==> a !in chain)
  {
    RunInv(states, tids, choices, i);
    var l := states[i].l;
    assert (set a | a in l.linked && Behind(l, Head, CellAt(l, a).key)) == l.linked;
    chain := Reachable(l, Head, l.linked);
  }

  /** The steps of every run, one after the other, are those of a sequential set:
      event `i + 1` is the step from state `i`, only the linking CAS and the
      marking CAS change the set, no key changes and no mark is taken back. */
  lemma Sequential(states: seq<State>, tids: seq<Tid>, choices: seq<Choice>, i: nat)
    requires Run(states, tids, choices) && i < |tids|
    ensures var s, hist := states[i], states[|tids|].hist;
      && tids[i] < |s.threads| && |hist| == |states| && Replays(hist)
      && hist[i + 1] == Event(tids[i], StepEffect(s, tids[i], choices[i]), Abs(states[i + 1].l))
      && Effected(Abs(s.l), StepEffect(s, tids[i], choices[i]), Abs(states[i + 1].l))
      && Guarantee(s.l, states[i + 1].l, tids[i])
  {
    RunEvent(states, tids, choices, i);
    RunInv(states, tids, choices, |tids|);
    assert Effected(Abs(states[i].l), StepEffect(states[i], tids[i], choices[i]), Abs(states[i + 1].l))
        && Guarantee(states[i].l, states[i + 1].l, tids[i]) by {
      RunInv(states, tids, choices, i);
      StepMine(states[i], tids[i], choices[i]);
    }
  }

  /** A node is handed to free_node_later only while it is linked, so never
      twice, and it is unlinked by the same step. */
  lemma RetiredOnce(states: seq<State>, tids: seq<Tid>, choices: seq<Choice>, i: nat, a: Addr)
    requires Run(states, tids, choices) && i < |tids|
    requires tids[i] < |states[i].threads| && !choices[i].Call?
    requires var th := states[i].threads[tids[i]];
      && (th.pc.Unlink? || th.pc.UnlinkMine?) && th.pc.cur == a
      && Read(states[i].l, th.pc.prev) == Link(At(a), false)
    ensures a in states[i].l.linked && a !in states[i].l.retired
    ensures a !in states[i + 1].l.linked && a in states[i + 1].l.retired
  {
    RunInv(states, tids, choices, i);
    var s, th := states[i], states[i].threads[tids[i]];
    assert ThreadOk(s.l, s.hist, tids[i], th);
    BypassOk(s.l, th.pc.prev, a, th.pc.next);
    assert states[i + 1] == Step(s, tids[i], choices[i]);
  }
}
