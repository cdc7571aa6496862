/** The scheduler's multi-producer, multi-consumer queue. Nodes come from a pool
    and are used again, a freed node may hold anything, and every access of shared
    memory is one step. */
module MpmcQueue {

  import opened Basics

  type Addr = nat
  type Tid = nat

  /** `next` and `data` of a node; None is NULL. */
  datatype Node = Node(next: Option<Addr>, data: Option<int>)

  /** What a node is used for: nothing, an element that its pusher has not
      published yet, or the element at a place of the queue. */
  datatype Role = Free | Private(t: Tid) | At(i: nat)

  /** The element that the i-th exchange of head brought in: its node, its item,
      who pushed it and whether that thread has linked it in, who moved the tail
      to it, whether that thread has taken the item out, and whether the node was
      freed. Place 0 is the first stub. */
  datatype Place = Place(node: Addr, item: int, pusher: Tid, linked: bool, taker: Option<Tid>, cleared: bool, freed: bool)

  /** `places` is the history of the queue; the rest is its memory. The counter
      of the tail starts at zero. */
  datatype Queue = Queue(mem: map<Addr, Node>, role: map<Addr, Role>, head: Addr, aba: nat, tail: Addr, places: seq<Place>)

  /** The statement that a thread executes next, with its local variables; `i`
      is the place that the thread pushed or took. */
  datatype Pc =
    | Idle
    | Exchange(n: Addr, item: int)
    | LinkIn(prev: Addr, n: Addr, i: nat)
    | ReadAba
    | ReadTail(aba: nat)
    | ReadNext(aba: nat, node: Addr)
    | CasTail(aba: nat, node: Addr, next: Addr)
    | ReadData(i: nat, node: Addr, next: Addr)
    | Clear(i: nat, node: Addr, next: Addr, data: Option<int>)
    | Wait(i: nat, node: Addr, data: Option<int>)
    | FreeOld(i: nat, node: Addr, data: Option<int>)
    | Popped(i: nat, data: Option<int>)
    | Nothing

  datatype State = State(q: Queue, pcs: seq<Pc>)

  /** A call of push with a node from the pool, a call of pop, the next statement
      of a call, or a write to a freed node by whoever owns it now. */
  datatype Choice = Push(item: int, a: Addr) | Pop | Go | Scribble(a: Addr, node: Node)

  function NodeAt(mem: map<Addr, Node>, a: Addr): Node {
    if a in mem then mem[a] else Node(None, None)
  }

  function RoleOf(role: map<Addr, Role>, a: Addr): Role {
    if a in role then role[a] else Free
  }

  const NOWHERE := Place(0, 0, 0, true, None, true, true)

  function PlaceAt(places: seq<Place>, i: nat): Place {
    if i < |places| then places[i] else NOWHERE
  }

  function SetPlace(places: seq<Place>, i: nat, p: Place): seq<Place> {
    if i < |places| then places[i := p] else places
  }

  predicate Quiet(pc: Pc) {
    pc.Idle? || pc.Popped? || pc.Nothing?
  }

  predicate Enabled(s: State, t: Tid, c: Choice) {
    match c
    case Scribble(a, _) => RoleOf(s.q.role, a) == Free
    case Push(_, a) => t < |s.pcs| && Quiet(s.pcs[t]) && RoleOf(s.q.role, a) == Free
    case Pop => t < |s.pcs| && Quiet(s.pcs[t])
    case Go => t < |s.pcs| && !Quiet(s.pcs[t])
  }

  /** The node that a statement writes to, takes data from or frees is the node
      of the place that the thread means, not one that was freed, nor one that was
      freed and is used for another element. A node is freed after its data was
      taken out. Only the read of next may meet another node. */
  predicate Safe(q: Queue, t: Tid, pc: Pc) {
    match pc
    case Exchange(n, _) => RoleOf(q.role, n) == Private(t)
    case LinkIn(prev, n, i) => i > 0 && RoleOf(q.role, prev) == At(i - 1) && RoleOf(q.role, n) == At(i)
    case ReadData(i, _, next) => RoleOf(q.role, next) == At(i)
    case Clear(i, _, next, _) => RoleOf(q.role, next) == At(i)
    case Wait(i, node, _) => i > 0 && RoleOf(q.role, node) == At(i - 1)
    case FreeOld(i, node, _) =>
      i > 0 && RoleOf(q.role, node) == At(i - 1) && PlaceAt(q.places, i - 1).cleared && !PlaceAt(q.places, i - 1).freed
    case _ => true
  }

  function Exchanged(q: Queue, t: Tid, n: Addr, item: int): Queue {
    q.(head := n, role := q.role[n := At(|q.places|)],
       places := q.places + [Place(n, item, t, false, None, false, false)])
  }

  function Linked(q: Queue, prev: Addr, n: Addr, i: nat): Queue {
    q.(mem := q.mem[prev := NodeAt(q.mem, prev).(next := Some(n))],
       places := SetPlace(q.places, i, PlaceAt(q.places, i).(linked := true)))
  }

  function Taken(q: Queue, t: Tid, next: Addr): Queue {
    q.(aba := q.aba + 1, tail := next,
       places := SetPlace(q.places, q.aba + 1, PlaceAt(q.places, q.aba + 1).(taker := Some(t))))
  }

  function Cleared(q: Queue, i: nat, next: Addr): Queue {
    q.(mem := q.mem[next := NodeAt(q.mem, next).(data := None)],
       places := SetPlace(q.places, i, PlaceAt(q.places, i).(cleared := true)))
  }

  /** Frees the node of the place before `i`. */
  function Freed(q: Queue, i: nat, node: Addr): Queue {
    if i == 0 then q
    else q.(role := q.role[node := Free], places := SetPlace(q.places, i - 1, PlaceAt(q.places, i - 1).(freed := true)))
  }

  /** The queue and the next statement after a statement of thread `t`. */
  function Act(q: Queue, t: Tid, pc: Pc): (Queue, Pc) {
    match pc
    case Idle => (q, pc)
    case Popped(_, _) => (q, pc)
    case Nothing => (q, pc)
    case Exchange(n, item) => (Exchanged(q, t, n, item), LinkIn(q.head, n, |q.places|))
    case LinkIn(prev, n, i) => (Linked(q, prev, n, i), Idle)
    case ReadAba => (q, ReadTail(q.aba))
    case ReadTail(aba) => (q, ReadNext(aba, q.tail))
    case ReadNext(aba, node) =>
      (q, match NodeAt(q.mem, node).next case None => Nothing case Some(next) => CasTail(aba, node, next))
    case CasTail(aba, node, next) =>
      if q.aba == aba && q.tail == node then (Taken(q, t, next), ReadData(q.aba + 1, node, next))
      else (q, ReadNext(q.aba, q.tail))
    case ReadData(i, node, next) => (q, Clear(i, node, next, NodeAt(q.mem, next).data))
    case Clear(i, node, next, data) => (Cleared(q, i, next), Wait(i, node, data))
    case Wait(i, node, data) => (q, if NodeAt(q.mem, node).data == None then FreeOld(i, node, data) else pc)
    case FreeOld(i, node, data) => (Freed(q, i, node), Popped(i, data))
  }

  function Step(s: State, t: Tid, c: Choice): State
    requires Enabled(s, t, c)
  {
    match c
    case Scribble(a, node) => s.(q := s.q.(mem := s.q.mem[a := node]))
    case Push(item, a) =>
      State(s.q.(mem := s.q.mem[a := Node(None, Some(item))], role := s.q.role[a := Private(t)]),
            s.pcs[t := Exchange(a, item)])
    case Pop => s.(pcs := s.pcs[t := ReadAba])
    case Go =>
      var (q, pc) := Act(s.q, t, s.pcs[t]);
      State(q, s.pcs[t := pc])
  }

  /** A step that is not safe may lead anywhere. */
  ghost predicate Next(s: State, t: Tid, c: Choice, s': State) {
    Enabled(s, t, c) && ((c.Go? ==> Safe(s.q, t, s.pcs[t])) ==> s' == Step(s, t, c))
  }

  predicate Init(s: State) {
    && s.q == Queue(map[s.q.head := Node(None, None)], map[s.q.head := At(0)], s.q.head, 0, s.q.head,
                    [Place(s.q.head, 0, 0, true, None, true, false)])
    && (forall t :: 0 <= t < |s.pcs| ==> s.pcs[t] == Idle)
  }

  // ---------- Invariant ----------

  /** The next field of the node at a place leads to the place after it, once
      that one is linked in. */
  predicate NextOk(mem: map<Addr, Node>, places: seq<Place>, i: nat) {
    !PlaceAt(places, i).freed ==>
      NodeAt(mem, PlaceAt(places, i).node).next
      == if i + 1 < |places| && PlaceAt(places, i + 1).linked then Some(PlaceAt(places, i + 1).node) else None
  }

  predicate PlaceOk(mem: map<Addr, Node>, role: map<Addr, Role>, aba: nat, i: nat, p: Place) {
    && (p.freed || RoleOf(role, p.node) == At(i))
    && (i <= aba ==> p.linked) && (i >= aba ==> !p.freed)
    && (p.cleared ==> i <= aba) && (p.freed ==> p.cleared)
    && (p.taker.Some? <==> 0 < i <= aba) && (i == 0 ==> p.cleared)
    && (!p.freed ==> NodeAt(mem, p.node).data == if p.cleared then None else Some(p.item))
  }

  ghost predicate QueueOk(q: Queue) {
    && q.aba < |q.places| && q.head == PlaceAt(q.places, |q.places| - 1).node && q.tail == PlaceAt(q.places, q.aba).node
    && (forall i: nat {:trigger PlaceAt(q.places, i)} :: i < |q.places| ==>
          PlaceOk(q.mem, q.role, q.aba, i, PlaceAt(q.places, i)))
    && (forall i: nat {:trigger NextOk(q.mem, q.places, i)} :: i < |q.places| ==> NextOk(q.mem, q.places, i))
    && (forall a {:trigger RoleOf(q.role, a)} :: RoleOf(q.role, a).At? ==>
          var i := RoleOf(q.role, a).i;
          i < |q.places| && PlaceAt(q.places, i).node == a && !PlaceAt(q.places, i).freed)
  }

  /** Thread `t` is the one that took place `i` and has not freed the node
      before it. */
  predicate Took(q: Queue, t: Tid, i: nat, node: Addr) {
    && 0 < i < |q.places| && PlaceAt(q.places, i).taker == Some(t)
    && !PlaceAt(q.places, i - 1).freed && PlaceAt(q.places, i - 1).node == node
  }

  predicate ThreadOk(q: Queue, t: Tid, pc: Pc) {
    match pc
    case Exchange(n, item) => RoleOf(q.role, n) == Private(t) && NodeAt(q.mem, n) == Node(None, Some(item))
    case LinkIn(prev, n, i) =>
      && 0 < i < |q.places| && !PlaceAt(q.places, i).linked && PlaceAt(q.places, i).pusher == t
      && PlaceAt(q.places, i).node == n && PlaceAt(q.places, i - 1).node == prev
    case ReadTail(aba) => aba <= q.aba
    case ReadNext(aba, node) => aba <= q.aba && (aba == q.aba ==> node == q.tail)
    case CasTail(aba, node, next) =>
      && aba <= q.aba
      && (aba == q.aba ==> && node == q.tail && aba + 1 < |q.places| && PlaceAt(q.places, aba + 1).linked
                           && PlaceAt(q.places, aba + 1).node == next)
    case ReadData(i, node, next) => Took(q, t, i, node) && PlaceAt(q.places, i).node == next && !PlaceAt(q.places, i).cleared
    case Clear(i, node, next, data) =>
      && Took(q, t, i, node) && PlaceAt(q.places, i).node == next && !PlaceAt(q.places, i).cleared
      && data == Some(PlaceAt(q.places, i).item)
    case Wait(i, node, data) =>
      Took(q, t, i, node) && PlaceAt(q.places, i).cleared && data == Some(PlaceAt(q.places, i).item)
    case FreeOld(i, node, data) =>
      && Took(q, t, i, node) && PlaceAt(q.places, i).cleared && data == Some(PlaceAt(q.places, i).item)
      && PlaceAt(q.places, i - 1).cleared
    case Popped(i, data) =>
      0 < i < |q.places| && PlaceAt(q.places, i).taker == Some(t) && data == Some(PlaceAt(q.places, i).item)
    case _ => true
  }

  /** What the other threads rely on. */
  ghost predicate Guarantee(q: Queue, q': Queue, t: Tid) {
    && |q.places| <= |q'.places| && q.aba <= q'.aba && (q'.aba == q.aba ==> q'.tail == q.tail)
    && (forall i: nat {:trigger PlaceAt(q'.places, i)} :: i < |q.places| ==>
          var p, p' := PlaceAt(q.places, i), PlaceAt(q'.places, i);
          && p'.node == p.node && p'.item == p.item && p'.pusher == p.pusher
          && (p.linked ==> p'.linked) && (p.freed ==> p'.freed) && (p.pusher != t ==> p'.linked == p.linked)
          && (p.taker.Some? ==> p'.taker == p.taker) && (p.cleared ==> p'.cleared)
          && (p.taker.Some? && p.taker != Some(t) ==> p'.cleared == p.cleared))
    && (forall i: nat {:trigger PlaceAt(q'.places, i)} :: i + 1 < |q.places| ==>
          PlaceAt(q.places, i + 1).taker.Some? && PlaceAt(q.places, i + 1).taker != Some(t) ==>
          PlaceAt(q'.places, i).freed == PlaceAt(q.places, i).freed)
    && (forall a {:trigger RoleOf(q'.role, a)} {:trigger NodeAt(q'.mem, a)} ::
          RoleOf(q.role, a).Private? && RoleOf(q.role, a).t != t ==>
          RoleOf(q'.role, a) == RoleOf(q.role, a) && NodeAt(q'.mem, a) == NodeAt(q.mem, a))
  }

  lemma RelyOk(q: Queue, q': Queue, t: Tid, u: Tid, pc: Pc)
    requires ThreadOk(q, u, pc) && Guarantee(q, q', t) && t != u
    ensures ThreadOk(q', u, pc)
  {
  }

  lemma EnabledIsSafe(q: Queue, t: Tid, pc: Pc)
    requires QueueOk(q) && ThreadOk(q, t, pc)
    ensures Safe(q, t, pc)
  {
  }

  // ---------- Changes of the queue ----------

  lemma SetPlaceAt(places: seq<Place>, i: nat, p: Place)
    requires i < |places|
    ensures |SetPlace(places, i, p)| == |places|
    ensures forall j: nat {:trigger PlaceAt(SetPlace(places, i, p), j)} ::
      PlaceAt(SetPlace(places, i, p), j) == if j == i then p else PlaceAt(places, j)
  {
  }

  lemma ExchangedOk(q: Queue, t: Tid, n: Addr, item: int)
    requires QueueOk(q) && RoleOf(q.role, n) == Private(t) && NodeAt(q.mem, n) == Node(None, Some(item))
    ensures QueueOk(Exchanged(q, t, n, item)) && Guarantee(q, Exchanged(q, t, n, item), t)
  {
    var q' := Exchanged(q, t, n, item);
    var k := |q.places|;
    assert forall i: nat {:trigger PlaceAt(q'.places, i)} :: i != k ==> PlaceAt(q'.places, i) == PlaceAt(q.places, i);
    assert forall a {:trigger RoleOf(q'.role, a)} :: a != n ==> RoleOf(q'.role, a) == RoleOf(q.role, a);
    forall i: nat {:trigger NextOk(q'.mem, q'.places, i)} | i < |q'.places| ensures NextOk(q'.mem, q'.places, i) {
      assert i < k ==> NextOk(q.mem, q.places, i);
    }
  }

  lemma LinkedGuarantee(q: Queue, t: Tid, prev: Addr, n: Addr, i: nat)
    requires ThreadOk(q, t, LinkIn(prev, n, i)) && RoleOf(q.role, prev) == At(i - 1)
    ensures Guarantee(q, Linked(q, prev, n, i), t)
  {
    SetPlaceAt(q.places, i, PlaceAt(q.places, i).(linked := true));
  }

  lemma LinkedNext(q: Queue, prev: Addr, n: Addr, i: nat, j: nat)
    requires 0 < i < |q.places| && j < |q.places| && NextOk(q.mem, q.places, j)
    requires PlaceAt(q.places, i).node == n && PlaceAt(q.places, i - 1).node == prev && RoleOf(q.role, prev) == At(i - 1)
    requires PlaceAt(q.places, j).freed || RoleOf(q.role, PlaceAt(q.places, j).node) == At(j)
    ensures var q' := Linked(q, prev, n, i); NextOk(q'.mem, q'.places, j)
  {
    SetPlaceAt(q.places, i, PlaceAt(q.places, i).(linked := true));
  }

  lemma LinkedPlace(q: Queue, prev: Addr, n: Addr, i: nat, j: nat)
    requires 0 < i < |q.places| && j < |q.places| && PlaceOk(q.mem, q.role, q.aba, j, PlaceAt(q.places, j))
    ensures var q' := Linked(q, prev, n, i); PlaceOk(q'.mem, q'.role, q'.aba, j, PlaceAt(q'.places, j))
  {
    SetPlaceAt(q.places, i, PlaceAt(q.places, i).(linked := true));
  }

  lemma LinkedOk(q: Queue, t: Tid, prev: Addr, n: Addr, i: nat)
    requires QueueOk(q) && ThreadOk(q, t, LinkIn(prev, n, i))
    ensures QueueOk(Linked(q, prev, n, i)) && Guarantee(q, Linked(q, prev, n, i), t)
  {
    var q' := Linked(q, prev, n, i);
    SetPlaceAt(q.places, i, PlaceAt(q.places, i).(linked := true));
    assert !PlaceAt(q.places, i - 1).freed;
    LinkedGuarantee(q, t, prev, n, i);
    forall j: nat {:trigger PlaceAt(q'.places, j)} | j < |q'.places|
      ensures PlaceOk(q'.mem, q'.role, q'.aba, j, PlaceAt(q'.places, j))
    {
      LinkedPlace(q, prev, n, i, j);
    }
    forall j: nat {:trigger NextOk(q'.mem, q'.places, j)} | j < |q'.places| ensures NextOk(q'.mem, q'.places, j) {
      assert NextOk(q.mem, q.places, j);
      LinkedNext(q, prev, n, i, j);
    }
  }

  lemma TakenOk(q: Queue, t: Tid, node: Addr, next: Addr)
    requires QueueOk(q) && ThreadOk(q, t, CasTail(q.aba, node, next))
    ensures QueueOk(Taken(q, t, next)) && Guarantee(q, Taken(q, t, next), t)
  {
    var q' := Taken(q, t, next);
    SetPlaceAt(q.places, q.aba + 1, PlaceAt(q.places, q.aba + 1).(taker := Some(t)));
    forall j: nat {:trigger NextOk(q'.mem, q'.places, j)} | j < |q'.places| ensures NextOk(q'.mem, q'.places, j) {
      assert NextOk(q.mem, q.places, j);
    }
  }

  lemma ClearedGuarantee(q: Queue, t: Tid, i: nat, node: Addr, next: Addr)
    requires Took(q, t, i, node) && RoleOf(q.role, next) == At(i)
    ensures Guarantee(q, Cleared(q, i, next), t)
  {
    SetPlaceAt(q.places, i, PlaceAt(q.places, i).(cleared := true));
  }

  lemma ClearedOk(q: Queue, t: Tid, i: nat, node: Addr, next: Addr)
    requires QueueOk(q) && Took(q, t, i, node) && PlaceAt(q.places, i).node == next && !PlaceAt(q.places, i).cleared
    ensures QueueOk(Cleared(q, i, next)) && Guarantee(q, Cleared(q, i, next), t)
  {
    var q' := Cleared(q, i, next);
    ClearedGuarantee(q, t, i, node, next);
    SetPlaceAt(q.places, i, PlaceAt(q.places, i).(cleared := true));
    assert forall a {:trigger NodeAt(q'.mem, a)} :: NodeAt(q'.mem, a).next == NodeAt(q.mem, a).next
                                                    && (a != next ==> NodeAt(q'.mem, a) == NodeAt(q.mem, a));
    forall j: nat {:trigger NextOk(q'.mem, q'.places, j)} | j < |q'.places| ensures NextOk(q'.mem, q'.places, j) {
      assert NextOk(q.mem, q.places, j);
    }
  }

  lemma FreedOk(q: Queue, t: Tid, i: nat, node: Addr)
    requires QueueOk(q) && Took(q, t, i, node) && PlaceAt(q.places, i - 1).cleared
    ensures QueueOk(Freed(q, i, node)) && Guarantee(q, Freed(q, i, node), t)
  {
    var q' := Freed(q, i, node);
    SetPlaceAt(q.places, i - 1, PlaceAt(q.places, i - 1).(freed := true));
    assert forall a {:trigger RoleOf(q'.role, a)} :: a != node ==> RoleOf(q'.role, a) == RoleOf(q.role, a);
    assert i <= q.aba by { assert PlaceOk(q.mem, q.role, q.aba, i, PlaceAt(q.places, i)); }
    forall j: nat {:trigger NextOk(q'.mem, q'.places, j)} | j < |q'.places| ensures NextOk(q'.mem, q'.places, j) {
      assert NextOk(q.mem, q.places, j);
    }
  }

  /** A node that is not in the queue is taken from the pool or overwritten. */
  lemma OutsideOk(q: Queue, t: Tid, a: Addr, node: Node, role: map<Addr, Role>)
    requires QueueOk(q) && RoleOf(q.role, a) == Free && (role == q.role || role == q.role[a := Private(t)])
    ensures var q' := q.(mem := q.mem[a := node], role := role); QueueOk(q') && Guarantee(q, q', t)
  {
    var q' := q.(mem := q.mem[a := node], role := role);
    assert forall b {:trigger NodeAt(q'.mem, b)} :: b != a ==> NodeAt(q'.mem, b) == NodeAt(q.mem, b);
    assert forall b {:trigger RoleOf(q'.role, b)} :: b != a ==> RoleOf(q'.role, b) == RoleOf(q.role, b);
    forall j: nat {:trigger NextOk(q'.mem, q'.places, j)} | j < |q'.places| ensures NextOk(q'.mem, q'.places, j) {
      assert NextOk(q.mem, q.places, j);
      assert PlaceOk(q.mem, q.role, q.aba, j, PlaceAt(q.places, j));
    }
  }

  // ---------- Steps ----------

  lemma NoneGuarantee(q: Queue, t: Tid)
    ensures Guarantee(q, q, t)
  {
  }

  lemma PushStep(q: Queue, t: Tid, pc: Pc)
    requires QueueOk(q) && ThreadOk(q, t, pc) && (pc.Exchange? || pc.LinkIn?)
    ensures var (q', pc') := Act(q, t, pc); QueueOk(q') && Guarantee(q, q', t) && ThreadOk(q', t, pc')
  {
    if pc.Exchange? {
      ExchangedOk(q, t, pc.n, pc.item);
      var k := |q.places|;
      assert PlaceAt(Exchanged(q, t, pc.n, pc.item).places, k - 1) == PlaceAt(q.places, k - 1);
    } else {
      LinkedOk(q, t, pc.prev, pc.n, pc.i);
    }
  }

  /** The steps of pop that only read. */
  lemma ReadStep(q: Queue, t: Tid, pc: Pc)
    requires QueueOk(q) && ThreadOk(q, t, pc)
    requires pc.ReadAba? || pc.ReadTail? || pc.ReadNext? || pc.ReadData? || pc.Wait?
    ensures var (q', pc') := Act(q, t, pc); q' == q && ThreadOk(q, t, pc')
  {
    if pc.ReadNext? && pc.aba == q.aba { assert NextOk(q.mem, q.places, q.aba); }
  }

  /** The thread that moves the tail has taken the place behind it. */
  lemma TakenThread(q: Queue, t: Tid, node: Addr, next: Addr)
    requires ThreadOk(q, t, CasTail(q.aba, node, next)) && PlaceAt(q.places, q.aba).node == node
    requires !PlaceAt(q.places, q.aba).freed && !PlaceAt(q.places, q.aba + 1).cleared
    ensures ThreadOk(Taken(q, t, next), t, ReadData(q.aba + 1, node, next))
  {
    SetPlaceAt(q.places, q.aba + 1, PlaceAt(q.places, q.aba + 1).(taker := Some(t)));
  }

  lemma TakeStep(q: Queue, t: Tid, pc: Pc)
    requires QueueOk(q) && ThreadOk(q, t, pc) && pc.CasTail?
    ensures var (q', pc') := Act(q, t, pc); QueueOk(q') && Guarantee(q, q', t) && ThreadOk(q', t, pc')
  {
    if q.aba == pc.aba && q.tail == pc.node {
      TakenOk(q, t, pc.node, pc.next);
      TakenThread(q, t, pc.node, pc.next);
    } else {
      NoneGuarantee(q, t);
    }
  }

  lemma CleanStep(q: Queue, t: Tid, pc: Pc)
    requires QueueOk(q) && ThreadOk(q, t, pc) && (pc.Clear? || pc.FreeOld?)
    ensures var (q', pc') := Act(q, t, pc); QueueOk(q') && Guarantee(q, q', t) && ThreadOk(q', t, pc')
  {
    if pc.Clear? {
      ClearedOk(q, t, pc.i, pc.node, pc.next);
      SetPlaceAt(q.places, pc.i, PlaceAt(q.places, pc.i).(cleared := true));
    } else {
      FreedOk(q, t, pc.i, pc.node);
      SetPlaceAt(q.places, pc.i - 1, PlaceAt(q.places, pc.i - 1).(freed := true));
    }
  }

  lemma ActOk(q: Queue, t: Tid, pc: Pc)
    requires QueueOk(q) && ThreadOk(q, t, pc) && !Quiet(pc)
    ensures var (q', pc') := Act(q, t, pc); QueueOk(q') && Guarantee(q, q', t) && ThreadOk(q', t, pc')
  {
    if pc.Exchange? || pc.LinkIn? {
      PushStep(q, t, pc);
    } else if pc.CasTail? {
      TakeStep(q, t, pc);
    } else if pc.Clear? || pc.FreeOld? {
      CleanStep(q, t, pc);
    } else {
      ReadStep(q, t, pc);
      NoneGuarantee(q, t);
    }
  }

  ghost predicate Inv(s: State) {
    QueueOk(s.q) && forall t :: 0 <= t < |s.pcs| ==> ThreadOk(s.q, t, s.pcs[t])
  }

  lemma StepQueue(s: State, t: Tid, c: Choice)
    requires Enabled(s, t, c) && QueueOk(s.q) && (t < |s.pcs| ==> ThreadOk(s.q, t, s.pcs[t]))
    ensures var s' := Step(s, t, c);
      && QueueOk(s'.q) && |s'.pcs| == |s.pcs|
      && (!c.Scribble? ==> Guarantee(s.q, s'.q, t) && ThreadOk(s'.q, t, s'.pcs[t]))
      && (c.Scribble? ==> s'.pcs == s.pcs && forall u :: Guarantee(s.q, s'.q, u))
      && forall u :: 0 <= u < |s.pcs| && u != t ==> s'.pcs[u] == s.pcs[u]
  {
    match c
    case Scribble(a, node) =>
      OutsideOk(s.q, t, a, node, s.q.role);
      forall u ensures Guarantee(s.q, Step(s, t, c).q, u) { OutsideOk(s.q, u, a, node, s.q.role); }
    case Push(item, a) => OutsideOk(s.q, t, a, Node(None, Some(item)), s.q.role[a := Private(t)]);
    case Pop => NoneGuarantee(s.q, t);
    case Go => ActOk(s.q, t, s.pcs[t]);
  }

  lemma StepInv(s: State, t: Tid, c: Choice)
    requires Inv(s) && Enabled(s, t, c)
    ensures Inv(Step(s, t, c))
  {
    StepQueue(s, t, c);
    var s' := Step(s, t, c);
    forall u | 0 <= u < |s'.pcs| ensures ThreadOk(s'.q, u, s'.pcs[u]) {
      if c.Scribble? {
        RelyOk(s.q, s'.q, u + 1, u, s.pcs[u]);
      } else if u != t {
        RelyOk(s.q, s'.q, t, u, s.pcs[u]);
      }
    }
  }

  // ---------- Runs ----------

  lemma InitInv(s: State)
    requires Init(s)
    ensures Inv(s)
  {
    assert NextOk(s.q.mem, s.q.places, 0);
  }

  ghost predicate Run(states: seq<State>, tids: seq<Tid>, choices: seq<Choice>) {
    && |states| == |tids| + 1 && |choices| == |tids| && Init(states[0])
    && forall i :: 0 <= i < |tids| ==> Next(states[i], tids[i], choices[i], states[i + 1])
  }

  lemma {:induction false} RunInv(states: seq<State>, tids: seq<Tid>, choices: seq<Choice>, i: nat)
    requires Run(states, tids, choices) && i < |states|
    ensures Inv(states[i])
  {
    if i == 0 {
      InitInv(states[0]);
    } else {
      RunInv(states, tids, choices, i - 1);
      RunStep(states, tids, choices, i - 1);
      StepInv(states[i - 1], tids[i - 1], choices[i - 1]);
    }
  }

  lemma RunStep(states: seq<State>, tids: seq<Tid>, choices: seq<Choice>, i: nat)
    requires Run(states, tids, choices) && i < |tids| && Inv(states[i])
    ensures Enabled(states[i], tids[i], choices[i]) && states[i + 1] == Step(states[i], tids[i], choices[i])
  {
    assert Next(states[i], tids[i], choices[i], states[i + 1]);
    if choices[i].Go? { EnabledIsSafe(states[i].q, tids[i], states[i].pcs[tids[i]]); }
  }

  /** Every statement of every run is safe: it meets the node of the place that it
      means, and frees it after its data was taken out. */
  lemma NoUseAfterFree(states: seq<State>, tids: seq<Tid>, choices: seq<Choice>, i: nat)
    requires Run(states, tids, choices) && i < |tids| && choices[i].Go?
    ensures tids[i] < |states[i].pcs| && Safe(states[i].q, tids[i], states[i].pcs[tids[i]])
  {
    RunInv(states, tids, choices, i);
    RunStep(states, tids, choices, i);
    EnabledIsSafe(states[i].q, tids[i], states[i].pcs[tids[i]]);
  }

  /** A CAS of the tail that succeeds was prepared by reading the node at the
      tail, not a freed one: it moves the tail to the next pushed element. */
  lemma StaleNeverSucceeds(states: seq<State>, tids: seq<Tid>, choices: seq<Choice>, i: nat, t: Tid)
    requires Run(states, tids, choices) && i < |states| && t < |states[i].pcs| && states[i].pcs[t].CasTail?
    requires states[i].q.aba == states[i].pcs[t].aba && states[i].q.tail == states[i].pcs[t].node
    ensures var q, pc := states[i].q, states[i].pcs[t];
      && RoleOf(q.role, pc.node) == At(q.aba) && RoleOf(q.role, pc.next) == At(q.aba + 1)
      && PlaceAt(q.places, q.aba + 1).node == pc.next && PlaceAt(q.places, q.aba + 1).taker == None
  {
    RunInv(states, tids, choices, i);
    assert ThreadOk(states[i].q, t, states[i].pcs[t]);
  }

  /** A pop that finds no next node has found the queue empty, or its next element
      not linked in yet, exactly when the tail has not moved since it was read; a
      stale read may answer anything. */
  lemma NullAnswer(states: seq<State>, tids: seq<Tid>, choices: seq<Choice>, i: nat, t: Tid)
    requires Run(states, tids, choices) && i < |states| && t < |states[i].pcs| && states[i].pcs[t].ReadNext?
    requires states[i].q.aba == states[i].pcs[t].aba
    ensures var q := states[i].q;
      NodeAt(q.mem, states[i].pcs[t].node).next == None
      <==> q.aba + 1 == |q.places| || !PlaceAt(q.places, q.aba + 1).linked
  {
    RunInv(states, tids, choices, i);
    assert ThreadOk(states[i].q, t, states[i].pcs[t]);
    assert NextOk(states[i].q.mem, states[i].q.places, states[i].q.aba);
  }

  /** One step of a run, seen by the threads that do not take it. */
  lemma RunGuarantee(states: seq<State>, tids: seq<Tid>, choices: seq<Choice>, i: nat)
    requires Run(states, tids, choices) && i < |tids|
    ensures Guarantee(states[i].q, states[i + 1].q, tids[i])
  {
    RunInv(states, tids, choices, i);
    RunStep(states, tids, choices, i);
    StepQueue(states[i], tids[i], choices[i]);
  }

  /** What was pushed and who took it never changes, what was linked in or freed
      stays so, and the counter of the tail only grows. */
  lemma {:induction false} PlacesStay(states: seq<State>, tids: seq<Tid>, choices: seq<Choice>, i: nat, j: nat, k: nat)
    requires Run(states, tids, choices) && i <= j < |states| && k < |states[i].q.places|
    ensures var p, p' := PlaceAt(states[i].q.places, k), PlaceAt(states[j].q.places, k);
      && k < |states[j].q.places| && p'.node == p.node && p'.item == p.item && p'.pusher == p.pusher
      && (p.taker.Some? ==> p'.taker == p.taker) && (p.freed ==> p'.freed) && (p.linked ==> p'.linked)
      && states[i].q.aba <= states[j].q.aba
    decreases j
  {
    if i < j {
      PlacesStay(states, tids, choices, i, j - 1, k);
      RunGuarantee(states, tids, choices, j - 1);
    }
  }

  /** Who took a place never changes, and no place is skipped: exactly the places
      up to the counter of the tail have been taken. */
  lemma TakenOnce(states: seq<State>, tids: seq<Tid>, choices: seq<Choice>, i: nat, j: nat, k: nat)
    requires Run(states, tids, choices) && i <= j < |states| && k < |states[i].q.places|
    ensures var p, p' := PlaceAt(states[i].q.places, k), PlaceAt(states[j].q.places, k);
      && k < |states[j].q.places| && p'.item == p.item && (p.taker.Some? ==> p'.taker == p.taker)
      && (p'.taker.Some? <==> 0 < k <= states[j].q.aba)
  {
    PlacesStay(states, tids, choices, i, j, k);
    RunInv(states, tids, choices, j);
    assert PlaceOk(states[j].q.mem, states[j].q.role, states[j].q.aba, k, PlaceAt(states[j].q.places, k));
  }

  /** A node goes back to the pool by a step of the thread that took the place
      behind it, after its data was taken out, and no place is freed twice. */
  lemma FreedOnce(states: seq<State>, tids: seq<Tid>, choices: seq<Choice>, i: nat, a: Addr, j: nat)
    requires Run(states, tids, choices) && i < |tids| && i < j < |states|
    requires RoleOf(states[i].q.role, a) != Free && RoleOf(states[i + 1].q.role, a) == Free
    ensures RoleOf(states[i].q.role, a).At? && var k := RoleOf(states[i].q.role, a).i;
      && k + 1 < |states[i].q.places| && PlaceAt(states[i].q.places, k + 1).taker == Some(tids[i])
      && PlaceAt(states[i].q.places, k).cleared && !PlaceAt(states[i].q.places, k).freed
      && PlaceAt(states[j].q.places, k).freed
  {
    RunInv(states, tids, choices, i);
    RunStep(states, tids, choices, i);
    var q, pc := states[i].q, states[i].pcs[tids[i]];
    assert choices[i].Go? && pc.FreeOld? && pc.node == a;
    assert ThreadOk(q, tids[i], pc);
    SetPlaceAt(q.places, pc.i - 1, PlaceAt(q.places, pc.i - 1).(freed := true));
    PlacesStay(states, tids, choices, i + 1, j, pc.i - 1);
  }

  /** Step `i` is the last statement of a pop, which answers with the place `k`. */
  predicate Delivers(states: seq<State>, tids: seq<Tid>, choices: seq<Choice>, i: nat, k: nat) {
    && i < |tids| == |choices| && i + 1 < |states| && choices[i].Go? && tids[i] < |states[i].pcs|
    && states[i].pcs[tids[i]].FreeOld? && states[i].pcs[tids[i]].i == k
  }

  /** A pop returns the item of the place it took. */
  lemma PopsInOrder(states: seq<State>, tids: seq<Tid>, choices: seq<Choice>, i: nat, k: nat)
    requires Run(states, tids, choices) && Delivers(states, tids, choices, i, k)
    ensures var q, t := states[i + 1].q, tids[i];
      && t < |states[i + 1].pcs| && 0 < k <= q.aba && PlaceAt(q.places, k).taker == Some(t)
      && states[i + 1].pcs[t] == Popped(k, Some(PlaceAt(q.places, k).item))
  {
    RunInv(states, tids, choices, i);
    RunStep(states, tids, choices, i);
    assert ThreadOk(states[i].q, tids[i], states[i].pcs[tids[i]]);
    RunInv(states, tids, choices, i + 1);
    assert ThreadOk(states[i + 1].q, tids[i], states[i + 1].pcs[tids[i]]);
  }

  /** The place that a pop is about to answer with, if it has taken one. */
  function Carries(pc: Pc): Option<nat> {
    match pc
    case ReadData(i, _, _) => Some(i)
    case Clear(i, _, _, _) => Some(i)
    case Wait(i, _, _) => Some(i)
    case FreeOld(i, _, _) => Some(i)
    case _ => None
  }

  /** A thread that gets a place gets the next one behind the tail. */
  lemma StepCarries(s: State, t: Tid, c: Choice, u: Tid)
    requires Enabled(s, t, c) && u < |s.pcs|
    ensures var s' := Step(s, t, c);
      && |s'.pcs| == |s.pcs| && s.q.aba <= s'.q.aba
      && (Carries(s'.pcs[u]) == None || Carries(s'.pcs[u]) == Carries(s.pcs[u]) || Carries(s'.pcs[u]) == Some(s.q.aba + 1))
  {
  }

  /** After a pop that answered with place `k`, the thread takes later places only. */
  lemma {:induction false} PlacesGrow(states: seq<State>, tids: seq<Tid>, choices: seq<Choice>, i: nat, j: nat, t: Tid, k: nat)
    requires Run(states, tids, choices) && i <= j < |states| && t < |states[i].pcs|
    requires Carries(states[i].pcs[t]) == None && k <= states[i].q.aba
    ensures |states[j].pcs| == |states[i].pcs| && k <= states[j].q.aba
    ensures Carries(states[j].pcs[t]).Some? ==> Carries(states[j].pcs[t]).value > k
    decreases j
  {
    if i < j {
      PlacesGrow(states, tids, choices, i, j - 1, t, k);
      assert Enabled(states[j - 1], tids[j - 1], choices[j - 1])
          && states[j] == Step(states[j - 1], tids[j - 1], choices[j - 1]) by {
        RunInv(states, tids, choices, j - 1);
        RunStep(states, tids, choices, j - 1);
      }
      StepCarries(states[j - 1], tids[j - 1], choices[j - 1], t);
    }
  }

  /** Every element is delivered by at most one pop of the whole run: different
      pops, of one thread or of two, answer with different places. */
  lemma DeliveredOnce(states: seq<State>, tids: seq<Tid>, choices: seq<Choice>, i: nat, k: nat, j: nat, l: nat)
    requires Run(states, tids, choices) && i < j
    requires Delivers(states, tids, choices, i, k) && Delivers(states, tids, choices, j, l)
    ensures k != l
  {
    PopsInOrder(states, tids, choices, i, k);
    PopsInOrder(states, tids, choices, j, l);
    if tids[i] == tids[j] {
      PlacesGrow(states, tids, choices, i + 1, j, tids[i], k);
    } else {
      RunInv(states, tids, choices, i + 1);
      PlacesStay(states, tids, choices, i + 1, j + 1, k);
    }
  }

  /** A thread that has taken a place keeps it until it answers with it. */
  lemma StepKeeps(s: State, t: Tid, c: Choice, u: Tid)
    requires Enabled(s, t, c) && u < |s.pcs| && Carries(s.pcs[u]).Some?
    ensures var s' := Step(s, t, c);
      |s'.pcs| == |s.pcs| && (Carries(s'.pcs[u]) == Carries(s.pcs[u]) || (u == t && c.Go? && s.pcs[u].FreeOld?))
  {
  }

  /** The thread that moves the tail takes the place that it moves it to. */
  lemma StepTakes(s: State, t: Tid, c: Choice)
    requires Enabled(s, t, c) && Step(s, t, c).q.aba != s.q.aba
    ensures var s' := Step(s, t, c);
      t < |s'.pcs| && s'.q.aba == s.q.aba + 1 && Carries(s'.pcs[t]) == Some(s.q.aba + 1)
  {
  }

  /** Before state `j` some pop has answered with place `k`. */
  ghost predicate Delivered(states: seq<State>, tids: seq<Tid>, choices: seq<Choice>, j: nat, k: nat) {
    exists i: nat :: i < j && Delivers(states, tids, choices, i, k)
  }

  ghost predicate Carried(s: State, k: nat) {
    exists t: nat :: t < |s.pcs| && Carries(s.pcs[t]) == Some(k)
  }

  /** No element is lost: a place that was taken is delivered, or a pop that is
      still running carries it. */
  lemma {:induction false} NeverLost(states: seq<State>, tids: seq<Tid>, choices: seq<Choice>, j: nat, k: nat)
    requires Run(states, tids, choices) && j < |states| && 0 < k <= states[j].q.aba
    ensures Delivered(states, tids, choices, j, k) || Carried(states[j], k)
    decreases j
  {
    if j > 0 {
      var s, s', t, c := states[j - 1], states[j], tids[j - 1], choices[j - 1];
      assert Enabled(s, t, c) && s' == Step(s, t, c) by {
        RunInv(states, tids, choices, j - 1);
        RunStep(states, tids, choices, j - 1);
      }
      if s'.q.aba != s.q.aba { StepTakes(s, t, c); }
      if k <= s.q.aba {
        NeverLost(states, tids, choices, j - 1, k);
        if Delivered(states, tids, choices, j - 1, k) {
          var i: nat :| i < j - 1 && Delivers(states, tids, choices, i, k);
          assert Delivered(states, tids, choices, j, k);
        } else {
          var u: nat :| u < |s.pcs| && Carries(s.pcs[u]) == Some(k);
          StepKeeps(s, t, c, u);
          assert Delivers(states, tids, choices, j - 1, k) || Carries(s'.pcs[u]) == Some(k);
        }
      }
    }
  }

  /** A pop that carries a place was not preceded by one that answered with it. */
  lemma CarriedLater(states: seq<State>, tids: seq<Tid>, choices: seq<Choice>, i: nat, k: nat, j: nat, t: Tid)
    requires Run(states, tids, choices) && Delivers(states, tids, choices, i, k) && i < j < |states|
    requires t < |states[j].pcs| && Carries(states[j].pcs[t]).Some?
    ensures Carries(states[j].pcs[t]) != Some(k)
  {
    PopsInOrder(states, tids, choices, i, k);
    if t == tids[i] {
      PlacesGrow(states, tids, choices, i + 1, j, t, k);
    } else {
      RunInv(states, tids, choices, i + 1);
      PlacesStay(states, tids, choices, i + 1, j, k);
      RunInv(states, tids, choices, j);
      assert ThreadOk(states[j].q, t, states[j].pcs[t]);
    }
  }

  /** Every element is popped exactly once: for a place that was taken, exactly one
      pop has answered with it, and nobody carries it any more, or none has, and
      exactly one pop that is still running carries it. A place that was not taken
      is neither delivered nor carried. */
  lemma ExactlyOnce(states: seq<State>, tids: seq<Tid>, choices: seq<Choice>, j: nat, k: nat)
    requires Run(states, tids, choices) && j < |states|
    ensures 0 < k <= states[j].q.aba <==> Delivered(states, tids, choices, j, k) || Carried(states[j], k)
    ensures !(Delivered(states, tids, choices, j, k) && Carried(states[j], k))
    ensures forall i: nat, l: nat :: i < j && l < j ==>
      Delivers(states, tids, choices, i, k) && Delivers(states, tids, choices, l, k) ==> i == l
    ensures forall t: nat, u: nat :: t < |states[j].pcs| && u < |states[j].pcs| ==>
      Carries(states[j].pcs[t]) == Some(k) && Carries(states[j].pcs[u]) == Some(k) ==> t == u
  {
    RunInv(states, tids, choices, j);
    if 0 < k <= states[j].q.aba { NeverLost(states, tids, choices, j, k); }
    forall i: nat | i < j && Delivers(states, tids, choices, i, k)
      ensures 0 < k <= states[j].q.aba && !Carried(states[j], k)
    {
      DeliveredTaken(states, tids, choices, i, k, j);
    }
    forall i: nat, l: nat | i < j && l < j && Delivers(states, tids, choices, i, k) && Delivers(states, tids, choices, l, k)
      ensures i == l
    {
      if i < l {
        DeliveredOnce(states, tids, choices, i, k, l, k);
      } else if l < i {
        DeliveredOnce(states, tids, choices, l, k, i, k);
      }
    }
    forall t: nat | t < |states[j].pcs| && Carries(states[j].pcs[t]) == Some(k)
      ensures 0 < k <= states[j].q.aba && PlaceAt(states[j].q.places, k).taker == Some(t)
    {
      assert ThreadOk(states[j].q, t, states[j].pcs[t]);
    }
  }

  lemma DeliveredTaken(states: seq<State>, tids: seq<Tid>, choices: seq<Choice>, i: nat, k: nat, j: nat)
    requires Run(states, tids, choices) && Delivers(states, tids, choices, i, k) && i < j < |states|
    ensures 0 < k <= states[j].q.aba && !Carried(states[j], k)
  {
    PopsInOrder(states, tids, choices, i, k);
    RunInv(states, tids, choices, i + 1);
    PlacesStay(states, tids, choices, i + 1, j, k);
    forall t: nat | t < |states[j].pcs| ensures Carries(states[j].pcs[t]) != Some(k) {
      if Carries(states[j].pcs[t]).Some? { CarriedLater(states, tids, choices, i, k, j, t); }
    }
  }

  // ---------- Pushes that end, and nodes that go back to the pool ----------

  /** The thread is between its exchange of head, which brought in place `k`, and
      its store to next. */
  predicate Linking(s: State, t: Tid, k: nat) {
    t < |s.pcs| && s.pcs[t].LinkIn? && s.pcs[t].i == k
  }

  lemma StepUnlinked(s: State, t: Tid, c: Choice, k: nat)
    requires Enabled(s, t, c) && k < |Step(s, t, c).q.places| && !PlaceAt(Step(s, t, c).q.places, k).linked
    requires k < |s.q.places| && !PlaceAt(s.q.places, k).linked ==> Linking(s, PlaceAt(s.q.places, k).pusher, k)
    ensures Linking(Step(s, t, c), PlaceAt(Step(s, t, c).q.places, k).pusher, k)
  {
  }

  /** An element that is not linked in has its pusher at the store that links it
      in: no push ends without it. */
  lemma {:induction false} Unlinked(states: seq<State>, tids: seq<Tid>, choices: seq<Choice>, j: nat, k: nat)
    requires Run(states, tids, choices) && j < |states|
    requires k < |states[j].q.places| && !PlaceAt(states[j].q.places, k).linked
    ensures Linking(states[j], PlaceAt(states[j].q.places, k).pusher, k)
  {
    if j > 0 {
      AfterStep(states, tids, choices, j - 1);
      var s := states[j - 1];
      if k < |s.q.places| && !PlaceAt(s.q.places, k).linked { Unlinked(states, tids, choices, j - 1, k); }
      StepUnlinked(s, tids[j - 1], choices[j - 1], k);
    }
  }

  /** When no push is between its exchange and its store, a pop that has read the
      current tail answers NULL if and only if every element has been taken. */
  lemma NullIsEmpty(states: seq<State>, tids: seq<Tid>, choices: seq<Choice>, i: nat, t: Tid)
    requires Run(states, tids, choices) && i < |states| && t < |states[i].pcs| && states[i].pcs[t].ReadNext?
    requires states[i].q.aba == states[i].pcs[t].aba
    requires forall u: nat :: u < |states[i].pcs| ==> !states[i].pcs[u].LinkIn?
    ensures Act(states[i].q, t, states[i].pcs[t]).1 == Nothing
      <==> forall k: nat :: 0 < k < |states[i].q.places| ==> PlaceAt(states[i].q.places, k).taker.Some?
  {
    var q := states[i].q;
    NullAnswer(states, tids, choices, i, t);
    RunInv(states, tids, choices, i);
    if q.aba + 1 < |q.places| {
      assert PlaceAt(q.places, q.aba + 1).taker == None;
      if !PlaceAt(q.places, q.aba + 1).linked { Unlinked(states, tids, choices, i, q.aba + 1); }
    }
  }

  /** A pop answers NULL only because it has just read that the node it took for the
      tail has no successor. */
  lemma NullOnlyWhenRead(states: seq<State>, tids: seq<Tid>, choices: seq<Choice>, i: nat, t: Tid)
    requires Run(states, tids, choices) && i < |tids| && t < |states[i].pcs| && !states[i].pcs[t].Nothing?
    ensures |states[i + 1].pcs| == |states[i].pcs|
    ensures states[i + 1].pcs[t].Nothing? <==>
      && t == tids[i] && choices[i].Go? && states[i].pcs[t].ReadNext?
      && NodeAt(states[i].q.mem, states[i].pcs[t].node).next == None
  {
    AfterStep(states, tids, choices, i);
  }

  /** Between steps `i` and `j` thread `t` takes none. */
  predicate Rests(tids: seq<Tid>, choices: seq<Choice>, i: nat, j: nat, t: Tid)
    requires i <= j <= |tids| == |choices|
  {
    forall l :: i <= l < j ==> tids[l] != t || choices[l].Scribble?
  }

  lemma {:induction false} StaysAt(states: seq<State>, tids: seq<Tid>, choices: seq<Choice>, i: nat, j: nat, t: Tid)
    requires Run(states, tids, choices) && i <= j < |states| && Rests(tids, choices, i, j, t) && t < |states[i].pcs|
    ensures t < |states[j].pcs| && states[j].pcs[t] == states[i].pcs[t]
    decreases j
  {
    if i < j {
      StaysAt(states, tids, choices, i, j - 1, t);
      RunInv(states, tids, choices, j - 1);
      RunStep(states, tids, choices, j - 1);
      assert tids[j - 1] != t || choices[j - 1].Scribble?;
    }
  }

  /** A push brings in its own item, at the end of the queue and with its next
      statement, and links it in with the one after; later it stays linked in. */
  lemma PushEnters(states: seq<State>, tids: seq<Tid>, choices: seq<Choice>, i: nat, j: nat, l: nat, m: nat)
    requires Run(states, tids, choices) && i < j < l < |tids| && choices[i].Push? && l < m < |states|
    requires tids[j] == tids[l] == tids[i] && choices[j].Go? && choices[l].Go?
    requires Rests(tids, choices, i + 1, j, tids[i]) && Rests(tids, choices, j + 1, l, tids[i])
    ensures var k := |states[j].q.places|;
      && |states[j + 1].q.places| == k + 1 && states[j + 1].q.places[..k] == states[j].q.places
      && PlaceAt(states[m].q.places, k).item == choices[i].item && PlaceAt(states[m].q.places, k).pusher == tids[i]
      && PlaceAt(states[m].q.places, k).linked
  {
    var t, k := tids[i], |states[j].q.places|;
    AfterStep(states, tids, choices, i);
    StaysAt(states, tids, choices, i + 1, j, t);
    AfterStep(states, tids, choices, j);
    StaysAt(states, tids, choices, j + 1, l, t);
    PlacesStay(states, tids, choices, j + 1, l, k);
    AfterStep(states, tids, choices, l);
    PlacesStay(states, tids, choices, l + 1, m, k);
  }

  lemma AfterStep(states: seq<State>, tids: seq<Tid>, choices: seq<Choice>, i: nat)
    requires Run(states, tids, choices) && i < |tids|
    ensures Enabled(states[i], tids[i], choices[i]) && states[i + 1] == Step(states[i], tids[i], choices[i])
  {
    RunInv(states, tids, choices, i);
    RunStep(states, tids, choices, i);
  }

  lemma StepFreed(s: State, t: Tid, c: Choice, k: nat)
    requires Enabled(s, t, c) && (t < |s.pcs| ==> ThreadOk(s.q, t, s.pcs[t])) && k < |Step(s, t, c).q.places|
    ensures PlaceAt(Step(s, t, c).q.places, k).freed <==>
      (k < |s.q.places| && PlaceAt(s.q.places, k).freed) || (c.Go? && s.pcs[t].FreeOld? && s.pcs[t].i == k + 1)
  {
  }

  /** The thread has taken place `k` and not cleared it yet. */
  predicate Clearing(s: State, t: Tid, k: nat) {
    t < |s.pcs| && (s.pcs[t].ReadData? || s.pcs[t].Clear?) && s.pcs[t].i == k
  }

  predicate ClearedOrBusy(s: State, k: nat) {
    0 < k <= s.q.aba && k < |s.q.places| && !PlaceAt(s.q.places, k).cleared ==>
      PlaceAt(s.q.places, k).taker.Some? && Clearing(s, PlaceAt(s.q.places, k).taker.value, k)
  }

  lemma StepUncleared(s: State, t: Tid, c: Choice, k: nat)
    requires Enabled(s, t, c) && ClearedOrBusy(s, k) && s.q.aba < |s.q.places|
    ensures ClearedOrBusy(Step(s, t, c), k)
  {
  }

  lemma {:induction false} RunUncleared(states: seq<State>, tids: seq<Tid>, choices: seq<Choice>, j: nat, k: nat)
    requires Run(states, tids, choices) && j < |states|
    ensures ClearedOrBusy(states[j], k)
  {
    if j > 0 {
      RunUncleared(states, tids, choices, j - 1, k);
      RunInv(states, tids, choices, j - 1);
      AfterStep(states, tids, choices, j - 1);
      StepUncleared(states[j - 1], tids[j - 1], choices[j - 1], k);
    }
  }

  /** A pop waits only for the pop that took the place before it and is about to
      take its data out, which waits for nobody. */
  lemma WaitsForOne(states: seq<State>, tids: seq<Tid>, choices: seq<Choice>, j: nat, t: Tid)
    requires Run(states, tids, choices) && j < |states| && t < |states[j].pcs| && states[j].pcs[t].Wait?
    requires NodeAt(states[j].q.mem, states[j].pcs[t].node).data != None
    ensures var k := states[j].pcs[t].i;
      && k > 0 && PlaceAt(states[j].q.places, k - 1).taker.Some?
      && Clearing(states[j], PlaceAt(states[j].q.places, k - 1).taker.value, k - 1)
  {
    var q, pc := states[j].q, states[j].pcs[t];
    RunInv(states, tids, choices, j);
    assert ThreadOk(q, t, pc);
    assert PlaceOk(q.mem, q.role, q.aba, pc.i - 1, PlaceAt(q.places, pc.i - 1));
    RunUncleared(states, tids, choices, j, pc.i - 1);
  }

  lemma DeliveredMore(states: seq<State>, tids: seq<Tid>, choices: seq<Choice>, j: nat, k: nat)
    requires j > 0
    ensures Delivered(states, tids, choices, j, k) <==>
      Delivered(states, tids, choices, j - 1, k) || Delivers(states, tids, choices, j - 1, k)
  {
    if Delivered(states, tids, choices, j, k) {
      var i: nat :| i < j && Delivers(states, tids, choices, i, k);
      assert i == j - 1 || i < j - 1;
    }
    if Delivered(states, tids, choices, j - 1, k) {
      var i: nat :| i < j - 1 && Delivers(states, tids, choices, i, k);
      assert i < j;
    }
  }

  lemma RunFreed(states: seq<State>, tids: seq<Tid>, choices: seq<Choice>, j: nat, k: nat)
    requires Run(states, tids, choices) && j < |tids| && k < |states[j + 1].q.places|
    ensures PlaceAt(states[j + 1].q.places, k).freed <==>
      (k < |states[j].q.places| && PlaceAt(states[j].q.places, k).freed) || Delivers(states, tids, choices, j, k + 1)
  {
    RunInv(states, tids, choices, j);
    RunStep(states, tids, choices, j);
    StepFreed(states[j], tids[j], choices[j], k);
  }

  lemma DeliveredPlace(states: seq<State>, tids: seq<Tid>, choices: seq<Choice>, j: nat, k: nat)
    requires Run(states, tids, choices) && j < |states| && Delivered(states, tids, choices, j, k)
    ensures 0 < k < |states[j].q.places|
  {
    var i: nat :| i < j && Delivers(states, tids, choices, i, k);
    DeliveredTaken(states, tids, choices, i, k, j);
    RunInv(states, tids, choices, j);
  }

  /** No node leaks and none is freed early: the node of a place was freed exactly
      when a pop has answered with the place behind it. */
  lemma {:induction false} FreedIffDelivered(states: seq<State>, tids: seq<Tid>, choices: seq<Choice>, j: nat, k: nat)
    requires Run(states, tids, choices) && j < |states| && k < |states[j].q.places|
    ensures PlaceAt(states[j].q.places, k).freed <==> Delivered(states, tids, choices, j, k + 1)
    decreases j
  {
    if j > 0 {
      RunFreed(states, tids, choices, j - 1, k);
      DeliveredMore(states, tids, choices, j, k + 1);
      if k < |states[j - 1].q.places| {
        FreedIffDelivered(states, tids, choices, j - 1, k);
      } else if Delivered(states, tids, choices, j - 1, k + 1) {
        DeliveredPlace(states, tids, choices, j - 1, k + 1);
      }
    }
  }
}
