/** The Michael-Scott queue without node reuse, in two forms: the C version,
    whose dequeue re-reads head and helps the tail on, and the Java version, whose
    poll may let head overtake tail. Every access of shared memory is one step. */
module MsQueue {

  import opened Basics
  import opened History
  import opened FifoHistory

  /** A node is named by the thread that allocated it. */
  datatype Addr = Addr(owner: Tid, serial: nat)

  datatype Ptr = Null | At(a: Addr)

  datatype Node = Node(key: int, next: Ptr)

  /** `keys` are the keys of the nodes in the order they were linked in, from
      the first dummy on, and `pos` the places of the nodes in that order. */
  datatype Queue = Queue(mem: map<Addr, Node>, head: Addr, tail: Addr, keys: seq<int>, pos: map<Addr, nat>)

  /** The statement that a thread executes next, with its local variables. */
  datatype Pc =
    | Idle
    | ReadTail
    | CheckTail(l: Addr)
    | ReadNext(l: Addr)
    | RecheckTail(l: Addr, succ: Ptr)
    | Help(l: Addr, next: Addr)
    | LinkIn(l: Addr)
    | Swing(l: Addr)
    | TakeHead
    | TakeTail(h: Addr)
    | TakeNext(h: Addr, l: Addr)
    | CheckHead(h: Addr, l: Addr, succ: Ptr)
    | HelpTail(h: Addr, next: Addr)
    | TakeKey(h: Addr, l: Addr, next: Addr)
    | MoveHead(h: Addr, l: Addr, next: Addr, data: int)
    | TakeItem(next: Addr)
    | Done(answer: Answer)

  /** The call of a thread is an enqueue of `key` with node `n`, or a dequeue;
      `began` is the length of the history when it began. */
  datatype Thread = Thread(pc: Pc, adds: bool, key: int, n: Addr, began: nat)

  /** `helping` tells the C version from the Java one; `hist` are the steps so
      far, behind an event that stands for the start. */
  datatype State = State(helping: bool, q: Queue, threads: seq<Thread>, hist: Steps)

  datatype Choice = Enqueue(key: int, serial: nat) | Dequeue | Go

  function NodeAt(mem: map<Addr, Node>, a: Addr): Node {
    if a in mem then mem[a] else Node(0, Null)
  }

  /** Places count from one; a node that is not linked in has none. */
  function PosOf(pos: map<Addr, nat>, a: Addr): nat {
    if a in pos then pos[a] else 0
  }

  /** The keys behind the dummy at head. */
  function Contents(q: Queue): seq<int> {
    if PosOf(q.pos, q.head) <= |q.keys| then q.keys[PosOf(q.pos, q.head)..] else []
  }

  function CasTail(q: Queue, from: Addr, to: Addr): Queue {
    if q.tail == from then q.(tail := to) else q
  }

  /** The effect of a successful CAS of l->next from NULL to n. */
  function Linked(q: Queue, l: Addr, n: Addr): Queue {
    q.(mem := q.mem[l := NodeAt(q.mem, l).(next := At(n))],
       keys := q.keys + [NodeAt(q.mem, n).key], pos := q.pos[n := |q.keys| + 1])
  }

  predicate Enabled(s: State, t: Tid, c: Choice) {
    && t < |s.threads|
    && if s.threads[t].pc.Idle? || s.threads[t].pc.Done?
       then c.Dequeue? || (c.Enqueue? && Addr(t, c.serial) !in s.q.mem)
       else c.Go?
  }

  /** The queue and the statement of the thread after its next statement. */
  function Act(helping: bool, q: Queue, th: Thread): (Queue, Pc) {
    match th.pc
    case Idle => (q, th.pc)
    case Done(_) => (q, th.pc)
    case ReadTail => (q, if helping then CheckTail(q.tail) else ReadNext(q.tail))
    case CheckTail(l) => (q, if q.tail == l then ReadNext(l) else ReadTail)
    case ReadNext(l) => (q, if helping then AfterNext(l, NodeAt(q.mem, l).next) else RecheckTail(l, NodeAt(q.mem, l).next))
    case RecheckTail(l, next) => (q, if q.tail == l then AfterNext(l, next) else ReadTail)
    case Help(l, next) => (CasTail(q, l, next), ReadTail)
    case LinkIn(l) => if NodeAt(q.mem, l).next == Null then (Linked(q, l, th.n), Swing(l)) else (q, ReadTail)
    case Swing(l) => (CasTail(q, l, th.n), Done(Added(th.key)))
    case TakeHead => (q, TakeTail(q.head))
    case TakeTail(h) => (q, TakeNext(h, q.tail))
    case TakeNext(h, l) =>
      (q, if helping then CheckHead(h, l, NodeAt(q.mem, h).next)
          else match NodeAt(q.mem, h).next case Null => Done(Empty) case At(next) => MoveHead(h, l, next, 0))
    case CheckHead(h, l, next) =>
      (q, if q.head != h then TakeHead
          else match next
               case Null => Done(Empty)
               case At(a) => if h == l then HelpTail(h, a) else TakeKey(h, l, a))
    case HelpTail(h, next) => (CasTail(q, h, next), TakeHead)
    case TakeKey(h, l, next) => (q, MoveHead(h, l, next, NodeAt(q.mem, next).key))
    case MoveHead(h, l, next, data) =>
      if q.head != h then (q, TakeHead)
      else (q.(head := next), if helping then Done(Took(data)) else TakeItem(next))
    case TakeItem(next) => (q, Done(Took(NodeAt(q.mem, next).key)))
  }

  /** What enqueue does once it has read tail->next. */
  function AfterNext(l: Addr, next: Ptr): Pc {
    match next
    case Null => LinkIn(l)
    case At(a) => Help(l, a)
  }

  /** A call of enqueue allocates a node that was never used before. */
  function Begin(q: Queue, t: Tid, c: Choice, now: nat): (Queue, Thread) {
    if c.Enqueue? then
      var n := Addr(t, c.serial);
      (q.(mem := q.mem[n := Node(c.key, Null)]), Thread(ReadTail, true, c.key, n, now))
    else (q, Thread(TakeHead, false, 0, Addr(t, 0), now))
  }

  /** The steps that change the contents: linking in a node and moving head. */
  function EffectOf(q: Queue, th: Thread): Option<Effect> {
    match th.pc
    case LinkIn(l) => if NodeAt(q.mem, l).next == Null then Some(Append(th.key)) else None
    case MoveHead(h, _, next, _) => if q.head == h then Some(Remove(NodeAt(q.mem, next).key)) else None
    case _ => None
  }

  /** A step also appends what it did to the history. */
  function Step(s: State, t: Tid, c: Choice): State
    requires Enabled(s, t, c)
  {
    var th := s.threads[t];
    if c.Go? then
      var (q, pc) := Act(s.helping, s.q, th);
      s.(q := q, threads := s.threads[t := th.(pc := pc)], hist := s.hist + [Event(t, EffectOf(s.q, th), Contents(q))])
    else
      var (q, th') := Begin(s.q, t, c, |s.hist|);
      s.(q := q, threads := s.threads[t := th'], hist := s.hist + [Event(t, None, Contents(q))])
  }

  predicate Init(s: State) {
    && s.q.head == s.q.tail
    && s.q == Queue(map[s.q.head := Node(0, Null)], s.q.head, s.q.tail, [0], map[s.q.head := 1])
    && s.hist == [Event(0, None, [])]
    && (forall t :: 0 <= t < |s.threads| ==> s.threads[t].pc == Idle && s.threads[t].began == 0)
  }

  // ---------- The shape of the queue ----------

  /** The next field of a linked node leads to the node linked in after it. */
  predicate NextOk(mem: map<Addr, Node>, keys: seq<int>, pos: map<Addr, nat>, a: Addr) {
    match NodeAt(mem, a).next
    case Null => PosOf(pos, a) == |keys|
    case At(b) => PosOf(pos, b) == PosOf(pos, a) + 1
  }

  ghost predicate ShapeOk(mem: map<Addr, Node>, keys: seq<int>, pos: map<Addr, nat>) {
    && (forall a {:trigger PosOf(pos, a)} :: PosOf(pos, a) > 0 ==>
          a in mem && PosOf(pos, a) <= |keys| && NodeAt(mem, a).key == keys[PosOf(pos, a) - 1])
    && (forall a, b {:trigger PosOf(pos, a), PosOf(pos, b)} :: PosOf(pos, a) > 0 && PosOf(pos, a) == PosOf(pos, b) ==> a == b)
    && (forall a {:trigger NextOk(mem, keys, pos, a)} :: PosOf(pos, a) > 0 ==> NextOk(mem, keys, pos, a))
  }

  ghost predicate QueueOk(helping: bool, q: Queue) {
    && ShapeOk(q.mem, q.keys, q.pos)
    && PosOf(q.pos, q.head) > 0 && PosOf(q.pos, q.tail) > 0
    && (helping ==> PosOf(q.pos, q.head) <= PosOf(q.pos, q.tail))
  }

  /** What the other threads may rely on: the chain grows at its end, head and
      tail move along it, and the unlinked nodes of others are left alone. */
  ghost predicate Guarantee(q: Queue, q': Queue, t: Tid) {
    && q.mem.Keys <= q'.mem.Keys
    && (forall a {:trigger PosOf(q'.pos, a)} {:trigger NodeAt(q'.mem, a)} :: PosOf(q.pos, a) > 0 ==>
          && PosOf(q'.pos, a) == PosOf(q.pos, a) && NodeAt(q'.mem, a).key == NodeAt(q.mem, a).key
          && (NodeAt(q.mem, a).next != Null ==> NodeAt(q'.mem, a).next == NodeAt(q.mem, a).next))
    && PosOf(q.pos, q.head) <= PosOf(q'.pos, q'.head) && PosOf(q.pos, q.tail) <= PosOf(q'.pos, q'.tail)
    && (forall a: Addr {:trigger PosOf(q'.pos, a)} {:trigger NodeAt(q'.mem, a)} ::
          a.owner != t && a in q.mem && PosOf(q.pos, a) == 0 ==>
          PosOf(q'.pos, a) == 0 && NodeAt(q'.mem, a) == NodeAt(q.mem, a))
  }

  lemma CasTailOk(helping: bool, q: Queue, t: Tid, from: Addr, to: Addr)
    requires QueueOk(helping, q) && PosOf(q.pos, from) > 0 && NodeAt(q.mem, from).next == At(to)
    ensures var q' := CasTail(q, from, to); QueueOk(helping, q') && Guarantee(q, q', t) && Contents(q') == Contents(q)
  {
    assert NextOk(q.mem, q.keys, q.pos, from);
  }

  lemma LinkedAt(q: Queue, l: Addr, n: Addr)
    requires l != n && PosOf(q.pos, n) == 0
    ensures var q' := Linked(q, l, n);
      && (forall a {:trigger NodeAt(q'.mem, a)} ::
            NodeAt(q'.mem, a) == if a == l then NodeAt(q.mem, l).(next := At(n)) else NodeAt(q.mem, a))
      && (forall a {:trigger PosOf(q'.pos, a)} :: PosOf(q'.pos, a) == if a == n then |q.keys| + 1 else PosOf(q.pos, a))
  {
  }

  lemma LinkedContents(q: Queue, l: Addr, n: Addr)
    requires 0 < PosOf(q.pos, q.head) <= |q.keys| && PosOf(q.pos, n) == 0
    ensures Contents(Linked(q, l, n)) == Contents(q) + [NodeAt(q.mem, n).key]
  {
    var i := PosOf(q.pos, q.head);
    assert PosOf(Linked(q, l, n).pos, q.head) == i;
    assert (q.keys + [NodeAt(q.mem, n).key])[i..] == q.keys[i..] + [NodeAt(q.mem, n).key];
  }

  lemma LinkedGuarantee(q: Queue, t: Tid, l: Addr, n: Addr)
    requires PosOf(q.pos, l) > 0 && NodeAt(q.mem, l).next == Null && PosOf(q.pos, n) == 0 && n.owner == t
    requires PosOf(q.pos, q.head) > 0 && PosOf(q.pos, q.tail) > 0
    ensures Guarantee(q, Linked(q, l, n), t)
  {
    LinkedAt(q, l, n);
  }

  lemma LinkedNext(q: Queue, l: Addr, n: Addr, a: Addr)
    requires PosOf(q.pos, l) == |q.keys| && PosOf(q.pos, n) == 0 && l != n && NodeAt(q.mem, n).next == Null
    requires a == n || (NextOk(q.mem, q.keys, q.pos, a) && PosOf(q.pos, a) > 0)
    requires NodeAt(q.mem, a).next == Null ==> a == l || a == n
    ensures var q' := Linked(q, l, n); NextOk(q'.mem, q'.keys, q'.pos, a)
  {
    LinkedAt(q, l, n);
  }

  lemma LinkedOk(helping: bool, q: Queue, l: Addr, n: Addr)
    requires QueueOk(helping, q) && PosOf(q.pos, l) > 0 && NodeAt(q.mem, l).next == Null
    requires n in q.mem && PosOf(q.pos, n) == 0 && NodeAt(q.mem, n).next == Null
    ensures QueueOk(helping, Linked(q, l, n)) && NodeAt(Linked(q, l, n).mem, l).next == At(n)
  {
    var q' := Linked(q, l, n);
    LinkedAt(q, l, n);
    assert NextOk(q.mem, q.keys, q.pos, l);
    forall a {:trigger NextOk(q'.mem, q'.keys, q'.pos, a)} | PosOf(q'.pos, a) > 0
      ensures NextOk(q'.mem, q'.keys, q'.pos, a)
    {
      assert a != n ==> NextOk(q.mem, q.keys, q.pos, a);
      LinkedNext(q, l, n, a);
    }
    forall a | PosOf(q'.pos, a) > 0 ensures NodeAt(q'.mem, a).key == q'.keys[PosOf(q'.pos, a) - 1] {
      assert a != n ==> NodeAt(q.mem, a).key == q.keys[PosOf(q.pos, a) - 1];
    }
  }

  lemma MovedOk(helping: bool, q: Queue, t: Tid, next: Addr)
    requires QueueOk(helping, q) && NodeAt(q.mem, q.head).next == At(next)
    requires helping ==> PosOf(q.pos, q.head) < PosOf(q.pos, q.tail)
    ensures var q' := q.(head := next);
      QueueOk(helping, q') && Guarantee(q, q', t) && Contents(q) == [NodeAt(q.mem, next).key] + Contents(q')
  {
    assert NextOk(q.mem, q.keys, q.pos, q.head);
  }

  lemma AllocOk(helping: bool, q: Queue, t: Tid, n: Addr, node: Node)
    requires QueueOk(helping, q) && n !in q.mem
    ensures var q' := q.(mem := q.mem[n := node]);
      QueueOk(helping, q') && Guarantee(q, q', t) && Contents(q') == Contents(q)
  {
    var q' := q.(mem := q.mem[n := node]);
    assert forall a {:trigger NodeAt(q'.mem, a)} :: a != n ==> NodeAt(q'.mem, a) == NodeAt(q.mem, a);
    forall a {:trigger NextOk(q'.mem, q'.keys, q'.pos, a)} | PosOf(q'.pos, a) > 0
      ensures NextOk(q'.mem, q'.keys, q'.pos, a)
    {
      assert NextOk(q.mem, q.keys, q.pos, a);
    }
  }

  lemma NoneGuarantee(q: Queue, t: Tid)
    ensures Guarantee(q, q, t)
  {
  }

  // ---------- The threads ----------

  /** `h` was at the head, and `l` was the tail after that. */
  predicate Saw(helping: bool, q: Queue, h: Addr, l: Addr) {
    && PosOf(q.pos, h) > 0 && PosOf(q.pos, h) <= PosOf(q.pos, q.head)
    && (helping ==> PosOf(q.pos, l) > 0 && PosOf(q.pos, h) <= PosOf(q.pos, l) <= PosOf(q.pos, q.tail))
  }

  /** The local pointers of the thread lead into the queue. */
  predicate Points(helping: bool, q: Queue, th: Thread) {
    match th.pc
    case CheckTail(l) => PosOf(q.pos, l) > 0
    case ReadNext(l) => PosOf(q.pos, l) > 0
    case RecheckTail(l, succ) => PosOf(q.pos, l) > 0 && (succ.At? ==> NodeAt(q.mem, l).next == succ)
    case Help(l, next) => PosOf(q.pos, l) > 0 && NodeAt(q.mem, l).next == At(next)
    case LinkIn(l) => PosOf(q.pos, l) > 0
    case Swing(l) => PosOf(q.pos, l) > 0 && NodeAt(q.mem, l).next == At(th.n)
    case TakeTail(h) => 0 < PosOf(q.pos, h) <= PosOf(q.pos, q.head)
    case TakeNext(h, l) => Saw(helping, q, h, l)
    case CheckHead(h, l, succ) => Saw(helping, q, h, l) && (succ.At? ==> NodeAt(q.mem, h).next == succ)
    case HelpTail(h, next) => PosOf(q.pos, h) > 0 && NodeAt(q.mem, h).next == At(next)
    case TakeKey(h, l, next) =>
      Saw(helping, q, h, l) && NodeAt(q.mem, h).next == At(next) && h != l && PosOf(q.pos, next) > 0
    case MoveHead(h, l, next, data) =>
      && Saw(helping, q, h, l) && NodeAt(q.mem, h).next == At(next) && PosOf(q.pos, next) > 0
      && (helping ==> h != l && data == NodeAt(q.mem, next).key)
    case TakeItem(next) => PosOf(q.pos, next) > 0
    case _ => true
  }

  /** The answer that the thread is going to give, if it has one. */
  function Answered(q: Queue, th: Thread): set<Answer> {
    match th.pc
    case Swing(_) => {Added(th.key)}
    case CheckHead(_, _, succ) => if succ == Null then {Empty} else {}
    case TakeItem(next) => {Took(NodeAt(q.mem, next).key)}
    case Done(answer) => {answer}
    case _ => {}
  }

  /** The thread is in an enqueue whose node is not linked in yet. */
  predicate Adding(pc: Pc) {
    pc.ReadTail? || pc.CheckTail? || pc.ReadNext? || pc.RecheckTail? || pc.Help? || pc.LinkIn?
  }

  predicate Active(pc: Pc) {
    !pc.Idle? && !pc.Done?
  }

  predicate MemOk(helping: bool, q: Queue, t: Tid, th: Thread) {
    && (Adding(th.pc) ==> && th.n.owner == t && th.n in q.mem && PosOf(q.pos, th.n) == 0
                          && NodeAt(q.mem, th.n) == Node(th.key, Null))
    && Points(helping, q, th)
  }

  /** The thread has changed the contents and is about to return. */
  predicate Effective(pc: Pc) {
    pc.Swing? || pc.TakeItem? || pc.Done?
  }

  ghost predicate HistOk(q: Queue, hist: Steps, t: Tid, th: Thread) {
    && th.began <= |hist|
    && (!Effective(th.pc) && !th.pc.Idle? ==> Quiet(hist, t, th.began))
    && forall answer :: answer in Answered(q, th) ==> Justified(hist, t, th.began, answer)
  }

  /** An enqueue of a key answers that it added it, a dequeue that it took one or
      found none. */
  predicate AnswerOk(th: Thread) {
    match th.pc
    case Idle => true
    case Done(answer) => if th.adds then answer == Added(th.key) else !answer.Added?
    case _ => th.adds == (Adding(th.pc) || th.pc.Swing?)
  }

  lemma RelyOk(helping: bool, q: Queue, t: Tid, q': Queue, u: Tid, th: Thread)
    requires MemOk(helping, q, u, th) && Guarantee(q, q', t) && t != u
    ensures MemOk(helping, q', u, th) && Answered(q', th) == Answered(q, th)
  {
  }

  lemma HistLater(q: Queue, hist: Steps, t: Tid, q': Queue, th: Thread, e: Event<Effect, seq<int>>)
    requires HistOk(q, hist, t, th) && Answered(q', th) == Answered(q, th) && (e.who == t ==> e.effect == None)
    ensures HistOk(q', hist + [e], t, th)
  {
    forall answer | answer in Answered(q, th) ensures Justified(hist + [e], t, th.began, answer) {
      JustifiedLater(hist, e, t, th.began, answer);
    }
  }

  // ---------- Steps ----------

  lemma TailStep(helping: bool, q: Queue, t: Tid, th: Thread)
    requires QueueOk(helping, q) && MemOk(helping, q, t, th) && (th.pc.Help? || th.pc.Swing? || th.pc.HelpTail?)
    ensures var q' := Act(helping, q, th).0;
      QueueOk(helping, q') && Guarantee(q, q', t) && Effected(Contents(q), EffectOf(q, th), Contents(q'))
  {
    if th.pc.Help? {
      CasTailOk(helping, q, t, th.pc.l, th.pc.next);
    } else if th.pc.Swing? {
      CasTailOk(helping, q, t, th.pc.l, th.n);
    } else {
      CasTailOk(helping, q, t, th.pc.h, th.pc.next);
    }
  }

  lemma LinkStep(helping: bool, q: Queue, t: Tid, th: Thread)
    requires QueueOk(helping, q) && MemOk(helping, q, t, th) && th.pc.LinkIn?
    ensures var q' := Act(helping, q, th).0;
      QueueOk(helping, q') && Guarantee(q, q', t) && Effected(Contents(q), EffectOf(q, th), Contents(q'))
  {
    NoneGuarantee(q, t);
    var l := th.pc.l;
    if NodeAt(q.mem, l).next == Null {
      LinkedOk(helping, q, l, th.n);
      LinkedContents(q, l, th.n);
      LinkedGuarantee(q, t, l, th.n);
    }
  }

  lemma HeadStep(helping: bool, q: Queue, t: Tid, th: Thread)
    requires QueueOk(helping, q) && MemOk(helping, q, t, th) && th.pc.MoveHead?
    ensures var q' := Act(helping, q, th).0;
      QueueOk(helping, q') && Guarantee(q, q', t) && Effected(Contents(q), EffectOf(q, th), Contents(q'))
  {
    NoneGuarantee(q, t);
    if q.head == th.pc.h { MovedOk(helping, q, t, th.pc.next); }
  }

  /** The steps that write to shared memory. */
  predicate Writes(pc: Pc) {
    pc.Help? || pc.Swing? || pc.HelpTail? || pc.LinkIn? || pc.MoveHead?
  }

  lemma QuietStep(helping: bool, q: Queue, th: Thread)
    requires !Writes(th.pc)
    ensures Act(helping, q, th).0 == q && EffectOf(q, th) == None
  {
  }

  lemma ActQueue(helping: bool, q: Queue, t: Tid, th: Thread)
    requires QueueOk(helping, q) && MemOk(helping, q, t, th)
    ensures var q' := Act(helping, q, th).0;
      QueueOk(helping, q') && Guarantee(q, q', t) && Effected(Contents(q), EffectOf(q, th), Contents(q'))
  {
    if th.pc.LinkIn? {
      LinkStep(helping, q, t, th);
    } else if th.pc.MoveHead? {
      HeadStep(helping, q, t, th);
    } else if Writes(th.pc) {
      TailStep(helping, q, t, th);
    } else {
      QuietStep(helping, q, th);
      NoneGuarantee(q, t);
    }
  }

  lemma LinkMem(helping: bool, q: Queue, t: Tid, th: Thread)
    requires MemOk(helping, q, t, th) && th.pc.LinkIn?
    ensures var (q', pc') := Act(helping, q, th); MemOk(helping, q', t, th.(pc := pc'))
  {
    if NodeAt(q.mem, th.pc.l).next == Null { LinkedAt(q, th.pc.l, th.n); }
  }

  lemma AddMem(helping: bool, q: Queue, t: Tid, th: Thread)
    requires MemOk(helping, q, t, th) && Adding(th.pc) && !th.pc.LinkIn? && PosOf(q.pos, q.tail) > 0
    ensures var (q', pc') := Act(helping, q, th); MemOk(helping, q', t, th.(pc := pc'))
  {
  }

  predicate Taking(pc: Pc) {
    pc.TakeHead? || pc.TakeTail? || pc.TakeNext? || pc.CheckHead?
  }

  lemma MoveMem(helping: bool, q: Queue, t: Tid, th: Thread)
    requires MemOk(helping, q, t, th) && !Adding(th.pc) && !Taking(th.pc)
    ensures var (q', pc') := Act(helping, q, th); MemOk(helping, q', t, th.(pc := pc'))
  {
  }

  lemma TakeMem(helping: bool, q: Queue, t: Tid, th: Thread)
    requires MemOk(helping, q, t, th) && Taking(th.pc)
    requires 0 < PosOf(q.pos, q.head) && (helping ==> 0 < PosOf(q.pos, q.head) <= PosOf(q.pos, q.tail))
    requires th.pc.TakeNext? || th.pc.CheckHead? ==> NextOk(q.mem, q.keys, q.pos, th.pc.h)
    ensures var (q', pc') := Act(helping, q, th); MemOk(helping, q', t, th.(pc := pc'))
  {
  }

  lemma ActMem(helping: bool, q: Queue, t: Tid, th: Thread)
    requires QueueOk(helping, q) && MemOk(helping, q, t, th)
    ensures var (q', pc') := Act(helping, q, th); MemOk(helping, q', t, th.(pc := pc'))
  {
    if th.pc.LinkIn? {
      LinkMem(helping, q, t, th);
    } else if Adding(th.pc) {
      AddMem(helping, q, t, th);
    } else if Taking(th.pc) {
      TakeMem(helping, q, t, th);
    } else {
      MoveMem(helping, q, t, th);
    }
  }

  /** The steps at which a call takes effect. */
  lemma EffectHist(helping: bool, q: Queue, hist: Steps, t: Tid, th: Thread, e: Event<Effect, seq<int>>)
    requires HistOk(q, hist, t, th) && e.who == t && e.effect == EffectOf(q, th) != None
    requires th.pc.MoveHead? && helping ==> th.pc.data == NodeAt(q.mem, th.pc.next).key
    ensures var (q', pc') := Act(helping, q, th); HistOk(q', hist + [e], t, th.(pc := pc'))
  {
    if th.pc.LinkIn? {
      JustifiedStep(hist, e, t, th.began, Added(th.key));
    } else {
      JustifiedStep(hist, e, t, th.began, Took(NodeAt(q.mem, th.pc.next).key));
    }
  }

  /** Reading a null pointer behind head shows that the queue is empty. */
  lemma EmptyHist(helping: bool, q: Queue, hist: Steps, t: Tid, th: Thread, e: Event<Effect, seq<int>>)
    requires HistOk(q, hist, t, th) && th.pc.TakeNext? && e == Event(t, None, Contents(q))
    requires NodeAt(q.mem, th.pc.h).next == Null ==> Contents(q) == []
    ensures HistOk(q, hist + [e], t, th.(pc := Act(helping, q, th).1))
  {
    if NodeAt(q.mem, th.pc.h).next == Null {
      SawNow(hist, e, th.began);
      JustifiedEmpty(hist + [e], t, th.began);
    }
  }

  lemma QuietHist(helping: bool, q: Queue, hist: Steps, t: Tid, th: Thread, e: Event<Effect, seq<int>>)
    requires HistOk(q, hist, t, th) && e.effect == EffectOf(q, th) == None && !th.pc.TakeNext? && Active(th.pc)
    requires Answered(Act(helping, q, th).0, th) == Answered(q, th)
    ensures var (q', pc') := Act(helping, q, th); HistOk(q', hist + [e], t, th.(pc := pc'))
  {
    var (q', pc') := Act(helping, q, th);
    HistLater(q, hist, t, q', th, e);
    assert Answered(q', th.(pc := pc')) <= Answered(q', th);
  }

  lemma ActHist(helping: bool, q: Queue, hist: Steps, t: Tid, th: Thread)
    requires QueueOk(helping, q) && MemOk(helping, q, t, th) && HistOk(q, hist, t, th) && Active(th.pc)
    ensures var (q', pc') := Act(helping, q, th);
      HistOk(q', hist + [Event(t, EffectOf(q, th), Contents(q'))], t, th.(pc := pc'))
  {
    var e := Event(t, EffectOf(q, th), Contents(Act(helping, q, th).0));
    if EffectOf(q, th) != None {
      EffectHist(helping, q, hist, t, th, e);
    } else if th.pc.TakeNext? {
      assert NextOk(q.mem, q.keys, q.pos, th.pc.h);
      EmptyHist(helping, q, hist, t, th, e);
    } else {
      QuietHist(helping, q, hist, t, th, e);
    }
  }

  // ---------- Runs ----------

  ghost predicate Inv(s: State) {
    && QueueOk(s.helping, s.q)
    && (forall t :: 0 <= t < |s.threads| ==>
          MemOk(s.helping, s.q, t, s.threads[t]) && HistOk(s.q, s.hist, t, s.threads[t]) && AnswerOk(s.threads[t]))
    && Replays(s.hist) && s.hist[|s.hist| - 1].after == Contents(s.q)
  }

  /** What the step of a thread does to the contents. */
  function StepEffect(s: State, t: Tid, c: Choice): Option<Effect>
    requires t < |s.threads|
  {
    if c.Go? then EffectOf(s.q, s.threads[t]) else None
  }

  lemma StepQueue(s: State, t: Tid, c: Choice)
    requires Enabled(s, t, c) && QueueOk(s.helping, s.q) && MemOk(s.helping, s.q, t, s.threads[t])
    ensures var s' := Step(s, t, c);
      && QueueOk(s.helping, s'.q) && Guarantee(s.q, s'.q, t) && MemOk(s.helping, s'.q, t, s'.threads[t])
      && Effected(Contents(s.q), StepEffect(s, t, c), Contents(s'.q))
  {
    if c.Go? {
      ActQueue(s.helping, s.q, t, s.threads[t]);
      ActMem(s.helping, s.q, t, s.threads[t]);
    } else if c.Enqueue? {
      AllocOk(s.helping, s.q, t, Addr(t, c.serial), Node(c.key, Null));
    } else {
      NoneGuarantee(s.q, t);
    }
  }

  lemma StepFrame(s: State, t: Tid, c: Choice)
    requires Enabled(s, t, c)
    ensures var s' := Step(s, t, c);
      && |s'.threads| == |s.threads| && s'.helping == s.helping
      && s'.hist == s.hist + [Event(t, StepEffect(s, t, c), Contents(s'.q))]
      && forall u :: 0 <= u < |s.threads| && u != t ==> s'.threads[u] == s.threads[u]
  {
  }

  lemma StepHist(s: State, t: Tid, c: Choice)
    requires Enabled(s, t, c) && QueueOk(s.helping, s.q) && MemOk(s.helping, s.q, t, s.threads[t])
    requires HistOk(s.q, s.hist, t, s.threads[t])
    ensures var s' := Step(s, t, c); HistOk(s'.q, s'.hist, t, s'.threads[t])
  {
    if c.Go? { ActHist(s.helping, s.q, s.hist, t, s.threads[t]); }
  }

  lemma StepAnswer(s: State, t: Tid, c: Choice)
    requires Enabled(s, t, c) && AnswerOk(s.threads[t])
    ensures AnswerOk(Step(s, t, c).threads[t])
  {
  }

  lemma StepOther(s: State, t: Tid, c: Choice, u: Tid)
    requires Enabled(s, t, c) && u < |s.threads| && u != t && Guarantee(s.q, Step(s, t, c).q, t)
    requires MemOk(s.helping, s.q, u, s.threads[u]) && HistOk(s.q, s.hist, u, s.threads[u])
    ensures var s' := Step(s, t, c);
      MemOk(s'.helping, s'.q, u, s'.threads[u]) && HistOk(s'.q, s'.hist, u, s'.threads[u])
  {
    var s' := Step(s, t, c);
    StepFrame(s, t, c);
    RelyOk(s.helping, s.q, t, s'.q, u, s.threads[u]);
    HistLater(s.q, s.hist, u, s'.q, s.threads[u], s'.hist[|s.hist|]);
  }

  lemma StepInv(s: State, t: Tid, c: Choice)
    requires Inv(s) && Enabled(s, t, c)
    ensures Inv(Step(s, t, c))
  {
    var s' := Step(s, t, c);
    StepQueue(s, t, c);
    StepHist(s, t, c);
    StepFrame(s, t, c);
    StepAnswer(s, t, c);
    ReplaysMore(s.hist, s'.hist[|s.hist|]);
    forall u | 0 <= u < |s'.threads|
      ensures MemOk(s'.helping, s'.q, u, s'.threads[u]) && HistOk(s'.q, s'.hist, u, s'.threads[u]) && AnswerOk(s'.threads[u])
    {
      if u != t { StepOther(s, t, c, u); }
    }
  }

  lemma InitInv(s: State)
    requires Init(s)
    ensures Inv(s)
  {
    assert NextOk(s.q.mem, s.q.keys, s.q.pos, s.q.head);
  }

  ghost predicate Run(states: seq<State>, tids: seq<Tid>, choices: seq<Choice>) {
    && |states| == |tids| + 1 && |choices| == |tids| && Init(states[0])
    && forall i :: 0 <= i < |tids| ==> Enabled(states[i], tids[i], choices[i])
                                       && states[i + 1] == Step(states[i], tids[i], choices[i])
  }

  lemma {:induction false} RunInv(states: seq<State>, tids: seq<Tid>, choices: seq<Choice>, i: nat)
    requires Run(states, tids, choices) && i < |states|
    ensures Inv(states[i])
  {
    if i == 0 {
      InitInv(states[0]);
    } else {
      RunInv(states, tids, choices, i - 1);
      assert states[i - 1 + 1] == Step(states[i - 1], tids[i - 1], choices[i - 1]);
      StepInv(states[i - 1], tids[i - 1], choices[i - 1]);
    }
  }

  lemma {:induction false} RunHist(states: seq<State>, tids: seq<Tid>, choices: seq<Choice>, i: nat, j: nat)
    requires Run(states, tids, choices) && j <= i < |states|
    ensures |states[i].hist| == i + 1 && states[i].hist[..j + 1] == states[j].hist
    ensures |states[i].threads| == |states[0].threads|
  {
    if i == 0 {
    } else {
      assert states[i - 1 + 1] == Step(states[i - 1], tids[i - 1], choices[i - 1]);
      RunHist(states, tids, choices, i - 1, if j < i then j else i - 1);
    }
  }

  lemma RunEvent(states: seq<State>, tids: seq<Tid>, choices: seq<Choice>, i: nat)
    requires Run(states, tids, choices) && i < |tids| && tids[i] < |states[i].threads|
    ensures var hist := states[|tids|].hist;
      && |hist| == |states|
      && hist[i + 1] == Event(tids[i], StepEffect(states[i], tids[i], choices[i]), Contents(states[i + 1].q))
  {
    RunHist(states, tids, choices, |tids|, i + 1);
    RunHist(states, tids, choices, i, i);
    StepFrame(states[i], tids[i], choices[i]);
    assert states[i + 1].hist[i + 1] == states[|tids|].hist[..i + 2][i + 1];
  }

  /** The steps of every run of either version, one after the other, are those of
      a sequential queue: event `i + 1` is the step from state `i`, the linking
      CAS appends, the CAS of head takes the first key, and no other step changes
      the contents. */
  lemma Fifo(states: seq<State>, tids: seq<Tid>, choices: seq<Choice>, i: nat)
    requires Run(states, tids, choices) && i < |tids|
    ensures var s, hist := states[i], states[|tids|].hist;
      && tids[i] < |s.threads| && |hist| == |states| && Replays(hist)
      && hist[i + 1] == Event(tids[i], StepEffect(s, tids[i], choices[i]), Contents(states[i + 1].q))
      && Effected(Contents(s.q), StepEffect(s, tids[i], choices[i]), Contents(states[i + 1].q))
  {
    RunEvent(states, tids, choices, i);
    RunInv(states, tids, choices, |tids|);
    assert Effected(Contents(states[i].q), StepEffect(states[i], tids[i], choices[i]), Contents(states[i + 1].q)) by {
      RunInv(states, tids, choices, i);
      StepQueue(states[i], tids[i], choices[i]);
    }
  }

  /** In state `i` thread `t` has finished a call that took effect with event `j`,
      and its answer fits the call. */
  ghost predicate Finished(states: seq<State>, i: nat, t: Tid, j: nat) {
    && i < |states| && t < |states[i].threads| && states[i].threads[t].pc.Done? && AnswerOk(states[i].threads[t])
    && var th := states[i].threads[t]; Point(states[i].hist, t, th.began, th.pc.answer, j)
  }

  /** Every call of every run of either version takes effect at one moment
      between its begin and its end: an enqueue appends its key and a dequeue
      takes the first key by exactly one step of the call itself, and a dequeue
      that answers EMPTY changes nothing and the queue was empty. */
  lemma Linearizable(states: seq<State>, tids: seq<Tid>, choices: seq<Choice>, i: nat, t: Tid) returns (j: nat)
    requires Run(states, tids, choices) && i < |states| && t < |states[i].threads| && states[i].threads[t].pc.Done?
    ensures Finished(states, i, t, j)
  {
    RunInv(states, tids, choices, i);
    var th := states[i].threads[t];
    assert HistOk(states[i].q, states[i].hist, t, th);
    assert Justified(states[i].hist, t, th.began, th.pc.answer);
    j :| Point(states[i].hist, t, th.began, th.pc.answer, j);
  }

  /** A later call of the same thread begins after an earlier one has ended. */
  lemma {:induction false} BeganLater(states: seq<State>, tids: seq<Tid>, choices: seq<Choice>, i: nat, k: nat, t: Tid)
    requires Run(states, tids, choices) && i <= k < |states| && t < |states[i].threads| == |states[k].threads|
    ensures states[k].threads[t].began == states[i].threads[t].began || states[k].threads[t].began > i
  {
    if i < k {
      assert states[k - 1 + 1] == Step(states[k - 1], tids[k - 1], choices[k - 1]);
      RunHist(states, tids, choices, k - 1, 0);
      BeganLater(states, tids, choices, i, k - 1, t);
    }
  }

  /** Different calls that changed the contents did so by different steps: two
      enqueues never share an append and two dequeues never share a key. */
  lemma {:induction false} OwnPoints(states: seq<State>, tids: seq<Tid>, choices: seq<Choice>,
                                     i: nat, t: Tid, j: nat, k: nat, u: Tid, l: nat)
    requires Run(states, tids, choices) && Finished(states, i, t, j) && Finished(states, k, u, l)
    requires states[i].threads[t].pc.answer != Empty && states[k].threads[u].pc.answer != Empty
    requires t != u || states[i].threads[t].began != states[k].threads[u].began
    ensures j != l
    decreases i > k
  {
    if i > k {
      OwnPoints(states, tids, choices, k, u, l, i, t, j);
    } else {
      var th, th' := states[i].threads[t], states[k].threads[u];
      RunHist(states, tids, choices, k, i);
      RunHist(states, tids, choices, i, i);
      if t == u { BeganLater(states, tids, choices, i, k, t); }
      Apart(states[i].hist, t, th.began, j, EffectFor(th.pc.answer), states[k].hist, u, th'.began, l, EffectFor(th'.pc.answer));
    }
  }

  /** With helping, head never overtakes tail. */
  lemma HeadBehindTail(states: seq<State>, tids: seq<Tid>, choices: seq<Choice>, i: nat)
    requires Run(states, tids, choices) && i < |states| && states[i].helping
    ensures PosOf(states[i].q.pos, states[i].q.head) <= PosOf(states[i].q.pos, states[i].q.tail)
  {
    RunInv(states, tids, choices, i);
  }
}
