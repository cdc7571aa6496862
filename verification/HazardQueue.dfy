/** The Michael-Scott queue with hazard pointers: nodes are reused, every read,
    write and compare-and-swap of shared memory is one step, and scan reads the
    hazard slots of the threads one at a time. */
module HazardQueue {

  import opened Basics
  import opened History
  import opened FifoHistory

  type Addr = nat

  datatype Ptr = Null | At(a: Addr)

  datatype Node = Node(key: int, next: Ptr)

  /** Where a node is in its life. A node is private to the thread that
      allocated it until it is linked, and after it is unlinked it belongs to the
      thread that took it out until that thread's scan frees it. */
  datatype Status = Free | Private(t: Tid) | Linked | Unlinked(t: Tid)

  /** The statement that a thread executes next, with its local variables. */
  datatype Pc =
    | Idle
    | EReadTail(n: Addr)
    | EPublish(n: Addr, t: Addr)
    | EValidate(n: Addr, t: Addr)
    | EReadNext(n: Addr, t: Addr)
    | EHelp(n: Addr, t: Addr, next: Addr)
    | ELink(n: Addr, t: Addr)
    | ESwing(n: Addr, t: Addr)
    | EClear1
    | EClear0
    | DReadHead
    | DPublish(h: Addr)
    | DValidate(h: Addr)
    | DReadTail(h: Addr)
    | DReadNext(h: Addr, t: Addr)
    | DPublishNext(h: Addr, t: Addr, succ: Ptr)
    | DRevalidate(h: Addr, t: Addr, succ: Ptr)
    | DHelp(h: Addr, next: Addr)
    | DReadKey(h: Addr, next: Addr)
    | DSwing(h: Addr, next: Addr, data: int)
    | DClear1(h: Addr)
    | DClear0(h: Addr)
    | DRetire(h: Addr)
    | Scan(slot: nat, plist: set<Addr>)
    | Sweep(plist: set<Addr>, tmp: set<Addr>)

  /** The call that a thread is in, or was in last: an enqueue of `key` or a
      dequeue, its answer once it is settled, and the length of the history when
      it began. */
  datatype Call = Call(began: nat, adds: bool, key: int, answer: Option<Answer>)

  /** `hp0` and `hp1` are the thread's hazard slots and `rlist` its retired
      nodes. `gen0` and `gen1` are the generations that the nodes in the slots had
      when the thread found them in the queue after publishing them. */
  datatype Thread = Thread(pc: Pc, hp0: Ptr, hp1: Ptr, rlist: set<Addr>, gen0: nat, gen1: nat, call: Call)

  /** The shared memory of the queue; `chain` are the nodes from head on, and
      `gen` tells how often a node was freed. */
  datatype Queue = Queue(mem: map<Addr, Node>, status: map<Addr, Status>, gen: map<Addr, nat>,
                         head: Addr, tail: Addr, chain: seq<Addr>)

  /** `hist` are the steps so far, behind an event that stands for the start, and
      `limit` is the number of retired nodes that starts a scan. */
  datatype State = State(q: Queue, threads: seq<Thread>, limit: nat, hist: Steps)

  datatype Choice = Enqueue(key: int, a: Addr) | Dequeue | Go(a: Addr)

  function NodeAt(mem: map<Addr, Node>, a: Addr): Node {
    if a in mem then mem[a] else Node(0, Null)
  }

  function StatusOf(q: Queue, a: Addr): Status {
    if a in q.status then q.status[a] else Free
  }

  function GenOf(q: Queue, a: Addr): nat {
    if a in q.gen then q.gen[a] else 0
  }

  /** In the queue or taken out of it, but not freed: safe to look at. */
  predicate Hazardous(q: Queue, a: Addr) {
    StatusOf(q, a).Linked? || StatusOf(q, a).Unlinked?
  }

  /** The keys of the chain behind its dummy first node. */
  function Keys(mem: map<Addr, Node>, chain: seq<Addr>): seq<int> {
    if |chain| <= 1 then [] else Keys(mem, chain[..|chain| - 1]) + [NodeAt(mem, chain[|chain| - 1]).key]
  }

  function Contents(q: Queue): seq<int> {
    Keys(q.mem, q.chain)
  }

  /** The hazard slot number `k`: thread k / 2 owns slots k and k + 1 for even k. */
  function Slot(s: State, k: nat): Ptr
    requires k / 2 < |s.threads|
  {
    if k % 2 == 0 then s.threads[k / 2].hp0 else s.threads[k / 2].hp1
  }

  predicate Enabled(s: State, t: Tid, c: Choice) {
    && t < |s.threads|
    && match s.threads[t].pc
       case Idle => c.Dequeue? || (c.Enqueue? && StatusOf(s.q, c.a) == Free)
       case Sweep(_, tmp) => tmp != {} ==> c.Go? && c.a in tmp
       case _ => c.Go?
  }

  /** The nodes that the next statement dereferences or compares by a CAS, with
      the generations that the thread has validated. */
  function Uses(th: Thread): set<(Addr, nat)> {
    match th.pc
    case EReadNext(_, l) => {(l, th.gen0)}
    case EHelp(_, l, _) => {(l, th.gen0)}
    case ELink(_, l) => {(l, th.gen0)}
    case ESwing(_, l) => {(l, th.gen0)}
    case DReadNext(h, _) => {(h, th.gen0)}
    case DHelp(h, _) => {(h, th.gen0)}
    case DReadKey(_, next) => {(next, th.gen1)}
    case DSwing(h, next, _) => {(h, th.gen0), (next, th.gen1)}
    case _ => {}
  }

  /** The node that the next statement retires, puts back or frees. */
  function Reclaims(pc: Pc, c: Choice): Ptr {
    match pc
    case DRetire(h) => At(h)
    case Sweep(_, tmp) => if tmp != {} && c.Go? then At(c.a) else Null
    case _ => Null
  }

  /** A node that is used is not freed and was not since it was validated, not
      even if it was allocated again; a node is retired or freed by the thread
      that took it out, while it is neither in the queue nor freed. */
  predicate Safe(s: State, t: Tid, c: Choice)
    requires Enabled(s, t, c)
  {
    && (forall u :: u in Uses(s.threads[t]) ==> Hazardous(s.q, u.0) && GenOf(s.q, u.0) == u.1)
    && match Reclaims(s.threads[t].pc, c) case Null => true case At(a) => StatusOf(s.q, a) == Unlinked(t)
  }

  function Goto(s: State, t: Tid, pc: Pc): State
    requires t < |s.threads|
  {
    s.(threads := s.threads[t := s.threads[t].(pc := pc)])
  }

  /** A step that changes the queue. */
  function Update(s: State, t: Tid, q: Queue, pc: Pc): State
    requires t < |s.threads|
  {
    s.(q := q, threads := s.threads[t := s.threads[t].(pc := pc)])
  }

  /** A step that settles the answer of the call. */
  function Settle(s: State, t: Tid, q: Queue, answer: Answer, pc: Pc): State
    requires t < |s.threads|
  {
    s.(q := q, threads := s.threads[t := s.threads[t].(pc := pc, call := s.threads[t].call.(answer := Some(answer)))])
  }

  function Begin(s: State, t: Tid, adds: bool, key: int, pc: Pc): State
    requires t < |s.threads|
  {
    s.(threads := s.threads[t := s.threads[t].(pc := pc, call := Call(|s.hist|, adds, key, None))])
  }

  /** The thread has found the node in its first slot, or in its second, in the
      queue. */
  function Validate0(s: State, t: Tid, a: Addr, pc: Pc): State
    requires t < |s.threads|
  {
    s.(threads := s.threads[t := s.threads[t].(pc := pc, gen0 := GenOf(s.q, a))])
  }

  function Validate1(s: State, t: Tid, a: Addr, pc: Pc): State
    requires t < |s.threads|
  {
    s.(threads := s.threads[t := s.threads[t].(pc := pc, gen1 := GenOf(s.q, a))])
  }

  function Publish0(s: State, t: Tid, p: Ptr, pc: Pc): State
    requires t < |s.threads|
  {
    s.(threads := s.threads[t := s.threads[t].(hp0 := p, pc := pc)])
  }

  function Publish1(s: State, t: Tid, p: Ptr, pc: Pc): State
    requires t < |s.threads|
  {
    s.(threads := s.threads[t := s.threads[t].(hp1 := p, pc := pc)])
  }

  /** CAS(&q->tail, from, to). */
  function CasTail(q: Queue, from: Addr, to: Addr): Queue {
    if q.tail == from then q.(tail := to) else q
  }

  /** The effect of a successful CAS(&l->next, NULL, n). */
  function LinkNode(q: Queue, l: Addr, n: Addr): Queue {
    q.(mem := q.mem[l := NodeAt(q.mem, l).(next := At(n))], status := q.status[n := Linked], chain := q.chain + [n])
  }

  /** The effect of a successful CAS(&q->head, h, next) by thread `t`. */
  function TakeNode(q: Queue, t: Tid, h: Addr, next: Addr): Queue {
    q.(head := next, status := q.status[h := Unlinked(t)], chain := if q.chain == [] then [] else q.chain[1..])
  }

  function FreeNode(q: Queue, a: Addr): Queue {
    q.(status := q.status[a := Free], gen := q.gen[a := GenOf(q, a) + 1])
  }

  /** One statement of thread `t`. */
  function Act(s: State, t: Tid, c: Choice): State
    requires Enabled(s, t, c) && Safe(s, t, c)
  {
    var me := s.threads[t];
    match me.pc
    case Idle =>
      if c.Enqueue? then
        Begin(s.(q := s.q.(mem := s.q.mem[c.a := Node(c.key, Null)], status := s.q.status[c.a := Private(t)])),
              t, true, c.key, EReadTail(c.a))
      else Begin(s, t, false, 0, DReadHead)
    case EReadTail(n) => Goto(s, t, EPublish(n, s.q.tail))
    case EPublish(n, l) => Publish0(s, t, At(l), EValidate(n, l))
    case EValidate(n, l) => if s.q.tail == l then Validate0(s, t, l, EReadNext(n, l)) else Goto(s, t, EReadTail(n))
    case EReadNext(n, l) =>
      Goto(s, t, match NodeAt(s.q.mem, l).next case At(next) => EHelp(n, l, next) case Null => ELink(n, l))
    case EHelp(n, l, next) => Update(s, t, CasTail(s.q, l, next), EReadTail(n))
    case ELink(n, l) =>
      if NodeAt(s.q.mem, l).next == Null then
        Settle(s, t, LinkNode(s.q, l, n), Added(me.call.key), ESwing(n, l))
      else Goto(s, t, EReadTail(n))
    case ESwing(n, l) => Update(s, t, CasTail(s.q, l, n), EClear1)
    case EClear1 => Publish1(s, t, Null, EClear0)
    case EClear0 => Publish0(s, t, Null, Idle)
    case DReadHead => Goto(s, t, DPublish(s.q.head))
    case DPublish(h) => Publish0(s, t, At(h), DValidate(h))
    case DValidate(h) => if s.q.head == h then Validate0(s, t, h, DReadTail(h)) else Goto(s, t, DReadHead)
    case DReadTail(h) => Goto(s, t, DReadNext(h, s.q.tail))
    case DReadNext(h, l) => Goto(s, t, DPublishNext(h, l, NodeAt(s.q.mem, h).next))
    case DPublishNext(h, l, succ) => Publish1(s, t, succ, DRevalidate(h, l, succ))
    case DRevalidate(h, l, succ) =>
      if s.q.head != h then Goto(s, t, DReadHead)
      else if succ == Null then Settle(s, t, s.q, Empty, Idle)
      else Validate1(s, t, succ.a, if h == l then DHelp(h, succ.a) else DReadKey(h, succ.a))
    case DHelp(h, next) => Update(s, t, CasTail(s.q, h, next), DReadHead)
    case DReadKey(h, next) => Goto(s, t, DSwing(h, next, NodeAt(s.q.mem, next).key))
    case DSwing(h, next, data) =>
      if s.q.head == h then
        Settle(s, t, TakeNode(s.q, t, h, next), Took(data), DClear1(h))
      else Goto(s, t, DReadHead)
    case DClear1(h) => Publish1(s, t, Null, DClear0(h))
    case DClear0(h) => Publish0(s, t, Null, DRetire(h))
    case DRetire(h) =>
      var rlist := me.rlist + {h};
      s.(threads := s.threads[t := me.(rlist := rlist, pc := if |rlist| >= s.limit then Scan(0, {}) else Idle)])
    case Scan(k, plist) =>
      if k / 2 >= |s.threads| then
        s.(threads := s.threads[t := me.(rlist := {}, pc := Sweep(plist, me.rlist))])
      else
        Goto(s, t, Scan(k + 1, match Slot(s, k) case Null => plist case At(a) => plist + {a}))
    case Sweep(plist, tmp) =>
      if tmp == {} then Goto(s, t, Idle)
      else if c.a in plist then
        s.(threads := s.threads[t := me.(rlist := me.rlist + {c.a}, pc := Sweep(plist, tmp - {c.a}))])
      else Update(s, t, FreeNode(s.q, c.a), Sweep(plist, tmp - {c.a}))
  }

  /** What a step does to the abstract queue. */
  function EffectOf(s: State, t: Tid): Option<Effect>
    requires t < |s.threads|
  {
    match s.threads[t].pc
    case ELink(n, l) => if NodeAt(s.q.mem, l).next == Null then Some(Append(NodeAt(s.q.mem, n).key)) else None
    case DSwing(h, next, data) => if s.q.head == h then Some(Remove(data)) else None
    case _ => None
  }

  /** A step also appends what it did to the history. */
  function Step(s: State, t: Tid, c: Choice): State
    requires Enabled(s, t, c) && Safe(s, t, c)
  {
    var n := Act(s, t, c);
    n.(hist := s.hist + [Event(t, EffectOf(s, t), Contents(n.q))])
  }

  /** A step that is not safe may lead anywhere. */
  ghost predicate Next(s: State, t: Tid, c: Choice, s': State) {
    Enabled(s, t, c) && (Safe(s, t, c) ==> s' == Step(s, t, c))
  }

  predicate Init(s: State) {
    && s.q.head == s.q.tail && s.q.chain == [s.q.head] && s.hist == [Event(0, None, [])]
    && s.q.mem == map[s.q.head := Node(0, Null)] && s.q.status == map[s.q.head := Linked] && s.q.gen == map[]
    && (forall t :: 0 <= t < |s.threads| ==> s.threads[t] == Thread(Idle, Null, Null, {}, 0, 0, Call(0, false, 0, None)))
  }

  // ---------- Invariant ----------

  /** The node that the thread has checked to be in the queue after publishing
      it in its first slot, and the same for the second slot. */
  function Guard0(pc: Pc): Ptr {
    match pc
    case EReadNext(_, l) => At(l)
    case EHelp(_, l, _) => At(l)
    case ELink(_, l) => At(l)
    case ESwing(_, l) => At(l)
    case DReadTail(h) => At(h)
    case DReadNext(h, _) => At(h)
    case DPublishNext(h, _, _) => At(h)
    case DRevalidate(h, _, _) => At(h)
    case DHelp(h, _) => At(h)
    case DReadKey(h, _) => At(h)
    case DSwing(h, _, _) => At(h)
    case _ => Null
  }

  function Guard1(pc: Pc): Ptr {
    match pc
    case DReadKey(_, next) => At(next)
    case DSwing(_, next, _) => At(next)
    case _ => Null
  }

  predicate Guarded(th: Thread, a: Addr) {
    Guard0(th.pc) == At(a) || Guard1(th.pc) == At(a)
  }

  /** The node of an enqueue that is not linked yet. */
  predicate Fresh(q: Queue, t: Tid, n: Addr) {
    StatusOf(q, n) == Private(t) && NodeAt(q.mem, n).next == Null
  }

  predicate Dummy(q: Queue, h: Addr) {
    StatusOf(q, h).Linked? ==> q.head == h
  }

  /** The thread is in an enqueue whose node is not linked yet. */
  predicate Adding(pc: Pc) {
    pc.EReadTail? || pc.EPublish? || pc.EValidate? || pc.EReadNext? || pc.EHelp? || pc.ELink?
  }

  predicate HasAdded(pc: Pc) {
    pc.ESwing? || pc.EClear1? || pc.EClear0?
  }

  predicate HasTaken(pc: Pc) {
    pc.DClear1? || pc.DClear0? || pc.DRetire? || pc.Scan? || pc.Sweep?
  }

  ghost predicate PcOk(q: Queue, hist: Steps, t: Tid, th: Thread) {
    match th.pc
    case EReadTail(n) => Fresh(q, t, n)
    case EPublish(n, l) => Fresh(q, t, n)
    case EValidate(n, l) => Fresh(q, t, n) && th.hp0 == At(l)
    case EReadNext(n, l) => Fresh(q, t, n)
    case EHelp(n, l, next) => Fresh(q, t, n) && NodeAt(q.mem, l).next == At(next)
    case ELink(n, l) => Fresh(q, t, n)
    case ESwing(n, l) => NodeAt(q.mem, l).next == At(n)
    case DValidate(h) => th.hp0 == At(h)
    case DReadTail(h) => Dummy(q, h)
    case DReadNext(h, l) => Dummy(q, h) && (q.head == h && h != l ==> q.tail != h)
    case DPublishNext(h, l, succ) =>
      && Dummy(q, h) && (q.head == h && h != l ==> q.tail != h)
      && (if succ == Null then SawEmpty(hist, th.call.began) else NodeAt(q.mem, h).next == succ)
    case DRevalidate(h, l, succ) =>
      && Dummy(q, h) && (q.head == h && h != l ==> q.tail != h) && th.hp1 == succ
      && (if succ == Null then SawEmpty(hist, th.call.began) else NodeAt(q.mem, h).next == succ)
    case DHelp(h, next) => Dummy(q, h) && NodeAt(q.mem, h).next == At(next)
    case DReadKey(h, next) =>
      Dummy(q, h) && NodeAt(q.mem, h).next == At(next) && (q.head == h ==> q.tail != h)
    case DSwing(h, next, data) =>
      && Dummy(q, h) && NodeAt(q.mem, h).next == At(next) && (q.head == h ==> q.tail != h)
      && NodeAt(q.mem, next).key == data
    case DClear1(h) => StatusOf(q, h) == Unlinked(t) && h !in th.rlist
    case DClear0(h) => StatusOf(q, h) == Unlinked(t) && h !in th.rlist
    case DRetire(h) => StatusOf(q, h) == Unlinked(t) && h !in th.rlist
    case Sweep(plist, tmp) => tmp !! th.rlist && forall a :: a in tmp ==> StatusOf(q, a) == Unlinked(t)
    case _ => true
  }

  /** The node is not freed and was not since its generation was read. */
  predicate Held(q: Queue, a: Addr, gen: nat) {
    Hazardous(q, a) && GenOf(q, a) == gen
  }

  ghost predicate ThreadOk(q: Queue, hist: Steps, t: Tid, th: Thread) {
    && th.call.began <= |hist|
    && (Adding(th.pc) ==> NodeAt(q.mem, th.pc.n).key == th.call.key)
    && (forall a :: a in th.rlist ==> StatusOf(q, a) == Unlinked(t))
    && (Guard0(th.pc) != Null ==> th.hp0 == Guard0(th.pc) && Held(q, Guard0(th.pc).a, th.gen0))
    && (Guard1(th.pc) != Null ==> th.hp1 == Guard1(th.pc) && Held(q, Guard1(th.pc).a, th.gen1))
    && PcOk(q, hist, t, th)
  }

  /** Until its answer is settled a call has changed nothing, and then it is
      justified. */
  ghost predicate CallOk(hist: Steps, t: Tid, call: Call) {
    match call.answer
    case None => Quiet(hist, t, call.began)
    case Some(answer) => Justified(hist, t, call.began, answer)
  }

  /** The answer is settled when the node is linked in or taken out, or when the
      queue was found empty, and fits the call. A thread that had no call yet has
      no answer. */
  predicate AnswerOk(th: Thread) {
    var call := th.call;
    if th.pc.Idle? && call.began == 0 then call.answer == None
    else
      && call.began > 0
      && if Adding(th.pc) then call.adds && call.answer == None
         else if HasAdded(th.pc) then call.adds && call.answer == Some(Added(call.key))
         else if HasTaken(th.pc) then !call.adds && call.answer.Some? && call.answer.value.Took?
         else if th.pc.Idle? then
           call.answer.Some? && if call.adds then call.answer.value == Added(call.key) else !call.answer.value.Added?
         else !call.adds && call.answer == None
  }

  /** A scan that has passed a slot has seen the guarded node in it, if that
      node is one of those it is about to free. */
  predicate ScanSaw(scanner: Thread, u: Tid, other: Thread) {
    match scanner.pc
    case Scan(k, plist) =>
      && (Guard0(other.pc) != Null && 2 * u < k && Guard0(other.pc).a in scanner.rlist ==> Guard0(other.pc).a in plist)
      && (Guard1(other.pc) != Null && 2 * u + 1 < k && Guard1(other.pc).a in scanner.rlist ==> Guard1(other.pc).a in plist)
    case Sweep(plist, tmp) =>
      && (Guard0(other.pc) != Null && Guard0(other.pc).a in tmp ==> Guard0(other.pc).a in plist)
      && (Guard1(other.pc) != Null && Guard1(other.pc).a in tmp ==> Guard1(other.pc).a in plist)
    case _ => true
  }

  predicate NoRepeat(chain: seq<Addr>) {
    forall i, j :: 0 <= i < j < |chain| ==> chain[i] != chain[j]
  }

  /** Every node of the chain points to the one behind it. */
  ghost predicate Nexts(mem: map<Addr, Node>, chain: seq<Addr>) {
    && (forall i, j :: 0 <= i && j == i + 1 && j < |chain| ==> NodeAt(mem, chain[i]).next == At(chain[j]))
    && (|chain| > 0 ==> NodeAt(mem, chain[|chain| - 1]).next == Null)
  }

  ghost predicate ChainOk(q: Queue) {
    && |q.chain| > 0 && q.chain[0] == q.head && q.tail in q.chain && NoRepeat(q.chain) && Nexts(q.mem, q.chain)
    && (forall i :: 0 <= i < |q.chain| ==> StatusOf(q, q.chain[i]).Linked?)
    && (forall a {:trigger StatusOf(q, a)} :: StatusOf(q, a).Linked? ==> a in q.chain)
    && (forall a {:trigger StatusOf(q, a)} :: StatusOf(q, a).Unlinked? ==> NodeAt(q.mem, a).next != Null)
  }

  ghost predicate Inv(s: State) {
    && ChainOk(s.q)
    && (forall t :: 0 <= t < |s.threads| ==> ThreadOk(s.q, s.hist, t, s.threads[t]))
    && (forall t :: 0 <= t < |s.threads| ==> CallOk(s.hist, t, s.threads[t].call) && AnswerOk(s.threads[t]))
    && (forall t, u :: 0 <= t < |s.threads| && 0 <= u < |s.threads| ==> ScanSaw(s.threads[t], u, s.threads[u]))
    && Replays(s.hist) && s.hist[|s.hist| - 1].after == Contents(s.q)
  }

  lemma EnabledIsSafe(s: State, t: Tid, c: Choice)
    requires Inv(s) && Enabled(s, t, c)
    ensures Safe(s, t, c)
  {
    assert ThreadOk(s.q, s.hist, t, s.threads[t]);
  }

  // ---------- The contents of the chain ----------

  /** The contents depend on the keys of the chain only. */
  lemma {:induction false} KeysSame(m: map<Addr, Node>, m': map<Addr, Node>, chain: seq<Addr>)
    requires forall i :: 0 <= i < |chain| ==> NodeAt(m', chain[i]).key == NodeAt(m, chain[i]).key
    ensures Keys(m', chain) == Keys(m, chain)
    decreases |chain|
  {
    if |chain| > 1 { KeysSame(m, m', chain[..|chain| - 1]); }
  }

  lemma {:induction false} KeysTail(mem: map<Addr, Node>, chain: seq<Addr>)
    requires |chain| > 1
    ensures Keys(mem, chain) == [NodeAt(mem, chain[1]).key] + Keys(mem, chain[1..])
    decreases |chain|
  {
    var n := |chain| - 1;
    if n > 1 {
      KeysTail(mem, chain[..n]);
      assert chain[1..][..n - 1] == chain[..n][1..];
    } else {
      assert chain[..1] == [chain[0]];
      assert Keys(mem, chain[..1]) == [];
    }
  }

  // ---------- Changes of the queue: the chain ----------

  /** Where a linked node is in the chain. */
  lemma Position(q: Queue, a: Addr) returns (i: nat)
    requires ChainOk(q) && StatusOf(q, a).Linked?
    ensures i < |q.chain| && q.chain[i] == a
    ensures if i == |q.chain| - 1 then NodeAt(q.mem, a).next == Null else NodeAt(q.mem, a).next == At(q.chain[i + 1])
  {
    i :| 0 <= i < |q.chain| && q.chain[i] == a;
  }

  lemma CasTailChain(q: Queue, from: Addr, to: Addr)
    requires ChainOk(q) && Hazardous(q, from) && NodeAt(q.mem, from).next == At(to)
    ensures ChainOk(CasTail(q, from, to))
    ensures CasTail(q, from, to).tail != q.tail ==> CasTail(q, from, to).tail != q.head
  {
    if q.tail == from {
      var i := Position(q, from);
      assert q.chain[i + 1] == to;
    }
    assert forall a :: StatusOf(CasTail(q, from, to), a) == StatusOf(q, a);
  }

  lemma LinkNexts(mem: map<Addr, Node>, chain: seq<Addr>, n: Addr)
    requires |chain| > 0 && NoRepeat(chain) && Nexts(mem, chain) && n !in chain && NodeAt(mem, n).next == Null
    ensures var l := chain[|chain| - 1]; Nexts(mem[l := NodeAt(mem, l).(next := At(n))], chain + [n])
    ensures NoRepeat(chain + [n])
  {
  }

  lemma LinkChain(q: Queue, t: Tid, l: Addr, n: Addr)
    requires ChainOk(q) && Hazardous(q, l) && NodeAt(q.mem, l).next == Null && Fresh(q, t, n)
    ensures ChainOk(LinkNode(q, l, n)) && StatusOf(q, l).Linked? && l != n
  {
    var q' := LinkNode(q, l, n);
    var i := Position(q, l);
    assert n !in q.chain;
    LinkNexts(q.mem, q.chain, n);
    assert forall a :: a != n ==> StatusOf(q', a) == StatusOf(q, a);
    assert q'.chain[|q.chain|] == n;
  }

  lemma LinkContents(q: Queue, l: Addr, n: Addr)
    requires |q.chain| > 0 && n != l
    ensures Contents(LinkNode(q, l, n)) == Contents(q) + [NodeAt(q.mem, n).key]
  {
    var q' := LinkNode(q, l, n);
    assert q'.chain[..|q'.chain| - 1] == q.chain;
    KeysSame(q.mem, q'.mem, q.chain);
  }

  lemma TakeNexts(mem: map<Addr, Node>, chain: seq<Addr>)
    requires |chain| > 1 && NoRepeat(chain) && Nexts(mem, chain)
    ensures NoRepeat(chain[1..]) && Nexts(mem, chain[1..])
  {
  }

  lemma InRest(chain: seq<Addr>, a: Addr)
    requires a in chain && a != chain[0]
    ensures a in chain[1..]
  {
    var i :| 0 <= i < |chain| && chain[i] == a;
    assert chain[1..][i - 1] == a;
  }

  /** Taking the first node out of the chain takes the first key out of the
      queue. */
  lemma TakeChain(q: Queue, t: Tid, h: Addr, next: Addr)
    requires ChainOk(q) && q.head == h && q.tail != h && NodeAt(q.mem, h).next == At(next)
    ensures ChainOk(TakeNode(q, t, h, next)) && StatusOf(q, h).Linked? && StatusOf(q, next).Linked? && next != h
    ensures |q.chain| > 1 && q.chain[1] == next
  {
    var q' := TakeNode(q, t, h, next);
    assert |q.chain| > 1 && q.chain[1] == next;
    assert q'.chain == q.chain[1..];
    assert forall a {:trigger StatusOf(q', a)} :: a != h ==> StatusOf(q', a) == StatusOf(q, a);
    forall a {:trigger StatusOf(q', a)} | StatusOf(q', a).Linked? ensures a in q'.chain { InRest(q.chain, a); }
    InRest(q.chain, q.tail);
    TakeNexts(q.mem, q.chain);
  }

  lemma AllocChain(q: Queue, t: Tid, n: Addr, key: int)
    requires ChainOk(q) && StatusOf(q, n) == Free
    ensures var q' := q.(mem := q.mem[n := Node(key, Null)], status := q.status[n := Private(t)]);
      ChainOk(q') && Contents(q') == Contents(q)
  {
    var q' := q.(mem := q.mem[n := Node(key, Null)], status := q.status[n := Private(t)]);
    assert forall a :: a != n ==> StatusOf(q', a) == StatusOf(q, a) && NodeAt(q'.mem, a) == NodeAt(q.mem, a);
    assert n !in q.chain;
    KeysSame(q.mem, q'.mem, q.chain);
  }

  lemma FreeChain(q: Queue, n: Addr)
    requires ChainOk(q) && StatusOf(q, n).Unlinked?
    ensures var q' := FreeNode(q, n); ChainOk(q') && Contents(q') == Contents(q)
  {
    var q' := FreeNode(q, n);
    assert forall a :: a != n ==> StatusOf(q', a) == StatusOf(q, a);
  }

  predicate MovesTail(pc: Pc) {
    pc.EHelp? || pc.ESwing? || pc.DHelp?
  }

  lemma TailStep(s: State, t: Tid, c: Choice)
    requires Enabled(s, t, c) && Safe(s, t, c) && MovesTail(s.threads[t].pc)
    requires ChainOk(s.q) && ThreadOk(s.q, s.hist, t, s.threads[t])
    ensures ChainOk(Step(s, t, c).q) && Contents(Step(s, t, c).q) == Contents(s.q)
  {
    var pc := s.threads[t].pc;
    if pc.EHelp? {
      CasTailChain(s.q, pc.t, pc.next);
    } else if pc.ESwing? {
      CasTailChain(s.q, pc.t, pc.n);
    } else {
      CasTailChain(s.q, pc.h, pc.next);
    }
  }

  /** The steps that allocate or free a node. */
  lemma PoolStep(s: State, t: Tid, c: Choice)
    requires Enabled(s, t, c) && Safe(s, t, c) && (s.threads[t].pc.Idle? || s.threads[t].pc.Sweep?)
    requires ChainOk(s.q) && ThreadOk(s.q, s.hist, t, s.threads[t])
    ensures ChainOk(Step(s, t, c).q) && Contents(Step(s, t, c).q) == Contents(s.q)
  {
    var pc := s.threads[t].pc;
    if pc.Idle? {
      if c.Enqueue? { AllocChain(s.q, t, c.a, c.key); }
    } else if pc.tmp != {} && c.a !in pc.plist {
      FreeChain(s.q, c.a);
    }
  }

  lemma LinkStep(s: State, t: Tid, c: Choice)
    requires Enabled(s, t, c) && Safe(s, t, c) && s.threads[t].pc.ELink?
    requires ChainOk(s.q) && ThreadOk(s.q, s.hist, t, s.threads[t])
    ensures ChainOk(Step(s, t, c).q) && Effected(Contents(s.q), EffectOf(s, t), Contents(Step(s, t, c).q))
  {
    var n, l := s.threads[t].pc.n, s.threads[t].pc.t;
    if NodeAt(s.q.mem, l).next == Null {
      LinkChain(s.q, t, l, n);
      LinkContents(s.q, l, n);
    }
  }

  lemma TakeStep(s: State, t: Tid, c: Choice)
    requires Enabled(s, t, c) && Safe(s, t, c) && s.threads[t].pc.DSwing?
    requires ChainOk(s.q) && ThreadOk(s.q, s.hist, t, s.threads[t])
    ensures ChainOk(Step(s, t, c).q) && Effected(Contents(s.q), EffectOf(s, t), Contents(Step(s, t, c).q))
  {
    var pc := s.threads[t].pc;
    if s.q.head == pc.h {
      TakeChain(s.q, t, pc.h, pc.next);
      KeysTail(s.q.mem, s.q.chain);
    }
  }

  lemma QuietStep(s: State, t: Tid, c: Choice)
    requires Enabled(s, t, c) && Safe(s, t, c)
    requires var pc := s.threads[t].pc; !MovesTail(pc) && !pc.Idle? && !pc.Sweep? && !pc.ELink? && !pc.DSwing?
    ensures Step(s, t, c).q == s.q
  {
  }

  /** Every step keeps the chain in order and acts on the queue as a FIFO. */
  lemma StepChain(s: State, t: Tid, c: Choice)
    requires Inv(s) && Enabled(s, t, c) && Safe(s, t, c)
    ensures ChainOk(Step(s, t, c).q)
    ensures Effected(Contents(s.q), EffectOf(s, t), Contents(Step(s, t, c).q))
  {
    var pc := s.threads[t].pc;
    if MovesTail(pc) {
      TailStep(s, t, c);
    } else if pc.Idle? || pc.Sweep? {
      PoolStep(s, t, c);
    } else if pc.ELink? {
      LinkStep(s, t, c);
    } else if pc.DSwing? {
      TakeStep(s, t, c);
    } else {
      QuietStep(s, t, c);
    }
  }

  // ---------- Changes of the queue: the other threads ----------

  /** What thread `u` relies on when another thread takes a step. */
  ghost predicate Rely(q: Queue, q': Queue, u: Tid, th: Thread) {
    && (forall a {:trigger StatusOf(q', a)} :: StatusOf(q, a) == Private(u) ==>
          StatusOf(q', a) == Private(u) && NodeAt(q'.mem, a) == NodeAt(q.mem, a))
    && (forall a {:trigger StatusOf(q', a)} :: StatusOf(q, a) == Unlinked(u) ==> StatusOf(q', a) == Unlinked(u))
    && (forall a {:trigger Guarded(th, a)} :: Guarded(th, a) ==>
          && Hazardous(q', a) && GenOf(q', a) == GenOf(q, a) && NodeAt(q'.mem, a).key == NodeAt(q.mem, a).key
          && (NodeAt(q.mem, a).next != Null ==> NodeAt(q'.mem, a).next == NodeAt(q.mem, a).next)
          && (Dummy(q, a) ==> Dummy(q', a) && (q'.head == a ==> q.head == a && (q.tail != a ==> q'.tail != a))))
  }

  lemma RelyOk(q: Queue, hist: Steps, q': Queue, e: Event<Effect, seq<int>>, u: Tid, th: Thread)
    requires ThreadOk(q, hist, u, th) && Rely(q, q', u, th)
    ensures ThreadOk(q', hist + [e], u, th)
  {
    assert Guard0(th.pc) != Null ==> Guarded(th, Guard0(th.pc).a);
    assert Guard1(th.pc) != Null ==> Guarded(th, Guard1(th.pc).a);
    if Adding(th.pc) { assert StatusOf(q', th.pc.n) == Private(u); }
    if (th.pc.DPublishNext? || th.pc.DRevalidate?) && th.pc.succ == Null {
      SawLater(hist, e, th.call.began);
    }
  }

  lemma RelyTail(q: Queue, hist: Steps, from: Addr, to: Addr, u: Tid, th: Thread)
    requires ChainOk(q) && ThreadOk(q, hist, u, th) && Hazardous(q, from) && NodeAt(q.mem, from).next == At(to)
    ensures Rely(q, CasTail(q, from, to), u, th)
  {
    CasTailChain(q, from, to);
    assert forall a :: StatusOf(CasTail(q, from, to), a) == StatusOf(q, a);
  }

  lemma RelyAlloc(q: Queue, hist: Steps, n: Addr, node: Node, t: Tid, u: Tid, th: Thread)
    requires ThreadOk(q, hist, u, th) && t != u && StatusOf(q, n) == Free
    ensures Rely(q, q.(mem := q.mem[n := node], status := q.status[n := Private(t)]), u, th)
  {
    var q' := q.(mem := q.mem[n := node], status := q.status[n := Private(t)]);
    assert forall a :: a != n ==> StatusOf(q', a) == StatusOf(q, a) && NodeAt(q'.mem, a) == NodeAt(q.mem, a);
  }

  /** A node may be freed when no other thread guards it. */
  lemma RelyFree(q: Queue, hist: Steps, n: Addr, t: Tid, u: Tid, th: Thread)
    requires ThreadOk(q, hist, u, th) && t != u && StatusOf(q, n) == Unlinked(t) && !Guarded(th, n)
    ensures Rely(q, FreeNode(q, n), u, th)
  {
    var q' := FreeNode(q, n);
    assert forall a :: a != n ==> StatusOf(q', a) == StatusOf(q, a);
  }

  lemma RelyLink(q: Queue, hist: Steps, l: Addr, n: Addr, t: Tid, u: Tid, th: Thread)
    requires ThreadOk(q, hist, u, th) && t != u
    requires StatusOf(q, l).Linked? && NodeAt(q.mem, l).next == Null && Fresh(q, t, n)
    ensures Rely(q, LinkNode(q, l, n), u, th)
  {
    var q' := LinkNode(q, l, n);
    assert forall a :: a != n ==> StatusOf(q', a) == StatusOf(q, a);
    assert forall a :: a != l ==> NodeAt(q'.mem, a) == NodeAt(q.mem, a);
  }

  lemma RelyTake(q: Queue, hist: Steps, h: Addr, next: Addr, t: Tid, u: Tid, th: Thread)
    requires ThreadOk(q, hist, u, th) && t != u
    requires StatusOf(q, h).Linked? && h == q.head && StatusOf(q, next).Linked? && next != h
    ensures Rely(q, TakeNode(q, t, h, next), u, th)
  {
    assert forall a :: a != h ==> StatusOf(TakeNode(q, t, h, next), a) == StatusOf(q, a);
  }

  lemma RelySame(q: Queue, hist: Steps, u: Tid, th: Thread)
    requires ThreadOk(q, hist, u, th)
    ensures Rely(q, q, u, th)
  {
  }

  lemma StepRely(s: State, t: Tid, c: Choice, u: Tid)
    requires Inv(s) && Enabled(s, t, c) && Safe(s, t, c) && u < |s.threads| && u != t
    ensures Rely(s.q, Step(s, t, c).q, u, s.threads[u])
  {
    var th, other := s.threads[t], s.threads[u];
    assert ThreadOk(s.q, s.hist, t, th) && ThreadOk(s.q, s.hist, u, other);
    RelySame(s.q, s.hist, u, other);
    match th.pc
    case Idle => if c.Enqueue? { RelyAlloc(s.q, s.hist, c.a, Node(c.key, Null), t, u, other); }
    case EHelp(n, l, next) => RelyTail(s.q, s.hist, l, next, u, other);
    case ESwing(n, l) => RelyTail(s.q, s.hist, l, n, u, other);
    case DHelp(h, next) => RelyTail(s.q, s.hist, h, next, u, other);
    case ELink(n, l) =>
      if NodeAt(s.q.mem, l).next == Null {
        LinkChain(s.q, t, l, n);
        RelyLink(s.q, s.hist, l, n, t, u, other);
      }
    case DSwing(h, next, data) =>
      if s.q.head == h {
        TakeChain(s.q, t, h, next);
        RelyTake(s.q, s.hist, h, next, t, u, other);
      }
    case Sweep(plist, tmp) =>
      if tmp != {} && c.a !in plist {
        assert ScanSaw(th, u, other);
        RelyFree(s.q, s.hist, c.a, t, u, other);
      }
    case _ =>
  }

  // ---------- The thread that takes the step ----------

  /** The first node of the queue and its successor. */
  lemma First(q: Queue)
    requires ChainOk(q)
    ensures StatusOf(q, q.head).Linked? && StatusOf(q, q.tail).Linked?
    ensures match NodeAt(q.mem, q.head).next
      case Null => Contents(q) == []
      case At(next) => StatusOf(q, next).Linked?
  {
    var i := Position(q, q.head);
    assert |q.chain| > 1 ==> StatusOf(q, q.chain[1]).Linked?;
  }

  /** The thread is in an enqueue, or between calls. */
  predicate Enqueuing(pc: Pc) {
    pc.Idle? || Adding(pc) || HasAdded(pc)
  }

  lemma MineLinking(s: State, t: Tid, c: Choice)
    requires Enabled(s, t, c) && Safe(s, t, c) && s.threads[t].pc.ELink?
    requires ThreadOk(s.q, s.hist, t, s.threads[t])
    ensures var s' := Step(s, t, c); ThreadOk(s'.q, s'.hist, t, s'.threads[t])
  {
    var s', th := Step(s, t, c), s.threads[t];
    var l, n := th.pc.t, th.pc.n;
    if NodeAt(s.q.mem, l).next == Null {
      assert s'.q == LinkNode(s.q, l, n) && s'.threads[t].pc == ESwing(n, l) && s'.threads[t].rlist == th.rlist;
      assert forall a :: a != n ==> StatusOf(s'.q, a) == StatusOf(s.q, a);
    } else {
      assert s'.q == s.q && s'.threads[t].pc == EReadTail(n);
    }
  }

  lemma MineAdded(s: State, t: Tid, c: Choice)
    requires Enabled(s, t, c) && Safe(s, t, c) && (s.threads[t].pc.Idle? || HasAdded(s.threads[t].pc))
    requires ThreadOk(s.q, s.hist, t, s.threads[t])
    ensures var s' := Step(s, t, c); ThreadOk(s'.q, s'.hist, t, s'.threads[t])
  {
  }

  lemma MineEnqueuing(s: State, t: Tid, c: Choice)
    requires Enabled(s, t, c) && Safe(s, t, c) && Adding(s.threads[t].pc) && !s.threads[t].pc.ELink?
    requires ThreadOk(s.q, s.hist, t, s.threads[t]) && StatusOf(s.q, s.q.tail).Linked?
    ensures var s' := Step(s, t, c); ThreadOk(s'.q, s'.hist, t, s'.threads[t])
  {
  }

  lemma MineReading(s: State, t: Tid, c: Choice)
    requires Enabled(s, t, c) && Safe(s, t, c) && (s.threads[t].pc.DReadNext? || s.threads[t].pc.DPublishNext?)
    requires ChainOk(s.q) && ThreadOk(s.q, s.hist, t, s.threads[t])
    ensures var s' := Step(s, t, c); ThreadOk(s'.q, s'.hist, t, s'.threads[t])
  {
    var th := s.threads[t];
    if th.pc.DReadNext? {
      First(s.q);
      if NodeAt(s.q.mem, th.pc.h).next == Null { SawNow(s.hist, Event(t, None, []), th.call.began); }
    } else if th.pc.succ == Null {
      SawLater(s.hist, Event(t, None, Contents(s.q)), th.call.began);
    }
  }

  predicate Reclaiming(pc: Pc) {
    pc.DRetire? || pc.Scan? || pc.Sweep?
  }

  lemma MineSweeping(s: State, t: Tid, c: Choice)
    requires Enabled(s, t, c) && Safe(s, t, c) && s.threads[t].pc.Sweep?
    requires ThreadOk(s.q, s.hist, t, s.threads[t])
    ensures var s' := Step(s, t, c); ThreadOk(s'.q, s'.hist, t, s'.threads[t])
  {
  }

  lemma MineReclaiming(s: State, t: Tid, c: Choice)
    requires Enabled(s, t, c) && Safe(s, t, c) && Reclaiming(s.threads[t].pc) && !s.threads[t].pc.Sweep?
    requires ThreadOk(s.q, s.hist, t, s.threads[t])
    ensures var s' := Step(s, t, c); ThreadOk(s'.q, s'.hist, t, s'.threads[t])
  {
  }

  /** The thread is past its second look at head. */
  predicate Taking(pc: Pc) {
    pc.DHelp? || pc.DReadKey? || pc.DSwing? || pc.DClear1? || pc.DClear0?
  }

  lemma MineClearing(s: State, t: Tid, c: Choice)
    requires Enabled(s, t, c) && Safe(s, t, c) && (s.threads[t].pc.DClear1? || s.threads[t].pc.DClear0?)
    requires ThreadOk(s.q, s.hist, t, s.threads[t])
    ensures var s' := Step(s, t, c); ThreadOk(s'.q, s'.hist, t, s'.threads[t])
  {
  }

  lemma MineTaking(s: State, t: Tid, c: Choice)
    requires Enabled(s, t, c) && Safe(s, t, c) && (s.threads[t].pc.DHelp? || s.threads[t].pc.DReadKey?)
    requires ThreadOk(s.q, s.hist, t, s.threads[t])
    ensures var s' := Step(s, t, c); ThreadOk(s'.q, s'.hist, t, s'.threads[t])
  {
  }

  lemma MineSwinging(s: State, t: Tid, c: Choice)
    requires Enabled(s, t, c) && Safe(s, t, c) && s.threads[t].pc.DSwing?
    requires ThreadOk(s.q, s.hist, t, s.threads[t]) && StatusOf(s.q, s.q.head).Linked?
    ensures var s' := Step(s, t, c); ThreadOk(s'.q, s'.hist, t, s'.threads[t])
  {
  }

  lemma MineDequeuing(s: State, t: Tid, c: Choice)
    requires Enabled(s, t, c) && Safe(s, t, c) && !Enqueuing(s.threads[t].pc) && !Reclaiming(s.threads[t].pc)
    requires !s.threads[t].pc.DReadNext? && !s.threads[t].pc.DPublishNext? && !Taking(s.threads[t].pc)
    requires ThreadOk(s.q, s.hist, t, s.threads[t]) && StatusOf(s.q, s.q.head).Linked?
    requires match NodeAt(s.q.mem, s.q.head).next case Null => true case At(next) => StatusOf(s.q, next).Linked?
    ensures var s' := Step(s, t, c); ThreadOk(s'.q, s'.hist, t, s'.threads[t])
  {
  }

  lemma StepMine(s: State, t: Tid, c: Choice)
    requires Inv(s) && Enabled(s, t, c) && Safe(s, t, c)
    ensures var s' := Step(s, t, c); ThreadOk(s'.q, s'.hist, t, s'.threads[t])
  {
    var pc := s.threads[t].pc;
    First(s.q);
    if pc.ELink? {
      MineLinking(s, t, c);
    } else if pc.Idle? || HasAdded(pc) {
      MineAdded(s, t, c);
    } else if Adding(pc) {
      MineEnqueuing(s, t, c);
    } else if pc.DReadNext? || pc.DPublishNext? {
      MineReading(s, t, c);
    } else if pc.Sweep? {
      MineSweeping(s, t, c);
    } else if Reclaiming(pc) {
      MineReclaiming(s, t, c);
    } else if pc.DSwing? {
      MineSwinging(s, t, c);
    } else if pc.DClear1? || pc.DClear0? {
      MineClearing(s, t, c);
    } else if Taking(pc) {
      MineTaking(s, t, c);
    } else {
      MineDequeuing(s, t, c);
    }
  }

  // ---------- Answers ----------

  lemma AnswerEnqueuing(s: State, t: Tid, c: Choice)
    requires Enabled(s, t, c) && Safe(s, t, c) && AnswerOk(s.threads[t]) && |s.hist| > 0 && Enqueuing(s.threads[t].pc)
    ensures AnswerOk(Step(s, t, c).threads[t])
  {
  }

  lemma AnswerTaken(s: State, t: Tid, c: Choice)
    requires Enabled(s, t, c) && Safe(s, t, c) && AnswerOk(s.threads[t]) && HasTaken(s.threads[t].pc)
    ensures AnswerOk(Step(s, t, c).threads[t])
  {
  }

  lemma AnswerDequeuing(s: State, t: Tid, c: Choice)
    requires Enabled(s, t, c) && Safe(s, t, c) && AnswerOk(s.threads[t])
    requires !Enqueuing(s.threads[t].pc) && !HasTaken(s.threads[t].pc)
    ensures AnswerOk(Step(s, t, c).threads[t])
  {
  }

  lemma StepCall(s: State, t: Tid, c: Choice)
    requires Enabled(s, t, c) && Safe(s, t, c) && AnswerOk(s.threads[t]) && CallOk(s.hist, t, s.threads[t].call)
    requires ThreadOk(s.q, s.hist, t, s.threads[t])
    ensures var s' := Step(s, t, c); CallOk(s'.hist, t, s'.threads[t].call)
  {
    var s', pc, call := Step(s, t, c), s.threads[t].pc, s.threads[t].call;
    var e := Event(t, EffectOf(s, t), Contents(s'.q));
    if pc.Idle? {
    } else if e.effect != None {
      JustifiedStep(s.hist, e, t, call.began, s'.threads[t].call.answer.value);
    } else if pc.DRevalidate? && pc.succ == Null && s.q.head == pc.h {
      SawLater(s.hist, e, call.began);
      JustifiedEmpty(s.hist + [e], t, call.began);
    } else {
      assert s'.threads[t].call == call;
      CallLater(s.hist, e, t, call);
    }
  }

  lemma CallLater(hist: Steps, e: Event<Effect, seq<int>>, t: Tid, call: Call)
    requires CallOk(hist, t, call) && (e.who == t ==> e.effect == None)
    ensures CallOk(hist + [e], t, call)
  {
    if call.answer.Some? { JustifiedLater(hist, e, t, call.began, call.answer.value); }
  }

  // ---------- Scans ----------

  /** A node that a step starts to guard is in the queue. */
  predicate NewGuard(q: Queue, was: Ptr, now: Ptr) {
    now == was || now == Null || StatusOf(q, now.a).Linked?
  }

  lemma NewGuardsEnqueuing(s: State, t: Tid, c: Choice)
    requires Enabled(s, t, c) && Safe(s, t, c) && Enqueuing(s.threads[t].pc) && StatusOf(s.q, s.q.tail).Linked?
    ensures var pc, pc' := s.threads[t].pc, Step(s, t, c).threads[t].pc;
      NewGuard(s.q, Guard0(pc), Guard0(pc')) && NewGuard(s.q, Guard1(pc), Guard1(pc'))
  {
  }

  lemma NewGuardsDequeuing(s: State, t: Tid, c: Choice)
    requires Enabled(s, t, c) && Safe(s, t, c) && !Enqueuing(s.threads[t].pc) && StatusOf(s.q, s.q.head).Linked?
    requires var pc := s.threads[t].pc; pc.DRevalidate? && pc.succ.At? ==> NodeAt(s.q.mem, pc.h).next == pc.succ
    requires match NodeAt(s.q.mem, s.q.head).next case Null => true case At(next) => StatusOf(s.q, next).Linked?
    ensures var pc, pc' := s.threads[t].pc, Step(s, t, c).threads[t].pc;
      NewGuard(s.q, Guard0(pc), Guard0(pc')) && NewGuard(s.q, Guard1(pc), Guard1(pc'))
  {
  }

  lemma StepScanner(s: State, t: Tid, c: Choice, u: Tid)
    requires Enabled(s, t, c) && Safe(s, t, c) && u < |s.threads| && u != t
    requires ScanSaw(s.threads[t], u, s.threads[u]) && ThreadOk(s.q, s.hist, u, s.threads[u])
    ensures ScanSaw(Step(s, t, c).threads[t], u, s.threads[u])
  {
  }

  lemma StepScanned(s: State, t: Tid, c: Choice, u: Tid)
    requires Inv(s) && Enabled(s, t, c) && Safe(s, t, c) && u < |s.threads| && u != t
    ensures ScanSaw(s.threads[u], t, Step(s, t, c).threads[t])
  {
    assert ScanSaw(s.threads[u], t, s.threads[t]);
    assert ThreadOk(s.q, s.hist, u, s.threads[u]);
    First(s.q);
    if Enqueuing(s.threads[t].pc) { NewGuardsEnqueuing(s, t, c); } else { NewGuardsDequeuing(s, t, c); }
  }

  lemma Others(s: State, t: Tid, c: Choice)
    requires Enabled(s, t, c) && Safe(s, t, c)
    ensures var s' := Step(s, t, c);
      && |s'.threads| == |s.threads| && s'.hist == s.hist + [Event(t, EffectOf(s, t), Contents(s'.q))]
      && (forall u :: 0 <= u < |s.threads| && u != t ==> s'.threads[u] == s.threads[u])
      && ScanSaw(s'.threads[t], t, s'.threads[t])
  {
  }

  lemma StepThreads(s: State, t: Tid, c: Choice, u: Tid)
    requires Inv(s) && Enabled(s, t, c) && Safe(s, t, c) && u < |s.threads|
    ensures var s' := Step(s, t, c); |s'.threads| == |s.threads| && ThreadOk(s'.q, s'.hist, u, s'.threads[u])
  {
    Others(s, t, c);
    if u == t {
      StepMine(s, t, c);
    } else {
      var s' := Step(s, t, c);
      StepRely(s, t, c, u);
      RelyOk(s.q, s.hist, s'.q, s'.hist[|s.hist|], u, s.threads[u]);
    }
  }

  lemma StepCalls(s: State, t: Tid, c: Choice, u: Tid)
    requires Inv(s) && Enabled(s, t, c) && Safe(s, t, c) && u < |s.threads|
    ensures var s' := Step(s, t, c);
      |s'.threads| == |s.threads| && CallOk(s'.hist, u, s'.threads[u].call) && AnswerOk(s'.threads[u])
  {
    Others(s, t, c);
    if u == t {
      StepCall(s, t, c);
      if Enqueuing(s.threads[t].pc) {
        AnswerEnqueuing(s, t, c);
      } else if HasTaken(s.threads[t].pc) {
        AnswerTaken(s, t, c);
      } else {
        AnswerDequeuing(s, t, c);
      }
    } else {
      CallLater(s.hist, Step(s, t, c).hist[|s.hist|], u, s.threads[u].call);
    }
  }

  lemma StepScans(s: State, t: Tid, c: Choice, v: Tid, u: Tid)
    requires Inv(s) && Enabled(s, t, c) && Safe(s, t, c) && u < |s.threads| && v < |s.threads|
    ensures var s' := Step(s, t, c); |s'.threads| == |s.threads| && ScanSaw(s'.threads[v], u, s'.threads[u])
  {
    Others(s, t, c);
    if v != t && u != t {
      assert ScanSaw(s.threads[v], u, s.threads[u]);
    } else if v == t && u != t {
      StepScanner(s, t, c, u);
    } else if v != t {
      StepScanned(s, t, c, v);
    }
  }

  lemma StepInv(s: State, t: Tid, c: Choice)
    requires Inv(s) && Enabled(s, t, c) && Safe(s, t, c)
    ensures Inv(Step(s, t, c))
  {
    var s' := Step(s, t, c);
    Others(s, t, c);
    StepChain(s, t, c);
    ReplaysMore(s.hist, s'.hist[|s.hist|]);
    forall u | 0 <= u < |s.threads|
      ensures ThreadOk(s'.q, s'.hist, u, s'.threads[u])
      ensures CallOk(s'.hist, u, s'.threads[u].call) && AnswerOk(s'.threads[u])
    {
      StepThreads(s, t, c, u);
      StepCalls(s, t, c, u);
    }
    forall v, u | 0 <= v < |s.threads| && 0 <= u < |s.threads| ensures ScanSaw(s'.threads[v], u, s'.threads[u]) {
      StepScans(s, t, c, v, u);
    }
  }

  lemma InitInv(s: State)
    requires Init(s)
    ensures Inv(s)
  {
    assert forall a :: StatusOf(s.q, a) != Free ==> a == s.q.head && StatusOf(s.q, a) == Linked;
  }

  // ---------- Runs ----------

  ghost predicate Run(states: seq<State>, tids: seq<Tid>, choices: seq<Choice>) {
    && |states| == |tids| + 1 && |choices| == |tids| && Init(states[0])
    && forall i :: 0 <= i < |tids| ==> Next(states[i], tids[i], choices[i], states[i + 1])
  }

  lemma {:induction false} RunInv(states: seq<State>, tids: seq<Tid>, choices: seq<Choice>, i: nat)
    requires Run(states, tids, choices) && i < |states|
    ensures Inv(states[i])
  {
    if i == 0 {
      InitInv(states[0]);
    } else {
      RunInv(states, tids, choices, i - 1);
      assert Next(states[i - 1], tids[i - 1], choices[i - 1], states[i - 1 + 1]);
      EnabledIsSafe(states[i - 1], tids[i - 1], choices[i - 1]);
      StepInv(states[i - 1], tids[i - 1], choices[i - 1]);
    }
  }

  /** Every statement of every run is safe: the nodes that it dereferences or
      compares by a CAS are not freed, and were not freed and allocated again since
      the thread validated them; and what it retires or frees is its own. */
  lemma NoUseAfterFree(states: seq<State>, tids: seq<Tid>, choices: seq<Choice>, i: nat)
    requires Run(states, tids, choices) && i < |tids|
    ensures Enabled(states[i], tids[i], choices[i]) && Safe(states[i], tids[i], choices[i])
    ensures states[i + 1] == Step(states[i], tids[i], choices[i])
  {
    RunInv(states, tids, choices, i);
    assert Next(states[i], tids[i], choices[i], states[i + 1]);
    EnabledIsSafe(states[i], tids[i], choices[i]);
  }

  /** The generation of a node counts how often it was freed. */
  lemma FreeCounts(states: seq<State>, tids: seq<Tid>, choices: seq<Choice>, i: nat, a: Addr)
    requires Run(states, tids, choices) && i < |tids|
    ensures var freed := StatusOf(states[i].q, a) != Free && StatusOf(states[i + 1].q, a) == Free;
      GenOf(states[i + 1].q, a) == GenOf(states[i].q, a) + if freed then 1 else 0
  {
    NoUseAfterFree(states, tids, choices, i);
  }

  lemma {:induction false} RunHist(states: seq<State>, tids: seq<Tid>, choices: seq<Choice>, i: nat, j: nat)
    requires Run(states, tids, choices) && j <= i < |states|
    ensures |states[i].hist| == i + 1 && states[i].hist[..j + 1] == states[j].hist
    ensures |states[i].threads| == |states[0].threads|
  {
    if i == 0 {
    } else {
      NoUseAfterFree(states, tids, choices, i - 1);
      Others(states[i - 1], tids[i - 1], choices[i - 1]);
      RunHist(states, tids, choices, i - 1, if j < i then j else i - 1);
    }
  }

  lemma RunEvent(states: seq<State>, tids: seq<Tid>, choices: seq<Choice>, i: nat)
    requires Run(states, tids, choices) && i < |tids| && tids[i] < |states[i].threads|
    ensures var hist := states[|tids|].hist;
      |hist| == |states| && hist[i + 1] == Event(tids[i], EffectOf(states[i], tids[i]), Contents(states[i + 1].q))
  {
    RunHist(states, tids, choices, |tids|, i + 1);
    RunHist(states, tids, choices, i, i);
    NoUseAfterFree(states, tids, choices, i);
    assert states[i + 1].hist[i + 1] == states[|tids|].hist[..i + 2][i + 1];
  }

  /** The steps of every run, one after the other, are those of a sequential queue:
      event `i + 1` is the step from state `i`, the linking CAS appends the key of
      the enqueue, the CAS of head takes out the key that the dequeue returns, and
      no other step changes the contents. */
  lemma Fifo(states: seq<State>, tids: seq<Tid>, choices: seq<Choice>, i: nat)
    requires Run(states, tids, choices) && i < |tids|
    ensures var s, hist := states[i], states[|tids|].hist;
      && tids[i] < |s.threads| && |hist| == |states| && Replays(hist)
      && hist[i + 1] == Event(tids[i], EffectOf(s, tids[i]), Contents(states[i + 1].q))
      && Effected(Contents(s.q), EffectOf(s, tids[i]), Contents(states[i + 1].q))
  {
    NoUseAfterFree(states, tids, choices, i);
    RunEvent(states, tids, choices, i);
    RunInv(states, tids, choices, |tids|);
    assert Effected(Contents(states[i].q), EffectOf(states[i], tids[i]), Contents(states[i + 1].q)) by {
      RunInv(states, tids, choices, i);
      StepChain(states[i], tids[i], choices[i]);
    }
  }

  /** In state `i` thread `t` has finished a call that took effect with event `j`,
      and its answer fits the call. */
  ghost predicate Finished(states: seq<State>, i: nat, t: Tid, j: nat) {
    && i < |states| && t < |states[i].threads| && states[i].threads[t].pc.Idle? && AnswerOk(states[i].threads[t])
    && var call := states[i].threads[t].call;
       call.answer.Some? && Point(states[i].hist, t, call.began, call.answer.value, j)
  }

  /** Every call of every run takes effect at one moment between its begin and its
      end: an enqueue appends its key and a dequeue takes the first key by exactly
      one step of the call itself, and a dequeue that answers EMPTY changes nothing
      and the queue was empty. */
  lemma Linearizable(states: seq<State>, tids: seq<Tid>, choices: seq<Choice>, i: nat, t: Tid) returns (j: nat)
    requires Run(states, tids, choices) && i < |states| && t < |states[i].threads|
    requires states[i].threads[t].pc.Idle? && states[i].threads[t].call.began > 0
    ensures Finished(states, i, t, j)
  {
    RunInv(states, tids, choices, i);
    var call := states[i].threads[t].call;
    assert CallOk(states[i].hist, t, call) && AnswerOk(states[i].threads[t]);
    assert Justified(states[i].hist, t, call.began, call.answer.value);
    j :| Point(states[i].hist, t, call.began, call.answer.value, j);
  }

  /** A later call of the same thread begins after an earlier one has ended. */
  lemma {:induction false} BeganLater(states: seq<State>, tids: seq<Tid>, choices: seq<Choice>, i: nat, k: nat, t: Tid)
    requires Run(states, tids, choices) && i <= k < |states| && t < |states[i].threads| == |states[k].threads|
    ensures states[k].threads[t].call.began == states[i].threads[t].call.began || states[k].threads[t].call.began > i
  {
    if i < k {
      NoUseAfterFree(states, tids, choices, k - 1);
      RunHist(states, tids, choices, k - 1, 0);
      RunHist(states, tids, choices, k, 0);
      BeganLater(states, tids, choices, i, k - 1, t);
    }
  }

  /** Different calls that changed the contents did so by different steps. */
  lemma {:induction false} OwnPoints(states: seq<State>, tids: seq<Tid>, choices: seq<Choice>,
                                     i: nat, t: Tid, j: nat, k: nat, u: Tid, l: nat)
    requires Run(states, tids, choices) && Finished(states, i, t, j) && Finished(states, k, u, l)
    requires states[i].threads[t].call.answer != Some(Empty) && states[k].threads[u].call.answer != Some(Empty)
    requires t != u || states[i].threads[t].call.began != states[k].threads[u].call.began
    ensures j != l
    decreases i > k
  {
    if i > k {
      OwnPoints(states, tids, choices, k, u, l, i, t, j);
    } else {
      var one, two := states[i].threads[t].call, states[k].threads[u].call;
      RunHist(states, tids, choices, k, i);
      RunHist(states, tids, choices, i, i);
      if t == u { BeganLater(states, tids, choices, i, k, t); }
      Apart(states[i].hist, t, one.began, j, EffectFor(one.answer.value),
            states[k].hist, u, two.began, l, EffectFor(two.answer.value));
    }
  }

  /** A dequeue that finds no second node and the head where it was answers EMPTY,
      and it has been through a moment with an empty queue. */
  lemma EmptyAnswer(states: seq<State>, tids: seq<Tid>, choices: seq<Choice>, i: nat)
    requires Run(states, tids, choices) && i < |tids| && tids[i] < |states[i].threads|
    requires states[i].threads[tids[i]].pc.DRevalidate? && states[i].threads[tids[i]].pc.succ == Null
    ensures SawEmpty(states[i].hist, states[i].threads[tids[i]].call.began)
    ensures |states[i + 1].threads| == |states[i].threads|
    ensures states[i].q.head == states[i].threads[tids[i]].pc.h ==>
      states[i + 1].threads[tids[i]].pc.Idle? && states[i + 1].threads[tids[i]].call.answer == Some(Empty)
  {
    RunInv(states, tids, choices, i);
    NoUseAfterFree(states, tids, choices, i);
    assert ThreadOk(states[i].q, states[i].hist, tids[i], states[i].threads[tids[i]]);
  }

  /** The tail never falls behind the head: it is a node of the queue, and a
      node is retired by the one thread that took it out and only once. */
  lemma RetiredOnce(states: seq<State>, tids: seq<Tid>, choices: seq<Choice>, i: nat, t: Tid)
    requires Run(states, tids, choices) && i < |states| && t < |states[i].threads|
    ensures var s, th := states[i], states[i].threads[t];
      && s.q.tail in s.q.chain
      && (th.pc.DRetire? ==> StatusOf(s.q, th.pc.h) == Unlinked(t) && th.pc.h !in th.rlist)
      && (forall u, a :: 0 <= u < |s.threads| && u != t && a in s.threads[u].rlist ==> a !in th.rlist)
  {
    RunInv(states, tids, choices, i);
    var s, th := states[i], states[i].threads[t];
    assert ThreadOk(s.q, s.hist, t, th);
    forall u, a | 0 <= u < |s.threads| && u != t && a in s.threads[u].rlist ensures a !in th.rlist {
      assert ThreadOk(s.q, s.hist, u, s.threads[u]);
    }
  }
}
