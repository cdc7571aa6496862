/** How the schedulers agree to stop: BLOCK and UNBLOCK messages to scheduler 0,
    rounds of CNF and ACK messages with tokens, and TERMINATE. Run queues and
    message queues are atomic FIFO queues. Actors come only from running actors,
    and the cycle detector's time-out does not fire. */
module Termination {

  import opened Basics

  type Id = nat
  type Actor = nat

  /** The messages between schedulers. The code does not look at
      the sender. */
  datatype Msg = Block(sender: Id) | Unblock(sender: Id) | Cnf(token: nat) | Ack(sender: Id, token: nat) | Terminate

  /** The statement that a scheduler executes next, with its local variables;
      `prev` is the cycle detector, if the scheduler has kept it in hand. */
  datatype Pc =
    | PopFirst
    | Running(actor: Actor)
    | PopNext(actor: Actor, again: bool)
    | PushBack(actor: Actor, next: Actor)
    | SendBlock(prev: Option<Actor>)
    | Steal(prev: Option<Actor>)
    | Read(prev: Option<Actor>)
    | Decide(prev: Option<Actor>)
    | Broadcast(prev: Option<Actor>, k: Id, msg: Msg, reading: bool)
    | SendUnblock(prev: Option<Actor>, actor: Actor)
    | Stopped

  /** The counters of scheduler 0. `view` are the schedulers that it counts as
      blocked and `ackers` those whose acknowledgements it counts; `round` says
      that CNF messages with the current token were sent, and `dead` that every
      scheduler was idle with an empty run queue just before. */
  datatype Zero = Zero(blocked: int, token: nat, acks: nat, asioStopped: bool,
                       view: set<Id>, ackers: set<Id>, round: bool, dead: bool)

  datatype State = State(pcs: seq<Pc>, runqs: seq<seq<Actor>>, mqs: seq<seq<Msg>>, stop: seq<bool>, z: Zero)

  /** The choices of a step: a running actor adds an actor or ends its run, a
      scheduler picks a victim, detect_quiescence is read or asio_stop answers. */
  datatype Choice = Choice(spawn: Option<Actor>, again: bool, victim: Id, flag: bool)

  /** Whether an actor is the cycle detector. */
  predicate IsCycle(a: Actor) {
    a == 0
  }

  predicate Shape(s: State) {
    |s.pcs| == |s.runqs| == |s.mqs| == |s.stop| > 0
  }

  predicate Enabled(s: State, i: Id, c: Choice) {
    && Shape(s) && i < |s.pcs| && !s.pcs[i].Stopped? && c.victim < |s.pcs|
    && (s.pcs[i].Broadcast? ==> s.pcs[i].k < |s.pcs|)
  }

  function Goto(s: State, i: Id, pc: Pc): State
    requires i < |s.pcs|
  {
    s.(pcs := s.pcs[i := pc])
  }

  function Send(s: State, to: Id, m: Msg): State
    requires to < |s.mqs|
  {
    s.(mqs := s.mqs[to := s.mqs[to] + [m]])
  }

  /** Takes the first actor from a run queue. */
  function Drop(s: State, v: Id): State
    requires v < |s.runqs| && s.runqs[v] != []
  {
    s.(runqs := s.runqs[v := s.runqs[v][1..]])
  }

  function Put(s: State, i: Id, a: Actor): State
    requires i < |s.runqs|
  {
    s.(runqs := s.runqs[i := s.runqs[i] + [a]])
  }

  /** What a scheduler does after it sent BLOCK: it has no actor. */
  predicate Idle(pc: Pc) {
    pc.Steal? || pc.Read? || pc.Decide? || pc.Broadcast? || pc.Stopped?
  }

  /** Every scheduler is idle with an empty run queue. */
  predicate Dead(s: State) {
    && (forall i :: 0 <= i < |s.pcs| ==> Idle(s.pcs[i]))
    && (forall i :: 0 <= i < |s.runqs| ==> s.runqs[i] == [])
  }

  /** Scheduler 0 starts to send CNF messages with its current token. */
  function StartRound(s: State, z: Zero, prev: Option<Actor>, reading: bool): State
    requires |s.pcs| > 0
  {
    Goto(s, 0, Broadcast(prev, 0, Cnf(z.token), reading)).(z := z.(round := true, dead := Dead(s)))
  }

  /** Scheduler `i` has taken message `m` from its queue. Only scheduler 0 gets
      BLOCK, UNBLOCK and ACK messages. */
  function Handle(s: State, i: Id, m: Msg, detect: bool): State
    requires Shape(s) && i < |s.pcs| && s.pcs[i].Read?
  {
    var z := s.z;
    match m
    case Block(b) =>
      if i != 0 then s
      else
        var z' := z.(blocked := z.blocked + 1, view := z.view + {b});
        if detect && z'.blocked == |s.pcs| then StartRound(s, z', s.pcs[i].prev, true) else s.(z := z')
    case Unblock(b) =>
      if i != 0 then s
      else s.(z := z.(blocked := z.blocked - 1, view := z.view - {b}, token := z.token + 1, acks := 0, ackers := {},
                      round := false))
    case Cnf(token) => Send(s, 0, Ack(i, token))
    case Ack(b, token) =>
      if i != 0 || token != z.token then s
      else s.(z := z.(acks := z.acks + 1, ackers := z.ackers + {b}))
    case Terminate => s.(stop := s.stop[i := true])
  }

  /** What quiescent does once it has read all messages. */
  function Quiesce(s: State, i: Id, prev: Option<Actor>, asio: bool): State
    requires Shape(s) && i < |s.pcs|
  {
    var z := s.z;
    var later := z.(token := z.token + 1, acks := 0, ackers := {}, round := false);
    if s.stop[i] then Goto(s, i, Stopped)
    else if i == 0 && z.acks == |s.pcs| then
      if z.asioStopped then Goto(s, 0, Broadcast(prev, 0, Terminate, false)).(z := later)
      else if asio then StartRound(s, later.(asioStopped := true), prev, false)
      else Goto(s, i, Steal(prev))
    else Goto(s, i, Steal(prev))
  }

  /** The next statement of scheduler `i`. */
  function Step(s: State, i: Id, c: Choice): State
    requires Enabled(s, i, c)
  {
    match s.pcs[i]
    case PopFirst => if s.runqs[i] == [] then Goto(s, i, SendBlock(None)) else Goto(Drop(s, i), i, Running(s.runqs[i][0]))
    case Running(a) =>
      (match c.spawn
       case Some(b) => Put(s, i, b)
       case None => Goto(s, i, PopNext(a, c.again)))
    case PopNext(a, again) =>
      if s.runqs[i] == [] then
        Goto(s, i, if !again then SendBlock(None) else if IsCycle(a) then SendBlock(Some(a)) else Running(a))
      else Goto(Drop(s, i), i, if again then PushBack(a, s.runqs[i][0]) else Running(s.runqs[i][0]))
    case PushBack(a, next) => Goto(Put(s, i, a), i, Running(next))
    case SendBlock(prev) => Goto(Send(s, 0, Block(i)), i, Steal(prev))
    case Steal(prev) =>
      if s.runqs[c.victim] == [] then Goto(s, i, Read(prev))
      else Goto(Drop(s, c.victim), i, SendUnblock(prev, s.runqs[c.victim][0]))
    case Read(prev) =>
      if s.mqs[i] == [] then Goto(s, i, Decide(prev))
      else Handle(s.(mqs := s.mqs[i := s.mqs[i][1..]]), i, s.mqs[i][0], c.flag)
    case Decide(prev) => Quiesce(s, i, prev, c.flag)
    case Broadcast(prev, k, msg, reading) =>
      Goto(Send(s, k, msg), i,
           if k + 1 < |s.pcs| then Broadcast(prev, k + 1, msg, reading) else if reading then Read(prev) else Steal(prev))
    case SendUnblock(prev, a) =>
      Goto(Send(s, 0, Unblock(i)), i, if prev.Some? && prev.value != a then PushBack(prev.value, a) else Running(a))
    case Stopped => s
  }

  predicate Init(s: State) {
    && Shape(s)
    && (forall i :: 0 <= i < |s.pcs| ==> s.pcs[i] == PopFirst && s.mqs[i] == [] && !s.stop[i])
    && s.z == Zero(0, 0, 0, false, {}, {}, false, false)
  }

  // ---------- What the queue of scheduler 0 says ----------

  /** Whether scheduler `i` counts as blocked once the messages are read. */
  function Replay(q: seq<Msg>, i: Id, v: bool): bool {
    if q == [] then v
    else Replay(q[1..], i, if q[0] == Block(i) then true else if q[0] == Unblock(i) then false else v)
  }

  /** BLOCK and UNBLOCK messages of a scheduler alternate. */
  predicate Alternates(q: seq<Msg>, i: Id, v: bool) {
    if q == [] then true
    else if q[0] == Block(i) then !v && Alternates(q[1..], i, true)
    else if q[0] == Unblock(i) then v && Alternates(q[1..], i, false)
    else Alternates(q[1..], i, v)
  }

  lemma {:induction false} ReplayAppend(q: seq<Msg>, m: Msg, i: Id, v: bool)
    ensures Replay(q + [m], i, v)
      == if m == Block(i) then true else if m == Unblock(i) then false else Replay(q, i, v)
    ensures Alternates(q + [m], i, v)
      == (Alternates(q, i, v) && (m == Block(i) ==> !Replay(q, i, v)) && (m == Unblock(i) ==> Replay(q, i, v)))
    decreases |q|
  {
    if q != [] {
      assert (q + [m])[1..] == q[1..] + [m];
      ReplayAppend(q[1..], m, i, if q[0] == Block(i) then true else if q[0] == Unblock(i) then false else v);
    } else {
      assert (q + [m])[1..] == [];
    }
  }

  lemma {:induction false} ReplayQuiet(q: seq<Msg>, i: Id, v: bool)
    requires Unblock(i) !in q && v
    ensures Replay(q, i, v)
  {
    if q != [] { ReplayQuiet(q[1..], i, true); }
  }

  /** An UNBLOCK of scheduler `j` is read before any ACK of it with the token. */
  predicate UnblockFirst(q: seq<Msg>, j: Id, token: nat) {
    q != [] && (q[0] == Unblock(j) || (q[0] != Ack(j, token) && UnblockFirst(q[1..], j, token)))
  }

  lemma {:induction false} UnblockFirstAppend(q: seq<Msg>, m: Msg, j: Id, token: nat)
    ensures UnblockFirst(q, j, token) ==> UnblockFirst(q + [m], j, token)
    ensures m == Unblock(j) && Ack(j, token) !in q ==> UnblockFirst(q + [m], j, token)
    decreases |q|
  {
    if q != [] {
      assert (q + [m])[1..] == q[1..] + [m];
      UnblockFirstAppend(q[1..], m, j, token);
    }
  }

  lemma {:induction false} UnblockFound(q: seq<Msg>, j: Id, token: nat)
    requires Unblock(j) in q && Ack(j, token) !in q
    ensures UnblockFirst(q, j, token)
    decreases |q|
  {
    if q[0] != Unblock(j) { UnblockFound(q[1..], j, token); }
  }

  /** A message is in the queue at most once. */
  predicate AtMostOnce(q: seq<Msg>, m: Msg) {
    forall k, l :: 0 <= k < l < |q| ==> !(q[k] == m && q[l] == m)
  }

  lemma OnceAppend(q: seq<Msg>, m: Msg, x: Msg)
    requires AtMostOnce(q, x) && (m == x ==> x !in q)
    ensures AtMostOnce(q + [m], x)
  {
  }

  lemma OncePop(q: seq<Msg>, x: Msg)
    requires q != [] && AtMostOnce(q, x)
    ensures AtMostOnce(q[1..], x) && (q[0] == x ==> x !in q[1..])
  {
  }

  // ---------- Invariant ----------

  function Ids(n: nat): (r: set<Id>)
    ensures |r| == n && forall i: Id :: i in r <==> i < n
  {
    if n == 0 then {} else Ids(n - 1) + {n - 1}
  }

  lemma AllIds(a: set<Id>, n: nat)
    requires a <= Ids(n) && |a| == n
    ensures a == Ids(n)
  {
    var rest := Ids(n) - a;
    assert Ids(n) == a + rest;
    assert |Ids(n)| == |a| + |rest|;
  }

  /** The last message to scheduler 0 said that the scheduler is blocked. */
  predicate Announced(pc: Pc) {
    Idle(pc) || pc.SendUnblock?
  }

  /** A scheduler that looks for work elsewhere has none of its own. */
  predicate RunOk(pcs: seq<Pc>, runqs: seq<seq<Actor>>) {
    forall i :: 0 <= i < |pcs| && i < |runqs| && (Announced(pcs[i]) || pcs[i].SendBlock?) ==> runqs[i] == []
  }

  /** Only scheduler 0 sends rounds and gets BLOCK, UNBLOCK and ACK messages. */
  predicate OnlyZero(pcs: seq<Pc>, mqs: seq<seq<Msg>>) {
    && (forall i :: 0 < i < |pcs| ==> !pcs[i].Broadcast?)
    && (forall i, k :: 0 < i < |mqs| && 0 <= k < |mqs[i]| ==> mqs[i][k].Cnf? || mqs[i][k].Terminate?)
  }

  predicate SendersOk(q: seq<Msg>, n: nat) {
    forall k :: 0 <= k < |q| ==> ((q[k].Block? || q[k].Unblock? || q[k].Ack?) ==> q[k].sender < n)
  }

  /** What scheduler 0 knows of scheduler `i`, with the messages under way, is
      what that scheduler last said. */
  predicate ViewOf(q: seq<Msg>, view: set<Id>, i: Id, pc: Pc) {
    Alternates(q, i, i in view) && Replay(q, i, i in view) == Announced(pc)
  }

  predicate ViewOk(pcs: seq<Pc>, q: seq<Msg>, z: Zero) {
    && SendersOk(q, |pcs|) && z.view <= Ids(|pcs|) && z.blocked == |z.view|
    && forall i :: 0 <= i < |pcs| ==> ViewOf(q, z.view, i, pcs[i])
  }

  /** No message has a token from the future. */
  predicate TokensOld(q: seq<Msg>, token: nat) {
    forall k :: 0 <= k < |q| ==> ((q[k].Cnf? || q[k].Ack?) ==> q[k].token <= token)
  }

  /** Scheduler `i` gets the current token once and is counted once. */
  predicate StageOk(q0: seq<Msg>, q: seq<Msg>, z: Zero, i: Id) {
    var cnf, ack := Cnf(z.token), Ack(i, z.token);
    && AtMostOnce(q, cnf) && AtMostOnce(q0, ack)
    && (cnf in q ==> ack !in q0 && i !in z.ackers) && (ack in q0 ==> i !in z.ackers)
    && (!z.round ==> cnf !in q && ack !in q0)
  }

  /** The round has not reached the schedulers from `k` on. */
  predicate Unreached(mqs: seq<seq<Msg>>, z: Zero, k: Id) {
    |mqs| > 0 && forall i :: k <= i < |mqs| ==> Cnf(z.token) !in mqs[i] && Ack(i, z.token) !in mqs[0] && i !in z.ackers
  }

  predicate TokenOk(pcs: seq<Pc>, mqs: seq<seq<Msg>>, z: Zero) {
    && |mqs| == |pcs| > 0 && z.ackers <= Ids(|pcs|) && z.acks == |z.ackers| && (!z.round ==> z.ackers == {})
    && (forall i :: 0 <= i < |mqs| ==> TokensOld(mqs[i], z.token) && StageOk(mqs[0], mqs[i], z, i))
    && (pcs[0].Broadcast? ==>
          || pcs[0].msg.Terminate?
          || (pcs[0].msg == Cnf(z.token) && z.round && Unreached(mqs, z, pcs[0].k)))
  }

  /** Scheduler `j` is not going to acknowledge the round before it is called
      off. */
  predicate Bad(pcs: seq<Pc>, q: seq<Msg>, z: Zero, j: Id) {
    && j < |pcs| && j !in z.ackers
    && ((pcs[j].SendUnblock? && Ack(j, z.token) !in q) || UnblockFirst(q, j, z.token))
  }

  ghost predicate RoundOk(s: State) {
    Shape(s) && (s.z.round ==>
      && s.z.view == Ids(|s.pcs|)
      && if s.z.dead then Dead(s) else exists j :: Bad(s.pcs, s.mqs[0], s.z, j))
  }

  /** A scheduler is told to stop, or has stopped, only when all are idle. */
  predicate StopOk(s: State) {
    Shape(s) && (!Dead(s) ==>
      forall i :: 0 <= i < |s.pcs| ==>
        Terminate !in s.mqs[i] && !s.stop[i] && !s.pcs[i].Stopped? && !(s.pcs[i].Broadcast? && s.pcs[i].msg.Terminate?))
  }

  ghost predicate Inv(s: State) {
    && Shape(s) && RunOk(s.pcs, s.runqs) && OnlyZero(s.pcs, s.mqs) && ViewOk(s.pcs, s.mqs[0], s.z)
    && TokenOk(s.pcs, s.mqs, s.z) && RoundOk(s) && StopOk(s)
    && (forall i :: 0 <= i < |s.pcs| && s.pcs[i].Broadcast? ==> s.pcs[i].k < |s.pcs|)
  }

  lemma DeadSame(s: State, s': State, i: Id)
    requires i < |s.pcs| == |s'.pcs| && s'.pcs == s.pcs[i := s'.pcs[i]] && s'.runqs == s.runqs
    requires Idle(s'.pcs[i]) && Idle(s.pcs[i])
    ensures Dead(s') == Dead(s)
  {
    assert s.pcs == s'.pcs[i := s.pcs[i]];
  }

  // ---------- Steps that send no message ----------

  lemma LocalInv(s: State, s': State, i: Id)
    requires Inv(s) && Shape(s') && |s'.pcs| == |s.pcs| && i < |s.pcs|
    requires s'.mqs == s.mqs && s'.z == s.z && s'.stop == s.stop && s'.pcs == s.pcs[i := s'.pcs[i]]
    requires Announced(s'.pcs[i]) == Announced(s.pcs[i])
    requires !s.pcs[i].SendUnblock? && !s.pcs[i].Broadcast? && !s'.pcs[i].Broadcast?
    requires RunOk(s'.pcs, s'.runqs) && (Dead(s) ==> Dead(s')) && (s'.pcs[i].Stopped? ==> s.stop[i])
    ensures Inv(s')
  {
    if s.z.round && !s.z.dead {
      var j :| Bad(s.pcs, s.mqs[0], s.z, j);
      assert Bad(s'.pcs, s'.mqs[0], s'.z, j);
    }
    forall u | 0 <= u < |s.pcs| ensures ViewOf(s'.mqs[0], s'.z.view, u, s'.pcs[u]) {
      assert ViewOf(s.mqs[0], s.z.view, u, s.pcs[u]);
    }
  }

  /** The steps of running actors. */
  lemma WorkStep(s: State, i: Id, c: Choice)
    requires Inv(s) && Enabled(s, i, c) && (s.pcs[i].Running? || s.pcs[i].PopNext? || s.pcs[i].PushBack?)
    ensures Inv(Step(s, i, c))
  {
    LocalInv(s, Step(s, i, c), i);
  }

  /** The steps of looking for work, without a message. */
  lemma SeekStep(s: State, i: Id, c: Choice)
    requires Inv(s) && Enabled(s, i, c) && (s.pcs[i].PopFirst? || s.pcs[i].Steal? || (s.pcs[i].Read? && s.mqs[i] == []))
    ensures Inv(Step(s, i, c))
  {
    LocalInv(s, Step(s, i, c), i);
  }

  // ---------- Telling scheduler 0 ----------

  lemma ViewSend(pcs: seq<Pc>, q: seq<Msg>, z: Zero, i: Id, m: Msg, pc: Pc)
    requires ViewOk(pcs, q, z) && i < |pcs|
    requires (m == Block(i) && !Announced(pcs[i]) && Announced(pc)) || (m == Unblock(i) && Announced(pcs[i]) && !Announced(pc))
    ensures ViewOk(pcs[i := pc], q + [m], z)
  {
    var pcs' := pcs[i := pc];
    forall u | 0 <= u < |pcs'| ensures ViewOf(q + [m], z.view, u, pcs'[u]) {
      assert ViewOf(q, z.view, u, pcs[u]);
      ReplayAppend(q, m, u, u in z.view);
    }
  }

  lemma TokenSend(pcs: seq<Pc>, mqs: seq<seq<Msg>>, z: Zero, m: Msg)
    requires TokenOk(pcs, mqs, z) && (m.Block? || m.Unblock?)
    ensures TokenOk(pcs, mqs[0 := mqs[0] + [m]], z)
  {
    var mqs' := mqs[0 := mqs[0] + [m]];
    forall u | 0 <= u < |mqs'| ensures TokensOld(mqs'[u], z.token) && StageOk(mqs'[0], mqs'[u], z, u) {
      assert TokensOld(mqs[u], z.token) && StageOk(mqs[0], mqs[u], z, u);
      OnceAppend(mqs[0], m, Ack(u, z.token));
      OnceAppend(mqs[0], m, Cnf(z.token));
    }
  }

  lemma TokenPc(pcs: seq<Pc>, mqs: seq<seq<Msg>>, z: Zero, i: Id, pc: Pc)
    requires TokenOk(pcs, mqs, z) && i < |pcs| && !pc.Broadcast?
    ensures TokenOk(pcs[i := pc], mqs, z)
  {
  }

  /** A scheduler that tells scheduler 0 something while a round is on leaves a
      scheduler that will not acknowledge it. */
  lemma TellRound(s: State, s': State, i: Id, m: Msg)
    requires RoundOk(s) && Shape(s') && i < |s.pcs| == |s'.pcs| && (m == Block(i) || (m == Unblock(i) && s.pcs[i].SendUnblock?))
    requires s' == s.(pcs := s.pcs[i := s'.pcs[i]], mqs := s.mqs[0 := s.mqs[0] + [m]]) && !Dead(s)
    requires m.Block? ==> !s.pcs[i].SendUnblock?
    ensures RoundOk(s')
  {
    if s.z.round {
      var j :| Bad(s.pcs, s.mqs[0], s.z, j);
      UnblockFirstAppend(s.mqs[0], m, j, s.z.token);
      assert Bad(s'.pcs, s'.mqs[0], s'.z, j);
    }
  }

  lemma TellStep(s: State, i: Id, c: Choice)
    requires Inv(s) && Enabled(s, i, c) && (s.pcs[i].SendBlock? || s.pcs[i].SendUnblock?)
    ensures Inv(Step(s, i, c))
  {
    var s' := Step(s, i, c);
    var m := if s.pcs[i].SendBlock? then Block(i) else Unblock(i);
    assert s'.mqs == s.mqs[0 := s.mqs[0] + [m]];
    ViewSend(s.pcs, s.mqs[0], s.z, i, m, s'.pcs[i]);
    TokenSend(s.pcs, s.mqs, s.z, m);
    TokenPc(s.pcs, s'.mqs, s.z, i, s'.pcs[i]);
    TellRound(s, s', i, m);
  }

  // ---------- Reading a message ----------

  lemma ViewPop(pcs: seq<Pc>, q: seq<Msg>, z: Zero)
    requires ViewOk(pcs, q, z) && q != [] && !q[0].Block? && !q[0].Unblock?
    ensures ViewOk(pcs, q[1..], z)
  {
    forall u | 0 <= u < |pcs| ensures ViewOf(q[1..], z.view, u, pcs[u]) {
      assert ViewOf(q, z.view, u, pcs[u]);
    }
  }

  lemma ViewAck(pcs: seq<Pc>, q: seq<Msg>, z: Zero, m: Msg)
    requires ViewOk(pcs, q, z) && !m.Block? && !m.Unblock? && (m.Ack? ==> m.sender < |pcs|)
    ensures ViewOk(pcs, q + [m], z)
  {
    forall u | 0 <= u < |pcs| ensures ViewOf(q + [m], z.view, u, pcs[u]) {
      assert ViewOf(q, z.view, u, pcs[u]);
      ReplayAppend(q, m, u, u in z.view);
    }
  }

  lemma TokenPop(pcs: seq<Pc>, mqs: seq<seq<Msg>>, z: Zero, i: Id)
    requires TokenOk(pcs, mqs, z) && i < |mqs| && mqs[i] != []
    ensures TokenOk(pcs, mqs[i := mqs[i][1..]], z)
    ensures mqs[i][0] == Cnf(z.token) ==> Cnf(z.token) !in mqs[i][1..] && Ack(i, z.token) !in mqs[0] && i !in z.ackers
    ensures i == 0 && mqs[0][0].Ack? && mqs[0][0].token == z.token && mqs[0][0].sender < |mqs| ==>
      Ack(mqs[0][0].sender, z.token) !in mqs[0][1..] && mqs[0][0].sender !in z.ackers
  {
    var mqs' := mqs[i := mqs[i][1..]];
    forall u | 0 <= u < |mqs'| ensures TokensOld(mqs'[u], z.token) && StageOk(mqs'[0], mqs'[u], z, u) {
      assert TokensOld(mqs[u], z.token) && StageOk(mqs[0], mqs[u], z, u);
      OncePop(mqs[i], Cnf(z.token));
      if i == 0 { OncePop(mqs[0], Ack(u, z.token)); }
    }
    OncePop(mqs[i], Cnf(z.token));
    if i == 0 && mqs[0][0].Ack? && mqs[0][0].sender < |mqs| {
      var b := mqs[0][0].sender;
      assert StageOk(mqs[0], mqs[b], z, b);
      if mqs[0][0].token == z.token { OncePop(mqs[0], Ack(b, z.token)); }
    }
  }

  lemma TokenAck(pcs: seq<Pc>, mqs: seq<seq<Msg>>, z: Zero, i: Id, token: nat)
    requires TokenOk(pcs, mqs, z) && i < |mqs| && token <= z.token
    requires token == z.token ==> z.round && Cnf(token) !in mqs[i] && Ack(i, token) !in mqs[0] && i !in z.ackers
    requires token == z.token && pcs[0].Broadcast? && pcs[0].msg.Cnf? ==> i < pcs[0].k
    ensures TokenOk(pcs, mqs[0 := mqs[0] + [Ack(i, token)]], z)
  {
    var m := Ack(i, token);
    var mqs' := mqs[0 := mqs[0] + [m]];
    forall u | 0 <= u < |mqs'| ensures TokensOld(mqs'[u], z.token) && StageOk(mqs'[0], mqs'[u], z, u) {
      assert TokensOld(mqs[u], z.token) && StageOk(mqs[0], mqs[u], z, u);
      OnceAppend(mqs[0], m, Ack(u, z.token));
      OnceAppend(mqs[0], m, Cnf(z.token));
    }
  }

  lemma BadPop(pcs: seq<Pc>, q: seq<Msg>, z: Zero, j: Id)
    requires Bad(pcs, q, z, j) && q != [] && q[0] != Unblock(j)
    ensures Bad(pcs, q[1..], z, j) && q[0] != Ack(j, z.token)
  {
  }

  lemma BadAppend(pcs: seq<Pc>, q: seq<Msg>, z: Zero, j: Id, m: Msg)
    requires Bad(pcs, q, z, j) && (pcs[j].SendUnblock? ==> m != Ack(j, z.token))
    ensures Bad(pcs, q + [m], z, j)
  {
    UnblockFirstAppend(q, m, j, z.token);
  }

  /** Takes the first message from the queue of a scheduler. */
  function Popped(s: State, i: Id): State
    requires i < |s.mqs| && s.mqs[i] != []
  {
    s.(mqs := s.mqs[i := s.mqs[i][1..]])
  }

  /** Reading a message, before acting on it. */
  lemma PoppedInv(s: State, i: Id)
    requires Inv(s) && i < |s.pcs| && s.pcs[i].Read? && s.mqs[i] != []
    requires !s.mqs[i][0].Block? && !s.mqs[i][0].Unblock?
    ensures Inv(Popped(s, i))
  {
    var s' := Popped(s, i);
    TokenPop(s.pcs, s.mqs, s.z, i);
    if i == 0 { ViewPop(s.pcs, s.mqs[0], s.z); }
    if s.z.round && !s.z.dead {
      var j :| Bad(s.pcs, s.mqs[0], s.z, j);
      if i == 0 { BadPop(s.pcs, s.mqs[0], s.z, j); }
      assert Bad(s'.pcs, s'.mqs[0], s'.z, j);
    }
    assert Dead(s) ==> Dead(s');
  }

  lemma CnfStep(s: State, i: Id, c: Choice)
    requires Inv(s) && Enabled(s, i, c) && s.pcs[i].Read? && s.mqs[i] != [] && s.mqs[i][0].Cnf?
    ensures Inv(Step(s, i, c))
  {
    var t := s.mqs[i][0].token;
    var p, s' := Popped(s, i), Step(s, i, c);
    assert TokensOld(s.mqs[i], s.z.token) && StageOk(s.mqs[0], s.mqs[i], s.z, i);
    PoppedInv(s, i);
    TokenPop(s.pcs, s.mqs, s.z, i);
    assert t == s.z.token ==> Cnf(t) in s.mqs[i];
    TokenAck(p.pcs, p.mqs, p.z, i, t);
    ViewAck(p.pcs, p.mqs[0], p.z, Ack(i, t));
    if p.z.round && !p.z.dead {
      var j :| Bad(p.pcs, p.mqs[0], p.z, j);
      BadAppend(p.pcs, p.mqs[0], p.z, j, Ack(i, t));
      assert Bad(s'.pcs, s'.mqs[0], s'.z, j);
    }
    assert Dead(p) ==> Dead(s');
  }

  lemma TerminateStep(s: State, i: Id, c: Choice)
    requires Inv(s) && Enabled(s, i, c) && s.pcs[i].Read? && s.mqs[i] != [] && s.mqs[i][0].Terminate?
    ensures Inv(Step(s, i, c))
  {
    var p, s' := Popped(s, i), Step(s, i, c);
    assert Terminate in s.mqs[i];
    PoppedInv(s, i);
    assert Dead(s) ==> Dead(s');
    if p.z.round && !p.z.dead {
      var j :| Bad(p.pcs, p.mqs[0], p.z, j);
      assert Bad(s'.pcs, s'.mqs[0], s'.z, j);
    }
  }

  /** Counting an acknowledgement of the current token. */
  lemma AckToken(pcs: seq<Pc>, mqs: seq<seq<Msg>>, z: Zero, b: Id)
    requires TokenOk(pcs, mqs, z) && b < |pcs| && z.round && !pcs[0].Broadcast?
    requires b !in z.ackers && Ack(b, z.token) !in mqs[0] && Cnf(z.token) !in mqs[b]
    ensures TokenOk(pcs, mqs, z.(acks := z.acks + 1, ackers := z.ackers + {b}))
  {
    var z' := z.(acks := z.acks + 1, ackers := z.ackers + {b});
    forall u | 0 <= u < |mqs| ensures TokensOld(mqs[u], z'.token) && StageOk(mqs[0], mqs[u], z', u) {
      assert TokensOld(mqs[u], z.token) && StageOk(mqs[0], mqs[u], z, u);
    }
  }

  lemma AckCounted(p: State, b: Id)
    requires Inv(p) && b < |p.pcs| && p.z.round && !p.pcs[0].Broadcast?
    requires b !in p.z.ackers && Ack(b, p.z.token) !in p.mqs[0] && Cnf(p.z.token) !in p.mqs[b]
    requires p.z.dead || exists j :: j != b && Bad(p.pcs, p.mqs[0], p.z, j)
    ensures Inv(p.(z := p.z.(acks := p.z.acks + 1, ackers := p.z.ackers + {b})))
  {
    var s' := p.(z := p.z.(acks := p.z.acks + 1, ackers := p.z.ackers + {b}));
    AckToken(p.pcs, p.mqs, p.z, b);
    if !p.z.dead {
      var j :| j != b && Bad(p.pcs, p.mqs[0], p.z, j);
      assert Bad(s'.pcs, s'.mqs[0], s'.z, j);
    }
    assert Dead(s') == Dead(p);
  }

  /** An acknowledgement of the current token is the only one of its sender. */
  lemma AckFound(s: State)
    requires Inv(s) && s.mqs[0] != [] && s.mqs[0][0].Ack? && s.mqs[0][0].token == s.z.token
    ensures var b, q := s.mqs[0][0].sender, s.mqs[0][1..];
      && b < |s.pcs| && s.z.round && b !in s.z.ackers && Ack(b, s.z.token) !in q
      && Cnf(s.z.token) !in s.mqs[0 := q][b] && (s.z.dead || exists j :: j != b && Bad(s.pcs, q, s.z, j))
  {
    var b, q := s.mqs[0][0].sender, s.mqs[0][1..];
    TokenPop(s.pcs, s.mqs, s.z, 0);
    assert Ack(b, s.z.token) in s.mqs[0];
    assert StageOk(s.mqs[0], s.mqs[b], s.z, b);
    if !s.z.dead {
      var j :| Bad(s.pcs, s.mqs[0], s.z, j);
      BadPop(s.pcs, s.mqs[0], s.z, j);
      assert j != b && Bad(s.pcs, q, s.z, j);
    }
  }

  lemma AckStep(s: State, i: Id, c: Choice)
    requires Inv(s) && Enabled(s, i, c) && s.pcs[i].Read? && s.mqs[i] != [] && s.mqs[i][0].Ack?
    ensures Inv(Step(s, i, c))
  {
    assert i == 0;
    PoppedInv(s, 0);
    if s.mqs[0][0].token == s.z.token {
      AckFound(s);
      AckCounted(Popped(s, 0), s.mqs[0][0].sender);
    }
  }

  lemma ViewUnblock(pcs: seq<Pc>, q: seq<Msg>, z: Zero, b: Id)
    requires ViewOk(pcs, q, z) && q != [] && q[0] == Unblock(b)
    ensures b in z.view
    ensures ViewOk(pcs, q[1..], z.(blocked := z.blocked - 1, view := z.view - {b}))
  {
    assert ViewOf(q, z.view, b, pcs[b]);
    forall u | 0 <= u < |pcs| ensures ViewOf(q[1..], z.view - {b}, u, pcs[u]) {
      assert ViewOf(q, z.view, u, pcs[u]);
    }
  }

  /** A new token is in no message. */
  lemma TokenNew(pcs: seq<Pc>, mqs: seq<seq<Msg>>, z: Zero)
    requires TokenOk(pcs, mqs, z) && !pcs[0].Broadcast?
    ensures TokenOk(pcs, mqs, z.(token := z.token + 1, acks := 0, ackers := {}, round := false))
  {
    var z' := z.(token := z.token + 1, acks := 0, ackers := {}, round := false);
    forall u | 0 <= u < |mqs| ensures TokensOld(mqs[u], z'.token) && StageOk(mqs[0], mqs[u], z', u) {
      assert TokensOld(mqs[u], z.token) && TokensOld(mqs[0], z.token);
    }
  }

  /** Reading an UNBLOCK makes a new token. */
  lemma UnblockToken(pcs: seq<Pc>, mqs: seq<seq<Msg>>, z: Zero, z': Zero)
    requires TokenOk(pcs, mqs, z) && !pcs[0].Broadcast? && |mqs| > 0 && mqs[0] != []
    requires z' == z.(blocked := z'.blocked, view := z'.view, asioStopped := z'.asioStopped, dead := z'.dead,
                      token := z.token + 1, acks := 0, ackers := {}, round := false)
    ensures TokenOk(pcs, mqs[0 := mqs[0][1..]], z')
  {
    var rest := mqs[0 := mqs[0][1..]];
    TokenPop(pcs, mqs, z, 0);
    TokenNew(pcs, rest, z);
    TokenView(pcs, rest, z.(token := z.token + 1, acks := 0, ackers := {}, round := false), z');
  }

  lemma UnblockStep(s: State, c: Choice)
    requires Inv(s) && Enabled(s, 0, c) && s.pcs[0].Read? && s.mqs[0] != [] && s.mqs[0][0].Unblock?
    ensures Inv(Step(s, 0, c))
  {
    var b, s' := s.mqs[0][0].sender, Step(s, 0, c);
    ViewUnblock(s.pcs, s.mqs[0], s.z, b);
    UnblockToken(s.pcs, s.mqs, s.z, s'.z);
    assert s'.mqs == s.mqs[0 := s.mqs[0][1..]];
    assert Dead(s) ==> Dead(s');
  }

  /** The tokens do not depend on who counts as blocked. */
  lemma TokenView(pcs: seq<Pc>, mqs: seq<seq<Msg>>, z: Zero, z': Zero)
    requires TokenOk(pcs, mqs, z)
    requires z' == z.(blocked := z'.blocked, view := z'.view, asioStopped := z'.asioStopped, dead := z'.dead)
    ensures TokenOk(pcs, mqs, z')
  {
    forall u | 0 <= u < |mqs| ensures TokensOld(mqs[u], z'.token) && StageOk(mqs[0], mqs[u], z', u) {
      assert TokensOld(mqs[u], z.token) && StageOk(mqs[0], mqs[u], z, u);
    }
  }

  lemma ViewBlock(pcs: seq<Pc>, q: seq<Msg>, z: Zero, b: Id)
    requires ViewOk(pcs, q, z) && q != [] && q[0] == Block(b)
    ensures b !in z.view && b < |pcs|
    ensures ViewOk(pcs, q[1..], z.(blocked := z.blocked + 1, view := z.view + {b}))
  {
    assert ViewOf(q, z.view, b, pcs[b]);
    forall u | 0 <= u < |pcs| ensures ViewOf(q[1..], z.view + {b}, u, pcs[u]) {
      assert ViewOf(q, z.view, u, pcs[u]);
    }
  }

  /** When all count as blocked but not all are idle, some scheduler is about to
      say so, or has. */
  lemma FindBad(s: State, j: Id) returns (k: Id)
    requires Shape(s) && RunOk(s.pcs, s.runqs) && ViewOk(s.pcs, s.mqs[0], s.z) && s.z.view == Ids(|s.pcs|) && !Dead(s)
    requires forall i :: 0 <= i < |s.pcs| ==> Ack(i, s.z.token) !in s.mqs[0]
    requires s.z.ackers == {}
    ensures Bad(s.pcs, s.mqs[0], s.z, k)
  {
    if forall i :: 0 <= i < |s.pcs| ==> !s.pcs[i].SendUnblock? && Unblock(i) !in s.mqs[0] {
      forall i | 0 <= i < |s.pcs| ensures Idle(s.pcs[i]) && s.runqs[i] == [] {
        ReplayQuiet(s.mqs[0], i, true);
        assert ViewOf(s.mqs[0], s.z.view, i, s.pcs[i]);
      }
    }
    k :| k < |s.pcs| && (s.pcs[k].SendUnblock? || Unblock(k) in s.mqs[0]);
    if !s.pcs[k].SendUnblock? { UnblockFound(s.mqs[0], k, s.z.token); }
  }

  /** The invariant when no round is under way. */
  ghost predicate Base(s: State) {
    && Shape(s) && RunOk(s.pcs, s.runqs) && OnlyZero(s.pcs, s.mqs) && ViewOk(s.pcs, s.mqs[0], s.z)
    && TokenOk(s.pcs, s.mqs, s.z) && !s.z.round && StopOk(s)
    && (forall i :: 0 <= i < |s.pcs| && s.pcs[i].Broadcast? ==> s.pcs[i].k < |s.pcs|)
  }

  /** Starting a round with a token that is in no message. */
  lemma StartInv(s: State, prev: Option<Actor>, reading: bool)
    requires Base(s) && s.z.view == Ids(|s.pcs|)
    requires Idle(s.pcs[0]) && !s.pcs[0].Broadcast? && !s.pcs[0].Stopped?
    ensures Inv(StartRound(s, s.z, prev, reading))
  {
    var s' := StartRound(s, s.z, prev, reading);
    forall u | 0 <= u < |s.pcs| ensures ViewOf(s'.mqs[0], s'.z.view, u, s'.pcs[u]) {
      assert ViewOf(s.mqs[0], s.z.view, u, s.pcs[u]);
    }
    forall u | 0 <= u < |s.mqs| ensures TokensOld(s'.mqs[u], s'.z.token) && StageOk(s'.mqs[0], s'.mqs[u], s'.z, u) {
      assert TokensOld(s.mqs[u], s.z.token) && StageOk(s.mqs[0], s.mqs[u], s.z, u);
    }
    assert Unreached(s'.mqs, s'.z, 0) by {
      forall u | 0 <= u < |s.mqs| ensures Cnf(s.z.token) !in s.mqs[u] && Ack(u, s.z.token) !in s.mqs[0] {
        assert StageOk(s.mqs[0], s.mqs[u], s.z, u);
      }
    }
    DeadSame(s, s', 0);
    if !Dead(s) {
      var j := FindBad(s, 0);
      assert Bad(s'.pcs, s'.mqs[0], s'.z, j);
    }
  }

  /** Scheduler 0 has read a BLOCK message and counted it. */
  function Counted(s: State, b: Id): State
    requires |s.mqs| > 0 && s.mqs[0] != []
  {
    Popped(s, 0).(z := s.z.(blocked := s.z.blocked + 1, view := s.z.view + {b}))
  }

  lemma CountedBase(s: State, b: Id)
    requires Inv(s) && s.mqs[0] != [] && s.mqs[0][0] == Block(b)
    ensures Base(Counted(s, b))
  {
    var p, q := Popped(s, 0), Counted(s, b);
    ViewBlock(s.pcs, s.mqs[0], s.z, b);
    TokenPop(s.pcs, s.mqs, s.z, 0);
    TokenView(p.pcs, p.mqs, p.z, q.z);
    assert Dead(s) ==> Dead(q);
  }

  lemma BlockIs(s: State, c: Choice, b: Id)
    requires Enabled(s, 0, c) && s.pcs[0].Read? && s.mqs[0] != [] && s.mqs[0][0] == Block(b)
    ensures var q := Counted(s, b);
      Step(s, 0, c) == if c.flag && q.z.blocked == |s.pcs| then StartRound(q, q.z, s.pcs[0].prev, true) else q
  {
  }

  lemma BlockStep(s: State, c: Choice)
    requires Inv(s) && Enabled(s, 0, c) && s.pcs[0].Read? && s.mqs[0] != [] && s.mqs[0][0].Block?
    ensures Inv(Step(s, 0, c))
  {
    var b := s.mqs[0][0].sender;
    var q := Counted(s, b);
    CountedBase(s, b);
    BlockIs(s, c, b);
    if c.flag && q.z.blocked == |s.pcs| {
      AllIds(q.z.view, |s.pcs|);
      StartInv(q, s.pcs[0].prev, true);
    }
  }

  lemma ReadStep(s: State, i: Id, c: Choice)
    requires Inv(s) && Enabled(s, i, c) && s.pcs[i].Read? && s.mqs[i] != []
    ensures Inv(Step(s, i, c))
  {
    var m := s.mqs[i][0];
    if m.Cnf? {
      CnfStep(s, i, c);
    } else if m.Terminate? {
      TerminateStep(s, i, c);
    } else if m.Ack? {
      AckStep(s, i, c);
    } else if m.Block? {
      BlockStep(s, c);
    } else {
      UnblockStep(s, c);
    }
  }

  // ---------- Deciding ----------

  /** All acknowledgements of a round mean that all were idle when it was sent,
      and still are. */
  lemma AllAcked(s: State)
    requires Inv(s) && s.z.acks == |s.pcs|
    ensures Dead(s) && s.z.round && s.z.dead
  {
    AllIds(s.z.ackers, |s.pcs|);
    assert 0 in s.z.ackers;
  }

  /** The schedulers carry on looking for work, or one of them stops. */
  lemma GoOnStep(s: State, i: Id, c: Choice)
    requires Inv(s) && Enabled(s, i, c) && s.pcs[i].Decide?
    requires s.stop[i] || i != 0 || s.z.acks != |s.pcs| || (!s.z.asioStopped && !c.flag)
    ensures Inv(Step(s, i, c))
  {
    LocalInv(s, Step(s, i, c), i);
  }

  /** A new token after all have acknowledged the old one. */
  function Renewed(s: State, asio: bool): State {
    s.(z := s.z.(token := s.z.token + 1, acks := 0, ackers := {}, round := false, asioStopped := asio))
  }

  lemma RenewedBase(s: State, asio: bool)
    requires Inv(s) && s.z.acks == |s.pcs| && !s.pcs[0].Broadcast?
    ensures Base(Renewed(s, asio)) && Dead(Renewed(s, asio)) && s.z.view == Ids(|s.pcs|)
  {
    AllAcked(s);
    TokenNew(s.pcs, s.mqs, s.z);
    var z := s.z.(token := s.z.token + 1, acks := 0, ackers := {}, round := false);
    TokenView(s.pcs, s.mqs, z, Renewed(s, asio).z);
    assert Dead(Renewed(s, asio));
  }

  lemma AckedStep(s: State, c: Choice)
    requires Inv(s) && Enabled(s, 0, c) && s.pcs[0].Decide? && !s.stop[0] && s.z.acks == |s.pcs|
    requires s.z.asioStopped || c.flag
    ensures Inv(Step(s, 0, c))
  {
    var p := Renewed(s, true);
    RenewedBase(s, true);
    if s.z.asioStopped {
      TerminateInv(p, s.pcs[0].prev);
    } else {
      StartInv(p, s.pcs[0].prev, false);
    }
    AckedIs(s, c);
  }

  lemma AckedIs(s: State, c: Choice)
    requires Enabled(s, 0, c) && s.pcs[0].Decide? && !s.stop[0] && s.z.acks == |s.pcs| && (s.z.asioStopped || c.flag)
    ensures var p, prev := Renewed(s, true), s.pcs[0].prev;
      Step(s, 0, c)
      == if s.z.asioStopped then Goto(p, 0, Broadcast(prev, 0, Terminate, false)) else StartRound(p, p.z, prev, false)
  {
  }

  lemma DecideStep(s: State, i: Id, c: Choice)
    requires Inv(s) && Enabled(s, i, c) && s.pcs[i].Decide?
    ensures Inv(Step(s, i, c))
  {
    if s.stop[i] || i != 0 || s.z.acks != |s.pcs| || (!s.z.asioStopped && !c.flag) {
      GoOnStep(s, i, c);
    } else {
      AckedStep(s, c);
    }
  }

  lemma TerminateInv(s: State, prev: Option<Actor>)
    requires Base(s) && Dead(s)
    ensures Inv(Goto(s, 0, Broadcast(prev, 0, Terminate, false)))
  {
    var s' := Goto(s, 0, Broadcast(prev, 0, Terminate, false));
    forall u | 0 <= u < |s.pcs| ensures ViewOf(s'.mqs[0], s'.z.view, u, s'.pcs[u]) {
      assert ViewOf(s.mqs[0], s.z.view, u, s.pcs[u]);
    }
    assert Dead(s');
  }

  // ---------- Sending to all ----------

  lemma TokenCnf(pcs: seq<Pc>, mqs: seq<seq<Msg>>, z: Zero, k: Id, pc: Pc)
    requires TokenOk(pcs, mqs, z) && k < |mqs| && pcs[0].Broadcast? && pcs[0].k == k && pcs[0].msg == Cnf(z.token)
    requires !pc.Broadcast? || (pc.k == k + 1 && pc.msg == Cnf(z.token))
    ensures TokenOk(pcs[0 := pc], mqs[k := mqs[k] + [Cnf(z.token)]], z)
  {
    var m := Cnf(z.token);
    var mqs' := mqs[k := mqs[k] + [m]];
    forall u | 0 <= u < |mqs'| ensures TokensOld(mqs'[u], z.token) && StageOk(mqs'[0], mqs'[u], z, u) {
      assert TokensOld(mqs[u], z.token) && StageOk(mqs[0], mqs[u], z, u);
      if u == k { OnceAppend(mqs[u], m, m); }
      OnceAppend(mqs[0], m, Ack(u, z.token));
    }
  }

  lemma TokenTerminate(pcs: seq<Pc>, mqs: seq<seq<Msg>>, z: Zero, k: Id, pc: Pc)
    requires TokenOk(pcs, mqs, z) && k < |mqs| && (!pc.Broadcast? || pc.msg.Terminate?)
    ensures TokenOk(pcs[0 := pc], mqs[k := mqs[k] + [Terminate]], z)
  {
    var mqs' := mqs[k := mqs[k] + [Terminate]];
    forall u | 0 <= u < |mqs'| ensures TokensOld(mqs'[u], z.token) && StageOk(mqs'[0], mqs'[u], z, u) {
      assert TokensOld(mqs[u], z.token) && StageOk(mqs[0], mqs[u], z, u);
      OnceAppend(mqs[k], Terminate, Cnf(z.token));
      OnceAppend(mqs[0], Terminate, Ack(u, z.token));
    }
  }

  lemma SendView(pcs: seq<Pc>, mqs: seq<seq<Msg>>, z: Zero, k: Id, m: Msg, pc: Pc)
    requires k < |mqs| && |pcs| > 0 && ViewOk(pcs, mqs[0], z) && Idle(pcs[0]) && Idle(pc) && (m.Cnf? || m.Terminate?)
    ensures ViewOk(pcs[0 := pc], mqs[k := mqs[k] + [m]][0], z)
  {
    if k == 0 { ViewAck(pcs, mqs[0], z, m); }
    var pcs', q := pcs[0 := pc], mqs[k := mqs[k] + [m]][0];
    forall u | 0 <= u < |pcs'| ensures ViewOf(q, z.view, u, pcs'[u]) {
      assert ViewOf(q, z.view, u, pcs[u]);
    }
  }

  lemma SendRound(s: State, s': State, k: Id, m: Msg)
    requires RoundOk(s) && Shape(s') && k < |s.mqs| && (m.Cnf? || m.Terminate?) && Idle(s.pcs[0]) && Idle(s'.pcs[0])
    requires s' == s.(pcs := s.pcs[0 := s'.pcs[0]], mqs := s.mqs[k := s.mqs[k] + [m]])
    ensures RoundOk(s') && Dead(s') == Dead(s)
  {
    DeadSame(s, s', 0);
    if s.z.round && !s.z.dead {
      var j :| Bad(s.pcs, s.mqs[0], s.z, j);
      if k == 0 { BadAppend(s.pcs, s.mqs[0], s.z, j, m); }
      assert Bad(s'.pcs, s'.mqs[0], s'.z, j);
    }
  }

  /** The state after one message of a broadcast. */
  predicate Sent(s: State, s': State, k: Id, m: Msg) {
    && Shape(s) && Shape(s') && |s'.pcs| == |s.pcs| && k < |s.pcs| && (m.Cnf? || m.Terminate?)
    && s' == s.(pcs := s.pcs[0 := s'.pcs[0]], mqs := s.mqs[k := s.mqs[k] + [m]])
    && s.pcs[0].Broadcast? && Idle(s'.pcs[0])
    && (s'.pcs[0].Broadcast? ==> s'.pcs[0].k == k + 1 < |s.pcs| && s'.pcs[0].msg == m) && !s'.pcs[0].Stopped?
  }

  lemma BroadcastIs(s: State, c: Choice)
    requires Inv(s) && Enabled(s, 0, c) && s.pcs[0].Broadcast?
    ensures Sent(s, Step(s, 0, c), s.pcs[0].k, s.pcs[0].msg)
  {
  }

  lemma BroadcastToken(s: State, s': State, k: Id, m: Msg)
    requires Sent(s, s', k, m) && TokenOk(s.pcs, s.mqs, s.z) && s.pcs[0].k == k && s.pcs[0].msg == m
    ensures TokenOk(s'.pcs, s'.mqs, s'.z)
  {
    if m.Terminate? {
      TokenTerminate(s.pcs, s.mqs, s.z, k, s'.pcs[0]);
    } else {
      TokenCnf(s.pcs, s.mqs, s.z, k, s'.pcs[0]);
    }
  }

  /** A TERMINATE is sent on only when all are idle. */
  lemma SendStop(s: State, s': State, k: Id, m: Msg)
    requires Sent(s, s', k, m) && StopOk(s) && Dead(s') == Dead(s) && s.pcs[0].msg == m
    ensures StopOk(s')
  {
  }

  lemma BroadcastStep(s: State, i: Id, c: Choice)
    requires Inv(s) && Enabled(s, i, c) && s.pcs[i].Broadcast?
    ensures Inv(Step(s, i, c))
  {
    assert i == 0;
    var k, m, s' := s.pcs[0].k, s.pcs[0].msg, Step(s, 0, c);
    BroadcastIs(s, c);
    BroadcastToken(s, s', k, m);
    SendView(s.pcs, s.mqs, s.z, k, m, s'.pcs[0]);
    SendRound(s, s', k, m);
    SendStop(s, s', k, m);
  }

  // ---------- Runs ----------

  lemma StepInv(s: State, i: Id, c: Choice)
    requires Inv(s) && Enabled(s, i, c)
    ensures Inv(Step(s, i, c))
  {
    var pc := s.pcs[i];
    if pc.Read? && s.mqs[i] != [] {
      ReadStep(s, i, c);
    } else if pc.SendBlock? || pc.SendUnblock? {
      TellStep(s, i, c);
    } else if pc.Decide? {
      DecideStep(s, i, c);
    } else if pc.Broadcast? {
      BroadcastStep(s, i, c);
    } else if pc.Running? || pc.PopNext? || pc.PushBack? {
      WorkStep(s, i, c);
    } else {
      SeekStep(s, i, c);
    }
  }

  lemma InitInv(s: State)
    requires Init(s)
    ensures Inv(s)
  {
    assert !Idle(s.pcs[0]);
    forall i | 0 <= i < |s.pcs| ensures ViewOf(s.mqs[0], {}, i, s.pcs[i]) {
    }
    forall i | 0 <= i < |s.mqs| ensures TokensOld(s.mqs[i], 0) && StageOk(s.mqs[0], s.mqs[i], s.z, i) {
    }
  }

  ghost predicate Run(states: seq<State>, ids: seq<Id>, choices: seq<Choice>) {
    && |states| == |ids| + 1 && |choices| == |ids| && Init(states[0])
    && forall k :: 0 <= k < |ids| ==> Enabled(states[k], ids[k], choices[k])
                                      && states[k + 1] == Step(states[k], ids[k], choices[k])
  }

  lemma RunStep(states: seq<State>, ids: seq<Id>, choices: seq<Choice>, k: nat)
    requires Run(states, ids, choices) && k < |ids|
    ensures Enabled(states[k], ids[k], choices[k]) && states[k + 1] == Step(states[k], ids[k], choices[k])
  {
  }

  lemma {:induction false} RunInv(states: seq<State>, ids: seq<Id>, choices: seq<Choice>, k: nat)
    requires Run(states, ids, choices) && k < |states|
    ensures Inv(states[k])
  {
    if k == 0 {
      InitInv(states[0]);
    } else {
      RunInv(states, ids, choices, k - 1);
      RunStep(states, ids, choices, k - 1);
      StepInv(states[k - 1], ids[k - 1], choices[k - 1]);
    }
  }

  /** Scheduler 0 starts to send TERMINATE only when all schedulers are idle with
      empty run queues, and were when the round was sent that they have just
      acknowledged. */
  lemma TerminateWhenDead(states: seq<State>, ids: seq<Id>, choices: seq<Choice>, k: nat)
    requires Run(states, ids, choices) && k < |ids| && ids[k] == 0
    requires |states[k].pcs| > 0 && states[k].pcs[0].Decide? && states[k + 1].pcs != []
    requires states[k + 1].pcs[0].Broadcast? && states[k + 1].pcs[0].msg.Terminate?
    ensures Dead(states[k]) && states[k].z.round && states[k].z.dead
  {
    RunInv(states, ids, choices, k);
    assert states[k + 1] == Step(states[k], ids[k], choices[k]);
    AllAcked(states[k]);
  }

  /** A scheduler that stops leaves no work behind: all run queues are empty and
      no scheduler has an actor. */
  lemma StoppedWhenDead(states: seq<State>, ids: seq<Id>, choices: seq<Choice>, k: nat, i: Id)
    requires Run(states, ids, choices) && k < |states| && i < |states[k].pcs| && states[k].pcs[i].Stopped?
    ensures Dead(states[k])
  {
    RunInv(states, ids, choices, k);
  }

  /** A step that counts an acknowledgement. */
  lemma CountedOnce(s: State, i: Id, c: Choice)
    requires Inv(s) && Enabled(s, i, c) && Step(s, i, c).z.acks > s.z.acks
    ensures s.mqs[0] != [] && s.mqs[0][0].Ack? && s.mqs[0][0].token == s.z.token == Step(s, i, c).z.token
    ensures s.mqs[0][0].sender !in s.z.ackers
  {
    OnlyReadCounts(s, i, c);
    TokenPop(s.pcs, s.mqs, s.z, i);
  }

  lemma OnlyReadCounts(s: State, i: Id, c: Choice)
    requires Enabled(s, i, c) && Step(s, i, c).z.acks > s.z.acks
    ensures i == 0 && s.mqs[0] != [] && s.mqs[0][0].Ack? && s.mqs[0][0].token == s.z.token == Step(s, i, c).z.token
  {
  }

  /** The acknowledgements that count are those of different schedulers for the
      current token: an ACK with an older token never counts, and nobody is
      counted twice. */
  lemma AcksCount(states: seq<State>, ids: seq<Id>, choices: seq<Choice>, k: nat)
    requires Run(states, ids, choices) && k < |ids|
    ensures var s, s' := states[k], states[k + 1];
      && s.z.acks == |s.z.ackers| && s.z.ackers <= Ids(|s.pcs|) && s.mqs != []
      && (s'.z.acks > s.z.acks ==>
            && s.mqs[0] != [] && s.mqs[0][0].Ack? && s.mqs[0][0].token == s.z.token == s'.z.token
            && s.mqs[0][0].sender !in s.z.ackers)
  {
    RunInv(states, ids, choices, k);
    RunStep(states, ids, choices, k);
    if states[k + 1].z.acks > states[k].z.acks { CountedOnce(states[k], ids[k], choices[k]); }
  }
}
