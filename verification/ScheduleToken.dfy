/** The message queue of an actor and the right to run it: senders that find the
    tag bit of head set add the actor to a run queue, and a scheduler that runs it
    sets the bit again when it has emptied the queue. Message nodes are used
    again; every access of shared memory is one step. The actor is never
    unscheduled by itself. */
module ScheduleToken {

  import opened Basics

  type Addr = nat
  type Tid = nat

  /** What a node is used for: nothing, a message that is not in the queue yet,
      or the message at a place of the queue. */
  datatype Role = Free | Private(t: Tid) | At(i: nat)

  /** The message that the i-th exchange of head brought in; place 0 is the first
      stub. */
  datatype Place = Place(node: Addr, sender: Tid, linked: bool, freed: bool)

  /** Who has the right to run the actor: nobody, when the tag bit is set, the
      run queue that it is in, or the thread that is about to add it to one or is
      running it. */
  datatype Token = Nobody | InRunQueue | With(t: Tid)

  /** `next` are the next fields of the nodes, `head` and `tag` the tagged head
      pointer, `tail` the consumer's end, `runs` how often the actor is in a run
      queue. `at` is the place of the tail, `places` the history of the queue. */
  datatype Actor = Actor(next: map<Addr, Option<Addr>>, role: map<Addr, Role>, head: Addr, tag: bool, tail: Addr,
                         runs: nat, places: seq<Place>, at: nat, token: Token)

  /** The statement that a thread executes next, with its local variables.
      `worked` says that an application message was handled in this run. */
  datatype Pc =
    | Idle
    | Exchange(n: Addr)
    | LinkIn(prev: Addr, n: Addr, i: nat, wasEmpty: bool)
    | Add
    | Pop(worked: bool)
    | Advance(worked: bool, next: Addr)
    | FreeOld(worked: bool, was: Addr)
    | MarkLoad
    | MarkCas
    | Reschedule

  datatype State = State(a: Actor, pcs: seq<Pc>)

  /** A send with a node from the pool, a scheduler that takes the actor from a
      run queue, or the next statement of a thread; `app` says that the message is
      an application message, `stop` that the batch is full or that the actor goes
      back to a run queue. */
  datatype Choice = Send(n: Addr) | Take | Go(app: bool, stop: bool)

  function NextOf(next: map<Addr, Option<Addr>>, a: Addr): Option<Addr> {
    if a in next then next[a] else None
  }

  function RoleOf(role: map<Addr, Role>, a: Addr): Role {
    if a in role then role[a] else Free
  }

  const NOWHERE := Place(0, 0, true, true)

  function PlaceAt(places: seq<Place>, i: nat): Place {
    if i < |places| then places[i] else NOWHERE
  }

  function SetPlace(places: seq<Place>, i: nat, p: Place): seq<Place> {
    if i < |places| then places[i := p] else places
  }

  predicate Enabled(s: State, t: Tid, c: Choice) {
    && t < |s.pcs|
    && match c
       case Send(n) => s.pcs[t].Idle? && RoleOf(s.a.role, n) == Free
       case Take => s.pcs[t].Idle? && s.a.runs > 0
       case Go(_, _) => !s.pcs[t].Idle?
  }

  /** The node that a statement reads, writes or frees is the node of the message
      that the thread means, not one that was freed, nor one that was freed and is
      used for another message. */
  predicate Safe(a: Actor, t: Tid, pc: Pc) {
    match pc
    case Exchange(n) => RoleOf(a.role, n) == Private(t)
    case LinkIn(prev, n, i, _) => i > 0 && RoleOf(a.role, prev) == At(i - 1) && RoleOf(a.role, n) == At(i)
    case Pop(_) => RoleOf(a.role, a.tail) == At(a.at)
    case Advance(_, next) => RoleOf(a.role, next) == At(a.at + 1)
    case FreeOld(_, was) => a.at > 0 && RoleOf(a.role, was) == At(a.at - 1) && !PlaceAt(a.places, a.at - 1).freed
    case _ => true
  }

  function Exchanged(a: Actor, t: Tid, n: Addr): Actor {
    a.(head := n, tag := false, role := a.role[n := At(|a.places|)], places := a.places + [Place(n, t, false, false)],
       token := if a.tag then With(t) else a.token)
  }

  function Linked(a: Actor, prev: Addr, n: Addr, i: nat): Actor {
    a.(next := a.next[prev := Some(n)], places := SetPlace(a.places, i, PlaceAt(a.places, i).(linked := true)))
  }

  function Freed(a: Actor, was: Addr): Actor {
    if a.at == 0 then a
    else a.(role := a.role[was := Free], places := SetPlace(a.places, a.at - 1, PlaceAt(a.places, a.at - 1).(freed := true)))
  }

  /** The actor and the next statement after a statement of thread `t`. */
  function Act(a: Actor, t: Tid, pc: Pc, app: bool, stop: bool): (Actor, Pc) {
    match pc
    case Idle => (a, pc)
    case Exchange(n) => (Exchanged(a, t, n), LinkIn(a.head, n, |a.places|, a.tag))
    case LinkIn(prev, n, i, wasEmpty) => (Linked(a, prev, n, i), if wasEmpty then Add else Idle)
    case Add => (a.(runs := a.runs + 1, token := InRunQueue), Idle)
    case Pop(worked) =>
      (a, match NextOf(a.next, a.tail)
          case Some(next) => Advance(worked, next)
          case None => if worked then Reschedule else MarkLoad)
    case Advance(worked, next) => (a.(tail := next, at := a.at + 1), FreeOld(worked, a.tail))
    case FreeOld(worked, was) => (Freed(a, was), if app && stop then Reschedule else Pop(worked || app))
    case MarkLoad => (a, if a.tag then Idle else if a.head != a.tail then Reschedule else MarkCas)
    case MarkCas =>
      if a.head == a.tail && !a.tag then (a.(tag := true, token := Nobody), Idle) else (a, Reschedule)
    case Reschedule =>
      if stop then (a.(runs := a.runs + 1, token := InRunQueue), Idle) else (a, Pop(false))
  }

  function Step(s: State, t: Tid, c: Choice): State
    requires Enabled(s, t, c)
  {
    match c
    case Send(n) =>
      State(s.a.(next := s.a.next[n := None], role := s.a.role[n := Private(t)]), s.pcs[t := Exchange(n)])
    case Take => State(s.a.(runs := s.a.runs - 1, token := With(t)), s.pcs[t := Pop(false)])
    case Go(app, stop) =>
      var (a, pc) := Act(s.a, t, s.pcs[t], app, stop);
      State(a, s.pcs[t := pc])
  }

  /** A step that is not safe may lead anywhere. */
  ghost predicate Next(s: State, t: Tid, c: Choice, s': State) {
    Enabled(s, t, c) && ((c.Go? ==> Safe(s.a, t, s.pcs[t])) ==> s' == Step(s, t, c))
  }

  predicate Init(s: State) {
    && s.a == Actor(map[s.a.head := None], map[s.a.head := At(0)], s.a.head, true, s.a.head,
                    0, [Place(s.a.head, 0, true, false)], 0, Nobody)
    && (forall t :: 0 <= t < |s.pcs| ==> s.pcs[t] == Idle)
  }

  // ---------- Invariant ----------

  predicate LinkOk(next: map<Addr, Option<Addr>>, places: seq<Place>, i: nat) {
    !PlaceAt(places, i).freed ==>
      NextOf(next, PlaceAt(places, i).node)
      == if i + 1 < |places| && PlaceAt(places, i + 1).linked then Some(PlaceAt(places, i + 1).node) else None
  }

  ghost predicate ActorOk(a: Actor) {
    && a.at < |a.places| && a.head == PlaceAt(a.places, |a.places| - 1).node && a.tail == PlaceAt(a.places, a.at).node
    && (forall i: nat {:trigger PlaceAt(a.places, i)} :: i < |a.places| ==>
          var p := PlaceAt(a.places, i);
          (p.freed || RoleOf(a.role, p.node) == At(i)) && (i <= a.at ==> p.linked) && (i >= a.at ==> !p.freed))
    && (forall i: nat {:trigger LinkOk(a.next, a.places, i)} :: i < |a.places| ==> LinkOk(a.next, a.places, i))
    && (forall n {:trigger RoleOf(a.role, n)} :: RoleOf(a.role, n).At? ==>
          var i := RoleOf(a.role, n).i;
          i < |a.places| && PlaceAt(a.places, i).node == n && !PlaceAt(a.places, i).freed)
    && (a.tag <==> a.token == Nobody) && (a.tag ==> a.at + 1 == |a.places|)
    && a.runs == if a.token == InRunQueue then 1 else 0
  }

  /** The thread is running the actor. */
  predicate Runs(pc: Pc) {
    pc.Pop? || pc.Advance? || pc.FreeOld? || pc.MarkLoad? || pc.MarkCas? || pc.Reschedule?
  }

  /** The thread has the right to run the actor. */
  predicate Holds(pc: Pc) {
    Runs(pc) || pc.Add? || (pc.LinkIn? && pc.wasEmpty)
  }

  predicate ThreadOk(a: Actor, t: Tid, pc: Pc) {
    && (Holds(pc) <==> a.token == With(t))
    && match pc
       case Exchange(n) => RoleOf(a.role, n) == Private(t) && NextOf(a.next, n) == None
       case LinkIn(prev, n, i, _) =>
         && 0 < i < |a.places| && !PlaceAt(a.places, i).linked && PlaceAt(a.places, i).sender == t
         && PlaceAt(a.places, i).node == n && PlaceAt(a.places, i - 1).node == prev
       case Advance(_, next) =>
         a.at + 1 < |a.places| && PlaceAt(a.places, a.at + 1).linked && PlaceAt(a.places, a.at + 1).node == next
       case FreeOld(_, was) => a.at > 0 && !PlaceAt(a.places, a.at - 1).freed && PlaceAt(a.places, a.at - 1).node == was
       case _ => true
  }

  /** What the other threads rely on. */
  ghost predicate Guarantee(a: Actor, a': Actor, t: Tid) {
    && |a.places| <= |a'.places|
    && (forall i: nat {:trigger PlaceAt(a'.places, i)} :: i < |a.places| ==>
          var p, p' := PlaceAt(a.places, i), PlaceAt(a'.places, i);
          && p'.node == p.node && p'.sender == p.sender && (p.linked ==> p'.linked) && (p.freed ==> p'.freed)
          && (p.sender != t ==> p'.linked == p.linked) && (a.token != With(t) ==> p'.freed == p.freed))
    && (forall n {:trigger RoleOf(a'.role, n)} {:trigger NextOf(a'.next, n)} ::
          RoleOf(a.role, n).Private? && RoleOf(a.role, n).t != t ==>
          RoleOf(a'.role, n) == RoleOf(a.role, n) && NextOf(a'.next, n) == NextOf(a.next, n))
    && (a.token != With(t) ==> a'.at == a.at)
    && (forall u: Tid {:trigger With(u)} :: u != t ==> (a'.token == With(u) <==> a.token == With(u)))
  }

  lemma RelyOk(a: Actor, a': Actor, t: Tid, u: Tid, pc: Pc)
    requires ThreadOk(a, u, pc) && Guarantee(a, a', t) && t != u
    ensures ThreadOk(a', u, pc)
  {
    assert With(u) != With(t);
  }

  lemma EnabledIsSafe(a: Actor, t: Tid, pc: Pc)
    requires ActorOk(a) && ThreadOk(a, t, pc)
    ensures Safe(a, t, pc)
  {
  }

  // ---------- Changes of the actor ----------

  lemma SetPlaceAt(places: seq<Place>, i: nat, p: Place)
    requires i < |places|
    ensures |SetPlace(places, i, p)| == |places|
    ensures forall j: nat {:trigger PlaceAt(SetPlace(places, i, p), j)} ::
      PlaceAt(SetPlace(places, i, p), j) == if j == i then p else PlaceAt(places, j)
  {
  }

  lemma ExchangedOk(a: Actor, t: Tid, n: Addr)
    requires ActorOk(a) && RoleOf(a.role, n) == Private(t) && NextOf(a.next, n) == None
    ensures ActorOk(Exchanged(a, t, n)) && Guarantee(a, Exchanged(a, t, n), t)
  {
    var a' := Exchanged(a, t, n);
    var k := |a.places|;
    assert forall i: nat {:trigger PlaceAt(a'.places, i)} :: i != k ==> PlaceAt(a'.places, i) == PlaceAt(a.places, i);
    assert forall m {:trigger RoleOf(a'.role, m)} :: m != n ==> RoleOf(a'.role, m) == RoleOf(a.role, m);
    forall i: nat {:trigger LinkOk(a'.next, a'.places, i)} | i < |a'.places| ensures LinkOk(a'.next, a'.places, i) {
      assert i < k ==> LinkOk(a.next, a.places, i);
    }
  }

  lemma LinkedOk(a: Actor, t: Tid, pc: Pc)
    requires ActorOk(a) && ThreadOk(a, t, pc) && pc.LinkIn?
    ensures ActorOk(Linked(a, pc.prev, pc.n, pc.i)) && Guarantee(a, Linked(a, pc.prev, pc.n, pc.i), t)
  {
    var a' := Linked(a, pc.prev, pc.n, pc.i);
    SetPlaceAt(a.places, pc.i, PlaceAt(a.places, pc.i).(linked := true));
    assert !PlaceAt(a.places, pc.i - 1).freed;
    assert forall m {:trigger NextOf(a'.next, m)} :: m != pc.prev ==> NextOf(a'.next, m) == NextOf(a.next, m);
    forall j: nat {:trigger LinkOk(a'.next, a'.places, j)} | j < |a'.places| ensures LinkOk(a'.next, a'.places, j) {
      assert LinkOk(a.next, a.places, j);
      if j != pc.i - 1 && !PlaceAt(a.places, j).freed { assert PlaceAt(a.places, j).node != pc.prev; }
    }
  }

  lemma FreedOk(a: Actor, t: Tid, pc: Pc)
    requires ActorOk(a) && ThreadOk(a, t, pc) && pc.FreeOld?
    ensures ActorOk(Freed(a, pc.was)) && Guarantee(a, Freed(a, pc.was), t)
  {
    var a' := Freed(a, pc.was);
    SetPlaceAt(a.places, a.at - 1, PlaceAt(a.places, a.at - 1).(freed := true));
    assert forall m {:trigger RoleOf(a'.role, m)} :: m != pc.was ==> RoleOf(a'.role, m) == RoleOf(a.role, m);
    forall j: nat {:trigger LinkOk(a'.next, a'.places, j)} | j < |a'.places| ensures LinkOk(a'.next, a'.places, j) {
      assert LinkOk(a.next, a.places, j);
    }
  }

  lemma AllocOk(a: Actor, t: Tid, n: Addr)
    requires ActorOk(a) && RoleOf(a.role, n) == Free
    ensures var a' := a.(next := a.next[n := None], role := a.role[n := Private(t)]); ActorOk(a') && Guarantee(a, a', t)
  {
    var a' := a.(next := a.next[n := None], role := a.role[n := Private(t)]);
    assert forall m {:trigger NextOf(a'.next, m)} :: m != n ==> NextOf(a'.next, m) == NextOf(a.next, m);
    assert forall m {:trigger RoleOf(a'.role, m)} :: m != n ==> RoleOf(a'.role, m) == RoleOf(a.role, m);
    forall j: nat {:trigger LinkOk(a'.next, a'.places, j)} | j < |a'.places| ensures LinkOk(a'.next, a'.places, j) {
      assert LinkOk(a.next, a.places, j);
    }
  }

  /** Moving the tail, the tag and the token leaves the nodes alone. */
  lemma MovedOk(a: Actor, a': Actor, t: Tid)
    requires ActorOk(a) && a' == a.(tag := a'.tag, tail := a'.tail, at := a'.at, runs := a'.runs, token := a'.token)
    requires a.token == With(t) || a' == a || (a.token == InRunQueue && a'.token == With(t) && a'.at == a.at)
    requires forall u: Tid {:trigger With(u)} :: u != t ==> a'.token != With(u) || a' == a
    requires a.at <= a'.at < |a.places| && a'.tail == PlaceAt(a.places, a'.at).node
    requires forall i: nat {:trigger PlaceAt(a.places, i)} :: i <= a'.at ==> PlaceAt(a.places, i).linked
    requires (a'.tag <==> a'.token == Nobody) && (a'.tag ==> a'.at + 1 == |a.places|)
    requires a'.runs == if a'.token == InRunQueue then 1 else 0
    ensures ActorOk(a') && Guarantee(a, a', t)
  {
    forall j: nat {:trigger LinkOk(a'.next, a'.places, j)} | j < |a'.places| ensures LinkOk(a'.next, a'.places, j) {
      assert LinkOk(a.next, a.places, j);
    }
  }

  // ---------- Steps ----------

  lemma SendStep(a: Actor, t: Tid, pc: Pc, app: bool, stop: bool)
    requires ActorOk(a) && ThreadOk(a, t, pc) && (pc.Exchange? || pc.LinkIn? || pc.Add?)
    ensures var (a', pc') := Act(a, t, pc, app, stop); ActorOk(a') && Guarantee(a, a', t) && ThreadOk(a', t, pc')
  {
    var (a', pc') := Act(a, t, pc, app, stop);
    if pc.Exchange? {
      ExchangedOk(a, t, pc.n);
      var k := |a.places|;
      assert PlaceAt(a'.places, k - 1) == PlaceAt(a.places, k - 1);
    } else if pc.LinkIn? {
      LinkedOk(a, t, pc);
    } else {
      MovedOk(a, a', t);
    }
  }

  lemma PopStep(a: Actor, t: Tid, pc: Pc, app: bool, stop: bool)
    requires ActorOk(a) && ThreadOk(a, t, pc) && (pc.Pop? || pc.Advance? || pc.FreeOld?)
    ensures var (a', pc') := Act(a, t, pc, app, stop); ActorOk(a') && Guarantee(a, a', t) && ThreadOk(a', t, pc')
  {
    var (a', pc') := Act(a, t, pc, app, stop);
    if pc.FreeOld? {
      FreedOk(a, t, pc);
    } else {
      if pc.Pop? { assert LinkOk(a.next, a.places, a.at); }
      MovedOk(a, a', t);
    }
  }

  /** A successful CAS of markempty finds every message that was ever pushed
      consumed. */
  lemma HeadIsTail(a: Actor)
    requires ActorOk(a) && a.head == a.tail
    ensures a.at + 1 == |a.places|
  {
  }

  lemma MarkStep(a: Actor, t: Tid, pc: Pc, app: bool, stop: bool)
    requires ActorOk(a) && ThreadOk(a, t, pc) && (pc.MarkLoad? || pc.MarkCas? || pc.Reschedule?)
    ensures var (a', pc') := Act(a, t, pc, app, stop); ActorOk(a') && Guarantee(a, a', t) && ThreadOk(a', t, pc')
  {
    var (a', pc') := Act(a, t, pc, app, stop);
    if a.head == a.tail { HeadIsTail(a); }
    MovedOk(a, a', t);
  }

  lemma ActOk(a: Actor, t: Tid, pc: Pc, app: bool, stop: bool)
    requires ActorOk(a) && ThreadOk(a, t, pc) && !pc.Idle?
    ensures var (a', pc') := Act(a, t, pc, app, stop); ActorOk(a') && Guarantee(a, a', t) && ThreadOk(a', t, pc')
  {
    if pc.Exchange? || pc.LinkIn? || pc.Add? {
      SendStep(a, t, pc, app, stop);
    } else if pc.Pop? || pc.Advance? || pc.FreeOld? {
      PopStep(a, t, pc, app, stop);
    } else {
      MarkStep(a, t, pc, app, stop);
    }
  }

  ghost predicate Inv(s: State) {
    && ActorOk(s.a) && (s.a.token.With? ==> s.a.token.t < |s.pcs|)
    && forall t :: 0 <= t < |s.pcs| ==> ThreadOk(s.a, t, s.pcs[t])
  }

  lemma StepActor(s: State, t: Tid, c: Choice)
    requires Enabled(s, t, c) && ActorOk(s.a) && ThreadOk(s.a, t, s.pcs[t])
    ensures var s' := Step(s, t, c);
      && ActorOk(s'.a) && Guarantee(s.a, s'.a, t) && ThreadOk(s'.a, t, s'.pcs[t]) && |s'.pcs| == |s.pcs|
      && forall u :: 0 <= u < |s.pcs| && u != t ==> s'.pcs[u] == s.pcs[u]
  {
    match c
    case Send(n) => AllocOk(s.a, t, n);
    case Take => MovedOk(s.a, Step(s, t, c).a, t);
    case Go(app, stop) => ActOk(s.a, t, s.pcs[t], app, stop);
  }

  lemma StepInv(s: State, t: Tid, c: Choice)
    requires Inv(s) && Enabled(s, t, c)
    ensures Inv(Step(s, t, c))
  {
    StepActor(s, t, c);
    var s' := Step(s, t, c);
    forall u | 0 <= u < |s'.pcs| ensures ThreadOk(s'.a, u, s'.pcs[u]) {
      if u != t { RelyOk(s.a, s'.a, t, u, s.pcs[u]); }
    }
    if s'.a.token.With? { assert With(s'.a.token.t) == s'.a.token; }
  }

  // ---------- Runs ----------

  lemma InitInv(s: State)
    requires Init(s)
    ensures Inv(s)
  {
    assert LinkOk(s.a.next, s.a.places, 0);
  }

  ghost predicate Run(states: seq<State>, tids: seq<Tid>, choices: seq<Choice>) {
    && |states| == |tids| + 1 && |choices| == |tids| && Init(states[0])
    && forall i :: 0 <= i < |tids| ==> Next(states[i], tids[i], choices[i], states[i + 1])
  }

  lemma RunStep(states: seq<State>, tids: seq<Tid>, choices: seq<Choice>, i: nat)
    requires Run(states, tids, choices) && i < |tids| && Inv(states[i])
    ensures Enabled(states[i], tids[i], choices[i]) && states[i + 1] == Step(states[i], tids[i], choices[i])
  {
    assert Next(states[i], tids[i], choices[i], states[i + 1]);
    EnabledIsSafe(states[i].a, tids[i], states[i].pcs[tids[i]]);
  }

  lemma {:induction false} RunInv(states: seq<State>, tids: seq<Tid>, choices: seq<Choice>, i: nat)
    requires Run(states, tids, choices) && i < |states|
    ensures Inv(states[i])
  {
    if i == 0 {
      InitInv(states[0]);
    } else {
      RunInv(states, tids, choices, i - 1);
      RunStep(states, tids, choices, i - 1);
      StepInv(states[i - 1], tids[i - 1], choices[i - 1]);
    }
  }

  /** Every statement of every run is safe: it meets the node of the message that
      it means, and frees it once. */
  lemma NoUseAfterFree(states: seq<State>, tids: seq<Tid>, choices: seq<Choice>, i: nat)
    requires Run(states, tids, choices) && i < |tids|
    ensures tids[i] < |states[i].pcs| && Safe(states[i].a, tids[i], states[i].pcs[tids[i]])
  {
    RunInv(states, tids, choices, i);
    RunStep(states, tids, choices, i);
    EnabledIsSafe(states[i].a, tids[i], states[i].pcs[tids[i]]);
  }

  lemma {:induction false} FreedStays(states: seq<State>, tids: seq<Tid>, choices: seq<Choice>, i: nat, j: nat, k: nat)
    requires Run(states, tids, choices) && i <= j < |states| && k < |states[i].a.places| && PlaceAt(states[i].a.places, k).freed
    ensures k < |states[j].a.places| && PlaceAt(states[j].a.places, k).freed
    decreases j
  {
    if i < j {
      FreedStays(states, tids, choices, i, j - 1, k);
      RunInv(states, tids, choices, j - 1);
      RunStep(states, tids, choices, j - 1);
      StepActor(states[j - 1], tids[j - 1], choices[j - 1]);
    }
  }

  /** A node goes back to the pool by a step of the thread that runs the actor,
      when its message was consumed and the tail has moved past it, and the message
      is freed once. */
  lemma FreedOnce(states: seq<State>, tids: seq<Tid>, choices: seq<Choice>, i: nat, n: Addr, j: nat)
    requires Run(states, tids, choices) && i < |tids| && i < j < |states|
    requires RoleOf(states[i].a.role, n) != Free && RoleOf(states[i + 1].a.role, n) == Free
    ensures states[i].a.token == With(tids[i]) && states[i].a.at > 0 && RoleOf(states[i].a.role, n) == At(states[i].a.at - 1)
    ensures !PlaceAt(states[i].a.places, states[i].a.at - 1).freed && PlaceAt(states[j].a.places, states[i].a.at - 1).freed
  {
    RunInv(states, tids, choices, i);
    RunStep(states, tids, choices, i);
    var a, pc := states[i].a, states[i].pcs[tids[i]];
    assert choices[i].Go? && pc.FreeOld? && pc.was == n;
    assert ThreadOk(a, tids[i], pc);
    SetPlaceAt(a.places, a.at - 1, PlaceAt(a.places, a.at - 1).(freed := true));
    FreedStays(states, tids, choices, i + 1, j, a.at - 1);
  }

  /** When the tag bit is set, the actor is in no run queue and no thread runs it
      or is about to add it, and every message was consumed. */
  lemma TaggedIsIdle(states: seq<State>, tids: seq<Tid>, choices: seq<Choice>, i: nat)
    requires Run(states, tids, choices) && i < |states| && states[i].a.tag
    ensures states[i].a.runs == 0 && states[i].a.at + 1 == |states[i].a.places|
    ensures forall t :: 0 <= t < |states[i].pcs| ==> !Holds(states[i].pcs[t])
  {
    RunInv(states, tids, choices, i);
    forall t | 0 <= t < |states[i].pcs| ensures !Holds(states[i].pcs[t]) {
      assert ThreadOk(states[i].a, t, states[i].pcs[t]);
    }
  }

  /** When the tag bit is not set, there is exactly one right to run the actor:
      it is in one run queue once and with no thread, or with one thread and in no
      run queue. */
  lemma OneToken(states: seq<State>, tids: seq<Tid>, choices: seq<Choice>, i: nat)
    requires Run(states, tids, choices) && i < |states| && !states[i].a.tag
    ensures var a, pcs := states[i].a, states[i].pcs;
      if a.runs == 0 then
        exists t :: 0 <= t < |pcs| && Holds(pcs[t]) && forall u :: 0 <= u < |pcs| && u != t ==> !Holds(pcs[u])
      else a.runs == 1 && forall u :: 0 <= u < |pcs| ==> !Holds(pcs[u])
  {
    RunInv(states, tids, choices, i);
    var a, pcs := states[i].a, states[i].pcs;
    forall u | 0 <= u < |pcs| ensures Holds(pcs[u]) <==> a.token == With(u) {
      assert ThreadOk(a, u, pcs[u]);
    }
    if a.runs == 0 { assert Holds(pcs[a.token.t]); }
  }

  // ---------- Sends and runs that end ----------

  lemma AfterStep(states: seq<State>, tids: seq<Tid>, choices: seq<Choice>, i: nat)
    requires Run(states, tids, choices) && i < |tids|
    ensures Enabled(states[i], tids[i], choices[i]) && states[i + 1] == Step(states[i], tids[i], choices[i])
  {
    RunInv(states, tids, choices, i);
    RunStep(states, tids, choices, i);
  }

  /** The thread is between its exchange of head, which brought in place `k`, and
      its store to next. */
  predicate Linking(s: State, t: Tid, k: nat) {
    t < |s.pcs| && s.pcs[t].LinkIn? && s.pcs[t].i == k
  }

  lemma StepUnlinked(s: State, t: Tid, c: Choice, k: nat)
    requires Enabled(s, t, c) && k < |Step(s, t, c).a.places| && !PlaceAt(Step(s, t, c).a.places, k).linked
    requires k < |s.a.places| && !PlaceAt(s.a.places, k).linked ==> Linking(s, PlaceAt(s.a.places, k).sender, k)
    ensures Linking(Step(s, t, c), PlaceAt(Step(s, t, c).a.places, k).sender, k)
  {
  }

  /** A message that is not linked in has its sender at the store that links it in:
      no push ends without it. */
  lemma {:induction false} Unlinked(states: seq<State>, tids: seq<Tid>, choices: seq<Choice>, j: nat, k: nat)
    requires Run(states, tids, choices) && j < |states|
    requires k < |states[j].a.places| && !PlaceAt(states[j].a.places, k).linked
    ensures Linking(states[j], PlaceAt(states[j].a.places, k).sender, k)
  {
    if j > 0 {
      AfterStep(states, tids, choices, j - 1);
      var s := states[j - 1];
      if k < |s.a.places| && !PlaceAt(s.a.places, k).linked { Unlinked(states, tids, choices, j - 1, k); }
      StepUnlinked(s, tids[j - 1], choices[j - 1], k);
    }
  }

  /** When no push is between its exchange and its store, messageq_pop finds a
      message if and only if not every message was consumed. */
  lemma NullIsEmpty(states: seq<State>, tids: seq<Tid>, choices: seq<Choice>, i: nat)
    requires Run(states, tids, choices) && i < |tids| && choices[i].Go? && tids[i] < |states[i].pcs|
    requires states[i].pcs[tids[i]].Pop? && forall u: Tid :: u < |states[i].pcs| ==> !states[i].pcs[u].LinkIn?
    ensures |states[i + 1].pcs| == |states[i].pcs|
    ensures states[i + 1].pcs[tids[i]].Advance? <==> states[i].a.at + 1 < |states[i].a.places|
  {
    AfterStep(states, tids, choices, i);
    RunInv(states, tids, choices, i);
    var a := states[i].a;
    assert LinkOk(a.next, a.places, a.at);
    if a.at + 1 < |a.places| && !PlaceAt(a.places, a.at + 1).linked { Unlinked(states, tids, choices, i, a.at + 1); }
  }

  lemma TailIsHead(a: Actor)
    requires ActorOk(a)
    ensures a.head == a.tail <==> a.at + 1 == |a.places|
  {
    if a.head == a.tail { HeadIsTail(a); }
  }

  /** markempty sets the tag bit if and only if every message was consumed by then;
      otherwise the thread keeps the right to run the actor. */
  lemma MarksWhenEmpty(states: seq<State>, tids: seq<Tid>, choices: seq<Choice>, i: nat)
    requires Run(states, tids, choices) && i < |tids| && choices[i].Go? && tids[i] < |states[i].pcs|
    requires states[i].pcs[tids[i]].MarkLoad? || states[i].pcs[tids[i]].MarkCas?
    ensures |states[i + 1].pcs| == |states[i].pcs|
    ensures var a, a', pc, pc' := states[i].a, states[i + 1].a, states[i].pcs[tids[i]], states[i + 1].pcs[tids[i]];
      && (pc.MarkLoad? ==> a' == a && pc' == if a.at + 1 == |a.places| then MarkCas else Reschedule)
      && (pc.MarkCas? ==> (a'.tag <==> a.at + 1 == |a.places|) && pc' == if a'.tag then Idle else Reschedule)
  {
    AfterStep(states, tids, choices, i);
    RunInv(states, tids, choices, i);
    assert ThreadOk(states[i].a, tids[i], states[i].pcs[tids[i]]);
    TailIsHead(states[i].a);
  }

  /** The thread that runs the actor has moved the tail and not freed the node that
      it was at. */
  predicate Freeing(s: State) {
    s.a.token.With? && s.a.token.t < |s.pcs| && s.pcs[s.a.token.t].FreeOld?
  }

  lemma StepAt(s: State, t: Tid, c: Choice, k: nat)
    requires Enabled(s, t, c) && ThreadOk(s.a, t, s.pcs[t]) && k < |Step(s, t, c).a.places|
    ensures var a, a' := s.a, Step(s, t, c).a;
      && |Step(s, t, c).pcs| == |s.pcs|
      && a'.at == (if c.Go? && s.pcs[t].Advance? then a.at + 1 else a.at)
      && (Step(s, t, c).pcs[t].FreeOld? <==> c.Go? && s.pcs[t].Advance?)
      && (PlaceAt(a'.places, k).freed <==>
            (k < |a.places| && PlaceAt(a.places, k).freed) || (c.Go? && s.pcs[t].FreeOld? && k + 1 == a.at))
  {
  }

  lemma FreeingStep(s: State, t: Tid, c: Choice)
    requires Enabled(s, t, c) && ThreadOk(s.a, t, s.pcs[t])
    requires (s.a.tag ==> s.a.token == Nobody) && (s.a.runs > 0 ==> s.a.token == InRunQueue)
    ensures Freeing(Step(s, t, c)) <==>
      if c.Go? && s.pcs[t].Advance? then true else if c.Go? && s.pcs[t].FreeOld? then false else Freeing(s)
    ensures c.Go? && s.pcs[t].Advance? ==> !Freeing(s)
    ensures c.Go? && s.pcs[t].FreeOld? ==> Freeing(s)
  {
  }

  /** The nodes of the messages before the tail are free, except for the last of
      them while the tail has just moved. */
  ghost predicate Reclaimed(s: State) {
    forall k: nat {:trigger PlaceAt(s.a.places, k)} :: k < |s.a.places| ==>
      (PlaceAt(s.a.places, k).freed <==> if Freeing(s) then k + 1 < s.a.at else k < s.a.at)
  }

  lemma ReclaimedStep(s: State, t: Tid, c: Choice)
    requires Enabled(s, t, c) && ThreadOk(s.a, t, s.pcs[t]) && s.a.at < |s.a.places| && Reclaimed(s)
    requires (s.a.tag ==> s.a.token == Nobody) && (s.a.runs > 0 ==> s.a.token == InRunQueue)
    ensures Reclaimed(Step(s, t, c))
  {
    var s' := Step(s, t, c);
    FreeingStep(s, t, c);
    forall k: nat {:trigger PlaceAt(s'.a.places, k)} | k < |s'.a.places|
      ensures PlaceAt(s'.a.places, k).freed <==> if Freeing(s') then k + 1 < s'.a.at else k < s'.a.at
    {
      StepAt(s, t, c, k);
    }
  }

  /** No node leaks and none is freed early. */
  lemma {:induction false} FreedExactly(states: seq<State>, tids: seq<Tid>, choices: seq<Choice>, i: nat)
    requires Run(states, tids, choices) && i < |states|
    ensures Reclaimed(states[i])
  {
    if i > 0 {
      FreedExactly(states, tids, choices, i - 1);
      RunInv(states, tids, choices, i - 1);
      AfterStep(states, tids, choices, i - 1);
      var s, t := states[i - 1], tids[i - 1];
      assert ThreadOk(s.a, t, s.pcs[t]);
      ReclaimedStep(s, t, choices[i - 1]);
    }
  }

  /** Messages are consumed one after the other, each by the thread that has the
      right to run the actor. */
  lemma ConsumedInOrder(states: seq<State>, tids: seq<Tid>, choices: seq<Choice>, i: nat)
    requires Run(states, tids, choices) && i < |tids| && states[i + 1].a.at != states[i].a.at
    ensures states[i + 1].a.at == states[i].a.at + 1 < |states[i].a.places| && states[i].a.token == With(tids[i])
    ensures PlaceAt(states[i].a.places, states[i].a.at + 1).linked
    ensures states[i + 1].a.tail == PlaceAt(states[i].a.places, states[i].a.at + 1).node
  {
    RunInv(states, tids, choices, i);
    AfterStep(states, tids, choices, i);
    assert ThreadOk(states[i].a, tids[i], states[i].pcs[tids[i]]);
  }

  /** Whether thread `t` has handled an application message since it last took the
      actor from a run queue or kept it for another run. */
  ghost predicate Worked(states: seq<State>, tids: seq<Tid>, choices: seq<Choice>, k: nat, t: Tid)
    requires Run(states, tids, choices) && k < |states|
  {
    if k == 0 then false
    else if tids[k - 1] != t || t >= |states[k - 1].pcs| then Worked(states, tids, choices, k - 1, t)
    else
      var pc, c := states[k - 1].pcs[t], choices[k - 1];
      if c.Take? || (c.Go? && pc.Reschedule?) then false
      else Worked(states, tids, choices, k - 1, t) || (c.Go? && pc.FreeOld? && c.app)
  }

  lemma {:induction false} WorkedIs(states: seq<State>, tids: seq<Tid>, choices: seq<Choice>, k: nat, t: Tid)
    requires Run(states, tids, choices) && k < |states| && t < |states[k].pcs|
    ensures var pc := states[k].pcs[t];
      && (pc.Pop? || pc.Advance? || pc.FreeOld? ==> (pc.worked <==> Worked(states, tids, choices, k, t)))
      && (pc.MarkLoad? || pc.MarkCas? ==> !Worked(states, tids, choices, k, t))
  {
    if k > 0 {
      AfterStep(states, tids, choices, k - 1);
      WorkedIs(states, tids, choices, k - 1, t);
    }
  }

  /** A thread that finds no message goes on to mark the queue empty if and only if
      it has handled no application message in this run; otherwise the actor is to
      be run again. */
  lemma DefersBlocking(states: seq<State>, tids: seq<Tid>, choices: seq<Choice>, i: nat)
    requires Run(states, tids, choices) && i < |tids| && choices[i].Go? && tids[i] < |states[i].pcs|
    requires states[i].pcs[tids[i]].Pop?
    ensures |states[i + 1].pcs| == |states[i].pcs|
    ensures !states[i + 1].pcs[tids[i]].Advance? ==>
      states[i + 1].pcs[tids[i]] == if Worked(states, tids, choices, i, tids[i]) then Reschedule else MarkLoad
  {
    AfterStep(states, tids, choices, i);
    WorkedIs(states, tids, choices, i, tids[i]);
  }

  /** A send brings in one message at the end of the queue and then links it in; the
      sender goes on to add the actor to a run queue if and only if it found the
      tag bit set. */
  lemma SendEnters(states: seq<State>, tids: seq<Tid>, choices: seq<Choice>, i: nat)
    requires Run(states, tids, choices) && i < |tids| && choices[i].Go? && tids[i] < |states[i].pcs|
    requires states[i].pcs[tids[i]].Exchange? || states[i].pcs[tids[i]].LinkIn? || states[i].pcs[tids[i]].Add?
    ensures |states[i + 1].pcs| == |states[i].pcs|
    ensures var a, a', t := states[i].a, states[i + 1].a, tids[i];
      match states[i].pcs[t]
      case Exchange(n) =>
        && |a'.places| == |a.places| + 1 && a'.places[..|a.places|] == a.places && !a'.tag
        && PlaceAt(a'.places, |a.places|).sender == t && PlaceAt(a'.places, |a.places|).node == n
        && Linking(states[i + 1], t, |a.places|) && states[i + 1].pcs[t].wasEmpty == a.tag
      case LinkIn(_, _, k, wasEmpty) => PlaceAt(a'.places, k).linked && (states[i + 1].pcs[t].Add? <==> wasEmpty)
      case _ => a'.runs == 1 && a.runs == 0 && states[i + 1].pcs[t].Idle?
  {
    RunInv(states, tids, choices, i);
    AfterStep(states, tids, choices, i);
    assert ThreadOk(states[i].a, tids[i], states[i].pcs[tids[i]]);
  }

  /** An actor that is to be run again goes back to a run queue, or the thread keeps
      it and starts another run. */
  lemma RunsAgain(states: seq<State>, tids: seq<Tid>, choices: seq<Choice>, i: nat)
    requires Run(states, tids, choices) && i < |tids| && choices[i].Go? && tids[i] < |states[i].pcs|
    requires states[i].pcs[tids[i]].Reschedule?
    ensures |states[i + 1].pcs| == |states[i].pcs|
    ensures var a', pc' := states[i + 1].a, states[i + 1].pcs[tids[i]];
      if choices[i].stop then a'.runs == 1 && pc'.Idle? else a'.token == With(tids[i]) && pc' == Pop(false)
  {
    RunInv(states, tids, choices, i);
    AfterStep(states, tids, choices, i);
    assert ThreadOk(states[i].a, tids[i], states[i].pcs[tids[i]]);
  }
}
