/** Where the actors are while the schedulers work: in a run queue or with a
    scheduler. No actor gets lost, and none is there twice unless it was added
    twice. */
module ActorWork {

  import opened Basics
  import opened Termination

  function One(b: bool): nat {
    if b then 1 else 0
  }

  /** How often a scheduler has the actor in hand: it runs it, has yet to put it
      back, has stolen it or keeps it while it looks for other work. An actor that
      ended its run and is not to be run again is with nobody. */
  function InHand(pc: Pc, a: Actor): nat {
    match pc
    case PopFirst => 0
    case Running(b) => One(b == a)
    case PopNext(b, again) => One(again && b == a)
    case PushBack(b, next) => One(b == a) + One(next == a)
    case SendBlock(prev) => One(prev == Some(a))
    case Steal(prev) => One(prev == Some(a))
    case Read(prev) => One(prev == Some(a))
    case Decide(prev) => One(prev == Some(a))
    case Broadcast(prev, _, _, _) => One(prev == Some(a))
    case SendUnblock(prev, b) => One(prev == Some(a)) + One(b == a)
    case Stopped => 0
  }

  function InHands(pcs: seq<Pc>, a: Actor): nat {
    if pcs == [] then 0 else InHands(pcs[..|pcs| - 1], a) + InHand(pcs[|pcs| - 1], a)
  }

  function InQueues(runqs: seq<seq<Actor>>, a: Actor): nat {
    if runqs == [] then 0 else InQueues(runqs[..|runqs| - 1], a) + multiset(runqs[|runqs| - 1])[a]
  }

  /** How often the actor is in a run queue or in the hands of a scheduler. */
  function Present(s: State, a: Actor): nat {
    InHands(s.pcs, a) + InQueues(s.runqs, a)
  }

  lemma {:induction false} HandsUpdate(pcs: seq<Pc>, i: Id, pc: Pc, a: Actor)
    requires i < |pcs|
    ensures InHands(pcs[i := pc], a) + InHand(pcs[i], a) == InHands(pcs, a) + InHand(pc, a)
    decreases |pcs|
  {
    var n := |pcs| - 1;
    if i == n {
      assert pcs[i := pc][..n] == pcs[..n];
    } else {
      assert pcs[i := pc][..n] == pcs[..n][i := pc];
      HandsUpdate(pcs[..n], i, pc, a);
    }
  }

  lemma {:induction false} QueuesUpdate(runqs: seq<seq<Actor>>, i: Id, q: seq<Actor>, a: Actor)
    requires i < |runqs|
    ensures InQueues(runqs[i := q], a) + multiset(runqs[i])[a] == InQueues(runqs, a) + multiset(q)[a]
    decreases |runqs|
  {
    var n := |runqs| - 1;
    if i == n {
      assert runqs[i := q][..n] == runqs[..n];
    } else {
      assert runqs[i := q][..n] == runqs[..n][i := q];
      QueuesUpdate(runqs[..n], i, q, a);
    }
  }

  lemma DropCount(s: State, v: Id, a: Actor)
    requires v < |s.runqs| && s.runqs[v] != []
    ensures InQueues(Drop(s, v).runqs, a) + One(s.runqs[v][0] == a) == InQueues(s.runqs, a)
  {
    var q := s.runqs[v];
    assert q == [q[0]] + q[1..];
    QueuesUpdate(s.runqs, v, q[1..], a);
  }

  lemma PutCount(s: State, v: Id, b: Actor, a: Actor)
    requires v < |s.runqs|
    ensures InQueues(Put(s, v, b).runqs, a) == InQueues(s.runqs, a) + One(b == a)
  {
    QueuesUpdate(s.runqs, v, s.runqs[v] + [b], a);
  }

  // ---------- One step ----------

  /** A running actor adds `a` to the run queue. */
  predicate Adds(s: State, i: Id, c: Choice, a: Actor) {
    i < |s.pcs| && s.pcs[i].Running? && c.spawn == Some(a)
  }

  /** `a` ends a run and is not to be run again. */
  predicate Ends(s: State, i: Id, c: Choice, a: Actor) {
    i < |s.pcs| && s.pcs[i].Running? && c.spawn == None && !c.again && s.pcs[i].actor == a
  }

  /** The scheduler has kept `a`, and it stops or has stolen the same actor. */
  predicate Discards(s: State, i: Id, a: Actor) {
    && i < |s.pcs| && i < |s.stop|
    && ((s.pcs[i].Decide? && s.stop[i] && s.pcs[i].prev == Some(a))
        || (s.pcs[i].SendUnblock? && s.pcs[i].actor == a && s.pcs[i].prev == Some(a)))
  }

  lemma OnlyMine(s: State, i: Id, c: Choice)
    requires Enabled(s, i, c)
    ensures Shape(Step(s, i, c)) && |Step(s, i, c).pcs| == |s.pcs| && Step(s, i, c).pcs == s.pcs[i := Step(s, i, c).pcs[i]]
  {
  }

  /** The run queues and the hand of the scheduler before and after its step. */
  predicate Accounted(s: State, i: Id, c: Choice, s': State, a: Actor)
    requires i < |s.pcs| == |s'.pcs|
  {
    InQueues(s'.runqs, a) + InHand(s'.pcs[i], a) + One(Ends(s, i, c, a)) + One(Discards(s, i, a))
    == InQueues(s.runqs, a) + InHand(s.pcs[i], a) + One(Adds(s, i, c, a))
  }

  lemma WorkHand(s: State, i: Id, c: Choice, a: Actor)
    requires Enabled(s, i, c) && (s.pcs[i].Running? || s.pcs[i].PopNext? || s.pcs[i].PushBack?)
    ensures |Step(s, i, c).pcs| == |s.pcs| && Accounted(s, i, c, Step(s, i, c), a)
  {
    match s.pcs[i]
    case Running(b) => if c.spawn.Some? { PutCount(s, i, c.spawn.value, a); }
    case PopNext(b, again) => if s.runqs[i] != [] { DropCount(s, i, a); }
    case PushBack(b, next) => PutCount(s, i, b, a);
  }

  lemma SeekHand(s: State, i: Id, c: Choice, a: Actor)
    requires Enabled(s, i, c) && (s.pcs[i].PopFirst? || s.pcs[i].Steal?)
    ensures |Step(s, i, c).pcs| == |s.pcs| && Accounted(s, i, c, Step(s, i, c), a)
  {
    match s.pcs[i]
    case PopFirst => if s.runqs[i] != [] { DropCount(s, i, a); }
    case Steal(prev) => if s.runqs[c.victim] != [] { DropCount(s, c.victim, a); }
  }

  /** The other steps leave the run queues alone. */
  lemma QuietHand(s: State, i: Id, c: Choice, a: Actor)
    requires Enabled(s, i, c) && !s.pcs[i].Running? && !s.pcs[i].PopNext? && !s.pcs[i].PushBack?
    requires !s.pcs[i].PopFirst? && !s.pcs[i].Steal?
    ensures |Step(s, i, c).pcs| == |s.pcs| && Accounted(s, i, c, Step(s, i, c), a)
  {
    assert Step(s, i, c).runqs == s.runqs;
  }

  /** A step moves actors between the run queues and the hands of the schedulers.
      It changes how often an actor is there only when a running actor adds it,
      when it ends its run for good, and when a scheduler discards the one it
      kept. */
  lemma PresentStep(s: State, i: Id, c: Choice, a: Actor)
    requires Enabled(s, i, c)
    ensures Present(Step(s, i, c), a) + One(Ends(s, i, c, a)) + One(Discards(s, i, a)) == Present(s, a) + One(Adds(s, i, c, a))
  {
    OnlyMine(s, i, c);
    if s.pcs[i].Running? || s.pcs[i].PopNext? || s.pcs[i].PushBack? {
      WorkHand(s, i, c, a);
    } else if s.pcs[i].PopFirst? || s.pcs[i].Steal? {
      SeekHand(s, i, c, a);
    } else {
      QuietHand(s, i, c, a);
    }
    HandsUpdate(s.pcs, i, Step(s, i, c).pcs[i], a);
  }

  /** The actor that a scheduler keeps while it looks for other work. */
  function KeptBy(pc: Pc): Option<Actor> {
    match pc
    case SendBlock(prev) => prev
    case Steal(prev) => prev
    case Read(prev) => prev
    case Decide(prev) => prev
    case Broadcast(prev, _, _, _) => prev
    case SendUnblock(prev, _) => prev
    case _ => None
  }

  /** The actor that the scheduler has picked to run next, or runs. */
  function Picked(pc: Pc): Option<Actor> {
    match pc
    case Running(a) => Some(a)
    case PushBack(_, next) => Some(next)
    case SendUnblock(_, a) => Some(a)
    case _ => None
  }

  /** Run queues are first in, first out: a step leaves a queue as it is, adds one
      actor at its end, or takes the first one, which the scheduler runs next. */
  lemma QueueStep(s: State, i: Id, c: Choice, v: Id)
    requires Enabled(s, i, c) && v < |s.runqs|
    ensures var s' := Step(s, i, c);
      && |s'.pcs| == |s.pcs| && |s'.runqs| == |s.runqs|
      && var q, q' := s.runqs[v], s'.runqs[v];
         || q' == q
         || (q != [] && q' == q[1..] && Picked(s'.pcs[i]) == Some(q[0]))
         || (q' != [] && q' == q + [q'[|q'| - 1]])
  {
  }

  /** What a scheduler without an actor to run picks: the first one of its own
      queue, or of the queue that it steals from, if there is one. An actor that is
      to be run again while nothing is queued is run at once, but the cycle
      detector is kept while the scheduler looks for other work. What was picked is
      run. */
  lemma PicksFirst(states: seq<State>, ids: seq<Id>, choices: seq<Choice>, k: nat)
    requires Run(states, ids, choices) && k < |ids|
    ensures var s, i, c := states[k], ids[k], choices[k];
      && i < |s.pcs| == |s.runqs| == |states[k + 1].pcs| == |states[k + 1].runqs| && c.victim < |s.pcs|
      && var pc, pc', q := s.pcs[i], states[k + 1].pcs[i], if s.pcs[i].Steal? then s.runqs[c.victim] else s.runqs[i];
         && (pc.PopFirst? || pc.PopNext? || pc.Steal? ==>
               if q != [] then Picked(pc') == Some(q[0])
               else if pc.PopNext? && pc.again && !IsCycle(pc.actor) then Picked(pc') == Some(pc.actor)
               else Picked(pc') == None && KeptBy(pc') == if pc.PopNext? && pc.again then Some(pc.actor) else KeptBy(pc))
         && (pc.PushBack? || pc.SendUnblock? ==> Picked(pc') == Picked(pc))
         && (pc.PushBack? ==> pc'.Running?)
  {
    RunStep(states, ids, choices, k);
  }

  // ---------- Runs ----------

  /** How often the actor was added in the first `k` steps. */
  function Added(states: seq<State>, ids: seq<Id>, choices: seq<Choice>, k: nat, a: Actor): nat
    requires k <= |ids| == |choices| && |states| == |ids| + 1
  {
    if k == 0 then 0 else Added(states, ids, choices, k - 1, a) + One(Adds(states[k - 1], ids[k - 1], choices[k - 1], a))
  }

  /** How often the actor ended a run for good in the first `k` steps. */
  function Ended(states: seq<State>, ids: seq<Id>, choices: seq<Choice>, k: nat, a: Actor): nat
    requires k <= |ids| == |choices| && |states| == |ids| + 1
  {
    if k == 0 then 0 else Ended(states, ids, choices, k - 1, a) + One(Ends(states[k - 1], ids[k - 1], choices[k - 1], a))
  }

  function Discarded(states: seq<State>, ids: seq<Id>, choices: seq<Choice>, k: nat, a: Actor): nat
    requires k <= |ids| == |choices| && |states| == |ids| + 1
  {
    if k == 0 then 0 else Discarded(states, ids, choices, k - 1, a) + One(Discards(states[k - 1], ids[k - 1], a))
  }

  /** An actor is in the run queues and the hands of the schedulers as often as it
      was there at first and was added since, less the runs that it ended for good
      and the times that a scheduler discarded it. */
  lemma {:induction false} Conserved(states: seq<State>, ids: seq<Id>, choices: seq<Choice>, k: nat, a: Actor)
    requires Run(states, ids, choices) && k < |states|
    ensures Present(states[k], a) + Ended(states, ids, choices, k, a) + Discarded(states, ids, choices, k, a)
         == Present(states[0], a) + Added(states, ids, choices, k, a)
  {
    if k > 0 {
      Conserved(states, ids, choices, k - 1, a);
      RunStep(states, ids, choices, k - 1);
      PresentStep(states[k - 1], ids[k - 1], choices[k - 1], a);
    }
  }

  lemma KeptStep(s: State, i: Id, c: Choice)
    requires Enabled(s, i, c) && (KeptBy(s.pcs[i]).Some? ==> IsCycle(KeptBy(s.pcs[i]).value))
    ensures |Step(s, i, c).pcs| == |s.pcs|
    ensures KeptBy(Step(s, i, c).pcs[i]).Some? ==> IsCycle(KeptBy(Step(s, i, c).pcs[i]).value)
  {
  }

  /** A scheduler keeps no actor but the cycle detector. */
  lemma {:induction false} KeepsCycle(states: seq<State>, ids: seq<Id>, choices: seq<Choice>, k: nat, i: Id)
    requires Run(states, ids, choices) && k < |states| && i < |states[k].pcs| && KeptBy(states[k].pcs[i]).Some?
    ensures IsCycle(KeptBy(states[k].pcs[i]).value)
  {
    if k > 0 {
      var s := states[k - 1];
      RunStep(states, ids, choices, k - 1);
      OnlyMine(s, ids[k - 1], choices[k - 1]);
      if KeptBy(s.pcs[i]).Some? { KeepsCycle(states, ids, choices, k - 1, i); }
      if i == ids[k - 1] { KeptStep(s, i, choices[k - 1]); }
    }
  }

  /** Nothing but the cycle detector is ever discarded. */
  lemma {:induction false} DiscardsCycle(states: seq<State>, ids: seq<Id>, choices: seq<Choice>, k: nat, a: Actor)
    requires Run(states, ids, choices) && k < |states| && !IsCycle(a)
    ensures Discarded(states, ids, choices, k, a) == 0
  {
    if k > 0 {
      DiscardsCycle(states, ids, choices, k - 1, a);
      if Discards(states[k - 1], ids[k - 1], a) { KeepsCycle(states, ids, choices, k - 1, ids[k - 1]); }
    }
  }

  lemma {:induction false} DeadHands(pcs: seq<Pc>, a: Actor)
    requires forall i :: 0 <= i < |pcs| ==> Idle(pcs[i]) && KeptBy(pcs[i]) != Some(a)
    ensures InHands(pcs, a) == 0
  {
    if pcs != [] { DeadHands(pcs[..|pcs| - 1], a); }
  }

  lemma {:induction false} DeadQueues(runqs: seq<seq<Actor>>, a: Actor)
    requires forall i :: 0 <= i < |runqs| ==> runqs[i] == []
    ensures InQueues(runqs, a) == 0
  {
    if runqs != [] { DeadQueues(runqs[..|runqs| - 1], a); }
  }

  /** When a scheduler has stopped, every actor but the cycle detector that was
      there at first or was added since has ended its run, and was not to be run
      again, as often as it was added. */
  lemma AllEnded(states: seq<State>, ids: seq<Id>, choices: seq<Choice>, k: nat, i: Id, a: Actor)
    requires Run(states, ids, choices) && k < |states| && i < |states[k].pcs| && states[k].pcs[i].Stopped? && !IsCycle(a)
    ensures Present(states[k], a) == 0
    ensures Ended(states, ids, choices, k, a) == Present(states[0], a) + Added(states, ids, choices, k, a)
  {
    StoppedWhenDead(states, ids, choices, k, i);
    forall j | 0 <= j < |states[k].pcs| ensures KeptBy(states[k].pcs[j]) != Some(a) {
      if KeptBy(states[k].pcs[j]).Some? { KeepsCycle(states, ids, choices, k, j); }
    }
    DeadHands(states[k].pcs, a);
    DeadQueues(states[k].runqs, a);
    Conserved(states, ids, choices, k, a);
    DiscardsCycle(states, ids, choices, k, a);
  }

  // ---------- One scheduler at a time ----------

  /** No actor is there twice at first, and none is added while it is there. */
  ghost predicate AddedOnce(states: seq<State>, ids: seq<Id>, choices: seq<Choice>)
    requires Run(states, ids, choices)
  {
    && (forall a :: Present(states[0], a) <= 1)
    && (forall k, a :: 0 <= k < |ids| && Adds(states[k], ids[k], choices[k], a) ==> Present(states[k], a) == 0)
  }

  lemma {:induction false} NeverTwice(states: seq<State>, ids: seq<Id>, choices: seq<Choice>, k: nat, a: Actor)
    requires Run(states, ids, choices) && AddedOnce(states, ids, choices) && k < |states|
    ensures Present(states[k], a) <= 1
  {
    if k > 0 {
      NeverTwice(states, ids, choices, k - 1, a);
      RunStep(states, ids, choices, k - 1);
      PresentStep(states[k - 1], ids[k - 1], choices[k - 1], a);
    }
  }

  lemma {:induction false} HandsOf(pcs: seq<Pc>, i: Id, a: Actor)
    requires i < |pcs|
    ensures InHands(pcs, a) >= InHand(pcs[i], a)
    decreases |pcs|
  {
    if i < |pcs| - 1 { HandsOf(pcs[..|pcs| - 1], i, a); }
  }

  lemma {:induction false} HandsOfTwo(pcs: seq<Pc>, i: Id, j: Id, a: Actor)
    requires i < j < |pcs|
    ensures InHands(pcs, a) >= InHand(pcs[i], a) + InHand(pcs[j], a)
    decreases |pcs|
  {
    if j < |pcs| - 1 {
      HandsOfTwo(pcs[..|pcs| - 1], i, j, a);
    } else {
      HandsOf(pcs[..|pcs| - 1], i, a);
    }
  }

  /** If an actor is added only while it is nowhere, as the protocol of its message
      queue sees to, then at most one scheduler has it, once, and none while it is
      queued; so a scheduler never steals the cycle detector that it has kept. */
  lemma OneAtATime(states: seq<State>, ids: seq<Id>, choices: seq<Choice>, k: nat, i: Id, a: Actor)
    requires Run(states, ids, choices) && AddedOnce(states, ids, choices) && k < |states| && i < |states[k].pcs|
    requires InHand(states[k].pcs[i], a) > 0
    ensures InHand(states[k].pcs[i], a) == 1 && InQueues(states[k].runqs, a) == 0
    ensures forall j :: 0 <= j < |states[k].pcs| && j != i ==> InHand(states[k].pcs[j], a) == 0
    ensures !(states[k].pcs[i].SendUnblock? && Discards(states[k], i, a))
  {
    var pcs := states[k].pcs;
    NeverTwice(states, ids, choices, k, a);
    HandsOf(pcs, i, a);
    forall j | 0 <= j < |pcs| && j != i ensures InHand(pcs[j], a) == 0 {
      if i < j { HandsOfTwo(pcs, i, j, a); } else { HandsOfTwo(pcs, j, i, a); }
    }
  }
}
