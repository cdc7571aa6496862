/** The Michael-Scott queue without node reuse is lock-free: a thread that takes
    enough steps ends its call, or another thread has changed the queue
    meanwhile. */
module MsProgress {

  import opened History
  import opened MsQueue
  import opened Progress

  /** How far the tail is behind the last node. */
  function Lag(q: Queue): int {
    |q.keys| - PosOf(q.pos, q.tail)
  }

  /** What the thread has read is out of date, and it is going to start over. */
  predicate Doomed(q: Queue, pc: Pc) {
    match pc
    case CheckTail(l) => q.tail != l
    case ReadNext(l) => q.tail != l
    case RecheckTail(l, succ) => q.tail != l || (succ == Null && PosOf(q.pos, l) < |q.keys|)
    case Help(l, _) => q.tail != l
    case LinkIn(l) => PosOf(q.pos, l) < |q.keys|
    case TakeTail(h) => q.head != h
    case TakeNext(h, l) => q.head != h || (h == l && q.tail != l)
    case CheckHead(h, l, _) => q.head != h || (h == l && q.tail != l)
    case HelpTail(h, _) => q.head != h || q.tail != h
    case TakeKey(h, _, _) => q.head != h
    case MoveHead(h, _, _, _) => q.head != h
    case _ => false
  }

  /** How many statements are left of a round of the loop. */
  function Left(pc: Pc): nat {
    match pc
    case Idle => 0
    case ReadTail => 6
    case CheckTail(_) => 5
    case ReadNext(_) => 4
    case RecheckTail(_, _) => 3
    case Help(_, _) => 2
    case LinkIn(_) => 2
    case Swing(_) => 1
    case TakeHead => 7
    case TakeTail(_) => 6
    case TakeNext(_, _) => 5
    case CheckHead(_, _, _) => 4
    case HelpTail(_, _) => 3
    case TakeKey(_, _, _) => 3
    case MoveHead(_, _, _, _) => 2
    case TakeItem(_) => 1
    case Done(_) => 0
  }

  /** A bound for the steps that the thread still has to take if nobody else
      changes the queue: a round for every node that the tail is behind, one for
      values that are out of date, and the rest of this one. */
  function Rank(q: Queue, pc: Pc): int {
    if Active(pc) && !Effective(pc) then 8 * Lag(q) + Left(pc) + (if Doomed(q, pc) then 8 else 0) else Left(pc)
  }

  lemma RankPositive(helping: bool, q: Queue, pc: Pc)
    requires QueueOk(helping, q)
    ensures Rank(q, pc) >= 0 && (Active(pc) ==> Rank(q, pc) > 0)
  {
  }

  /** The next fields that the next statement looks at are as the chain says. */
  predicate LooksOk(q: Queue, pc: Pc) {
    match pc
    case ReadNext(l) => NextOk(q.mem, q.keys, q.pos, l)
    case Help(l, next) => NodeAt(q.mem, l).next == At(next) && NextOk(q.mem, q.keys, q.pos, l)
    case LinkIn(l) => NodeAt(q.mem, l).next == Null <==> PosOf(q.pos, l) >= |q.keys|
    case HelpTail(h, next) => NodeAt(q.mem, h).next == At(next) && NextOk(q.mem, q.keys, q.pos, h)
    case _ => true
  }

  lemma LooksAt(helping: bool, q: Queue, t: Tid, th: Thread)
    requires QueueOk(helping, q) && MemOk(helping, q, t, th)
    ensures LooksOk(q, th.pc)
  {
    match th.pc
    case ReadNext(l) => assert NextOk(q.mem, q.keys, q.pos, l);
    case Help(l, _) => assert NextOk(q.mem, q.keys, q.pos, l);
    case LinkIn(l) => assert NextOk(q.mem, q.keys, q.pos, l);
    case HelpTail(h, _) => assert NextOk(q.mem, q.keys, q.pos, h);
    case _ =>
  }

  lemma AddRank(helping: bool, q: Queue, th: Thread)
    requires LooksOk(q, th.pc) && (Adding(th.pc) || th.pc.Swing?) && Lag(q) >= 0
    ensures var (q', pc') := Act(helping, q, th); Rank(q', pc') < Rank(q, th.pc)
  {
  }

  lemma TakeRank(helping: bool, q: Queue, th: Thread)
    requires LooksOk(q, th.pc) && Active(th.pc) && !Adding(th.pc) && !th.pc.Swing? && Lag(q) >= 0
    ensures var (q', pc') := Act(helping, q, th); Rank(q', pc') < Rank(q, th.pc)
  {
  }

  /** Every step of the thread brings it closer to the end of its call. */
  lemma RankStep(helping: bool, q: Queue, t: Tid, th: Thread)
    requires QueueOk(helping, q) && MemOk(helping, q, t, th) && Active(th.pc)
    ensures var (q', pc') := Act(helping, q, th); Rank(q', pc') < Rank(q, th.pc)
  {
    LooksAt(helping, q, t, th);
    if Adding(th.pc) || th.pc.Swing? { AddRank(helping, q, th); } else { TakeRank(helping, q, th); }
  }

  // ---------- The tail is at most one node behind ----------

  /** The node that an enqueue took for the tail is not behind it. */
  predicate Passed(q: Queue, pc: Pc) {
    match pc
    case CheckTail(l) => 0 < PosOf(q.pos, l) <= PosOf(q.pos, q.tail)
    case ReadNext(l) => 0 < PosOf(q.pos, l) <= PosOf(q.pos, q.tail)
    case RecheckTail(l, _) => 0 < PosOf(q.pos, l) <= PosOf(q.pos, q.tail)
    case Help(l, _) => 0 < PosOf(q.pos, l) <= PosOf(q.pos, q.tail)
    case LinkIn(l) => 0 < PosOf(q.pos, l) <= PosOf(q.pos, q.tail)
    case _ => true
  }

  lemma PassedSame(q: Queue, q': Queue, t: Tid, pc: Pc)
    requires Passed(q, pc) && Guarantee(q, q', t)
    ensures Passed(q', pc)
  {
  }

  lemma PassedMine(helping: bool, q: Queue, th: Thread)
    requires Passed(q, th.pc) && PosOf(q.pos, q.tail) > 0
    requires LooksOk(q, th.pc)
    ensures var (q', pc') := Act(helping, q, th); Passed(q', pc')
  {
  }

  lemma LagMine(helping: bool, q: Queue, th: Thread)
    requires Passed(q, th.pc) && 0 <= Lag(q) <= 1 && LooksOk(q, th.pc)
    requires th.pc.LinkIn? ==> PosOf(q.pos, th.n) == 0 && PosOf(q.pos, q.tail) > 0
    requires th.pc.Swing? ==> NodeAt(q.mem, th.pc.l).next == At(th.n) && NextOk(q.mem, q.keys, q.pos, th.pc.l)
    ensures Lag(Act(helping, q, th).0) <= 1
  {
  }

  lemma StepPassed(s: State, u: Tid, c: Choice, t: Tid)
    requires Inv(s) && Enabled(s, u, c) && t < |s.threads| && Passed(s.q, s.threads[t].pc)
    ensures |Step(s, u, c).threads| == |s.threads| && Passed(Step(s, u, c).q, Step(s, u, c).threads[t].pc)
  {
    StepFrame(s, u, c);
    if u != t {
      StepQueue(s, u, c);
      PassedSame(s.q, Step(s, u, c).q, u, s.threads[t].pc);
    } else if c.Go? {
      LooksAt(s.helping, s.q, t, s.threads[t]);
      PassedMine(s.helping, s.q, s.threads[t]);
    }
  }

  lemma StepLag(s: State, u: Tid, c: Choice)
    requires Inv(s) && Enabled(s, u, c) && Passed(s.q, s.threads[u].pc) && Lag(s.q) <= 1
    ensures Lag(Step(s, u, c).q) <= 1
  {
    if c.Go? {
      var th := s.threads[u];
      LooksAt(s.helping, s.q, u, th);
      if th.pc.Swing? { assert NextOk(s.q.mem, s.q.keys, s.q.pos, th.pc.l); }
      LagMine(s.helping, s.q, th);
    }
  }

  lemma {:induction false} RunPassed(states: seq<State>, tids: seq<Tid>, choices: seq<Choice>, i: nat, t: Tid)
    requires Run(states, tids, choices) && i < |states| && t < |states[i].threads|
    ensures Passed(states[i].q, states[i].threads[t].pc)
  {
    if i > 0 {
      RunInv(states, tids, choices, i - 1);
      assert states[i - 1 + 1] == Step(states[i - 1], tids[i - 1], choices[i - 1]);
      StepFrame(states[i - 1], tids[i - 1], choices[i - 1]);
      RunPassed(states, tids, choices, i - 1, t);
      StepPassed(states[i - 1], tids[i - 1], choices[i - 1], t);
    }
  }

  /** The tail is the last node or the one before it. */
  lemma {:induction false} TailLags(states: seq<State>, tids: seq<Tid>, choices: seq<Choice>, i: nat)
    requires Run(states, tids, choices) && i < |states|
    ensures 0 <= Lag(states[i].q) <= 1
  {
    RunInv(states, tids, choices, i);
    if i > 0 {
      TailLags(states, tids, choices, i - 1);
      RunInv(states, tids, choices, i - 1);
      assert states[i - 1 + 1] == Step(states[i - 1], tids[i - 1], choices[i - 1]);
      RunPassed(states, tids, choices, i - 1, tids[i - 1]);
      StepLag(states[i - 1], tids[i - 1], choices[i - 1]);
    }
  }

  // ---------- Lock-freedom ----------

  /** Head, tail and the chain of nodes are the same. */
  predicate Unchanged(q: Queue, q': Queue) {
    q'.head == q.head && q'.tail == q.tail && q'.keys == q.keys && q'.pos == q.pos
  }

  lemma RankSame(q: Queue, q': Queue, pc: Pc)
    requires Unchanged(q, q')
    ensures Rank(q', pc) == Rank(q, pc)
  {
  }

  /** From state `i` to state `j` thread `t` is in one call, and the others leave
      the queue alone. */
  predicate Undisturbed(states: seq<State>, tids: seq<Tid>, i: nat, j: nat, t: Tid)
    requires i <= j <= |tids| && |states| == |tids| + 1
  {
    && (forall k {:trigger states[k]} :: i <= k < j ==> t < |states[k].threads| && Active(states[k].threads[t].pc))
    && (forall k {:trigger tids[k]} :: i <= k < j && tids[k] != t ==> Unchanged(states[k].q, states[k + 1].q))
  }

  function RankIn(s: State, t: Tid): int {
    if t < |s.threads| then Rank(s.q, s.threads[t].pc) else 0
  }

  lemma StepRank(s: State, u: Tid, c: Choice, t: Tid)
    requires Inv(s) && Enabled(s, u, c) && t < |s.threads| && Active(s.threads[t].pc)
    requires u != t ==> Unchanged(s.q, Step(s, u, c).q)
    ensures RankIn(Step(s, u, c), t) + (if u == t then 1 else 0) <= RankIn(s, t)
  {
    StepFrame(s, u, c);
    if u == t {
      RankStep(s.helping, s.q, t, s.threads[t]);
    } else {
      RankSame(s.q, Step(s, u, c).q, s.threads[t].pc);
    }
  }

  /** The rank of thread `t` in every state. */
  function Ranks(states: seq<State>, t: Tid): (r: seq<int>)
    ensures |r| == |states| && forall k :: 0 <= k < |states| ==> r[k] == RankIn(states[k], t)
  {
    seq(|states|, k requires 0 <= k < |states| => RankIn(states[k], t))
  }

  lemma RunFalls(states: seq<State>, tids: seq<Tid>, choices: seq<Choice>, i: nat, j: nat, t: Tid)
    requires Run(states, tids, choices) && i <= j <= |tids| && Undisturbed(states, tids, i, j, t)
    ensures Falls(Ranks(states, t), tids, i, j, t)
  {
    var ranks := Ranks(states, t);
    forall k | i <= k < j ensures ranks[k + 1] + (if tids[k] == t then 1 else 0) <= ranks[k] {
      RunInv(states, tids, choices, k);
      assert states[k + 1] == Step(states[k], tids[k], choices[k]);
      StepRank(states[k], tids[k], choices[k], t);
    }
  }

  lemma RunRank(states: seq<State>, tids: seq<Tid>, choices: seq<Choice>, i: nat, t: Tid)
    requires Run(states, tids, choices) && i < |states|
    ensures 0 <= RankIn(states[i], t) <= 23
  {
    TailLags(states, tids, choices, i);
    RunInv(states, tids, choices, i);
    if t < |states[i].threads| { RankPositive(states[i].helping, states[i].q, states[i].threads[t].pc); }
  }

  /** A thread takes at most 23 steps in a call while nobody else changes the queue:
      if it does not end its call, another thread has linked in a node or moved
      head or tail. */
  lemma LockFree(states: seq<State>, tids: seq<Tid>, choices: seq<Choice>, i: nat, j: nat, t: Tid)
    requires Run(states, tids, choices) && i <= j <= |tids| && Undisturbed(states, tids, i, j, t)
    ensures Taken(tids, i, j, t) <= 23
  {
    RunFalls(states, tids, choices, i, j, t);
    TakenBound(Ranks(states, t), tids, i, j, t);
    RunRank(states, tids, choices, i, t);
    RunRank(states, tids, choices, j, t);
  }
}
