/** The Michael-Scott queue with hazard pointers is lock-free: a thread that takes
    enough steps ends its call, with its scan if it starts one, or another thread
    has changed the queue meanwhile. */
module HazardProgress {

  import opened Basics
  import opened History
  import opened HazardQueue
  import opened HazardReclaim
  import opened Progress

  // ---------- The tail is at most one node behind ----------

  function NextOf(q: Queue, a: Addr): Ptr {
    NodeAt(q.mem, a).next
  }

  /** The tail is the last node or the one before it. */
  predicate TailNear(q: Queue) {
    NextOf(q, q.tail).At? ==> NextOf(q, NextOf(q, q.tail).a) == Null
  }

  /** The node that an enqueue has found at the tail is still there if it is the
      last one. */
  predicate EndIsTail(q: Queue, pc: Pc) {
    match pc
    case EReadNext(_, l) => NextOf(q, l) == Null ==> q.tail == l
    case ELink(_, l) => NextOf(q, l) == Null ==> q.tail == l
    case _ => true
  }

  lemma EndMine(s: State, t: Tid, c: Choice)
    requires Enabled(s, t, c) && Safe(s, t, c) && EndIsTail(s.q, s.threads[t].pc)
    ensures |Step(s, t, c).threads| == |s.threads| && EndIsTail(Step(s, t, c).q, Step(s, t, c).threads[t].pc)
  {
  }

  /** What a step of another thread may change about a node that is not free. */
  lemma NextStep(s: State, u: Tid, c: Choice, a: Addr)
    requires Enabled(s, u, c) && Safe(s, u, c) && ThreadOk(s.q, s.hist, u, s.threads[u]) && Hazardous(s.q, a)
    ensures var q, q' := s.q, Step(s, u, c).q;
      && (NextOf(q, a) != Null ==> NextOf(q', a) == NextOf(q, a))
      && (q'.chain == q.chain ==> NextOf(q', a) == NextOf(q, a))
      && (q'.tail != q.tail ==> NextOf(q, q.tail) == At(q'.tail))
  {
  }

  lemma EndOther(s: State, u: Tid, c: Choice, pc: Pc)
    requires Enabled(s, u, c) && Safe(s, u, c) && ThreadOk(s.q, s.hist, u, s.threads[u])
    requires EndIsTail(s.q, pc) && (Guard0(pc).At? ==> Hazardous(s.q, Guard0(pc).a))
    ensures EndIsTail(Step(s, u, c).q, pc)
  {
    if Guard0(pc).At? { NextStep(s, u, c, Guard0(pc).a); }
  }

  lemma NearStep(s: State, u: Tid, c: Choice)
    requires Enabled(s, u, c) && Safe(s, u, c) && ThreadOk(s.q, s.hist, u, s.threads[u])
    requires StatusOf(s.q, s.q.tail).Linked? && EndIsTail(s.q, s.threads[u].pc) && TailNear(s.q)
    ensures TailNear(Step(s, u, c).q)
  {
  }

  lemma {:induction false} RunEnds(states: seq<State>, tids: seq<Tid>, choices: seq<Choice>, i: nat, t: Tid)
    requires Run(states, tids, choices) && i < |states| && t < |states[i].threads|
    ensures EndIsTail(states[i].q, states[i].threads[t].pc)
  {
    if i > 0 {
      var s, u, c := states[i - 1], tids[i - 1], choices[i - 1];
      RunInv(states, tids, choices, i - 1);
      NoUseAfterFree(states, tids, choices, i - 1);
      Others(s, u, c);
      RunEnds(states, tids, choices, i - 1, t);
      assert ThreadOk(s.q, s.hist, u, s.threads[u]) && ThreadOk(s.q, s.hist, t, s.threads[t]);
      if u == t { EndMine(s, t, c); } else { EndOther(s, u, c, s.threads[t].pc); }
    }
  }

  lemma {:induction false} TailLags(states: seq<State>, tids: seq<Tid>, choices: seq<Choice>, i: nat)
    requires Run(states, tids, choices) && i < |states|
    ensures TailNear(states[i].q)
  {
    if i > 0 {
      var s, u, c := states[i - 1], tids[i - 1], choices[i - 1];
      TailLags(states, tids, choices, i - 1);
      RunInv(states, tids, choices, i - 1);
      NoUseAfterFree(states, tids, choices, i - 1);
      RunEnds(states, tids, choices, i - 1, u);
      assert ThreadOk(s.q, s.hist, u, s.threads[u]);
      assert s.q.tail in s.q.chain;
      NearStep(s, u, c);
    }
  }

  // ---------- The rank ----------

  /** How far the tail is behind the last node. */
  function Lag(q: Queue): nat {
    if NextOf(q, q.tail) == Null then 0 else 1
  }

  /** What the thread has read is out of date, and it is going to start over. */
  predicate Doomed(q: Queue, pc: Pc) {
    match pc
    case EPublish(_, l) => q.tail != l
    case EValidate(_, l) => q.tail != l
    case EReadNext(_, l) => q.tail != l
    case EHelp(_, l, _) => q.tail != l
    case ELink(_, l) => NextOf(q, l) != Null
    case DPublish(h) => q.head != h
    case DValidate(h) => q.head != h
    case DReadTail(h) => q.head != h
    case DReadNext(h, l) => q.head != h || (h == l && q.tail != l)
    case DPublishNext(h, l, _) => q.head != h || (h == l && q.tail != l)
    case DRevalidate(h, l, _) => q.head != h || (h == l && q.tail != l)
    case DHelp(h, _) => q.head != h || q.tail != h
    case DReadKey(h, _) => q.head != h
    case DSwing(h, _, _) => q.head != h
    case _ => false
  }

  /** How many statements are left of a round of the loop. */
  function Left(pc: Pc): nat {
    match pc
    case EReadTail(_) => 11
    case EPublish(_, _) => 10
    case EValidate(_, _) => 9
    case EReadNext(_, _) => 8
    case EHelp(_, _, _) => 7
    case ELink(_, _) => 7
    case ESwing(_, _) => 3
    case EClear1 => 2
    case EClear0 => 1
    case DReadHead => 9
    case DPublish(_) => 8
    case DValidate(_) => 7
    case DReadTail(_) => 6
    case DReadNext(_, _) => 5
    case DPublishNext(_, _, _) => 4
    case DRevalidate(_, _, _) => 3
    case DHelp(_, _) => 2
    case DReadKey(_, _) => 2
    case DSwing(_, _, _) => 1
    case _ => 0
  }

  /** What is left once a dequeue has taken a node out, for `n` slots: clearing its
      own, retiring the node, reading the slots and going through the retired
      nodes. */
  function Cleanup(th: Thread, n: nat): nat {
    match th.pc
    case DClear1(_) => n + |th.rlist| + 7
    case DClear0(_) => n + |th.rlist| + 6
    case DRetire(_) => n + |th.rlist| + 5
    case Scan(k, _) => (if k < n then n - k else 0) + |th.rlist| + 3
    case Sweep(_, tmp) => |tmp| + 1
    case _ => 0
  }

  /** A dequeue that has not taken a node out yet. */
  predicate Seeking(pc: Pc) {
    !pc.Idle? && !Adding(pc) && !HasAdded(pc) && !HasTaken(pc)
  }

  /** A bound for the steps that the thread still has to take if nobody else
      changes the queue: a round if the tail is behind, one for values that are out
      of date, the rest of this one, and the clean-up. */
  function Rank(q: Queue, th: Thread, n: nat): nat {
    if Adding(th.pc) then 12 * Lag(q) + (if Doomed(q, th.pc) then 12 else 0) + Left(th.pc)
    else if Seeking(th.pc) then 12 * Lag(q) + (if Doomed(q, th.pc) then 12 else 0) + Left(th.pc) + n + |th.rlist| + 8
    else if HasAdded(th.pc) then Left(th.pc)
    else Cleanup(th, n)
  }

  function RankIn(s: State, t: Tid): nat {
    if t < |s.threads| then Rank(s.q, s.threads[t], 2 * |s.threads|) else 0
  }

  /** Every step of the thread brings it closer to the end of its call. */
  lemma AddRank(s: State, t: Tid, c: Choice)
    requires Enabled(s, t, c) && Safe(s, t, c) && (Adding(s.threads[t].pc) || HasAdded(s.threads[t].pc))
    requires TailNear(s.q) && ThreadOk(s.q, s.hist, t, s.threads[t])
    ensures RankIn(Step(s, t, c), t) < RankIn(s, t)
  {
  }

  /** The dequeue helps the tail on or moves head. */
  predicate Swinging(pc: Pc) {
    pc.DHelp? || pc.DSwing?
  }

  lemma SeekRank(s: State, t: Tid, c: Choice)
    requires Enabled(s, t, c) && Safe(s, t, c) && Seeking(s.threads[t].pc) && !Swinging(s.threads[t].pc)
    ensures RankIn(Step(s, t, c), t) < RankIn(s, t)
  {
  }

  lemma SwingRank(s: State, t: Tid, c: Choice)
    requires Enabled(s, t, c) && Safe(s, t, c) && Swinging(s.threads[t].pc) && TailNear(s.q)
    requires s.threads[t].pc.DHelp? ==> NextOf(s.q, s.threads[t].pc.h) == At(s.threads[t].pc.next)
    ensures RankIn(Step(s, t, c), t) < RankIn(s, t)
  {
  }

  lemma CleanRank(s: State, t: Tid, c: Choice)
    requires Enabled(s, t, c) && Safe(s, t, c) && HasTaken(s.threads[t].pc)
    ensures RankIn(Step(s, t, c), t) < RankIn(s, t)
  {
  }

  lemma RankStep(s: State, t: Tid, c: Choice)
    requires Enabled(s, t, c) && Safe(s, t, c) && !s.threads[t].pc.Idle?
    requires TailNear(s.q) && ThreadOk(s.q, s.hist, t, s.threads[t])
    ensures RankIn(Step(s, t, c), t) < RankIn(s, t)
  {
    var pc := s.threads[t].pc;
    if Adding(pc) || HasAdded(pc) {
      AddRank(s, t, c);
    } else if HasTaken(pc) {
      CleanRank(s, t, c);
    } else if Swinging(pc) {
      SwingRank(s, t, c);
    } else {
      SeekRank(s, t, c);
    }
  }

  // ---------- Lock-freedom ----------

  /** Head, tail and the nodes from head on are the same. */
  predicate Unchanged(q: Queue, q': Queue) {
    q'.head == q.head && q'.tail == q.tail && q'.chain == q.chain
  }

  lemma RankSame(s: State, u: Tid, c: Choice, t: Tid)
    requires Inv(s) && Enabled(s, u, c) && Safe(s, u, c) && t < |s.threads| && u != t
    requires Unchanged(s.q, Step(s, u, c).q)
    ensures RankIn(Step(s, u, c), t) == RankIn(s, t)
  {
    var pc := s.threads[t].pc;
    Others(s, u, c);
    assert ThreadOk(s.q, s.hist, u, s.threads[u]) && ThreadOk(s.q, s.hist, t, s.threads[t]);
    assert s.q.tail in s.q.chain;
    NextStep(s, u, c, s.q.tail);
    if pc.ELink? { NextStep(s, u, c, pc.t); }
  }

  lemma StepRank(s: State, u: Tid, c: Choice, t: Tid)
    requires Inv(s) && TailNear(s.q) && Enabled(s, u, c) && Safe(s, u, c) && t < |s.threads| && !s.threads[t].pc.Idle?
    requires u != t ==> Unchanged(s.q, Step(s, u, c).q)
    ensures RankIn(Step(s, u, c), t) + (if u == t then 1 else 0) <= RankIn(s, t)
  {
    assert ThreadOk(s.q, s.hist, t, s.threads[t]);
    if u == t { RankStep(s, t, c); } else { RankSame(s, u, c, t); }
  }

  /** From state `i` to state `j` thread `t` is in one call, and the others leave
      the queue alone. */
  predicate Undisturbed(states: seq<State>, tids: seq<Tid>, i: nat, j: nat, t: Tid)
    requires i <= j <= |tids| && |states| == |tids| + 1
  {
    && (forall k {:trigger states[k]} :: i <= k < j ==> t < |states[k].threads| && !states[k].threads[t].pc.Idle?)
    && (forall k {:trigger tids[k]} :: i <= k < j && tids[k] != t ==> Unchanged(states[k].q, states[k + 1].q))
  }

  /** The rank of thread `t` in every state. */
  function Ranks(states: seq<State>, t: Tid): (r: seq<int>)
    ensures |r| == |states| && forall k :: 0 <= k < |states| ==> r[k] == RankIn(states[k], t)
  {
    seq(|states|, k requires 0 <= k < |states| => RankIn(states[k], t))
  }

  lemma RunFalls(states: seq<State>, tids: seq<Tid>, choices: seq<Choice>, i: nat, j: nat, t: Tid)
    requires Run(states, tids, choices) && i <= j <= |tids| && Undisturbed(states, tids, i, j, t)
    ensures Falls(Ranks(states, t), tids, i, j, t)
  {
    var ranks := Ranks(states, t);
    forall k | i <= k < j ensures ranks[k + 1] + (if tids[k] == t then 1 else 0) <= ranks[k] {
      RunInv(states, tids, choices, k);
      NoUseAfterFree(states, tids, choices, k);
      TailLags(states, tids, choices, k);
      StepRank(states[k], tids[k], choices[k], t);
    }
  }

  lemma RankBound(s: State, t: Tid)
    requires t < |s.threads|
    ensures RankIn(s, t) <= 2 * |s.threads| + Retired(s.threads[t]) + 41
  {
  }

  /** A thread takes at most so many steps in a call while nobody else changes the
      queue: if it does not end its call, another thread has linked in a node or
      moved head or tail. The bound allows for a scan of the slots and of the
      retired nodes. */
  lemma LockFree(states: seq<State>, tids: seq<Tid>, choices: seq<Choice>, i: nat, j: nat, t: Tid)
    requires Run(states, tids, choices) && i <= j <= |tids| && t < |states[i].threads| && Undisturbed(states, tids, i, j, t)
    ensures Taken(tids, i, j, t) <= 2 * |states[i].threads| + Retired(states[i].threads[t]) + 41
  {
    RunFalls(states, tids, choices, i, j, t);
    TakenBound(Ranks(states, t), tids, i, j, t);
    RankBound(states[i], t);
  }
}
