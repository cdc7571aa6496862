/** The lock-free list is lock-free: a thread that takes enough steps ends its
    call, or another thread has changed the list meanwhile. */
module ListProgress {

  import opened History
  import opened LockFreeList
  import opened Progress

  /** The linked nodes that are still to be passed behind a location. */
  function Ahead(l: List, loc: Loc): set<Addr> {
    set a | a in l.linked && Behind(l, loc, CellAt(l, a).key)
  }

  /** What the thread has read is out of date, and it is going to start over. */
  predicate Doomed(l: List, pc: Pc) {
    match pc
    case Check(prev, cur) => Read(l, prev) != Link(At(cur), false)
    case ReadNext(prev, cur) => Read(l, prev) != Link(At(cur), false)
    case Unlink(prev, cur, _) => Read(l, prev) != Link(At(cur), false)
    case ReadKey(prev, cur, next) => Read(l, prev) != Link(At(cur), false) || CellAt(l, cur).link != Link(next, false)
    case Recheck(prev, cur, next, _) => Read(l, prev) != Link(At(cur), false) || CellAt(l, cur).link != Link(next, false)
    case Write(prev, found) => Read(l, prev) != Link(found, false)
    case LinkIn(prev, found) => Read(l, prev) != Link(found, false)
    case Mark(_, cur, next) => CellAt(l, cur).link != Link(next, false)
    case _ => false
  }

  /** How many statements are left for the node that the thread looks at. */
  function Left(pc: Pc): nat {
    match pc
    case Idle => 0
    case Start => 9
    case Check(_, _) => 8
    case ReadNext(_, _) => 7
    case Unlink(_, _, _) => 6
    case ReadKey(_, _, _) => 6
    case Recheck(_, _, _, _) => 5
    case Write(_, _) => 3
    case LinkIn(_, _) => 2
    case Mark(_, _, _) => 2
    case UnlinkMine(_, _, _) => 1
    case Done(_) => 0
  }

  /** How many nodes are left to look at in this pass. */
  function Nodes(l: List, pc: Pc): nat {
    match pc
    case Idle => 0
    case Start => |l.linked|
    case Check(prev, _) => |Ahead(l, prev)|
    case ReadNext(prev, _) => |Ahead(l, prev)|
    case Unlink(prev, _, _) => |Ahead(l, prev)|
    case ReadKey(prev, _, _) => |Ahead(l, prev)|
    case Recheck(prev, _, _, _) => |Ahead(l, prev)|
    case Write(prev, _) => |Ahead(l, prev)|
    case LinkIn(prev, _) => |Ahead(l, prev)|
    case Mark(prev, _, _) => |Ahead(l, prev)|
    case UnlinkMine(_, _, _) => 0
    case Done(_) => 0
  }

  /** A bound for the steps that the thread still has to take if nobody else
      changes the list: this pass, and another one if it is going to fail. */
  function Rank(l: List, pc: Pc): nat {
    (if Doomed(l, pc) then 5 * |l.linked| + 20 else 0) + 5 * Nodes(l, pc) + Left(pc)
  }

  lemma AheadSome(l: List, loc: Loc)
    ensures |Ahead(l, loc)| <= |l.linked|
  {
    var rest := l.linked - Ahead(l, loc);
    assert l.linked == Ahead(l, loc) + rest;
  }

  lemma RankBound(l: List, pc: Pc)
    ensures Rank(l, pc) <= 10 * |l.linked| + 29
  {
    AheadSome(l, if pc.Check? || pc.ReadNext? || pc.Unlink? || pc.ReadKey? || pc.Recheck? || pc.Write? || pc.LinkIn? || pc.Mark?
                 then pc.prev else Head);
  }

  /** Passing the node that a location points to leaves fewer nodes ahead. */
  lemma PassOne(l: List, prev: Loc, cur: Addr)
    requires ListOk(l) && LocOk(l, prev) && Read(l, prev) == Link(At(cur), false)
    ensures |Ahead(l, NextOf(cur))| < |Ahead(l, prev)|
  {
    PrevSorted(l, prev);
    Nearest(l, prev, cur, Ahead(l, prev), Ahead(l, NextOf(cur)));
  }

  lemma AheadWithout(l: List, l': List, prev: Loc, cur: Addr)
    requires cur in l.linked && l'.linked == l.linked - {cur} && Behind(l, prev, CellAt(l, cur).key)
    requires forall a {:trigger CellAt(l', a)} :: CellAt(l', a).key == CellAt(l, a).key
    ensures |l'.linked| < |l.linked| && |Ahead(l', prev)| < |Ahead(l, prev)|
  {
    assert Ahead(l', prev) == Ahead(l, prev) - {cur};
  }

  /** Unlinking it does, too. */
  lemma BypassOne(l: List, prev: Loc, cur: Addr, next: Ptr)
    requires Sorted(l, prev) && Read(l, prev) == Link(At(cur), false)
    ensures var l' := Bypass(l, prev, cur, next);
      && |l'.linked| < |l.linked| && |Ahead(l', prev)| < |Ahead(l, prev)| && Read(l', prev) == Link(next, false)
  {
    var l' := Bypass(l, prev, cur, next);
    forall a {:trigger CellAt(l', a)} ensures CellAt(l', a).key == CellAt(l, a).key { StoreKeeps(l, prev, next, a); }
    AheadWithout(l, l', prev, cur);
  }

  lemma StartRank(l: List, th: Thread)
    requires th.pc.Start?
    ensures Rank(l, Act(l, th).1) < Rank(l, th.pc)
  {
    AheadSome(l, Head);
  }

  lemma LookRank(l: List, th: Thread)
    requires th.pc.Check? || th.pc.ReadNext? || th.pc.ReadKey? || th.pc.Write?
    requires th.pc.Write? ==> th.n !in l.linked && th.pc.prev != NextOf(th.n)
    ensures Rank(Act(l, th).0, Act(l, th).1) < Rank(l, th.pc)
  {
    if th.pc.Write? {
      var l' := Act(l, th).0;
      assert forall a :: a != th.n ==> CellAt(l', a) == CellAt(l, a);
      assert Ahead(l', th.pc.prev) == Ahead(l, th.pc.prev);
    }
  }

  lemma RecheckRank(l: List, th: Thread)
    requires ListOk(l) && th.pc.Recheck? && LocOk(l, th.pc.prev)
    ensures Rank(l, Act(l, th).1) < Rank(l, th.pc)
  {
    if Read(l, th.pc.prev) == Link(At(th.pc.cur), false) { PassOne(l, th.pc.prev, th.pc.cur); }
  }

  lemma UnlinkRank(l: List, th: Thread)
    requires th.pc.Unlink? && (Read(l, th.pc.prev) == Link(At(th.pc.cur), false) ==> Sorted(l, th.pc.prev))
    ensures Rank(Act(l, th).0, Act(l, th).1) < Rank(l, th.pc)
  {
    if Read(l, th.pc.prev) == Link(At(th.pc.cur), false) { BypassOne(l, th.pc.prev, th.pc.cur, th.pc.next); }
  }

  lemma CasRank(l: List, th: Thread)
    requires th.pc.LinkIn? || th.pc.Mark? || th.pc.UnlinkMine?
    ensures Rank(Act(l, th).0, Act(l, th).1) < Rank(l, th.pc)
  {
  }

  /** Every step of the thread brings it closer to the end of its call. */
  lemma RankStep(l: List, hist: Steps, t: Tid, th: Thread)
    requires ListOk(l) && ThreadOk(l, hist, t, th) && Active(th.pc)
    ensures Rank(Act(l, th).0, Act(l, th).1) < Rank(l, th.pc)
  {
    if th.pc.Start? {
      StartRank(l, th);
    } else if th.pc.Recheck? {
      RecheckRank(l, th);
    } else if th.pc.Check? || th.pc.ReadNext? || th.pc.ReadKey? || th.pc.Write? {
      LookRank(l, th);
    } else if th.pc.Unlink? {
      if Read(l, th.pc.prev) == Link(At(th.pc.cur), false) { PrevSorted(l, th.pc.prev); }
      UnlinkRank(l, th);
    } else {
      CasRank(l, th);
    }
  }

  // ---------- Lock-freedom ----------

  /** The nodes that were ever linked in are the same, and so are the links. */
  ghost predicate Unchanged(l: List, l': List) {
    && l'.head == l.head && l'.published == l.published && l'.linked == l.linked
    && forall a {:trigger CellAt(l', a)} :: a in l.published ==> CellAt(l', a) == CellAt(l, a)
  }

  lemma AheadSame(l: List, l': List, loc: Loc)
    requires Unchanged(l, l') && l.linked <= l.published && LocOk(l, loc)
    ensures Ahead(l', loc) == Ahead(l, loc) && Read(l', loc) == Read(l, loc)
  {
  }

  lemma RankSame(l: List, l': List, hist: Steps, t: Tid, th: Thread)
    requires Unchanged(l, l') && l.linked <= l.published && ThreadOk(l, hist, t, th)
    ensures Rank(l', th.pc) == Rank(l, th.pc)
  {
    if !th.pc.Idle? && !th.pc.Done? && !th.pc.Start? { AheadSame(l, l', th.pc.prev); }
  }

  function RankIn(s: State, t: Tid): nat {
    if t < |s.threads| then Rank(s.l, s.threads[t].pc) else 0
  }

  lemma StepRank(s: State, u: Tid, c: Choice, t: Tid)
    requires Inv(s) && Enabled(s, u, c) && t < |s.threads| && Active(s.threads[t].pc)
    requires u != t ==> Unchanged(s.l, Step(s, u, c).l)
    ensures RankIn(Step(s, u, c), t) + (if u == t then 1 else 0) <= RankIn(s, t)
  {
    StepFrame(s, u, c);
    assert ThreadOk(s.l, s.hist, t, s.threads[t]);
    if u == t {
      RankStep(s.l, s.hist, t, s.threads[t]);
    } else {
      RankSame(s.l, Step(s, u, c).l, s.hist, t, s.threads[t]);
    }
  }

  /** From state `i` to state `j` thread `t` is in one call, and the others leave
      the list alone. */
  ghost predicate Undisturbed(states: seq<State>, tids: seq<Tid>, i: nat, j: nat, t: Tid)
    requires i <= j <= |tids| && |states| == |tids| + 1
  {
    && (forall k {:trigger states[k]} :: i <= k < j ==> t < |states[k].threads| && Active(states[k].threads[t].pc))
    && (forall k {:trigger tids[k]} :: i <= k < j && tids[k] != t ==> Unchanged(states[k].l, states[k + 1].l))
  }

  /** The rank of thread `t` in every state. */
  function Ranks(states: seq<State>, t: Tid): (r: seq<int>)
    ensures |r| == |states| && forall k :: 0 <= k < |states| ==> r[k] == RankIn(states[k], t)
  {
    seq(|states|, k requires 0 <= k < |states| => RankIn(states[k], t))
  }

  lemma RunFalls(states: seq<State>, tids: seq<Tid>, choices: seq<Choice>, i: nat, j: nat, t: Tid)
    requires Run(states, tids, choices) && i <= j <= |tids| && Undisturbed(states, tids, i, j, t)
    ensures Falls(Ranks(states, t), tids, i, j, t)
  {
    var ranks := Ranks(states, t);
    forall k | i <= k < j ensures ranks[k + 1] + (if tids[k] == t then 1 else 0) <= ranks[k] {
      RunInv(states, tids, choices, k);
      assert states[k + 1] == Step(states[k], tids[k], choices[k]);
      StepRank(states[k], tids[k], choices[k], t);
    }
  }

  /** A thread takes at most so many steps in a call while nobody else changes the
      list: if it does not end its call, another thread has linked in, marked or
      unlinked a node. The bound is that of two passes over the nodes in the
      list. */
  lemma LockFree(states: seq<State>, tids: seq<Tid>, choices: seq<Choice>, i: nat, j: nat, t: Tid)
    requires Run(states, tids, choices) && i <= j <= |tids| && Undisturbed(states, tids, i, j, t)
    ensures Taken(tids, i, j, t) <= 10 * |states[i].l.linked| + 29
  {
    RunFalls(states, tids, choices, i, j, t);
    TakenBound(Ranks(states, t), tids, i, j, t);
    if t < |states[i].threads| { RankBound(states[i].l, states[i].threads[t].pc); }
  }
}
