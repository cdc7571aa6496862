/** What happens to the nodes that dequeues take out of the queue with hazard
    pointers: none leaks, a scan frees all that it saw in no slot, and a thread
    keeps a bounded number of them. */
module HazardReclaim {

  import opened Basics
  import opened FifoHistory
  import opened History
  import opened HazardQueue

  // ---------- No node leaks ----------

  /** The thread has yet to retire the node, has it in its list of retired nodes or
      has yet to decide about it in a scan. */
  predicate Keeps(th: Thread, a: Addr) {
    || a in th.rlist
    || ((th.pc.DClear1? || th.pc.DClear0? || th.pc.DRetire?) && th.pc.h == a)
    || (th.pc.Sweep? && a in th.pc.tmp)
  }

  /** A node that is not in the queue and not free is with the thread that
      allocated it or took it out. */
  predicate Accounted(s: State, a: Addr) {
    match StatusOf(s.q, a)
    case Private(t) => t < |s.threads| && Adding(s.threads[t].pc) && s.threads[t].pc.n == a
    case Unlinked(t) => t < |s.threads| && Keeps(s.threads[t], a)
    case _ => true
  }

  /** The statements that change what becomes of a node. */
  predicate Handles(pc: Pc) {
    pc.Idle? || pc.ELink? || pc.DSwing?
  }

  lemma HandleStep(s: State, t: Tid, c: Choice, a: Addr)
    requires Enabled(s, t, c) && Safe(s, t, c) && Accounted(s, a) && Handles(s.threads[t].pc)
    ensures Accounted(Step(s, t, c), a)
  {
  }

  lemma TakenStep(s: State, t: Tid, c: Choice, a: Addr)
    requires Enabled(s, t, c) && Safe(s, t, c) && Accounted(s, a) && HasTaken(s.threads[t].pc)
    ensures Accounted(Step(s, t, c), a)
  {
  }

  lemma OtherStep(s: State, t: Tid, c: Choice, a: Addr)
    requires Enabled(s, t, c) && Safe(s, t, c) && Accounted(s, a) && !Handles(s.threads[t].pc) && !HasTaken(s.threads[t].pc)
    ensures Accounted(Step(s, t, c), a)
  {
  }

  /** In every state of every run, a node is in the queue, free, or with a thread
      that will link it in, retire it or decide about it in a scan. */
  lemma {:induction false} NoLeak(states: seq<State>, tids: seq<Tid>, choices: seq<Choice>, i: nat, a: Addr)
    requires Run(states, tids, choices) && i < |states|
    ensures Accounted(states[i], a)
  {
    if i > 0 {
      NoLeak(states, tids, choices, i - 1, a);
      NoUseAfterFree(states, tids, choices, i - 1);
      var s, t, c := states[i - 1], tids[i - 1], choices[i - 1];
      if Handles(s.threads[t].pc) {
        HandleStep(s, t, c, a);
      } else if HasTaken(s.threads[t].pc) {
        TakenStep(s, t, c, a);
      } else {
        OtherStep(s, t, c, a);
      }
    }
  }

  // ---------- Scans ----------

  /** From state `i` to state `j` thread `t` reads slots. */
  predicate Scanning(states: seq<State>, i: nat, j: nat, t: Tid)
    requires i <= j < |states|
  {
    forall k :: i <= k <= j ==> t < |states[k].threads| && states[k].threads[t].pc.Scan?
  }

  /** In one of the steps from `i` to `j` thread `t` reads slot `k` and finds `p`
      in it. */
  ghost predicate Reads(states: seq<State>, tids: seq<Tid>, i: nat, j: nat, t: Tid, k: nat, p: Ptr)
    requires j <= |tids| && |states| == |tids| + 1
  {
    exists l :: i <= l < j && tids[l] == t && t < |states[l].threads| && k / 2 < |states[l].threads|
      && states[l].threads[t].pc.Scan? && states[l].threads[t].pc.slot == k && Slot(states[l], k) == p
  }

  /** The thread has found the node in some slot. */
  ghost predicate Sees(states: seq<State>, tids: seq<Tid>, i: nat, j: nat, t: Tid, a: Addr)
    requires j <= |tids| && |states| == |tids| + 1
  {
    exists k: nat :: Reads(states, tids, i, j, t, k, At(a))
  }

  /** Thread `t` before and after a step of thread `u`, while it reads slots. */
  predicate ScanStep(s: State, s': State, u: Tid, t: Tid) {
    && t < |s.threads| == |s'.threads|
    && var th, th' := s.threads[t], s'.threads[t];
       if u != t then th' == th
       else
         && th.pc.Scan? && th'.pc.Scan? && th'.rlist == th.rlist && th.pc.slot / 2 < |s.threads|
         && th'.pc.slot == th.pc.slot + 1
         && th'.pc.plist == match Slot(s, th.pc.slot) case Null => th.pc.plist case At(a) => th.pc.plist + {a}
  }

  predicate ScanSteps(states: seq<State>, tids: seq<Tid>, i: nat, j: nat, t: Tid)
    requires i <= j <= |tids| && |states| == |tids| + 1
  {
    forall k :: i <= k < j ==> ScanStep(states[k], states[k + 1], tids[k], t)
  }

  lemma ReadsLater(states: seq<State>, tids: seq<Tid>, i: nat, j: nat, t: Tid, k: nat, p: Ptr)
    requires j < |tids| && |states| == |tids| + 1
    ensures Reads(states, tids, i, j, t, k, p) ==> Reads(states, tids, i, j + 1, t, k, p)
  {
    if Reads(states, tids, i, j, t, k, p) {
      var l :| i <= l < j && tids[l] == t && t < |states[l].threads| && k / 2 < |states[l].threads|
        && states[l].threads[t].pc.Scan? && states[l].threads[t].pc.slot == k && Slot(states[l], k) == p;
      assert l < j + 1;
    }
  }

  lemma ReadsNow(states: seq<State>, tids: seq<Tid>, i: nat, j: nat, t: Tid, k: nat)
    requires i <= j < |tids| && |states| == |tids| + 1 && tids[j] == t && t < |states[j].threads|
    requires states[j].threads[t].pc.Scan? && states[j].threads[t].pc.slot == k && k / 2 < |states[j].threads|
    ensures Reads(states, tids, i, j + 1, t, k, Slot(states[j], k))
  {
    var l := j;
    assert i <= l < j + 1 && states[l].threads[t].pc.slot == k && Slot(states[l], k) == Slot(states[j], k);
  }

  /** What is read by the end of step `j` was read before, or in that step. */
  lemma ReadsBefore(states: seq<State>, tids: seq<Tid>, i: nat, j: nat, t: Tid, k: nat, p: Ptr)
    requires j < |tids| && |states| == |tids| + 1 && Reads(states, tids, i, j + 1, t, k, p)
    ensures Reads(states, tids, i, j, t, k, p)
      || (tids[j] == t && t < |states[j].threads| && k / 2 < |states[j].threads| && states[j].threads[t].pc.Scan?
          && states[j].threads[t].pc.slot == k && Slot(states[j], k) == p)
  {
    var l :| i <= l < j + 1 && tids[l] == t && t < |states[l].threads| && k / 2 < |states[l].threads|
      && states[l].threads[t].pc.Scan? && states[l].threads[t].pc.slot == k && Slot(states[l], k) == p;
    assert l < j || l == j;
  }

  /** The set `plist` holds the nodes seen so far. */
  ghost predicate Listed(states: seq<State>, tids: seq<Tid>, i: nat, j: nat, t: Tid, plist: set<Addr>)
    requires j <= |tids| && |states| == |tids| + 1
  {
    forall a {:trigger a in plist} {:trigger Sees(states, tids, i, j, t, a)} ::
      a in plist <==> Sees(states, tids, i, j, t, a)
  }

  ghost predicate WasRead(states: seq<State>, tids: seq<Tid>, i: nat, j: nat, t: Tid, k: nat)
    requires j <= |tids| && |states| == |tids| + 1
  {
    exists p: Ptr :: Reads(states, tids, i, j, t, k, p)
  }

  /** The slots before `n` were read. */
  ghost predicate ReadUpTo(states: seq<State>, tids: seq<Tid>, i: nat, j: nat, t: Tid, n: nat)
    requires j <= |tids| && |states| == |tids| + 1
  {
    forall k: nat :: k < n ==> WasRead(states, tids, i, j, t, k)
  }

  lemma SeesNext(states: seq<State>, tids: seq<Tid>, i: nat, j: nat, t: Tid, a: Addr)
    requires i <= j < |tids| && |states| == |tids| + 1 && ScanStep(states[j], states[j + 1], tids[j], t)
    requires states[j].threads[t].pc.Scan?
    ensures Sees(states, tids, i, j + 1, t, a) <==>
      Sees(states, tids, i, j, t, a) || (tids[j] == t && Slot(states[j], states[j].threads[t].pc.slot) == At(a))
  {
    if Sees(states, tids, i, j, t, a) {
      var k: nat :| Reads(states, tids, i, j, t, k, At(a));
      ReadsLater(states, tids, i, j, t, k, At(a));
    }
    if tids[j] == t { ReadsNow(states, tids, i, j, t, states[j].threads[t].pc.slot); }
    if Sees(states, tids, i, j + 1, t, a) {
      var k: nat :| Reads(states, tids, i, j + 1, t, k, At(a));
      ReadsBefore(states, tids, i, j, t, k, At(a));
    }
  }

  lemma ListedNext(states: seq<State>, tids: seq<Tid>, i: nat, j: nat, t: Tid)
    requires i <= j < |tids| && |states| == |tids| + 1 && ScanStep(states[j], states[j + 1], tids[j], t)
    requires states[j].threads[t].pc.Scan? && Listed(states, tids, i, j, t, states[j].threads[t].pc.plist)
    ensures states[j + 1].threads[t].pc.Scan? && Listed(states, tids, i, j + 1, t, states[j + 1].threads[t].pc.plist)
  {
    var was, now := states[j].threads[t].pc.plist, states[j + 1].threads[t].pc.plist;
    forall a {:trigger a in now} ensures a in now <==> Sees(states, tids, i, j + 1, t, a) {
      SeesNext(states, tids, i, j, t, a);
      assert a in was <==> Sees(states, tids, i, j, t, a);
    }
  }

  lemma ReadNext(states: seq<State>, tids: seq<Tid>, i: nat, j: nat, t: Tid)
    requires i <= j < |tids| && |states| == |tids| + 1 && ScanStep(states[j], states[j + 1], tids[j], t)
    requires states[j].threads[t].pc.Scan? && ReadUpTo(states, tids, i, j, t, states[j].threads[t].pc.slot)
    ensures states[j + 1].threads[t].pc.Scan? && ReadUpTo(states, tids, i, j + 1, t, states[j + 1].threads[t].pc.slot)
  {
    var n, next := states[j].threads[t].pc.slot, j + 1;
    forall k: nat | k < n ensures WasRead(states, tids, i, next, t, k) {
      assert WasRead(states, tids, i, j, t, k);
      var p: Ptr :| Reads(states, tids, i, j, t, k, p);
      ReadsLater(states, tids, i, j, t, k, p);
    }
    if tids[j] == t {
      ReadsNow(states, tids, i, j, t, n);
      assert WasRead(states, tids, i, next, t, n);
    }
  }

  lemma {:induction false} ScanSoFar(states: seq<State>, tids: seq<Tid>, i: nat, j: nat, t: Tid)
    requires i <= j <= |tids| && |states| == |tids| + 1 && ScanSteps(states, tids, i, j, t)
    requires t < |states[i].threads| && states[i].threads[t].pc == Scan(0, {})
    ensures t < |states[j].threads| == |states[i].threads| && states[j].threads[t].pc.Scan?
    ensures states[j].threads[t].rlist == states[i].threads[t].rlist
    ensures Listed(states, tids, i, j, t, states[j].threads[t].pc.plist)
    ensures ReadUpTo(states, tids, i, j, t, states[j].threads[t].pc.slot)
    decreases j
  {
    if i < j {
      ScanSoFar(states, tids, i, j - 1, t);
      assert ScanStep(states[j - 1], states[j - 1 + 1], tids[j - 1], t);
      ListedNext(states, tids, i, j - 1, t);
      ReadNext(states, tids, i, j - 1, t);
    }
  }

  // ---------- Sweeps ----------

  /** From state `i` to state `j` thread `t` sweeps its retired nodes. */
  predicate Sweeping(states: seq<State>, i: nat, j: nat, t: Tid)
    requires i <= j < |states|
  {
    forall k :: i <= k <= j ==> t < |states[k].threads| && states[k].threads[t].pc.Sweep?
  }

  /** The retired nodes `all` that were looked at are back in the list if they are
      in `plist`, and were freed otherwise. */
  ghost predicate Swept(s: State, th: Thread, plist: set<Addr>, all: set<Addr>, gen: map<Addr, nat>) {
    && th.pc.Sweep? && th.pc.plist == plist && th.pc.tmp <= all && th.rlist == (all - th.pc.tmp) * plist
    && (forall a :: a in all ==> a in gen)
    && (forall a {:trigger GenOf(s.q, a)} :: a in all ==>
          GenOf(s.q, a) >= gen[a] + if a in plist || a in th.pc.tmp then 0 else 1)
  }

  lemma GenStep(s: State, t: Tid, c: Choice, a: Addr)
    requires Enabled(s, t, c) && Safe(s, t, c)
    ensures GenOf(Step(s, t, c).q, a) == GenOf(s.q, a) +
      if s.threads[t].pc.Sweep? && s.threads[t].pc.tmp != {} && c.a == a && a !in s.threads[t].pc.plist then 1 else 0
  {
  }

  lemma SweptStep(s: State, u: Tid, c: Choice, t: Tid, plist: set<Addr>, all: set<Addr>, gen: map<Addr, nat>)
    requires Enabled(s, u, c) && Safe(s, u, c) && t < |s.threads| && Swept(s, s.threads[t], plist, all, gen)
    requires u == t ==> s.threads[t].pc.tmp != {}
    ensures |Step(s, u, c).threads| == |s.threads| && Swept(Step(s, u, c), Step(s, u, c).threads[t], plist, all, gen)
  {
    var s' := Step(s, u, c);
    Others(s, u, c);
    forall a {:trigger GenOf(s'.q, a)} ensures GenOf(s'.q, a) >= GenOf(s.q, a) { GenStep(s, u, c, a); }
    if u == t { GenStep(s, u, c, c.a); }
  }

  lemma {:induction false} SweepSoFar(states: seq<State>, tids: seq<Tid>, choices: seq<Choice>, i: nat, j: nat, t: Tid,
                                      gen: map<Addr, nat>)
    requires Run(states, tids, choices) && i <= j < |states| && Sweeping(states, i, j, t)
    requires var th := states[i].threads[t]; th.rlist == {} && Swept(states[i], th, th.pc.plist, th.pc.tmp, gen)
    ensures var th := states[i].threads[t]; Swept(states[j], states[j].threads[t], th.pc.plist, th.pc.tmp, gen)
    decreases j
  {
    if i < j {
      SweepSoFar(states, tids, choices, i, j - 1, t, gen);
      NoUseAfterFree(states, tids, choices, j - 1);
      var th := states[i].threads[t];
      SweptStep(states[j - 1], tids[j - 1], choices[j - 1], t, th.pc.plist, th.pc.tmp, gen);
    }
  }

  lemma RunScanStep(states: seq<State>, tids: seq<Tid>, choices: seq<Choice>, k: nat, t: Tid)
    requires Run(states, tids, choices) && k < |tids| && t < |states[k].threads| && t < |states[k + 1].threads|
    requires states[k].threads[t].pc.Scan? && states[k + 1].threads[t].pc.Scan?
    ensures ScanStep(states[k], states[k + 1], tids[k], t)
  {
    NoUseAfterFree(states, tids, choices, k);
    Others(states[k], tids[k], choices[k]);
  }

  lemma RunScanEnd(states: seq<State>, tids: seq<Tid>, choices: seq<Choice>, k: nat, t: Tid)
    requires Run(states, tids, choices) && k < |tids| && t < |states[k].threads| && t < |states[k + 1].threads|
    requires states[k].threads[t].pc.Scan? && states[k + 1].threads[t].pc.Sweep?
    ensures var th, th' := states[k].threads[t], states[k + 1].threads[t];
      && th.pc.slot >= 2 * |states[k].threads| && th'.pc == Sweep(th.pc.plist, th.rlist) && th'.rlist == {}
      && states[k + 1].q.gen == states[k].q.gen
  {
    NoUseAfterFree(states, tids, choices, k);
    Others(states[k], tids[k], choices[k]);
  }

  lemma {:induction false} GenGrows(states: seq<State>, tids: seq<Tid>, choices: seq<Choice>, i: nat, j: nat, a: Addr)
    requires Run(states, tids, choices) && i <= j < |states|
    ensures GenOf(states[i].q, a) <= GenOf(states[j].q, a)
    decreases j
  {
    if i < j {
      GenGrows(states, tids, choices, i, j - 1, a);
      FreeCounts(states, tids, choices, j - 1, a);
    }
  }

  /** A scan reads every hazard slot once, and then frees every retired node that
      it found in none of them and puts the others back in the list. The scan is
      from state `i` on, its sweep starts behind state `m` and is over in state
      `j`. */
  lemma ScanFrees(states: seq<State>, tids: seq<Tid>, choices: seq<Choice>, i: nat, m: nat, j: nat, t: Tid)
    requires Run(states, tids, choices) && i <= m < j < |states|
    requires Scanning(states, i, m, t) && states[i].threads[t].pc == Scan(0, {})
    requires Sweeping(states, m + 1, j, t) && states[j].threads[t].pc.tmp == {}
    ensures forall k: nat :: k < 2 * |states[i].threads| ==> WasRead(states, tids, i, m, t, k)
    ensures forall a :: a in states[j].threads[t].rlist <==> a in states[i].threads[t].rlist && Sees(states, tids, i, m, t, a)
    ensures forall a :: a in states[i].threads[t].rlist && !Sees(states, tids, i, m, t, a) ==>
      GenOf(states[j].q, a) > GenOf(states[i].q, a)
  {
    forall k | i <= k < m ensures ScanStep(states[k], states[k + 1], tids[k], t) { RunScanStep(states, tids, choices, k, t); }
    ScanSoFar(states, tids, i, m, t);
    RunScanEnd(states, tids, choices, m, t);
    var rlist, plist := states[i].threads[t].rlist, states[m].threads[t].pc.plist;
    var gen := map a | a in rlist :: GenOf(states[m + 1].q, a);
    SweepSoFar(states, tids, choices, m + 1, j, t, gen);
    forall a | a in rlist && a !in plist ensures GenOf(states[j].q, a) > GenOf(states[i].q, a) {
      GenGrows(states, tids, choices, i, m + 1, a);
    }
    forall a ensures a in plist <==> Sees(states, tids, i, m, t, a) { }
  }

  // ---------- Retired nodes ----------

  /** How many retired nodes the thread has. */
  function Retired(th: Thread): nat {
    |th.rlist| + if th.pc.Sweep? then |th.pc.tmp| else 0
  }

  /** With fewer slots than retired nodes that start a scan, the nodes that a scan
      leaves do not start the next one. */
  predicate Bounded(th: Thread, n: nat, limit: nat) {
    match th.pc
    case Scan(k, plist) => |th.rlist| <= limit && |plist| <= k <= 2 * n
    case Sweep(plist, tmp) => |th.rlist| + |tmp| <= limit && |plist| <= 2 * n && th.rlist <= plist
    case _ => |th.rlist| < limit
  }

  lemma SmallerSet(a: set<Addr>, b: set<Addr>)
    requires a <= b
    ensures |a| <= |b|
  {
    var rest := b - a;
    assert b == a + rest;
  }

  lemma ReclaimBounded(s: State, t: Tid, c: Choice)
    requires Enabled(s, t, c) && Safe(s, t, c) && 2 * |s.threads| < s.limit && Bounded(s.threads[t], |s.threads|, s.limit)
    requires s.threads[t].pc.DRetire? || s.threads[t].pc.Scan? || s.threads[t].pc.Sweep?
    ensures |Step(s, t, c).threads| == |s.threads| && Step(s, t, c).limit == s.limit
    ensures Bounded(Step(s, t, c).threads[t], |s.threads|, s.limit)
  {
    var th := s.threads[t];
    if th.pc.Sweep? { SmallerSet(th.rlist, th.pc.plist); }
  }

  /** The other statements do not touch the list of retired nodes. */
  lemma OtherBounded(s: State, t: Tid, c: Choice)
    requires Enabled(s, t, c) && Safe(s, t, c)
    requires !s.threads[t].pc.DRetire? && !s.threads[t].pc.Scan? && !s.threads[t].pc.Sweep?
    ensures |Step(s, t, c).threads| == |s.threads| && Step(s, t, c).limit == s.limit
    ensures var th, th' := s.threads[t], Step(s, t, c).threads[t]; th'.rlist == th.rlist && !th'.pc.Scan? && !th'.pc.Sweep?
  {
  }

  /** When there are fewer hazard slots than retired nodes that start a scan, as the
      source chooses them, no thread ever has more retired nodes than that. */
  lemma {:induction false} GarbageBounded(states: seq<State>, tids: seq<Tid>, choices: seq<Choice>, i: nat, t: Tid)
    requires Run(states, tids, choices) && i < |states| && t < |states[i].threads| && 2 * |states[0].threads| < states[0].limit
    ensures Bounded(states[i].threads[t], |states[i].threads|, states[i].limit)
    ensures |states[i].threads| == |states[0].threads| && states[i].limit == states[0].limit
    ensures Retired(states[i].threads[t]) <= states[0].limit
  {
    if i > 0 {
      NoUseAfterFree(states, tids, choices, i - 1);
      Others(states[i - 1], tids[i - 1], choices[i - 1]);
      GarbageBounded(states, tids, choices, i - 1, t);
      var s, u, c := states[i - 1], tids[i - 1], choices[i - 1];
      if s.threads[u].pc.DRetire? || s.threads[u].pc.Scan? || s.threads[u].pc.Sweep? {
        GarbageBounded(states, tids, choices, i - 1, u);
        ReclaimBounded(s, u, c);
      } else {
        OtherBounded(s, u, c);
      }
    }
  }

  // ---------- Slots ----------

  /** A thread that is about to retire a node or is between two calls has cleared
      its slots, unless its dequeue has found the queue empty. */
  predicate Cleared(th: Thread) {
    && (th.pc.EClear0? || th.pc.DClear0? ==> th.hp1 == Null)
    && (th.pc.DRetire? || th.pc.Scan? || th.pc.Sweep? ==> th.hp0 == th.hp1 == Null)
    && (th.pc.Idle? && th.call.answer != Some(Empty) ==> th.hp0 == th.hp1 == Null)
  }

  lemma ClearedStep(s: State, t: Tid, c: Choice)
    requires Enabled(s, t, c) && Safe(s, t, c) && Cleared(s.threads[t]) && AnswerOk(s.threads[t])
    ensures |Step(s, t, c).threads| == |s.threads| && Cleared(Step(s, t, c).threads[t])
  {
  }

  /** Slots do not keep a node from being freed longer than a call needs it. */
  lemma {:induction false} SlotsCleared(states: seq<State>, tids: seq<Tid>, choices: seq<Choice>, i: nat, t: Tid)
    requires Run(states, tids, choices) && i < |states| && t < |states[i].threads|
    ensures Cleared(states[i].threads[t])
  {
    if i > 0 {
      NoUseAfterFree(states, tids, choices, i - 1);
      Others(states[i - 1], tids[i - 1], choices[i - 1]);
      SlotsCleared(states, tids, choices, i - 1, t);
      if t == tids[i - 1] {
        RunInv(states, tids, choices, i - 1);
        ClearedStep(states[i - 1], t, choices[i - 1]);
      }
    }
  }

  /** A thread that sees the tail behind the last node helps: after its step the
      tail is not where the thread saw it. */
  lemma HelpMoves(states: seq<State>, tids: seq<Tid>, choices: seq<Choice>, i: nat)
    requires Run(states, tids, choices) && i < |tids| && tids[i] < |states[i].threads|
    requires MovesTail(states[i].threads[tids[i]].pc)
    ensures states[i + 1].q.tail != Guard0(states[i].threads[tids[i]].pc).a
  {
    NoUseAfterFree(states, tids, choices, i);
    RunInv(states, tids, choices, i);
    var q, t := states[i].q, tids[i];
    var th := states[i].threads[t];
    assert ThreadOk(q, states[i].hist, t, th);
    NextOther(q, Guard0(th.pc).a);
  }

  lemma NextOther(q: Queue, a: Addr)
    requires ChainOk(q) && Hazardous(q, a) && (StatusOf(q, a).Linked? || a !in q.chain)
    ensures StatusOf(q, a).Linked? ==> NodeAt(q.mem, a).next != At(a)
    ensures StatusOf(q, a).Unlinked? ==> q.tail != a
  {
    if StatusOf(q, a).Linked? { var i := Position(q, a); }
  }
}
