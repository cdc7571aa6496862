/** Duration-based reclamation of a shared object (the variant without
    stop-the-world marking): calls that enter and leave the object, the durations
    they close, and the election of the one that cleans the closed durations.
    Every atomic access is one step. */
module Durations {

  import opened Basics

  /** A call of a method of the shared object: it enters once and leaves once. */
  type Pid = nat

  /** `members` are the calls that have to leave the duration before it is
      cleaned: those that entered it and the one that closed it. `exited` are
      those that made their exit increment and `last` the one that made the last
      increment. `closed` says that `entry` is final. */
  datatype Duration = Duration(entry: nat, exit: nat, collectible: bool, closed: bool,
                               members: set<Pid>, exited: set<Pid>, last: Option<Pid>)

  /** The state of the object's collector. Durations are named by their place in
      the order of creation. `cleaned` is the number of durations taken from the
      queue, `closer` the call that is closing a duration and `holder` the one
      that holds the lock of the collector. */
  datatype Gc = Gc(durs: seq<Duration>, current: nat, aba: nat, entry: nat, queue: seq<nat>, cleaned: nat,
                   pending: nat, locked: bool, closer: Option<Pid>, holder: Option<Pid>)

  datatype Pc =
    | Outside
    | EnterAba
    | EnterDur(aba: nat)
    | EnterCount(aba: nat, d: nat)
    | EnterCas(aba: nat, d: nat, count: nat)
    | Inside
    | ExitAba
    | ExitCas(aba: nat)
    | Exchange
    | Install(d: nat)
    | Push(d: nat)
    | Release(d: nat)
    | Exiting
    | SetCollectible(d: nat)
    | Pend
    | Lock
    | FirstLoad
    | FirstCas
    | Top
    | Peek
    | Look(d: nat)
    | Clean(d: nat)
    | Pop(d: nat)
    | Recheck
    | Unlock
    | Done

  /** `my` is the duration that the call entered and `todo` the durations it
      still has to leave. */
  datatype Call = Call(pc: Pc, my: nat, todo: seq<nat>)

  datatype State = State(g: Gc, calls: seq<Call>)

  const FRESH := Duration(0, 0, false, false, {}, {}, None)

  function DurAt(durs: seq<Duration>, d: nat): Duration {
    if d < |durs| then durs[d] else FRESH
  }

  function SetDur(durs: seq<Duration>, d: nat, v: Duration): seq<Duration> {
    if d < |durs| then durs[d := v] else durs
  }

  /** The asserts of the source, and that the queue yields what was peeked. */
  predicate Safe(g: Gc, c: Call) {
    match c.pc
    case Release(_) => g.aba % 2 == 1
    case Exiting => c.todo != [] && DurAt(g.durs, c.todo[0]).closed && !DurAt(g.durs, c.todo[0]).collectible
    case Top => g.pending > 0
    case Pop(d) => g.queue != [] && g.queue[0] == d
    case _ => true
  }

  /** Back from set_collectible: leave the next duration, if any. */
  function Return(c: Call): Call {
    c.(pc := if c.todo == [] then Done else Exiting)
  }

  function Entered(g: Gc, p: Pid, d: nat): Gc {
    var dur := DurAt(g.durs, d);
    g.(durs := SetDur(g.durs, d, dur.(members := dur.members + {p})), entry := g.entry + 1)
  }

  function Closed(g: Gc, p: Pid, my: nat): Gc {
    var dur := DurAt(g.durs, g.current);
    var n := g.entry + if g.current != my then 1 else 0;
    g.(durs := SetDur(g.durs, g.current, dur.(entry := n, closed := true, members := dur.members + {p})), entry := 0)
  }

  function Exited(g: Gc, p: Pid, d: nat): Gc {
    var dur := DurAt(g.durs, d);
    g.(durs := SetDur(g.durs, d, dur.(exit := dur.exit + 1, exited := dur.exited + {p},
                                      last := if dur.exit == dur.entry - 1 then Some(p) else dur.last)))
  }

  function Collectible(g: Gc, d: nat): Gc {
    g.(durs := SetDur(g.durs, d, DurAt(g.durs, d).(collectible := true)))
  }

  /** CAS(&pending_lock, {pending 0, lock 1}, {pending 0, lock 0}). */
  predicate CanUnlock(g: Gc) {
    g.pending == 0 && g.locked
  }

  /** The next statement of call `p`. */
  function Act(g: Gc, p: Pid, c: Call): (Gc, Call)
    requires Safe(g, c)
  {
    match c.pc
    case Outside => (g, c.(pc := EnterAba))
    case EnterAba => (g, if g.aba % 2 != 0 then c else c.(pc := EnterDur(g.aba)))
    case EnterDur(aba) => (g, c.(pc := EnterCount(aba, g.current)))
    case EnterCount(aba, d) => (g, c.(pc := EnterCas(aba, d, g.entry)))
    case EnterCas(aba, d, count) =>
      if g.aba == aba && g.entry == count then (Entered(g, p, d), c.(pc := Inside, my := d))
      else (g, c.(pc := if g.aba != aba then EnterAba else EnterCas(aba, d, g.entry)))
    case Inside => (g, c.(pc := ExitAba))
    case ExitAba => (g, if g.aba % 2 != 0 then c else c.(pc := ExitCas(g.aba)))
    case ExitCas(aba) =>
      if g.aba == aba then (g.(aba := aba + 1, closer := Some(p)), c.(pc := Exchange))
      else (g, c.(pc := ExitAba))
    case Exchange => (Closed(g, p, c.my), c.(pc := Install(g.current)))
    case Install(d) => (g.(current := |g.durs|, durs := g.durs + [FRESH]), c.(pc := Push(d)))
    case Push(d) => (g.(queue := g.queue + [d]), c.(pc := Release(d)))
    case Release(d) =>
      (g.(aba := g.aba + 1, closer := None), c.(pc := Exiting, todo := if d != c.my then [d, c.my] else [d]))
    case Exiting =>
      var d := c.todo[0];
      var rest := c.(todo := c.todo[1..]);
      (Exited(g, p, d), if DurAt(g.durs, d).exit == DurAt(g.durs, d).entry - 1 then rest.(pc := SetCollectible(d)) else Return(rest))
    case SetCollectible(d) => (Collectible(g, d), c.(pc := Pend))
    case Pend => (g.(pending := g.pending + 1), if g.pending != 0 then Return(c) else c.(pc := Lock))
    case Lock => if g.locked then (g, Return(c)) else (g.(locked := true, holder := Some(p)), c.(pc := FirstLoad))
    case FirstLoad => (g, c.(pc := if g.pending == 0 then FirstCas else Top))
    case FirstCas =>
      if CanUnlock(g) then (g.(locked := false, holder := None), Return(c)) else (g, c.(pc := Top))
    case Top => (g.(pending := g.pending - 1), c.(pc := Peek))
    case Peek => (g, c.(pc := if g.queue == [] then Recheck else Look(g.queue[0])))
    case Look(d) => (g, c.(pc := if DurAt(g.durs, d).collectible then Clean(d) else Recheck))
    case Clean(d) => (g, c.(pc := Pop(d)))
    case Pop(d) => (g.(queue := g.queue[1..], cleaned := g.cleaned + 1), c.(pc := Peek))
    case Recheck => (g, c.(pc := if g.pending > 0 then Top else Unlock))
    case Unlock =>
      if CanUnlock(g) then (g.(locked := false, holder := None), Return(c)) else (g, c.(pc := Top))
    case Done => (g, c)
  }

  function Step(s: State, p: Pid): State
    requires p < |s.calls| && Safe(s.g, s.calls[p])
  {
    var (g, c) := Act(s.g, p, s.calls[p]);
    State(g, s.calls[p := c])
  }

  /** A step that breaks an assert may lead anywhere. */
  ghost predicate Next(s: State, p: Pid, s': State) {
    p < |s.calls| && (Safe(s.g, s.calls[p]) ==> s' == Step(s, p))
  }

  predicate Init(s: State) {
    && s.g == Gc([FRESH], 0, 0, 0, [], 0, 0, false, None, None)
    && (forall p :: 0 <= p < |s.calls| ==> s.calls[p] == Call(Outside, 0, []))
  }

  // ---------- Invariant ----------

  ghost predicate DurOk(v: Duration) {
    && v.exited <= v.members && v.exit == |v.exited|
    && (v.closed ==> v.entry == |v.members|)
    && (!v.closed ==> v.exited == {} && v.last == None)
    && (v.last.Some? <==> v.closed && v.exited == v.members)
    && (v.collectible ==> v.last.Some?)
  }

  /** A call is in the middle of closing a duration. */
  predicate Closing(pc: Pc) {
    pc.Exchange? || pc.Install? || pc.Push? || pc.Release?
  }

  /** A call holds the lock of the collector. */
  predicate Holding(pc: Pc) {
    pc.FirstLoad? || pc.FirstCas? || pc.Top? || pc.Peek? || pc.Look? || pc.Clean? || pc.Pop? || pc.Recheck? || pc.Unlock?
  }

  /** A call is between setting a duration collectible and returning from
      collect. */
  predicate Collecting(pc: Pc) {
    pc.Pend? || pc.Lock? || Holding(pc)
  }

  /** The holder of the lock is going to look at the front of the queue. */
  predicate Draining(pc: Pc) {
    pc.Peek? || pc.Look? || pc.Clean? || pc.Pop?
  }

  /** The number of durations that were ever queued. */
  function Queued(g: Gc): nat {
    g.cleaned + |g.queue|
  }

  ghost predicate GcOk(g: Gc) {
    && |g.durs| == g.current + 1
    && (forall d: nat {:trigger DurAt(g.durs, d)} :: DurOk(DurAt(g.durs, d)) && (d < g.current ==> DurAt(g.durs, d).closed))
    && g.entry == (if DurAt(g.durs, g.current).closed then 0 else |DurAt(g.durs, g.current).members|)
    && (g.aba % 2 == 1 <==> g.closer.Some?)
    && (g.closer.None? ==> !DurAt(g.durs, g.current).closed && Queued(g) == g.current)
    && Queued(g) <= g.current
    && (forall i :: 0 <= i < |g.queue| ==> g.queue[i] == g.cleaned + i)
    && (forall d: nat {:trigger DurAt(g.durs, d)} :: d < g.cleaned ==> DurAt(g.durs, d).collectible)
    && (g.locked <==> g.holder.Some?)
  }

  /** The call takes part in exactly these durations, and has left none. */
  ghost predicate OnlyIn(g: Gc, p: Pid, ds: set<nat>) {
    forall d: nat {:trigger DurAt(g.durs, d)} :: (p in DurAt(g.durs, d).members <==> d in ds) && p !in DurAt(g.durs, d).exited
  }

  /** The call still has to leave a closed duration. */
  predicate Owes(g: Gc, p: Pid, d: nat) {
    p in DurAt(g.durs, d).members && p !in DurAt(g.durs, d).exited && DurAt(g.durs, d).closed
  }

  predicate OwesAll(g: Gc, p: Pid, todo: seq<nat>) {
    && (forall i :: 0 <= i < |todo| ==> Owes(g, p, todo[i]))
    && (forall i, j :: 0 <= i < j < |todo| ==> todo[i] != todo[j])
  }

  ghost predicate CallOk(g: Gc, p: Pid, c: Call) {
    && (Closing(c.pc) ==> g.closer == Some(p))
    && (Holding(c.pc) ==> g.holder == Some(p))
    && (c.pc.Exiting? || c.pc.SetCollectible? || Collecting(c.pc) ==> OwesAll(g, p, c.todo))
    && match c.pc
       case Outside => OnlyIn(g, p, {})
       case EnterAba => OnlyIn(g, p, {})
       case EnterDur(aba) => OnlyIn(g, p, {}) && aba % 2 == 0 && aba <= g.aba
       case EnterCount(aba, d) => OnlyIn(g, p, {}) && aba % 2 == 0 && aba <= g.aba && (aba == g.aba ==> d == g.current)
       case EnterCas(aba, d, _) => OnlyIn(g, p, {}) && aba % 2 == 0 && aba <= g.aba && (aba == g.aba ==> d == g.current)
       case Inside => OnlyIn(g, p, {c.my})
       case ExitAba => OnlyIn(g, p, {c.my})
       case ExitCas(aba) => OnlyIn(g, p, {c.my}) && aba % 2 == 0
       case Exchange => OnlyIn(g, p, {c.my}) && !DurAt(g.durs, g.current).closed && Queued(g) == g.current
       case Install(d) =>
         d == g.current && Owes(g, p, d) && Owes(g, p, c.my) && DurAt(g.durs, d).closed && Queued(g) == g.current
       case Push(d) =>
         d + 1 == g.current && Owes(g, p, d) && Owes(g, p, c.my) && !DurAt(g.durs, g.current).closed && Queued(g) == d
       case Release(d) =>
         Owes(g, p, d) && Owes(g, p, c.my) && !DurAt(g.durs, g.current).closed && Queued(g) == g.current
       case Exiting => c.todo != []
       case SetCollectible(d) => DurAt(g.durs, d).last == Some(p) && !DurAt(g.durs, d).collectible
       case Top => g.pending > 0
       case Look(d) => g.queue != [] && g.queue[0] == d
       case Clean(d) => g.queue != [] && g.queue[0] == d && DurAt(g.durs, d).collectible
       case Pop(d) => g.queue != [] && g.queue[0] == d && DurAt(g.durs, d).collectible
       case _ => true
  }

  /** What call `u` relies on when another one takes a step. */
  ghost predicate Keeps(g: Gc, g': Gc, u: Pid) {
    && (forall d: nat {:trigger DurAt(g'.durs, d)} ::
          var v, v' := DurAt(g.durs, d), DurAt(g'.durs, d);
          && (u in v'.members <==> u in v.members) && (u in v'.exited <==> u in v.exited)
          && (v.closed ==> v'.closed) && (v.collectible ==> v'.collectible)
          && (v'.last == Some(u) <==> v.last == Some(u)) && (v.last == Some(u) ==> v'.collectible == v.collectible))
    && g.aba <= g'.aba && (g'.aba == g.aba && g.aba % 2 == 0 ==> g'.current == g.current)
    && (g.closer == Some(u) ==>
          && g'.closer == Some(u) && g'.current == g.current && Queued(g') == Queued(g)
          && DurAt(g'.durs, g.current).closed == DurAt(g.durs, g.current).closed)
    && (g.holder == Some(u) ==>
          && g'.holder == Some(u) && g'.pending >= g.pending
          && (g.queue != [] ==> g'.queue != [] && g'.queue[0] == g.queue[0]))
  }

  lemma KeepsOk(g: Gc, g': Gc, u: Pid, c: Call)
    requires CallOk(g, u, c) && Keeps(g, g', u)
    ensures CallOk(g', u, c)
  {
    if c.pc.Exiting? || c.pc.SetCollectible? || Collecting(c.pc) {
      forall i | 0 <= i < |c.todo| ensures Owes(g', u, c.todo[i]) { assert Owes(g, u, c.todo[i]); }
    }
  }

  // ---------- Changes of the collector's state ----------

  lemma SetDurAt(durs: seq<Duration>, d: nat, v: Duration)
    requires d < |durs|
    ensures |SetDur(durs, d, v)| == |durs|
    ensures forall e: nat {:trigger DurAt(SetDur(durs, d, v), e)} ::
      DurAt(SetDur(durs, d, v), e) == if e == d then v else DurAt(durs, e)
  {
  }

  lemma EnteredOk(g: Gc, p: Pid, d: nat)
    requires GcOk(g) && g.aba % 2 == 0 && d == g.current && OnlyIn(g, p, {})
    ensures var g' := Entered(g, p, d); GcOk(g') && OnlyIn(g', p, {d}) && forall u :: u != p ==> Keeps(g, g', u)
  {
    var dur := DurAt(g.durs, d);
    SetDurAt(g.durs, d, dur.(members := dur.members + {p}));
  }

  lemma ClosedOk(g: Gc, p: Pid, my: nat)
    requires GcOk(g) && OnlyIn(g, p, {my}) && !DurAt(g.durs, g.current).closed && g.closer == Some(p) && Queued(g) == g.current
    ensures var g' := Closed(g, p, my);
      GcOk(g') && Owes(g', p, g.current) && Owes(g', p, my) && forall u :: u != p ==> Keeps(g, g', u)
  {
    var dur := DurAt(g.durs, g.current);
    var n := g.entry + if g.current != my then 1 else 0;
    SetDurAt(g.durs, g.current, dur.(entry := n, closed := true, members := dur.members + {p}));
    assert my <= g.current by { assert p in DurAt(g.durs, my).members; }
    assert dur.members + {p} == if my == g.current then dur.members else dur.members + {p};
  }

  lemma InstallOk(g: Gc, p: Pid)
    requires GcOk(g) && g.closer == Some(p) && DurAt(g.durs, g.current).closed && Queued(g) == g.current
    ensures var g' := g.(current := |g.durs|, durs := g.durs + [FRESH]);
      && GcOk(g') && (forall u :: u != p ==> Keeps(g, g', u))
      && forall d: nat {:trigger DurAt(g'.durs, d)} :: DurAt(g'.durs, d) == DurAt(g.durs, d)
  {
    var g' := g.(current := |g.durs|, durs := g.durs + [FRESH]);
    assert forall d: nat {:trigger DurAt(g'.durs, d)} :: DurAt(g'.durs, d) == DurAt(g.durs, d);
  }

  lemma PushOk(g: Gc, p: Pid, d: nat)
    requires GcOk(g) && g.closer == Some(p) && d + 1 == g.current && Queued(g) == d
    ensures var g' := g.(queue := g.queue + [d]); GcOk(g') && forall u :: u != p ==> Keeps(g, g', u)
  {
  }

  lemma ExitedOk(g: Gc, p: Pid, d: nat)
    requires GcOk(g) && Owes(g, p, d)
    ensures !DurAt(g.durs, d).collectible
    ensures var g' := Exited(g, p, d);
      && GcOk(g') && (forall u :: u != p ==> Keeps(g, g', u))
      && (DurAt(g.durs, d).exit == DurAt(g.durs, d).entry - 1 ==> DurAt(g'.durs, d).last == Some(p) && !DurAt(g'.durs, d).collectible)
  {
    var v := DurAt(g.durs, d);
    SetDurAt(g.durs, d, v.(exit := v.exit + 1, exited := v.exited + {p},
                           last := if v.exit == v.entry - 1 then Some(p) else v.last));
    LastLeaves(v.members, v.exited, p);
  }

  /** The exit counter reaches the entry counter when the last member leaves. */
  lemma LastLeaves(members: set<Pid>, exited: set<Pid>, p: Pid)
    requires exited <= members && p in members && p !in exited
    ensures |exited| == |members| - 1 <==> exited + {p} == members
    ensures |exited + {p}| == |exited| + 1
  {
    var rest := members - exited - {p};
    assert members == exited + {p} + rest;
    assert |members| == |exited| + 1 + |rest|;
  }

  lemma CollectibleOk(g: Gc, p: Pid, d: nat)
    requires GcOk(g) && DurAt(g.durs, d).last == Some(p)
    ensures var g' := Collectible(g, d); GcOk(g') && forall u :: u != p ==> Keeps(g, g', u)
    ensures forall e: nat {:trigger DurAt(Collectible(g, d).durs, e)} ::
      DurAt(Collectible(g, d).durs, e) == if e == d then DurAt(g.durs, d).(collectible := true) else DurAt(g.durs, e)
  {
    SetDurAt(g.durs, d, DurAt(g.durs, d).(collectible := true));
  }

  lemma PopOk(g: Gc, p: Pid)
    requires GcOk(g) && g.holder == Some(p) && g.queue != [] && DurAt(g.durs, g.queue[0]).collectible
    ensures var g' := g.(queue := g.queue[1..], cleaned := g.cleaned + 1);
      GcOk(g') && forall u :: u != p ==> Keeps(g, g', u)
  {
  }

  lemma EnabledIsSafe(g: Gc, p: Pid, c: Call)
    requires GcOk(g) && CallOk(g, p, c)
    ensures Safe(g, c)
  {
    if c.pc.Exiting? {
      assert Owes(g, p, c.todo[0]);
      ExitedOk(g, p, c.todo[0]);
    }
  }

  lemma NothingKeeps(g: Gc)
    ensures forall u :: Keeps(g, g, u)
  {
  }

  /** Taking and giving up the right to close a duration. */
  lemma AbaOk(g: Gc, g': Gc, p: Pid)
    requires GcOk(g) && g' == g.(aba := g.aba + 1, closer := g'.closer)
    requires (g.closer == None && g'.closer == Some(p)) || (g.closer == Some(p) && g'.closer == None)
    requires !DurAt(g.durs, g.current).closed && Queued(g) == g.current
    ensures GcOk(g') && forall u :: u != p ==> Keeps(g, g', u)
  {
  }

  /** Counting a wake-up, taking and giving up the lock. */
  lemma WordOk(g: Gc, g': Gc, p: Pid)
    requires GcOk(g) && g' == g.(pending := g'.pending, locked := g'.locked, holder := g'.holder)
    requires g'.locked <==> g'.holder.Some?
    requires g.holder == Some(p) || (g'.pending >= g.pending && (g.holder.Some? ==> g'.holder == g.holder))
    ensures GcOk(g') && forall u :: u != p ==> Keeps(g, g', u)
  {
  }

  lemma EnterOk(g: Gc, p: Pid, c: Call)
    requires GcOk(g) && CallOk(g, p, c) && Safe(g, c)
    requires c.pc.Outside? || c.pc.EnterAba? || c.pc.EnterDur? || c.pc.EnterCount? || c.pc.EnterCas? || c.pc.Inside? || c.pc.Done?
    ensures var (g', c') := Act(g, p, c);
      GcOk(g') && CallOk(g', p, c') && forall u :: u != p ==> Keeps(g, g', u)
  {
    NothingKeeps(g);
    if c.pc.EnterCas? && g.aba == c.pc.aba { EnteredOk(g, p, c.pc.d); }
  }

  lemma StartCloseOk(g: Gc, p: Pid, c: Call)
    requires GcOk(g) && CallOk(g, p, c) && Safe(g, c) && (c.pc.ExitAba? || c.pc.ExitCas?)
    ensures var (g', c') := Act(g, p, c);
      GcOk(g') && CallOk(g', p, c') && forall u :: u != p ==> Keeps(g, g', u)
  {
    NothingKeeps(g);
    if c.pc.ExitCas? && g.aba == c.pc.aba { AbaOk(g, Act(g, p, c).0, p); }
  }

  lemma CloseOk(g: Gc, p: Pid, c: Call)
    requires GcOk(g) && CallOk(g, p, c) && Safe(g, c) && (c.pc.Exchange? || c.pc.Install? || c.pc.Push?)
    ensures var (g', c') := Act(g, p, c);
      GcOk(g') && CallOk(g', p, c') && forall u :: u != p ==> Keeps(g, g', u)
  {
    if c.pc.Exchange? {
      ClosedOk(g, p, c.my);
    } else if c.pc.Install? {
      InstallOk(g, p);
    } else {
      PushOk(g, p, c.pc.d);
    }
  }

  lemma ReleaseOk(g: Gc, p: Pid, c: Call)
    requires GcOk(g) && CallOk(g, p, c) && Safe(g, c) && c.pc.Release?
    ensures var (g', c') := Act(g, p, c);
      GcOk(g') && CallOk(g', p, c') && forall u :: u != p ==> Keeps(g, g', u)
  {
    var (g', c') := Act(g, p, c);
    AbaOk(g, g', p);
    assert Owes(g', p, c.pc.d) && Owes(g', p, c.my);
  }

  lemma OwesRest(g: Gc, p: Pid, todo: seq<nat>)
    requires todo != [] && OwesAll(g, p, todo)
    ensures OwesAll(Exited(g, p, todo[0]), p, todo[1..])
  {
    var d := todo[0];
    assert Owes(g, p, d);
    var dur := DurAt(g.durs, d);
    SetDurAt(g.durs, d, dur.(exit := dur.exit + 1, exited := dur.exited + {p},
                             last := if dur.exit == dur.entry - 1 then Some(p) else dur.last));
    forall i | 0 <= i < |todo[1..]| ensures Owes(Exited(g, p, d), p, todo[1..][i]) {
      assert Owes(g, p, todo[i + 1]) && todo[i + 1] != d;
    }
  }

  lemma ExitOk(g: Gc, p: Pid, c: Call)
    requires GcOk(g) && CallOk(g, p, c) && Safe(g, c) && c.pc.Exiting?
    ensures var (g', c') := Act(g, p, c);
      GcOk(g') && CallOk(g', p, c') && forall u :: u != p ==> Keeps(g, g', u)
  {
    assert Owes(g, p, c.todo[0]);
    ExitedOk(g, p, c.todo[0]);
    OwesRest(g, p, c.todo);
  }

  /** A call owes the same when no duration changes. */
  lemma OwesSame(g: Gc, g': Gc, p: Pid, todo: seq<nat>)
    requires OwesAll(g, p, todo) && g'.durs == g.durs
    ensures OwesAll(g', p, todo)
  {
    forall i | 0 <= i < |todo| ensures Owes(g', p, todo[i]) { assert Owes(g, p, todo[i]); }
  }

  lemma MarkOk(g: Gc, p: Pid, c: Call)
    requires GcOk(g) && CallOk(g, p, c) && c.pc.SetCollectible?
    ensures var (g', c') := Act(g, p, c);
      GcOk(g') && CallOk(g', p, c') && forall u :: u != p ==> Keeps(g, g', u)
  {
    var d := c.pc.d;
    CollectibleOk(g, p, d);
    forall i | 0 <= i < |c.todo| ensures Owes(Collectible(g, d), p, c.todo[i]) { assert Owes(g, p, c.todo[i]); }
  }

  lemma DrainOk(g: Gc, p: Pid, c: Call)
    requires GcOk(g) && CallOk(g, p, c) && Safe(g, c) && Draining(c.pc)
    ensures var (g', c') := Act(g, p, c);
      GcOk(g') && CallOk(g', p, c') && forall u :: u != p ==> Keeps(g, g', u)
  {
    OwesSame(g, Act(g, p, c).0, p, c.todo);
    if c.pc.Pop? { PopOk(g, p); } else { NothingKeeps(g); }
  }

  lemma JoinOk(g: Gc, p: Pid, c: Call)
    requires GcOk(g) && CallOk(g, p, c) && Safe(g, c) && (c.pc.Pend? || c.pc.Lock?)
    ensures var (g', c') := Act(g, p, c);
      GcOk(g') && CallOk(g', p, c') && forall u :: u != p ==> Keeps(g, g', u)
  {
    var g' := Act(g, p, c).0;
    OwesSame(g, g', p, c.todo);
    WordOk(g, g', p);
  }

  lemma HoldOk(g: Gc, p: Pid, c: Call)
    requires GcOk(g) && CallOk(g, p, c) && Safe(g, c) && Holding(c.pc) && !Draining(c.pc)
    ensures var (g', c') := Act(g, p, c);
      GcOk(g') && CallOk(g', p, c') && forall u :: u != p ==> Keeps(g, g', u)
  {
    var g' := Act(g, p, c).0;
    OwesSame(g, g', p, c.todo);
    WordOk(g, g', p);
  }

  lemma ActOk(g: Gc, p: Pid, c: Call)
    requires GcOk(g) && CallOk(g, p, c) && Safe(g, c)
    ensures var (g', c') := Act(g, p, c);
      GcOk(g') && CallOk(g', p, c') && forall u :: u != p ==> Keeps(g, g', u)
  {
    if c.pc.SetCollectible? {
      MarkOk(g, p, c);
    } else if Draining(c.pc) {
      DrainOk(g, p, c);
    } else if Holding(c.pc) {
      HoldOk(g, p, c);
    } else if Collecting(c.pc) {
      JoinOk(g, p, c);
    } else if c.pc.Exiting? {
      ExitOk(g, p, c);
    } else if c.pc.Release? {
      ReleaseOk(g, p, c);
    } else if c.pc.ExitAba? || c.pc.ExitCas? {
      StartCloseOk(g, p, c);
    } else if Closing(c.pc) {
      CloseOk(g, p, c);
    } else {
      EnterOk(g, p, c);
    }
  }

  // ---------- No wake-up is lost ----------

  /** The front of the queue is ready to be cleaned. */
  predicate FrontReady(g: Gc) {
    g.queue != [] && DurAt(g.durs, g.queue[0]).collectible
  }

  ghost predicate SomeAtLock(calls: seq<Call>) {
    exists q :: 0 <= q < |calls| && calls[q].pc.Lock?
  }

  ghost predicate SomeAtPend(calls: seq<Call>) {
    exists q :: 0 <= q < |calls| && calls[q].pc.Pend?
  }

  ghost predicate WakeOk(g: Gc, calls: seq<Call>) {
    && (g.holder.Some? ==> g.holder.value < |calls| && Holding(calls[g.holder.value].pc))
    && (g.pending > 0 ==> g.holder.Some? || SomeAtLock(calls))
    && (FrontReady(g) ==> || g.pending > 0 || SomeAtPend(calls)
                          || (g.holder.Some? && Draining(calls[g.holder.value].pc)))
  }

  /** A call that stays where it is bears witness after the step. */
  lemma WitnessesStay(calls: seq<Call>, p: Pid, c: Call)
    requires p < |calls|
    ensures SomeAtLock(calls) && !calls[p].pc.Lock? ==> SomeAtLock(calls[p := c])
    ensures SomeAtPend(calls) && !calls[p].pc.Pend? ==> SomeAtPend(calls[p := c])
    ensures c.pc.Lock? ==> SomeAtLock(calls[p := c])
    ensures c.pc.Pend? ==> SomeAtPend(calls[p := c])
  {
    var calls' := calls[p := c];
    if SomeAtLock(calls) && !calls[p].pc.Lock? {
      var q :| 0 <= q < |calls| && calls[q].pc.Lock?;
      assert calls'[q].pc.Lock?;
    }
    if SomeAtPend(calls) && !calls[p].pc.Pend? {
      var q :| 0 <= q < |calls| && calls[q].pc.Pend?;
      assert calls'[q].pc.Pend?;
    }
    assert calls'[p] == c;
  }

  lemma FrontEntering(g: Gc, p: Pid, c: Call)
    requires GcOk(g) && CallOk(g, p, c) && (c.pc.EnterCas? || c.pc.Exchange?)
    ensures FrontReady(Act(g, p, c).0) ==> FrontReady(g)
  {
    var dur := DurAt(g.durs, g.current);
    if c.pc.EnterCas? {
      if g.aba == c.pc.aba { SetDurAt(g.durs, c.pc.d, dur.(members := dur.members + {p})); }
    } else {
      SetDurAt(g.durs, g.current, dur.(entry := g.entry + if g.current != c.my then 1 else 0, closed := true,
                                       members := dur.members + {p}));
    }
  }

  lemma FrontClosing(g: Gc, p: Pid, c: Call)
    requires GcOk(g) && CallOk(g, p, c) && (c.pc.Install? || c.pc.Push?)
    ensures FrontReady(Act(g, p, c).0) ==> FrontReady(g)
  {
    if c.pc.Install? {
      InstallOk(g, p);
    } else {
      assert DurOk(DurAt(g.durs, c.pc.d));
    }
  }

  lemma FrontExiting(g: Gc, p: Pid, c: Call)
    requires Safe(g, c) && c.pc.Exiting? && c.todo[0] < |g.durs|
    ensures FrontReady(Act(g, p, c).0) ==> FrontReady(g)
  {
    var d := c.todo[0];
    var dur := DurAt(g.durs, d);
    SetDurAt(g.durs, d, dur.(exit := dur.exit + 1, exited := dur.exited + {p},
                             last := if dur.exit == dur.entry - 1 then Some(p) else dur.last));
  }

  lemma FrontQuiet(g: Gc, p: Pid, c: Call)
    requires Safe(g, c) && !c.pc.EnterCas? && !c.pc.Exchange? && !c.pc.Install? && !c.pc.Push? && !c.pc.Exiting?
    requires !c.pc.SetCollectible? && !c.pc.Pop?
    ensures Act(g, p, c).0.durs == g.durs && Act(g, p, c).0.queue == g.queue
  {
  }

  /** Which steps can make the front of the queue ready. */
  lemma FrontStep(g: Gc, p: Pid, c: Call)
    requires GcOk(g) && CallOk(g, p, c) && Safe(g, c)
    ensures FrontReady(Act(g, p, c).0) ==> FrontReady(g) || c.pc.SetCollectible? || c.pc.Pop?
  {
    if c.pc.EnterCas? || c.pc.Exchange? {
      FrontEntering(g, p, c);
    } else if c.pc.Install? || c.pc.Push? {
      FrontClosing(g, p, c);
    } else if c.pc.Exiting? {
      assert Owes(g, p, c.todo[0]);
      FrontExiting(g, p, c);
    } else if !c.pc.SetCollectible? && !c.pc.Pop? {
      FrontQuiet(g, p, c);
    }
  }

  lemma WakeStep(s: State, p: Pid)
    requires p < |s.calls| && GcOk(s.g) && CallOk(s.g, p, s.calls[p]) && Safe(s.g, s.calls[p]) && WakeOk(s.g, s.calls)
    ensures WakeOk(Step(s, p).g, Step(s, p).calls)
  {
    FrontStep(s.g, p, s.calls[p]);
    WitnessesStay(s.calls, p, Act(s.g, p, s.calls[p]).1);
  }

  // ---------- Nothing is left over ----------

  /** The call takes part in the duration and has not left it. */
  predicate Due(c: Call, d: nat) {
    match c.pc
    case Outside => false
    case EnterAba => false
    case EnterDur(_) => false
    case EnterCount(_, _) => false
    case EnterCas(_, _, _) => false
    case Inside => d == c.my
    case ExitAba => d == c.my
    case ExitCas(_) => d == c.my
    case Exchange => d == c.my
    case Install(cd) => d == cd || d == c.my
    case Push(cd) => d == cd || d == c.my
    case Release(cd) => d == cd || d == c.my
    case _ => d in c.todo
  }

  const NOBODY := Call(Outside, 0, [])

  /** A call that has not left a duration is going to, and the one that left it
      last sets it collectible. */
  ghost predicate Settles(g: Gc, p: Pid, c: Call) {
    && (c.pc.Done? ==> c.todo == [])
    && forall d: nat {:trigger DurAt(g.durs, d)} ::
         var v := DurAt(g.durs, d);
         && (p in v.members && p !in v.exited ==> Due(c, d))
         && (v.last == Some(p) && !v.collectible ==> c.pc == SetCollectible(d))
  }

  lemma KeepsSettles(g: Gc, g': Gc, u: Pid, c: Call)
    requires Settles(g, u, c) && Keeps(g, g', u)
    ensures Settles(g', u, c)
  {
  }

  /** The call owes the same after a step that changes no duration. */
  lemma SettlesSame(g: Gc, g': Gc, p: Pid, c: Call, c': Call)
    requires Settles(g, p, c) && g'.durs == g.durs && !c.pc.SetCollectible? && (c'.pc.Done? ==> c'.todo == [])
    requires forall d: nat {:trigger Due(c', d)} :: Due(c, d) ==> Due(c', d)
    ensures Settles(g', p, c')
  {
    forall d: nat ensures Due(c, d) ==> Due(c', d) { assert Due(c', d) || !Due(c', d); }
  }

  lemma EnterSettles(g: Gc, p: Pid, c: Call)
    requires GcOk(g) && CallOk(g, p, c) && Settles(g, p, c) && (c.pc.EnterCas? || c.pc.Exchange? || c.pc.Install?)
    ensures var (g', c') := Act(g, p, c); Settles(g', p, c')
  {
    var dur := DurAt(g.durs, g.current);
    if c.pc.EnterCas? {
      if g.aba == c.pc.aba { SetDurAt(g.durs, c.pc.d, dur.(members := dur.members + {p})); }
    } else if c.pc.Exchange? {
      SetDurAt(g.durs, g.current, dur.(entry := g.entry + if g.current != c.my then 1 else 0, closed := true,
                                       members := dur.members + {p}));
    } else {
      InstallOk(g, p);
    }
  }

  lemma LeaveSettles(g: Gc, p: Pid, c: Call)
    requires c.pc.Exiting? && Safe(g, c) && Settles(g, p, c)
    requires Owes(g, p, c.todo[0]) && DurOk(DurAt(g.durs, c.todo[0]))
    ensures var (g', c') := Act(g, p, c); Settles(g', p, c')
  {
    var (g', c') := Act(g, p, c);
    var d := c.todo[0];
    var v := DurAt(g.durs, d);
    SetDurAt(g.durs, d, v.(exit := v.exit + 1, exited := v.exited + {p},
                           last := if v.exit == v.entry - 1 then Some(p) else v.last));
    assert c.todo == [d] + c.todo[1..];
    assert forall e :: e in c.todo && e != d ==> e in c'.todo;
  }

  lemma StepSettles(g: Gc, p: Pid, c: Call)
    requires GcOk(g) && CallOk(g, p, c) && Safe(g, c) && Settles(g, p, c)
    ensures var (g', c') := Act(g, p, c); Settles(g', p, c')
  {
    var (g', c') := Act(g, p, c);
    if c.pc.EnterCas? || c.pc.Exchange? || c.pc.Install? {
      EnterSettles(g, p, c);
    } else if c.pc.SetCollectible? {
      CollectibleOk(g, p, c.pc.d);
    } else if c.pc.Exiting? {
      assert Owes(g, p, c.todo[0]);
      LeaveSettles(g, p, c);
    } else {
      QuietSettles(g, p, c);
    }
  }

  lemma QuietSettles(g: Gc, p: Pid, c: Call)
    requires Safe(g, c) && Settles(g, p, c) && (c.pc.Release? ==> Owes(g, p, c.pc.d) && Owes(g, p, c.my))
    requires !c.pc.EnterCas? && !c.pc.Exchange? && !c.pc.Install? && !c.pc.SetCollectible? && !c.pc.Exiting?
    ensures var (g', c') := Act(g, p, c); Settles(g', p, c')
  {
    var (g', c') := Act(g, p, c);
    SettlesSame(g, g', p, c, c');
  }

  // ---------- Runs ----------

  ghost predicate Inv(s: State) {
    && GcOk(s.g) && WakeOk(s.g, s.calls)
    && (forall p :: 0 <= p < |s.calls| ==>
          CallOk(s.g, p, s.calls[p]) && Settles(s.g, p, s.calls[p]))
    && (forall p :: p >= |s.calls| ==> Settles(s.g, p, NOBODY))
  }

  lemma StepInv(s: State, p: Pid)
    requires Inv(s) && p < |s.calls|
    ensures Safe(s.g, s.calls[p]) && Inv(Step(s, p))
  {
    var c := s.calls[p];
    EnabledIsSafe(s.g, p, c);
    WakeStep(s, p);
    ActOk(s.g, p, c);
    var s' := Step(s, p);
    StepSettles(s.g, p, c);
    forall u | 0 <= u < |s'.calls|
      ensures CallOk(s'.g, u, s'.calls[u]) && Settles(s'.g, u, s'.calls[u])
    {
      if u != p {
        KeepsOk(s.g, s'.g, u, s.calls[u]);
        KeepsSettles(s.g, s'.g, u, s.calls[u]);
      }
    }
    forall u | u >= |s'.calls| ensures Settles(s'.g, u, NOBODY) {
      KeepsSettles(s.g, s'.g, u, NOBODY);
    }
  }

  ghost predicate Run(states: seq<State>, pids: seq<Pid>) {
    && |states| == |pids| + 1 && Init(states[0])
    && forall i :: 0 <= i < |pids| ==> Next(states[i], pids[i], states[i + 1])
  }

  lemma {:induction false} RunInv(states: seq<State>, pids: seq<Pid>, i: nat)
    requires Run(states, pids) && i < |states|
    ensures Inv(states[i])
  {
    if i > 0 {
      RunInv(states, pids, i - 1);
      assert Next(states[i - 1], pids[i - 1], states[i - 1 + 1]);
      StepInv(states[i - 1], pids[i - 1]);
    }
  }

  /** No assert of the protocol fails in any run. */
  lemma AssertsHold(states: seq<State>, pids: seq<Pid>, i: nat)
    requires Run(states, pids) && i < |pids|
    ensures pids[i] < |states[i].calls| && Safe(states[i].g, states[i].calls[pids[i]])
  {
    RunInv(states, pids, i);
    assert Next(states[i], pids[i], states[i + 1]);
    StepInv(states[i], pids[i]);
  }

  /** When a duration is cleaned, every call that entered it or an earlier one,
      and every call that closed one of them, has made its exit increment. */
  lemma CleanedAfterAllLeft(states: seq<State>, pids: seq<Pid>, i: nat, p: Pid, e: nat)
    requires Run(states, pids) && i < |states| && p < |states[i].calls|
    requires states[i].calls[p].pc.Clean? && e <= states[i].calls[p].pc.d
    ensures var v := DurAt(states[i].g.durs, e); v.closed && v.exited == v.members
  {
    RunInv(states, pids, i);
    var g := states[i].g;
    assert CallOk(g, p, states[i].calls[p]);
    assert DurOk(DurAt(g.durs, e));
  }

  /** The exit counter never exceeds the entry counter of a closed duration,
      and the two count the calls that left and the calls that have to. */
  lemma ExitWithinEntry(states: seq<State>, pids: seq<Pid>, i: nat, d: nat)
    requires Run(states, pids) && i < |states|
    ensures var v := DurAt(states[i].g.durs, d);
      && v.exited <= v.members && v.exit == |v.exited|
      && (v.closed ==> v.exit <= v.entry == |v.members|)
  {
    RunInv(states, pids, i);
    var v := DurAt(states[i].g.durs, d);
    assert DurOk(v);
    assert v.members == v.exited + (v.members - v.exited);
  }

  /** Exactly one call sets a duration collectible, once, and it is the one
      that made the last increment. */
  lemma OneMarker(states: seq<State>, pids: seq<Pid>, i: nat, p: Pid, q: Pid)
    requires Run(states, pids) && i < |states| && p < |states[i].calls| && q < |states[i].calls|
    requires states[i].calls[p].pc.SetCollectible? && states[i].calls[q].pc == states[i].calls[p].pc
    ensures p == q && !DurAt(states[i].g.durs, states[i].calls[p].pc.d).collectible
  {
    RunInv(states, pids, i);
    assert CallOk(states[i].g, p, states[i].calls[p]) && CallOk(states[i].g, q, states[i].calls[q]);
  }

  /** At most one call is in the drain loop. */
  lemma OneCollector(states: seq<State>, pids: seq<Pid>, i: nat, p: Pid, q: Pid)
    requires Run(states, pids) && i < |states| && p < |states[i].calls| && q < |states[i].calls|
    requires Holding(states[i].calls[p].pc) && Holding(states[i].calls[q].pc)
    ensures p == q
  {
    RunInv(states, pids, i);
    assert CallOk(states[i].g, p, states[i].calls[p]) && CallOk(states[i].g, q, states[i].calls[q]);
  }

  /** When no call is between setting a duration collectible and returning from
      collect, the front of the queue is not collectible. */
  lemma NoLostWakeUp(states: seq<State>, pids: seq<Pid>, i: nat)
    requires Run(states, pids) && i < |states|
    requires forall p :: 0 <= p < |states[i].calls| ==> !Collecting(states[i].calls[p].pc)
    ensures !FrontReady(states[i].g)
  {
    RunInv(states, pids, i);
  }

  /** How many of the first `k` steps announce a collectible duration. */
  function Announced(states: seq<State>, pids: seq<Pid>, k: nat): nat
    requires k <= |pids| && |states| == |pids| + 1
  {
    if k == 0 then 0
    else
      var s, p := states[k - 1], pids[k - 1];
      Announced(states, pids, k - 1) + if p < |s.calls| && s.calls[p].pc.Pend? then 1 else 0
  }

  /** How many of them are turns of the drain loop. */
  function Turns(states: seq<State>, pids: seq<Pid>, k: nat): nat
    requires k <= |pids| && |states| == |pids| + 1
  {
    if k == 0 then 0
    else
      var s, p := states[k - 1], pids[k - 1];
      Turns(states, pids, k - 1) + if p < |s.calls| && s.calls[p].pc.Top? then 1 else 0
  }

  /** Every announcement makes the drain loop turn once: the pending counter is
      what is left to do. */
  lemma {:induction false} PendingCounts(states: seq<State>, pids: seq<Pid>, k: nat)
    requires Run(states, pids) && k < |states|
    ensures states[k].g.pending + Turns(states, pids, k) == Announced(states, pids, k)
  {
    if k > 0 {
      PendingCounts(states, pids, k - 1);
      AssertsHold(states, pids, k - 1);
      assert Next(states[k - 1], pids[k - 1], states[k - 1 + 1]);
    }
  }

  lemma AllLeft(s: State, d: nat)
    requires Inv(s) && DurAt(s.g.durs, d).closed
    requires forall p :: 0 <= p < |s.calls| ==> s.calls[p].pc.Done?
    ensures DurAt(s.g.durs, d).collectible
  {
    var v := DurAt(s.g.durs, d);
    forall p | p in v.members ensures p in v.exited {
      assert Settles(s.g, p, if p < |s.calls| then s.calls[p] else NOBODY);
    }
    assert v.exited == v.members && DurOk(v);
    assert Settles(s.g, v.last.value, if v.last.value < |s.calls| then s.calls[v.last.value] else NOBODY);
  }

  /** When every call is over, every closed duration was cleaned: the queue is
      empty, as the finalizer asserts. */
  lemma AllCleaned(states: seq<State>, pids: seq<Pid>, i: nat)
    requires Run(states, pids) && i < |states|
    requires forall p :: 0 <= p < |states[i].calls| ==> states[i].calls[p].pc.Done?
    ensures states[i].g.queue == []
  {
    RunInv(states, pids, i);
    if states[i].g.queue != [] {
      AllLeft(states[i], states[i].g.queue[0]);
      NoLostWakeUp(states, pids, i);
    }
  }
}
