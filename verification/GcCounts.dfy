/** Weighted reference counting between actors. Every actor counts the
    references to itself and to its objects, holds counts on targets that other
    actors own, and reads one FIFO queue. Application messages carry one count
    for every target in them; ACQUIRE and RELEASE messages move counts between a
    holder and the owner. */
module GcCounts {

  /** GC_INC_MORE: how many counts a holder asks for when it runs out. */
  const INC_MORE: nat := 256

  type Id = nat

  datatype Target = Actor(id: Id) | Object(id: Id, address: nat)

  type Counts = map<Target, nat>

  datatype Message = App(refs: set<Target>) | Acquire(counts: Counts) | Release(counts: Counts)

  /** What an actor is in the middle of. While it sends a message, `refs` are
      the targets marked so far, `acquire` the counts that it must ask the
      owners for before the message goes out, and `traced` says that the trace is
      over and the ACQUIREs are going out. While it traces an incoming message,
      `left` are the targets not visited yet. */
  datatype Phase =
    | Running
    | Sending(to: Id, refs: set<Target>, acquire: Counts, traced: bool)
    | Receiving(left: set<Target>)

  /** `local` counts references to what the actor owns and `foreign` the counts
      it holds. `held` are its own objects that it can reach itself, and
      `reachable` the flag that the last sweep or receive stored for an entry. */
  datatype ActorState = ActorState(
    local: Counts, reachable: set<Target>, held: set<Target>, born: set<Target>, freed: set<Target>,
    foreign: Counts, phase: Phase, queue: seq<Message>)

  type State = seq<ActorState>

  function CountIn(counts: Counts, x: Target): nat {
    if x in counts then counts[x] else 0
  }

  function One(b: bool): nat {
    if b then 1 else 0
  }

  // ---------- One call of a trace function on one target ----------

  /** gc_sendactor, or the part of gc_sendobject that concerns one target. */
  function SendOne(me: Id, a: ActorState, x: Target): ActorState
    requires a.phase.Sending?
  {
    if x in a.phase.refs then a
    else
      var marked := a.phase.(refs := a.phase.refs + {x});
      if x.id == me then
        a.(local := a.local[x := CountIn(a.local, x) + 1],
           reachable := if x in a.local then a.reachable else a.reachable + {x},
           phase := marked)
      else if CountIn(a.foreign, x) > 1 then
        a.(foreign := a.foreign[x := a.foreign[x] - 1], phase := marked)
      else
        a.(foreign := a.foreign[x := INC_MORE],
           phase := marked.(acquire := a.phase.acquire[x := INC_MORE]))
  }

  /** gc_recvactor, or the part of gc_recvobject that concerns one target. */
  function RecvOne(me: Id, a: ActorState, x: Target): ActorState
    requires a.phase.Receiving?
    requires x in a.phase.left && x.id == me ==> x in a.local && a.local[x] > 0
  {
    if x !in a.phase.left then a
    else
      var rest := a.phase.(left := a.phase.left - {x});
      if x.id == me then
        a.(local := a.local[x := a.local[x] - 1], reachable := a.reachable + {x},
           held := if x.Object? then a.held + {x} else a.held, phase := rest)
      else
        a.(foreign := a.foreign[x := CountIn(a.foreign, x) + 1], phase := rest)
  }

  // ---------- Messages handled by the owner ----------

  function AddAll(local: Counts, counts: Counts): Counts {
    map x | x in local :: local[x] + CountIn(counts, x)
  }

  function SubAll(local: Counts, counts: Counts): Counts
    requires forall x :: x in counts ==> x in local && local[x] >= counts[x]
  {
    map x | x in local :: local[x] - CountIn(counts, x)
  }

  /** The objects that gc_release frees: their count drops to zero and the last
      sweep found them unreachable from the owner. */
  function Dropped(a: ActorState, counts: Counts): set<Target> {
    set x | x in counts && x in a.local && x.Object? && a.local[x] == counts[x] && x !in a.reachable
  }

  // ---------- Steps ----------

  datatype Step =
    | Alloc(address: nat)
    | Forget(x: Target)
    | Create
    | BeginSend(to: Id)
    | TraceSend(x: Target)
    | DoneSend
    | PushAcquire(to: Id)
    | PushApp
    | Pop
    | TraceRecv(x: Target)
    | DoneRecv
    | SweepForeign(to: Id, drop: set<Target>)
    | SweepLocal

  function Push(s: State, to: Id, m: Message): State
    requires to < |s|
  {
    s[to := s[to].(queue := s[to].queue + [m])]
  }

  /** The counts on targets that `owner` owns. */
  function OwnedBy(counts: Counts, owner: Id): Counts {
    map x | x in counts && x.id == owner :: counts[x]
  }

  function NewActor(id: Id): ActorState {
    ActorState(map[Actor(id) := INC_MORE], {}, {}, {}, {}, map[], Running, [])
  }

  /** The actor holds what it is about to send: an object that it can reach or
      a target that it has a count on. */
  predicate CanSend(me: Id, a: ActorState, x: Target) {
    if x.id == me then x.Object? ==> x in a.held else x in a.foreign
  }

  predicate Enabled(s: State, me: Id, step: Step) {
    me < |s| &&
    var a := s[me];
    match step
    case Alloc(address) => a.phase.Running? && Object(me, address) !in a.born
    case Forget(x) => x in a.held
    case Create => a.phase.Running?
    case BeginSend(to) => a.phase.Running? && to < |s|
    case TraceSend(x) => a.phase.Sending? && !a.phase.traced && CanSend(me, a, x)
    case DoneSend => a.phase.Sending? && !a.phase.traced
    case PushAcquire(to) => a.phase.Sending? && a.phase.traced && to < |s| && OwnedBy(a.phase.acquire, to) != map[]
    case PushApp => a.phase.Sending? && a.phase.traced && a.phase.acquire == map[] && a.phase.to < |s|
    case Pop => a.phase.Running? && a.queue != []
    case TraceRecv(x) => a.phase.Receiving?
    case DoneRecv => a.phase.Receiving? && a.phase.left == {}
    case SweepForeign(to, drop) => a.phase.Running? && to < |s| && drop != {}
      && (forall x :: x in drop ==> x in a.foreign && x.id == to)
      && (Actor(to) in drop ==> forall x :: x in a.foreign && x.id == to ==> x in drop)
    case SweepLocal => a.phase.Running?
  }

  /** What the asserts of the source demand of the owner's counts. */
  predicate Safe(s: State, me: Id, step: Step)
    requires Enabled(s, me, step)
  {
    var a := s[me];
    match step
    case Pop =>
      (match a.queue[0]
       case App(_) => true
       case Acquire(counts) => forall x :: x in counts ==> x in a.local
       case Release(counts) => forall x :: x in counts ==> x in a.local && a.local[x] >= counts[x])
    case TraceRecv(x) =>
      && (x in a.phase.left && x.id == me ==> x in a.local && a.local[x] > 0)
      && (x.Object? && Actor(x.id) in a.phase.left && x.id == me ==> Actor(x.id) in a.local && a.local[Actor(x.id)] > 0)
    case _ => true
  }

  function Apply(s: State, me: Id, step: Step): State
    requires Enabled(s, me, step) && Safe(s, me, step)
  {
    var a := s[me];
    match step
    case Alloc(address) =>
      s[me := a.(held := a.held + {Object(me, address)}, born := a.born + {Object(me, address)})]
    case Forget(x) =>
      s[me := a.(held := a.held - {x})]
    case Create =>
      s[me := a.(foreign := a.foreign[Actor(|s|) := INC_MORE])] + [NewActor(|s|)]
    case BeginSend(to) =>
      s[me := a.(phase := Sending(to, {}, map[], false))]
    case TraceSend(x) =>
      var b := if x.Object? then SendOne(me, a, Actor(x.id)) else a;
      s[me := SendOne(me, b, x)]
    case DoneSend =>
      s[me := a.(phase := a.phase.(traced := true))]
    case PushAcquire(to) =>
      var counts := OwnedBy(a.phase.acquire, to);
      Push(s[me := a.(phase := a.phase.(acquire := a.phase.acquire - counts.Keys))], to, Acquire(counts))
    case PushApp =>
      Push(s[me := a.(phase := Running)], a.phase.to, App(a.phase.refs))
    case Pop =>
      var b := a.(queue := a.queue[1..]);
      (match a.queue[0]
       case App(refs) => s[me := b.(phase := Receiving(refs))]
       case Acquire(counts) => s[me := b.(local := AddAll(a.local, counts))]
       case Release(counts) =>
         var gone := Dropped(a, counts);
         s[me := b.(local := SubAll(a.local, counts) - gone, freed := a.freed + gone)])
    case TraceRecv(x) =>
      var b := if x.Object? then RecvOne(me, a, Actor(x.id)) else a;
      s[me := RecvOne(me, b, x)]
    case DoneRecv =>
      s[me := a.(phase := Running)]
    case SweepForeign(to, drop) =>
      var counts := map x | x in drop && x in a.foreign :: a.foreign[x];
      Push(s[me := a.(foreign := a.foreign - drop)], to, Release(counts))
    case SweepLocal =>
      var kept := map x | x in a.local && (x.Actor? || a.local[x] > 0) :: a.local[x];
      s[me := a.(local := kept, reachable := a.held,
                 freed := a.freed + set x | x in a.born && x !in a.held && x !in kept)]
  }

  /** One actor that nobody refers to. */
  predicate Init(s: State) {
    s == [NewActor(0).(local := map[Actor(0) := 0])]
  }

  // ---------- Conservation ----------

  function AcquireOf(a: ActorState): Counts {
    if a.phase.Sending? then a.phase.acquire else map[]
  }

  function RefsOf(a: ActorState): set<Target> {
    if a.phase.Sending? then a.phase.refs else {}
  }

  function LeftOf(a: ActorState): set<Target> {
    if a.phase.Receiving? then a.phase.left else {}
  }

  /** Counts on `x` that a message takes along; an ACQUIRE takes a debt. */
  function Carried(m: Message, x: Target): int {
    match m
    case App(refs) => One(x in refs)
    case Acquire(counts) => 0 - CountIn(counts, x)
    case Release(counts) => CountIn(counts, x)
  }

  function InQueue(q: seq<Message>, x: Target): int {
    if q == [] then 0 else Carried(q[0], x) + InQueue(q[1..], x)
  }

  /** Counts on `x` that are with an actor or in its hands, its queue left out. */
  function Stake(a: ActorState, x: Target): int {
    CountIn(a.foreign, x) + One(x in RefsOf(a)) - CountIn(AcquireOf(a), x)
  }

  /** Counts on `x` that have reached an actor but are not traced yet. */
  function Inbox(a: ActorState, x: Target): int {
    One(x in LeftOf(a)) + InQueue(a.queue, x)
  }

  function Total(s: State, x: Target): int {
    if s == [] then 0
    else Total(s[..|s| - 1], x) + Stake(s[|s| - 1], x) + Inbox(s[|s| - 1], x)
  }

  function OwnerCount(s: State, x: Target): nat
    requires x.id < |s|
  {
    CountIn(s[x.id].local, x)
  }

  lemma {:induction false} InQueueAppend(q: seq<Message>, m: Message, x: Target)
    ensures InQueue(q + [m], x) == InQueue(q, x) + Carried(m, x)
    decreases |q|
  {
    if q != [] {
      assert (q + [m])[1..] == q[1..] + [m];
      InQueueAppend(q[1..], m, x);
    } else {
      assert (q + [m])[1..] == [];
    }
  }

  lemma {:induction false} TotalUpdate(s: State, i: nat, a: ActorState, x: Target)
    requires i < |s|
    ensures Total(s[i := a], x) == Total(s, x) - Stake(s[i], x) - Inbox(s[i], x) + Stake(a, x) + Inbox(a, x)
    decreases |s|
  {
    var n := |s| - 1;
    if i == n {
      assert s[i := a][..n] == s[..n];
    } else {
      assert s[i := a][..n] == s[..n][i := a];
      TotalUpdate(s[..n], i, a, x);
    }
  }

  // ---------- What makes the owner's queue safe to read ----------

  /** Reading `q` with `v` counts keeps the count from going negative, it is
      positive whenever an ACQUIRE is read, and every RELEASE gives something. */
  predicate SafeQueue(v: int, q: seq<Message>, x: Target)
    decreases |q|
  {
    && v >= 0
    && (q != [] ==>
          && (q[0].Acquire? && x in q[0].counts ==> v >= 1)
          && (q[0].Release? && x in q[0].counts ==> q[0].counts[x] > 0)
          && SafeQueue(v - Carried(q[0], x), q[1..], x))
  }

  lemma {:induction false} SafeAppend(v: int, q: seq<Message>, m: Message, x: Target)
    requires SafeQueue(v, q, x)
    requires v - InQueue(q, x) - Carried(m, x) >= 0
    requires m.Acquire? && x in m.counts ==> v - InQueue(q, x) >= 1
    requires m.Release? && x in m.counts ==> m.counts[x] > 0
    ensures SafeQueue(v, q + [m], x)
    decreases |q|
  {
    if q == [] {
      assert (q + [m])[1..] == [];
    } else {
      assert (q + [m])[1..] == q[1..] + [m];
      SafeAppend(v - Carried(q[0], x), q[1..], m, x);
    }
  }

  predicate Carries(q: seq<Message>, x: Target) {
    exists k :: 0 <= k < |q| && q[k].App? && x in q[k].refs
  }

  /** A count of zero is final: nothing in the queue can raise it again. */
  lemma {:induction false} ZeroIsFinal(q: seq<Message>, x: Target)
    requires SafeQueue(0, q, x)
    ensures InQueue(q, x) == 0
    ensures !Carries(q, x)
    decreases |q|
  {
    if q != [] {
      assert Carried(q[0], x) == 0;
      ZeroIsFinal(q[1..], x);
    }
  }

  // ---------- The invariant, target by target ----------

  predicate Known(s: State, x: Target) {
    x.id < |s|
  }

  /** Nothing is asked for that is not held and on its way out. */
  predicate Backed(a: ActorState, x: Target) {
    && (x in a.foreign ==> a.foreign[x] > 0)
    && (x in AcquireOf(a) ==> x in RefsOf(a) && x in a.foreign && a.foreign[x] >= AcquireOf(a)[x])
  }

  /** Counts are moved only through the queue of the owner. */
  predicate Addressed(q: seq<Message>, x: Target) {
    forall k :: 0 <= k < |q| ==> q[k].App? || x !in q[k].counts
  }

  predicate AllBacked(s: State, x: Target) {
    forall i :: 0 <= i < |s| ==> Backed(s[i], x) && (i != x.id ==> Addressed(s[i].queue, x))
  }

  lemma AllBackedUpdate(s: State, me: Id, a: ActorState, x: Target)
    requires me < |s| && AllBacked(s, x) && Backed(a, x) && (me != x.id ==> Addressed(a.queue, x))
    ensures AllBacked(s[me := a], x)
  {
  }

  predicate Balanced(s: State, x: Target)
    requires Known(s, x)
  {
    OwnerCount(s, x) == Total(s, x)
  }

  predicate OwnerSafe(a: ActorState, x: Target) {
    && SafeQueue(CountIn(a.local, x) - One(x in LeftOf(a)), a.queue, x)
    && x !in a.foreign
    && (x.Actor? ==> x in a.local)
    && (x.Object? && (x in a.local || x in a.held) ==> x in a.born)
    && (x in a.held && x in a.local ==> x in a.reachable)
    && (x in a.freed ==> x.Object? && x in a.born && x !in a.held && x !in a.local)
  }

  predicate InvFor(s: State, x: Target) {
    && Known(s, x)
    && Balanced(s, x)
    && OwnerSafe(s[x.id], x)
    && AllBacked(s, x)
  }

  /** Nobody has heard of targets of actors that do not exist yet. */
  predicate Absent(a: ActorState, x: Target) {
    && x !in a.foreign && x !in RefsOf(a) && x !in AcquireOf(a) && x !in LeftOf(a)
    && Addressed(a.queue, x) && (forall k :: 0 <= k < |a.queue| && a.queue[k].App? ==> x !in a.queue[k].refs)
  }

  predicate OwnersHeld(me: Id, a: ActorState) {
    && (forall x :: x in a.foreign && x.Object? ==> Actor(x.id) in a.foreign)
    && (forall x :: x in RefsOf(a) && x.Object? ==> Actor(x.id) in RefsOf(a))
    && (forall x :: x in LeftOf(a) && x.Object? ==> Actor(x.id) in LeftOf(a) || Actor(x.id) in a.foreign || x.id == me)
    && (forall k, x :: 0 <= k < |a.queue| && a.queue[k].App? && x in a.queue[k].refs && x.Object? ==> Actor(x.id) in a.queue[k].refs)
  }

  ghost predicate Inv(s: State) {
    && (forall i :: 0 <= i < |s| ==> OwnersHeld(i, s[i]))
    && (forall x :: Known(s, x) ==> InvFor(s, x))
    && (forall x, i :: !Known(s, x) && 0 <= i < |s| ==> Absent(s[i], x))
  }

  // ---------- Bounds ----------

  lemma {:induction false} InboxNonneg(q: seq<Message>, x: Target)
    requires Addressed(q, x)
    ensures InQueue(q, x) >= 0
    decreases |q|
  {
    if q != [] {
      InboxNonneg(q[1..], x);
    }
  }

  /** Apart from the owner's inbox, all counts on `x` lie somewhere, so their
      total is at least what actor `i` has. */
  lemma {:induction false} TotalBound(s: State, x: Target, o: Id, i: Id)
    requires i < |s| && o == x.id && AllBacked(s, x)
    ensures Total(s, x) - (if o < |s| then Inbox(s[o], x) else 0)
         >= Stake(s[i], x) + (if i == o then 0 else Inbox(s[i], x))
    ensures Stake(s[i], x) >= 0 && (i != o ==> Inbox(s[i], x) >= 0)
    decreases |s|
  {
    var n := |s| - 1;
    var r := s[..n];
    if n != o { InboxNonneg(s[n].queue, x); }
    if i != o { InboxNonneg(s[i].queue, x); }
    if n > 0 {
      TotalBound(r, x, o, if i < n then i else 0);
    } else {
      assert r == [];
    }
  }

  // ---------- Steps that stay inside one actor ----------

  /** An actor's own part of the invariant for `x`. */
  predicate Sound(me: Id, a: ActorState, x: Target) {
    Backed(a, x) && if me == x.id then OwnerSafe(a, x) else Addressed(a.queue, x)
  }

  /** The owner's count moves with the actor's share. */
  predicate Moves(me: Id, a: ActorState, b: ActorState, x: Target) {
    (if me == x.id then CountIn(b.local, x) - CountIn(a.local, x) else 0)
    == Stake(b, x) + Inbox(b, x) - Stake(a, x) - Inbox(a, x)
  }

  lemma IsSound(s: State, me: Id, x: Target)
    requires InvFor(s, x) && me < |s|
    ensures Sound(me, s[me], x)
  {
  }

  /** Replacing one actor keeps the invariant for `x` when the owner's count
      moves with the actor's share and the actor's own part stays in order. */
  lemma InvReplace(s: State, me: Id, a: ActorState, x: Target)
    requires me < |s| && InvFor(s, x) && Sound(me, a, x) && Moves(me, s[me], a, x)
    ensures InvFor(s[me := a], x)
  {
    TotalUpdate(s, me, a, x);
    AllBackedUpdate(s, me, a, x);
  }

  /** What tracing `y` for sending does to the counts on `y`. */
  lemma SendOneSound(me: Id, a: ActorState, y: Target)
    requires Sound(me, a, y) && a.phase.Sending?
    requires y.id != me ==> CountIn(a.foreign, y) > 0
    requires y.id == me && y.Object? ==> y in a.held
    ensures Sound(me, SendOne(me, a, y), y) && Moves(me, a, SendOne(me, a, y), y)
  {
    assert SendOne(me, a, y).queue == a.queue;
    if me == y.id {
      assert y !in AcquireOf(a);
      SafeMore(CountIn(a.local, y), a.queue, y);
    }
  }

  /** Nothing that concerns `x` is different. */
  predicate SameFor(a: ActorState, b: ActorState, x: Target) {
    && b.queue == a.queue && b.held == a.held && b.born == a.born && b.freed == a.freed && LeftOf(b) == LeftOf(a)
    && (x in b.foreign <==> x in a.foreign) && CountIn(b.foreign, x) == CountIn(a.foreign, x)
    && (x in b.local <==> x in a.local) && CountIn(b.local, x) == CountIn(a.local, x)
    && (x in b.reachable <==> x in a.reachable) && (x in RefsOf(b) <==> x in RefsOf(a))
    && (x in AcquireOf(b) <==> x in AcquireOf(a)) && CountIn(AcquireOf(b), x) == CountIn(AcquireOf(a), x)
  }

  lemma SendOneSame(me: Id, a: ActorState, x: Target, y: Target)
    requires a.phase.Sending? && x != y
    ensures SameFor(a, SendOne(me, a, y), x)
  {
  }

  lemma SameSound(me: Id, a: ActorState, b: ActorState, x: Target)
    requires Sound(me, a, x) && SameFor(a, b, x)
    ensures Sound(me, b, x) && Moves(me, a, b, x)
  {
  }

  lemma SendOneOther(me: Id, a: ActorState, x: Target, y: Target)
    requires Sound(me, a, x) && a.phase.Sending? && x != y
    ensures Sound(me, SendOne(me, a, y), x) && Moves(me, a, SendOne(me, a, y), x)
  {
    SendOneSame(me, a, x, y);
    SameSound(me, a, SendOne(me, a, y), x);
  }

  lemma SendOneInv(s: State, me: Id, x: Target, y: Target)
    requires InvFor(s, x) && me < |s| && s[me].phase.Sending?
    requires y.id != me ==> CountIn(s[me].foreign, y) > 0
    requires y.id == me && y.Object? ==> y in s[me].held
    ensures InvFor(s[me := SendOne(me, s[me], y)], x)
  {
    IsSound(s, me, x);
    if x == y { SendOneSound(me, s[me], y); } else { SendOneOther(me, s[me], x, y); }
    InvReplace(s, me, SendOne(me, s[me], y), x);
  }

  lemma {:induction false} SafeMore(v: int, q: seq<Message>, x: Target)
    requires SafeQueue(v, q, x)
    ensures SafeQueue(v + 1, q, x)
    decreases |q|
  {
    if q != [] { SafeMore(v - Carried(q[0], x), q[1..], x); }
  }

  lemma RecvOneInv(s: State, me: Id, x: Target, y: Target)
    requires InvFor(s, x) && me < |s| && s[me].phase.Receiving?
    requires y in s[me].phase.left && y.id == me ==> y in s[me].local && s[me].local[y] > 0
    ensures InvFor(s[me := RecvOne(me, s[me], y)], x)
  {
    var a := s[me];
    var b := RecvOne(me, a, y);
    assert b.queue == a.queue;
    InvReplace(s, me, b, x);
  }

  /** The asserts in the handlers never fail. */
  lemma EnabledIsSafe(s: State, me: Id, step: Step)
    requires Inv(s) && Enabled(s, me, step)
    ensures Safe(s, me, step)
  {
    var a := s[me];
    if step.Pop? && !a.queue[0].App? {
      forall x | x in a.queue[0].counts
        ensures x in a.local && (a.queue[0].Release? ==> a.local[x] >= a.queue[0].counts[x])
      {
        assert Absent(s[me], x) || InvFor(s, x);
        assert x.id == me;
        assert SafeQueue(CountIn(a.local, x) - Carried(a.queue[0], x), a.queue[1..], x);
      }
    } else if step.TraceRecv? {
      assert InvFor(s, step.x) || step.x.id != me;
      assert InvFor(s, Actor(step.x.id)) || step.x.id != me;
    }
  }

  // ---------- Steps that push a message ----------

  /** The owner's count covers what its queue and everyone's stakes say. */
  lemma OwnerCovers(s: State, m: Message, x: Target)
    requires Known(s, x) && AllBacked(s, x) && OwnerCount(s, x) == Total(s, x) + Carried(m, x)
    requires m.Acquire? && x in m.counts ==> exists i :: 0 <= i < |s| && Stake(s[i], x) >= 1 + m.counts[x]
    ensures var o := s[x.id]; var v := CountIn(o.local, x) - One(x in LeftOf(o));
      v - InQueue(o.queue, x) - Carried(m, x) >= 0 && (m.Acquire? && x in m.counts ==> v - InQueue(o.queue, x) >= 1)
  {
    TotalBound(s, x, x.id, x.id);
    if m.Acquire? && x in m.counts {
      var i :| 0 <= i < |s| && Stake(s[i], x) >= 1 + m.counts[x];
      TotalBound(s, x, x.id, i);
    }
  }

  lemma PushBalanced(s: State, to: Id, m: Message, x: Target)
    requires to < |s| && Known(s, x) && OwnerCount(s, x) == Total(s, x) + Carried(m, x)
    ensures Balanced(Push(s, to, m), x)
  {
    InQueueAppend(s[to].queue, m, x);
    TotalUpdate(s, to, s[to].(queue := s[to].queue + [m]), x);
  }

  lemma PushOwnerSafe(a: ActorState, m: Message, x: Target)
    requires OwnerSafe(a, x) && (m.Release? && x in m.counts ==> m.counts[x] > 0)
    requires var v := CountIn(a.local, x) - One(x in LeftOf(a));
      v - InQueue(a.queue, x) - Carried(m, x) >= 0 && (m.Acquire? && x in m.counts ==> v - InQueue(a.queue, x) >= 1)
    ensures OwnerSafe(a.(queue := a.queue + [m]), x)
  {
    SafeAppend(CountIn(a.local, x) - One(x in LeftOf(a)), a.queue, m, x);
  }

  lemma PushInv(s: State, to: Id, m: Message, x: Target)
    requires to < |s| && Known(s, x)
    requires OwnerSafe(s[x.id], x)
    requires AllBacked(s, x)
    requires OwnerCount(s, x) == Total(s, x) + Carried(m, x)
    requires to != x.id ==> m.App? || x !in m.counts
    requires m.Release? && x in m.counts ==> m.counts[x] > 0
    requires m.Acquire? && x in m.counts ==> exists i :: 0 <= i < |s| && Stake(s[i], x) >= 1 + m.counts[x]
    ensures InvFor(Push(s, to, m), x)
  {
    PushBalanced(s, to, m, x);
    assert Backed(s[to], x);
    AllBackedUpdate(s, to, s[to].(queue := s[to].queue + [m]), x);
    if to == x.id {
      OwnerCovers(s, m, x);
      PushOwnerSafe(s[to], m, x);
    }
  }

  lemma PushAcquireInv(s: State, me: Id, to: Id, x: Target)
    requires InvFor(s, x) && Enabled(s, me, PushAcquire(to))
    ensures InvFor(Apply(s, me, PushAcquire(to)), x)
  {
    var a := s[me];
    var counts := OwnedBy(a.phase.acquire, to);
    var b := a.(phase := a.phase.(acquire := a.phase.acquire - counts.Keys));
    TotalUpdate(s, me, b, x);
    AllBackedUpdate(s, me, b, x);
    assert x in counts ==> Stake(s[me := b][me], x) >= 1 + counts[x];
    PushInv(s[me := b], to, Acquire(counts), x);
  }

  lemma PushAppInv(s: State, me: Id, x: Target)
    requires InvFor(s, x) && Enabled(s, me, PushApp)
    ensures InvFor(Apply(s, me, PushApp), x)
  {
    var a := s[me];
    var b := a.(phase := Running);
    TotalUpdate(s, me, b, x);
    AllBackedUpdate(s, me, b, x);
    PushInv(s[me := b], a.phase.to, App(a.phase.refs), x);
  }

  lemma SweepForeignInv(s: State, me: Id, to: Id, drop: set<Target>, x: Target)
    requires InvFor(s, x) && Enabled(s, me, SweepForeign(to, drop))
    ensures InvFor(Apply(s, me, SweepForeign(to, drop)), x)
  {
    var a := s[me];
    var counts := map y | y in drop && y in a.foreign :: a.foreign[y];
    var b := a.(foreign := a.foreign - drop);
    IsSound(s, me, x);
    DropSound(me, a, drop, x);
    TotalUpdate(s, me, b, x);
    AllBackedUpdate(s, me, b, x);
    PushInv(s[me := b], to, Release(counts), x);
  }

  /** What dropping foreign targets does to the counts of the actor itself. */
  lemma DropSound(me: Id, a: ActorState, drop: set<Target>, x: Target)
    requires Sound(me, a, x) && a.phase.Running?
    ensures var b := a.(foreign := a.foreign - drop);
      Sound(me, b, x) && Inbox(b, x) == Inbox(a, x)
      && Stake(b, x) == Stake(a, x) - if x in drop then CountIn(a.foreign, x) else 0
  {
  }

  // ---------- The other steps ----------

  /** Reading an application message or an ACQUIRE. */
  lemma PopMore(s: State, me: Id, x: Target)
    requires me < |s| && Sound(me, s[me], x) && Enabled(s, me, Pop) && Safe(s, me, Pop) && !s[me].queue[0].Release?
    ensures var b := Apply(s, me, Pop)[me]; Sound(me, b, x) && Moves(me, s[me], b, x)
  {
    var a, b := s[me], Apply(s, me, Pop)[me];
    assert b.queue == a.queue[1..];
    assert me != x.id ==> Addressed(b.queue, x);
  }

  lemma PopRelease(s: State, me: Id, x: Target)
    requires me < |s| && Sound(me, s[me], x) && Enabled(s, me, Pop) && Safe(s, me, Pop) && s[me].queue[0].Release?
    ensures var b := Apply(s, me, Pop)[me]; Sound(me, b, x) && Moves(me, s[me], b, x)
  {
    var a, b := s[me], Apply(s, me, Pop)[me];
    assert b.queue == a.queue[1..];
    assert me != x.id ==> Addressed(b.queue, x);
  }

  lemma PopInv(s: State, me: Id, x: Target)
    requires InvFor(s, x) && Enabled(s, me, Pop) && Safe(s, me, Pop)
    ensures InvFor(Apply(s, me, Pop), x)
  {
    IsSound(s, me, x);
    if s[me].queue[0].Release? { PopRelease(s, me, x); } else { PopMore(s, me, x); }
    var b := Apply(s, me, Pop)[me];
    assert Apply(s, me, Pop) == s[me := b];
    InvReplace(s, me, b, x);
  }

  lemma {:induction false} TotalAppend(s: State, a: ActorState, x: Target)
    ensures Total(s + [a], x) == Total(s, x) + Stake(a, x) + Inbox(a, x)
  {
    assert (s + [a])[..|s|] == s;
  }

  lemma CreateInv(s: State, me: Id, x: Target)
    requires InvFor(s, x) && Enabled(s, me, Create)
    ensures InvFor(Apply(s, me, Create), x)
  {
    var b := s[me].(foreign := s[me].foreign[Actor(|s|) := INC_MORE]);
    InvReplace(s, me, b, x);
    AppendInv(s[me := b], x);
  }

  /** A new actor changes nothing for the targets of the others. */
  lemma AppendInv(s: State, x: Target)
    requires InvFor(s, x)
    ensures InvFor(s + [NewActor(|s|)], x)
  {
    TotalAppend(s, NewActor(|s|), x);
    AllBackedAppend(s, NewActor(|s|), x);
  }

  lemma AllBackedAppend(s: State, a: ActorState, x: Target)
    requires AllBacked(s, x) && Backed(a, x) && (|s| != x.id ==> Addressed(a.queue, x))
    ensures AllBacked(s + [a], x)
  {
  }

  lemma CreatedInv(s: State, me: Id, x: Target)
    requires Enabled(s, me, Create) && x.id == |s|
    requires forall i :: 0 <= i < |s| ==> Absent(s[i], x)
    ensures InvFor(Apply(s, me, Create), x)
  {
    var b := s[me].(foreign := s[me].foreign[Actor(|s|) := INC_MORE]);
    assert Absent(s[me], x);
    AbsentTotal(s, x);
    TotalUpdate(s, me, b, x);
    TotalAppend(s[me := b], NewActor(|s|), x);
    assert AllBacked(s[me := b], x);
    AllBackedAppend(s[me := b], NewActor(|s|), x);
  }

  lemma {:induction false} AbsentTotal(s: State, x: Target)
    requires forall i :: 0 <= i < |s| ==> Absent(s[i], x)
    ensures Total(s, x) == 0
    decreases |s|
  {
    if s != [] {
      AbsentTotal(s[..|s| - 1], x);
      AbsentQueue(s[|s| - 1].queue, x);
    }
  }

  lemma {:induction false} AbsentQueue(q: seq<Message>, x: Target)
    requires Addressed(q, x) && (forall k :: 0 <= k < |q| && q[k].App? ==> x !in q[k].refs)
    ensures InQueue(q, x) == 0
    decreases |q|
  {
    if q != [] { AbsentQueue(q[1..], x); }
  }

  lemma TraceSendInv(s: State, me: Id, y: Target, x: Target)
    requires InvFor(s, x) && Enabled(s, me, TraceSend(y))
    requires forall i :: 0 <= i < |s| ==> OwnersHeld(i, s[i])
    requires y in s[me].foreign ==> s[me].foreign[y] > 0
    requires Actor(y.id) in s[me].foreign ==> s[me].foreign[Actor(y.id)] > 0
    ensures InvFor(Apply(s, me, TraceSend(y)), x)
  {
    var a := s[me];
    if y.Object? {
      var t := s[me := SendOne(me, a, Actor(y.id))];
      SendOneInv(s, me, x, Actor(y.id));
      SendOneInv(t, me, x, y);
      assert t[me := SendOne(me, t[me], y)] == Apply(s, me, TraceSend(y));
    } else {
      SendOneInv(s, me, x, y);
    }
  }

  lemma TraceRecvInv(s: State, me: Id, y: Target, x: Target)
    requires InvFor(s, x) && Enabled(s, me, TraceRecv(y)) && Safe(s, me, TraceRecv(y))
    ensures InvFor(Apply(s, me, TraceRecv(y)), x)
  {
    var a := s[me];
    if y.Object? {
      var t := s[me := RecvOne(me, a, Actor(y.id))];
      RecvOneInv(s, me, x, Actor(y.id));
      RecvOneInv(t, me, x, y);
      assert t[me := RecvOne(me, t[me], y)] == Apply(s, me, TraceRecv(y));
    } else {
      RecvOneInv(s, me, x, y);
    }
  }

  /** Steps that touch neither a queue nor another actor. */
  lemma LocalStepInv(s: State, me: Id, step: Step, x: Target)
    requires InvFor(s, x) && Enabled(s, me, step)
    requires step.Alloc? || step.Forget? || step.BeginSend? || step.DoneSend? || step.DoneRecv?
    ensures InvFor(Apply(s, me, step), x)
  {
    var b := Apply(s, me, step)[me];
    assert b.queue == s[me].queue && b.local == s[me].local && b.foreign == s[me].foreign && LeftOf(b) == LeftOf(s[me]);
    InvReplace(s, me, b, x);
  }

  lemma SweepLocalInv(s: State, me: Id, x: Target)
    requires InvFor(s, x) && Enabled(s, me, SweepLocal)
    ensures InvFor(Apply(s, me, SweepLocal), x)
  {
    var b := Apply(s, me, SweepLocal)[me];
    assert CountIn(b.local, x) == CountIn(s[me].local, x);
    InvReplace(s, me, b, x);
  }

  lemma StepInvFor(s: State, me: Id, step: Step, x: Target)
    requires Inv(s) && Enabled(s, me, step) && Safe(s, me, step) && Known(s, x)
    ensures InvFor(Apply(s, me, step), x)
  {
    assert InvFor(s, x);
    match step
    case TraceSend(y) =>
      assert Absent(s[me], y) || InvFor(s, y);
      assert Absent(s[me], Actor(y.id)) || InvFor(s, Actor(y.id));
      TraceSendInv(s, me, y, x);
    case TraceRecv(y) => TraceRecvInv(s, me, y, x);
    case PushAcquire(to) => PushAcquireInv(s, me, to, x);
    case PushApp => PushAppInv(s, me, x);
    case SweepForeign(to, drop) => SweepForeignInv(s, me, to, drop, x);
    case Pop => PopInv(s, me, x);
    case Create => CreateInv(s, me, x);
    case SweepLocal => SweepLocalInv(s, me, x);
    case _ => LocalStepInv(s, me, step, x);
  }

  lemma StepAbsent(s: State, me: Id, step: Step, x: Target, i: Id)
    requires Inv(s) && Enabled(s, me, step) && Safe(s, me, step)
    requires !Known(Apply(s, me, step), x) && i < |Apply(s, me, step)|
    ensures Absent(Apply(s, me, step)[i], x)
  {
    assert !Known(s, x);
    assert Absent(s[me], x);
    if i < |s| { assert Absent(s[i], x); }
    if step.TraceSend? {
      assert step.x.id != me ==> Known(s, step.x);
      var b := if step.x.Object? then SendOne(me, s[me], Actor(step.x.id)) else s[me];
      SendOneAbsent(me, s[me], Actor(step.x.id), x);
      SendOneAbsent(me, b, step.x, x);
    } else if !step.TraceRecv? {
      OtherAbsent(s, me, step, x, i);
    }
  }

  lemma SendOneAbsent(me: Id, a: ActorState, y: Target, x: Target)
    requires Absent(a, x) && a.phase.Sending? && y != x
    ensures Absent(SendOne(me, a, y), x)
  {
  }

  lemma OtherAbsent(s: State, me: Id, step: Step, x: Target, i: Id)
    requires Enabled(s, me, step) && Safe(s, me, step) && !step.TraceSend? && !step.TraceRecv?
    requires Absent(s[me], x) && (i < |s| ==> Absent(s[i], x)) && x.id >= |s|
    requires !Known(Apply(s, me, step), x) && i < |Apply(s, me, step)|
    ensures Absent(Apply(s, me, step)[i], x)
  {
  }

  lemma PushOwners(s: State, to: Id, m: Message, i: Id)
    requires to < |s| && i < |s| && OwnersHeld(i, s[i])
    requires m.App? ==> forall x :: x in m.refs && x.Object? ==> Actor(x.id) in m.refs
    ensures OwnersHeld(i, Push(s, to, m)[i])
  {
  }

  lemma SendOneOwners(me: Id, a: ActorState, y: Target)
    requires OwnersHeld(me, a) && a.phase.Sending?
    requires y.Object? ==> Actor(y.id) in RefsOf(a) && (y.id == me || Actor(y.id) in a.foreign)
    ensures OwnersHeld(me, SendOne(me, a, y))
  {
  }

  lemma RecvOneOwners(me: Id, a: ActorState, y: Target)
    requires OwnersHeld(me, a) && a.phase.Receiving?
    requires y in a.phase.left && y.id == me ==> y in a.local && a.local[y] > 0
    requires y.Object? ==> Actor(y.id) !in LeftOf(a)
    ensures OwnersHeld(me, RecvOne(me, a, y))
  {
  }

  lemma TraceOwners(s: State, me: Id, step: Step, i: Id)
    requires Enabled(s, me, step) && Safe(s, me, step) && (step.TraceSend? || step.TraceRecv?) && i < |s|
    requires OwnersHeld(me, s[me]) && OwnersHeld(i, s[i])
    ensures OwnersHeld(i, Apply(s, me, step)[i])
  {
    var a, y := s[me], step.x;
    if step.TraceSend? {
      SendOneOwners(me, a, Actor(y.id));
      if y.Object? { SendOneOwners(me, SendOne(me, a, Actor(y.id)), y); }
    } else {
      if y.Object? || y.id != me || y in a.local { RecvOneOwners(me, a, Actor(y.id)); }
      if y.Object? { RecvOneOwners(me, RecvOne(me, a, Actor(y.id)), y); }
    }
  }

  /** Objects are held and sent together with the actor that owns them. */
  lemma StepOwnersHeld(s: State, me: Id, step: Step, i: Id)
    requires forall j :: 0 <= j < |s| ==> OwnersHeld(j, s[j])
    requires Enabled(s, me, step) && Safe(s, me, step) && i < |Apply(s, me, step)|
    ensures OwnersHeld(i, Apply(s, me, step)[i])
  {
    var a := s[me];
    assert OwnersHeld(me, a);
    match step
    case PushAcquire(to) =>
      var counts := OwnedBy(a.phase.acquire, to);
      PushOwners(s[me := a.(phase := a.phase.(acquire := a.phase.acquire - counts.Keys))], to, Acquire(counts), i);
    case PushApp =>
      PushOwners(s[me := a.(phase := Running)], a.phase.to, App(a.phase.refs), i);
    case SweepForeign(to, drop) => SweepOwners(s, me, to, drop, i);
    case TraceSend(y) => TraceOwners(s, me, step, i);
    case TraceRecv(y) => TraceOwners(s, me, step, i);
    case _ => LocalOwnersHeld(s, me, step, i);
  }

  lemma SweepOwners(s: State, me: Id, to: Id, drop: set<Target>, i: Id)
    requires forall j :: 0 <= j < |s| ==> OwnersHeld(j, s[j])
    requires Enabled(s, me, SweepForeign(to, drop)) && i < |s|
    ensures OwnersHeld(i, Apply(s, me, SweepForeign(to, drop))[i])
  {
    var a := s[me];
    var b := a.(foreign := a.foreign - drop);
    assert OwnersHeld(me, b);
    PushOwners(s[me := b], to, Release(map x | x in drop && x in a.foreign :: a.foreign[x]), i);
  }

  lemma LocalOwnersHeld(s: State, me: Id, step: Step, i: Id)
    requires Enabled(s, me, step) && Safe(s, me, step) && i < |Apply(s, me, step)|
    requires OwnersHeld(me, s[me]) && (i < |s| ==> OwnersHeld(i, s[i]))
    requires !step.PushAcquire? && !step.PushApp? && !step.SweepForeign? && !step.TraceSend? && !step.TraceRecv?
    ensures OwnersHeld(i, Apply(s, me, step)[i])
  {
  }

  lemma StepInv(s: State, me: Id, step: Step)
    requires Inv(s) && Enabled(s, me, step)
    ensures Safe(s, me, step) && Inv(Apply(s, me, step))
  {
    EnabledIsSafe(s, me, step);
    var t := Apply(s, me, step);
    forall x | Known(t, x) ensures InvFor(t, x) {
      if Known(s, x) { StepInvFor(s, me, step, x); } else { CreatedInv(s, me, x); }
    }
    forall x, i | !Known(t, x) && 0 <= i < |t| ensures Absent(t[i], x) {
      StepAbsent(s, me, step, x, i);
    }
    forall i | 0 <= i < |t| ensures OwnersHeld(i, t[i]) {
      StepOwnersHeld(s, me, step, i);
    }
  }

  // ---------- Runs ----------

  datatype Move = Move(me: Id, step: Step)

  /** A step whose asserts fail may lead anywhere. */
  ghost predicate Next(s: State, move: Move, t: State) {
    && Enabled(s, move.me, move.step)
    && (Safe(s, move.me, move.step) ==> t == Apply(s, move.me, move.step))
  }

  ghost predicate Run(run: seq<State>, moves: seq<Move>) {
    && |run| == |moves| + 1 && Init(run[0])
    && (forall k :: 0 <= k < |moves| ==> Next(run[k], moves[k], run[k + 1]))
  }

  lemma InitInv(s: State)
    requires Init(s)
    ensures Inv(s)
  {
    forall x | Known(s, x) ensures InvFor(s, x) {
      assert s[..0] == [];
      assert Total(s, x) == Total(s[..0], x) + Stake(s[0], x) + Inbox(s[0], x);
    }
  }

  lemma {:induction false} RunInv(run: seq<State>, moves: seq<Move>, k: nat)
    requires Run(run, moves) && k < |run|
    ensures Inv(run[k])
    decreases k
  {
    if k == 0 {
      InitInv(run[0]);
    } else {
      RunInv(run, moves, k - 1);
      assert Next(run[k - 1], moves[k - 1], run[k - 1 + 1]);
      StepInv(run[k - 1], moves[k - 1].me, moves[k - 1].step);
    }
  }

  /** In no run does a handler find a missing entry or a count that is too
      small: the asserts of the source hold at every step. */
  lemma AssertsHold(run: seq<State>, moves: seq<Move>, k: nat)
    requires Run(run, moves) && k < |moves|
    ensures Enabled(run[k], moves[k].me, moves[k].step) && Safe(run[k], moves[k].me, moves[k].step)
  {
    RunInv(run, moves, k);
    assert Next(run[k], moves[k], run[k + 1]);
    EnabledIsSafe(run[k], moves[k].me, moves[k].step);
  }

  /** In every state of every run the owner's count is the sum of the counts
      that actors hold, that messages being sent, queued or received carry and
      that queued RELEASEs return, less those that queued or pending ACQUIREs
      still have to add. */
  lemma Conservation(run: seq<State>, moves: seq<Move>, k: nat, x: Target)
    requires Run(run, moves) && k < |run| && x.id < |run[k]|
    ensures OwnerCount(run[k], x) == Total(run[k], x)
  {
    RunInv(run, moves, k);
    assert Known(run[k], x) && InvFor(run[k], x);
  }

  /** Some actor holds a count on `x`, or some message on its way carries one. */
  ghost predicate Referenced(s: State, x: Target) {
    exists i :: 0 <= i < |s| &&
      (x in s[i].foreign || x in RefsOf(s[i]) || x in LeftOf(s[i]) || Carries(s[i].queue, x))
  }

  lemma ReferencedCounts(s: State, x: Target)
    requires Inv(s) && Known(s, x) && Referenced(s, x)
    ensures OwnerCount(s, x) > 0
  {
    assert InvFor(s, x);
    var i :| 0 <= i < |s| &&
      (x in s[i].foreign || x in RefsOf(s[i]) || x in LeftOf(s[i]) || Carries(s[i].queue, x));
    var o := s[x.id];
    if OwnerCount(s, x) == 0 {
      ZeroIsFinal(o.queue, x);
      TotalBound(s, x, x.id, i);
      assert i != x.id;
      if Carries(s[i].queue, x) { QueuedCounts(s[i].queue, x); } else { InboxNonneg(s[i].queue, x); }
    }
  }

  lemma {:induction false} QueuedCounts(q: seq<Message>, x: Target)
    requires Addressed(q, x) && Carries(q, x)
    ensures InQueue(q, x) > 0
    decreases |q|
  {
    InboxNonneg(q[1..], x);
    if !(q[0].App? && x in q[0].refs) {
      var k :| 0 <= k < |q| && q[k].App? && x in q[k].refs;
      assert q[1..][k - 1] == q[k];
      QueuedCounts(q[1..], x);
    }
  }

  /** While anyone holds a count on a target, or a message carries one, the
      owner's count of it is positive. */
  lemma ReferencedIsCounted(run: seq<State>, moves: seq<Move>, k: nat, x: Target)
    requires Run(run, moves) && k < |run| && x.id < |run[k]| && Referenced(run[k], x)
    ensures OwnerCount(run[k], x) > 0
  {
    RunInv(run, moves, k);
    ReferencedCounts(run[k], x);
  }

  /** An object that an owner has freed, in gc_release or in a sweep, is held by
      no actor and carried by no message, and its owner cannot reach it. */
  lemma FreedIsUnreferenced(run: seq<State>, moves: seq<Move>, k: nat, x: Target)
    requires Run(run, moves) && k < |run| && x.id < |run[k]| && x in run[k][x.id].freed
    ensures !Referenced(run[k], x) && x !in run[k][x.id].held
  {
    RunInv(run, moves, k);
    assert Known(run[k], x) && InvFor(run[k], x);
    if Referenced(run[k], x) { ReferencedCounts(run[k], x); }
  }

  // ---------- What is collected ----------

  /** Whether the owner can reach its object after `k` steps: it allocated the
      object or received it, and has not dropped it since. */
  ghost predicate Holds(run: seq<State>, moves: seq<Move>, k: nat, x: Target)
    requires Run(run, moves) && k < |run| && x.Object?
  {
    if k == 0 then false
    else
      var move := moves[k - 1];
      if move.me != x.id then Holds(run, moves, k - 1, x)
      else if move.step == Alloc(x.address) || (move.step == TraceRecv(x) && Arrives(run[k - 1], x)) then true
      else if move.step == Forget(x) then false
      else Holds(run, moves, k - 1, x)
  }

  /** The owner is to receive the target. */
  predicate Arrives(s: State, x: Target) {
    x.id < |s| && x in LeftOf(s[x.id])
  }

  /** Whether the owner reached the object when it last swept, received the object
      or made an entry for it. */
  ghost predicate Found(run: seq<State>, moves: seq<Move>, k: nat, x: Target)
    requires Run(run, moves) && k < |run| && x.Object?
  {
    if k == 0 then false
    else
      var move := moves[k - 1];
      if move.me != x.id then Found(run, moves, k - 1, x)
      else if move.step == SweepLocal then Holds(run, moves, k - 1, x)
      else if move.step == TraceRecv(x) && Arrives(run[k - 1], x) then true
      else if move.step == TraceSend(x) && Enters(run[k - 1], x) then true
      else Found(run, moves, k - 1, x)
  }

  /** The owner sends the target in a message that does not contain it yet, and
      has no entry for it. */
  predicate Enters(s: State, x: Target) {
    x.id < |s| && x !in RefsOf(s[x.id]) && x !in s[x.id].local
  }

  lemma RunMove(run: seq<State>, moves: seq<Move>, k: nat)
    requires Run(run, moves) && k < |moves|
    ensures Enabled(run[k], moves[k].me, moves[k].step) && Safe(run[k], moves[k].me, moves[k].step)
    ensures run[k + 1] == Apply(run[k], moves[k].me, moves[k].step)
  {
    AssertsHold(run, moves, k);
    assert Next(run[k], moves[k], run[k + 1]);
  }

  /** What a step of the owner does to what it can reach, and to the flag. */
  lemma HeldStep(s: State, me: Id, step: Step, x: Target)
    requires Enabled(s, me, step) && Safe(s, me, step) && x.Object? && x.id < |s|
    ensures x.id < |Apply(s, me, step)|
    ensures x in Apply(s, me, step)[x.id].held <==>
      if me == x.id && (step == Alloc(x.address) || (step == TraceRecv(x) && Arrives(s, x))) then true
      else if me == x.id && step == Forget(x) then false
      else x in s[x.id].held
    ensures x in Apply(s, me, step)[x.id].reachable <==>
      if me == x.id && step == SweepLocal then x in s[x.id].held
      else if me == x.id && step == TraceRecv(x) && Arrives(s, x) then true
      else if me == x.id && step == TraceSend(x) && Enters(s, x) then true
      else x in s[x.id].reachable
  {
  }

  /** The model's sets of reachable objects and of stored flags are what the run
      says. */
  lemma {:induction false} FlagsAre(run: seq<State>, moves: seq<Move>, k: nat, x: Target)
    requires Run(run, moves) && k < |run| && x.Object? && x.id < |run[k]|
    ensures x in run[k][x.id].held <==> Holds(run, moves, k, x)
    ensures x in run[k][x.id].reachable <==> Found(run, moves, k, x)
  {
    if k > 0 {
      RunMove(run, moves, k - 1);
      var s, move := run[k - 1], moves[k - 1];
      if x.id < |s| {
        FlagsAre(run, moves, k - 1, x);
        HeldStep(s, move.me, move.step, x);
      } else {
        BeforeCreated(run, moves, k - 1, x);
      }
    }
  }

  lemma {:induction false} BeforeCreated(run: seq<State>, moves: seq<Move>, k: nat, x: Target)
    requires Run(run, moves) && k < |run| && x.Object? && x.id >= |run[k]|
    ensures !Holds(run, moves, k, x) && !Found(run, moves, k, x)
  {
    if k > 0 {
      RunMove(run, moves, k - 1);
      BeforeCreated(run, moves, k - 1, x);
    }
  }

  /** The owner reads a RELEASE that takes the last counts on the object, which it
      did not reach when it last looked. */
  ghost predicate LastRelease(run: seq<State>, moves: seq<Move>, k: nat, x: Target)
    requires Run(run, moves) && k < |moves| && x.Object? && x.id < |run[k]|
  {
    var a := run[k][x.id];
    && moves[k].me == x.id && moves[k].step.Pop? && a.queue != [] && a.queue[0].Release?
    && x in a.queue[0].counts && OwnerCount(run[k], x) == a.queue[0].counts[x] && !Found(run, moves, k, x)
  }

  /** The owner sweeps when it cannot reach the object, which it has not freed,
      and the count is zero. */
  ghost predicate LastSweep(run: seq<State>, moves: seq<Move>, k: nat, x: Target)
    requires Run(run, moves) && k < |moves| && x.Object? && x.id < |run[k]|
  {
    && moves[k].me == x.id && moves[k].step.SweepLocal? && x in run[k][x.id].born
    && OwnerCount(run[k], x) == 0 && !Holds(run, moves, k, x)
  }

  lemma FreedStep(s: State, me: Id, step: Step, x: Target)
    requires Enabled(s, me, step) && Safe(s, me, step) && x.Object? && x.id < |s|
    ensures x in Apply(s, me, step)[x.id].freed <==>
      || x in s[x.id].freed
      || (me == x.id && step.Pop? && s[me].queue[0].Release? && x in Dropped(s[me], s[me].queue[0].counts))
      || (me == x.id && step.SweepLocal? && x in s[me].born && x !in s[me].held && OwnerCount(s, x) == 0)
    ensures me == x.id && step.Pop? && s[me].queue[0].Release? && x in Dropped(s[me], s[me].queue[0].counts) ==>
      x !in Apply(s, me, step)[x.id].local
    ensures me == x.id && step.SweepLocal? ==>
      (x in Apply(s, me, step)[x.id].local <==> OwnerCount(s, x) > 0)
  {
  }

  /** An object is freed by the RELEASE of its last counts when the owner did not
      reach it, or by a sweep when its count is zero and the owner does not reach
      it, and at no other time; then it has no entry. A sweep leaves an entry for
      an object exactly when it has counts. */
  lemma FreedExactly(run: seq<State>, moves: seq<Move>, k: nat, x: Target)
    requires Run(run, moves) && k < |moves| && x.Object? && x.id < |run[k]|
    ensures x.id < |run[k + 1]|
    ensures x in run[k + 1][x.id].freed <==>
      x in run[k][x.id].freed || LastRelease(run, moves, k, x) || LastSweep(run, moves, k, x)
    ensures x in run[k + 1][x.id].freed ==> x !in run[k + 1][x.id].local
    ensures moves[k] == Move(x.id, SweepLocal) ==> (x in run[k + 1][x.id].local <==> OwnerCount(run[k], x) > 0)
  {
    RunMove(run, moves, k);
    FlagsAre(run, moves, k, x);
    FreedStep(run[k], moves[k].me, moves[k].step, x);
    HeldStep(run[k], moves[k].me, moves[k].step, x);
    RunInv(run, moves, k + 1);
    assert Known(run[k + 1], x) && InvFor(run[k + 1], x);
  }

  /** An entry at zero is kept only for an object that the owner reached when it
      last looked: a RELEASE to zero leaves nothing behind. */
  lemma {:induction false} ZeroIsFound(run: seq<State>, moves: seq<Move>, k: nat, x: Target)
    requires Run(run, moves) && k < |run| && x.Object? && x.id < |run[k]|
    requires x in run[k][x.id].local && run[k][x.id].local[x] == 0
    ensures Found(run, moves, k, x)
  {
    FlagsAre(run, moves, k, x);
    if k > 0 {
      RunMove(run, moves, k - 1);
      var s, move := run[k - 1], moves[k - 1];
      if x.id < |s| {
        if x in s[x.id].local && s[x.id].local[x] == 0 {
          ZeroIsFound(run, moves, k - 1, x);
          FlagsAre(run, moves, k - 1, x);
        }
        ZeroStep(s, move.me, move.step, x);
      }
    }
  }

  lemma ZeroStep(s: State, me: Id, step: Step, x: Target)
    requires Enabled(s, me, step) && Safe(s, me, step) && x.Object? && x.id < |s|
    requires x in s[x.id].local && s[x.id].local[x] == 0 ==> x in s[x.id].reachable
    ensures var a := Apply(s, me, step)[x.id]; x in a.local && a.local[x] == 0 ==> x in a.reachable
  {
  }

  /** No garbage outlives a sweep: an object that its owner cannot reach and that no
      actor holds and no message names is freed by the owner's next sweep. */
  lemma GarbageIsFreed(run: seq<State>, moves: seq<Move>, k: nat, x: Target)
    requires Run(run, moves) && k < |moves| && x.Object? && moves[k] == Move(x.id, SweepLocal) && x.id < |run[k]|
    requires x in run[k][x.id].born && !Holds(run, moves, k, x)
    requires forall i :: 0 <= i < |run[k]| ==> Absent(run[k][i], x)
    ensures x.id < |run[k + 1]| && x in run[k + 1][x.id].freed
  {
    Conservation(run, moves, k, x);
    AbsentTotal(run[k], x);
    FreedExactly(run, moves, k, x);
  }

  /** A sender gives away one of its counts on a target that it does not own as long
      as it keeps one; otherwise it asks the owner for 256 more, and it asks for
      none before. */
  lemma TopsUp(run: seq<State>, moves: seq<Move>, k: nat, me: Id, x: Target)
    requires Run(run, moves) && k < |moves| && moves[k] == Move(me, TraceSend(x)) && me < |run[k]| && x.id != me
    requires x !in RefsOf(run[k][me])
    ensures me < |run[k + 1]|
    ensures var a, a' := run[k][me], run[k + 1][me];
      var n, asked := CountIn(a.foreign, x), CountIn(AcquireOf(a), x);
      && x in RefsOf(a') && CountIn(a'.foreign, x) == (if n > 1 then n - 1 else 256)
      && CountIn(AcquireOf(a'), x) == if n > 1 then asked else 256
  {
    RunMove(run, moves, k);
  }
}
