/** How the cycle detector confirms a perceived cycle: it asks the members in
    batches with CONF messages that carry the token of the cycle, members that are
    still blocked as they said answer with ACK messages, and the cycle is collected
    when all have answered, unless a BLOCK or UNBLOCK message of a member comes
    first. Messages to the detector are read in the order they were sent. */
module CycleConf {

  import opened Basics
  import opened Masks

  type ActorId = nat

  /** A message to the detector: BLOCK or UNBLOCK of an actor, or ACK of a token.
      The sender of an ACK, and how many BLOCK and UNBLOCK messages it had sent
      before, are not in the message. */
  datatype Msg = Note(m: ActorId, block: bool) | Ack(token: nat, m: ActorId, after: nat)

  /** What an actor knows: how many BLOCK and UNBLOCK messages it sent, whether
      the last one was BLOCK, and whether its count has changed since. */
  datatype Actor = Actor(sent: nat, blocked: bool, changed: bool)

  /** A perceived cycle: its members in the order of the map, how many of them
      were asked, and the number of answers; `since` has an entry for every view
      that points to the cycle, and tells how many messages of the actor the
      detector had read when it perceived the cycle; `acked` tells how many the
      members had sent when they answered. */
  datatype Cycle = Cycle(members: seq<ActorId>, asked: nat, acks: nat, since: map<ActorId, nat>, acked: map<ActorId, nat>)

  /** What the detector last read of an actor, and how many messages. */
  datatype View = View(read: nat, blocked: bool)

  /** `asking` are the CONF messages under way, in the order in which they were
      sent, and `sent` all that were ever sent, each as often as it was. */
  datatype State = State(actors: map<ActorId, Actor>, views: map<ActorId, View>, queue: seq<Msg>,
                         cycles: map<nat, Cycle>, nextToken: nat, group: nat,
                         asking: seq<(ActorId, nat)>, sent: multiset<(ActorId, nat)>, gone: set<ActorId>)

  datatype Choice =
    | Blocks(m: ActorId)
    | Unblocks(m: ActorId)
    | Changes(m: ActorId)
    | Answers(k: nat)
    | Reads
    | Perceives(members: seq<ActorId>)

  function ActorOf(s: State, m: ActorId): Actor {
    if m in s.actors then s.actors[m] else Actor(0, false, false)
  }

  function ViewOf(s: State, m: ActorId): View {
    if m in s.views then s.views[m] else View(0, false)
  }

  function Min(a: nat, b: nat): nat {
    if a <= b then a else b
  }

  /** The CONF messages to the members from place `i` to place `j`. */
  function Batch(members: seq<ActorId>, token: nat, i: nat, j: nat): seq<(ActorId, nat)>
    requires i <= j <= |members|
  {
    if i == j then [] else Batch(members, token, i, j - 1) + [(members[j - 1], token)]
  }

  /** More CONF messages under way. */
  function WithBatch(s: State, batch: seq<(ActorId, nat)>): State {
    s.(asking := s.asking + batch, sent := s.sent + multiset(batch))
  }

  function WithCycle(s: State, token: nat, c: Cycle): State {
    s.(cycles := s.cycles[token := c])
  }

  /** send_conf: asks the next group of members. */
  function SendConf(s: State, token: nat, c: Cycle): State {
    if c.asked > |c.members| then s
    else
      var to := Min(|c.members|, c.asked + s.group);
      WithCycle(WithBatch(s, Batch(c.members, token, c.asked, to)), token, c.(asked := to))
  }

  /** The cycle that the actor is perceived in is dropped. */
  function Expire(cycles: map<nat, Cycle>, m: ActorId): map<nat, Cycle> {
    map t | t in cycles && m !in cycles[t].since :: cycles[t]
  }

  /** The cycle with one more answer. */
  function Answered(c: Cycle, m: ActorId, after: nat): Cycle {
    c.(acks := c.acks + 1, acked := c.acked[m := after])
  }

  /** A multiple of the group size. */
  predicate Multiple(n: nat, group: nat)
    requires group > 0
  {
    if n < group then n == 0 else Multiple(n - group, group)
  }

  /** ack: counts an answer, and collects the cycle or asks the next group. */
  function HandleAck(s: State, token: nat, m: ActorId, after: nat): State {
    if token !in s.cycles then s
    else
      var c := Answered(s.cycles[token], m, after);
      if c.acks == |c.members| then
        s.(cycles := s.cycles - {token}, gone := s.gone + (set k | 0 <= k < |c.members| :: c.members[k]))
      else if s.group > 0 && Multiple(c.acks, s.group) then SendConf(s, token, c)
      else s.(cycles := s.cycles[token := c])
  }

  predicate Distinct(members: seq<ActorId>) {
    forall i, j :: 0 <= i < j < |members| ==> members[i] != members[j]
  }

  /** The actor is in a perceived cycle. */
  ghost predicate Perceived(s: State, m: ActorId) {
    exists t :: t in s.cycles && m in s.cycles[t].since
  }

  /** The CONF at place `k` is the oldest of its actor. */
  predicate First(asking: seq<(ActorId, nat)>, k: nat) {
    k < |asking| && forall j :: 0 <= j < k ==> asking[j].0 != asking[k].0
  }

  function Without(asking: seq<(ActorId, nat)>, k: nat): seq<(ActorId, nat)> {
    if k < |asking| then asking[..k] + asking[k + 1..] else asking
  }

  /** The actors read their messages in the order in which they were sent. A view
      of an actor that was destroyed is removed, so it is not perceived again. */
  ghost predicate Enabled(s: State, c: Choice) {
    match c
    case Blocks(m) => m !in s.gone && (!ActorOf(s, m).blocked || ActorOf(s, m).changed)
    case Unblocks(m) => m !in s.gone && ActorOf(s, m).blocked
    case Changes(m) => m !in s.gone && ActorOf(s, m).blocked
    case Answers(k) => First(s.asking, k) && s.asking[k].0 !in s.gone
    case Reads => s.queue != []
    case Perceives(members) =>
      && members != [] && Distinct(members)
      && forall k :: 0 <= k < |members| ==>
           ViewOf(s, members[k]).blocked && !Perceived(s, members[k]) && members[k] !in s.gone
  }

  function Say(s: State, m: ActorId, block: bool): State {
    s.(actors := s.actors[m := Actor(ActorOf(s, m).sent + 1, block, false)], queue := s.queue + [Note(m, block)])
  }

  function Since(s: State, members: seq<ActorId>): map<ActorId, nat> {
    map m | m in members :: ViewOf(s, m).read
  }

  function Step(s: State, c: Choice): State {
    match c
    case Blocks(m) => Say(s, m, true)
    case Unblocks(m) => Say(s, m, false)
    case Changes(m) => s.(actors := s.actors[m := ActorOf(s, m).(changed := true)])
    case Answers(k) =>
      if k >= |s.asking| then s
      else
        var (m, token) := s.asking[k];
        var a := ActorOf(s, m);
        s.(asking := Without(s.asking, k),
           queue := if a.blocked && !a.changed then s.queue + [Ack(token, m, a.sent)] else s.queue)
    case Reads =>
      if s.queue == [] then s
      else
        var r := s.(queue := s.queue[1..]);
        (match s.queue[0]
         case Note(m, block) =>
           r.(views := s.views[m := View(ViewOf(s, m).read + 1, block)], cycles := Expire(s.cycles, m))
         case Ack(token, m, after) => HandleAck(r, token, m, after))
    case Perceives(members) =>
      SendConf(s.(nextToken := s.nextToken + 1), s.nextToken, Cycle(members, 0, 0, Since(s, members), map[]))
  }

  predicate Init(s: State) {
    s == State(map[], map[], [], map[], 0, s.group, [], multiset{}, {}) && s.group > 0
  }

  // ---------- Invariant ----------

  /** When the detector has read `read` messages of an actor that has sent `sent`
      of them, the rest are in the queue, and every ACK of it was sent after those
      that come before it. */
  predicate InOrder(q: seq<Msg>, m: ActorId, read: nat, sent: nat) {
    if q == [] then read == sent
    else if q[0].m != m then InOrder(q[1..], m, read, sent)
    else if q[0].Note? then InOrder(q[1..], m, read + 1, sent)
    else q[0].after == read && InOrder(q[1..], m, read, sent)
  }

  lemma {:induction false} InOrderAppend(q: seq<Msg>, x: Msg, m: ActorId, read: nat, sent: nat)
    requires InOrder(q, m, read, sent) && (x.m == m && x.Ack? ==> x.after == sent)
    ensures InOrder(q + [x], m, read, if x.m == m && x.Note? then sent + 1 else sent)
    decreases |q|
  {
    if q != [] {
      assert (q + [x])[1..] == q[1..] + [x];
      InOrderAppend(q[1..], x, m, if q[0].m == m && q[0].Note? then read + 1 else read, sent);
    } else {
      assert (q + [x])[1..] == [];
    }
  }

  /** One ACK for a member and a token at most. */
  predicate AcksOnce(q: seq<Msg>) {
    forall k, l :: 0 <= k < l < |q| && q[k].Ack? && q[l].Ack? ==> q[k].token != q[l].token || q[k].m != q[l].m
  }

  /** The member is among the first `n` members. */
  predicate Among(members: seq<ActorId>, n: nat, m: ActorId) {
    exists k :: 0 <= k < n && k < |members| && members[k] == m
  }

  predicate CycleOk(c: Cycle, group: nat) {
    && group > 0 && c.members != [] && Distinct(c.members)
    && c.acks == |c.acked| < |c.members| && c.asked == Min(|c.members|, Quota(c.acks, group))
    && (forall m :: m in c.acked ==> Among(c.members, c.asked, m))
  }

  /** The detector has read nothing of the members since it perceived the cycle,
      and neither had those that answered sent anything. */
  predicate Unchanged(c: Cycle, views: map<ActorId, View>) {
    && (forall k :: 0 <= k < |c.members| ==> c.members[k] in c.since)
    && (forall m :: m in c.since ==> m in views && c.since[m] == views[m].read)
    && (forall m :: m in c.acked ==> m in c.since && c.acked[m] == c.since[m])
  }

  ghost predicate Once(sent: multiset<(ActorId, nat)>) {
    forall p {:trigger sent[p]} :: sent[p] <= 1
  }

  ghost predicate AskedOk(s: State) {
    && multiset(s.asking) <= s.sent && Once(s.sent)
    && (forall m: ActorId, t: nat {:trigger s.sent[(m, t)]} :: (m, t) in s.sent ==> t < s.nextToken)
    && (forall m: ActorId, t: nat {:trigger s.sent[(m, t)]} :: t in s.cycles ==>
          ((m, t) in s.sent <==> Among(s.cycles[t].members, s.cycles[t].asked, m)))
    && (forall m: ActorId, t: nat {:trigger (m, t) in s.asking} ::
          (m, t) in s.asking && t in s.cycles ==> m !in s.cycles[t].acked)
  }

  predicate QueueOk(s: State) {
    && AcksOnce(s.queue)
    && forall k :: 0 <= k < |s.queue| && s.queue[k].Ack? ==>
         var t, m := s.queue[k].token, s.queue[k].m;
         (m, t) in s.sent && (m, t) !in s.asking && (t in s.cycles ==> m !in s.cycles[t].acked)
  }

  ghost predicate CyclesOk(s: State) {
    forall t :: t in s.cycles ==> t < s.nextToken && CycleOk(s.cycles[t], s.group) && Unchanged(s.cycles[t], s.views)
  }

  ghost predicate Inv(s: State) {
    && CyclesOk(s) && AskedOk(s) && QueueOk(s)
    && forall m: ActorId {:trigger ActorOf(s, m)} :: InOrder(s.queue, m, ViewOf(s, m).read, ActorOf(s, m).sent)
  }

  /** How many members are asked before the answers exceed `acks`: all groups
      that are answered and one more. */
  function Quota(acks: nat, group: nat): (r: nat)
    requires group > 0
    ensures r > acks
  {
    if acks < group then group else group + Quota(acks - group, group)
  }

  /** Counting one more answer: the next group is asked exactly when all that
      were asked have answered. */
  lemma {:induction false} QuotaStep(acks: nat, group: nat)
    requires group > 0
    ensures Quota(acks + 1, group) == if Multiple(acks + 1, group) then Quota(acks, group) + group else Quota(acks, group)
  {
    if acks >= group {
      QuotaStep(acks - group, group);
    } else if acks + 1 == group {
      assert Quota(group, group) == group + Quota(0, group);
      assert Multiple(group, group) == Multiple(0, group);
    }
  }

  lemma {:induction false} MultipleIs(n: nat, group: nat)
    requires group > 0
    ensures Multiple(n, group) <==> n % group == 0
  {
    if n >= group {
      MultipleIs(n - group, group);
      assert n == (n - group) + group * 1;
      SameAfter(n - group, group);
    }
  }

  lemma SameAfter(n: nat, group: nat)
    requires group > 0
    ensures (n + group) % group == n % group
  {
    assert n + group == group * (n / group + 1) + n % group;
    Remainder(n + group, group, n / group + 1, n % group);
  }

  /** For a group size that is a power of two, as the source makes it, masking the
      number of answers with one less tests for a multiple. */
  lemma MaskTest(acks: nat, k: nat)
    ensures And(acks, Pow2(k) - 1) == 0 <==> Multiple(acks, Pow2(k))
  {
    MaskIsRemainder(acks, k);
    MultipleIs(acks, Pow2(k));
  }

  // ---------- Actors ----------

  lemma SayInv(s: State, m: ActorId, block: bool)
    requires Inv(s)
    ensures Inv(Say(s, m, block))
  {
    var s' := Say(s, m, block);
    forall u: ActorId {:trigger ActorOf(s', u)} ensures InOrder(s'.queue, u, ViewOf(s', u).read, ActorOf(s', u).sent) {
      assert InOrder(s.queue, u, ViewOf(s, u).read, ActorOf(s, u).sent);
      InOrderAppend(s.queue, Note(m, block), u, ViewOf(s, u).read, ActorOf(s, u).sent);
    }
  }

  lemma ChangesInv(s: State, m: ActorId)
    requires Inv(s)
    ensures Inv(Step(s, Changes(m)))
  {
    var s' := Step(s, Changes(m));
    forall u: ActorId {:trigger ActorOf(s', u)} ensures InOrder(s'.queue, u, ViewOf(s', u).read, ActorOf(s', u).sent) {
      assert InOrder(s.queue, u, ViewOf(s, u).read, ActorOf(s, u).sent);
    }
  }

  lemma WithoutOne(asking: seq<(ActorId, nat)>, k: nat)
    requires k < |asking|
    ensures multiset(asking) == multiset(Without(asking, k)) + multiset{asking[k]}
  {
    assert asking == asking[..k] + [asking[k]] + asking[k + 1..];
  }

  /** The CONFs under way when one was read. */
  lemma WithoutAsked(asking: seq<(ActorId, nat)>, sent: multiset<(ActorId, nat)>, k: nat)
    requires k < |asking| && multiset(asking) <= sent && Once(sent)
    ensures multiset(Without(asking, k)) <= sent && asking[k] in sent && asking[k] !in Without(asking, k)
    ensures forall p :: p in Without(asking, k) <==> p in asking && p != asking[k]
  {
    WithoutOne(asking, k);
    var less := Without(asking, k);
    assert asking[k] in asking;
    assert multiset(asking)[asking[k]] <= sent[asking[k]];
    forall p ensures p in less <==> p in asking && p != asking[k] {
      assert multiset(less)[p] == multiset(asking)[p] - if p == asking[k] then 1 else 0;
    }
  }

  lemma AnswersInv(s: State, k: nat)
    requires Inv(s) && k < |s.asking|
    ensures Inv(Step(s, Answers(k)))
  {
    var s', m, token := Step(s, Answers(k)), s.asking[k].0, s.asking[k].1;
    var a := ActorOf(s, m);
    WithoutAsked(s.asking, s.sent, k);
    AnswersQueue(s, k);
    forall u: ActorId {:trigger ActorOf(s', u)} ensures InOrder(s'.queue, u, ViewOf(s', u).read, ActorOf(s', u).sent) {
      assert InOrder(s.queue, u, ViewOf(s, u).read, ActorOf(s, u).sent);
      InOrderAppend(s.queue, Ack(token, m, a.sent), u, ViewOf(s, u).read, ActorOf(s, u).sent);
    }
  }

  lemma AcksAppend(q: seq<Msg>, token: nat, m: ActorId, after: nat)
    requires AcksOnce(q) && forall k :: 0 <= k < |q| && q[k].Ack? ==> q[k].token != token || q[k].m != m
    ensures AcksOnce(q + [Ack(token, m, after)])
  {
  }

  lemma AnswersQueue(s: State, k: nat)
    requires AskedOk(s) && QueueOk(s) && k < |s.asking|
    ensures QueueOk(Step(s, Answers(k)))
  {
    var s', m, token := Step(s, Answers(k)), s.asking[k].0, s.asking[k].1;
    WithoutAsked(s.asking, s.sent, k);
    assert (m, token) in s.asking;
    AcksAppend(s.queue, token, m, ActorOf(s, m).sent);
    forall j | 0 <= j < |s'.queue| && s'.queue[j].Ack?
      ensures var t, u := s'.queue[j].token, s'.queue[j].m;
        (u, t) in s'.sent && (u, t) !in s'.asking && (t in s'.cycles ==> u !in s'.cycles[t].acked)
    {
      if j < |s.queue| { assert s'.queue[j] == s.queue[j]; } else { assert (s'.queue[j].m, s'.queue[j].token) == s.asking[k]; }
    }
  }

  // ---------- The detector ----------

  lemma DropInv(s: State, cycles: map<nat, Cycle>)
    requires Inv(s) && forall t :: t in cycles ==> t in s.cycles && cycles[t] == s.cycles[t]
    ensures Inv(s.(cycles := cycles))
  {
    var s' := s.(cycles := cycles);
    forall u: ActorId {:trigger ActorOf(s', u)} ensures InOrder(s'.queue, u, ViewOf(s', u).read, ActorOf(s', u).sent) {
      assert InOrder(s.queue, u, ViewOf(s, u).read, ActorOf(s, u).sent);
    }
  }

  /** New CONF messages for a token that no cycle has at the moment. */
  lemma AskInv(s: State, t: nat, batch: seq<(ActorId, nat)>)
    requires Inv(s) && t !in s.cycles && t < s.nextToken && multiset(batch) !! s.sent && Once(multiset(batch))
    requires forall p :: p in batch ==> p.1 == t
    ensures Inv(WithBatch(s, batch))
  {
    var s' := WithBatch(s, batch);
    forall m: ActorId, u: nat {:trigger s'.sent[(m, u)]} | (m, u) in s'.sent
      ensures u < s.nextToken && (u in s.cycles ==> (m, u) in s.sent)
    {
      assert (m, u) in batch ==> (m, u).1 == t;
    }
    forall m: ActorId, u: nat {:trigger (m, u) in s'.asking} | (m, u) in s'.asking && u in s.cycles ensures (m, u) in s.asking {
      assert (m, u) in batch ==> (m, u).1 == t;
    }
    forall u: ActorId {:trigger ActorOf(s', u)} ensures InOrder(s'.queue, u, ViewOf(s', u).read, ActorOf(s', u).sent) {
      assert InOrder(s.queue, u, ViewOf(s, u).read, ActorOf(s, u).sent);
    }
  }

  /** A cycle that fits what was asked and answered so far. */
  ghost predicate Fits(s: State, t: nat, c: Cycle) {
    && t < s.nextToken && Unchanged(c, s.views)
    && (forall m: ActorId {:trigger (m, t) in s.asking} :: (m, t) in s.asking ==> m !in c.acked)
    && (forall k :: 0 <= k < |s.queue| && s.queue[k].Ack? && s.queue[k].token == t ==> s.queue[k].m !in c.acked)
  }

  ghost predicate Asked(s: State, t: nat, members: seq<ActorId>, n: nat) {
    forall m: ActorId {:trigger s.sent[(m, t)]} {:trigger Among(members, n, m)} ::
      (m, t) in s.sent <==> Among(members, n, m)
  }

  lemma AddInv(s: State, t: nat, c: Cycle)
    requires Inv(s) && t !in s.cycles && Fits(s, t, c) && CycleOk(c, s.group) && Asked(s, t, c.members, c.asked)
    ensures Inv(s.(cycles := s.cycles[t := c]))
  {
    var s' := s.(cycles := s.cycles[t := c]);
    AddCycles(s, t, c);
    AddAsked(s, t, c);
    forall u: ActorId {:trigger ActorOf(s', u)} ensures InOrder(s'.queue, u, ViewOf(s', u).read, ActorOf(s', u).sent) {
      assert InOrder(s.queue, u, ViewOf(s, u).read, ActorOf(s, u).sent);
    }
  }

  lemma AddCycles(s: State, t: nat, c: Cycle)
    requires CyclesOk(s) && t !in s.cycles && Fits(s, t, c) && CycleOk(c, s.group)
    ensures CyclesOk(s.(cycles := s.cycles[t := c]))
  {
  }

  lemma AddAsked(s: State, t: nat, c: Cycle)
    requires AskedOk(s) && QueueOk(s) && t !in s.cycles && Fits(s, t, c) && Asked(s, t, c.members, c.asked)
    ensures AskedOk(s.(cycles := s.cycles[t := c])) && QueueOk(s.(cycles := s.cycles[t := c]))
  {
  }

  lemma {:induction false} BatchAt(members: seq<ActorId>, t: nat, i: nat, j: nat)
    requires i <= j <= |members|
    ensures |Batch(members, t, i, j)| == j - i
    ensures forall x :: 0 <= x < j - i ==> Batch(members, t, i, j)[x] == (members[i + x], t)
  {
    if i < j { BatchAt(members, t, i, j - 1); }
  }

  lemma {:induction false} BatchOnce(members: seq<ActorId>, t: nat, i: nat, j: nat)
    requires Distinct(members) && i <= j <= |members|
    ensures Once(multiset(Batch(members, t, i, j)))
  {
    if i < j {
      BatchOnce(members, t, i, j - 1);
      BatchAt(members, t, i, j - 1);
      assert (members[j - 1], t) !in Batch(members, t, i, j - 1);
    }
  }

  /** Whom a batch goes to, each once. */
  lemma BatchOf(members: seq<ActorId>, t: nat, i: nat, j: nat)
    requires Distinct(members) && i <= j <= |members|
    ensures Once(multiset(Batch(members, t, i, j)))
    ensures forall p :: p in Batch(members, t, i, j) <==> exists k :: i <= k < j && p == (members[k], t)
  {
    BatchOnce(members, t, i, j);
    BatchAt(members, t, i, j);
    forall k | i <= k < j ensures (members[k], t) in Batch(members, t, i, j) {
      assert Batch(members, t, i, j)[k - i] == (members[k], t);
    }
  }

  /** A batch goes to members that were not asked before. */
  lemma BatchNew(s: State, t: nat, c: Cycle, to: nat)
    requires Distinct(c.members) && c.asked <= to <= |c.members| && Asked(s, t, c.members, c.asked)
    ensures multiset(Batch(c.members, t, c.asked, to)) !! s.sent && Once(multiset(Batch(c.members, t, c.asked, to)))
    ensures Asked(WithBatch(s, Batch(c.members, t, c.asked, to)), t, c.members, to)
    ensures forall p :: p in Batch(c.members, t, c.asked, to) ==> p.1 == t
  {
    var batch := Batch(c.members, t, c.asked, to);
    BatchOf(c.members, t, c.asked, to);
    forall p | p in batch ensures p !in s.sent {
      var k :| c.asked <= k < to && p == (c.members[k], t);
      assert !Among(c.members, c.asked, c.members[k]);
    }
    forall m: ActorId ensures (m, t) in s.sent + multiset(batch) <==> Among(c.members, to, m) {
      assert (m, t) in s.sent <==> Among(c.members, c.asked, m);
      if Among(c.members, to, m) {
        var k :| 0 <= k < to && k < |c.members| && c.members[k] == m;
        if k >= c.asked { assert (c.members[k], t) in batch; } else { assert Among(c.members, c.asked, m); }
      }
      if (m, t) in batch {
        var k :| c.asked <= k < to && (m, t) == (c.members[k], t);
        assert c.members[k] == m;
      }
    }
  }

  lemma StillFits(s: State, t: nat, c: Cycle, to: nat, batch: seq<(ActorId, nat)>)
    requires Fits(s, t, c) && Asked(s, t, c.members, c.asked) && multiset(batch) !! s.sent
    requires forall m :: m in c.acked ==> Among(c.members, c.asked, m)
    ensures Fits(WithBatch(s, batch), t, c.(asked := to))
  {
    var s1 := WithBatch(s, batch);
    forall m: ActorId {:trigger (m, t) in s1.asking} | (m, t) in s1.asking ensures m !in c.acked {
      assert (m, t) in s.sent <==> Among(c.members, c.asked, m);
    }
  }

  lemma SendConfInv(s: State, t: nat, c: Cycle)
    requires Inv(s) && t !in s.cycles && Fits(s, t, c) && c.asked <= |c.members|
    requires CycleOk(c.(asked := Min(|c.members|, c.asked + s.group)), s.group) && Asked(s, t, c.members, c.asked)
    requires forall m :: m in c.acked ==> Among(c.members, c.asked, m)
    ensures Inv(SendConf(s, t, c))
  {
    var to := Min(|c.members|, c.asked + s.group);
    var batch := Batch(c.members, t, c.asked, to);
    BatchNew(s, t, c, to);
    AskInv(s, t, batch);
    StillFits(s, t, c, to, batch);
    AddInv(WithBatch(s, batch), t, c.(asked := to));
    SendConfIs(s, t, c);
  }

  lemma SendConfIs(s: State, t: nat, c: Cycle)
    requires c.asked <= |c.members|
    ensures var to := Min(|c.members|, c.asked + s.group);
      var s1 := WithBatch(s, Batch(c.members, t, c.asked, to));
      SendConf(s, t, c) == s1.(cycles := s1.cycles[t := c.(asked := to)])
  {
  }

  lemma PerceivesInv(s: State, members: seq<ActorId>)
    requires Inv(s) && Enabled(s, Perceives(members)) && s.group > 0
    ensures Inv(Step(s, Perceives(members)))
  {
    var t, s1 := s.nextToken, s.(nextToken := s.nextToken + 1);
    var c := Cycle(members, 0, 0, Since(s, members), map[]);
    forall u: ActorId {:trigger ActorOf(s1, u)} ensures InOrder(s1.queue, u, ViewOf(s1, u).read, ActorOf(s1, u).sent) {
      assert InOrder(s.queue, u, ViewOf(s, u).read, ActorOf(s, u).sent);
    }
    assert Inv(s1);
    forall k | 0 <= k < |members| ensures members[k] in s.views { assert ViewOf(s, members[k]).blocked; }
    forall m: ActorId ensures !Among(members, 0, m) && (m, t) !in s.sent { }
    SendConfInv(s1, t, c);
  }

  lemma PopQueue(s: State)
    requires QueueOk(s) && s.queue != []
    ensures QueueOk(s.(queue := s.queue[1..]))
  {
    var q := s.queue[1..];
    forall k | 0 <= k < |q| ensures q[k] == s.queue[k + 1] { }
  }

  lemma OtherView(c: Cycle, views: map<ActorId, View>, m: ActorId, v: View)
    requires Unchanged(c, views) && m !in c.since
    ensures Unchanged(c, views[m := v])
  {
  }

  lemma NoteOrder(s: State, u: ActorId)
    requires s.queue != [] && s.queue[0].Note? && InOrder(s.queue, u, ViewOf(s, u).read, ActorOf(s, u).sent)
    ensures var s' := Step(s, Reads); InOrder(s'.queue, u, ViewOf(s', u).read, ActorOf(s', u).sent)
  {
  }

  /** What was asked and answered when the cycles of an actor are dropped and its
      message is read. */
  lemma NoteAsked(s: State)
    requires Inv(s) && s.queue != [] && s.queue[0].Note?
    ensures AskedOk(Step(s, Reads)) && QueueOk(Step(s, Reads))
  {
    var m := s.queue[0].m;
    DropInv(s, Expire(s.cycles, m));
    PopQueue(s.(cycles := Expire(s.cycles, m)));
  }

  lemma NoteCycles(s: State, t: nat)
    requires s.queue != [] && s.queue[0].Note? && t in Step(s, Reads).cycles
    ensures t in s.cycles && s.cycles[t] == Step(s, Reads).cycles[t] && s.queue[0].m !in s.cycles[t].since
    ensures forall u {:trigger ViewOf(Step(s, Reads), u)} :: u != s.queue[0].m ==> ViewOf(Step(s, Reads), u) == ViewOf(s, u)
  {
  }

  /** Reading a message of an actor leaves the cycles that it is not in. */
  lemma NoteExpires(s: State, t: nat)
    requires CyclesOk(s) && s.queue != [] && s.queue[0].Note? && t in Step(s, Reads).cycles
    ensures var s' := Step(s, Reads); t < s'.nextToken && CycleOk(s'.cycles[t], s'.group) && Unchanged(s'.cycles[t], s'.views)
  {
    NoteCycles(s, t);
    OtherView(s.cycles[t], s.views, s.queue[0].m, View(ViewOf(s, s.queue[0].m).read + 1, s.queue[0].block));
  }

  lemma NoteOrders(s: State)
    requires Inv(s) && s.queue != [] && s.queue[0].Note?
    ensures var s' := Step(s, Reads);
      forall u: ActorId {:trigger ActorOf(s', u)} :: InOrder(s'.queue, u, ViewOf(s', u).read, ActorOf(s', u).sent)
  {
    var s' := Step(s, Reads);
    forall u: ActorId {:trigger ActorOf(s', u)} ensures InOrder(s'.queue, u, ViewOf(s', u).read, ActorOf(s', u).sent) {
      assert InOrder(s.queue, u, ViewOf(s, u).read, ActorOf(s, u).sent);
      NoteOrder(s, u);
    }
  }

  lemma NoteInv(s: State)
    requires Inv(s) && s.queue != [] && s.queue[0].Note?
    ensures Inv(Step(s, Reads))
  {
    forall t | t in Step(s, Reads).cycles
      ensures var s' := Step(s, Reads); t < s'.nextToken && CycleOk(s'.cycles[t], s'.group) && Unchanged(s'.cycles[t], s'.views)
    {
      NoteExpires(s, t);
    }
    NoteAsked(s);
    NoteOrders(s);
  }

  /** The queue without an ACK that is read. */
  lemma AckRead(s: State)
    requires Inv(s) && s.queue != [] && s.queue[0].Ack?
    ensures Inv(s.(queue := s.queue[1..]))
    ensures s.queue[0].after == ViewOf(s, s.queue[0].m).read
  {
    var s' := s.(queue := s.queue[1..]);
    PopQueue(s);
    forall u: ActorId {:trigger ActorOf(s', u)} ensures InOrder(s'.queue, u, ViewOf(s', u).read, ActorOf(s', u).sent) {
      assert InOrder(s.queue, u, ViewOf(s, u).read, ActorOf(s, u).sent);
    }
    var m := s.queue[0].m;
    assert InOrder(s.queue, m, ViewOf(s, m).read, ActorOf(s, m).sent);
  }

  lemma AnsweredCounts(c: Cycle, m: ActorId, after: nat)
    requires c.acks == |c.acked| && m !in c.acked
    ensures Answered(c, m, after).acks == |Answered(c, m, after).acked|
  {
    var c' := Answered(c, m, after);
    assert c'.acked.Keys == c.acked.Keys + {m};
    assert |c'.acked.Keys| == |c'.acked| && |c.acked.Keys| == |c.acked|;
  }

  /** Everyone but the sender of the ACK that is read has still to be counted. */
  lemma AckOpen(s: State, t: nat, m: ActorId)
    requires AskedOk(s) && QueueOk(s) && s.queue != [] && s.queue[0].Ack? && s.queue[0].token == t && s.queue[0].m == m
    requires t in s.cycles
    ensures m !in s.cycles[t].acked && (m, t) in s.sent && (m, t) !in s.asking
    ensures Among(s.cycles[t].members, s.cycles[t].asked, m)
    ensures forall k :: 1 <= k < |s.queue| && s.queue[k].Ack? && s.queue[k].token == t ==>
      s.queue[k].m != m && s.queue[k].m !in s.cycles[t].acked
  {
    assert (m, t) in s.sent;
  }

  /** The state without the cycle whose ACK is read, and without the ACK. */
  function Opened(s: State, t: nat): State
    requires s.queue != []
  {
    s.(queue := s.queue[1..], cycles := s.cycles - {t})
  }

  lemma AckFits(s: State, t: nat, m: ActorId, after: nat)
    requires Inv(s) && s.queue != [] && s.queue[0] == Ack(t, m, after) && t in s.cycles
    ensures var c := Answered(s.cycles[t], m, after);
      && Fits(Opened(s, t), t, c) && Asked(Opened(s, t), t, c.members, c.asked)
      && m !in s.cycles[t].acked && Among(c.members, c.asked, m)
  {
    AckRead(s);
    AckOpen(s, t, m);
    var r := Opened(s, t);
    var c := Answered(s.cycles[t], m, after);
    assert Unchanged(s.cycles[t], s.views);
    forall u: ActorId {:trigger (u, t) in r.asking} | (u, t) in r.asking ensures u !in c.acked { }
    forall k | 0 <= k < |r.queue| && r.queue[k].Ack? && r.queue[k].token == t ensures r.queue[k].m !in c.acked {
      assert r.queue[k] == s.queue[k + 1];
    }
  }

  /** The cycle is in shape, with the next group asked when it is time. */
  predicate Grown(c: Cycle, group: nat) {
    && group > 0 && c.asked <= |c.members| && (forall u :: u in c.acked ==> Among(c.members, c.asked, u))
    && CycleOk(if Multiple(c.acks, group) then c.(asked := Min(|c.members|, c.asked + group)) else c, group)
  }

  /** A cycle that is not complete after one more answer stays in shape. */
  lemma AnsweredOk(c: Cycle, group: nat, m: ActorId, after: nat)
    requires CycleOk(c, group) && m !in c.acked && Among(c.members, c.asked, m) && c.acks + 1 < |c.members|
    ensures Grown(Answered(c, m, after), group)
  {
    QuotaStep(c.acks, group);
    var asked := Min(|c.members|, Quota(c.acks + 1, group));
    assert asked == if Multiple(c.acks + 1, group) then Min(|c.members|, c.asked + group) else c.asked;
    AnsweredShape(c, group, m, after, asked);
  }

  lemma AnsweredShape(c: Cycle, group: nat, m: ActorId, after: nat, asked: nat)
    requires CycleOk(c, group) && m !in c.acked && Among(c.members, c.asked, m) && c.acks + 1 < |c.members|
    requires c.asked <= asked == Min(|c.members|, Quota(c.acks + 1, group))
    ensures CycleOk(Answered(c, m, after).(asked := asked), group)
  {
    AnsweredCounts(c, m, after);
    forall u | u in Answered(c, m, after).acked ensures Among(c.members, asked, u) {
      AmongMore(c.members, c.asked, asked, u);
    }
  }

  lemma AmongMore(members: seq<ActorId>, i: nat, j: nat, m: ActorId)
    requires i <= j && Among(members, i, m)
    ensures Among(members, j, m)
  {
    var k :| 0 <= k < i && k < |members| && members[k] == m;
    assert k < j;
  }

  lemma OpenedInv(s: State, t: nat)
    requires Inv(s) && s.queue != [] && s.queue[0].Ack?
    ensures Inv(Opened(s, t))
  {
    AckRead(s);
    DropInv(s.(queue := s.queue[1..]), s.cycles - {t});
  }

  lemma SameCycle(s: State, t: nat, c: Cycle, batch: seq<(ActorId, nat)>)
    ensures WithCycle(WithBatch(s.(cycles := s.cycles - {t}), batch), t, c) == WithCycle(WithBatch(s, batch), t, c)
  {
    assert (s.cycles - {t})[t := c] == s.cycles[t := c];
  }

  lemma SendSame(s: State, t: nat, c: Cycle)
    requires c.asked <= |c.members|
    ensures SendConf(s.(cycles := s.cycles - {t}), t, c) == SendConf(s, t, c)
    ensures (s.cycles - {t})[t := c] == s.cycles[t := c]
  {
    var to := Min(|c.members|, c.asked + s.group);
    SameCycle(s, t, c.(asked := to), Batch(c.members, t, c.asked, to));
    assert (s.cycles - {t})[t := c] == s.cycles[t := c];
  }

  /** Puts the cycle with one more answer back, and asks the next group when it
      is time. */
  function Reput(d: State, t: nat, c: Cycle): State {
    if d.group > 0 && Multiple(c.acks, d.group) then SendConf(d, t, c) else d.(cycles := d.cycles[t := c])
  }

  /** The cycle can be put back as it is, or after its next group was asked. */
  ghost predicate Replaceable(d: State, t: nat, c: Cycle) {
    Fits(d, t, c) && Asked(d, t, c.members, c.asked) && Grown(c, d.group)
  }

  lemma PutBack(d: State, t: nat, c: Cycle)
    requires Inv(d) && t !in d.cycles && Replaceable(d, t, c)
    ensures Inv(Reput(d, t, c))
  {
    if Multiple(c.acks, d.group) { SendConfInv(d, t, c); } else { AddInv(d, t, c); }
  }

  /** What counting an answer that does not complete the cycle comes to. */
  lemma HandleIs(s: State, t: nat, m: ActorId, after: nat)
    requires s.queue != [] && t in s.cycles && s.group > 0 && s.cycles[t].asked <= |s.cycles[t].members|
    requires s.cycles[t].acks + 1 != |s.cycles[t].members|
    ensures HandleAck(s.(queue := s.queue[1..]), t, m, after) == Reput(Opened(s, t), t, Answered(s.cycles[t], m, after))
  {
    SendSame(s.(queue := s.queue[1..]), t, Answered(s.cycles[t], m, after));
  }

  lemma AnsweredFits(s: State, t: nat, m: ActorId, after: nat)
    requires Inv(s) && s.queue != [] && s.queue[0] == Ack(t, m, after) && t in s.cycles
    requires s.cycles[t].acks + 1 < |s.cycles[t].members|
    ensures Replaceable(Opened(s, t), t, Answered(s.cycles[t], m, after))
  {
    AckFits(s, t, m, after);
    assert CycleOk(s.cycles[t], s.group);
    AnsweredOk(s.cycles[t], s.group, m, after);
  }

  lemma ReadsIs(s: State)
    requires s.queue != [] && s.queue[0].Ack?
    ensures Step(s, Reads) == HandleAck(s.(queue := s.queue[1..]), s.queue[0].token, s.queue[0].m, s.queue[0].after)
  {
  }

  lemma CollectIs(s: State, t: nat, m: ActorId, after: nat)
    requires s.queue != [] && t in s.cycles && s.cycles[t].acks + 1 == |s.cycles[t].members|
    ensures var r := HandleAck(s.(queue := s.queue[1..]), t, m, after); r == Opened(s, t).(gone := r.gone)
  {
  }

  lemma AckInv(s: State)
    requires Inv(s) && s.queue != [] && s.queue[0].Ack?
    ensures Inv(Step(s, Reads))
  {
    var t, m, after := s.queue[0].token, s.queue[0].m, s.queue[0].after;
    ReadsIs(s);
    if t !in s.cycles {
      AckRead(s);
    } else {
      OpenedInv(s, t);
      assert CycleOk(s.cycles[t], s.group);
      if s.cycles[t].acks + 1 == |s.cycles[t].members| {
        CollectIs(s, t, m, after);
        GoneInv(Opened(s, t), Step(s, Reads).gone);
      } else {
        AnsweredFits(s, t, m, after);
        PutBack(Opened(s, t), t, Answered(s.cycles[t], m, after));
        HandleIs(s, t, m, after);
      }
    }
  }

  lemma GoneInv(s: State, gone: set<ActorId>)
    requires Inv(s)
    ensures Inv(s.(gone := gone))
  {
    var s' := s.(gone := gone);
    forall u: ActorId {:trigger ActorOf(s', u)} ensures InOrder(s'.queue, u, ViewOf(s', u).read, ActorOf(s', u).sent) {
      assert InOrder(s.queue, u, ViewOf(s, u).read, ActorOf(s, u).sent);
    }
  }

  // ---------- Runs ----------

  lemma StepInv(s: State, c: Choice)
    requires Inv(s) && Enabled(s, c) && s.group > 0
    ensures Inv(Step(s, c))
  {
    match c
    case Blocks(m) => SayInv(s, m, true);
    case Unblocks(m) => SayInv(s, m, false);
    case Changes(m) => ChangesInv(s, m);
    case Answers(k) => AnswersInv(s, k);
    case Reads => if s.queue[0].Note? { NoteInv(s); } else { AckInv(s); }
    case Perceives(members) => PerceivesInv(s, members);
  }

  lemma SameGroup(s: State, c: Choice)
    requires Enabled(s, c)
    ensures Step(s, c).group == s.group
  {
  }

  ghost predicate Run(states: seq<State>, choices: seq<Choice>) {
    && |states| == |choices| + 1 && Init(states[0])
    && forall i :: 0 <= i < |choices| ==> Enabled(states[i], choices[i]) && states[i + 1] == Step(states[i], choices[i])
  }

  lemma RunStep(states: seq<State>, choices: seq<Choice>, i: nat)
    requires Run(states, choices) && i < |choices|
    ensures Enabled(states[i], choices[i]) && states[i + 1] == Step(states[i], choices[i])
  {
  }

  lemma {:induction false} RunInv(states: seq<State>, choices: seq<Choice>, i: nat)
    requires Run(states, choices) && i < |states|
    ensures Inv(states[i]) && states[i].group > 0
  {
    if i > 0 {
      RunInv(states, choices, i - 1);
      RunStep(states, choices, i - 1);
      StepInv(states[i - 1], choices[i - 1]);
      SameGroup(states[i - 1], choices[i - 1]);
    }
  }

  /** In every state of every run, at most one CONF was ever sent to an actor for
      a token; for a cycle that is under way, exactly one to each of the members
      that count as asked, and none to other actors. */
  lemma AskedOnce(states: seq<State>, choices: seq<Choice>, i: nat, m: ActorId, t: nat)
    requires Run(states, choices) && i < |states|
    ensures states[i].sent[(m, t)] <= 1 && multiset(states[i].asking)[(m, t)] <= states[i].sent[(m, t)]
    ensures t in states[i].cycles ==>
      states[i].sent[(m, t)] == if Among(states[i].cycles[t].members, states[i].cycles[t].asked, m) then 1 else 0
  {
    RunInv(states, choices, i);
  }

  lemma {:induction false} DistinctCount(members: seq<ActorId>, all: set<ActorId>, acked: set<ActorId>)
    requires Distinct(members) && all == (set k | 0 <= k < |members| :: members[k])
    requires acked <= all && |acked| == |members|
    ensures acked == all
  {
    SizeOf(members, |members|);
    var rest := all - acked;
    assert all == acked + rest;
    assert |all| == |acked| + |rest|;
  }

  lemma {:induction false} SizeOf(members: seq<ActorId>, n: nat)
    requires Distinct(members) && n <= |members|
    ensures |set k | 0 <= k < n :: members[k]| == n
  {
    if n > 0 {
      SizeOf(members, n - 1);
      assert (set k | 0 <= k < n :: members[k]) == (set k | 0 <= k < n - 1 :: members[k]) + {members[n - 1]};
    }
  }

  /** Only the last ACK of a cycle collects anything. */
  lemma OnlyLastAck(s: State, c: Choice)
    requires Enabled(s, c) && Step(s, c).gone != s.gone
    ensures c.Reads? && s.queue[0].Ack? && s.queue[0].token in s.cycles
    ensures s.cycles[s.queue[0].token].acks + 1 == |s.cycles[s.queue[0].token].members|
  {
  }

  lemma Confirmed(s: State, t: nat, m: ActorId, after: nat)
    requires Inv(s) && s.queue != [] && s.queue[0] == Ack(t, m, after) && t in s.cycles
    requires s.cycles[t].acks + 1 == |s.cycles[t].members|
    ensures var c := Answered(s.cycles[t], m, after);
      forall k :: 0 <= k < |c.members| ==>
        var u := c.members[k];
        u in c.acked && u in c.since && c.acked[u] == c.since[u] == ViewOf(s, u).read
  {
    AckFits(s, t, m, after);
    AllAnswered(s.cycles[t], s.group, m, after);
  }

  /** A cycle is collected only when every member has answered, each of them when
      it had sent nothing but what the detector had read when it perceived the
      cycle, and nothing of them was read since. */
  lemma CollectedConfirmed(states: seq<State>, choices: seq<Choice>, i: nat)
    requires Run(states, choices) && i < |choices| && states[i + 1].gone != states[i].gone
    ensures var s := states[i];
      && s.queue != [] && s.queue[0].Ack? && s.queue[0].token in s.cycles
      && var c := Answered(s.cycles[s.queue[0].token], s.queue[0].m, s.queue[0].after);
         forall k :: 0 <= k < |c.members| ==>
           var m := c.members[k];
           m in c.acked && m in c.since && c.acked[m] == c.since[m] == ViewOf(s, m).read
  {
    RunInv(states, choices, i);
    RunStep(states, choices, i);
    var s := states[i];
    OnlyLastAck(s, choices[i]);
    Confirmed(s, s.queue[0].token, s.queue[0].m, s.queue[0].after);
  }

  lemma AllAnswered(c: Cycle, group: nat, m: ActorId, after: nat)
    requires CycleOk(c, group) && m !in c.acked && Among(c.members, c.asked, m) && c.acks + 1 == |c.members|
    ensures forall k :: 0 <= k < |c.members| ==> c.members[k] in Answered(c, m, after).acked
  {
    var c' := Answered(c, m, after);
    AnsweredCounts(c, m, after);
    var all := set k | 0 <= k < |c.members| :: c.members[k];
    forall u | u in c'.acked.Keys ensures u in all {
      assert Among(c.members, c.asked, u);
    }
    assert |c'.acked.Keys| == |c'.acked|;
    DistinctCount(c.members, all, c'.acked.Keys);
  }

  // ---------- One cycle per view ----------

  ghost predicate Single(s: State) {
    forall t, u, m :: t in s.cycles && u in s.cycles && m in s.cycles[t].since && m in s.cycles[u].since ==> t == u
  }

  /** The cycle is the same one, with other members asked or counted. */
  predicate Kept(s: State, s': State, t: nat) {
    && t in s.cycles && t in s'.cycles
    && s'.cycles[t].since == s.cycles[t].since && s'.cycles[t].members == s.cycles[t].members
  }

  lemma SendKept(s: State, token: nat, c: Cycle, t: nat)
    requires t in SendConf(s, token, c).cycles
    ensures Kept(s, SendConf(s, token, c), t) || (t == token && SendConf(s, token, c).cycles[t].since == c.since
                                                  && SendConf(s, token, c).cycles[t].members == c.members)
  {
    if c.asked <= |c.members| {
      var to := Min(|c.members|, c.asked + s.group);
      var s1 := WithBatch(s, Batch(c.members, token, c.asked, to));
      assert s1.cycles == s.cycles && SendConf(s, token, c).cycles == s.cycles[token := c.(asked := to)];
    }
  }

  lemma AckKept(s: State, token: nat, m: ActorId, after: nat, t: nat)
    requires t in HandleAck(s, token, m, after).cycles
    ensures Kept(s, HandleAck(s, token, m, after), t)
  {
    if token in s.cycles {
      var c := Answered(s.cycles[token], m, after);
      if c.acks != |c.members| && s.group > 0 && Multiple(c.acks, s.group) { SendKept(s, token, c, t); }
    }
  }

  lemma SinceKept(s: State, c: Choice, t: nat)
    requires Enabled(s, c) && t in Step(s, c).cycles
    ensures Kept(s, Step(s, c), t)
      || (c.Perceives? && t == s.nextToken && Step(s, c).cycles[t].since == Since(s, c.members)
          && Step(s, c).cycles[t].members == c.members)
  {
    if c.Perceives? {
      SendKept(s.(nextToken := s.nextToken + 1), s.nextToken, Cycle(c.members, 0, 0, Since(s, c.members), map[]), t);
    } else if c.Reads? && s.queue[0].Ack? {
      ReadsIs(s);
      AckKept(s.(queue := s.queue[1..]), s.queue[0].token, s.queue[0].m, s.queue[0].after, t);
    }
  }

  /** No view points to two cycles: the one that is dropped on BLOCK or UNBLOCK is
      the only one of the actor. */
  lemma {:induction false} PerceivedOnce(states: seq<State>, choices: seq<Choice>, i: nat)
    requires Run(states, choices) && i < |states|
    ensures Single(states[i])
  {
    if i > 0 {
      PerceivedOnce(states, choices, i - 1);
      RunStep(states, choices, i - 1);
      var s, c, s' := states[i - 1], choices[i - 1], states[i];
      forall t, u, m | t in s'.cycles && u in s'.cycles && m in s'.cycles[t].since && m in s'.cycles[u].since ensures t == u {
        SinceKept(s, c, t);
        SinceKept(s, c, u);
        if c.Perceives? && m in c.members {
          var k :| 0 <= k < |c.members| && c.members[k] == m;
          assert !Perceived(s, c.members[k]);
        }
      }
    }
  }

  // ---------- What becomes of a cycle ----------

  /** The views that point to a cycle are those of its members. */
  lemma {:induction false} SinceMembers(states: seq<State>, choices: seq<Choice>, i: nat, t: nat)
    requires Run(states, choices) && i < |states| && t in states[i].cycles
    ensures forall m :: m in states[i].cycles[t].since <==> m in states[i].cycles[t].members
  {
    if i > 0 {
      RunStep(states, choices, i - 1);
      SinceKept(states[i - 1], choices[i - 1], t);
      if Kept(states[i - 1], states[i], t) { SinceMembers(states, choices, i - 1, t); }
    }
  }

  /** Every member other than `m` has answered. */
  predicate Complete(c: Cycle, m: ActorId) {
    forall k :: 0 <= k < |c.members| ==> c.members[k] == m || c.members[k] in c.acked
  }

  /** The detector reads the ACK of the only member of the cycle that had not
      answered yet. */
  predicate LastAnswer(s: State, c: Choice, t: nat) {
    && c.Reads? && s.queue != [] && s.queue[0].Ack? && s.queue[0].token == t
    && t in s.cycles && Complete(s.cycles[t], s.queue[0].m)
  }

  /** The detector reads a BLOCK or UNBLOCK of a member of the cycle. */
  predicate Disturbed(s: State, c: Choice, t: nat) {
    c.Reads? && s.queue != [] && s.queue[0].Note? && t in s.cycles && s.queue[0].m in s.cycles[t].members
  }

  lemma CompleteSize(c: Cycle, m: ActorId)
    requires Distinct(c.members) && Complete(c, m) && m in c.members && m !in c.acked
    requires forall u :: u in c.acked ==> u in c.members
    ensures |c.acked| + 1 == |c.members|
  {
    var all := set k | 0 <= k < |c.members| :: c.members[k];
    SizeOf(c.members, |c.members|);
    assert all == c.acked.Keys + {m};
    assert |c.acked.Keys| == |c.acked|;
  }

  /** Counting answers finds the last one. */
  lemma CompleteCounts(c: Cycle, group: nat, m: ActorId)
    requires CycleOk(c, group) && m !in c.acked && Among(c.members, c.asked, m)
    ensures Complete(c, m) <==> c.acks + 1 == |c.members|
  {
    if c.acks + 1 == |c.members| { AllAnswered(c, group, m, 0); }
    if Complete(c, m) {
      forall u | u in c.acked ensures u in c.members {
        assert Among(c.members, c.asked, u);
      }
      CompleteSize(c, m);
    }
  }

  lemma LastCounts(s: State, t: nat)
    requires Inv(s) && s.queue != [] && s.queue[0].Ack? && s.queue[0].token == t && t in s.cycles
    ensures LastAnswer(s, Reads, t) <==> s.cycles[t].acks + 1 == |s.cycles[t].members|
  {
    AckOpen(s, t, s.queue[0].m);
    assert CycleOk(s.cycles[t], s.group);
    CompleteCounts(s.cycles[t], s.group, s.queue[0].m);
  }

  lemma GoneStep(s: State, c: Choice)
    requires Enabled(s, c)
    ensures c.Reads? && s.queue[0].Ack? && s.queue[0].token in s.cycles
            && s.cycles[s.queue[0].token].acks + 1 == |s.cycles[s.queue[0].token].members| ==>
      Step(s, c).gone == s.gone + (set m | m in s.cycles[s.queue[0].token].members)
  {
    if c.Reads? && s.queue[0].Ack? && s.queue[0].token in s.cycles {
      var members := s.cycles[s.queue[0].token].members;
      assert (set k | 0 <= k < |members| :: members[k]) == (set m | m in members);
    }
  }

  /** The answer of the last member destroys all members of the cycle, and
      nothing else destroys an actor. */
  lemma CollectsAll(states: seq<State>, choices: seq<Choice>, i: nat)
    requires Run(states, choices) && i < |choices|
    ensures forall t :: LastAnswer(states[i], choices[i], t) ==>
      states[i + 1].gone == states[i].gone + (set m | m in states[i].cycles[t].members)
    ensures (forall t :: !LastAnswer(states[i], choices[i], t)) ==> states[i + 1].gone == states[i].gone
  {
    RunInv(states, choices, i);
    RunStep(states, choices, i);
    var s, c := states[i], choices[i];
    GoneStep(s, c);
    if c.Reads? && s.queue[0].Ack? && s.queue[0].token in s.cycles {
      LastCounts(s, s.queue[0].token);
    }
    if Step(s, c).gone != s.gone {
      OnlyLastAck(s, c);
    }
  }

  /** The cycle before and after an answer to it that is not the last. */
  lemma AnswerCycle(s: State, t: nat, m: ActorId, after: nat)
    requires t in s.cycles && s.group > 0 && s.cycles[t].asked <= |s.cycles[t].members|
    requires s.cycles[t].acks + 1 != |s.cycles[t].members|
    ensures var s' := HandleAck(s, t, m, after);
      s'.cycles.Keys == s.cycles.Keys && s'.cycles[t].acked == s.cycles[t].acked[m := after]
      && forall u :: u in s.cycles && u != t ==> s'.cycles[u] == s.cycles[u]
  {
    SendSame(s, t, Answered(s.cycles[t], m, after));
  }

  /** A cycle ends when its last member answers or when the detector reads a BLOCK
      or UNBLOCK of a member, and not before. Until then it has the same members,
      and an answer for it counts once, at the time it is read. */
  lemma CycleFate(states: seq<State>, choices: seq<Choice>, i: nat, t: nat)
    requires Run(states, choices) && i < |choices| && t in states[i].cycles
    ensures t in states[i + 1].cycles <==>
      !LastAnswer(states[i], choices[i], t) && !Disturbed(states[i], choices[i], t)
    ensures t in states[i + 1].cycles ==>
      && Kept(states[i], states[i + 1], t)
      && states[i + 1].cycles[t].acked ==
           if choices[i].Reads? && states[i].queue != [] && states[i].queue[0].Ack? && states[i].queue[0].token == t
           then states[i].cycles[t].acked[states[i].queue[0].m := states[i].queue[0].after]
           else states[i].cycles[t].acked
  {
    RunInv(states, choices, i);
    RunStep(states, choices, i);
    SinceMembers(states, choices, i, t);
    FateStep(states[i], choices[i], t);
    if t in states[i + 1].cycles {
      SinceKept(states[i], choices[i], t);
    }
  }

  lemma FateStep(s: State, c: Choice, t: nat)
    requires Inv(s) && s.group > 0 && Enabled(s, c) && t in s.cycles
    requires forall m :: m in s.cycles[t].since <==> m in s.cycles[t].members
    ensures t in Step(s, c).cycles <==> !LastAnswer(s, c, t) && !Disturbed(s, c, t)
    ensures t in Step(s, c).cycles ==>
      Step(s, c).cycles[t].acked == if c.Reads? && s.queue[0].Ack? && s.queue[0].token == t
                                    then s.cycles[t].acked[s.queue[0].m := s.queue[0].after] else s.cycles[t].acked
  {
    match c
    case Blocks(m) =>
    case Unblocks(m) =>
    case Changes(m) =>
    case Answers(k) =>
    case Reads => if s.queue[0].Ack? { AckFate(s, t); }
    case Perceives(members) =>
      assert t < s.nextToken;
      BornIs(s, members);
  }

  lemma AckFate(s: State, t: nat)
    requires Inv(s) && s.group > 0 && s.queue != [] && s.queue[0].Ack? && t in s.cycles
    ensures t in Step(s, Reads).cycles <==> !LastAnswer(s, Reads, t)
    ensures t in Step(s, Reads).cycles ==>
      Step(s, Reads).cycles[t].acked == if s.queue[0].token == t
                                        then s.cycles[t].acked[s.queue[0].m := s.queue[0].after] else s.cycles[t].acked
  {
    var u, m, after := s.queue[0].token, s.queue[0].m, s.queue[0].after;
    ReadsIs(s);
    if u in s.cycles {
      assert CycleOk(s.cycles[u], s.group);
      LastCounts(s, u);
      AckCycles(s.(queue := s.queue[1..]), u, m, after, t);
    }
  }

  lemma AckCycles(s: State, u: nat, m: ActorId, after: nat, t: nat)
    requires u in s.cycles && t in s.cycles && s.group > 0 && s.cycles[u].asked <= |s.cycles[u].members|
    ensures var s' := HandleAck(s, u, m, after);
      && (t in s'.cycles <==> u != t || s.cycles[t].acks + 1 != |s.cycles[t].members|)
      && (t in s'.cycles ==>
            s'.cycles[t].acked == if u == t then s.cycles[t].acked[m := after] else s.cycles[t].acked)
  {
    if s.cycles[u].acks + 1 != |s.cycles[u].members| { AnswerCycle(s, u, m, after); }
  }

  /** The cycles that are new after a step are the one that the detector has
      perceived: it has the next token and those members, nobody has answered, and
      the first group is asked. */
  lemma CycleBorn(states: seq<State>, choices: seq<Choice>, i: nat, t: nat)
    requires Run(states, choices) && i < |choices| && t !in states[i].cycles
    ensures t in states[i + 1].cycles <==> choices[i].Perceives? && t == states[i].nextToken
    ensures t in states[i + 1].cycles ==>
      var c, members := states[i + 1].cycles[t], choices[i].members;
      && c.members == members && c.acked == map[] && states[i + 1].nextToken == t + 1
      && forall m: ActorId :: Among(members, states[i].group, m) <==> (m, t) in states[i + 1].asking
  {
    RunInv(states, choices, i);
    RunStep(states, choices, i);
    var s, c := states[i], choices[i];
    if c.Perceives? && t == s.nextToken {
      BornIs(s, c.members);
      BornAsked(s, c.members);
    } else if t in states[i + 1].cycles {
      SinceKept(s, c, t);
    }
  }

  function Born(s: State, members: seq<ActorId>): nat {
    Min(|members|, s.group)
  }

  lemma BornIs(s: State, members: seq<ActorId>)
    ensures var s' := Step(s, Perceives(members));
      && s'.nextToken == s.nextToken + 1
      && s'.cycles == s.cycles[s.nextToken := Cycle(members, Born(s, members), 0, Since(s, members), map[])]
      && s'.asking == s.asking + Batch(members, s.nextToken, 0, Born(s, members))
  {
  }

  lemma BornAsked(s: State, members: seq<ActorId>)
    requires AskedOk(s)
    ensures forall m: ActorId :: Among(members, s.group, m) <==> (m, s.nextToken) in Step(s, Perceives(members)).asking
  {
    var t := s.nextToken;
    BornIs(s, members);
    forall m: ActorId ensures (m, t) !in s.asking {
      assert s.sent[(m, t)] == 0;
    }
    BatchAsks(s.asking, members, t, s.group);
  }

  lemma BatchAsks(asking: seq<(ActorId, nat)>, members: seq<ActorId>, t: nat, n: nat)
    requires forall m: ActorId :: (m, t) !in asking
    ensures forall m: ActorId :: Among(members, n, m) <==> (m, t) in asking + Batch(members, t, 0, Min(|members|, n))
  {
    var batch := Batch(members, t, 0, Min(|members|, n));
    BatchAt(members, t, 0, Min(|members|, n));
    forall m: ActorId ensures Among(members, n, m) <==> (m, t) in batch {
      if Among(members, n, m) {
        var k :| 0 <= k < n && k < |members| && members[k] == m;
        assert batch[k] == (m, t);
      }
    }
  }

  /** How many BLOCK and UNBLOCK messages the actor sent in the first `i` steps. */
  function Said(choices: seq<Choice>, i: nat, m: ActorId): nat
    requires i <= |choices|
  {
    if i == 0 then 0
    else Said(choices, i - 1, m) + if choices[i - 1] == Blocks(m) || choices[i - 1] == Unblocks(m) then 1 else 0
  }

  /** Whether the last of them was BLOCK. */
  predicate SaidBlock(choices: seq<Choice>, i: nat, m: ActorId)
    requires i <= |choices|
  {
    i > 0 && (choices[i - 1] == Blocks(m) || (choices[i - 1] != Unblocks(m) && SaidBlock(choices, i - 1, m)))
  }

  /** Whether the actor's count has changed since. */
  predicate Stale(choices: seq<Choice>, i: nat, m: ActorId)
    requires i <= |choices|
  {
    i > 0 && (choices[i - 1] == Changes(m)
              || (choices[i - 1] != Blocks(m) && choices[i - 1] != Unblocks(m) && Stale(choices, i - 1, m)))
  }

  lemma ActorStep(s: State, c: Choice, m: ActorId)
    requires Enabled(s, c)
    ensures ActorOf(Step(s, c), m)
      == if c == Blocks(m) then Actor(ActorOf(s, m).sent + 1, true, false)
         else if c == Unblocks(m) then Actor(ActorOf(s, m).sent + 1, false, false)
         else if c == Changes(m) then ActorOf(s, m).(changed := true) else ActorOf(s, m)
  {
  }

  lemma {:induction false} ActorIs(states: seq<State>, choices: seq<Choice>, i: nat, m: ActorId)
    requires Run(states, choices) && i < |states|
    ensures ActorOf(states[i], m) == Actor(Said(choices, i, m), SaidBlock(choices, i, m), Stale(choices, i, m))
  {
    if i > 0 {
      RunStep(states, choices, i - 1);
      ActorIs(states, choices, i - 1, m);
      ActorStep(states[i - 1], choices[i - 1], m);
    }
  }

  /** An actor that reads a CONF answers if and only if the last it said was BLOCK
      and its count has not changed since; the CONF is then read once and for
      all. */
  lemma AnswersWhenBlocked(states: seq<State>, choices: seq<Choice>, i: nat)
    requires Run(states, choices) && i < |choices| && choices[i].Answers?
    ensures choices[i].k < |states[i].asking|
    ensures var (m, t) := states[i].asking[choices[i].k];
      && states[i + 1].queue
         == (if SaidBlock(choices, i, m) && !Stale(choices, i, m) then states[i].queue + [Ack(t, m, Said(choices, i, m))]
             else states[i].queue)
      && (forall p :: p in states[i + 1].asking <==> p in states[i].asking && p != (m, t))
  {
    RunInv(states, choices, i);
    RunStep(states, choices, i);
    var s, k := states[i], choices[i].k;
    ActorIs(states, choices, i, s.asking[k].0);
    WithoutAsked(s.asking, s.sent, k);
  }

  // ---------- Progress ----------

  /** Whether the last BLOCK or UNBLOCK of the actor is a BLOCK, if the last one
      before those in the queue was `b`. */
  function Finally(q: seq<Msg>, m: ActorId, b: bool): bool {
    if q == [] then b else Finally(q[1..], m, if q[0].m == m && q[0].Note? then q[0].block else b)
  }

  lemma {:induction false} FinallyAppend(q: seq<Msg>, x: Msg, m: ActorId, b: bool)
    ensures Finally(q + [x], m, b) == if x.m == m && x.Note? then x.block else Finally(q, m, b)
    decreases |q|
  {
    if q != [] {
      assert (q + [x])[1..] == q[1..] + [x];
      FinallyAppend(q[1..], x, m, if q[0].m == m && q[0].Note? then q[0].block else b);
    } else {
      assert (q + [x])[1..] == [];
    }
  }

  /** An actor whose messages were all read is what the detector thinks it is. */
  lemma {:induction false} AllRead(q: seq<Msg>, m: ActorId, read: nat, sent: nat, b: bool)
    requires InOrder(q, m, read, sent)
    ensures read <= sent && (read == sent ==> Finally(q, m, b) == b)
    decreases |q|
  {
    if q != [] {
      var note := q[0].m == m && q[0].Note?;
      AllRead(q[1..], m, if note then read + 1 else read, sent, if note then q[0].block else b);
    }
  }

  predicate AckQueued(q: seq<Msg>, m: ActorId, t: nat) {
    exists k :: 0 <= k < |q| && q[k].Ack? && q[k].token == t && q[k].m == m
  }

  /** What keeps a cycle going, or ends it: the member has a CONF to read, the
      detector has its ACK or another message of it to read, or it has a change to
      report before it may answer. */
  predicate Owes(s: State, m: ActorId, t: nat) {
    || (m, t) in s.asking || AckQueued(s.queue, m, t)
    || ViewOf(s, m).read < ActorOf(s, m).sent || ActorOf(s, m).changed
  }

  /** The member was asked and its answer was not counted. */
  predicate Open(c: Cycle, m: ActorId) {
    Among(c.members, c.asked, m) && m !in c.acked
  }

  ghost predicate Synced(s: State) {
    forall m: ActorId {:trigger ActorOf(s, m)} :: Finally(s.queue, m, ViewOf(s, m).blocked) == ActorOf(s, m).blocked
  }

  ghost predicate Going(s: State) {
    && (forall t, m {:trigger m in s.cycles[t].since} :: t in s.cycles && m in s.cycles[t].since ==> ViewOf(s, m).blocked)
    && (forall t, m {:trigger Open(s.cycles[t], m)} :: t in s.cycles && Open(s.cycles[t], m) ==> Owes(s, m, t))
  }

  lemma QueuedLater(q: seq<Msg>, x: Msg, m: ActorId, t: nat)
    ensures AckQueued(q, m, t) ==> AckQueued(q + [x], m, t)
    ensures x.Ack? && x.token == t && x.m == m ==> AckQueued(q + [x], m, t)
  {
    if AckQueued(q, m, t) {
      var k :| 0 <= k < |q| && q[k].Ack? && q[k].token == t && q[k].m == m;
      assert (q + [x])[k] == q[k];
    }
    assert (q + [x])[|q|] == x;
  }

  lemma QueuedRest(q: seq<Msg>, m: ActorId, t: nat)
    requires q != [] && AckQueued(q, m, t) && !(q[0].Ack? && q[0].token == t && q[0].m == m)
    ensures AckQueued(q[1..], m, t)
  {
    var k :| 0 <= k < |q| && q[k].Ack? && q[k].token == t && q[k].m == m;
    assert q[1..][k - 1] == q[k];
  }

  lemma SayGoing(s: State, m: ActorId, block: bool)
    requires Inv(s) && Synced(s) && Going(s)
    ensures Synced(Say(s, m, block)) && Going(Say(s, m, block))
  {
    var s' := Say(s, m, block);
    forall u: ActorId {:trigger ActorOf(s', u)} ensures Finally(s'.queue, u, ViewOf(s', u).blocked) == ActorOf(s', u).blocked {
      assert ActorOf(s, u) == ActorOf(s, u);
      FinallyAppend(s.queue, Note(m, block), u, ViewOf(s, u).blocked);
    }
    forall t: nat, u: ActorId | t in s'.cycles && Open(s'.cycles[t], u) ensures Owes(s', u, t) {
      assert Open(s.cycles[t], u);
      assert InOrder(s.queue, u, ViewOf(s, u).read, ActorOf(s, u).sent);
      AllRead(s.queue, u, ViewOf(s, u).read, ActorOf(s, u).sent, true);
      QueuedLater(s.queue, Note(m, block), u, t);
    }
  }

  lemma ChangesGoing(s: State, m: ActorId)
    requires Synced(s) && Going(s)
    ensures Synced(Step(s, Changes(m))) && Going(Step(s, Changes(m)))
  {
    var s' := Step(s, Changes(m));
    forall u: ActorId {:trigger ActorOf(s', u)} ensures Finally(s'.queue, u, ViewOf(s', u).blocked) == ActorOf(s', u).blocked {
      assert ActorOf(s, u) == ActorOf(s, u);
    }
    forall t: nat, u: ActorId | t in s'.cycles && Open(s'.cycles[t], u) ensures Owes(s', u, t) { assert Open(s.cycles[t], u); }
  }

  lemma OpenSince(s: State, m: ActorId, t: nat)
    requires CyclesOk(s) && t in s.cycles && Open(s.cycles[t], m)
    ensures m in s.cycles[t].since
  {
    var c := s.cycles[t];
    assert Unchanged(c, s.views);
    var k :| 0 <= k < c.asked && k < |c.members| && c.members[k] == m;
    assert c.members[k] in c.since;
  }

  /** An actor that is not blocked any more has said so. */
  lemma {:induction false} UnblockQueued(q: seq<Msg>, m: ActorId)
    requires !Finally(q, m, true)
    ensures Note(m, false) in q
    decreases |q|
  {
    if q[0] != Note(m, false) { UnblockQueued(q[1..], m); }
  }

  /** A member that does not answer its CONF because it is not blocked has sent an
      UNBLOCK that the detector has not read. */
  lemma SilentOwes(s: State, m: ActorId, t: nat)
    requires Inv(s) && Synced(s) && Going(s) && t in s.cycles && Open(s.cycles[t], m) && !ActorOf(s, m).blocked
    ensures Note(m, false) in s.queue && ViewOf(s, m).read < ActorOf(s, m).sent
  {
    OpenSince(s, m, t);
    assert InOrder(s.queue, m, ViewOf(s, m).read, ActorOf(s, m).sent);
    AllRead(s.queue, m, ViewOf(s, m).read, ActorOf(s, m).sent, true);
    UnblockQueued(s.queue, m);
  }

  lemma AnswersOwes(s: State, k: nat, u: ActorId, t: nat)
    requires k < |s.asking| && multiset(s.asking) <= s.sent && Once(s.sent) && Owes(s, u, t)
    requires (u, t) == s.asking[k] ==> ActorOf(s, u).blocked || ViewOf(s, u).read < ActorOf(s, u).sent
    ensures Owes(Step(s, Answers(k)), u, t)
  {
    var s', m := Step(s, Answers(k)), s.asking[k].0;
    QueuedLater(s.queue, Ack(s.asking[k].1, m, ActorOf(s, m).sent), u, t);
    assert ActorOf(s', u) == ActorOf(s, u) && ViewOf(s', u) == ViewOf(s, u);
    WithoutAsked(s.asking, s.sent, k);
  }

  lemma AnswersGoing(s: State, k: nat)
    requires Inv(s) && Synced(s) && Going(s) && k < |s.asking|
    ensures Synced(Step(s, Answers(k))) && Going(Step(s, Answers(k)))
  {
    var s', m, token := Step(s, Answers(k)), s.asking[k].0, s.asking[k].1;
    forall u: ActorId {:trigger ActorOf(s', u)} ensures Finally(s'.queue, u, ViewOf(s', u).blocked) == ActorOf(s', u).blocked {
      assert ActorOf(s, u) == ActorOf(s, u);
      FinallyAppend(s.queue, Ack(token, m, ActorOf(s, m).sent), u, ViewOf(s, u).blocked);
    }
    forall t: nat, u: ActorId | t in s'.cycles && Open(s'.cycles[t], u) ensures Owes(s', u, t) {
      assert Open(s.cycles[t], u);
      if (u, t) == s.asking[k] && !ActorOf(s, u).blocked { SilentOwes(s, u, t); }
      AnswersOwes(s, k, u, t);
    }
  }

  lemma NoteSynced(s: State)
    requires Synced(s) && s.queue != [] && s.queue[0].Note?
    ensures Synced(Step(s, Reads))
  {
    var s' := Step(s, Reads);
    forall u: ActorId {:trigger ActorOf(s', u)} ensures Finally(s'.queue, u, ViewOf(s', u).blocked) == ActorOf(s', u).blocked {
      assert ActorOf(s, u) == ActorOf(s, u);
    }
  }

  lemma NoteOwes(s: State, u: ActorId, t: nat)
    requires Owes(s, u, t) && s.queue != [] && s.queue[0].Note? && u != s.queue[0].m
    ensures Owes(Step(s, Reads), u, t)
  {
    if AckQueued(s.queue, u, t) { QueuedRest(s.queue, u, t); }
  }

  lemma NoteGoing(s: State)
    requires CyclesOk(s) && Going(s) && s.queue != [] && s.queue[0].Note?
    ensures Going(Step(s, Reads))
  {
    var s' := Step(s, Reads);
    forall t: nat, u: ActorId {:trigger u in s'.cycles[t].since} | t in s'.cycles && u in s'.cycles[t].since
      ensures ViewOf(s', u).blocked
    {
      NoteCycles(s, t);
      assert u in s.cycles[t].since;
    }
    forall t: nat, u: ActorId | t in s'.cycles && Open(s'.cycles[t], u) ensures Owes(s', u, t) {
      NoteCycles(s, t);
      assert Open(s.cycles[t], u);
      OpenSince(s, u, t);
      NoteOwes(s, u, t);
    }
  }

  /** Asking the next group: whoever counts as asked and did not before has a CONF
      to read. */
  lemma SendGrows(s: State, token: nat, c: Cycle)
    requires Distinct(c.members) && c.asked <= |c.members|
    ensures var s' := SendConf(s, token, c);
      && s' == s.(cycles := s'.cycles, asking := s'.asking, sent := s'.sent) && s.asking <= s'.asking
      && s'.cycles == s.cycles[token := c.(asked := s'.cycles[token].asked)]
      && forall u: ActorId :: Among(c.members, s'.cycles[token].asked, u) ==>
           Among(c.members, c.asked, u) || (u, token) in s'.asking
  {
    var s', to := SendConf(s, token, c), Min(|c.members|, c.asked + s.group);
    SendConfIs(s, token, c);
    forall u: ActorId | Among(c.members, to, u) ensures Among(c.members, c.asked, u) || (u, token) in s'.asking {
      AskedMore(c.members, token, c.asked, to, u);
    }
  }

  lemma AskedMore(members: seq<ActorId>, t: nat, i: nat, j: nat, u: ActorId)
    requires i <= j <= |members| && Among(members, j, u)
    ensures Among(members, i, u) || (u, t) in Batch(members, t, i, j)
  {
    var k :| 0 <= k < j && k < |members| && members[k] == u;
    BatchAt(members, t, i, j);
    if k < i { assert Among(members, i, u); } else { assert Batch(members, t, i, j)[k - i] == (u, t); }
  }

  /** What is open after an answer of the actor was open before, or was just asked. */
  ghost predicate Grows(s: State, s': State, token: nat, m: ActorId) {
    && s'.actors == s.actors && s'.views == s.views && s'.queue == s.queue && s.asking <= s'.asking
    && forall t {:trigger s'.cycles[t]} :: t in s'.cycles ==>
         && t in s.cycles && s'.cycles[t].since == s.cycles[t].since
         && forall u: ActorId {:trigger Open(s'.cycles[t], u)} :: Open(s'.cycles[t], u) ==>
              (Open(s.cycles[t], u) && (t == token ==> u != m)) || (u, t) in s'.asking
  }

  lemma GrowsPut(s: State, s': State, token: nat, m: ActorId, after: nat, n: nat)
    requires s'.actors == s.actors && s'.views == s.views && s'.queue == s.queue && s.asking <= s'.asking
    requires token in s.cycles && s'.cycles == s.cycles[token := Answered(s.cycles[token], m, after).(asked := n)]
    requires var c := s.cycles[token];
      forall u: ActorId :: Among(c.members, n, u) ==> Among(c.members, c.asked, u) || (u, token) in s'.asking
    ensures Grows(s, s', token, m)
  {
  }

  lemma AckGrows(s: State, token: nat, m: ActorId, after: nat)
    requires CyclesOk(s)
    ensures Grows(s, HandleAck(s, token, m, after), token, m)
  {
    if token in s.cycles {
      var s', c := HandleAck(s, token, m, after), Answered(s.cycles[token], m, after);
      assert CycleOk(s.cycles[token], s.group);
      if c.acks == |c.members| {
        assert s'.cycles == s.cycles - {token};
      } else if Multiple(c.acks, s.group) {
        SendGrows(s, token, c);
        GrowsPut(s, s', token, m, after, s'.cycles[token].asked);
      } else {
        GrowsPut(s, s', token, m, after, c.asked);
      }
    }
  }

  lemma AckOwes(s: State, s': State, t: nat, u: ActorId)
    requires s.queue != [] && s.queue[0].Ack? && t in s.cycles && t in s'.cycles && Open(s'.cycles[t], u) && Going(s)
    requires Grows(s.(queue := s.queue[1..]), s', s.queue[0].token, s.queue[0].m)
    ensures Owes(s', u, t)
  {
    if (u, t) !in s'.asking {
      assert Open(s.cycles[t], u) && Owes(s, u, t);
      if AckQueued(s.queue, u, t) { QueuedRest(s.queue, u, t); }
    }
  }

  lemma AckSynced(s: State, s': State)
    requires Synced(s) && s.queue != [] && s.queue[0].Ack?
    requires s'.actors == s.actors && s'.views == s.views && s'.queue == s.queue[1..]
    ensures Synced(s')
  {
    forall u: ActorId {:trigger ActorOf(s', u)} ensures Finally(s'.queue, u, ViewOf(s', u).blocked) == ActorOf(s', u).blocked {
      assert ActorOf(s, u) == ActorOf(s', u);
    }
  }

  lemma AckGoing(s: State)
    requires CyclesOk(s) && Synced(s) && Going(s) && s.queue != [] && s.queue[0].Ack?
    ensures Synced(Step(s, Reads)) && Going(Step(s, Reads))
  {
    var r, s' := s.(queue := s.queue[1..]), Step(s, Reads);
    ReadsIs(s);
    assert CyclesOk(r);
    AckGrows(r, s.queue[0].token, s.queue[0].m, s.queue[0].after);
    AckSynced(s, s');
    forall t: nat, u: ActorId {:trigger u in s'.cycles[t].since} | t in s'.cycles && u in s'.cycles[t].since
      ensures ViewOf(s', u).blocked
    {
      assert u in s.cycles[t].since;
    }
    forall t: nat, u: ActorId | t in s'.cycles && Open(s'.cycles[t], u) ensures Owes(s', u, t) { AckOwes(s, s', t, u); }
  }

  /** A step that changes neither actors, views nor queue. */
  lemma SyncedSame(s: State, s': State)
    requires Synced(s) && s'.actors == s.actors && s'.views == s.views && s'.queue == s.queue
    ensures Synced(s')
  {
    forall u: ActorId {:trigger ActorOf(s', u)} ensures Finally(s'.queue, u, ViewOf(s', u).blocked) == ActorOf(s', u).blocked {
      assert ActorOf(s, u) == ActorOf(s', u);
    }
  }

  /** A new cycle, and more CONF messages. */
  lemma NewGoing(s: State, s': State, t: nat, c: Cycle)
    requires Going(s) && s'.actors == s.actors && s'.views == s.views && s'.queue == s.queue && s.asking <= s'.asking
    requires s'.cycles == s.cycles[t := c]
    requires forall u {:trigger u in c.since} :: u in c.since ==> ViewOf(s, u).blocked
    requires forall u: ActorId {:trigger Open(c, u)} :: Open(c, u) ==> (u, t) in s'.asking
    ensures Going(s')
  {
    forall k: nat, u: ActorId {:trigger u in s'.cycles[k].since} | k in s'.cycles && u in s'.cycles[k].since
      ensures ViewOf(s', u).blocked
    {
      assert k != t ==> u in s.cycles[k].since;
    }
    forall k: nat, u: ActorId | k in s'.cycles && Open(s'.cycles[k], u) ensures Owes(s', u, k) {
      if k != t {
        assert Open(s.cycles[k], u) && Owes(s, u, k);
        assert ActorOf(s', u) == ActorOf(s, u) && ViewOf(s', u) == ViewOf(s, u);
      }
    }
  }

  lemma PerceivesGoing(s: State, members: seq<ActorId>)
    requires Synced(s) && Going(s) && Enabled(s, Perceives(members))
    ensures Synced(Step(s, Perceives(members))) && Going(Step(s, Perceives(members)))
  {
    var r, s', t := s.(nextToken := s.nextToken + 1), Step(s, Perceives(members)), s.nextToken;
    SendGrows(r, t, Cycle(members, 0, 0, Since(s, members), map[]));
    SyncedSame(s, s');
    forall u {:trigger u in s'.cycles[t].since} | u in s'.cycles[t].since ensures ViewOf(s, u).blocked {
      var k :| 0 <= k < |members| && members[k] == u;
      assert ViewOf(s, members[k]).blocked;
    }
    forall u: ActorId {:trigger Open(s'.cycles[t], u)} | Open(s'.cycles[t], u) ensures (u, t) in s'.asking {
      assert !Among(members, 0, u);
    }
    NewGoing(s, s', t, s'.cycles[t]);
  }

  lemma {:induction false} RunGoing(states: seq<State>, choices: seq<Choice>, i: nat)
    requires Run(states, choices) && i < |states|
    ensures Synced(states[i]) && Going(states[i])
  {
    if i > 0 {
      var s, c := states[i - 1], choices[i - 1];
      RunGoing(states, choices, i - 1);
      RunInv(states, choices, i - 1);
      RunStep(states, choices, i - 1);
      match c
      case Blocks(m) => SayGoing(s, m, true);
      case Unblocks(m) => SayGoing(s, m, false);
      case Changes(m) => ChangesGoing(s, m);
      case Answers(k) => AnswersGoing(s, k);
      case Reads => if s.queue[0].Note? { NoteGoing(s); NoteSynced(s); } else { AckGoing(s); }
      case Perceives(members) => PerceivesGoing(s, members);
    }
  }

  /** Some member that was asked has not been counted. */
  lemma SomeOpen(c: Cycle, group: nat) returns (m: ActorId)
    requires CycleOk(c, group)
    ensures Open(c, m)
  {
    var all := set k | 0 <= k < c.asked :: c.members[k];
    SizeOf(c.members, c.asked);
    assert |c.acked.Keys| == |c.acked|;
    if all <= c.acked.Keys { Subset(all, c.acked.Keys); }
    m :| m in all && m !in c.acked.Keys;
  }

  // ---------- Destroyed actors ----------

  /** The CONFs of an actor are under way in the order of their tokens. */
  predicate Increasing(asking: seq<(ActorId, nat)>) {
    forall j, k :: 0 <= j < k < |asking| && asking[j].0 == asking[k].0 ==> asking[j].1 < asking[k].1
  }

  /** While an actor is in cycle `t` it has no CONF of a later one to read, and
      once it has read the CONF of `t` it has none at all. */
  predicate Current(asking: seq<(ActorId, nat)>, sent: multiset<(ActorId, nat)>, t: nat, m: ActorId) {
    forall k :: 0 <= k < |asking| && asking[k].0 == m ==> asking[k].1 <= t && ((m, t) in sent ==> (m, t) in asking)
  }

  /** A destroyed actor is in no cycle and has no CONF to read. */
  ghost predicate Ordered(s: State) {
    && Increasing(s.asking)
    && (forall t, m {:trigger m in s.cycles[t].since} :: t in s.cycles && m in s.cycles[t].since ==>
          m !in s.gone && Current(s.asking, s.sent, t, m))
    && (forall k :: 0 <= k < |s.asking| ==> s.asking[k].0 !in s.gone)
  }

  /** A step that sends, reads and destroys nothing. */
  lemma OrderedSame(s: State, s': State)
    requires Ordered(s) && s'.asking == s.asking && s'.sent == s.sent && s'.gone == s.gone
    requires forall t {:trigger Kept(s, s', t)} :: t in s'.cycles ==> Kept(s, s', t)
    ensures Ordered(s')
  {
    forall t: nat, m: ActorId {:trigger m in s'.cycles[t].since} | t in s'.cycles && m in s'.cycles[t].since
      ensures m !in s'.gone && Current(s'.asking, s'.sent, t, m)
    {
      assert Kept(s, s', t);
      assert m in s.cycles[t].since;
    }
  }

  lemma WithoutAt(asking: seq<(ActorId, nat)>, k: nat, j: nat)
    requires k < |asking| && j < |Without(asking, k)|
    ensures Without(asking, k)[j] == asking[if j < k then j else j + 1]
  {
  }

  /** An actor that reads its oldest CONF has later ones left only. */
  lemma WithoutCurrent(asking: seq<(ActorId, nat)>, sent: multiset<(ActorId, nat)>, k: nat, t: nat, m: ActorId)
    requires First(asking, k) && Increasing(asking) && Current(asking, sent, t, m)
    requires forall p :: p in Without(asking, k) <==> p in asking && p != asking[k]
    ensures Current(Without(asking, k), sent, t, m)
  {
    var less := Without(asking, k);
    forall j | 0 <= j < |less| && less[j].0 == m ensures less[j].1 <= t && ((m, t) in sent ==> (m, t) in less) {
      WithoutAt(asking, k, j);
    }
  }

  lemma AnswersOrdered(s: State, k: nat)
    requires Ordered(s) && First(s.asking, k) && multiset(s.asking) <= s.sent && Once(s.sent)
    ensures Ordered(Step(s, Answers(k)))
  {
    var s' := Step(s, Answers(k));
    WithoutAsked(s.asking, s.sent, k);
    forall i, j | 0 <= i < j < |s'.asking| && s'.asking[i].0 == s'.asking[j].0 ensures s'.asking[i].1 < s'.asking[j].1 {
      WithoutAt(s.asking, k, i);
      WithoutAt(s.asking, k, j);
    }
    forall t: nat, m: ActorId {:trigger m in s'.cycles[t].since} | t in s'.cycles && m in s'.cycles[t].since
      ensures m !in s'.gone && Current(s'.asking, s'.sent, t, m)
    {
      assert m in s.cycles[t].since;
      WithoutCurrent(s.asking, s.sent, k, t, m);
    }
    forall j | 0 <= j < |s'.asking| ensures s'.asking[j].0 !in s'.gone { WithoutAt(s.asking, k, j); }
  }

  /** CONFs of token `t` go to actors of which none was sent one of it. */
  lemma SendIncreasing(asking: seq<(ActorId, nat)>, members: seq<ActorId>, t: nat, i: nat, j: nat)
    requires Increasing(asking) && Distinct(members) && i <= j <= |members|
    requires forall k, x :: 0 <= k < |asking| && i <= x < j && asking[k].0 == members[x] ==> asking[k].1 < t
    ensures Increasing(asking + Batch(members, t, i, j))
  {
    BatchAt(members, t, i, j);
    var more := asking + Batch(members, t, i, j);
    forall k, l | 0 <= k < l < |more| && more[k].0 == more[l].0 ensures more[k].1 < more[l].1 {
      if l >= |asking| { assert more[l] == (members[i + (l - |asking|)], t); }
    }
  }

  /** What an actor has to read of other cycles when CONFs of `token` are sent, and
      what it has to read of `token` itself. */
  lemma SendCurrent(asking: seq<(ActorId, nat)>, sent: multiset<(ActorId, nat)>, batch: seq<(ActorId, nat)>,
                    token: nat, t: nat, m: ActorId)
    requires Current(asking, sent, t, m) && forall x :: 0 <= x < |batch| ==> batch[x].1 == token
    requires t == token || forall x :: 0 <= x < |batch| ==> batch[x].0 != m
    ensures Current(asking + batch, sent + multiset(batch), t, m)
  {
    var more := asking + batch;
    forall k | 0 <= k < |more| && more[k].0 == m
      ensures more[k].1 <= t && ((m, t) in sent + multiset(batch) ==> (m, t) in more)
    {
      if k < |asking| {
        assert asking[k].0 == m;
      } else {
        assert more[k] == batch[k - |asking|] == (m, t);
      }
      if (m, t) in batch { assert (m, t) in more; }
    }
  }

  /** The cycle can be asked on under token `t`: nobody in it is destroyed or in
      another cycle, or has a CONF of a later token to read. */
  ghost predicate Askable(s: State, t: nat, c: Cycle) {
    && Distinct(c.members) && c.asked <= |c.members| && (forall k :: 0 <= k < |c.members| ==> c.members[k] in c.since)
    && (forall m {:trigger m in c.since} :: m in c.since ==> m !in s.gone && Current(s.asking, s.sent, t, m))
    && (forall k :: c.asked <= k < |c.members| ==> (c.members[k], t) !in s.asking)
    && (forall u, m {:trigger m in s.cycles[u].since} :: u in s.cycles && u != t && m in s.cycles[u].since ==> m !in c.since)
  }

  /** What is sent under token `t` comes after all that its receivers have to
      read. */
  lemma SendLater(s: State, t: nat, c: Cycle, to: nat)
    requires Increasing(s.asking) && Askable(s, t, c) && c.asked <= to <= |c.members|
    ensures Increasing(s.asking + Batch(c.members, t, c.asked, to))
  {
    forall k, x | 0 <= k < |s.asking| && c.asked <= x < to && s.asking[k].0 == c.members[x] ensures s.asking[k].1 < t {
      assert c.members[x] in c.since;
      assert s.asking[k] in s.asking;
    }
    SendIncreasing(s.asking, c.members, t, c.asked, to);
  }

  lemma BatchSince(c: Cycle, t: nat, to: nat)
    requires c.asked <= to <= |c.members| && forall k :: 0 <= k < |c.members| ==> c.members[k] in c.since
    ensures forall x :: 0 <= x < |Batch(c.members, t, c.asked, to)| ==>
      Batch(c.members, t, c.asked, to)[x].0 in c.since && Batch(c.members, t, c.asked, to)[x].1 == t
  {
    BatchAt(c.members, t, c.asked, to);
  }

  lemma SentCurrent(s: State, t: nat, c: Cycle, batch: seq<(ActorId, nat)>, u: nat, m: ActorId)
    requires Ordered(s) && Askable(s, t, c) && forall x :: 0 <= x < |batch| ==> batch[x].0 in c.since && batch[x].1 == t
    requires if u == t then m in c.since else u in s.cycles && m in s.cycles[u].since
    ensures m !in s.gone && Current(s.asking + batch, s.sent + multiset(batch), u, m)
  {
    SendCurrent(s.asking, s.sent, batch, t, u, m);
  }

  lemma SendOrdered(s: State, t: nat, c: Cycle)
    requires Ordered(s) && Askable(s, t, c)
    ensures Ordered(SendConf(s, t, c))
  {
    var s', to := SendConf(s, t, c), Min(|c.members|, c.asked + s.group);
    var batch := Batch(c.members, t, c.asked, to);
    SendConfIs(s, t, c);
    SendLater(s, t, c, to);
    BatchSince(c, t, to);
    forall u: nat, m: ActorId {:trigger m in s'.cycles[u].since} | u in s'.cycles && m in s'.cycles[u].since
      ensures m !in s'.gone && Current(s'.asking, s'.sent, u, m)
    {
      SentCurrent(s, t, c, batch, u, m);
    }
    forall k | 0 <= k < |s'.asking| ensures s'.asking[k].0 !in s'.gone {
      if k >= |s.asking| { assert s'.asking[k] == batch[k - |s.asking|]; }
    }
  }

  /** All tokens that were sent are older than the next one. */
  lemma NewCurrent(s: State, m: ActorId)
    requires AskedOk(s)
    ensures Current(s.asking, s.sent, s.nextToken, m) && (m, s.nextToken) !in s.asking
  {
    forall k | 0 <= k < |s.asking| ensures s.asking[k].1 < s.nextToken {
      var p := s.asking[k];
      assert p in multiset(s.asking) && (p.0, p.1) in s.sent;
    }
    assert (m, s.nextToken) !in s.sent;
  }

  lemma NewMember(s: State, members: seq<ActorId>, m: ActorId)
    requires AskedOk(s) && Enabled(s, Perceives(members)) && m in members
    ensures m !in s.gone && Current(s.asking, s.sent, s.nextToken, m) && (m, s.nextToken) !in s.asking
    ensures forall t {:trigger s.cycles[t]} :: t in s.cycles ==> m !in s.cycles[t].since
  {
    var k :| 0 <= k < |members| && members[k] == m;
    assert members[k] !in s.gone && !Perceived(s, members[k]);
    NewCurrent(s, m);
  }

  lemma NewAskable(s: State, members: seq<ActorId>)
    requires AskedOk(s) && Enabled(s, Perceives(members))
    ensures Askable(s, s.nextToken, Cycle(members, 0, 0, Since(s, members), map[]))
  {
    forall m | m in members
      ensures m !in s.gone && Current(s.asking, s.sent, s.nextToken, m) && (m, s.nextToken) !in s.asking
      ensures forall t {:trigger s.cycles[t]} :: t in s.cycles ==> m !in s.cycles[t].since
    {
      NewMember(s, members, m);
    }
  }

  lemma PerceivesOrdered(s: State, members: seq<ActorId>)
    requires Ordered(s) && AskedOk(s) && Enabled(s, Perceives(members))
    ensures Ordered(Step(s, Perceives(members)))
  {
    var r, t := s.(nextToken := s.nextToken + 1), s.nextToken;
    var c := Cycle(members, 0, 0, Since(s, members), map[]);
    OrderedSame(s, r);
    NewAskable(s, members);
    AskableSame(s, r, t, c);
    SendOrdered(r, t, c);
  }

  /** Whoever has answered has nothing more to read. */
  lemma AnsweredDone(s: State, t: nat, u: ActorId, k: nat)
    requires Inv(s) && Ordered(s) && t in s.cycles && u in s.cycles[t].since
    requires u in s.cycles[t].acked || (s.queue != [] && s.queue[0].Ack? && s.queue[0].token == t && s.queue[0].m == u)
    requires k < |s.asking|
    ensures s.asking[k].0 != u
  {
    var c := s.cycles[t];
    assert CycleOk(c, s.group);
    if u in c.acked { assert Among(c.members, c.asked, u); } else { AckOpen(s, t, u); }
    assert (u, t) in s.sent && (u, t) !in s.asking;
    assert Current(s.asking, s.sent, t, u);
  }

  /** Whom the last ACK of a cycle destroys: its members, and all have answered. */
  lemma Destroyed(s: State, t: nat, m: ActorId, after: nat, u: ActorId)
    requires Inv(s) && s.queue != [] && s.queue[0] == Ack(t, m, after) && t in s.cycles
    requires s.cycles[t].acks + 1 == |s.cycles[t].members|
    requires u in HandleAck(s.(queue := s.queue[1..]), t, m, after).gone && u !in s.gone
    ensures u in s.cycles[t].since && (u == m || u in s.cycles[t].acked)
  {
    var c := s.cycles[t];
    AckFits(s, t, m, after);
    AllAnswered(c, s.group, m, after);
    assert Unchanged(c, s.views);
    var k :| 0 <= k < |c.members| && c.members[k] == u;
    assert c.members[k] in Answered(c, m, after).acked;
  }

  lemma CollectOrdered(s: State, t: nat, m: ActorId, after: nat)
    requires Inv(s) && Ordered(s) && Single(s) && s.queue != [] && s.queue[0] == Ack(t, m, after) && t in s.cycles
    requires s.cycles[t].acks + 1 == |s.cycles[t].members|
    ensures Ordered(HandleAck(s.(queue := s.queue[1..]), t, m, after))
  {
    var s' := HandleAck(s.(queue := s.queue[1..]), t, m, after);
    CollectIs(s, t, m, after);
    forall k | 0 <= k < |s'.asking| ensures s'.asking[k].0 !in s'.gone {
      var u := s.asking[k].0;
      if u in s'.gone {
        Destroyed(s, t, m, after, u);
        AnsweredDone(s, t, u, k);
      }
    }
    forall v: nat, u: ActorId {:trigger u in s'.cycles[v].since} | v in s'.cycles && u in s'.cycles[v].since
      ensures u !in s'.gone && Current(s'.asking, s'.sent, v, u)
    {
      assert u in s.cycles[v].since;
      if u in s'.gone { Destroyed(s, t, m, after, u); }
    }
  }

  lemma AnsweredAskable(s: State, t: nat, m: ActorId, after: nat)
    requires Inv(s) && Ordered(s) && Single(s) && t in s.cycles
    ensures Askable(s, t, Answered(s.cycles[t], m, after))
  {
    var c := s.cycles[t];
    assert CycleOk(c, s.group) && Unchanged(c, s.views);
    forall k | c.asked <= k < |c.members| ensures (c.members[k], t) !in s.asking {
      assert !Among(c.members, c.asked, c.members[k]);
      assert multiset(s.asking)[(c.members[k], t)] <= s.sent[(c.members[k], t)];
    }
    forall u {:trigger u in c.since} | u in c.since ensures u !in s.gone && Current(s.asking, s.sent, t, u) {
      assert u in s.cycles[t].since;
    }
  }

  lemma AskableSame(s: State, r: State, t: nat, c: Cycle)
    requires Askable(s, t, c) && r == s.(queue := r.queue, nextToken := r.nextToken)
    ensures Askable(r, t, c)
  {
  }

  lemma PutOrdered(s: State, t: nat, c: Cycle)
    requires Ordered(s) && t in s.cycles && c.since == s.cycles[t].since && c.members == s.cycles[t].members
    ensures Ordered(s.(cycles := s.cycles[t := c]))
  {
    OrderedSame(s, s.(cycles := s.cycles[t := c]));
  }

  lemma AckOrdered(s: State)
    requires Inv(s) && Ordered(s) && Single(s) && s.queue != [] && s.queue[0].Ack?
    ensures Ordered(Step(s, Reads))
  {
    var t, m, after, r := s.queue[0].token, s.queue[0].m, s.queue[0].after, s.(queue := s.queue[1..]);
    ReadsIs(s);
    OrderedSame(s, r);
    if t in s.cycles {
      var c := Answered(s.cycles[t], m, after);
      if c.acks == |c.members| {
        CollectOrdered(s, t, m, after);
      } else if s.group > 0 && Multiple(c.acks, s.group) {
        AnsweredAskable(s, t, m, after);
        AskableSame(s, r, t, c);
        SendOrdered(r, t, c);
      } else {
        PutOrdered(r, t, c);
      }
    }
  }

  lemma {:induction false} RunOrdered(states: seq<State>, choices: seq<Choice>, i: nat)
    requires Run(states, choices) && i < |states|
    ensures Ordered(states[i])
  {
    if i > 0 {
      var s, c := states[i - 1], choices[i - 1];
      RunOrdered(states, choices, i - 1);
      RunInv(states, choices, i - 1);
      PerceivedOnce(states, choices, i - 1);
      RunStep(states, choices, i - 1);
      match c
      case Answers(k) => AnswersOrdered(s, k);
      case Perceives(members) => PerceivesOrdered(s, members);
      case Reads =>
        if s.queue[0].Ack? {
          AckOrdered(s);
        } else {
          forall t {:trigger Kept(s, Step(s, Reads), t)} | t in Step(s, Reads).cycles ensures Kept(s, Step(s, Reads), t) {
            NoteCycles(s, t);
          }
          OrderedSame(s, Step(s, Reads));
        }
      case _ => OrderedSame(s, Step(s, c));
    }
  }

  /** An actor that was destroyed is in no perceived cycle and has no CONF left to
      read, in any state of any run. */
  lemma DestroyedIsDone(states: seq<State>, choices: seq<Choice>, i: nat, m: ActorId)
    requires Run(states, choices) && i < |states| && m in states[i].gone
    ensures forall t :: t in states[i].cycles ==> m !in states[i].cycles[t].since
    ensures forall k :: 0 <= k < |states[i].asking| ==> states[i].asking[k].0 != m
  {
    RunOrdered(states, choices, i);
  }

  /** The oldest CONF of an actor that has one. */
  lemma {:induction false} Oldest(asking: seq<(ActorId, nat)>, m: ActorId, n: nat) returns (k: nat)
    requires n < |asking| && asking[n].0 == m
    ensures k <= n && asking[k].0 == m && First(asking, k)
    decreases n
  {
    if j: nat :| j < n && asking[j].0 == m {
      k := Oldest(asking, m, j);
    } else {
      k := n;
    }
  }

  /** A cycle that is neither collected nor dropped is never stuck: some member
      was asked and not counted, and it can read its oldest CONF, or the detector
      can read a message, with an ACK, BLOCK or UNBLOCK of the member among those
      to be read, or the member can report its change. */
  lemma NeverStalls(states: seq<State>, choices: seq<Choice>, i: nat, t: nat) returns (m: ActorId, c: Choice)
    requires Run(states, choices) && i < |states| && t in states[i].cycles
    ensures states[i].cycles[t].acks < states[i].cycles[t].asked <= |states[i].cycles[t].members|
    ensures Open(states[i].cycles[t], m) && Owes(states[i], m, t) && Enabled(states[i], c)
    ensures match c
      case Answers(k) => (m, t) in states[i].asking && states[i].asking[k].0 == m && states[i].asking[k].1 <= t
      case Blocks(u) => u == m && ActorOf(states[i], m).changed
      case Reads => AckQueued(states[i].queue, m, t) || ViewOf(states[i], m).read < ActorOf(states[i], m).sent
      case _ => false
  {
    RunInv(states, choices, i);
    RunGoing(states, choices, i);
    RunOrdered(states, choices, i);
    var s := states[i];
    assert CycleOk(s.cycles[t], s.group);
    m := SomeOpen(s.cycles[t], s.group);
    OpenSince(s, m, t);
    if n: nat :| n < |s.asking| && s.asking[n] == (m, t) {
      var k := Oldest(s.asking, m, n);
      c := Answers(k);
    } else if ActorOf(s, m).changed {
      c := Blocks(m);
    } else {
      c := Reads;
      assert InOrder(s.queue, m, ViewOf(s, m).read, ActorOf(s, m).sent);
    }
  }
}
