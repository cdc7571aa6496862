/** No message of the termination protocol gets lost, and the protocol does not
    get stuck. */
module TerminationProgress {

  import opened Basics
  import opened Termination

  // ---------- Broadcasts ----------

  /** In one of the steps from `i` to `j`, scheduler `z` sends the message to
      scheduler `v`. */
  ghost predicate SentTo(states: seq<State>, ids: seq<Id>, i: nat, j: nat, z: Id, v: Id, m: Msg)
    requires i <= j <= |ids| && |states| == |ids| + 1
  {
    exists k :: i <= k < j && ids[k] == z && v < |states[k].mqs| == |states[k + 1].mqs|
      && states[k + 1].mqs[v] == states[k].mqs[v] + [m]
  }

  lemma SentLater(states: seq<State>, ids: seq<Id>, i: nat, j: nat, z: Id, v: Id, m: Msg)
    requires i < j <= |ids| && |states| == |ids| + 1 && SentTo(states, ids, i, j - 1, z, v, m)
    ensures SentTo(states, ids, i, j, z, v, m)
  {
    var k :| i <= k < j - 1 && ids[k] == z && v < |states[k].mqs| == |states[k + 1].mqs|
      && states[k + 1].mqs[v] == states[k].mqs[v] + [m];
    assert k < j;
  }

  lemma SentNow(states: seq<State>, ids: seq<Id>, i: nat, j: nat, z: Id, v: Id, m: Msg)
    requires i < j <= |ids| && |states| == |ids| + 1 && ids[j - 1] == z
    requires v < |states[j - 1].mqs| == |states[j].mqs| && states[j].mqs[v] == states[j - 1].mqs[v] + [m]
    ensures SentTo(states, ids, i, j, z, v, m)
  {
    var k := j - 1;
    assert i <= k < j && ids[k] == z && states[k + 1].mqs[v] == states[k].mqs[v] + [m];
  }

  /** The scheduler broadcasts from state `i` on, up to state `j`. */
  predicate Broadcasting(states: seq<State>, i: nat, j: nat, z: Id)
    requires i <= j < |states|
  {
    forall k :: i <= k <= j ==> z < |states[k].pcs| && states[k].pcs[z].Broadcast?
  }

  /** What a step of scheduler `i` does to a broadcast of scheduler `z`. */
  predicate Proceeds(s: State, s': State, i: Id, z: Id)
    requires z < |s.pcs| && s.pcs[z].Broadcast?
  {
    var k, msg := s.pcs[z].k, s.pcs[z].msg;
    && |s'.pcs| == |s.pcs| == |s.mqs| == |s'.mqs| && k < |s.mqs|
    && (i != z ==> s'.pcs[z] == s.pcs[z])
    && (i == z ==>
          && s'.mqs[k] == s.mqs[k] + [msg] && (s'.pcs[z].Broadcast? <==> k + 1 < |s.pcs|)
          && (s'.pcs[z].Broadcast? ==> s'.pcs[z].k == k + 1 && s'.pcs[z].msg == msg))
  }

  lemma StepBroadcast(s: State, i: Id, c: Choice, z: Id)
    requires Enabled(s, i, c) && z < |s.pcs| && s.pcs[z].Broadcast? && s.pcs[z].k < |s.pcs|
    ensures Proceeds(s, Step(s, i, c), i, z)
  {
  }

  lemma RunBroadcast(states: seq<State>, ids: seq<Id>, choices: seq<Choice>, k: nat, z: Id)
    requires Run(states, ids, choices) && k < |ids| && z < |states[k].pcs| && states[k].pcs[z].Broadcast?
    ensures Proceeds(states[k], states[k + 1], ids[k], z)
  {
    RunInv(states, ids, choices, k);
    RunStep(states, ids, choices, k);
    StepBroadcast(states[k], ids[k], choices[k], z);
  }

  /** The first `n` schedulers were sent the message. */
  ghost predicate SentUpTo(states: seq<State>, ids: seq<Id>, i: nat, j: nat, z: Id, n: nat, m: Msg)
    requires i <= j <= |ids| && |states| == |ids| + 1
  {
    forall v: Id :: v < n ==> SentTo(states, ids, i, j, z, v, m)
  }

  lemma SentMore(states: seq<State>, ids: seq<Id>, i: nat, j: nat, z: Id)
    requires i < j <= |ids| && |states| == |ids| + 1
    requires z < |states[j - 1].pcs| && states[j - 1].pcs[z].Broadcast? && Proceeds(states[j - 1], states[j], ids[j - 1], z)
    requires SentUpTo(states, ids, i, j - 1, z, states[j - 1].pcs[z].k, states[j - 1].pcs[z].msg)
    ensures var n := states[j - 1].pcs[z].k;
      SentUpTo(states, ids, i, j, z, if ids[j - 1] == z then n + 1 else n, states[j - 1].pcs[z].msg)
  {
    var n, m := states[j - 1].pcs[z].k, states[j - 1].pcs[z].msg;
    forall v: Id | v < n ensures SentTo(states, ids, i, j, z, v, m) { SentLater(states, ids, i, j, z, v, m); }
    if ids[j - 1] == z { SentNow(states, ids, i, j, z, n, m); }
  }

  /** The steps from `i` to `j`, seen by the broadcast. */
  predicate Proceeding(states: seq<State>, ids: seq<Id>, i: nat, j: nat, z: Id)
    requires i <= j <= |ids| && |states| == |ids| + 1 && Broadcasting(states, i, j, z)
  {
    forall k :: i <= k < j ==> Proceeds(states[k], states[k + 1], ids[k], z)
  }

  lemma {:induction false} BroadcastSoFar(states: seq<State>, ids: seq<Id>, i: nat, j: nat, z: Id)
    requires i <= j <= |ids| && |states| == |ids| + 1 && Broadcasting(states, i, j, z)
    requires Proceeding(states, ids, i, j, z) && states[i].pcs[z].k == 0
    ensures states[j].pcs[z].msg == states[i].pcs[z].msg && |states[j].pcs| == |states[i].pcs|
    ensures SentUpTo(states, ids, i, j, z, states[j].pcs[z].k, states[i].pcs[z].msg)
    decreases j
  {
    if i < j {
      BroadcastSoFar(states, ids, i, j - 1, z);
      SentMore(states, ids, i, j, z);
    }
  }

  lemma BroadcastOver(states: seq<State>, ids: seq<Id>, i: nat, j: nat, z: Id)
    requires i <= j < |ids| && |states| == |ids| + 1 && Broadcasting(states, i, j, z)
    requires Proceeding(states, ids, i, j, z) && states[i].pcs[z].k == 0
    requires Proceeds(states[j], states[j + 1], ids[j], z) && !states[j + 1].pcs[z].Broadcast?
    ensures SentUpTo(states, ids, i, j + 1, z, |states[i].pcs|, states[i].pcs[z].msg)
  {
    BroadcastSoFar(states, ids, i, j, z);
    SentMore(states, ids, i, j + 1, z);
  }

  lemma RunProceeds(states: seq<State>, ids: seq<Id>, choices: seq<Choice>, i: nat, j: nat, z: Id)
    requires Run(states, ids, choices) && i <= j <= |ids| && Broadcasting(states, i, j, z)
    ensures Proceeding(states, ids, i, j, z)
  {
    forall k | i <= k < j ensures Proceeds(states[k], states[k + 1], ids[k], z) {
      RunBroadcast(states, ids, choices, k, z);
    }
  }

  /** A broadcast reaches every scheduler: when it has ended, its message was sent
      to each of them. */
  lemma BroadcastReachesAll(states: seq<State>, ids: seq<Id>, choices: seq<Choice>, i: nat, j: nat, z: Id, v: Id)
    requires Run(states, ids, choices) && i <= j < |ids| && Broadcasting(states, i, j, z) && states[i].pcs[z].k == 0
    requires z < |states[j + 1].pcs| && !states[j + 1].pcs[z].Broadcast? && v < |states[i].pcs|
    ensures SentTo(states, ids, i, j + 1, z, v, states[i].pcs[z].msg)
  {
    RunProceeds(states, ids, choices, i, j, z);
    RunBroadcast(states, ids, choices, j, z);
    BroadcastOver(states, ids, i, j, z);
  }

  // ---------- TERMINATE ----------

  /** The scheduler was told to stop: the message is in its queue, or was read. */
  predicate Told(s: State, v: Id)
    requires Shape(s)
  {
    v < |s.mqs| && (Terminate in s.mqs[v] || s.stop[v])
  }

  /** A message stays in its queue until it is the first one and the scheduler
      reads it. */
  lemma MailStep(s: State, i: Id, c: Choice, v: Id)
    requires Enabled(s, i, c) && v < |s.pcs|
    ensures Shape(Step(s, i, c)) && |Step(s, i, c).mqs| == |s.mqs|
    ensures (if i == v && s.pcs[i].Read? && s.mqs[v] != [] then s.mqs[v][1..] else s.mqs[v]) <= Step(s, i, c).mqs[v]
  {
  }

  lemma StopStep(s: State, i: Id, c: Choice, v: Id)
    requires Enabled(s, i, c) && v < |s.pcs|
    ensures |Step(s, i, c).stop| == |s.stop|
    ensures Step(s, i, c).stop[v] <==>
      s.stop[v] || (i == v && s.pcs[i].Read? && s.mqs[v] != [] && s.mqs[v][0] == Terminate)
  {
  }

  lemma ToldStep(s: State, i: Id, c: Choice, v: Id)
    requires Enabled(s, i, c) && Told(s, v)
    ensures Shape(Step(s, i, c)) && Told(Step(s, i, c), v)
  {
    MailStep(s, i, c, v);
    StopStep(s, i, c, v);
  }

  lemma StepShape(s: State, i: Id, c: Choice)
    requires Enabled(s, i, c)
    ensures Shape(Step(s, i, c)) && |Step(s, i, c).pcs| == |s.pcs|
  {
  }

  lemma {:induction false} RunShape(states: seq<State>, ids: seq<Id>, choices: seq<Choice>, k: nat)
    requires Run(states, ids, choices) && k < |states|
    ensures Shape(states[k]) && |states[k].pcs| == |states[0].pcs|
  {
    if k > 0 {
      RunShape(states, ids, choices, k - 1);
      RunStep(states, ids, choices, k - 1);
      StepShape(states[k - 1], ids[k - 1], choices[k - 1]);
    }
  }

  /** How far the broadcast of TERMINATE has come, if it is under way. */
  function EndFrom(s: State): nat
    requires Shape(s)
  {
    if s.pcs[0].Broadcast? && s.pcs[0].msg.Terminate? then s.pcs[0].k else |s.pcs|
  }

  /** The schedulers that a broadcast of TERMINATE has passed were told, or all
      were. */
  ghost predicate Ending(s: State) {
    Shape(s) && forall v: Id :: v < EndFrom(s) && v < |s.pcs| ==> Told(s, v)
  }

  lemma EndFromStep(s: State, i: Id, c: Choice, v: Id)
    requires Enabled(s, i, c) && Shape(Step(s, i, c)) && v < EndFrom(Step(s, i, c)) && v < |s.pcs|
    ensures v < EndFrom(s) || Told(Step(s, i, c), v)
  {
    if s.pcs[0].Broadcast? && s.pcs[0].k < |s.pcs| { StepBroadcast(s, i, c, 0); }
  }

  lemma EndingStep(s: State, i: Id, c: Choice)
    requires Enabled(s, i, c) && Ending(s)
    ensures Ending(Step(s, i, c))
  {
    var s' := Step(s, i, c);
    StepShape(s, i, c);
    forall v: Id | v < EndFrom(s') && v < |s'.pcs| ensures Told(s', v) {
      EndFromStep(s, i, c, v);
      if Told(s, v) { ToldStep(s, i, c, v); }
    }
  }

  /** From the start of a broadcast of TERMINATE on, every scheduler that it has
      passed has the message or has read it, and in the end all have. */
  lemma {:induction false} AllTold(states: seq<State>, ids: seq<Id>, choices: seq<Choice>, j: nat, k: nat)
    requires Run(states, ids, choices) && j <= k < |states| && states[j].pcs != []
    requires states[j].pcs[0].Broadcast? && states[j].pcs[0].msg.Terminate? && states[j].pcs[0].k == 0
    ensures Ending(states[k])
    decreases k
  {
    if j == k {
      RunShape(states, ids, choices, k);
    } else {
      AllTold(states, ids, choices, j, k - 1);
      RunStep(states, ids, choices, k - 1);
      EndingStep(states[k - 1], ids[k - 1], choices[k - 1]);
    }
  }

  /** The scheduler is in read_msg. */
  predicate Reading(pc: Pc) {
    pc.Read? || (pc.Broadcast? && pc.reading)
  }

  /** A scheduler reads until its queue is empty: it does not go on before. */
  lemma ReadsAll(states: seq<State>, ids: seq<Id>, choices: seq<Choice>, k: nat)
    requires Run(states, ids, choices) && k < |ids| && ids[k] < |states[k].pcs| && Reading(states[k].pcs[ids[k]])
    ensures |states[k + 1].pcs| == |states[k].pcs| == |states[k].mqs|
    ensures var pc, pc', q := states[k].pcs[ids[k]], states[k + 1].pcs[ids[k]], states[k].mqs[ids[k]];
      (Reading(pc') <==> pc.Broadcast? || q != []) && (!Reading(pc') ==> pc'.Decide?)
  {
    RunStep(states, ids, choices, k);
  }

  // ---------- CNF and ACK ----------

  /** The CNF for scheduler `j` is yet to be sent. */
  predicate Unsent(s: State, j: Id) {
    s.pcs != [] && s.pcs[0].Broadcast? && s.pcs[0].msg.Cnf? && s.pcs[0].k <= j
  }

  /** The CNF of the current token is in the queue of scheduler `j`, or its ACK is
      under way or counted. */
  predicate Answering(mqs: seq<seq<Msg>>, z: Zero, j: Id) {
    j < |mqs| && (Cnf(z.token) in mqs[j] || Ack(j, z.token) in mqs[0] || j in z.ackers)
  }

  predicate Outstanding(s: State, j: Id) {
    s.z.round ==> Unsent(s, j) || Answering(s.mqs, s.z, j)
  }

  lemma WorkOutstanding(s: State, i: Id, c: Choice, j: Id)
    requires Enabled(s, i, c) && j < |s.pcs| && Outstanding(s, j)
    requires !s.pcs[i].Read? && !s.pcs[i].Broadcast? && !s.pcs[i].Decide?
    ensures Outstanding(Step(s, i, c), j)
  {
  }

  lemma ReadCnf(s: State, i: Id, c: Choice, j: Id)
    requires Enabled(s, i, c) && j < |s.pcs| && Outstanding(s, j)
    requires s.pcs[i].Read? && s.mqs[i] != [] && s.mqs[i][0].Cnf?
    ensures Outstanding(Step(s, i, c), j)
  {
    var m, q := s.mqs[i][0], s.mqs[i];
    assert q == [m] + q[1..];
    var s' := Step(s, i, c);
    assert s'.pcs == s.pcs && s'.z == s.z;
    assert forall x :: x in s.mqs[j] && !x.Cnf? ==> x in s'.mqs[j];
  }

  lemma ReadAck(s: State, c: Choice, j: Id)
    requires Enabled(s, 0, c) && j < |s.pcs| && Outstanding(s, j)
    requires s.pcs[0].Read? && s.mqs[0] != [] && s.mqs[0][0].Ack?
    ensures Outstanding(Step(s, 0, c), j)
  {
  }

  lemma ReadBlock(s: State, c: Choice, j: Id)
    requires Enabled(s, 0, c) && j < |s.pcs| && !s.z.round
    requires s.pcs[0].Read? && s.mqs[0] != [] && s.mqs[0][0].Block?
    ensures Outstanding(Step(s, 0, c), j)
  {
  }

  lemma ReadOther(s: State, i: Id, c: Choice, j: Id)
    requires Enabled(s, i, c) && j < |s.pcs| && Outstanding(s, j) && s.pcs[i].Read?
    requires s.mqs[i] == [] || s.mqs[i][0].Terminate? || s.mqs[i][0].Unblock?
    ensures Outstanding(Step(s, i, c), j)
  {
  }

  lemma ReadOutstanding(s: State, i: Id, c: Choice, j: Id)
    requires Inv(s) && Enabled(s, i, c) && j < |s.pcs| && Outstanding(s, j) && s.pcs[i].Read?
    ensures Outstanding(Step(s, i, c), j)
  {
    if s.mqs[i] == [] || s.mqs[i][0].Terminate? || s.mqs[i][0].Unblock? {
      ReadOther(s, i, c, j);
    } else if s.mqs[i][0].Cnf? {
      ReadCnf(s, i, c, j);
    } else {
      assert i == 0;
      if s.mqs[0][0].Ack? {
        ReadAck(s, c, j);
      } else {
        CountedBase(s, s.mqs[0][0].sender);
        ReadBlock(s, c, j);
      }
    }
  }

  lemma SendOutstanding(s: State, c: Choice, j: Id)
    requires Inv(s) && Enabled(s, 0, c) && j < |s.pcs| && Outstanding(s, j) && s.pcs[0].Broadcast?
    ensures Outstanding(Step(s, 0, c), j)
  {
    StepBroadcast(s, 0, c, 0);
  }

  lemma DecideOutstanding(s: State, i: Id, c: Choice, j: Id)
    requires Enabled(s, i, c) && j < |s.pcs| && Outstanding(s, j) && s.pcs[i].Decide?
    ensures Outstanding(Step(s, i, c), j)
  {
  }

  lemma OutstandingStep(s: State, i: Id, c: Choice, j: Id)
    requires Inv(s) && Enabled(s, i, c) && j < |s.pcs| && Outstanding(s, j)
    ensures Outstanding(Step(s, i, c), j)
  {
    if s.pcs[i].Read? {
      ReadOutstanding(s, i, c, j);
    } else if s.pcs[i].Broadcast? {
      assert i == 0;
      SendOutstanding(s, c, j);
    } else if s.pcs[i].Decide? {
      DecideOutstanding(s, i, c, j);
    } else {
      WorkOutstanding(s, i, c, j);
    }
  }

  /** While a round is on, its CNF for a scheduler is yet to be sent or is in the
      queue of that scheduler, or the ACK of that scheduler is under way or
      counted. */
  lemma {:induction false} NothingLost(states: seq<State>, ids: seq<Id>, choices: seq<Choice>, k: nat, j: Id)
    requires Run(states, ids, choices) && k < |states| && j < |states[k].pcs|
    ensures Outstanding(states[k], j)
  {
    if k > 0 {
      RunShape(states, ids, choices, k);
      RunShape(states, ids, choices, k - 1);
      NothingLost(states, ids, choices, k - 1, j);
      RunInv(states, ids, choices, k - 1);
      RunStep(states, ids, choices, k - 1);
      OutstandingStep(states[k - 1], ids[k - 1], choices[k - 1], j);
    }
  }

  // ---------- The protocol does not get stuck ----------

  /** The schedulers look for quiescence all the time. */
  ghost predicate Detecting(states: seq<State>, ids: seq<Id>, choices: seq<Choice>)
    requires Run(states, ids, choices)
  {
    forall k {:trigger choices[k]} :: 0 <= k < |ids| && ids[k] < |states[k].pcs| && states[k].pcs[ids[k]].Read? ==>
      choices[k].flag
  }

  /** When all count as blocked, a round is on or the schedulers are being told to
      stop. */
  ghost predicate Alert(s: State) {
    s.z.blocked == |s.pcs| ==> s.z.round || Ending(s)
  }

  lemma AlertStep(s: State, i: Id, c: Choice)
    requires Inv(s) && Enabled(s, i, c) && Alert(s) && (s.pcs[i].Read? ==> c.flag)
    ensures Alert(Step(s, i, c))
  {
    StepShape(s, i, c);
    if Ending(s) {
      EndingStep(s, i, c);
    } else {
      AlertOther(s, i, c);
    }
  }

  lemma BlockedBound(s: State)
    requires Inv(s)
    ensures s.z.blocked <= |s.pcs|
  {
    var rest := Ids(|s.pcs|) - s.z.view;
    assert Ids(|s.pcs|) == s.z.view + rest;
    assert |Ids(|s.pcs|)| == |s.z.view| + |rest|;
  }

  lemma AlertOther(s: State, i: Id, c: Choice)
    requires Inv(s) && Enabled(s, i, c) && Alert(s) && (s.pcs[i].Read? ==> c.flag) && !Ending(s)
    ensures Alert(Step(s, i, c))
  {
    var s' := Step(s, i, c);
    BlockedBound(s);
    if s.pcs[i].Decide? {
      DecideAlert(s, i, c);
    } else if s.pcs[i].Read? && s.mqs[i] != [] && i == 0 && s.mqs[0][0].Block? {
      BlockIs(s, c, s.mqs[0][0].sender);
    } else {
      assert (s'.z.blocked == s.z.blocked && s'.z.round == s.z.round) || s'.z.blocked == s.z.blocked - 1;
    }
  }

  lemma DecideAlert(s: State, i: Id, c: Choice)
    requires Enabled(s, i, c) && s.pcs[i].Decide? && Alert(s) && !Ending(s)
    ensures Alert(Step(s, i, c))
  {
    StepShape(s, i, c);
    var s' := Step(s, i, c);
    if i == 0 && !s.stop[0] && s.z.acks == |s.pcs| && s.z.asioStopped { assert EndFrom(s') == 0; }
  }

  lemma {:induction false} RunAlert(states: seq<State>, ids: seq<Id>, choices: seq<Choice>, k: nat)
    requires Run(states, ids, choices) && Detecting(states, ids, choices) && k < |states|
    ensures Alert(states[k])
  {
    if k > 0 {
      RunAlert(states, ids, choices, k - 1);
      RunInv(states, ids, choices, k - 1);
      RunStep(states, ids, choices, k - 1);
      AlertStep(states[k - 1], ids[k - 1], choices[k - 1]);
    }
  }

  lemma AllBlocked(s: State)
    requires Inv(s) && Dead(s) && s.mqs[0] == []
    ensures s.z.blocked == |s.pcs|
  {
    forall v: Id ensures v in s.z.view <==> v in Ids(|s.pcs|) {
      if v < |s.pcs| { assert ViewOf(s.mqs[0], s.z.view, v, s.pcs[v]); }
    }
    assert s.z.view == Ids(|s.pcs|);
  }

  /** When all schedulers are idle with empty run queues and every message is read,
      all have been told to stop, or scheduler 0 has the acknowledgements of
      all. */
  lemma NeverStuck(states: seq<State>, ids: seq<Id>, choices: seq<Choice>, k: nat)
    requires Run(states, ids, choices) && Detecting(states, ids, choices) && k < |states| && Dead(states[k])
    requires Shape(states[k]) && !states[k].pcs[0].Broadcast?
    requires forall v :: 0 <= v < |states[k].mqs| ==> states[k].mqs[v] == []
    ensures (forall v :: 0 <= v < |states[k].stop| ==> states[k].stop[v]) || states[k].z.acks == |states[k].pcs|
  {
    var s := states[k];
    RunInv(states, ids, choices, k);
    RunAlert(states, ids, choices, k);
    AllBlocked(s);
    if Ending(s) {
      forall v: Id | v < |s.stop| ensures s.stop[v] { assert Told(s, v); }
    } else {
      forall v: Id | v < |s.pcs| ensures v in s.z.ackers { NothingLost(states, ids, choices, k, v); }
      assert s.z.ackers == Ids(|s.pcs|);
    }
  }

  /** Scheduler 0 acts on the acknowledgements of all: it starts another round with
      a new token, once asio_stop has answered, and tells the schedulers to stop after
      the second round. A scheduler that was told stops. */
  lemma Decides(states: seq<State>, ids: seq<Id>, choices: seq<Choice>, k: nat)
    requires Run(states, ids, choices) && k < |ids| && ids[k] < |states[k].pcs| && states[k].pcs[ids[k]].Decide?
    ensures |states[k + 1].pcs| == |states[k].pcs| == |states[k].stop|
    ensures var s, s', i := states[k], states[k + 1], ids[k];
      && (s'.pcs[i].Stopped? <==> s.stop[i])
      && (i == 0 && !s.stop[0] && s.z.acks == |s.pcs| && s.z.asioStopped ==>
            s'.pcs[0].Broadcast? && s'.pcs[0].k == 0 && s'.pcs[0].msg == Terminate)
      && (i == 0 && !s.stop[0] && s.z.acks == |s.pcs| && !s.z.asioStopped && choices[k].flag ==>
            && s'.pcs[0].Broadcast? && s'.pcs[0].k == 0 && s'.pcs[0].msg == Cnf(s.z.token + 1)
            && s'.z.token == s.z.token + 1 && s'.z.asioStopped)
  {
    RunStep(states, ids, choices, k);
  }
}
