/** What it means that a run is one of a sequential queue, and that a call of it
    takes effect at one moment. */
module FifoHistory {

  import opened Basics
  import opened History

  datatype Effect = Append(key: int) | Remove(key: int)

  type Steps = seq<Event<Effect, seq<int>>>

  /** The answers of enqueue and dequeue. */
  datatype Answer = Added(key: int) | Took(key: int) | Empty

  /** What a queue does: append a key, or take the first one. */
  predicate Effected(before: seq<int>, e: Option<Effect>, after: seq<int>) {
    match e
    case None => after == before
    case Some(Append(key)) => after == before + [key]
    case Some(Remove(key)) => before == [key] + after
  }

  /** The history is one of a sequential queue. */
  predicate Replays(hist: Steps) {
    && |hist| > 0 && hist[0].after == []
    && forall j :: 1 <= j < |hist| ==> Effected(hist[j - 1].after, hist[j].effect, hist[j].after)
  }

  /** The effect of a call that changes the contents. */
  function EffectFor(answer: Answer): Effect
    requires answer != Empty
  {
    if answer.Added? then Append(answer.key) else Remove(answer.key)
  }

  /** The call of thread `t` takes effect with event `j`: an enqueue appends its
      key by a step of its own, a dequeue takes the first key by a step of its
      own, and neither changes the contents by another step; a dequeue that
      answers EMPTY changes nothing, and the queue was empty then. */
  ghost predicate Point(hist: Steps, t: Tid, began: nat, answer: Answer, j: nat) {
    if answer == Empty then began <= j < |hist| && hist[j].after == [] && Quiet(hist, t, began)
    else Only(hist, t, began, j, EffectFor(answer))
  }

  ghost predicate Justified(hist: Steps, t: Tid, began: nat, answer: Answer) {
    exists j: nat :: Point(hist, t, began, answer, j)
  }

  /** The queue was empty at some moment of the call. */
  ghost predicate SawEmpty(hist: Steps, began: nat) {
    exists j :: began <= j < |hist| && hist[j].after == []
  }

  lemma ReplaysMore(hist: Steps, e: Event<Effect, seq<int>>)
    requires Replays(hist) && Effected(hist[|hist| - 1].after, e.effect, e.after)
    ensures Replays(hist + [e])
  {
  }

  lemma SawLater(hist: Steps, e: Event<Effect, seq<int>>, began: nat)
    requires SawEmpty(hist, began)
    ensures SawEmpty(hist + [e], began)
  {
    var j :| began <= j < |hist| && hist[j].after == [];
    assert (hist + [e])[j] == hist[j];
  }

  lemma SawNow(hist: Steps, e: Event<Effect, seq<int>>, began: nat)
    requires began <= |hist| && e.after == []
    ensures SawEmpty(hist + [e], began)
  {
    assert (hist + [e])[|hist|] == e;
  }

  lemma JustifiedLater(hist: Steps, e: Event<Effect, seq<int>>, t: Tid, began: nat, answer: Answer)
    requires Justified(hist, t, began, answer) && (e.who == t ==> e.effect == None)
    ensures Justified(hist + [e], t, began, answer)
  {
    var j: nat :| Point(hist, t, began, answer, j);
    if answer == Empty { QuietLater(hist, e, t, began); } else { OnlyLater(hist, e, t, began, j, EffectFor(answer)); }
    assert Point(hist + [e], t, began, answer, j);
  }

  lemma JustifiedEmpty(hist: Steps, t: Tid, began: nat)
    requires SawEmpty(hist, began) && Quiet(hist, t, began)
    ensures Justified(hist, t, began, Empty)
  {
    var j: nat :| began <= j < |hist| && hist[j].after == [];
    assert Point(hist, t, began, Empty, j);
  }

  lemma JustifiedStep(hist: Steps, e: Event<Effect, seq<int>>, t: Tid, began: nat, answer: Answer)
    requires began <= |hist| && Quiet(hist, t, began) && e.who == t && answer != Empty
    requires e.effect == Some(EffectFor(answer))
    ensures Justified(hist + [e], t, began, answer)
  {
    OnlyNow(hist, e, t, began, EffectFor(answer));
    assert Point(hist + [e], t, began, answer, |hist|);
  }
}
