/** Histories of concurrent runs: one event for every step, with the thread that
    took it, what it did to the abstract object, and the value that it left. */
module History {

  import opened Basics

  type Tid = nat

  datatype Event<E, A> = Event(who: Tid, effect: Option<E>, after: A)

  /** The thread has not changed the object since its call began. */
  ghost predicate Quiet<E, A>(hist: seq<Event<E, A>>, t: Tid, began: nat) {
    forall j :: began <= j < |hist| && hist[j].who == t ==> hist[j].effect == None
  }

  /** Event `j` is the one step of the call that changed the object. */
  ghost predicate Only<E, A>(hist: seq<Event<E, A>>, t: Tid, began: nat, j: nat, e: E) {
    && began <= j < |hist| && hist[j].who == t && hist[j].effect == Some(e)
    && forall k :: began <= k < |hist| && k != j && hist[k].who == t ==> hist[k].effect == None
  }

  lemma QuietLater<E, A>(hist: seq<Event<E, A>>, event: Event<E, A>, t: Tid, began: nat)
    requires Quiet(hist, t, began) && (event.who == t ==> event.effect == None)
    ensures Quiet(hist + [event], t, began)
  {
  }

  lemma OnlyLater<E, A>(hist: seq<Event<E, A>>, event: Event<E, A>, t: Tid, began: nat, j: nat, e: E)
    requires Only(hist, t, began, j, e) && (event.who == t ==> event.effect == None)
    ensures Only(hist + [event], t, began, j, e)
  {
  }

  lemma OnlyNow<E, A>(hist: seq<Event<E, A>>, event: Event<E, A>, t: Tid, began: nat, e: E)
    requires began <= |hist| && Quiet(hist, t, began) && event.who == t && event.effect == Some(e)
    ensures Only(hist + [event], t, began, |hist|, e)
  {
  }

  /** Two calls that changed the object did so by different steps, if they are of
      different threads or the second began after the first had ended. */
  lemma Apart<E, A>(hist: seq<Event<E, A>>, t: Tid, began: nat, j: nat, e: E,
                    more: seq<Event<E, A>>, u: Tid, later: nat, l: nat, f: E)
    requires Only(hist, t, began, j, e) && Only(more, u, later, l, f) && hist <= more
    requires t != u || |hist| <= later
    ensures j != l
  {
    assert more[j] == hist[j];
  }
}
