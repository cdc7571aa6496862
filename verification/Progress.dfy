/** Counting the steps of one thread in a run: a rank that falls with every step of
    the thread and does not grow with the steps of others bounds their number. */
module Progress {

  import opened History

  /** How many of the steps from `i` to `j` thread `t` takes. */
  function Taken(tids: seq<Tid>, i: nat, j: nat, t: Tid): nat
    requires i <= j <= |tids|
  {
    if i == j then 0 else Taken(tids, i, j - 1, t) + if tids[j - 1] == t then 1 else 0
  }

  /** The rank in the states from `i` to `j` falls with every step of the thread. */
  predicate Falls(ranks: seq<int>, tids: seq<Tid>, i: nat, j: nat, t: Tid)
    requires i <= j <= |tids| && |ranks| == |tids| + 1
  {
    forall k :: i <= k < j ==> ranks[k + 1] + (if tids[k] == t then 1 else 0) <= ranks[k]
  }

  lemma {:induction false} TakenBound(ranks: seq<int>, tids: seq<Tid>, i: nat, j: nat, t: Tid)
    requires i <= j <= |tids| && |ranks| == |tids| + 1 && Falls(ranks, tids, i, j, t)
    ensures Taken(tids, i, j, t) + ranks[j] <= ranks[i]
    decreases j
  {
    if i < j {
      TakenBound(ranks, tids, i, j - 1, t);
      assert ranks[j - 1 + 1] + (if tids[j - 1] == t then 1 else 0) <= ranks[j - 1];
    }
  }
}
