/** The cycle detector's picture of the actor world: which blocked actors hold
    how many counts on which other actors. A graph maps every blocked actor to
    the counts it holds; actors that are not keys are not blocked and are never
    scanned. */
module ViewGraph {

  const WORD: int := 0x1_0000_0000_0000_0000

  /** The range of the source's size_t. */
  type Size = n: int | 0 <= n < 0x1_0000_0000_0000_0000

  type Actor = nat

  type Graph = map<Actor, map<Actor, Size>>

  function Held(refs: map<Actor, Size>, v: Actor): Size {
    if v in refs then refs[v] else 0
  }

  function Weight(g: Graph, u: Actor, v: Actor): Size {
    if u in g then Held(g[u], v) else 0
  }

  /** Total count that the actors of `s` hold on `v`. */
  ghost function Incoming(g: Graph, s: set<Actor>, v: Actor): nat {
    if s == {} then 0 else
      var u :| u in s;
      Weight(g, u, v) + Incoming(g, s - {u}, v)
  }

  lemma {:induction false} IncomingRemove(g: Graph, s: set<Actor>, x: Actor, v: Actor)
    requires x in s
    ensures Incoming(g, s, v) == Weight(g, x, v) + Incoming(g, s - {x}, v)
    decreases s
  {
    var u :| u in s && Incoming(g, s, v) == Weight(g, u, v) + Incoming(g, s - {u}, v);
    if u != x {
      IncomingRemove(g, s - {u}, x, v);
      assert s - {u} - {x} == s - {x} - {u};
      IncomingRemove(g, s - {x}, u, v);
    }
  }

  /** Actors without a count on `v` do not matter. */
  lemma {:induction false} IncomingDrop(g: Graph, s: set<Actor>, d: set<Actor>, v: Actor)
    requires forall u :: u in d ==> Weight(g, u, v) == 0
    ensures Incoming(g, s, v) == Incoming(g, s - d, v)
    decreases d
  {
    if d == {} {
      assert s - d == s;
    } else {
      var x :| x in d;
      if x in s { IncomingRemove(g, s, x, v); }
      assert s - {x} == if x in s then s - {x} else s;
      IncomingDrop(g, s - {x}, d - {x}, v);
      assert s - {x} - (d - {x}) == s - d;
    }
  }

  // ---------- Reachability through blocked actors ----------

  ghost predicate IsPath(g: Graph, a: Actor, b: Actor, p: seq<Actor>) {
    && |p| > 0 && p[0] == a && p[|p| - 1] == b
    && (forall i :: 0 <= i < |p| ==> p[i] in g)
    && (forall i {:trigger g[p[i]]} :: 0 <= i < |p| - 1 ==> p[i + 1] in g[p[i]])
  }

  ghost predicate Reach(g: Graph, a: Actor, b: Actor) {
    exists p :: IsPath(g, a, b, p)
  }

  /** The part of the graph that a scan from `root` visits. */
  ghost function Region(g: Graph, root: Actor): set<Actor> {
    set v | v in g && Reach(g, root, v)
  }

  lemma ReachSelf(g: Graph, a: Actor)
    requires a in g
    ensures Reach(g, a, a)
  {
    assert IsPath(g, a, a, [a]);
  }

  lemma ReachStep(g: Graph, a: Actor, u: Actor, v: Actor)
    requires Reach(g, a, u) && u in g && v in g && v in g[u]
    ensures Reach(g, a, v)
  {
    var p :| IsPath(g, a, u, p);
    assert IsPath(g, a, v, p + [v]);
  }

  /** A set closed under references from blocked actor to blocked actor. */
  ghost predicate Closed(g: Graph, s: set<Actor>) {
    forall u, v :: u in s && u in g && v in g && v in g[u] ==> v in s
  }

  lemma {:induction false} ClosedPath(g: Graph, s: set<Actor>, a: Actor, b: Actor, p: seq<Actor>)
    requires Closed(g, s) && a in s && IsPath(g, a, b, p)
    ensures b in s
    decreases |p|
  {
    if |p| > 1 {
      var q := p[..|p| - 1];
      assert IsPath(g, a, q[|q| - 1], q);
      ClosedPath(g, s, a, q[|q| - 1], q);
      assert p[|q| - 1 + 1] in g[p[|q| - 1]];
    }
  }

  lemma ClosedReach(g: Graph, s: set<Actor>, a: Actor, b: Actor)
    requires Closed(g, s) && a in s && Reach(g, a, b)
    ensures b in s
  {
    var p :| IsPath(g, a, b, p);
    ClosedPath(g, s, a, b, p);
  }

  lemma RegionClosed(g: Graph, root: Actor)
    ensures Closed(g, Region(g, root))
  {
    forall u, v | u in Region(g, root) && u in g && v in g && v in g[u]
      ensures v in Region(g, root)
    {
      ReachStep(g, root, u, v);
    }
  }

  // ---------- What a scan is supposed to find ----------

  /** A scanned actor whose count is not explained by the scanned actors. */
  ghost predicate External(g: Graph, rc: map<Actor, Size>, root: Actor, x: Actor) {
    && x in Region(g, root) && x in rc
    && rc[x] != Incoming(g, Region(g, root), x) % WORD
  }

  ghost predicate ReachedFromOutside(g: Graph, rc: map<Actor, Size>, root: Actor, v: Actor) {
    exists x :: External(g, rc, root, x) && Reach(g, x, v)
  }

  /** The scanned actors that nothing outside the scan keeps alive. */
  ghost function Garbage(g: Graph, rc: map<Actor, Size>, root: Actor): set<Actor> {
    set v | v in Region(g, root) && !ReachedFromOutside(g, rc, root, v)
  }
}
