/** What the four traversals of trial deletion keep true, stated on values.
    `g` is the graph being scanned, `rc0` the counts before the scan and `rc`
    the counts now. `live` is the set of actors that are grey or white, and
    `on` the set of actors that the explicit stack mentions. */
module TrialDeletion {
  import opened ViewGraph

  type Counts = map<Actor, Size>

  datatype Ref = Ref(actor: Actor, rc: Size)

  /** Count that the stacked references still have to move for `v`. */
  function Pending(work: seq<Ref>, v: Actor): nat {
    if work == [] then 0
    else Pending(work[..|work| - 1], v)
         + if work[|work| - 1].actor == v then work[|work| - 1].rc else 0
  }

  function OnStack(work: seq<Ref>): set<Actor> {
    if work == [] then {} else OnStack(work[..|work| - 1]) + {work[|work| - 1].actor}
  }

  /** `next` is `work` with one reference pushed for every entry of `refs`. */
  ghost predicate Pushed(work: seq<Ref>, next: seq<Ref>, refs: map<Actor, Size>) {
    && OnStack(next) == OnStack(work) + refs.Keys
    && (forall v :: Pending(next, v) == Pending(work, v) + Held(refs, v))
  }

  /** The list holds the references in some order, each one once. */
  ghost predicate Lists(refs: map<Actor, Size>, list: seq<Ref>) {
    && (forall i :: 0 <= i < |list| ==> list[i].actor in refs && list[i].rc == refs[list[i].actor])
    && (forall i, j :: 0 <= i < j < |list| ==> list[i].actor != list[j].actor)
    && (forall a :: a in refs ==> Ref(a, refs[a]) in list)
  }

  lemma ModShift(x: int, d: int)
    ensures (x % WORD + d) % WORD == (x + d) % WORD
  {
    var q := x / WORD;
    assert x == q * WORD + x % WORD;
  }

  lemma ModZero(r: Size, n: nat)
    ensures (r - n) % WORD == 0 <==> r == n % WORD
  {
    var q := n / WORD;
    assert n == q * WORD + n % WORD;
    if (r - n) % WORD == 0 {
      var k := (r - n) / WORD;
      assert r == n % WORD + (k + q) * WORD;
    }
  }

  // ---------- Counts: every live actor's references are taken off ----------

  /** The count of `v` while greying; stacked references are not taken off yet. */
  ghost function TakenOff(g: Graph, live: set<Actor>, r: Size, work: seq<Ref>, v: Actor): Size {
    (r - Incoming(g, live, v) + Pending(work, v)) % WORD
  }

  /** The count of `v` while blackening; stacked references are not back yet. */
  ghost function GivenBack(g: Graph, live: set<Actor>, r: Size, work: seq<Ref>, v: Actor): Size {
    (r - Incoming(g, live, v) - Pending(work, v)) % WORD
  }

  ghost predicate GreyCounted(g: Graph, live: set<Actor>, rc0: Counts, rc: Counts, work: seq<Ref>) {
    && g.Keys <= rc0.Keys == rc.Keys
    && (forall v :: v in rc0 && v !in g ==> rc[v] == rc0[v])
    && forall v {:trigger TakenOff(g, live, rc0[v], work, v)} :: v in g ==> rc[v] == TakenOff(g, live, rc0[v], work, v)
  }

  ghost predicate BlackCounted(g: Graph, live: set<Actor>, rc0: Counts, rc: Counts, work: seq<Ref>) {
    && g.Keys <= rc0.Keys == rc.Keys
    && (forall v :: v in rc0 && v !in g ==> rc[v] == rc0[v])
    && forall v {:trigger GivenBack(g, live, rc0[v], work, v)} :: v in g ==> rc[v] == GivenBack(g, live, rc0[v], work, v)
  }

  lemma TakenOffStep(g: Graph, live: set<Actor>, r: Size, work: seq<Ref>, top: Ref, next: seq<Ref>, v: Actor)
    requires top.actor in g
    requires if top.actor in live then next == work else Pushed(work, next, g[top.actor])
    ensures TakenOff(g, live + {top.actor}, r, next, v)
         == (TakenOff(g, live, r, work + [top], v) - if v == top.actor then top.rc else 0) % WORD
  {
    var a := top.actor;
    assert (work + [top])[..|work|] == work;
    if a in live {
      assert live + {a} == live;
    } else {
      IncomingRemove(g, live + {a}, a, v);
      assert live + {a} - {a} == live;
    }
    ModShift(r - Incoming(g, live, v) + Pending(work + [top], v), if v == a then 0 - top.rc else 0);
  }

  lemma GivenBackStep(g: Graph, live: set<Actor>, r: Size, work: seq<Ref>, top: Ref, next: seq<Ref>, v: Actor)
    requires top.actor in g
    requires if top.actor in live then Pushed(work, next, g[top.actor]) else next == work
    ensures GivenBack(g, live - {top.actor}, r, next, v)
         == (GivenBack(g, live, r, work + [top], v) + if v == top.actor then top.rc else 0) % WORD
  {
    var a := top.actor;
    assert (work + [top])[..|work|] == work;
    if a in live {
      IncomingRemove(g, live, a, v);
    } else {
      assert live - {a} == live;
    }
    ModShift(r - Incoming(g, live, v) - Pending(work + [top], v), if v == a then top.rc else 0);
  }

  /** mark_grey on a blocked actor takes off one reference; the first visit
      also puts the actor's own references on the stack. */
  lemma GreyCountStep(g: Graph, live: set<Actor>, rc0: Counts, rc: Counts, work: seq<Ref>, top: Ref, next: seq<Ref>)
    requires GreyCounted(g, live, rc0, rc, work + [top]) && top.actor in g
    requires if top.actor in live then next == work else Pushed(work, next, g[top.actor])
    ensures GreyCounted(g, live + {top.actor}, rc0, rc[top.actor := (rc[top.actor] - top.rc) % WORD], next)
  {
    var rc' := rc[top.actor := (rc[top.actor] - top.rc) % WORD];
    forall v | v in g ensures rc'[v] == TakenOff(g, live + {top.actor}, rc0[v], next, v) {
      TakenOffStep(g, live, rc0[v], work, top, next, v);
      assert rc[v] == TakenOff(g, live, rc0[v], work + [top], v);
    }
  }

  /** mark_black on a blocked actor gives one reference back. */
  lemma BlackCountStep(g: Graph, live: set<Actor>, rc0: Counts, rc: Counts, work: seq<Ref>, top: Ref, next: seq<Ref>)
    requires BlackCounted(g, live, rc0, rc, work + [top]) && top.actor in g
    requires if top.actor in live then Pushed(work, next, g[top.actor]) else next == work
    ensures BlackCounted(g, live - {top.actor}, rc0, rc[top.actor := (rc[top.actor] + top.rc) % WORD], next)
  {
    var rc' := rc[top.actor := (rc[top.actor] + top.rc) % WORD];
    forall v | v in g ensures rc'[v] == GivenBack(g, live - {top.actor}, rc0[v], next, v) {
      GivenBackStep(g, live, rc0[v], work, top, next, v);
      assert rc[v] == GivenBack(g, live, rc0[v], work + [top], v);
    }
  }

  /** References to actors that are not blocked move no count. */
  lemma CountSkip(g: Graph, live: set<Actor>, rc0: Counts, rc: Counts, work: seq<Ref>, top: Ref)
    requires top.actor !in g
    ensures GreyCounted(g, live, rc0, rc, work + [top]) ==> GreyCounted(g, live, rc0, rc, work)
    ensures BlackCounted(g, live, rc0, rc, work + [top]) ==> BlackCounted(g, live, rc0, rc, work)
  {
    assert (work + [top])[..|work|] == work;
    forall v | v in g
      ensures v in rc0 ==> TakenOff(g, live, rc0[v], work + [top], v) == TakenOff(g, live, rc0[v], work, v)
      ensures v in rc0 ==> GivenBack(g, live, rc0[v], work + [top], v) == GivenBack(g, live, rc0[v], work, v)
    {
    }
  }

  // ---------- scan_grey ----------

  /** Greying from `root` stays inside any closed set that contains `root`. */
  ghost predicate GreyShape(g: Graph, root: Actor, region: set<Actor>, grey: set<Actor>, on: set<Actor>) {
    && grey <= region && grey <= g.Keys
    && (forall v :: v in on && v in g ==> v in region)
    && (root in g ==> root in grey || root in on)
    && (forall u, v :: u in grey && v in g[u] && v in g ==> v in grey || v in on)
  }

  lemma GreyShapeStep(g: Graph, root: Actor, region: set<Actor>, grey: set<Actor>, on: set<Actor>, a: Actor)
    requires GreyShape(g, root, region, grey, on + {a}) && Closed(g, region) && a in g
    ensures GreyShape(g, root, region, grey + {a}, on + g[a].Keys)
    ensures a in grey ==> GreyShape(g, root, region, grey, on)
  {
    assert a in on + {a};
  }

  ghost predicate GreyInv(g: Graph, root: Actor, region: set<Actor>, rc0: Counts,
                          rc: Counts, grey: set<Actor>, work: seq<Ref>) {
    && Closed(g, region)
    && GreyShape(g, root, region, grey, OnStack(work))
    && GreyCounted(g, grey, rc0, rc, work)
  }

  lemma GreyStart(g: Graph, root: Actor, region: set<Actor>, rc0: Counts)
    requires Closed(g, region) && (root in g ==> root in region) && g.Keys <= rc0.Keys
    ensures GreyInv(g, root, region, rc0, rc0, {}, [Ref(root, 0)])
    ensures OnStack([Ref(root, 0)]) == {root}
  {
    assert [Ref(root, 0)][..0] == [];
    forall v | v in g ensures rc0[v] == TakenOff(g, {}, rc0[v], [Ref(root, 0)], v) {
      assert Incoming(g, {}, v) == 0;
      assert Pending([Ref(root, 0)], v) == 0;
    }
  }

  /** One turn of scan_grey's loop. */
  lemma GreyTurn(g: Graph, root: Actor, region: set<Actor>, rc0: Counts, rc: Counts, grey: set<Actor>,
                 work: seq<Ref>, top: Ref, next: seq<Ref>)
    requires GreyInv(g, root, region, rc0, rc, grey, work + [top])
    requires if top.actor in g && top.actor !in grey then Pushed(work, next, g[top.actor]) else next == work
    ensures if top.actor in g
      then GreyInv(g, root, region, rc0, rc[top.actor := (rc[top.actor] - top.rc) % WORD], grey + {top.actor}, next)
      else GreyInv(g, root, region, rc0, rc, grey, next)
  {
    var a := top.actor;
    assert (work + [top])[..|work|] == work;
    if a in g {
      GreyShapeStep(g, root, region, grey, OnStack(work), a);
      if a in grey { assert grey + {a} == grey; }
      GreyCountStep(g, grey, rc0, rc, work, top, next);
    } else {
      CountSkip(g, grey, rc0, rc, work, top);
    }
  }

  lemma GreyDone(g: Graph, root: Actor, grey: set<Actor>)
    requires GreyShape(g, root, Region(g, root), grey, {})
    ensures grey == Region(g, root)
  {
    assert Closed(g, grey);
    forall v | v in Region(g, root) ensures v in grey {
      var p :| IsPath(g, root, v, p);
      assert p[0] in g;
      ClosedReach(g, grey, root, v);
    }
  }

  // ---------- scan_black and collect_white ----------

  /** `base` was black before this blackening started at `start`; what turns
      black stays inside any closed set `cone` that contains `start`. */
  ghost predicate BlackShape(g: Graph, base: set<Actor>, start: Actor, cone: set<Actor>,
                             black: set<Actor>, on: set<Actor>) {
    && base <= black <= g.Keys
    && black <= base + cone
    && (start in g ==> start in black || start in on)
    && (forall v :: v in on && v in g ==> v in cone)
    && (forall u, v :: u in black && v in g[u] && v in g ==> v in black || v in on)
  }

  lemma BlackShapeStep(g: Graph, base: set<Actor>, start: Actor, cone: set<Actor>,
                       black: set<Actor>, on: set<Actor>, a: Actor)
    requires BlackShape(g, base, start, cone, black, on + {a}) && Closed(g, cone) && a in g
    ensures BlackShape(g, base, start, cone, black + {a}, on + g[a].Keys)
    ensures a in black ==> BlackShape(g, base, start, cone, black, on)
  {
    assert a in on + {a};
  }

  /** A blackening of part of `region` from `start`: `live0` is what was not
      black when it began and `rc0` are the counts before the whole scan. */
  datatype Blackening = Blackening(g: Graph, start: Actor, cone: set<Actor>, region: set<Actor>,
                                   rc0: Counts, live0: set<Actor>)

  ghost predicate BlackInv(b: Blackening, rc: Counts, live: set<Actor>, work: seq<Ref>) {
    && live <= b.live0 <= b.region <= b.g.Keys && b.cone <= b.region && Closed(b.g, b.cone)
    && BlackShape(b.g, b.region - b.live0, b.start, b.cone, b.region - live, OnStack(work))
    && BlackCounted(b.g, live, b.rc0, rc, work)
  }

  lemma BlackStart(b: Blackening, rc: Counts)
    requires b.live0 <= b.region <= b.g.Keys && Closed(b.g, b.region - b.live0)
    requires b.cone <= b.region && Closed(b.g, b.cone) && b.start in b.cone
    requires GreyCounted(b.g, b.live0, b.rc0, rc, [])
    ensures BlackInv(b, rc, b.live0, [Ref(b.start, 0)])
    ensures OnStack([Ref(b.start, 0)]) == {b.start}
  {
    var work := [Ref(b.start, 0)];
    assert work[..0] == [];
    forall v | v in b.g ensures rc[v] == GivenBack(b.g, b.live0, b.rc0[v], work, v) {
      assert rc[v] == TakenOff(b.g, b.live0, b.rc0[v], [], v);
      assert Pending(work, v) == 0;
    }
  }

  /** The counts with one reference given back, if it is to a blocked actor. */
  function Restored(blocked: set<Actor>, rc: Counts, top: Ref): Counts {
    if top.actor in blocked && top.actor in rc then rc[top.actor := (rc[top.actor] + top.rc) % WORD] else rc
  }

  /** One turn of the loop in scan_black or collect_white. */
  lemma BlackTurn(b: Blackening, rc: Counts, live: set<Actor>, work: seq<Ref>, top: Ref, next: seq<Ref>)
    requires BlackInv(b, rc, live, work + [top])
    requires if top.actor in live then Pushed(work, next, b.g[top.actor]) else next == work
    ensures BlackInv(b, Restored(b.g.Keys, rc, top), live - {top.actor}, next)
  {
    var a := top.actor;
    assert (work + [top])[..|work|] == work;
    if a in b.g {
      BlackShapeStep(b.g, b.region - b.live0, b.start, b.cone, b.region - live, OnStack(work), a);
      assert a in b.cone;
      assert b.region - (live - {a}) == b.region - live + {a};
      if a !in live { assert b.region - live + {a} == b.region - live; }
      BlackCountStep(b.g, live, b.rc0, rc, work, top, next);
    } else {
      assert live - {a} == live;
      CountSkip(b.g, live, b.rc0, rc, work, top);
    }
  }

  lemma BlackDone(b: Blackening, rc: Counts, live: set<Actor>)
    requires BlackInv(b, rc, live, [])
    ensures GreyCounted(b.g, live, b.rc0, rc, [])
  {
    forall v | v in b.g ensures rc[v] == TakenOff(b.g, live, b.rc0[v], [], v) {
      assert rc[v] == GivenBack(b.g, live, b.rc0[v], [], v);
    }
  }

  // ---------- scan_white ----------

  /** `external` are the actors whose count the region does not explain and
      `outer` what they reach. */
  ghost predicate WhiteShape(g: Graph, root: Actor, region: set<Actor>, external: set<Actor>, outer: set<Actor>,
                             live: set<Actor>, white: set<Actor>, on: set<Actor>) {
    && white <= live <= region <= g.Keys
    && Closed(g, region - live) && region - live <= outer
    && white !! external
    && (forall u, v :: u in white && v in g[u] && v in live ==> v in white || v in on)
    && (root in live ==> root in white || root in on)
  }

  lemma WhiteShapeStep(g: Graph, root: Actor, region: set<Actor>, external: set<Actor>, outer: set<Actor>,
                       live: set<Actor>, white: set<Actor>, on: set<Actor>, a: Actor)
    requires WhiteShape(g, root, region, external, outer, live, white, on + {a})
    ensures a !in live - white ==> WhiteShape(g, root, region, external, outer, live, white, on)
    ensures a in live && a !in external ==> WhiteShape(g, root, region, external, outer, live, white + {a}, on + g[a].Keys)
  {
  }

  /** After the blackening that scan_white starts at an unexplained actor. */
  lemma WhiteShapeBlacken(g: Graph, root: Actor, region: set<Actor>, external: set<Actor>, outer: set<Actor>,
                          live: set<Actor>, white: set<Actor>, on: set<Actor>, a: Actor, black: set<Actor>)
    requires WhiteShape(g, root, region, external, outer, live, white, on + {a})
    requires a in live && outer <= region
    requires BlackShape(g, region - live, a, outer, black, {})
    ensures WhiteShape(g, root, region, external, outer, live - black, white - black, on)
    ensures black == region - (live - black)
  {
    assert region - (live - black) == black;
  }

  /** An actor still live is referenced by no blackened one, so its remaining
      count tells whether its original count is explained by the region. */
  lemma LiveCount(g: Graph, region: set<Actor>, rc0: Counts, rc: Counts, live: set<Actor>, a: Actor)
    requires live <= region <= g.Keys && Closed(g, region - live)
    requires GreyCounted(g, live, rc0, rc, []) && a in live
    ensures rc[a] == 0 <==> rc0[a] == Incoming(g, region, a) % WORD
  {
    LiveLeft(g, region, rc0, rc, live, a);
    LeftZero(rc[a], rc0[a], Incoming(g, region, a));
  }

  lemma LiveLeft(g: Graph, region: set<Actor>, rc0: Counts, rc: Counts, live: set<Actor>, a: Actor)
    requires live <= region <= g.Keys && Closed(g, region - live)
    requires GreyCounted(g, live, rc0, rc, []) && a in live
    ensures rc[a] == (rc0[a] - Incoming(g, region, a)) % WORD
  {
    assert rc[a] == TakenOff(g, live, rc0[a], [], a);
    LiveIncoming(g, region, live, a);
  }

  lemma LeftZero(left: Size, r: Size, n: nat)
    requires left == (r - n) % WORD
    ensures left == 0 <==> r == n % WORD
  {
    ModZero(r, n);
  }

  lemma LiveIncoming(g: Graph, region: set<Actor>, live: set<Actor>, a: Actor)
    requires live <= region <= g.Keys && Closed(g, region - live) && a in live
    ensures Incoming(g, live, a) == Incoming(g, region, a)
  {
    IncomingDrop(g, region, region - live, a);
    assert region - (region - live) == live;
  }

  /** The data of one scan_white: `external` are the actors of `region` whose
      count before the scan, in `rc0`, is not explained inside `region`, and
      `outer` is a closed set around them. */
  datatype Whitening = Whitening(g: Graph, root: Actor, region: set<Actor>, external: set<Actor>, outer: set<Actor>, rc0: Counts)

  ghost predicate WhiteInv(w: Whitening, rc: Counts, live: set<Actor>, white: set<Actor>, work: seq<Ref>) {
    && w.external <= w.outer <= w.region <= w.g.Keys <= w.rc0.Keys && Closed(w.g, w.outer)
    && (forall x :: x in w.region && w.rc0[x] != Incoming(w.g, w.region, x) % WORD <==> x in w.external)
    && WhiteShape(w.g, w.root, w.region, w.external, w.outer, live, white, OnStack(work))
    && GreyCounted(w.g, live, w.rc0, rc, [])
  }

  lemma WhiteSkip(w: Whitening, rc: Counts, live: set<Actor>, white: set<Actor>, work: seq<Ref>)
    requires WhiteInv(w, rc, live, white, work) && work != [] && work[|work| - 1].actor !in live - white
    ensures WhiteInv(w, rc, live, white, work[..|work| - 1])
  {
    WhiteShapeStep(w.g, w.root, w.region, w.external, w.outer, live, white, OnStack(work[..|work| - 1]), work[|work| - 1].actor);
  }

  lemma WhiteTurn(w: Whitening, rc: Counts, live: set<Actor>, white: set<Actor>, work: seq<Ref>, next: seq<Ref>)
    requires WhiteInv(w, rc, live, white, work) && work != []
    requires var a := work[|work| - 1].actor; a in live && rc[a] == 0 && Pushed(work[..|work| - 1], next, w.g[a])
    ensures WhiteInv(w, rc, live, white + {work[|work| - 1].actor}, next) && work[|work| - 1].actor !in w.external
  {
    var a := work[|work| - 1].actor;
    LiveCount(w.g, w.region, w.rc0, rc, live, a);
    WhiteShapeStep(w.g, w.root, w.region, w.external, w.outer, live, white, OnStack(work[..|work| - 1]), a);
  }

  /** What the root of a blackening reaches lies in every closed set around it. */
  lemma RegionWithin(g: Graph, a: Actor, s: set<Actor>)
    requires Closed(g, s) && a in s
    ensures Region(g, a) <= s
  {
    forall v | v in Region(g, a) ensures v in s { ClosedReach(g, s, a, v); }
  }

  lemma WhiteToBlack(w: Whitening, rc: Counts, live: set<Actor>, white: set<Actor>, work: seq<Ref>)
    requires WhiteInv(w, rc, live, white, work) && work != []
    requires var a := work[|work| - 1].actor; a in live && rc[a] > 0
    ensures var a := work[|work| - 1].actor;
      a in w.external && BlackInv(Blackening(w.g, a, Region(w.g, a), w.region, w.rc0, live), rc, live, [Ref(a, 0)])
  {
    var a := work[|work| - 1].actor;
    LiveCount(w.g, w.region, w.rc0, rc, live, a);
    RegionClosed(w.g, a);
    ReachSelf(w.g, a);
    RegionWithin(w.g, a, w.outer);
    BlackStart(Blackening(w.g, a, Region(w.g, a), w.region, w.rc0, live), rc);
  }

  /** A finished blackening from `a` has taken away exactly what `a` reaches. */
  lemma BlackExact(b: Blackening, rc: Counts, live: set<Actor>)
    requires BlackInv(b, rc, live, []) && b.start in b.g && b.cone == Region(b.g, b.start)
    ensures live == b.live0 - Region(b.g, b.start)
  {
    var black := b.region - live;
    assert OnStack([]) == {};
    assert Closed(b.g, black) && b.start in black;
    RegionWithin(b.g, b.start, black);
    forall v | v in b.live0 && v !in live ensures v in Region(b.g, b.start) { assert v in black; }
  }

  lemma Smaller(s: set<Actor>, t: set<Actor>, a: Actor)
    requires s <= t && a in t && a !in s
    ensures |s| < |t|
  {
    assert t == (t - s) + s && a in t - s;
  }

  /** The shape of the scan after a blackening from a view with a count from
      outside. */
  lemma BlackenedShape(w: Whitening, rc: Counts, live: set<Actor>, white: set<Actor>, on: set<Actor>, a: Actor,
                       live': set<Actor>, rc': Counts)
    requires WhiteShape(w.g, w.root, w.region, w.external, w.outer, live, white, on + {a}) && a in live && a in w.external
    requires w.external <= w.outer <= w.region && Closed(w.g, w.outer)
    requires BlackInv(Blackening(w.g, a, Region(w.g, a), w.region, w.rc0, live), rc', live', [])
    ensures live' == live - Region(w.g, a)
    ensures WhiteShape(w.g, w.root, w.region, w.external, w.outer, live', white - Region(w.g, a), on)
  {
    var black := w.region - live';
    BlackExact(Blackening(w.g, a, Region(w.g, a), w.region, w.rc0, live), rc', live');
    RegionWithin(w.g, a, w.outer);
    assert BlackShape(w.g, w.region - live, a, w.outer, black, {});
    WhiteShapeBlacken(w.g, w.root, w.region, w.external, w.outer, live, white, on, a, black);
    assert live - black == live' && white - black == white - Region(w.g, a);
  }

  lemma BlackToWhite(w: Whitening, rc: Counts, live: set<Actor>, white: set<Actor>, work: seq<Ref>,
                     rc': Counts, live': set<Actor>, white': set<Actor>)
    requires WhiteInv(w, rc, live, white, work) && work != []
    requires var a := work[|work| - 1].actor;
      && a in live && a in w.external
      && BlackInv(Blackening(w.g, a, Region(w.g, a), w.region, w.rc0, live), rc', live', [])
    requires white' == white * live'
    ensures WhiteInv(w, rc', live', white', work[..|work| - 1])
    ensures var a := work[|work| - 1].actor; live' == live - Region(w.g, a) && white' == white - Region(w.g, a)
    ensures work[|work| - 1].actor !in white ==> |live' - white'| < |live - white|
  {
    var a := work[|work| - 1].actor;
    BlackDone(Blackening(w.g, a, Region(w.g, a), w.region, w.rc0, live), rc', live');
    BlackenedShape(w, rc, live, white, OnStack(work[..|work| - 1]), a, live', rc');
    assert white' == white - Region(w.g, a);
    if a !in white {
      ReachSelf(w.g, a);
      Smaller(live' - white', live - white, a);
    }
  }

  ghost function Externals(g: Graph, rc: Counts, root: Actor): set<Actor> {
    set x | x in Region(g, root) && External(g, rc, root, x)
  }

  /** When scan_white is done the white actors are exactly the garbage, which
      is empty unless it contains the root. */
  lemma WhiteDone(g: Graph, root: Actor, rc0: Counts, live: set<Actor>, white: set<Actor>)
    requires WhiteShape(g, root, Region(g, root), Externals(g, rc0, root),
                        Region(g, root) - Garbage(g, rc0, root), live, white, {})
    requires g.Keys <= rc0.Keys
    ensures white == live == Garbage(g, rc0, root)
    ensures white != {} <==> root in white
  {
    var region := Region(g, root);
    var black := region - live;
    assert Closed(g, white + black) by { RegionClosed(g, root); }
    forall v | v in region ensures v in white + black && root in white + black {
      var p :| IsPath(g, root, v, p);
      assert p[0] in g;
      ReachSelf(g, root);
      ClosedReach(g, white + black, root, v);
    }
    forall v | v in white ensures !ReachedFromOutside(g, rc0, root, v) {
      if ReachedFromOutside(g, rc0, root, v) {
        var x :| External(g, rc0, root, x) && Reach(g, x, v);
        assert x in Externals(g, rc0, root);
        ClosedReach(g, black, x, v);
      }
    }
    if root in black {
      forall v | v in region ensures v in black { ClosedReach(g, black, root, v); }
    }
  }

  /** What lies outside the garbage is closed and contains the externals. */
  lemma OuterClosed(g: Graph, rc: Counts, root: Actor)
    ensures Closed(g, Region(g, root) - Garbage(g, rc, root))
    ensures Externals(g, rc, root) <= Region(g, root) - Garbage(g, rc, root)
  {
    RegionClosed(g, root);
    forall u, v | u in Region(g, root) - Garbage(g, rc, root) && u in g && v in g && v in g[u]
      ensures v in Region(g, root) - Garbage(g, rc, root)
    {
      var x :| External(g, rc, root, x) && Reach(g, x, u);
      ReachStep(g, x, u, v);
    }
    forall x | x in Externals(g, rc, root) ensures ReachedFromOutside(g, rc, root, x) {
      ReachSelf(g, x);
    }
  }

  /** Blackening from the root leaves nothing live and every count restored. */
  lemma CollectDone(g: Graph, root: Actor, rc0: Counts, rc: Counts, base: set<Actor>, live: set<Actor>)
    requires root in g && live <= Region(g, root)
    requires BlackShape(g, base, root, Region(g, root), Region(g, root) - live, {})
    requires BlackCounted(g, live, rc0, rc, [])
    ensures live == {} && rc == rc0
  {
    var black := Region(g, root) - live;
    assert Closed(g, black);
    forall v | v in Region(g, root) ensures v in black { ClosedReach(g, black, root, v); }
    assert live == {};
    NothingLive(g, rc0, rc);
  }

  /** collect_white from the root has blackened everything. */
  lemma CollectedAll(b: Blackening, rc: Counts, live: set<Actor>)
    requires BlackInv(b, rc, live, []) && b.start in b.g && b.cone == b.region == Region(b.g, b.start)
    ensures live == {} && rc == b.rc0
  {
    assert OnStack([]) == {};
    CollectDone(b.g, b.start, b.rc0, rc, b.region - b.live0, live);
  }

  ghost function ScanData(g: Graph, root: Actor, rc0: Counts): Whitening {
    Whitening(g, root, Region(g, root), Externals(g, rc0, root), Region(g, root) - Garbage(g, rc0, root), rc0)
  }

  lemma TrialStart(g: Graph, root: Actor)
    ensures Closed(g, Region(g, root)) && (root in g ==> root in Region(g, root))
  {
    RegionClosed(g, root);
    if root in g { ReachSelf(g, root); }
  }

  /** scan_grey has greyed the region; scan_white can start. */
  lemma TrialGreyed(g: Graph, root: Actor, rc0: Counts, rc: Counts, live: set<Actor>)
    requires GreyInv(g, root, Region(g, root), rc0, rc, live, [])
    ensures live == Region(g, root)
    ensures WhiteInv(ScanData(g, root, rc0), rc, live, {}, [Ref(root, 0)])
  {
    GreyDone(g, root, live);
    OuterClosed(g, rc0, root);
    assert [Ref(root, 0)][..0] == [];
    assert Region(g, root) - Region(g, root) == {};
  }

  /** scan_white has left the garbage white; either everything is restored or
      collect_white can start at the root. */
  lemma TrialWhitened(g: Graph, root: Actor, rc0: Counts, rc: Counts, live: set<Actor>, white: set<Actor>)
    requires WhiteInv(ScanData(g, root, rc0), rc, live, white, [])
    ensures white == live == Garbage(g, rc0, root) && (white != {} <==> root in white)
    ensures white == {} ==> rc == rc0
    ensures white != {} ==>
      BlackInv(Blackening(g, root, Region(g, root), Region(g, root), rc0, white), rc, white, [Ref(root, 0)])
  {
    WhiteDone(g, root, rc0, live, white);
    if white == {} {
      NothingLive(g, rc0, rc);
    } else {
      RegionClosed(g, root);
      BlackStart(Blackening(g, root, Region(g, root), Region(g, root), rc0, white), rc);
    }
  }

  lemma NothingLive(g: Graph, rc0: Counts, rc: Counts)
    requires BlackCounted(g, {}, rc0, rc, []) || GreyCounted(g, {}, rc0, rc, [])
    ensures rc == rc0
  {
    forall v | v in g ensures rc[v] == rc0[v] {
      assert rc[v] == GivenBack(g, {}, rc0[v], [], v) || rc[v] == TakenOff(g, {}, rc0[v], [], v);
      assert Incoming(g, {}, v) == 0 && Pending([], v) == 0;
    }
  }

  /** Every member of the garbage is held only by members of the garbage. */
  lemma GarbageCounts(g: Graph, rc: Counts, root: Actor, v: Actor)
    requires g.Keys <= rc.Keys && v in Garbage(g, rc, root)
    ensures rc[v] == Incoming(g, Garbage(g, rc, root), v) % WORD
  {
    var region, garbage := Region(g, root), Garbage(g, rc, root);
    forall u | u in region - garbage ensures Weight(g, u, v) == 0 {
      if v in g[u] {
        var x :| External(g, rc, root, x) && Reach(g, x, u);
        ReachStep(g, x, u, v);
      }
    }
    IncomingDrop(g, region, region - garbage, v);
    assert region - (region - garbage) == garbage;
    if External(g, rc, root, v) {
      ReachSelf(g, v);
    }
  }

  // ---------- What turns white for a while ----------

  /** A moment of scan_white: which views are not black yet, which of these are
      white, and the stack. */
  datatype Stage = Stage(live: set<Actor>, white: set<Actor>, work: seq<Ref>)

  /** One turn of scan_white's loop: a view that is black or white is passed over,
      one with a count from outside is blackened with all that it reaches, and any
      other one turns white and its references are pushed in some order. */
  ghost predicate Turned(w: Whitening, s: Stage, s': Stage) {
    && s.work != []
    && var a, rest := s.work[|s.work| - 1].actor, s.work[..|s.work| - 1];
       if a !in s.live || a in s.white then s' == s.(work := rest)
       else if a in w.external then s' == Stage(s.live - Region(w.g, a), s.white - Region(w.g, a), rest)
       else a in w.g && exists list :: Lists(w.g[a], list) && s' == Stage(s.live, s.white + {a}, rest + list)
  }

  /** A run of scan_white, or the beginning of one. */
  ghost predicate Scans(w: Whitening, trace: seq<Stage>) {
    && trace != [] && trace[0] == Stage(w.region, {}, [Ref(w.root, 0)])
    && forall i, j {:trigger Turned(w, trace[i], trace[j])} ::
         0 <= i && j == i + 1 && j < |trace| ==> Turned(w, trace[i], trace[j])
  }

  lemma ScansMore(w: Whitening, trace: seq<Stage>, s: Stage)
    requires Scans(w, trace) && Turned(w, trace[|trace| - 1], s)
    ensures Scans(w, trace + [s])
  {
    var more := trace + [s];
    forall i, j {:trigger Turned(w, more[i], more[j])} | 0 <= i && j == i + 1 && j < |more|
      ensures Turned(w, more[i], more[j])
    {
      if j < |trace| { assert Turned(w, trace[i], trace[j]); }
    }
  }

  /** The graph without the actors whose count the region does not explain. */
  ghost function Internal(g: Graph, rc: Counts, root: Actor): Graph {
    map a | a in g && a !in Externals(g, rc, root) :: g[a]
  }

  /** What the root reaches through actors whose count the region explains. */
  ghost function Explained(g: Graph, rc: Counts, root: Actor): set<Actor> {
    Region(Internal(g, rc, root), root)
  }

  /** The white views, and those on the stack whose count is explained, lie in
      `within`. */
  ghost predicate Tinged(g: Graph, external: set<Actor>, within: set<Actor>, white: set<Actor>, work: seq<Ref>) {
    && white <= within
    && (forall i :: 0 <= i < |work| && work[i].actor in g && work[i].actor !in external ==> work[i].actor in within)
  }

  lemma ExplainedClosed(g: Graph, rc: Counts, root: Actor)
    ensures root in g && root !in Externals(g, rc, root) ==> root in Explained(g, rc, root)
    ensures forall u, v :: u in Explained(g, rc, root) && u in g && v in g[u] && v in g && v !in Externals(g, rc, root) ==>
      v in Explained(g, rc, root)
  {
    var h := Internal(g, rc, root);
    if root in h { ReachSelf(h, root); }
    forall u, v | u in Region(h, root) && u in g && v in g[u] && v in g && v !in Externals(g, rc, root)
      ensures v in Region(h, root)
    {
      ReachStep(h, root, u, v);
    }
  }

  lemma TurnTinged(w: Whitening, within: set<Actor>, s: Stage, s': Stage)
    requires Turned(w, s, s') && Tinged(w.g, w.external, within, s.white, s.work)
    requires forall u, v :: u in within && u in w.g && v in w.g[u] && v in w.g && v !in w.external ==> v in within
    ensures Tinged(w.g, w.external, within, s'.white, s'.work)
  {
    var n := |s.work| - 1;
    var a := s.work[n].actor;
    forall i | 0 <= i < |s'.work| && s'.work[i].actor in w.g && s'.work[i].actor !in w.external
      ensures s'.work[i].actor in within
    {
      if i < n { assert s'.work[i] == s.work[i]; }
    }
  }

  /** What is white at some time is reached from the root through views whose count
      the region explains, in whatever order the references are pushed. */
  lemma {:induction false} WhitenedIsExplained(g: Graph, rc: Counts, root: Actor, trace: seq<Stage>, i: nat)
    requires Scans(ScanData(g, root, rc), trace) && i < |trace|
    ensures trace[i].white <= Explained(g, rc, root)
    ensures Tinged(g, Externals(g, rc, root), Explained(g, rc, root), trace[i].white, trace[i].work)
  {
    ExplainedClosed(g, rc, root);
    if i > 0 {
      WhitenedIsExplained(g, rc, root, trace, i - 1);
      assert Turned(ScanData(g, root, rc), trace[i - 1], trace[i]);
      TurnTinged(ScanData(g, root, rc), Explained(g, rc, root), trace[i - 1], trace[i]);
    }
  }

  /** References in some order with a given one at the end. */
  lemma {:induction false} ListOf(refs: map<Actor, Size>) returns (list: seq<Ref>)
    ensures Lists(refs, list)
    decreases refs.Keys
  {
    if refs.Keys == {} {
      list := [];
    } else {
      var a :| a in refs;
      list := ListEnding(refs, a);
    }
  }

  lemma {:induction false} ListEnding(refs: map<Actor, Size>, a: Actor) returns (list: seq<Ref>)
    requires a in refs
    ensures Lists(refs, list) && list != [] && list[|list| - 1].actor == a
    decreases refs.Keys, 0
  {
    var less := refs - {a};
    var front := ListOf(less);
    list := front + [Ref(a, refs[a])];
    forall b | b in refs ensures Ref(b, refs[b]) in list {
      if b != a { assert Ref(b, less[b]) in front; }
    }
  }

  predicate Simple(p: seq<Actor>) {
    forall i, j :: 0 <= i < j < |p| ==> p[i] != p[j]
  }

  /** A path without detours. */
  lemma {:induction false} SimplePath(g: Graph, a: Actor, b: Actor, p: seq<Actor>) returns (q: seq<Actor>)
    requires IsPath(g, a, b, p)
    ensures IsPath(g, a, b, q) && Simple(q)
    decreases |p|
  {
    if i, j :| 0 <= i < j < |p| && p[i] == p[j] {
      var r := p[..i] + p[j..];
      forall k {:trigger g[r[k]]} | 0 <= k < |r| - 1 ensures r[k] in g && r[k + 1] in g[r[k]] {
        ShortcutAt(g, p, i, j, k);
      }
      q := SimplePath(g, a, b, r);
    } else {
      q := p;
    }
  }

  lemma ShortcutAt(g: Graph, p: seq<Actor>, i: nat, j: nat, k: nat)
    requires i < j < |p| && p[i] == p[j] && k + 1 < i + (|p| - j)
    requires forall x :: 0 <= x < |p| ==> p[x] in g
    requires forall x {:trigger g[p[x]]} :: 0 <= x < |p| - 1 ==> p[x + 1] in g[p[x]]
    ensures var r := p[..i] + p[j..]; r[k] in g && r[k + 1] in g[r[k]]
  {
    var r := p[..i] + p[j..];
    if k < i {
      assert r[k] == p[k];
      assert p[k + 1] in g[p[k]];
      assert r[k + 1] == p[k + 1];
    } else {
      assert r[k] == p[j + (k - i)];
      assert p[j + (k - i) + 1] in g[p[j + (k - i)]];
    }
  }

  /** Pushing the next view of a path last makes it the next one to be visited. */
  lemma {:induction false} WhitenAlong(w: Whitening, p: seq<Actor>, n: nat) returns (trace: seq<Stage>)
    requires n < |p| && p[0] == w.root && Simple(p)
    requires forall i :: 0 <= i < |p| ==> p[i] in w.g && p[i] in w.region && p[i] !in w.external
    requires forall i {:trigger w.g[p[i]]} :: 0 <= i < |p| - 1 ==> p[i + 1] in w.g[p[i]]
    ensures Scans(w, trace) && trace[|trace| - 1].live == w.region
    ensures trace[|trace| - 1].white == (set i | 0 <= i < n :: p[i])
    ensures trace[|trace| - 1].work != [] && trace[|trace| - 1].work[|trace[|trace| - 1].work| - 1].actor == p[n]
    decreases n
  {
    if n == 0 {
      trace := [Stage(w.region, {}, [Ref(w.root, 0)])];
    } else {
      var before := WhitenAlong(w, p, n - 1);
      var s := before[|before| - 1];
      assert p[n - 1 + 1] in w.g[p[n - 1]];
      var list := ListEnding(w.g[p[n - 1]], p[n]);
      var s' := Stage(s.live, s.white + {p[n - 1]}, s.work[..|s.work| - 1] + list);
      assert Turned(w, s, s');
      ScansMore(w, before, s');
      trace := before + [s'];
      assert s'.white == (set i | 0 <= i < n :: p[i]);
    }
  }

  /** Every view that the root reaches through views whose count the region explains
      turns white in some order of the references. */
  lemma ExplainedIsWhitened(g: Graph, rc: Counts, root: Actor, v: Actor) returns (trace: seq<Stage>)
    requires v in Explained(g, rc, root)
    ensures Scans(ScanData(g, root, rc), trace) && v in trace[|trace| - 1].white
  {
    var h, w := Internal(g, rc, root), ScanData(g, root, rc);
    var p0 :| IsPath(h, root, v, p0);
    var p := SimplePath(h, root, v, p0);
    forall i | 0 <= i < |p| ensures p[i] in w.g && p[i] in w.region && p[i] !in w.external {
      assert p[i] in h;
      assert IsPath(g, root, p[i], p[..i + 1]);
    }
    forall i {:trigger w.g[p[i]]} | 0 <= i < |p| - 1 ensures p[i + 1] in w.g[p[i]] { assert p[i + 1] in h[p[i]]; }
    var before := WhitenAlong(w, p, |p| - 1);
    var s := before[|before| - 1];
    var list := ListOf(w.g[v]);
    var s' := Stage(s.live, s.white + {v}, s.work[..|s.work| - 1] + list);
    assert Turned(w, s, s');
    ScansMore(w, before, s');
    trace := before + [s'];
  }

  /** scan_white turns no view of `marked` white, in whatever order the references
      are pushed, exactly if none of them is reached from the root through views
      whose count the region explains. */
  lemma NeverWhitens(g: Graph, rc: Counts, root: Actor, marked: set<Actor>)
    ensures Explained(g, rc, root) !! marked <==>
      forall trace: seq<Stage>, i: nat :: Scans(ScanData(g, root, rc), trace) && i < |trace| ==> trace[i].white !! marked
  {
    if Explained(g, rc, root) !! marked {
      forall trace: seq<Stage>, i: nat | Scans(ScanData(g, root, rc), trace) && i < |trace| ensures trace[i].white !! marked {
        WhitenedIsExplained(g, rc, root, trace, i);
      }
    } else {
      var v :| v in Explained(g, rc, root) && v in marked;
      var trace := ExplainedIsWhitened(g, rc, root, v);
      assert !(trace[|trace| - 1].white !! marked);
    }
  }
}
