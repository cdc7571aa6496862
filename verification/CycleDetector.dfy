/** The cycle detector's views and its trial deletion: scan_grey, scan_white
    (with scan_black inside it) and collect_white, run by detect. */
module CycleDetector {
  import opened ViewGraph
  import opened TrialDeletion

  function Changed(refs: map<Actor, Size>, change: Ref): map<Actor, Size> {
    if change.rc > 0 then refs[change.actor := change.rc] else refs - {change.actor}
  }

  /** References once reported changes are applied; a change to zero means that
      the reference is gone. */
  function Settled(refs: map<Actor, Size>, delta: seq<Ref>): map<Actor, Size>
    decreases |delta|
  {
    if delta == [] then refs else Settled(Changed(refs, delta[0]), delta[1..])
  }

  predicate Names(delta: seq<Ref>, b: Actor) {
    exists j :: 0 <= j < |delta| && delta[j].actor == b
  }

  /** `delta[j]` is the last change that names its actor. */
  predicate Last(delta: seq<Ref>, j: nat)
    requires j < |delta|
  {
    !Names(delta[j + 1..], delta[j].actor)
  }

  /** `now` are the references of `was` after the changes: one that no change
      names is as it was, and one that some change names is there with the count
      of the last such change, or gone if that count is zero. */
  ghost predicate Follows(was: map<Actor, Size>, delta: seq<Ref>, now: map<Actor, Size>) {
    && (forall b {:trigger b in now} :: !Names(delta, b) ==> (b in now <==> b in was))
    && (forall b {:trigger now[b]} :: !Names(delta, b) && b in now && b in was ==> now[b] == was[b])
    && (forall j {:trigger delta[j]} :: 0 <= j < |delta| && Last(delta, j) ==>
          && (delta[j].actor in now <==> delta[j].rc > 0)
          && (delta[j].rc > 0 ==> now[delta[j].actor] == delta[j].rc))
  }

  lemma {:induction false} SettledUnnamed(refs: map<Actor, Size>, delta: seq<Ref>, b: Actor)
    requires !Names(delta, b)
    ensures b in Settled(refs, delta) <==> b in refs
    ensures b in refs ==> Settled(refs, delta)[b] == refs[b]
    decreases |delta|
  {
    if delta != [] {
      assert delta[0].actor != b;
      forall j | 0 <= j < |delta[1..]| ensures delta[1..][j].actor != b {
        assert delta[1..][j] == delta[j + 1];
      }
      SettledUnnamed(Changed(refs, delta[0]), delta[1..], b);
    }
  }

  lemma {:induction false} SettledNamed(refs: map<Actor, Size>, delta: seq<Ref>, j: nat)
    requires j < |delta| && Last(delta, j)
    ensures delta[j].actor in Settled(refs, delta) <==> delta[j].rc > 0
    ensures delta[j].rc > 0 ==> Settled(refs, delta)[delta[j].actor] == delta[j].rc
    decreases j
  {
    var rest := delta[1..];
    if j == 0 {
      SettledUnnamed(Changed(refs, delta[0]), rest, delta[0].actor);
    } else {
      assert rest[j - 1] == delta[j] && rest[j..] == delta[j + 1..];
      SettledNamed(Changed(refs, delta[0]), rest, j - 1);
    }
  }

  lemma SettledFollows(was: map<Actor, Size>, delta: seq<Ref>)
    ensures Follows(was, delta, Settled(was, delta))
  {
    var now := Settled(was, delta);
    forall b: Actor {:trigger b in now} | !Names(delta, b)
      ensures (b in now <==> b in was) && (b in was ==> now[b] == was[b])
    {
      SettledUnnamed(was, delta, b);
    }
    forall j {:trigger delta[j]} | 0 <= j < |delta| && Last(delta, j)
      ensures (delta[j].actor in now <==> delta[j].rc > 0) && (delta[j].rc > 0 ==> now[delta[j].actor] == delta[j].rc)
    {
      SettledNamed(was, delta, j);
    }
  }

  /** Some change that names `b` is the last one. */
  lemma {:induction false} LastOf(delta: seq<Ref>, b: Actor) returns (j: nat)
    requires Names(delta, b)
    ensures j < |delta| && delta[j].actor == b && Last(delta, j)
    decreases |delta|
  {
    j :| 0 <= j < |delta| && delta[j].actor == b;
    if !Last(delta, j) {
      var k := LastOf(delta[j + 1..], b);
      assert delta[j + 1..][k] == delta[j + 1 + k] && delta[j + 1..][k + 1..] == delta[j + 1 + k + 1..];
      j := j + 1 + k;
    }
  }

  /** The reported changes determine the references. */
  lemma FollowsOne(was: map<Actor, Size>, delta: seq<Ref>, now: map<Actor, Size>)
    ensures Follows(was, delta, now) <==> now == Settled(was, delta)
  {
    SettledFollows(was, delta);
    if Follows(was, delta, now) {
      var known := Settled(was, delta);
      forall b ensures (b in now <==> b in known) && (b in now ==> now[b] == known[b]) {
        if Names(delta, b) {
          var j := LastOf(delta, b);
        }
      }
    }
  }

  function DeltaOf(delta: map<Actor, seq<Ref>>, a: Actor): seq<Ref> {
    if a in delta then delta[a] else []
  }

  /** `g` is the graph of the blocked actors with all reported changes applied. */
  ghost predicate Depicts(blocked: set<Actor>, refs: map<Actor, map<Actor, Size>>, delta: map<Actor, seq<Ref>>, g: Graph) {
    && g.Keys == blocked <= refs.Keys
    && (forall a {:trigger g[a]} :: a in g ==> g[a] == Settled(refs[a], DeltaOf(delta, a)))
  }

  /** What the graph says about one view. */
  lemma DepictsChanges(
    blocked: set<Actor>, refs: map<Actor, map<Actor, Size>>, delta: map<Actor, seq<Ref>>, g: Graph, a: Actor)
    requires Depicts(blocked, refs, delta, g) && a in blocked
    ensures Follows(refs[a], DeltaOf(delta, a), g[a])
  {
    SettledFollows(refs[a], DeltaOf(delta, a));
  }

  ghost function Graphed(blocked: set<Actor>, refs: map<Actor, map<Actor, Size>>, delta: map<Actor, seq<Ref>>): Graph
    requires blocked <= refs.Keys
  {
    map a | a in blocked :: Settled(refs[a], DeltaOf(delta, a))
  }

  lemma DepictsGraphed(blocked: set<Actor>, refs: map<Actor, map<Actor, Size>>, delta: map<Actor, seq<Ref>>, g: Graph)
    requires blocked <= refs.Keys
    ensures Depicts(blocked, refs, delta, g) <==> g == Graphed(blocked, refs, delta)
  {
    if Depicts(blocked, refs, delta, g) {
      var h := Graphed(blocked, refs, delta);
      assert g.Keys == h.Keys && forall a :: a in h ==> g[a] == h[a];
    }
  }

  /** The blocked actors are those of `g`, and the views of the actors in `s`
      hold the references that `g` says. */
  ghost predicate Sees(blocked: set<Actor>, refs: map<Actor, map<Actor, Size>>, g: Graph, s: set<Actor>) {
    && s <= g.Keys && (forall v {:trigger v in blocked} :: v in blocked <==> v in g)
    && (forall v {:trigger v in s} :: v in s ==> v in refs && refs[v] == g[v])
  }

  /** Pushes every reference of a view once, in whatever order its map yields
      them. */
  method PushAll(work: seq<Ref>, refs: map<Actor, Size>) returns (next: seq<Ref>, ghost list: seq<Ref>)
    ensures Pushed(work, next, refs) && next == work + list && Lists(refs, list)
  {
    next, list := work, [];
    var todo := refs.Keys;
    while todo != {}
      invariant todo <= refs.Keys && next == work + list
      invariant Listing(refs, todo, list) && Pushing(work, next, refs, todo)
      decreases todo
    {
      var a :| a in todo;
      ListOne(refs, todo, list, a);
      PushOne(work, next, refs, todo, a);
      next, list := next + [Ref(a, refs[a])], list + [Ref(a, refs[a])];
      todo := todo - {a};
    }
  }

  /** The same where the order does not matter. */
  method PushRefs(work: seq<Ref>, refs: map<Actor, Size>) returns (next: seq<Ref>)
    ensures Pushed(work, next, refs)
  {
    ghost var list;
    next, list := PushAll(work, refs);
  }

  /** The references that are not in `todo` are listed, each one once. */
  ghost predicate Listing(refs: map<Actor, Size>, todo: set<Actor>, list: seq<Ref>) {
    && (forall i :: 0 <= i < |list| ==> list[i].actor in refs && list[i].actor !in todo && list[i].rc == refs[list[i].actor])
    && (forall i, j :: 0 <= i < j < |list| ==> list[i].actor != list[j].actor)
    && (forall a :: a in refs && a !in todo ==> Ref(a, refs[a]) in list)
  }

  /** The references that are not in `todo` are pushed. */
  ghost predicate Pushing(work: seq<Ref>, next: seq<Ref>, refs: map<Actor, Size>, todo: set<Actor>) {
    && OnStack(next) == OnStack(work) + (refs.Keys - todo)
    && (forall v :: Pending(next, v) == Pending(work, v) + if v in todo then 0 else Held(refs, v))
  }

  lemma ListOne(refs: map<Actor, Size>, todo: set<Actor>, list: seq<Ref>, a: Actor)
    requires Listing(refs, todo, list) && a in todo && a in refs
    ensures Listing(refs, todo - {a}, list + [Ref(a, refs[a])])
  {
  }

  lemma PushOne(work: seq<Ref>, next: seq<Ref>, refs: map<Actor, Size>, todo: set<Actor>, a: Actor)
    requires Pushing(work, next, refs, todo) && a in todo && a in refs
    ensures Pushing(work, next + [Ref(a, refs[a])], refs, todo - {a})
  {
    var more := next + [Ref(a, refs[a])];
    assert more[..|more| - 1] == next;
  }

  /** A perceived cycle: acknowledgements so far, the members, and the members
      that have not been sent a CONF yet. */
  datatype Cycle = Cycle(ack: nat, members: set<Actor>, unsent: set<Actor>)

  datatype Conf = Conf(actor: Actor, token: nat)

  /** The fields of the source's views are kept here as maps and sets indexed by
      actor. An actor has a view when it is a key of `refs`. The views in `live`
      are the ones that are not black; of these the ones in `white` are white
      and the others grey. */
  class Detector {
    var refs: map<Actor, map<Actor, Size>>
    var delta: map<Actor, seq<Ref>>
    var blocked: set<Actor>
    var deferred: set<Actor>
    var rc: map<Actor, Size>
    var live: set<Actor>
    var white: set<Actor>
    var perceived: map<Actor, nat>
    var cycles: map<nat, Cycle>
    var nextToken: nat
    var confGroup: nat
    var outbox: seq<Conf>

    /** Every actor that a view refers to has a view. */
    ghost predicate Known()
      reads this`refs
    {
      forall a {:trigger refs[a]} :: a in refs ==> refs[a].Keys <= refs.Keys
    }

    method ApplyDelta(a: Actor)
      requires Known() && a in refs
      modifies this`refs, this`delta
      ensures Known() && refs.Keys >= old(refs.Keys) && delta == old(delta) - {a}
      ensures Follows(old(refs[a]), DeltaOf(old(delta), a), refs[a])
      ensures refs[a] == Settled(old(refs[a]), DeltaOf(old(delta), a))
      ensures forall b {:trigger refs[b]} :: b in old(refs) && b != a ==> refs[b] == old(refs[b])
      ensures forall b {:trigger refs[b]} :: b in refs && b !in old(refs) ==> refs[b] == map[]
    {
      var changes := DeltaOf(delta, a);
      var mine: map<Actor, Size> := refs[a];
      var i := 0;
      while i < |changes|
        invariant 0 <= i <= |changes| && mine.Keys <= refs.Keys && old(refs.Keys) <= refs.Keys
        invariant delta == old(delta) && Settled(mine, changes[i..]) == Settled(old(refs[a]), changes)
        invariant forall b {:trigger refs[b]} :: b in old(refs) ==> refs[b] == old(refs[b])
        invariant forall b {:trigger refs[b]} :: b in refs && b !in old(refs) ==> refs[b] == map[]
      {
        var change := changes[i];
        if change.rc > 0 {
          if change.actor !in refs {
            refs := refs[change.actor := map[]];
          }
          mine := mine[change.actor := change.rc];
        } else if change.actor in refs {
          mine := mine - {change.actor};
        } else {
          assert mine - {change.actor} == mine;
        }
        assert changes[i..][0] == change && changes[i..][1..] == changes[i + 1..];
        i := i + 1;
      }
      refs := refs[a := mine];
      delta := delta - {a};
      SettledFollows(old(refs[a]), changes);
    }

    method MarkGrey(a: Actor, r: Size, ghost g: Graph) returns (first: bool)
      requires Known() && a in refs && a !in white
      requires Depicts(blocked, refs, delta, g) && blocked <= rc.Keys
      modifies this`refs, this`delta, this`deferred, this`rc, this`live
      ensures Known() && old(refs.Keys) <= refs.Keys && Depicts(blocked, refs, delta, g)
      ensures first <==> a in g && a !in old(live)
      ensures a !in g ==> refs == old(refs) && delta == old(delta) && deferred == old(deferred) && rc == old(rc) && live == old(live)
      ensures a in g ==>
        && refs[a] == g[a] && a !in delta
        && delta == old(delta) - {a} && deferred == old(deferred) - {a}
        && rc == old(rc)[a := (old(rc[a]) - r) % WORD] && live == old(live) + {a}
    {
      if a !in blocked {
        return false;
      }
      ApplyDelta(a);
      if a in deferred {
        deferred := deferred - {a};
      }
      rc := rc[a := (rc[a] - r) % WORD];
      first := a !in live;
      if first {
        live := live + {a};
      }
    }

    /** One turn of scan_grey's loop. */
    method VisitGrey(work: seq<Ref>, root: Actor, ghost g: Graph, ghost region: set<Actor>, ghost rc0: Counts)
      returns (next: seq<Ref>)
      requires Known() && work != [] && OnStack(work) <= refs.Keys && white == {}
      requires Depicts(blocked, refs, delta, g) && GreyInv(g, root, region, rc0, rc, live, work)
      modifies this`refs, this`delta, this`deferred, this`rc, this`live
      ensures Known() && OnStack(next) <= refs.Keys && old(refs.Keys) <= refs.Keys
      ensures Depicts(blocked, refs, delta, g) && GreyInv(g, root, region, rc0, rc, live, next)
      ensures var a := {work[|work| - 1].actor} * g.Keys;
        && live == old(live) + a && deferred == old(deferred) - a && delta.Keys == old(delta.Keys) - a
        && (a <= old(live) ==> |next| < |work|)
    {
      var top, rest := work[|work| - 1], work[..|work| - 1];
      assert work == rest + [top];
      var first := MarkGrey(top.actor, top.rc, g);
      next := rest;
      if first {
        next := PushRefs(rest, refs[top.actor]);
      }
      GreyTurn(g, root, region, rc0, old(rc), old(live), rest, top, next);
      assert {top.actor} * g.Keys == if top.actor in g then {top.actor} else {};
    }

    method ScanGrey(root: Actor, ghost g: Graph, ghost region: set<Actor>)
      requires Known() && root in refs && live == white == {}
      requires Depicts(blocked, refs, delta, g) && blocked <= rc.Keys
      requires Closed(g, region) && (root in g ==> root in region)
      modifies this`refs, this`delta, this`deferred, this`rc, this`live
      ensures Known() && old(refs.Keys) <= refs.Keys && Depicts(blocked, refs, delta, g)
      ensures GreyInv(g, root, region, old(rc), rc, live, [])
      ensures deferred == old(deferred) - live && delta.Keys !! live
    {
      var work := [Ref(root, 0)];
      GreyStart(g, root, region, rc);
      while work != []
        invariant Known() && OnStack(work) <= refs.Keys && old(refs.Keys) <= refs.Keys
        invariant Depicts(blocked, refs, delta, g) && GreyInv(g, root, region, old(rc), rc, live, work)
        invariant deferred == old(deferred) - live && delta.Keys !! live
        decreases g.Keys - live, |work|
      {
        work := VisitGrey(work, root, g, region, old(rc));
      }
    }

    method MarkBlack(a: Actor, r: Size) returns (first: bool, wasWhite: bool)
      requires blocked <= rc.Keys && live <= blocked && white <= live
      modifies this`rc, this`live, this`white
      ensures unchanged(`refs, `blocked) && (first <==> a in old(live)) && (wasWhite <==> a in old(white))
      ensures live == old(live) - {a} && white == old(white) - {a}
      ensures rc == Restored(blocked, old(rc), Ref(a, r))
    {
      if a !in blocked {
        return false, false;
      }
      rc := rc[a := (rc[a] + r) % WORD];
      first, wasWhite := a in live, a in white;
      live, white := live - {a}, white - {a};
    }

    /** One turn of the loop in scan_black and in collect_white. */
    method VisitBlack(work: seq<Ref>, ghost b: Blackening) returns (next: seq<Ref>, wasWhite: bool)
      requires work != [] && BlackInv(b, rc, live, work) && Sees(blocked, refs, b.g, b.live0) && white <= live
      modifies this`rc, this`live, this`white
      ensures unchanged(`refs, `blocked) && BlackInv(b, rc, live, next)
      ensures var a := work[|work| - 1].actor;
        && live == old(live) - {a} && white == old(white) - {a}
        && (wasWhite <==> a in old(white))
        && (|live| < old(|live|) || (|live| == old(|live|) && |next| < |work|))
    {
      var top, rest := work[|work| - 1], work[..|work| - 1];
      assert work == rest + [top];
      BlackKeys(b, rc, live, work, blocked, refs);
      var first;
      first, wasWhite := MarkBlack(top.actor, top.rc);
      next := rest;
      if first {
        next := PushRefs(rest, refs[top.actor]);
      }
      BlackTurn(b, old(rc), old(live), rest, top, next);
      Without(old(live), top.actor);
    }

    method ScanBlack(a: Actor, ghost b: Blackening) returns (count: int)
      requires a == b.start && live == b.live0 && Sees(blocked, refs, b.g, b.live0) && white <= live
      requires BlackInv(b, rc, b.live0, [Ref(a, 0)])
      modifies this`rc, this`live, this`white
      ensures unchanged(`refs, `blocked) && BlackInv(b, rc, live, [])
      ensures Recounted(old(white), live, white, count)
    {
      count := 0;
      var work := [Ref(a, 0)];
      while work != []
        invariant refs == old(refs) && blocked == old(blocked)
        invariant BlackInv(b, rc, live, work) && white <= live
        invariant Recounted(old(white), live, white, count)
        decreases |live|, |work|
      {
        var wasWhite;
        RecountOne(old(white), live, white, count, work[|work| - 1].actor);
        work, wasWhite := VisitBlack(work, b);
        if wasWhite {
          count := count + 1;
        }
      }
    }

    /** One turn of scan_white's loop, with mark_white in it. */
    method VisitWhite(work: seq<Ref>, ghost w: Whitening) returns (next: seq<Ref>, change: int)
      requires work != [] && WhiteInv(w, rc, live, white, work) && Sees(blocked, refs, w.g, w.region)
      modifies this`rc, this`live, this`white
      ensures unchanged(`refs, `blocked)
      ensures WhiteInv(w, rc, live, white, next) && Turned(w, Stage(old(live), old(white), work), Stage(live, white, next))
      ensures change == |white| - old(|white|)
      ensures |live - white| < old(|live - white|) || (live - white == old(live - white) && |next| < |work|)
    {
      var a, rest := work[|work| - 1].actor, work[..|work| - 1];
      assert work == rest + [work[|work| - 1]];
      if a !in live || a in white {
        WhiteSkip(w, rc, live, white, work);
        return rest, 0;
      }
      if rc[a] > 0 {
        ghost var b := Blackening(w.g, a, Region(w.g, a), w.region, w.rc0, live);
        WhiteToBlack(w, rc, live, white, work);
        var count := ScanBlack(a, b);
        BlackToWhite(w, old(rc), old(live), old(white), work, rc, live, white);
        return rest, -count;
      }
      white := white + {a};
      ghost var list;
      next, list := PushAll(rest, refs[a]);
      change := 1;
      WhiteTurn(w, rc, live, old(white), work, next);
      assert Lists(w.g[a], list);
    }

    /** A turn that is added to the trace. */
    method StepWhite(work: seq<Ref>, ghost w: Whitening, ghost trace: seq<Stage>)
      returns (next: seq<Ref>, change: int, ghost more: seq<Stage>)
      requires work != [] && WhiteInv(w, rc, live, white, work) && Sees(blocked, refs, w.g, w.region)
      requires Scans(w, trace) && trace[|trace| - 1] == Stage(live, white, work)
      modifies this`rc, this`live, this`white
      ensures unchanged(`refs, `blocked) && WhiteInv(w, rc, live, white, next)
      ensures Scans(w, more) && more[|more| - 1] == Stage(live, white, next)
      ensures change == |white| - old(|white|)
      ensures |live - white| < old(|live - white|) || (live - white == old(live - white) && |next| < |work|)
    {
      next, change := VisitWhite(work, w);
      ScansMore(w, trace, Stage(live, white, next));
      more := trace + [Stage(live, white, next)];
    }

    /** Whitens the region and blackens what is held from outside. `trace` are the
        stages on the way. */
    method ScanWhite(root: Actor, ghost w: Whitening) returns (count: int, ghost trace: seq<Stage>)
      requires root == w.root && white == {} && live == w.region && Sees(blocked, refs, w.g, w.region)
      requires WhiteInv(w, rc, live, {}, [Ref(root, 0)])
      modifies this`rc, this`live, this`white
      ensures WhiteInv(w, rc, live, white, []) && count == |white|
      ensures Scans(w, trace) && trace[|trace| - 1] == Stage(live, white, [])
    {
      count := 0;
      var work := [Ref(root, 0)];
      trace := [Stage(live, white, work)];
      while work != []
        invariant refs == old(refs) && blocked == old(blocked)
        invariant WhiteInv(w, rc, live, white, work) && count == |white|
        invariant Scans(w, trace) && trace[|trace| - 1] == Stage(live, white, work)
        decreases |live - white|, |work|
      {
        var change;
        work, change, trace := StepWhite(work, w, trace);
        count := count + change;
      }
    }

    /** One turn of collect_white's loop. */
    method VisitCollect(work: seq<Ref>, members: set<Actor>, count: int, ghost b: Blackening, ghost all: set<Actor>)
      returns (next: seq<Ref>, more: set<Actor>, sum: int)
      requires work != [] && BlackInv(b, rc, live, work) && Sees(blocked, refs, b.g, b.live0) && white == live
      requires Gathered(all, white, members) && count == |members|
      modifies this`rc, this`live, this`white
      ensures BlackInv(b, rc, live, next) && white == live && Gathered(all, white, more) && sum == |more|
      ensures |live| < old(|live|) || (|live| == old(|live|) && |next| < |work|)
    {
      var a := work[|work| - 1].actor;
      GatherOne(all, white, members, a);
      var wasWhite;
      next, wasWhite := VisitBlack(work, b);
      more := members + if wasWhite then {a} else {};
      sum := count + if wasWhite then 1 else 0;
    }

    method CollectWhite(root: Actor, ghost b: Blackening) returns (count: int, members: set<Actor>)
      requires root == b.start && live == b.live0 == white && Sees(blocked, refs, b.g, b.live0)
      requires BlackInv(b, rc, b.live0, [Ref(root, 0)])
      modifies this`rc, this`live, this`white
      ensures BlackInv(b, rc, live, []) && white == live
      ensures Gathered(old(white), white, members) && count == |members|
    {
      count, members := 0, {};
      var work := [Ref(root, 0)];
      while work != []
        invariant BlackInv(b, rc, live, work) && white == live
        invariant Gathered(old(white), white, members) && count == |members|
        decreases |live|, |work|
      {
        work, members, count := VisitCollect(work, members, count, b, old(white));
      }
    }

    /** Sends a CONF to the next group of the members in `unsent`; `rest` is
        where the iteration over the members stopped. */
    method SendConf(token: nat, unsent: set<Actor>) returns (rest: set<Actor>, ghost sent: seq<Actor>)
      requires confGroup > 0
      modifies this`outbox
      ensures unchanged(`perceived, `cycles, `nextToken, `confGroup)
      ensures FirstGroup(unsent, confGroup, rest, sent) && outbox == old(outbox) + Confs(sent, token)
    {
      rest, sent := unsent, [];
      var count := 0;
      while rest != {}
        invariant rest <= unsent && count == |sent| < confGroup
        invariant Listed(sent, unsent - rest) && outbox == old(outbox) + Confs(sent, token)
        decreases rest
      {
        var v :| v in rest;
        outbox := outbox + [Conf(v, token)];
        assert unsent - (rest - {v}) == unsent - rest + {v};
        rest, sent := rest - {v}, sent + [v];
        count := count + 1;
        if count == confGroup {
          break;
        }
      }
    }

    /** Nothing is being scanned. */
    ghost predicate Ready()
      reads this`refs, this`live, this`white, this`confGroup, this`blocked, this`rc, this`deferred
    {
      && Known() && live == white == {} && confGroup > 0
      && blocked <= rc.Keys && blocked <= refs.Keys && deferred <= blocked
    }

    /** Nothing is being scanned, and every perceived cycle consists of the
        views that point to it. */
    ghost predicate Valid()
      reads this
    {
      Ready() && Consistent(perceived, cycles, nextToken)
    }

    ghost function GraphOf(): Graph
      requires blocked <= refs.Keys
      reads this`blocked, this`refs, this`delta
    {
      Graphed(blocked, refs, delta)
    }

    /** collect_white from the root, when everything that is live is white. */
    method CollectMembers(root: Actor, ghost g: Graph, ghost rc0: Counts) returns (count: int, members: set<Actor>)
      requires BlackInv(Blackening(g, root, Region(g, root), Region(g, root), rc0, white), rc, white, [Ref(root, 0)])
      requires live == white && root in white && Sees(blocked, refs, g, white)
      modifies this`rc, this`live, this`white
      ensures live == white == {} && rc == rc0 && members == old(white) && count == |members|
    {
      ghost var b := Blackening(g, root, Region(g, root), Region(g, root), rc0, white);
      count, members := CollectWhite(root, b);
      CollectedAll(b, rc, live);
    }

    /** scan_white on a greyed region leaves the garbage white. */
    method Whiten(root: Actor, ghost g: Graph, ghost rc0: Counts) returns (count: int, ghost trace: seq<Stage>)
      requires GreyInv(g, root, Region(g, root), rc0, rc, live, []) && white == {}
      requires Sees(blocked, refs, g, live)
      modifies this`rc, this`live, this`white
      ensures live == white == Garbage(g, rc0, root) && count == |white| && (count != 0 <==> root in white)
      ensures Traced(g, rc0, root, white, trace) && white <= old(live)
      ensures if count == 0 then rc == rc0
              else BlackInv(Blackening(g, root, Region(g, root), Region(g, root), rc0, white), rc, white, [Ref(root, 0)])
    {
      TrialGreyed(g, root, rc0, rc, live);
      count, trace := ScanWhite(root, ScanData(g, root, rc0));
      TrialWhitened(g, root, rc0, rc, live, white);
    }

    /** scan_white and collect_white on a greyed region: on return nothing is
        live and every count is what it was before the greying, and `members`
        are the actors that collect_white put into its map. */
    method CollectGarbage(root: Actor, ghost g: Graph, ghost rc0: Counts)
      returns (count: int, members: set<Actor>, ghost trace: seq<Stage>)
      requires GreyInv(g, root, Region(g, root), rc0, rc, live, []) && white == {}
      requires Sees(blocked, refs, g, live)
      modifies this`rc, this`live, this`white
      ensures live == white == {} && rc == rc0
      ensures members == Garbage(g, rc0, root) && count == |members|
      ensures count != 0 <==> root in members
      ensures Traced(g, rc0, root, members, trace)
    {
      count, trace := Whiten(root, g, rc0);
      members := {};
      if count != 0 {
        var count2;
        count2, members := CollectMembers(root, g, rc0);
        assert count2 == count;
      }
    }

    /** The three scans: they find the garbage and restore every count. `trace` is
        the run of the white scan. */
    method Trial(root: Actor, ghost g: Graph) returns (count: int, members: set<Actor>, ghost trace: seq<Stage>)
      requires Known() && live == white == {} && root in refs
      requires Depicts(blocked, refs, delta, g) && blocked <= rc.Keys
      modifies this`refs, this`delta, this`deferred, this`rc, this`live, this`white
      ensures Known() && old(refs.Keys) <= refs.Keys && Depicts(blocked, refs, delta, g)
      ensures live == white == {} && rc == old(rc) && deferred == old(deferred) - Region(g, root)
      ensures members == Garbage(g, rc, root) && count == |members|
      ensures count != 0 <==> root in members
      ensures Traced(g, rc, root, members, trace)
    {
      TrialStart(g, root);
      ScanGrey(root, g, Region(g, root));
      GreyDone(g, root, live);
      count, members, trace := CollectGarbage(root, g, old(rc));
    }

    ghost function Books(): Book
      reads this`perceived, this`cycles, this`nextToken, this`outbox
    {
      Book(perceived, cycles, nextToken, outbox)
    }

    /** Records a perceived cycle and sends the first CONFs, to the members in
        `sent`. */
    method Perceive(members: set<Actor>) returns (ghost rest: set<Actor>, ghost sent: seq<Actor>)
      requires Consistent(perceived, cycles, nextToken) && confGroup > 0 && members !! perceived.Keys
      modifies this`perceived, this`cycles, this`nextToken, this`outbox
      ensures Consistent(perceived, cycles, nextToken) && FirstGroup(members, confGroup, rest, sent)
      ensures Books() == Noted(old(Books()), members, rest, sent)
    {
      var left;
      left, sent := SendConf(nextToken, members);
      rest := left;
      RecordConsistent(perceived, cycles, members, nextToken, left);
      perceived := Record(perceived, members, nextToken);
      cycles := cycles[nextToken := Cycle(0, members, left)];
      nextToken := nextToken + 1;
    }

    /** Notes down what a scan has found, if anything. */
    method Report(count: int, members: set<Actor>) returns (found: bool, ghost rest: set<Actor>, ghost sent: seq<Actor>)
      requires Consistent(perceived, cycles, nextToken) && confGroup > 0 && members !! perceived.Keys && count == |members|
      modifies this`perceived, this`cycles, this`nextToken, this`outbox
      ensures Consistent(perceived, cycles, nextToken) && (found <==> members != {})
      ensures unchanged(`refs, `delta, `blocked, `deferred, `rc, `live, `white, `confGroup)
      ensures if found then FirstGroup(members, confGroup, rest, sent) && Books() == Noted(old(Books()), members, rest, sent)
              else Books() == old(Books())
    {
      found, rest, sent := count != 0, {}, [];
      if found {
        rest, sent := Perceive(members);
      }
    }

    /** The scans on a detector between two of them. */
    method Scan(root: Actor) returns (count: int, members: set<Actor>, ghost trace: seq<Stage>)
      requires Ready() && root in refs
      modifies this`refs, this`delta, this`deferred, this`rc, this`live, this`white
      ensures Ready() && GraphOf() == old(GraphOf()) && rc == old(rc)
      ensures deferred == old(deferred) - Region(old(GraphOf()), root)
      ensures Scanned(old(GraphOf()), old(rc), root, members, trace) && count == |members|
    {
      ghost var g := GraphOf();
      DepictsGraphed(blocked, refs, delta, g);
      count, members, trace := Trial(root, g);
      DepictsGraphed(blocked, refs, delta, g);
    }

    /** Scanning from `root` changes no count, no colour and no reference, and
        perceives exactly the garbage, all of it or nothing. No view of the garbage
        may be perceived, as the source asserts when it collects them. */
    method Detect(root: Actor)
      returns (found: bool, ghost garbage: set<Actor>, ghost trace: seq<Stage>,
               ghost rest: set<Actor>, ghost sent: seq<Actor>)
      requires Valid() && root in refs
      requires Garbage(GraphOf(), rc, root) !! perceived.Keys
      modifies this`refs, this`delta, this`deferred, this`rc, this`live, this`white
      modifies this`perceived, this`cycles, this`nextToken, this`outbox
      ensures Valid() && GraphOf() == old(GraphOf()) && rc == old(rc)
      ensures deferred == old(deferred) - Region(old(GraphOf()), root)
      ensures Scanned(old(GraphOf()), old(rc), root, garbage, trace) && (found <==> garbage != {})
      ensures if found then FirstGroup(garbage, confGroup, rest, sent) && Books() == Noted(old(Books()), garbage, rest, sent)
              else Books() == old(Books())
    {
      var count, members;
      count, members, trace := Scan(root);
      garbage := members;
      found, rest, sent := Report(count, members);
    }
  }

  /** The white scan has gone through the stages in `trace`, and the views in
      `white` are white at its end. */
  ghost predicate Traced(g: Graph, rc: Counts, root: Actor, white: set<Actor>, trace: seq<Stage>) {
    Scans(ScanData(g, root, rc), trace) && trace[|trace| - 1] == Stage(white, white, [])
  }

  /** A scan from `root` finds the garbage, which holds the root if there is any. */
  ghost predicate Scanned(g: Graph, rc: Counts, root: Actor, garbage: set<Actor>, trace: seq<Stage>) {
    && garbage == Garbage(g, rc, root) && (garbage != {} <==> root in garbage)
    && Traced(g, rc, root, garbage, trace)
  }

  /** What the detector has noted down: the cycle that a view points to, the
      cycles, the next token and the CONFs that were sent. */
  datatype Book = Book(perceived: map<Actor, nat>, cycles: map<nat, Cycle>, nextToken: nat, outbox: seq<Conf>)

  /** The first group of the members gets a CONF each, `rest` have to wait. */
  ghost predicate FirstGroup(members: set<Actor>, group: nat, rest: set<Actor>, sent: seq<Actor>) {
    rest <= members && Listed(sent, members - rest) && (|sent| == group || (|sent| < group && rest == {}))
  }

  /** The books with one more cycle under the next token: its members point to it
      and those in `sent` get a CONF, in this order. */
  function Noted(b: Book, members: set<Actor>, rest: set<Actor>, sent: seq<Actor>): Book {
    Book(Record(b.perceived, members, b.nextToken), b.cycles[b.nextToken := Cycle(0, members, rest)],
         b.nextToken + 1, b.outbox + Confs(sent, b.nextToken))
  }

  lemma BlackKeys(b: Blackening, rc: Counts, live: set<Actor>, work: seq<Ref>,
                  blocked: set<Actor>, refs: map<Actor, map<Actor, Size>>)
    requires BlackInv(b, rc, live, work) && Sees(blocked, refs, b.g, b.live0)
    ensures blocked == b.g.Keys && blocked <= rc.Keys && live <= blocked
    ensures forall a {:trigger refs[a]} :: a in live ==> a in refs && refs[a] == b.g[a]
  {
  }

  lemma Without(s: set<Actor>, a: Actor)
    ensures |s - {a}| == |s| - if a in s then 1 else 0
  {
    if a !in s { assert s - {a} == s; }
  }

  /** Of the views that were white, those that are still live are white, and
      `count` is the number of the others. */
  ghost predicate Recounted(was: set<Actor>, live: set<Actor>, white: set<Actor>, count: int) {
    white == was * live && count == |was| - |white|
  }

  lemma RecountOne(was: set<Actor>, live: set<Actor>, white: set<Actor>, count: int, a: Actor)
    requires Recounted(was, live, white, count)
    ensures Recounted(was, live - {a}, white - {a}, count + if a in white then 1 else 0)
  {
    Without(white, a);
  }

  ghost predicate Gathered(all: set<Actor>, white: set<Actor>, members: set<Actor>) {
    members == all - white && white <= all
  }

  lemma GatherOne(all: set<Actor>, white: set<Actor>, members: set<Actor>, a: Actor)
    requires Gathered(all, white, members)
    ensures Gathered(all, white - {a}, members + if a in white then {a} else {})
    ensures |members + if a in white then {a} else {}| == |members| + if a in white then 1 else 0
  {
  }

  /** The views of `members`, and no others, are made to point to `token`. */
  function Record(perceived: map<Actor, nat>, members: set<Actor>, token: nat): map<Actor, nat> {
    map v | v in perceived.Keys + members :: if v in members then token else perceived[v]
  }

  /** Every perceived cycle consists of the views that point to it. */
  ghost predicate Consistent(perceived: map<Actor, nat>, cycles: map<nat, Cycle>, nextToken: nat) {
    && (forall t {:trigger cycles[t]} :: t in cycles ==> t < nextToken)
    && (forall v {:trigger perceived[v]} :: v in perceived ==> perceived[v] in cycles && v in cycles[perceived[v]].members)
    && (forall t, v {:trigger v in cycles[t].members} :: t in cycles && v in cycles[t].members ==>
          v in perceived && perceived[v] == t)
  }

  lemma RecordConsistent(perceived: map<Actor, nat>, cycles: map<nat, Cycle>, members: set<Actor>, token: nat, rest: set<Actor>)
    requires Consistent(perceived, cycles, token) && members !! perceived.Keys
    ensures Consistent(Record(perceived, members, token), cycles[token := Cycle(0, members, rest)], token + 1)
  {
    var p1, c1 := Record(perceived, members, token), cycles[token := Cycle(0, members, rest)];
    forall v | v in p1 ensures p1[v] in c1 && v in c1[p1[v]].members {
      if v !in members { assert p1[v] == perceived[v]; }
    }
    forall t, v | t in c1 && v in c1[t].members ensures v in p1 && p1[v] == t {
      if t != token { assert v in cycles[t].members; }
    }
  }

  /** The sequence lists the set, every member once. */
  ghost predicate Listed(list: seq<Actor>, s: set<Actor>) {
    && |list| == |s|
    && (forall v {:trigger v in list} :: v in list <==> v in s)
  }

  function Confs(list: seq<Actor>, token: nat): seq<Conf> {
    seq(|list|, i requires 0 <= i < |list| => Conf(list[i], token))
  }
}
