/**
  The reference-counted configuration cache of one sandbox pod.

  Every leaf that runs with promoted configuration claims a ref on its bundle's digest, populates
  the shared cache on a miss, links it into its workspace, and drops the ref when it is done. Each
  locked script body is one atomic step; any number of leaves interleave, fail partway or die.
*/
module ConfigCache {
  import opened Prelude

  type Digest = string
  type SessionId = string

  /** A ref older than this many seconds, 1440 minutes, is swept. */
  const REF_STALE := 1440 * 60

  /** Seconds one overlay script may run before its exec is given up. */
  const EXEC_TIMEOUT := 300

  /** What the scripts touch: ref files with their modification times, cache directories, leaf links. */
  datatype Pod = Pod(refs: map<Digest, map<SessionId, nat>>, caches: set<Digest>, links: map<SessionId, Digest>)

  function RefsOf(p: Pod, d: Digest): map<SessionId, nat> {
    if d in p.refs then p.refs[d] else map[]
  }

  predicate Stale(mtime: nat, now: nat) {
    now - mtime > REF_STALE
  }

  function Sweep(rs: map<SessionId, nat>, now: nat): map<SessionId, nat> {
    map s | s in rs && !Stale(rs[s], now) :: rs[s]
  }

  /** The acquire script: sweep, claim the ref, then look for the cache (its answer is `Hit`). */
  function Claim(p: Pod, d: Digest, s: SessionId, now: nat): Pod {
    p.(refs := p.refs[d := Sweep(RefsOf(p, d), now)[s := now]])
  }

  predicate Hit(p: Pod, d: Digest) {
    d in p.caches
  }

  /** The populate script when it succeeds. */
  function Fill(p: Pod, d: Digest): Pod {
    p.(caches := p.caches + {d})
  }

  function Link(p: Pod, d: Digest, s: SessionId): Pod {
    p.(links := p.links[s := d])
  }

  /** The cleanup script: drop the link and the ref, sweep, and tear down once no ref is left. */
  function Release(p: Pod, d: Digest, s: SessionId, now: nat): Pod {
    var left := Sweep(RefsOf(p, d) - {s}, now);
    var p1 := p.(links := p.links - {s});
    if left == map[] then
      p1.(refs := p.refs - {d}, caches := p.caches - {d})
    else
      p1.(refs := p.refs[d := left])
  }

  // ---------------------------------------------------------------------------
  // The scripts, updating the pod in place

  /** How far an overlay gets before one of its execs fails. */
  datatype Outcome = Landed | FailedBeforeClaim | FailedAfterClaim | FailedAfterFill

  class Sandbox {
    var refs: map<Digest, map<SessionId, nat>>
    var caches: set<Digest>
    var links: map<SessionId, Digest>

    function View(): Pod
      reads this
    {
      Pod(refs, caches, links)
    }

    constructor ()
      ensures View() == EmptyPod
    {
      refs, caches, links := map[], {}, map[];
    }

    method CacheAcquire(d: Digest, s: SessionId, now: nat) returns (hit: bool)
      modifies this
      ensures View() == Claim(old(View()), d, s, now)
      ensures hit <==> Hit(View(), d)
    {
      if d !in refs {
        refs := refs[d := map[]];
      }
      var mine: map<SessionId, nat> := Sweep(refs[d], now);
      mine := mine[s := now];
      refs := refs[d := mine];
      assert refs == old(refs)[d := Sweep(RefsOf(old(View()), d), now)[s := now]];
      hit := d in caches;
    }

    method CachePopulate(d: Digest)
      modifies this`caches
      ensures View() == Fill(old(View()), d)
    {
      if d in caches {
        assert caches == caches + {d};
        return;
      }
      caches := caches + {d};
    }

    method LeafBind(d: Digest, s: SessionId)
      modifies this`links
      ensures View() == Link(old(View()), d, s)
    {
      links := links[s := d];
    }

    method ConfigCleanup(d: Digest, s: SessionId, now: nat)
      modifies this
      ensures View() == Release(old(View()), d, s, now)
    {
      links := links - {s};
      var left := map[];
      if d in refs {
        left := Sweep(refs[d] - {s}, now);
        refs := refs[d := left];
      }
      assert left == Sweep(RefsOf(old(View()), d) - {s}, now);
      if left == map[] {
        caches := caches - {d};
        refs := refs - {d};
      }
    }

    /**
      The overlay's order of scripts. A ref is claimed first, the cache is filled if it is missing, and a
      failure leaves whatever the earlier scripts did for the caller's cleanup to undo.
    */
    method OverlayConfig(d: Digest, s: SessionId, now: nat, outcome: Outcome) returns (ok: bool)
      modifies this
      ensures ok <==> outcome.Landed?
      ensures ok ==> Hit(View(), d) && s in links && links[s] == d
      ensures !outcome.FailedBeforeClaim? ==> s in RefsOf(View(), d) && RefsOf(View(), d)[s] == now
      ensures outcome.FailedBeforeClaim? ==> View() == old(View())
      ensures outcome.FailedAfterClaim? ==> View() == Claim(old(View()), d, s, now)
      ensures outcome.FailedAfterFill? ==> View() == Fill(Claim(old(View()), d, s, now), d)
    {
      if outcome.FailedBeforeClaim? {
        return false;
      }
      var hit := CacheAcquire(d, s, now);
      if outcome.FailedAfterClaim? {
        return false;
      }
      if !hit {
        CachePopulate(d);
      }
      assert View().caches == Fill(Claim(old(View()), d, s, now), d).caches;
      if outcome.FailedAfterFill? {
        return false;
      }
      LeafBind(d, s);
      ok := true;
    }
  }

  // ---------------------------------------------------------------------------
  // Interleaved leaves

  datatype Phase = Starting | Claimed(hit: bool) | Filled | Bound | Failed

  /** One leaf's overlay; `since` is when its ref was claimed, if it got that far. */
  datatype Leaf = Leaf(digest: Digest, since: Option<nat>, phase: Phase)

  /** `abandoned` lists the leaves that died without running their cleanup. */
  datatype World = World(pod: Pod, now: nat, leaves: map<SessionId, Leaf>, abandoned: set<(SessionId, Digest)>)

  const EmptyPod := Pod(map[], {}, map[])
  const Init := World(EmptyPod, 0, map[], {})

  datatype Event =
    | Tick(seconds: nat)
    | Begin(s: SessionId, d: Digest)
    | Acquire(s: SessionId)
    | Populate(s: SessionId)
    | Bind(s: SessionId)
    | Fail(s: SessionId)
    | Cleanup(s: SessionId)
    | Crash(s: SessionId)

  /** An event changes nothing in a state in which the code could not take that step. */
  predicate Enabled(w: World, ev: Event) {
    match ev
    case Tick(_) => true
    case Begin(s, _) => s !in w.leaves
    case Acquire(s) => s in w.leaves && w.leaves[s].phase.Starting?
    case Populate(s) =>
      // the claim and the populate are two consecutive execs, each cut off at its timeout
      && s in w.leaves && w.leaves[s].phase == Claimed(false)
      && w.leaves[s].since.Some? && w.now <= w.leaves[s].since.value + 2 * EXEC_TIMEOUT
    case Bind(s) => s in w.leaves && (w.leaves[s].phase == Claimed(true) || w.leaves[s].phase.Filled?)
    case Fail(s) => s in w.leaves && !w.leaves[s].phase.Bound?
    case Cleanup(s) => s in w.leaves && (w.leaves[s].phase.Bound? || w.leaves[s].phase.Failed?)
    case Crash(s) => s in w.leaves
  }

  function Apply(w: World, ev: Event): World {
    if !Enabled(w, ev) then w else
    match ev
    case Tick(n) => w.(now := w.now + n)
    case Begin(s, d) => w.(leaves := w.leaves[s := Leaf(d, None, Starting)])
    case Acquire(s) =>
      var d := w.leaves[s].digest;
      var p := Claim(w.pod, d, s, w.now);
      w.(pod := p, leaves := w.leaves[s := Leaf(d, Some(w.now), Claimed(Hit(p, d)))])
    case Populate(s) =>
      w.(pod := Fill(w.pod, w.leaves[s].digest), leaves := w.leaves[s := w.leaves[s].(phase := Filled)])
    case Bind(s) =>
      w.(pod := Link(w.pod, w.leaves[s].digest, s), leaves := w.leaves[s := w.leaves[s].(phase := Bound)])
    case Fail(s) => w.(leaves := w.leaves[s := w.leaves[s].(phase := Failed)])
    case Cleanup(s) =>
      w.(pod := Release(w.pod, w.leaves[s].digest, s, w.now), leaves := w.leaves - {s})
    case Crash(s) =>
      w.(leaves := w.leaves - {s}, abandoned := w.abandoned + {(s, w.leaves[s].digest)})
  }

  function Run(w: World, events: seq<Event>): World {
    if events == [] then w else Apply(Run(w, events[..|events| - 1]), events[|events| - 1])
  }

  predicate Young(l: Leaf, now: nat) {
    l.since.Some? && !Stale(l.since.value, now)
  }

  /** The leaf has been told that the cache is there. */
  predicate Relies(l: Leaf) {
    l.phase == Claimed(true) || l.phase.Filled? || l.phase.Bound?
  }

  ghost predicate LeafInv(w: World, s: SessionId)
    requires s in w.leaves
  {
    var l := w.leaves[s];
    && (l.since.Some? ==> l.since.value <= w.now)
    && (l.phase.Starting? ==> l.since.None?)
    && (Relies(l) || l.phase.Claimed? ==> l.since.Some?)
    && (Young(l, w.now) ==> s in RefsOf(w.pod, l.digest) && RefsOf(w.pod, l.digest)[s] == l.since.value)
    && (Young(l, w.now) && Relies(l) ==> Hit(w.pod, l.digest))
    && (l.phase.Bound? ==> s in w.pod.links && w.pod.links[s] == l.digest)
  }

  ghost predicate RefInv(w: World, d: Digest)
    requires d in w.pod.refs
  {
    && w.pod.refs[d] != map[]
    && forall s :: s in w.pod.refs[d] ==>
         (s in w.leaves && w.leaves[s].digest == d) || (s, d) in w.abandoned
  }

  ghost predicate Inv(w: World) {
    && (forall s :: s in w.leaves ==> LeafInv(w, s))
    && (forall d :: d in w.pod.refs ==> RefInv(w, d))
    && (forall d :: d in w.pod.caches ==> d in w.pod.refs)
  }

  lemma AcquireKeepsInv(w: World, s: SessionId)
    requires Inv(w) && Enabled(w, Acquire(s))
    ensures Inv(Apply(w, Acquire(s)))
  {
    var w' := Apply(w, Acquire(s));
    var d := w.leaves[s].digest;
    assert s in w'.pod.refs[d];
    forall t | t in w'.leaves ensures LeafInv(w', t) {
      assert t in w.leaves && LeafInv(w, t);
    }
    forall e | e in w'.pod.refs ensures RefInv(w', e) {
      if e in w.pod.refs {
        assert RefInv(w, e);
      }
    }
  }

  lemma PopulateKeepsInv(w: World, s: SessionId)
    requires Inv(w) && Enabled(w, Populate(s))
    ensures Inv(Apply(w, Populate(s)))
  {
    var w' := Apply(w, Populate(s));
    assert LeafInv(w, s) && Young(w.leaves[s], w.now);
    forall t | t in w'.leaves ensures LeafInv(w', t) {
      assert t in w.leaves && LeafInv(w, t);
    }
    forall e | e in w'.pod.refs ensures RefInv(w', e) {
      assert RefInv(w, e);
    }
  }

  lemma CleanupKeepsInv(w: World, s: SessionId)
    requires Inv(w) && Enabled(w, Cleanup(s))
    ensures Inv(Apply(w, Cleanup(s)))
  {
    var w' := Apply(w, Cleanup(s));
    var d := w.leaves[s].digest;
    var left := Sweep(RefsOf(w.pod, d) - {s}, w.now);
    forall t | t in w'.leaves ensures LeafInv(w', t) {
      assert t in w.leaves && LeafInv(w, t);
      if w.leaves[t].digest == d && Young(w.leaves[t], w.now) {
        assert t in left;
      }
    }
    forall e | e in w'.pod.refs ensures RefInv(w', e) {
      assert e != d ==> RefInv(w, e);
      assert e == d ==> d in w.pod.refs && RefInv(w, d);
    }
  }

  lemma StepKeepsInv(w: World, ev: Event)
    requires Inv(w)
    ensures Inv(Apply(w, ev))
  {
    if Enabled(w, ev) {
      match ev
      case Acquire(s) => AcquireKeepsInv(w, s);
      case Populate(s) => PopulateKeepsInv(w, s);
      case Cleanup(s) => CleanupKeepsInv(w, s);
      case _ =>
        var w' := Apply(w, ev);
        forall t | t in w'.leaves ensures LeafInv(w', t) {
          assert t in w.leaves ==> LeafInv(w, t);
        }
        forall e | e in w'.pod.refs ensures RefInv(w', e) {
          assert RefInv(w, e);
        }
    }
  }

  lemma {:induction false} ReachableInv(events: seq<Event>)
    ensures Inv(Run(Init, events))
  {
    if events != [] {
      ReachableInv(events[..|events| - 1]);
      StepKeepsInv(Run(Init, events[..|events| - 1]), events[|events| - 1]);
    }
  }

  /**
    In every run, a leaf whose overlay has landed keeps its link, and the link keeps its cache,
    until the leaf's own cleanup, whatever the other leaves do, as long as its ref is no older than
    a day.
  */
  lemma BoundLeafKeepsCache(events: seq<Event>, s: SessionId)
    ensures var w := Run(Init, events);
      s in w.leaves && w.leaves[s].phase.Bound? && w.leaves[s].since.Some? && w.now - w.leaves[s].since.value <= 86400
      ==> s in w.pod.links && w.pod.links[s] == w.leaves[s].digest && w.pod.links[s] in w.pod.caches
  {
    ReachableInv(events);
    var w := Run(Init, events);
    if s in w.leaves {
      assert LeafInv(w, s);
    }
  }

  /** In every run, a cache directory never outlives its last ref. */
  lemma CacheImpliesRef(events: seq<Event>, d: Digest)
    ensures var w := Run(Init, events); d in w.pod.caches ==> RefsOf(w.pod, d) != map[]
  {
    ReachableInv(events);
    var w := Run(Init, events);
    if d in w.pod.caches {
      assert d in w.pod.refs && RefInv(w, d);
    }
  }

  /** A link is of a leaf that is bound to that digest, or of one that died with it. */
  predicate LinksInv(w: World) {
    forall s :: s in w.pod.links ==>
      || (s in w.leaves && w.leaves[s].phase.Bound? && w.leaves[s].digest == w.pod.links[s])
      || (s, w.pod.links[s]) in w.abandoned
  }

  lemma {:induction false} ReachableLinks(events: seq<Event>)
    ensures LinksInv(Run(Init, events))
  {
    hide Sweep;
    if events != [] {
      ReachableLinks(events[..|events| - 1]);
    }
  }

  /**
    Once every leaf has cleaned up, landed or failed, nothing of the cache is left on the pod, and no
    link to it. Only a leaf that died can leave anything, and then only under its own digest.
  */
  lemma NothingSurvivesTheLeaves(events: seq<Event>)
    ensures var w := Run(Init, events);
      w.leaves == map[] ==>
        && (forall d :: d in w.pod.caches || d in w.pod.refs ==> exists s :: (s, d) in w.abandoned)
        && forall s :: s in w.pod.links ==> (s, w.pod.links[s]) in w.abandoned
    ensures var w := Run(Init, events);
      w.leaves == map[] && w.abandoned == {} ==> w.pod == Pod(map[], {}, map[])
  {
    ReachableInv(events);
    ReachableLinks(events);
    var w := Run(Init, events);
    if w.leaves == map[] {
      forall d | d in w.pod.caches || d in w.pod.refs ensures exists s :: (s, d) in w.abandoned {
        assert RefInv(w, d);
        var s :| s in w.pod.refs[d];
      }
      if w.abandoned == {} {
        assert forall d :: d !in w.pod.refs;
        assert w.pod.refs == map[] && w.pod.links == map[];
      }
    }
  }

  /** A cleanup removes the cache exactly when every other ref on the digest has gone stale. */
  lemma CleanupReclaimsIff(w: World, s: SessionId)
    requires Enabled(w, Cleanup(s))
    ensures var d := w.leaves[s].digest;
      d in Apply(w, Cleanup(s)).pod.caches <==>
      d in w.pod.caches && exists t :: t in RefsOf(w.pod, d) && t != s && !Stale(RefsOf(w.pod, d)[t], w.now)
  {
    var d := w.leaves[s].digest;
    var left := Sweep(RefsOf(w.pod, d) - {s}, w.now);
    if left == map[] {
      forall t | t in RefsOf(w.pod, d) && t != s ensures Stale(RefsOf(w.pod, d)[t], w.now) {
        assert t !in left;
      }
    } else {
      var t :| t in left;
      assert t in RefsOf(w.pod, d) && t != s && !Stale(RefsOf(w.pod, d)[t], w.now);
    }
  }

  /** When every ref on a digest is stale, one leaf that starts, claims, fails and cleans up clears the digest. */
  lemma CycleReclaims(w: World, t: SessionId, d: Digest)
    requires t !in w.leaves && forall u :: u in RefsOf(w.pod, d) ==> Stale(RefsOf(w.pod, d)[u], w.now)
    ensures var w' := Apply(Apply(Apply(Apply(w, Begin(t, d)), Acquire(t)), Fail(t)), Cleanup(t));
      d !in w'.pod.caches && d !in w'.pod.refs && w'.leaves == w.leaves && w'.abandoned == w.abandoned
  {
    var w3 := Apply(Apply(Apply(w, Begin(t, d)), Acquire(t)), Fail(t));
    assert RefsOf(w3.pod, d).Keys <= {t};
    assert Sweep(RefsOf(w3.pod, d) - {t}, w.now) == map[];
  }

  /**
    The staleness bound is exact. Past it, when every ref on the digest is stale, one other leaf
    takes the cache away from a leaf still bound to it.
  */
  lemma StaleLeafLosesCache(w: World, s: SessionId, t: SessionId)
    requires s in w.leaves && w.leaves[s].phase.Bound? && t !in w.leaves
    requires forall u :: u in RefsOf(w.pod, w.leaves[s].digest) ==> Stale(RefsOf(w.pod, w.leaves[s].digest)[u], w.now)
    ensures var d := w.leaves[s].digest;
      var w' := Apply(Apply(Apply(Apply(w, Begin(t, d)), Acquire(t)), Fail(t)), Cleanup(t));
      s in w'.leaves && w'.leaves[s].phase.Bound? && d !in w'.pod.caches
  {
    CycleReclaims(w, t, w.leaves[s].digest);
  }

  /** What a leaf that died leaves behind is cleared by the next leaf of its digest, once the refs are past the bound. */
  lemma DeadLeafIsReclaimed(events: seq<Event>, s: SessionId, t: SessionId)
    requires s in Run(Init, events).leaves && t !in Run(Init, events).leaves
    ensures var w := Run(Init, events); var d := w.leaves[s].digest;
      var late := Apply(Apply(w, Crash(s)), Tick(86401));
      var w' := Apply(Apply(Apply(Apply(late, Begin(t, d)), Acquire(t)), Fail(t)), Cleanup(t));
      && late.pod == w.pod && s !in w'.leaves && (s, d) in w'.abandoned
      && d !in w'.pod.caches && d !in w'.pod.refs
  {
    RefsNotAhead(events);
    var w := Run(Init, events);
    var d := w.leaves[s].digest;
    var late := Apply(Apply(w, Crash(s)), Tick(86401));
    CycleReclaims(late, t, d);
  }

  /** No ref is younger than the present. */
  predicate NotAhead(w: World) {
    forall d, u :: d in w.pod.refs && u in w.pod.refs[d] ==> w.pod.refs[d][u] <= w.now
  }

  lemma StepNotAhead(w: World, ev: Event)
    requires NotAhead(w)
    ensures NotAhead(Apply(w, ev))
  {
    var w' := Apply(w, ev);
    forall d, u | d in w'.pod.refs && u in w'.pod.refs[d] ensures w'.pod.refs[d][u] <= w'.now {
      if d in w.pod.refs && u in w.pod.refs[d] {
        assert w.pod.refs[d][u] <= w.now;
      }
    }
  }

  lemma {:induction false} RefsNotAhead(events: seq<Event>)
    ensures NotAhead(Run(Init, events))
  {
    hide NotAhead;
    if events == [] {
      NothingAhead();
    } else {
      RefsNotAhead(events[..|events| - 1]);
      StepNotAhead(Run(Init, events[..|events| - 1]), events[|events| - 1]);
    }
  }

  lemma NothingAhead()
    ensures NotAhead(Init)
  {
  }

  lemma RunSnoc(events: seq<Event>, ev: Event)
    ensures Run(Init, events + [ev]) == Apply(Run(Init, events), ev)
  {
    assert (events + [ev])[..|events|] == events;
  }

  /** One leaf overlays the configuration, and stays bound for longer than a ref lasts. */
  function Overslept(s: SessionId, d: Digest): seq<Event> {
    [] + [Begin(s, d)] + [Acquire(s)] + [Populate(s)] + [Bind(s)] + [Tick(REF_STALE + 1)]
  }

  lemma OversleptState(s: SessionId, d: Digest)
    ensures Run(Init, Overslept(s, d)) ==
      World(Pod(map[d := map[s := 0]], {d}, map[s := d]), REF_STALE + 1, map[s := Leaf(d, Some(0), Bound)], {})
  {
    RunSnoc([], Begin(s, d));
    RunSnoc([] + [Begin(s, d)], Acquire(s));
    RunSnoc([] + [Begin(s, d)] + [Acquire(s)], Populate(s));
    RunSnoc([] + [Begin(s, d)] + [Acquire(s)] + [Populate(s)], Bind(s));
    RunSnoc([] + [Begin(s, d)] + [Acquire(s)] + [Populate(s)] + [Bind(s)], Tick(REF_STALE + 1));
    hide Run;
    var w1 := World(EmptyPod, 0, map[s := Leaf(d, None, Starting)], {});
    assert Apply(Init, Begin(s, d)) == w1;
    assert Sweep(map[], 0) == map[];
    var w2 := World(Pod(map[d := map[s := 0]], {}, map[]), 0, map[s := Leaf(d, Some(0), Claimed(false))], {});
    assert Apply(w1, Acquire(s)) == w2;
    var w3 := World(Pod(map[d := map[s := 0]], {d}, map[]), 0, map[s := Leaf(d, Some(0), Filled)], {});
    assert Apply(w2, Populate(s)) == w3;
  }

  /** A run that gets there: for any two leaves of one digest the second takes the cache from the first. */
  lemma StaleLeafIsReached(s: SessionId, t: SessionId, d: Digest)
    requires s != t
    ensures var w := Run(Init, Overslept(s, d) + [Begin(t, d)] + [Acquire(t)] + [Fail(t)] + [Cleanup(t)]);
      s in w.leaves && w.leaves[s].phase.Bound? && w.leaves[s].digest == d && d !in w.pod.caches
  {
    OversleptState(s, d);
    var e := Overslept(s, d);
    RunSnoc(e, Begin(t, d));
    RunSnoc(e + [Begin(t, d)], Acquire(t));
    RunSnoc(e + [Begin(t, d)] + [Acquire(t)], Fail(t));
    RunSnoc(e + [Begin(t, d)] + [Acquire(t)] + [Fail(t)], Cleanup(t));
    hide Run;
    var w := Run(Init, e);
    StaleLeafLosesCache(w, s, t);
    OthersKeepLeaf(w, s, t, d);
  }

  lemma OthersKeepLeaf(w: World, s: SessionId, t: SessionId, d: Digest)
    requires s in w.leaves && s != t
    ensures var w' := Apply(Apply(Apply(Apply(w, Begin(t, d)), Acquire(t)), Fail(t)), Cleanup(t));
      s in w'.leaves && w'.leaves[s] == w.leaves[s]
  {
  }
}
