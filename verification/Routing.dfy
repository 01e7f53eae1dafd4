/** Least-in-flight and session-sticky choice of a worker, and admission. */
module Routing {
  import opened Prelude

  /** One worker as the router sees it. */
  datatype WorkerView = WorkerView(id: nat, inFlight: nat, healthy: bool)

  /** The index of the healthy view with the fewest turns in flight, the first of equals. */
  function Least(views: seq<WorkerView>): (k: Option<nat>)
    ensures k.Some? ==> k.value < |views| && views[k.value].healthy
  {
    if views == [] then None else
    var n := |views| - 1;
    var best := Least(views[..n]);
    if views[n].healthy && (best.None? || views[n].inFlight < views[best.value].inFlight) then Some(n) else best
  }

  /** No healthy view is better than the chosen one, and only an unhealthy pool yields none. */
  lemma {:induction false} LeastIsBest(views: seq<WorkerView>)
    ensures Least(views).None? <==> forall j :: 0 <= j < |views| ==> !views[j].healthy
    ensures Least(views).Some? ==> forall j :: 0 <= j < |views| && views[j].healthy ==>
      var k := Least(views).value;
      views[k].inFlight < views[j].inFlight || (views[k].inFlight == views[j].inFlight && k <= j)
  {
    if views != [] {
      LeastIsBest(views[..|views| - 1]);
    }
  }

  /** Healthy, with no more turns in flight than any healthy worker, and fewer than those before it. */
  predicate FirstLeast(views: seq<WorkerView>, k: nat) {
    && k < |views| && views[k].healthy
    && forall j :: 0 <= j < |views| && views[j].healthy ==>
      views[k].inFlight <= views[j].inFlight && (j < k ==> views[k].inFlight < views[j].inFlight)
  }

  method PickLeastLoaded(views: seq<WorkerView>) returns (id: Option<nat>)
    ensures id.None? <==> forall j :: 0 <= j < |views| ==> !views[j].healthy
    ensures id.Some? ==> Least(views).Some? && FirstLeast(views, Least(views).value) && id.value == views[Least(views).value].id
  {
    LeastIsBest(views);
    var best: Option<nat> := None;
    assert views[..0] == [];
    for i := 0 to |views|
      invariant best == Least(views[..i])
    {
      assert views[..i + 1][..i] == views[..i];
      if !views[i].healthy {
        continue;
      }
      if best.None? || views[i].inFlight < views[best.value].inFlight {
        best := Some(i);
      }
    }
    assert views[..|views|] == views;
    id := if best.None? then None else Some(views[best.value].id);
  }

  /** Every healthy worker is at its cap or above it. */
  predicate IsSaturated(views: seq<WorkerView>, turnsPerWorker: nat) {
    !exists i :: 0 <= i < |views| && views[i].healthy && views[i].inFlight < turnsPerWorker
  }

  /** An admitted connection's least-loaded worker is below the cap. */
  lemma AdmittedHasRoom(views: seq<WorkerView>, turnsPerWorker: nat)
    ensures !IsSaturated(views, turnsPerWorker) <==>
      Least(views).Some? && views[Least(views).value].inFlight < turnsPerWorker
  {
    LeastIsBest(views);
  }
}

/** Session affinity: a bounded table of pins, kept in order of use. */
module StickyRouting {
  import opened Prelude
  import opened Routing

  type Sid = string

  datatype Pin = Pin(sid: Sid, worker: nat)

  function Lookup(pins: seq<Pin>, sid: Sid): (w: Option<nat>)
    ensures w.Some? ==> Pin(sid, w.value) in pins
    ensures w.None? ==> forall p :: p in pins ==> p.sid != sid
  {
    if pins == [] then None
    else if pins[0].sid == sid then Some(pins[0].worker)
    else Lookup(pins[1..], sid)
  }

  function Without(pins: seq<Pin>, sid: Sid): seq<Pin> {
    if pins == [] then []
    else if pins[|pins| - 1].sid == sid then Without(pins[..|pins| - 1], sid)
    else Without(pins[..|pins| - 1], sid) + [pins[|pins| - 1]]
  }

  lemma {:induction false} WithoutKeeps(pins: seq<Pin>, sid: Sid)
    ensures |Without(pins, sid)| <= |pins|
    ensures forall p :: p in Without(pins, sid) <==> p in pins && p.sid != sid
  {
    if pins != [] {
      WithoutKeeps(pins[..|pins| - 1], sid);
      assert pins == pins[..|pins| - 1] + [pins[|pins| - 1]];
    }
  }

  function LastN<T>(s: seq<T>, n: nat): seq<T> {
    if |s| <= n then s else s[|s| - n..]
  }

  /** Insert or refresh at the most recent end, then evict from the oldest. */
  function Remember(pins: seq<Pin>, p: Pin, maxPins: nat): seq<Pin> {
    LastN(Without(pins, p.sid) + [p], maxPins)
  }

  predicate Distinct(pins: seq<Pin>) {
    forall i, j :: 0 <= i < j < |pins| ==> pins[i].sid != pins[j].sid
  }

  /** A connection to route: its session, if it names one, and the workers at that moment. */
  datatype Connection = Connection(sid: Option<Sid>, views: seq<WorkerView>)

  predicate HealthyId(views: seq<WorkerView>, id: nat) {
    exists i :: 0 <= i < |views| && views[i].id == id && views[i].healthy
  }

  function Chosen(pins: seq<Pin>, c: Connection): Option<nat> {
    var pinned := if c.sid.Some? then Lookup(pins, c.sid.value) else None;
    if pinned.Some? && HealthyId(c.views, pinned.value) then pinned
    else if Least(c.views).Some? then Some(c.views[Least(c.views).value].id)
    else None
  }

  /** A healthy pin is kept; anyone else gets a healthy worker with the fewest turns in flight, if there is one. */
  lemma ChosenIs(pins: seq<Pin>, c: Connection)
    ensures var pinned := if c.sid.Some? then Lookup(pins, c.sid.value) else None;
      if pinned.Some? && exists i :: 0 <= i < |c.views| && c.views[i].id == pinned.value && c.views[i].healthy then Chosen(pins, c) == pinned
      else
        && (Chosen(pins, c).None? <==> forall j :: 0 <= j < |c.views| ==> !c.views[j].healthy)
        && (Chosen(pins, c).Some? ==> exists k :: 0 <= k < |c.views| && c.views[k].id == Chosen(pins, c).value && FirstLeast(c.views, k))
  {
    LeastIsBest(c.views);
    if Least(c.views).Some? {
      assert FirstLeast(c.views, Least(c.views).value);
    }
  }

  function After(pins: seq<Pin>, c: Connection, maxPins: nat): seq<Pin> {
    if c.sid.Some? && Chosen(pins, c).Some? then Remember(pins, Pin(c.sid.value, Chosen(pins, c).value), maxPins) else pins
  }

  class StickyPolicy {
    const maxPins: nat
    var pins: seq<Pin>

    constructor (maxPins: nat)
      ensures this.maxPins == maxPins && pins == []
    {
      this.maxPins := maxPins;
      pins := [];
    }

    method RememberPin(sid: Sid, id: nat)
      modifies this
      ensures pins == Remember(old(pins), Pin(sid, id), maxPins)
    {
      pins := Without(pins, sid) + [Pin(sid, id)];
      ghost var all := pins;
      while |pins| > maxPins
        invariant |pins| <= |all| && pins == all[|all| - |pins|..]
        invariant |pins| < |all| ==> |pins| >= maxPins
      {
        pins := pins[1..];
      }
    }

    method Pick(c: Connection) returns (id: Option<nat>)
      modifies this
      ensures id == Chosen(old(pins), c)
      ensures pins == After(old(pins), c, maxPins)
    {
      if c.sid.None? {
        id := PickLeastLoaded(c.views);
        return;
      }
      var sid := c.sid.value;
      var pinned := Lookup(pins, sid);
      if pinned.Some? && HealthyId(c.views, pinned.value) {
        RememberPin(sid, pinned.value);
        return pinned;
      }
      id := PickLeastLoaded(c.views);
      if id.Some? {
        RememberPin(sid, id.value);
      }
    }
  }

  // ---------------------------------------------------------------------------
  // The table is the most recently used pins, in order of last use

  function RememberAll(history: seq<Pin>, maxPins: nat): seq<Pin> {
    if history == [] then []
    else Remember(RememberAll(history[..|history| - 1], maxPins), history[|history| - 1], maxPins)
  }

  /** The index of a session's latest pin, or -1. */
  function LastUse(history: seq<Pin>, sid: Sid): (i: int)
    ensures -1 <= i < |history|
    ensures i >= 0 ==> history[i].sid == sid
    ensures forall j :: i < j < |history| ==> history[j].sid != sid
  {
    if history == [] then -1
    else if history[|history| - 1].sid == sid then |history| - 1
    else LastUse(history[..|history| - 1], sid)
  }

  /** Each pin of the order is its session's latest. */
  ghost predicate Latest(order: seq<Pin>, history: seq<Pin>) {
    forall p :: p in order ==> LastUse(history, p.sid) >= 0 && history[LastUse(history, p.sid)] == p
  }

  /** Every session ever pinned is in the order. */
  ghost predicate Covers(order: seq<Pin>, history: seq<Pin>) {
    forall p :: p in history ==> history[LastUse(history, p.sid)] in order
  }

  ghost predicate ByLastUse(order: seq<Pin>, history: seq<Pin>) {
    forall i, j :: 0 <= i < j < |order| ==> LastUse(history, order[i].sid) < LastUse(history, order[j].sid)
  }

  /** Every session ever pinned, with its latest worker, by time of last use. */
  ghost predicate RecencyOrder(order: seq<Pin>, history: seq<Pin>) {
    Latest(order, history) && Covers(order, history) && ByLastUse(order, history)
  }

  function Recency(history: seq<Pin>): seq<Pin> {
    if history == [] then []
    else Without(Recency(history[..|history| - 1]), history[|history| - 1].sid) + [history[|history| - 1]]
  }

  lemma {:induction false} WithoutIsOrdered(pins: seq<Pin>, sid: Sid, history: seq<Pin>)
    requires ByLastUse(pins, history)
    ensures ByLastUse(Without(pins, sid), history)
  {
    if pins != [] {
      var n := |pins| - 1;
      WithoutIsOrdered(pins[..n], sid, history);
      WithoutKeeps(pins[..n], sid);
      forall i | 0 <= i < |Without(pins[..n], sid)|
        ensures LastUse(history, Without(pins[..n], sid)[i].sid) < LastUse(history, pins[n].sid)
      {
        assert Without(pins[..n], sid)[i] in pins[..n];
      }
    }
  }

  lemma LastUseAppend(h: seq<Pin>, p: Pin)
    ensures forall sid :: LastUse(h + [p], sid) == if sid == p.sid then |h| else LastUse(h, sid)
  {
    assert (h + [p])[..|h|] == h;
  }

  lemma StepLatest(order: seq<Pin>, h: seq<Pin>, p: Pin)
    requires RecencyOrder(order, h)
    ensures Latest(Without(order, p.sid) + [p], h + [p]) && Covers(Without(order, p.sid) + [p], h + [p])
  {
    WithoutKeeps(order, p.sid);
    LastUseAppend(h, p);
    var h', order' := h + [p], Without(order, p.sid) + [p];
    forall q | q in order' ensures LastUse(h', q.sid) >= 0 && h'[LastUse(h', q.sid)] == q {
      assert q == p || (q in order && q.sid != p.sid);
    }
    forall q | q in h' ensures h'[LastUse(h', q.sid)] in order' {
      if q.sid == p.sid {
        assert order'[|order'| - 1] == p;
      } else {
        assert q in h;
      }
    }
  }

  lemma StepByLastUse(order: seq<Pin>, h: seq<Pin>, p: Pin)
    requires RecencyOrder(order, h)
    ensures ByLastUse(Without(order, p.sid) + [p], h + [p])
  {
    WithoutIsOrdered(order, p.sid, h);
    WithoutKeeps(order, p.sid);
    LastUseAppend(h, p);
    hide Without, LastUse, Latest, Covers;
    var h', kept := h + [p], Without(order, p.sid);
    var order' := kept + [p];
    forall i, j | 0 <= i < j < |order'| ensures LastUse(h', order'[i].sid) < LastUse(h', order'[j].sid) {
      assert order'[i] == kept[i] && kept[i] in kept;
      assert LastUse(h', kept[i].sid) == LastUse(h, kept[i].sid) < |h|;
      if j < |kept| {
        assert order'[j] == kept[j] && kept[j] in kept;
      }
    }
  }

  lemma {:induction false} RecencyIsOrder(history: seq<Pin>)
    ensures RecencyOrder(Recency(history), history)
  {
    hide Without, Latest, Covers, ByLastUse;
    if history == [] {
      NothingIsOrdered();
    } else {
      var n := |history| - 1;
      RecencyIsOrder(history[..n]);
      StepRecency(Recency(history[..n]), history[..n], history[n]);
      assert history == history[..n] + [history[n]];
    }
  }

  lemma NothingIsOrdered()
    ensures RecencyOrder([], [])
  {
  }

  lemma StepRecency(order: seq<Pin>, h: seq<Pin>, p: Pin)
    requires RecencyOrder(order, h)
    ensures RecencyOrder(Without(order, p.sid) + [p], h + [p])
  {
    hide Without, Latest, Covers, ByLastUse;
    StepLatest(order, h, p);
    StepByLastUse(order, h, p);
  }

  lemma {:induction false} WithoutConcat(a: seq<Pin>, b: seq<Pin>, sid: Sid)
    ensures Without(a + b, sid) == Without(a, sid) + Without(b, sid)
  {
    if b == [] {
      assert a + b == a;
    } else {
      WithoutConcat(a, b[..|b| - 1], sid);
      assert (a + b)[..|a + b| - 1] == a + b[..|b| - 1];
    }
  }

  lemma {:induction false} WithoutAbsent(pins: seq<Pin>, sid: Sid)
    requires forall p :: p in pins ==> p.sid != sid
    ensures Without(pins, sid) == pins
  {
    if pins != [] {
      var n := |pins| - 1;
      assert pins[n] in pins && forall p :: p in pins[..n] ==> p in pins;
      WithoutAbsent(pins[..n], sid);
      assert pins == pins[..n] + [pins[n]];
    }
  }

  /** With distinct sessions, removal drops at most one pin. */
  lemma {:induction false} WithoutOne(pins: seq<Pin>, sid: Sid)
    requires Distinct(pins)
    ensures |Without(pins, sid)| >= |pins| - 1
  {
    if pins != [] {
      var n := |pins| - 1;
      if pins[n].sid == sid {
        WithoutAbsent(pins[..n], sid);
      } else {
        WithoutOne(pins[..n], sid);
      }
    }
  }

  lemma LastNConcat<T>(a: seq<T>, b: seq<T>, n: nat)
    requires |b| >= n
    ensures LastN(a + b, n) == LastN(b, n)
  {
  }

  /** Evicting early and evicting late come to the same table. */
  lemma RememberOfLastN(order: seq<Pin>, p: Pin, maxPins: nat)
    requires Distinct(order)
    ensures Remember(LastN(order, maxPins), p, maxPins) == LastN(Without(order, p.sid) + [p], maxPins)
  {
    hide Without, Distinct;
    if |order| > maxPins {
      var old', kept := order[..|order| - maxPins], order[|order| - maxPins..];
      assert order == old' + kept;
      WithoutConcat(old', kept, p.sid);
      DistinctEnd(old', kept);
      WithoutOne(kept, p.sid);
      var tail := Without(kept, p.sid) + [p];
      assert Without(order, p.sid) + [p] == Without(old', p.sid) + tail;
      LastNConcat(Without(old', p.sid), tail, maxPins);
      assert LastN(order, maxPins) == kept;
    }
  }

  lemma RecencyDistinct(history: seq<Pin>)
    ensures Distinct(Recency(history))
  {
    RecencyIsOrder(history);
  }

  /**
    True LRU: after any history of pins the table is the tail of the recency order, cut to the
    bound; so it never exceeds `maxPins`, and what it forgot is older than all it kept.
  */
  lemma {:induction false} TableIsLru(history: seq<Pin>, maxPins: nat)
    ensures RememberAll(history, maxPins) == LastN(Recency(history), maxPins)
    ensures |RememberAll(history, maxPins)| <= maxPins
    ensures RecencyOrder(Recency(history), history)
  {
    RecencyIsOrder(history);
    if history != [] {
      var n := |history| - 1;
      TableIsLru(history[..n], maxPins);
      RecencyDistinct(history[..n]);
      RememberOfLastN(Recency(history[..n]), history[n], maxPins);
    }
  }

  // ---------------------------------------------------------------------------
  // Affinity

  function Route(pins: seq<Pin>, conns: seq<Connection>, maxPins: nat): seq<Pin> {
    if conns == [] then pins
    else After(Route(pins, conns[..|conns| - 1], maxPins), conns[|conns| - 1], maxPins)
  }

  /** The pins that a run of connections asked the table to remember. */
  function Pinned(conns: seq<Connection>, maxPins: nat): seq<Pin> {
    if conns == [] then [] else
    var n := |conns| - 1;
    var chosen := Chosen(Route([], conns[..n], maxPins), conns[n]);
    Pinned(conns[..n], maxPins) +
      if conns[n].sid.Some? && chosen.Some? then [Pin(conns[n].sid.value, chosen.value)] else []
  }

  /** The affinity table after any traffic is the LRU tail of what that traffic pinned. */
  lemma {:induction false} RoutingIsLru(conns: seq<Connection>, maxPins: nat)
    ensures Route([], conns, maxPins) == LastN(Recency(Pinned(conns, maxPins)), maxPins)
    ensures |Route([], conns, maxPins)| <= maxPins
  {
    RouteIsRememberAll(conns, maxPins);
    TableIsLru(Pinned(conns, maxPins), maxPins);
  }

  lemma {:induction false} RouteIsRememberAll(conns: seq<Connection>, maxPins: nat)
    ensures Route([], conns, maxPins) == RememberAll(Pinned(conns, maxPins), maxPins)
  {
    if conns != [] {
      var n := |conns| - 1;
      RouteIsRememberAll(conns[..n], maxPins);
      var h := Pinned(conns, maxPins);
      if h != Pinned(conns[..n], maxPins) {
        assert h[..|h| - 1] == Pinned(conns[..n], maxPins);
      }
    }
  }

  function Sids(conns: seq<Connection>): set<Sid> {
    set c | c in conns && c.sid.Some? :: c.sid.value
  }

  /** The session's pin is in the table, and only sessions in `others` were used after it. */
  ghost predicate Held(pins: seq<Pin>, p: Pin, others: set<Sid>) {
    Distinct(pins) && exists k :: 0 <= k < |pins| && pins[k] == p && OnlyAfter(pins, k, others)
  }

  ghost predicate OnlyAfter(pins: seq<Pin>, k: nat, others: set<Sid>) {
    forall i :: k < i < |pins| ==> pins[i].sid in others
  }

  lemma DistinctBound(pins: seq<Pin>, sids: set<Sid>)
    requires Distinct(pins) && forall p :: p in pins ==> p.sid in sids
    ensures |pins| <= |sids|
  {
    if pins != [] {
      var n := |pins| - 1;
      assert pins[n] in pins;
      forall p | p in pins[..n] ensures p.sid in sids - {pins[n].sid} {
        assert p in pins;
      }
      DistinctBound(pins[..n], sids - {pins[n].sid});
    }
  }

  lemma {:induction false} WithoutDistinct(pins: seq<Pin>, sid: Sid)
    requires Distinct(pins)
    ensures Distinct(Without(pins, sid))
  {
    if pins != [] {
      var n := |pins| - 1;
      WithoutDistinct(pins[..n], sid);
      WithoutKeeps(pins[..n], sid);
      forall q | q in Without(pins[..n], sid) ensures q.sid != pins[n].sid {
        assert q in pins[..n];
      }
    }
  }

  lemma RememberDistinct(pins: seq<Pin>, q: Pin, maxPins: nat)
    requires Distinct(pins)
    ensures Distinct(Without(pins, q.sid) + [q]) && Distinct(Remember(pins, q, maxPins))
  {
    WithoutDistinct(pins, q.sid);
    WithoutKeeps(pins, q.sid);
    var kept := Without(pins, q.sid);
    assert forall i :: 0 <= i < |kept| ==> kept[i] in kept;
  }

  /** A pin followed by at most `maxPins - 1` others survives the eviction. */
  lemma LastNKeeps(a: seq<Pin>, p: Pin, b: seq<Pin>, others: set<Sid>, maxPins: nat)
    requires |b| < maxPins && forall r :: r in b ==> r.sid in others
    requires Distinct(LastN(a + [p] + b, maxPins))
    ensures Held(LastN(a + [p] + b, maxPins), p, others)
  {
    var table := LastN(a + [p] + b, maxPins);
    var at := |table| - |b| - 1;
    assert table[at] == p;
    forall i | at < i < |table| ensures table[i].sid in others {
      assert table[i] == b[i - at - 1];
    }
    assert OnlyAfter(table, at, others);
  }

  lemma WithoutSplit(a: seq<Pin>, p: Pin, b: seq<Pin>, sid: Sid)
    requires p.sid != sid
    ensures Without(a + [p] + b, sid) == Without(a, sid) + [p] + Without(b, sid)
  {
    WithoutConcat(a + [p], b, sid);
    WithoutConcat(a, [p], sid);
    WithoutAbsent([p], sid);
  }

  lemma RememberKeepsHeld(pins: seq<Pin>, p: Pin, others: set<Sid>, q: Pin, maxPins: nat)
    requires Held(pins, p, others) && q.sid != p.sid && |others + {q.sid}| < maxPins
    ensures Held(Remember(pins, q, maxPins), p, others + {q.sid})
  {
    hide Without, LastN, Held, Distinct;
    var a, b := Around(pins, p, others);
    WithoutSplit(a, p, b, q.sid);
    RememberDistinct(pins, q, maxPins);
    WithoutKeeps(b, q.sid);
    var a', b' := Without(a, q.sid), Without(b, q.sid) + [q];
    assert Without(pins, q.sid) + [q] == a' + [p] + b';
    DistinctEnd(a' + [p], b');
    DistinctBound(b', others + {q.sid});
    LastNKeeps(a', p, b', others + {q.sid}, maxPins);
  }

  lemma Around(pins: seq<Pin>, p: Pin, others: set<Sid>) returns (a: seq<Pin>, b: seq<Pin>)
    requires Held(pins, p, others)
    ensures pins == a + [p] + b && Distinct(pins) && forall r :: r in b ==> r.sid in others
  {
    var k :| 0 <= k < |pins| && pins[k] == p && OnlyAfter(pins, k, others);
    a, b := pins[..k], pins[k + 1..];
    assert forall i :: 0 <= i < |b| ==> b[i] == pins[k + 1 + i];
  }

  lemma DistinctEnd(a: seq<Pin>, b: seq<Pin>)
    requires Distinct(a + b)
    ensures Distinct(b)
  {
    assert forall i :: 0 <= i < |b| ==> b[i] == (a + b)[|a| + i];
  }

  lemma {:induction false} HeldThrough(pins: seq<Pin>, p: Pin, conns: seq<Connection>, maxPins: nat)
    requires Held(pins, p, {}) && p.sid !in Sids(conns) && |Sids(conns)| < maxPins
    ensures Held(Route(pins, conns, maxPins), p, Sids(conns))
  {
    if conns == [] {
      assert Sids(conns) == {};
    } else {
      var n := |conns| - 1;
      var c := conns[n];
      assert conns == conns[..n] + [c];
      assert Sids(conns) == Sids(conns[..n]) + if c.sid.Some? then {c.sid.value} else {};
      SubsetCard(Sids(conns[..n]), Sids(conns));
      HeldThrough(pins, p, conns[..n], maxPins);
      var before := Route(pins, conns[..n], maxPins);
      if c.sid.Some? && Chosen(before, c).Some? {
        RememberKeepsHeld(before, p, Sids(conns[..n]), Pin(c.sid.value, Chosen(before, c).value), maxPins);
      } else {
        var k :| 0 <= k < |before| && before[k] == p && OnlyAfter(before, k, Sids(conns[..n]));
        assert OnlyAfter(before, k, Sids(conns));
      }
    }
  }

  lemma {:induction false} LookupHeld(pins: seq<Pin>, p: Pin)
    requires Distinct(pins) && p in pins
    ensures Lookup(pins, p.sid) == Some(p.worker)
  {
    if pins[0] != p {
      var k :| 0 <= k < |pins| && pins[k] == p;
      assert pins[1..][k - 1] == p;
      LookupHeld(pins[1..], p);
    }
  }

  lemma {:induction false} RouteDistinct(conns: seq<Connection>, maxPins: nat)
    ensures Distinct(Route([], conns, maxPins))
  {
    if conns != [] {
      var before := Route([], conns[..|conns| - 1], maxPins);
      RouteDistinct(conns[..|conns| - 1], maxPins);
      var c := conns[|conns| - 1];
      if c.sid.Some? && Chosen(before, c).Some? {
        RememberDistinct(before, Pin(c.sid.value, Chosen(before, c).value), maxPins);
      }
    }
  }

  /**
    After any traffic, a session that was just routed to a worker goes back to that worker as long
    as it is healthy and fewer than `maxPins` distinct other sessions connected in between.
  */
  lemma SessionReturnsToItsWorker(before: seq<Connection>, c: Connection, between: seq<Connection>, again: Connection, maxPins: nat)
    requires c.sid.Some? && again.sid == c.sid && c.sid.value !in Sids(between) && |Sids(between)| < maxPins
    requires Chosen(Route([], before, maxPins), c).Some?
    requires HealthyId(again.views, Chosen(Route([], before, maxPins), c).value)
    ensures var pins := After(Route([], before, maxPins), c, maxPins);
      Chosen(Route(pins, between, maxPins), again) == Chosen(Route([], before, maxPins), c)
  {
    var old' := Route([], before, maxPins);
    var p := Pin(c.sid.value, Chosen(old', c).value);
    RouteDistinct(before, maxPins);
    RememberDistinct(old', p, maxPins);
    var pins := Remember(old', p, maxPins);
    assert pins[|pins| - 1] == p && OnlyAfter(pins, |pins| - 1, {});
    assert Held(pins, p, {});
    HeldThrough(pins, p, between, maxPins);
    LookupHeld(Route(pins, between, maxPins), p);
  }
}
