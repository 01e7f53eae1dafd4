/** Hand-off of an accepted connection to exactly one worker, and the bookkeeping of refusals. */
module WorkerPool {
  import opened Prelude
  import opened Routing

  /** One worker as the supervisor sees it; `refusalEstimate` is its estimate at a pending refusal. */
  datatype Slot = Slot(inFlight: nat, healthy: bool, connected: bool, refusalEstimate: Option<nat>)

  function Views(slots: seq<Slot>): seq<WorkerView> {
    seq(|slots|, i requires 0 <= i < |slots| => WorkerView(i, slots[i].inFlight, slots[i].healthy))
  }

  function Untried(views: seq<WorkerView>, tried: set<nat>): seq<WorkerView> {
    if views == [] then [] else
    var n := |views| - 1;
    Untried(views[..n], tried) + if views[n].id in tried then [] else [views[n]]
  }

  predicate Ascending(views: seq<WorkerView>) {
    forall i, j :: 0 <= i < j < |views| ==> views[i].id < views[j].id
  }

  lemma {:induction false} UntriedKeeps(views: seq<WorkerView>, tried: set<nat>)
    requires Ascending(views)
    ensures Ascending(Untried(views, tried))
    ensures forall v :: v in Untried(views, tried) <==> v in views && v.id !in tried
  {
    if views != [] {
      var n := |views| - 1;
      UntriedKeeps(views[..n], tried);
      assert views == views[..n] + [views[n]];
      var kept := Untried(views[..n], tried);
      forall i | 0 <= i < |kept| ensures kept[i].id < views[n].id {
        assert kept[i] in views[..n];
      }
    }
  }

  /** Fewer turns in flight, or as many and a lower id. */
  predicate Ahead(slots: seq<Slot>, a: nat, b: nat)
    requires a < |slots| && b < |slots|
  {
    slots[a].inFlight < slots[b].inFlight || (slots[a].inFlight == slots[b].inFlight && a < b)
  }

  /** The send to this worker goes through: it is routable, its channel is up, and nothing throws. */
  predicate Deliverable(slots: seq<Slot>, throws: set<nat>, i: nat) {
    i < |slots| && slots[i].healthy && slots[i].connected && i !in throws
  }

  /** `t` is ahead of every other healthy worker not yet tried. */
  ghost predicate NextInLine(slots: seq<Slot>, tried: set<nat>, t: nat) {
    && t < |slots| && slots[t].healthy && t !in tried
    && forall q :: 0 <= q < |slots| && slots[q].healthy && q !in tried && q != t ==> Ahead(slots, t, q)
  }

  lemma PickIsNextInLine(slots: seq<Slot>, tried: set<nat>)
    ensures var vs := Untried(Views(slots), tried);
      && (Least(vs).None? ==> forall q :: 0 <= q < |slots| && slots[q].healthy ==> q in tried)
      && (Least(vs).Some? ==> NextInLine(slots, tried, vs[Least(vs).value].id))
  {
    hide Untried, Least;
    var views := Views(slots);
    var vs := Untried(views, tried);
    UntriedKeeps(views, tried);
    LeastIsBest(vs);
    forall q | 0 <= q < |slots| && slots[q].healthy && q !in tried ensures views[q] in vs {
      assert views[q] in views;
    }
    if Least(vs).Some? {
      var k := Least(vs).value;
      assert vs[k] in vs && vs[k] in views;
      var t := vs[k].id;
      forall q | 0 <= q < |slots| && slots[q].healthy && q !in tried && q != t ensures Ahead(slots, t, q) {
        var j :| 0 <= j < |vs| && vs[j] == views[q];
      }
    }
  }

  /**
    Where a connection goes: to its session's pinned worker if that is healthy and takes it, and
    otherwise, of all workers that would take it, to the next in line.
  */
  ghost predicate Reached(slots: seq<Slot>, pinned: Option<nat>, throws: set<nat>, t: nat) {
    && Deliverable(slots, throws, t)
    && (pinned.Some? && Deliverable(slots, throws, pinned.value) ==> t == pinned.value)
    && (pinned.None? || pinned.value != t ==> forall q :: 0 <= q < |slots| && Deliverable(slots, throws, q) && q != t ==> Ahead(slots, t, q))
  }

  /** How the pre-read of a request head went, and the pool as it was by then. */
  datatype HeadRead = NotRead | Read(meanwhile: seq<Slot>) | Closed(meanwhile: seq<Slot>)

  class Pool {
    var slots: seq<Slot>
    var handoffRetries: nat
    var handoffFailures: nat
    var refusals: nat
    var refusalCounted: bool
    var spuriousRefusals: nat
    var overAdmission: nat
    var delivered: seq<nat>     // the worker each handed-off connection reached
    var refused: nat            // connections answered with back-pressure
    var abandoned: nat          // connections whose client left before its head was read

    /** A refusal is counted as spurious at most once. */
    ghost predicate Valid()
      reads this
    {
      spuriousRefusals + (if refusalCounted then 0 else 1) <= refusals
    }

    constructor (workers: nat)
      ensures Valid() && |slots| == workers && forall i :: 0 <= i < workers ==> slots[i] == Slot(0, false, true, None)
      ensures delivered == [] && refused == abandoned == refusals == handoffRetries == handoffFailures == 0
    {
      slots := seq(workers, i => Slot(0, false, true, None));
      handoffRetries, handoffFailures, refusals, refusalCounted := 0, 0, 0, true;
      spuriousRefusals, overAdmission, delivered, refused, abandoned := 0, 0, [], 0, 0;
    }

    method NoteRefusal()
      requires Valid()
      modifies this`slots, this`refusals, this`refusalCounted
      ensures Valid() && refusals == old(refusals) + 1 && !refusalCounted
      ensures Views(slots) == Views(old(slots))
      ensures |slots| == |old(slots)| && forall i :: 0 <= i < |slots| ==>
        slots[i] == old(slots)[i].(refusalEstimate := Some(old(slots)[i].inFlight))
    {
      refusals := refusals + 1;
      refusalCounted := false;
      var before := slots;
      slots := seq(|before|, i requires 0 <= i < |before| => before[i].(refusalEstimate := Some(before[i].inFlight)));
    }

    /** The worker is the authority on its own count; a count below a refused estimate was a spurious refusal. */
    method Reconcile(id: nat, actual: nat)
      requires Valid() && id < |slots|
      modifies this`slots, this`overAdmission, this`refusalCounted, this`spuriousRefusals
      ensures Valid()
      ensures slots == old(slots)[id := old(slots)[id].(inFlight := actual, refusalEstimate := None)]
      ensures overAdmission == old(overAdmission) + if actual > old(slots)[id].inFlight then 1 else 0
      ensures spuriousRefusals == old(spuriousRefusals) +
        if old(slots)[id].refusalEstimate.Some? && actual < old(slots)[id].refusalEstimate.value && !old(refusalCounted) then 1 else 0
      ensures refusalCounted <==> old(refusalCounted) || spuriousRefusals > old(spuriousRefusals)
    {
      var slot := slots[id];
      if actual > slot.inFlight {
        overAdmission := overAdmission + 1;
      }
      slots := slots[id := slot.(inFlight := actual, refusalEstimate := None)];
      if slot.refusalEstimate.Some? && actual < slot.refusalEstimate.value && !refusalCounted {
        refusalCounted := true;
        spuriousRefusals := spuriousRefusals + 1;
      }
    }

    /**
      Hand the connection to the preferred worker, else to the next in line, each tried once. It
      reaches one worker, whose estimate alone goes up by one, or it is refused once, with no
      estimate changed, and then only because no worker at all could take it.
    */
    method HandOff(preferred: nat, throws: set<nat>) returns (target: Option<nat>)
      requires Valid()
      modifies this
      ensures Valid()
      ensures target.None? <==> forall q :: 0 <= q < |old(slots)| && old(slots)[q].healthy && old(slots)[q].connected ==> q in throws
      ensures target.Some? ==> Deliverable(old(slots), throws, target.value)
      ensures target.Some? && Deliverable(old(slots), throws, preferred) ==> target.value == preferred
      ensures target.Some? && target.value != preferred ==>
        forall q :: 0 <= q < |old(slots)| && Deliverable(old(slots), throws, q) && q != target.value ==>
          Ahead(old(slots), target.value, q)
      ensures target.Some? ==>
        && slots == old(slots)[target.value := old(slots)[target.value].(inFlight := old(slots)[target.value].inFlight + 1)]
        && delivered == old(delivered) + [target.value] && refused == old(refused)
      ensures target.None? ==>
        Views(slots) == Views(old(slots)) && delivered == old(delivered) && refused == old(refused) + 1
      ensures abandoned == old(abandoned) && refusals == old(refusals) + if target.None? then 1 else 0
      ensures handoffRetries == old(handoffRetries) + |Passed(old(slots), preferred, target)|
      ensures handoffFailures == old(handoffFailures) + if target.None? then 1 else 0
    {
      var retries;
      target, retries := Search(slots, preferred, throws);
      handoffRetries := handoffRetries + retries;
      if target.Some? {
        var t := target.value;
        slots := slots[t := slots[t].(inFlight := slots[t].inFlight + 1)];
        delivered := delivered + [t];
        return;
      }
      handoffFailures := handoffFailures + 1;
      NoteRefusal();
      refused := refused + 1;
    }

    /**
      One accepted connection: refused by a saturated pool, otherwise handed to the policy's choice. A
      sticky policy reads the request head first; the pool may change by then, and a client that left
      is dropped, neither delivered nor refused. The policy prefers the session's `pinned` worker.
      Under least-in-flight routing a chosen worker that takes the connection was below the cap.
    */
    method Route(turnsPerWorker: nat, head: HeadRead, pinned: Option<nat>, throws: set<nat>)
      returns (target: Option<nat>)
      requires Valid()
      modifies this
      ensures Valid()
      ensures |delivered| + refused + abandoned == |old(delivered)| + old(refused) + old(abandoned) + 1
      ensures abandoned == old(abandoned) + 1 <==> head.Closed? && !IsSaturated(Views(old(slots)), turnsPerWorker)
      ensures IsSaturated(Views(old(slots)), turnsPerWorker) ==> target.None? && Views(slots) == Views(old(slots))
      ensures refusals == old(refusals) + refused - old(refused)
      ensures target.None? ==> delivered == old(delivered)
      ensures !IsSaturated(Views(old(slots)), turnsPerWorker) ==>
        var at := if head.NotRead? then old(slots) else head.meanwhile;
        && (target.None? ==> Views(slots) == Views(at))
        && (target.Some? ==>
              && Reached(at, pinned, throws, target.value) && delivered == old(delivered) + [target.value]
              && slots == at[target.value := at[target.value].(inFlight := at[target.value].inFlight + 1)])
        && (target.None? <==> head.Closed? || forall q :: 0 <= q < |at| ==> !Deliverable(at, throws, q))
      ensures head.NotRead? && pinned.None? && !IsSaturated(Views(old(slots)), turnsPerWorker) ==>
        var least := Least(Views(old(slots)));
        least.Some? && (Deliverable(old(slots), throws, least.value) ==>
          target == least && old(slots)[least.value].inFlight < turnsPerWorker)
    {
      hide Least, Untried, IsSaturated, Passed;
      AdmittedHasRoom(Views(slots), turnsPerWorker);
      if IsSaturated(Views(slots), turnsPerWorker) {
        NoteRefusal();
        refused := refused + 1;
        return None;
      }
      if !head.NotRead? {
        slots := head.meanwhile;
      }
      if head.Closed? {
        abandoned := abandoned + 1;
        return None;
      }
      var chosen := Prefer(slots, pinned);
      if chosen.None? {
        NoteRefusal();
        refused := refused + 1;
        return None;
      }
      target := HandOff(chosen.value, throws);
    }
  }

  /** The policy's choice: the pinned worker if it is healthy, else the next in line. */
  method Prefer(slots: seq<Slot>, pinned: Option<nat>) returns (chosen: Option<nat>)
    ensures chosen.None? <==> forall q :: 0 <= q < |slots| ==> !slots[q].healthy
    ensures pinned.Some? && pinned.value < |slots| && slots[pinned.value].healthy ==> chosen == pinned
    ensures chosen.Some? ==> chosen == pinned || (NextInLine(slots, {}, chosen.value) && chosen == Least(Views(slots)))
    ensures chosen.Some? ==> chosen.value < |slots| && slots[chosen.value].healthy
  {
    var views := Views(slots);
    if pinned.Some? && pinned.value < |slots| && slots[pinned.value].healthy {
      return pinned;
    }
    chosen := PickLeastLoaded(views);
    assert forall q :: 0 <= q < |slots| ==> views[q] == WorkerView(q, slots[q].inFlight, slots[q].healthy);
  }

  /** The workers tried so far, the preferred one aside, are healthy and ahead of the others. */
  ghost predicate Front(slots: seq<Slot>, preferred: nat, tried: set<nat>) {
    && (preferred !in tried ==> tried == {})
    && (forall q :: q in tried && q != preferred ==> q < |slots| && slots[q].healthy)
    && forall q, u :: q in tried && q != preferred && 0 <= u < |slots| && slots[u].healthy && u !in tried ==> Ahead(slots, q, u)
  }

  /** What is to be tried next. */
  ghost predicate Turn(slots: seq<Slot>, preferred: nat, tried: set<nat>, target: Option<nat>) {
    if preferred !in tried then target == Some(preferred)
    else if target.Some? then NextInLine(slots, tried, target.value)
    else forall q :: 0 <= q < |slots| && slots[q].healthy ==> q in tried
  }

  lemma FrontStarts(slots: seq<Slot>, preferred: nat)
    ensures Front(slots, preferred, {})
  {
  }

  lemma FrontGrows(slots: seq<Slot>, preferred: nat, tried: set<nat>, t: nat)
    requires Front(slots, preferred, tried) && Turn(slots, preferred, tried, Some(t))
    ensures Front(slots, preferred, tried + {t})
  {
  }

  lemma FrontIsPassed(slots: seq<Slot>, preferred: nat, tried: set<nat>, target: Option<nat>)
    requires Front(slots, preferred, tried) && Turn(slots, preferred, tried, target)
    ensures target.Some? && target.value != preferred ==> target.value < |slots|
    ensures tried == Passed(slots, preferred, target)
  {
  }

  /** The workers that a hand-off tries in vain before its target, or in all if it has none. */
  function Passed(slots: seq<Slot>, preferred: nat, target: Option<nat>): set<nat>
    requires target.Some? && target.value != preferred ==> target.value < |slots|
  {
    if target == Some(preferred) then {} else
    {preferred} + set q | 0 <= q < |slots| && slots[q].healthy && (target.Some? ==> q == preferred || Ahead(slots, q, target.value))
  }

  /** The retry loop: the preferred worker first, then the next in line, each at most once. */
  method Search(slots: seq<Slot>, preferred: nat, throws: set<nat>) returns (target: Option<nat>, retries: nat)
    ensures target.None? <==> forall q :: 0 <= q < |slots| && slots[q].healthy && slots[q].connected ==> q in throws
    ensures target.None? ==> forall q :: 0 <= q < |slots| ==> !Deliverable(slots, throws, q)
    ensures target.Some? ==> Deliverable(slots, throws, target.value)
    ensures target.Some? && Deliverable(slots, throws, preferred) ==> target.value == preferred
    ensures target.Some? && target.value != preferred ==>
      forall q :: 0 <= q < |slots| && Deliverable(slots, throws, q) && q != target.value ==> Ahead(slots, target.value, q)
    ensures retries == |Passed(slots, preferred, target)| <= |slots| + 1
  {
    hide Front, Passed, Untried;
    var tried: set<nat> := {};
    FrontStarts(slots, preferred);
    target := Some(preferred);
    retries := 0;
    ghost var all := Ids(|slots|) + {preferred};
    while target.Some?
      invariant retries == |tried| && tried <= all
      invariant forall q :: q in tried ==> !Deliverable(slots, throws, q)
      invariant Front(slots, preferred, tried) && Turn(slots, preferred, tried, target)
      invariant target.Some? ==> target.value in all - tried
      decreases all - tried
    {
      var t := target.value;
      if Deliverable(slots, throws, t) {
        SubsetCard(tried, all);
        FrontIsPassed(slots, preferred, tried, target);
        return;
      }
      FrontGrows(slots, preferred, tried, t);
      tried := tried + {t};
      retries := retries + 1;
      PickIsNextInLine(slots, tried);
      target := PickLeastLoaded(Untried(Views(slots), tried));
    }
    SubsetCard(tried, all);
    FrontIsPassed(slots, preferred, tried, target);
  }

  function Ids(n: nat): (s: set<nat>)
    ensures |s| == n && forall i :: i in s <==> 0 <= i < n
  {
    if n == 0 then {} else Ids(n - 1) + {n - 1}
  }

}
