/** What every run of the work queue promises: bounded starts, no lost row, and when a record is safe. */
module QueueRuns {
  import opened Prelude
  import opened WorkQueue

  lemma {:induction false} RunConcat(p: Params, s: State, a: seq<Event>, b: seq<Event>)
    ensures Run(p, s, a + b) == Run(p, Run(p, s, a), b)
  {
    if b == [] {
      assert a + b == a;
    } else {
      assert (a + b)[..|a + b| - 1] == a + b[..|b| - 1];
      RunConcat(p, s, a, b[..|b| - 1]);
    }
  }

  lemma RunOne(p: Params, s: State, e: Event)
    ensures Run(p, s, [e]) == Apply(p, s, e)
  {
    assert [e][..0] == [];
  }

  lemma RunTwo(p: Params, s: State, e: Event, f: Event)
    ensures Run(p, s, [e, f]) == Apply(p, Apply(p, s, e), f)
  {
    assert [e, f] == [e] + [f];
    RunConcat(p, s, [e], [f]);
    RunOne(p, s, e);
    RunOne(p, Apply(p, s, e), f);
  }

  lemma RunThree(p: Params, s: State, e: Event, f: Event, g: Event)
    ensures Run(p, s, [e, f, g]) == Apply(p, Apply(p, Apply(p, s, e), f), g)
  {
    assert [e, f, g] == [e, f] + [g];
    RunConcat(p, s, [e, f], [g]);
    RunTwo(p, s, e, f);
    RunOne(p, Apply(p, Apply(p, s, e), f), g);
  }

  // ---------------------------------------------------------------------------
  // How often a leaf is started

  lemma {:induction false} DistinctUpTo(ks: seq<nat>, n: nat)
    requires forall k :: k in ks ==> 1 <= k <= n
    requires forall i, j :: 0 <= i < j < |ks| ==> ks[i] != ks[j]
    ensures |ks| <= n
  {
    if n in ks {
      var i :| 0 <= i < |ks| && ks[i] == n;
      var rest := ks[..i] + ks[i + 1..];
      forall k | k in rest ensures 1 <= k <= n - 1 {
        assert k in ks;
      }
      DistinctUpTo(rest, n - 1);
    } else if ks != [] {
      assert ks[0] in ks;
      DistinctUpTo(ks, n - 1);
    }
  }

  /** A count read back for this entry when its row was already gone; it reads as one. */
  predicate LateRead(p: Params, s: State, ev: Event, id: EntryId) {
    && ev.ReadCount? && ev.c in s.procs && s.procs[ev.c].Counting? && s.procs[ev.c].id == id && id !in s.pel
    && 1 <= p.maxAttempts
  }

  function LateReads(p: Params, events: seq<Event>, id: EntryId): nat {
    if events == [] then 0 else
    var before, last := events[..|events| - 1], events[|events| - 1];
    LateReads(p, before, id) + if LateRead(p, Run(p, Init, before), last, id) then 1 else 0
  }

  lemma StartedStep(p: Params, s: State, ev: Event, id: EntryId)
    ensures var s' := Apply(p, s, ev);
      StartedOf(s', id) - |StartsOf(s', id)| == StartedOf(s, id) - |StartsOf(s, id)| + if LateRead(p, s, ev, id) then 1 else 0
  {
    hide Apply;
    match ev
    case ReadCount(c) => ReadCountStep(p, s, c, id);
    case ReadNew(c) => ReadNewStep(p, s, c, id);
    case _ =>
      StartsStay(p, s, ev);
      SameStarts(s, Apply(p, s, ev), id);
  }

  lemma DecideStep(p: Params, s: State, c: Consumer, x: EntryId, k: nat, count: nat, id: EntryId)
    ensures var s' := Decide(p, s, c, x, k, count);
      StartedOf(s', id) - |StartsOf(s', id)| ==
      StartedOf(s, id) - |StartsOf(s, id)| + if x == id && id !in s.pel && count <= p.maxAttempts then 1 else 0
  {
  }

  lemma ReadCountStep(p: Params, s: State, c: Consumer, id: EntryId)
    ensures var s' := Apply(p, s, ReadCount(c));
      StartedOf(s', id) - |StartsOf(s', id)| ==
      StartedOf(s, id) - |StartsOf(s, id)| + if LateRead(p, s, ReadCount(c), id) then 1 else 0
  {
    hide Decide, StartsOf, StartedOf;
    if c in s.procs && s.procs[c].Counting? {
      var x := s.procs[c].id;
      DecideStep(p, s, c, x, s.procs[c].k, if x in s.pel then s.pel[x].count else 1, id);
    }
  }

  lemma ReadNewStep(p: Params, s: State, c: Consumer, id: EntryId)
    ensures var s' := Apply(p, s, ReadNew(c)); StartedOf(s', id) - |StartsOf(s', id)| == StartedOf(s, id) - |StartsOf(s, id)|
  {
    hide Decide, StartsOf, StartedOf, Marked;
    if IsIdle(s, c) && s.cursor < s.length {
      var added := NewRow(Noted(s, c), c);
      DecideStep(p, added, c, s.cursor, 1, 1, id);
      SameStarts(s, added, id);
    }
  }

  lemma StartsStay(p: Params, s: State, ev: Event)
    requires !ev.ReadCount? && !ev.ReadNew?
    ensures NoStart(s, Apply(p, s, ev))
  {
    hide OnSpawn, OnReclaim, OnHeartbeat, OnFinish, OnWriteRecord, OnAck, OnReap, OnReapAck, OnReapRecord, OnCleanExit, OnInspect, OnDelete;
  }

  /**
    In every run the starts of an entry's leaf are the claims that read a live row, which are at most
    `maxAttempts`, and one more for each count that was read back after the row had gone; such a row
    had been acknowledged, or discarded by a collector.
  */
  lemma {:induction false} StartsAre(p: Params, events: seq<Event>, id: EntryId)
    ensures var s := Run(p, Init, events);
      && StartedOf(s, id) == |StartsOf(s, id)| + LateReads(p, events, id)
      && |StartsOf(s, id)| <= p.maxAttempts
      && (LateReads(p, events, id) > 0 ==> id in s.acked || id in s.lost)
  {
    hide Apply;
    BoundedClaims(p, events, id);
    if events == [] {
      NothingStarted(id);
    } else {
      var before, last := events[..|events| - 1], events[|events| - 1];
      StartsAre(p, before, id);
      StartedStep(p, Run(p, Init, before), last, id);
    }
  }

  lemma NothingStarted(id: EntryId)
    ensures StartedOf(Init, id) == 0 && StartsOf(Init, id) == []
  {
  }

  lemma BoundedClaims(p: Params, events: seq<Event>, id: EntryId)
    ensures var s := Run(p, Init, events);
      && |StartsOf(s, id)| <= p.maxAttempts && |StartsOf(s, id)| <= StartedOf(s, id)
      && (|StartsOf(s, id)| < StartedOf(s, id) ==> id in s.acked || id in s.lost)
  {
    ReachableInv(p, events);
    var s := Run(p, Init, events);
    assert StartInv(p, s, id) && LateInv(s, id);
    DistinctUpTo(StartsOf(s, id), p.maxAttempts);
  }

  /** Each reclaim is followed at once by the read of its count, as if the two were one step. */
  predicate Prompt(events: seq<Event>) {
    forall i :: 0 <= i < |events| - 1 && events[i].Reclaim? ==> events[i + 1] == ReadCount(events[i].c)
  }

  /** The process that a step is about, if any. */
  function Actor(ev: Event): Option<Consumer> {
    if ev.Tick? || ev.Enqueue? || ev.Inspect? || ev.Delete? then None else Some(ev.c)
  }

  predicate SamePhase(s: State, s': State, c: Consumer) {
    (c in s'.procs <==> c in s.procs) && (c in s.procs && c in s'.procs ==> s'.procs[c] == s.procs[c])
  }

  lemma OthersKept(p: Params, s: State, ev: Event, s': State, c: Consumer)
    requires s' == Apply(p, s, ev) && Actor(ev) != Some(c)
    ensures SamePhase(s, s', c)
  {
    hide OnSpawn, OnReclaim, OnReadCount, OnReadNew, OnHeartbeat, OnFinish, OnWriteRecord, OnAck, OnReap, OnReapAck, OnReapRecord, OnCleanExit, OnInspect, OnDelete;
  }

  /** A process comes to wait for its count only by its own reclaim, which leaves the row in place. */
  lemma CountingBy(p: Params, s: State, ev: Event, s': State, c: Consumer)
    requires s' == Apply(p, s, ev) && c in s'.procs && s'.procs[c].Counting?
    ensures
      || (c in s.procs && s.procs[c] == s'.procs[c] && ev != ReadCount(c))
      || (ev == Reclaim(c, s'.procs[c].id) && ev.id in s'.pel)
  {
    hide Apply;
    if Actor(ev) != Some(c) {
      OthersKept(p, s, ev, s', c);
    } else if ev.Reclaim? {
      OwnReclaim(p, s, s', c, ev.id);
    } else {
      OwnStep(p, s, ev, s', c);
    }
  }

  lemma OwnReclaim(p: Params, s: State, s': State, c: Consumer, id: EntryId)
    requires s' == Apply(p, s, Reclaim(c, id)) && c in s'.procs && s'.procs[c].Counting?
    ensures s' == s || (s'.procs[c].id == id && id in s'.pel)
  {
    hide Marked, StartsOf, StartedOf;
  }

  lemma OwnStep(p: Params, s: State, ev: Event, s': State, c: Consumer)
    requires s' == Apply(p, s, ev) && Actor(ev) == Some(c) && !ev.Reclaim? && c in s'.procs && s'.procs[c].Counting?
    ensures c in s.procs && s.procs[c] == s'.procs[c] && !ev.ReadCount?
  {
    hide OnSpawn, OnReclaim, OnReadCount, OnReadNew, OnHeartbeat, OnFinish, OnWriteRecord, OnAck, OnReap, OnReapAck, OnReapRecord, OnCleanExit, OnInspect, OnDelete;
  }

  lemma {:induction false} PromptCounting(p: Params, events: seq<Event>, c: Consumer)
    requires Prompt(events) && c in Run(p, Init, events).procs && Run(p, Init, events).procs[c].Counting?
    ensures var s := Run(p, Init, events);
      events != [] && events[|events| - 1] == Reclaim(c, s.procs[c].id) && s.procs[c].id in s.pel
  {
    hide Apply;
    var before, last := events[..|events| - 1], events[|events| - 1];
    var s := Run(p, Init, before);
    CountingBy(p, s, last, Run(p, Init, events), c);
    if c in s.procs && s.procs[c] == Run(p, Init, events).procs[c] && last != ReadCount(c) {
      PromptCounting(p, before, c);
    }
  }

  lemma {:induction false} PromptNeverLate(p: Params, events: seq<Event>, id: EntryId)
    requires Prompt(events)
    ensures LateReads(p, events, id) == 0
  {
    if events != [] {
      var before, last := events[..|events| - 1], events[|events| - 1];
      PromptNeverLate(p, before, id);
      if LateRead(p, Run(p, Init, before), last, id) {
        PromptCounting(p, before, last.c);
      }
    }
  }

  /** Over every run in which claim and count are one step, no start is late and there are at most `maxAttempts`. */
  lemma BoundedAttempts(p: Params, events: seq<Event>, id: EntryId)
    requires Prompt(events)
    ensures StartedOf(Run(p, Init, events), id) == |StartsOf(Run(p, Init, events), id)| <= p.maxAttempts
  {
    StartsAre(p, events, id);
    PromptNeverLate(p, events, id);
  }

  // ---------------------------------------------------------------------------
  // What leaves the pending list

  /** No collector deletes a consumer that has taken a row since it was inspected. */
  ghost predicate Careful(p: Params, events: seq<Event>) {
    events != [] ==>
      var before, last := events[..|events| - 1], events[|events| - 1];
      var s := Run(p, Init, before);
      Careful(p, before) && (last.Delete? && last.t in s.marks ==> !s.marks[last.t].took)
  }

  /**
    In every run an entry is undelivered, or pending, or was acknowledged with a record or by the
    reaper, or was lost to a collector; and nothing is lost where collectors are careful.
  */
  lemma NothingLost(p: Params, events: seq<Event>, id: EntryId)
    ensures var s := Run(p, Init, events);
      && (id < s.length ==>
            id >= s.cursor || id in s.pel || (id in s.acked && (id in s.results || id in s.reaped)) || id in s.lost)
      && (Careful(p, events) ==> s.lost == {})
  {
    ReachableInv(p, events);
    if Careful(p, events) {
      CarefulLosesNone(p, events);
    }
  }

  lemma {:induction false} CarefulLosesNone(p: Params, events: seq<Event>)
    requires Careful(p, events)
    ensures Run(p, Init, events).lost == {}
  {
    if events != [] {
      var before, last := events[..|events| - 1], events[|events| - 1];
      CarefulLosesNone(p, before);
      ReachableInv(p, before);
      CarefulStep(p, Run(p, Init, before), last);
    }
  }

  lemma CarefulStep(p: Params, s: State, ev: Event)
    requires Inv(p, s) && (ev.Delete? && ev.t in s.marks ==> !s.marks[ev.t].took)
    ensures Apply(p, s, ev).lost == s.lost
  {
    hide Inv;
    if ev.Delete? && ev.t in s.marks {
      assert Discarded(s.pel, s.marks[ev.t].consumer) == {} by {
        UnmovedOwnsNothing(p, s, ev.t);
      }
    } else {
      LostStays(p, s, ev);
    }
  }

  lemma LostStays(p: Params, s: State, ev: Event)
    requires ev.Delete? ==> ev.t !in s.marks
    ensures Apply(p, s, ev).lost == s.lost
  {
    hide OnSpawn, OnReclaim, OnReadCount, OnReadNew, OnHeartbeat, OnFinish, OnWriteRecord, OnAck, OnReap, OnReapAck, OnReapRecord,
      OnCleanExit, OnInspect;
  }

  lemma UnmovedOwnsNothing(p: Params, s: State, t: nat)
    requires Inv(p, s) && t in s.marks && !s.marks[t].took
    ensures Discarded(s.pel, s.marks[t].consumer) == {} && ConsumerDeleted(s.pel, s.marks[t].consumer) == s.pel
  {
    assert forall id :: id in s.pel ==> s.pel[id].owner != s.marks[t].consumer;
  }

  /**
    In every run a row leaves the pending list only by an ack that follows its result record, by the
    reaper's once its deliveries exceed the limit, or by a collector that deletes its owner after the
    owner took a row. A clean exit discards nothing.
  */
  lemma LeavesOnlyByAck(p: Params, events: seq<Event>, ev: Event, id: EntryId)
    requires var s := Run(p, Init, events); id in s.pel && id !in Apply(p, s, ev).pel
    ensures var s := Run(p, Init, events);
      || (ev.Ack? && id in s.results)
      || (ev.ReapAck? && s.pel[id].count > p.maxAttempts)
      || (ev.Delete? && ev.t in s.marks && s.marks[ev.t].took && s.marks[ev.t].consumer == s.pel[id].owner)
  {
    ReachableInv(p, events);
    LeavesStep(p, Run(p, Init, events), ev, id);
  }

  lemma LeavesStep(p: Params, s: State, ev: Event, id: EntryId)
    requires Inv(p, s) && id in s.pel && id !in Apply(p, s, ev).pel
    ensures
      || (ev.Ack? && id in s.results)
      || (ev.ReapAck? && s.pel[id].count > p.maxAttempts)
      || (ev.Delete? && ev.t in s.marks && s.marks[ev.t].took && s.marks[ev.t].consumer == s.pel[id].owner)
  {
    hide StartInv, LateInv, Accounted, StartsOf, StartedOf, Marked;
    match ev
    case Ack(c) => assert c in s.procs && ClaimInv(p, s, c);
    case ReapAck(c) => assert c in s.procs && ClaimInv(p, s, c);
    case CleanExit(c) =>
      if IsIdle(s, c) {
        IdleOwnsNothing(p, s, c);
      }
    case Delete(t) => assert t in s.marks && s.marks[t].consumer == s.pel[id].owner;
    case _ => RowsStay(p, s, ev, id);
  }

  lemma RowsStay(p: Params, s: State, ev: Event, id: EntryId)
    requires id in s.pel && !ev.Ack? && !ev.ReapAck? && !ev.CleanExit? && !ev.Delete?
    ensures id in Apply(p, s, ev).pel
  {
    hide OnSpawn, OnReclaim, OnReadCount, OnReadNew, OnHeartbeat, OnFinish, OnWriteRecord, OnAck, OnReap, OnReapAck, OnReapRecord,
      OnCleanExit, OnInspect, OnDelete;
  }

  // ---------------------------------------------------------------------------
  // When collecting a consumer is safe

  /** The consumer and the row that it takes in this step. */
  function Takes(p: Params, s: State, ev: Event): Option<(Consumer, EntryId)> {
    match ev
    case Reclaim(c, id) => if IsIdle(s, c) && Stale(s.pel, id, s.now, p.minIdle) then Some((c, id)) else None
    case Reap(c, id) =>
      if IsIdle(s, c) && Stale(s.pel, id, s.now, p.minIdle) && s.pel[id].count > p.maxAttempts then Some((c, id)) else None
    case ReadNew(c) => if IsIdle(s, c) && s.cursor < s.length then Some((c, s.cursor)) else None
    case Heartbeat(c) => if c in s.procs && s.procs[c].Running? && s.procs[c].id in s.pel then Some((c, s.procs[c].id)) else None
    case _ => None
  }

  /** Who last took a row in the course of these events. */
  function LastTaker(p: Params, s: State, events: seq<Event>, id: EntryId): Option<Consumer> {
    if events == [] then None else
    var before, last := events[..|events| - 1], events[|events| - 1];
    var take := Takes(p, Run(p, s, before), last);
    if take.Some? && take.value.1 == id then Some(take.value.0) else LastTaker(p, s, before, id)
  }

  lemma OwnerStep(p: Params, s: State, ev: Event, s': State, id: EntryId)
    requires s' == Apply(p, s, ev) && id in s'.pel
    ensures var take := Takes(p, s, ev);
      if take.Some? && take.value.1 == id then s'.pel[id].owner == take.value.0
      else id in s.pel && s'.pel[id].owner == s.pel[id].owner
  {
    hide OnSpawn, OnReclaim, OnReadCount, OnReadNew, OnHeartbeat, OnFinish, OnWriteRecord, OnAck, OnReap, OnReapAck, OnReapRecord,
      OnCleanExit, OnInspect, OnDelete;
  }

  lemma {:induction false} OwnerIsLastTaker(p: Params, s: State, events: seq<Event>, id: EntryId)
    requires id in Run(p, s, events).pel
    ensures var owner := Run(p, s, events).pel[id].owner;
      match LastTaker(p, s, events, id)
      case Some(c) => owner == c
      case None => id in s.pel && owner == s.pel[id].owner
  {
    hide Apply, Takes;
    if events != [] {
      var before, last := events[..|events| - 1], events[|events| - 1];
      OwnerStep(p, Run(p, s, before), last, Run(p, s, events), id);
      if id in Run(p, s, before).pel {
        OwnerIsLastTaker(p, s, before, id);
      }
    }
  }

  lemma {:induction false} MarkStays(p: Params, s: State, events: seq<Event>, t: nat)
    requires t in s.marks && forall e :: e in events ==> e != Delete(t) && (e.Inspect? ==> e.t != t)
    ensures t in Run(p, s, events).marks && Run(p, s, events).marks[t].consumer == s.marks[t].consumer
  {
    hide Apply;
    if events != [] {
      var before, last := events[..|events| - 1], events[|events| - 1];
      assert last in events && forall e :: e in before ==> e in events;
      MarkStays(p, s, before, t);
      MarkStep(p, Run(p, s, before), last, t);
    }
  }

  lemma MarkStep(p: Params, s: State, ev: Event, t: nat)
    requires t in s.marks && ev != Delete(t) && (ev.Inspect? ==> ev.t != t)
    ensures t in Apply(p, s, ev).marks && Apply(p, s, ev).marks[t].consumer == s.marks[t].consumer
  {
    hide OnSpawn, OnReclaim, OnReadCount, OnReadNew, OnHeartbeat, OnFinish, OnWriteRecord, OnAck, OnReap, OnReapAck, OnReapRecord,
      OnCleanExit, OnInspect, OnDelete;
  }

  /**
    A collector's delete discards a pending row if and only if its consumer took that row after the
    inspection and nobody has taken it since.
  */
  lemma DeleteDiscardsIff(p: Params, before: seq<Event>, t: nat, c: Consumer, after: seq<Event>, id: EntryId)
    requires Collectable(p, Run(p, Init, before), c)
    requires forall e :: e in after ==> e != Delete(t) && (e.Inspect? ==> e.t != t)
    ensures var marked := Apply(p, Run(p, Init, before), Inspect(t, c)); var s := Run(p, marked, after);
      && s == Run(p, Init, before + [Inspect(t, c)] + after)
      && (id in s.pel ==> (id !in Apply(p, s, Delete(t)).pel <==> LastTaker(p, marked, after, id) == Some(c)))
  {
    hide Run, Apply;
    var marked := Apply(p, Run(p, Init, before), Inspect(t, c));
    var s := Run(p, marked, after);
    RunConcat(p, Init, before, [Inspect(t, c)]);
    RunOne(p, Run(p, Init, before), Inspect(t, c));
    RunConcat(p, Init, before + [Inspect(t, c)], after);
    InspectMarks(p, Run(p, Init, before), t, c);
    MarkStays(p, marked, after, t);
    if id in s.pel {
      OwnerIsLastTaker(p, marked, after, id);
      DeleteStep(p, s, t, id);
    }
  }

  lemma InspectMarks(p: Params, s: State, t: nat, c: Consumer)
    requires Collectable(p, s, c)
    ensures var r := Apply(p, s, Inspect(t, c));
      t in r.marks && r.marks[t].consumer == c && forall id :: id in r.pel ==> r.pel[id].owner != c
  {
  }

  lemma DeleteStep(p: Params, s: State, t: nat, id: EntryId)
    requires t in s.marks && id in s.pel
    ensures id !in Apply(p, s, Delete(t)).pel <==> s.pel[id].owner == s.marks[t].consumer
  {
  }

  lemma {:induction false} EndedTakesNothing(p: Params, s: State, events: seq<Event>, c: Consumer, id: EntryId)
    requires c in s.used && c !in s.procs
    ensures c in Run(p, s, events).used && c !in Run(p, s, events).procs && LastTaker(p, s, events, id) != Some(c)
  {
    hide Apply;
    if events != [] {
      var before, last := events[..|events| - 1], events[|events| - 1];
      EndedTakesNothing(p, s, before, c, id);
      EndedStays(p, Run(p, s, before), last, Run(p, s, events), c);
    }
  }

  lemma EndedStays(p: Params, s: State, ev: Event, s': State, c: Consumer)
    requires s' == Apply(p, s, ev) && c in s.used && c !in s.procs
    ensures c in s'.used && c !in s'.procs
  {
    hide OnSpawn, OnReclaim, OnReadCount, OnReadNew, OnHeartbeat, OnFinish, OnWriteRecord, OnAck, OnReap, OnReapAck, OnReapRecord,
      OnCleanExit, OnInspect, OnDelete;
  }

  /** Collecting the consumer of a process that has ended discards nothing, however late the delete comes. */
  lemma EndedConsumerIsSafe(p: Params, before: seq<Event>, t: nat, c: Consumer, after: seq<Event>)
    requires Collectable(p, Run(p, Init, before), c) && c in Run(p, Init, before).used && c !in Run(p, Init, before).procs
    requires forall e :: e in after ==> e != Delete(t) && (e.Inspect? ==> e.t != t)
    ensures var s := Run(p, Init, before + [Inspect(t, c)] + after);
      forall id :: id in s.pel ==> id in Apply(p, s, Delete(t)).pel
  {
    hide Run;
    var marked := Apply(p, Run(p, Init, before), Inspect(t, c));
    var s := Run(p, Init, before + [Inspect(t, c)] + after);
    forall id | id in s.pel ensures id in Apply(p, s, Delete(t)).pel {
      DeleteDiscardsIff(p, before, t, c, after, id);
      EndedTakesNothing(p, marked, after, c, id);
    }
  }
}
