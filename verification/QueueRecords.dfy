/** When the record of a finished leaf is safe from the dead-letter paths. */
module QueueRecords {
  import opened Prelude
  import opened WorkQueue
  import opened QueueRuns

  /** A phase from which this entry's record gets dead-lettered. */
  predicate Bad(p: Params, ph: Phase, id: EntryId) {
    match ph
    case Writing(x, _, dead) => x == id && dead
    case Reaping(x, _) => x == id
    case Counting(x, _) => x == id && p.maxAttempts == 0
    case _ => false
  }

  /** A process that is about to dead-letter this entry's record, or a reaper that owes it one. */
  predicate Threat(p: Params, s: State, c: Consumer, id: EntryId) {
    c in s.procs && (Bad(p, s.procs[c], id) || (c, id) in s.owed)
  }

  predicate IsFinal(s: State, id: EntryId) {
    id in s.results && s.results[id].Final?
  }

  /** The row is gone, and no dead-letter record is under way. */
  ghost predicate Sealed(p: Params, s: State, id: EntryId) {
    id !in s.pel && forall c :: !Threat(p, s, c, id)
  }

  /** Whatever happens from here on, the record stays final. */
  ghost predicate Survives(p: Params, s: State, id: EntryId) {
    forall more: seq<Event> :: IsFinal(Run(p, s, more), id)
  }

  // ---------------------------------------------------------------------------
  // A sealed record stays

  /** What keeps a record sealed: its process does not turn bad, and nothing new is owed. */
  ghost predicate Calm(p: Params, s: State, s': State, c: Consumer, id: EntryId) {
    && Moves(s, s', c) && id !in s'.pel && IsFinal(s', id)
    && (forall d :: (d, id) in s'.owed ==> (d, id) in s.owed)
    && (c in s'.procs ==> !Bad(p, s'.procs[c], id))
  }

  lemma CalmSeals(p: Params, s: State, s': State, c: Consumer, id: EntryId)
    requires Inv(p, s) && Sealed(p, s, id) && Calm(p, s, s', c, id)
    ensures Sealed(p, s', id) && IsFinal(s', id)
  {
    hide StartInv, LateInv, ClaimInv, Owned, MarksOk, Bad;
    forall d ensures !Threat(p, s', d, id) {
      assert !Threat(p, s, d, id);
    }
  }

  lemma ClaimIsCalm(p: Params, s: State, ev: Event, s': State, id: EntryId)
    requires Inv(p, s) && Sealed(p, s, id) && IsFinal(s, id) && (ev.Reclaim? || ev.Reap? || ev.ReadNew? || ev.Heartbeat?)
    requires s' == Apply(p, s, ev)
    ensures Calm(p, s, s', ev.c, id)
  {
    hide StartInv, LateInv, ClaimInv, Owned, MarksOk, StartsOf, StartedOf, Marked;
    assert !Threat(p, s, ev.c, id);
  }

  lemma ReadCountIsCalm(p: Params, s: State, c: Consumer, s': State, id: EntryId)
    requires Inv(p, s) && Sealed(p, s, id) && IsFinal(s, id) && s' == Apply(p, s, ReadCount(c))
    ensures Calm(p, s, s', c, id)
  {
    hide StartInv, LateInv, ClaimInv, Owned, MarksOk, StartsOf, StartedOf;
    assert !Threat(p, s, c, id);
  }

  lemma WorkIsCalm(p: Params, s: State, ev: Event, s': State, id: EntryId)
    requires Inv(p, s) && Sealed(p, s, id) && IsFinal(s, id)
    requires ev.Finish? || ev.WriteRecord?
    requires s' == Apply(p, s, ev)
    ensures Calm(p, s, s', ev.c, id)
  {
    hide Inv;
    assert !Threat(p, s, ev.c, id);
  }

  lemma AckIsCalm(p: Params, s: State, ev: Event, s': State, id: EntryId)
    requires Sealed(p, s, id) && IsFinal(s, id) && (ev.Ack? || ev.ReapAck?) && s' == Apply(p, s, ev)
    ensures Calm(p, s, s', ev.c, id)
  {
    assert !Threat(p, s, ev.c, id);
  }

  lemma ComeAndGoIsCalm(p: Params, s: State, ev: Event, s': State, id: EntryId)
    requires Sealed(p, s, id) && IsFinal(s, id) && (ev.Spawn? || ev.Crash? || ev.CleanExit?) && s' == Apply(p, s, ev)
    ensures Calm(p, s, s', ev.c, id)
  {
    assert !Threat(p, s, ev.c, id);
  }

  /** The steps of clock, stream, polls, reaper's records and collectors, which move no process. */
  lemma StillSeals(p: Params, s: State, ev: Event, s': State, id: EntryId)
    requires Inv(p, s) && Sealed(p, s, id) && IsFinal(s, id) && s' == Apply(p, s, ev)
    requires ev.Tick? || ev.Enqueue? || ev.Poll? || ev.ReapRecord? || ev.ReapSkip? || ev.Inspect? || ev.Delete?
    ensures Sealed(p, s', id) && IsFinal(s', id)
  {
    hide StartInv, LateInv, ClaimInv, Owned, MarksOk, StartsOf, StartedOf, Discarded, Bad;
    forall d ensures !Threat(p, s', d, id) {
      assert !Threat(p, s, d, id);
    }
    if ev.ReapRecord? {
      assert !Threat(p, s, ev.c, id);
    }
  }

  lemma StepKeepsSealed(p: Params, s: State, ev: Event)
    requires Inv(p, s)
    ensures forall id :: Sealed(p, s, id) && IsFinal(s, id) ==> Sealed(p, Apply(p, s, ev), id) && IsFinal(Apply(p, s, ev), id)
  {
    hide Apply, Inv, Sealed, IsFinal, Calm;
    var s' := Apply(p, s, ev);
    forall id | Sealed(p, s, id) && IsFinal(s, id) ensures Sealed(p, s', id) && IsFinal(s', id) {
      if ev.Reclaim? || ev.Reap? || ev.ReadNew? || ev.Heartbeat? {
        ClaimIsCalm(p, s, ev, s', id);
        CalmSeals(p, s, s', ev.c, id);
      } else if ev.ReadCount? {
        ReadCountIsCalm(p, s, ev.c, s', id);
        CalmSeals(p, s, s', ev.c, id);
      } else if ev.Finish? || ev.WriteRecord? {
        WorkIsCalm(p, s, ev, s', id);
        CalmSeals(p, s, s', ev.c, id);
      } else if ev.Ack? || ev.ReapAck? {
        AckIsCalm(p, s, ev, s', id);
        CalmSeals(p, s, s', ev.c, id);
      } else if ev.Spawn? || ev.Crash? || ev.CleanExit? {
        ComeAndGoIsCalm(p, s, ev, s', id);
        CalmSeals(p, s, s', ev.c, id);
      } else {
        StillSeals(p, s, ev, s', id);
      }
    }
  }

  lemma {:induction false} SealedStays(p: Params, s: State, more: seq<Event>, id: EntryId)
    requires Inv(p, s) && Sealed(p, s, id) && IsFinal(s, id)
    ensures var r := Run(p, s, more); Inv(p, r) && Sealed(p, r, id) && IsFinal(r, id)
  {
    hide Apply, Inv, Sealed, IsFinal;
    if more != [] {
      SealedStays(p, s, more[..|more| - 1], id);
      StepKeepsInv(p, Run(p, s, more[..|more| - 1]), more[|more| - 1]);
      StepKeepsSealed(p, Run(p, s, more[..|more| - 1]), more[|more| - 1]);
    }
  }

  // ---------------------------------------------------------------------------
  // A record that is not sealed can still be overwritten

  predicate IsDead(s: State, id: EntryId) {
    id in s.results && s.results[id].DeadLettered?
  }

  lemma Unused(used: set<nat>) returns (d: nat)
    ensures forall x :: x in used ==> x < d
  {
    if used == {} {
      d := 0;
    } else {
      var x :| x in used;
      var e := Unused(used - {x});
      d := if x < e then e else x + 1;
      assert forall y :: y in used ==> y == x || y in used - {x};
    }
  }

  /** A newcomer waits out the idle time and reclaims the row: one more delivery. */
  lemma OneMore(p: Params, s: State, d: Consumer, id: EntryId)
    requires Inv(p, s) && id in s.pel && d !in s.used
    ensures var r := Apply(p, Apply(p, Apply(p, s, Spawn(d)), Tick(p.minIdle)), Reclaim(d, id));
      && id in r.pel && r.pel[id].count == s.pel[id].count + 1 && d in r.procs && r.procs[d] == Counting(id, s.pel[id].count + 1)
  {
    hide StartInv, LateInv, ClaimInv, Accounted, MarksOk, StartsOf, StartedOf, Marked;
    assert s.pel[id].at <= s.now;
  }

  /** A claim past the limit, read back and recorded. */
  lemma PastLimit(p: Params, s: State, d: Consumer)
    requires d in s.procs && s.procs[d].Counting?
    requires var id := s.procs[d].id; (if id in s.pel then s.pel[id].count else 1) > p.maxAttempts
    ensures IsDead(Apply(p, Apply(p, s, ReadCount(d)), WriteRecord(d)), s.procs[d].id)
  {
  }

  /** As long as its row is there, deliveries can go on until the entry is dead-lettered. */
  lemma {:induction false} WearsOut(p: Params, s: State, id: EntryId) returns (more: seq<Event>)
    requires Inv(p, s) && id in s.pel
    ensures IsDead(Run(p, s, more), id)
    decreases p.maxAttempts + 1 - s.pel[id].count
  {
    hide Apply, Inv, IsDead;
    var d := Unused(s.used);
    var events := [Spawn(d), Tick(p.minIdle), Reclaim(d, id)];
    RunThree(p, s, Spawn(d), Tick(p.minIdle), Reclaim(d, id));
    var r := Run(p, s, events);
    OneMore(p, s, d, id);
    StepKeepsInv(p, s, Spawn(d));
    StepKeepsInv(p, Apply(p, s, Spawn(d)), Tick(p.minIdle));
    StepKeepsInv(p, Apply(p, Apply(p, s, Spawn(d)), Tick(p.minIdle)), Reclaim(d, id));
    var rest: seq<Event>;
    if r.pel[id].count > p.maxAttempts {
      rest := [ReadCount(d), WriteRecord(d)];
      RunTwo(p, r, ReadCount(d), WriteRecord(d));
      PastLimit(p, r, d);
    } else {
      rest := WearsOut(p, r, id);
    }
    more := events + rest;
    RunConcat(p, s, events, rest);
  }

  lemma OwedIsWritten(p: Params, s: State, c: Consumer, id: EntryId)
    requires c in s.procs && (c, id) in s.owed
    ensures IsDead(Apply(p, s, ReapRecord(c, id)), id)
  {
  }

  lemma DeadIsWritten(p: Params, s: State, c: Consumer)
    requires c in s.procs && s.procs[c].Writing? && s.procs[c].dead
    ensures IsDead(Apply(p, s, WriteRecord(c)), s.procs[c].id)
  {
  }

  lemma ReapedOwes(p: Params, s: State, c: Consumer)
    requires c in s.procs && s.procs[c].Reaping?
    ensures c in Apply(p, s, ReapAck(c)).procs && (c, s.procs[c].id) in Apply(p, s, ReapAck(c)).owed
  {
  }

  lemma ThreatComesTrue(p: Params, s: State, c: Consumer, id: EntryId) returns (more: seq<Event>)
    requires Inv(p, s) && Threat(p, s, c, id) && id !in s.pel
    ensures IsDead(Run(p, s, more), id)
  {
    hide Inv, Run, Apply;
    if (c, id) in s.owed {
      more := [ReapRecord(c, id)];
      RunOne(p, s, ReapRecord(c, id));
      OwedIsWritten(p, s, c, id);
    } else if s.procs[c].Writing? {
      more := [WriteRecord(c)];
      RunOne(p, s, WriteRecord(c));
      DeadIsWritten(p, s, c);
    } else if s.procs[c].Reaping? {
      more := [ReapAck(c), ReapRecord(c, id)];
      RunTwo(p, s, ReapAck(c), ReapRecord(c, id));
      ReapedOwes(p, s, c);
      OwedIsWritten(p, Apply(p, s, ReapAck(c)), c, id);
    } else {
      more := [ReadCount(c), WriteRecord(c)];
      RunTwo(p, s, ReadCount(c), WriteRecord(c));
      PastLimit(p, s, c);
    }
  }

  /**
    In every run, a final record is safe from then on if and only if its row is gone and no process
    is dead-lettering the entry, reaping it or owing it a reaper's record. While its row is pending
    the record can still be overwritten, whether or not its writer lives.
  */
  lemma FinalSurvivesIff(p: Params, events: seq<Event>, id: EntryId)
    requires IsFinal(Run(p, Init, events), id)
    ensures Survives(p, Run(p, Init, events), id) <==> Sealed(p, Run(p, Init, events), id)
  {
    hide Apply, Inv, Threat, Run;
    ReachableInv(p, events);
    var s := Run(p, Init, events);
    if Sealed(p, s, id) {
      forall more: seq<Event> ensures IsFinal(Run(p, s, more), id) {
        SealedStays(p, s, more, id);
      }
    } else {
      var more: seq<Event>;
      if id in s.pel {
        more := WearsOut(p, s, id);
      } else {
        var c :| Threat(p, s, c, id);
        more := ThreatComesTrue(p, s, c, id);
      }
      assert !IsFinal(Run(p, s, more), id);
    }
  }
}
