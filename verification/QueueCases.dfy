/** Runs of the work queue that show the limits of its promises. */
module QueueCases {
  import opened Prelude
  import opened WorkQueue
  import opened QueueRuns
  import opened QueueRecords

  /** One attempt, a short idle time. */
  const P := Params(1, 5, 300)

  /** Three processes, of which the first has read the only entry and started its leaf. */
  const BEGUN := [Enqueue, Spawn(0), Spawn(1)] + [Spawn(2), ReadNew(0)]

  const RUNNING := Init.(
    length := 1, cursor := 1, pel := map[0 := Row(0, 1, 0)], used := {0, 1, 2}, seen := map[0 := 0],
    procs := map[0 := Running(0, 1), 1 := Idle, 2 := Idle], starts := map[0 := [1]], started := map[0 := 1])

  lemma Begun()
    ensures Run(P, Init, BEGUN) == RUNNING
  {
    hide Run, Apply;
    RunThree(P, Init, Enqueue, Spawn(0), Spawn(1));
    TwoSpawned();
    RunConcat(P, Init, [Enqueue, Spawn(0), Spawn(1)], [Spawn(2), ReadNew(0)]);
    var a := Init.(length := 1, used := {0, 1}, procs := map[0 := Idle, 1 := Idle]);
    RunTwo(P, a, Spawn(2), ReadNew(0));
    FirstReads(a);
  }

  lemma TwoSpawned()
    ensures Apply(P, Apply(P, Apply(P, Init, Enqueue), Spawn(0)), Spawn(1)) ==
      Init.(length := 1, used := {0, 1}, procs := map[0 := Idle, 1 := Idle])
  {
  }

  lemma FirstReads(a: State)
    requires a == Init.(length := 1, used := {0, 1}, procs := map[0 := Idle, 1 := Idle])
    ensures Apply(P, Apply(P, a, Spawn(2)), ReadNew(0)) == RUNNING
  {
    var b := a.(used := {0, 1, 2}, procs := map[0 := Idle, 1 := Idle, 2 := Idle]);
    assert Apply(P, a, Spawn(2)) == b;
    assert Marked(map[], 0) == map[];
    var n := b.(
      seen := map[0 := 0], pel := map[0 := Row(0, 1, 0)], cursor := 1, procs := map[0 := Counting(0, 1), 1 := Idle, 2 := Idle]);
    assert NewRow(Noted(b, 0), 0) == n;
    FirstStarts(n);
  }

  lemma FirstStarts(n: State)
    requires n == RUNNING.(procs := map[0 := Counting(0, 1), 1 := Idle, 2 := Idle], starts := map[], started := map[])
    ensures Decide(P, n, 0, 0, 1, 1) == RUNNING
  {
    assert n.procs[0 := Running(0, 1)] == RUNNING.procs;
    var none: seq<nat> := [];
    assert none + [1] == [1];
  }

  const RECLAIMED := RUNNING.(
    now := 5, pel := map[0 := Row(1, 2, 5)], seen := map[0 := 0, 1 := 5],
    procs := map[0 := Running(0, 1), 1 := Counting(0, 2), 2 := Idle])

  lemma Reclaimed()
    ensures Run(P, RUNNING, [Tick(5), Reclaim(1, 0)]) == RECLAIMED
  {
    RunTwo(P, RUNNING, Tick(5), Reclaim(1, 0));
    assert Marked(map[], 1) == map[];
  }

  /** The first process records its result and acknowledges the entry, whoever has reclaimed it since. */
  lemma FirstSettles(s: State)
    requires 0 in s.procs && s.procs[0] == Running(0, 1)
    ensures Run(P, s, [Finish(0, false), WriteRecord(0), Ack(0)]) ==
      s.(procs := s.procs[0 := Idle], results := s.results[0 := Final], pel := s.pel - {0}, acked := s.acked + {0})
  {
    hide Run, Apply;
    RunThree(P, s, Finish(0, false), WriteRecord(0), Ack(0));
    FirstRecords(s);
    FirstAcks(Apply(P, Apply(P, s, Finish(0, false)), WriteRecord(0)));
  }

  lemma FirstRecords(s: State)
    requires 0 in s.procs && s.procs[0] == Running(0, 1)
    ensures Apply(P, Apply(P, s, Finish(0, false)), WriteRecord(0)) ==
      s.(procs := s.procs[0 := Recorded(0, 1)], results := s.results[0 := Final])
  {
    var a := Apply(P, s, Finish(0, false));
    assert a == s.(procs := s.procs[0 := Writing(0, 1, false)]);
  }

  lemma FirstAcks(s: State)
    requires 0 in s.procs && s.procs[0] == Recorded(0, 1)
    ensures Apply(P, s, Ack(0)) == s.(procs := s.procs[0 := Idle], pel := s.pel - {0}, acked := s.acked + {0})
  {
  }

  // ---------------------------------------------------------------------------
  // Late starts

  /** Two processes reclaim the entry in turn, the first acknowledges it, and then they read their counts. */
  const LATE := BEGUN + [Tick(5), Reclaim(1, 0)] + [Tick(5), Reclaim(2, 0)] + [Finish(0, false), WriteRecord(0), Ack(0)] +
    [ReadCount(1), ReadCount(2)]

  /** With one attempt allowed, the leaf is started three times. */
  lemma LateStarts()
    ensures StartedOf(Run(P, Init, LATE), 0) == 3 && StartsOf(Run(P, Init, LATE), 0) == [1] && LateReads(P, LATE, 0) == 2
  {
    hide Run, LateReads, Apply;
    Begun();
    Reclaimed();
    RunConcat(P, Init, BEGUN, [Tick(5), Reclaim(1, 0)]);
    RunConcat(P, Init, BEGUN + [Tick(5), Reclaim(1, 0)], [Tick(5), Reclaim(2, 0)]);
    var s := Run(P, RECLAIMED, [Tick(5), Reclaim(2, 0)]);
    SecondReclaim();
    var settle := [Finish(0, false), WriteRecord(0), Ack(0)];
    FirstSettles(s);
    RunConcat(P, Init, BEGUN + [Tick(5), Reclaim(1, 0)] + [Tick(5), Reclaim(2, 0)], settle);
    var t := Run(P, s, settle);
    RunConcat(P, Init, BEGUN + [Tick(5), Reclaim(1, 0)] + [Tick(5), Reclaim(2, 0)] + settle, [ReadCount(1), ReadCount(2)]);
    RunTwo(P, t, ReadCount(1), ReadCount(2));
    BothStart(t);
    StartsAre(P, LATE, 0);
  }

  lemma SecondReclaim()
    ensures var s := Run(P, RECLAIMED, [Tick(5), Reclaim(2, 0)]);
      s.procs == map[0 := Running(0, 1), 1 := Counting(0, 2), 2 := Counting(0, 3)] && NoStart(RUNNING, s)
  {
    RunTwo(P, RECLAIMED, Tick(5), Reclaim(2, 0));
  }

  lemma BothStart(s: State)
    requires s.procs == map[0 := Idle, 1 := Counting(0, 2), 2 := Counting(0, 3)] && 0 !in s.pel && NoStart(RUNNING, s)
    ensures var r := Apply(P, Apply(P, s, ReadCount(1)), ReadCount(2)); StartedOf(r, 0) == 3 && StartsOf(r, 0) == [1]
  {
  }

  // ---------------------------------------------------------------------------
  // Records that are overwritten

  /** The writer dies before its ack, and the next delivery is past the limit. */
  const WRITER_DIES := BEGUN + [Finish(0, false), WriteRecord(0), Crash(0)] + [Tick(5), Reclaim(1, 0)] + [ReadCount(1), WriteRecord(1)]

  lemma DyingWriterIsOverwritten()
    ensures IsFinal(Run(P, Init, BEGUN + [Finish(0, false), WriteRecord(0), Crash(0)]), 0)
    ensures IsDead(Run(P, Init, WRITER_DIES), 0)
  {
    hide Run, Apply;
    Begun();
    var end := [Finish(0, false), WriteRecord(0), Crash(0)];
    RunConcat(P, Init, BEGUN, end);
    var s := Run(P, RUNNING, end);
    DyingWriter();
    RunConcat(P, Init, BEGUN + end, [Tick(5), Reclaim(1, 0)]);
    RunTwo(P, s, Tick(5), Reclaim(1, 0));
    var t := Run(P, s, [Tick(5), Reclaim(1, 0)]);
    ReclaimedAfter(s);
    RunConcat(P, Init, BEGUN + end + [Tick(5), Reclaim(1, 0)], [ReadCount(1), WriteRecord(1)]);
    RunTwo(P, t, ReadCount(1), WriteRecord(1));
    PastLimit(P, t, 1);
  }

  lemma DyingWriter()
    ensures var s := Run(P, RUNNING, [Finish(0, false), WriteRecord(0), Crash(0)]);
      IsFinal(s, 0) && s.pel == RUNNING.pel && s.now == 0 && IsIdle(s, 1) && IsIdle(s, 2)
  {
    hide Run;
    RunThree(P, RUNNING, Finish(0, false), WriteRecord(0), Crash(0));
    FirstRecords(RUNNING);
    hide OnFinish, OnWriteRecord;
  }

  lemma ReclaimedAfter(s: State)
    requires s.pel == map[0 := Row(0, 1, 0)] && s.now == 0 && IsIdle(s, 1)
    ensures var t := Apply(P, Apply(P, s, Tick(5)), Reclaim(1, 0));
      1 in t.procs && t.procs[1] == Counting(0, 2) && 0 in t.pel && t.pel[0].count == 2
  {
  }

  /** The entry is reclaimed past the limit while its leaf still runs; the writer lives and acknowledges. */
  const WRITER_LIVES := BEGUN + [Tick(5), Reclaim(1, 0)] + [ReadCount(1)] + [Finish(0, false), WriteRecord(0), Ack(0)] + [WriteRecord(1)]

  lemma LivingWriterIsOverwritten()
    ensures var s := Run(P, Init, BEGUN + [Tick(5), Reclaim(1, 0)] + [ReadCount(1)] + [Finish(0, false), WriteRecord(0), Ack(0)]);
      IsFinal(s, 0) && 0 in s.acked && 0 in s.procs
    ensures IsDead(Run(P, Init, WRITER_LIVES), 0)
  {
    hide Run, Apply;
    Begun();
    Reclaimed();
    RunConcat(P, Init, BEGUN, [Tick(5), Reclaim(1, 0)]);
    var begin := BEGUN + [Tick(5), Reclaim(1, 0)];
    RunConcat(P, Init, begin, [ReadCount(1)]);
    RunOne(P, RECLAIMED, ReadCount(1));
    var s := Apply(P, RECLAIMED, ReadCount(1));
    CountedOut();
    var settle := [Finish(0, false), WriteRecord(0), Ack(0)];
    RunConcat(P, Init, begin + [ReadCount(1)], settle);
    FirstSettles(s);
    var t := Run(P, s, settle);
    RunConcat(P, Init, begin + [ReadCount(1)] + settle, [WriteRecord(1)]);
    RunOne(P, t, WriteRecord(1));
    DeadIsWritten(P, t, 1);
  }

  lemma CountedOut()
    ensures Apply(P, RECLAIMED, ReadCount(1)).procs == map[0 := Running(0, 1), 1 := Writing(0, 2, true), 2 := Idle]
  {
  }

  /** The writer dies before its ack, a second process dies too, and a third one reaps the entry and records it after its ack. */
  const REAPED := BEGUN + [Finish(0, false), WriteRecord(0), Crash(0)] + [Tick(5), Reclaim(1, 0), Crash(1)] + [Tick(5), Reap(2, 0)] +
    [ReapAck(2), ReapRecord(2, 0)]

  lemma ReaperOverwrites()
    ensures IsFinal(Run(P, Init, BEGUN + [Finish(0, false), WriteRecord(0), Crash(0)]), 0) && IsDead(Run(P, Init, REAPED), 0)
  {
    hide Run, Apply;
    Begun();
    var end := [Finish(0, false), WriteRecord(0), Crash(0)];
    RunConcat(P, Init, BEGUN, end);
    DyingWriter();
    var s := Run(P, RUNNING, end);
    RunConcat(P, Init, BEGUN + end, [Tick(5), Reclaim(1, 0), Crash(1)]);
    RunThree(P, s, Tick(5), Reclaim(1, 0), Crash(1));
    var t := Run(P, s, [Tick(5), Reclaim(1, 0), Crash(1)]);
    DiesCounting(s);
    RunConcat(P, Init, BEGUN + end + [Tick(5), Reclaim(1, 0), Crash(1)], [Tick(5), Reap(2, 0)]);
    RunTwo(P, t, Tick(5), Reap(2, 0));
    var u := Run(P, t, [Tick(5), Reap(2, 0)]);
    ReapsSecond(t);
    RunConcat(P, Init, BEGUN + end + [Tick(5), Reclaim(1, 0), Crash(1)] + [Tick(5), Reap(2, 0)], [ReapAck(2), ReapRecord(2, 0)]);
    RunTwo(P, u, ReapAck(2), ReapRecord(2, 0));
    ReapedOwes(P, u, 2);
    OwedIsWritten(P, Apply(P, u, ReapAck(2)), 2, 0);
  }

  lemma DiesCounting(s: State)
    requires s.pel == map[0 := Row(0, 1, 0)] && s.now == 0 && IsIdle(s, 1) && IsIdle(s, 2)
    ensures var t := Apply(P, Apply(P, Apply(P, s, Tick(5)), Reclaim(1, 0)), Crash(1));
      IsIdle(t, 2) && t.now == 5 && t.pel == map[0 := Row(1, 2, 5)]
  {
  }

  lemma ReapsSecond(t: State)
    requires IsIdle(t, 2) && t.now == 5 && t.pel == map[0 := Row(1, 2, 5)]
    ensures var u := Apply(P, Apply(P, t, Tick(5)), Reap(2, 0)); 2 in u.procs && u.procs[2] == Reaping(0, 3)
  {
  }

  // ---------------------------------------------------------------------------
  // A row lost to a collector

  /** The limits the leaf job runs with. */
  const JOB := Params(3, 90000, 300000)

  /** A process polls, stalls until a collector finds its consumer idle, then reads an entry before the delete. */
  const STALLED := [Spawn(0), Poll(0), Tick(300000)] + [Inspect(7, 0)]

  lemma CollectRaceLosesRow()
    ensures Collectable(JOB, Run(JOB, Init, [Spawn(0), Poll(0), Tick(300000)]), 0)
    ensures var s := Run(JOB, Init, STALLED + [Enqueue, ReadNew(0)] + [Delete(7)]);
      0 < s.cursor && 0 !in s.pel && 0 !in s.acked && 0 in s.lost && 0 in s.procs && s.procs[0] == Running(0, 1)
  {
    hide Run, Apply;
    RunThree(JOB, Init, Spawn(0), Poll(0), Tick(300000));
    Stalls();
    var s := Run(JOB, Init, [Spawn(0), Poll(0), Tick(300000)]);
    RunConcat(JOB, Init, [Spawn(0), Poll(0), Tick(300000)], [Inspect(7, 0)]);
    RunOne(JOB, s, Inspect(7, 0));
    RunConcat(JOB, Init, STALLED, [Enqueue, ReadNew(0)]);
    var t := Apply(JOB, s, Inspect(7, 0));
    RunTwo(JOB, t, Enqueue, ReadNew(0));
    var u := Run(JOB, t, [Enqueue, ReadNew(0)]);
    Reads(s);
    RunConcat(JOB, Init, STALLED + [Enqueue, ReadNew(0)], [Delete(7)]);
    RunOne(JOB, u, Delete(7));
    Loses(u);
  }

  lemma Stalls()
    ensures Apply(JOB, Apply(JOB, Apply(JOB, Init, Spawn(0)), Poll(0)), Tick(300000)) ==
      Init.(now := 300000, used := {0}, procs := map[0 := Idle], seen := map[0 := 0])
  {
  }

  lemma Reads(s: State)
    requires s == Init.(now := 300000, used := {0}, procs := map[0 := Idle], seen := map[0 := 0])
    ensures var u := Apply(JOB, Apply(JOB, Apply(JOB, s, Inspect(7, 0)), Enqueue), ReadNew(0));
      && 7 in u.marks && u.marks[7].consumer == 0 && u.pel == map[0 := Row(0, 1, 300000)] && u.cursor == 1
      && 0 in u.procs && u.procs[0] == Running(0, 1) && u.acked == {}
  {
  }

  lemma Loses(u: State)
    requires 7 in u.marks && u.marks[7].consumer == 0 && u.pel == map[0 := Row(0, 1, 300000)] && u.cursor == 1
    requires 0 in u.procs && u.procs[0] == Running(0, 1) && u.acked == {}
    ensures var s := Apply(JOB, u, Delete(7));
      0 < s.cursor && 0 !in s.pel && 0 !in s.acked && 0 in s.lost && 0 in s.procs && s.procs[0] == Running(0, 1)
  {
    assert Owns(u.pel, 0, 0);
  }
}
