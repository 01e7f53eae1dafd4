/** Where the gate's promises end: lost writes, rejections, and verdicts beside an open gate. */
module GateLimits {
  import opened Prelude
  import opened GateLog

  // ---------------------------------------------------------------------------
  // A decision whose write is swallowed

  predicate NoAsked(log: Log) {
    forall i :: 0 <= i < |log| ==> !log[i].Asked?
  }

  /** What may follow a lost decision: no request, and no verdict that needs it. */
  predicate Harmless(log: Log, tail: Log, approval: bool) {
    NoAsked(tail) && (approval && Decisions(log) == [] ==> !HasVerdict(tail))
  }

  /** One more entry after a lost decision obeys the rules exactly if it is harmless. */
  lemma RuleAfterLoss(log: Log, d: GateDecision, init: Log, last: Entry, approval: bool)
    requires GoodLog(log + [Decided(d)] + init + [last], approval) && NoDecided(init) && !last.Decided?
    ensures MayFollow(log + init, last, approval) <==> !last.Asked? && (last.Verdict? && approval ==> Decisions(log) != [])
  {
    hide Requests, Decisions, HasVerdict;
    var e := Decided(d);
    var all := log + [e] + init;
    WithoutOne(log, e, init);
    assert (all + [last])[..|all|] == all && (all + [last])[|all|] == last;
    assert MayFollow(all, last, approval);
    assert (all + [last])[..|log|] == log && (all + [last])[|log|] == e;
    assert MayFollow(log, e, approval);
    assert AnsweredIds(all) == AnsweredIds(log) + {d.gateId};
    if last.Asked? {
      assert d.gateId in AskedIds(log + init) - AnsweredIds(log + init) by {
        AskedGrow(log, init);
      }
    }
  }

  lemma {:induction false} AskedGrow(log: Log, tail: Log)
    ensures AskedIds(log + tail) == AskedIds(log) + AskedIds(tail)
  {
    hide Requests, Decisions, HasVerdict;
    if tail == [] {
      assert log + tail == log;
      EmptyViews();
    } else {
      var init, last := tail[..|tail| - 1], tail[|tail| - 1];
      AskedGrow(log, init);
      assert log + tail == log + init + [last] && tail == init + [last];
      Views(log + init, last);
      Views(init, last);
    }
  }

  /** A log without one of its decisions is good if and only if what follows it is harmless. */
  lemma {:induction false} LostDecisionGoodIff(log: Log, d: GateDecision, tail: Log, approval: bool)
    requires GoodLog(log + [Decided(d)] + tail, approval) && NoDecided(tail)
    ensures GoodLog(log + tail, approval) <==> Harmless(log, tail, approval)
  {
    hide MayFollow, GoodLog, HasVerdict;
    var e := Decided(d);
    if tail == [] {
      assert log + tail == log && (log + [e] + tail)[..|log|] == log;
      GoodPrefix(log + [e] + tail, |log|, approval);
      NoVerdictInNothing();
    } else {
      var init, last := tail[..|tail| - 1], tail[|tail| - 1];
      var all := log + [e] + init;
      assert log + [e] + tail == all + [last] && (all + [last])[..|all|] == all;
      GoodPrefix(all + [last], |all|, approval);
      LostDecisionGoodIff(log, d, init, approval);
      RuleAfterLoss(log, d, init, last, approval);
      assert log + tail == log + init + [last] && tail == init + [last];
      GoodSnoc(log + init, last, approval);
      Views(init, last);
    }
  }

  lemma NoVerdictInNothing()
    ensures !HasVerdict([])
  {
  }

  lemma GoodSnoc(log: Log, e: Entry, approval: bool)
    ensures GoodLog(log + [e], approval) <==> GoodLog(log, approval) && MayFollow(log, e, approval)
  {
    hide MayFollow;
    var all := log + [e];
    assert all[..|log|] == log && all[|log|] == e;
    if GoodLog(all, approval) {
      GoodPrefix(all, |log|, approval);
    }
    if GoodLog(log, approval) && MayFollow(log, e, approval) {
      GoodAppend(log, e, approval);
    }
  }

  // The rest of the run does not notice the loss.

  lemma {:induction false} CallsShift(live: Live, e: Entry, calls: seq<Call>, blocked: bool)
    ensures Calls(live.(buffered := [e] + live.buffered), calls, blocked) ==
      Calls(live, calls, blocked).(buffered := [e] + Calls(live, calls, blocked).buffered)
  {
    if calls != [] {
      CallsShift(live, e, calls[..|calls| - 1], blocked);
      var before := Calls(live, calls[..|calls| - 1], blocked);
      var new' := Appended(before, calls[|calls| - 1]);
      assert [e] + before.buffered + new' == [e] + (before.buffered + new');
    }
  }

  /** A live session with one more entry at the head of its buffer. */
  function Shifted(s: Session, e: Entry): Session
    requires s.live.Some?
  {
    s.(live := Some(s.live.value.(buffered := [e] + s.live.value.buffered)))
  }

  lemma {:induction false} BatchesShift(approval: bool, s: Session, e: Entry, batches: seq<seq<Call>>)
    requires s.live.Some?
    ensures var r := Run(approval, s, Batches(batches));
      r.live.Some? && r.durable == s.durable && Run(approval, Shifted(s, e), Batches(batches)) == Shifted(r, e)
  {
    hide Calls;
    if batches != [] {
      var n := |batches| - 1;
      assert batches == batches[..n] + [batches[n]];
      BatchesShift(approval, s, e, batches[..n]);
      BatchesSnoc(approval, s, batches[..n], batches[n]);
      BatchesSnoc(approval, Shifted(s, e), batches[..n], batches[n]);
      var r := Run(approval, s, Batches(batches[..n]));
      CallsShift(r.live.value, e, batches[n], r.live.value.captured);
    }
  }

  lemma {:induction false} BatchesKeepInv(approval: bool, s: Session, batches: seq<seq<Call>>)
    requires Inv(s, approval) && s.live.Some?
    ensures var r := Run(approval, s, Batches(batches)); Inv(r, approval) && r.live.Some? && r.durable == s.durable
  {
    hide Inv, Calls;
    if batches != [] {
      var n := |batches| - 1;
      assert batches == batches[..n] + [batches[n]];
      BatchesKeepInv(approval, s, batches[..n]);
      BatchesSnoc(approval, s, batches[..n], batches[n]);
      StepKeepsInv(approval, Run(approval, s, Batches(batches[..n])), Batch(batches[n]));
    }
  }

  /** What the batches of a live run leave durable once it has finished. */
  function Finished(approval: bool, s: Session, batches: seq<seq<Call>>): Log {
    Apply(approval, Run(approval, s, Batches(batches)), Finish).durable
  }

  /**
    In every run whose decision is still buffered: if the write of the decision is swallowed, the log
    it leaves is the one it would have left, less that decision, and it obeys the rules if and only
    if the run asks for nothing more and submits no verdict that this decision alone allowed.
  */
  lemma LostDecisionIff(approval: bool, events: seq<Event>, batches: seq<seq<Call>>)
    requires DecisionsKept(approval, events)
    requires var s := Run(approval, Empty, events); s.live.Some? && s.live.value.buffered != [] && s.live.value.buffered[0].Decided?
    ensures var s := Run(approval, Empty, events);
      var lost := Finished(approval, Apply(approval, s, Swallow), batches);
      && |s.durable| <= |lost| && lost == s.durable + lost[|s.durable|..]
      && Finished(approval, s, batches) == s.durable + [s.live.value.buffered[0]] + lost[|s.durable|..]
      && (GoodLog(lost, approval) <==> Harmless(s.durable, lost[|s.durable|..], approval))
  {
    LogStaysGood(approval, events);
    var s := Run(approval, Empty, events);
    hide Run, GoodLog, Inv, Harmless, Finished;
    var head, less := s.live.value.buffered[0], WithoutHead(s);
    assert s.live.value.buffered == [head] + less.live.value.buffered;
    assert s == Shifted(less, head);
    var tail := FinishedWithout(approval, less, head, batches);
    LostDecisionGoodIff(s.durable, head.decision, tail, approval);
    assert (s.durable + tail)[|s.durable|..] == tail;
  }

  /** The two logs differ by the lost entry, and no decision comes after it. */
  lemma FinishedWithout(approval: bool, less: Session, head: Entry, batches: seq<seq<Call>>) returns (tail: Log)
    requires less.live.Some? && Inv(Shifted(less, head), approval)
    ensures Finished(approval, less, batches) == less.durable + tail && NoDecided(tail)
    ensures Finished(approval, Shifted(less, head), batches) == less.durable + [head] + tail
    ensures GoodLog(less.durable + [head] + tail, approval)
  {
    hide Run, GoodLog;
    BatchesShift(approval, less, head, batches);
    BatchesKeepInv(approval, Shifted(less, head), batches);
    var r := Run(approval, less, Batches(batches));
    tail := r.live.value.buffered;
    assert less.durable + ([head] + tail) == less.durable + [head] + tail;
    assert Later([head] + tail) == tail;
  }

  /** Such a run: the approval of the first gate is lost, and a verdict stands that no decision precedes. */
  lemma LostWriteBreaksGate()
    ensures var s := Apply(true, Run(true, Empty, [Start(None), Batch([ask]), Finish]), Start(Some(GateDecision(0, Approve, None))));
      !GoodLog(Apply(true, Apply(true, Apply(true, s, Swallow), Batch([Submit("ok")])), Finish).durable, true)
  {
    AfterAnswer(true, Approve);
    var r0 := Asked(GateRequest(0, "plan", "act"));
    var live := Live([Decided(GateDecision(0, Approve, None))], 1, true, false);
    assert live.buffered[1..] == [];
    OneCall(live.(buffered := []), Submit("ok"));
    hide Run, Begin;
    var log := [r0, Verdict("ok")];
    assert [r0] + ([] + [Verdict("ok")]) == log;
    assert log[..1] == [r0];
    Views([], r0);
    assert [] + [r0] == [r0];
    EmptyViews();
    assert !MayFollow(log[..1], log[1], true);
  }

  // ---------------------------------------------------------------------------
  // When a run may submit, and a verdict beside an open gate

  /** A run may submit if and only if no approval is required or some decision is on its log, a rejection as well. */
  lemma MaySubmitIff(approval: bool, s: Session, decision: Option<GateDecision>)
    requires s.live.None? && Begin(s, approval, decision).live.Some?
    ensures Begin(s, approval, decision).live.value.allowVerdict <==>
      !approval || Decisions(Whole(Begin(s, approval, decision))) != []
  {
    hide Requests, Decisions, Pending;
    var record := DecideSeed(StateOf(s.durable), decision).record;
    if record.Some? {
      Views(s.durable, Decided(record.value));
    } else {
      assert s.durable + [] == s.durable;
    }
  }

  lemma {:induction false} AskedOf(log: Log)
    ensures HasAsked(log) <==> AskedIds(log) != {}
  {
    hide Requests, Decisions, HasVerdict;
    if log == [] {
      EmptyViews();
    } else {
      var init, last := log[..|log| - 1], log[|log| - 1];
      assert log == init + [last];
      AskedOf(init);
      KindsAppend(init, [last]);
      Views(init, last);
    }
  }

  lemma FreshRun(approval: bool, s: Session, decision: Option<GateDecision>)
    requires s.live.None? && GoodLog(s.durable, approval) && Begin(s, approval, decision).live.Some?
    ensures var b := Begin(s, approval, decision); var live := b.live.value;
      && b.durable == s.durable && !live.captured && !HasVerdict(live.buffered) && !HasAsked(live.buffered)
      && !HasVerdict(s.durable) && live.nextId !in AskedIds(s.durable)
  {
    GoodIds(s.durable, approval);
  }

  /**
    For every run, over every log that earlier runs can have left: the run ends with a verdict on the
    log and a gate pending if and only if it may submit and does, and asks in a batch that no
    submission precedes, be it the same batch.
  */
  lemma VerdictBesideGateIff(approval: bool, events: seq<Event>, decision: Option<GateDecision>, batches: seq<seq<Call>>)
    requires DecisionsKept(approval, events)
    requires var s := Run(approval, Empty, events); s.live.None? && Begin(s, approval, decision).live.Some?
    ensures var s := Run(approval, Empty, events); var b := Begin(s, approval, decision);
      var log := Finished(approval, b, batches); var allow := b.live.value.allowVerdict;
      HasVerdict(log) && StateOf(log).pending.Some? <==> allow && SubmitsIn(batches) && AsksInTime(batches, allow)
  {
    LogStaysGood(approval, events);
    var s := Run(approval, Empty, events);
    var b := Begin(s, approval, decision);
    FreshRun(approval, s, decision);
    BeginKeepsInv(s, approval, decision);
    hide Begin, Run, GoodLog, HasVerdict, HasAsked, SubmitsIn, AsksInTime, Requests, Decisions, Pending;
    BatchesAdd(approval, b, batches);
    BatchesKeepInv(approval, b, batches);
    var r := Run(approval, b, Batches(batches));
    VerdictOf(s.durable, r.live.value.buffered);
    PendingOf(r, approval);
  }

  lemma VerdictOf(a: Log, b: Log)
    ensures HasVerdict(a + b) <==> HasVerdict(a) || HasVerdict(b)
  {
    assert forall i :: 0 <= i < |a| ==> (a + b)[i] == a[i];
    assert forall i :: 0 <= i < |b| ==> (a + b)[|a| + i] == b[i];
    if HasVerdict(a + b) && !HasVerdict(a) {
      var i :| 0 <= i < |a + b| && (a + b)[i].Verdict?;
      assert b[i - |a|].Verdict?;
    }
  }

  /** A live run leaves a gate pending if and only if it has asked. */
  lemma PendingOf(r: Session, approval: bool)
    requires Inv(r, approval) && r.live.Some? && r.live.value.nextId !in AskedIds(r.durable)
    ensures StateOf(Whole(r)).pending.Some? <==> HasAsked(r.live.value.buffered)
  {
    hide GoodLog, HasVerdict, HasAsked, Requests, Decisions, Pending;
    var log, live := Whole(r), r.live.value;
    PendingIsUndecided(Requests(log), AnsweredIds(log));
    AskedGrow(r.durable, live.buffered);
    AskedOf(live.buffered);
    UnansweredIs(r, approval);
    if StateOf(log).pending.Some? {
      assert StateOf(log).pending.value.gateId in AskedIds(log) - AnsweredIds(log);
    }
    if HasAsked(live.buffered) {
      assert live.nextId in AskedIds(log);
    }
  }

  /** A request in a live run's buffer is for the run's own gate. */
  lemma UnansweredIs(r: Session, approval: bool)
    requires Inv(r, approval) && r.live.Some?
    ensures AskedIds(r.live.value.buffered) <= {r.live.value.nextId}
  {
    var b, all := r.live.value.buffered, Whole(r);
    forall id | id in AskedIds(b) ensures id in AskedIds(all) - AnsweredIds(all) {
      var i := RequestPlace(b, id);
      var before, tail := r.durable + b[..i], b[i + 1..];
      assert all == before + [b[i]] + tail && all[..|before|] == before && all[|before|] == b[i];
      assert MayFollow(before, b[i], approval);
      assert NoDecided(tail) by {
        assert forall k :: 0 <= k < |tail| ==> tail[k] == Later(b)[i + k];
      }
      WithoutOne(before, b[i], tail);
      AskedGrow(r.durable, b);
    }
  }

  lemma {:induction false} RequestPlace(log: Log, id: nat) returns (i: nat)
    requires id in AskedIds(log)
    ensures i < |log| && log[i].Asked? && log[i].request.gateId == id
  {
    var n := |log| - 1;
    assert log == log[..n] + [log[n]];
    Views(log[..n], log[n]);
    if id in AskedIds(log[..n]) {
      i := RequestPlace(log[..n], id);
    } else {
      i := n;
    }
  }
}
