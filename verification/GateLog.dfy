/**
  The human gate of a leaf: a state machine derived from an append-only session log.

  A leaf's agent may ask for approval and later submit a verdict. Every invocation re-derives where
  it stands from the durable log, so the properties here are about the log over any number of runs,
  decisions and crashes, one run at a time.
*/
module GateLog {
  import opened Prelude

  datatype Action = Approve | Reject | Abort

  datatype GateRequest = GateRequest(gateId: nat, summary: string, proposal: string)
  datatype GateDecision = GateDecision(gateId: nat, action: Action, feedback: Option<string>)

  /** A log entry; `Other` is a message, a checkpoint, or anything that fails its schema. */
  datatype Entry = Asked(request: GateRequest) | Decided(decision: GateDecision) | Verdict(text: string) | Other

  type Log = seq<Entry>

  datatype GateState = GateState(
    requests: seq<GateRequest>,
    decisions: seq<GateDecision>,
    pending: Option<GateRequest>,
    last: Option<GateDecision>,
    nextGateId: nat)

  function Requests(log: Log): seq<GateRequest> {
    if log == [] then [] else
    var rest := Requests(log[..|log| - 1]);
    var e := log[|log| - 1];
    if e.Asked? then rest + [e.request] else rest
  }

  function Decisions(log: Log): seq<GateDecision> {
    if log == [] then [] else
    var rest := Decisions(log[..|log| - 1]);
    var e := log[|log| - 1];
    if e.Decided? then rest + [e.decision] else rest
  }

  function DecidedIds(ds: seq<GateDecision>): set<nat> {
    set d | d in ds :: d.gateId
  }

  /** The latest request whose gate has no decision. */
  function Pending(rs: seq<GateRequest>, decided: set<nat>): Option<GateRequest> {
    if rs == [] then None
    else if rs[|rs| - 1].gateId !in decided then Some(rs[|rs| - 1])
    else Pending(rs[..|rs| - 1], decided)
  }

  function StateOf(log: Log): GateState {
    var rs, ds := Requests(log), Decisions(log);
    GateState(rs, ds, Pending(rs, DecidedIds(ds)), if ds == [] then None else Some(ds[|ds| - 1]), |rs|)
  }

  lemma {:induction false} PendingAppend(rs: seq<GateRequest>, r: GateRequest, decided: set<nat>)
    ensures Pending(rs + [r], decided) == if r.gateId in decided then Pending(rs, decided) else Some(r)
  {
    assert (rs + [r])[..|rs|] == rs;
  }

  /** The derivation as the source runs it: two filters, then a scan for the last undecided request. */
  method ComputeGateState(log: Log) returns (state: GateState)
    ensures state == StateOf(log)
  {
    var requests: seq<GateRequest>, decisions: seq<GateDecision> := [], [];
    for i := 0 to |log|
      invariant requests == Requests(log[..i]) && decisions == Decisions(log[..i])
    {
      assert log[..i + 1][..i] == log[..i];
      match log[i]
      case Asked(r) => requests := requests + [r];
      case Decided(d) => decisions := decisions + [d];
      case _ =>
    }
    assert log[..|log|] == log;
    var decided := DecidedIds(decisions);
    var pending: Option<GateRequest> := None;
    for i := 0 to |requests|
      invariant pending == Pending(requests[..i], decided)
    {
      assert requests[..i + 1] == requests[..i] + [requests[i]];
      PendingAppend(requests[..i], requests[i], decided);
      if requests[i].gateId !in decided {
        pending := Some(requests[i]);
      }
    }
    assert requests[..|requests|] == requests;
    var last := if decisions == [] then None else Some(decisions[|decisions| - 1]);
    state := GateState(requests, decisions, pending, last, |requests|);
  }

  datatype Prompt = Fresh | Continue(action: Action, feedback: Option<string>)

  datatype Seed =
    | Park(gate: GateRequest)
    | Stop(record: Option<GateDecision>)
    | Go(prompt: Prompt, record: Option<GateDecision>)

  /** What one invocation does, given the durable state and the decision it was handed. */
  function DecideSeed(state: GateState, decision: Option<GateDecision>): Seed {
    if state.pending.Some? then
      if decision.Some? && decision.value.gateId == state.pending.value.gateId then
        var record := if state.pending.value.gateId in DecidedIds(state.decisions) then None else decision;
        if decision.value.action.Abort? then Stop(record)
        else Go(Continue(decision.value.action, decision.value.feedback), record)
      else Park(state.pending.value)
    else if state.last.Some? && state.last.value.action.Abort? then Stop(None)
    else if state.last.Some? then Go(Continue(state.last.value.action, state.last.value.feedback), None)
    else Go(Fresh, None)
  }

  /** The last request on the log that none of these decisions answers. */
  predicate OpenAt(log: Log, i: nat, decided: set<nat>) {
    && i < |log| && log[i].Asked? && log[i].request.gateId !in decided
    && forall j :: i < j < |log| && log[j].Asked? ==> log[j].request.gateId in decided
  }

  predicate LastDecidedAt(log: Log, i: nat) {
    i < |log| && log[i].Decided? && forall j :: i < j < |log| ==> !log[j].Decided?
  }

  lemma {:induction false} OpenIsPending(log: Log, i: nat, decided: set<nat>)
    requires OpenAt(log, i, decided)
    ensures Pending(Requests(log), decided) == Some(log[i].request)
  {
    var n := |log| - 1;
    if log[n].Asked? {
      PendingAppend(Requests(log[..n]), log[n].request, decided);
    }
    if i < n {
      OpenIsPending(log[..n], i, decided);
    }
  }

  lemma {:induction false} NoneIsPending(log: Log, decided: set<nat>)
    requires forall i :: 0 <= i < |log| && log[i].Asked? ==> log[i].request.gateId in decided
    ensures Pending(Requests(log), decided).None?
  {
    if log != [] {
      var n := |log| - 1;
      NoneIsPending(log[..n], decided);
      if log[n].Asked? {
        PendingAppend(Requests(log[..n]), log[n].request, decided);
      }
    }
  }

  lemma {:induction false} LastDecision(log: Log, i: nat)
    requires LastDecidedAt(log, i)
    ensures var ds := Decisions(log); ds != [] && ds[|ds| - 1] == log[i].decision
  {
    if i < |log| - 1 {
      LastDecision(log[..|log| - 1], i);
    }
  }

  /**
    With a gate open, only a decision on that gate moves the leaf on: it is recorded, and the agent
    is prompted with its action and feedback unless it is an abort.
  */
  lemma OpenGateSeed(log: Log, i: nat, decision: Option<GateDecision>)
    requires OpenAt(log, i, AnsweredIds(log))
    ensures DecideSeed(StateOf(log), decision) ==
      if decision.None? || decision.value.gateId != log[i].request.gateId then Park(log[i].request)
      else if decision.value.action == Abort then Stop(decision)
      else Go(Continue(decision.value.action, decision.value.feedback), decision)
  {
    OpenIsPending(log, i, AnsweredIds(log));
  }

  /**
    With every request answered, no decision handed over counts: the leaf goes on from the last one
    on its log, ends if that is an abort, and starts afresh if there is none.
  */
  lemma ClosedGateSeed(log: Log, decision: Option<GateDecision>)
    requires forall i :: 0 <= i < |log| && log[i].Asked? ==> log[i].request.gateId in AnsweredIds(log)
    ensures (forall i :: 0 <= i < |log| ==> !log[i].Decided?) ==> DecideSeed(StateOf(log), decision) == Go(Fresh, None)
    ensures forall i: nat :: LastDecidedAt(log, i) ==>
      DecideSeed(StateOf(log), decision) ==
        if log[i].decision.action == Abort then Stop(None) else Go(Continue(log[i].decision.action, log[i].decision.feedback), None)
  {
    NoneIsPending(log, AnsweredIds(log));
    if forall i :: 0 <= i < |log| ==> !log[i].Decided? {
      NoDecision(log);
    }
    forall i: nat | LastDecidedAt(log, i)
      ensures var ds := Decisions(log); ds != [] && ds[|ds| - 1] == log[i].decision
    {
      LastDecision(log, i);
    }
  }

  lemma {:induction false} NoDecision(log: Log)
    requires forall i :: 0 <= i < |log| ==> !log[i].Decided?
    ensures Decisions(log) == []
  {
    if log != [] {
      NoDecision(log[..|log| - 1]);
    }
  }

  // ---------------------------------------------------------------------------
  // Runs, decisions and crashes

  /** A tool call of the agent, or a plain message. */
  datatype Call = Ask(summary: string, proposal: string) | Submit(text: string) | Say

  /**
    A live run: entries not yet durable, the gate id fixed at its start, whether it may submit, and
    whether a verdict was captured.
  */
  datatype Live = Live(buffered: Log, nextId: nat, allowVerdict: bool, captured: bool)

  datatype Session = Session(durable: Log, live: Option<Live>)

  datatype Event =
    | Start(decision: Option<GateDecision>)
    | Batch(calls: seq<Call>)   // tool calls that all pass the block check before any of them runs
    | Drain                     // the oldest buffered entry becomes durable
    | Swallow                   // the write of the oldest buffered entry fails, and the run goes on
    | Finish                    // flush, and the run ends
    | Crash                     // the unflushed suffix is lost

  predicate HasVerdict(log: Log) {
    exists i :: 0 <= i < |log| && log[i].Verdict?
  }

  function Records(record: Option<GateDecision>): Log {
    if record.Some? then [Decided(record.value)] else []
  }

  /** The entry one call appends, if it is valid and its tool is registered. */
  function Appended(live: Live, call: Call): Log {
    match call
    case Ask(summary, proposal) =>
      if summary == "" || proposal == "" then [] else [Asked(GateRequest(live.nextId, summary, proposal))]
    case Submit(text) => if live.allowVerdict then [Verdict(text)] else []
    case Say => [Other]
  }

  function Append(live: Live, call: Call): Live {
    live.(buffered := live.buffered + Appended(live, call),
          captured := live.captured || (call.Submit? && live.allowVerdict))
  }

  /** Once a verdict is captured, tools are blocked and only messages get through. */
  function Calls(live: Live, calls: seq<Call>, blocked: bool): Live {
    if calls == [] then live else
    var before := Calls(live, calls[..|calls| - 1], blocked);
    var call := calls[|calls| - 1];
    if blocked && !call.Say? then before else Append(before, call)
  }

  function Begin(s: Session, approval: bool, decision: Option<GateDecision>): Session {
    if HasVerdict(s.durable) then s else
    var state := StateOf(s.durable);
    match DecideSeed(state, decision)
    case Park(_) => s
    case Stop(record) => s.(durable := s.durable + Records(record))
    case Go(_, record) =>
      var allow := !approval || state.decisions != [] || record.Some?;
      s.(live := Some(Live(Records(record), state.nextGateId, allow, false)))
  }

  function WithoutHead(s: Session): Session
    requires s.live.Some? && s.live.value.buffered != []
  {
    s.(live := Some(s.live.value.(buffered := s.live.value.buffered[1..])))
  }

  function Apply(approval: bool, s: Session, ev: Event): Session {
    match ev
    case Start(decision) => if s.live.Some? then s else Begin(s, approval, decision)
    case Batch(calls) => if s.live.None? then s else s.(live := Some(Calls(s.live.value, calls, s.live.value.captured)))
    case Drain =>
      if s.live.None? || s.live.value.buffered == [] then s else
      var b := s.live.value.buffered;
      Session(s.durable + [b[0]], Some(s.live.value.(buffered := b[1..])))
    case Swallow => if s.live.None? || s.live.value.buffered == [] then s else WithoutHead(s)
    case Finish => if s.live.None? then s else Session(s.durable + s.live.value.buffered, None)
    case Crash => s.(live := None)
  }

  /** All runs of one session whose item does, or does not, require approval. */
  function Run(approval: bool, s: Session, events: seq<Event>): Session {
    if events == [] then s else Apply(approval, Run(approval, s, events[..|events| - 1]), events[|events| - 1])
  }

  const Empty := Session([], None)

  // ---------------------------------------------------------------------------
  // What every prefix of the log satisfies

  function AskedIds(log: Log): set<nat> {
    set r | r in Requests(log) :: r.gateId
  }

  function AnsweredIds(log: Log): set<nat> {
    DecidedIds(Decisions(log))
  }

  predicate Aborted(log: Log) {
    exists d :: d in Decisions(log) && d.action.Abort?
  }

  /** The rules an entry must meet against the log before it. */
  ghost predicate MayFollow(log: Log, e: Entry, approval: bool) {
    && (!e.Other? ==> !Aborted(log))
    && (e.Asked? ==>
          && e.request.gateId <= |Requests(log)|
          && e.request.gateId !in AnsweredIds(log)
          && AskedIds(log) - AnsweredIds(log) <= {e.request.gateId})
    && (e.Decided? ==> e.decision.gateId in AskedIds(log) - AnsweredIds(log))
    && (e.Decided? ==> !HasVerdict(log))
    && (e.Verdict? && approval ==> Decisions(log) != [])
  }

  ghost predicate GoodLog(log: Log, approval: bool) {
    forall i :: 0 <= i < |log| ==> MayFollow(log[..i], log[i], approval)
  }

  lemma GoodPrefix(log: Log, n: nat, approval: bool)
    requires n <= |log| && GoodLog(log, approval)
    ensures GoodLog(log[..n], approval)
  {
    forall i | 0 <= i < n ensures MayFollow(log[..n][..i], log[..n][i], approval) {
      assert log[..n][..i] == log[..i];
    }
  }

  lemma GoodAppend(log: Log, e: Entry, approval: bool)
    requires GoodLog(log, approval) && MayFollow(log, e, approval)
    ensures GoodLog(log + [e], approval)
  {
    var all := log + [e];
    forall i | 0 <= i < |all| ensures MayFollow(all[..i], all[i], approval) {
      assert all[..i] == log[..i];
      assert i == |log| ==> log[..i] == log;
    }
  }

  /** Appending one entry, in terms of the derived views. */
  lemma Views(log: Log, e: Entry)
    ensures Requests(log + [e]) == Requests(log) + if e.Asked? then [e.request] else []
    ensures Decisions(log + [e]) == Decisions(log) + if e.Decided? then [e.decision] else []
    ensures AskedIds(log + [e]) == AskedIds(log) + if e.Asked? then {e.request.gateId} else {}
    ensures AnsweredIds(log + [e]) == AnsweredIds(log) + if e.Decided? then {e.decision.gateId} else {}
    ensures Aborted(log + [e]) <==> Aborted(log) || (e.Decided? && e.decision.action.Abort?)
    ensures HasVerdict(log + [e]) <==> HasVerdict(log) || e.Verdict?
  {
    var all := log + [e];
    assert all[..|log|] == log && all[|log|] == e;
    if e.Decided? {
      assert e.decision in Decisions(all);
    }
    if HasVerdict(log) {
      var i :| 0 <= i < |log| && log[i].Verdict?;
      assert all[i].Verdict?;
    }
  }

  /** Every request id is below the next one, every decision answers a request, and one gate is open at most. */
  lemma {:induction false} GoodIds(log: Log, approval: bool)
    requires GoodLog(log, approval)
    ensures forall id :: id in AskedIds(log) ==> id < |Requests(log)|
    ensures AnsweredIds(log) <= AskedIds(log)
    ensures exists id: nat :: AskedIds(log) - AnsweredIds(log) <= {id}
  {
    if log == [] {
      assert AskedIds(log) - AnsweredIds(log) <= {0};
    } else {
      var n := |log| - 1;
      GoodPrefix(log, n, approval);
      GoodIds(log[..n], approval);
      assert log == log[..n] + [log[n]];
      Views(log[..n], log[n]);
      assert MayFollow(log[..n], log[n], approval);
      var id: nat :| AskedIds(log[..n]) - AnsweredIds(log[..n]) <= {id};
      if log[n].Asked? {
        assert AskedIds(log) - AnsweredIds(log) <= {log[n].request.gateId};
      } else {
        assert AskedIds(log) - AnsweredIds(log) <= {id};
      }
    }
  }

  /** No gate is decided twice. */
  lemma {:induction false} DecidedOnce(log: Log, approval: bool)
    requires GoodLog(log, approval)
    ensures forall i, j :: 0 <= i < j < |Decisions(log)| ==> Decisions(log)[i].gateId != Decisions(log)[j].gateId
  {
    if log != [] {
      var n := |log| - 1;
      GoodPrefix(log, n, approval);
      DecidedOnce(log[..n], approval);
      assert log == log[..n] + [log[n]];
      Views(log[..n], log[n]);
      assert MayFollow(log[..n], log[n], approval);
      var ds := Decisions(log[..n]);
      assert forall i :: 0 <= i < |ds| ==> ds[i].gateId in AnsweredIds(log[..n]);
    }
  }

  /** An abort, once recorded, is the last entry that is not a message. */
  lemma AbortIsLast(log: Log, approval: bool, i: nat)
    requires GoodLog(log, approval) && i < |log| && log[i].Decided? && log[i].decision.action.Abort?
    ensures forall j :: i < j < |log| ==> log[j].Other?
  {
    forall j | i < j < |log| ensures log[j].Other? {
      assert MayFollow(log[..j], log[j], approval);
      DecisionSeen(log[..j], i);
      assert Aborted(log[..j]);
    }
  }

  lemma {:induction false} DecisionSeen(log: Log, i: nat)
    requires i < |log| && log[i].Decided?
    ensures log[i].decision in Decisions(log)
  {
    if i < |log| - 1 {
      DecisionSeen(log[..|log| - 1], i);
    }
  }

  lemma {:induction false} DecisionPlace(log: Log, d: GateDecision) returns (i: nat)
    requires d in Decisions(log)
    ensures i < |log| && log[i] == Decided(d)
  {
    var n := |log| - 1;
    if d in Decisions(log[..n]) {
      i := DecisionPlace(log[..n], d);
    } else {
      i := n;
    }
  }

  /** When approval is required, a decision that is not an abort comes before every verdict. */
  lemma VerdictAfterDecision(log: Log, j: nat) returns (i: nat)
    requires GoodLog(log, true) && j < |log| && log[j].Verdict?
    ensures i < j && log[i].Decided? && !log[i].decision.action.Abort?
  {
    assert MayFollow(log[..j], log[j], true);
    var d := Decisions(log[..j])[0];
    i := DecisionPlace(log[..j], d);
    assert d in Decisions(log[..j]);
  }

  // ---------------------------------------------------------------------------
  // A log with one entry missing

  predicate NoDecided(log: Log) {
    forall i :: 0 <= i < |log| ==> !log[i].Decided?
  }

  /** What a log loses with one entry that is no decision, when no decision comes after it. */
  lemma {:induction false} WithoutOne(log: Log, e: Entry, tail: Log)
    requires NoDecided(tail)
    ensures var all, less := log + [e] + tail, log + tail;
      && Requests(log) <= Requests(less) && |Requests(all)| == |Requests(less)| + (if e.Asked? then 1 else 0)
      && AskedIds(all) == AskedIds(less) + (if e.Asked? then {e.request.gateId} else {})
      && Decisions(less) == Decisions(log) && Decisions(all) == Decisions(log) + (if e.Decided? then [e.decision] else [])
      && (HasVerdict(all) <==> HasVerdict(less) || e.Verdict?)
  {
    hide Requests, Decisions, HasVerdict;
    if tail == [] {
      assert log + [e] + tail == log + [e] && log + tail == log;
      Views(log, e);
    } else {
      var init, last := tail[..|tail| - 1], tail[|tail| - 1];
      WithoutOne(log, e, init);
      assert log + [e] + tail == log + [e] + init + [last] && log + tail == log + init + [last];
      Views(log + [e] + init, last);
      Views(log + init, last);
    }
  }

  /** A log stays good without an entry that is no decision, when no decision comes after it. */
  lemma {:induction false} LossKeepsGood(log: Log, e: Entry, tail: Log, approval: bool)
    requires GoodLog(log + [e] + tail, approval) && !e.Decided? && NoDecided(tail)
    ensures GoodLog(log + tail, approval)
  {
    if tail == [] {
      assert log + tail == log && (log + [e] + tail)[..|log|] == log;
      GoodPrefix(log + [e] + tail, |log|, approval);
    } else {
      var init, last := tail[..|tail| - 1], tail[|tail| - 1];
      var all := log + [e] + init;
      assert log + [e] + tail == all + [last] && (all + [last])[..|all|] == all;
      GoodPrefix(all + [last], |all|, approval);
      LossKeepsGood(log, e, init, approval);
      LossKeepsRule(log, e, init, last, approval);
      GoodAppend(log + init, last, approval);
      assert log + tail == log + init + [last];
    }
  }

  lemma LossKeepsRule(log: Log, e: Entry, init: Log, last: Entry, approval: bool)
    requires GoodLog(log + [e] + init + [last], approval) && !e.Decided? && NoDecided(init) && !last.Decided?
    ensures MayFollow(log + init, last, approval)
  {
    var all := log + [e] + init;
    WithoutOne(log, e, init);
    assert (all + [last])[..|all|] == all && (all + [last])[|all|] == last;
    assert MayFollow(all, last, approval);
    if last.Asked? && e.Asked? {
      assert (all + [last])[..|log|] == log && (all + [last])[|log|] == e;
      assert MayFollow(log, e, approval);
      assert e.request.gateId in AskedIds(all) - AnsweredIds(all);
    }
  }

  // ---------------------------------------------------------------------------
  // Every run keeps the log good

  function Whole(s: Session): Log {
    s.durable + if s.live.Some? then s.live.value.buffered else []
  }

  ghost predicate LiveInv(log: Log, live: Live, approval: bool) {
    && !Aborted(log)
    && live.nextId <= |Requests(log)|
    && live.nextId !in AnsweredIds(log)
    && AskedIds(log) - AnsweredIds(log) <= {live.nextId}
    && (live.allowVerdict && approval ==> Decisions(log) != [])
    && NoDecided(Later(live.buffered))
  }

  /** What is buffered behind the oldest entry; a run's decision is the first thing it records. */
  function Later(log: Log): Log {
    if log == [] then [] else log[1..]
  }

  ghost predicate Inv(s: Session, approval: bool) {
    && GoodLog(Whole(s), approval)
    && (s.live.Some? ==> LiveInv(Whole(s), s.live.value, approval))
  }

  lemma {:induction false} PendingIsUndecided(rs: seq<GateRequest>, decided: set<nat>)
    ensures Pending(rs, decided).Some? ==>
      Pending(rs, decided).value in rs && Pending(rs, decided).value.gateId !in decided
    ensures Pending(rs, decided).None? <==> forall r :: r in rs ==> r.gateId in decided
  {
    if rs != [] {
      PendingIsUndecided(rs[..|rs| - 1], decided);
      assert rs == rs[..|rs| - 1] + [rs[|rs| - 1]];
    }
  }

  /** The last decision is an abort if any is, since an abort ends the log. */
  lemma LastAbort(log: Log, approval: bool)
    requires GoodLog(log, approval) && Aborted(log)
    ensures Decisions(log) != [] && Decisions(log)[|Decisions(log)| - 1].action.Abort?
    ensures Pending(Requests(log), AnsweredIds(log)).None?
    decreases |log|
  {
    var n := |log| - 1;
    GoodPrefix(log, n, approval);
    assert log == log[..n] + [log[n]];
    Views(log[..n], log[n]);
    assert MayFollow(log[..n], log[n], approval);
    if Aborted(log[..n]) {
      LastAbort(log[..n], approval);
    } else {
      PendingIsUndecided(Requests(log), AnsweredIds(log));
      forall r | r in Requests(log) ensures r.gateId in AnsweredIds(log) {
        assert r.gateId in AskedIds(log);
        GoodIds(log[..n], approval);
      }
    }
  }

  /** A decision handed to its open gate is recorded, and the run goes on or stops. */
  lemma AnswerKeepsInv(s: Session, approval: bool, d: GateDecision)
    requires Inv(s, approval) && s.live.None? && !HasVerdict(s.durable) && !Aborted(s.durable)
    requires d.gateId in AskedIds(s.durable) - AnsweredIds(s.durable)
    ensures GoodLog(s.durable + [Decided(d)], approval)
    ensures !d.action.Abort? ==>
      LiveInv(s.durable + [Decided(d)], Live([Decided(d)], |Requests(s.durable)|, true, false), approval)
  {
    var log := s.durable;
    assert Whole(s) == log;
    GoodIds(log, approval);
    GoodAppend(log, Decided(d), approval);
    Views(log, Decided(d));
  }

  lemma BeginKeepsInv(s: Session, approval: bool, decision: Option<GateDecision>)
    requires Inv(s, approval) && s.live.None?
    ensures Inv(Begin(s, approval, decision), approval)
  {
    hide GoodLog, LiveInv, Requests, Decisions, Pending;
    var log := s.durable;
    assert Whole(s) == log;
    if !HasVerdict(log) {
      if Aborted(log) {
        LastAbort(log, approval);
        assert log + Records(None) == log;
      } else if StateOf(log).pending.Some? {
        OpenKeepsInv(s, approval, decision);
      } else {
        NothingOpenKeepsInv(s, approval, decision);
      }
    }
  }

  lemma OpenKeepsInv(s: Session, approval: bool, decision: Option<GateDecision>)
    requires Inv(s, approval) && s.live.None? && !HasVerdict(s.durable) && !Aborted(s.durable) && StateOf(s.durable).pending.Some?
    ensures Inv(Begin(s, approval, decision), approval)
  {
    hide GoodLog, LiveInv, Requests, Decisions, Pending;
    var log := s.durable;
    var state := StateOf(log);
    assert Whole(s) == log;
    PendingIsUndecided(state.requests, AnsweredIds(log));
    var g := state.pending.value.gateId;
    assert g in AskedIds(log);
    if decision.Some? && decision.value.gateId == g {
      AnswerKeepsInv(s, approval, decision.value);
      assert Whole(Begin(s, approval, decision)) == log + [Decided(decision.value)];
    }
  }

  lemma NothingOpenKeepsInv(s: Session, approval: bool, decision: Option<GateDecision>)
    requires Inv(s, approval) && s.live.None? && !HasVerdict(s.durable) && !Aborted(s.durable) && StateOf(s.durable).pending.None?
    ensures Inv(Begin(s, approval, decision), approval)
  {
    var log := s.durable;
    var state := StateOf(log);
    assert Whole(s) == log;
    PendingIsUndecided(state.requests, AnsweredIds(log));
    GoodIds(log, approval);
    assert AskedIds(log) - AnsweredIds(log) == {};
    if state.last.Some? {
      assert state.last.value in Decisions(log);
    }
    assert Whole(Begin(s, approval, decision)) == log;
  }

  lemma AppendKeepsInv(durable: Log, live: Live, call: Call, approval: bool)
    requires Inv(Session(durable, Some(live)), approval)
    ensures Inv(Session(durable, Some(Append(live, call))), approval)
  {
    hide GoodLog, NoDecided, Later, Requests, Decisions;
    var log := durable + live.buffered;
    var live' := Append(live, call);
    var new' := Appended(live, call);
    assert durable + live'.buffered == log + new';
    LaterAppend(live, call);
    if new' == [] {
      assert log + new' == log;
    } else {
      assert new' == [new'[0]];
      GoodAppend(log, new'[0], approval);
      Views(log, new'[0]);
    }
  }

  lemma LaterAppend(live: Live, call: Call)
    requires NoDecided(Later(live.buffered))
    ensures NoDecided(Later(Append(live, call).buffered))
  {
    var all := live.buffered + Appended(live, call);
    assert forall i :: 1 <= i < |live.buffered| ==> all[i] == Later(live.buffered)[i - 1];
  }

  lemma {:induction false} CallsKeepInv(durable: Log, live: Live, calls: seq<Call>, blocked: bool, approval: bool)
    requires Inv(Session(durable, Some(live)), approval)
    ensures Inv(Session(durable, Some(Calls(live, calls, blocked))), approval)
  {
    if calls != [] {
      CallsKeepInv(durable, live, calls[..|calls| - 1], blocked, approval);
      AppendKeepsInv(durable, Calls(live, calls[..|calls| - 1], blocked), calls[|calls| - 1], approval);
    }
  }

  /** The write that fails, if one does, is not that of a decision. */
  predicate KeepsDecision(s: Session, ev: Event) {
    ev.Swallow? && s.live.Some? && s.live.value.buffered != [] ==> !s.live.value.buffered[0].Decided?
  }

  lemma SwallowKeepsInv(s: Session, approval: bool)
    requires Inv(s, approval) && s.live.Some? && s.live.value.buffered != [] && !s.live.value.buffered[0].Decided?
    ensures Inv(WithoutHead(s), approval)
  {
    hide GoodLog, Requests, Decisions, AskedIds, AnsweredIds, Aborted;
    var e, tail := s.live.value.buffered[0], s.live.value.buffered[1..];
    assert s.live.value.buffered == [e] + tail;
    assert Whole(s) == s.durable + [e] + tail && Whole(WithoutHead(s)) == s.durable + tail;
    LossKeepsGood(s.durable, e, tail, approval);
    LossKeepsLive(s.durable, e, tail, s.live.value, approval);
  }

  lemma LossKeepsLive(log: Log, e: Entry, tail: Log, live: Live, approval: bool)
    requires GoodLog(log + [e] + tail, approval) && LiveInv(log + [e] + tail, live, approval) && !e.Decided? && NoDecided(tail)
    requires live.buffered == [e] + tail
    ensures LiveInv(log + tail, live.(buffered := tail), approval)
  {
    var all := log + [e] + tail;
    WithoutOne(log, e, tail);
    if e.Asked? {
      assert all[..|log|] == log && all[|log|] == e;
      assert MayFollow(log, e, approval);
      assert e.request.gateId in AskedIds(all) - AnsweredIds(all);
    }
  }

  lemma StepKeepsInv(approval: bool, s: Session, ev: Event)
    requires Inv(s, approval) && KeepsDecision(s, ev)
    ensures Inv(Apply(approval, s, ev), approval)
  {
    hide GoodLog, LiveInv, Begin, Calls, Whole;
    match ev
    case Start(decision) =>
      if s.live.None? {
        BeginKeepsInv(s, approval, decision);
      }
    case Batch(calls) =>
      if s.live.Some? {
        CallsKeepInv(s.durable, s.live.value, calls, s.live.value.captured, approval);
      }
    case Drain => FlushKeepsInv(s, ev, approval);
    case Swallow =>
      if s.live.Some? && s.live.value.buffered != [] {
        SwallowKeepsInv(s, approval);
      }
    case Finish => FlushKeepsInv(s, ev, approval);
    case Crash => CrashKeepsInv(s, approval);
  }

  lemma FlushKeepsInv(s: Session, ev: Event, approval: bool)
    requires Inv(s, approval) && (ev.Drain? || ev.Finish?)
    ensures Inv(Apply(approval, s, ev), approval)
  {
    hide GoodLog;
    assert Whole(Apply(approval, s, ev)) == Whole(s);
  }

  lemma CrashKeepsInv(s: Session, approval: bool)
    requires Inv(s, approval)
    ensures Inv(s.(live := None), approval)
  {
    GoodPrefix(Whole(s), |s.durable|, approval);
    hide GoodLog, LiveInv;
    assert Whole(s)[..|s.durable|] == s.durable == Whole(s.(live := None));
  }

  /** Whatever writes fail in these runs, none is that of a decision. */
  ghost predicate DecisionsKept(approval: bool, events: seq<Event>) {
    events != [] ==>
      var before, last := events[..|events| - 1], events[|events| - 1];
      DecisionsKept(approval, before) && KeepsDecision(Run(approval, Empty, before), last)
  }

  /**
    Over any sequence of runs, decisions, crashes and swallowed writes of anything but a decision, the
    durable log obeys the rules.
  */
  lemma {:induction false} LogStaysGood(approval: bool, events: seq<Event>)
    requires DecisionsKept(approval, events)
    ensures Inv(Run(approval, Empty, events), approval)
    ensures GoodLog(Run(approval, Empty, events).durable, approval)
  {
    if events != [] {
      LogStaysGood(approval, events[..|events| - 1]);
      StepKeepsInv(approval, Run(approval, Empty, events[..|events| - 1]), events[|events| - 1]);
    }
    var s := Run(approval, Empty, events);
    GoodPrefix(Whole(s), |s.durable|, approval);
    assert Whole(s)[..|s.durable|] == s.durable;
  }

  /**
    The gate invariant of the durable log: ids stay below the next one, one gate is open at most,
    no gate is decided twice, and with approval required no verdict stands without a decision.
  */
  lemma GateInvariant(approval: bool, events: seq<Event>)
    requires DecisionsKept(approval, events)
    ensures var log := Run(approval, Empty, events).durable;
      && (forall r :: r in Requests(log) ==> r.gateId < StateOf(log).nextGateId)
      && (forall r, q :: r in Requests(log) && q in Requests(log) ==>
            r.gateId in AnsweredIds(log) || q.gateId in AnsweredIds(log) || r.gateId == q.gateId)
      && (forall i, j :: 0 <= i < j < |Decisions(log)| ==> Decisions(log)[i].gateId != Decisions(log)[j].gateId)
      && (forall i, j :: 0 <= i < j < |log| && log[i].Decided? && log[i].decision.action.Abort? ==> log[j].Other?)
      && (approval ==> forall j :: 0 <= j < |log| && log[j].Verdict? ==>
            exists i :: 0 <= i < j && log[i].Decided? && !log[i].decision.action.Abort?)
  {
    LogStaysGood(approval, events);
    var log := Run(approval, Empty, events).durable;
    GoodIds(log, approval);
    DecidedOnce(log, approval);
    var id: nat :| AskedIds(log) - AnsweredIds(log) <= {id};
    forall r | r in Requests(log) ensures r.gateId in AskedIds(log) && (r.gateId in AnsweredIds(log) || r.gateId == id) {
      assert r.gateId in AskedIds(log) - AnsweredIds(log) || r.gateId in AnsweredIds(log);
    }
    forall i, j | 0 <= i < j < |log| && log[i].Decided? && log[i].decision.action.Abort? ensures log[j].Other? {
      AbortIsLast(log, approval, i);
    }
    forall j | approval && 0 <= j < |log| && log[j].Verdict?
      ensures exists i :: 0 <= i < j && log[i].Decided? && !log[i].decision.action.Abort?
    {
      var i := VerdictAfterDecision(log, j);
    }
  }

  /** Once a run has ended with a verdict or an abort on the log, no later run appends anything. */
  lemma {:induction false} TerminalLogIsFrozen(approval: bool, events: seq<Event>, more: seq<Event>)
    requires var s := Run(approval, Empty, events);
      s.live.None? && (HasVerdict(s.durable) || (Aborted(s.durable) && DecisionsKept(approval, events)))
    ensures var s := Run(approval, Empty, events); Run(approval, s, more) == s
  {
    var s := Run(approval, Empty, events);
    if more != [] {
      TerminalLogIsFrozen(approval, events, more[..|more| - 1]);
      if !HasVerdict(s.durable) {
        LogStaysGood(approval, events);
      }
      FrozenStep(approval, s, more[|more| - 1]);
    }
  }

  lemma FrozenStep(approval: bool, s: Session, ev: Event)
    requires s.live.None? && (HasVerdict(s.durable) || (Aborted(s.durable) && GoodLog(s.durable, approval)))
    ensures Apply(approval, s, ev) == s
  {
    hide GoodLog, Requests, Decisions, Pending, Aborted;
    if !HasVerdict(s.durable) {
      LastAbort(s.durable, approval);
      assert s.durable + Records(None) == s.durable;
    }
  }

  // ---------------------------------------------------------------------------
  // What a run adds to its log, told from the calls its agent makes

  predicate Submits(calls: seq<Call>) {
    exists i :: 0 <= i < |calls| && calls[i].Submit?
  }

  predicate IsAsk(call: Call) {
    call.Ask? && call.summary != "" && call.proposal != ""
  }

  predicate Asks(calls: seq<Call>) {
    exists i :: 0 <= i < |calls| && IsAsk(calls[i])
  }

  predicate SubmitsIn(batches: seq<seq<Call>>) {
    exists i :: 0 <= i < |batches| && Submits(batches[i])
  }

  /** A batch asks, and no batch before it has submitted. */
  predicate AsksInTime(batches: seq<seq<Call>>, allow: bool) {
    batches != [] &&
    var before, last := batches[..|batches| - 1], batches[|batches| - 1];
    AsksInTime(before, allow) || (Asks(last) && !(allow && SubmitsIn(before)))
  }

  predicate HasAsked(log: Log) {
    exists i :: 0 <= i < |log| && log[i].Asked?
  }

  lemma KindsAppend(log: Log, new': Log)
    requires |new'| <= 1
    ensures HasAsked(log + new') <==> HasAsked(log) || (new' != [] && new'[0].Asked?)
    ensures HasVerdict(log + new') <==> HasVerdict(log) || (new' != [] && new'[0].Verdict?)
  {
    var all := log + new';
    assert forall i :: 0 <= i < |log| ==> all[i] == log[i];
    if new' != [] {
      assert all[|log|] == new'[0];
    }
  }

  lemma CallsSnoc(calls: seq<Call>, c: Call)
    ensures Submits(calls + [c]) <==> Submits(calls) || c.Submit?
    ensures Asks(calls + [c]) <==> Asks(calls) || IsAsk(c)
  {
    hide IsAsk;
    var all := calls + [c];
    assert forall i :: 0 <= i < |calls| ==> all[i] == calls[i];
    assert all[|calls|] == c;
  }

  /** What one batch adds to a run's log. */
  lemma {:induction false} BatchAdds(live: Live, calls: seq<Call>, blocked: bool)
    ensures var r := Calls(live, calls, blocked);
      && r.nextId == live.nextId && r.allowVerdict == live.allowVerdict
      && (HasAsked(r.buffered) <==> HasAsked(live.buffered) || (!blocked && Asks(calls)))
      && (HasVerdict(r.buffered) <==> HasVerdict(live.buffered) || (!blocked && live.allowVerdict && Submits(calls)))
      && (r.captured <==> live.captured || (!blocked && live.allowVerdict && Submits(calls)))
  {
    hide HasAsked, HasVerdict, Asks, Submits;
    if calls == [] {
      NoCalls();
    } else {
      var init, last := calls[..|calls| - 1], calls[|calls| - 1];
      assert calls == init + [last];
      BatchAdds(live, init, blocked);
      CallsSnoc(init, last);
      var before := Calls(live, init, blocked);
      KindsAppend(before.buffered, Appended(before, last));
    }
  }

  lemma NoCalls()
    ensures !Asks([]) && !Submits([]) && !SubmitsIn([])
  {
  }

  lemma BatchesLast(batches: seq<seq<Call>>, calls: seq<Call>)
    ensures SubmitsIn(batches + [calls]) <==> SubmitsIn(batches) || Submits(calls)
  {
    hide Submits;
    var all := batches + [calls];
    assert forall i :: 0 <= i < |batches| ==> all[i] == batches[i];
    assert all[|batches|] == calls;
  }

  /** What a run's batches add to its log. */
  lemma {:induction false} BatchesAdd(approval: bool, s: Session, batches: seq<seq<Call>>)
    requires s.live.Some? && !s.live.value.captured && !HasVerdict(s.live.value.buffered) && !HasAsked(s.live.value.buffered)
    ensures var r := Run(approval, s, Batches(batches)); var allow := s.live.value.allowVerdict;
      && r.live.Some? && r.durable == s.durable
      && r.live.value.nextId == s.live.value.nextId && r.live.value.allowVerdict == allow
      && (r.live.value.captured <==> allow && SubmitsIn(batches))
      && (HasVerdict(r.live.value.buffered) <==> allow && SubmitsIn(batches))
      && (HasAsked(r.live.value.buffered) <==> AsksInTime(batches, allow))
  {
    hide HasAsked, HasVerdict, Asks, Submits, SubmitsIn, Calls;
    if batches == [] {
      NoCalls();
    } else {
      var n := |batches| - 1;
      assert batches == batches[..n] + [batches[n]];
      BatchesAdd(approval, s, batches[..n]);
      BatchesSnoc(approval, s, batches[..n], batches[n]);
      BatchesLast(batches[..n], batches[n]);
      var live := Run(approval, s, Batches(batches[..n])).live.value;
      BatchAdds(live, batches[n], live.captured);
    }
  }

  // ---------------------------------------------------------------------------
  // One uninterrupted invocation

  datatype Result = Done(text: string) | Paused(gate: GateRequest) | AbortedRun | NoVerdict

  function LatestVerdict(log: Log): Option<string> {
    if log == [] then None
    else if log[|log| - 1].Verdict? then Some(log[|log| - 1].text)
    else LatestVerdict(log[..|log| - 1])
  }

  lemma {:induction false} LatestVerdictSome(log: Log)
    ensures LatestVerdict(log).Some? <==> HasVerdict(log)
  {
    if log != [] {
      LatestVerdictSome(log[..|log| - 1]);
      assert log == log[..|log| - 1] + [log[|log| - 1]];
      Views(log[..|log| - 1], log[|log| - 1]);
    }
  }

  /** The text of the last verdict on the log. */
  ghost predicate LastVerdictIs(log: Log, text: string) {
    exists i :: 0 <= i < |log| && log[i] == Verdict(text) && forall j :: i < j < |log| ==> !log[j].Verdict?
  }

  lemma {:induction false} LatestIsLast(log: Log)
    ensures LatestVerdict(log).Some? ==> LastVerdictIs(log, LatestVerdict(log).value)
  {
    if LatestVerdict(log).Some? {
      var n := |log| - 1;
      if log[n].Verdict? {
        assert log[n] == Verdict(LatestVerdict(log).value);
      } else {
        LatestIsLast(log[..n]);
        var text := LatestVerdict(log).value;
        var i :| 0 <= i < n && log[..n][i] == Verdict(text) && forall j :: i < j < n ==> !log[..n][j].Verdict?;
        assert log[i] == Verdict(text);
        assert forall j :: i < j < n ==> log[j] == log[..n][j];
      }
    }
  }

  lemma LatestSnoc(log: Log, e: Entry)
    ensures LatestVerdict(log + [e]) == if e.Verdict? then Some(e.text) else LatestVerdict(log)
  {
    assert (log + [e])[..|log|] == log;
  }

  lemma {:induction false} LatestOf(a: Log, b: Log)
    ensures LatestVerdict(a + b) == if LatestVerdict(b).Some? then LatestVerdict(b) else LatestVerdict(a)
  {
    if b == [] {
      assert a + b == a;
    } else {
      var init, last := b[..|b| - 1], b[|b| - 1];
      assert a + b == a + init + [last] && b == init + [last];
      LatestOf(a, init);
      LatestSnoc(a + init, last);
      LatestSnoc(init, last);
    }
  }

  predicate LastAsked(log: Log, r: GateRequest, id: nat) {
    Requests(log) != [] && Requests(log)[|Requests(log)| - 1] == r && r.gateId == id
  }

  lemma PendingLast(rs: seq<GateRequest>, decided: set<nat>)
    requires rs != [] && rs[|rs| - 1].gateId !in decided
    ensures Pending(rs, decided) == Some(rs[|rs| - 1])
  {
  }

  /** What a run captured so far, against its log. */
  ghost predicate CaptureInv(durable: Log, live: Live, gate: Option<GateRequest>, verdict: Option<string>, approval: bool) {
    && (GoodLog(durable, approval) ==> Inv(Session(durable, Some(live)), approval))
    && (gate.Some? ==> LastAsked(durable + live.buffered, gate.value, live.nextId))
    && (gate.Some? <==> HasAsked(live.buffered))
    && verdict == LatestVerdict(live.buffered)
  }

  function CaptureGate(gate: Option<GateRequest>, appended: Log): Option<GateRequest> {
    if appended != [] && appended[0].Asked? then Some(appended[0].request) else gate
  }

  function CaptureVerdict(verdict: Option<string>, appended: Log): Option<string> {
    if appended != [] && appended[0].Verdict? then Some(appended[0].text) else verdict
  }

  lemma CallKeepsCapture(durable: Log, live: Live, gate: Option<GateRequest>, verdict: Option<string>, call: Call, approval: bool)
    requires CaptureInv(durable, live, gate, verdict, approval)
    ensures var new' := Appended(live, call);
      CaptureInv(durable, Append(live, call), CaptureGate(gate, new'), CaptureVerdict(verdict, new'), approval)
  {
    hide Inv, GoodLog, LastAsked, HasAsked, LatestVerdict, Appended, Append, CaptureGate, CaptureVerdict;
    if GoodLog(durable, approval) {
      AppendKeepsInv(durable, live, call, approval);
    }
    CallKeepsGate(durable, live, gate, call);
    CallKeepsVerdict(live, gate, verdict, call);
  }

  lemma CallKeepsGate(durable: Log, live: Live, gate: Option<GateRequest>, call: Call)
    requires gate.Some? ==> LastAsked(durable + live.buffered, gate.value, live.nextId)
    ensures var gate' := CaptureGate(gate, Appended(live, call));
      gate'.Some? ==> LastAsked(durable + Append(live, call).buffered, gate'.value, Append(live, call).nextId)
  {
    hide Requests, Decisions;
    var log, new' := durable + live.buffered, Appended(live, call);
    if new' == [] {
      assert live.buffered + [] == live.buffered;
    } else {
      assert durable + (live.buffered + new') == log + [new'[0]];
      Views(log, new'[0]);
    }
  }

  lemma CallKeepsVerdict(live: Live, gate: Option<GateRequest>, verdict: Option<string>, call: Call)
    requires (gate.Some? <==> HasAsked(live.buffered)) && verdict == LatestVerdict(live.buffered)
    ensures var new' := Appended(live, call); var buffered := Append(live, call).buffered;
      (CaptureGate(gate, new').Some? <==> HasAsked(buffered)) && CaptureVerdict(verdict, new') == LatestVerdict(buffered)
  {
    hide HasAsked, LatestVerdict;
    var new' := Appended(live, call);
    KindsAppend(live.buffered, new');
    if new' == [] {
      assert live.buffered + [] == live.buffered;
    } else {
      assert new' == [new'[0]];
      LatestSnoc(live.buffered, new'[0]);
    }
  }

  lemma CaptureStarts(durable: Log, live: Live, approval: bool)
    requires GoodLog(durable, approval) ==> Inv(Session(durable, Some(live)), approval)
    requires !HasAsked(live.buffered) && !HasVerdict(live.buffered)
    ensures CaptureInv(durable, live, None, None, approval)
  {
    hide Inv, GoodLog, HasAsked, HasVerdict;
    LatestVerdictSome(live.buffered);
  }

  /** What was captured by the end of a run, told from the batches and against the log it leaves. */
  lemma CaptureEnds(approval: bool, s: Session, batches: seq<seq<Call>>, live: Live, gate: Option<GateRequest>, verdict: Option<string>)
    requires s.live.Some? && !s.live.value.captured && !HasAsked(s.live.value.buffered) && !HasVerdict(s.live.value.buffered)
    requires Session(s.durable, Some(live)) == Run(approval, s, Batches(batches)) && CaptureInv(s.durable, live, gate, verdict, approval)
    ensures gate.Some? <==> AsksInTime(batches, s.live.value.allowVerdict)
    ensures verdict.Some? <==> s.live.value.allowVerdict && SubmitsIn(batches)
    ensures verdict.Some? ==> LastVerdictIs(s.durable + live.buffered, verdict.value)
    ensures GoodLog(s.durable, approval) && gate.Some? ==> StateOf(s.durable + live.buffered).pending == gate
  {
    hide AsksInTime, SubmitsIn, Run, HasAsked, HasVerdict, GoodLog, LastVerdictIs, LatestVerdict, Requests, Decisions, Pending;
    BatchesAdd(approval, s, batches);
    LatestVerdictSome(live.buffered);
    LatestOf(s.durable, live.buffered);
    var log := s.durable + live.buffered;
    LatestIsLast(log);
    if GoodLog(s.durable, approval) && gate.Some? {
      PendingLast(Requests(log), AnsweredIds(log));
    }
  }

  /** One batch of calls, run in order; all of them passed the block check before the first ran. */
  method RunBatch(ghost durable: Log, live0: Live, gate0: Option<GateRequest>, verdict0: Option<string>, calls: seq<Call>,
                  ghost approval: bool)
    returns (live: Live, gate: Option<GateRequest>, verdict: Option<string>)
    requires CaptureInv(durable, live0, gate0, verdict0, approval)
    ensures CaptureInv(durable, live, gate, verdict, approval)
    ensures live == Calls(live0, calls, live0.captured)
  {
    live, gate, verdict := live0, gate0, verdict0;
    assert calls[..0] == [];
    for j := 0 to |calls|
      invariant CaptureInv(durable, live, gate, verdict, approval)
      invariant live == Calls(live0, calls[..j], live0.captured)
    {
      assert calls[..j + 1][..j] == calls[..j];
      if !live0.captured || calls[j].Say? {
        CallKeepsCapture(durable, live, gate, verdict, calls[j], approval);
        var new' := Appended(live, calls[j]);
        live, gate, verdict := Append(live, calls[j]), CaptureGate(gate, new'), CaptureVerdict(verdict, new');
      }
    }
    assert calls[..|calls|] == calls;
  }

  class LeafSession {
    var log: Log

    /**
      One run of the leaf over its session log, whose agent makes the given batches of calls. It
      leaves the log exactly as the state machine does; a paused result names the very gate that the
      next invocation will find open.
    */
    method ProduceVerdict(approval: bool, decision: Option<GateDecision>, batches: seq<seq<Call>>) returns (r: Result)
      modifies this
      ensures Session(log, None) ==
        Run(approval, Session(old(log), None), [Start(decision)] + Batches(batches) + [Finish])
      ensures old(HasVerdict(log)) ==> log == old(log) && r.Done?
      ensures r.Done? ==> LastVerdictIs(log, r.text)
      ensures r.AbortedRun? ==> Aborted(log)
      ensures r.AbortedRun? <==> old(!HasVerdict(log)) && DecideSeed(StateOf(old(log)), decision).Stop?
      ensures old(!HasVerdict(log)) && DecideSeed(StateOf(old(log)), decision).Park? ==>
        log == old(log) && r == Paused(DecideSeed(StateOf(old(log)), decision).gate)
      ensures var live := Begin(Session(old(log), None), approval, decision).live;
        live.Some? ==>
          && (r.Paused? <==> AsksInTime(batches, live.value.allowVerdict))
          && (r.Done? <==> !AsksInTime(batches, live.value.allowVerdict) && live.value.allowVerdict && SubmitsIn(batches))
      ensures old(GoodLog(log, approval)) && r.Paused? ==> StateOf(log).pending == Some(r.gate)
    {
      hide Run, LastVerdictIs, AsksInTime, SubmitsIn, GoodLog, Requests, Decisions, Pending, HasVerdict, HasAsked, Aborted;
      ghost var start := Session(log, None);
      assert Whole(start) == log;
      RunFrom(approval, start, decision, batches);
      var found := LatestVerdict(log);
      LatestVerdictSome(log);
      if found.Some? {
        LatestIsLast(log);
        DeadRun(approval, start, batches);
        return Done(found.value);
      }
      var state := ComputeGateState(log);
      match DecideSeed(state, decision)
      case Park(gate) =>
        DeadRun(approval, start, batches);
        return Paused(gate);
      case Stop(record) =>
        log := log + Records(record);
        DeadRun(approval, Session(log, None), batches);
        StopMeansAborted(old(log), decision);
        return AbortedRun;
      case Go(_, record) =>
        var live := Live(Records(record), state.nextGateId, !approval || state.decisions != [] || record.Some?, false);
        if GoodLog(log, approval) {
          BeginKeepsInv(start, approval, decision);
        }
        RecordsOnly(record);
        r := Converse(approval, live, batches, Begin(start, approval, decision));
    }

    /** The agent's turns, from the live run the seed opened to the final flush. */
    method Converse(approval: bool, live0: Live, batches: seq<seq<Call>>, ghost s: Session) returns (r: Result)
      requires s == Session(log, Some(live0)) && (GoodLog(log, approval) ==> Inv(s, approval))
      requires !live0.captured && !HasAsked(live0.buffered) && !HasVerdict(live0.buffered)
      modifies this
      ensures Session(log, None) == Apply(approval, Run(approval, s, Batches(batches)), Finish)
      ensures r.Done? ==> LastVerdictIs(log, r.text)
      ensures r.Paused? <==> AsksInTime(batches, live0.allowVerdict)
      ensures r.Done? <==> !AsksInTime(batches, live0.allowVerdict) && live0.allowVerdict && SubmitsIn(batches)
      ensures !r.AbortedRun?
      ensures old(GoodLog(log, approval)) && r.Paused? ==> StateOf(log).pending == Some(r.gate)
    {
      hide CaptureInv, Run, LastVerdictIs, AsksInTime, SubmitsIn, StateOf, HasAsked, HasVerdict, GoodLog, Inv;
      var live := live0;
      var gate: Option<GateRequest>, verdict: Option<string> := None, None;
      CaptureStarts(log, live, approval);
      NoBatches(approval, s);
      assert batches[..0] == [];
      for i := 0 to |batches|
        invariant log == old(log) && CaptureInv(log, live, gate, verdict, approval)
        invariant Session(log, Some(live)) == Run(approval, s, Batches(batches[..i]))
      {
        live, gate, verdict := RunBatch(log, live, gate, verdict, batches[i], approval);
        BatchesSnoc(approval, s, batches[..i], batches[i]);
        assert batches[..i + 1] == batches[..i] + [batches[i]];
      }
      assert batches[..|batches|] == batches;
      CaptureEnds(approval, s, batches, live, gate, verdict);
      log := log + live.buffered;
      if gate.Some? {
        return Paused(gate.value);
      }
      return if verdict.Some? then Done(verdict.value) else NoVerdict;
    }
  }

  lemma NoBatches(approval: bool, s: Session)
    ensures Run(approval, s, Batches([])) == s
  {
  }

  lemma RecordsOnly(record: Option<GateDecision>)
    ensures !HasAsked(Records(record)) && !HasVerdict(Records(record))
  {
  }

  lemma StopMeansAborted(log: Log, decision: Option<GateDecision>)
    requires DecideSeed(StateOf(log), decision).Stop?
    ensures Aborted(log + Records(DecideSeed(StateOf(log), decision).record))
  {
    var state := StateOf(log);
    var record := DecideSeed(state, decision).record;
    PendingIsUndecided(state.requests, AnsweredIds(log));
    if record.Some? {
      Views(log, Decided(record.value));
    } else {
      assert log + Records(record) == log;
      assert state.last.value in Decisions(log);
    }
  }

  function Batches(batches: seq<seq<Call>>): seq<Event> {
    seq(|batches|, i requires 0 <= i < |batches| => Batch(batches[i]))
  }

  lemma BatchesSnoc(approval: bool, s: Session, batches: seq<seq<Call>>, calls: seq<Call>)
    ensures Run(approval, s, Batches(batches + [calls])) == Apply(approval, Run(approval, s, Batches(batches)), Batch(calls))
  {
    var all := Batches(batches + [calls]);
    assert all[..|all| - 1] == Batches(batches);
  }

  lemma {:induction false} RunConcat(approval: bool, s: Session, a: seq<Event>, b: seq<Event>)
    ensures Run(approval, s, a + b) == Run(approval, Run(approval, s, a), b)
  {
    if b == [] {
      assert a + b == a;
    } else {
      RunConcat(approval, s, a, b[..|b| - 1]);
      assert (a + b)[..|a + b| - 1] == a + b[..|b| - 1];
    }
  }

  lemma RunFrom(approval: bool, s: Session, decision: Option<GateDecision>, batches: seq<seq<Call>>)
    requires s.live.None?
    ensures Run(approval, s, [Start(decision)] + Batches(batches) + [Finish]) ==
      Apply(approval, Run(approval, Begin(s, approval, decision), Batches(batches)), Finish)
  {
    RunConcat(approval, s, [Start(decision)] + Batches(batches), [Finish]);
    RunConcat(approval, s, [Start(decision)], Batches(batches));
  }

  /** With no live run, tool batches and the final flush do nothing. */
  lemma {:induction false} DeadRun(approval: bool, s: Session, batches: seq<seq<Call>>)
    requires s.live.None?
    ensures Run(approval, s, Batches(batches)) == s
  {
    if batches != [] {
      var n := |batches| - 1;
      assert batches == batches[..n] + [batches[n]];
      BatchesSnoc(approval, s, batches[..n], batches[n]);
      DeadRun(approval, s, batches[..n]);
    }
  }

  // ---------------------------------------------------------------------------
  // Limits of the gate

  const ask := Ask("plan", "act")

  /** The log after a first run that asks for approval of gate 0. */
  lemma AfterAsking(approval: bool)
    ensures Run(approval, Empty, [Start(None), Batch([ask]), Finish]) ==
      Session([Asked(GateRequest(0, "plan", "act"))], None)
  {
    var e := [Start(None), Batch([ask]), Finish];
    assert e[..2] == [Start(None), Batch([ask])] && e[..2][..1] == [Start(None)] && e[..1][..0] == [];
    var live := Live([], 0, !approval, false);
    assert Run(approval, Empty, e[..1]) == Session([], Some(live));
    OneCall(live, ask);
    assert Run(approval, Empty, e[..2]) == Session([], Some(Append(live, ask)));
    assert [] + Append(live, ask).buffered == [Asked(GateRequest(0, "plan", "act"))];
  }

  /** The live run after gate 0 is answered with `action`. */
  lemma AfterAnswer(approval: bool, action: Action)
    requires !action.Abort?
    ensures var d := GateDecision(0, action, None);
      Apply(approval, Run(approval, Empty, [Start(None), Batch([ask]), Finish]), Start(Some(d))) ==
      Session([Asked(GateRequest(0, "plan", "act"))], Some(Live([Decided(d)], 1, true, false)))
  {
    AfterAsking(approval);
    var log := [Asked(GateRequest(0, "plan", "act"))];
    assert log[..0] == [];
    assert Requests(log) == [GateRequest(0, "plan", "act")];
    assert Decisions(log) == [];
    assert !HasVerdict(log);
  }

  /** With approval required, a rejection is enough to open the verdict. */
  lemma RejectionAllowsVerdict()
    ensures var s := Apply(true, Run(true, Empty, [Start(None), Batch([ask]), Finish]),
                           Start(Some(GateDecision(0, Reject, None))));
      var log := Apply(true, Apply(true, s, Batch([Submit("ok")])), Finish).durable;
      HasVerdict(log) && forall d :: d in Decisions(log) ==> d.action.Reject?
  {
    AfterAnswer(true, Reject);
    var r0, d := Asked(GateRequest(0, "plan", "act")), GateDecision(0, Reject, None);
    var live := Live([Decided(d)], 1, true, false);
    hide Run, Apply, Decisions, HasVerdict;
    AfterBatch(Session([r0], Some(live)), [Submit("ok")]);
    OneCall(live, Submit("ok"));
    assert [r0] + (live.buffered + [Verdict("ok")]) == [r0] + [Decided(d)] + [Verdict("ok")];
    Views([], r0);
    assert [] + [r0] == [r0];
    Views([r0], Decided(d));
    Views([r0] + [Decided(d)], Verdict("ok"));
    EmptyViews();
  }

  /** A run may submit its verdict beside a gate it has just opened, which then stays unanswered. */
  lemma VerdictBesideOpenGate()
    ensures var s := Apply(true, Run(true, Empty, [Start(None), Batch([ask]), Finish]),
                           Start(Some(GateDecision(0, Approve, None))));
      var log := Apply(true, Apply(true, s, Batch([ask, Submit("ok")])), Finish).durable;
      HasVerdict(log) && StateOf(log).pending == Some(GateRequest(1, "plan", "act"))
  {
    AfterAnswer(true, Approve);
    var r0, r1 := Asked(GateRequest(0, "plan", "act")), Asked(GateRequest(1, "plan", "act"));
    var d := GateDecision(0, Approve, None);
    var live := Live([Decided(d)], 1, true, false);
    hide Run, Apply, HasVerdict, StateOf;
    AfterBatch(Session([r0], Some(live)), [ask, Submit("ok")]);
    AskThenSubmit(live);
    assert [r0] + (live.buffered + [r1] + [Verdict("ok")]) == [r0] + [Decided(d)] + [r1] + [Verdict("ok")];
    OpenBesideVerdict(d);
  }

  lemma AfterBatch(s: Session, calls: seq<Call>)
    requires s.live.Some? && !s.live.value.captured
    ensures Apply(true, Apply(true, s, Batch(calls)), Finish).durable == s.durable + Calls(s.live.value, calls, false).buffered
  {
  }

  lemma AskThenSubmit(live: Live)
    requires live.nextId == 1 && live.allowVerdict
    ensures Calls(live, [ask, Submit("ok")], false).buffered ==
      live.buffered + [Asked(GateRequest(1, "plan", "act"))] + [Verdict("ok")]
  {
    OneCall(live, ask);
    assert [ask, Submit("ok")][..1] == [ask];
  }

  lemma OpenBesideVerdict(d: GateDecision)
    requires d.gateId == 0
    ensures var log := [Asked(GateRequest(0, "plan", "act"))] + [Decided(d)] + [Asked(GateRequest(1, "plan", "act"))] + [Verdict("ok")];
      HasVerdict(log) && StateOf(log).pending == Some(GateRequest(1, "plan", "act"))
  {
    hide Requests, HasVerdict, Decisions;
    var r0, r1 := Asked(GateRequest(0, "plan", "act")), Asked(GateRequest(1, "plan", "act"));
    var log := [r0] + [Decided(d)] + [r1] + [Verdict("ok")];
    Views([], r0);
    assert [] + [r0] == [r0];
    Views([r0], Decided(d));
    Views([r0] + [Decided(d)], r1);
    Views([r0] + [Decided(d)] + [r1], Verdict("ok"));
    EmptyViews();
    PendingLast(Requests(log), AnsweredIds(log));
  }

  lemma EmptyViews()
    ensures Requests([]) == [] && Decisions([]) == [] && AnsweredIds([]) == {}
  {
  }

  lemma OneCall(live: Live, call: Call)
    ensures Calls(live, [call], false) == Append(live, call)
  {
    assert [call][..0] == [];
  }
}
