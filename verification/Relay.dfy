/**
  The sandbox relay: workers attach by stream and are parked under a sandbox id; an exec is written to
  the parked worker and its events come back through a per-request sink to a generator.
*/
module Relay {
  import opened Prelude

  type SandboxId = string
  type ReqId = nat

  datatype ExecEvent = Chunk(reqId: ReqId, data: string) | End(reqId: ReqId, exitCode: int) | Error(reqId: ReqId, message: string)

  predicate Terminal(ev: ExecEvent) {
    !ev.Chunk?
  }

  datatype ServerFrame = ExecFrame(reqId: ReqId) | AbortFrame(reqId: ReqId)

  /** An attached stream. The empty id is what an unset one is to the relay: both read as false. */
  datatype Stream = Stream(id: SandboxId, closed: bool, outbox: seq<ServerFrame>)

  /** A parked worker: its stream and the execs in flight on it, by request id. */
  datatype Parked = Parked(stream: nat, id: SandboxId, sinks: map<ReqId, nat>)

  /**
    Where a generator stands: awaiting a notification, notified, suspended at a yield, run to its
    end, or closed by its consumer at a yield.
  */
  datatype Phase = Waiting | Woken | Suspended | Returned | Closed

  /** An exec in flight; `history` and `senders` record what its sink was given, and by which streams. */
  datatype Exec = Exec(
    parked: nat, reqId: ReqId, queue: seq<ExecEvent>, done: bool, yielded: seq<ExecEvent>, phase: Phase,
    history: seq<ExecEvent>, senders: set<nat>)

  predicate Live(x: Exec) {
    !x.phase.Returned? && !x.phase.Closed?
  }

  datatype PresenceOp = Put(id: SandboxId) | Remove(id: SandboxId)

  datatype State = State(
    sessions: map<SandboxId, nat>, streams: seq<Stream>, parked: seq<Parked>, execs: seq<Exec>, presence: seq<PresenceOp>)

  const EMPTY := State(map[], [], [], [], [])

  // ---------------------------------------------------------------------------
  // One exec

  /** What the sink does with an event. */
  function Push(x: Exec, from: nat, ev: ExecEvent): Exec {
    x.(queue := x.queue + [ev], done := x.done || Terminal(ev), phase := if x.phase.Waiting? then Woken else x.phase,
       history := x.history + [ev], senders := x.senders + {from})
  }

  /** The generator's loop from its head to the next yield, wait or return. */
  function Advance(x: Exec): Exec {
    if x.queue != [] then x.(queue := x.queue[1..], yielded := x.yielded + [x.queue[0]], phase := Suspended)
    else x.(phase := if x.done then Returned else Waiting)
  }

  /** The generator runs on, if it can. */
  function Resume(x: Exec): Exec {
    match x.phase
    case Woken => Advance(x)
    case Suspended => if x.yielded != [] && Terminal(x.yielded[|x.yielded| - 1]) then x.(phase := Returned) else Advance(x)
    case _ => x
  }

  function Started(p: nat, req: ReqId): Exec {
    Exec(p, req, [], false, [], Waiting, [], {})
  }

  // ---------------------------------------------------------------------------
  // The relay

  datatype Input =
    | Attach
    | Hello(stream: nat, id: SandboxId, tokenOk: bool)
    | Data(stream: nat, ev: ExecEvent)
    | Gone(stream: nat)
    | Route(id: SandboxId, req: ReqId)
    | Next(exec: nat)
    | Return(exec: nat)
    | Abort(id: SandboxId, req: ReqId)

  function OnHello(st: State, s: nat, id: SandboxId, tokenOk: bool): State {
    if s >= |st.streams| || st.streams[s].id != "" then st
    else if !tokenOk || id in st.sessions then st.(streams := st.streams[s := st.streams[s].(closed := true)])
    else st.(
      sessions := st.sessions[id := |st.parked|],
      streams := st.streams[s := st.streams[s].(id := id)],
      parked := st.parked + [Parked(s, id, map[])],
      presence := st.presence + [Put(id)])
  }

  /** The parked worker a stream's frames are dispatched through. */
  function SessionOf(st: State, s: nat): (r: int)
    ensures r < |st.parked|
  {
    if s < |st.streams| && st.streams[s].id != "" && st.streams[s].id in st.sessions && st.sessions[st.streams[s].id] < |st.parked|
    then st.sessions[st.streams[s].id] else -1
  }

  function OnData(st: State, s: nat, ev: ExecEvent): State {
    var p := SessionOf(st, s);
    if p < 0 || ev.reqId !in st.parked[p].sinks || st.parked[p].sinks[ev.reqId] >= |st.execs| then st else
    var e := st.parked[p].sinks[ev.reqId];
    st.(execs := st.execs[e := Push(st.execs[e], s, ev)])
  }

  predicate Registered(sinks: map<ReqId, nat>, execs: seq<Exec>, e: nat)
    requires e < |execs|
  {
    execs[e].reqId in sinks && sinks[execs[e].reqId] == e
  }

  function Disconnected(req: ReqId): ExecEvent {
    Error(req, "worker disconnected")
  }

  /** Every registered exec is given a disconnect error. */
  function FailAll(execs: seq<Exec>, sinks: map<ReqId, nat>, from: nat): (r: seq<Exec>)
    ensures |r| == |execs|
    ensures forall e :: 0 <= e < |execs| ==>
      r[e] == if Registered(sinks, execs, e) then Push(execs[e], from, Disconnected(execs[e].reqId)) else execs[e]
  {
    seq(|execs|, e requires 0 <= e < |execs| =>
      if Registered(sinks, execs, e) then Push(execs[e], from, Disconnected(execs[e].reqId)) else execs[e])
  }

  function OnGone(st: State, s: nat): State {
    if s >= |st.streams| || st.streams[s].id == "" then st else
    var p := SessionOf(st, s);
    st.(
      execs := if p < 0 then st.execs else FailAll(st.execs, st.parked[p].sinks, s),
      sessions := st.sessions - {st.streams[s].id},
      presence := st.presence + [Remove(st.streams[s].id)])
  }

  function Write(streams: seq<Stream>, s: nat, f: ServerFrame): seq<Stream> {
    if s < |streams| then streams[s := streams[s].(outbox := streams[s].outbox + [f])] else streams
  }

  /** A route is refused when no worker is parked, or the request id is in flight on it. */
  predicate Refused(st: State, id: SandboxId, req: ReqId) {
    id !in st.sessions || st.sessions[id] >= |st.parked| || req in st.parked[st.sessions[id]].sinks
  }

  function OnRoute(st: State, id: SandboxId, req: ReqId): State {
    if Refused(st, id, req) then st else
    var p := st.sessions[id];
    st.(
      parked := st.parked[p := st.parked[p].(sinks := st.parked[p].sinks[req := |st.execs|])],
      execs := st.execs + [Started(p, req)],
      streams := Write(st.streams, st.parked[p].stream, ExecFrame(req)))
  }

  /** A generator that ends takes its sink away from the worker it was routed to. */
  function Settle(st: State, e: nat, x: Exec): State
    requires e < |st.execs|
  {
    var p := x.parked;
    st.(
      execs := st.execs[e := x],
      parked := if Live(x) || p >= |st.parked| then st.parked
                else st.parked[p := st.parked[p].(sinks := st.parked[p].sinks - {x.reqId})])
  }

  function OnNext(st: State, e: nat): State {
    if e >= |st.execs| || !Live(st.execs[e]) then st else Settle(st, e, Resume(st.execs[e]))
  }

  function OnReturn(st: State, e: nat): State {
    if e >= |st.execs| || !st.execs[e].phase.Suspended? then st
    else Settle(st, e, st.execs[e].(phase := Closed))
  }

  function OnAbort(st: State, id: SandboxId, req: ReqId): State {
    if id !in st.sessions || st.sessions[id] >= |st.parked| then st
    else st.(streams := Write(st.streams, st.parked[st.sessions[id]].stream, AbortFrame(req)))
  }

  function Step(st: State, i: Input): State {
    match i
    case Attach => st.(streams := st.streams + [Stream("", false, [])])
    case Hello(s, id, ok) => OnHello(st, s, id, ok)
    case Data(s, ev) => OnData(st, s, ev)
    case Gone(s) => OnGone(st, s)
    case Route(id, req) => OnRoute(st, id, req)
    case Next(e) => OnNext(st, e)
    case Return(e) => OnReturn(st, e)
    case Abort(id, req) => OnAbort(st, id, req)
  }

  function Run(inputs: seq<Input>): State {
    if inputs == [] then EMPTY else Step(Run(inputs[..|inputs| - 1]), inputs[|inputs| - 1])
  }

  // ---------------------------------------------------------------------------
  // What every exec keeps

  ghost predicate HasTerminal(s: seq<ExecEvent>) {
    exists i :: 0 <= i < |s| && Terminal(s[i])
  }

  predicate OnlyLastTerminal(s: seq<ExecEvent>) {
    forall i :: 0 <= i < |s| - 1 ==> !Terminal(s[i])
  }

  predicate EndsTerminal(s: seq<ExecEvent>) {
    s != [] && Terminal(s[|s| - 1])
  }

  ghost predicate ExecOk(x: Exec) {
    && x.history == x.yielded + x.queue
    && x.done == HasTerminal(x.history)
    && OnlyLastTerminal(x.yielded)
    && (x.phase.Waiting? ==> x.queue == [] && !x.done)
    && (x.phase.Woken? ==> x.queue != [] && !EndsTerminal(x.yielded))
    && (x.phase.Suspended? ==> x.yielded != [])
    && (x.phase.Returned? ==> EndsTerminal(x.yielded))
    && (forall ev :: ev in x.history ==> ev.reqId == x.reqId)
  }

  lemma TerminalOf(a: seq<ExecEvent>, b: seq<ExecEvent>)
    ensures HasTerminal(a + b) <==> HasTerminal(a) || HasTerminal(b)
  {
    if HasTerminal(a) {
      var i :| 0 <= i < |a| && Terminal(a[i]);
      assert (a + b)[i] == a[i];
    }
    if HasTerminal(b) {
      var i :| 0 <= i < |b| && Terminal(b[i]);
      assert (a + b)[|a| + i] == b[i];
    }
  }

  lemma PushKeepsExecOk(x: Exec, from: nat, ev: ExecEvent)
    requires ExecOk(x) && Live(x) && ev.reqId == x.reqId
    ensures ExecOk(Push(x, from, ev)) && Live(Push(x, from, ev))
  {
    TerminalOf(x.history, [ev]);
    assert x.yielded + (x.queue + [ev]) == x.history + [ev];
    assert HasTerminal([ev]) <==> Terminal(ev) by {
      if Terminal(ev) {
        assert Terminal([ev][0]);
      }
    }
    if x.phase.Waiting? {
      assert x.history == x.yielded;
    }
  }

  lemma ResumeKeepsExecOk(x: Exec)
    requires ExecOk(x)
    ensures ExecOk(Resume(x)) && Resume(x).history == x.history && Resume(x).senders == x.senders
  {
    if x.phase.Woken? || (x.phase.Suspended? && !EndsTerminal(x.yielded)) {
      if x.queue != [] {
        assert x.yielded + x.queue == x.yielded + [x.queue[0]] + x.queue[1..];
      } else {
        assert x.history == x.yielded;
      }
    }
  }

  /** The events a consumer is to see: up to and including the first terminal one. */
  function UpToTerminal(s: seq<ExecEvent>): seq<ExecEvent> {
    if s == [] then [] else if Terminal(s[0]) then [s[0]] else [s[0]] + UpToTerminal(s[1..])
  }

  lemma {:induction false} YieldedIsPrefix(y: seq<ExecEvent>, q: seq<ExecEvent>)
    requires OnlyLastTerminal(y)
    ensures y <= UpToTerminal(y + q)
    ensures EndsTerminal(y) ==> y == UpToTerminal(y + q)
  {
    if |y| > 1 || (|y| == 1 && !Terminal(y[0])) {
      assert (y + q)[0] == y[0] && (y + q)[1..] == y[1..] + q;
      YieldedIsPrefix(y[1..], q);
      assert y == [y[0]] + y[1..];
    } else if |y| == 1 {
      assert (y + q)[0] == y[0];
    }
  }

  function ResumeTimes(x: Exec, n: nat): Exec
    decreases n
  {
    if n == 0 then x else ResumeTimes(Resume(x), n - 1)
  }

  lemma {:induction false} ReturnedStays(x: Exec, n: nat)
    requires x.phase.Returned?
    ensures ResumeTimes(x, n) == x
  {
    if n > 0 {
      ReturnedStays(x, n - 1);
    }
  }

  /** Once a terminal event has reached its sink, the generator ends by itself, having given its consumer all of it. */
  lemma {:induction false} DoneFinishes(x: Exec)
    requires ExecOk(x) && x.done && Live(x)
    ensures var y := ResumeTimes(x, |x.queue| + 1); y.phase.Returned? && y.yielded == UpToTerminal(x.history)
    decreases |x.queue|
  {
    ResumeKeepsExecOk(x);
    if EndsTerminal(x.yielded) {
      ReturnedStays(Resume(x), |x.queue|);
      YieldedIsPrefix(x.yielded, x.queue);
    } else {
      TerminalOf(x.yielded, x.queue);
      assert !HasTerminal(x.yielded) by {
        assert forall i :: 0 <= i < |x.yielded| ==> !Terminal(x.yielded[i]);
      }
      assert x.queue != [];
      DoneFinishes(Resume(x));
    }
  }

  // ---------------------------------------------------------------------------
  // What every step keeps

  predicate SessionsOk(st: State) {
    forall id :: id in st.sessions ==> st.sessions[id] < |st.parked| && st.parked[st.sessions[id]].id == id
  }

  predicate ParkedOk(st: State) {
    forall p :: 0 <= p < |st.parked| ==>
      && st.parked[p].stream < |st.streams|
      && (st.parked[p].id != "" ==> st.streams[st.parked[p].stream].id == st.parked[p].id)
  }

  predicate SinksOk(st: State) {
    forall p, r :: 0 <= p < |st.parked| && r in st.parked[p].sinks ==>
      var e := st.parked[p].sinks[r];
      e < |st.execs| && st.execs[e].parked == p && st.execs[e].reqId == r && Live(st.execs[e])
  }

  predicate LiveOk(st: State) {
    forall e :: 0 <= e < |st.execs| ==>
      && st.execs[e].parked < |st.parked|
      && (Live(st.execs[e]) ==> Registered(st.parked[st.execs[e].parked].sinks, st.execs, e))
  }

  ghost predicate ExecsOk(st: State) {
    forall e :: 0 <= e < |st.execs| ==> ExecOk(st.execs[e])
  }

  predicate Serving(st: State, p: nat)
    requires p < |st.parked|
  {
    st.parked[p].id in st.sessions && st.sessions[st.parked[p].id] == p
  }

  /** An exec in flight is on a worker that is still parked, or has been told that it ended. */
  predicate FailFast(st: State)
    requires LiveOk(st)
  {
    forall e :: 0 <= e < |st.execs| && Live(st.execs[e]) ==> st.execs[e].done || Serving(st, st.execs[e].parked)
  }

  ghost predicate Inv(st: State) {
    SessionsOk(st) && ParkedOk(st) && SinksOk(st) && LiveOk(st) && ExecsOk(st) && FailFast(st)
  }

  lemma HelloKeepsInv(st: State, s: nat, id: SandboxId, ok: bool)
    requires Inv(st)
    ensures Inv(OnHello(st, s, id, ok))
  {
    var n := OnHello(st, s, id, ok);
    assert forall p :: 0 <= p < |st.parked| ==> n.parked[p] == st.parked[p];
    assert SessionsOk(n) && SinksOk(n) && LiveOk(n);
    assert FailFast(n) by {
      forall e | 0 <= e < |n.execs| && Live(n.execs[e]) && !n.execs[e].done ensures Serving(n, n.execs[e].parked) {
        assert Serving(st, st.execs[e].parked);
      }
    }
  }

  lemma DataKeepsInv(st: State, s: nat, ev: ExecEvent)
    requires Inv(st)
    ensures Inv(OnData(st, s, ev))
  {
    var p := SessionOf(st, s);
    if p >= 0 && ev.reqId in st.parked[p].sinks {
      PushKeepsInv(st, st.parked[p].sinks[ev.reqId], s, ev);
    }
  }

  lemma PushKeepsInv(st: State, e: nat, s: nat, ev: ExecEvent)
    requires Inv(st) && e < |st.execs| && Live(st.execs[e]) && st.execs[e].reqId == ev.reqId
    ensures Inv(st.(execs := st.execs[e := Push(st.execs[e], s, ev)]))
  {
    hide ExecOk;
    PushKeepsExecOk(st.execs[e], s, ev);
    var n := st.(execs := st.execs[e := Push(st.execs[e], s, ev)]);
    assert SinksOk(n) && LiveOk(n);
    forall f | 0 <= f < |n.execs| && Live(n.execs[f]) && !n.execs[f].done ensures Serving(n, n.execs[f].parked) {
      assert Serving(st, st.execs[f].parked);
    }
  }

  lemma GoneKeepsInv(st: State, s: nat)
    requires Inv(st)
    ensures Inv(OnGone(st, s))
  {
    var n := OnGone(st, s);
    var p := SessionOf(st, s);
    forall e | 0 <= e < |st.execs|
      ensures n.execs[e].parked == st.execs[e].parked && n.execs[e].reqId == st.execs[e].reqId
      ensures Live(n.execs[e]) == Live(st.execs[e]) && ExecOk(n.execs[e])
    {
      if p >= 0 && Registered(st.parked[p].sinks, st.execs, e) {
        PushKeepsExecOk(st.execs[e], s, Disconnected(st.execs[e].reqId));
      }
    }
    assert SinksOk(n) && LiveOk(n);
    forall e | 0 <= e < |n.execs| && Live(n.execs[e]) && !n.execs[e].done ensures Serving(n, n.execs[e].parked) {
      assert Serving(st, st.execs[e].parked);
      assert Registered(st.parked[st.execs[e].parked].sinks, st.execs, e);
    }
  }

  lemma RouteKeepsInv(st: State, id: SandboxId, req: ReqId)
    requires Inv(st)
    ensures Inv(OnRoute(st, id, req))
  {
    if !Refused(st, id, req) {
      var n := OnRoute(st, id, req);
      RouteRegisters(st, id, req);
      assert ExecsOk(n) by {
        assert ExecOk(Started(st.sessions[id], req));
      }
      assert SessionsOk(n) && ParkedOk(n);
      forall e | 0 <= e < |n.execs| && Live(n.execs[e]) && !n.execs[e].done ensures Serving(n, n.execs[e].parked) {
        if e < |st.execs| {
          assert Serving(st, st.execs[e].parked);
        }
      }
    }
  }

  lemma RouteRegisters(st: State, id: SandboxId, req: ReqId)
    requires SessionsOk(st) && SinksOk(st) && LiveOk(st) && !Refused(st, id, req)
    ensures SinksOk(OnRoute(st, id, req)) && LiveOk(OnRoute(st, id, req))
  {
    var n := OnRoute(st, id, req);
    var p := st.sessions[id];
    assert n.parked == st.parked[p := st.parked[p].(sinks := st.parked[p].sinks[req := |st.execs|])];
    assert n.execs == st.execs + [Started(p, req)];
    RouteSinks(st, n, p, req);
    RouteLive(st, n, p, req);
  }

  lemma RouteSinks(st: State, n: State, p: nat, req: ReqId)
    requires SinksOk(st) && p < |st.parked| && n.execs == st.execs + [Started(p, req)]
    requires n.parked == st.parked[p := st.parked[p].(sinks := st.parked[p].sinks[req := |st.execs|])]
    ensures SinksOk(n)
  {
    forall q, r | 0 <= q < |n.parked| && r in n.parked[q].sinks
      ensures var e := n.parked[q].sinks[r];
        e < |n.execs| && n.execs[e].parked == q && n.execs[e].reqId == r && Live(n.execs[e])
    {
      if q != p || r != req {
        assert r in st.parked[q].sinks && n.parked[q].sinks[r] == st.parked[q].sinks[r];
        assert n.execs[st.parked[q].sinks[r]] == st.execs[st.parked[q].sinks[r]];
      }
    }
  }

  lemma RouteLive(st: State, n: State, p: nat, req: ReqId)
    requires LiveOk(st) && p < |st.parked| && req !in st.parked[p].sinks && n.execs == st.execs + [Started(p, req)]
    requires n.parked == st.parked[p := st.parked[p].(sinks := st.parked[p].sinks[req := |st.execs|])]
    ensures LiveOk(n)
  {
    forall e | 0 <= e < |n.execs| && Live(n.execs[e])
      ensures n.execs[e].parked < |n.parked| && Registered(n.parked[n.execs[e].parked].sinks, n.execs, e)
    {
      if e < |st.execs| {
        assert n.execs[e] == st.execs[e];
        assert Registered(st.parked[st.execs[e].parked].sinks, st.execs, e);
      }
    }
  }

  lemma SettleKeepsInv(st: State, e: nat, x: Exec)
    requires Inv(st) && e < |st.execs| && Live(st.execs[e])
    requires ExecOk(x) && x.parked == st.execs[e].parked && x.reqId == st.execs[e].reqId && x.done == st.execs[e].done
    ensures Inv(Settle(st, e, x))
  {
    var n := Settle(st, e, x);
    SettleRegisters(st, e, x);
    assert SessionsOk(n) && ParkedOk(n);
    forall f | 0 <= f < |n.execs| && Live(n.execs[f]) && !n.execs[f].done ensures Serving(n, n.execs[f].parked) {
      assert Serving(st, st.execs[f].parked);
    }
  }

  lemma SettleRegisters(st: State, e: nat, x: Exec)
    requires SinksOk(st) && LiveOk(st) && e < |st.execs| && Live(st.execs[e])
    requires x.parked == st.execs[e].parked && x.reqId == st.execs[e].reqId
    ensures SinksOk(Settle(st, e, x)) && LiveOk(Settle(st, e, x))
  {
    var n := Settle(st, e, x);
    var p := x.parked;
    assert Registered(st.parked[p].sinks, st.execs, e);
    assert forall q :: 0 <= q < |st.parked| && q != p ==> n.parked[q] == st.parked[q];
    forall f | 0 <= f < |n.execs| && Live(n.execs[f])
      ensures n.execs[f].parked < |n.parked| && Registered(n.parked[n.execs[f].parked].sinks, n.execs, f)
    {
      assert Registered(st.parked[st.execs[f].parked].sinks, st.execs, f);
    }
  }

  lemma StepKeepsInv(st: State, i: Input)
    requires Inv(st)
    ensures Inv(Step(st, i))
  {
    match i
    case Attach =>
    case Hello(s, id, ok) => HelloKeepsInv(st, s, id, ok);
    case Data(s, ev) => DataKeepsInv(st, s, ev);
    case Gone(s) => GoneKeepsInv(st, s);
    case Route(id, req) => RouteKeepsInv(st, id, req);
    case Next(e) =>
      if e < |st.execs| && Live(st.execs[e]) {
        ResumeKeepsExecOk(st.execs[e]);
        SettleKeepsInv(st, e, Resume(st.execs[e]));
      }
    case Return(e) =>
      if e < |st.execs| && st.execs[e].phase.Suspended? {
        SettleKeepsInv(st, e, st.execs[e].(phase := Closed));
      }
    case Abort(id, req) =>
  }

  lemma {:induction false} ReachableInv(inputs: seq<Input>)
    ensures Inv(Run(inputs))
  {
    if inputs != [] {
      ReachableInv(inputs[..|inputs| - 1]);
      StepKeepsInv(Run(inputs[..|inputs| - 1]), inputs[|inputs| - 1]);
    }
  }

  // ---------------------------------------------------------------------------
  // Delivery, in every run

  /**
    What a consumer has been given is the start of what its sink got, cut after the first terminal
    event, and all of that once the generator returned by itself. Only the last of it can be an end
    or an error, and is one then.
  */
  lemma Delivery(inputs: seq<Input>, e: nat)
    requires e < |Run(inputs).execs|
    ensures var x := Run(inputs).execs[e];
      && x.yielded <= UpToTerminal(x.history) && (x.phase.Returned? ==> x.yielded == UpToTerminal(x.history))
      && (forall i :: 0 <= i < |x.yielded| - 1 ==> x.yielded[i].Chunk?)
      && (x.phase.Returned? ==> x.yielded != [] && !x.yielded[|x.yielded| - 1].Chunk?)
  {
    ReachableInv(inputs);
    var x := Run(inputs).execs[e];
    assert ExecOk(x);
    YieldedIsPrefix(x.yielded, x.queue);
  }

  /** A generator that waits has nothing to give, and its worker is still parked under its id. */
  lemma NoLostWakeUp(inputs: seq<Input>, e: nat)
    requires e < |Run(inputs).execs| && Run(inputs).execs[e].phase.Waiting?
    ensures var st := Run(inputs); var x := st.execs[e];
      x.parked < |st.parked| && Serving(st, x.parked) && x.yielded == x.history && !HasTerminal(x.history)
  {
    ReachableInv(inputs);
    var x := Run(inputs).execs[e];
    assert ExecOk(x);
    assert x.history == x.yielded;
  }

  /** The consumer asks `n` times. */
  function Nexts(e: nat, n: nat): seq<Input> {
    if n == 0 then [] else Nexts(e, n - 1) + [Next(e)]
  }

  lemma {:induction false} ResumeOnce(x: Exec, n: nat)
    ensures ResumeTimes(x, n + 1) == Resume(ResumeTimes(x, n))
    decreases n
  {
    hide Resume;
    if n > 0 {
      ResumeOnce(Resume(x), n - 1);
    }
  }

  lemma NextResumes(st: State, e: nat)
    requires e < |st.execs|
    ensures e < |Step(st, Next(e)).execs| && Step(st, Next(e)).execs[e] == Resume(st.execs[e])
  {
  }

  lemma {:induction false} NextsResume(inputs: seq<Input>, e: nat, n: nat)
    requires e < |Run(inputs).execs|
    ensures var st := Run(inputs + Nexts(e, n)); e < |st.execs| && st.execs[e] == ResumeTimes(Run(inputs).execs[e], n)
    decreases n
  {
    hide Run, Step, Resume;
    if n == 0 {
      assert inputs + [] == inputs;
    } else {
      NextsResume(inputs, e, n - 1);
      var more := inputs + Nexts(e, n - 1);
      assert inputs + Nexts(e, n) == more + [Next(e)];
      Snoc(more, Next(e));
      NextResumes(Run(more), e);
      ResumeOnce(Run(inputs).execs[e], n - 1);
    }
  }

  /** Once an end or an error has reached its sink, an exec in flight is over after so many requests for more, with all it was sent. */
  lemma EndedExecReturns(inputs: seq<Input>, e: nat)
    requires e < |Run(inputs).execs| && Live(Run(inputs).execs[e])
    requires exists i :: 0 <= i < |Run(inputs).execs[e].history| && !Run(inputs).execs[e].history[i].Chunk?
    ensures var x := Run(inputs).execs[e]; var st := Run(inputs + Nexts(e, |x.queue| + 1));
      e < |st.execs| && st.execs[e].phase.Returned? && st.execs[e].yielded == UpToTerminal(x.history)
  {
    ReachableInv(inputs);
    var x := Run(inputs).execs[e];
    assert ExecOk(x);
    DoneFinishes(x);
    NextsResume(inputs, e, |x.queue| + 1);
  }

  /** When a worker is taken off its id, each of its execs in flight ends that way. */
  lemma UnparkedExecEnds(inputs: seq<Input>, e: nat)
    requires var st := Run(inputs);
      && e < |st.execs| && Live(st.execs[e])
      && (st.execs[e].parked < |st.parked| ==> !Serving(st, st.execs[e].parked))
    ensures var x := Run(inputs).execs[e]; var st := Run(inputs + Nexts(e, |x.queue| + 1));
      e < |st.execs| && st.execs[e].phase.Returned? && st.execs[e].yielded == UpToTerminal(x.history)
  {
    ReachableInv(inputs);
    var st := Run(inputs);
    assert ExecOk(st.execs[e]) && FailFast(st);
    var i :| 0 <= i < |st.execs[e].history| && Terminal(st.execs[e].history[i]);
    EndedExecReturns(inputs, e);
  }

  lemma {:induction false} NextDue(y: seq<ExecEvent>, q: seq<ExecEvent>)
    requires OnlyLastTerminal(y) && !EndsTerminal(y)
    ensures if q == [] then UpToTerminal(y + q) == y else y < UpToTerminal(y + q) && UpToTerminal(y + q)[|y|] == q[0]
  {
    if y == [] {
      assert y + q == q;
    } else {
      assert (y + q)[0] == y[0] && (y + q)[1..] == y[1..] + q;
      NextDue(y[1..], q);
      assert y == [y[0]] + y[1..];
    }
  }

  /** Asking an exec in flight for more gives the next event it was sent, if there is one it has still to give. */
  lemma NextGives(inputs: seq<Input>, e: nat)
    requires e < |Run(inputs).execs| && Live(Run(inputs).execs[e])
    ensures var x := Run(inputs).execs[e]; var y := Step(Run(inputs), Next(e)).execs[e]; var due := UpToTerminal(x.history);
      y.yielded == if |x.yielded| < |due| then x.yielded + [due[|x.yielded|]] else x.yielded
  {
    ReachableInv(inputs);
    var x := Run(inputs).execs[e];
    assert ExecOk(x);
    if EndsTerminal(x.yielded) {
      YieldedIsPrefix(x.yielded, x.queue);
    } else {
      NextDue(x.yielded, x.queue);
    }
  }

  /** Closed at a yield, an exec is over at once, and its request id is free on its worker again. */
  lemma CloseFrees(inputs: seq<Input>, e: nat)
    requires e < |Run(inputs).execs| && Run(inputs).execs[e].phase.Suspended?
    ensures var x := Run(inputs).execs[e]; var n := Step(Run(inputs), Return(e));
      && n.execs[e] == x.(phase := Closed) && x.parked < |n.parked|
      && (Serving(n, x.parked) ==> !Refused(n, n.parked[x.parked].id, x.reqId))
  {
    ReachableInv(inputs);
  }

  // ---------------------------------------------------------------------------
  // Who is let in

  /** Every parked worker said hello on its stream, under its id, with a token that was good. */
  lemma {:induction false} ParkedWithGoodToken(inputs: seq<Input>, p: nat)
    requires p < |Run(inputs).parked|
    ensures Hello(Run(inputs).parked[p].stream, Run(inputs).parked[p].id, true) in inputs
  {
    hide Step;
    var before, last := inputs[..|inputs| - 1], inputs[|inputs| - 1];
    StepParks(Run(before), last);
    if p < |Run(before).parked| {
      ParkedWithGoodToken(before, p);
    }
  }

  /** A worker stays parked on its stream under its id, and only a good hello parks another. */
  lemma StepParks(st: State, i: Input)
    ensures |st.parked| <= |Step(st, i).parked| <= |st.parked| + 1
    ensures forall p :: 0 <= p < |st.parked| ==> Step(st, i).parked[p].id == st.parked[p].id && Step(st, i).parked[p].stream == st.parked[p].stream
    ensures |Step(st, i).parked| > |st.parked| ==>
      var p := Step(st, i).parked[|st.parked|]; i == Hello(p.stream, p.id, true)
  {
    hide FailAll, Resume;
  }

  /**
    A hello with a bad token, or for an id that is taken, parks nobody and writes no presence: it
    closes its stream, if that had no id yet. A good one for a free id is served from then on.
  */
  lemma HelloOutcome(st: State, s: nat, id: SandboxId, ok: bool)
    requires s < |st.streams|
    ensures var n := Step(st, Hello(s, id, ok));
      if st.streams[s].id != "" then n == st
      else if !ok || id in st.sessions then
        && n.sessions == st.sessions && n.parked == st.parked && n.presence == st.presence && n.execs == st.execs
        && |n.streams| == |st.streams| && n.streams[s].closed && n.streams[s].id == ""
        && forall t :: 0 <= t < |st.streams| && t != s ==> n.streams[t] == st.streams[t]
      else
        && n.execs == st.execs && n.presence == st.presence + [Put(id)] && n.sessions.Keys == st.sessions.Keys + {id}
        && (forall other :: other in st.sessions ==> n.sessions[other] == st.sessions[other])
        && n.streams[s].id == id && n.streams[s].closed == st.streams[s].closed
        && forall req :: !Refused(n, id, req) && Step(n, Route(id, req)).streams[s].outbox == st.streams[s].outbox + [ExecFrame(req)]
  {
    var n := Step(st, Hello(s, id, ok));
    if st.streams[s].id == "" && ok && id !in st.sessions {
      var worker := n.parked[|st.parked|];
      assert n.sessions[id] == |st.parked| && worker.stream == s && worker.sinks == map[];
      forall req ensures !Refused(n, id, req) && Step(n, Route(id, req)).streams[s].outbox == st.streams[s].outbox + [ExecFrame(req)] {
        assert Step(n, Route(id, req)).streams == Write(n.streams, s, ExecFrame(req));
      }
    }
  }

  /** A route is refused exactly when nobody serves the id or an exec of that request id is still in flight there. */
  lemma RouteRefusedIff(inputs: seq<Input>, id: SandboxId, req: ReqId)
    ensures var st := Run(inputs);
      Refused(st, id, req) <==>
        id !in st.sessions ||
        exists e :: 0 <= e < |st.execs| && Live(st.execs[e]) && st.execs[e].parked == st.sessions[id] && st.execs[e].reqId == req
  {
    ReachableInv(inputs);
    var st := Run(inputs);
    if id in st.sessions && req in st.parked[st.sessions[id]].sinks {
      assert Live(st.execs[st.parked[st.sessions[id]].sinks[req]]);
    }
  }

  /** An abort is written to the worker that serves the id, and changes nothing else. */
  lemma AbortIsWritten(inputs: seq<Input>, id: SandboxId, req: ReqId)
    ensures var st, n := Run(inputs), Step(Run(inputs), Abort(id, req));
      if id !in st.sessions then n == st
      else
        && st.sessions[id] < |st.parked| && st.parked[st.sessions[id]].stream < |st.streams| == |n.streams|
        && n == st.(streams := n.streams)
        && forall t :: 0 <= t < |st.streams| ==>
          && n.streams[t].id == st.streams[t].id && n.streams[t].closed == st.streams[t].closed
          && n.streams[t].outbox == st.streams[t].outbox + (if t == st.parked[st.sessions[id]].stream then [AbortFrame(req)] else [])
  {
    ReachableInv(inputs);
  }

  // ---------------------------------------------------------------------------
  // Orderly runs: a stream says nothing more once it has ended

  /** The streams whose end or error has been seen. */
  function Ended(inputs: seq<Input>): set<nat> {
    if inputs == [] then {} else
    var before, last := inputs[..|inputs| - 1], inputs[|inputs| - 1];
    Ended(before) + if last.Gone? && last.stream < |Run(before).streams| then {last.stream} else {}
  }

  predicate Speaks(i: Input, s: nat) {
    (i.Hello? || i.Data? || i.Gone?) && i.stream == s
  }

  ghost predicate Orderly(inputs: seq<Input>) {
    inputs != [] ==>
      var before, last := inputs[..|inputs| - 1], inputs[|inputs| - 1];
      Orderly(before) && forall s :: s in Ended(before) ==> !Speaks(last, s)
  }

  predicate OwnSession(st: State, ended: set<nat>)
    requires SessionsOk(st)
  {
    forall s :: 0 <= s < |st.streams| && st.streams[s].id != "" && s !in ended ==>
      st.streams[s].id in st.sessions && st.parked[st.sessions[st.streams[s].id]].stream == s
  }

  predicate LiveSessions(st: State, ended: set<nat>)
    requires SessionsOk(st)
  {
    forall id :: id in st.sessions && id != "" ==> st.parked[st.sessions[id]].stream !in ended
  }

  predicate OwnSenders(st: State)
    requires LiveOk(st)
  {
    forall e :: 0 <= e < |st.execs| ==>
      st.execs[e].senders == if st.execs[e].history == [] then {} else {st.parked[st.execs[e].parked].stream}
  }

  ghost predicate OrderlyInv(st: State, ended: set<nat>) {
    Inv(st) && (forall s :: s in ended ==> s < |st.streams|) && OwnSession(st, ended) && LiveSessions(st, ended) && OwnSenders(st)
  }

  lemma HelloKeepsOrderly(st: State, ended: set<nat>, s: nat, id: SandboxId, ok: bool)
    requires OrderlyInv(st, ended) && s !in ended
    ensures OrderlyInv(OnHello(st, s, id, ok), ended)
  {
    HelloKeepsInv(st, s, id, ok);
    var n := OnHello(st, s, id, ok);
    assert forall p :: 0 <= p < |st.parked| ==> n.parked[p] == st.parked[p];
    assert OwnSession(n, ended);
    assert OwnSenders(n);
  }

  lemma DataKeepsOrderly(st: State, ended: set<nat>, s: nat, ev: ExecEvent)
    requires OrderlyInv(st, ended) && s !in ended
    ensures OrderlyInv(OnData(st, s, ev), ended)
  {
    DataKeepsInv(st, s, ev);
    var n := OnData(st, s, ev);
    var p := SessionOf(st, s);
    if p >= 0 && ev.reqId in st.parked[p].sinks {
      assert st.parked[p].stream == s;
      assert OwnSenders(n);
    }
  }

  lemma GoneKeepsOrderly(st: State, ended: set<nat>, s: nat)
    requires OrderlyInv(st, ended) && s !in ended && s < |st.streams|
    ensures OrderlyInv(OnGone(st, s), ended + {s})
  {
    GoneKeepsInv(st, s);
    var n := OnGone(st, s);
    var p := SessionOf(st, s);
    if st.streams[s].id != "" {
      assert p >= 0 && st.parked[p].stream == s;
      forall e | 0 <= e < |n.execs|
        ensures n.execs[e].senders == if n.execs[e].history == [] then {} else {n.parked[n.execs[e].parked].stream}
      {
        if Registered(st.parked[p].sinks, st.execs, e) {
          assert st.execs[e].parked == p;
        }
      }
    }
    assert OwnSession(n, ended + {s});
    assert LiveSessions(n, ended + {s}) by {
      forall id | id in n.sessions && id != "" ensures n.parked[n.sessions[id]].stream !in ended + {s} {
        assert st.streams[st.parked[st.sessions[id]].stream].id == id;
      }
    }
  }

  /** Nothing that concerns who is parked where, or who sent what, has changed. */
  predicate SameWorkers(st: State, n: State) {
    && n.sessions == st.sessions && |n.parked| == |st.parked| && |n.streams| >= |st.streams| && |n.execs| >= |st.execs|
    && (forall p :: 0 <= p < |st.parked| ==> n.parked[p].stream == st.parked[p].stream)
    && (forall s :: 0 <= s < |n.streams| ==> n.streams[s].id == if s < |st.streams| then st.streams[s].id else "")
    && (forall e :: 0 <= e < |st.execs| ==>
          n.execs[e].senders == st.execs[e].senders && n.execs[e].history == st.execs[e].history && n.execs[e].parked == st.execs[e].parked)
    && (forall e :: |st.execs| <= e < |n.execs| ==> n.execs[e].senders == {} && n.execs[e].history == [])
  }

  lemma SettleSameWorkers(st: State, e: nat, x: Exec)
    requires e < |st.execs| && x.parked == st.execs[e].parked && x.senders == st.execs[e].senders && x.history == st.execs[e].history
    ensures SameWorkers(st, Settle(st, e, x))
  {
  }

  lemma RestSameWorkers(st: State, i: Input)
    requires !i.Hello? && !i.Data? && !i.Gone?
    ensures SameWorkers(st, Step(st, i))
  {
    hide Settle, Resume;
    match i
    case Next(e) =>
      if e < |st.execs| && Live(st.execs[e]) {
        ResumeKeepsSenders(st.execs[e]);
        SettleSameWorkers(st, e, Resume(st.execs[e]));
      }
    case Return(e) =>
      if e < |st.execs| {
        SettleSameWorkers(st, e, st.execs[e].(phase := Closed));
      }
    case _ =>
  }

  lemma ResumeKeepsSenders(x: Exec)
    ensures Resume(x).senders == x.senders && Resume(x).history == x.history && Resume(x).parked == x.parked && Resume(x).reqId == x.reqId
  {
  }

  lemma RestKeepsOrderly(st: State, ended: set<nat>, i: Input)
    requires OrderlyInv(st, ended) && !i.Hello? && !i.Data? && !i.Gone?
    ensures OrderlyInv(Step(st, i), ended)
  {
    hide Step;
    StepKeepsInv(st, i);
    RestSameWorkers(st, i);
    SameWorkersOrderly(st, Step(st, i), ended);
  }

  lemma SameWorkersOrderly(st: State, n: State, ended: set<nat>)
    requires OrderlyInv(st, ended) && Inv(n) && SameWorkers(st, n)
    ensures OrderlyInv(n, ended)
  {
    hide ExecsOk, SinksOk, ParkedOk, FailFast;
    assert OwnSession(n, ended);
    assert LiveSessions(n, ended);
  }

  lemma {:induction false} OrderlyReachable(inputs: seq<Input>)
    requires Orderly(inputs)
    ensures OrderlyInv(Run(inputs), Ended(inputs))
  {
    if inputs != [] {
      var before, last := inputs[..|inputs| - 1], inputs[|inputs| - 1];
      OrderlyReachable(before);
      var st, ended := Run(before), Ended(before);
      match last
      case Hello(s, id, ok) =>
        assert Speaks(last, s);
        HelloKeepsOrderly(st, ended, s, id, ok);
      case Data(s, ev) =>
        assert Speaks(last, s);
        DataKeepsOrderly(st, ended, s, ev);
      case Gone(s) =>
        assert Speaks(last, s);
        if s < |st.streams| {
          GoneKeepsOrderly(st, ended, s);
        }
      case _ => RestKeepsOrderly(st, ended, last);
    }
  }

  /** At most one worker that has not ended holds a sandbox id, and it is the one execs are routed to. */
  lemma OneWorkerPerId(inputs: seq<Input>, s: nat)
    requires Orderly(inputs) && s < |Run(inputs).streams| && s !in Ended(inputs) && Run(inputs).streams[s].id != ""
    ensures var st := Run(inputs); var id := st.streams[s].id;
      && id in st.sessions && st.sessions[id] < |st.parked| && st.parked[st.sessions[id]].stream == s
      && forall t :: 0 <= t < |st.streams| && st.streams[t].id == id && t !in Ended(inputs) ==> t == s
  {
    OrderlyReachable(inputs);
  }

  /** Everything an exec is given was sent by the worker it was routed to, under its own request id. */
  lemma NoCrossTalk(inputs: seq<Input>, e: nat)
    requires Orderly(inputs) && e < |Run(inputs).execs|
    ensures var st := Run(inputs); var x := st.execs[e];
      && x.parked < |st.parked| && x.senders == (if x.history == [] then {} else {st.parked[x.parked].stream})
      && forall ev :: ev in x.history ==> ev.reqId == x.reqId
  {
    OrderlyReachable(inputs);
    assert ExecOk(Run(inputs).execs[e]);
  }

  // ---------------------------------------------------------------------------
  // What an exec gets, told from the inputs alone

  /** What an input is worth to an exec: a frame of its worker under its request id, or its worker's end. */
  function Due(st: State, e: nat, i: Input): seq<ExecEvent> {
    if e >= |st.execs| || !Live(st.execs[e]) || st.execs[e].parked >= |st.parked| then [] else
    var x := st.execs[e];
    var worker := st.parked[x.parked];
    if worker.id == "" then []
    else if i.Data? && i.stream == worker.stream && i.ev.reqId == x.reqId then [i.ev]
    else if i.Gone? && i.stream == worker.stream then [Disconnected(x.reqId)]
    else []
  }

  function Received(inputs: seq<Input>, e: nat): seq<ExecEvent> {
    if inputs == [] then [] else
    var before, last := inputs[..|inputs| - 1], inputs[|inputs| - 1];
    Received(before, e) + Due(Run(before), e, last)
  }

  /** A stream is parked at most once under an id that is not empty. */
  predicate OneParking(st: State) {
    forall p, q :: 0 <= p < |st.parked| && 0 <= q < |st.parked| && st.parked[p].stream == st.parked[q].stream ==>
      p == q || st.parked[p].id == "" || st.parked[q].id == ""
  }

  lemma StepKeepsOneParking(st: State, i: Input)
    requires ParkedOk(st) && OneParking(st)
    ensures OneParking(Step(st, i))
  {
    hide FailAll, Resume;
    var n := Step(st, i);
    assert forall p :: 0 <= p < |st.parked| ==> n.parked[p].id == st.parked[p].id && n.parked[p].stream == st.parked[p].stream;
  }

  lemma DataIsDue(st: State, ended: set<nat>, s: nat, ev: ExecEvent, e: nat)
    requires OrderlyInv(st, ended) && OneParking(st) && s !in ended && e < |st.execs|
    ensures OnData(st, s, ev).execs[e].history == st.execs[e].history + Due(st, e, Data(s, ev))
  {
    hide ExecsOk, FailFast, LiveSessions, OwnSenders;
    var x := st.execs[e];
    var p := SessionOf(st, s);
    if Live(x) && st.parked[x.parked].id != "" && st.parked[x.parked].stream == s {
      assert st.streams[s].id == st.parked[x.parked].id;
      assert p == x.parked;
    } else if p >= 0 {
      assert st.parked[p].stream == s && st.parked[p].id != "";
    }
  }

  lemma GoneIsDue(st: State, ended: set<nat>, s: nat, e: nat)
    requires OrderlyInv(st, ended) && OneParking(st) && s !in ended && e < |st.execs|
    ensures OnGone(st, s).execs[e].history == st.execs[e].history + Due(st, e, Gone(s))
  {
    hide ExecsOk, FailFast, LiveSessions, OwnSenders;
    var x := st.execs[e];
    var p := SessionOf(st, s);
    if Live(x) && st.parked[x.parked].id != "" && st.parked[x.parked].stream == s {
      assert st.streams[s].id == st.parked[x.parked].id;
      assert p == x.parked;
      assert Registered(st.parked[p].sinks, st.execs, e);
    } else if p >= 0 {
      assert st.parked[p].stream == s && st.parked[p].id != "";
      assert !Registered(st.parked[p].sinks, st.execs, e);
    }
  }

  lemma RestIsNotDue(st: State, i: Input, e: nat)
    requires e < |st.execs| && !i.Data? && !i.Gone?
    ensures e < |Step(st, i).execs| && Step(st, i).execs[e].history == st.execs[e].history && Due(st, e, i) == []
  {
  }

  lemma {:induction false} NothingBeforeRouted(inputs: seq<Input>, e: nat)
    requires e >= |Run(inputs).execs|
    ensures Received(inputs, e) == []
  {
    if inputs != [] {
      var before, last := inputs[..|inputs| - 1], inputs[|inputs| - 1];
      ExecsStay(Run(before), last);
      NothingBeforeRouted(before, e);
    }
  }

  lemma ExecsStay(st: State, i: Input)
    ensures |st.execs| <= |Step(st, i).execs| <= |st.execs| + 1
    ensures |Step(st, i).execs| > |st.execs| ==> i.Route? && Step(st, i).execs[|st.execs|].history == []
  {
    hide Resume;
  }

  /**
    An exec's sink is given exactly the frames its worker sends under its request id while it is in
    flight, in the order they come, and a disconnect error if the worker ends.
  */
  lemma {:induction false} GetsWhatIsSent(inputs: seq<Input>, e: nat)
    requires Orderly(inputs) && e < |Run(inputs).execs|
    ensures Run(inputs).execs[e].history == Received(inputs, e)
  {
    var before, last := inputs[..|inputs| - 1], inputs[|inputs| - 1];
    var st := Run(before);
    OrderlyReachable(before);
    ParkedOnce(before);
    ExecsStay(st, last);
    hide Step, OrderlyInv, Due;
    if e >= |st.execs| {
      NothingBeforeRouted(before, e);
      RoutedGetsNothing(st, last);
    } else {
      GetsWhatIsSent(before, e);
      StepGives(st, Ended(before), last, e);
    }
  }

  lemma RoutedGetsNothing(st: State, i: Input)
    ensures Due(st, |st.execs|, i) == []
  {
  }

  lemma StepGives(st: State, ended: set<nat>, i: Input, e: nat)
    requires OrderlyInv(st, ended) && OneParking(st) && e < |st.execs| && forall s :: s in ended ==> !Speaks(i, s)
    ensures e < |Step(st, i).execs| && Step(st, i).execs[e].history == st.execs[e].history + Due(st, e, i)
  {
    hide OrderlyInv, Due, OnData, OnGone, OneParking;
    match i
    case Data(s, ev) =>
      assert Speaks(i, s);
      DataIsDue(st, ended, s, ev, e);
      ExecsStay(st, i);
    case Gone(s) =>
      assert Speaks(i, s);
      GoneIsDue(st, ended, s, e);
      ExecsStay(st, i);
    case _ => RestIsNotDue(st, i, e);
  }

  lemma {:induction false} ParkedOnce(inputs: seq<Input>)
    ensures OneParking(Run(inputs))
  {
    hide Step;
    if inputs != [] {
      ParkedOnce(inputs[..|inputs| - 1]);
      ReachableInv(inputs[..|inputs| - 1]);
      StepKeepsOneParking(Run(inputs[..|inputs| - 1]), inputs[|inputs| - 1]);
    }
  }

  /** Ending a stream takes another worker off its id exactly when the stream had ended before and that worker has its id. */
  lemma EvictsIff(inputs: seq<Input>, s: nat)
    requires Orderly(inputs) && s < |Run(inputs).streams|
    ensures var st := Run(inputs); var id := st.streams[s].id;
      (exists p: nat :: p < |st.parked| && st.parked[p].stream != s && Serving(st, p) && !Serving(OnGone(st, s), p))
      <==> s in Ended(inputs) && id != "" && id in st.sessions
  {
    OrderlyReachable(inputs);
    var st := Run(inputs);
    var id := st.streams[s].id;
    if s in Ended(inputs) && id != "" && id in st.sessions {
      var p := st.sessions[id];
      assert p < |st.parked| && st.parked[p].stream != s && Serving(st, p) && !Serving(OnGone(st, s), p);
    }
    if p: nat :| p < |st.parked| && st.parked[p].stream != s && Serving(st, p) && !Serving(OnGone(st, s), p) {
      assert id != "" && st.parked[p].id == id;
    }
  }

  /** An error and then an end of the first stream, with a reconnect in between, evict the second worker. */
  lemma SecondTeardownEvicts()
    ensures var before := [Attach, Hello(0, "box", true), Gone(0), Attach, Hello(1, "box", true)];
      Orderly(before) && "box" in Run(before).sessions && 1 !in Ended(before) && "box" !in Run(before + [Gone(0)]).sessions
  {
    hide Run, Ended, Orderly;
    var before := [Attach] + [Hello(0, "box", true)] + [Gone(0)] + [Attach] + [Hello(1, "box", true)];
    Reattached();
    Snoc(before, Gone(0));
    assert before == [Attach, Hello(0, "box", true), Gone(0), Attach, Hello(1, "box", true)];
  }

  lemma Reattached()
    ensures var e := [Attach] + [Hello(0, "box", true)] + [Gone(0)] + [Attach] + [Hello(1, "box", true)]; var st := Run(e);
      && |st.streams| == 2 && st.streams[0].id == "box" && st.sessions == map["box" := 1] && Ended(e) == {0} && Orderly(e)
  {
    hide Run, Ended, Orderly;
    var c := [Attach] + [Hello(0, "box", true)] + [Gone(0)];
    OneGone();
    Snoc(c, Attach);
    assert Run(c + [Attach]).streams == [Stream("box", false, []), Stream("", false, [])];
    Snoc(c + [Attach], Hello(1, "box", true));
  }

  lemma OneGone()
    ensures var c := [Attach] + [Hello(0, "box", true)] + [Gone(0)]; var st := Run(c);
      st.streams == [Stream("box", false, [])] && st.sessions == map[] && |st.parked| == 1 && Ended(c) == {0} && Orderly(c)
  {
    hide Run, Ended, Orderly;
    OneAttached();
    Snoc([Attach] + [Hello(0, "box", true)], Gone(0));
  }

  lemma OneAttached()
    ensures var b := [Attach] + [Hello(0, "box", true)]; var st := Run(b);
      && st.streams == [Stream("box", false, [])] && st.sessions == map["box" := 0]
      && |st.parked| == 1 && st.parked[0].sinks == map[] && Ended(b) == {} && Orderly(b)
  {
    assert [Attach][..0] == [];
    assert Run([Attach]) == Step(Run([]), Attach) && Ended([Attach]) == {} && Orderly([Attach]);
    Snoc([Attach], Hello(0, "box", true));
  }

  lemma Snoc(inputs: seq<Input>, i: Input)
    ensures Run(inputs + [i]) == Step(Run(inputs), i)
    ensures Ended(inputs + [i]) == Ended(inputs) + if i.Gone? && i.stream < |Run(inputs).streams| then {i.stream} else {}
    ensures Orderly(inputs + [i]) <==> Orderly(inputs) && forall s :: s in Ended(inputs) ==> !Speaks(i, s)
  {
    hide Step;
    assert (inputs + [i])[..|inputs|] == inputs;
  }

  // ---------------------------------------------------------------------------
  // The empty sandbox id

  /** Once a worker is parked under the empty id it is never taken off it, whatever its stream does. */
  lemma {:induction false} EmptyIdStays(inputs: seq<Input>, more: seq<Input>)
    requires "" in Run(inputs).sessions
    ensures "" in Run(inputs + more).sessions && Run(inputs + more).sessions[""] == Run(inputs).sessions[""]
  {
    if more == [] {
      assert inputs + more == inputs;
    } else {
      EmptyIdStays(inputs, more[..|more| - 1]);
      assert (inputs + more)[..|inputs + more| - 1] == inputs + more[..|more| - 1];
    }
  }

  predicate EmptyIdSilent(st: State)
    requires LiveOk(st)
  {
    forall e :: 0 <= e < |st.execs| && st.parked[st.execs[e].parked].id == "" ==> st.execs[e].history == [] && st.execs[e].phase.Waiting?
  }

  lemma GoneKeepsSilence(st: State, s: nat)
    requires Inv(st) && EmptyIdSilent(st)
    ensures LiveOk(OnGone(st, s)) && EmptyIdSilent(OnGone(st, s))
  {
    GoneKeepsInv(st, s);
    var n := OnGone(st, s);
    var p := SessionOf(st, s);
    forall e | 0 <= e < |st.execs| && p >= 0 && Registered(st.parked[p].sinks, st.execs, e)
      ensures st.parked[st.execs[e].parked].id != ""
    {
      assert st.execs[e].parked == p;
    }
  }

  lemma DataKeepsSilence(st: State, s: nat, ev: ExecEvent)
    requires Inv(st) && EmptyIdSilent(st)
    ensures LiveOk(OnData(st, s, ev)) && EmptyIdSilent(OnData(st, s, ev))
  {
    DataKeepsInv(st, s, ev);
    var p := SessionOf(st, s);
    if p >= 0 && ev.reqId in st.parked[p].sinks {
      assert st.execs[st.parked[p].sinks[ev.reqId]].parked == p;
    }
  }

  lemma SettleKeepsSilence(st: State, e: nat, x: Exec)
    requires Inv(st) && EmptyIdSilent(st) && e < |st.execs| && LiveOk(Settle(st, e, x)) && x.parked == st.execs[e].parked
    requires !st.execs[e].phase.Waiting? || x == st.execs[e]
    ensures EmptyIdSilent(Settle(st, e, x))
  {
    hide ExecsOk, SinksOk, FailFast, ParkedOk, SessionsOk;
    assert forall q :: 0 <= q < |st.parked| ==> Settle(st, e, x).parked[q].id == st.parked[q].id;
  }

  lemma StepKeepsSilence(st: State, i: Input)
    requires Inv(st) && EmptyIdSilent(st)
    ensures LiveOk(Step(st, i)) && EmptyIdSilent(Step(st, i))
  {
    hide OnGone, OnData, Settle, Advance, ExecsOk, SinksOk, FailFast, ParkedOk;
    StepKeepsInv(st, i);
    match i
    case Gone(s) => GoneKeepsSilence(st, s);
    case Data(s, ev) => DataKeepsSilence(st, s, ev);
    case Next(e) =>
      if e < |st.execs| && Live(st.execs[e]) {
        ResumeKeepsSenders(st.execs[e]);
        SettleKeepsSilence(st, e, Resume(st.execs[e]));
      }
    case Return(e) =>
      if e < |st.execs| && st.execs[e].phase.Suspended? {
        SettleKeepsSilence(st, e, st.execs[e].(phase := Closed));
      }
    case _ =>
  }

  /** An exec routed to the empty id is never answered and never failed: its generator waits for good. */
  lemma {:induction false} EmptyIdNeverAnswers(inputs: seq<Input>)
    ensures LiveOk(Run(inputs)) && EmptyIdSilent(Run(inputs))
  {
    hide Step;
    if inputs != [] {
      EmptyIdNeverAnswers(inputs[..|inputs| - 1]);
      ReachableInv(inputs[..|inputs| - 1]);
      StepKeepsSilence(Run(inputs[..|inputs| - 1]), inputs[|inputs| - 1]);
    }
  }

  /** A generator that waits in an orderly run waits for a stream that has not ended, unless its id is empty. */
  lemma WaitsForALiveWorker(inputs: seq<Input>, e: nat)
    requires Orderly(inputs) && e < |Run(inputs).execs| && Run(inputs).execs[e].phase.Waiting?
    ensures var st := Run(inputs); var p := st.execs[e].parked;
      p < |st.parked| && (st.parked[p].id != "" ==> st.parked[p].stream !in Ended(inputs))
  {
    OrderlyReachable(inputs);
    NoLostWakeUp(inputs, e);
  }

  // ---------------------------------------------------------------------------
  // Presence and what is written to the workers

  function Present(ops: seq<PresenceOp>): set<SandboxId> {
    if ops == [] then {} else
    var before, last := Present(ops[..|ops| - 1]), ops[|ops| - 1];
    if last.Put? then before + {last.id} else before - {last.id}
  }

  /** The presence records, written in the order issued, list the ids that execs can be routed to. */
  lemma {:induction false} PresenceIsSessions(inputs: seq<Input>)
    ensures Present(Run(inputs).presence) == Run(inputs).sessions.Keys
  {
    hide Step;
    if inputs != [] {
      PresenceIsSessions(inputs[..|inputs| - 1]);
      PresenceStep(Run(inputs[..|inputs| - 1]), inputs[|inputs| - 1]);
    }
  }

  lemma PresenceStep(st: State, i: Input)
    requires Present(st.presence) == st.sessions.Keys
    ensures Present(Step(st, i).presence) == Step(st, i).sessions.Keys
  {
    hide Settle, Resume, FailAll, Present;
    match i
    case Hello(s, id, ok) => PresentSnoc(st.presence, Put(id));
    case Gone(s) =>
      if s < |st.streams| {
        PresentSnoc(st.presence, Remove(st.streams[s].id));
      }
    case Next(e) =>
      if e < |st.execs| {
        SettleKeepsPresence(st, e, Resume(st.execs[e]));
      }
    case Return(e) =>
      if e < |st.execs| {
        SettleKeepsPresence(st, e, st.execs[e].(phase := Closed));
      }
    case _ =>
  }

  lemma PresentSnoc(ops: seq<PresenceOp>, op: PresenceOp)
    ensures Present(ops + [op]) == if op.Put? then Present(ops) + {op.id} else Present(ops) - {op.id}
  {
    assert (ops + [op])[..|ops|] == ops;
  }

  lemma SettleKeepsPresence(st: State, e: nat, x: Exec)
    requires e < |st.execs|
    ensures Settle(st, e, x).presence == st.presence && Settle(st, e, x).sessions == st.sessions
  {
  }

  function ExecFrames(out: seq<ServerFrame>): seq<ReqId> {
    if out == [] then [] else
    ExecFrames(out[..|out| - 1]) + if out[|out| - 1].ExecFrame? then [out[|out| - 1].reqId] else []
  }

  /** The request ids of the execs routed to a stream, in the order they were routed. */
  function RoutedTo(execs: seq<Exec>, parked: seq<Parked>, s: nat): seq<ReqId> {
    if execs == [] then [] else
    var x := execs[|execs| - 1];
    RoutedTo(execs[..|execs| - 1], parked, s) + if x.parked < |parked| && parked[x.parked].stream == s then [x.reqId] else []
  }

  /** Two states that route alike: the same workers on the same streams, the same request ids. */
  predicate RouteAlike(xs: seq<Exec>, ps: seq<Parked>, ys: seq<Exec>, qs: seq<Parked>) {
    && |xs| == |ys| && |ps| <= |qs|
    && (forall p :: 0 <= p < |ps| ==> ps[p].stream == qs[p].stream)
    && (forall e :: 0 <= e < |xs| ==> xs[e].parked < |ps| && xs[e].parked == ys[e].parked && xs[e].reqId == ys[e].reqId)
  }

  lemma {:induction false} RoutedAlike(xs: seq<Exec>, ps: seq<Parked>, ys: seq<Exec>, qs: seq<Parked>, s: nat)
    requires RouteAlike(xs, ps, ys, qs)
    ensures RoutedTo(xs, ps, s) == RoutedTo(ys, qs, s)
  {
    if xs != [] {
      RoutedAlike(xs[..|xs| - 1], ps, ys[..|ys| - 1], qs, s);
    }
  }

  ghost predicate OutboxOk(st: State, s: nat)
    requires s < |st.streams|
  {
    ExecFrames(st.streams[s].outbox) == RoutedTo(st.execs, st.parked, s)
  }

  lemma NewStreamIsFresh(st: State, i: Input, s: nat)
    requires Inv(st) && |st.streams| <= s < |Step(st, i).streams|
    ensures OutboxOk(Step(st, i), s)
  {
    hide RoutedTo, ExecFrames, ExecsOk, SinksOk, SessionsOk, FailFast, LiveOk;
    OnlyAttachAdds(st, i);
    RoutedNowhere(st.execs, st.parked, s);
    NoFrames();
  }

  lemma NoFrames()
    ensures ExecFrames([]) == []
  {
  }

  lemma OnlyAttachAdds(st: State, i: Input)
    ensures |Step(st, i).streams| == |st.streams| + if i.Attach? then 1 else 0
  {
    hide FailAll, Resume;
  }

  lemma {:induction false} RoutedNowhere(xs: seq<Exec>, ps: seq<Parked>, s: nat)
    requires forall p :: 0 <= p < |ps| ==> ps[p].stream < s
    ensures RoutedTo(xs, ps, s) == []
  {
    if xs != [] {
      RoutedNowhere(xs[..|xs| - 1], ps, s);
    }
  }

  lemma RouteKeepsOutbox(st: State, id: SandboxId, req: ReqId, s: nat)
    requires Inv(st) && s < |st.streams| && OutboxOk(st, s)
    ensures s < |OnRoute(st, id, req).streams| && OutboxOk(OnRoute(st, id, req), s)
  {
    hide RoutedTo, ExecFrames, ExecsOk, SinksOk, FailFast;
    if !Refused(st, id, req) {
      var n := OnRoute(st, id, req);
      var p := st.sessions[id];
      RoutedAlike(st.execs, st.parked, st.execs, n.parked, s);
      RoutedSnoc(st.execs, Started(p, req), n.parked, s);
      FramesSnoc(st.streams[s].outbox, ExecFrame(req));
    }
  }

  lemma RoutedSnoc(xs: seq<Exec>, x: Exec, ps: seq<Parked>, s: nat)
    ensures RoutedTo(xs + [x], ps, s) ==
      RoutedTo(xs, ps, s) + if x.parked < |ps| && ps[x.parked].stream == s then [x.reqId] else []
  {
    assert (xs + [x])[..|xs|] == xs;
  }

  lemma FramesSnoc(out: seq<ServerFrame>, f: ServerFrame)
    ensures ExecFrames(out + [f]) == ExecFrames(out) + if f.ExecFrame? then [f.reqId] else []
  {
    assert (out + [f])[..|out|] == out;
  }

  lemma RestKeepsOutbox(st: State, i: Input, s: nat)
    requires Inv(st) && s < |st.streams| && OutboxOk(st, s) && !i.Route?
    ensures s < |Step(st, i).streams| && OutboxOk(Step(st, i), s)
  {
    hide Step, SinksOk, ParkedOk, ExecsOk, FailFast, SessionsOk;
    var n := Step(st, i);
    StepRoutesAlike(st, i);
    RoutedAlike(st.execs, st.parked, n.execs, n.parked, s);
    StepWrites(st, i, s);
    if i.Abort? {
      FramesSnoc(st.streams[s].outbox, AbortFrame(i.req));
    }
  }

  lemma StepRoutesAlike(st: State, i: Input)
    requires LiveOk(st) && !i.Route?
    ensures RouteAlike(st.execs, st.parked, Step(st, i).execs, Step(st, i).parked)
  {
    hide Resume, Settle;
    match i
    case Next(e) =>
      if e < |st.execs| && Live(st.execs[e]) {
        ResumeKeepsSenders(st.execs[e]);
        SettleRoutesAlike(st, e, Resume(st.execs[e]));
      }
    case Return(e) =>
      if e < |st.execs| {
        SettleRoutesAlike(st, e, st.execs[e].(phase := Closed));
      }
    case _ =>
  }

  lemma SettleRoutesAlike(st: State, e: nat, x: Exec)
    requires LiveOk(st) && e < |st.execs| && x.parked == st.execs[e].parked && x.reqId == st.execs[e].reqId
    ensures RouteAlike(st.execs, st.parked, Settle(st, e, x).execs, Settle(st, e, x).parked)
  {
  }

  lemma StepWrites(st: State, i: Input, s: nat)
    requires s < |st.streams| && !i.Route?
    ensures s < |Step(st, i).streams|
    ensures var out, was := Step(st, i).streams[s].outbox, st.streams[s].outbox;
      out == was || (i.Abort? && out == was + [AbortFrame(i.req)])
  {
    hide FailAll, Resume;
  }

  /** The exec frames written to each worker are the execs accepted for it, each once, in order. */
  lemma {:induction false} EveryExecIsWritten(inputs: seq<Input>, s: nat)
    requires s < |Run(inputs).streams|
    ensures ExecFrames(Run(inputs).streams[s].outbox) == RoutedTo(Run(inputs).execs, Run(inputs).parked, s)
  {
    if inputs != [] {
      var before, last := inputs[..|inputs| - 1], inputs[|inputs| - 1];
      var st := Run(before);
      ReachableInv(before);
      hide Step;
      if s >= |st.streams| {
        NewStreamIsFresh(st, last, s);
      } else {
        EveryExecIsWritten(before, s);
        if last.Route? {
          RouteKeepsOutbox(st, last.id, last.req, s);
        } else {
          RestKeepsOutbox(st, last, s);
        }
      }
    }
  }

  // ---------------------------------------------------------------------------
  // The relay as it updates its tables

  class Bridge {
    var sessions: map<SandboxId, nat>
    var streams: seq<Stream>
    var parked: seq<Parked>
    var execs: seq<Exec>
    var presence: seq<PresenceOp>

    ghost function Now(): State
      reads this
    {
      State(sessions, streams, parked, execs, presence)
    }

    ghost predicate Valid()
      reads this
    {
      Inv(Now())
    }

    constructor ()
      ensures Valid() && Now() == EMPTY
    {
      sessions, streams, parked, execs, presence := map[], [], [], [], [];
    }

    method AcceptStream() returns (s: nat)
      requires Valid()
      modifies this
      ensures Valid() && Now() == Step(old(Now()), Attach) && s == old(|streams|)
    {
      ghost var was := Now();
      s := |streams|;
      streams := streams + [Stream("", false, [])];
      StepKeepsInv(was, Attach);
    }

    method HandleHello(s: nat, id: SandboxId, tokenOk: bool)
      requires Valid() && s < |streams|
      modifies this
      ensures Valid() && Now() == Step(old(Now()), Hello(s, id, tokenOk))
      ensures !tokenOk ==> sessions == old(sessions) && parked == old(parked) && presence == old(presence)
      ensures !tokenOk && old(streams[s].id) == "" ==> streams[s].closed
    {
      HelloKeepsInv(Now(), s, id, tokenOk);
      if streams[s].id != "" {
        return;
      }
      if !tokenOk {
        streams := streams[s := streams[s].(closed := true)];
        return;
      }
      if id in sessions {
        streams := streams[s := streams[s].(closed := true)];
        return;
      }
      streams := streams[s := streams[s].(id := id)];
      sessions := sessions[id := |parked|];
      parked := parked + [Parked(s, id, map[])];
      presence := presence + [Put(id)];
    }

    method HandleFrame(s: nat, ev: ExecEvent)
      requires Valid() && s < |streams|
      modifies this
      ensures Valid() && Now() == Step(old(Now()), Data(s, ev))
    {
      DataKeepsInv(Now(), s, ev);
      var id := streams[s].id;
      if id == "" || id !in sessions {
        return;
      }
      var p := sessions[id];
      if ev.reqId in parked[p].sinks {
        var e := parked[p].sinks[ev.reqId];
        execs := execs[e := Push(execs[e], s, ev)];
      }
    }

    method Teardown(s: nat)
      requires Valid() && s < |streams|
      modifies this
      ensures Valid() && Now() == Step(old(Now()), Gone(s))
    {
      ghost var was := Now();
      GoneKeepsInv(was, s);
      var id := streams[s].id;
      if id == "" {
        return;
      }
      if id in sessions {
        FailEach(sessions[id], s);
      }
      sessions := sessions - {id};
      presence := presence + [Remove(id)];
    }

    /** Each sink of the parked worker is given a disconnect error, in whatever order. */
    method FailEach(p: nat, s: nat)
      requires p < |parked| && SinksOk(Now())
      modifies this
      ensures Now() == old(Now()).(execs := FailAll(old(execs), old(parked[p].sinks), s))
    {
      var sinks := parked[p].sinks;
      ghost var start := execs;
      var left := sinks.Keys;
      while left != {}
        invariant left <= sinks.Keys && |execs| == |start|
        invariant Now() == old(Now()).(execs := execs)
        invariant forall e :: 0 <= e < |start| ==>
          execs[e] == if Registered(sinks, start, e) && start[e].reqId !in left
                      then Push(start[e], s, Disconnected(start[e].reqId)) else start[e]
        decreases |left|
      {
        var r :| r in left;
        var e := sinks[r];
        assert Registered(sinks, start, e) && start[e].reqId == r;
        execs := execs[e := Push(execs[e], s, Disconnected(r))];
        left := left - {r};
      }
    }

    /** The generator's first step: its exec number, or nothing when the route is refused. */
    method RouteExec(id: SandboxId, req: ReqId) returns (r: Option<nat>)
      requires Valid()
      modifies this
      ensures Valid() && Now() == Step(old(Now()), Route(id, req))
      ensures r == if Refused(old(Now()), id, req) then None else Some(old(|execs|))
    {
      RouteKeepsInv(Now(), id, req);
      if id !in sessions {
        return None;
      }
      var p := sessions[id];
      if req in parked[p].sinks {
        return None;
      }
      r := Some(|execs|);
      parked := parked[p := parked[p].(sinks := parked[p].sinks[req := |execs|])];
      execs := execs + [Started(p, req)];
      streams := Write(streams, parked[p].stream, ExecFrame(req));
    }

    /** The generator runs on to its next yield, which is the event given, or to a wait or its end. */
    method RunOn(e: nat) returns (ev: Option<ExecEvent>)
      requires Valid() && e < |execs|
      modifies this
      ensures Valid() && Now() == Step(old(Now()), Next(e))
      ensures execs[e].yielded == old(execs[e].yielded) + (if ev.Some? then [ev.value] else [])
    {
      hide SinksOk, ParkedOk, SessionsOk, FailFast;
      StepKeepsInv(Now(), Next(e));
      ev := None;
      var x := execs[e];
      if !x.phase.Woken? && !x.phase.Suspended? {
        assert execs[e := x] == execs;
        return;
      }
      if x.phase.Suspended? && Terminal(x.yielded[|x.yielded| - 1]) {
        x := x.(phase := Returned);
      } else if x.queue != [] {
        ev := Some(x.queue[0]);
        x := x.(queue := x.queue[1..], yielded := x.yielded + [x.queue[0]], phase := Suspended);
      } else if x.done {
        x := x.(phase := Returned);
      } else {
        x := x.(phase := Waiting);
      }
      execs := execs[e := x];
      if !Live(x) {
        parked := parked[x.parked := parked[x.parked].(sinks := parked[x.parked].sinks - {x.reqId})];
      }
    }

    /** The consumer closes the generator at a yield. */
    method Close(e: nat)
      requires Valid() && e < |execs|
      modifies this
      ensures Valid() && Now() == Step(old(Now()), Return(e))
    {
      hide ExecsOk, SinksOk, ParkedOk, SessionsOk, FailFast;
      StepKeepsInv(Now(), Return(e));
      if execs[e].phase.Suspended? {
        var x := execs[e].(phase := Closed);
        execs := execs[e := x];
        parked := parked[x.parked := parked[x.parked].(sinks := parked[x.parked].sinks - {x.reqId})];
      }
    }

    method RouteAbort(id: SandboxId, req: ReqId)
      requires Valid()
      modifies this
      ensures Valid() && Now() == Step(old(Now()), Abort(id, req))
    {
      StepKeepsInv(Now(), Abort(id, req));
      if id in sessions {
        streams := Write(streams, parked[sessions[id]].stream, AbortFrame(req));
      }
    }
  }
}
