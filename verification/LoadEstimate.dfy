/**
  The supervisor's optimistic in-flight estimates against the counts its workers report, over one
  FIFO channel each way per worker.
*/
module LoadEstimate {

  type TurnId = nat

  // ---------------------------------------------------------------------------
  // The worker's turn counter

  class Turn {
    var ended: bool

    constructor ()
      ensures !ended
    {
      ended := false;
    }
  }

  class TurnCounter {
    var n: nat
    var reports: seq<nat>       // the `load` values sent, oldest first
    ghost var started: set<Turn>

    ghost function Open(): set<Turn>
      reads this, started
    {
      set t | t in started && !t.ended
    }

    /** The count is the number of unfinished turns, and the last report is the count. */
    ghost predicate Valid()
      reads this, started
    {
      n == |Open()| && (reports != [] ==> reports[|reports| - 1] == n)
    }

    constructor ()
      ensures Valid() && n == 0 && reports == [] && started == {}
    {
      n, reports, started := 0, [], {};
      new;
      assert Open() == {};
    }

    method Start() returns (t: Turn)
      requires Valid()
      modifies this
      ensures Valid() && fresh(t) && started == old(started) + {t}
      ensures Open() == old(Open()) + {t} && n == old(n) + 1
      ensures reports == old(reports) + [n]
    {
      t := new Turn();
      n := n + 1;
      reports := reports + [n];
      started := started + {t};
      assert Open() == old(Open()) + {t};
    }

    /** Ending a turn twice counts once. */
    method End(t: Turn)
      requires Valid() && t in started
      modifies this, t
      ensures Valid() && started == old(started) && Open() == old(Open()) - {t}
      ensures old(t.ended) ==> n == old(n) && reports == old(reports)
      ensures !old(t.ended) ==> n == old(n) - 1 && reports == old(reports) + [n]
    {
      if t.ended {
        assert Open() == old(Open());
        return;
      }
      assert t in Open();
      t.ended := true;
      n := n - 1;
      reports := reports + [n];
      assert Open() == old(Open()) - {t};
    }
  }

  // ---------------------------------------------------------------------------
  // Worker and supervisor

  datatype ToWorker = Conn(withHandle: bool) | Drain
  datatype ToSupervisor = Ready | Load(inFlight: nat) | Draining | Stats

  /**
    One worker slot: the supervisor's view of it, the two channels, and the worker itself, whose
    unfinished turns are `open` and whose counter is `n`.
  */
  datatype Slot = Slot(
    estimate: nat, healthy: bool, drained: bool,
    down: seq<ToWorker>, up: seq<ToSupervisor>,
    alive: bool, n: nat, open: set<TurnId>)

  datatype Event =
    | HandOff(withHandle: bool)  // a connection is sent; one may arrive with no descriptor
    | Receive                    // the worker takes its next message
    | StartTurn(t: TurnId)
    | EndTurn(t: TurnId)         // 'close' of a response; may fire again
    | OtherRequest               // a request that is not a turn
    | CloseSocket
    | ReportStats
    | Deliver                    // the supervisor takes its next message
    | DrainSlot
    | Exit
    | Respawn

  const Fresh := Slot(0, false, false, [], [Ready], true, 0, {})

  function Send(s: Slot, m: ToSupervisor): Slot {
    s.(up := s.up + [m])
  }

  function Reconciled(s: Slot, m: ToSupervisor): Slot {
    match m
    case Ready => s.(healthy := s.healthy || !s.drained)
    case Load(k) => s.(estimate := k)
    case Draining => s.(healthy := false)
    case Stats => s
  }

  function Apply(s: Slot, ev: Event): Slot {
    match ev
    case HandOff(h) => if !s.alive then s else s.(estimate := s.estimate + 1, down := s.down + [Conn(h)])
    case Receive =>
      if !s.alive || s.down == [] then s else
      var s1 := s.(down := s.down[1..]);
      if s.down[0].Conn? then Send(s1, Load(s.n)) else Send(s1, Draining)
    case StartTurn(t) =>
      if !s.alive || t in s.open then s else Send(s.(n := s.n + 1, open := s.open + {t}), Load(s.n + 1))
    case EndTurn(t) =>
      if !s.alive || t !in s.open || s.n == 0 then s else Send(s.(n := s.n - 1, open := s.open - {t}), Load(s.n - 1))
    case OtherRequest => s
    case CloseSocket => if !s.alive then s else Send(s, Load(s.n))
    case ReportStats => if !s.alive then s else Send(s, Stats)
    case Deliver => if s.up == [] then s else Reconciled(s.(up := s.up[1..]), s.up[0])
    case DrainSlot => if s.drained then s else s.(drained := true, down := if s.alive then s.down + [Drain] else s.down)
    case Exit => if !s.alive then s else s.(alive := false, healthy := false, estimate := 0, down := [], n := 0, open := {})
    case Respawn => if s.alive then s else Fresh
  }

  function Run(s: Slot, events: seq<Event>): Slot {
    if events == [] then s else Apply(Run(s, events[..|events| - 1]), events[|events| - 1])
  }

  function Conns(down: seq<ToWorker>): nat {
    if down == [] then 0 else (if down[0].Conn? then 1 else 0) + Conns(down[1..])
  }

  /** The last count on its way to the supervisor. */
  function LastLoad(up: seq<ToSupervisor>): (k: int)
    ensures k >= -1
  {
    if up == [] then -1
    else if up[|up| - 1].Load? then up[|up| - 1].inFlight
    else LastLoad(up[..|up| - 1])
  }

  /**
    While counts are on their way the last of them is the truth; once none is, the estimate is too
    high by no more than the connections the worker has not seen.
  */
  ghost predicate Inv(s: Slot) {
    && s.n == |s.open|
    && (s.alive ==>
         if LastLoad(s.up) >= 0 then LastLoad(s.up) == s.n
         else s.n <= s.estimate <= s.n + Conns(s.down))
  }

  lemma {:induction false} ConnsAppend(down: seq<ToWorker>, m: ToWorker)
    ensures Conns(down + [m]) == Conns(down) + if m.Conn? then 1 else 0
  {
    if down != [] {
      ConnsAppend(down[1..], m);
      assert (down + [m])[1..] == down[1..] + [m];
    }
  }

  lemma LastLoadAppend(up: seq<ToSupervisor>, m: ToSupervisor)
    ensures LastLoad(up + [m]) == if m.Load? then m.inFlight else LastLoad(up)
  {
    assert (up + [m])[..|up|] == up;
  }

  /** Taking the head leaves the last count alone, unless the head was it. */
  lemma {:induction false} LastLoadTail(up: seq<ToSupervisor>)
    requires up != []
    ensures LastLoad(up) ==
      if LastLoad(up[1..]) >= 0 then LastLoad(up[1..]) else if up[0].Load? then up[0].inFlight else -1
  {
    if |up| == 1 {
      assert up[..0] == [] && up[1..] == [];
    } else {
      LastLoadTail(up[..|up| - 1]);
      assert up[..|up| - 1][1..] == up[1..][..|up| - 2];
      assert up[..|up| - 1][0] == up[0] && up[1..][|up| - 2] == up[|up| - 1];
    }
  }

  lemma StepKeepsInv(s: Slot, ev: Event)
    requires Inv(s)
    ensures Inv(Apply(s, ev))
  {
    hide LastLoad, Reconciled;
    match ev
    case HandOff(h) => ConnsAppend(s.down, Conn(h));
    case Receive =>
      if s.down != [] {
        LastLoadAppend(s.up, if s.down[0].Conn? then Load(s.n) else Draining);
      }
    case StartTurn(t) => LastLoadAppend(s.up, Load(s.n + 1));
    case EndTurn(t) =>
      if s.n > 0 {
        LastLoadAppend(s.up, Load(s.n - 1));
      }
    case CloseSocket => LastLoadAppend(s.up, Load(s.n));
    case ReportStats => LastLoadAppend(s.up, Stats);
    case Deliver =>
      if s.up != [] {
        DeliverKeepsInv(s);
      }
    case DrainSlot => ConnsAppend(s.down, Drain);
    case _ => FreshKeepsInv();
  }

  lemma DeliverKeepsInv(s: Slot)
    requires Inv(s) && s.up != []
    ensures Inv(Reconciled(s.(up := s.up[1..]), s.up[0]))
  {
    LastLoadTail(s.up);
    hide LastLoad, Conns;
  }

  lemma FreshKeepsInv()
    ensures Inv(Fresh)
  {
    assert LastLoad([Ready]) == LastLoad([Ready][..0]);
  }

  // ---------------------------------------------------------------------------
  // The pool

  datatype PoolEvent = At(worker: nat, ev: Event)

  function PoolRun(pool: seq<Slot>, events: seq<PoolEvent>): (pool': seq<Slot>)
    ensures |pool'| == |pool|
  {
    if events == [] then pool else
    var before := PoolRun(pool, events[..|events| - 1]);
    var e := events[|events| - 1];
    if e.worker < |before| then before[e.worker := Apply(before[e.worker], e.ev)] else before
  }

  function NewPool(workers: nat): seq<Slot> {
    seq(workers, i => Fresh)
  }

  lemma {:induction false} ReachableInv(workers: nat, events: seq<PoolEvent>, i: nat)
    requires i < workers
    ensures Inv(PoolRun(NewPool(workers), events)[i])
  {
    if events == [] {
      assert LastLoad([Ready]) == LastLoad([Ready][..0]);
    } else {
      var before := events[..|events| - 1];
      var e := events[|events| - 1];
      ReachableInv(workers, before, i);
      StepKeepsInv(PoolRun(NewPool(workers), before)[i], e.ev);
    }
  }

  lemma {:induction false} NoLoadInQuiet(up: seq<ToSupervisor>)
    requires forall m :: m in up ==> !m.Load?
    ensures LastLoad(up) == -1
  {
    if up != [] {
      NoLoadInQuiet(up[..|up| - 1]);
    }
  }

  lemma {:induction false} NoConnsInQuiet(down: seq<ToWorker>)
    requires forall m :: m in down ==> !m.Conn?
    ensures Conns(down) == 0
  {
    if down != [] {
      NoConnsInQuiet(down[1..]);
    }
  }

  /**
    In every reachable state of a pool of any size, a live worker with no connection and no count on
    its channels is estimated at exactly its number of unfinished turns: requests that are not
    turns, held connections and connections without a descriptor leave no credit behind.
  */
  lemma EstimateConverges(workers: nat, events: seq<PoolEvent>, i: nat)
    requires i < workers
    ensures var s := PoolRun(NewPool(workers), events)[i];
      s.alive && (forall m :: m in s.down ==> !m.Conn?) && (forall m :: m in s.up ==> !m.Load?)
      ==> s.estimate == |s.open|
  {
    ReachableInv(workers, events, i);
    var s := PoolRun(NewPool(workers), events)[i];
    if s.alive && (forall m :: m in s.down ==> !m.Conn?) && (forall m :: m in s.up ==> !m.Load?) {
      NoLoadInQuiet(s.up);
      NoConnsInQuiet(s.down);
    }
  }

  /** Let both channels drain with nothing new happening. */
  function Settle(s: Slot): Slot
    decreases 2 * |s.down| + |s.up|
  {
    if s.alive && s.down != [] then Settle(Apply(s, Receive))
    else if s.up != [] then Settle(Apply(s, Deliver))
    else s
  }

  /** From every reachable state the messages already under way bring the estimate to the truth. */
  lemma {:induction false} SettlingConverges(s: Slot)
    requires Inv(s) && s.alive
    ensures Settle(s).alive && Settle(s).open == s.open && Settle(s).estimate == |s.open|
    decreases 2 * |s.down| + |s.up|
  {
    if s.down != [] {
      StepKeepsInv(s, Receive);
      SettlingConverges(Apply(s, Receive));
    } else if s.up != [] {
      StepKeepsInv(s, Deliver);
      SettlingConverges(Apply(s, Deliver));
    }
  }

  /** Connections handed over before any report comes back are all counted. */
  lemma {:induction false} BurstIsCounted(s: Slot, conns: seq<bool>)
    requires s.alive
    ensures var r := Run(s, Burst(conns));
      r.alive && r.estimate == s.estimate + |conns| && Conns(r.down) == Conns(s.down) + |conns|
  {
    if conns != [] {
      var n := |conns| - 1;
      BurstIsCounted(s, conns[..n]);
      ConnsAppend(Run(s, Burst(conns[..n])).down, Conn(conns[n]));
    }
  }

  function Burst(conns: seq<bool>): seq<Event> {
    if conns == [] then [] else Burst(conns[..|conns| - 1]) + [HandOff(conns[|conns| - 1])]
  }

  /** Whenever a worker takes a connection, starts or ends a turn or loses a socket, it reports its unfinished turns. */
  lemma ReportsTruth(s: Slot, ev: Event)
    requires Inv(s) && s.alive
    requires match ev
      case Receive => s.down != [] && s.down[0].Conn?
      case StartTurn(t) => t !in s.open
      case EndTurn(t) => t in s.open
      case CloseSocket => true
      case _ => false
    ensures Apply(s, ev).up == s.up + [Load(|Apply(s, ev).open|)]
    ensures Apply(s, ev).open == match ev
      case StartTurn(t) => s.open + {t}
      case EndTurn(t) => s.open - {t}
      case _ => s.open
  {
    StepKeepsInv(s, ev);
  }

  /** A turn counts from its start to its end, as far as the supervisor is told. */
  lemma TurnIsCounted(s: Slot, t: TurnId)
    requires Inv(s) && s.alive && t !in s.open
    ensures var during := Settle(Apply(s, StartTurn(t)));
      during.estimate == |s.open| + 1 && Settle(Apply(during, EndTurn(t))).estimate == |s.open|
  {
    hide Settle;
    StepKeepsInv(s, StartTurn(t));
    var started := Apply(s, StartTurn(t));
    SettlingConverges(started);
    SettleKeepsInv(started);
    var during := Settle(started);
    StepKeepsInv(during, EndTurn(t));
    ReportsTruth(during, EndTurn(t));
    SettlingConverges(Apply(during, EndTurn(t)));
    assert s.open + {t} - {t} == s.open;
  }

  lemma {:induction false} SettleKeepsInv(s: Slot)
    requires Inv(s)
    ensures Inv(Settle(s))
    decreases 2 * |s.down| + |s.up|
  {
    hide Inv;
    if s.alive && s.down != [] {
      StepKeepsInv(s, Receive);
      SettleKeepsInv(Apply(s, Receive));
    } else if s.up != [] {
      StepKeepsInv(s, Deliver);
      SettleKeepsInv(Apply(s, Deliver));
    }
  }

  /** The word to drain is on its way, or its answer is, or it has been heard. */
  predicate LeavingOrLeft(s: Slot) {
    s.drained && (!s.healthy || (s.alive && Drain in s.down) || Draining in s.up)
  }

  lemma {:induction false} LeavingSettles(s: Slot)
    requires LeavingOrLeft(s)
    ensures Settle(s).drained && !Settle(s).healthy
    decreases 2 * |s.down| + |s.up|
  {
    if s.alive && s.down != [] {
      assert s.down == [s.down[0]] + s.down[1..];
      LeavingSettles(Apply(s, Receive));
    } else if s.up != [] {
      assert s.up == [s.up[0]] + s.up[1..];
      LeavingSettles(Apply(s, Deliver));
    }
  }

  /** Once the messages under way are taken, a live worker that is drained is not routed to, and stays out. */
  lemma DrainTakesOut(s: Slot, events: seq<Event>)
    requires s.alive && !s.drained && Respawn !in events
    ensures var r := Settle(Apply(s, DrainSlot)); r.drained && !r.healthy && Run(r, events).drained && !Run(r, events).healthy
  {
    var d := Apply(s, DrainSlot);
    assert d.down[|s.down|] == Drain;
    LeavingSettles(d);
    DrainedStaysOut(Settle(d), events);
  }

  /** Whatever it still sends, a drained worker is not routed to again. */
  lemma {:induction false} DrainedStaysOut(s: Slot, events: seq<Event>)
    requires s.drained && !s.healthy && Respawn !in events
    ensures Run(s, events).drained && !Run(s, events).healthy
  {
    if events != [] {
      DrainedStaysOut(s, events[..|events| - 1]);
    }
  }

  // ---------------------------------------------------------------------------
  // Dead workers

  /** What a dead slot's estimate comes to: the last count that was under way, if there is one. */
  lemma {:induction false} DeadSettles(s: Slot)
    requires !s.alive
    ensures !Settle(s).alive && Settle(s).up == []
    ensures Settle(s).estimate == if LastLoad(s.up) >= 0 then LastLoad(s.up) else s.estimate
    decreases |s.up|
  {
    if s.up != [] {
      LastLoadTail(s.up);
      DeadSettles(Apply(s, Deliver));
    }
  }

  /**
    In every reachable pool, a worker that exits is no longer waited on, once the messages it had
    sent are taken, if and only if none of them is a count or it had no unfinished turn.
  */
  lemma DeadEstimateIff(workers: nat, events: seq<PoolEvent>, i: nat)
    requires i < workers && PoolRun(NewPool(workers), events)[i].alive
    ensures var s := PoolRun(NewPool(workers), events)[i];
      Settle(Apply(s, Exit)).estimate == 0 <==> s.open == {} || forall m :: m in s.up ==> !m.Load?
  {
    ReachableInv(workers, events, i);
    var s := PoolRun(NewPool(workers), events)[i];
    DeadSettles(Apply(s, Exit));
    if forall m :: m in s.up ==> !m.Load? {
      NoLoadInQuiet(s.up);
    } else {
      SomeLoad(s.up);
    }
  }

  lemma {:induction false} SomeLoad(up: seq<ToSupervisor>)
    requires exists m :: m in up && m.Load?
    ensures LastLoad(up) >= 0
  {
    var last := up[|up| - 1];
    if !last.Load? {
      assert up == up[..|up| - 1] + [last];
      SomeLoad(up[..|up| - 1]);
    }
  }

  /** The last word on a worker's health that is on its way. */
  function LastWord(up: seq<ToSupervisor>): ToSupervisor {
    if up == [] then Stats
    else if up[|up| - 1].Ready? || up[|up| - 1].Draining? then up[|up| - 1]
    else LastWord(up[..|up| - 1])
  }

  lemma {:induction false} LastWordTail(up: seq<ToSupervisor>)
    requires up != []
    ensures LastWord(up) ==
      if LastWord(up[1..]) != Stats then LastWord(up[1..]) else if up[0].Ready? || up[0].Draining? then up[0] else Stats
  {
    if |up| == 1 {
      assert up[..0] == [] && up[1..] == [];
    } else {
      LastWordTail(up[..|up| - 1]);
      assert up[..|up| - 1][1..] == up[1..][..|up| - 2];
      assert up[..|up| - 1][0] == up[0] && up[1..][|up| - 2] == up[|up| - 1];
    }
  }

  lemma {:induction false} DeadHealth(s: Slot)
    requires !s.alive && (s.drained ==> !s.healthy)
    ensures Settle(s).healthy <==> !s.drained && (LastWord(s.up).Ready? || (LastWord(s.up) == Stats && s.healthy))
    decreases |s.up|
  {
    if s.up != [] {
      LastWordTail(s.up);
      DeadHealth(Apply(s, Deliver));
    }
  }

  /**
    A worker that exits is listed as healthy again, once the messages it had sent are taken, if and
    only if its slot was not drained and its last word on its way was that it is ready.
  */
  lemma DeadIsListedIff(s: Slot)
    requires s.alive
    ensures Settle(Apply(s, Exit)).healthy <==> !s.drained && LastWord(s.up).Ready?
  {
    DeadHealth(Apply(s, Exit));
  }

  /** A worker that exits before its readiness is taken is such a one. */
  lemma EarlyExitIsListed()
    ensures var s := Settle(Apply(Fresh, Exit)); !s.alive && s.healthy && s.up == []
  {
    assert LastWord([Ready]) == Ready;
    DeadIsListedIff(Fresh);
    DeadSettles(Apply(Fresh, Exit));
  }

  /**
    A run with such a count: delivered after its worker's exit it is believed, and the dead slot
    reads as busy with both channels empty, until a respawn replaces it.
  */
  lemma LateCountOnDeadWorker()
    ensures var s := Run(Fresh, [StartTurn(0), Exit, Deliver, Deliver]);
      !s.alive && s.down == [] && s.up == [] && s.open == {} && s.estimate == 1 && Apply(s, Respawn).estimate == 0
  {
    var e := [StartTurn(0), Exit, Deliver, Deliver];
    assert e[..3] == [StartTurn(0), Exit, Deliver];
    assert e[..3][..2] == [StartTurn(0), Exit];
    assert e[..3][..2][..1] == [StartTurn(0)] && e[..3][..2][..1][..0] == [];
    var s1 := Apply(Fresh, StartTurn(0));
    assert s1.up == [Ready, Load(1)];
    var s2 := Apply(s1, Exit);
    var s3 := Apply(s2, Deliver);
    assert s3.up == [Load(1)];
    assert Run(Fresh, e[..3][..2][..1]) == s1;
    assert Run(Fresh, e[..3][..2]) == s2;
    assert Run(Fresh, e[..3]) == s3;
  }
}
