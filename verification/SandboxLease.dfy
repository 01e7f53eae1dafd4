/** How many leases a sandbox takes, how long one lasts and how often it is renewed, from three settings. */
module LeaseTimings {
  import opened Prelude

  datatype Timings = Timings(cap: nat, ttl: nat, heartbeat: nat)

  /** An integer knob with a floor; `None` is a variable that is unset, blank or not a finite number. */
  function IntEnv(raw: Option<real>, def: nat, min: nat): nat
    requires def >= min
  {
    if raw.Some? && raw.value >= min as real then raw.value.Floor else def
  }

  function Max(a: int, b: int): int { if a >= b then a else b }

  function Min(a: int, b: int): int { if a <= b then a else b }

  function Read(cap: Option<real>, ttl: Option<real>, heartbeat: Option<real>): Timings {
    var ttlMs := IntEnv(ttl, 60000, 1000);
    var requested := IntEnv(heartbeat, 20000, 1);
    Timings(IntEnv(cap, 20, 1), ttlMs, Max(1, Min(requested, ttlMs / 3)))
  }

  /** A knob at or above its floor is taken, rounded down; any other is its default. */
  lemma IntEnvFloor(raw: Option<real>, def: nat, min: nat)
    requires def >= min
    ensures var n := IntEnv(raw, def, min);
      && n >= min
      && (if raw.Some? && raw.value >= min as real then n as real <= raw.value < n as real + 1.0 else n == def)
  {
  }

  /**
    Whatever the knobs say, at least one holder fits, the renewal interval is positive, and the two
    renewals after any renewal fall strictly before its expiry. A requested interval is kept as it
    is exactly when three of them fit in a TTL, and is cut to a third of the TTL otherwise.
  */
  lemma TwoRenewalsFit(cap: Option<real>, ttl: Option<real>, heartbeat: Option<real>)
    ensures var t := Read(cap, ttl, heartbeat);
      t.cap >= 1 && t.ttl >= 1000 && t.heartbeat >= 1 && 2 * t.heartbeat < t.ttl
    ensures var t := Read(cap, ttl, heartbeat);
      t.heartbeat == IntEnv(heartbeat, 20000, 1) <==> 3 * IntEnv(heartbeat, 20000, 1) <= t.ttl
    ensures var t := Read(cap, ttl, heartbeat);
      t.heartbeat == IntEnv(heartbeat, 20000, 1) || 3 * t.heartbeat <= t.ttl < 3 * t.heartbeat + 3
    ensures var t := Read(cap, ttl, heartbeat);
      && (cap.Some? && cap.value >= 1.0 ==> t.cap as real <= cap.value < t.cap as real + 1.0)
      && (ttl.Some? && ttl.value >= 1000.0 ==> t.ttl as real <= ttl.value < t.ttl as real + 1.0)
      && (cap.None? || cap.value < 1.0 ==> t.cap == 20) && (ttl.None? || ttl.value < 1000.0 ==> t.ttl == 60000)
    ensures Read(None, None, None) == Timings(20, 60000, 20000)
  {
    IntEnvFloor(cap, 20, 1);
    IntEnvFloor(ttl, 60000, 1000);
    IntEnvFloor(heartbeat, 20000, 1);
  }
}

/**
  The sandbox lease protocol: one sorted set of holder to expiry per pod, a moving clock, and
  holders that renew on an interval, may lose renewals, may die, and may send a late renewal.
*/
module SandboxLease {
  import opened Prelude
  import LeaseTimings

  type Holder = nat
  type Pod = string
  type Leases = map<Holder, int>

  /** Drop every member whose expiry is not in the future. */
  function Sweep(ls: Leases, now: int): Leases {
    map h | h in ls && ls[h] > now :: ls[h]
  }

  predicate HasRoom(ls: Leases, now: int, cap: nat) {
    |Sweep(ls, now)| < cap
  }

  /** The atomic acquire: sweep, then add the holder if the set is under the cap. */
  function Acquired(ls: Leases, now: int, cap: nat, h: Holder, ttl: nat): Leases {
    if HasRoom(ls, now, cap) then Sweep(ls, now)[h := now + ttl] else Sweep(ls, now)
  }

  function Renewed(ls: Leases, now: int, h: Holder, ttl: nat): Leases {
    ls[h := now + ttl]
  }

  function Released(ls: Leases, h: Holder): Leases {
    ls - {h}
  }

  // ---------------------------------------------------------------------------
  // Running holders never exceed the cap

  /**
    `losses` consecutive renewals of one holder may be lost; `gap` is the longest time a holder
    runs between its acquire and the arming of its renewal timer.
  */
  datatype Params = Params(cap: nat, ttl: nat, heartbeat: nat, gap: nat, losses: nat)

  /** A running holder: `base` is its acquire until armed, then its last renewal attempt. */
  datatype Holding = Holding(base: int, armed: bool, missed: nat)

  datatype World = World(now: int, leases: Leases, running: map<Holder, Holding>)

  const Init := World(0, map[], map[])

  datatype Event =
    | Tick(ms: nat)
    | TryAcquire(h: Holder)
    | Arm(h: Holder)
    | Renew(h: Holder)
    | LoseRenewal(h: Holder)
    | Release(h: Holder)
    | Die(h: Holder)
    | LateRenew(h: Holder)

  function Deadline(p: Params, x: Holding): int {
    x.base + if x.armed then p.heartbeat else p.gap
  }

  predicate Enabled(p: Params, w: World, ev: Event) {
    match ev
    case Tick(ms) => forall h :: h in w.running ==> w.now + ms <= Deadline(p, w.running[h])
    case TryAcquire(h) => h !in w.running
    case Arm(h) => h in w.running && !w.running[h].armed
    case Renew(h) => h in w.running && w.running[h].armed
    case LoseRenewal(h) => h in w.running && w.running[h].armed && w.running[h].missed < p.losses
    case Release(h) => h in w.running
    case Die(h) => h in w.running
    case LateRenew(h) => h !in w.running
  }

  function Apply(p: Params, w: World, ev: Event): World {
    if !Enabled(p, w, ev) then w else
    match ev
    case Tick(ms) => w.(now := w.now + ms)
    case TryAcquire(h) =>
      World(w.now, Acquired(w.leases, w.now, p.cap, h, p.ttl),
            if HasRoom(w.leases, w.now, p.cap) then w.running[h := Holding(w.now, false, 0)] else w.running)
    case Arm(h) => w.(running := w.running[h := Holding(w.now, true, 0)])
    case Renew(h) =>
      w.(leases := Renewed(w.leases, w.now, h, p.ttl), running := w.running[h := Holding(w.now, true, 0)])
    case LoseRenewal(h) => w.(running := w.running[h := Holding(w.now, true, w.running[h].missed + 1)])
    case Release(h) => w.(leases := Released(w.leases, h), running := w.running - {h})
    case Die(h) => w.(running := w.running - {h})
    case LateRenew(h) => w.(leases := Renewed(w.leases, w.now, h, p.ttl))
  }

  function Run(p: Params, w: World, events: seq<Event>): World {
    if events == [] then w else Apply(p, Run(p, w, events[..|events| - 1]), events[|events| - 1])
  }

  /** Every running holder's lease is present and unexpired, and there are at most `cap` of them. */
  ghost predicate Safe(p: Params, w: World) {
    && (forall h :: h in w.running ==> h in w.leases && w.leases[h] > w.now)
    && |w.running| <= p.cap
  }

  ghost predicate CapHolds(p: Params) {
    forall events: seq<Event> :: Safe(p, Run(p, Init, events))
  }

  predicate Fits(p: Params) {
    p.gap + (p.losses + 1) * p.heartbeat < p.ttl
  }

  ghost predicate HoldingInv(p: Params, w: World, h: Holder)
    requires h in w.running
  {
    var x := w.running[h];
    && h in w.leases
    && x.base <= w.now <= Deadline(p, x)
    && x.missed <= p.losses
    && var renewed := w.leases[h] - p.ttl;
       if x.armed then x.base <= renewed + p.gap + x.missed * p.heartbeat else x.base == renewed
  }

  ghost predicate Inv(p: Params, w: World) {
    && (forall h :: h in w.running ==> HoldingInv(p, w, h))
    && (forall h :: h in w.leases ==> w.leases[h] <= w.now + p.ttl)
    && |w.running| <= p.cap
  }

  lemma MulLe(a: nat, b: nat, c: nat)
    requires a <= b
    ensures a * c <= b * c
  {
  }

  lemma HoldingIsLive(p: Params, w: World, h: Holder)
    requires Fits(p) && h in w.running && HoldingInv(p, w, h)
    ensures w.leases[h] > w.now
  {
    var x := w.running[h];
    MulLe(x.missed + 1, p.losses + 1, p.heartbeat);
    MulLe(1, p.losses + 1, p.heartbeat);
    assert (x.missed + 1) * p.heartbeat == x.missed * p.heartbeat + p.heartbeat;
  }

  lemma AcquireKeepsInv(p: Params, w: World, h: Holder)
    requires Fits(p) && Inv(p, w) && h !in w.running
    ensures Inv(p, Apply(p, w, TryAcquire(h)))
  {
    var w' := Apply(p, w, TryAcquire(h));
    var swept := Sweep(w.leases, w.now);
    forall k | k in w.running ensures k in swept && HoldingInv(p, w', k) {
      assert HoldingInv(p, w, k);
      HoldingIsLive(p, w, k);
    }
    SubsetCard(w.running.Keys, swept.Keys);
    assert |swept.Keys| == |swept|;
    if HasRoom(w.leases, w.now, p.cap) {
      assert w'.running.Keys == w.running.Keys + {h};
      assert HoldingInv(p, w', h);
    }
  }

  lemma MissOne(p: Params, w: World, w': World, h: Holder)
    requires h in w.running && HoldingInv(p, w, h) && w.running[h].armed && w.running[h].missed < p.losses
    requires w'.leases == w.leases && w'.now == w.now && w'.running == w.running[h := Holding(w.now, true, w.running[h].missed + 1)]
    ensures HoldingInv(p, w', h)
  {
    var x := w.running[h];
    assert (x.missed + 1) * p.heartbeat == x.missed * p.heartbeat + p.heartbeat;
  }

  lemma LossKeepsInv(p: Params, w: World, h: Holder)
    requires Fits(p) && Inv(p, w) && Enabled(p, w, LoseRenewal(h))
    ensures Inv(p, Apply(p, w, LoseRenewal(h)))
  {
    var w' := Apply(p, w, LoseRenewal(h));
    assert w'.running.Keys == w.running.Keys;
    assert w'.leases == w.leases && w'.now == w.now && w'.running == w.running[h := Holding(w.now, true, w.running[h].missed + 1)];
    hide Apply;
    assert HoldingInv(p, w', h) by {
      MissOne(p, w, w', h);
    }
    forall k | k in w'.running && k != h ensures HoldingInv(p, w', k) {
      assert HoldingInv(p, w, k);
      assert w'.running[k] == w.running[k];
    }
  }

  lemma StepKeepsInv(p: Params, w: World, ev: Event)
    requires Fits(p) && Inv(p, w)
    ensures Inv(p, Apply(p, w, ev))
  {
    if Enabled(p, w, ev) {
      var w' := Apply(p, w, ev);
      match ev
      case TryAcquire(h) => AcquireKeepsInv(p, w, h);
      case LoseRenewal(h) => LossKeepsInv(p, w, h);
      case Arm(h) => AnchorKeepsInv(p, w, h, w.leases);
      case Renew(h) => AnchorKeepsInv(p, w, h, Renewed(w.leases, w.now, h, p.ttl));
      case _ =>
        SubsetCard(w'.running.Keys, w.running.Keys);
        forall k | k in w'.running ensures HoldingInv(p, w', k) {
          assert HoldingInv(p, w, k);
        }
    }
  }

  /** Arming the timer and renewing both restart the wait for the next renewal. */
  lemma AnchorKeepsInv(p: Params, w: World, h: Holder, leases: Leases)
    requires Inv(p, w) && h in w.running
    requires leases == Renewed(w.leases, w.now, h, p.ttl) || (leases == w.leases && !w.running[h].armed)
    ensures Inv(p, w.(leases := leases, running := w.running[h := Holding(w.now, true, 0)]))
  {
    var w' := w.(leases := leases, running := w.running[h := Holding(w.now, true, 0)]);
    assert w'.running.Keys == w.running.Keys;
    assert HoldingInv(p, w, h);
    forall k | k in w'.running ensures HoldingInv(p, w', k) {
      assert HoldingInv(p, w, k);
    }
  }

  lemma {:induction false} ReachableInv(p: Params, events: seq<Event>)
    requires Fits(p)
    ensures Inv(p, Run(p, Init, events))
  {
    if events != [] {
      ReachableInv(p, events[..|events| - 1]);
      StepKeepsInv(p, Run(p, Init, events[..|events| - 1]), events[|events| - 1]);
    }
  }

  lemma FitsKeepsCap(p: Params)
    requires Fits(p)
    ensures CapHolds(p)
  {
    forall events: seq<Event> ensures Safe(p, Run(p, Init, events)) {
      ReachableInv(p, events);
      var w := Run(p, Init, events);
      forall h | h in w.running ensures h in w.leases && w.leases[h] > w.now {
        assert HoldingInv(p, w, h);
        HoldingIsLive(p, w, h);
      }
    }
  }

  /** One holder acquires, waits out its gap, arms, and then loses `n` renewals on the deadline. */
  function Stalled(p: Params, n: nat): seq<Event> {
    if n == 0 then [TryAcquire(0), Tick(p.gap), Arm(0)]
    else Stalled(p, n - 1) + [Tick(p.heartbeat), LoseRenewal(0)]
  }

  /** One holder acquires, arms at once, and renews on every beat. */
  function Steady(p: Params, n: nat): seq<Event> {
    if n == 0 then [] + [TryAcquire(0)] + [Arm(0)] else Steady(p, n - 1) + [Tick(p.heartbeat)] + [Renew(0)]
  }

  /** A holder that renews on every beat keeps its lease for as long as it likes, a full TTL ahead. */
  lemma {:induction false} RenewingKeepsLease(p: Params, n: nat)
    requires p.cap >= 1
    ensures Run(p, Init, Steady(p, n)) ==
      World(n * p.heartbeat, map[0 := n * p.heartbeat + p.ttl], map[0 := Holding(n * p.heartbeat, true, 0)])
  {
    hide Run, Apply;
    if n == 0 {
      RunAppend(p, Init, [], TryAcquire(0));
      RunAppend(p, Init, [] + [TryAcquire(0)], Arm(0));
      FirstHolder(p);
    } else {
      RenewingKeepsLease(p, n - 1);
      var e := Steady(p, n - 1);
      RunAppend(p, Init, e, Tick(p.heartbeat));
      RunAppend(p, Init, e + [Tick(p.heartbeat)], Renew(0));
      assert (n - 1) * p.heartbeat + p.heartbeat == n * p.heartbeat;
      Beat(p, (n - 1) * p.heartbeat);
    }
  }

  lemma FirstHolder(p: Params)
    requires p.cap >= 1
    ensures Run(p, Init, []) == Init
    ensures Apply(p, Apply(p, Init, TryAcquire(0)), Arm(0)) == World(0, map[0 := p.ttl], map[0 := Holding(0, true, 0)])
  {
    assert Sweep(map[], 0) == map[];
  }

  lemma Beat(p: Params, at: nat)
    ensures var next := at + p.heartbeat;
      Apply(p, Apply(p, World(at, map[0 := at + p.ttl], map[0 := Holding(at, true, 0)]), Tick(p.heartbeat)), Renew(0)) ==
      World(next, map[0 := next + p.ttl], map[0 := Holding(next, true, 0)])
  {
  }

  /** In every run of a pod that is not over its cap, a slot given back can be taken at once. */
  lemma ReleaseFreesSlot(p: Params, events: seq<Event>, h: Holder, other: Holder)
    requires Fits(p) && var w := Run(p, Init, events); h in w.running && other !in w.running && |Sweep(w.leases, w.now)| <= p.cap
    ensures var w := Apply(p, Run(p, Init, events), Release(h));
      h !in w.leases && h !in w.running && other in Apply(p, w, TryAcquire(other)).running
  {
    ReachableInv(p, events);
    var w := Run(p, Init, events);
    assert HoldingInv(p, w, h);
    HoldingIsLive(p, w, h);
    var swept := Sweep(w.leases, w.now);
    assert Sweep(w.leases - {h}, w.now) == swept - {h};
    assert (swept - {h}).Keys == swept.Keys - {h};
    assert |swept - {h}| == |(swept - {h}).Keys| && |swept| == |swept.Keys|;
  }

  lemma RunAppend(p: Params, w: World, events: seq<Event>, ev: Event)
    ensures Run(p, w, events + [ev]) == Apply(p, Run(p, w, events), ev)
  {
    assert (events + [ev])[..|events|] == events;
  }

  lemma {:induction false} StalledState(p: Params, n: nat)
    requires p.cap >= 1 && n <= p.losses
    ensures Run(p, Init, Stalled(p, n)) ==
      World(p.gap + n * p.heartbeat, map[0 := p.ttl], map[0 := Holding(p.gap + n * p.heartbeat, true, n)])
  {
    hide Run, Apply;
    if n == 0 {
      ArmedState(p);
    } else {
      StalledState(p, n - 1);
      var e := Stalled(p, n - 1);
      RunAppend(p, Init, e, Tick(p.heartbeat));
      RunAppend(p, Init, e + [Tick(p.heartbeat)], LoseRenewal(0));
      assert e + [Tick(p.heartbeat)] + [LoseRenewal(0)] == Stalled(p, n);
      assert (n - 1) * p.heartbeat + p.heartbeat == n * p.heartbeat;
      LoseOne(p, p.gap + (n - 1) * p.heartbeat, n - 1);
    }
  }

  lemma ArmedState(p: Params)
    requires p.cap >= 1
    ensures Run(p, Init, [TryAcquire(0), Tick(p.gap), Arm(0)]) == World(p.gap, map[0 := p.ttl], map[0 := Holding(p.gap, true, 0)])
  {
    var e := [TryAcquire(0)];
    assert [] + [TryAcquire(0)] == e;
    RunAppend(p, Init, [], TryAcquire(0));
    assert Sweep(map[], 0) == map[];
    assert Run(p, Init, e) == World(0, map[0 := p.ttl], map[0 := Holding(0, false, 0)]);
    RunAppend(p, Init, e, Tick(p.gap));
    RunAppend(p, Init, e + [Tick(p.gap)], Arm(0));
    assert e + [Tick(p.gap)] + [Arm(0)] == [TryAcquire(0), Tick(p.gap), Arm(0)];
  }

  lemma LoseOne(p: Params, t: int, n: nat)
    requires n < p.losses
    ensures var w := World(t, map[0 := p.ttl], map[0 := Holding(t, true, n)]);
      Apply(p, Apply(p, w, Tick(p.heartbeat)), LoseRenewal(0)) ==
      World(t + p.heartbeat, map[0 := p.ttl], map[0 := Holding(t + p.heartbeat, true, n + 1)])
  {
  }

  /** The holders 1 to `n`. */
  function Holders(n: nat): (hs: set<Holder>)
    ensures |hs| == n && forall h :: h in hs ==> 1 <= h <= n
  {
    if n == 0 then {} else Holders(n - 1) + {n}
  }

  function Joiners(n: nat): seq<Event> {
    if n == 0 then [] else Joiners(n - 1) + [TryAcquire(n)]
  }

  lemma AcquireAdds(ls: Leases, now: int, cap: nat, h: Holder, ttl: nat)
    requires |Sweep(ls, now).Keys| < cap && ttl >= 1
    ensures HasRoom(ls, now, cap) && Sweep(Acquired(ls, now, cap, h, ttl), now).Keys == Sweep(ls, now).Keys + {h}
  {
    assert |Sweep(ls, now)| == |Sweep(ls, now).Keys|;
  }

  lemma Join(p: Params, w: World, inside: set<Holder>, h: Holder)
    requires |inside| < p.cap && p.ttl >= 1 && h !in inside + {0}
    requires w.running.Keys == inside + {0} && Sweep(w.leases, w.now).Keys == inside
    ensures var w' := Apply(p, w, TryAcquire(h));
      && w'.now == w.now
      && w'.running.Keys == inside + {0} + {h}
      && Sweep(w'.leases, w'.now).Keys == inside + {h}
  {
    AcquireAdds(w.leases, w.now, p.cap, h, p.ttl);
  }

  lemma AllSwept(ls: Leases, now: int)
    requires forall h :: h in ls ==> ls[h] <= now
    ensures Sweep(ls, now).Keys == {}
  {
  }

  lemma NoJoiners()
    ensures Joiners(0) == [] && Holders(0) == {}
  {
  }

  lemma JoinersStep(n: nat)
    requires n > 0
    ensures Joiners(n) == Joiners(n - 1) + [TryAcquire(n)] && Holders(n) == Holders(n - 1) + {n}
  {
  }

  /** From an expired holder's state, `n` newcomers all get in. */
  lemma {:induction false} JoinersState(p: Params, w: World, n: nat)
    requires n <= p.cap && p.ttl >= 1
    requires w.leases.Keys == {0} && w.leases[0] <= w.now && w.running.Keys == {0}
    ensures var w' := Run(p, w, Joiners(n));
      && w'.now == w.now
      && w'.running.Keys == Holders(n) + {0}
      && Sweep(w'.leases, w'.now).Keys == Holders(n)
  {
    hide Sweep, Apply, Holders, Joiners;
    if n == 0 {
      NoJoiners();
      AllSwept(w.leases, w.now);
    } else {
      JoinersState(p, w, n - 1);
      JoinersStep(n);
      RunAppend(p, w, Joiners(n - 1), TryAcquire(n));
      Join(p, Run(p, w, Joiners(n - 1)), Holders(n - 1), n);
    }
  }

  lemma {:induction false} RunConcat(p: Params, w: World, a: seq<Event>, b: seq<Event>)
    ensures Run(p, w, a + b) == Run(p, Run(p, w, a), b)
  {
    if b == [] {
      assert a + b == a;
    } else {
      RunConcat(p, w, a, b[..|b| - 1]);
      assert (a + b)[..|a + b| - 1] == a + b[..|b| - 1];
    }
  }

  /** Too tight a timing is always exploitable: the stalled holder outlives its lease and `cap` more join. */
  lemma TightTimingBreaksCap(p: Params)
    requires p.cap >= 1 && p.ttl >= 1 && !Fits(p)
    ensures !CapHolds(p)
  {
    var e := Stalled(p, p.losses) + [Tick(p.heartbeat)];
    var w := Run(p, Init, e);
    Outlived(p);
    hide Run, Sweep, Stalled;
    JoinersState(p, w, p.cap);
    RunConcat(p, Init, e, Joiners(p.cap));
    var w' := Run(p, Init, e + Joiners(p.cap));
    assert |w'.running.Keys| == p.cap + 1;
    assert |w'.running| == |w'.running.Keys|;
    assert !Safe(p, w');
  }

  /** The stalled holder still runs when its lease is over. */
  lemma Outlived(p: Params)
    requires p.cap >= 1 && !Fits(p)
    ensures var w := Run(p, Init, Stalled(p, p.losses) + [Tick(p.heartbeat)]);
      w.leases.Keys == {0} && w.leases[0] <= w.now && w.running.Keys == {0}
  {
    StalledState(p, p.losses);
    RunAppend(p, Init, Stalled(p, p.losses), Tick(p.heartbeat));
    hide Run, Stalled;
    var w := Apply(p, Run(p, Init, Stalled(p, p.losses)), Tick(p.heartbeat));
    assert w.now == p.gap + (p.losses + 1) * p.heartbeat;
  }

  /**
    The cap on running holders holds in every run exactly when the unarmed gap plus one more renewal
    interval than may be lost in a row is shorter than the TTL.
  */
  lemma CapHoldsIff(p: Params)
    requires p.cap >= 1 && p.ttl >= 1
    ensures CapHolds(p) <==> Fits(p)
  {
    if Fits(p) {
      FitsKeepsCap(p);
    } else {
      TightTimingBreaksCap(p);
    }
  }

  /**
    For all knob values the protocol is safe when the timer is armed at once and no two consecutive
    renewals are lost.
  */
  lemma KnobsKeepCap(cap: Option<real>, ttl: Option<real>, heartbeat: Option<real>)
    ensures var t := LeaseTimings.Read(cap, ttl, heartbeat); CapHolds(Params(t.cap, t.ttl, t.heartbeat, 0, 1))
  {
    LeaseTimings.TwoRenewalsFit(cap, ttl, heartbeat);
    var t := LeaseTimings.Read(cap, ttl, heartbeat);
    CapHoldsIff(Params(t.cap, t.ttl, t.heartbeat, 0, 1));
  }

  /**
    Three limits of the default timings: two consecutive losses already break the cap, since the
    third attempt falls on the expiry itself; so does a leaf that converges its workspace for the
    whole of its 300 s before it arms the timer; and so did a 15 s TTL with the default interval.
  */
  lemma DefaultsBreakCap()
    ensures !CapHolds(Params(20, 60000, 20000, 0, 2))
    ensures !CapHolds(Params(20, 60000, 20000, 300000, 0))
    ensures !CapHolds(Params(20, 15000, 20000, 0, 0))
  {
    CapHoldsIff(Params(20, 60000, 20000, 0, 2));
    CapHoldsIff(Params(20, 60000, 20000, 300000, 0));
    CapHoldsIff(Params(20, 15000, 20000, 0, 0));
  }

  /** A dead holder's slot, and a late renewal's ghost member, are gone one TTL later. */
  lemma DeadLeaseIsReclaimed(p: Params, events: seq<Event>, later: int)
    requires later >= Run(p, Init, events).now + p.ttl
    ensures Sweep(Run(p, Init, events).leases, later) == map[]
  {
    LeasesEnd(p, events);
  }

  /** Whatever the timing, no lease reaches further than one TTL ahead. */
  lemma {:induction false} LeasesEnd(p: Params, events: seq<Event>)
    ensures AllEnd(p, Run(p, Init, events))
  {
    if events != [] {
      LeasesEnd(p, events[..|events| - 1]);
      StepKeepsEnds(p, Run(p, Init, events[..|events| - 1]), events[|events| - 1]);
    }
  }

  predicate AllEnd(p: Params, w: World) {
    forall h :: h in w.leases ==> w.leases[h] <= w.now + p.ttl
  }

  lemma StepKeepsEnds(p: Params, w: World, ev: Event)
    requires AllEnd(p, w)
    ensures AllEnd(p, Apply(p, w, ev))
  {
    if Enabled(p, w, ev) {
      var w' := Apply(p, w, ev);
      forall h | h in w'.leases ensures w'.leases[h] <= w'.now + p.ttl {
        assert h in w.leases || w'.leases[h] == w.now + p.ttl;
      }
    }
  }
}

/** The lease store over all pods, and the choice of a sandbox from a pool. */
module SandboxPool {
  import opened Prelude
  import opened SandboxLease

  class LeaseStore {
    var sets: map<Pod, Leases>

    function Of(pod: Pod): Leases
      reads this
    {
      At(sets, pod)
    }

    twostate predicate OthersKept(pod: Pod)
      reads this
    {
      forall q :: q != pod ==> Of(q) == old(Of(q))
    }

    method Load(pod: Pod, now: int) returns (n: nat)
      modifies this
      ensures Of(pod) == Sweep(old(Of(pod)), now) && OthersKept(pod)
      ensures n == |Of(pod)|
    {
      sets := sets[pod := Sweep(Of(pod), now)];
      n := |sets[pod]|;
    }

    method Acquire(pod: Pod, cap: nat, h: Holder, ttl: nat, now: int) returns (ok: bool)
      modifies this
      ensures ok <==> HasRoom(old(Of(pod)), now, cap)
      ensures Of(pod) == Acquired(old(Of(pod)), now, cap, h, ttl) && OthersKept(pod)
    {
      sets := sets[pod := Sweep(Of(pod), now)];
      ok := |sets[pod]| < cap;
      if ok {
        var leases: Leases := sets[pod];
        leases := leases[h := now + ttl];
        sets := sets[pod := leases];
      }
    }

    method Heartbeat(pod: Pod, h: Holder, ttl: nat, now: int)
      modifies this
      ensures Of(pod) == Renewed(old(Of(pod)), now, h, ttl) && OthersKept(pod)
    {
      var leases := Of(pod);
      leases := leases[h := now + ttl];
      sets := sets[pod := leases];
    }

    method Release(pod: Pod, h: Holder)
      modifies this
      ensures Of(pod) == Released(old(Of(pod)), h) && OthersKept(pod)
    {
      sets := sets[pod := Of(pod) - {h}];
    }
  }

  /** A candidate with the load it reported and its place in the listing. */
  datatype Candidate = Candidate(pod: Pod, active: nat, i: nat)

  predicate Before(a: Candidate, b: Candidate) {
    a.active < b.active || (a.active == b.active && a.i < b.i)
  }

  function Insert(cs: seq<Candidate>, c: Candidate): seq<Candidate> {
    if cs == [] then [c]
    else if Before(c, cs[0]) then [c] + cs
    else [cs[0]] + Insert(cs[1..], c)
  }

  /** Least loaded first, ties in listing order. */
  function OrderByLoad(pods: seq<Pod>, loads: seq<nat>): seq<Candidate>
    requires |pods| == |loads|
  {
    if pods == [] then [] else
    var n := |pods| - 1;
    Insert(OrderByLoad(pods[..n], loads[..n]), Candidate(pods[n], loads[n], n))
  }

  ghost predicate Ordered(cs: seq<Candidate>) {
    forall j, k :: 0 <= j < k < |cs| ==> Before(cs[j], cs[k])
  }

  lemma Prepend(c: Candidate, cs: seq<Candidate>)
    requires Ordered(cs) && (cs != [] ==> Before(c, cs[0]))
    ensures Ordered([c] + cs)
  {
    var all := [c] + cs;
    forall j, k | 0 <= j < k < |all| ensures Before(all[j], all[k]) {
      assert j == 0 && k > 1 ==> Before(cs[0], cs[k - 1]);
    }
  }

  lemma {:induction false} InsertOrdered(cs: seq<Candidate>, c: Candidate)
    requires Ordered(cs) && forall d :: d in cs ==> d.i < c.i
    ensures Ordered(Insert(cs, c)) && multiset(Insert(cs, c)) == multiset(cs) + multiset{c}
  {
    if cs == [] {
    } else if Before(c, cs[0]) {
      Prepend(c, cs);
    } else {
      assert cs == [cs[0]] + cs[1..];
      InsertOrdered(cs[1..], c);
      var rest := Insert(cs[1..], c);
      forall d | d in rest ensures Before(cs[0], d) {
        assert d in multiset(rest);
      }
      Prepend(cs[0], rest);
    }
  }

  /** The order is the listing, rearranged so that load, then listing order, strictly increases. */
  lemma {:induction false} OrderByLoadSorts(pods: seq<Pod>, loads: seq<nat>)
    requires |pods| == |loads|
    ensures Ordered(OrderByLoad(pods, loads))
    ensures multiset(OrderByLoad(pods, loads)) ==
            multiset(seq(|pods|, i requires 0 <= i < |pods| => Candidate(pods[i], loads[i], i)))
  {
    if pods != [] {
      var n := |pods| - 1;
      OrderByLoadSorts(pods[..n], loads[..n]);
      var cs := OrderByLoad(pods[..n], loads[..n]);
      var listing := seq(|pods|, i requires 0 <= i < |pods| => Candidate(pods[i], loads[i], i));
      assert listing == seq(n, i requires 0 <= i < n => Candidate(pods[..n][i], loads[..n][i], i)) + [listing[n]];
      forall d | d in cs ensures d.i < n {
        assert d in multiset(cs);
      }
      InsertOrdered(cs, listing[n]);
    }
  }

  /** No sandbox is tried before a less loaded one, nor before one as loaded that was listed first. */
  lemma LeastLoadedFirst(pods: seq<Pod>, loads: seq<nat>)
    requires |pods| == |loads|
    ensures var order := OrderByLoad(pods, loads);
      forall j, k :: 0 <= j < k < |order| ==>
        order[j].active < order[k].active || (order[j].active == order[k].active && order[j].i < order[k].i)
  {
    OrderByLoadSorts(pods, loads);
  }

  datatype Selection = Empty | Saturated | BuildFailed(pod: Pod) | Selected(pod: Pod)

  function At(sets: map<Pod, Leases>, pod: Pod): Leases {
    if pod in sets then sets[pod] else map[]
  }

  /** What an attempt finds: the sets as other holders have left them, and the time. */
  datatype Moment = Moment(sets: map<Pod, Leases>, now: int)

  ghost predicate RoomAt(m: Moment, c: Candidate, cap: nat) {
    HasRoom(At(m.sets, c.pod), m.now, cap)
  }

  /** Each of the first `k` candidates had no room when its turn came. */
  ghost predicate NoneBefore(moments: seq<Moment>, order: seq<Candidate>, k: int, cap: nat) {
    forall j :: 0 <= j < k && j < |order| && j < |moments| ==> !RoomAt(moments[j], order[j], cap)
  }

  ghost predicate FirstWithRoom(moments: seq<Moment>, order: seq<Candidate>, k: int, cap: nat) {
    0 <= k < |order| && k < |moments| && NoneBefore(moments, order, k, cap) && RoomAt(moments[k], order[k], cap)
  }

  /**
    Walk the pool in the order of the loads read earlier, while other holders act, so that the k-th
    attempt finds the sets and the time of `moments[k]`. The first pod that has room when its turn
    comes is taken; a lease whose transport cannot be built is given back; the pool is reported
    saturated only when no pod had room at its turn. The walk changes nothing but the pod it tries.
  */
  method SelectPoolSandbox(store: LeaseStore, pods: seq<Pod>, loads: seq<nat>, cap: nat, h: Holder, ttl: nat,
                           moments: seq<Moment>, unbuildable: set<Pod>)
    returns (r: Selection, ghost last: nat)
    requires |pods| == |loads| == |moments|
    modifies store
    ensures r.Empty? <==> pods == []
    ensures r.Empty? ==> store.sets == old(store.sets)
    ensures pods != [] ==> |OrderByLoad(pods, loads)| == |pods| && last < |pods|
    ensures r.Saturated? <==> pods != [] && NoneBefore(moments, OrderByLoad(pods, loads), |pods|, cap)
    ensures r.Selected? || r.BuildFailed? ==>
      FirstWithRoom(moments, OrderByLoad(pods, loads), last, cap) && OrderByLoad(pods, loads)[last].pod == r.pod
    ensures r.Selected? ==>
      r.pod !in unbuildable && store.Of(r.pod) == Acquired(At(moments[last].sets, r.pod), moments[last].now, cap, h, ttl)
    ensures r.BuildFailed? ==>
      r.pod in unbuildable && store.Of(r.pod) == Released(Sweep(At(moments[last].sets, r.pod), moments[last].now), h)
    ensures r.Saturated? ==>
      var pod := OrderByLoad(pods, loads)[last].pod; store.Of(pod) == Sweep(At(moments[last].sets, pod), moments[last].now)
    ensures pods != [] ==>
      forall q :: q != OrderByLoad(pods, loads)[last].pod ==> store.Of(q) == At(moments[last].sets, q)
  {
    hide OrderByLoad, Sweep, HasRoom, Acquired, Released, NoneBefore;
    last := 0;
    if pods == [] {
      return Empty, last;
    }
    var order := OrderByLoad(pods, loads);
    OrderLength(pods, loads);
    NoneYet(moments, order, cap);
    for k := 0 to |order|
      invariant NoneBefore(moments, order, k, cap)
      invariant k > 0 ==> last == k - 1 && store.Of(order[last].pod) == Sweep(At(moments[last].sets, order[last].pod), moments[last].now)
      invariant k > 0 ==> forall q :: q != order[last].pod ==> store.Of(q) == At(moments[last].sets, q)
    {
      last := k;
      var name, now := order[k].pod, moments[k].now;
      store.sets := moments[k].sets;
      AcquireOutcome(store.Of(name), now, cap, h, ttl);
      NoneBeforeNext(moments, order, k, cap);
      var ok := store.Acquire(name, cap, h, ttl, now);
      if ok {
        if name in unbuildable {
          store.Release(name, h);
          return BuildFailed(name), last;
        }
        return Selected(name), last;
      }
    }
    return Saturated, last;
  }

  lemma NoneYet(moments: seq<Moment>, order: seq<Candidate>, cap: nat)
    ensures NoneBefore(moments, order, 0, cap)
  {
  }

  lemma NoneBeforeNext(moments: seq<Moment>, order: seq<Candidate>, k: nat, cap: nat)
    requires k < |order| && k < |moments| && NoneBefore(moments, order, k, cap)
    ensures NoneBefore(moments, order, k + 1, cap) <==> !RoomAt(moments[k], order[k], cap)
    ensures forall n :: k < n && NoneBefore(moments, order, n, cap) ==> !RoomAt(moments[k], order[k], cap)
  {
  }

  /** An acquire without room only sweeps, and one that is given back leaves no more than that. */
  lemma AcquireOutcome(ls: Leases, now: int, cap: nat, h: Holder, ttl: nat)
    ensures !HasRoom(ls, now, cap) ==> Acquired(ls, now, cap, h, ttl) == Sweep(ls, now)
    ensures HasRoom(ls, now, cap) ==> Released(Acquired(ls, now, cap, h, ttl), h) == Released(Sweep(ls, now), h)
  {
  }

  lemma OrderLength(pods: seq<Pod>, loads: seq<nat>)
    requires |pods| == |loads|
    ensures |OrderByLoad(pods, loads)| == |pods|
  {
    OrderByLoadSorts(pods, loads);
    assert |multiset(OrderByLoad(pods, loads))| == |pods|;
  }
}
