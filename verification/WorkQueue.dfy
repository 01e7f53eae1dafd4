/**
  The leaf work queue: Redis consumer-group semantics (pending list, delivery counter, reclaim,
  heartbeat) under crashing consumers, with bounded attempts and no loss.
*/
module WorkQueue {
  import opened Prelude

  type EntryId = nat
  type Consumer = nat

  /** One row of the pending list: its owner, how often it was delivered, and when it was last touched. */
  datatype Row = Row(owner: Consumer, count: nat, at: nat)

  type Pending = map<EntryId, Row>

  /** `gcIdle` is how long a consumer must be idle before it may be collected. */
  datatype Params = Params(maxAttempts: nat, minIdle: nat, gcIdle: nat)

  predicate Stale(pel: Pending, id: EntryId, now: nat, minIdle: nat) {
    id in pel && now - pel[id].at >= minIdle
  }

  /** A claim hands the row to a consumer and counts one more delivery. */
  function Claimed(pel: Pending, id: EntryId, c: Consumer, now: nat): Pending
    requires id in pel
  {
    pel[id := Row(c, pel[id].count + 1, now)]
  }

  /** A heartbeat takes the row back and resets its idle time, without counting a delivery. */
  function Touched(pel: Pending, id: EntryId, c: Consumer, now: nat): Pending {
    if id in pel then pel[id := Row(c, pel[id].count, now)] else pel
  }

  predicate Owns(pel: Pending, c: Consumer, id: EntryId) {
    id in pel && pel[id].owner == c
  }

  /** Deleting a consumer discards every row it owns. */
  function ConsumerDeleted(pel: Pending, c: Consumer): Pending {
    map id | id in pel && !Owns(pel, c, id) :: pel[id]
  }

  function Discarded(pel: Pending, c: Consumer): set<EntryId> {
    set id | id in pel && Owns(pel, c, id)
  }

  // ---------------------------------------------------------------------------
  // Interleaved consumers

  /** Where a consumer process is; `k` is the delivery count that its own claim produced. */
  datatype Phase =
    | Idle
    | Counting(id: EntryId, k: nat)     // reclaimed, the count not read back yet
    | Running(id: EntryId, k: nat)
    | Writing(id: EntryId, k: nat, dead: bool)
    | Recorded(id: EntryId, k: nat)
    | Reaping(id: EntryId, k: nat)

  datatype Record = Final | DeadLettered

  /** A consumer found idle and without rows by a collector, and whether it has taken a row since. */
  datatype Mark = Mark(consumer: Consumer, took: bool)

  /**
    `seen` is each registered consumer's last interaction, `marks` what collectors have inspected and
    not yet deleted, `lost` the rows that a collector discarded, `owed` the records that reapers
    have still to write. `starts` holds, per entry, the claims whose leaf was started after reading a
    live row, and `started` counts every start.
  */
  datatype State = State(
    now: nat, length: nat, cursor: nat, pel: Pending,
    procs: map<Consumer, Phase>, used: set<Consumer>, seen: map<Consumer, nat>, marks: map<nat, Mark>,
    results: map<EntryId, Record>, acked: set<EntryId>, reaped: set<EntryId>, lost: set<EntryId>,
    owed: set<(Consumer, EntryId)>, starts: map<EntryId, seq<nat>>, started: map<EntryId, nat>)

  const Init := State(0, 0, 0, map[], map[], {}, map[], map[], map[], {}, {}, {}, {}, map[], map[])

  datatype Event =
    | Tick(ms: nat)
    | Enqueue
    | Spawn(c: Consumer)
    | Poll(c: Consumer)
    | Reclaim(c: Consumer, id: EntryId)
    | ReadCount(c: Consumer)
    | ReadNew(c: Consumer)
    | Heartbeat(c: Consumer)
    | Finish(c: Consumer, retryable: bool)
    | WriteRecord(c: Consumer)
    | Ack(c: Consumer)
    | Reap(c: Consumer, id: EntryId)
    | ReapAck(c: Consumer)
    | ReapRecord(c: Consumer, id: EntryId)
    | ReapSkip(c: Consumer, id: EntryId)
    | Crash(c: Consumer)
    | CleanExit(c: Consumer)
    | Inspect(t: nat, c: Consumer)
    | Delete(t: nat)

  function Go(s: State, c: Consumer, ph: Phase): State {
    s.(procs := s.procs[c := ph])
  }

  function Marked(marks: map<nat, Mark>, c: Consumer): map<nat, Mark> {
    map t | t in marks :: if marks[t].consumer == c then marks[t].(took := true) else marks[t]
  }

  /** A consumer interacts with the group, and takes a row if there is one for it. */
  function Noted(s: State, c: Consumer): State {
    s.(seen := s.seen[c := s.now], marks := Marked(s.marks, c))
  }

  /** The next undelivered entry enters the pending list as its first delivery. */
  function NewRow(s: State, c: Consumer): State {
    Go(s, c, Counting(s.cursor, 1)).(pel := s.pel[s.cursor := Row(c, 1, s.now)], cursor := s.cursor + 1)
  }

  function StartsOf(s: State, id: EntryId): seq<nat> {
    if id in s.starts then s.starts[id] else []
  }

  function StartedOf(s: State, id: EntryId): nat {
    if id in s.started then s.started[id] else 0
  }

  /** The choice made once a delivery count is known: dead-letter, or start the leaf. */
  function Decide(p: Params, s: State, c: Consumer, id: EntryId, k: nat, count: nat): (r: State)
    ensures r.pel == s.pel && r.lost == s.lost && r.used == s.used && r.marks == s.marks
    ensures c in r.procs && !r.procs[c].Counting? && r.procs == s.procs[c := r.procs[c]]
  {
    if count > p.maxAttempts then Go(s, c, Writing(id, k, true)) else
    Go(s, c, Running(id, k)).(
      starts := if id in s.pel then s.starts[id := StartsOf(s, id) + [k]] else s.starts,
      started := s.started[id := StartedOf(s, id) + 1])
  }

  /** A process acknowledges the entry it holds; a reaper then owes its record. */
  function Settled(s: State, c: Consumer, reap: bool): State
    requires c in s.procs && !s.procs[c].Idle?
  {
    var id := s.procs[c].id;
    Go(s, c, Idle).(
      pel := s.pel - {id}, acked := s.acked + {id},
      reaped := if reap then s.reaped + {id} else s.reaped, owed := if reap then s.owed + {(c, id)} else s.owed)
  }

  predicate IsIdle(s: State, c: Consumer) {
    c in s.procs && s.procs[c].Idle?
  }

  /** What a collector asks of a consumer: no row of its own, and no interaction for long enough. */
  predicate Collectable(p: Params, s: State, c: Consumer) {
    c in s.seen && s.now - s.seen[c] >= p.gcIdle && forall id :: id in s.pel ==> s.pel[id].owner != c
  }

  function Collected(s: State, c: Consumer): State {
    s.(pel := ConsumerDeleted(s.pel, c), seen := s.seen - {c})
  }

  /** A step moves at most the process it is about, brings back no process that ended, and keeps all marks. */
  predicate Moves(s: State, r: State, c: Consumer) {
    && (r.procs == s.procs || r.procs == s.procs - {c} || (c in r.procs && r.procs == s.procs[c := r.procs[c]]))
    && s.used <= r.used && (c in s.used && c !in s.procs ==> c !in r.procs)
    && (forall t :: t in s.marks ==> t in r.marks && r.marks[t].consumer == s.marks[t].consumer)
  }

  predicate SameRows(s: State, r: State) {
    r.pel == s.pel && r.lost == s.lost
  }

  /** Rows may go, and those that stay keep their owners. */
  predicate SameOwners(s: State, r: State) {
    forall id :: id in r.pel ==> id in s.pel && r.pel[id].owner == s.pel[id].owner
  }

  /** The only row whose owner may change is this one, and it is now this consumer's. */
  predicate Taken(s: State, r: State, c: Consumer, id: EntryId) {
    && r.lost == s.lost && s.pel.Keys <= r.pel.Keys && id in r.pel && r.pel[id].owner == c
    && forall x :: x in r.pel && x != id ==> x in s.pel && r.pel[x].owner == s.pel[x].owner
  }

  /** A process waits for its count only if it did before. */
  predicate StillCounting(s: State, r: State, c: Consumer) {
    c in r.procs && r.procs[c].Counting? ==> c in s.procs && s.procs[c] == r.procs[c]
  }

  predicate NoStart(s: State, r: State) {
    r.starts == s.starts && r.started == s.started
  }

  function OnSpawn(s: State, c: Consumer): (r: State)
    ensures Moves(s, r, c) && NoStart(s, r) && StillCounting(s, r, c)
    ensures SameRows(s, r)
  {
    if c in s.used then s else Go(s, c, Idle).(used := s.used + {c})
  }

  function OnReclaim(p: Params, s: State, c: Consumer, id: EntryId): (r: State)
    ensures Moves(s, r, c) && NoStart(s, r)
    ensures if IsIdle(s, c) && Stale(s.pel, id, s.now, p.minIdle) then Taken(s, r, c, id) else r == s
  {
    if IsIdle(s, c) && Stale(s.pel, id, s.now, p.minIdle) then
      Go(Noted(s, c), c, Counting(id, s.pel[id].count + 1)).(pel := Claimed(s.pel, id, c, s.now))
    else s
  }

  function OnReadCount(p: Params, s: State, c: Consumer): (r: State)
    ensures Moves(s, r, c) && (c in r.procs ==> !r.procs[c].Counting?)
    ensures SameRows(s, r)
  {
    if c in s.procs && s.procs[c].Counting? then
      var id := s.procs[c].id;
      Decide(p, s, c, id, s.procs[c].k, if id in s.pel then s.pel[id].count else 1)
    else s
  }

  function OnReadNew(p: Params, s: State, c: Consumer): (r: State)
    ensures Moves(s, r, c) && StillCounting(s, r, c)
    ensures if IsIdle(s, c) && s.cursor < s.length then Taken(s, r, c, s.cursor) else r == s
  {
    if IsIdle(s, c) && s.cursor < s.length then Decide(p, NewRow(Noted(s, c), c), c, s.cursor, 1, 1) else s
  }

  function OnHeartbeat(s: State, c: Consumer): (r: State)
    ensures Moves(s, r, c) && NoStart(s, r) && StillCounting(s, r, c)
    ensures if c in s.procs && s.procs[c].Running? && s.procs[c].id in s.pel then Taken(s, r, c, s.procs[c].id) else SameRows(s, r)
  {
    if c in s.procs && s.procs[c].Running? then Noted(s, c).(pel := Touched(s.pel, s.procs[c].id, c, s.now)) else s
  }

  function OnFinish(s: State, c: Consumer, retryable: bool): (r: State)
    ensures Moves(s, r, c) && NoStart(s, r) && StillCounting(s, r, c)
    ensures SameRows(s, r)
  {
    if c in s.procs && s.procs[c].Running? then
      if retryable then s.(procs := s.procs - {c}) else Go(s, c, Writing(s.procs[c].id, s.procs[c].k, false))
    else s
  }

  function OnWriteRecord(s: State, c: Consumer): (r: State)
    ensures Moves(s, r, c) && NoStart(s, r) && StillCounting(s, r, c)
    ensures SameRows(s, r)
  {
    if c in s.procs && s.procs[c].Writing? then
      var ph := s.procs[c];
      Go(s, c, Recorded(ph.id, ph.k)).(results := s.results[ph.id := if ph.dead then DeadLettered else Final])
    else s
  }

  function OnAck(s: State, c: Consumer): (r: State)
    ensures Moves(s, r, c) && NoStart(s, r) && StillCounting(s, r, c)
    ensures SameOwners(s, r) && r.lost == s.lost
  {
    if c in s.procs && s.procs[c].Recorded? then Settled(s, c, false) else s
  }

  function OnReap(p: Params, s: State, c: Consumer, id: EntryId): (r: State)
    ensures Moves(s, r, c) && NoStart(s, r) && StillCounting(s, r, c)
    ensures if IsIdle(s, c) && Stale(s.pel, id, s.now, p.minIdle) && s.pel[id].count > p.maxAttempts then Taken(s, r, c, id) else r == s
  {
    if IsIdle(s, c) && Stale(s.pel, id, s.now, p.minIdle) && s.pel[id].count > p.maxAttempts then
      Go(Noted(s, c), c, Reaping(id, s.pel[id].count + 1)).(pel := Claimed(s.pel, id, c, s.now))
    else s
  }

  function OnReapAck(s: State, c: Consumer): (r: State)
    ensures Moves(s, r, c) && NoStart(s, r) && StillCounting(s, r, c)
    ensures SameOwners(s, r) && r.lost == s.lost
  {
    if c in s.procs && s.procs[c].Reaping? then Settled(s, c, true) else s
  }

  function OnReapRecord(s: State, c: Consumer, id: EntryId): (r: State)
    ensures r.procs == s.procs && NoStart(s, r)
    ensures SameRows(s, r) && r.used == s.used && r.marks == s.marks
  {
    if c in s.procs && (c, id) in s.owed then s.(results := s.results[id := DeadLettered], owed := s.owed - {(c, id)}) else s
  }

  function OnCleanExit(s: State, c: Consumer): (r: State)
    ensures Moves(s, r, c) && NoStart(s, r) && StillCounting(s, r, c)
    ensures SameOwners(s, r) && r.lost == s.lost
  {
    if IsIdle(s, c) then Collected(s, c).(procs := s.procs - {c}) else s
  }

  function OnInspect(p: Params, s: State, t: nat, c: Consumer): (r: State)
    ensures r.procs == s.procs && NoStart(s, r)
    ensures SameRows(s, r) && r.used == s.used && forall u :: u in s.marks && u != t ==> u in r.marks && r.marks[u] == s.marks[u]
  {
    if Collectable(p, s, c) then s.(marks := s.marks[t := Mark(c, false)]) else s
  }

  function OnDelete(s: State, t: nat): (r: State)
    ensures r.procs == s.procs && NoStart(s, r)
    ensures SameOwners(s, r) && r.used == s.used && forall u :: u in s.marks && u != t ==> u in r.marks && r.marks[u] == s.marks[u]
  {
    if t in s.marks then
      var c := s.marks[t].consumer;
      Collected(s, c).(lost := s.lost + Discarded(s.pel, c), marks := s.marks - {t})
    else s
  }

  function Apply(p: Params, s: State, ev: Event): State {
    match ev
    case Tick(ms) => s.(now := s.now + ms)
    case Enqueue => s.(length := s.length + 1)
    case Spawn(c) => OnSpawn(s, c)
    case Poll(c) => if c in s.procs then s.(seen := s.seen[c := s.now]) else s
    case Reclaim(c, id) => OnReclaim(p, s, c, id)
    case ReadCount(c) => OnReadCount(p, s, c)
    case ReadNew(c) => OnReadNew(p, s, c)
    case Heartbeat(c) => OnHeartbeat(s, c)
    case Finish(c, retryable) => OnFinish(s, c, retryable)
    case WriteRecord(c) => OnWriteRecord(s, c)
    case Ack(c) => OnAck(s, c)
    case Reap(c, id) => OnReap(p, s, c, id)
    case ReapAck(c) => OnReapAck(s, c)
    case ReapRecord(c, id) => OnReapRecord(s, c, id)
    case ReapSkip(c, id) => s.(owed := s.owed - {(c, id)})
    case Crash(c) => s.(procs := s.procs - {c})
    case CleanExit(c) => OnCleanExit(s, c)
    case Inspect(t, c) => OnInspect(p, s, t, c)
    case Delete(t) => OnDelete(s, t)
  }

  function Run(p: Params, s: State, events: seq<Event>): State {
    if events == [] then s else Apply(p, Run(p, s, events[..|events| - 1]), events[|events| - 1])
  }

  // ---------------------------------------------------------------------------
  // The invariant

  /** An entry that was delivered is still pending, or was acknowledged for a recorded reason, or was lost. */
  ghost predicate Accounted(s: State) {
    && s.cursor <= s.length
    && (forall id :: id in s.pel ==> id < s.cursor && id !in s.acked && id !in s.lost)
    && (forall id :: 0 <= id < s.cursor ==> id in s.pel || id in s.acked || id in s.lost)
    && (forall id :: id in s.acked ==> id < s.cursor && (id in s.results || id in s.reaped))
    && (forall id :: id in s.lost || id in s.results ==> id < s.cursor)
    && (forall c, id :: (c, id) in s.owed ==> id in s.acked && c in s.used)
  }

  /** A row's owner is working on that entry, or is no longer running. */
  ghost predicate Owned(s: State) {
    && s.procs.Keys <= s.used
    && (forall id :: id in s.pel ==>
          && s.pel[id].owner in s.used && s.pel[id].at <= s.now
          && (s.pel[id].owner in s.procs ==>
                !s.procs[s.pel[id].owner].Idle? && s.procs[s.pel[id].owner].id == id))
  }

  /** A marked consumer that has taken nothing since has nothing. */
  ghost predicate MarksOk(s: State) {
    forall t, id :: t in s.marks && !s.marks[t].took && id in s.pel ==> s.pel[id].owner != s.marks[t].consumer
  }

  /** Every claim on an entry has its own number, no greater than the row's counter. */
  ghost predicate ClaimInv(p: Params, s: State, c: Consumer)
    requires c in s.procs
  {
    var ph := s.procs[c];
    !ph.Idle? ==>
      && ph.id < s.cursor && 1 <= ph.k
      && (ph.id in s.pel ==> ph.k <= s.pel[ph.id].count)
      && (ph.Counting? ==> ph.k !in StartsOf(s, ph.id))
      && (ph.Recorded? ==> ph.id in s.results)
      && (ph.Reaping? && ph.id in s.pel ==> s.pel[ph.id].count > p.maxAttempts)
      && (forall d :: d in s.procs && d != c && !s.procs[d].Idle? && s.procs[d].id == ph.id ==> s.procs[d].k != ph.k)
  }

  ghost predicate StartInv(p: Params, s: State, id: EntryId) {
    var ks := StartsOf(s, id);
    && (ks != [] ==> id < s.cursor)
    && (forall k :: k in ks ==> 1 <= k <= p.maxAttempts && (id in s.pel ==> k <= s.pel[id].count))
    && (forall i, j :: 0 <= i < j < |ks| ==> ks[i] != ks[j])
  }

  /** A start beyond those that read a live row found its row acknowledged or lost. */
  ghost predicate LateInv(s: State, id: EntryId) {
    |StartsOf(s, id)| <= StartedOf(s, id) && (|StartsOf(s, id)| < StartedOf(s, id) ==> id in s.acked || id in s.lost)
  }

  ghost predicate Inv(p: Params, s: State) {
    && Accounted(s) && Owned(s) && MarksOk(s)
    && (forall c :: c in s.procs ==> ClaimInv(p, s, c))
    && (forall id :: StartInv(p, s, id)) && (forall id :: LateInv(s, id))
  }

  /** The part of the invariant about claims and starts, which looks at five fields only. */
  ghost predicate SameClaims(s: State, s': State) {
    && s'.pel == s.pel && s'.cursor == s.cursor && s'.starts == s.starts && s'.started == s.started
    && s'.results.Keys >= s.results.Keys
    && s'.acked >= s.acked && s'.lost >= s.lost
    && (forall c :: c in s'.procs ==> if c in s.procs then s'.procs[c] == s.procs[c] else s'.procs[c].Idle?)
  }

  lemma SameClaimsKeep(p: Params, s: State, s': State)
    requires Inv(p, s) && SameClaims(s, s')
    ensures forall c :: c in s'.procs ==> ClaimInv(p, s', c)
    ensures forall id :: StartInv(p, s', id) && LateInv(s', id)
  {
    hide StartsOf, StartedOf, Accounted, Owned, MarksOk;
    forall id ensures StartsOf(s', id) == StartsOf(s, id) && StartedOf(s', id) == StartedOf(s, id) {
      SameStarts(s, s', id);
    }
    forall c | c in s'.procs ensures ClaimInv(p, s', c) {
      if c in s.procs {
        assert ClaimInv(p, s, c);
      }
    }
    forall id ensures StartInv(p, s', id) && LateInv(s', id) {
      assert StartInv(p, s, id) && LateInv(s, id);
    }
  }

  lemma SameStarts(s: State, s': State, id: EntryId)
    requires s'.starts == s.starts && s'.started == s.started
    ensures StartsOf(s', id) == StartsOf(s, id) && StartedOf(s', id) == StartedOf(s, id)
  {
  }

  /** The steps that touch neither row nor process: the clock, new entries, polls and inspections. */
  predicate Quiet(s: State, s': State) {
    && s'.pel == s.pel && s'.cursor == s.cursor && s'.starts == s.starts && s'.started == s.started
    && s'.results == s.results && s'.acked == s.acked && s'.reaped == s.reaped && s'.lost == s.lost
    && s'.procs == s.procs && s'.used == s.used && s'.owed <= s.owed && s'.length >= s.length && s'.now >= s.now
    && (forall t :: t in s'.marks && (t !in s.marks || s'.marks[t] != s.marks[t]) ==>
          forall id :: id in s.pel ==> s.pel[id].owner != s'.marks[t].consumer)
  }

  lemma QuietKeepsInv(p: Params, s: State, s': State)
    requires Inv(p, s) && Quiet(s, s')
    ensures Inv(p, s')
  {
    hide ClaimInv, StartInv, LateInv;
    SameClaimsKeep(p, s, s');
  }

  lemma QuietStep(p: Params, s: State, ev: Event)
    requires ev.Tick? || ev.Enqueue? || ev.Poll? || ev.Inspect? || ev.ReapSkip?
    ensures Quiet(s, Apply(p, s, ev))
  {
    hide OnSpawn, OnReclaim, OnReadCount, OnReadNew, OnHeartbeat, OnFinish, OnWriteRecord, OnAck, OnReap, OnReapAck, OnReapRecord,
      OnCleanExit, OnDelete;
  }

  lemma SpawnKeepsInv(p: Params, s: State, c: Consumer)
    requires Inv(p, s) && c !in s.used
    ensures Inv(p, Go(s, c, Idle).(used := s.used + {c}))
  {
    hide ClaimInv, StartInv, LateInv;
    SameClaimsKeep(p, s, Go(s, c, Idle).(used := s.used + {c}));
  }

  lemma ReapRecordKeepsInv(p: Params, s: State, c: Consumer, id: EntryId)
    requires Inv(p, s) && (c, id) in s.owed
    ensures Inv(p, s.(results := s.results[id := DeadLettered], owed := s.owed - {(c, id)}))
  {
    hide ClaimInv, StartInv, LateInv;
    SameClaimsKeep(p, s, s.(results := s.results[id := DeadLettered], owed := s.owed - {(c, id)}));
  }

  lemma NotedKeepsInv(p: Params, s: State, c: Consumer)
    requires Inv(p, s)
    ensures Inv(p, Noted(s, c)) && AllTook(Noted(s, c), c)
  {
    hide ClaimInv, StartInv, LateInv;
    SameClaimsKeep(p, s, Noted(s, c));
  }

  /** No mark says that this consumer has taken nothing. */
  predicate AllTook(s: State, c: Consumer) {
    forall t :: t in s.marks && s.marks[t].consumer == c ==> s.marks[t].took
  }

  lemma LeaveKeepsInv(p: Params, s: State, c: Consumer)
    requires Inv(p, s)
    ensures Inv(p, s.(procs := s.procs - {c}))
  {
    hide ClaimInv, StartInv, LateInv;
    SameClaimsKeep(p, s, s.(procs := s.procs - {c}));
  }

  /** Rows go, and nothing else of a claim changes. */
  lemma RowsGoKeepsInv(p: Params, s: State, c: Consumer, marks: map<nat, Mark>)
    requires Inv(p, s) && forall t :: t in marks ==> t in s.marks && marks[t] == s.marks[t]
    ensures Inv(p, Collected(s, c).(lost := s.lost + Discarded(s.pel, c), marks := marks))
  {
    hide StartsOf, StartedOf;
    var s' := Collected(s, c).(lost := s.lost + Discarded(s.pel, c), marks := marks);
    forall id ensures StartsOf(s', id) == StartsOf(s, id) && StartedOf(s', id) == StartedOf(s, id) {
      SameStarts(s, s', id);
    }
    forall d | d in s'.procs ensures ClaimInv(p, s', d) {
      assert ClaimInv(p, s, d);
    }
    forall id ensures StartInv(p, s', id) && LateInv(s', id) {
      assert StartInv(p, s, id) && LateInv(s, id);
    }
  }

  /** A leaf ends, or its record is written: the process moves on with the same claim. */
  lemma MoveKeepsInv(p: Params, s: State, c: Consumer, ph: Phase, results: map<EntryId, Record>)
    requires Inv(p, s) && c in s.procs && !s.procs[c].Idle? && (ph.Writing? || ph.Recorded?)
    requires ph.id == s.procs[c].id && ph.k == s.procs[c].k
    requires s.results.Keys <= results.Keys <= s.results.Keys + {ph.id} && (ph.Recorded? ==> ph.id in results)
    ensures Inv(p, Go(s, c, ph).(results := results))
  {
    hide StartsOf, StartedOf;
    var s' := Go(s, c, ph).(results := results);
    assert ClaimInv(p, s, c);
    forall id ensures StartsOf(s', id) == StartsOf(s, id) && StartedOf(s', id) == StartedOf(s, id) {
      SameStarts(s, s', id);
    }
    forall d | d in s'.procs ensures ClaimInv(p, s', d) {
      assert ClaimInv(p, s, d);
    }
    forall id ensures StartInv(p, s', id) && LateInv(s', id) {
      assert StartInv(p, s, id) && LateInv(s, id);
    }
  }

  lemma ClaimKeepsInv(p: Params, s: State, c: Consumer, id: EntryId, ph: Phase)
    requires Inv(p, s) && IsIdle(s, c) && id in s.pel && AllTook(s, c)
    requires ph == Counting(id, s.pel[id].count + 1) ||
             (ph == Reaping(id, s.pel[id].count + 1) && s.pel[id].count > p.maxAttempts)
    ensures Inv(p, Go(s, c, ph).(pel := Claimed(s.pel, id, c, s.now)))
  {
    ClaimKeepsRows(p, s, c, id, ph);
    ClaimKeepsClaims(p, s, c, id, ph);
  }

  lemma ClaimKeepsRows(p: Params, s: State, c: Consumer, id: EntryId, ph: Phase)
    requires Inv(p, s) && IsIdle(s, c) && id in s.pel && AllTook(s, c) && !ph.Idle? && ph.id == id
    ensures var s' := Go(s, c, ph).(pel := Claimed(s.pel, id, c, s.now)); Accounted(s') && Owned(s') && MarksOk(s')
  {
    hide ClaimInv, StartInv, LateInv;
  }

  lemma ClaimKeepsClaims(p: Params, s: State, c: Consumer, id: EntryId, ph: Phase)
    requires Inv(p, s) && IsIdle(s, c) && id in s.pel
    requires ph == Counting(id, s.pel[id].count + 1) ||
             (ph == Reaping(id, s.pel[id].count + 1) && s.pel[id].count > p.maxAttempts)
    ensures var s' := Go(s, c, ph).(pel := Claimed(s.pel, id, c, s.now));
      && (forall d :: d in s'.procs ==> ClaimInv(p, s', d)) && (forall x :: StartInv(p, s', x)) && (forall x :: LateInv(s', x))
  {
    hide StartsOf, StartedOf, Owned, MarksOk;
    var s' := Go(s, c, ph).(pel := Claimed(s.pel, id, c, s.now));
    assert StartInv(p, s, id);
    forall x ensures StartsOf(s', x) == StartsOf(s, x) && StartedOf(s', x) == StartedOf(s, x) {
      SameStarts(s, s', x);
    }
    forall d | d in s'.procs ensures ClaimInv(p, s', d) {
      assert ClaimInv(p, s, d);
      assert forall e :: e in s.procs ==> ClaimInv(p, s, e);
    }
    forall x ensures StartInv(p, s', x) && LateInv(s', x) {
      assert StartInv(p, s, x) && LateInv(s, x);
    }
  }

  /** With its row still there, a claim numbered within the limit may start its leaf. */
  lemma DecideKeepsInv(p: Params, s: State, c: Consumer, count: nat)
    requires Inv(p, s) && c in s.procs && s.procs[c].Counting?
    requires s.procs[c].id in s.pel ==> count == s.pel[s.procs[c].id].count
    ensures Inv(p, Decide(p, s, c, s.procs[c].id, s.procs[c].k, count))
  {
    var id, k := s.procs[c].id, s.procs[c].k;
    if count > p.maxAttempts {
      MoveKeepsInv(p, s, c, Writing(id, k, true), s.results);
      assert Go(s, c, Writing(id, k, true)).(results := s.results) == Go(s, c, Writing(id, k, true));
    } else {
      StartKeepsClaims(p, s, c, count);
      StartKeepsStarts(p, s, c, count);
    }
  }

  lemma StartKeepsClaims(p: Params, s: State, c: Consumer, count: nat)
    requires Inv(p, s) && c in s.procs && s.procs[c].Counting? && count <= p.maxAttempts
    ensures var s' := Decide(p, s, c, s.procs[c].id, s.procs[c].k, count);
      Accounted(s') && Owned(s') && MarksOk(s') && forall d :: d in s'.procs ==> ClaimInv(p, s', d)
  {
    var id, k := s.procs[c].id, s.procs[c].k;
    var s' := Decide(p, s, c, id, k, count);
    assert ClaimInv(p, s, c);
    assert s'.pel == s.pel && s'.cursor == s.cursor && s'.procs == s.procs[c := Running(id, k)];
    forall d | d in s'.procs ensures ClaimInv(p, s', d) {
      assert ClaimInv(p, s, d);
    }
  }

  lemma StartKeepsStarts(p: Params, s: State, c: Consumer, count: nat)
    requires Inv(p, s) && c in s.procs && s.procs[c].Counting? && count <= p.maxAttempts
    requires s.procs[c].id in s.pel ==> count == s.pel[s.procs[c].id].count
    ensures var s' := Decide(p, s, c, s.procs[c].id, s.procs[c].k, count);
      forall x :: StartInv(p, s', x) && LateInv(s', x)
  {
    hide Owned, MarksOk;
    var id, k := s.procs[c].id, s.procs[c].k;
    var s' := Decide(p, s, c, id, k, count);
    assert ClaimInv(p, s, c);
    forall x ensures StartInv(p, s', x) && LateInv(s', x) {
      assert StartInv(p, s, x) && LateInv(s, x);
    }
  }

  /** Reading a new entry is a claim numbered 1 on a fresh row. */
  lemma NewRowKeepsInv(p: Params, s: State, c: Consumer)
    requires Inv(p, s) && IsIdle(s, c) && s.cursor < s.length && AllTook(s, c)
    ensures Inv(p, NewRow(s, c))
  {
    var id := s.cursor;
    var s' := NewRow(s, c);
    assert StartInv(p, s, id);
    forall d | d in s'.procs ensures ClaimInv(p, s', d) {
      assert ClaimInv(p, s, d);
      assert forall e :: e in s.procs ==> ClaimInv(p, s, e);
    }
    forall x ensures StartInv(p, s', x) && LateInv(s', x) {
      assert StartInv(p, s, x) && LateInv(s, x);
    }
  }

  lemma AckKeepsInv(p: Params, s: State, c: Consumer, reap: bool)
    requires Inv(p, s) && c in s.procs && (if reap then s.procs[c].Reaping? else s.procs[c].Recorded?)
    ensures Inv(p, Settled(s, c, reap))
  {
    AckKeepsRows(p, s, c, reap);
    AckKeepsClaims(p, s, c, reap);
  }

  lemma AckKeepsRows(p: Params, s: State, c: Consumer, reap: bool)
    requires Inv(p, s) && c in s.procs && (if reap then s.procs[c].Reaping? else s.procs[c].Recorded?)
    ensures var s' := Settled(s, c, reap); Accounted(s') && Owned(s') && MarksOk(s')
  {
    hide StartInv, LateInv;
    assert ClaimInv(p, s, c);
  }

  lemma AckKeepsClaims(p: Params, s: State, c: Consumer, reap: bool)
    requires Inv(p, s) && c in s.procs && (if reap then s.procs[c].Reaping? else s.procs[c].Recorded?)
    ensures var s' := Settled(s, c, reap);
      && (forall d :: d in s'.procs ==> ClaimInv(p, s', d)) && (forall x :: StartInv(p, s', x)) && (forall x :: LateInv(s', x))
  {
    hide StartsOf, StartedOf, Accounted, Owned, MarksOk;
    var s' := Settled(s, c, reap);
    forall id ensures StartsOf(s', id) == StartsOf(s, id) && StartedOf(s', id) == StartedOf(s, id) {
      SameStarts(s, s', id);
    }
    forall d | d in s'.procs ensures ClaimInv(p, s', d) {
      assert ClaimInv(p, s, d);
    }
    forall x ensures StartInv(p, s', x) && LateInv(s', x) {
      assert StartInv(p, s, x) && LateInv(s, x);
    }
  }

  lemma HeartbeatKeepsInv(p: Params, s: State, c: Consumer)
    requires Inv(p, s) && c in s.procs && s.procs[c].Running? && AllTook(s, c)
    ensures Inv(p, s.(pel := Touched(s.pel, s.procs[c].id, c, s.now)))
  {
    hide StartsOf, StartedOf;
    var s' := s.(pel := Touched(s.pel, s.procs[c].id, c, s.now));
    forall id ensures StartsOf(s', id) == StartsOf(s, id) && StartedOf(s', id) == StartedOf(s, id) {
      SameStarts(s, s', id);
    }
    forall d | d in s'.procs ensures ClaimInv(p, s', d) {
      assert ClaimInv(p, s, d);
    }
    forall x ensures StartInv(p, s', x) && LateInv(s', x) {
      assert StartInv(p, s, x) && LateInv(s, x);
    }
  }

  /** A consumer that is between entries owns no row. */
  lemma IdleOwnsNothing(p: Params, s: State, c: Consumer)
    requires Inv(p, s) && IsIdle(s, c)
    ensures ConsumerDeleted(s.pel, c) == s.pel && Discarded(s.pel, c) == {}
  {
    assert forall id :: id in s.pel ==> s.pel[id].owner != c;
  }

  lemma ProcessStepKeepsInv(p: Params, s: State, ev: Event)
    requires Inv(p, s) && (ev.Spawn? || ev.Crash? || ev.Finish? || ev.WriteRecord? || ev.CleanExit? || ev.Delete?)
    ensures Inv(p, Apply(p, s, ev))
  {
    hide Inv;
    match ev
    case Spawn(c) =>
      if c !in s.used {
        SpawnKeepsInv(p, s, c);
      }
    case Crash(c) => LeaveKeepsInv(p, s, c);
    case Finish(c, retryable) =>
      if c in s.procs && s.procs[c].Running? {
        if retryable {
          LeaveKeepsInv(p, s, c);
        } else {
          MoveKeepsInv(p, s, c, Writing(s.procs[c].id, s.procs[c].k, false), s.results);
          assert Apply(p, s, ev) == Apply(p, s, ev).(results := s.results);
        }
      }
    case WriteRecord(c) =>
      if c in s.procs && s.procs[c].Writing? {
        MoveKeepsInv(p, s, c, Recorded(s.procs[c].id, s.procs[c].k), Apply(p, s, ev).results);
      }
    case CleanExit(c) =>
      if IsIdle(s, c) {
        IdleOwnsNothing(p, s, c);
        RowsGoKeepsInv(p, s, c, s.marks);
        LeaveKeepsInv(p, Collected(s, c).(lost := s.lost + Discarded(s.pel, c), marks := s.marks), c);
        assert Apply(p, s, ev) == Collected(s, c).(lost := s.lost + {}, marks := s.marks).(procs := s.procs - {c});
      }
    case Delete(t) =>
      if t in s.marks {
        RowsGoKeepsInv(p, s, s.marks[t].consumer, s.marks - {t});
      }
  }

  lemma ClaimStepKeepsInv(p: Params, s: State, ev: Event)
    requires Inv(p, s) && (ev.Reclaim? || ev.Reap? || ev.ReadCount? || ev.ReadNew?)
    ensures Inv(p, Apply(p, s, ev))
  {
    hide Inv, Marked;
    match ev
    case Reclaim(c, id) =>
      if IsIdle(s, c) && Stale(s.pel, id, s.now, p.minIdle) {
        NotedKeepsInv(p, s, c);
        ClaimKeepsInv(p, Noted(s, c), c, id, Counting(id, s.pel[id].count + 1));
      }
    case Reap(c, id) =>
      if IsIdle(s, c) && Stale(s.pel, id, s.now, p.minIdle) && s.pel[id].count > p.maxAttempts {
        NotedKeepsInv(p, s, c);
        ClaimKeepsInv(p, Noted(s, c), c, id, Reaping(id, s.pel[id].count + 1));
      }
    case ReadCount(c) =>
      if c in s.procs && s.procs[c].Counting? {
        DecideKeepsInv(p, s, c, if s.procs[c].id in s.pel then s.pel[s.procs[c].id].count else 1);
      }
    case ReadNew(c) =>
      if IsIdle(s, c) && s.cursor < s.length {
        NotedKeepsInv(p, s, c);
        NewRowKeepsInv(p, Noted(s, c), c);
        DecideKeepsInv(p, NewRow(Noted(s, c), c), c, 1);
      }
  }

  lemma RowStepKeepsInv(p: Params, s: State, ev: Event)
    requires Inv(p, s) && (ev.Heartbeat? || ev.Ack? || ev.ReapAck? || ev.ReapRecord?)
    ensures Inv(p, Apply(p, s, ev))
  {
    hide Inv, Marked;
    match ev
    case Heartbeat(c) =>
      if c in s.procs && s.procs[c].Running? {
        NotedKeepsInv(p, s, c);
        HeartbeatKeepsInv(p, Noted(s, c), c);
      }
    case Ack(c) =>
      if c in s.procs && s.procs[c].Recorded? {
        AckKeepsInv(p, s, c, false);
      }
    case ReapAck(c) =>
      if c in s.procs && s.procs[c].Reaping? {
        AckKeepsInv(p, s, c, true);
      }
    case ReapRecord(c, id) =>
      if (c, id) in s.owed {
        ReapRecordKeepsInv(p, s, c, id);
      }
  }

  lemma StepKeepsInv(p: Params, s: State, ev: Event)
    requires Inv(p, s)
    ensures Inv(p, Apply(p, s, ev))
  {
    hide Inv, Apply;
    if ev.Reclaim? || ev.Reap? || ev.ReadCount? || ev.ReadNew? {
      ClaimStepKeepsInv(p, s, ev);
    } else if ev.Heartbeat? || ev.Ack? || ev.ReapAck? || ev.ReapRecord? {
      RowStepKeepsInv(p, s, ev);
    } else if ev.Spawn? || ev.Crash? || ev.Finish? || ev.WriteRecord? || ev.CleanExit? || ev.Delete? {
      ProcessStepKeepsInv(p, s, ev);
    } else {
      QuietStep(p, s, ev);
      QuietKeepsInv(p, s, Apply(p, s, ev));
    }
  }

  lemma {:induction false} ReachableInv(p: Params, events: seq<Event>)
    ensures Inv(p, Run(p, Init, events))
  {
    if events != [] {
      ReachableInv(p, events[..|events| - 1]);
      StepKeepsInv(p, Run(p, Init, events[..|events| - 1]), events[|events| - 1]);
    }
  }

  // ---------------------------------------------------------------------------
  // One consumer's program

  /** How a leaf ended, as far as the queue cares. */
  datatype LeafResult = Ended(status: string) | Failed(reason: string)

  /** Transient failures are neither recorded nor acknowledged. */
  predicate Retryable(r: LeafResult) {
    r.Failed? && (r.reason == "error" || r.reason == "saturated")
  }

  datatype Outcome = NoWork | DeadLetter(id: EntryId) | Settled(id: EntryId, result: LeafResult) | Retry(id: EntryId)

  const REAP_BATCH := 100

  /** How many pending rows one reclaim for one entry looks at, from the oldest on. */
  const RECLAIM_SCAN := 10

  /** A consumer as the group listed it. */
  datatype Info = Info(name: Consumer, pending: nat, idle: nat)

  predicate MayCollect(info: Info, minIdle: nat) {
    info.pending == 0 && info.idle >= minIdle
  }

  /** The consumers in a listing that may be collected. */
  function Candidates(infos: seq<Info>, minIdle: nat): seq<Consumer> {
    if infos == [] then [] else
    var last := infos[|infos| - 1];
    Candidates(infos[..|infos| - 1], minIdle) + if MayCollect(last, minIdle) then [last.name] else []
  }

  lemma {:induction false} CandidatesAre(infos: seq<Info>, minIdle: nat)
    ensures forall c :: c in Candidates(infos, minIdle) <==>
      exists i :: 0 <= i < |infos| && infos[i].name == c && infos[i].pending == 0 && infos[i].idle >= minIdle
  {
    if infos != [] {
      CandidatesAre(infos[..|infos| - 1], minIdle);
    }
  }

  class Queue {
    var length: nat
    var cursor: nat
    var pel: Pending
    var records: map<EntryId, Record>

    /** Rows are of delivered entries only. */
    ghost predicate Valid()
      reads this
    {
      cursor <= length && forall id :: id in pel ==> id < cursor
    }

    constructor ()
      ensures Valid() && pel == map[] && length == 0 && records == map[]
    {
      length, cursor, pel, records := 0, 0, map[], map[];
    }

    method Enqueue() returns (id: EntryId)
      requires Valid()
      modifies this`length
      ensures Valid() && id == old(length) && length == old(length) + 1
    {
      id := length;
      length := length + 1;
    }

    /**
      Reclaim the first stale row among the oldest few, else read the next new entry. A stale row
      further back is passed over.
    */
    method Claim(c: Consumer, now: nat, minIdle: nat) returns (r: Option<(EntryId, nat)>)
      requires Valid()
      modifies this`cursor, this`pel
      ensures Valid()
      ensures r.None? <==> old(cursor) == length && NoneStale(old(pel), old(cursor), now, minIdle)
      ensures r.Some? ==>
        if NoneStale(old(pel), old(cursor), now, minIdle) then r.value.0 == old(cursor)
        else FirstStale(old(pel), old(cursor), r.value.0, now, minIdle)
      ensures r.None? && |old(pel)| <= 10 ==> forall id :: id in old(pel) ==> !Stale(old(pel), id, now, minIdle)
      ensures r.None? ==> pel == old(pel) && cursor == old(cursor)
      ensures r.Some? && r.value.0 in old(pel) ==>
        r.value.1 == old(pel)[r.value.0].count + 1 && pel == Claimed(old(pel), r.value.0, c, now) && cursor == old(cursor)
      ensures r.Some? && r.value.0 !in old(pel) ==>
        r.value == (old(cursor), 1) && pel == old(pel)[old(cursor) := Row(c, 1, now)] && cursor == old(cursor) + 1
    {
      hide FirstPending;
      var front := FirstPending(pel, cursor, RECLAIM_SCAN);
      FirstPendingIsPending(pel, cursor, RECLAIM_SCAN);
      FirstPendingIsAll(pel, cursor, RECLAIM_SCAN);
      for i := 0 to |front|
        invariant pel == old(pel) && cursor == old(cursor)
        invariant forall j :: 0 <= j < i ==> !Stale(pel, front[j], now, minIdle)
      {
        var id := front[i];
        assert id in front;
        if now - pel[id].at >= minIdle {
          pel := Claimed(pel, id, c, now);
          return Some((id, pel[id].count));
        }
      }
      if cursor == length {
        return None;
      }
      var id := cursor;
      var row := Row(c, 1, now);
      pel := pel[id := row];
      cursor := cursor + 1;
      return Some((id, 1));
    }

    method AckEntry(id: EntryId)
      requires Valid()
      modifies this`pel
      ensures Valid() && pel == old(pel) - {id}
    {
      pel := pel - {id};
    }

    method Touch(id: EntryId, c: Consumer, now: nat)
      requires Valid()
      modifies this`pel
      ensures Valid() && pel == Touched(old(pel), id, c, now)
    {
      if id in pel {
        var row := pel[id];
        pel := pel[id := Row(c, row.count, now)];
      }
    }

    method DeleteConsumer(c: Consumer)
      requires Valid()
      modifies this`pel
      ensures Valid()
      ensures forall id :: id in pel <==> id in old(pel) && old(pel)[id].owner != c
      ensures forall id :: id in pel ==> pel[id] == old(pel)[id]
    {
      pel := ConsumerDeleted(pel, c);
    }

    /**
      Delete, one by one, the consumers that an earlier listing gave as idle and without rows. What
      goes is every row they own by now, and what stays is as it was.
    */
    method GcIdleConsumers(infos: seq<Info>, minIdle: nat) returns (removed: nat)
      requires Valid()
      modifies this`pel
      ensures Valid() && removed == |Candidates(infos, minIdle)|
      ensures forall id :: id in pel <==>
        && id in old(pel)
        && forall i :: 0 <= i < |infos| && infos[i].pending == 0 && infos[i].idle >= minIdle ==> infos[i].name != old(pel)[id].owner
      ensures forall id :: id in pel ==> pel[id] == old(pel)[id]
    {
      CandidatesAre(infos, minIdle);
      removed := 0;
      for i := 0 to |infos|
        invariant Valid() && removed == |Candidates(infos[..i], minIdle)|
        invariant forall id :: id in pel <==> id in old(pel) && old(pel)[id].owner !in Candidates(infos[..i], minIdle)
        invariant forall id :: id in pel ==> pel[id] == old(pel)[id]
      {
        assert infos[..i + 1][..i] == infos[..i];
        if infos[i].pending == 0 && infos[i].idle >= minIdle {
          DeleteConsumer(infos[i].name);
          removed := removed + 1;
        }
      }
      assert infos[..|infos|] == infos;
    }

    /**
      Acknowledge, among the first hundred pending entries, exactly those that are stale and past the
      limit; every other row is left as it was.
    */
    method ReapDeadLetters(c: Consumer, now: nat, minIdle: nat, maxAttempts: nat) returns (dead: seq<EntryId>)
      requires Valid()
      modifies this`pel
      ensures Valid()
      ensures forall id :: id in dead <==>
        id in FirstPending(old(pel), cursor, 100) &&
        Stale(old(pel), id, now, minIdle) && old(pel)[id].count > maxAttempts
      ensures pel == old(pel) - (set id | id in dead)
    {
      var batch := FirstPending(pel, cursor, REAP_BATCH);
      FirstPendingIsPending(pel, cursor, REAP_BATCH);
      dead := [];
      for i := 0 to |batch|
        invariant forall id :: id in dead <==>
          id in batch[..i] && Stale(old(pel), id, now, minIdle) && old(pel)[id].count > maxAttempts
        invariant pel == old(pel) - (set id | id in dead)
      {
        var id := batch[i];
        assert id !in batch[..i] && id in batch;
        assert batch[..i + 1] == batch[..i] + [id];
        assert id in pel && pel[id] == old(pel)[id];
        if now - pel[id].at >= minIdle && pel[id].count > maxAttempts {
          ghost var before := dead;
          pel := Claimed(pel, id, c, now);
          pel := pel - {id};
          dead := dead + [id];
          assert forall x :: x in dead <==> x in before || x == id;
        }
      }
      assert batch[..|batch|] == batch;
    }

    /**
      One entry, if there is one to claim, whose leaf ends as `leaf` says. The entry is acknowledged
      only after its record is written; a transient failure leaves it pending and unrecorded.
    */
    method ProcessOne(c: Consumer, now: nat, minIdle: nat, maxAttempts: nat, leaf: EntryId -> LeafResult) returns (out: Outcome)
      requires Valid()
      modifies this`cursor, this`pel, this`records
      ensures Valid()
      ensures out.NoWork? <==> old(cursor) == length && NoneStale(old(pel), old(cursor), now, minIdle)
      ensures out.NoWork? ==> pel == old(pel) && cursor == old(cursor) && records == old(records)
      ensures !out.NoWork? ==>
        && (if NoneStale(old(pel), old(cursor), now, minIdle) then out.id == old(cursor)
            else FirstStale(old(pel), old(cursor), out.id, now, minIdle))
        && cursor == old(cursor) + (if out.id == old(cursor) then 1 else 0)
        && (out.DeadLetter? <==> Deliveries(old(pel), out.id) >= maxAttempts)
        && (!out.DeadLetter? ==> (out.Retry? <==> leaf(out.id) == Failed("error") || leaf(out.id) == Failed("saturated")))
      ensures out.Settled? ==>
        out.result == leaf(out.id) && records == old(records)[out.id := Final] && pel == old(pel) - {out.id}
      ensures out.DeadLetter? ==> records == old(records)[out.id := DeadLettered] && pel == old(pel) - {out.id}
      ensures out.Retry? ==>
        records == old(records) && pel == old(pel)[out.id := Row(c, Deliveries(old(pel), out.id) + 1, now)]
      ensures !out.NoWork? && !out.Retry? ==> 2 * (length - cursor) + |pel| < 2 * (length - old(cursor)) + |old(pel)|
    {
      hide FirstPending, NoneStale, FirstStale, Stale;
      var claimed := Claim(c, now, minIdle);
      if claimed.None? {
        return NoWork;
      }
      var (id, count) := claimed.value;
      assert count == Deliveries(old(pel), id) + 1 && pel == old(pel)[id := Row(c, count, now)];
      assert pel - {id} == old(pel) - {id};
      RemoveCard(old(pel), id);
      out := Handle(id, count, maxAttempts, leaf);
    }

    /** What becomes of a claimed entry. */
    method Handle(id: EntryId, count: nat, maxAttempts: nat, leaf: EntryId -> LeafResult) returns (out: Outcome)
      requires Valid()
      modifies this`pel, this`records
      ensures Valid() && !out.NoWork? && out.id == id
      ensures out.DeadLetter? <==> count > maxAttempts
      ensures !out.DeadLetter? ==> (out.Retry? <==> leaf(id) == Failed("error") || leaf(id) == Failed("saturated"))
      ensures out.Settled? ==> out.result == leaf(id) && records == old(records)[id := Final]
      ensures out.DeadLetter? ==> records == old(records)[id := DeadLettered]
      ensures out.Retry? ==> records == old(records) && pel == old(pel)
      ensures !out.Retry? ==> pel == old(pel) - {id}
    {
      if count > maxAttempts {
        records := records[id := DeadLettered];
        AckEntry(id);
        return DeadLetter(id);
      }
      var result := leaf(id);
      if Retryable(result) {
        return Retry(id);
      }
      records := records[id := Final];
      AckEntry(id);
      return Settled(id, result);
    }

    /**
      The drain loop of one process: entries until none is left or one must be retried. A consumer
      that owned nothing at the start owns nothing at a clean exit, so deleting it discards nothing.
    */
    method Drain(c: Consumer, now: nat, minIdle: nat, maxAttempts: nat, leaf: EntryId -> LeafResult) returns (clean: bool)
      requires Valid() && forall id :: id in pel ==> pel[id].owner != c
      modifies this`cursor, this`pel, this`records
      ensures Valid()
      ensures (forall id :: leaf(id) != Failed("error") && leaf(id) != Failed("saturated")) ==> clean
      ensures clean ==> cursor == length && NoneStale(pel, cursor, now, minIdle)
      ensures clean ==> forall id :: id in pel ==> id in old(pel) && pel[id] == old(pel)[id]
      ensures clean ==> forall id :: id in old(pel) ==> id in pel || id in records
      ensures clean ==> forall id :: old(cursor) <= id < length ==> id in records
      ensures !clean ==> exists id ::
        id in pel && pel[id].owner == c && pel[id].count <= maxAttempts && (leaf(id) == Failed("error") || leaf(id) == Failed("saturated"))
    {
      while true
        invariant Valid() && old(cursor) <= cursor
        invariant forall id :: id in pel ==> id in old(pel) && pel[id] == old(pel)[id]
        invariant forall id :: id in old(pel) ==> id in pel || id in records
        invariant forall id :: old(cursor) <= id < cursor ==> id in records
        decreases 2 * (length - cursor) + |pel|
      {
        ghost var before, at := pel, cursor;
        var out := ProcessOne(c, now, minIdle, maxAttempts, leaf);
        if out.NoWork? {
          break;
        }
        if out.Retry? {
          assert out.id in pel;
          return false;
        }
        assert pel == before - {out.id} && out.id in records;
        forall id | id in old(pel) ensures id in pel || id in records {
          assert id != out.id && id in before ==> id in pel;
        }
        forall id | old(cursor) <= id < cursor ensures id in records {
          assert id < at || id == out.id;
        }
      }
      ghost var left := pel;
      DeleteConsumer(c);
      assert pel == left;
      return true;
    }
  }

  /** No row that a claim looks at is stale. */
  predicate NoneStale(pel: Pending, cursor: nat, now: nat, minIdle: nat) {
    forall id :: id in FirstPending(pel, cursor, RECLAIM_SCAN) ==> !Stale(pel, id, now, minIdle)
  }

  /** The lowest stale row that a claim looks at. */
  predicate FirstStale(pel: Pending, cursor: nat, id: EntryId, now: nat, minIdle: nat) {
    && id in FirstPending(pel, cursor, RECLAIM_SCAN) && Stale(pel, id, now, minIdle)
    && forall x :: x in FirstPending(pel, cursor, RECLAIM_SCAN) && Stale(pel, x, now, minIdle) ==> id <= x
  }

  /** How often an entry was delivered so far. */
  function Deliveries(pel: Pending, id: EntryId): nat {
    if id in pel then pel[id].count else 0
  }

  /** The lowest `n` pending ids below `upTo`, in order. */
  function FirstPending(pel: Pending, upTo: nat, n: nat): seq<EntryId> {
    if upTo == 0 then [] else
    var rest := FirstPending(pel, upTo - 1, n);
    if |rest| < n && upTo - 1 in pel then rest + [upTo - 1] else rest
  }

  lemma {:induction false} FirstPendingIsPending(pel: Pending, upTo: nat, n: nat)
    ensures forall id :: id in FirstPending(pel, upTo, n) ==> id in pel && id < upTo
    ensures forall i, j :: 0 <= i < j < |FirstPending(pel, upTo, n)| ==> FirstPending(pel, upTo, n)[i] < FirstPending(pel, upTo, n)[j]
    ensures forall id, x :: x in FirstPending(pel, upTo, n) && id in pel && id < x ==> id in FirstPending(pel, upTo, n)
    ensures |FirstPending(pel, upTo, n)| <= n
  {
    if upTo > 0 {
      FirstPendingIsPending(pel, upTo - 1, n);
      var rest := FirstPending(pel, upTo - 1, n);
      assert forall i :: 0 <= i < |rest| ==> rest[i] in rest;
      if |rest| < n {
        ShortIsAll(pel, upTo - 1, n);
      }
    }
  }

  /** A list shorter than asked for holds every row, and so does one of a pending list that is no longer. */
  lemma {:induction false} FirstPendingIsAll(pel: Pending, upTo: nat, n: nat)
    ensures |FirstPending(pel, upTo, n)| < n || |pel| <= n ==> forall id :: id in pel && id < upTo ==> id in FirstPending(pel, upTo, n)
  {
    FirstPendingIsPending(pel, upTo, n);
    if |FirstPending(pel, upTo, n)| < n {
      ShortIsAll(pel, upTo, n);
    } else if |pel| <= n {
      var front := FirstPending(pel, upTo, n);
      DistinctCard(front);
      assert |pel| == |pel.Keys|;
      FullIsAll(Members(front), pel.Keys);
    }
  }

  lemma {:induction false} ShortIsAll(pel: Pending, upTo: nat, n: nat)
    requires |FirstPending(pel, upTo, n)| < n
    ensures forall id :: id in pel && id < upTo ==> id in FirstPending(pel, upTo, n)
  {
    if upTo > 0 {
      ShortIsAll(pel, upTo - 1, n);
    }
  }

  lemma {:induction false} DistinctCard(s: seq<EntryId>)
    requires forall i, j :: 0 <= i < j < |s| ==> s[i] < s[j]
    ensures |Members(s)| == |s|
  {
    if s != [] {
      var init, last := s[..|s| - 1], s[|s| - 1];
      DistinctCard(init);
      assert s == init + [last];
      assert Members(s) == Members(init) + {last};
    }
  }

  function Members(s: seq<EntryId>): set<EntryId> {
    set id | id in s
  }

  lemma FullIsAll(a: set<EntryId>, b: set<EntryId>)
    requires a <= b && |a| >= |b|
    ensures a == b
  {
    if x :| x in b && x !in a {
      SubsetCard(a, b - {x});
    }
  }

  lemma RemoveCard(pel: Pending, id: EntryId)
    ensures |pel - {id}| == |pel| - if id in pel then 1 else 0
  {
    assert (pel - {id}).Keys == pel.Keys - {id};
    assert |pel| == |pel.Keys| && |pel - {id}| == |(pel - {id}).Keys|;
  }
}
