/**
  The credential store in Vault: one document per subject, which an update reads, changes
  and writes at the version it read, by any number of replicas at once.
*/
module VaultStore {
  import opened Prelude

  type Name = string
  type Entry = string

  /** A subject's document: its format, its credentials and the fields this version does not know. */
  datatype Document = Document(v: nat, credentials: map<Name, Entry>, other: map<string, string>)

  const EMPTY_DOCUMENT := Document(1, map[], map[])
  const CAS_ATTEMPTS := 5

  datatype Change = Put(name: Name, entry: Entry) | Delete(name: Name)

  /** The document to write, or nothing when there is nothing to change. */
  function Apply(c: Change, doc: Option<Document>): Option<Document> {
    match c
    case Put(name, entry) =>
      var d := if doc.Some? then doc.value else EMPTY_DOCUMENT;
      Some(d.(credentials := d.credentials[name := entry]))
    case Delete(name) =>
      if doc.Some? && name in doc.value.credentials then Some(doc.value.(credentials := doc.value.credentials - {name})) else None
  }

  /** A document of another format is refused, for reads and writes alike. */
  predicate Readable(doc: Option<Document>) {
    doc.Some? ==> doc.value.v == 1
  }

  /** Changes one after the other, each on the document the one before it left. */
  function Fold(doc: Option<Document>, cs: seq<Change>): Option<Document> {
    if cs == [] then doc else
    var before, next := Fold(doc, cs[..|cs| - 1]), cs[|cs| - 1];
    if Apply(next, before).Some? then Apply(next, before) else before
  }

  // ---------------------------------------------------------------------------
  // What a sequence of changes leaves

  /** The last change that names this credential. */
  function LastOn(cs: seq<Change>, name: Name): Option<Change> {
    if cs == [] then None
    else if cs[|cs| - 1].name == name then Some(cs[|cs| - 1])
    else LastOn(cs[..|cs| - 1], name)
  }

  function Lookup(doc: Option<Document>, name: Name): Option<Entry> {
    if doc.Some? && name in doc.value.credentials then Some(doc.value.credentials[name]) else None
  }

  /** Each credential is as the last change to it left it, and everything else is as it was. */
  lemma {:induction false} FoldIsLastWrite(doc: Option<Document>, cs: seq<Change>, name: Name)
    ensures Lookup(Fold(doc, cs), name) ==
      match LastOn(cs, name)
      case None => Lookup(doc, name)
      case Some(Put(_, entry)) => Some(entry)
      case Some(Delete(_)) => None
    ensures doc.Some? ==> Fold(doc, cs).Some? && Fold(doc, cs).value.other == doc.value.other && Fold(doc, cs).value.v == doc.value.v
    ensures doc.None? && Fold(doc, cs).Some? ==> Fold(doc, cs).value.other == map[] && Fold(doc, cs).value.v == 1
  {
    if cs != [] {
      FoldIsLastWrite(doc, cs[..|cs| - 1], name);
    }
  }

  lemma FoldNothing(doc: Option<Document>)
    ensures Fold(doc, []) == doc
  {
  }

  lemma FoldSnoc(doc: Option<Document>, cs: seq<Change>, c: Change)
    ensures Fold(doc, cs + [c]) == if Apply(c, Fold(doc, cs)).Some? then Apply(c, Fold(doc, cs)) else Fold(doc, cs)
  {
    assert (cs + [c])[..|cs|] == cs;
  }

  // ---------------------------------------------------------------------------
  // Replicas at work

  /** One update: not begun or refused by check-and-set, holding what it will write, or over. */
  datatype Phase =
    | Ready
    | Holding(next: Document, cas: nat)
    | Acked
    | Unchanged
    | Unavailable
    | OutRaced

  /**
    An update. `start` is the version when it began; `stale` records that the document was deleted
    out of band since it was last read.
  */
  datatype Op = Op(change: Change, phase: Phase, attempts: nat, start: nat, stale: bool)

  /** A write that was accepted: which update made it, and its change. */
  datatype Commit = Commit(op: nat, change: Change)

  /**
    The secret at the subject's path, the updates under way, and the writes accepted so far.
    `base` and `since` record the document at the last out-of-band deletion, or at the outset, and
    how many writes had been accepted by then.
  */
  datatype State = State(
    latest: Option<Document>, version: nat, ops: seq<Op>, commits: seq<Commit>, base: Option<Document>, since: nat)

  datatype Event =
    | Start(change: Change)
    | Read(op: nat, fails: bool)
    | Write(op: nat, reply: Reply)
    | SoftDelete

  /** How a write's request fares: it does not arrive, its answer is lost, or it is answered. */
  datatype Reply = NotSent | Lost | Answered

  function OnRead(st: State, o: nat, fails: bool): State {
    if o >= |st.ops| || !st.ops[o].phase.Ready? then st else
    var op := st.ops[o];
    var phase :=
      if fails || !Readable(st.latest) then Unavailable else
      match Apply(op.change, st.latest)
      case None => Unchanged
      case Some(next) => Holding(next, st.version);
    st.(ops := st.ops[o := op.(phase := phase, stale := false)])
  }

  function AfterRefusal(op: Op): Op {
    op.(attempts := op.attempts + 1, phase := if op.attempts + 1 >= CAS_ATTEMPTS then OutRaced else Ready)
  }

  function OnWrite(st: State, o: nat, reply: Reply): State {
    if o >= |st.ops| || !st.ops[o].phase.Holding? then st else
    var op := st.ops[o];
    if reply.NotSent? then st.(ops := st.ops[o := op.(phase := Unavailable)])
    else if op.phase.cas != st.version then st.(ops := st.ops[o := if reply.Lost? then op.(phase := Unavailable) else AfterRefusal(op)])
    else st.(
      latest := Some(op.phase.next), version := st.version + 1,
      ops := st.ops[o := op.(phase := if reply.Lost? then Unavailable else Acked)],
      commits := st.commits + [Commit(o, op.change)])
  }

  function Step(st: State, e: Event): State {
    match e
    case Start(c) => st.(ops := st.ops + [Op(c, Ready, 0, st.version, false)])
    case Read(o, fails) => OnRead(st, o, fails)
    case Write(o, reply) => OnWrite(st, o, reply)
    case SoftDelete => OnSoftDelete(st)
  }

  function MarkStale(ops: seq<Op>): (r: seq<Op>)
    ensures |r| == |ops| && forall o :: 0 <= o < |ops| ==> r[o] == ops[o].(stale := true)
  {
    if ops == [] then [] else MarkStale(ops[..|ops| - 1]) + [ops[|ops| - 1].(stale := true)]
  }

  /** A deletion by someone else: the version stays, the document is gone. */
  function OnSoftDelete(st: State): State {
    st.(latest := None, ops := MarkStale(st.ops), base := None, since := |st.commits|)
  }

  function Run(init: State, es: seq<Event>): State {
    if es == [] then init else Step(Run(init, es[..|es| - 1]), es[|es| - 1])
  }

  /** A secret as found, with no update under way. */
  predicate Fresh(st: State) {
    st.ops == [] && st.commits == [] && st.base == st.latest && st.since == 0
  }

  function Found(doc: Option<Document>, version: nat): (st: State)
    ensures Fresh(st)
  {
    State(doc, version, [], [], doc, 0)
  }

  function Changes(cs: seq<Commit>): seq<Change> {
    if cs == [] then [] else Changes(cs[..|cs| - 1]) + [cs[|cs| - 1].change]
  }

  // ---------------------------------------------------------------------------
  // What every run keeps

  /** The updates that have a write among these. */
  function Count(cs: seq<Commit>, o: nat): nat {
    if cs == [] then 0 else Count(cs[..|cs| - 1], o) + if cs[|cs| - 1].op == o then 1 else 0
  }

  predicate OpOk(op: Op, version: nat, count: nat) {
    && op.start + op.attempts <= version
    && (op.phase.Ready? || op.phase.Holding? ==> op.attempts < CAS_ATTEMPTS && count == 0)
    && (op.phase.Holding? ==> op.start + op.attempts <= op.phase.cas <= version)
    && (op.phase.Acked? ==> count == 1)
    && (op.phase.Unavailable? ==> count <= 1)
    && (op.phase.Unchanged? ==> count == 0)
    && (op.phase.OutRaced? ==> count == 0 && op.attempts == CAS_ATTEMPTS)
  }

  ghost predicate OpsOk(st: State) {
    && (forall o :: 0 <= o < |st.ops| ==> OpOk(st.ops[o], st.version, Count(st.commits, o)))
    && (forall o: nat :: o >= |st.ops| ==> Count(st.commits, o) == 0)
  }

  /** What is held is the change applied to a document of that version, unless it was deleted meanwhile. */
  predicate Held(op: Op, latest: Option<Document>, version: nat) {
    op.phase.Holding? && op.phase.cas == version && !op.stale ==> Apply(op.change, latest) == Some(op.phase.next)
  }

  predicate HeldOk(st: State) {
    forall o :: 0 <= o < |st.ops| ==> Held(st.ops[o], st.latest, st.version)
  }

  ghost predicate FromCommits(init: State, st: State) {
    && st.since <= |st.commits| && st.latest == Fold(st.base, Changes(st.commits[st.since..]))
    && st.version == init.version + |st.commits|
  }

  predicate OwnChanges(st: State) {
    forall i :: 0 <= i < |st.commits| ==> st.commits[i].op < |st.ops| && st.commits[i].change == st.ops[st.commits[i].op].change
  }

  lemma CountSnoc(cs: seq<Commit>, c: Commit, o: nat)
    ensures Count(cs + [c], o) == Count(cs, o) + if c.op == o then 1 else 0
  {
    assert (cs + [c])[..|cs|] == cs;
  }

  lemma ChangesSnoc(cs: seq<Commit>, c: Commit)
    ensures Changes(cs + [c]) == Changes(cs) + [c.change]
  {
    assert (cs + [c])[..|cs|] == cs;
  }

  lemma WriteKeepsOps(st: State, o: nat, reply: Reply)
    requires OpsOk(st)
    ensures OpsOk(OnWrite(st, o, reply))
  {
    hide Count;
    if o < |st.ops| && st.ops[o].phase.Holding? {
      var n, c := OnWrite(st, o, reply), Commit(o, st.ops[o].change);
      forall p: nat ensures Count(st.commits + [c], p) == Count(st.commits, p) + if p == o then 1 else 0 {
        CountSnoc(st.commits, c, p);
      }
      forall p: nat | p < |n.ops| ensures OpOk(n.ops[p], n.version, Count(n.commits, p)) {
        assert OpOk(st.ops[p], st.version, Count(st.commits, p));
      }
    }
  }

  lemma StepKeepsOps(st: State, e: Event)
    requires OpsOk(st)
    ensures OpsOk(Step(st, e))
  {
    if e.Write? {
      WriteKeepsOps(st, e.op, e.reply);
    }
  }

  lemma WriteKeepsFold(init: State, st: State, o: nat, reply: Reply)
    requires HeldOk(st) && FromCommits(init, st) && OpsOk(st) && !StaleWrite(st, Write(o, reply))
    ensures HeldOk(OnWrite(st, o, reply)) && FromCommits(init, OnWrite(st, o, reply))
  {
    hide Fold, Apply, Changes, Count;
    if o < |st.ops| && st.ops[o].phase.Holding? {
      assert Held(st.ops[o], st.latest, st.version);
      var c := Commit(o, st.ops[o].change);
      ChangesSnoc(st.commits[st.since..], c);
      FoldSnoc(st.base, Changes(st.commits[st.since..]), c.change);
      assert (st.commits + [c])[st.since..] == st.commits[st.since..] + [c];
      var n := OnWrite(st, o, reply);
      assert HeldOk(n) by {
        forall p | 0 <= p < |n.ops| ensures Held(n.ops[p], n.latest, n.version) {
          assert Held(st.ops[p], st.latest, st.version) && OpOk(st.ops[p], st.version, Count(st.commits, p));
        }
      }
    }
  }

  lemma {:induction false} ReachableOps(init: State, es: seq<Event>)
    requires Fresh(init)
    ensures OpsOk(Run(init, es)) && OwnChanges(Run(init, es))
  {
    hide OpOk, Apply;
    if es != [] {
      ReachableOps(init, es[..|es| - 1]);
      StepKeepsOps(Run(init, es[..|es| - 1]), es[|es| - 1]);
    }
  }

  /** A write that is accepted although the document was deleted since it was read. */
  predicate StaleWrite(st: State, e: Event) {
    && e.Write? && !e.reply.NotSent? && e.op < |st.ops|
    && st.ops[e.op].phase.Holding? && st.ops[e.op].phase.cas == st.version && st.ops[e.op].stale
  }

  ghost predicate NoStaleWrite(init: State, es: seq<Event>) {
    es != [] ==> NoStaleWrite(init, es[..|es| - 1]) && !StaleWrite(Run(init, es[..|es| - 1]), es[|es| - 1])
  }

  lemma {:induction false} ReachableFold(init: State, es: seq<Event>)
    requires Fresh(init) && NoStaleWrite(init, es)
    ensures HeldOk(Run(init, es)) && FromCommits(init, Run(init, es))
  {
    if es == [] {
      assert init.commits[0..] == [];
    } else {
      var before, last := es[..|es| - 1], es[|es| - 1];
      var st := Run(init, before);
      ReachableFold(init, before);
      ReachableOps(init, before);
      if last.Write? {
        WriteKeepsFold(init, st, last.op, last.reply);
      } else if last.SoftDelete? {
        assert st.commits[|st.commits|..] == [];
      }
    }
  }

  /** Where nobody deletes out of band, no write is stale and nothing interrupts the sequence of changes. */
  lemma {:induction false} NoSoftDeleteNoStale(init: State, es: seq<Event>)
    requires Fresh(init) && forall i :: 0 <= i < |es| ==> !es[i].SoftDelete?
    ensures NoStaleWrite(init, es) && Run(init, es).base == init.latest && Run(init, es).since == 0
    ensures forall o :: 0 <= o < |Run(init, es).ops| ==> !Run(init, es).ops[o].stale
  {
    hide Apply;
    if es != [] {
      NoSoftDeleteNoStale(init, es[..|es| - 1]);
    }
  }

  /**
    However the replicas interleave, the stored document is the accepted changes one after the
    other in version order, since the outset or the last out-of-band deletion: no update is lost,
    and none is applied to a stale document.
  */
  lemma NoLostUpdate(init: State, es: seq<Event>)
    requires Fresh(init) && NoStaleWrite(init, es)
    ensures var st := Run(init, es);
      && st.since <= |st.commits| && st.latest == Fold(st.base, Changes(st.commits[st.since..]))
      && st.version == init.version + |st.commits|
  {
    ReachableFold(init, es);
  }

  /** An acknowledged update was written exactly once, one that changed nothing or was out-raced never. */
  lemma AckedExactlyOnce(init: State, es: seq<Event>, o: nat)
    requires Fresh(init) && o < |Run(init, es).ops|
    ensures var st := Run(init, es); var phase := st.ops[o].phase;
      && (phase.Acked? ==> Count(st.commits, o) == 1)
      && (phase.Unchanged? || phase.OutRaced? ==> Count(st.commits, o) == 0)
      && Count(st.commits, o) <= 1
      && forall i :: 0 <= i < |st.commits| && st.commits[i].op == o ==> st.commits[i].change == st.ops[o].change
  {
    ReachableOps(init, es);
  }

  /** An update is out-raced only if five other writes were accepted since it began. */
  lemma OutRacedMeansProgress(init: State, es: seq<Event>, o: nat)
    requires Fresh(init) && o < |Run(init, es).ops| && Run(init, es).ops[o].phase.OutRaced?
    ensures Run(init, es).version >= Run(init, es).ops[o].start + CAS_ATTEMPTS && Count(Run(init, es).commits, o) == 0
  {
    ReachableOps(init, es);
    assert OpOk(Run(init, es).ops[o], Run(init, es).version, Count(Run(init, es).commits, o));
  }

  /** An acknowledged credential is what a read finds until a later write names it, and no unknown field is lost. */
  lemma AcknowledgedPutStays(init: State, es: seq<Event>, i: nat)
    requires Fresh(init) && NoStaleWrite(init, es)
    requires Run(init, es).since <= i < |Run(init, es).commits| && Run(init, es).commits[i].change.Put?
    requires var cs := Run(init, es).commits; forall j :: i < j < |cs| ==> cs[j].change.name != cs[i].change.name
    ensures var st := Run(init, es); var c := st.commits[i].change;
      && Lookup(st.latest, c.name) == Some(c.entry)
      && st.latest.value.other == if st.base.Some? then st.base.value.other else map[]
  {
    var st := Run(init, es);
    var made := st.commits[st.since..];
    var cs, k := Changes(made), i - st.since;
    NoLostUpdate(init, es);
    ChangesAt(made);
    LastOnIs(cs, k);
    FoldIsLastWrite(st.base, cs, cs[k].name);
  }

  lemma {:induction false} ChangesAt(cs: seq<Commit>)
    ensures |Changes(cs)| == |cs| && forall i :: 0 <= i < |cs| ==> Changes(cs)[i] == cs[i].change
  {
    if cs != [] {
      ChangesAt(cs[..|cs| - 1]);
    }
  }

  lemma {:induction false} LastOnIs(cs: seq<Change>, i: nat)
    requires i < |cs| && forall j :: i < j < |cs| ==> cs[j].name != cs[i].name
    ensures LastOn(cs, cs[i].name) == Some(cs[i])
  {
    if i < |cs| - 1 {
      LastOnIs(cs[..|cs| - 1], i);
    }
  }

  /** An update whose document was deleted since it was read can be accepted only while the document is gone. */
  predicate StaleOk(st: State) {
    forall o :: 0 <= o < |st.ops| && st.ops[o].phase.Holding? && st.ops[o].stale && st.ops[o].phase.cas == st.version ==>
      st.latest.None? && st.since == |st.commits|
  }

  lemma StepKeepsStaleOk(st: State, e: Event)
    requires OpsOk(st) && StaleOk(st)
    ensures StaleOk(Step(st, e))
  {
    hide Count, Apply;
    var n := Step(st, e);
    forall o | 0 <= o < |n.ops| && n.ops[o].phase.Holding? && n.ops[o].stale && n.ops[o].phase.cas == n.version
      ensures n.latest.None? && n.since == |n.commits|
    {
      if o < |st.ops| {
        assert OpOk(st.ops[o], st.version, Count(st.commits, o));
      }
    }
  }

  lemma {:induction false} ReachableStaleOk(init: State, es: seq<Event>)
    requires Fresh(init)
    ensures StaleOk(Run(init, es))
  {
    hide Step;
    if es != [] {
      ReachableStaleOk(init, es[..|es| - 1]);
      ReachableOps(init, es[..|es| - 1]);
      StepKeepsStaleOk(Run(init, es[..|es| - 1]), es[|es| - 1]);
    }
  }

  /**
    After any run without a stale write, accepting one breaks the law if and only if what it writes
    is not its change made to no document at all: a put is harmless exactly when the deleted document
    held nothing else, and a delete never is.
  */
  lemma StaleWriteBreaksIff(init: State, es: seq<Event>, e: Event)
    requires Fresh(init) && NoStaleWrite(init, es) && StaleWrite(Run(init, es), e)
    ensures var op := Run(init, es).ops[e.op];
      FromCommits(init, Step(Run(init, es), e)) <==> Apply(op.change, None) == Some(op.phase.next)
  {
    ReachableFold(init, es);
    ReachableStaleOk(init, es);
    StaleStep(init, Run(init, es), e);
  }

  lemma StaleStep(init: State, st: State, e: Event)
    requires FromCommits(init, st) && StaleOk(st) && StaleWrite(st, e)
    ensures FromCommits(init, Step(st, e)) <==> Apply(st.ops[e.op].change, None) == Some(st.ops[e.op].phase.next)
  {
    hide Fold, Changes, Apply;
    var op := st.ops[e.op];
    var c := Commit(e.op, op.change);
    assert st.commits[st.since..] == [] && (st.commits + [c])[st.since..] == [c];
    FoldNothing(st.base);
    ChangesSnoc([], c);
    assert [] + [c] == [c];
    NoChanges();
    FoldSnoc(st.base, [], op.change);
    assert [] + [op.change] == [op.change];
  }

  lemma NoChanges()
    ensures Changes([]) == []
  {
  }

  /** An update that nobody disturbs is acknowledged at once, or finds nothing to delete, and a read then finds its effect. */
  lemma UndisturbedUpdate(st: State, o: nat)
    requires o < |st.ops| && st.ops[o].phase.Ready? && (st.latest.Some? ==> st.latest.value.v == 1)
    ensures var c := st.ops[o].change; var n := Step(Step(st, Read(o, false)), Write(o, Answered));
      && n.ops[o].phase == (if c.Put? || Lookup(st.latest, c.name).Some? then Acked else Unchanged)
      && n.version == st.version + (if n.ops[o].phase.Acked? then 1 else 0)
      && Lookup(n.latest, c.name) == (if c.Put? then Some(c.entry) else None)
      && forall name :: name != c.name ==> Lookup(n.latest, name) == Lookup(st.latest, name)
  {
    var m := Step(st, Read(o, false));
    assert m.ops[o].phase.Holding? || m.ops[o].phase.Unchanged?;
  }

  /** A write that is answered is accepted, or refused for its version: then it is tried again, five times in all. */
  lemma AnsweredWrite(st: State, o: nat)
    requires o < |st.ops| && st.ops[o].phase.Holding? && st.ops[o].attempts < 5
    ensures var op, n := st.ops[o], Step(st, Write(o, Answered));
      if op.phase.cas == st.version then n.ops[o].phase == Acked && n.latest == Some(op.phase.next) && n.version == st.version + 1
      else
        && n.ops[o].attempts == op.attempts + 1 && n.latest == st.latest && n.version == st.version
        && n.ops[o].phase == (if op.attempts == 4 then OutRaced else Ready)
  {
    var n := Step(st, Write(o, Answered));
    assert n.ops[o] == OnWrite(st, o, Answered).ops[o];
  }

  /** An update turns unavailable exactly when its read fails or finds another format, or its write gets no answer. */
  lemma UnavailableIff(st: State, e: Event, o: nat)
    requires o < |st.ops| && !st.ops[o].phase.Unavailable?
    ensures Step(st, e).ops[o].phase.Unavailable? <==>
      || (e.Read? && e.op == o && st.ops[o].phase.Ready? && (e.fails || (st.latest.Some? && st.latest.value.v != 1)))
      || (e.Write? && e.op == o && st.ops[o].phase.Holding? && !e.reply.Answered?)
  {
    if e.Read? && e.op == o {
      assert st.ops[o].phase.Ready? ==> Step(st, e).ops[o].phase == OnRead(st, o, e.fails).ops[o].phase;
    }
  }

  /** A deletion out of band keeps the version, so an update that had read before it brings the deleted document back. */
  lemma SoftDeleteIsUndone()
    ensures var init := Found(Some(Document(1, map["a" := "x"], map[])), 1);
      Run(init, [Start(Put("b", "y")), Read(0, false), SoftDelete, Write(0, Answered)]).latest
      == Some(Document(1, map["a" := "x", "b" := "y"], map[]))
    ensures var init := Found(Some(Document(1, map["a" := "x"], map[])), 1);
      var st := Run(init, [Start(Put("b", "y")), Read(0, false), SoftDelete]);
      st.latest == None && st.version == 1
  {
    var init := Found(Some(Document(1, map["a" := "x"], map[])), 1);
    var a := [Start(Put("b", "y"))];
    var b := a + [Read(0, false)];
    var c := b + [SoftDelete];
    var d := c + [Write(0, Answered)];
    assert a[..0] == [] && b[..1] == a && c[..2] == b && d[..3] == c;
    assert Run(init, a) == Step(init, Start(Put("b", "y")));
    assert Run(init, b) == Step(Run(init, a), Read(0, false));
    assert c == [Start(Put("b", "y")), Read(0, false), SoftDelete];
    assert d == [Start(Put("b", "y")), Read(0, false), SoftDelete, Write(0, Answered)];
  }

  // ---------------------------------------------------------------------------
  // The update loop

  datatype Outcome = Done(attempts: nat) | Nothing(attempts: nat) | Failed(attempts: nat, written: bool) | GaveUp

  /** What happens around one attempt: the read fails or not, other replicas write, the write fares so. */
  datatype Fate = Fate(readFails: bool, meanwhile: seq<Change>, reply: Reply)

  /** How many of these changes, one after the other, write anything. */
  function Writes(doc: Option<Document>, cs: seq<Change>): nat {
    if cs == [] then 0 else
    Writes(doc, cs[..|cs| - 1]) + if Apply(cs[|cs| - 1], Fold(doc, cs[..|cs| - 1])).Some? then 1 else 0
  }

  lemma WritesSnoc(doc: Option<Document>, cs: seq<Change>, c: Change)
    ensures Writes(doc, cs + [c]) == Writes(doc, cs) + if Apply(c, Fold(doc, cs)).Some? then 1 else 0
  {
    assert (cs + [c])[..|cs|] == cs;
  }

  /** The document that attempt `k` reads. */
  function AtAttempt(doc: Option<Document>, fates: seq<Fate>, k: nat): Option<Document>
    requires 1 <= k <= |fates|
  {
    Fold(doc, Meanwhile(fates[..k - 1]))
  }

  /** The attempt reads a document of this format. */
  predicate ReadsAt(doc: Option<Document>, fates: seq<Fate>, k: nat)
    requires 1 <= k <= |fates|
  {
    !fates[k - 1].readFails && (AtAttempt(doc, fates, k).Some? ==> AtAttempt(doc, fates, k).value.v == 1)
  }

  /** Somebody else's write comes between the attempt's read and its own. */
  predicate RacedAt(doc: Option<Document>, fates: seq<Fate>, k: nat)
    requires 1 <= k <= |fates|
  {
    Writes(AtAttempt(doc, fates, k), fates[k - 1].meanwhile) > 0
  }

  /** The attempt is refused for a race it lost, and the next one is made. */
  predicate RefusedAt(change: Change, doc: Option<Document>, fates: seq<Fate>, k: nat)
    requires 1 <= k <= |fates|
  {
    && ReadsAt(doc, fates, k) && Apply(change, AtAttempt(doc, fates, k)).Some?
    && RacedAt(doc, fates, k) && fates[k - 1].reply.Answered?
  }

  /** The changes of the first attempts' other replicas. */
  function Meanwhile(fates: seq<Fate>): seq<Change> {
    if fates == [] then [] else Meanwhile(fates[..|fates| - 1]) + fates[|fates| - 1].meanwhile
  }

  class Secret {
    var latest: Option<Document>
    var version: nat

    /** Another replica's complete update. */
    method Accept(c: Change)
      modifies this
      ensures latest == if Apply(c, old(latest)).Some? then Apply(c, old(latest)) else old(latest)
      ensures version == old(version) + if Apply(c, old(latest)).Some? then 1 else 0
    {
      var next := Apply(c, latest);
      if next.Some? {
        latest, version := next, version + 1;
      }
    }

    /** Other replicas' updates: the version stays only if the document did. */
    method AcceptAll(cs: seq<Change>)
      modifies this
      ensures latest == Fold(old(latest), cs) && version == old(version) + Writes(old(latest), cs)
      ensures version == old(version) ==> latest == old(latest)
    {
      hide Fold, Apply;
      FoldNothing(latest);
      for i := 0 to |cs|
        invariant latest == Fold(old(latest), cs[..i]) && version == old(version) + Writes(old(latest), cs[..i])
        invariant version == old(version) ==> latest == old(latest)
      {
        assert cs[..i + 1] == cs[..i] + [cs[i]];
        FoldSnoc(old(latest), cs[..i], cs[i]);
        WritesSnoc(old(latest), cs[..i], cs[i]);
        Accept(cs[i]);
      }
      assert cs[..|cs|] == cs;
    }

    /**
      One update, with what other replicas do before each of its writes. It ends with its change
      applied to all that was accepted before it, or with the document as the others left it. How
      it ends is told by its last attempt alone, every earlier one having lost a race.
    */
    method UpdateOnce(change: Change, fates: seq<Fate>) returns (r: Outcome)
      requires |fates| == CAS_ATTEMPTS
      modifies this
      ensures !r.GaveUp? ==> 1 <= r.attempts <= CAS_ATTEMPTS
      ensures forall k :: 1 <= k <= (if r.GaveUp? then CAS_ATTEMPTS else r.attempts - 1) ==>
        RefusedAt(change, old(latest), fates, k)
      ensures r.Done? ==>
        && ReadsAt(old(latest), fates, r.attempts) && fates[r.attempts - 1].reply.Answered?
        && !RacedAt(old(latest), fates, r.attempts)
      ensures r.Nothing? ==> ReadsAt(old(latest), fates, r.attempts)
      ensures r.Failed? && r.written ==>
        && ReadsAt(old(latest), fates, r.attempts) && fates[r.attempts - 1].reply.Lost?
        && !RacedAt(old(latest), fates, r.attempts)
      ensures r.Failed? && !r.written ==>
        || !ReadsAt(old(latest), fates, r.attempts)
        || (Apply(change, AtAttempt(old(latest), fates, r.attempts)).Some? &&
            (fates[r.attempts - 1].reply.NotSent? ||
             (fates[r.attempts - 1].reply.Lost? && RacedAt(old(latest), fates, r.attempts))))
      ensures fates[0] == Fate(false, [], Answered) && (old(latest).Some? ==> old(latest).value.v == 1) ==>
        && r == (if change.Put? || Lookup(old(latest), change.name).Some? then Done(1) else Nothing(1))
        && Lookup(latest, change.name) == (if change.Put? then Some(change.entry) else None)
      ensures r.Done? || (r.Failed? && r.written) ==>
        latest == Apply(change, Fold(old(latest), Meanwhile(fates[..r.attempts]))) && latest.Some?
      ensures r.Nothing? ==>
        latest == Fold(old(latest), Meanwhile(fates[..r.attempts - 1])) && Apply(change, latest).None?
      ensures r.Failed? && !r.written ==>
        latest in {Fold(old(latest), Meanwhile(fates[..r.attempts - 1])), Fold(old(latest), Meanwhile(fates[..r.attempts]))}
      ensures r.GaveUp? ==>
        latest == Fold(old(latest), Meanwhile(fates)) && version >= old(version) + CAS_ATTEMPTS
      ensures r.Done? || (r.Failed? && r.written) ==>
        version == old(version) + Writes(old(latest), Meanwhile(fates[..r.attempts])) + 1
    {
      hide Fold, Writes, Meanwhile;
      var attempt := 1;
      FirstAttempt(latest, fates);
      while attempt <= CAS_ATTEMPTS
        invariant 1 <= attempt <= CAS_ATTEMPTS + 1
        invariant latest == Fold(old(latest), Meanwhile(fates[..attempt - 1]))
        invariant version >= old(version) + attempt - 1
        invariant version == old(version) + Writes(old(latest), Meanwhile(fates[..attempt - 1]))
        invariant forall k :: 1 <= k < attempt ==> RefusedAt(change, old(latest), fates, k)
        invariant attempt > 1 ==> fates[0].meanwhile != []
      {
        var fate := fates[attempt - 1];
        if fate.readFails || !Readable(latest) {
          return Failed(attempt, false);
        }
        var doc, cas := latest, version;
        var next := Apply(change, doc);
        if next.None? {
          return Nothing(attempt);
        }
        AcceptAll(fate.meanwhile);
        MeanwhileStep(old(latest), fates, attempt);
        if fate.reply.NotSent? {
          return Failed(attempt, false);
        }
        if cas == version {
          latest, version := next, version + 1;
          return if fate.reply.Lost? then Failed(attempt, true) else Done(attempt);
        }
        if fate.reply.Lost? {
          return Failed(attempt, false);
        }
        attempt := attempt + 1;
      }
      assert fates[..CAS_ATTEMPTS] == fates;
      return GaveUp;
    }
  }

  lemma FirstAttempt(doc: Option<Document>, fates: seq<Fate>)
    ensures Fold(doc, Meanwhile(fates[..0])) == doc && Writes(doc, Meanwhile(fates[..0])) == 0
    ensures fates != [] && fates[0].meanwhile == [] ==> !RacedAt(doc, fates, 1)
  {
  }

  lemma MeanwhileStep(doc: Option<Document>, fates: seq<Fate>, attempt: nat)
    requires 1 <= attempt <= |fates|
    ensures var before, now := Meanwhile(fates[..attempt - 1]), fates[attempt - 1].meanwhile;
      && Fold(doc, Meanwhile(fates[..attempt])) == Fold(Fold(doc, before), now)
      && Writes(doc, Meanwhile(fates[..attempt])) == Writes(doc, before) + Writes(Fold(doc, before), now)
  {
    assert fates[..attempt][..attempt - 1] == fates[..attempt - 1];
    FoldConcat(doc, Meanwhile(fates[..attempt - 1]), fates[attempt - 1].meanwhile);
    WritesConcat(doc, Meanwhile(fates[..attempt - 1]), fates[attempt - 1].meanwhile);
  }

  lemma {:induction false} WritesConcat(doc: Option<Document>, a: seq<Change>, b: seq<Change>)
    ensures Writes(doc, a + b) == Writes(doc, a) + Writes(Fold(doc, a), b)
  {
    hide Apply, Fold;
    if b == [] {
      assert a + b == a;
    } else {
      assert (a + b)[..|a + b| - 1] == a + b[..|b| - 1];
      WritesConcat(doc, a, b[..|b| - 1]);
      FoldConcat(doc, a, b[..|b| - 1]);
    }
  }

  lemma {:induction false} FoldConcat(doc: Option<Document>, a: seq<Change>, b: seq<Change>)
    ensures Fold(doc, a + b) == Fold(Fold(doc, a), b)
  {
    if b == [] {
      assert a + b == a;
    } else {
      assert (a + b)[..|a + b| - 1] == a + b[..|b| - 1];
      FoldConcat(doc, a, b[..|b| - 1]);
    }
  }
}
