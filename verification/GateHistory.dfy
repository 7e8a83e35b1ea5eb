/** What the gate and the audit log say of a history: an answer depends on the recorded
    deliveries alone, and every audit row is that of the answer given for one of them. */
module GateHistory {
  import opened Names
  import opened Lifecycle
  import opened Reducer
  import opened Growth
  import opened EventStore
  import opened StoreAgreement
  import opened StoreRuns

  // ---------------------------------------------------------------- one recorded delivery

  /** The answer of a delivery that was taken in, whatever became of it. */
  predicate TakenIn(a: Attempt<Receipt>) {
    a.Done? && a.value.disposition != Duplicate
  }

  /** A delivery that is taken in adds one audit row, with the disposition and reason it is
      answered with; any other leaves the store as it was. */
  lemma AuditRowIsTheAnswer(t: Tables, c: Canonical, now: string)
    requires Agrees(t) && WellFormed(c)
    ensures var (u, a) := Deliver(t, c, now);
            if TakenIn(a)
            then u.trail.last == t.trail.last + 1 && a.value.revision == u.trail.last && a.value.reason.Some? &&
                 u.trail.rows == t.trail.rows[u.trail.last :=
                                                AuditRow(c.repositoryId, a.value.disposition, a.value.reason.value, c.event.digest, now)]
            else u == t
  {
    hide Agrees, Union, JudgeUnion, Judge, Project, RecordReceipt, NextStored, RowsAfter, Reduce;
    DeliverAnswers(t, c, now);
    SoundGate(t);
    JudgeIsJudgeUnion(t.gate, c);
    InStep(t);
    InStep(Deliver(t, c, now).0);
  }

  lemma InStep(t: Tables)
    requires Agrees(t)
    ensures t.trail.last == t.gate.sequence
  {
    hide GateSound, AllMatch, Apart, AllOwned, Joins, Union;
  }

  // ---------------------------------------------------------------- histories

  /** The answer to the delivery at step `i`. */
  ghost function AnswerAt(steps: seq<Step>, i: nat): Attempt<Receipt>
    requires i < |steps| && steps[i].Arrive?
  {
    Deliver(After(steps[..i]), steps[i].event, steps[i].now).1
  }

  ghost predicate Took(steps: seq<Step>, i: nat) {
    i < |steps| && steps[i].Arrive? && TakenIn(AnswerAt(steps, i))
  }

  /** The delivery at step `i` was taken in under this revision. */
  ghost predicate TookAs(steps: seq<Step>, i: nat, revision: int) {
    Took(steps, i) && AnswerAt(steps, i).value.revision == revision
  }

  lemma TookBefore(steps: seq<Step>, n: nat, i: nat, revision: int)
    requires i < n <= |steps|
    ensures TookAs(steps[..n], i, revision) <==> TookAs(steps, i, revision)
    ensures steps[i].Arrive? ==> AnswerAt(steps[..n], i) == AnswerAt(steps, i)
  {
    hide Deliver, After, TakenIn;
    assert steps[..n][..i] == steps[..i];
  }

  /** Every audit row that survives is that of the answer given at one step of the history. */
  lemma {:induction false} AuditIsTheAnswers(steps: seq<Step>, n: int) returns (i: nat)
    requires Valid(steps) && n in After(steps).trail.rows
    ensures TookAs(steps, i, n)
    ensures var a := AnswerAt(steps, i).value;
            a.reason.Some? && After(steps).trail.rows[n] ==
            AuditRow(steps[i].event.repositoryId, a.disposition, a.reason.value, steps[i].event.event.digest, steps[i].now)
  {
    hide Agrees, Deliver, Retain;
    var m := |steps| - 1;
    var t, x := After(steps[..m]), steps[m];
    HistoryAgrees(steps[..m]);
    match x
    case Arrive(c, now) =>
      AuditRowIsTheAnswer(t, c, now);
      if TakenIn(Deliver(t, c, now).1) && n == Deliver(t, c, now).0.trail.last {
        i := m;
      } else {
        i := AuditIsTheAnswers(steps[..m], n);
        TookBefore(steps, m, i, n);
      }
    case Prune(p) =>
      RetainKeepsRows(t, p, n);
      i := AuditIsTheAnswers(steps[..m], n);
      TookBefore(steps, m, i, n);
  }

  lemma RetainKeepsRows(t: Tables, p: RetentionPolicy, n: int)
    requires n in Retain(t, p).trail.rows
    ensures n in t.trail.rows && Retain(t, p).trail.rows[n] == t.trail.rows[n]
  {
    hide CompactGate, Earlier, AmongNewest, PendingRevisions;
  }

  // ---------------------------------------------------------------- who is remembered

  /** The row is that of this event, taken in under this revision at this time. */
  predicate RowOf(rows: map<string, Row>, c: Canonical, revision: int, now: string) {
    var id := c.event.id;
    id in rows && rows[id].key == c.event.idempotencyKey && rows[id].digest == c.event.digest && rows[id].revision == revision &&
    rows[id].createdAt == now
  }

  /** The step takes an event in exactly when nothing remembers its id or key. */
  lemma StepRows(t: Tables, x: Step)
    requires Agrees(t) && (x.Arrive? ==> WellFormed(x.event))
    ensures Remembers(Union(t.gate), Union(Do(t, x).gate))
    ensures if x.Arrive? && TakenIn(Deliver(t, x.event, x.now).1)
            then RowOf(Union(Do(t, x).gate), x.event, Deliver(t, x.event, x.now).1.value.revision, x.now) &&
                 Union(Do(t, x).gate)[x.event.event.id].disposition == Deliver(t, x.event, x.now).1.value.disposition &&
                 Union(Do(t, x).gate).Keys == Union(t.gate).Keys + {x.event.event.id}
            else Union(Do(t, x).gate).Keys == Union(t.gate).Keys
  {
    hide Agrees, Deliver, Union, NextStored, Reduce, Promotions, HasKey, CompactGate, JudgeUnion, UpdateRows, RowsAfter;
    NothingIsForgotten(t, x);
    match x
    case Arrive(c, now) =>
      DeliverAnswers(t, c, now);
      RowFields(t, c, now);
      if JudgeUnion(Union(t.gate), c) == Unseen {
        UnseenIsAbsent(Union(t.gate), c);
        OwnIsNotReported(t, c);
        AddedIsThere(Union(t.gate), c.event.id, AddedRow(t, c, now), StoreRuns.Reported(t, c));
      }
    case Prune(p) => RetainAgrees(t, p);
  }

  /** A delivery settles buffered events, and its own is not among them. */
  lemma OwnIsNotReported(t: Tables, c: Canonical)
    requires Agrees(t) && JudgeUnion(Union(t.gate), c) == Unseen
    ensures c.event.id !in StoreRuns.Reported(t, c)
  {
    hide Union, NextStored, Reduce, HasKey, GateSound, TrailSound, Apart, AllOwned, Orderly, ReceiptsMatch, KeysMatch;
    UnseenIsAbsent(Union(t.gate), c);
    StartingMatches(Union(t.gate), t.projections, c.repositoryId);
  }

  lemma AddedIsThere(rows: map<string, Row>, id: string, row: Row, ups: map<string, Update>)
    requires id !in rows
    ensures var after := RowsAfter(rows, id, row, ups);
            after.Keys == rows.Keys + {id} && (id !in ups ==> after[id] == row)
  {
  }

  /** What the gate remembers is exactly what it took in. */
  lemma {:induction false} RowHasArrival(steps: seq<Step>, id: string) returns (i: nat)
    requires Valid(steps) && id in Union(After(steps).gate)
    ensures TookAs(steps, i, Union(After(steps).gate)[id].revision) && steps[i].event.event.id == id
    ensures RowOf(Union(After(steps).gate), steps[i].event, AnswerAt(steps, i).value.revision, steps[i].now)
  {
    hide Agrees, Do, Deliver, Union, TakenIn;
    if steps == [] {
      NothingRemembered();
      assert false;
    }
    var m := |steps| - 1;
    var t, x := After(steps[..m]), steps[m];
    HistoryAgrees(steps[..m]);
    StepRows(t, x);
    if x.Arrive? && TakenIn(Deliver(t, x.event, x.now).1) && x.event.event.id == id {
      i := m;
    } else {
      i := RowHasArrival(steps[..m], id);
      TookBefore(steps, m, i, Union(After(steps).gate)[id].revision);
    }
  }

  lemma NothingRemembered()
    ensures Union(After([]).gate) == map[]
  {
  }

  lemma {:induction false} ArrivalHasRow(steps: seq<Step>, i: nat)
    requires Valid(steps) && Took(steps, i)
    ensures RowOf(Union(After(steps).gate), steps[i].event, AnswerAt(steps, i).value.revision, steps[i].now)
  {
    hide Agrees, Do, Deliver, Union;
    var m := |steps| - 1;
    var t, x := After(steps[..m]), steps[m];
    HistoryAgrees(steps[..m]);
    StepRows(t, x);
    if i < m {
      TookBefore(steps, m, i, AnswerAt(steps, i).value.revision);
      ArrivalHasRow(steps[..m], i);
    }
  }

  // ---------------------------------------------------------------- who waits

  lemma DeliverBuffers(t: Tables, c: Canonical, now: string, id: string)
    requires id in Deliver(t, c, now).0.gate.pending
    ensures var (u, a) := Deliver(t, c, now);
            (id in t.gate.pending && u.gate.pending[id] == t.gate.pending[id]) ||
            (id == c.event.id && u.gate.pending[id] == c.event.causationId && a.Done? && a.value.disposition == Pending)
  {
    hide Judge, Project, Applicable, UpdateRows, NewRow, Carried, HasKey, RecordAudit;
  }

  /** Whoever is in the buffer was answered, at one step of the history, that it waits, and the
      cause it is kept with is its own. */
  lemma {:induction false} BufferIsTheWaiting(steps: seq<Step>, id: string) returns (i: nat)
    requires Valid(steps) && id in After(steps).gate.pending
    ensures Took(steps, i) && AnswerAt(steps, i).value.disposition == Pending
    ensures steps[i].event.event.id == id && After(steps).gate.pending[id] == steps[i].event.event.causationId
  {
    hide Agrees, Deliver, Retain;
    var m := |steps| - 1;
    var t, x := After(steps[..m]), steps[m];
    match x
    case Arrive(c, now) =>
      DeliverBuffers(t, c, now, id);
      if id in t.gate.pending && Deliver(t, c, now).0.gate.pending[id] == t.gate.pending[id] {
        i := BufferIsTheWaiting(steps[..m], id);
        TookBefore(steps, m, i, AnswerAt(steps[..m], i).value.revision);
      } else {
        i := m;
      }
    case Prune(p) =>
      RetainKeepsBuffer(t, p);
      i := BufferIsTheWaiting(steps[..m], id);
      TookBefore(steps, m, i, AnswerAt(steps[..m], i).value.revision);
  }

  lemma RetainKeepsBuffer(t: Tables, p: RetentionPolicy)
    ensures Retain(t, p).gate.pending == t.gate.pending
  {
    hide PruneOldAudit, PruneExcessAudit, PendingRevisions, Entombed, Compacted;
  }

  // ---------------------------------------------------------------- what the gate answers

  /** The events have the id or the key in common. */
  predicate Collide(a: Event, b: Event) {
    a.id == b.id || a.idempotencyKey == b.idempotencyKey
  }

  predicate Repeats(a: Event, b: Event) {
    a.id == b.id && a.idempotencyKey == b.idempotencyKey && a.digest == b.digest
  }

  /** An event with this one's id or key was taken in. */
  ghost predicate Met(steps: seq<Step>, c: Canonical) {
    exists i: nat :: Took(steps, i) && Collide(steps[i].event.event, c.event)
  }

  /** This very event was taken in under this revision. */
  ghost predicate MetAs(steps: seq<Step>, c: Canonical, revision: int) {
    exists i: nat :: TookAs(steps, i, revision) && Repeats(steps[i].event.event, c.event)
  }

  lemma MetIsSeen(steps: seq<Step>, c: Canonical)
    requires Valid(steps)
    ensures Met(steps, c) <==> JudgeUnion(Union(After(steps).gate), c) != Unseen
  {
    hide After, Deliver, AnswerAt, Union, TakenIn;
    var rows := Union(After(steps).gate);
    if Met(steps, c) {
      var i: nat :| Took(steps, i) && Collide(steps[i].event.event, c.event);
      TookIsArrival(steps, i);
      ArrivalHasRow(steps, i);
      HasOwnKey(rows, steps[i].event.event.id);
    }
    if c.event.id in rows {
      var i := RowHasArrival(steps, c.event.id);
      TookIsArrival(steps, i);
    } else if HasKey(rows, c.event.idempotencyKey) {
      var id :| id in rows && rows[id].key == c.event.idempotencyKey;
      var i := RowHasArrival(steps, id);
      TookIsArrival(steps, i);
    }
  }

  lemma TookIsArrival(steps: seq<Step>, i: nat)
    ensures Took(steps, i) ==> i < |steps| && steps[i].Arrive? && AnswerAt(steps, i).Done?
    ensures forall n :: TookAs(steps, i, n) <==> Took(steps, i) && AnswerAt(steps, i).value.revision == n
  {
    hide Deliver, After;
  }

  lemma MetAsIsSame(steps: seq<Step>, c: Canonical, n: int)
    requires Valid(steps)
    ensures MetAs(steps, c, n) <==> JudgeUnion(Union(After(steps).gate), c) == Same(n)
  {
    hide After, Deliver, AnswerAt, Union, TakenIn, HasKey;
    var rows := Union(After(steps).gate);
    if MetAs(steps, c, n) {
      var i: nat :| TookAs(steps, i, n) && Repeats(steps[i].event.event, c.event);
      TookIsArrival(steps, i);
      ArrivalHasRow(steps, i);
    }
    if JudgeUnion(rows, c) == Same(n) {
      var i := RowHasArrival(steps, c.event.id);
      TookIsArrival(steps, i);
    }
  }

  /** After any history, with retention or without: an event is taken in exactly when no event
      with its id or its key was before. It is a duplicate, answered with the revision it has,
      exactly when it was taken in with the same id, key and digest; or else its id or key has
      been used for something else, and it is refused. Neither changes the store. The repeat
      of an event under a repository that has no projection fails for want of one. */
  lemma GateAnswers(steps: seq<Step>, c: Canonical, now: string)
    requires Valid(steps) && WellFormed(c)
    ensures var t := After(steps); var (u, a) := Deliver(t, c, now);
            (TakenIn(a) <==> !Met(steps, c)) &&
            (Met(steps, c) ==> u == t) &&
            (a == EventStore.Failed(IdentityConflict) <==> Met(steps, c) && !exists n :: MetAs(steps, c, n)) &&
            forall n :: MetAs(steps, c, n) ==>
                          a == if c.repositoryId in t.projections
                               then Done(Receipt(Duplicate, n, t.projections[c.repositoryId].revision, None))
                               else EventStore.Failed(MissingProjection)
  {
    hide After, Deliver, Met, MetAs, Union, JudgeUnion, NextStored, RowsAfter, Reduce;
    HistoryAgrees(steps);
    DeliverAnswers(After(steps), c, now);
    MetIsSeen(steps, c);
    forall n ensures MetAs(steps, c, n) <==> JudgeUnion(Union(After(steps).gate), c) == Same(n) {
      MetAsIsSame(steps, c, n);
    }
  }
}
