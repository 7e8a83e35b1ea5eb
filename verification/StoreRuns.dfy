/** Whole histories of the store: every transaction and every retention keeps store and
    projections in agreement, and a history answers the same with retention or without. */
module StoreRuns {
  import opened Names
  import opened Lifecycle
  import opened Reducer
  import opened Accounting
  import opened History
  import opened Redaction
  import opened Growth
  import opened EventStore
  import opened StoreAgreement

  // ---------------------------------------------------------------- one delivery

  /** The projection a delivery starts from: the stored one, or a new one. */
  function Starting(ps: map<string, Stored>, r: string): Stored {
    if r in ps then ps[r] else Stored(0, NewState(r))
  }

  lemma StartingMatches(rows: map<string, Row>, ps: map<string, Stored>, r: string)
    requires AllMatch(rows, ps)
    ensures Matches(rows, r, Starting(ps, r))
  {
    if r !in ps {
      var l := NewState(r).ledger;
      assert QuarantinedIds(l) == {};
    }
  }

  lemma StartingApart(ps: map<string, Stored>, r: string, q: string)
    requires Apart(ps) && q in ps && q != r
    ensures Known(Starting(ps, r).state.ledger) !! Known(ps[q].state.ledger)
  {
  }

  /** Another repository's projection does not notice. */
  lemma OthersMatch(rows: map<string, Row>, q: string, s: Stored, id: string, row: Row, ups: map<string, Update>)
    requires Matches(rows, q, s) && id !in rows
    requires forall k :: k in Known(s.state.ledger) ==> k !in ups
    ensures Matches(RowsAfter(rows, id, row, ups), q, s)
  {
    hide Orderly, SettledAs, HasKey, RowsAfter, UpdateRows;
    var l, after := s.state.ledger, RowsAfter(rows, id, row, ups);
    forall k | k in Known(l) ensures k in rows && k in after && after[k] == rows[k] {
      UntouchedRow(rows, id, row, ups, k);
    }
    forall k | k in l.idempotency ensures HasKey(after, k) {
      HasKeyAfter(rows, id, row, ups, k);
    }
  }

  lemma UntouchedRow(rows: map<string, Row>, id: string, row: Row, ups: map<string, Update>, k: string)
    requires k in rows && id !in rows && k !in ups
    ensures k in RowsAfter(rows, id, row, ups) && RowsAfter(rows, id, row, ups)[k] == rows[k]
  {
  }

  /** The state the projector computes for an unseen event. */
  ghost function NextStored(s: Stored, c: Canonical): Stored {
    var next := Bounded(Next(s.state, c.event));
    Stored(next.ledger.revision, next)
  }

  lemma ProjectedMatches(rows: map<string, Row>, s: Stored, c: Canonical, row: Row)
    requires Matches(rows, c.repositoryId, s) && WellFormed(c)
    requires JudgeUnion(rows, c) == Unseen
    requires row.digest == c.event.digest && row.key == c.event.idempotencyKey
    requires row.disposition == Reduce(s.state, c.event).1.disposition
    ensures var ups := Promotions(s.state.ledger, NextStored(s, c).state.ledger);
            Matches(RowsAfter(rows, c.event.id, row, ups), c.repositoryId, NextStored(s, c)) &&
            Settles(rows, c.event.id, ups) && Carried(ups, c.event.id) == ups && ups.Keys <= Known(s.state.ledger)
    ensures Known(NextStored(s, c).state.ledger) == Known(s.state.ledger) + {c.event.id}
    ensures NextStored(s, c).revision >= s.revision
  {
    hide Reduce, Normalize, Orderly, Growth.Outcome, BufferMatches, ReceiptsMatch, KeysMatch, RowsAfter, BoundedLedger, Promotions,
         Fresh, HasKey, Settles, Carried;
    var e := Normalize(c.event);
    var l, m, d := s.state.ledger, Next(s.state, c.event).ledger, row.disposition;
    NormalKeeps(c);
    UnseenIsFresh(rows, c.repositoryId, s, c);
    FreshIsNotBuffered(l, e);
    DeliveryOutcome(s.state, c.event);
    DeliveryKeepsRepository(s.state, c.event);
    PromotionsSettle(rows, l, m, e, d);
    BufferMatchesNow(rows, l, m, e, d, row);
    ReceiptsMatchNow(rows, l, m, e, d, row);
    KeysMatchNow(rows, l, m, e, d, row);
    KnownNow(l, m, e, d);
  }

  lemma FreshIsNotBuffered(l: Ledger, e: Event)
    requires Fresh(l, e)
    ensures e.id !in l.pending
  {
  }

  /** The projector never fails on an unseen event. */
  lemma ProjectSucceeds(rows: map<string, Row>, s: Stored, c: Canonical, current: Option<State>)
    requires Matches(rows, c.repositoryId, s) && WellFormed(c) && JudgeUnion(rows, c) == Unseen
    requires Before(current, c.repositoryId) == s.state
    ensures var r, n := Reduce(s.state, c.event).1, NextStored(s, c);
            Project(current, c) ==
            Done(ProjectionResult(n.state, r.disposition, r.reason, n.revision, Promotions(s.state.ledger, n.state.ledger)))
    ensures Reduce(s.state, c.event).1.disposition in {Accepted, Pending, Rejected}
  {
    hide Reduce, Normalize, Orderly, BufferMatches, ReceiptsMatch, KeysMatch, BoundedLedger, Promotions, Fresh, HasKey, Grows;
    UnseenIsFresh(rows, c.repositoryId, s, c);
    DeliveryOutcome(s.state, c.event);
    SameWhenBounded(Next(s.state, c.event).ledger);
  }

  lemma MatchesAfter(rows: map<string, Row>, ps: map<string, Stored>, c: Canonical, row: Row)
    requires AllMatch(rows, ps) && Apart(ps) && WellFormed(c) && JudgeUnion(rows, c) == Unseen
    requires row.digest == c.event.digest && row.key == c.event.idempotencyKey
    requires var s := Starting(ps, c.repositoryId); row.disposition == Reduce(s.state, c.event).1.disposition
    ensures var s := Starting(ps, c.repositoryId); var n := NextStored(s, c);
            AllMatch(RowsAfter(rows, c.event.id, row, Promotions(s.state.ledger, n.state.ledger)), ps[c.repositoryId := n])
  {
    hide Reduce, NextStored, Matches, RowsAfter, Promotions, Starting, Apart, Settles, Carried, HasKey;
    var r := c.repositoryId;
    var s := Starting(ps, r);
    var n := NextStored(s, c);
    var ups := Promotions(s.state.ledger, n.state.ledger);
    StartingMatches(rows, ps, r);
    ProjectedMatches(rows, s, c, row);
    forall q | q in ps && q != r ensures Matches(RowsAfter(rows, c.event.id, row, ups), q, ps[q]) {
      StartingApart(ps, r, q);
      OthersMatch(rows, q, ps[q], c.event.id, row, ups);
    }
  }

  lemma OwnersAfter(rows: map<string, Row>, ps: map<string, Stored>, r: string, n: Stored, id: string, row: Row, ups: map<string, Update>)
    requires AllMatch(rows, ps) && Apart(ps) && AllOwned(rows, ps) && id !in rows
    requires Known(n.state.ledger) == Known(Starting(ps, r).state.ledger) + {id}
    ensures Apart(ps[r := n]) && AllOwned(RowsAfter(rows, id, row, ups), ps[r := n])
  {
    hide Matches, Known;
    var after := ps[r := n];
    forall q | q in ps && q != r ensures Known(n.state.ledger) !! Known(ps[q].state.ledger) {
      StartingApart(ps, r, q);
      KnownIsRemembered(rows, q, ps[q]);
    }
    forall k | k in RowsAfter(rows, id, row, ups) ensures Owned(after, k) {
      if k == id {
        assert r in after && k in Known(after[r].state.ledger);
      } else {
        var q :| q in ps && k in Known(ps[q].state.ledger);
        assert q in after && k in Known(after[q].state.ledger);
      }
    }
  }

  /** The row a recorded delivery adds. */
  ghost function AddedRow(t: Tables, c: Canonical, now: string): Row {
    NewRow(t.gate, c, Reduce(Starting(t.projections, c.repositoryId).state, c.event).1.disposition, now)
  }

  ghost function Reported(t: Tables, c: Canonical): map<string, Update> {
    var s := Starting(t.projections, c.repositoryId);
    Promotions(s.state.ledger, NextStored(s, c).state.ledger)
  }

  /** What an unseen event does to the tables, and its answer. */
  ghost predicate Recorded(t: Tables, c: Canonical, now: string, u: Tables, a: Attempt<Receipt>) {
    var s := Starting(t.projections, c.repositoryId);
    var r := Reduce(s.state, c.event).1;
    && Union(u.gate) == RowsAfter(Union(t.gate), c.event.id, AddedRow(t, c, now), Reported(t, c))
    && u.gate.sequence == t.gate.sequence + 1
    && u.projections == t.projections[c.repositoryId := NextStored(s, c)]
    && r.disposition in {Accepted, Pending, Rejected}
    && a == Done(Receipt(r.disposition, u.gate.sequence, NextStored(s, c).revision, Some(r.reason)))
  }

  /** An event the gate has not seen is recorded, whatever the reducer makes of it: none of
      the store's errors can happen. */
  lemma UnseenIsRecorded(t: Tables, c: Canonical, now: string)
    requires Agrees(t) && WellFormed(c) && JudgeUnion(Union(t.gate), c) == Unseen
    ensures Recorded(t, c, now, Deliver(t, c, now).0, Deliver(t, c, now).1)
    ensures Agrees(Deliver(t, c, now).0)
  {
    hide Reduce, NextStored, Matches, RowsAfter, Promotions, Settles, Carried, HasKey, Apart, AllOwned, AllMatch, GateSound,
         TrailSound, Union, RecordReceipt, RecordAudit, NewRow, Judge, JudgeUnion, Project;
    var r := c.repositoryId;
    var s := Starting(t.projections, r);
    var rows, row, ups := Union(t.gate), AddedRow(t, c, now), Reported(t, c);
    JudgeIsJudgeUnion(t.gate, c);
    StartingMatches(rows, t.projections, r);
    ProjectSucceeds(rows, s, c, Current(t, c));
    RowFields(t, c, now);
    ProjectedMatches(rows, s, c, row);
    var p := Project(Current(t, c), c).value;
    SequenceIsNatural(t);
    RecordReceiptSound(t.gate, c, p, now);
    UnseenIsAbsent(rows, c);
    TrailAfter(rows, t.gate.sequence, t.trail, c, p, row, now, ups);
    MatchesAfter(rows, t.projections, c, row);
    OwnersAfter(rows, t.projections, r, NextStored(s, c), c.event.id, row, ups);
  }

  lemma RowFields(t: Tables, c: Canonical, now: string)
    ensures var row := AddedRow(t, c, now);
            row.digest == c.event.digest && row.key == c.event.idempotencyKey && row.revision == t.gate.sequence + 1 &&
            row.createdAt == now &&
            row.disposition == Reduce(Starting(t.projections, c.repositoryId).state, c.event).1.disposition
  {
    hide Reduce;
  }

  lemma SequenceIsNatural(t: Tables)
    requires Agrees(t)
    ensures t.gate.sequence >= 0
  {
    hide GateSound, AllMatch, Apart, AllOwned, Joins;
  }

  lemma UnseenIsAbsent(rows: map<string, Row>, c: Canonical)
    requires JudgeUnion(rows, c) == Unseen
    ensures c.event.id !in rows
  {
  }

  // ---------------------------------------------------------------- what an answer can be

  /** The complete list of answers: a recorded event, the exact repeat of one, or a reused
      identity. The last case only needs the repository to have no projection. */
  ghost predicate Answers(t: Tables, c: Canonical, now: string) {
    var (u, a) := Deliver(t, c, now);
    match JudgeUnion(Union(t.gate), c)
    case Unseen => Recorded(t, c, now, u, a)
    case Same(revision) =>
      u == t && if c.repositoryId in t.projections
                then a == Done(Receipt(Duplicate, revision, t.projections[c.repositoryId].revision, None))
                else a == EventStore.Failed(MissingProjection)
    case Clash => u == t && a == EventStore.Failed(IdentityConflict)
  }

  lemma DeliverAnswers(t: Tables, c: Canonical, now: string)
    requires Agrees(t) && WellFormed(c)
    ensures Answers(t, c, now) && Agrees(Deliver(t, c, now).0)
  {
    hide Agrees, Union, JudgeUnion, Project, Write, Recorded, Judge;
    SoundGate(t);
    JudgeIsJudgeUnion(t.gate, c);
    if JudgeUnion(Union(t.gate), c) == Unseen {
      UnseenIsRecorded(t, c, now);
    }
  }

  lemma SoundGate(t: Tables)
    requires Agrees(t)
    ensures GateSound(t.gate)
  {
    hide GateSound, AllMatch, Apart, AllOwned, TrailSound;
  }

  /** `LookupReceipt` foretells the transaction: no receipt exactly when the event will be
      recorded, a conflict exactly when it will be refused, else the receipt on file. */
  lemma LookupForetells(t: Tables, c: Canonical)
    requires Agrees(t)
    ensures Lookup(t, c) == Done(None) <==> JudgeUnion(Union(t.gate), c) == Unseen
    ensures Lookup(t, c) == EventStore.Failed(IdentityConflict) <==> JudgeUnion(Union(t.gate), c) == Clash
    ensures Lookup(t, c).Done? && Lookup(t, c).value.Some? ==>
              var row := Union(t.gate)[c.event.id]; var x := Lookup(t, c).value.value;
              JudgeUnion(Union(t.gate), c) == Same(x.revision) && x.disposition == row.disposition
  {
    hide Agrees, Union, RowById, RowByKey, HasKey;
    SoundGate(t);
    var g, id, key := t.gate, c.event.id, c.event.idempotencyKey;
    ByIdIsUnion(g, id);
    SoundPieces(g);
    ByKeyIsUnion(g, key);
    if RowByKey(g, key).Some? {
      OwnerOfKey(Union(g), RowByKey(g, key).value, id, key);
    }
    if id in Union(g) {
      HasOwnKey(Union(g), id);
    }
  }

  lemma SoundPieces(g: Gate)
    requires GateSound(g)
    ensures g.receipts.Keys !! g.tombstones.Keys && OneRowPerKey(Union(g)) && OneRowPerRevision(Union(g))
  {
  }

  // ---------------------------------------------------------------- retention

  lemma EntombedAll(g: Gate, ids: set<string>)
    requires GateSound(g) && ids <= g.receipts.Keys
    ensures Entombed(g, ids) == map id | id in g.receipts && id in ids :: g.receipts[id]
  {
    hide OneRowPerRevision, Numbered, Buffered;
    forall id | id in ids ensures !HasKey(g.tombstones, g.receipts[id].key) {
      assert Union(g)[id] == g.receipts[id];
      forall k | k in g.tombstones ensures g.tombstones[k].key != g.receipts[id].key {
        assert k != id && Union(g)[k] == g.tombstones[k];
      }
    }
  }

  /** Moving receipts to tombstones changes nothing the gate remembers. */
  lemma CompactKeepsUnion(g: Gate, p: RetentionPolicy)
    requires GateSound(g)
    ensures Union(CompactGate(g, p)) == Union(g)
    ensures GateSound(CompactGate(g, p))
  {
    hide Compactable, Earlier, OneRowPerKey, OneRowPerRevision, Numbered, Entombed, Compacted;
    var ids := Compacted(g, p);
    CompactedAreSettled(g, p);
    EntombedAll(g, ids);
    assert Union(CompactGate(g, p)) == Union(g);
  }

  lemma CompactedAreSettled(g: Gate, p: RetentionPolicy)
    ensures Compacted(g, p) <= g.receipts.Keys && Compacted(g, p) !! g.pending.Keys
    ensures forall id :: id in Compacted(g, p) ==> g.receipts[id].disposition != Pending
  {
    hide Earlier, AmongNewest;
  }

  lemma RetainAgrees(t: Tables, p: RetentionPolicy)
    requires Agrees(t)
    ensures Agrees(Retain(t, p)) && Similar(t, Retain(t, p))
  {
    hide Union, GateSound, AllMatch, Apart, AllOwned, CompactGate, Joins, Earlier, AmongNewest;
    CompactKeepsUnion(t.gate, p);
    SameSequence(t.gate, p);
  }

  lemma SameSequence(g: Gate, p: RetentionPolicy)
    ensures CompactGate(g, p).sequence == g.sequence
  {
  }

  /** Two stores that remember the same identities and hold the same projections. */
  predicate Similar(t: Tables, u: Tables) {
    Union(t.gate) == Union(u.gate) && t.gate.sequence == u.gate.sequence && t.projections == u.projections
  }

  /** Whatever the policy, a pending receipt stays where it is, and so does its audit row. */
  lemma RetentionSparesPending(t: Tables, p: RetentionPolicy, id: string)
    requires Agrees(t) && id in t.gate.pending
    ensures id in t.gate.receipts && id in Retain(t, p).gate.receipts && Retain(t, p).gate.receipts[id] == t.gate.receipts[id]
    ensures var n := t.gate.receipts[id].revision;
            n in t.trail.rows ==> n in Retain(t, p).trail.rows && Retain(t, p).trail.rows[n] == t.trail.rows[n]
  {
    hide Union, AllMatch, Apart, AllOwned, Joins, Earlier, AmongNewest, Compactable, TrailSound, Entombed, Compacted;
    SoundGate(t);
    CompactedAreSettled(t.gate, p);
    assert t.gate.receipts[id].revision in PendingRevisions(t.gate.receipts);
  }

  lemma Member<T>(s: set<T>) returns (x: T)
    requires s != {}
    ensures x in s
  {
    x :| x in s;
  }

  lemma {:induction false} LeastInt(s: set<int>) returns (m: int)
    requires s != {}
    ensures m in s && forall x :: x in s ==> m <= x
    decreases |s|
  {
    var x := Member(s);
    m := x;
    var rest := s - {x};
    if rest != {} {
      var k := LeastInt(rest);
      m := if k < x then k else x;
    }
    forall y | y in s ensures m <= y {
      if y != x {
        assert y in rest;
      }
    }
  }

  /** The newest `n` of a set are at most `n`. */
  lemma NewestAreFew(revisions: set<int>, n: nat)
    ensures |set r | r in revisions && AmongNewest(revisions, r, n)| <= n
  {
    var kept := set r | r in revisions && AmongNewest(revisions, r, n);
    if kept != {} {
      var m := LeastInt(kept);
      var above := set x | x in revisions && x > m;
      assert kept - {m} <= above;
      Fewer(kept - {m}, above);
    }
  }

  lemma {:induction false} Fewer(a: set<int>, b: set<int>)
    requires a <= b
    ensures |a| <= |b|
    decreases |a|
  {
    if a != {} {
      var x := Member(a);
      Fewer(a - {x}, b - {x});
    }
  }

  /** A row limit leaves at most that many audit rows besides those of pending receipts. */
  lemma RowLimitHolds(rows: map<int, AuditRow>, keep: set<int>, limit: nat)
    requires limit > 0
    ensures |PruneExcessAudit(rows, keep, limit).Keys - keep| <= limit
  {
    hide AmongNewest;
    NewestAreFew(rows.Keys, limit);
    Fewer(PruneExcessAudit(rows, keep, limit).Keys - keep, set r | r in rows.Keys && AmongNewest(rows.Keys, r, limit));
  }

  /** The settled receipts a policy leaves although they are past its age, if it has one. */
  function LeftOver(g: Gate, p: RetentionPolicy): set<string> {
    set id | id in g.receipts && g.receipts[id].disposition != Pending &&
             (p.receiptCutoff.Some? ==> !Leq(p.receiptCutoff.value, g.receipts[id].createdAt))
  }

  lemma EarlierIsBefore(a: string, b: string)
    ensures Earlier(a, b) <==> !Leq(b, a)
  {
    LeqTotal(a, b);
    if Leq(a, b) && Leq(b, a) {
      LeqAntisymmetric(a, b);
    }
  }

  lemma {:induction false} RevisionsOnce(rows: map<string, Row>, ids: set<string>)
    requires OneRowPerRevision(rows) && ids <= rows.Keys
    ensures |ids| == |set id | id in ids :: rows[id].revision|
    decreases |ids|
  {
    if ids == {} {
      assert (set id | id in ids :: rows[id].revision) == {};
    } else {
      var x := Member(ids);
      RevisionsOnce(rows, ids - {x});
      var rest := set id | id in ids - {x} :: rows[id].revision;
      assert rows[x].revision !in rest;
      assert (set id | id in ids :: rows[id].revision) == rest + {rows[x].revision};
    }
  }

  lemma LeftOverIsNewest(g: Gate, p: RetentionPolicy, id: string)
    requires Buffered(g) && id in LeftOver(CompactGate(g, p), p) && (p.receiptCutoff.Some? || p.maxReceiptRows > 0)
    ensures id in g.receipts && p.maxReceiptRows > 0 && AmongNewest(RevisionsOf(g.receipts), g.receipts[id].revision, p.maxReceiptRows)
  {
    hide Earlier, AmongNewest, Entombed, Leq;
    if p.receiptCutoff.Some? {
      EarlierIsBefore(g.receipts[id].createdAt, p.receiptCutoff.value);
    }
    assert id in g.receipts && id !in Compacted(g, p);
  }

  /** What a receipt policy leaves: every pending receipt, and of the settled ones past its age
      at most as many as its row limit, which are among the newest of all. */
  lemma ReceiptLimitHolds(t: Tables, p: RetentionPolicy)
    requires Agrees(t) && (p.receiptCutoff.Some? || p.maxReceiptRows > 0)
    ensures |LeftOver(Retain(t, p).gate, p)| <= if p.maxReceiptRows > 0 then p.maxReceiptRows else 0
    ensures forall id :: id in t.gate.receipts && p.maxReceiptRows > 0 &&
                         AmongNewest(RevisionsOf(t.gate.receipts), t.gate.receipts[id].revision, p.maxReceiptRows) ==>
                         id in Retain(t, p).gate.receipts
  {
    hide AmongNewest, Earlier, Agrees, Union, LeftOver, Buffered, OneRowPerRevision, OneRowPerKey, Numbered, Entombed, RevisionsOf,
      PruneOldAudit, PruneExcessAudit, PendingRevisions;
    var g := t.gate;
    var left := LeftOver(CompactGate(g, p), p);
    SoundReceipts(t);
    forall id | id in left
      ensures id in g.receipts && p.maxReceiptRows > 0 && AmongNewest(RevisionsOf(g.receipts), g.receipts[id].revision, p.maxReceiptRows)
    {
      LeftOverIsNewest(g, p, id);
    }
    if left != {} {
      var x := Member(left);
      assert p.maxReceiptRows > 0;
      RevisionsOnce(g.receipts, left);
      NewestAreFew(RevisionsOf(g.receipts), p.maxReceiptRows);
      ReceiptRevisions(g);
      Fewer(set id | id in left :: g.receipts[id].revision,
            set r | r in RevisionsOf(g.receipts) && AmongNewest(RevisionsOf(g.receipts), r, p.maxReceiptRows));
    }
  }

  lemma ReceiptRevisions(g: Gate)
    ensures forall id :: id in g.receipts ==> g.receipts[id].revision in RevisionsOf(g.receipts)
  {
  }

  lemma SoundReceipts(t: Tables)
    requires Agrees(t)
    ensures Buffered(t.gate) && OneRowPerRevision(t.gate.receipts)
  {
    hide AllMatch, Apart, AllOwned, TrailSound, Buffered, OneRowPerKey, Numbered;
    SoundGate(t);
    var rows := Union(t.gate);
    assert forall id :: id in t.gate.receipts ==> id in rows && rows[id] == t.gate.receipts[id];
  }

  /** Similar stores answer every event alike and stay similar. */
  lemma DeliverSimilar(t: Tables, u: Tables, c: Canonical, now: string)
    requires Agrees(t) && Agrees(u) && Similar(t, u) && WellFormed(c)
    ensures Deliver(t, c, now).1 == Deliver(u, c, now).1
    ensures Similar(Deliver(t, c, now).0, Deliver(u, c, now).0)
  {
    hide Agrees, Union, Deliver, Reduce, NextStored, RowsAfter, Promotions, HasKey;
    DeliverAnswers(t, c, now);
    DeliverAnswers(u, c, now);
  }

  // ---------------------------------------------------------------- histories

  datatype Step = Arrive(event: Canonical, now: string) | Prune(policy: RetentionPolicy)

  predicate Valid(steps: seq<Step>) {
    forall i :: 0 <= i < |steps| ==> steps[i].Arrive? ==> WellFormed(steps[i].event)
  }

  ghost function Do(t: Tables, x: Step): Tables {
    match x
    case Arrive(c, now) => Deliver(t, c, now).0
    case Prune(p) => Retain(t, p)
  }

  ghost function Reply(t: Tables, x: Step): seq<Attempt<Receipt>> {
    match x
    case Arrive(c, now) => [Deliver(t, c, now).1]
    case Prune(_) => []
  }

  /** The tables after a history from a fresh database. */
  ghost function After(steps: seq<Step>): Tables {
    if steps == [] then EMPTY else Do(After(steps[..|steps| - 1]), steps[|steps| - 1])
  }

  /** Every answer given in a history. */
  ghost function Replies(steps: seq<Step>): seq<Attempt<Receipt>> {
    if steps == [] then []
    else Replies(steps[..|steps| - 1]) + Reply(After(steps[..|steps| - 1]), steps[|steps| - 1])
  }

  lemma EmptyAgrees()
    ensures Agrees(EMPTY)
  {
  }

  /** Store and projections agree after every history of deliveries and retentions. */
  lemma {:induction false} HistoryAgrees(steps: seq<Step>)
    requires Valid(steps)
    ensures Agrees(After(steps))
  {
    hide Agrees, Deliver, Retain;
    if steps == [] {
      EmptyAgrees();
    } else {
      var n := |steps| - 1;
      HistoryAgrees(steps[..n]);
      match steps[n]
      case Arrive(c, now) => DeliverAnswers(After(steps[..n]), c, now);
      case Prune(p) => RetainAgrees(After(steps[..n]), p);
    }
  }

  function Unpruned(steps: seq<Step>): seq<Step> {
    if steps == [] then []
    else
      var n := |steps| - 1;
      if steps[n].Prune? then Unpruned(steps[..n]) else Unpruned(steps[..n]) + [steps[n]]
  }

  lemma {:induction false} UnprunedValid(steps: seq<Step>)
    requires Valid(steps)
    ensures Valid(Unpruned(steps))
  {
    if steps != [] {
      UnprunedValid(steps[..|steps| - 1]);
    }
  }

  /** Retention is transparent: a history gives the same answers, identities and projections
      as the same history with every retention left out. */
  lemma {:induction false} RetentionIsTransparent(steps: seq<Step>)
    requires Valid(steps)
    ensures Replies(steps) == Replies(Unpruned(steps))
    ensures Similar(After(steps), After(Unpruned(steps)))
  {
    hide Agrees, Deliver, Retain, Similar;
    if steps == [] {
      SimilarToItself(EMPTY);
    } else {
      var n := |steps| - 1;
      var a, b := steps[..n], Unpruned(steps[..n]);
      RetentionIsTransparent(a);
      HistoryAgrees(a);
      UnprunedValid(a);
      HistoryAgrees(b);
      match steps[n]
      case Arrive(c, now) =>
        assert (b + [steps[n]])[..|b|] == b;
        DeliverSimilar(After(a), After(b), c, now);
      case Prune(p) =>
        RetainAgrees(After(a), p);
        SimilarChain(Retain(After(a), p), After(a), After(b));
    }
  }

  lemma SimilarToItself(t: Tables)
    ensures Similar(t, t)
  {
  }

  lemma SimilarChain(t: Tables, u: Tables, v: Tables)
    requires Similar(u, t) && Similar(u, v)
    ensures Similar(t, v)
  {
    hide Union;
  }

  /** Whatever audit rows survive, each joins exactly one receipt or tombstone, and that one
      has its digest: reading the log cannot find a row without its receipt. */
  lemma AuditJoinsOneReceipt(steps: seq<Step>, n: int) returns (id: string)
    requires Valid(steps) && n in After(steps).trail.rows
    ensures var rows := Union(After(steps).gate);
            id in rows && rows[id].revision == n && rows[id].digest == After(steps).trail.rows[n].digest &&
            forall k :: k in rows && rows[k].revision == n ==> k == id
  {
    hide AllMatch, Apart, AllOwned, Deliver, After, Union;
    HistoryAgrees(steps);
    SoundGate(After(steps));
    SoundPieces(After(steps).gate);
    var rows, digest := Union(After(steps).gate), After(steps).trail.rows[n].digest;
    assert Joins(rows, n, digest);
    id :| id in rows && rows[id].revision == n && rows[id].digest == digest;
  }

  // ---------------------------------------------------------------- projections are reducer runs

  predicate Passes(t: Tables, x: Step, r: string) {
    x.Arrive? && x.event.repositoryId == r && JudgeUnion(Union(t.gate), x.event) == Unseen
  }

  /** The events of one repository that the gate let through, in order. */
  ghost function Passed(steps: seq<Step>, r: string): seq<Event> {
    if steps == [] then []
    else
      var n := |steps| - 1;
      if Passes(After(steps[..n]), steps[n], r) then Passed(steps[..n], r) + [steps[n].event.event] else Passed(steps[..n], r)
  }

  lemma DoKeepsOthers(t: Tables, x: Step, r: string)
    requires Agrees(t) && (x.Arrive? ==> WellFormed(x.event)) && !Passes(t, x, r)
    ensures Starting(Do(t, x).projections, r) == Starting(t.projections, r)
  {
    hide Agrees, Deliver, Union, JudgeUnion, NextStored, Reduce, RowsAfter, CompactGate;
    if x.Arrive? {
      DeliverAnswers(t, x.event, x.now);
    }
  }

  lemma DoMovesOne(t: Tables, x: Step, r: string)
    requires Agrees(t) && (x.Arrive? ==> WellFormed(x.event)) && Passes(t, x, r)
    ensures Starting(Do(t, x).projections, r) == NextStored(Starting(t.projections, r), x.event)
  {
    hide Agrees, Deliver, Union, JudgeUnion, NextStored, Reduce, RowsAfter;
    DeliverAnswers(t, x.event, x.now);
  }

  lemma StoredRunSnoc(s: State, es: seq<Event>, e: Event)
    ensures StoredRun(s, es + [e]) == Bounded(Next(StoredRun(s, es), e))
  {
    hide Reduce, Bounded;
    assert (es + [e])[..|es|] == es;
  }

  lemma {:induction false} ProjectionIsStoredRun(steps: seq<Step>, r: string)
    requires Valid(steps)
    ensures Starting(After(steps).projections, r).state == StoredRun(NewState(r), Passed(steps, r))
    ensures forall e :: e in Passed(steps, r) ==> e.digest != ""
  {
    hide Agrees, Passes, Bounded, Reduce, Do;
    if steps != [] {
      var n := |steps| - 1;
      var t, x := After(steps[..n]), steps[n];
      ProjectionIsStoredRun(steps[..n], r);
      HistoryAgrees(steps[..n]);
      if Passes(t, x, r) {
        PassesIsArrival(t, x, r);
        DoMovesOne(t, x, r);
        StoredRunSnoc(NewState(r), Passed(steps[..n], r), x.event.event);
      } else {
        DoKeepsOthers(t, x, r);
      }
    }
  }

  lemma PassesIsArrival(t: Tables, x: Step, r: string)
    requires Passes(t, x, r)
    ensures x.Arrive? && x.event.repositoryId == r
  {
  }

  /** Whatever was delivered, repeated, reused or pruned, the projection on file is the
      redaction of a reducer run over the events of its repository that passed the gate. */
  lemma ProjectionIsRedactedRun(steps: seq<Step>, r: string)
    requires Valid(steps) && r in After(steps).projections
    ensures After(steps).projections[r].state == Bounded(Run(NewState(r), Passed(steps, r)))
  {
    hide After, Passed, Bounded, Reduce, Run, StoredRun;
    ProjectionIsStoredRun(steps, r);
    var es := Passed(steps, r);
    RedactedRun(r, es);
  }

  /** So no projection on file holds the text of an answer, or of an answer or reason in a
      buffered or quarantined event. */
  lemma NoTextOnFile(steps: seq<Step>, r: string)
    requires Valid(steps) && r in After(steps).projections
    ensures TextFree(After(steps).projections[r].state)
  {
    hide After, Passed, Bounded, Run, TextFree;
    ProjectionIsRedactedRun(steps, r);
    var s := Run(NewState(r), Passed(steps, r));
    BoundedIsStripped(s, Bounded(s));
  }

  lemma RedactedRun(r: string, es: seq<Event>)
    requires forall e :: e in es ==> e.digest != ""
    ensures StoredRun(NewState(r), es) == Bounded(Run(NewState(r), es))
  {
    hide Bounded, Reduce;
    if es == [] {
      FreshIsBounded(r);
    } else {
      StoredRunIsRedactedRun(r, es, es[0]);
    }
  }

  // ---------------------------------------------------------------- nothing is forgotten

  /** Every identity is still there with its key, digest, revision and time. */
  predicate Remembers(was: map<string, Row>, now: map<string, Row>) {
    forall id :: id in was ==>
      id in now && now[id].key == was[id].key && now[id].digest == was[id].digest && now[id].revision == was[id].revision &&
      now[id].createdAt == was[id].createdAt
  }

  lemma RowsAfterRemembers(rows: map<string, Row>, id: string, row: Row, ups: map<string, Update>)
    requires id !in rows
    ensures Remembers(rows, RowsAfter(rows, id, row, ups))
    ensures var after := RowsAfter(rows, id, row, ups); id in after && after[id].key == row.key
  {
  }

  /** No delivery and no retention makes the gate forget an identity. */
  lemma NothingIsForgotten(t: Tables, x: Step)
    requires Agrees(t) && (x.Arrive? ==> WellFormed(x.event))
    ensures Remembers(Union(t.gate), Union(Do(t, x).gate))
    ensures x.Arrive? && JudgeUnion(Union(t.gate), x.event) == Unseen ==>
              var after := Union(Do(t, x).gate);
              x.event.event.id in after && after[x.event.event.id].key == x.event.event.idempotencyKey
  {
    hide Agrees, Deliver, Union, NextStored, Reduce, RowsAfter, Promotions, HasKey, CompactGate;
    match x
    case Arrive(c, now) =>
      DeliverAnswers(t, c, now);
      if JudgeUnion(Union(t.gate), c) == Unseen {
        RowFields(t, c, now);
        RowsAfterRemembers(Union(t.gate), c.event.id, AddedRow(t, c, now), Reported(t, c));
      }
    case Prune(p) => RetainAgrees(t, p);
  }

  predicate Filed(rows: map<string, Row>, e: Event) {
    e.id in rows && rows[e.id].key == e.idempotencyKey
  }

  lemma NewIsDistinct(rows: map<string, Row>, e: Event, c: Canonical)
    requires Filed(rows, e) && JudgeUnion(rows, c) == Unseen
    ensures e.id != c.event.id && e.idempotencyKey != c.event.idempotencyKey
  {
    HasOwnKey(rows, e.id);
  }

  ghost predicate NamedAndFiled(rows: map<string, Row>, es: seq<Event>) {
    forall i :: 0 <= i < |es| ==> es[i].id != "" && es[i].eventType != OtherType("") && Filed(rows, es[i])
  }

  lemma GatedSnoc(es: seq<Event>, c: Canonical, rows: map<string, Row>)
    requires Gated(es) && NamedAndFiled(rows, es) && WellFormed(c) && JudgeUnion(rows, c) == Unseen
    ensures Gated(es + [c.event])
  {
    hide HasKey, JudgeUnion, Filed;
    var fs := es + [c.event];
    forall i | 0 <= i < |es| ensures Normalize(es[i]).id == es[i].id && es[i].id != c.event.id && es[i].idempotencyKey != c.event.idempotencyKey {
      NewIsDistinct(rows, es[i], c);
    }
    assert forall i :: 0 <= i < |es| ==> fs[i] == es[i];
  }

  /** The events that pass the gate are what the accounting of the reducer asks for: named,
      typed, and no id and no key twice. */
  lemma {:induction false} PassedAreGated(steps: seq<Step>, r: string)
    requires Valid(steps)
    ensures Gated(Passed(steps, r)) && NamedAndFiled(Union(After(steps).gate), Passed(steps, r))
  {
    hide Agrees, Do, Union, Gated, JudgeUnion, Normalize;
    if steps == [] {
      NoneGated();
    } else {
      var n := |steps| - 1;
      var t, x := After(steps[..n]), steps[n];
      PassedAreGated(steps[..n], r);
      HistoryAgrees(steps[..n]);
      NothingIsForgotten(t, x);
      if Passes(t, x, r) {
        GatedSnoc(Passed(steps[..n], r), x.event, Union(t.gate));
      }
    }
  }

  lemma NoneGated()
    ensures Gated([])
  {
  }

  /** So the projection on file is fully accounted for: a journal of settled events explains
      the reducer's ledger, and its ids are the receipts and the buffer of that projection. */
  lemma ProjectionIsAccounted(steps: seq<Step>, r: string) returns (j: seq<Entry>)
    requires Valid(steps) && r in After(steps).projections
    ensures Explains(j, Run(NewState(r), Passed(steps, r)).ledger)
    ensures Known(After(steps).projections[r].state.ledger) == IdsOf(Passed(steps, r))
  {
    hide After, Passed, Run, Gated, Explains, IdsOf, BoundedLedger, NamedAndFiled;
    PassedAreGated(steps, r);
    j := EveryDeliveryIsAccounted(r, Passed(steps, r));
    ProjectionIsRedactedRun(steps, r);
    SameWhenBounded(Run(NewState(r), Passed(steps, r)).ledger);
  }
}
