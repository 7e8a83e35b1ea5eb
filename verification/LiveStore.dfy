/** The store as the program runs it: tables that a transaction changes in place, committed
    together or not at all, and the application's projector in front of the reducer. */
module LiveStore {
  import opened Names
  import opened Lifecycle
  import opened Reducer
  import opened Redaction
  import opened Growth
  import opened EventStore
  import opened LiveState

  /** One receipt the projector reports as changed. */
  datatype Report = Report(id: string, update: Update)

  datatype Projected = Projected(state: State, disposition: Disposition, reason: Reason, revision: int, reports: seq<Report>)

  function ReportedIds(rs: seq<Report>): seq<string> {
    seq(|rs|, i requires 0 <= i < |rs| => rs[i].id)
  }

  /** The reports list the promotions, each once, in some order. */
  predicate Lists(rs: seq<Report>, ps: map<string, Update>) {
    && Distinct(ReportedIds(rs))
    && (forall i :: 0 <= i < |rs| ==> rs[i].id in ps && rs[i].update == ps[rs[i].id])
    && (forall k :: k in ps ==> Listed(rs, k))
  }

  predicate Listed(rs: seq<Report>, k: string) {
    exists i :: 0 <= i < |rs| && rs[i].id == k
  }

  method IsQuarantined(qs: seq<Quarantined>, id: string) returns (yes: bool)
    ensures yes <==> exists i :: 0 <= i < |qs| && qs[i].event.id == id
  {
    for i := 0 to |qs|
      invariant forall j :: 0 <= j < i ==> qs[j].event.id != id
    {
      if qs[i].event.id == id {
        return true;
      }
    }
    return false;
  }

  lemma ListsSnoc(rs: seq<Report>, ps: map<string, Update>, r: Report)
    requires Lists(rs, ps) && r.id !in ps
    ensures Lists(rs + [r], ps[r.id := r.update])
  {
    var all := rs + [r];
    assert ReportedIds(all) == ReportedIds(rs) + [r.id];
    forall k | k in ps[r.id := r.update] ensures Listed(all, k) {
      if k == r.id {
        assert all[|rs|].id == k;
      } else {
        var i :| 0 <= i < |rs| && rs[i].id == k;
        assert all[i].id == k;
      }
    }
  }

  /** The buffered events that now have a receipt. */
  method ReportPromotions(before: Ledger, after: Ledger) returns (rs: seq<Report>)
    ensures Lists(rs, Promotions(before, after))
  {
    hide Lists;
    rs := [];
    var todo := before.pending.Keys;
    ghost var done: map<string, Update> := map[];
    NothingListed();
    while todo != {}
      invariant todo <= before.pending.Keys
      invariant done == Promotions(before, after) - todo
      invariant Lists(rs, done)
      decreases |todo|
    {
      var id :| id in todo;
      ghost var left := todo - {id};
      if id in after.receipts {
        var rejected := IsQuarantined(after.quarantine, id);
        var r := Report(id, Update(before.pending[id].digest, if rejected then Rejected else Accepted));
        assert Promotions(before, after)[id] == r.update;
        ListsSnoc(rs, done, r);
        rs := rs + [r];
        done := done[id := r.update];
      }
      assert done == Promotions(before, after) - left;
      todo := todo - {id};
    }
    assert done == Promotions(before, after);
  }

  lemma NothingListed()
    ensures Lists([], map[])
  {
  }

  /** The projector's answer, up to the order of its reports. */
  ghost predicate SameProjection(a: Attempt<Projected>, b: Attempt<ProjectionResult>) {
    match (a, b)
    case (Failed(x), Failed(y)) => x == y
    case (Done(x), Done(y)) =>
      x.state == y.state && x.disposition == y.disposition && x.reason == y.reason && x.revision == y.revision &&
      Lists(x.reports, y.promotions)
    case _ => false
  }

  /** The application's `project`. */
  method RunProjector(current: Option<State>, c: Canonical) returns (a: Attempt<Projected>)
    ensures SameProjection(a, Project(current, c))
  {
    hide Reduce, Bounded, Promotions, Lists;
    var s := NewState(c.repositoryId);
    if current.Some? {
      s := current.value;
      if s.facts.repositoryId != c.repositoryId {
        return EventStore.Failed(RepositoryMismatch);
      }
    }
    assert s == Before(current, c.repositoryId);
    var machine := new Projection.Load(s);
    var r := machine.Deliver(c.event);
    var next := machine.Snapshot();
    next := Bound(next);
    if r.disposition == Duplicate {
      return EventStore.Failed(UnknownDisposition);
    }
    var reports := ReportPromotions(s.ledger, next.ledger);
    return Done(Projected(next, r.disposition, r.reason, r.revision, reports));
  }

  // ---------------------------------------------------------------- the tables

  method SelectByKey(rows: map<string, Row>, key: string) returns (f: Option<Found>)
    requires OneRowPerKey(rows)
    ensures f == if HasKey(rows, key) then Some(WithKey(rows, key)) else None
  {
    var todo := rows.Keys;
    while todo != {}
      invariant todo <= rows.Keys
      invariant forall id :: id in rows && id !in todo ==> rows[id].key != key
      decreases |todo|
    {
      var id :| id in todo;
      if rows[id].key == key {
        assert Holds(rows, WithKey(rows, key), key);
        return Some(Found(id, rows[id]));
      }
      todo := todo - {id};
    }
    return None;
  }

  /** The reports the loop has carried out so far. */
  function Through(rs: seq<Report>, ups: map<string, Update>): map<string, Update> {
    map k | k in ups && Listed(rs, k) :: ups[k]
  }

  /** A report is skipped when it is the delivered event's own or has no digest. */
  predicate Skipped(r: Report, id: string) {
    r.id == "" || r.id == id || r.update.digest == ""
  }

  lemma ThroughSnoc(rs: seq<Report>, i: nat, ps: map<string, Update>, id: string)
    requires Lists(rs, ps) && i < |rs|
    ensures var ups := Carried(ps, id);
            Through(rs[..i + 1], ups) ==
            if Skipped(rs[i], id) then Through(rs[..i], ups) else Through(rs[..i], ups)[rs[i].id := rs[i].update]
    ensures !Skipped(rs[i], id) ==> rs[i].id in Carried(ps, id) && Carried(ps, id)[rs[i].id] == rs[i].update
    ensures rs[i].id !in Through(rs[..i], Carried(ps, id))
  {
    var ups := Carried(ps, id);
    assert forall j :: 0 <= j < |rs| ==> ReportedIds(rs)[j] == rs[j].id;
    forall k ensures Listed(rs[..i + 1], k) <==> Listed(rs[..i], k) || k == rs[i].id {
      if Listed(rs[..i], k) {
        var j :| 0 <= j < i && rs[..i][j].id == k;
        assert rs[..i + 1][j].id == k;
      }
      assert rs[..i + 1][i].id == rs[i].id;
    }
  }

  lemma ThroughAll(rs: seq<Report>, ps: map<string, Update>, id: string)
    requires Lists(rs, ps)
    ensures Through(rs[..|rs|], Carried(ps, id)) == Carried(ps, id)
    ensures Through(rs[..0], Carried(ps, id)) == map[]
  {
    assert rs[..|rs|] == rs;
  }

  lemma UpdateOne(rows: map<string, Row>, ups: map<string, Update>, k: string, u: Update)
    requires k in rows && k !in ups
    ensures k in UpdateRows(rows, ups) && UpdateRows(rows, ups)[k] == rows[k]
    ensures UpdateRows(rows, ups[k := u]) == UpdateRows(rows, ups)[k := rows[k].(disposition := u.disposition)]
  {
  }

  /** The UPDATE and DELETE pair for every report; no result when one of them does not touch
      exactly one row. */
  method CarryOut(rows: map<string, Row>, pending: map<string, string>, rs: seq<Report>, id: string, ghost ps: map<string, Update>)
    returns (rows': map<string, Row>, pending': map<string, string>, ok: bool)
    requires Lists(rs, ps)
    ensures ok <==> Applicable(rows, pending, Carried(ps, id))
    ensures ok ==> rows' == UpdateRows(rows, Carried(ps, id)) && pending' == pending - Carried(ps, id).Keys
  {
    hide Lists, Through, Carried, UpdateRows;
    rows', pending', ok := rows, pending, true;
    ThroughAll(rs, ps, id);
    UpdateNone(rows);
    for i := 0 to |rs|
      invariant Applicable(rows, pending, Through(rs[..i], Carried(ps, id)))
      invariant rows' == UpdateRows(rows, Through(rs[..i], Carried(ps, id)))
      invariant pending' == pending - Through(rs[..i], Carried(ps, id)).Keys
    {
      ghost var past := Through(rs[..i], Carried(ps, id));
      var k, u := rs[i].id, rs[i].update;
      ThroughSnoc(rs, i, ps, id);
      if !(k == "" || k == id || u.digest == "") {
        if k in rows {
          UpdateOne(rows, past, k, u);
        }
        UpdateKeepsKeys(rows, past);
        if !(k in rows' && rows'[k].digest == u.digest && rows'[k].disposition == Pending) {
          return rows', pending', false;
        }
        rows' := rows'[k := rows'[k].(disposition := u.disposition)];
        if k !in pending' {
          return rows', pending', false;
        }
        pending' := pending' - {k};
      }
    }
  }

  lemma UpdateNone(rows: map<string, Row>)
    ensures UpdateRows(rows, map[]) == rows
  {
  }

  lemma UpdateKeepsKeys(rows: map<string, Row>, ups: map<string, Update>)
    ensures UpdateRows(rows, ups).Keys == rows.Keys
  {
  }

  class Store {
    var receipts: map<string, Row>
    var tombstones: map<string, Row>
    var pending: map<string, string>
    var sequence: int
    var projections: map<string, Stored>
    var audit: map<int, AuditRow>
    var auditLast: int

    ghost function GateNow(): Gate
      reads this
    {
      Gate(receipts, tombstones, pending, sequence)
    }

    /** What the database holds. */
    ghost function Db(): Tables
      reads this
    {
      Tables(GateNow(), projections, Trail(audit, auditLast))
    }

    /** The constraints the schema itself enforces. */
    ghost predicate Valid()
      reads this
    {
      OneRowPerKey(receipts) && OneRowPerKey(tombstones)
    }

    constructor ()
      ensures Valid() && Db() == EMPTY
    {
      receipts, tombstones, pending, sequence := map[], map[], map[], 0;
      projections, audit, auditLast := map[], map[], 0;
    }

    method SelectById(id: string) returns (f: Option<Found>)
      ensures f == RowById(GateNow(), id)
    {
      if id in receipts {
        return Some(Found(id, receipts[id]));
      }
      if id in tombstones {
        return Some(Found(id, tombstones[id]));
      }
      return None;
    }

    method SelectByIdempotencyKey(key: string) returns (f: Option<Found>)
      requires Valid()
      ensures f == RowByKey(GateNow(), key)
    {
      f := SelectByKey(receipts, key);
      if f == None {
        f := SelectByKey(tombstones, key);
      }
    }

    method LookupReceipt(c: Canonical) returns (a: Attempt<Option<Receipt>>)
      requires Valid()
      ensures a == Lookup(Db(), c)
    {
      var byId := SelectById(c.event.id);
      var byKey := SelectByIdempotencyKey(c.event.idempotencyKey);
      if byId == None && byKey == None {
        return Done(None);
      }
      if byId == None || byKey == None || byId.value.id != c.event.id || byKey.value.id != c.event.id ||
         byId.value.row.digest != c.event.digest || byKey.value.row.digest != c.event.digest ||
         byId.value.row.disposition != byKey.value.row.disposition || byId.value.row.revision != byKey.value.row.revision {
        return EventStore.Failed(IdentityConflict);
      }
      var row := byId.value.row;
      if row.disposition == Pending {
        return Done(Some(Receipt(Pending, row.revision, 0, None)));
      }
      if c.repositoryId !in projections {
        return EventStore.Failed(MissingProjection);
      }
      return Done(Some(Receipt(row.disposition, row.revision, projections[c.repositoryId].revision, None)));
    }

    /** The inserts, updates and deletes after the projector has answered. They work on a copy
        and are committed together at the end; every early return is a rollback. */
    method WriteProjected(c: Canonical, p: Projected, now: string, ghost q: ProjectionResult) returns (a: Attempt<Receipt>)
      requires Valid() && SameProjection(Done(p), Done(q))
      modifies this
      ensures Valid() && (Db(), a) == Write(old(Db()), c, q, now)
    {
      hide Lists, Applicable, UpdateRows, Carried;
      var id, key := c.event.id, c.event.idempotencyKey;
      if c.repositoryId in projections && p.revision < projections[c.repositoryId].revision {
        return EventStore.Failed(RevisionRegressed);
      }
      var stored := projections[c.repositoryId := Stored(p.revision, p.state)];
      var revision := sequence + 1;
      var clash := SelectByKey(receipts, key);
      if id in receipts || clash.Some? {
        return EventStore.Failed(UniqueViolation);
      }
      var rows := receipts[id := Row(key, c.event.digest, p.disposition, revision, now)];
      var buffered := pending;
      if p.disposition == Pending {
        if id in pending {
          return EventStore.Failed(UniqueViolation);
        }
        buffered := buffered[id := c.event.causationId];
      }
      assert buffered == WithEvent(pending, c, q.disposition);
      assert rows[id] == NewRow(GateNow(), c, q.disposition, now);
      UniqueInsert(receipts, id, rows[id]);
      var ok;
      rows, buffered, ok := CarryOut(rows, buffered, p.reports, id, q.promotions);
      if !ok {
        return EventStore.Failed(ReceiptsDiverged);
      }
      UniqueUpdate(receipts[id := NewRow(GateNow(), c, q.disposition, now)], Carried(q.promotions, id));
      var entry := AuditRow(c.repositoryId, p.disposition, p.reason, c.event.digest, now);
      projections, sequence, receipts, pending := stored, revision, rows, buffered;
      audit, auditLast := audit[auditLast + 1 := entry], auditLast + 1;
      return Done(Receipt(p.disposition, revision, p.revision, Some(p.reason)));
    }

    method AcceptAndProject(c: Canonical, now: string) returns (a: Attempt<Receipt>)
      requires Valid()
      modifies this
      ensures Valid() && (Db(), a) == Deliver(old(Db()), c, now)
    {
      hide Project, Write, Lists;
      var byId := SelectById(c.event.id);
      var byKey := SelectByIdempotencyKey(c.event.idempotencyKey);
      if byId.Some? || byKey.Some? {
        if byId.Some? && byKey.Some? && byId.value.id == c.event.id && byKey.value.id == c.event.id &&
           byId.value.row.digest == c.event.digest && byKey.value.row.digest == c.event.digest {
          if c.repositoryId !in projections {
            return EventStore.Failed(MissingProjection);
          }
          return Done(Receipt(Duplicate, byId.value.row.revision, projections[c.repositoryId].revision, None));
        }
        return EventStore.Failed(IdentityConflict);
      }
      var current := None;
      if c.repositoryId in projections {
        current := Some(projections[c.repositoryId].state);
      }
      var p := RunProjector(current, c);
      if p.Failed? {
        return EventStore.Failed(p.error);
      }
      a := WriteProjected(c, p.value, now, Project(current, c).value);
    }

    /** The two deletions on the audit trail, by age and by count. */
    method PruneAudit(p: RetentionPolicy)
      modifies this`audit
      ensures var keep := PendingRevisions(receipts);
              audit == PruneExcessAudit(PruneOldAudit(old(audit), keep, p.auditCutoff), keep, p.maxAuditRows)
    {
      hide Earlier, AmongNewest;
      var keep := PendingRevisions(receipts);
      if p.auditCutoff.Some? {
        audit := map n | n in audit && !(Earlier(audit[n].createdAt, p.auditCutoff.value) && n !in keep) :: audit[n];
      }
      if p.maxAuditRows > 0 {
        audit := map n | n in audit && (AmongNewest(audit.Keys, n, p.maxAuditRows) || n in keep) :: audit[n];
      }
    }

    /** The receipts the retention condition selects. */
    method SelectCompactable(p: RetentionPolicy) returns (ids: set<string>)
      requires p.receiptCutoff.Some? || p.maxReceiptRows > 0
      ensures ids == Compacted(GateNow(), p)
    {
      hide Earlier, AmongNewest;
      var revisions := RevisionsOf(receipts);
      ids := set id | id in receipts
                      && receipts[id].disposition != Pending
                      && id !in pending
                      && (p.receiptCutoff.Some? ==> Earlier(receipts[id].createdAt, p.receiptCutoff.value))
                      && (p.maxReceiptRows > 0 ==> !AmongNewest(revisions, receipts[id].revision, p.maxReceiptRows));
    }

    /** Insert-or-ignore into the tombstones, then delete from the receipts. */
    method MoveToTombstones(ids: set<string>)
      requires Valid()
      modifies this`tombstones, this`receipts
      ensures Valid()
      ensures tombstones == old(tombstones) + Entombed(old(GateNow()), ids) && receipts == old(receipts) - ids
    {
      UniqueEntombed(GateNow(), ids);
      tombstones := tombstones + map id | id in receipts && id in ids && id !in tombstones &&
                                          !HasKey(tombstones, receipts[id].key) :: receipts[id];
      receipts := receipts - ids;
    }

    method RetainRows(p: RetentionPolicy)
      requires Valid()
      modifies this
      ensures Valid() && Db() == Retain(old(Db()), p)
    {
      hide PruneExcessAudit, PruneOldAudit, PendingRevisions, Compactable;
      PruneAudit(p);
      if p.receiptCutoff.Some? || p.maxReceiptRows > 0 {
        var ids := SelectCompactable(p);
        MoveToTombstones(ids);
      } else {
        assert Entombed(GateNow(), {}) == map[];
      }
    }
  }

  lemma UniqueInsert(rows: map<string, Row>, id: string, row: Row)
    requires OneRowPerKey(rows) && !HasKey(rows, row.key)
    ensures OneRowPerKey(rows[id := row])
  {
    forall k | k in rows ensures rows[k].key != row.key {
    }
  }

  lemma UniqueUpdate(rows: map<string, Row>, ups: map<string, Update>)
    requires OneRowPerKey(rows)
    ensures OneRowPerKey(UpdateRows(rows, ups))
  {
  }

  lemma UniqueEntombed(g: Gate, ids: set<string>)
    requires OneRowPerKey(g.receipts) && OneRowPerKey(g.tombstones)
    ensures OneRowPerKey(g.tombstones + Entombed(g, ids))
  {
    var all := g.tombstones + Entombed(g, ids);
    forall a, b | a in all && b in all && all[a].key == all[b].key ensures a == b {
      if a in Entombed(g, ids) && b !in Entombed(g, ids) {
        assert HasKey(g.tombstones, g.receipts[a].key) by { assert g.tombstones[b].key == g.receipts[a].key; }
      } else if b in Entombed(g, ids) && a !in Entombed(g, ids) {
        assert HasKey(g.tombstones, g.receipts[b].key) by { assert g.tombstones[a].key == g.receipts[b].key; }
      }
    }
  }
}
