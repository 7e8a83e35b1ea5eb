/** The store and the projections agree after every transaction, so the store's consistency
    errors cannot happen; and retention never shows in an answer. */
module StoreAgreement {
  import opened Names
  import opened Lifecycle
  import opened Reducer
  import opened Redaction
  import opened Growth
  import opened EventStore

  // ---------------------------------------------------------------- the invariant

  /** Every identity the gate remembers. */
  function Union(g: Gate): map<string, Row> {
    g.tombstones + g.receipts
  }

  predicate OneRowPerRevision(rows: map<string, Row>) {
    forall a, b :: a in rows && b in rows && rows[a].revision == rows[b].revision ==> a == b
  }

  predicate Numbered(rows: map<string, Row>, last: int) {
    forall a :: a in rows ==> 1 <= rows[a].revision <= last
  }

  /** A receipt is pending exactly when its event is buffered, and a tombstone never is. */
  predicate Buffered(g: Gate) {
    && g.pending.Keys <= g.receipts.Keys
    && (forall id :: id in g.receipts ==> (g.receipts[id].disposition == Pending <==> id in g.pending))
    && (forall id :: id in g.tombstones ==> g.tombstones[id].disposition != Pending)
  }

  predicate GateSound(g: Gate) {
    && g.receipts.Keys !! g.tombstones.Keys
    && OneRowPerKey(Union(g)) && OneRowPerRevision(Union(g)) && Numbered(Union(g), g.sequence)
    && Buffered(g)
  }

  predicate Joins(rows: map<string, Row>, n: int, digest: string) {
    exists id :: id in rows && rows[id].revision == n && rows[id].digest == digest
  }

  /** Receipts and audit rows are numbered in lock step, and each audit row has its receipt. */
  predicate TrailSound(rows: map<string, Row>, sequence: int, a: Trail) {
    && 0 <= a.last == sequence
    && (forall n :: n in a.rows ==> 1 <= n <= sequence && Joins(rows, n, a.rows[n].digest))
  }

  predicate BufferMatches(rows: map<string, Row>, l: Ledger) {
    forall id :: id in l.pending ==>
      id != "" && id in rows && rows[id].disposition == Pending &&
      rows[id].digest == l.pending[id].digest != "" && rows[id].key == l.pending[id].idempotencyKey
  }

  function SettledAs(l: Ledger, id: string): Disposition {
    if id in QuarantinedIds(l) then Rejected else Accepted
  }

  predicate ReceiptsMatch(rows: map<string, Row>, l: Ledger) {
    forall id :: id in l.receipts ==>
      id in rows && rows[id].digest == l.receipts[id] && rows[id].disposition == SettledAs(l, id)
  }

  predicate KeysMatch(rows: map<string, Row>, l: Ledger) {
    forall k :: k in l.idempotency ==> HasKey(rows, k)
  }

  /** One projection against the rows of the gate: same pending ids, same settled ids, same
      digests, same dispositions. */
  ghost predicate Matches(rows: map<string, Row>, repositoryId: string, s: Stored) {
    && s.state.facts.repositoryId == repositoryId && s.revision == s.state.ledger.revision
    && Orderly(s.state.ledger)
    && BufferMatches(rows, s.state.ledger) && ReceiptsMatch(rows, s.state.ledger) && KeysMatch(rows, s.state.ledger)
  }

  ghost predicate AllMatch(rows: map<string, Row>, ps: map<string, Stored>) {
    forall r :: r in ps ==> Matches(rows, r, ps[r])
  }

  /** No id belongs to two repositories. */
  predicate Apart(ps: map<string, Stored>) {
    forall r, q :: r in ps && q in ps && r != q ==> Known(ps[r].state.ledger) !! Known(ps[q].state.ledger)
  }

  predicate Owned(ps: map<string, Stored>, id: string) {
    exists r :: r in ps && id in Known(ps[r].state.ledger)
  }

  predicate AllOwned(rows: map<string, Row>, ps: map<string, Stored>) {
    forall id :: id in rows ==> Owned(ps, id)
  }

  /** Store and projections describe the same deliveries. */
  ghost predicate Agrees(t: Tables) {
    && GateSound(t.gate)
    && TrailSound(Union(t.gate), t.gate.sequence, t.trail)
    && AllMatch(Union(t.gate), t.projections)
    && Apart(t.projections)
    && AllOwned(Union(t.gate), t.projections)
  }

  // ---------------------------------------------------------------- the gate on the union

  /** The gate depends on the union of receipts and tombstones alone. */
  function JudgeUnion(rows: map<string, Row>, c: Canonical): EventStore.Verdict {
    if c.event.id !in rows && !HasKey(rows, c.event.idempotencyKey) then Unseen
    else if c.event.id in rows && rows[c.event.id].key == c.event.idempotencyKey && rows[c.event.id].digest == c.event.digest
    then Same(rows[c.event.id].revision)
    else Clash
  }

  lemma ByIdIsUnion(g: Gate, id: string)
    ensures RowById(g, id) == if id in Union(g) then Some(Found(id, Union(g)[id])) else None
  {
  }

  lemma HasKeyUnion(g: Gate, key: string)
    requires g.receipts.Keys !! g.tombstones.Keys
    ensures HasKey(Union(g), key) <==> HasKey(g.receipts, key) || HasKey(g.tombstones, key)
  {
    var u := Union(g);
    if HasKey(g.receipts, key) {
      var id :| id in g.receipts && g.receipts[id].key == key;
      assert id in u && u[id].key == key;
    }
    if HasKey(g.tombstones, key) {
      var id :| id in g.tombstones && g.tombstones[id].key == key;
      assert id in u && u[id].key == key;
    }
  }

  lemma ByKeyIsUnion(g: Gate, key: string)
    requires g.receipts.Keys !! g.tombstones.Keys
    ensures RowByKey(g, key) == None <==> !HasKey(Union(g), key)
    ensures RowByKey(g, key).Some? ==> Holds(Union(g), RowByKey(g, key).value, key)
  {
    HasKeyUnion(g, key);
  }

  lemma OwnerOfKey(rows: map<string, Row>, f: Found, id: string, key: string)
    requires OneRowPerKey(rows) && Holds(rows, f, key)
    ensures id in rows && rows[id].key == key <==> f.id == id
  {
  }

  lemma HasOwnKey(rows: map<string, Row>, id: string)
    requires id in rows
    ensures HasKey(rows, rows[id].key)
  {
  }

  lemma JudgeIsJudgeUnion(g: Gate, c: Canonical)
    requires GateSound(g)
    ensures Judge(g, c) == JudgeUnion(Union(g), c)
  {
    hide Union, RowById, RowByKey, OneRowPerKey, OneRowPerRevision, Numbered, Buffered, HasKey;
    var key := c.event.idempotencyKey;
    ByIdIsUnion(g, c.event.id);
    ByKeyIsUnion(g, key);
    if RowByKey(g, key).Some? {
      OwnerOfKey(Union(g), RowByKey(g, key).value, c.event.id, key);
    }
    if c.event.id in Union(g) {
      HasOwnKey(Union(g), c.event.id);
    }
  }

  // ---------------------------------------------------------------- a fresh event is fresh to the reducer

  lemma KnownIsRemembered(rows: map<string, Row>, r: string, s: Stored)
    requires Matches(rows, r, s)
    ensures Known(s.state.ledger) <= rows.Keys
  {
    hide Orderly, QuarantinedIds, HasKey;
  }

  lemma UnseenIsFresh(rows: map<string, Row>, r: string, s: Stored, c: Canonical)
    requires Matches(rows, r, s) && WellFormed(c)
    requires c.event.id !in rows && !HasKey(rows, c.event.idempotencyKey)
    ensures Fresh(s.state.ledger, Normalize(c.event))
  {
    hide Orderly, QuarantinedIds, HasKey;
    KnownIsRemembered(rows, r, s);
  }

  lemma NormalKeeps(c: Canonical)
    requires WellFormed(c)
    ensures var e := Normalize(c.event);
            e.id == c.event.id && e.digest == c.event.digest && e.idempotencyKey == c.event.idempotencyKey
  {
  }

  // ---------------------------------------------------------------- one delivery: the rows

  /** The effect of a recorded delivery on the union: one new row, some pending rows settled. */
  function RowsAfter(rows: map<string, Row>, id: string, row: Row, ups: map<string, Update>): map<string, Row> {
    UpdateRows(rows[id := row], ups)
  }

  /** The updates name pending rows, the delivered event's not among them. */
  predicate Settles(rows: map<string, Row>, id: string, ups: map<string, Update>) {
    && id !in ups
    && forall k :: k in ups ==>
         k in rows && rows[k].disposition == Pending && rows[k].digest == ups[k].digest && ups[k].disposition != Pending
  }

  lemma PendingIsReceipt(g: Gate, id: string)
    requires GateSound(g) && id in Union(g) && Union(g)[id].disposition == Pending
    ensures id in g.receipts && g.receipts[id] == Union(g)[id] && id in g.pending
  {
    hide OneRowPerKey, OneRowPerRevision, Numbered;
  }

  lemma UpdatesApply(g: Gate, id: string, row: Row, pending: map<string, string>, ups: map<string, Update>)
    requires GateSound(g) && Settles(Union(g), id, ups) && g.pending.Keys <= pending.Keys
    ensures Applicable(g.receipts[id := row], pending, ups)
    ensures ups.Keys <= g.receipts.Keys && ups.Keys <= g.pending.Keys
  {
    hide GateSound, Union;
    forall k | k in ups
      ensures k in g.receipts && g.receipts[k] == Union(g)[k] && k in g.pending
    {
      PendingIsReceipt(g, k);
    }
  }

  lemma UnionAfter(g: Gate, id: string, row: Row, ups: map<string, Update>, pending: map<string, string>, n: int)
    requires g.receipts.Keys !! g.tombstones.Keys && id !in g.tombstones && ups.Keys <= g.receipts.Keys
    ensures Union(Gate(UpdateRows(g.receipts[id := row], ups), g.tombstones, pending, n)) == RowsAfter(Union(g), id, row, ups)
  {
  }

  lemma UniqueAdded(rows: map<string, Row>, id: string, row: Row, n: int)
    requires OneRowPerKey(rows) && OneRowPerRevision(rows) && Numbered(rows, n)
    requires id !in rows && !HasKey(rows, row.key) && row.revision == n + 1 && n >= 0
    ensures OneRowPerKey(rows[id := row]) && OneRowPerRevision(rows[id := row]) && Numbered(rows[id := row], n + 1)
  {
    forall a | a in rows ensures rows[a].key != row.key {
      HasOwnKey(rows, a);
    }
  }

  lemma UniqueUpdated(rows: map<string, Row>, ups: map<string, Update>, n: int)
    requires OneRowPerKey(rows) && OneRowPerRevision(rows) && Numbered(rows, n)
    ensures var after := UpdateRows(rows, ups);
            OneRowPerKey(after) && OneRowPerRevision(after) && Numbered(after, n)
  {
  }

  lemma UniqueAfter(rows: map<string, Row>, id: string, row: Row, ups: map<string, Update>, n: int)
    requires OneRowPerKey(rows) && OneRowPerRevision(rows) && Numbered(rows, n)
    requires id !in rows && !HasKey(rows, row.key) && row.revision == n + 1 && n >= 0
    ensures var after := RowsAfter(rows, id, row, ups);
            OneRowPerKey(after) && OneRowPerRevision(after) && Numbered(after, n + 1)
  {
    hide HasKey, OneRowPerKey, OneRowPerRevision, Numbered, UpdateRows;
    UniqueAdded(rows, id, row, n);
    UniqueUpdated(rows[id := row], ups, n + 1);
  }

  lemma BufferedAfter(g: Gate, id: string, row: Row, ups: map<string, Update>, pending: map<string, string>)
    requires Buffered(g) && id !in ups && id !in g.receipts && Applicable(g.receipts[id := row], pending, ups)
    requires pending.Keys == g.pending.Keys + if row.disposition == Pending then {id} else {}
    requires forall k :: k in ups ==> ups[k].disposition != Pending
    ensures Buffered(Gate(UpdateRows(g.receipts[id := row], ups), g.tombstones, pending - ups.Keys, g.sequence + 1))
  {
  }

  /** Recording an unseen event cannot fail, and keeps the gate sound. */
  lemma RecordReceiptSound(g: Gate, c: Canonical, p: ProjectionResult, now: string)
    requires GateSound(g) && g.sequence >= 0 && JudgeUnion(Union(g), c) == Unseen
    requires Settles(Union(g), c.event.id, Carried(p.promotions, c.event.id))
    ensures var row := NewRow(g, c, p.disposition, now);
            RecordReceipt(g, c, p, now).Done? &&
            var h := RecordReceipt(g, c, p, now).value;
            GateSound(h) && h.sequence == g.sequence + 1 &&
            Union(h) == RowsAfter(Union(g), c.event.id, row, Carried(p.promotions, c.event.id))
  {
    hide OneRowPerKey, OneRowPerRevision, Numbered, Applicable, Union, Settles, Carried, RowsAfter, HasKey, UpdateRows;
    var id := c.event.id;
    var row := NewRow(g, c, p.disposition, now);
    var pending := WithEvent(g.pending, c, p.disposition);
    var ups := Carried(p.promotions, id);
    NotInUnion(g, id);
    HasKeyUnion(g, c.event.idempotencyKey);
    UpdatesApply(g, id, row, pending, ups);
    SettlesNot(Union(g), id, ups);
    UnionAfter(g, id, row, ups, pending - ups.Keys, g.sequence + 1);
    UniqueAfter(Union(g), id, row, ups, g.sequence);
    BufferedAfter(g, id, row, ups, pending);
    KeysAfter(g.receipts, id, row, ups);
  }

  lemma NotInUnion(g: Gate, id: string)
    requires id !in Union(g)
    ensures id !in g.receipts && id !in g.tombstones
  {
  }

  lemma SettlesNot(rows: map<string, Row>, id: string, ups: map<string, Update>)
    requires Settles(rows, id, ups)
    ensures id !in ups && forall k :: k in ups ==> ups[k].disposition != Pending
  {
  }

  lemma KeysAfter(rows: map<string, Row>, id: string, row: Row, ups: map<string, Update>)
    ensures UpdateRows(rows[id := row], ups).Keys == rows.Keys + {id}
  {
  }

  lemma JoinsAfter(rows: map<string, Row>, id: string, row: Row, ups: map<string, Update>, n: int, digest: string)
    requires id !in rows && (Joins(rows, n, digest) || (row.revision == n && row.digest == digest))
    ensures Joins(RowsAfter(rows, id, row, ups), n, digest)
  {
    var after := RowsAfter(rows, id, row, ups);
    if Joins(rows, n, digest) {
      var k :| k in rows && rows[k].revision == n && rows[k].digest == digest;
      assert k in after && after[k].revision == n && after[k].digest == digest;
    } else {
      assert id in after && after[id].revision == n && after[id].digest == digest;
    }
  }

  lemma TrailAfter(rows: map<string, Row>, n: int, a: Trail, c: Canonical, p: ProjectionResult, row: Row, now: string, ups: map<string, Update>)
    requires TrailSound(rows, n, a) && c.event.id !in rows && row.revision == n + 1 && row.digest == c.event.digest
    ensures TrailSound(RowsAfter(rows, c.event.id, row, ups), n + 1, RecordAudit(a, c, p, now))
  {
    hide Joins, RowsAfter;
    var b, after := RecordAudit(a, c, p, now), RowsAfter(rows, c.event.id, row, ups);
    forall k | k in b.rows ensures 1 <= k <= n + 1 && Joins(after, k, b.rows[k].digest) {
      assert k in a.rows || k == n + 1;
      JoinsAfter(rows, c.event.id, row, ups, k, b.rows[k].digest);
    }
  }

  // ---------------------------------------------------------------- one delivery: the projection

  lemma SameWhenBounded(l: Ledger)
    ensures var m := BoundedLedger(l);
            m.receipts == l.receipts && m.idempotency == l.idempotency && m.revision == l.revision &&
            QuarantinedIds(m) == QuarantinedIds(l) && m.pending.Keys == l.pending.Keys
    ensures forall id :: id in l.pending ==>
              var a, b := BoundedLedger(l).pending[id], l.pending[id];
              a.id == b.id && a.digest == b.digest && a.idempotencyKey == b.idempotencyKey
  {
    var m := BoundedLedger(l);
    assert |m.quarantine| == |l.quarantine|;
    assert forall i :: 0 <= i < |l.quarantine| ==> m.quarantine[i].event.id == l.quarantine[i].event.id;
    assert QuarantinedIds(m) == QuarantinedIds(l);
    assert m.pending.Keys == l.pending.Keys;
  }

  /** What a delivery settles out of the buffer is exactly what the projector reports. */
  lemma PromotionsAreGone(l: Ledger, m: Ledger, e: Event, d: Disposition)
    requires Orderly(l) && e.id !in l.pending && Growth.Outcome(l, m, e, d)
    ensures Promotions(l, BoundedLedger(m)).Keys == Gone(l, m).Keys
    ensures forall id :: id in Gone(l, m) ==>
              Promotions(l, BoundedLedger(m))[id] == Update(l.pending[id].digest, SettledAs(m, id))
  {
    hide BoundedLedger, QuarantinedIds, Growth.Outcome, Orderly, Grows;
    SameWhenBounded(m);
    GoneIsSettled(l, m, e, d);
  }

  lemma PromotionsSettle(rows: map<string, Row>, l: Ledger, m: Ledger, e: Event, d: Disposition)
    requires Orderly(l) && e.id !in l.pending && Growth.Outcome(l, m, e, d) && BufferMatches(rows, l)
    ensures var ps := Promotions(l, BoundedLedger(m));
            Carried(ps, e.id) == ps && Settles(rows, e.id, ps) && ps.Keys <= l.pending.Keys
  {
    hide Growth.Outcome, Orderly, BoundedLedger, Promotions, QuarantinedIds;
    PromotionsAreGone(l, m, e, d);
  }

  /** The rows after the delivery, as the projection's ledger sees them. */
  function RowsNow(rows: map<string, Row>, e: Event, row: Row, l: Ledger, m: Ledger): map<string, Row> {
    RowsAfter(rows, e.id, row, Promotions(l, BoundedLedger(m)))
  }

  lemma BufferMatchesNow(rows: map<string, Row>, l: Ledger, m: Ledger, e: Event, d: Disposition, row: Row)
    requires Orderly(l) && e.id !in l.pending && Growth.Outcome(l, m, e, d) && BufferMatches(rows, l) && e.id !in rows
    requires e.id != "" && e.digest != "" && row.digest == e.digest && row.key == e.idempotencyKey && row.disposition == d
    ensures BufferMatches(RowsNow(rows, e, row, l, m), BoundedLedger(m))
  {
    hide Orderly, Grows, BoundedLedger, Promotions, QuarantinedIds;
    PromotionsAreGone(l, m, e, d);
    SameWhenBounded(m);
    var after, n := RowsNow(rows, e, row, l, m), BoundedLedger(m);
    forall id | id in n.pending
      ensures id in after && after[id].disposition == Pending && after[id].digest == n.pending[id].digest != ""
      ensures after[id].key == n.pending[id].idempotencyKey
    {
      assert id !in Gone(l, m);
    }
  }

  lemma DigestSettled(l: Ledger, m: Ledger, e: Event, id: string)
    requires Grows(l, m, SettledBy(l, m, e)) && id in m.receipts && e.id !in l.pending
    ensures id == e.id ==> m.receipts[id] == DigestOf(e)
    ensures id in Gone(l, m) ==> m.receipts[id] == DigestOf(l.pending[id])
    ensures id != e.id && id !in Gone(l, m) ==> id in l.receipts && m.receipts[id] == l.receipts[id] && SettledAs(m, id) == SettledAs(l, id)
  {
    hide DigestOf, KeysGrow, QuarantinedIds;
    assert id in SettledBy(l, m, e) <==> id == e.id || id in Gone(l, m);
  }

  lemma ReceiptsMatchNow(rows: map<string, Row>, l: Ledger, m: Ledger, e: Event, d: Disposition, row: Row)
    requires Orderly(l) && e.id !in l.pending && Growth.Outcome(l, m, e, d) && BufferMatches(rows, l) && e.id !in rows
    requires ReceiptsMatch(rows, l)
    requires e.digest != "" && row.digest == e.digest && row.disposition == d
    ensures ReceiptsMatch(RowsNow(rows, e, row, l, m), BoundedLedger(m))
  {
    hide Orderly, Grows, BoundedLedger, Promotions, QuarantinedIds;
    PromotionsAreGone(l, m, e, d);
    SameWhenBounded(m);
    var after, n := RowsNow(rows, e, row, l, m), BoundedLedger(m);
    forall id | id in n.receipts
      ensures id in after && after[id].digest == n.receipts[id] && after[id].disposition == SettledAs(n, id)
    {
      if d == Pending {
        assert Gone(l, m) == map[];
        assert id in l.receipts;
        SameQuarantine(l, m);
      } else {
        DigestSettled(l, m, e, id);
      }
    }
  }

  lemma HasKeyAfter(rows: map<string, Row>, id: string, row: Row, ups: map<string, Update>, key: string)
    requires id !in rows && (HasKey(rows, key) || row.key == key)
    ensures HasKey(RowsAfter(rows, id, row, ups), key)
  {
    var after := RowsAfter(rows, id, row, ups);
    if HasKey(rows, key) {
      var k :| k in rows && rows[k].key == key;
      assert k in after && after[k].key == key;
    } else {
      assert id in after && after[id].key == key;
    }
  }

  lemma CarriedKey(rows: map<string, Row>, l: Ledger, m: Ledger, e: Event, key: string)
    requires BufferMatches(rows, l) && Carries(SettledBy(l, m, e), key)
    ensures HasKey(rows, key) || key == e.idempotencyKey
  {
    var id :| id in SettledBy(l, m, e) && SettledBy(l, m, e)[id].idempotencyKey == key;
    if id in Gone(l, m) {
      assert rows[id].key == key;
    }
  }

  lemma KeysMatchNow(rows: map<string, Row>, l: Ledger, m: Ledger, e: Event, d: Disposition, row: Row)
    requires e.id !in l.pending && Growth.Outcome(l, m, e, d) && BufferMatches(rows, l) && e.id !in rows
    requires KeysMatch(rows, l) && row.key == e.idempotencyKey
    ensures KeysMatch(RowsNow(rows, e, row, l, m), BoundedLedger(m))
  {
    hide Orderly, BoundedLedger, Promotions, QuarantinedIds, RowsAfter, HasKey, Digests, Carries, BufferMatches, SettledBy;
    SameWhenBounded(m);
    var after := RowsNow(rows, e, row, l, m);
    forall k | k in m.idempotency ensures HasKey(after, k) {
      if d != Pending && k !in l.idempotency {
        CarriedKey(rows, l, m, e, k);
      }
      HasKeyAfter(rows, e.id, row, Promotions(l, BoundedLedger(m)), k);
    }
  }

  lemma OrderlyWhenBounded(l: Ledger)
    requires Orderly(l)
    ensures Orderly(BoundedLedger(l))
  {
    hide BoundedLedger, QuarantinedIds;
    SameWhenBounded(l);
  }

  lemma KnownNow(l: Ledger, m: Ledger, e: Event, d: Disposition)
    requires Orderly(l) && e.id !in l.pending && Growth.Outcome(l, m, e, d)
    ensures Known(BoundedLedger(m)) == Known(l) + {e.id}
    ensures BoundedLedger(m).revision >= l.revision && Orderly(BoundedLedger(m))
  {
    hide BoundedLedger, QuarantinedIds, Grows, Growth.Outcome, Orderly;
    SameWhenBounded(m);
    OutcomeOrderly(l, m, e, d);
    OrderlyWhenBounded(m);
    if d == Pending {
      OnlyBuffered(l, m, e);
    } else {
      SettledIds(l, m, e, d);
    }
  }
}
