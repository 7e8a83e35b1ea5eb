/** The durable gate: receipts, tombstones, the causal buffer, projections and the audit
    trail, and what one transaction of the store or of retention does to them, on values. */
module EventStore {
  import opened Names
  import opened Lifecycle
  import opened Reducer
  import opened Redaction
  import opened Growth

  /** A receipt without its event id, which is the key it is stored under. */
  datatype Row = Row(key: string, digest: string, disposition: Disposition, revision: int, createdAt: string)

  datatype AuditRow = AuditRow(repositoryId: string, disposition: Disposition, reason: Reason, digest: string, createdAt: string)

  datatype Stored = Stored(revision: int, state: State)

  /** Receipts, tombstones, buffered ids with their cause, and the revision counter. */
  datatype Gate = Gate(
    receipts: map<string, Row>, tombstones: map<string, Row>, pending: map<string, string>, sequence: int)

  /** The audit rows by their autoincremented revision, and the last one handed out. */
  datatype Trail = Trail(rows: map<int, AuditRow>, last: int)

  datatype Tables = Tables(gate: Gate, projections: map<string, Stored>, trail: Trail)

  const EMPTY := Tables(Gate(map[], map[], map[], 0), map[], Trail(map[], 0))

  /** A validated event and the repository it names. */
  datatype Canonical = Canonical(repositoryId: string, event: Event)

  /** What envelope validation guarantees: id, type, class, key and digest are all there. */
  predicate WellFormed(c: Canonical) {
    c.event.id != "" && c.event.idempotencyKey != "" && c.event.digest != "" && c.event.eventType != OtherType("")
  }

  datatype StoreError =
    | IdentityConflict | MissingProjection | RepositoryMismatch | UnknownDisposition | RevisionRegressed
    | UniqueViolation | ReceiptsDiverged

  datatype Attempt<+T> = Done(value: T) | Failed(error: StoreError)

  datatype Receipt = Receipt(disposition: Disposition, revision: int, stateRevision: int, reason: Option<Reason>)

  // ---------------------------------------------------------------- looking receipts up

  datatype Found = Found(id: string, row: Row)

  predicate HasKey(rows: map<string, Row>, key: string) {
    exists id :: id in rows && rows[id].key == key
  }

  predicate Holds(rows: map<string, Row>, f: Found, key: string) {
    f.id in rows && rows[f.id] == f.row && f.row.key == key
  }

  /** The tables' UNIQUE constraint on idempotency keys. */
  predicate OneRowPerKey(rows: map<string, Row>) {
    forall a, b :: a in rows && b in rows && rows[a].key == rows[b].key ==> a == b
  }

  ghost function WithKey(rows: map<string, Row>, key: string): (f: Found)
    requires HasKey(rows, key)
    ensures Holds(rows, f, key)
  {
    var id :| id in rows && rows[id].key == key;
    assert Holds(rows, Found(id, rows[id]), key);
    var f :| Holds(rows, f, key);
    f
  }

  function RowById(g: Gate, id: string): Option<Found> {
    if id in g.receipts then Some(Found(id, g.receipts[id]))
    else if id in g.tombstones then Some(Found(id, g.tombstones[id])) else None
  }

  ghost function RowByKey(g: Gate, key: string): Option<Found> {
    if HasKey(g.receipts, key) then Some(WithKey(g.receipts, key))
    else if HasKey(g.tombstones, key) then Some(WithKey(g.tombstones, key)) else None
  }

  /** The gate has never seen the event, has seen exactly it, or has seen its id or key with
      other content. */
  datatype Verdict = Unseen | Same(revision: int) | Clash

  function JudgeRows(byId: Option<Found>, byKey: Option<Found>, c: Canonical): Verdict {
    if byId == None && byKey == None then Unseen
    else if byId.Some? && byKey.Some? && byId.value.id == c.event.id && byKey.value.id == c.event.id &&
            byId.value.row.digest == c.event.digest && byKey.value.row.digest == c.event.digest
    then Same(byId.value.row.revision)
    else Clash
  }

  ghost function Judge(g: Gate, c: Canonical): Verdict {
    JudgeRows(RowById(g, c.event.id), RowByKey(g, c.event.idempotencyKey), c)
  }

  // ---------------------------------------------------------------- projecting

  datatype Update = Update(digest: string, disposition: Disposition)

  /** Every buffered event that now has a receipt, with the way it settled. */
  function Promotions(before: Ledger, after: Ledger): map<string, Update> {
    map id | id in before.pending && id in after.receipts ::
      Update(before.pending[id].digest, if id in QuarantinedIds(after) then Rejected else Accepted)
  }

  datatype ProjectionResult = ProjectionResult(
    state: State, disposition: Disposition, reason: Reason, revision: int, promotions: map<string, Update>)

  function Before(current: Option<State>, repositoryId: string): State {
    match current
    case Some(s) => s
    case None => NewState(repositoryId)
  }

  /** The application's projector: reduce, redact, and report the receipts that changed. */
  ghost function Project(current: Option<State>, c: Canonical): Attempt<ProjectionResult> {
    var s := Before(current, c.repositoryId);
    if s.facts.repositoryId != c.repositoryId then Failed(RepositoryMismatch)
    else
      var (next, r) := Reduce(s, c.event);
      if r.disposition == Duplicate then Failed(UnknownDisposition)
      else Done(ProjectionResult(Bounded(next), r.disposition, r.reason, r.revision, Promotions(s.ledger, Bounded(next).ledger)))
  }

  // ---------------------------------------------------------------- one transaction

  /** The updates that are carried out: not those of the delivered event, nor without a digest. */
  function Carried(ups: map<string, Update>, id: string): map<string, Update> {
    map k | k in ups && k != "" && k != id && ups[k].digest != "" :: ups[k]
  }

  /** Each update finds its pending receipt, digest included, and its buffered event. */
  predicate Applicable(rows: map<string, Row>, pending: map<string, string>, ups: map<string, Update>) {
    forall k :: k in ups ==>
      k in rows && rows[k].digest == ups[k].digest && rows[k].disposition == Pending && k in pending
  }

  function UpdateRows(rows: map<string, Row>, ups: map<string, Update>): map<string, Row> {
    map k | k in rows :: if k in ups then rows[k].(disposition := ups[k].disposition) else rows[k]
  }

  function NewRow(g: Gate, c: Canonical, d: Disposition, now: string): Row {
    Row(c.event.idempotencyKey, c.event.digest, d, g.sequence + 1, now)
  }

  function WithEvent(pending: map<string, string>, c: Canonical, d: Disposition): map<string, string> {
    if d == Pending then pending[c.event.id := c.event.causationId] else pending
  }

  function RecordReceipt(g: Gate, c: Canonical, p: ProjectionResult, now: string): Attempt<Gate> {
    var id := c.event.id;
    if id in g.receipts || HasKey(g.receipts, c.event.idempotencyKey) || (p.disposition == Pending && id in g.pending)
    then Failed(UniqueViolation)
    else
      var rows := g.receipts[id := NewRow(g, c, p.disposition, now)];
      var pending := WithEvent(g.pending, c, p.disposition);
      var ups := Carried(p.promotions, id);
      if !Applicable(rows, pending, ups) then Failed(ReceiptsDiverged)
      else Done(Gate(UpdateRows(rows, ups), g.tombstones, pending - ups.Keys, g.sequence + 1))
  }

  function RecordAudit(a: Trail, c: Canonical, p: ProjectionResult, now: string): Trail {
    Trail(a.rows[a.last + 1 := AuditRow(c.repositoryId, p.disposition, p.reason, c.event.digest, now)], a.last + 1)
  }

  function Current(t: Tables, c: Canonical): Option<State> {
    if c.repositoryId in t.projections then Some(t.projections[c.repositoryId].state) else None
  }

  /** What the transaction writes once the projector has answered. */
  function Write(t: Tables, c: Canonical, p: ProjectionResult, now: string): (Tables, Attempt<Receipt>) {
    if c.repositoryId in t.projections && p.revision < t.projections[c.repositoryId].revision
    then (t, Failed(RevisionRegressed))
    else
      match RecordReceipt(t.gate, c, p, now)
      case Failed(err) => (t, Failed(err))
      case Done(g) =>
        (Tables(g, t.projections[c.repositoryId := Stored(p.revision, p.state)], RecordAudit(t.trail, c, p, now)),
         Done(Receipt(p.disposition, g.sequence, p.revision, Some(p.reason))))
  }

  /** The event went through the gate before. */
  function AnswerSame(t: Tables, c: Canonical, revision: int): Attempt<Receipt> {
    if c.repositoryId in t.projections
    then Done(Receipt(Duplicate, revision, t.projections[c.repositoryId].revision, None))
    else Failed(MissingProjection)
  }

  /** `AcceptAndProject` with the application's projector: all of it happens or none of it. */
  ghost function Deliver(t: Tables, c: Canonical, now: string): (Tables, Attempt<Receipt>) {
    match Judge(t.gate, c)
    case Clash => (t, Failed(IdentityConflict))
    case Same(revision) => (t, AnswerSame(t, c, revision))
    case Unseen =>
      match Project(Current(t, c), c)
      case Failed(err) => (t, Failed(err))
      case Done(p) => Write(t, c, p, now)
  }

  /** `LookupReceipt`: the gate's answer without running the projector; None is the zero receipt. */
  ghost function Lookup(t: Tables, c: Canonical): Attempt<Option<Receipt>> {
    LookupRows(t, RowById(t.gate, c.event.id), RowByKey(t.gate, c.event.idempotencyKey), c)
  }

  function LookupRows(t: Tables, byId: Option<Found>, byKey: Option<Found>, c: Canonical): Attempt<Option<Receipt>> {
    if byId == None && byKey == None then Done(None)
    else if byId == None || byKey == None || byId.value.id != c.event.id || byKey.value.id != c.event.id ||
            byId.value.row.digest != c.event.digest || byKey.value.row.digest != c.event.digest ||
            byId.value.row.disposition != byKey.value.row.disposition ||
            byId.value.row.revision != byKey.value.row.revision
    then Failed(IdentityConflict)
    else
      var row := byId.value.row;
      if row.disposition == Pending then Done(Some(Receipt(Pending, row.revision, 0, None)))
      else if c.repositoryId in t.projections
      then Done(Some(Receipt(row.disposition, row.revision, t.projections[c.repositoryId].revision, None)))
      else Failed(MissingProjection)
  }

  // ---------------------------------------------------------------- retention

  /** Ages come as cutoff timestamps; a missing cutoff or a row limit of 0 leaves that class alone. */
  datatype RetentionPolicy = RetentionPolicy(
    auditCutoff: Option<string>, maxAuditRows: int, receiptCutoff: Option<string>, maxReceiptRows: int)

  /** Timestamps compare as text, the way the database compares them. */
  predicate Earlier(a: string, b: string) {
    a != b && Leq(a, b)
  }

  function PendingRevisions(rows: map<string, Row>): set<int> {
    set id | id in rows && rows[id].disposition == Pending :: rows[id].revision
  }

  /** The `n` newest revisions of a set. */
  predicate AmongNewest(revisions: set<int>, r: int, n: int) {
    |set x | x in revisions && x > r| < n
  }

  function PruneOldAudit(rows: map<int, AuditRow>, keep: set<int>, cutoff: Option<string>): map<int, AuditRow> {
    if cutoff == None then rows
    else map n | n in rows && !(Earlier(rows[n].createdAt, cutoff.value) && n !in keep) :: rows[n]
  }

  function PruneExcessAudit(rows: map<int, AuditRow>, keep: set<int>, limit: int): map<int, AuditRow> {
    if limit <= 0 then rows else map n | n in rows && (AmongNewest(rows.Keys, n, limit) || n in keep) :: rows[n]
  }

  function RevisionsOf(rows: map<string, Row>): set<int> {
    set id | id in rows :: rows[id].revision
  }

  /** The clauses of the retention condition: settled, not buffered, old enough, not among the newest. */
  predicate Compactable(g: Gate, p: RetentionPolicy, id: string)
    requires id in g.receipts
  {
    && g.receipts[id].disposition != Pending
    && id !in g.pending
    && (p.receiptCutoff.Some? ==> Earlier(g.receipts[id].createdAt, p.receiptCutoff.value))
    && (p.maxReceiptRows > 0 ==> !AmongNewest(RevisionsOf(g.receipts), g.receipts[id].revision, p.maxReceiptRows))
  }

  function Compacted(g: Gate, p: RetentionPolicy): set<string> {
    if p.receiptCutoff == None && p.maxReceiptRows <= 0 then {}
    else set id | id in g.receipts && Compactable(g, p, id)
  }

  /** Insert-or-ignore: a row whose id or key a tombstone already has is not inserted. */
  function Entombed(g: Gate, ids: set<string>): map<string, Row> {
    map id | id in g.receipts && id in ids && id !in g.tombstones && !HasKey(g.tombstones, g.receipts[id].key) :: g.receipts[id]
  }

  function CompactGate(g: Gate, p: RetentionPolicy): Gate {
    var ids := Compacted(g, p);
    g.(tombstones := g.tombstones + Entombed(g, ids), receipts := g.receipts - ids)
  }

  /** `Retain`: prune the audit trail by age, then by count, then move receipts to tombstones. */
  function Retain(t: Tables, p: RetentionPolicy): Tables {
    var keep := PendingRevisions(t.gate.receipts);
    var young := PruneOldAudit(t.trail.rows, keep, p.auditCutoff);
    t.(trail := t.trail.(rows := PruneExcessAudit(young, keep, p.maxAuditRows)), gate := CompactGate(t.gate, p))
  }
}
