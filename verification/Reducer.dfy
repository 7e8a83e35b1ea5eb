/** One delivery: the ledger around the facts (receipts, keys, buffer, quarantine, sequence
    marks) and `Reduce` with its replay of buffered events, as functions on values. */
module Reducer {
  import opened Names
  import opened Lifecycle

  const MAX_INT64 := 0x7FFF_FFFF_FFFF_FFFF

  /** `n + 1` in Go's int64. */
  function Next64(n: int): int {
    if n == MAX_INT64 then -MAX_INT64 - 1 else n + 1
  }

  datatype Quarantined = Quarantined(event: Event, reason: Reason)

  /** What the reducer remembers of deliveries. */
  datatype Ledger = Ledger(
    revision: int, receipts: map<string, string>, idempotency: map<string, string>,
    pending: map<string, Event>, quarantine: seq<Quarantined>, lastSequence: map<string, int>)

  /** The ids the ledger knows: settled or still waiting. */
  function Known(l: Ledger): set<string> {
    l.receipts.Keys + l.pending.Keys
  }

  datatype State = State(facts: Facts, ledger: Ledger)

  function NewState(repositoryId: string): State {
    State(NewFacts(repositoryId), Ledger(0, map[], map[], map[], [], map[]))
  }

  datatype Disposition = Accepted | Duplicate | Pending | Rejected

  datatype Action = ActionNone | ActionAskConsent | ActionVerify | ActionCommit | ActionPush | ActionNotify | ActionBlocked

  datatype Result = Result(disposition: Disposition, action: Action, reason: Reason, revision: int, eventId: string)

  // ---------------------------------------------------------------- reading an event

  /** The alias fields stand in for fields that were not set; a missing class is inferred. */
  function Normalize(e: Event): Event {
    var t := if e.eventType == OtherType("") then e.typeAlias else e.eventType;
    var c := if e.eventClass == OtherClass("") then e.classAlias else e.eventClass;
    e.(id := OrElse(e.id, e.idAlias), eventType := t,
       eventClass := if c == OtherClass("") then InferredClass(t) else c)
  }

  function InferredClass(t: EventType): EventClass {
    match t
    case SessionStarted | SessionIdle | SessionEnded | PromptSubmitted | TaskStarted | TaskUpdated
      | TaskCompleted | TaskFailed | ToolStarted | ToolCompleted | FilesChanged | ModelStopped => Ingress
    case _ => Domain
  }

  predicate ClassAllows(c: EventClass, t: EventType) {
    if t == TaskCompleted then c == Ingress || c == Domain
    else (c == Ingress && InferredClass(t) == Ingress) || (c == Domain && InferredClass(t) == Domain)
  }

  function ActionFor(t: EventType, reason: Reason): Action {
    if reason == ReasonEvidenceInvalidated || t == VerificationRequested || t == VerificationStarted then ActionVerify
    else
      match t
      case PolicyConsentRequested => ActionAskConsent
      case ChangeStaged => ActionVerify
      case VerificationPassed => ActionCommit
      case CommitCreated => ActionPush
      case PushSucceeded | PromptRequested | PromptQueued | PromptPresented => ActionNotify
      case _ => ActionNone
  }

  /** The digest an event came with, or else the hash of the typed event. */
  function DigestOf(e: Event): string {
    if e.digest != "" then e.digest else e.contentHash
  }

  // ---------------------------------------------------------------- admission

  function LastOf(l: Ledger, stream: string): int {
    Find(l.lastSequence, stream, 0)
  }

  predicate Ordered(s: State, e: Event) {
    e.producerSeq.Some? && (e.capabilities.monotonicSequence || s.facts.work.session.capabilities.monotonicSequence)
  }

  predicate AwaitsCause(l: Ledger, e: Event) {
    e.causationId != "" && e.causationId !in l.receipts
  }

  predicate AlreadyPassed(s: State, e: Event) {
    Ordered(s, e) && LastOf(s.ledger, e.streamId) > 0 && e.producerSeq.value <= LastOf(s.ledger, e.streamId)
  }

  /** The replay loop's test: the next number of the stream is still missing. */
  predicate SequenceGap(s: State, e: Event) {
    Ordered(s, e) && LastOf(s.ledger, e.streamId) > 0 && e.producerSeq.value > Next64(LastOf(s.ledger, e.streamId))
  }

  /** The delivery test: a stream must also start at 1. */
  predicate DeliveryGap(s: State, e: Event) {
    SequenceGap(s, e) || (Ordered(s, e) && LastOf(s.ledger, e.streamId) == 0 && e.producerSeq.value > 1)
  }

  datatype Admission = Malformed | WrongClass | Repeated | Conflicting | StillPending | OutOfOrder | Early | Ready

  /** What the checks before `apply` say of an event, in the order the code makes them. */
  ghost function Admit(s: State, e: Event): Admission {
    var l := s.ledger;
    if e.id == "" || e.eventType == OtherType("") then Malformed
    else if !ClassAllows(e.eventClass, e.eventType) then WrongClass
    else if e.id in l.receipts then (if l.receipts[e.id] == DigestOf(e) then Repeated else Conflicting)
    else if e.idempotencyKey != "" && e.idempotencyKey in l.idempotency then
      (if l.idempotency[e.idempotencyKey] == DigestOf(e) then Repeated else Conflicting)
    else if e.id in l.pending then (if DigestOf(l.pending[e.id]) == DigestOf(e) then StillPending else Conflicting)
    else if AwaitsCause(l, e) then Early
    else if AlreadyPassed(s, e) then OutOfOrder
    else if DeliveryGap(s, e) then Early
    else Ready
  }

  // ---------------------------------------------------------------- bookkeeping

  /** Receipt, key, sequence mark and revision for an applied event. */
  ghost function Take(l: Ledger, id: string, e: Event): Ledger {
    l.(receipts := l.receipts[id := DigestOf(e)],
       idempotency := if e.idempotencyKey != "" then l.idempotency[e.idempotencyKey := DigestOf(e)] else l.idempotency,
       lastSequence := if e.producerSeq.Some? && e.producerSeq.value > LastOf(l, e.streamId)
                       then l.lastSequence[e.streamId := e.producerSeq.value] else l.lastSequence,
       revision := l.revision + 1)
  }

  /** Quarantine entry, receipt, key (if new) and revision for a refused event. */
  ghost function Shelve(l: Ledger, id: string, e: Event, reason: Reason): Ledger {
    l.(quarantine := l.quarantine + [Quarantined(e, reason)],
       receipts := l.receipts[id := DigestOf(e)],
       idempotency := if e.idempotencyKey != "" && e.idempotencyKey !in l.idempotency
                      then l.idempotency[e.idempotencyKey := DigestOf(e)] else l.idempotency,
       revision := l.revision + 1)
  }

  ghost function Buffer(l: Ledger, e: Event): Ledger {
    l.(pending := l.pending[e.id := e])
  }

  /** The ledger after `apply` has answered. */
  ghost function Record(l: Ledger, id: string, e: Event, reason: Reason, ok: bool): (r: Ledger)
    ensures r.pending == l.pending
  {
    if ok then Take(l, id, e) else Shelve(l, id, e, reason)
  }

  // ---------------------------------------------------------------- replay

  /** The loop's filter after `e` was applied: direct dependants, and the stream's next number. */
  predicate Selected(l: Ledger, e: Event, p: Event) {
    p.causationId == e.id ||
    (p.producerSeq.Some? && p.streamId == e.streamId && p.producerSeq.value <= Next64(LastOf(l, e.streamId)))
  }

  function Eligible(l: Ledger, e: Event): set<string> {
    set k | k in l.pending && Selected(l, e, l.pending[k])
  }

  predicate Blocked(s: State, p: Event) {
    AwaitsCause(s.ledger, p) || SequenceGap(s, p)
  }

  /** One buffered event leaves the buffer, applied or quarantined. */
  ghost function Promote(s: State, id: string): (t: State)
    requires id in s.ledger.pending
    ensures t.ledger.pending == s.ledger.pending - {id}
  {
    var p := s.ledger.pending[id];
    var v := Apply(s.facts, p);
    State(v.result, Record(s.ledger.(pending := s.ledger.pending - {id}), id, p, v.reason, v.ok))
  }

  /** The reason the whole delivery reports after promoting `id`. */
  ghost function ReasonAfter(s: State, id: string, reason: Reason): Reason
    requires id in s.ledger.pending
  {
    var v := Apply(s.facts, s.ledger.pending[id]);
    if v.ok && v.reason == ReasonAccepted then reason else v.reason
  }

  predicate Within(a: map<string, Event>, b: map<string, Event>) {
    forall k :: k in a ==> k in b && a[k] == b[k]
  }

  datatype Progress = Progress(state: State, reason: Reason, moved: bool)

  /** One pass over the selected ids; blocked ones are left where they are. */
  ghost function ReplayPass(s: State, ids: seq<string>, reason: Reason): (r: Progress)
    requires Distinct(ids) && forall id :: id in ids ==> id in s.ledger.pending
    ensures Within(r.state.ledger.pending, s.ledger.pending)
    ensures r.moved ==> |r.state.ledger.pending| < |s.ledger.pending|
    ensures !r.moved ==> r.state == s && r.reason == reason
    decreases |ids|
  {
    if ids == [] then Progress(s, reason, false)
    else if Blocked(s, s.ledger.pending[ids[0]]) then ReplayPass(s, ids[1..], reason)
    else
      var t := Promote(s, ids[0]);
      assert forall id :: id in ids[1..] ==> id != ids[0];
      var r := ReplayPass(t, ids[1..], ReasonAfter(s, ids[0], reason));
      assert |t.ledger.pending| == |s.ledger.pending| - 1 by {
        assert t.ledger.pending.Keys == s.ledger.pending.Keys - {ids[0]};
        assert |s.ledger.pending.Keys - {ids[0]}| == |s.ledger.pending.Keys| - 1;
      }
      assert !r.moved ==> r.state == t;
      r.(moved := true)
  }

  /** Passes in ascending id order until nothing is selected or nothing moves. */
  ghost function Replay(s: State, e: Event, reason: Reason): (r: Progress)
    ensures Within(r.state.ledger.pending, s.ledger.pending)
    decreases |s.ledger.pending|
  {
    var ids := Eligible(s.ledger, e);
    if ids == {} then Progress(s, reason, false)
    else
      var r := ReplayPass(s, Ascending(ids), reason);
      if !r.moved then r else Replay(r.state, e, r.reason)
  }

  // ---------------------------------------------------------------- reduce

  function Rejection(l: Ledger, e: Event, reason: Reason): Result {
    Result(Rejected, ActionBlocked, reason, l.revision, e.id)
  }

  function Waiting(l: Ledger, e: Event): Result {
    Result(Pending, ActionNone, ReasonCausalGap, l.revision, e.id)
  }

  /** The state once an admitted event has been applied and recorded, before any replay. */
  ghost function Settled(s: State, e: Event): State {
    var v := Apply(s.facts, e);
    State(v.result, Record(s.ledger, e.id, e, v.reason, v.ok))
  }

  /** An admitted event: applied and replayed after, or quarantined. */
  ghost function Perform(s: State, e: Event): (State, Result) {
    var v := Apply(s.facts, e);
    var t := Settled(s, e);
    if !v.ok then (t, Rejection(t.ledger, e, v.reason))
    else
      var r := Replay(t, e, v.reason);
      (r.state, Result(Accepted, ActionFor(e.eventType, v.reason), r.reason, r.state.ledger.revision, e.id))
  }

  ghost function Refused(s: State, e: Event, reason: Reason): (State, Result) {
    var l := Shelve(s.ledger, e.id, e, reason);
    (State(s.facts, l), Rejection(l, e, reason))
  }

  ghost function Reduce(s: State, raw: Event): (State, Result) {
    var e := Normalize(raw);
    match Admit(s, e)
    case Malformed => (s, Rejection(s.ledger, e, ReasonInvalidTransition))
    case WrongClass | OutOfOrder => Refused(s, e, ReasonInvalidTransition)
    case Conflicting => Refused(s, e, ReasonIdempotencyConflict)
    case Repeated => (s, Result(Duplicate, ActionNone, ReasonDuplicate, s.ledger.revision, e.id))
    case StillPending => (s, Waiting(s.ledger, e))
    case Early => (State(s.facts, Buffer(s.ledger, e)), Waiting(s.ledger, e))
    case Ready => Perform(s, e)
  }

  ghost function Next(s: State, e: Event): State {
    Reduce(s, e).0
  }

  /** The state after a whole history of deliveries. */
  ghost function Run(s: State, es: seq<Event>): State {
    if es == [] then s else Next(Run(s, es[..|es| - 1]), es[|es| - 1])
  }
}
