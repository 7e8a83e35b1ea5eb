/** What becomes of a delivery, said of the event and of what the ledger holds: who waits, who
    is set aside, who is taken in, and whom an accepted event releases. */
module Admission {
  import opened Names
  import opened Lifecycle
  import opened Reducer
  import Accounting
  import Deliveries

  /** The digest that counts for the event. */
  function PrintOf(e: Event): string {
    if e.digest == "" then e.contentHash else e.digest
  }

  /** Nothing with the event's id or key has been delivered. */
  predicate IsNew(l: Ledger, e: Event) {
    e.id !in l.receipts && e.id !in l.pending && (e.idempotencyKey == "" || e.idempotencyKey !in l.idempotency)
  }

  predicate MayBeSaid(e: Event) {
    e.id != "" && e.eventType != OtherType("") && Deliveries.Authorized(e)
  }

  /** It names a cause that has no receipt yet. */
  predicate LacksCause(l: Ledger, e: Event) {
    e.causationId != "" && e.causationId !in l.receipts
  }

  /** The numbers of its stream count, by its own word or the session's. */
  predicate Counted(s: State, e: Event) {
    e.producerSeq.Some? && (e.capabilities.monotonicSequence || s.facts.work.session.capabilities.monotonicSequence)
  }

  /** The greatest number of the stream so far. */
  function LastNumber(l: Ledger, stream: string): int {
    if stream in l.lastSequence then l.lastSequence[stream] else 0
  }

  /** The number after it, in 64 bits. */
  function Successor(n: int): int {
    if n == 0x7fff_ffff_ffff_ffff then -0x8000_0000_0000_0000 else n + 1
  }

  predicate Stale(s: State, e: Event) {
    var last := LastNumber(s.ledger, e.streamId);
    Counted(s, e) && last > 0 && e.producerSeq.value <= last
  }

  /** A number of its stream is missing before it; a stream starts at one. Where the successor
      wraps around, what is stale is not ahead. */
  predicate Ahead(s: State, e: Event) {
    var last := LastNumber(s.ledger, e.streamId);
    !Stale(s, e) && Counted(s, e) && ((last > 0 && e.producerSeq.value > Successor(last)) || (last == 0 && e.producerSeq.value > 1))
  }

  /** Into the quarantine, with a receipt; a new key is remembered. */
  function SetAside(l: Ledger, e: Event, reason: Reason): Ledger {
    Ledger(l.revision + 1, l.receipts[e.id := PrintOf(e)],
           if e.idempotencyKey == "" || e.idempotencyKey in l.idempotency then l.idempotency
           else l.idempotency[e.idempotencyKey := PrintOf(e)],
           l.pending, l.quarantine + [Quarantined(e, reason)], l.lastSequence)
  }

  /** A receipt, the key, and the number if it is the greatest. */
  function TakenIn(l: Ledger, e: Event): Ledger {
    Ledger(l.revision + 1, l.receipts[e.id := PrintOf(e)],
           if e.idempotencyKey == "" then l.idempotency else l.idempotency[e.idempotencyKey := PrintOf(e)],
           l.pending, l.quarantine,
           if e.producerSeq.Some? && e.producerSeq.value > LastNumber(l, e.streamId)
           then l.lastSequence[e.streamId := e.producerSeq.value] else l.lastSequence)
  }

  // ---------------------------------------------------------------- new events

  /** A new event that may be said waits exactly when its cause is missing, or a number of its
      stream; then it is buffered as it is and nothing else changes. */
  lemma WaitsExactly(s: State, raw: Event)
    requires MayBeSaid(Normalize(raw)) && IsNew(s.ledger, Normalize(raw))
    ensures var e := Normalize(raw);
            (Reduce(s, raw).1.disposition == Pending <==> LacksCause(s.ledger, e) || Ahead(s, e)) &&
            (LacksCause(s.ledger, e) || Ahead(s, e) ==>
               Reduce(s, raw) == (State(s.facts, s.ledger.(pending := s.ledger.pending[e.id := e])),
                                  Result(Pending, ActionNone, ReasonCausalGap, s.ledger.revision, e.id)))
  {
    hide Normalize, Apply, Replay, Settled, ActionFor;
    Deliveries.AuthorityExactly(s, Normalize(raw));
  }

  /** One with a number of the past is set aside, and the facts do not hear of it. */
  lemma StaleIsSetAside(s: State, raw: Event)
    requires MayBeSaid(Normalize(raw)) && IsNew(s.ledger, Normalize(raw))
    requires !LacksCause(s.ledger, Normalize(raw)) && Stale(s, Normalize(raw))
    ensures var e := Normalize(raw);
            Next(s, raw) == State(s.facts, SetAside(s.ledger, e, ReasonInvalidTransition)) &&
            Reduce(s, raw).1.disposition == Rejected && Reduce(s, raw).1.reason == ReasonInvalidTransition
  {
    hide Normalize, Apply, Perform;
    Deliveries.AuthorityExactly(s, Normalize(raw));
  }

  /** Any other is decided on the facts: refused it is set aside for the reason given; accepted,
      and with nobody waiting for it, it is taken in. */
  lemma RestIsDecided(s: State, raw: Event)
    requires MayBeSaid(Normalize(raw)) && IsNew(s.ledger, Normalize(raw))
    requires var e := Normalize(raw); !LacksCause(s.ledger, e) && !Stale(s, e) && !Ahead(s, e)
    ensures var e := Normalize(raw); var v := Apply(s.facts, e);
            Reduce(s, raw).1.disposition == (if v.ok then Accepted else Rejected) &&
            (!v.ok ==> Next(s, raw) == State(v.result, SetAside(s.ledger, e, v.reason)) && Reduce(s, raw).1.reason == v.reason) &&
            (v.ok && Deliveries.NobodyWaits(s.ledger, e) ==>
               Next(s, raw) == State(v.result, TakenIn(s.ledger, e)) && Reduce(s, raw).1.reason == v.reason)
  {
    hide Normalize, Apply, Reduce, Deliveries.NobodyWaits, Take, Shelve;
    IsAdmitted(s, Normalize(raw));
    Deliveries.AdmittedIsDecided(s, raw);
    Booked(s.ledger, Normalize(raw), Apply(s.facts, Normalize(raw)).reason);
  }

  lemma IsAdmitted(s: State, e: Event)
    requires MayBeSaid(e) && IsNew(s.ledger, e) && !LacksCause(s.ledger, e) && !Stale(s, e) && !Ahead(s, e)
    ensures Admit(s, e).Ready?
  {
    Deliveries.AuthorityExactly(s, e);
  }

  lemma Booked(l: Ledger, e: Event, reason: Reason)
    ensures Take(l, e.id, e) == TakenIn(l, e) && Shelve(l, e.id, e, reason) == SetAside(l, e, reason)
  {
  }

  // ---------------------------------------------------------------- events that are not new

  /** What the ledger remembers under the event's id or key: the receipt's digest, or else the
      key's, or else the buffered event's. */
  function Remembered(l: Ledger, e: Event): string
    requires !IsNew(l, e)
  {
    if e.id in l.receipts then l.receipts[e.id]
    else if e.idempotencyKey != "" && e.idempotencyKey in l.idempotency then l.idempotency[e.idempotencyKey]
    else PrintOf(l.pending[e.id])
  }

  /** With the digest that is remembered it is a repeat, and changes nothing: a duplicate, or
      still waiting if it is known from the buffer alone. With another it is set aside as a
      conflict, and the facts do not hear of it. */
  lemma RepeatsExactly(s: State, raw: Event)
    requires MayBeSaid(Normalize(raw)) && !IsNew(s.ledger, Normalize(raw))
    ensures var e := Normalize(raw); var l, r := s.ledger, Reduce(s, raw).1;
            if Remembered(l, e) == PrintOf(e)
            then Next(s, raw) == s &&
                 r.disposition == (if e.id in l.receipts || (e.idempotencyKey != "" && e.idempotencyKey in l.idempotency)
                                   then Duplicate else Pending)
            else Next(s, raw) == State(s.facts, SetAside(l, e, ReasonIdempotencyConflict)) &&
                 r.disposition == Rejected && r.reason == ReasonIdempotencyConflict
  {
    hide Normalize, Apply, Perform;
    Deliveries.AuthorityExactly(s, Normalize(raw));
  }

  /** What may not be said is set aside without a look at what is remembered; without an id or
      a type it leaves no trace at all. */
  lemma UnsaidExactly(s: State, raw: Event)
    requires !MayBeSaid(Normalize(raw))
    ensures var e := Normalize(raw);
            Reduce(s, raw).1.disposition == Rejected && Reduce(s, raw).1.reason == ReasonInvalidTransition &&
            Next(s, raw) == if e.id == "" || e.eventType == OtherType("") then s
                            else State(s.facts, SetAside(s.ledger, e, ReasonInvalidTransition))
  {
    hide Normalize, Apply, Perform;
    var e := Normalize(raw);
    if e.id != "" && e.eventType != OtherType("") {
      Deliveries.AuthorityExactly(s, e);
    }
  }

  // ---------------------------------------------------------------- who is released

  /** The accepted event is its cause, or it is of its stream and numbered no further than next. */
  predicate Called(l: Ledger, e: Event, p: Event) {
    p.causationId == e.id ||
    (p.producerSeq.Some? && p.streamId == e.streamId && p.producerSeq.value <= Successor(LastNumber(l, e.streamId)))
  }

  /** Its own cause is missing, or a number of its stream is. */
  predicate Held(s: State, p: Event) {
    var last := LastNumber(s.ledger, p.streamId);
    LacksCause(s.ledger, p) || (Counted(s, p) && last > 0 && p.producerSeq.value > Successor(last))
  }

  lemma CalledAndHeld(s: State, e: Event, p: Event)
    ensures Selected(s.ledger, e, p) <==> Called(s.ledger, e, p)
    ensures Blocked(s, p) <==> Held(s, p)
  {
  }

  /** After an accepted event whoever is left in the buffer was there before, and has not been
      called by it or is still held up. */
  lemma WhoStillWaits(s: State, raw: Event, id: string)
    requires Reduce(s, raw).1.disposition == Accepted && id in Next(s, raw).ledger.pending
    ensures var t := Next(s, raw);
            id in s.ledger.pending && t.ledger.pending[id] == s.ledger.pending[id] &&
            (!Called(t.ledger, Normalize(raw), t.ledger.pending[id]) || Held(t, t.ledger.pending[id]))
  {
    hide Normalize, Apply, Admit, Selected, Blocked, Replay, Called, Held, ActionFor, Shelve, Take;
    var e := Normalize(raw);
    var v := Apply(s.facts, e);
    var u := Settled(s, e);
    var t := Next(s, raw);
    assert t == Replay(u, e, v.reason).state;
    Accounting.ReplayLeavesOnlyBlocked(u, e, v.reason);
    CalledAndHeld(t, e, t.ledger.pending[id]);
  }

  /** The accepted event is its cause, or it is numbered in the same stream. */
  predicate Concerned(e: Event, p: Event) {
    p.causationId == e.id || (p.producerSeq.Some? && p.streamId == e.streamId)
  }

  /** Who left the buffer on the way has a receipt, was concerned, and has its cause settled. */
  predicate Released(l: Ledger, m: Ledger, e: Event) {
    && l.receipts.Keys <= m.receipts.Keys
    && (forall id :: id in m.pending ==> id in l.pending && m.pending[id] == l.pending[id])
    && (forall id :: id in l.pending && id !in m.pending ==>
          id in m.receipts && Concerned(e, l.pending[id]) && !LacksCause(m, l.pending[id]))
  }

  lemma ReleasedTwice(l: Ledger, m: Ledger, n: Ledger, e: Event)
    requires Released(l, m, e) && Released(m, n, e)
    ensures Released(l, n, e)
  {
    hide Concerned;
  }

  lemma PromoteReleases(s: State, id: string, e: Event)
    requires id in s.ledger.pending && Concerned(e, s.ledger.pending[id]) && !Blocked(s, s.ledger.pending[id])
    ensures Released(s.ledger, Promote(s, id).ledger, e)
  {
    hide Apply, Concerned, SequenceGap;
  }

  lemma {:induction false} PassReleases(s: State, ids: seq<string>, reason: Reason, e: Event)
    requires Distinct(ids) && forall id :: id in ids ==> id in s.ledger.pending && Concerned(e, s.ledger.pending[id])
    ensures Released(s.ledger, ReplayPass(s, ids, reason).state.ledger, e)
    decreases |ids|
  {
    hide Promote, ReasonAfter, Blocked, Concerned, Released;
    if ids == [] {
      NobodyReleased(s.ledger, e);
    } else {
      assert forall x :: x in ids[1..] ==> x in ids && x != ids[0];
      if Blocked(s, s.ledger.pending[ids[0]]) {
        PassReleases(s, ids[1..], reason, e);
      } else {
        var t := Promote(s, ids[0]);
        PromoteReleases(s, ids[0], e);
        PendingStays(s.ledger, t.ledger, e);
        PassReleases(t, ids[1..], ReasonAfter(s, ids[0], reason), e);
        ReleasedTwice(s.ledger, t.ledger, ReplayPass(t, ids[1..], ReasonAfter(s, ids[0], reason)).state.ledger, e);
      }
    }
  }

  lemma NobodyReleased(l: Ledger, e: Event)
    ensures Released(l, l, e)
  {
  }

  lemma PendingStays(l: Ledger, m: Ledger, e: Event)
    requires Released(l, m, e)
    ensures forall id :: id in m.pending ==> id in l.pending && m.pending[id] == l.pending[id]
  {
    hide Concerned, LacksCause;
  }

  lemma EligibleIsConcerned(l: Ledger, e: Event)
    ensures forall id :: id in Eligible(l, e) ==> id in l.pending && Concerned(e, l.pending[id])
  {
  }

  lemma {:induction false} ReplayReleases(s: State, e: Event, reason: Reason)
    ensures Released(s.ledger, Replay(s, e, reason).state.ledger, e)
    decreases |s.ledger.pending|
  {
    hide ReplayPass, Eligible, Released, Concerned;
    var ids := Eligible(s.ledger, e);
    EligibleIsConcerned(s.ledger, e);
    NobodyReleased(s.ledger, e);
    if ids != {} {
      var r := ReplayPass(s, Ascending(ids), reason);
      PassReleases(s, Ascending(ids), reason, e);
      if r.moved {
        ReplayReleases(r.state, e, r.reason);
        ReleasedTwice(s.ledger, r.state.ledger, Replay(r.state, e, r.reason).state.ledger, e);
      }
    }
  }

  /** And whoever has left it was concerned, has its cause settled, and is settled itself. */
  lemma WhoIsReleased(s: State, raw: Event, id: string)
    requires Reduce(s, raw).1.disposition == Accepted && id in s.ledger.pending && id !in Next(s, raw).ledger.pending
    ensures var t, p := Next(s, raw), s.ledger.pending[id];
            Concerned(Normalize(raw), p) && id in t.ledger.receipts && (p.causationId == "" || p.causationId in t.ledger.receipts)
  {
    hide Normalize, Apply, Admit, Replay, Concerned, ActionFor, Shelve, Take;
    var e := Normalize(raw);
    var v := Apply(s.facts, e);
    ReplayReleases(Settled(s, e), e, v.reason);
  }
}
