/** How one delivery past the gate changes the ledger: which ids settle, under which digest,
    and which of them end in quarantine. */
module Growth {
  import opened Names
  import opened Lifecycle
  import opened Reducer
  import opened History

  function QuarantinedIds(l: Ledger): set<string> {
    set i | 0 <= i < |l.quarantine| :: l.quarantine[i].event.id
  }

  /** Buffered events sit under their own ids and are not settled; quarantined ones are. */
  ghost predicate Orderly(l: Ledger) {
    && (forall k :: k in l.pending ==> l.pending[k].id == k && k !in l.receipts)
    && QuarantinedIds(l) <= l.receipts.Keys
  }

  ghost function Digests(x: map<string, Event>): map<string, string> {
    map id | id in x :: DigestOf(x[id])
  }

  predicate Carries(x: map<string, Event>, key: string) {
    exists id :: id in x && x[id].idempotencyKey == key
  }

  /** Every key known after was known before or came with a settled event. */
  predicate KeysGrow(before: map<string, string>, after: map<string, string>, x: map<string, Event>) {
    forall k :: k in after ==> k in before || Carries(x, k)
  }

  /** Ledger `m` is `l` with the events `x` settled, each under its id. */
  ghost predicate Grows(l: Ledger, m: Ledger, x: map<string, Event>) {
    && m.receipts == l.receipts + Digests(x)
    && QuarantinedIds(l) <= QuarantinedIds(m) <= QuarantinedIds(l) + x.Keys
    && KeysGrow(l.idempotency, m.idempotency, x)
    && m.revision == l.revision + |x|
  }

  lemma DigestsTwice(r: map<string, string>, x: map<string, Event>, y: map<string, Event>)
    ensures r + Digests(x) + Digests(y) == r + Digests(x + y)
  {
    hide DigestOf;
    assert Digests(x) + Digests(y) == Digests(x + y);
  }

  lemma KeysTwice(a: map<string, string>, b: map<string, string>, c: map<string, string>,
                  x: map<string, Event>, y: map<string, Event>)
    requires KeysGrow(a, b, x) && KeysGrow(b, c, y) && x.Keys !! y.Keys
    ensures KeysGrow(a, c, x + y)
  {
    forall k | k in c && k !in a ensures Carries(x + y, k) {
      var id :| (id in x && x[id].idempotencyKey == k) || (id in y && y[id].idempotencyKey == k);
      assert id in x + y && (x + y)[id].idempotencyKey == k;
    }
  }

  lemma SizeOfBoth(x: map<string, Event>, y: map<string, Event>)
    requires x.Keys !! y.Keys
    ensures |x + y| == |x| + |y| && (x + y).Keys == x.Keys + y.Keys
  {
    assert (x + y).Keys == x.Keys + y.Keys;
  }

  lemma GrowsTwice(l: Ledger, m: Ledger, n: Ledger, x: map<string, Event>, y: map<string, Event>)
    requires Grows(l, m, x) && Grows(m, n, y) && x.Keys !! y.Keys
    ensures Grows(l, n, x + y)
  {
    hide Digests, QuarantinedIds, KeysGrow;
    DigestsTwice(l.receipts, x, y);
    KeysTwice(l.idempotency, m.idempotency, n.idempotency, x, y);
    SizeOfBoth(x, y);
  }

  lemma QuarantinedSnoc(l: Ledger, m: Ledger, q: Quarantined)
    requires m.quarantine == l.quarantine + [q]
    ensures QuarantinedIds(m) == QuarantinedIds(l) + {q.event.id}
  {
    forall id | id in QuarantinedIds(l) ensures id in QuarantinedIds(m) {
      var i :| 0 <= i < |l.quarantine| && l.quarantine[i].event.id == id;
      assert m.quarantine[i].event.id == id;
    }
    assert m.quarantine[|l.quarantine|].event.id == q.event.id;
  }

  lemma OneDigest(r: map<string, string>, e: Event)
    ensures r[e.id := DigestOf(e)] == r + Digests(map[e.id := e])
  {
    hide DigestOf;
  }

  lemma OneKey(l: Ledger, e: Event, reason: Reason, ok: bool)
    ensures KeysGrow(l.idempotency, Record(l, e.id, e, reason, ok).idempotency, map[e.id := e])
  {
    hide DigestOf;
    var x := map[e.id := e];
    assert e.id in x && x[e.id].idempotencyKey == e.idempotencyKey;
    assert Carries(x, e.idempotencyKey);
  }

  /** Settling one new event. */
  lemma RecordGrows(l: Ledger, e: Event, reason: Reason, ok: bool)
    requires e.id !in l.receipts
    ensures Grows(l, Record(l, e.id, e, reason, ok), map[e.id := e])
    ensures QuarantinedIds(Record(l, e.id, e, reason, ok)) == QuarantinedIds(l) + if ok then {} else {e.id}
  {
    hide DigestOf, Digests, QuarantinedIds, KeysGrow;
    OneDigest(l.receipts, e);
    OneKey(l, e, reason, ok);
    assert |map[e.id := e]| == 1;
    if ok {
      SameQuarantine(l, Record(l, e.id, e, reason, ok));
    } else {
      QuarantinedSnoc(l, Record(l, e.id, e, reason, ok), Quarantined(e, reason));
    }
  }

  /** What a stretch of replay settled: the part of the buffer that is gone. */
  function Gone(l: Ledger, m: Ledger): map<string, Event> {
    l.pending - m.pending.Keys
  }

  ghost predicate Replayed(l: Ledger, m: Ledger) {
    Grows(l, m, Gone(l, m)) && Within(m.pending, l.pending) && Orderly(m)
  }

  /** Everything settled is settled for good, so an orderly ledger stays orderly. */
  lemma OrderlyAfter(l: Ledger, m: Ledger, x: map<string, Event>)
    requires Orderly(l) && Grows(l, m, x) && Within(m.pending, l.pending) && m.pending.Keys !! x.Keys
    ensures Orderly(m)
  {
    hide QuarantinedIds, KeysGrow, DigestOf;
  }

  lemma DropGrows(l: Ledger, id: string, n: Ledger, x: map<string, Event>)
    requires Grows(l.(pending := l.pending - {id}), n, x)
    ensures Grows(l, n, x)
  {
    hide Digests, KeysGrow;
  }

  lemma PromoteReplayed(s: State, id: string)
    requires Orderly(s.ledger) && id in s.ledger.pending
    ensures Replayed(s.ledger, Promote(s, id).ledger)
  {
    hide Apply, Record, Grows, QuarantinedIds;
    var l, p, v := s.ledger, s.ledger.pending[id], Apply(s.facts, s.ledger.pending[id]);
    var n := Promote(s, id).ledger;
    RecordGrows(l.(pending := l.pending - {id}), p, v.reason, v.ok);
    DropGrows(l, id, n, map[id := p]);
    assert Gone(l, n) == map[id := p];
    OrderlyAfter(l, n, map[id := p]);
  }

  lemma SameQuarantine(l: Ledger, m: Ledger)
    requires l.quarantine == m.quarantine
    ensures QuarantinedIds(l) == QuarantinedIds(m)
  {
  }

  lemma ReplayedTwice(l: Ledger, m: Ledger, n: Ledger)
    requires Replayed(l, m) && Replayed(m, n)
    ensures Replayed(l, n)
  {
    hide Grows, Orderly;
    GrowsTwice(l, m, n, Gone(l, m), Gone(m, n));
    assert Gone(l, m) + Gone(m, n) == Gone(l, n);
  }

  lemma NothingReplayed(l: Ledger)
    requires Orderly(l)
    ensures Replayed(l, l)
  {
    hide QuarantinedIds;
    assert Gone(l, l) == map[];
  }

  lemma {:induction false} PassReplayed(s: State, ids: seq<string>, reason: Reason)
    requires Orderly(s.ledger) && Distinct(ids) && forall id :: id in ids ==> id in s.ledger.pending
    ensures Replayed(s.ledger, ReplayPass(s, ids, reason).state.ledger)
    decreases |ids|
  {
    hide Promote, ReasonAfter, Blocked, Grows, Orderly;
    if ids == [] {
      NothingReplayed(s.ledger);
    } else {
      assert forall x :: x in ids[1..] ==> x in ids && x != ids[0];
      if Blocked(s, s.ledger.pending[ids[0]]) {
        PassReplayed(s, ids[1..], reason);
      } else {
        var t := Promote(s, ids[0]);
        var r := ReplayPass(t, ids[1..], ReasonAfter(s, ids[0], reason));
        PromoteReplayed(s, ids[0]);
        PassReplayed(t, ids[1..], ReasonAfter(s, ids[0], reason));
        ReplayedTwice(s.ledger, t.ledger, r.state.ledger);
      }
    }
  }

  lemma {:induction false} ReplayReplayed(s: State, e: Event, reason: Reason)
    requires Orderly(s.ledger)
    ensures Replayed(s.ledger, Replay(s, e, reason).state.ledger)
    decreases |s.ledger.pending|
  {
    hide ReplayPass, Grows, Orderly, Selected;
    var ids := Eligible(s.ledger, e);
    if ids == {} {
      NothingReplayed(s.ledger);
    } else {
      var r := ReplayPass(s, Ascending(ids), reason);
      PassReplayed(s, Ascending(ids), reason);
      if r.moved {
        ReplayReplayed(r.state, e, r.reason);
        ReplayedTwice(s.ledger, r.state.ledger, Replay(r.state, e, r.reason).state.ledger);
      }
    }
  }

  /** The event's id and key have not been seen. */
  ghost predicate Fresh(l: Ledger, e: Event) {
    && e.id != "" && e.eventType != OtherType("")
    && e.id !in l.receipts && e.id !in l.pending
    && (e.idempotencyKey != "" ==> e.idempotencyKey !in l.idempotency)
  }

  /** The event and the part of the buffer that went with it. */
  function SettledBy(l: Ledger, m: Ledger, e: Event): map<string, Event> {
    map[e.id := e] + Gone(l, m)
  }

  /** What a fresh delivery does: it waits in the buffer and nothing else changes, or it
      settles together with buffered events, quarantined exactly when rejected. */
  ghost predicate Outcome(l: Ledger, m: Ledger, e: Event, d: Disposition) {
    && Orderly(m)
    && (d == Accepted || d == Pending || d == Rejected)
    && (d == Pending ==> m == Buffer(l, e))
    && (d != Pending ==> Grows(l, m, SettledBy(l, m, e)) && Within(m.pending, l.pending) &&
                         (d == Rejected <==> e.id in QuarantinedIds(m)))
  }

  /** Settling the delivered event itself. */
  lemma SettleOutcome(l: Ledger, e: Event, reason: Reason, ok: bool)
    requires Orderly(l) && Fresh(l, e)
    ensures Outcome(l, Record(l, e.id, e, reason, ok), e, if ok then Accepted else Rejected)
  {
    hide Record, QuarantinedIds, Grows;
    var m := Record(l, e.id, e, reason, ok);
    RecordGrows(l, e, reason, ok);
    assert Gone(l, m) == map[];
    assert SettledBy(l, m, e) == map[e.id := e];
    OrderlyAfter(l, m, map[e.id := e]);
    assert e.id !in QuarantinedIds(l);
  }

  /** Replay after the delivered event was applied. */
  lemma ReplayOutcome(l: Ledger, m: Ledger, n: Ledger, e: Event)
    requires Outcome(l, m, e, Accepted) && m.pending == l.pending && e.id !in l.pending && Replayed(m, n)
    ensures Outcome(l, n, e, Accepted)
  {
    hide Orderly, QuarantinedIds, Grows;
    assert Gone(l, m) == map[] && SettledBy(l, m, e) == map[e.id := e];
    assert Gone(l, n) == Gone(m, n);
    GrowsTwice(l, m, n, map[e.id := e], Gone(m, n));
    NotQuarantined(m, n, Gone(m, n), e.id);
  }

  lemma NotQuarantined(l: Ledger, m: Ledger, x: map<string, Event>, id: string)
    requires Grows(l, m, x) && id !in x && id !in QuarantinedIds(l)
    ensures id !in QuarantinedIds(m)
  {
  }

  lemma PerformOutcome(s: State, e: Event)
    requires Orderly(s.ledger) && Fresh(s.ledger, e)
    ensures Outcome(s.ledger, Perform(s, e).0.ledger, e, Perform(s, e).1.disposition)
  {
    hide Apply, Record, Replay, Outcome, Replayed, Orderly;
    var v := Apply(s.facts, e);
    SettleOutcome(s.ledger, e, v.reason, v.ok);
    if v.ok {
      var t := Settled(s, e);
      OutcomeOrderly(s.ledger, t.ledger, e, Accepted);
      ReplayReplayed(t, e, v.reason);
      ReplayOutcome(s.ledger, t.ledger, Replay(t, e, v.reason).state.ledger, e);
    }
  }

  lemma OutcomeOrderly(l: Ledger, m: Ledger, e: Event, d: Disposition)
    requires Outcome(l, m, e, d)
    ensures Orderly(m)
  {
  }

  lemma BufferOutcome(l: Ledger, e: Event)
    requires Orderly(l) && Fresh(l, e)
    ensures Outcome(l, Buffer(l, e), e, Pending)
  {
    SameQuarantine(l, Buffer(l, e));
  }

  lemma RefuseOutcome(l: Ledger, e: Event, reason: Reason)
    requires Orderly(l) && Fresh(l, e)
    ensures Outcome(l, Shelve(l, e.id, e, reason), e, Rejected)
  {
    hide Outcome, Shelve;
    SettleOutcome(l, e, reason, false);
  }

  /** A delivery with a fresh id and key is never a duplicate or a conflict to the reducer. */
  lemma DeliveryOutcome(s: State, raw: Event)
    requires Orderly(s.ledger) && Fresh(s.ledger, Normalize(raw))
    ensures Outcome(s.ledger, Next(s, raw).ledger, Normalize(raw), Reduce(s, raw).1.disposition)
    ensures Reduce(s, raw).1.revision == Next(s, raw).ledger.revision
  {
    hide Apply, Normalize, ClassAllows, Replay, DigestOf, Orderly, Outcome, DeliveryGap, AlreadyPassed, Shelve;
    var e := Normalize(raw);
    match Admit(s, e)
    case WrongClass | OutOfOrder => RefuseOutcome(s.ledger, e, ReasonInvalidTransition);
    case Early => BufferOutcome(s.ledger, e);
    case Ready => PerformOutcome(s, e);
    case _ => assert false;
  }

  lemma LeftInBuffer(l: Ledger, m: Ledger)
    requires Within(m.pending, l.pending)
    ensures m.pending.Keys == l.pending.Keys - Gone(l, m).Keys
  {
  }

  lemma GrownReceipts(l: Ledger, m: Ledger, x: map<string, Event>)
    requires Grows(l, m, x)
    ensures m.receipts.Keys == l.receipts.Keys + x.Keys && m.revision >= l.revision
  {
    hide QuarantinedIds, KeysGrow, DigestOf;
  }

  lemma SettledIds(l: Ledger, m: Ledger, e: Event, d: Disposition)
    requires Outcome(l, m, e, d) && d != Pending
    ensures m.receipts.Keys == l.receipts.Keys + {e.id} + Gone(l, m).Keys
    ensures m.pending.Keys == l.pending.Keys - Gone(l, m).Keys
    ensures m.revision >= l.revision
  {
    hide Orderly, QuarantinedIds, Grows, Within, Gone;
    LeftInBuffer(l, m);
    GrownReceipts(l, m, SettledBy(l, m, e));
    assert SettledBy(l, m, e).Keys == {e.id} + Gone(l, m).Keys;
  }

  /** A buffered event has settled exactly when it is gone from the buffer. */
  lemma GoneIsSettled(l: Ledger, m: Ledger, e: Event, d: Disposition)
    requires Orderly(l) && e.id !in l.pending && Outcome(l, m, e, d)
    ensures forall id :: id in l.pending ==> (id in m.receipts <==> id in Gone(l, m))
    ensures d == Pending ==> Gone(l, m) == map[]
  {
    hide Outcome, Grows, QuarantinedIds;
    if d == Pending {
      OnlyBuffered(l, m, e);
      assert Gone(l, m) == map[];
    } else {
      SettledIds(l, m, e, d);
    }
  }

  lemma OnlyBuffered(l: Ledger, m: Ledger, e: Event)
    requires Outcome(l, m, e, Pending)
    ensures m == Buffer(l, e)
  {
    hide Orderly, Grows;
  }

  // ---------------------------------------------------------------- the repository never changes

  lemma ApplyKeepsRepository(f: Facts, e: Event)
    ensures Apply(f, e).result.repositoryId == f.repositoryId
  {
  }

  lemma {:induction false} RunKeepsRepository(f: Facts, es: seq<Event>)
    ensures RunFacts(f, es).repositoryId == f.repositoryId
  {
    hide Apply;
    if es != [] {
      var n := |es| - 1;
      RunKeepsRepository(f, es[..n]);
      ApplyKeepsRepository(RunFacts(f, es[..n]), es[n]);
    }
  }

  lemma DeliveryKeepsRepository(s: State, raw: Event)
    ensures Next(s, raw).facts.repositoryId == s.facts.repositoryId
  {
    hide Reduce, RunFacts, DeliveryLog;
    DeliveryFacts(s, raw);
    RunKeepsRepository(s.facts, DeliveryLog(s, raw));
  }
}
