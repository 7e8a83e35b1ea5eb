/** What the reducer keeps of every delivery, when a gate lets each event id and key through
    once: nothing is lost, nothing is counted twice, and no event goes before its cause. */
module Accounting {
  import opened Names
  import opened Lifecycle
  import opened Reducer
  import opened History

  /** One event leaving the reducer for good: applied, or quarantined. */
  datatype Entry = Entry(event: Event, applied: bool)

  function Refusals(j: seq<Entry>): seq<Event> {
    if j == [] then []
    else
      var n := |j| - 1;
      if j[n].applied then Refusals(j[..n]) else Refusals(j[..n]) + [j[n].event]
  }

  function EventsOf(qs: seq<Quarantined>): seq<Event> {
    seq(|qs|, i requires 0 <= i < |qs| => qs[i].event)
  }

  predicate CauseBefore(j: seq<Entry>, a: nat)
    requires a < |j|
  {
    j[a].applied && j[a].event.causationId != "" ==>
      exists b :: 0 <= b < a && j[b].event.id == j[a].event.causationId
  }

  function JournalIds(j: seq<Entry>): seq<string> {
    seq(|j|, a requires 0 <= a < |j| => j[a].event.id)
  }

  ghost predicate EntryReceipted(x: Entry, receipts: map<string, string>) {
    x.event.id in receipts && receipts[x.event.id] == DigestOf(x.event)
  }

  predicate SettledId(j: seq<Entry>, id: string) {
    exists a :: 0 <= a < |j| && j[a].event.id == id
  }

  /** The receipts are the journal's: one entry an id, with its event's digest. */
  ghost predicate Receipted(j: seq<Entry>, l: Ledger) {
    && Distinct(JournalIds(j))
    && (forall a :: 0 <= a < |j| ==> EntryReceipted(j[a], l.receipts))
    && (forall k :: k in l.receipts ==> SettledId(j, k))
    && l.revision == |j| == |l.receipts|
  }

  /** The ledger is exactly what the journal of settled events says, in order. */
  ghost predicate Explains(j: seq<Entry>, l: Ledger) {
    && Receipted(j, l)
    && EventsOf(l.quarantine) == Refusals(j)
    && (forall a :: 0 <= a < |j| ==> CauseBefore(j, a))
    && (forall k :: k in l.idempotency ==> exists a :: 0 <= a < |j| && j[a].event.idempotencyKey == k)
    && (forall k :: k in l.pending ==> l.pending[k].id == k && k !in l.receipts)
  }

  lemma ReceiptedSnoc(j: seq<Entry>, l: Ledger, m: Ledger, e: Event, applied: bool)
    requires Receipted(j, l) && e.id !in l.receipts
    requires m.receipts == l.receipts[e.id := DigestOf(e)] && m.revision == l.revision + 1
    ensures Receipted(j + [Entry(e, applied)], m)
  {
    hide DigestOf, EntryReceipted, SettledId, Distinct;
    var x := Entry(e, applied);
    var k := j + [x];
    IdIsFresh(j, l, x);
    forall a | 0 <= a < |k| ensures EntryReceipted(k[a], m.receipts) {
      EntryStays(j, l, m, x, a);
    }
    forall id | id in m.receipts ensures SettledId(k, id) {
      SettledIdGrows(j, x, id);
    }
    OneMore(l.receipts, e.id, DigestOf(e));
  }

  lemma OneMore(m: map<string, string>, k: string, v: string)
    requires k !in m
    ensures |m[k := v]| == |m| + 1
  {
    assert m[k := v].Keys == m.Keys + {k};
  }

  lemma IdIsFresh(j: seq<Entry>, l: Ledger, x: Entry)
    requires Receipted(j, l) && x.event.id !in l.receipts
    ensures Distinct(JournalIds(j + [x]))
  {
    hide DigestOf, SettledId;
    assert JournalIds(j + [x]) == JournalIds(j) + [x.event.id];
    forall a | 0 <= a < |j| ensures JournalIds(j)[a] != x.event.id {
      assert EntryReceipted(j[a], l.receipts);
    }
  }

  lemma EntryStays(j: seq<Entry>, l: Ledger, m: Ledger, x: Entry, a: nat)
    requires Receipted(j, l) && x.event.id !in l.receipts && a <= |j|
    requires m.receipts == l.receipts[x.event.id := DigestOf(x.event)]
    ensures EntryReceipted((j + [x])[a], m.receipts)
  {
    hide DigestOf, SettledId, Distinct;
    if a < |j| {
      assert EntryReceipted(j[a], l.receipts);
    }
  }

  lemma SettledIdGrows(j: seq<Entry>, x: Entry, id: string)
    requires SettledId(j, id) || id == x.event.id
    ensures SettledId(j + [x], id)
  {
    if SettledId(j, id) {
      var a :| 0 <= a < |j| && j[a].event.id == id;
      assert (j + [x])[a].event.id == id;
    } else {
      assert (j + [x])[|j|].event.id == id;
    }
  }

  /** An event settles: the journal grows by it. */
  lemma RecordExplained(j: seq<Entry>, l: Ledger, e: Event, reason: Reason, ok: bool)
    requires Explains(j, l) && e.id !in l.receipts && e.id !in l.pending
    requires ok ==> e.causationId == "" || e.causationId in l.receipts
    ensures Explains(j + [Entry(e, ok)], Record(l, e.id, e, reason, ok))
  {
    hide DigestOf, Receipted;
    var m, k := Record(l, e.id, e, reason, ok), j + [Entry(e, ok)];
    ReceiptedSnoc(j, l, m, e, ok);
    assert k[..|j|] == j;
    QuarantineSnoc(l.quarantine, Quarantined(e, reason));
    CausesSnoc(j, l, e, ok);
    forall x | x in m.idempotency ensures exists a :: 0 <= a < |k| && k[a].event.idempotencyKey == x {
      if x in l.idempotency {
        var a :| 0 <= a < |j| && j[a].event.idempotencyKey == x;
        assert k[a].event.idempotencyKey == x;
      } else {
        assert k[|j|].event.idempotencyKey == x;
      }
    }
  }

  lemma QuarantineSnoc(qs: seq<Quarantined>, q: Quarantined)
    ensures EventsOf(qs + [q]) == EventsOf(qs) + [q.event]
  {
  }

  lemma CausesSnoc(j: seq<Entry>, l: Ledger, e: Event, ok: bool)
    requires Explains(j, l)
    requires ok ==> e.causationId == "" || e.causationId in l.receipts
    ensures forall a :: 0 <= a <= |j| ==> CauseBefore(j + [Entry(e, ok)], a)
  {
    var k := j + [Entry(e, ok)];
    forall a | 0 <= a <= |j| ensures CauseBefore(k, a) {
      if a < |j| {
        assert CauseBefore(j, a);
        if k[a].applied && k[a].event.causationId != "" {
          var b :| 0 <= b < a && j[b].event.id == j[a].event.causationId;
          assert k[b].event.id == k[a].event.causationId;
        }
      } else if ok && e.causationId != "" {
        var b :| 0 <= b < |j| && j[b].event.id == e.causationId;
        assert k[b].event.id == k[a].event.causationId;
      }
    }
  }

  // ---------------------------------------------------------------- replay

  lemma WaitingIsUnsettled(j: seq<Entry>, l: Ledger, id: string)
    requires Explains(j, l) && id in l.pending
    ensures l.pending[id].id == id && id !in l.receipts
  {
  }

  lemma PromoteExplained(s: State, id: string, j: seq<Entry>) returns (k: seq<Entry>)
    requires Explains(j, s.ledger) && id in s.ledger.pending && !Blocked(s, s.ledger.pending[id])
    ensures Explains(k, Promote(s, id).ledger) && Known(Promote(s, id).ledger) == Known(s.ledger)
    ensures j <= k && forall i :: |j| <= i < |k| ==> k[i].event in s.ledger.pending.Values
  {
    hide Apply, SequenceGap, Explains, Record;
    WaitingIsUnsettled(j, s.ledger, id);
    var p := s.ledger.pending[id];
    var l := s.ledger.(pending := s.ledger.pending - {id});
    var v := Apply(s.facts, p);
    DropExplained(j, s.ledger, id);
    RecordExplained(j, l, p, v.reason, v.ok);
    k := j + [Entry(p, v.ok)];
    RecordKeys(l, id, p, v.reason, v.ok);
  }

  lemma RecordKeys(l: Ledger, id: string, e: Event, reason: Reason, ok: bool)
    ensures Record(l, id, e, reason, ok).receipts.Keys == l.receipts.Keys + {id}
  {
  }

  lemma DropExplained(j: seq<Entry>, l: Ledger, id: string)
    requires Explains(j, l)
    ensures Explains(j, l.(pending := l.pending - {id}))
  {
  }

  lemma {:induction false} PassExplained(s: State, ids: seq<string>, reason: Reason, j: seq<Entry>) returns (k: seq<Entry>)
    requires Explains(j, s.ledger) && Distinct(ids) && forall id :: id in ids ==> id in s.ledger.pending
    ensures var t := ReplayPass(s, ids, reason).state;
            Explains(k, t.ledger) && Known(t.ledger) == Known(s.ledger)
    ensures j <= k && forall i :: |j| <= i < |k| ==> k[i].event in s.ledger.pending.Values
    decreases |ids|
  {
    hide Promote, ReasonAfter, Blocked, Explains, Known;
    k := j;
    if ids != [] {
      assert forall x :: x in ids[1..] ==> x in ids && x != ids[0];
      if Blocked(s, s.ledger.pending[ids[0]]) {
        k := PassExplained(s, ids[1..], reason, j);
      } else {
        var t := Promote(s, ids[0]);
        var h := PromoteExplained(s, ids[0], j);
        k := PassExplained(t, ids[1..], ReasonAfter(s, ids[0], reason), h);
        assert forall x :: x in t.ledger.pending.Values ==> x in s.ledger.pending.Values;
      }
    }
  }

  lemma {:induction false} ReplayExplained(s: State, e: Event, reason: Reason, j: seq<Entry>) returns (k: seq<Entry>)
    requires Explains(j, s.ledger)
    ensures var t := Replay(s, e, reason).state;
            Explains(k, t.ledger) && Known(t.ledger) == Known(s.ledger)
    ensures j <= k && forall i :: |j| <= i < |k| ==> k[i].event in s.ledger.pending.Values
    decreases |s.ledger.pending|
  {
    hide ReplayPass, Explains, Known, Selected;
    k := j;
    var ids := Eligible(s.ledger, e);
    if ids != {} {
      var xs := Ascending(ids);
      k := PassExplained(s, xs, reason, j);
      var r := ReplayPass(s, xs, reason);
      if r.moved {
        var h := k;
        k := ReplayExplained(r.state, e, r.reason, h);
        assert forall x :: x in r.state.ledger.pending.Values ==> x in s.ledger.pending.Values;
      }
    }
  }

  // ---------------------------------------------------------------- when replay stops

  lemma {:induction false} StuckPassIsBlocked(s: State, ids: seq<string>, reason: Reason)
    requires Distinct(ids) && forall id :: id in ids ==> id in s.ledger.pending
    requires !ReplayPass(s, ids, reason).moved
    ensures forall id :: id in ids ==> Blocked(s, s.ledger.pending[id])
    decreases |ids|
  {
    hide Promote, ReasonAfter, Blocked;
    if ids != [] {
      assert forall x :: x in ids[1..] ==> x in ids && x != ids[0];
      assert Blocked(s, s.ledger.pending[ids[0]]);
      StuckPassIsBlocked(s, ids[1..], reason);
      forall id | id in ids ensures Blocked(s, s.ledger.pending[id]) {
        assert id == ids[0] || id in ids[1..];
      }
    }
  }

  predicate AllBlocked(s: State, e: Event) {
    forall id :: id in Eligible(s.ledger, e) ==> Blocked(s, s.ledger.pending[id])
  }

  lemma EligibleBuffered(l: Ledger, e: Event)
    ensures Eligible(l, e) <= l.pending.Keys
  {
  }

  /** When the loop ends, every buffered event its filter selects still waits for a cause or
      for a number of its stream. */
  lemma {:induction false} ReplayLeavesOnlyBlocked(s: State, e: Event, reason: Reason)
    ensures AllBlocked(Replay(s, e, reason).state, e)
    decreases |s.ledger.pending|
  {
    hide ReplayPass, Blocked, Eligible;
    var ids := Eligible(s.ledger, e);
    EligibleBuffered(s.ledger, e);
    if ids != {} {
      var xs := Ascending(ids);
      var r := ReplayPass(s, xs, reason);
      if r.moved {
        ReplayLeavesOnlyBlocked(r.state, e, r.reason);
      } else {
        StuckPassIsBlocked(s, xs, reason);
      }
    }
  }

  // ---------------------------------------------------------------- deliveries

  /** What the durable gate lets through: named, typed events, no id and no key twice. */
  ghost predicate Gated(es: seq<Event>) {
    && (forall i :: 0 <= i < |es| ==> Normalize(es[i]).id != "" && Normalize(es[i]).eventType != OtherType(""))
    && (forall i, j :: 0 <= i < j < |es| ==>
          Normalize(es[i]).id != Normalize(es[j]).id &&
          (es[j].idempotencyKey != "" ==> es[i].idempotencyKey != es[j].idempotencyKey))
  }

  function IdsOf(es: seq<Event>): set<string> {
    set i | 0 <= i < |es| :: Normalize(es[i]).id
  }

  /** Every settled event was delivered. */
  ghost predicate JournalAmong(j: seq<Entry>, es: seq<Event>) {
    forall a :: 0 <= a < |j| ==> Among(j[a].event, es)
  }

  /** A delivery whose id and key are new is applied, quarantined or buffered. */
  lemma DeliveryExplained(s: State, raw: Event, j: seq<Entry>) returns (k: seq<Entry>)
    requires var e := Normalize(raw);
             e.id != "" && e.eventType != OtherType("") && e.id !in Known(s.ledger) &&
             (e.idempotencyKey != "" ==> e.idempotencyKey !in s.ledger.idempotency)
    requires Explains(j, s.ledger)
    ensures Explains(k, Next(s, raw).ledger)
    ensures Known(Next(s, raw).ledger) == Known(s.ledger) + {Normalize(raw).id}
    ensures j <= k && forall i :: |j| <= i < |k| ==>
              k[i].event == Normalize(raw) || k[i].event in s.ledger.pending.Values
  {
    hide Apply, Normalize, ClassAllows, Replay, DigestOf, Receipted, Explains, DeliveryGap, AlreadyPassed;
    var e := Normalize(raw);
    var a := Admit(s, e);
    k := j + [Entry(e, false)];
    match a
    case WrongClass | OutOfOrder => RecordExplained(j, s.ledger, e, ReasonInvalidTransition, false);
    case Early =>
      BufferExplained(j, s.ledger, e);
      k := j;
    case Ready => k := PerformExplained(s, e, j);
    case _ => assert false;
  }

  lemma BufferExplained(j: seq<Entry>, l: Ledger, e: Event)
    requires Explains(j, l) && e.id !in l.receipts
    ensures Explains(j, Buffer(l, e)) && Known(Buffer(l, e)) == Known(l) + {e.id}
  {
    hide Receipted;
    assert Receipted(j, Buffer(l, e)) by { ReceiptedSame(j, l, Buffer(l, e)); }
  }

  lemma ReceiptedSame(j: seq<Entry>, l: Ledger, m: Ledger)
    requires Receipted(j, l) && l.receipts == m.receipts && l.revision == m.revision
    ensures Receipted(j, m)
  {
    hide DigestOf;
  }

  lemma PerformExplained(s: State, e: Event, j: seq<Entry>) returns (k: seq<Entry>)
    requires Explains(j, s.ledger) && e.id !in Known(s.ledger) && !AwaitsCause(s.ledger, e)
    ensures Explains(k, Perform(s, e).0.ledger)
    ensures Known(Perform(s, e).0.ledger) == Known(s.ledger) + {e.id}
    ensures j <= k && forall i :: |j| <= i < |k| ==> k[i].event == e || k[i].event in s.ledger.pending.Values
  {
    hide Apply, Replay, DigestOf, Receipted, Explains;
    var v := Apply(s.facts, e);
    RecordExplained(j, s.ledger, e, v.reason, v.ok);
    k := j + [Entry(e, v.ok)];
    assert Known(Settled(s, e).ledger) == Known(s.ledger) + {e.id};
    if v.ok {
      k := ReplayExplained(Settled(s, e), e, v.reason, k);
    }
  }

  lemma GatedPrefix(es: seq<Event>)
    requires es != [] && Gated(es)
    ensures Gated(es[..|es| - 1])
    ensures Normalize(es[|es| - 1]).id !in IdsOf(es[..|es| - 1])
    ensures IdsOf(es) == IdsOf(es[..|es| - 1]) + {Normalize(es[|es| - 1]).id}
  {
    hide Normalize;
    var n := |es| - 1;
    assert forall i :: 0 <= i < n ==> es[..n][i] == es[i];
    forall x | x in IdsOf(es) ensures x in IdsOf(es[..n]) + {Normalize(es[n]).id} {
      var i :| 0 <= i < |es| && x == Normalize(es[i]).id;
      if i < n {
        assert es[..n][i] == es[i];
      }
    }
  }

  lemma KeyIsNew(es: seq<Event>, l: Ledger, j: seq<Entry>)
    requires es != [] && Gated(es) && Explains(j, l) && JournalAmong(j, es[..|es| - 1])
    ensures es[|es| - 1].idempotencyKey != "" ==> es[|es| - 1].idempotencyKey !in l.idempotency
  {
    hide Receipted, CauseBefore, Normalize;
    var n, key := |es| - 1, es[|es| - 1].idempotencyKey;
    if key != "" {
      forall a | 0 <= a < |j| ensures j[a].event.idempotencyKey != key {
        assert Among(j[a].event, es[..n]);
        var i :| 0 <= i < n && j[a].event == Normalize(es[..n][i]);
        assert es[..n][i] == es[i];
        KeyKept(es[i]);
      }
    }
  }

  lemma KeyKept(e: Event)
    ensures Normalize(e).idempotencyKey == e.idempotencyKey
  {
  }

  /** Behind the gate every delivered id is in exactly one of receipts and buffer, and a journal
      accounts for the whole ledger: one receipt and one revision a settled event, the refused
      ones quarantined in order, every applied event after its cause. */
  lemma {:induction false} EveryDeliveryIsAccounted(r: string, es: seq<Event>) returns (j: seq<Entry>)
    requires Gated(es)
    ensures Explains(j, Run(NewState(r), es).ledger) && JournalAmong(j, es)
    ensures Known(Run(NewState(r), es).ledger) == IdsOf(es)
  {
    hide Reduce, Normalize, Receipted, Gated, Known, IdsOf;
    j := [];
    if es == [] {
      FreshExplained(r);
    } else {
      var n := |es| - 1;
      GatedPrefix(es);
      var h := EveryDeliveryIsAccounted(r, es[..n]);
      var s := Run(NewState(r), es[..n]);
      KeyIsNew(es, s.ledger, h);
      Presentable(es, n);
      j := DeliveryExplained(s, es[n], h);
      LogAmong(r, es[..n]);
      JournalGrows(h, j, s.ledger.pending, es);
    }
  }

  lemma FreshExplained(r: string)
    ensures Explains([], NewState(r).ledger) && Known(NewState(r).ledger) == IdsOf([])
  {
  }

  lemma Presentable(es: seq<Event>, i: nat)
    requires Gated(es) && i < |es|
    ensures var e := Normalize(es[i]); e.id != "" && e.eventType != OtherType("") && e.idempotencyKey == es[i].idempotencyKey
  {
  }

  lemma JournalGrows(h: seq<Entry>, j: seq<Entry>, pending: map<string, Event>, es: seq<Event>)
    requires es != [] && JournalAmong(h, es[..|es| - 1]) && BufferAmong(pending, es[..|es| - 1]) && h <= j
    requires forall i :: |h| <= i < |j| ==> j[i].event == Normalize(es[|es| - 1]) || j[i].event in pending.Values
    ensures JournalAmong(j, es)
  {
    hide Normalize;
    var n := |es| - 1;
    assert es == es[..n] + [es[n]];
    forall a | 0 <= a < |j| ensures Among(j[a].event, es) {
      if a < |h| {
        AmongGrows(h[a].event, es[..n], es[n]);
      } else if j[a].event in pending.Values {
        var k :| k in pending && pending[k] == j[a].event;
        AmongGrows(pending[k], es[..n], es[n]);
      }
    }
  }

  // ---------------------------------------------------------------- without the gate

  /** One receipt a revision. */
  predicate Balanced(l: Ledger) {
    l.revision == |l.receipts|
  }

  /** Balanced, and the buffer holds unsettled events under their ids. */
  predicate InStep(l: Ledger) {
    Balanced(l) && forall k :: k in l.pending ==> l.pending[k].id == k && k !in l.receipts
  }

  lemma RecordInStep(l: Ledger, id: string, e: Event, reason: Reason, ok: bool)
    requires InStep(l) && id !in l.receipts && id !in l.pending
    ensures InStep(Record(l, id, e, reason, ok))
  {
    hide DigestOf;
    OneMore(l.receipts, id, DigestOf(e));
  }

  lemma PromoteInStep(s: State, id: string)
    requires InStep(s.ledger) && id in s.ledger.pending
    ensures InStep(Promote(s, id).ledger)
  {
    hide Apply, Record;
    var p := s.ledger.pending[id];
    var v := Apply(s.facts, p);
    RecordInStep(s.ledger.(pending := s.ledger.pending - {id}), id, p, v.reason, v.ok);
  }

  lemma {:induction false} PassInStep(s: State, ids: seq<string>, reason: Reason)
    requires InStep(s.ledger) && Distinct(ids) && forall id :: id in ids ==> id in s.ledger.pending
    ensures InStep(ReplayPass(s, ids, reason).state.ledger)
    decreases |ids|
  {
    hide Promote, ReasonAfter, Blocked, InStep;
    if ids != [] {
      assert forall x :: x in ids[1..] ==> x in ids && x != ids[0];
      if Blocked(s, s.ledger.pending[ids[0]]) {
        PassInStep(s, ids[1..], reason);
      } else {
        PromoteInStep(s, ids[0]);
        PassInStep(Promote(s, ids[0]), ids[1..], ReasonAfter(s, ids[0], reason));
      }
    }
  }

  lemma {:induction false} ReplayInStep(s: State, e: Event, reason: Reason)
    requires InStep(s.ledger)
    ensures InStep(Replay(s, e, reason).state.ledger)
    decreases |s.ledger.pending|
  {
    hide ReplayPass, InStep, Selected;
    var ids := Eligible(s.ledger, e);
    if ids != {} {
      var xs := Ascending(ids);
      PassInStep(s, xs, reason);
      var r := ReplayPass(s, xs, reason);
      if r.moved {
        ReplayInStep(r.state, e, r.reason);
      }
    }
  }

  /** The event is quarantined before `apply`, for its class or for another digest under its id
      or key. */
  ghost predicate Clashes(s: State, e: Event) {
    Admit(s, e).WrongClass? || Admit(s, e).Conflicting?
  }

  /** A quarantine under an id leaves one more revision, and one more receipt if the id has none. */
  lemma ShelveCounts(l: Ledger, e: Event, reason: Reason)
    requires InStep(l)
    ensures Balanced(Shelve(l, e.id, e, reason)) <==> e.id !in l.receipts
    ensures InStep(Shelve(l, e.id, e, reason)) <==> e.id !in Known(l)
  {
    hide DigestOf;
    var m := Shelve(l, e.id, e, reason);
    if e.id in l.receipts {
      assert m.receipts.Keys == l.receipts.Keys;
      assert |m.receipts| == |l.receipts|;
    } else {
      OneMore(l.receipts, e.id, DigestOf(e));
    }
  }

  lemma PerformInStep(s: State, e: Event)
    requires InStep(s.ledger) && e.id !in Known(s.ledger)
    ensures InStep(Perform(s, e).0.ledger)
  {
    hide Apply, Replay, Record, InStep;
    var v := Apply(s.facts, e);
    RecordInStep(s.ledger, e.id, e, v.reason, v.ok);
    if v.ok {
      ReplayInStep(Settled(s, e), e, v.reason);
    }
  }

  /** The id has a receipt, and the class is refused or the digest is another one. */
  ghost predicate Reuses(l: Ledger, e: Event) {
    && e.id in l.receipts && e.id != "" && e.eventType != OtherType("")
    && (!ClassAllows(e.eventClass, e.eventType) || l.receipts[e.id] != DigestOf(e))
  }

  lemma ReuseClashes(s: State, e: Event)
    ensures Reuses(s.ledger, e) <==> Clashes(s, e) && e.id in s.ledger.receipts
  {
    hide ClassAllows, DigestOf;
  }

  /** Any delivery to a ledger in step: there is still one receipt a revision exactly when its id
      does not have a receipt already with its class refused or its digest another one; and the
      ledger stays in step exactly when it is not quarantined before `apply` under an id that is
      settled or waiting. */
  lemma CountIsKeptExactly(s: State, raw: Event)
    requires InStep(s.ledger)
    ensures var e := Normalize(raw);
            (Balanced(Next(s, raw).ledger) <==> !Reuses(s.ledger, e)) &&
            (InStep(Next(s, raw).ledger) <==> !(Clashes(s, e) && e.id in Known(s.ledger)))
  {
    hide Normalize, ClassAllows, DigestOf, Perform, InStep, Balanced, Shelve, DeliveryGap, AlreadyPassed, AwaitsCause, Reuses;
    var e := Normalize(raw);
    ReuseClashes(s, e);
    StaysBalanced(s.ledger);
    match Admit(s, e)
    case Malformed | Repeated | StillPending =>
    case WrongClass | OutOfOrder => ShelveCounts(s.ledger, e, ReasonInvalidTransition);
    case Conflicting => ShelveCounts(s.ledger, e, ReasonIdempotencyConflict);
    case Early => BufferInStep(s.ledger, e);
    case Ready =>
      PerformInStep(s, e);
      StaysBalanced(Perform(s, e).0.ledger);
  }

  lemma StaysBalanced(l: Ledger)
    requires InStep(l)
    ensures Balanced(l)
  {
  }

  lemma BufferInStep(l: Ledger, e: Event)
    requires InStep(l) && e.id !in l.receipts
    ensures InStep(Buffer(l, e)) && Balanced(Buffer(l, e))
  {
  }

  ghost predicate InStepThroughout(r: string, es: seq<Event>) {
    forall n :: 0 <= n <= |es| ==> InStep(Run(NewState(r), es[..n]).ledger)
  }

  /** The event is quarantined under an id that the run before it knows. */
  ghost predicate ReusesId(r: string, es: seq<Event>, n: nat)
    requires n < |es|
  {
    var s, e := Run(NewState(r), es[..n]), Normalize(es[n]);
    Clashes(s, e) && e.id in Known(s.ledger)
  }

  /** So a run of the bare reducer keeps its ledger in step throughout exactly when no delivery
      is quarantined under an id already settled or waiting. */
  lemma InStepExactlyWithoutReuse(r: string, es: seq<Event>)
    ensures InStepThroughout(r, es) <==> forall n :: 0 <= n < |es| ==> !ReusesId(r, es, n)
  {
    hide Run, Reduce, InStep, Clashes, Normalize, Known;
    if InStepThroughout(r, es) {
      forall n | 0 <= n < |es| ensures !ReusesId(r, es, n) {
        assert InStep(Run(NewState(r), es[..n]).ledger) && InStep(Run(NewState(r), es[..n + 1]).ledger);
        RunOne(NewState(r), es, n);
        CountIsKeptExactly(Run(NewState(r), es[..n]), es[n]);
      }
    }
    if forall n :: 0 <= n < |es| ==> !ReusesId(r, es, n) {
      InStepUpTo(r, es, |es|);
    }
  }

  lemma {:induction false} InStepUpTo(r: string, es: seq<Event>, m: nat)
    requires m <= |es| && forall n :: 0 <= n < |es| ==> !ReusesId(r, es, n)
    ensures forall n :: 0 <= n <= m ==> InStep(Run(NewState(r), es[..n]).ledger)
  {
    hide Run, Reduce, InStep, Clashes, Normalize, Known;
    if m == 0 {
      RunNone(r, es);
    } else {
      InStepUpTo(r, es, m - 1);
      assert !ReusesId(r, es, m - 1);
      RunOne(NewState(r), es, m - 1);
      CountIsKeptExactly(Run(NewState(r), es[..m - 1]), es[m - 1]);
    }
  }

  lemma RunNone(r: string, es: seq<Event>)
    ensures InStep(Run(NewState(r), es[..0]).ledger)
  {
    hide Reduce;
  }

  lemma RunOne(s: State, es: seq<Event>, n: nat)
    requires n < |es|
    ensures Run(s, es[..n + 1]) == Next(Run(s, es[..n]), es[n])
  {
    hide Reduce;
    assert es[..n + 1][..n] == es[..n];
  }

  /** Without the gate a reused id overwrites its receipt, and revisions outrun receipts. */
  lemma ReusedIdBreaksTheCount(r: string, d: Event, e: Event)
    requires d.id == e.id != "" && d.digest != "" && e.digest != "" && d.digest != e.digest
    requires d.eventType == e.eventType == PolicyConsentRequested && d.eventClass == e.eventClass == Domain
    requires d.causationId == "" && d.sessionId == "" && d.producerSeq == None && d.idempotencyKey == ""
    ensures var l := Run(NewState(r), [d, e]).ledger; l.revision == 2 && l.receipts == map[e.id := e.digest]
  {
    var s := NewState(r);
    assert [d, e][..1] == [d] && [d][..0] == [];
    assert Run(s, []) == s;
    assert Run(s, [d]) == Next(s, d);
    var t := Settled(s, d);
    assert Eligible(t.ledger, d) == {};
    assert Next(s, d) == t;
  }
}
