/** A numbered stream ends in the same state whatever order its events arrive in, also when
    one of them is quarantined and the stream stalls behind it. */
module ArrivalOrder {
  import opened Names
  import opened Lifecycle
  import opened Reducer

  /** The batch as the reducer reads it. */
  function At(b: seq<Event>, i: nat): Event
    requires i < |b|
  {
    Normalize(b[i])
  }

  /** One event of the batch: typed, of its class, on the stream under number i + 1, from a
      client with monotonic sequences, waiting for no cause. */
  predicate Numbered(e: Event, stream: string, i: nat) {
    && e.id != "" && e.eventType != OtherType("") && ClassAllows(e.eventClass, e.eventType)
    && e.streamId == stream && e.producerSeq == Some(i + 1)
    && e.capabilities.monotonicSequence && e.causationId == ""
  }

  /** A complete stream: numbered from 1, no id and no key twice. */
  ghost predicate Stream(b: seq<Event>, stream: string) {
    && |b| <= MAX_INT64
    && (forall i :: 0 <= i < |b| ==> Numbered(At(b, i), stream, i))
    && (forall i, j :: 0 <= i < j < |b| ==> Separate(At(b, i), At(b, j)))
  }

  predicate Separate(d: Event, e: Event) {
    d.id != e.id && (d.idempotencyKey != "" ==> d.idempotencyKey != e.idempotencyKey)
  }

  /** The ledger has seen neither the id nor the key. */
  predicate Clear(l: Ledger, e: Event) {
    e.id !in l.receipts && e.id !in l.pending && (e.idempotencyKey != "" ==> e.idempotencyKey !in l.idempotency)
  }

  ghost predicate Open(l: Ledger, b: seq<Event>, k: nat) {
    forall j :: k <= j < |b| ==> Clear(l, At(b, j))
  }

  /** Nothing already buffered belongs to the stream or waits for one of its events. */
  ghost predicate Apart(l: Ledger, b: seq<Event>, stream: string) {
    forall id :: id in l.pending ==>
      l.pending[id].streamId != stream && forall i :: 0 <= i < |b| ==> l.pending[id].causationId != At(b, i).id
  }

  /** The stream is unstarted or stands at number k, and all later events are new. */
  ghost predicate Standing(s: State, b: seq<Event>, stream: string, k: nat) {
    Stream(b, stream) && k <= |b| && LastOf(s.ledger, stream) == k && Open(s.ledger, b, k) && Apart(s.ledger, b, stream)
  }

  // ---------------------------------------------------------------- the closed form

  /** The state once the delivered events `d` from `k` on have settled in stream order: up to
      the first that is missing, or through the first that is refused. */
  ghost function SettleFrom(s: State, b: seq<Event>, d: set<nat>, k: nat): State
    decreases |b| - k
  {
    if k >= |b| || k !in d then s
    else
      var t := Settled(s, At(b, k));
      if Apply(s.facts, At(b, k)).ok then SettleFrom(t, b, d, k + 1) else t
  }

  /** How far that gets. */
  ghost function Front(s: State, b: seq<Event>, d: set<nat>, k: nat): (f: nat)
    ensures k <= f && (f <= |b| || f == k)
    decreases |b| - k
  {
    if k >= |b| || k !in d then k
    else if Apply(s.facts, At(b, k)).ok then Front(Settled(s, At(b, k)), b, d, k + 1)
    else k + 1
  }

  function WaitingIds(b: seq<Event>, d: set<nat>, f: nat): set<string> {
    set j | j in d && f <= j < |b| :: At(b, j).id
  }

  /** The delivered events from `f` on, under their ids. */
  ghost function Waiting(b: seq<Event>, d: set<nat>, f: nat): map<string, Event> {
    map id | id in WaitingIds(b, d, f) :: EventWith(b, id)
  }

  ghost function EventWith(b: seq<Event>, id: string): Event
    requires exists j :: 0 <= j < |b| && At(b, j).id == id
  {
    var j :| 0 <= j < |b| && At(b, j).id == id;
    At(b, j)
  }

  function With(s: State, extra: map<string, Event>): State {
    s.(ledger := s.ledger.(pending := s.ledger.pending + extra))
  }

  /** Where any delivery order of the events `d` ends. */
  ghost function Outcome(s: State, b: seq<Event>, d: set<nat>, k: nat): State {
    With(SettleFrom(s, b, d, k), Waiting(b, d, Front(s, b, d, k)))
  }

  // ---------------------------------------------------------------- the buffer

  lemma DifferentIds(b: seq<Event>, stream: string, i: nat, j: nat)
    requires Stream(b, stream) && i < |b| && j < |b| && i != j
    ensures Separate(At(b, i), At(b, j)) || Separate(At(b, j), At(b, i))
    ensures At(b, i).id != At(b, j).id
  {
    hide Numbered, At;
    if i < j {
      assert Separate(At(b, i), At(b, j));
    } else {
      assert Separate(At(b, j), At(b, i));
    }
  }

  lemma OnlyWith(b: seq<Event>, stream: string, j: nat)
    requires Stream(b, stream) && j < |b|
    ensures EventWith(b, At(b, j).id) == At(b, j)
  {
    hide Stream, At;
    forall i | 0 <= i < |b| && i != j ensures At(b, i).id != At(b, j).id {
      DifferentIds(b, stream, i, j);
    }
  }

  lemma WaitingMore(b: seq<Event>, stream: string, d: set<nat>, f: nat, j: nat)
    requires Stream(b, stream) && f <= j < |b|
    ensures Waiting(b, d + {j}, f) == Waiting(b, d, f)[At(b, j).id := At(b, j)]
  {
    hide Stream, At, EventWith;
    OnlyWith(b, stream, j);
    assert WaitingIds(b, d + {j}, f) == WaitingIds(b, d, f) + {At(b, j).id};
  }

  lemma WaitingSame(b: seq<Event>, d: set<nat>, f: nat, j: nat)
    requires j < f
    ensures Waiting(b, d + {j}, f) == Waiting(b, d, f)
  {
    hide At, EventWith;
    assert WaitingIds(b, d + {j}, f) == WaitingIds(b, d, f);
  }

  /** Taking the event at the front out of the buffer. */
  lemma WaitingLess(b: seq<Event>, stream: string, d: set<nat>, f: nat)
    requires Stream(b, stream) && f < |b|
    ensures Waiting(b, d, f + 1) == Waiting(b, d, f) - {At(b, f).id}
    ensures f in d <==> At(b, f).id in Waiting(b, d, f)
    ensures f in d ==> Waiting(b, d, f)[At(b, f).id] == At(b, f)
  {
    hide Stream, At, EventWith;
    OnlyWith(b, stream, f);
    forall j | 0 <= j < |b| && j != f ensures At(b, j).id != At(b, f).id {
      DifferentIds(b, stream, j, f);
    }
    assert WaitingIds(b, d, f + 1) == WaitingIds(b, d, f) - {At(b, f).id};
  }

  /** Every waiting event is one of the batch at or after the front. */
  lemma WaitingIsLater(b: seq<Event>, stream: string, d: set<nat>, f: nat, id: string) returns (j: nat)
    requires Stream(b, stream) && id in Waiting(b, d, f)
    ensures j in d && f <= j < |b| && At(b, j).id == id && Waiting(b, d, f)[id] == At(b, j)
  {
    hide Stream, At, EventWith;
    assert id in WaitingIds(b, d, f);
    j :| j in d && f <= j < |b| && At(b, j).id == id;
    OnlyWith(b, stream, j);
  }

  // ---------------------------------------------------------------- settling one event

  lemma StandingAt(s: State, b: seq<Event>, stream: string, k: nat)
    requires Standing(s, b, stream, k)
    ensures k <= |b| && Stream(b, stream) && LastOf(s.ledger, stream) == k && Open(s.ledger, b, k) && Apart(s.ledger, b, stream)
  {
    hide Stream, Open, Apart, LastOf;
  }

  lemma StreamAt(b: seq<Event>, stream: string, i: nat)
    requires Stream(b, stream) && i < |b|
    ensures Numbered(At(b, i), stream, i) && i < MAX_INT64
  {
    hide Numbered, At, Separate;
  }

  lemma RecordOpen(l: Ledger, b: seq<Event>, stream: string, k: nat, reason: Reason, ok: bool)
    requires Stream(b, stream) && k < |b| && Open(l, b, k)
    ensures Open(Record(l, At(b, k).id, At(b, k), reason, ok), b, k + 1)
  {
    hide Numbered, DigestOf, LastOf, At;
    var m := Record(l, At(b, k).id, At(b, k), reason, ok);
    forall j | k + 1 <= j < |b| ensures Clear(m, At(b, j)) {
      assert Clear(l, At(b, j));
      assert Separate(At(b, k), At(b, j));
    }
  }

  lemma RecordLast(l: Ledger, e: Event, stream: string, k: nat, reason: Reason, ok: bool)
    requires Numbered(e, stream, k) && LastOf(l, stream) == k
    ensures LastOf(Record(l, e.id, e, reason, ok), stream) == if ok then k + 1 else k
  {
    hide DigestOf;
  }

  /** Settling the event at the front: on to the next number, or stalled at this one. */
  lemma SettledStands(s: State, b: seq<Event>, stream: string, k: nat)
    requires Standing(s, b, stream, k) && k < |b|
    ensures var t := Settled(s, At(b, k)).ledger;
            LastOf(t, stream) == (if Apply(s.facts, At(b, k)).ok then k + 1 else k) &&
            Open(t, b, k + 1) && Apart(t, b, stream) && t.pending == s.ledger.pending
  {
    hide Apply, Record, Stream, Open, LastOf, At;
    StandingAt(s, b, stream, k);
    StreamAt(b, stream, k);
    var v := Apply(s.facts, At(b, k));
    RecordOpen(s.ledger, b, stream, k, v.reason, v.ok);
    RecordLast(s.ledger, At(b, k), stream, k, v.reason, v.ok);
  }

  lemma NextStands(s: State, b: seq<Event>, stream: string, k: nat)
    requires Standing(s, b, stream, k) && k < |b| && Apply(s.facts, At(b, k)).ok
    ensures Standing(Settled(s, At(b, k)), b, stream, k + 1)
  {
    hide Apply, Settled, Stream, Open, LastOf, At, Apart;
    SettledStands(s, b, stream, k);
  }

  // ---------------------------------------------------------------- an early event

  /** An event past the next number waits. */
  lemma EarlyWaits(s: State, b: seq<Event>, stream: string, k: nat, last: nat, extra: map<string, Event>, j: nat)
    requires Stream(b, stream) && LastOf(s.ledger, stream) == last <= k && Open(s.ledger, b, k)
    requires k <= j < |b| && j > last && At(b, j).id !in extra
    ensures Next(With(s, extra), b[j]) == With(s, extra[At(b, j).id := At(b, j)])
  {
    hide Apply, Stream, DigestOf, ClassAllows, Perform, Normalize;
    StreamAt(b, stream, j);
    var e, x := At(b, j), With(s, extra);
    assert Clear(s.ledger, e);
    assert Admit(x, e) == Early;
    assert (s.ledger.pending + extra)[e.id := e] == s.ledger.pending + extra[e.id := e];
  }

  // ---------------------------------------------------------------- settling beside a buffer

  lemma SettledWith(s: State, extra: map<string, Event>, e: Event)
    ensures Settled(With(s, extra), e) == With(Settled(s, e), extra)
  {
    hide Apply, DigestOf;
    assert LastOf(With(s, extra).ledger, e.streamId) == LastOf(s.ledger, e.streamId);
  }

  lemma SelectedInBatch(l: Ledger, b: seq<Event>, stream: string, i: nat, j: nat, last: nat)
    requires Stream(b, stream) && i < |b| && j < |b| && LastOf(l, stream) == last < MAX_INT64
    ensures Selected(l, At(b, i), At(b, j)) <==> j <= last
  {
    hide Stream, At, LastOf;
    StreamAt(b, stream, i);
    StreamAt(b, stream, j);
  }

  lemma NotSelectedOutside(s: State, b: seq<Event>, stream: string, i: nat, l: Ledger, id: string)
    requires Stream(b, stream) && i < |b| && Apart(s.ledger, b, stream) && id in s.ledger.pending
    ensures !Selected(l, At(b, i), s.ledger.pending[id])
  {
    hide Stream, At, LastOf;
    StreamAt(b, stream, i);
  }

  /** What replay selects beside the buffer: the next number, if it waits, and nothing else. */
  lemma NextIsEligible(s: State, b: seq<Event>, stream: string, d: set<nat>, k: nat, last: nat, i: nat)
    requires Stream(b, stream) && i < |b| && last <= k <= |b| && LastOf(s.ledger, stream) == last && Apart(s.ledger, b, stream)
    requires last < MAX_INT64
    ensures Eligible(With(s, Waiting(b, d, k)).ledger, At(b, i)) ==
            if last == k && k in d && k < |b| then {At(b, k).id} else {}
  {
    hide Stream, At, Waiting, LastOf, Selected, Apart;
    var w := Waiting(b, d, k);
    var l, e := With(s, w).ledger, At(b, i);
    SameLast(s, w, stream);
    forall id | id in l.pending
      ensures Selected(l, e, l.pending[id]) <==> last == k && k < |b| && k in d && id == At(b, k).id
    {
      if id in w {
        var j := WaitingIsLater(b, stream, d, k, id);
        SelectedInBatch(l, b, stream, i, j, last);
        if j != k && k < |b| {
          DifferentIds(b, stream, j, k);
        }
      } else {
        NotSelectedOutside(s, b, stream, i, l, id);
        if k < |b| {
          WaitingLess(b, stream, d, k);
        }
      }
    }
    if k < |b| {
      WaitingLess(b, stream, d, k);
    }
  }

  lemma SameLast(s: State, extra: map<string, Event>, stream: string)
    ensures LastOf(With(s, extra).ledger, stream) == LastOf(s.ledger, stream)
  {
  }

  lemma AscendingOne(id: string)
    ensures Ascending({id}) == [id]
  {
    var xs := Ascending({id});
    assert |xs| == 1 && xs[0] in xs;
  }

  /** The waiting event at the front is not held back and leaves the buffer settled. */
  lemma PromoteFront(s: State, b: seq<Event>, stream: string, d: set<nat>, k: nat)
    requires Standing(s, b, stream, k) && k < |b| && k in d
    ensures var x, id := With(s, Waiting(b, d, k)), At(b, k).id;
            id in x.ledger.pending && !Blocked(x, x.ledger.pending[id]) &&
            Promote(x, id) == With(Settled(s, At(b, k)), Waiting(b, d, k + 1))
  {
    hide Apply, Stream, Waiting, LastOf, Apart, DigestOf, At, Record;
    StandingAt(s, b, stream, k);
    StreamAt(b, stream, k);
    WaitingLess(b, stream, d, k);
    var e, w := At(b, k), Waiting(b, d, k);
    var x := With(s, w);
    SameLast(s, w, stream);
    assert Clear(s.ledger, e);
    assert x.ledger.pending[e.id] == e;
    assert x.ledger.pending - {e.id} == s.ledger.pending + Waiting(b, d, k + 1);
    RecordBeside(s.ledger, x.ledger.pending - {e.id}, e, Apply(s.facts, e).reason, Apply(s.facts, e).ok);
  }

  lemma RecordBeside(l: Ledger, pending: map<string, Event>, e: Event, reason: Reason, ok: bool)
    ensures Record(l.(pending := pending), e.id, e, reason, ok) == Record(l, e.id, e, reason, ok).(pending := pending)
  {
    hide DigestOf;
    assert LastOf(l.(pending := pending), e.streamId) == LastOf(l, e.streamId);
  }

  /** One pass over the one selected id. */
  lemma PassOne(x: State, id: string, reason: Reason)
    requires id in x.ledger.pending && !Blocked(x, x.ledger.pending[id])
    ensures var r := ReplayPass(x, [id], reason);
            r.state == Promote(x, id) && r.moved && r.reason == ReasonAfter(x, id, reason)
  {
    hide Promote, ReasonAfter, Blocked;
    assert [id][1..] == [];
    var r := ReplayPass(Promote(x, id), [], ReasonAfter(x, id, reason));
    assert r.state == Promote(x, id);
  }

  /** Replay settles the rest of the run of numbers that is there, through a refusal at most. */
  lemma {:induction false} ReplayRest(s: State, b: seq<Event>, stream: string, d: set<nat>, k: nat, i: nat, reason: Reason)
    requires Standing(s, b, stream, k) && i < |b|
    ensures Replay(With(s, Waiting(b, d, k)), At(b, i), reason).state == Outcome(s, b, d, k)
    decreases |b| - k
  {
    hide Apply, Stream, Waiting, LastOf, Apart, Open, At, Settled, ReasonAfter, Eligible, With, Replay, Outcome, Standing;
    StandingAt(s, b, stream, k);
    var x, e := With(s, Waiting(b, d, k)), At(b, i);
    if k == |b| {
      NothingIsEligible(s, b, stream, d, i);
      ReplayNone(x, e, reason);
      ClosedFront(s, b, d, k);
    } else {
      StreamAt(b, stream, k);
      NextIsEligible(s, b, stream, d, k, k, i);
      if k in d {
        ReplayFront(s, b, stream, d, k, i, reason);
        OpenFront(s, b, stream, d, k);
        var t, r := Settled(s, At(b, k)), ReasonAfter(x, At(b, k).id, reason);
        SettledStands(s, b, stream, k);
        if Apply(s.facts, At(b, k)).ok {
          NextStands(s, b, stream, k);
          ReplayRest(t, b, stream, d, k + 1, i, r);
        } else {
          NextIsEligible(t, b, stream, d, k + 1, k, i);
          ReplayNone(With(t, Waiting(b, d, k + 1)), e, r);
        }
      } else {
        ReplayNone(x, e, reason);
        ClosedFront(s, b, d, k);
      }
    }
  }

  lemma ReplayNone(x: State, e: Event, reason: Reason)
    requires Eligible(x.ledger, e) == {}
    ensures Replay(x, e, reason).state == x
  {
    hide ReplayPass, Eligible;
  }

  lemma NothingIsEligible(s: State, b: seq<Event>, stream: string, d: set<nat>, i: nat)
    requires Stream(b, stream) && i < |b| && Apart(s.ledger, b, stream)
    ensures Eligible(With(s, Waiting(b, d, |b|)).ledger, At(b, i)) == {}
  {
    hide Stream, At, LastOf, Selected, EventWith, Apart;
    var l := With(s, Waiting(b, d, |b|)).ledger;
    assert Waiting(b, d, |b|) == map[];
    forall id | id in l.pending ensures !Selected(l, At(b, i), l.pending[id]) {
      NotSelectedOutside(s, b, stream, i, l, id);
    }
  }

  /** The loop's next round, when the event at the front waits. */
  lemma ReplayFront(s: State, b: seq<Event>, stream: string, d: set<nat>, k: nat, i: nat, reason: Reason)
    requires Standing(s, b, stream, k) && k < |b| && k in d && i < |b|
    ensures At(b, k).id in With(s, Waiting(b, d, k)).ledger.pending
    ensures var x, id := With(s, Waiting(b, d, k)), At(b, k).id;
            Replay(x, At(b, i), reason).state ==
            Replay(With(Settled(s, At(b, k)), Waiting(b, d, k + 1)), At(b, i), ReasonAfter(x, id, reason)).state
  {
    hide Stream, Waiting, LastOf, Apart, Open, At, Settled, Promote, ReplayPass, ReasonAfter, Blocked, Eligible, With, Ascending;
    StandingAt(s, b, stream, k);
    StreamAt(b, stream, k);
    NextIsEligible(s, b, stream, d, k, k, i);
    var x, id := With(s, Waiting(b, d, k)), At(b, k).id;
    AscendingOne(id);
    PromoteFront(s, b, stream, d, k);
    PassOne(x, id, reason);
  }

  // ---------------------------------------------------------------- one delivery

  lemma OpenFront(s: State, b: seq<Event>, stream: string, d: set<nat>, k: nat)
    requires Standing(s, b, stream, k) && k in d && k < |b|
    ensures var ok, t := Apply(s.facts, At(b, k)).ok, Settled(s, At(b, k));
            Outcome(s, b, d, k) == if ok then Outcome(t, b, d, k + 1) else With(t, Waiting(b, d, k + 1))
  {
    hide Apply, Settled, Waiting, With, Stream, Standing;
  }

  lemma ClosedFront(s: State, b: seq<Event>, d: set<nat>, k: nat)
    requires k !in d || k >= |b|
    ensures Outcome(s, b, d, k) == With(s, Waiting(b, d, k))
  {
    hide Apply, Settled, Waiting, With;
  }

  /** The event at the front arrives: it settles, and what waited behind it follows. */
  lemma FrontArrives(s: State, b: seq<Event>, stream: string, d: set<nat>, k: nat)
    requires Standing(s, b, stream, k) && k < |b| && k !in d
    ensures Next(With(s, Waiting(b, d, k)), b[k]) == Outcome(s, b, d + {k}, k)
  {
    hide Apply, Stream, Waiting, LastOf, Apart, Open, Settled, Replay, Admit, Normalize, With, Outcome;
    var e, x, t := At(b, k), With(s, Waiting(b, d, k)), Settled(s, At(b, k));
    StandingAt(s, b, stream, k);
    FrontIsReady(s, b, stream, d, k);
    SettledWith(s, Waiting(b, d, k), e);
    WaitingLess(b, stream, d, k);
    FrontStays(b, stream, d, k);
    WaitingSame(b, d, k + 1, k);
    OpenFront(s, b, stream, d + {k}, k);
    SameVerdict(s, Waiting(b, d, k), e);
    if Apply(s.facts, e).ok {
      NextStands(s, b, stream, k);
      ReplayRest(t, b, stream, d + {k}, k + 1, k, Apply(s.facts, e).reason);
    }
  }

  lemma SameVerdict(s: State, extra: map<string, Event>, e: Event)
    ensures Apply(With(s, extra).facts, e) == Apply(s.facts, e)
  {
    hide Apply;
  }

  lemma FrontStays(b: seq<Event>, stream: string, d: set<nat>, k: nat)
    requires Stream(b, stream) && k < |b| && k !in d
    ensures Waiting(b, d, k + 1) == Waiting(b, d, k)
  {
    hide Stream, EventWith, At;
    assert WaitingIds(b, d, k + 1) == WaitingIds(b, d, k);
  }

  lemma FrontIsReady(s: State, b: seq<Event>, stream: string, d: set<nat>, k: nat)
    requires Standing(s, b, stream, k) && k < |b| && k !in d
    ensures Admit(With(s, Waiting(b, d, k)), At(b, k)) == Ready
  {
    hide Stream, Waiting, LastOf, Apart, DigestOf, At, ClassAllows;
    StandingAt(s, b, stream, k);
    StreamAt(b, stream, k);
    SameLast(s, Waiting(b, d, k), stream);
    WaitingLess(b, stream, d, k);
    assert Clear(s.ledger, At(b, k));
  }

  /** One more delivery of the stream, whichever it is, moves the closed form to the larger set. */
  lemma {:induction false} DeliveryExtends(s: State, b: seq<Event>, stream: string, d: set<nat>, k: nat, j: nat)
    requires Standing(s, b, stream, k) && k <= j < |b| && j !in d
    ensures Next(Outcome(s, b, d, k), b[j]) == Outcome(s, b, d + {j}, k)
    decreases |b| - k
  {
    hide Stream, Waiting, LastOf, Apart, Open, Settled, With, Outcome, Next, Apply, Standing;
    StandingAt(s, b, stream, k);
    if k in d {
      var t := Settled(s, At(b, k));
      OpenFront(s, b, stream, d, k);
      OpenFront(s, b, stream, d + {j}, k);
      if Apply(s.facts, At(b, k)).ok {
        NextStands(s, b, stream, k);
        DeliveryExtends(t, b, stream, d, k + 1, j);
      } else {
        SettledStands(s, b, stream, k);
        LateArrives(t, b, stream, d, k + 1, k, j);
      }
    } else {
      ClosedFront(s, b, d, k);
      if j == k {
        FrontArrives(s, b, stream, d, k);
      } else {
        ClosedFront(s, b, d + {j}, k);
        LateArrives(s, b, stream, d, k, k, j);
      }
    }
  }

  lemma LateArrives(s: State, b: seq<Event>, stream: string, d: set<nat>, k: nat, last: nat, j: nat)
    requires Stream(b, stream) && LastOf(s.ledger, stream) == last <= k && Open(s.ledger, b, k)
    requires k <= j < |b| && j > last && j !in d
    ensures Next(With(s, Waiting(b, d, k)), b[j]) == With(s, Waiting(b, d + {j}, k))
  {
    hide Stream, Waiting, LastOf, Open, With, Next;
    NotWaiting(b, stream, d, k, j);
    WaitingMore(b, stream, d, k, j);
    EarlyWaits(s, b, stream, k, last, Waiting(b, d, k), j);
  }

  lemma NotWaiting(b: seq<Event>, stream: string, d: set<nat>, k: nat, j: nat)
    requires Stream(b, stream) && j < |b| && j !in d
    ensures At(b, j).id !in Waiting(b, d, k)
  {
    hide Stream, Waiting, At;
    if At(b, j).id in Waiting(b, d, k) {
      var i := WaitingIsLater(b, stream, d, k, At(b, j).id);
      DifferentIds(b, stream, i, j);
    }
  }

  // ---------------------------------------------------------------- any order

  predicate Indexes(b: seq<Event>, order: seq<nat>) {
    forall i :: 0 <= i < |order| ==> order[i] < |b|
  }

  /** The events of the stream in the order the indices name them. */
  function InOrder(b: seq<Event>, order: seq<nat>): seq<Event>
    requires Indexes(b, order)
  {
    seq(|order|, i requires 0 <= i < |order| => b[order[i]])
  }

  function Indices(order: seq<nat>): set<nat> {
    set i | i in order
  }

  /** Every delivery order ends in the closed form of the set delivered. */
  lemma {:induction false} RunIsOutcome(s: State, b: seq<Event>, stream: string, order: seq<nat>)
    requires Standing(s, b, stream, 0) && Distinct(order) && Indexes(b, order)
    ensures Run(s, InOrder(b, order)) == Outcome(s, b, Indices(order), 0)
  {
    hide Standing, Outcome, Next;
    if order == [] {
      assert Indices(order) == {};
      EmptyOutcome(s, b);
    } else {
      var n := |order| - 1;
      RunIsOutcome(s, b, stream, order[..n]);
      assert InOrder(b, order)[..n] == InOrder(b, order[..n]);
      assert order == order[..n] + [order[n]];
      assert Indices(order) == Indices(order[..n]) + {order[n]};
      DeliveryExtends(s, b, stream, Indices(order[..n]), 0, order[n]);
    }
  }

  lemma EmptyOutcome(s: State, b: seq<Event>)
    ensures Outcome(s, b, {}, 0) == s
  {
    ClosedFront(s, b, {}, 0);
    assert Waiting(b, {}, 0) == map[];
    assert s.ledger.pending + map[] == s.ledger.pending;
  }

  /** Arrival order does not matter: two orders of the same events of a stream end in the same
      whole state: facts, receipts, keys, revision, buffer, quarantine and marks. */
  lemma ArrivalOrderIsInvisible(s: State, b: seq<Event>, stream: string, order: seq<nat>, other: seq<nat>)
    requires Standing(s, b, stream, 0) && Distinct(order) && Distinct(other)
    requires Indexes(b, order) && Indexes(b, other) && forall i :: i in order <==> i in other
    ensures Run(s, InOrder(b, order)) == Run(s, InOrder(b, other))
  {
    hide Standing, Outcome, Run;
    RunIsOutcome(s, b, stream, order);
    RunIsOutcome(s, b, stream, other);
    assert Indices(order) == Indices(other);
  }

  /** From a new repository every numbered stream qualifies, whatever its events say. */
  lemma NewStateStands(r: string, b: seq<Event>, stream: string)
    requires Stream(b, stream)
    ensures Standing(NewState(r), b, stream, 0)
  {
    hide Numbered;
  }

  function Straight(n: nat): seq<nat> {
    seq(n, i requires 0 <= i < n => i)
  }

  /** In particular every permutation ends where in-order delivery does. */
  lemma PermutationEndsInOrder(s: State, b: seq<Event>, stream: string, order: seq<nat>)
    requires Standing(s, b, stream, 0) && Distinct(order) && forall i: nat :: i in order <==> i < |b|
    ensures Indexes(b, order) && Run(s, InOrder(b, order)) == Run(s, b)
  {
    hide Standing, Run;
    forall i | 0 <= i < |order| ensures order[i] < |b| {
      assert order[i] in order;
    }
    var straight := Straight(|b|);
    assert InOrder(b, straight) == b;
    forall i: nat ensures i in straight <==> i < |b| {
      if i < |b| {
        assert straight[i] == i;
      }
    }
    ArrivalOrderIsInvisible(s, b, stream, order, straight);
  }
}
