/** Redaction: what the application strips before a projection is stored, and why the reducer
    never notices. */
module Redaction {
  import opened Names
  import opened Lifecycle
  import opened Reducer
  import opened History

  function StripPrompt(p: Prompt): Prompt {
    p.(answer := "")
  }

  function StripEvent(e: Event): Event {
    e.(payload := e.payload.(answer := "", reason := ""))
  }

  function StripEntry(q: Quarantined): Quarantined {
    q.(event := StripEvent(q.event))
  }

  function StripPrompts(ps: map<string, Prompt>): map<string, Prompt> {
    map k | k in ps :: StripPrompt(ps[k])
  }

  function StripPending(es: map<string, Event>): map<string, Event> {
    map k | k in es :: StripEvent(es[k])
  }

  function StripQuarantine(qs: seq<Quarantined>): seq<Quarantined> {
    seq(|qs|, i requires 0 <= i < |qs| => StripEntry(qs[i]))
  }

  function BoundedFacts(f: Facts): Facts {
    f.(prompts := StripPrompts(f.prompts))
  }

  function BoundedLedger(l: Ledger): Ledger {
    l.(pending := StripPending(l.pending), quarantine := StripQuarantine(l.quarantine))
  }

  /** No answer text in prompts, no answer or reason text in buffered or quarantined events. */
  function Bounded(s: State): State {
    State(BoundedFacts(s.facts), BoundedLedger(s.ledger))
  }

  /** The answer and the reason are gone from the event, and nothing else. */
  predicate TextGone(was: Event, now: Event) {
    && now.payload.answer == "" && now.payload.reason == ""
    && was == now.(payload := now.payload.(answer := was.payload.answer, reason := was.payload.reason))
  }

  /** No text is left: every prompt's answer is empty, and every buffered and quarantined event's
      answer and reason. */
  predicate TextFree(s: State) {
    && (forall k :: k in s.facts.prompts ==> s.facts.prompts[k].answer == "")
    && (forall k :: k in s.ledger.pending ==> s.ledger.pending[k].payload.answer == "" && s.ledger.pending[k].payload.reason == "")
    && (forall i :: 0 <= i < |s.ledger.quarantine| ==>
          s.ledger.quarantine[i].event.payload.answer == "" && s.ledger.quarantine[i].event.payload.reason == "")
  }

  /** `n` is `s` without its text, and otherwise the same. */
  predicate Stripped(s: State, n: State) {
    && TextFree(n)
    && n == State(s.facts.(prompts := n.facts.prompts), s.ledger.(pending := n.ledger.pending, quarantine := n.ledger.quarantine))
    && n.facts.prompts.Keys == s.facts.prompts.Keys
    && (forall k :: k in s.facts.prompts ==> s.facts.prompts[k] == n.facts.prompts[k].(answer := s.facts.prompts[k].answer))
    && n.ledger.pending.Keys == s.ledger.pending.Keys
    && (forall k :: k in s.ledger.pending ==> TextGone(s.ledger.pending[k], n.ledger.pending[k]))
    && EntriesGone(s.ledger.quarantine, n.ledger.quarantine)
  }

  lemma GoneIsStripped(was: Event, now: Event)
    ensures TextGone(was, now) <==> now == StripEvent(was)
  {
  }

  lemma PendingIsStripped(es: map<string, Event>, fs: map<string, Event>)
    ensures fs.Keys == es.Keys && (forall k :: k in es ==> TextGone(es[k], fs[k])) <==> fs == StripPending(es)
  {
    hide TextGone, StripEvent;
    forall k | k in es && k in fs ensures TextGone(es[k], fs[k]) <==> fs[k] == StripEvent(es[k]) {
      GoneIsStripped(es[k], fs[k]);
    }
  }

  predicate EntriesGone(qs: seq<Quarantined>, rs: seq<Quarantined>) {
    |rs| == |qs| && forall i :: 0 <= i < |qs| ==> rs[i].reason == qs[i].reason && TextGone(qs[i].event, rs[i].event)
  }

  lemma QuarantineIsStripped(qs: seq<Quarantined>, rs: seq<Quarantined>)
    ensures EntriesGone(qs, rs) <==> rs == StripQuarantine(qs)
  {
    hide TextGone, StripEvent;
    forall i | 0 <= i < |qs| && i < |rs| ensures TextGone(qs[i].event, rs[i].event) <==> rs[i].event == StripEvent(qs[i].event) {
      GoneIsStripped(qs[i].event, rs[i].event);
    }
  }

  lemma GoneIsFree(s: State, n: State)
    requires (forall k :: k in n.facts.prompts ==> n.facts.prompts[k].answer == "")
    requires n.ledger.pending.Keys == s.ledger.pending.Keys
    requires forall k :: k in s.ledger.pending ==> TextGone(s.ledger.pending[k], n.ledger.pending[k])
    requires EntriesGone(s.ledger.quarantine, n.ledger.quarantine)
    ensures TextFree(n)
  {
  }

  /** The redaction of a state is the one state that differs from it in being without text. */
  lemma BoundedIsStripped(s: State, n: State)
    ensures Stripped(s, n) <==> n == Bounded(s)
  {
    hide TextFree, TextGone, StripPending, StripQuarantine, EntriesGone;
    PendingIsStripped(s.ledger.pending, n.ledger.pending);
    QuarantineIsStripped(s.ledger.quarantine, n.ledger.quarantine);
    if Stripped(s, n) {
      PromptsAreFree(n);
      assert n.facts.prompts == StripPrompts(s.facts.prompts);
    }
    if n == Bounded(s) {
      GoneIsFree(s, n);
    }
  }

  lemma PromptsAreFree(n: State)
    requires TextFree(n)
    ensures forall k :: k in n.facts.prompts ==> n.facts.prompts[k].answer == ""
  {
  }

  /** Overwrites every prompt of a clone. */
  method BlankPrompts(ps: map<string, Prompt>) returns (prompts: map<string, Prompt>)
    ensures prompts == StripPrompts(ps)
  {
    prompts := ps;
    var todo := ps.Keys;
    while todo != {}
      invariant todo <= ps.Keys == prompts.Keys
      invariant forall k :: k in ps ==> prompts[k] == if k in todo then ps[k] else StripPrompt(ps[k])
      decreases |todo|
    {
      var id :| id in todo;
      prompts := prompts[id := prompts[id].(answer := "")];
      todo := todo - {id};
    }
  }

  /** Overwrites every buffered event of a clone. */
  method BlankPending(es: map<string, Event>) returns (pending: map<string, Event>)
    ensures pending == StripPending(es)
  {
    hide StripEvent;
    pending := es;
    var todo := es.Keys;
    while todo != {}
      invariant todo <= es.Keys == pending.Keys
      invariant forall k :: k in es ==> pending[k] == if k in todo then es[k] else StripEvent(es[k])
      decreases |todo|
    {
      var id :| id in todo;
      pending := pending[id := StripEvent(pending[id])];
      todo := todo - {id};
    }
  }

  /** Overwrites every quarantined event of a clone. */
  method BlankQuarantine(qs: seq<Quarantined>) returns (quarantine: seq<Quarantined>)
    ensures quarantine == StripQuarantine(qs)
  {
    quarantine := qs;
    for i := 0 to |qs|
      invariant |quarantine| == |qs|
      invariant forall j :: 0 <= j < |qs| ==> quarantine[j] == if j < i then StripEntry(qs[j]) else qs[j]
    {
      quarantine := quarantine[i := StripEntry(quarantine[i])];
    }
  }

  /** Answers and reasons are emptied, and nothing else is touched. */
  method Bound(s: State) returns (n: State)
    ensures n == Bounded(s) && Stripped(s, n)
  {
    hide Stripped;
    var prompts := BlankPrompts(s.facts.prompts);
    var pending := BlankPending(s.ledger.pending);
    var quarantine := BlankQuarantine(s.ledger.quarantine);
    n := State(s.facts.(prompts := prompts), s.ledger.(pending := pending, quarantine := quarantine));
    BoundedIsStripped(s, n);
  }

  // ---------------------------------------------------------------- apply

  lemma BlockingStripped(ps: map<string, Prompt>, taskId: string)
    ensures HasBlockingPrompt(StripPrompts(ps), taskId) == HasBlockingPrompt(ps, taskId)
  {
    var qs := StripPrompts(ps);
    if HasBlockingPrompt(ps, taskId) {
      var k :| k in ps && Blocks(ps[k], taskId);
      assert k in qs && Blocks(qs[k], taskId);
    }
    if HasBlockingPrompt(qs, taskId) {
      var k :| k in qs && Blocks(qs[k], taskId);
      assert k in ps && Blocks(ps[k], taskId);
    }
  }

  lemma EligibleStripped(s: Session, ps: map<string, Prompt>, t: Task)
    ensures CompletionEligible(s, StripPrompts(ps), t) == CompletionEligible(s, ps, t)
  {
    var qs := StripPrompts(ps);
    assert forall k :: k in ps ==> HoldsCompletion(qs[k], t.id) == HoldsCompletion(ps[k], t.id);
  }

  lemma SessionStripped(w: Work, ps: map<string, Prompt>, e: Event)
    ensures ApplySession(w, StripPrompts(ps), StripEvent(e)) == ApplySession(w, ps, e)
  {
    hide HasBlockingPrompt, StripPrompts;
    BlockingStripped(ps, "");
  }

  lemma ClaimStripped(w: Work, ps: map<string, Prompt>, e: Event)
    ensures ApplyTaskCompleted(w, StripPrompts(ps), StripEvent(e)) == ApplyTaskCompleted(w, ps, e)
  {
    hide HasBlockingPrompt, StripPrompts, CompletionEligible;
    if e.taskId in w.tasks {
      var t := w.tasks[e.taskId].(completionClaim := true);
      BlockingStripped(ps, t.id);
      EligibleStripped(w.session, ps, t);
    }
  }

  lemma TaskStripped(w: Work, ps: map<string, Prompt>, e: Event)
    ensures ApplyTask(w, StripPrompts(ps), StripEvent(e)) == ApplyTask(w, ps, e)
  {
    hide HasBlockingPrompt, StripPrompts, CompletionEligible, ApplyTaskCompleted;
    ClaimStripped(w, ps, e);
    if e.taskId in w.tasks {
      BlockingStripped(ps, w.tasks[e.taskId].id);
    }
  }

  /** A prompt event leaves the same work behind, and prompts that differ in answers only. */
  lemma PromptStripped(w: Work, ps: map<string, Prompt>, e: Event)
    ensures var a, b := ApplyPrompt(w, StripPrompts(ps), StripEvent(e)), ApplyPrompt(w, ps, e);
            a.ok == b.ok && a.reason == b.reason && a.result.0 == b.result.0 &&
            StripPrompts(a.result.1) == StripPrompts(b.result.1)
  {
    hide PromptEffect, StripPrompts, PromptFor, PromptAfter, PromptTask;
    StripsTwice(ps);
    var id := e.payload.promptId;
    if id != "" {
      var (v, taskId) := PromptTask(w, e.taskId);
      var p, q := PromptFor(StripPrompts(ps), StripEvent(e), taskId), PromptFor(ps, e, taskId);
      PromptForStripped(ps, e, taskId);
      PromptAfterStripped(p, q, e);
      EffectStripped(v, PromptAfter(p, StripEvent(e)), PromptAfter(q, e));
      PutStripped(StripPrompts(ps), ps, id, PromptAfter(p, StripEvent(e)), PromptAfter(q, e));
    }
  }

  lemma StripsTwice(ps: map<string, Prompt>)
    ensures StripPrompts(StripPrompts(ps)) == StripPrompts(ps)
  {
  }

  lemma PromptForStripped(ps: map<string, Prompt>, e: Event, taskId: string)
    ensures StripPrompt(PromptFor(StripPrompts(ps), StripEvent(e), taskId)) == StripPrompt(PromptFor(ps, e, taskId))
    ensures Find(StripPrompts(ps), e.payload.promptId, NO_PROMPT).id == Find(ps, e.payload.promptId, NO_PROMPT).id
  {
  }

  lemma PutStripped(ps: map<string, Prompt>, qs: map<string, Prompt>, id: string, p: Prompt, q: Prompt)
    requires StripPrompts(ps) == StripPrompts(qs) && StripPrompt(p) == StripPrompt(q)
    ensures StripPrompts(ps[id := p]) == StripPrompts(qs[id := q])
  {
    assert StripPrompts(ps[id := p]) == StripPrompts(ps)[id := StripPrompt(p)];
    assert StripPrompts(qs[id := q]) == StripPrompts(qs)[id := StripPrompt(q)];
  }

  lemma PromptAfterStripped(p: Prompt, q: Prompt, e: Event)
    requires StripPrompt(p) == StripPrompt(q)
    ensures StripPrompt(PromptAfter(p, StripEvent(e))) == StripPrompt(PromptAfter(q, e))
  {
  }

  lemma EffectStripped(w: Work, p: Prompt, q: Prompt)
    requires StripPrompt(p) == StripPrompt(q)
    ensures PromptEffect(w, p) == PromptEffect(w, q)
  {
    assert p.taskId == q.taskId && p.blocking == q.blocking && p.state == q.state;
  }

  lemma ChangeStripped(j: Jobs, e: Event)
    ensures ApplyChange(j, StripEvent(e)) == ApplyChange(j, e)
  {
    hide Invalidate;
    assert CandidateAfter(Find(j.candidates, e.changeId, NO_CANDIDATE), StripEvent(e))
        == CandidateAfter(Find(j.candidates, e.changeId, NO_CANDIDATE), e);
  }

  lemma VerificationStripped(j: Jobs, e: Event)
    ensures ApplyVerification(j, StripEvent(e)) == ApplyVerification(j, e)
  {
    hide ExactEvidence;
    assert VerificationFor(j.verifications, StripEvent(e)) == VerificationFor(j.verifications, e);
  }

  lemma CommitStripped(j: Jobs, e: Event)
    ensures ApplyCommit(j, StripEvent(e)) == ApplyCommit(j, e)
  {
    hide ExactCommit, HasReusableVerification, ValidSha, FillEvidence;
    if e.changeId in j.candidates {
      var c := j.candidates[e.changeId];
      assert CommitFor(j.commits, c, StripEvent(e)) == CommitFor(j.commits, c, e);
    }
  }

  lemma PushStripped(j: Jobs, e: Event)
    ensures ApplyPush(j, StripEvent(e)) == ApplyPush(j, e)
  {
    hide ValidSha, ValidDigest, ValidRef, CreatedCommits;
    assert PushFor(j.pushes, StripEvent(e)) == PushFor(j.pushes, e);
  }

  lemma JobsStripped(j: Jobs, e: Event)
    ensures ApplyJobs(j, StripEvent(e)) == ApplyJobs(j, e)
  {
    hide ApplyChange, ApplyVerification, ApplyCommit, ApplyPush;
    ChangeStripped(j, e);
    VerificationStripped(j, e);
    CommitStripped(j, e);
    PushStripped(j, e);
  }

  /** What two verdicts on facts share when they differ in answer texts only. */
  predicate SameVerdict(a: Verdict<Facts>, b: Verdict<Facts>) {
    a.ok == b.ok && a.reason == b.reason && BoundedFacts(a.result) == BoundedFacts(b.result)
  }

  lemma WorkStripped(f: Facts, v: Verdict<Work>)
    ensures SameVerdict(OnWork(BoundedFacts(f), v), OnWork(f, v))
  {
    StripTwice(f.prompts);
  }

  lemma DispatchStripped(f: Facts, e: Event)
    ensures SameVerdict(Dispatch(BoundedFacts(f), StripEvent(e)), Dispatch(f, e))
  {
    hide ApplySession, ApplyTask, ApplyPrompt, ApplyJobs, Invalidate, WithdrawAll, PolicyTakesEffect, StripPrompts;
    StripTwice(f.prompts);
    match FamilyOf(e.eventType)
    case SessionFamily =>
      SessionStripped(f.work, f.prompts, e);
      WorkStripped(f, ApplySession(f.work, f.prompts, e));
    case TaskFamily =>
      TaskStripped(f.work, f.prompts, e);
      WorkStripped(f, ApplyTask(f.work, f.prompts, e));
    case PromptFamily => PromptStripped(f.work, f.prompts, e);
    case ChangeFamily | VerificationFamily | CommitFamily | PushFamily => JobsStripped(f.jobs, e);
    case _ =>
  }

  lemma StripTwice(ps: map<string, Prompt>)
    ensures StripPrompts(StripPrompts(ps)) == StripPrompts(ps)
  {
  }

  lemma ApplyStripped(f: Facts, e: Event)
    ensures SameVerdict(Apply(BoundedFacts(f), StripEvent(e)), Apply(f, e))
  {
    hide Dispatch, StripPrompts;
    StripTwice(f.prompts);
    var g := Greet(f, e);
    assert Greet(BoundedFacts(f), StripEvent(e)) == BoundedFacts(g);
    DispatchStripped(g, e);
  }

  /** Facts and events that differ in stripped text only get the same verdict. */
  lemma ApplyAlike(f: Facts, g: Facts, d: Event, e: Event)
    requires BoundedFacts(f) == BoundedFacts(g) && StripEvent(d) == StripEvent(e)
    ensures SameVerdict(Apply(f, d), Apply(g, e))
  {
    hide Apply, BoundedFacts;
    ApplyStripped(f, d);
    ApplyStripped(g, e);
  }

  // ---------------------------------------------------------------- the ledger

  /** Two states that differ in stripped text only. */
  predicate Alike(s: State, t: State) {
    Bounded(s) == Bounded(t)
  }

  /** Every buffered event carries its own digest, so stripping it cannot change its hash. */
  predicate Digested(l: Ledger) {
    forall k :: k in l.pending ==> l.pending[k].digest != ""
  }

  lemma BufferAlike(l: Ledger, m: Ledger)
    requires BoundedLedger(l) == BoundedLedger(m)
    ensures l.pending.Keys == m.pending.Keys
    ensures forall k :: k in l.pending ==> StripEvent(l.pending[k]) == StripEvent(m.pending[k])
    ensures l.receipts == m.receipts && l.idempotency == m.idempotency
    ensures l.lastSequence == m.lastSequence && l.revision == m.revision
  {
    hide StripEvent, StripQuarantine;
    assert BoundedLedger(l).pending == StripPending(l.pending) && BoundedLedger(m).pending == StripPending(m.pending);
    assert StripPending(l.pending).Keys == l.pending.Keys && StripPending(m.pending).Keys == m.pending.Keys;
    forall k | k in l.pending ensures StripEvent(l.pending[k]) == StripEvent(m.pending[k]) {
      assert StripPending(l.pending)[k] == StripPending(m.pending)[k];
    }
  }

  lemma EligibleAlike(l: Ledger, m: Ledger, e: Event)
    requires BoundedLedger(l) == BoundedLedger(m)
    ensures Eligible(l, e) == Eligible(m, e)
    ensures Eligible(l, e) <= l.pending.Keys && Eligible(l, e) <= m.pending.Keys
  {
    BufferAlike(l, m);
    forall k | k in l.pending ensures Selected(l, e, l.pending[k]) == Selected(m, e, m.pending[k]) {
      assert StripEvent(l.pending[k]) == StripEvent(m.pending[k]);
    }
  }

  lemma BlockedAlike(s: State, t: State, d: Event, e: Event)
    requires Alike(s, t) && StripEvent(d) == StripEvent(e)
    ensures Blocked(s, d) == Blocked(t, e)
  {
    hide Alike, Bounded, BoundedFacts, BoundedLedger;
    SplitAlike(s, t);
    BufferAlike(s.ledger, t.ledger);
    assert d.causationId == e.causationId && d.streamId == e.streamId;
    assert d.producerSeq == e.producerSeq && d.capabilities == e.capabilities;
  }

  lemma SplitAlike(s: State, t: State)
    requires Alike(s, t)
    ensures BoundedFacts(s.facts) == BoundedFacts(t.facts) && BoundedLedger(s.ledger) == BoundedLedger(t.ledger)
    ensures s.facts.work == t.facts.work
  {
  }

  lemma JoinAlike(s: State, t: State)
    requires BoundedFacts(s.facts) == BoundedFacts(t.facts) && BoundedLedger(s.ledger) == BoundedLedger(t.ledger)
    ensures Alike(s, t)
  {
  }

  lemma TakeAlike(l: Ledger, m: Ledger, id: string, d: Event, e: Event)
    requires BoundedLedger(l) == BoundedLedger(m) && StripEvent(d) == StripEvent(e) && d.digest != ""
    ensures BoundedLedger(Take(l, id, d)) == BoundedLedger(Take(m, id, e))
  {
    BufferAlike(l, m);
    assert d.digest == e.digest && d.idempotencyKey == e.idempotencyKey;
    assert d.producerSeq == e.producerSeq && d.streamId == e.streamId;
  }

  lemma StripSnoc(qs: seq<Quarantined>, q: Quarantined)
    ensures StripQuarantine(qs + [q]) == StripQuarantine(qs) + [StripEntry(q)]
  {
    hide StripEntry;
  }

  lemma ShelveAlike(l: Ledger, m: Ledger, id: string, d: Event, e: Event, reason: Reason)
    requires BoundedLedger(l) == BoundedLedger(m) && StripEvent(d) == StripEvent(e) && d.digest != ""
    ensures BoundedLedger(Shelve(l, id, d, reason)) == BoundedLedger(Shelve(m, id, e, reason))
  {
    hide StripQuarantine, StripPending;
    assert d.digest == e.digest && d.idempotencyKey == e.idempotencyKey;
    assert l.receipts == m.receipts && l.idempotency == m.idempotency;
    StripSnoc(l.quarantine, Quarantined(d, reason));
    StripSnoc(m.quarantine, Quarantined(e, reason));
  }

  lemma RecordAlike(l: Ledger, m: Ledger, id: string, d: Event, e: Event, reason: Reason, ok: bool)
    requires BoundedLedger(l) == BoundedLedger(m) && StripEvent(d) == StripEvent(e) && d.digest != ""
    ensures BoundedLedger(Record(l, id, d, reason, ok)) == BoundedLedger(Record(m, id, e, reason, ok))
  {
    hide BoundedLedger, StripEvent, Take, Shelve;
    if ok {
      TakeAlike(l, m, id, d, e);
    } else {
      ShelveAlike(l, m, id, d, e, reason);
    }
  }

  lemma DropAlike(l: Ledger, m: Ledger, id: string)
    requires BoundedLedger(l) == BoundedLedger(m)
    ensures BoundedLedger(l.(pending := l.pending - {id})) == BoundedLedger(m.(pending := m.pending - {id}))
  {
    hide StripEvent, StripQuarantine;
    assert StripPending(l.pending - {id}) == StripPending(l.pending) - {id};
    assert StripPending(m.pending - {id}) == StripPending(m.pending) - {id};
  }

  /** Applying and recording look-alike events keeps the states look-alike. */
  lemma SettleAlike(s: State, t: State, id: string, d: Event, e: Event)
    requires Alike(s, t) && StripEvent(d) == StripEvent(e) && d.digest != ""
    ensures var a, b := Apply(s.facts, d), Apply(t.facts, e);
            a.ok == b.ok && a.reason == b.reason &&
            Alike(State(a.result, Record(s.ledger, id, d, a.reason, a.ok)),
                  State(b.result, Record(t.ledger, id, e, b.reason, b.ok)))
  {
    hide Apply, Record, StripEvent, BoundedFacts, BoundedLedger, Bounded, Alike;
    SplitAlike(s, t);
    ApplyAlike(s.facts, t.facts, d, e);
    var a, b := Apply(s.facts, d), Apply(t.facts, e);
    RecordAlike(s.ledger, t.ledger, id, d, e, a.reason, a.ok);
    JoinAlike(State(a.result, Record(s.ledger, id, d, a.reason, a.ok)),
              State(b.result, Record(t.ledger, id, e, b.reason, b.ok)));
  }

  lemma PromoteAlike(s: State, t: State, id: string, reason: Reason)
    requires Alike(s, t) && Digested(s.ledger) && id in s.ledger.pending && id in t.ledger.pending
    ensures Alike(Promote(s, id), Promote(t, id))
    ensures ReasonAfter(s, id, reason) == ReasonAfter(t, id, reason)
  {
    hide Apply, Record, BoundedFacts, BoundedLedger, Bounded, Alike;
    SplitAlike(s, t);
    BufferAlike(s.ledger, t.ledger);
    var l, m := s.ledger.(pending := s.ledger.pending - {id}), t.ledger.(pending := t.ledger.pending - {id});
    DropAlike(s.ledger, t.ledger, id);
    JoinAlike(State(s.facts, l), State(t.facts, m));
    SettleAlike(State(s.facts, l), State(t.facts, m), id, s.ledger.pending[id], t.ledger.pending[id]);
    hide StripEvent;
    ApplyAlike(s.facts, t.facts, s.ledger.pending[id], t.ledger.pending[id]);
  }

  predicate SameProgress(a: Progress, b: Progress) {
    Alike(a.state, b.state) && a.reason == b.reason && a.moved == b.moved
  }

  lemma {:induction false} PassAlike(s: State, t: State, ids: seq<string>, reason: Reason)
    requires Alike(s, t) && Digested(s.ledger) && Distinct(ids)
    requires forall id :: id in ids ==> id in s.ledger.pending && id in t.ledger.pending
    ensures SameProgress(ReplayPass(s, ids, reason), ReplayPass(t, ids, reason))
    decreases |ids|
  {
    hide Promote, ReasonAfter, Blocked, Alike, StripEvent, Apply;
    if ids != [] {
      var id := ids[0];
      assert forall x :: x in ids[1..] ==> x in ids && x != id;
      SplitAlike(s, t);
      BufferAlike(s.ledger, t.ledger);
      BlockedAlike(s, t, s.ledger.pending[id], t.ledger.pending[id]);
      if Blocked(s, s.ledger.pending[id]) {
        PassAlike(s, t, ids[1..], reason);
      } else {
        PromoteAlike(s, t, id, reason);
        PassAlike(Promote(s, id), Promote(t, id), ids[1..], ReasonAfter(s, id, reason));
      }
    }
  }

  lemma {:induction false} ReplayAlike(s: State, t: State, e: Event, reason: Reason)
    requires Alike(s, t) && Digested(s.ledger)
    ensures SameProgress(Replay(s, e, reason), Replay(t, e, reason))
    decreases |s.ledger.pending|
  {
    hide Alike, StripEvent, Eligible, Bounded, BoundedLedger, BoundedFacts, ReplayPass;
    SplitAlike(s, t);
    EligibleAlike(s.ledger, t.ledger, e);
    var ids := Eligible(s.ledger, e);
    if ids != {} {
      var xs := Ascending(ids);
      PassAlike(s, t, xs, reason);
      var a, b := ReplayPass(s, xs, reason), ReplayPass(t, xs, reason);
      if a.moved {
        ReplayAlike(a.state, b.state, e, a.reason);
      }
    }
  }

  // ---------------------------------------------------------------- one delivery

  lemma AdmitAlike(s: State, t: State, e: Event)
    requires Alike(s, t) && Digested(s.ledger)
    ensures Admit(s, e) == Admit(t, e)
  {
    hide Alike, Bounded, BoundedLedger, BoundedFacts, ClassAllows, StripEvent, DigestOf;
    SplitAlike(s, t);
    BufferAlike(s.ledger, t.ledger);
    if e.id in s.ledger.pending {
      SameDigest(s.ledger.pending[e.id], t.ledger.pending[e.id]);
    }
  }

  lemma SameDigest(d: Event, e: Event)
    requires StripEvent(d) == StripEvent(e) && d.digest != ""
    ensures DigestOf(d) == DigestOf(e)
  {
  }

  lemma BufferedAlike(l: Ledger, m: Ledger, e: Event)
    requires BoundedLedger(l) == BoundedLedger(m)
    ensures BoundedLedger(Buffer(l, e)) == BoundedLedger(Buffer(m, e))
  {
    hide StripEvent;
    assert StripPending(l.pending[e.id := e]) == StripPending(l.pending)[e.id := StripEvent(e)];
    assert StripPending(m.pending[e.id := e]) == StripPending(m.pending)[e.id := StripEvent(e)];
  }

  lemma PerformAlike(s: State, t: State, e: Event)
    requires Alike(s, t) && Digested(s.ledger) && e.digest != ""
    ensures Perform(s, e).1 == Perform(t, e).1 && Alike(Perform(s, e).0, Perform(t, e).0)
  {
    hide Apply, Record, Alike, Bounded, BoundedFacts, BoundedLedger, StripEvent, Replay;
    SettleAlike(s, t, e.id, e, e);
    var a, b := Settled(s, e), Settled(t, e);
    SplitAlike(a, b);
    BufferAlike(a.ledger, b.ledger);
    if Apply(s.facts, e).ok {
      var reason := Apply(s.facts, e).reason;
      ReplayAlike(a, b, e, reason);
      var x, y := Replay(a, e, reason).state, Replay(b, e, reason).state;
      SplitAlike(x, y);
      BufferAlike(x.ledger, y.ledger);
    }
  }

  /** Redaction is invisible to the machine: look-alike states answer a delivery alike and
      stay look-alike, through every event type and the whole replay. */
  lemma ReduceAlike(s: State, t: State, raw: Event)
    requires Alike(s, t) && Digested(s.ledger) && raw.digest != ""
    ensures Reduce(s, raw).1 == Reduce(t, raw).1
    ensures Alike(Next(s, raw), Next(t, raw))
  {
    hide Alike, Bounded, BoundedFacts, BoundedLedger, StripEvent, Perform, Admit, Shelve, Buffer;
    var e := Normalize(raw);
    AdmitAlike(s, t, e);
    SplitAlike(s, t);
    BufferAlike(s.ledger, t.ledger);
    match Admit(s, e)
    case WrongClass | OutOfOrder => RefusedAlike(s, t, e, ReasonInvalidTransition);
    case Conflicting => RefusedAlike(s, t, e, ReasonIdempotencyConflict);
    case Early =>
      BufferedAlike(s.ledger, t.ledger, e);
      JoinAlike(State(s.facts, Buffer(s.ledger, e)), State(t.facts, Buffer(t.ledger, e)));
    case Ready => PerformAlike(s, t, e);
    case _ =>
  }

  lemma RefusedAlike(s: State, t: State, e: Event, reason: Reason)
    requires Alike(s, t) && e.digest != ""
    ensures Refused(s, e, reason).1 == Refused(t, e, reason).1
    ensures Alike(Refused(s, e, reason).0, Refused(t, e, reason).0)
  {
    hide Alike, Bounded, BoundedFacts, BoundedLedger, StripEvent;
    SplitAlike(s, t);
    BufferAlike(s.ledger, t.ledger);
    ShelveAlike(s.ledger, t.ledger, e.id, e, e, reason);
    JoinAlike(State(s.facts, Shelve(s.ledger, e.id, e, reason)), State(t.facts, Shelve(t.ledger, e.id, e, reason)));
  }

  // ---------------------------------------------------------------- whole runs

  /** The stored projection after a history: redacted again after every delivery. */
  ghost function StoredRun(s: State, es: seq<Event>): State {
    if es == [] then s else Bounded(Next(StoredRun(s, es[..|es| - 1]), es[|es| - 1]))
  }

  lemma BoundedTwice(s: State)
    ensures Bounded(Bounded(s)) == Bounded(s)
  {
    StripTwice(s.facts.prompts);
    assert StripPending(StripPending(s.ledger.pending)) == StripPending(s.ledger.pending);
    assert StripQuarantine(StripQuarantine(s.ledger.quarantine)) == StripQuarantine(s.ledger.quarantine);
  }

  lemma DigestsArrive(r: string, es: seq<Event>)
    requires forall e :: e in es ==> e.digest != ""
    ensures Digested(Run(NewState(r), es).ledger)
  {
    hide Reduce;
    LogAmong(r, es);
    var l := Run(NewState(r), es).ledger;
    forall k | k in l.pending ensures l.pending[k].digest != "" {
      assert Among(l.pending[k], es);
      var i :| 0 <= i < |es| && l.pending[k] == Normalize(es[i]);
      assert es[i] in es;
    }
  }

  /** A history kept in redacted storage ends in the redaction of the history kept whole, and
      the next delivery is answered the same. */
  lemma {:induction false} StoredRunIsRedactedRun(r: string, es: seq<Event>, e: Event)
    requires forall x :: x in es ==> x.digest != ""
    requires e.digest != ""
    ensures StoredRun(NewState(r), es) == Bounded(Run(NewState(r), es))
    ensures Reduce(StoredRun(NewState(r), es), e).1 == Reduce(Run(NewState(r), es), e).1
  {
    hide Reduce, Bounded, NewState, Digested;
    var s := Run(NewState(r), es);
    if es == [] {
      FreshIsBounded(r);
    } else {
      var n := |es| - 1;
      StoredRunIsRedactedRun(r, es[..n], es[n]);
      BoundedTwice(Run(NewState(r), es[..n]));
      DigestsArrive(r, es[..n]);
      ReduceAlike(Run(NewState(r), es[..n]), StoredRun(NewState(r), es[..n]), es[n]);
    }
    BoundedTwice(s);
    DigestsArrive(r, es);
    ReduceAlike(s, Bounded(s), e);
  }

  lemma FreshIsBounded(r: string)
    ensures Bounded(NewState(r)) == NewState(r)
  {
  }
}
