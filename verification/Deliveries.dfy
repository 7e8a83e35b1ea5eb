/** What one delivery comes to: which events may say what, when an admitted event is taken, what
    its action stands for, and that delivering it again changes nothing. */
module Deliveries {
  import opened Names
  import opened Lifecycle
  import opened Reducer
  import opened Accounting
  import opened Outcomes
  import Growth

  // ---------------------------------------------------------------- who may say what

  /** What clients report. Everything else is the core's own. */
  predicate Reported(t: EventType) {
    t in {SessionStarted, SessionIdle, SessionEnded, PromptSubmitted, TaskStarted, TaskUpdated, TaskCompleted, TaskFailed,
          ToolStarted, ToolCompleted, FilesChanged, ModelStopped}
  }

  /** A client event says what clients report, a domain event what they do not; a completion may
      come as either. */
  predicate Authorized(e: Event) {
    match e.eventClass
    case Ingress => Reported(e.eventType)
    case Domain => !Reported(e.eventType) || e.eventType == TaskCompleted
    case OtherClass(_) => false
  }

  /** A typed event with an id is quarantined for its class exactly when it is not authorized. */
  lemma AuthorityExactly(s: State, e: Event)
    requires e.id != "" && e.eventType != OtherType("")
    ensures Admit(s, e).WrongClass? <==> !Authorized(e)
  {
    hide DigestOf, AwaitsCause, AlreadyPassed, DeliveryGap;
  }

  /** The older field names stand in where a field was left out, and a class that was left out is
      inferred from the type. */
  lemma NormalizedExactly(e: Event)
    ensures var n := Normalize(e);
            && n == e.(id := n.id, eventType := n.eventType, eventClass := n.eventClass)
            && n.id == (if e.id != "" then e.id else e.idAlias)
            && n.eventType == (if e.eventType != OtherType("") then e.eventType else e.typeAlias)
            && n.eventClass == if e.eventClass != OtherClass("") then e.eventClass
                               else if e.classAlias != OtherClass("") then e.classAlias
                               else if Reported(n.eventType) then Ingress else Domain
  {
  }

  // ---------------------------------------------------------------- an admitted event

  /** No buffered event waits for this one or for its stream. */
  predicate NobodyWaits(l: Ledger, e: Event) {
    forall k :: k in l.pending ==>
      l.pending[k].causationId != e.id && !(l.pending[k].producerSeq.Some? && l.pending[k].streamId == e.streamId)
  }

  /** An admitted event is accepted exactly when `apply` takes it; when nobody waits for it, the
      facts and the reason are what `apply` makes them. */
  lemma AdmittedIsDecided(s: State, raw: Event)
    requires Admit(s, Normalize(raw)).Ready?
    ensures var e := Normalize(raw); var v := Apply(s.facts, e);
            && Reduce(s, raw).1.disposition == (if v.ok then Accepted else Rejected)
            && (!v.ok || NobodyWaits(s.ledger, e) ==> Next(s, raw).facts == v.result && Reduce(s, raw).1.reason == v.reason)
            && (!v.ok || NobodyWaits(s.ledger, e) ==> Next(s, raw).ledger == Record(s.ledger, e.id, e, v.reason, v.ok))
  {
    hide Apply, Normalize, Admit, Record, ReplayPass;
    var e := Normalize(raw);
    var v := Apply(s.facts, e);
    if v.ok && NobodyWaits(s.ledger, e) {
      NobodySelected(s.ledger, Settled(s, e).ledger, e);
    }
  }

  lemma NobodySelected(l: Ledger, m: Ledger, e: Event)
    requires NobodyWaits(l, e) && m.pending == l.pending
    ensures Eligible(m, e) == {}
  {
  }

  /** A new, authorized event without cause and stream number is admitted. */
  lemma PlainIsAdmitted(s: State, e: Event)
    requires e.id != "" && e.eventType != OtherType("") && Authorized(e)
    requires e.id !in Known(s.ledger) && (e.idempotencyKey != "" ==> e.idempotencyKey !in s.ledger.idempotency)
    requires e.causationId == "" && e.producerSeq == None
    ensures Admit(s, e).Ready?
  {
    hide DigestOf;
    AuthorityExactly(s, e);
  }

  // ---------------------------------------------------------------- the action

  /** What an accepted delivery asks of the application, and what it stands for: a commit is asked
      for when a reusable pass has just been recorded with the candidate's digests, a push when a
      commit has just been recorded under its SHA, a verification when one is under way, when a
      change was staged or when evidence was withdrawn, a notice when a push has succeeded or a
      prompt is put. */
  lemma ActionExactly(s: State, raw: Event)
    requires Admit(s, Normalize(raw)).Ready? && Apply(s.facts, Normalize(raw)).ok
    ensures var e, a := Normalize(raw), Reduce(s, raw).1.action;
            var v := Apply(s.facts, e);
            && (a == ActionCommit <==> e.eventType == VerificationPassed)
            && (a == ActionPush <==> e.eventType == CommitCreated)
            && (a == ActionVerify <==> v.reason == ReasonEvidenceInvalidated ||
                                       e.eventType in {ChangeStaged, VerificationRequested, VerificationStarted})
            && (a == ActionAskConsent <==> e.eventType == PolicyConsentRequested)
            && (a == ActionNotify <==> e.eventType in {PushSucceeded, PromptRequested, PromptQueued, PromptPresented})
            && a != ActionBlocked
  {
    hide Apply, Normalize, Admit, Record, Replay, Settled;
    var e := Normalize(raw);
    NeverInvalidates(s.facts, e);
  }

  lemma NeverInvalidates(f: Facts, e: Event)
    ensures Apply(f, e).ok && Apply(f, e).reason == ReasonEvidenceInvalidated ==>
              e.eventType in {FilesChanged, PolicySet, ChangeDetected, ChangeStaged, ChangeInvalidated}
  {
    hide Invalidate, HasBlockingPrompt, CompletionEligible, Min, HasReusableVerification, ValidSha, ValidDigest, ValidRef, ExactCommit,
      PromptEffect, PromptFor, PromptAfter, PromptTask, PushFor, PushConflicts, CommitFor, VerificationFor, CandidateAfter, DigestsChanged;
  }

  lemma CommitIsAskedFor(s: State, raw: Event)
    requires Admit(s, Normalize(raw)).Ready? && Apply(s.facts, Normalize(raw)).ok && Reduce(s, raw).1.action == ActionCommit
    ensures var e := Normalize(raw); var j := Apply(s.facts, e).result.jobs; var k := VerificationName(e);
            e.changeId in j.candidates && Carries(e.payload, j.candidates[e.changeId]) &&
            k in j.verifications && j.verifications[k].reusable && j.verifications[k].state == VerificationPassedStatus &&
            j.verifications[k].evidence == e.payload.evidence
  {
    hide Apply, Normalize, Admit, Reduce, Found, Carries;
    var e := Normalize(raw);
    ActionExactly(s, raw);
    if Local(s.facts.work.session, e) {
      VerificationExactly(s.facts, e);
      FoundKeeps(s.facts, e);
    } else {
      ForeignIsRefused(s.facts, e);
    }
  }

  lemma PushIsAskedFor(s: State, raw: Event)
    requires Admit(s, Normalize(raw)).Ready? && Apply(s.facts, Normalize(raw)).ok && Reduce(s, raw).1.action == ActionPush
    ensures var e := Normalize(raw); var j := Apply(s.facts, e).result.jobs; var k := e.payload.commitJobId;
            k in j.commits && j.commits[k].state == CommitCreatedStatus && j.commits[k].commitSha == e.payload.commitSha &&
            ValidSha(e.payload.commitSha)
  {
    hide Apply, Normalize, Admit, Reduce, Found, Agrees, ValidSha, CommitMet, NamesJob;
    var e := Normalize(raw);
    ActionExactly(s, raw);
    if Local(s.facts.work.session, e) {
      CommitIsCreatedExactly(s.facts, e);
    } else {
      ForeignIsRefused(s.facts, e);
    }
  }

  // ---------------------------------------------------------------- delivered again

  /** A new event delivered twice in a row: the second time nothing changes, and the answer is
      that it is a duplicate if it has settled, and that it is still waiting if it has not. */
  lemma RedeliveryChangesNothing(s: State, raw: Event)
    requires Growth.Orderly(s.ledger) && Growth.Fresh(s.ledger, Normalize(raw)) && Authorized(Normalize(raw))
    ensures var t := Next(s, raw);
            Next(t, raw) == t &&
            Reduce(t, raw).1.disposition == if Normalize(raw).id in t.ledger.receipts then Duplicate else Pending
  {
    hide Reduce, Normalize, Growth.Orderly, Growth.Outcome, DigestOf;
    Growth.DeliveryOutcome(s, raw);
    SettledOrWaiting(s.ledger, Next(s, raw).ledger, Normalize(raw), Reduce(s, raw).1.disposition);
    AgainIsDuplicate(Next(s, raw), raw);
  }

  lemma SettledOrWaiting(l: Ledger, m: Ledger, e: Event, d: Disposition)
    requires Growth.Outcome(l, m, e, d) && Growth.Fresh(l, e)
    ensures (e.id in m.receipts && m.receipts[e.id] == DigestOf(e)) || (e.id !in m.receipts && e.id in m.pending && m.pending[e.id] == e)
    ensures e.id !in m.receipts ==> m.idempotency == l.idempotency
  {
    hide DigestOf, Growth.QuarantinedIds;
  }

  lemma AgainIsDuplicate(t: State, raw: Event)
    requires var e := Normalize(raw);
             e.id != "" && e.eventType != OtherType("") && Authorized(e) &&
             ((e.id in t.ledger.receipts && t.ledger.receipts[e.id] == DigestOf(e)) ||
              (e.id !in t.ledger.receipts && e.id in t.ledger.pending && t.ledger.pending[e.id] == e))
    requires var e := Normalize(raw);
             e.id !in t.ledger.receipts ==> e.idempotencyKey == "" || e.idempotencyKey !in t.ledger.idempotency
    ensures Next(t, raw) == t
    ensures Reduce(t, raw).1.disposition == if Normalize(raw).id in t.ledger.receipts then Duplicate else Pending
  {
    hide Normalize, DigestOf, Perform;
    AuthorityExactly(t, Normalize(raw));
  }

  // ---------------------------------------------------------------- a whole way through

  const NO_PAYLOAD :=
    Payload("", "", "", "", "", false, "", "", "", "", "", NO_EVIDENCE, "", "", "", "", "", "", "", "", "", "", "",
            false, false, false, false, "")

  /** A domain event of one change, with an id of its own. */
  function Fact(id: string, t: EventType, change: string, p: Payload): Event {
    Event(id, t, Domain, "", OtherType(""), OtherClass(""), "", "", change, "", "", "", None, NO_CAPABILITIES, p, id, "")
  }

  predicate Quiet(l: Ledger) {
    l.pending == map[] && l.idempotency == map[]
  }

  lemma FactIsTaken(s: State, id: string, t: EventType, change: string, p: Payload)
    requires Quiet(s.ledger) && id != "" && id !in s.ledger.receipts && t != OtherType("") && !Reported(t)
    ensures var e := Fact(id, t, change, p);
            && Next(s, e).facts == Apply(s.facts, e).result && Quiet(Next(s, e).ledger)
            && Next(s, e).ledger.receipts.Keys == s.ledger.receipts.Keys + {id}
            && Reduce(s, e).1.disposition == (if Apply(s.facts, e).ok then Accepted else Rejected)
  {
    hide Apply, Reduce, Admit;
    var e := Fact(id, t, change, p);
    assert Normalize(e) == e by { NormalizedExactly(e); }
    PlainIsAdmitted(s, e);
    AdmittedIsDecided(s, e);
  }

  function ChangeSeen(d: Evidence, m: string): Event {
    Fact("e1", ChangeDetected, "c1", NO_PAYLOAD.(evidence := d, messageDigest := m))
  }

  function PassSeen(d: Evidence): Event {
    Fact("e2", VerificationPassed, "c1", NO_PAYLOAD.(evidence := d))
  }

  function CommitAsked(): Event {
    Fact("e3", CommitRequested, "c1", NO_PAYLOAD.(commitJobId := "j1"))
  }

  function CommitMade(sha: string): Event {
    Fact("e4", CommitCreated, "c1", NO_PAYLOAD.(commitJobId := "j1", commitSha := sha))
  }

  function PushAsked(sha: string, remote: string, ref: string): Event {
    Fact("e5", PushRequested, "c1", NO_PAYLOAD.(pushJobId := "p1", commitSha := sha, remoteDigest := remote, ref := ref))
  }

  /** A candidate with all its digests, a pass of just these, the request, the commit, the push. */
  function Journey(d: Evidence, m: string, sha: string, remote: string, ref: string): seq<Event> {
    [ChangeSeen(d, m), PassSeen(d), CommitAsked(), CommitMade(sha), PushAsked(sha, remote, ref)]
  }

  predicate Whole(d: Evidence, m: string) {
    d.candidate != "" && d.base != "" && d.policy != "" && d.verifier != "" && d.guard != "" && m != ""
  }

  function AfterChange(r: string, d: Evidence, m: string): Facts {
    NewFacts(r).(jobs := Jobs(map["c1" := Candidate("c1", "", ChangeDetectedStatus, d, "", "", m, false)], map[], map[], map[]))
  }

  function AfterPass(r: string, d: Evidence, m: string): Facts {
    var f := AfterChange(r, d, m);
    f.(jobs := f.jobs.(verifications := map["e2" := Verification("e2", "c1", d, "", VerificationPassedStatus, true)]))
  }

  function AfterRequest(r: string, d: Evidence, m: string): Facts {
    var f := AfterPass(r, d, m);
    f.(jobs := f.jobs.(commits := map["j1" := Commit("j1", "c1", d, m, "", CommitQueued)]))
  }

  function AfterCommit(r: string, d: Evidence, m: string, sha: string): Facts {
    var f := AfterPass(r, d, m);
    f.(jobs := f.jobs.(commits := map["j1" := Commit("j1", "c1", d, m, sha, CommitCreatedStatus)]))
  }

  lemma FoundIsSame(f: Facts, e: Event)
    requires f.work.session == NO_SESSION && e.sessionId == "" && e.capabilities == NO_CAPABILITIES
    ensures Found(f, e) == f && Local(f.work.session, e)
  {
  }

  lemma ChangeIsTaken(r: string, d: Evidence, m: string)
    ensures Apply(NewFacts(r), ChangeSeen(d, m)).result == AfterChange(r, d, m)
  {
    hide Apply, Found, Withdrawn;
    var f, e := NewFacts(r), ChangeSeen(d, m);
    FoundIsSame(f, e);
    ChangeExactly(f, e);
    var k := Apply(f, e).result.jobs;
    WithdrawnFromNothing(f.jobs, k, {});
  }

  lemma WithdrawnFromNothing(j: Jobs, k: Jobs, ids: set<string>)
    requires Withdrawn(j, k, ids) && j.verifications == map[] && j.commits == map[]
    ensures k.verifications == map[] && k.commits == map[] && k.pushes == j.pushes
  {
    assert k.verifications.Keys == {} && k.commits.Keys == {};
  }

  lemma PassIsTaken(r: string, d: Evidence, m: string)
    requires Whole(d, m)
    ensures Apply(AfterChange(r, d, m), PassSeen(d)).result == AfterPass(r, d, m)
  {
    hide Apply, Found;
    var f, e := AfterChange(r, d, m), PassSeen(d);
    FoundIsSame(f, e);
    VerificationExactly(f, e);
    assert Carries(e.payload, f.jobs.candidates["c1"]);
  }

  lemma RequestIsTaken(r: string, d: Evidence, m: string)
    requires Whole(d, m)
    ensures Apply(AfterPass(r, d, m), CommitAsked()) == Verdict(AfterRequest(r, d, m), ReasonAccepted, true)
  {
    hide Apply, Found;
    var f, e := AfterPass(r, d, m), CommitAsked();
    FoundIsSame(f, e);
    CommitIsQueuedExactly(f, e);
    assert Confirms(f.jobs.verifications["e2"], f.jobs.candidates["c1"]);
  }

  lemma CommitIsTaken(r: string, d: Evidence, m: string, sha: string)
    requires Whole(d, m) && ValidSha(sha)
    ensures Apply(AfterRequest(r, d, m), CommitMade(sha)).result == AfterCommit(r, d, m, sha)
  {
    hide Apply, Found, ValidSha;
    var f, e := AfterRequest(r, d, m), CommitMade(sha);
    FoundIsSame(f, e);
    CommitIsCreatedExactly(f, e);
    var now := Commit("j1", "c1", d, m, sha, CommitCreatedStatus);
    assert f.jobs.commits["j1" := now] == map["j1" := now];
  }

  lemma PushIsTaken(r: string, d: Evidence, m: string, sha: string, remote: string, ref: string)
    requires Whole(d, m) && ValidSha(sha) && ValidDigest(remote) && SafeRef(ref)
    ensures Apply(AfterCommit(r, d, m, sha), PushAsked(sha, remote, ref)).result.jobs.pushes ==
            map["p1" := Push("p1", "j1", remote, ref, sha, PushQueued, false)]
  {
    hide Apply, Found, ValidSha, ValidDigest, SafeRef;
    var f, e := AfterCommit(r, d, m, sha), PushAsked(sha, remote, ref);
    FoundIsSame(f, e);
    PushIsQueuedExactly(f, e);
    assert HasCreated(f.jobs.commits, sha) by { assert f.jobs.commits["j1"].commitSha == sha; }
  }

  lemma DistinctIds()
    ensures "e2" !in {"e1"} && "e3" !in {"e1", "e2"} && "e4" !in {"e1", "e2", "e3"} && "e5" !in {"e1", "e2", "e3", "e4"}
  {
    assert "e1"[1] != "e2"[1] && "e1"[1] != "e3"[1] && "e2"[1] != "e3"[1] && "e1"[1] != "e4"[1] && "e2"[1] != "e4"[1];
    assert "e3"[1] != "e4"[1] && "e5"[1] != "e1"[1] && "e5"[1] != "e2"[1] && "e5"[1] != "e3"[1] && "e5"[1] != "e4"[1];
  }

  /** After the events so far: these facts, these receipts, nothing waiting. */
  predicate Stands(s: State, f: Facts, ids: set<string>) {
    s.facts == f && s.ledger.receipts.Keys == ids && Quiet(s.ledger)
  }

  lemma StepTaken(s: State, ids: set<string>, e: Event)
    requires Stands(s, s.facts, ids) && e.id != "" && e.id !in ids && !Reported(e.eventType) && e.eventType != OtherType("")
    requires e == Fact(e.id, e.eventType, e.changeId, e.payload)
    ensures Stands(Next(s, e), Apply(s.facts, e).result, ids + {e.id})
  {
    hide Apply, Reduce;
    FactIsTaken(s, e.id, e.eventType, e.changeId, e.payload);
  }

  lemma ThroughPass(r: string, d: Evidence, m: string)
    requires Whole(d, m)
    ensures Stands(Next(Next(NewState(r), ChangeSeen(d, m)), PassSeen(d)), AfterPass(r, d, m), {"e1", "e2"})
  {
    hide Apply, Reduce, AfterPass, AfterChange;
    DistinctIds();
    ChangeIsTaken(r, d, m);
    assert Stands(NewState(r), NewFacts(r), {});
    StepTaken(NewState(r), {}, ChangeSeen(d, m));
    PassIsTaken(r, d, m);
    StepTaken(Next(NewState(r), ChangeSeen(d, m)), {"e1"}, PassSeen(d));
    assert {"e1"} + {"e2"} == {"e1", "e2"};
  }

  lemma ThroughCommit(s: State, r: string, d: Evidence, m: string, sha: string)
    requires Whole(d, m) && ValidSha(sha) && Stands(s, AfterPass(r, d, m), {"e1", "e2"})
    ensures Next(s, CommitAsked()).facts == AfterRequest(r, d, m) && Reduce(s, CommitAsked()).1.disposition == Accepted
    ensures Stands(Next(Next(s, CommitAsked()), CommitMade(sha)), AfterCommit(r, d, m, sha), {"e1", "e2", "e3", "e4"})
  {
    hide Apply, Reduce, AfterPass, AfterRequest, AfterCommit, ValidSha;
    DistinctIds();
    RequestIsTaken(r, d, m);
    StepTaken(s, {"e1", "e2"}, CommitAsked());
    FactIsTaken(s, "e3", CommitRequested, "c1", NO_PAYLOAD.(commitJobId := "j1"));
    assert {"e1", "e2"} + {"e3"} == {"e1", "e2", "e3"};
    CommitIsTaken(r, d, m, sha);
    StepTaken(Next(s, CommitAsked()), {"e1", "e2", "e3"}, CommitMade(sha));
    assert {"e1", "e2", "e3"} + {"e4"} == {"e1", "e2", "e3", "e4"};
  }

  lemma JourneyIs(s: State, d: Evidence, m: string, sha: string, remote: string, ref: string)
    ensures var es := Journey(d, m, sha, remote, ref);
            var t := Next(Next(s, ChangeSeen(d, m)), PassSeen(d));
            && Run(s, es[..3]) == Next(t, CommitAsked())
            && Run(s, es[..4]) == Next(Next(t, CommitAsked()), CommitMade(sha))
            && Run(s, es) == Next(Next(Next(t, CommitAsked()), CommitMade(sha)), PushAsked(sha, remote, ref))
  {
    hide Run, Reduce;
    var es := Journey(d, m, sha, remote, ref);
    NothingDelivered(s, es);
    RunOne(s, es, 0);
    RunOne(s, es, 1);
    RunOne(s, es, 2);
    RunOne(s, es, 3);
    RunOne(s, es, 4);
    assert es[..5] == es;
  }

  lemma NothingDelivered(s: State, es: seq<Event>)
    ensures Run(s, es[..0]) == s
  {
    hide Reduce;
  }

  /** From a new state the way leads through: the pass makes the request a queued job, the commit
      makes that a created one, and the created one makes the push a queued one. */
  lemma TheWayLeadsThrough(r: string, d: Evidence, m: string, sha: string, remote: string, ref: string)
    requires Whole(d, m) && ValidSha(sha) && ValidDigest(remote) && SafeRef(ref)
    ensures var es := Journey(d, m, sha, remote, ref);
            && Run(NewState(r), es[..3]).facts.jobs.commits == map["j1" := Commit("j1", "c1", d, m, "", CommitQueued)]
            && Run(NewState(r), es[..4]).facts.jobs.commits == map["j1" := Commit("j1", "c1", d, m, sha, CommitCreatedStatus)]
            && Run(NewState(r), es).facts.jobs.pushes == map["p1" := Push("p1", "j1", remote, ref, sha, PushQueued, false)]
  {
    hide Run, Apply, Reduce, ValidSha, ValidDigest, SafeRef, Journey;
    var t := Next(Next(NewState(r), ChangeSeen(d, m)), PassSeen(d));
    JourneyIs(NewState(r), d, m, sha, remote, ref);
    ThroughPass(r, d, m);
    ThroughCommit(t, r, d, m, sha);
    var u := Next(Next(t, CommitAsked()), CommitMade(sha));
    PushIsTaken(r, d, m, sha, remote, ref);
    DistinctIds();
    StepTaken(u, {"e1", "e2", "e3", "e4"}, PushAsked(sha, remote, ref));
  }
}
