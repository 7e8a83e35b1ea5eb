/** Verification freshness over whole histories: a queued commit rests on an earlier passed
    verification of the same change with the same digests, and nothing since has invalidated
    that change. */
module Freshness {
  import opened Names
  import opened Lifecycle
  import opened Reducer
  import opened History
  import opened CurrentEvidence

  // ---------------------------------------------------------------- what one event does

  /** Applied to `f`, the event withdraws the evidence of this change. */
  ghost predicate Invalidates(f: Facts, e: Event, change: string) {
    && !Foreign(f, e)
    && match FamilyOf(e.eventType)
       case FilesFamily => change in f.jobs.candidates
       case PolicyFamily => change in f.jobs.candidates && PolicyTakesEffect(f.policy, NextPolicy(f.policy, e.payload))
       case ChangeFamily =>
         var before := Find(f.jobs.candidates, change, NO_CANDIDATE);
         e.changeId == change && change != "" &&
         (e.eventType == ChangeInvalidated || DigestsChanged(before, CandidateAfter(before, e)))
       case _ => false
  }

  /** Applied to `f`, the event records a pass of this verification. */
  ghost predicate Passes(f: Facts, e: Event, id: string, change: string, evidence: Evidence) {
    Apply(f, e).ok && e.eventType == VerificationPassed && VerificationKey(e) == id &&
    e.changeId == change && e.payload.evidence == evidence
  }

  /** Applied to `f`, the event records something about this verification. */
  ghost predicate Restates(f: Facts, e: Event, id: string) {
    Apply(f, e).ok && FamilyOf(e.eventType) == VerificationFamily && VerificationKey(e) == id
  }

  /** Applied to `f`, the event queues this commit job, on the strength of verification `v`. */
  ghost predicate Queues(f: Facts, e: Event, id: string, change: string, evidence: Evidence, v: string) {
    && Apply(f, e).ok && e.eventType == CommitRequested && e.payload.commitJobId == id && e.changeId == change
    && v in f.jobs.verifications && f.jobs.verifications[v].state == VerificationPassedStatus
    && f.jobs.verifications[v].candidateId == change && f.jobs.verifications[v].evidence == evidence
  }

  ghost predicate KeptVerification(f: Facts, e: Event, id: string, v: Verification) {
    id in f.jobs.verifications && f.jobs.verifications[id] == v &&
    !Invalidates(f, e, v.candidateId) && !Restates(f, e, id)
  }

  lemma InvalidatedNotPassed(j: Jobs, ids: set<string>, k: string)
    requires k in j.verifications && Invalidate(j, ids).verifications[k].state == VerificationPassedStatus
    ensures Invalidate(j, ids).verifications[k] == j.verifications[k] && j.verifications[k].candidateId !in ids
  {
  }

  lemma InvalidatedNotQueued(j: Jobs, ids: set<string>, k: string)
    requires k in j.commits && Invalidate(j, ids).commits[k].state == CommitQueued
    ensures Invalidate(j, ids).commits[k] == j.commits[k] && j.commits[k].candidateId !in ids
  {
  }

  /** A change event either withdraws its own change's evidence or leaves all evidence alone. */
  lemma ChangeStep(f: Facts, e: Event)
    requires FamilyOf(e.eventType) == ChangeFamily && !Foreign(f, e)
    ensures var j := ApplyChange(f.jobs, e).result;
            if Invalidates(f, e, e.changeId)
            then j == Invalidate(f.jobs, {e.changeId}).(candidates := j.candidates)
            else j == f.jobs.(candidates := j.candidates)
    ensures forall c :: Invalidates(f, e, c) ==> c == e.changeId
  {
    hide Invalidate;
    if e.changeId != "" {
      var after := CandidateAfter(Find(f.jobs.candidates, e.changeId, NO_CANDIDATE), e);
      InvalidateIgnoresCandidates(f.jobs, f.jobs.candidates[e.changeId := after], {e.changeId});
    }
  }

  lemma InvalidateIgnoresCandidates(j: Jobs, cs: map<string, Candidate>, ids: set<string>)
    ensures Invalidate(j.(candidates := cs), ids) == Invalidate(j, ids).(candidates := cs)
  {
  }

  lemma PassedByVerification(b: Binding, f: Facts, e: Event, id: string)
    requires Sound(b, f.jobs) && Bound(b, e) && FamilyOf(e.eventType) == VerificationFamily
    requires Apply(f, e).ok == ApplyVerification(f.jobs, e).ok
    requires id in ApplyVerification(f.jobs, e).result.verifications
    requires ApplyVerification(f.jobs, e).result.verifications[id].state == VerificationPassedStatus
    ensures var v := ApplyVerification(f.jobs, e).result.verifications[id];
            KeptVerification(f, e, id, v) || Passes(f, e, id, v.candidateId, v.evidence)
  {
    hide Apply;
  }

  /** A passed verification was passed before and not invalidated now, or passed just now. */
  lemma PassedStep(b: Binding, f: Facts, e: Event, id: string)
    requires Sound(b, f.jobs) && Bound(b, e)
    requires id in Apply(f, e).result.jobs.verifications
    requires Apply(f, e).result.jobs.verifications[id].state == VerificationPassedStatus
    ensures var v := Apply(f, e).result.jobs.verifications[id];
            KeptVerification(f, e, id, v) || Passes(f, e, id, v.candidateId, v.evidence)
  {
    hide Apply, ApplyChange, ApplyVerification, ApplyCommit, ApplyPush, Sound;
    JobsOf(f, e);
    match FamilyOf(e.eventType)
    case FilesFamily | PolicyFamily =>
      if Apply(f, e).result.jobs == Invalidate(f.jobs, f.jobs.candidates.Keys) {
        InvalidatedNotPassed(f.jobs, f.jobs.candidates.Keys, id);
      }
    case ChangeFamily =>
      if !Foreign(f, e) {
        ChangeStep(f, e);
        if Invalidates(f, e, e.changeId) {
          InvalidatedNotPassed(f.jobs, {e.changeId}, id);
        }
      }
    case VerificationFamily =>
      if !Foreign(f, e) {
        PassedByVerification(b, f, e, id);
      }
    case CommitFamily =>
      assert ApplyCommit(f.jobs, e).result.verifications == f.jobs.verifications by { CommitLeaves(f.jobs, e); }
    case PushFamily =>
      assert ApplyPush(f.jobs, e).result.verifications == f.jobs.verifications by { PushLeaves(f.jobs, e); }
    case _ =>
  }

  ghost predicate KeptCommit(f: Facts, e: Event, id: string, k: Commit) {
    id in f.jobs.commits && f.jobs.commits[id] == k && !Invalidates(f, e, k.candidateId)
  }

  ghost predicate QueuedNow(f: Facts, e: Event, id: string, k: Commit) {
    exists v :: Queues(f, e, id, k.candidateId, k.evidence, v)
  }

  lemma QueuedByCommit(b: Binding, f: Facts, e: Event, id: string)
    requires Sound(b, f.jobs) && Bound(b, e) && FamilyOf(e.eventType) == CommitFamily
    requires Apply(f, e).ok == ApplyCommit(f.jobs, e).ok
    requires id in ApplyCommit(f.jobs, e).result.commits && ApplyCommit(f.jobs, e).result.commits[id].state == CommitQueued
    ensures var k := ApplyCommit(f.jobs, e).result.commits[id];
            KeptCommit(f, e, id, k) || QueuedNow(f, e, id, k)
  {
    hide Apply;
    var r := ApplyCommit(f.jobs, e);
    if r.ok && id == e.payload.commitJobId {
      var c := f.jobs.candidates[e.changeId];
      var k := CommitFor(f.jobs.commits, c, e);
      if e.eventType == CommitRequested {
        var v :| v in f.jobs.verifications && Supports(f.jobs.verifications[v], c, k);
        assert Queues(f, e, id, r.result.commits[id].candidateId, r.result.commits[id].evidence, v);
      }
    }
  }

  /** A queued commit was queued before and its change not invalidated now, or queued just now. */
  lemma QueuedStep(b: Binding, f: Facts, e: Event, id: string)
    requires Sound(b, f.jobs) && Bound(b, e)
    requires id in Apply(f, e).result.jobs.commits && Apply(f, e).result.jobs.commits[id].state == CommitQueued
    ensures var k := Apply(f, e).result.jobs.commits[id]; KeptCommit(f, e, id, k) || QueuedNow(f, e, id, k)
  {
    hide Apply, ApplyChange, ApplyVerification, ApplyCommit, ApplyPush, Sound;
    JobsOf(f, e);
    match FamilyOf(e.eventType)
    case FilesFamily | PolicyFamily =>
      if Apply(f, e).result.jobs == Invalidate(f.jobs, f.jobs.candidates.Keys) {
        InvalidatedNotQueued(f.jobs, f.jobs.candidates.Keys, id);
      }
    case ChangeFamily =>
      if !Foreign(f, e) {
        ChangeStep(f, e);
        if Invalidates(f, e, e.changeId) {
          InvalidatedNotQueued(f.jobs, {e.changeId}, id);
        }
      }
    case CommitFamily =>
      if !Foreign(f, e) {
        QueuedByCommit(b, f, e, id);
      }
    case VerificationFamily =>
      assert ApplyVerification(f.jobs, e).result.commits == f.jobs.commits by { VerificationLeaves(f.jobs, e); }
    case PushFamily => PushLeaves(f.jobs, e);
    case _ =>
  }

  // ---------------------------------------------------------------- whole logs

  /** The facts just before position `i` of a log that starts from a new repository. */
  ghost function Before(repositoryId: string, log: seq<Event>, i: nat): Facts
    requires i <= |log|
  {
    RunFacts(NewFacts(repositoryId), log[..i])
  }

  ghost predicate PassedAt(r: string, log: seq<Event>, i: nat, id: string, change: string, evidence: Evidence) {
    i < |log| && Passes(Before(r, log, i), log[i], id, change, evidence)
  }

  ghost predicate QueuedAt(r: string, log: seq<Event>, k: nat, id: string, change: string, evidence: Evidence) {
    k < |log| && exists v :: Queues(Before(r, log, k), log[k], id, change, evidence, v)
  }

  /** Between the two positions nothing invalidated the change. */
  ghost predicate Undisturbed(r: string, log: seq<Event>, i: nat, n: nat, change: string) {
    n <= |log| && forall m :: i < m < n ==> !Invalidates(Before(r, log, m), log[m], change)
  }

  /** Between the two positions nothing else was recorded about the verification. */
  ghost predicate Unrestated(r: string, log: seq<Event>, i: nat, n: nat, id: string) {
    n <= |log| && forall m :: i < m < n ==> !Restates(Before(r, log, m), log[m], id)
  }

  /** A verification passed at some point, and since then stands untouched up to `n`. */
  ghost predicate StandsAt(r: string, log: seq<Event>, i: nat, n: nat, id: string, change: string, evidence: Evidence) {
    PassedAt(r, log, i, id, change, evidence) && i < n && Undisturbed(r, log, i, n, change) && Unrestated(r, log, i, n, id)
  }

  /** The job was queued at `k` on a verification that passed at `i`, stood untouched until
      then, and whose change has not been invalidated from `i` to the end of the log. */
  ghost predicate QueuedFresh(r: string, log: seq<Event>, i: nat, k: nat, id: string, change: string, evidence: Evidence) {
    && QueuedAt(r, log, k, id, change, evidence)
    && (exists v :: StandsAt(r, log, i, k, v, change, evidence))
    && Undisturbed(r, log, i, |log|, change)
  }

  ghost predicate VerificationTraced(r: string, log: seq<Event>, id: string, v: Verification) {
    v.state == VerificationPassedStatus ==> exists i :: StandsAt(r, log, i, |log|, id, v.candidateId, v.evidence)
  }

  ghost predicate CommitTraced(r: string, log: seq<Event>, id: string, k: Commit) {
    k.state == CommitQueued ==> exists i, n :: QueuedFresh(r, log, i, n, id, k.candidateId, k.evidence)
  }

  ghost predicate Traced(r: string, log: seq<Event>) {
    var j := RunFacts(NewFacts(r), log).jobs;
    && (forall id :: id in j.verifications ==> VerificationTraced(r, log, id, j.verifications[id]))
    && (forall id :: id in j.commits ==> CommitTraced(r, log, id, j.commits[id]))
  }

  lemma Earlier(r: string, log: seq<Event>, e: Event)
    ensures forall i :: 0 <= i <= |log| ==> Before(r, log + [e], i) == Before(r, log, i)
    ensures forall i :: 0 <= i < |log| ==> (log + [e])[i] == log[i]
  {
    forall i | 0 <= i <= |log| ensures (log + [e])[..i] == log[..i] {
    }
  }

  lemma StandsLater(r: string, log: seq<Event>, e: Event, i: nat, n: nat, id: string, change: string, evidence: Evidence)
    requires StandsAt(r, log, i, n, id, change, evidence)
    ensures StandsAt(r, log + [e], i, n, id, change, evidence)
  {
    hide Apply, Invalidates, Passes, Restates, Before;
    Earlier(r, log, e);
  }

  lemma UndisturbedLater(r: string, log: seq<Event>, e: Event, i: nat, change: string)
    requires Undisturbed(r, log, i, |log|, change)
    requires !Invalidates(RunFacts(NewFacts(r), log), e, change)
    ensures Undisturbed(r, log + [e], i, |log| + 1, change)
  {
    hide Apply, Invalidates, Before;
    Earlier(r, log, e);
    Whole(r, log, e);
  }

  lemma Whole(r: string, log: seq<Event>, e: Event)
    ensures Before(r, log + [e], |log|) == RunFacts(NewFacts(r), log)
  {
    assert (log + [e])[..|log|] == log;
  }

  lemma StandsOn(r: string, log: seq<Event>, e: Event, i: nat, id: string, v: Verification)
    requires StandsAt(r, log, i, |log|, id, v.candidateId, v.evidence)
    requires KeptVerification(RunFacts(NewFacts(r), log), e, id, v)
    ensures StandsAt(r, log + [e], i, |log| + 1, id, v.candidateId, v.evidence)
  {
    hide Apply, Invalidates, Passes, Restates, Before;
    StandsLater(r, log, e, i, |log|, id, v.candidateId, v.evidence);
    UndisturbedLater(r, log, e, i, v.candidateId);
    Whole(r, log, e);
  }

  lemma VerificationTraceStep(b: Binding, r: string, log: seq<Event>, e: Event, id: string)
    requires Sound(b, RunFacts(NewFacts(r), log).jobs) && Bound(b, e) && Traced(r, log)
    requires id in RunFacts(NewFacts(r), log + [e]).jobs.verifications
    ensures VerificationTraced(r, log + [e], id, RunFacts(NewFacts(r), log + [e]).jobs.verifications[id])
  {
    hide Apply, Sound, Bound, Invalidates, Passes, Restates, CommitTraced, Before;
    var f, n := RunFacts(NewFacts(r), log), |log|;
    RunFactsSnoc(NewFacts(r), log, e);
    var v := Apply(f, e).result.jobs.verifications[id];
    if v.state == VerificationPassedStatus {
      PassedStep(b, f, e, id);
      if KeptVerification(f, e, id, v) {
        assert VerificationTraced(r, log, id, v);
        var i :| StandsAt(r, log, i, n, id, v.candidateId, v.evidence);
        StandsOn(r, log, e, i, id, v);
      } else {
        Whole(r, log, e);
        assert StandsAt(r, log + [e], n, n + 1, id, v.candidateId, v.evidence);
      }
    }
  }

  /** A queued job stays fresh while its change is not invalidated. */
  lemma QueuedFreshKept(r: string, log: seq<Event>, e: Event, id: string, k: Commit)
    requires k.state == CommitQueued && CommitTraced(r, log, id, k)
    requires !Invalidates(RunFacts(NewFacts(r), log), e, k.candidateId)
    ensures CommitTraced(r, log + [e], id, k)
  {
    hide Apply, Invalidates, Queues, StandsAt, Before, Undisturbed;
    Earlier(r, log, e);
    var i, m :| QueuedFresh(r, log, i, m, id, k.candidateId, k.evidence);
    var v :| StandsAt(r, log, i, m, v, k.candidateId, k.evidence);
    StandsLater(r, log, e, i, m, v, k.candidateId, k.evidence);
    UndisturbedLater(r, log, e, i, k.candidateId);
    assert QueuedFresh(r, log + [e], i, m, id, k.candidateId, k.evidence);
  }

  /** A job queued on a standing verification is fresh. */
  lemma QueuedFreshNow(r: string, log: seq<Event>, e: Event, id: string, k: Commit, v: string)
    requires Queues(RunFacts(NewFacts(r), log), e, id, k.candidateId, k.evidence, v)
    requires VerificationTraced(r, log, v, RunFacts(NewFacts(r), log).jobs.verifications[v])
    ensures CommitTraced(r, log + [e], id, k)
  {
    hide Apply, Invalidates, Before, RunFacts, Passes, Restates, PassedAt, Unrestated;
    var f, n := RunFacts(NewFacts(r), log), |log|;
    var i :| StandsAt(r, log, i, n, v, k.candidateId, k.evidence);
    StandsLater(r, log, e, i, n, v, k.candidateId, k.evidence);
    NotByCommit(f, e, k.candidateId);
    UndisturbedLater(r, log, e, i, k.candidateId);
    Whole(r, log, e);
    assert QueuedFresh(r, log + [e], i, n, id, k.candidateId, k.evidence);
  }

  lemma CommitTraceStep(b: Binding, r: string, log: seq<Event>, e: Event, id: string)
    requires Sound(b, RunFacts(NewFacts(r), log).jobs) && Bound(b, e) && Traced(r, log)
    requires id in RunFacts(NewFacts(r), log + [e]).jobs.commits
    ensures CommitTraced(r, log + [e], id, RunFacts(NewFacts(r), log + [e]).jobs.commits[id])
  {
    hide Apply, Sound, Bound, Invalidates, VerificationTraced, QueuedFresh, Before;
    var f := RunFacts(NewFacts(r), log);
    RunFactsSnoc(NewFacts(r), log, e);
    var k := Apply(f, e).result.jobs.commits[id];
    if k.state == CommitQueued {
      QueuedStep(b, f, e, id);
      if KeptCommit(f, e, id, k) {
        QueuedFreshKept(r, log, e, id, k);
      } else {
        var v :| Queues(f, e, id, k.candidateId, k.evidence, v);
        QueuedFreshNow(r, log, e, id, k, v);
      }
    }
  }

  lemma NotByCommit(f: Facts, e: Event, change: string)
    requires e.eventType == CommitRequested
    ensures !Invalidates(f, e, change)
  {
  }

  ghost predicate WellBound(b: Binding, log: seq<Event>) {
    forall e :: e in log ==> Bound(b, e)
  }

  /** In every state a well-bound log can reach, evidence is current and traced. */
  lemma {:induction false} LogSound(b: Binding, r: string, log: seq<Event>)
    requires WellBound(b, log)
    ensures Sound(b, RunFacts(NewFacts(r), log).jobs)
    ensures Traced(r, log)
  {
    hide Apply, Bound, VerificationTraced, CommitTraced;
    if log != [] {
      var n := |log| - 1;
      var init, e := log[..n], log[n];
      assert log == init + [e];
      LogSound(b, r, init);
      RunFactsSnoc(NewFacts(r), init, e);
      ApplySound(b, RunFacts(NewFacts(r), init), e);
      var j := RunFacts(NewFacts(r), log).jobs;
      forall id | id in j.verifications ensures VerificationTraced(r, log, id, j.verifications[id]) {
        VerificationTraceStep(b, r, init, e, id);
      }
      forall id | id in j.commits ensures CommitTraced(r, log, id, j.commits[id]) {
        CommitTraceStep(b, r, init, e, id);
      }
    }
  }

  // ---------------------------------------------------------------- whole runs

  /** No verification id and no commit job id is ever used with two changes. */
  ghost predicate Consistent(es: seq<Event>) {
    forall i, j :: 0 <= i < |es| && 0 <= j < |es| ==> Compatible(Normalize(es[i]), Normalize(es[j]))
  }

  predicate Compatible(d: Event, e: Event) {
    && (SameVerification(d, e) ==> d.changeId == e.changeId)
    && (SameCommit(d, e) ==> d.changeId == e.changeId)
  }

  predicate SameVerification(d: Event, e: Event) {
    UsesVerification(d, VerificationKey(e)) && UsesVerification(e, VerificationKey(e))
  }

  predicate SameCommit(d: Event, e: Event) {
    UsesCommit(d, e.payload.commitJobId) && UsesCommit(e, e.payload.commitJobId)
  }

  predicate UsesVerification(e: Event, id: string) {
    FamilyOf(e.eventType) == VerificationFamily && VerificationKey(e) == id
  }

  predicate UsesCommit(e: Event, id: string) {
    FamilyOf(e.eventType) == CommitFamily && e.payload.commitJobId == id
  }

  ghost function VerificationChange(es: seq<Event>, id: string): string {
    if exists i :: 0 <= i < |es| && UsesVerification(Normalize(es[i]), id)
    then var i :| 0 <= i < |es| && UsesVerification(Normalize(es[i]), id); Normalize(es[i]).changeId else ""
  }

  ghost function CommitChange(es: seq<Event>, id: string): string {
    if exists i :: 0 <= i < |es| && UsesCommit(Normalize(es[i]), id)
    then var i :| 0 <= i < |es| && UsesCommit(Normalize(es[i]), id); Normalize(es[i]).changeId else ""
  }

  lemma ConsistentIsBound(es: seq<Event>, e: Event)
    requires Consistent(es) && Among(e, es)
    ensures Bound(Binding(id => VerificationChange(es, id), id => CommitChange(es, id)), e)
  {
    hide Normalize;
    var i :| 0 <= i < |es| && e == Normalize(es[i]);
    if FamilyOf(e.eventType) == VerificationFamily {
      assert UsesVerification(Normalize(es[i]), VerificationKey(e));
    }
    if FamilyOf(e.eventType) == CommitFamily {
      assert UsesCommit(Normalize(es[i]), e.payload.commitJobId);
    }
  }

  /** Whatever was delivered, in whatever order, buffered or not: in the state reached every
      passed verification and queued commit matches its candidate's current digests; each
      passed verification was applied as such and stands; and each queued commit was queued on
      a verification that had passed for the same change and digests, with no invalidation of
      that change from the pass to now. */
  lemma QueuedCommitsAreFresh(r: string, es: seq<Event>)
    requires Consistent(es)
    ensures var s := Run(NewState(r), es);
            EvidenceCurrent(s.facts.jobs) && Traced(r, Log(NewState(r), es)) &&
            s.facts == RunFacts(NewFacts(r), Log(NewState(r), es))
  {
    hide Reduce, Bound, Consistent;
    var b := Binding(id => VerificationChange(es, id), id => CommitChange(es, id));
    var log := Log(NewState(r), es);
    LogAmong(r, es);
    forall e | e in log ensures Bound(b, e) {
      ConsistentIsBound(es, e);
    }
    LogSound(b, r, log);
    RunIsLog(NewState(r), es);
  }
}
