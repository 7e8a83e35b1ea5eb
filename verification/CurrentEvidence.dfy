/** What one event can touch, and the current-evidence invariant: a passed verification or a
    queued commit always matches its candidate as it is now. */
module CurrentEvidence {
  import opened Names
  import opened Lifecycle

  // ---------------------------------------------------------------- frames

  /** A refused event leaves prompts, candidates, verifications, commits, pushes and the
      policy exactly as they were: all it can do is open the session or mark a task. */
  lemma RefusalFrame(f: Facts, e: Event)
    requires !Apply(f, e).ok
    ensures Apply(f, e).result == f.(work := Apply(f, e).result.work)
  {
    var g := Greet(f, e);
    if !ForeignSession(g.work.session, e) && FamilyOf(e.eventType) == PromptFamily {
      assert ApplyPrompt(g.work, g.prompts, e).result.1 == g.prompts;
    }
  }

  /** The event is turned away because it belongs to another session. */
  predicate Foreign(f: Facts, e: Event) {
    ForeignSession(GreetSession(f.work.session, f.repositoryId, e), e)
  }

  /** What an event does to the jobs, family by family. */
  ghost function JobsVerdict(f: Facts, e: Event): Jobs {
    if Foreign(f, e) then f.jobs
    else
      match FamilyOf(e.eventType)
      case FilesFamily => Invalidate(f.jobs, f.jobs.candidates.Keys)
      case PolicyFamily =>
        if PolicyTakesEffect(f.policy, NextPolicy(f.policy, e.payload))
        then Invalidate(f.jobs, f.jobs.candidates.Keys) else f.jobs
      case ChangeFamily => ApplyChange(f.jobs, e).result
      case VerificationFamily => ApplyVerification(f.jobs, e).result
      case CommitFamily => ApplyCommit(f.jobs, e).result
      case PushFamily => ApplyPush(f.jobs, e).result
      case _ => f.jobs
  }

  /** Only file changes, policy changes and the job families reach the jobs. */
  lemma JobsOf(f: Facts, e: Event)
    ensures Apply(f, e).result.jobs == JobsVerdict(f, e)
    ensures Apply(f, e).ok ==> !Foreign(f, e)
    ensures !Foreign(f, e) ==>
              match FamilyOf(e.eventType)
              case VerificationFamily => Apply(f, e).ok == ApplyVerification(f.jobs, e).ok
              case CommitFamily => Apply(f, e).ok == ApplyCommit(f.jobs, e).ok
              case PushFamily => Apply(f, e).ok == ApplyPush(f.jobs, e).ok
              case _ => true
  {
  }

  lemma CommitLeaves(j: Jobs, e: Event)
    ensures ApplyCommit(j, e).result == j.(commits := ApplyCommit(j, e).result.commits)
  {
  }

  lemma PushLeaves(j: Jobs, e: Event)
    ensures ApplyPush(j, e).result == j.(pushes := ApplyPush(j, e).result.pushes)
  {
  }

  lemma VerificationLeaves(j: Jobs, e: Event)
    ensures ApplyVerification(j, e).result == j.(verifications := ApplyVerification(j, e).result.verifications)
  {
  }

  // ---------------------------------------------------------------- the invariant

  /** Which change each verification id and each commit job id belongs to. */
  datatype Binding = Binding(verification: string -> string, commit: string -> string)

  /** The emitter's habit: an id is only ever used with its own change. */
  predicate Bound(b: Binding, e: Event) {
    && (FamilyOf(e.eventType) == VerificationFamily ==> e.changeId == b.verification(VerificationKey(e)))
    && (FamilyOf(e.eventType) == CommitFamily ==> e.changeId == b.commit(e.payload.commitJobId))
  }

  predicate VerificationCurrent(cs: map<string, Candidate>, v: Verification) {
    v.state == VerificationPassedStatus ==>
      v.reusable && v.candidateId in cs && ExactEvidence(v.evidence, cs[v.candidateId])
  }

  predicate CommitCurrent(cs: map<string, Candidate>, k: Commit) {
    k.state == CommitQueued ==> k.candidateId in cs && ExactCommit(k, cs[k.candidateId])
  }

  ghost predicate Keyed(b: Binding, j: Jobs) {
    && (forall k :: k in j.candidates ==> j.candidates[k].id == k)
    && (forall k :: k in j.verifications ==>
          j.verifications[k].id == k && j.verifications[k].candidateId == b.verification(k))
    && (forall k :: k in j.commits ==> j.commits[k].id == k && j.commits[k].candidateId == b.commit(k))
  }

  /** Every passed verification is reusable and carries its candidate's five digests; every
      queued commit carries them too, and its candidate's message digest. */
  ghost predicate EvidenceCurrent(j: Jobs) {
    && (forall k :: k in j.verifications ==> VerificationCurrent(j.candidates, j.verifications[k]))
    && (forall k :: k in j.commits ==> CommitCurrent(j.candidates, j.commits[k]))
  }

  ghost predicate Sound(b: Binding, j: Jobs) {
    Keyed(b, j) && EvidenceCurrent(j)
  }

  lemma InvalidateSound(b: Binding, j: Jobs, ids: set<string>)
    requires Sound(b, j)
    ensures Sound(b, Invalidate(j, ids))
  {
    var g := Invalidate(j, ids);
    forall k | k in g.verifications ensures VerificationCurrent(g.candidates, g.verifications[k]) {
      assert VerificationCurrent(j.candidates, j.verifications[k]);
    }
    forall k | k in g.commits ensures CommitCurrent(g.candidates, g.commits[k]) {
      assert CommitCurrent(j.candidates, j.commits[k]);
    }
  }

  /** Replacing a candidate is harmless once the evidence of its change is gone. */
  lemma ReplaceDropped(b: Binding, j: Jobs, id: string, after: Candidate)
    requires Sound(b, j) && after.id == id
    ensures Sound(b, Invalidate(j.(candidates := j.candidates[id := after]), {id}))
  {
    var g := Invalidate(j.(candidates := j.candidates[id := after]), {id});
    forall k | k in g.verifications ensures VerificationCurrent(g.candidates, g.verifications[k]) {
      assert VerificationCurrent(j.candidates, j.verifications[k]);
    }
    forall k | k in g.commits ensures CommitCurrent(g.candidates, g.commits[k]) {
      assert CommitCurrent(j.candidates, j.commits[k]);
    }
  }

  /** It is harmless too when no digest that evidence is bound to changes. */
  lemma ReplaceKept(b: Binding, j: Jobs, id: string, after: Candidate)
    requires Sound(b, j) && after.id == id
    requires !DigestsChanged(Find(j.candidates, id, NO_CANDIDATE), after)
    ensures Sound(b, j.(candidates := j.candidates[id := after]))
  {
    var g := j.(candidates := j.candidates[id := after]);
    forall k | k in g.verifications ensures VerificationCurrent(g.candidates, g.verifications[k]) {
      assert VerificationCurrent(j.candidates, j.verifications[k]);
    }
    forall k | k in g.commits ensures CommitCurrent(g.candidates, g.commits[k]) {
      assert CommitCurrent(j.candidates, j.commits[k]);
    }
  }

  lemma ChangeSound(b: Binding, j: Jobs, e: Event)
    requires Sound(b, j)
    ensures Sound(b, ApplyChange(j, e).result)
  {
    if e.changeId != "" {
      var before := Find(j.candidates, e.changeId, NO_CANDIDATE);
      var after := CandidateAfter(before, e);
      assert after.id == e.changeId;
      if DigestsChanged(before, after) || e.eventType == ChangeInvalidated {
        ReplaceDropped(b, j, e.changeId, after);
      } else {
        ReplaceKept(b, j, e.changeId, after);
      }
    }
  }

  lemma PutVerificationSound(b: Binding, j: Jobs, id: string, v: Verification)
    requires Sound(b, j) && VerificationCurrent(j.candidates, v) && v.id == id && v.candidateId == b.verification(id)
    ensures Sound(b, j.(verifications := j.verifications[id := v]))
  {
    var g := j.(verifications := j.verifications[id := v]);
    forall k | k in g.verifications ensures VerificationCurrent(g.candidates, g.verifications[k]) {
      if k != id {
        assert VerificationCurrent(j.candidates, j.verifications[k]);
      }
    }
  }

  lemma VerificationSound(b: Binding, j: Jobs, e: Event)
    requires Sound(b, j) && Bound(b, e) && FamilyOf(e.eventType) == VerificationFamily
    ensures Sound(b, ApplyVerification(j, e).result)
  {
    if ApplyVerification(j, e).ok {
      var v := VerificationFor(j.verifications, e);
      assert v.id == VerificationKey(e) && v.candidateId == e.changeId;
      PutVerificationSound(b, j, VerificationKey(e), VerificationAfter(v, j.candidates[e.changeId], e).value);
    }
  }

  lemma PutCommitSound(b: Binding, j: Jobs, id: string, c: Commit)
    requires Sound(b, j) && CommitCurrent(j.candidates, c) && c.id == id && c.candidateId == b.commit(id)
    ensures Sound(b, j.(commits := j.commits[id := c]))
  {
    var g := j.(commits := j.commits[id := c]);
    forall k | k in g.commits ensures CommitCurrent(g.candidates, g.commits[k]) {
      if k != id {
        assert CommitCurrent(j.candidates, j.commits[k]);
      }
    }
  }

  lemma CommitSound(b: Binding, j: Jobs, e: Event)
    requires Sound(b, j) && Bound(b, e) && FamilyOf(e.eventType) == CommitFamily
    ensures Sound(b, ApplyCommit(j, e).result)
  {
    if ApplyCommit(j, e).ok {
      var c := j.candidates[e.changeId];
      var k := CommitFor(j.commits, c, e);
      assert k.id == e.payload.commitJobId && k.candidateId == e.changeId;
      PutCommitSound(b, j, e.payload.commitJobId, CommitAfter(j.verifications, k, c, e).value);
    }
  }

  lemma PushSound(b: Binding, j: Jobs, e: Event)
    requires Sound(b, j)
    ensures Sound(b, ApplyPush(j, e).result)
  {
    assert ApplyPush(j, e).result == j.(pushes := ApplyPush(j, e).result.pushes);
  }

  /** The current-evidence invariant survives every event, applied or refused. */
  lemma ApplySound(b: Binding, f: Facts, e: Event)
    requires Sound(b, f.jobs) && Bound(b, e)
    ensures Sound(b, Apply(f, e).result.jobs)
  {
    hide Apply, ApplyChange, ApplyVerification, ApplyCommit, ApplyPush, Invalidate, Sound;
    JobsOf(f, e);
    match FamilyOf(e.eventType)
    case FilesFamily | PolicyFamily => InvalidateSound(b, f.jobs, f.jobs.candidates.Keys);
    case ChangeFamily => ChangeSound(b, f.jobs, e);
    case VerificationFamily => VerificationSound(b, f.jobs, e);
    case CommitFamily => CommitSound(b, f.jobs, e);
    case PushFamily => PushSound(b, f.jobs, e);
    case _ =>
  }
}
