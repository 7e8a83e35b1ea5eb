/** The reducer as the program runs it: one mutable projection, updated in place by the
    `apply` family, the map loops and the nested replay loop. Every method is tied to the
    value-level meaning in `Lifecycle` and `Reducer`; the map loops visit keys in any order. */
module LiveState {
  import opened Names
  import opened Lifecycle
  import opened Reducer

  lemma InvalidateTwice(j: Jobs, a: set<string>, b: set<string>)
    ensures Invalidate(Invalidate(j, a), b) == Invalidate(j, a + b)
  {
  }

  lemma InvalidateNone(j: Jobs)
    ensures Invalidate(j, {}) == j
  {
  }

  class Projection {
    const repositoryId: string
    var policy: Policy
    var session: Session
    var tasks: map<string, Task>
    var prompts: map<string, Prompt>
    var candidates: map<string, Candidate>
    var verifications: map<string, Verification>
    var commits: map<string, Commit>
    var pushes: map<string, Push>
    var revision: int
    var receipts: map<string, string>
    var idempotency: map<string, string>
    var pending: map<string, Event>
    var quarantine: seq<Quarantined>
    var lastSequence: map<string, int>

    ghost function WorkHeld(): Work
      reads this`session, this`tasks
    {
      Work(session, tasks)
    }

    ghost function JobsHeld(): Jobs
      reads this`candidates, this`verifications, this`commits, this`pushes
    {
      Jobs(candidates, verifications, commits, pushes)
    }

    /** The facts now held. */
    ghost function Held(): Facts
      reads this
    {
      Facts(repositoryId, policy, WorkHeld(), prompts, JobsHeld())
    }

    ghost function LedgerHeld(): Ledger
      reads this`revision, this`receipts, this`idempotency, this`pending, this`quarantine, this`lastSequence
    {
      Ledger(revision, receipts, idempotency, pending, quarantine, lastSequence)
    }

    /** The whole state now held. */
    ghost function Now(): State
      reads this
    {
      State(Held(), LedgerHeld())
    }

    constructor (repositoryId: string)
      ensures Now() == NewState(repositoryId)
    {
      this.repositoryId := repositoryId;
      policy, session := NO_POLICY, NO_SESSION;
      tasks, prompts, candidates := map[], map[], map[];
      verifications, commits, pushes := map[], map[], map[];
      revision, receipts, idempotency, pending := 0, map[], map[], map[];
      quarantine, lastSequence := [], map[];
    }

    /** A projection read back from storage. */
    constructor Load(s: State)
      ensures Now() == s
    {
      this.repositoryId := s.facts.repositoryId;
      policy, session, tasks, prompts := s.facts.policy, s.facts.work.session, s.facts.work.tasks, s.facts.prompts;
      candidates, verifications := s.facts.jobs.candidates, s.facts.jobs.verifications;
      commits, pushes := s.facts.jobs.commits, s.facts.jobs.pushes;
      revision, receipts, idempotency := s.ledger.revision, s.ledger.receipts, s.ledger.idempotency;
      pending, quarantine, lastSequence := s.ledger.pending, s.ledger.quarantine, s.ledger.lastSequence;
    }

    method Snapshot() returns (s: State)
      ensures s == Now()
    {
      s := State(Facts(repositoryId, policy, Work(session, tasks), prompts, Jobs(candidates, verifications, commits, pushes)),
                 Ledger(revision, receipts, idempotency, pending, quarantine, lastSequence));
    }

    // -------------------------------------------------------------- evidence

    method DropVerifications(candidateId: string)
      modifies this`verifications
      ensures verifications == InvalidateVerifications(old(verifications), {candidateId})
    {
      ghost var was := verifications;
      var todo := verifications.Keys;
      while todo != {}
        invariant todo <= was.Keys && verifications.Keys == was.Keys
        invariant forall k :: k in was ==>
          verifications[k] == if k in todo then was[k] else InvalidateVerifications(was, {candidateId})[k]
        decreases |todo|
      {
        var id :| id in todo;
        var v := verifications[id];
        if v.candidateId == candidateId {
          verifications := verifications[id := v.(reusable := false, state := VerificationInvalidatedStatus)];
        }
        todo := todo - {id};
      }
    }

    method DropCommits(candidateId: string)
      modifies this`commits
      ensures commits == InvalidateCommits(old(commits), {candidateId})
    {
      ghost var was := commits;
      var todo := commits.Keys;
      while todo != {}
        invariant todo <= was.Keys && commits.Keys == was.Keys
        invariant forall k :: k in was ==>
          commits[k] == if k in todo then was[k] else InvalidateCommits(was, {candidateId})[k]
        decreases |todo|
      {
        var id :| id in todo;
        var c := commits[id];
        if c.candidateId == candidateId && c.state != CommitCreatedStatus {
          commits := commits[id := c.(state := CommitReconcileRequired)];
        }
        todo := todo - {id};
      }
    }

    method InvalidateEvidence(candidateId: string)
      modifies this`verifications, this`commits
      ensures JobsHeld() == Invalidate(old(JobsHeld()), {candidateId})
    {
      DropVerifications(candidateId);
      DropCommits(candidateId);
    }

    method InvalidateAll()
      modifies this`verifications, this`commits
      ensures JobsHeld() == Invalidate(old(JobsHeld()), old(candidates.Keys))
    {
      InvalidateNone(JobsHeld());
      var todo := candidates.Keys;
      ghost var done: set<string> := {};
      while todo != {}
        invariant done + todo == old(candidates.Keys) && done !! todo
        invariant JobsHeld() == Invalidate(old(JobsHeld()), done)
        decreases |todo|
      {
        var id :| id in todo;
        InvalidateEvidence(id);
        InvalidateTwice(old(JobsHeld()), done, {id});
        done := done + {id};
        todo := todo - {id};
      }
      assert done == old(candidates.Keys);
    }

    // -------------------------------------------------------------- queries

    method BlockingPrompt(taskId: string) returns (found: bool)
      ensures found <==> HasBlockingPrompt(prompts, taskId)
    {
      var todo := prompts.Keys;
      while todo != {}
        invariant todo <= prompts.Keys
        invariant forall k :: k in prompts && k !in todo ==> !Blocks(prompts[k], taskId)
        decreases |todo|
      {
        var id :| id in todo;
        if Blocks(prompts[id], taskId) {
          return true;
        }
        todo := todo - {id};
      }
      return false;
    }

    method Completable(t: Task) returns (yes: bool)
      ensures yes <==> CompletionEligible(session, prompts, t)
    {
      if !t.completionCandidate || t.activeTools > 0 {
        return false;
      }
      var todo := prompts.Keys;
      while todo != {}
        invariant todo <= prompts.Keys
        invariant forall k :: k in prompts && k !in todo ==> !HoldsCompletion(prompts[k], t.id)
        decreases |todo|
      {
        var id :| id in todo;
        if HoldsCompletion(prompts[id], t.id) {
          return false;
        }
        todo := todo - {id};
      }
      return session.capabilities.queueState == "native" || session.capabilities.queueState == "none";
    }

    method ReusableVerification(c: Candidate, job: Commit) returns (found: bool)
      ensures found <==> HasReusableVerification(verifications, c, job)
    {
      var todo := verifications.Keys;
      while todo != {}
        invariant todo <= verifications.Keys
        invariant forall k :: k in verifications && k !in todo ==> !Supports(verifications[k], c, job)
        decreases |todo|
      {
        var id :| id in todo;
        if Supports(verifications[id], c, job) {
          return true;
        }
        todo := todo - {id};
      }
      return false;
    }

    /** The least key of a created commit with this SHA, if there is one. */
    method CreatedCommit(sha: string) returns (r: Option<string>)
      ensures r == if CreatedCommits(commits, sha) == {} then None else Some(Min(CreatedCommits(commits, sha)))
    {
      r := None;
      var todo := commits.Keys;
      while todo != {}
        invariant todo <= commits.Keys
        invariant r.None? ==> CreatedCommits(commits, sha) <= todo
        invariant r.Some? ==> r.value in CreatedCommits(commits, sha)
        invariant r.Some? ==> forall k :: k in CreatedCommits(commits, sha) && k !in todo ==> Leq(r.value, k)
        decreases |todo|
      {
        var id :| id in todo;
        todo := todo - {id};
        if commits[id].state == CommitCreatedStatus && commits[id].commitSha == sha {
          assert id in CreatedCommits(commits, sha);
          LeqTotal(id, id);
          if r.None? {
            r := Some(id);
          } else {
            LeqTotal(id, r.value);
            if Leq(id, r.value) {
              forall k | k in CreatedCommits(commits, sha) && k !in todo ensures Leq(id, k) {
                if k != id { LeqTransitive(id, r.value, k); }
              }
              r := Some(id);
            }
          }
        }
      }
      if r.Some? {
        LeqAntisymmetric(r.value, Min(CreatedCommits(commits, sha)));
      }
    }

    // -------------------------------------------------------------- apply, by family

    method ApplyFiles() returns (reason: Reason, ok: bool)
      modifies this`verifications, this`commits, this`tasks
      ensures Verdict(Held(), reason, ok) == ApplyFilesChanged(old(Held()))
    {
      InvalidateAll();
      ghost var ts := tasks;
      var todo := tasks.Keys;
      while todo != {}
        modifies this`tasks
        invariant todo <= ts.Keys && tasks.Keys == ts.Keys
        invariant forall k :: k in ts ==> tasks[k] == if k in todo then ts[k] else WithdrawCompletion(ts[k])
        decreases |todo|
      {
        var id :| id in todo;
        var t := tasks[id].(completionCandidate := false);
        if t.state == TaskCompletionCandidateStatus {
          t := t.(state := TaskActive);
        }
        tasks := tasks[id := t];
        todo := todo - {id};
      }
      assert tasks == WithdrawAll(ts);
      ok := true;
      reason := if candidates != map[] then ReasonEvidenceInvalidated else ReasonAccepted;
    }

    method ApplyPolicy(p: Payload) returns (reason: Reason, ok: bool)
      modifies this`policy, this`verifications, this`commits
      ensures Verdict(Held(), reason, ok) == ApplyPolicySet(old(Held()), p)
    {
      var was := policy;
      policy := policy.(decision := p.outcome, visibility := p.visibility, workflow := p.status);
      policy := policy.(localOnly := p.localOnly);
      policy := policy.(publicConsent := p.publicConsent || (p.visibility == "public" && p.explicitComplete));
      policy := policy.(digest := p.evidence.policy, revision := policy.revision + 1);
      assert policy == NextPolicy(was, p);
      if PolicyTakesEffect(was, policy) {
        InvalidateAll();
        return ReasonEvidenceInvalidated, true;
      }
      return ReasonAccepted, true;
    }

    method ApplySessionEvent(e: Event) returns (reason: Reason, ok: bool)
      modifies this`session, this`tasks
      ensures Verdict(WorkHeld(), reason, ok) == ApplySession(old(WorkHeld()), prompts, e)
    {
      reason, ok := ReasonAccepted, true;
      match e.eventType
      case SessionStarted =>
        session := session.(state := SessionActive, baselineHead := e.payload.baselineHead,
                            baselineIndex := e.payload.baselineIndex, statusDigest := e.payload.statusDigest,
                            baselinePathsDigest := e.payload.baselinePathsDigest);
        if e.taskId != "" {
          var t := TaskRecord(e.taskId);
          t := t.(state := TaskActive);
          tasks := tasks[t.id := t];
        }
      case SessionIdle =>
        if session.state == SessionEndedStatus || session.state == SessionCrashedStatus {
          return ReasonInvalidTransition, false;
        }
        var held := BlockingPrompt("");
        session := session.(state := if session.activeTools > 0 || held then SessionWaitingPrompt else SessionSettling);
        session := session.(settlingUntil := SETTLE_UNTIL);
      case ModelStopped =>
        if session.state == SessionEndedStatus {
          return ReasonInvalidTransition, false;
        }
        var held := BlockingPrompt("");
        if session.activeTools > 0 || held {
          session := session.(state := SessionWaitingPrompt);
        } else {
          session := session.(state := SessionSettling, settlingUntil := SETTLE_UNTIL);
        }
        reason := ReasonWeakStop;
      case SessionEnded => session := session.(state := SessionEndedStatus);
      case SessionCrashed => session := session.(state := SessionCrashedStatus);
      case SessionRecovered =>
        if session.state != SessionCrashedStatus {
          return ReasonInvalidTransition, false;
        }
        session := session.(state := SessionActive);
      case _ => return ReasonInvalidTransition, false;
    }

    method TaskRecord(taskId: string) returns (t: Task)
      ensures t == TaskFor(WorkHeld(), taskId)
    {
      var id := taskId;
      if id == "" {
        id := "synthetic-task";
      }
      if id in tasks {
        return tasks[id];
      }
      return Task(id, session.id, TaskCreated, 0, false, false);
    }

    method ApplyToolEvent(e: Event) returns (reason: Reason, ok: bool)
      modifies this`session, this`tasks
      ensures Verdict(WorkHeld(), reason, ok) == ApplyTool(old(WorkHeld()), e)
    {
      if e.taskId !in tasks {
        return ReasonInvalidTransition, false;
      }
      var t := tasks[e.taskId];
      if e.eventType == ToolStarted {
        t := t.(activeTools := t.activeTools + 1);
        session := session.(activeTools := session.activeTools + 1);
      }
      if e.eventType == ToolCompleted && t.activeTools > 0 {
        t := t.(activeTools := t.activeTools - 1);
        if session.activeTools > 0 {
          session := session.(activeTools := session.activeTools - 1);
        }
      }
      tasks := tasks[t.id := t];
      return ReasonAccepted, true;
    }

    method ApplyCompletion(e: Event) returns (reason: Reason, ok: bool)
      modifies this`session, this`tasks
      ensures Verdict(WorkHeld(), reason, ok) == ApplyTaskCompleted(old(WorkHeld()), prompts, e)
    {
      if e.taskId !in tasks {
        return ReasonInvalidTransition, false;
      }
      var t := tasks[e.taskId].(completionClaim := true);
      tasks := tasks[t.id := t];
      ghost var claimed := tasks;
      assert forall u: Task :: u.id == t.id ==> claimed[u.id := u] == old(tasks)[u.id := u];
      if e.eventClass != Domain {
        var held := BlockingPrompt(t.id);
        if t.activeTools > 0 || held {
          t := t.(state := TaskWaitingPrompt);
          tasks := tasks[t.id := t];
          session := session.(state := SessionWaitingPrompt);
        } else {
          session := session.(state := SessionSettling, settlingUntil := SETTLE_UNTIL);
        }
        return ReasonWeakCompletion, true;
      }
      var eligible := Completable(t);
      if !eligible {
        return ReasonInvalidTransition, false;
      }
      t := t.(state := TaskCompletedStatus);
      tasks := tasks[t.id := t];
      return ReasonAccepted, true;
    }

    method ApplyTaskEvent(e: Event) returns (reason: Reason, ok: bool)
      modifies this`session, this`tasks
      ensures Verdict(WorkHeld(), reason, ok) == ApplyTask(old(WorkHeld()), prompts, e)
    {
      reason, ok := ReasonAccepted, true;
      match e.eventType
      case TaskStarted =>
        var t := TaskRecord(e.taskId);
        t := t.(state := TaskActive);
        tasks := tasks[t.id := t];
        session := session.(state := SessionActive);
      case TaskUpdated | ToolStarted | ToolCompleted => reason, ok := ApplyToolEvent(e);
      case TaskCompleted => reason, ok := ApplyCompletion(e);
      case TaskCompletionCandidate =>
        if e.taskId !in tasks {
          return ReasonInvalidTransition, false;
        }
        var t := tasks[e.taskId];
        var held := BlockingPrompt(t.id);
        if !t.completionClaim || t.activeTools > 0 || held {
          return ReasonInvalidTransition, false;
        }
        t := t.(completionCandidate := true, state := TaskCompletionCandidateStatus);
        tasks := tasks[t.id := t];
        session := session.(state := SessionCompletionCandidate);
      case TaskFailed =>
        if e.taskId !in tasks {
          return ReasonInvalidTransition, false;
        }
        var t := tasks[e.taskId].(state := TaskFailedStatus);
        tasks := tasks[t.id := t];
      case TaskCancelled =>
        if e.taskId !in tasks {
          return ReasonInvalidTransition, false;
        }
        var t := tasks[e.taskId].(state := TaskCancelledStatus);
        tasks := tasks[t.id := t];
      case _ => return ReasonInvalidTransition, false;
    }

    method ApplyPromptEvent(e: Event) returns (reason: Reason, ok: bool)
      modifies this`session, this`tasks, this`prompts
      ensures Verdict((WorkHeld(), prompts), reason, ok) == ApplyPrompt(old(WorkHeld()), old(prompts), e)
    {
      var id := e.payload.promptId;
      if id == "" {
        return ReasonInvalidTransition, false;
      }
      var taskId := OwnTask(e.taskId);
      var known := id in prompts && prompts[id].id != "";
      if !known && e.eventType == PromptAnswered {
        return ReasonInvalidTransition, false;
      }
      var p := PromptRecord(e, taskId);
      if e.eventType == PromptAnswered && !PromptOpen(p.state) {
        return ReasonInvalidTransition, false;
      }
      p := PromptAfter(p, e);
      prompts := prompts[id := p];
      PromptMoves(p);
      return ReasonAccepted, true;
    }

    method OwnTask(taskId: string) returns (id: string)
      modifies this`tasks
      ensures (WorkHeld(), id) == PromptTask(old(WorkHeld()), taskId)
    {
      id := taskId;
      if taskId == "" {
        var t := TaskRecord(taskId);
        if t.state == TaskCreated {
          t := t.(state := TaskActive);
          tasks := tasks[t.id := t];
        }
        id := t.id;
      }
    }

    method PromptRecord(e: Event, taskId: string) returns (p: Prompt)
      ensures p == PromptFor(prompts, e, taskId)
    {
      p := Find(prompts, e.payload.promptId, NO_PROMPT);
      if p.id == "" {
        p := Prompt(e.payload.promptId, taskId, e.payload.promptKind, PromptRequestedStatus, e.payload.blocking, "");
      }
      if p.taskId == "" {
        p := p.(taskId := taskId);
      }
      if p.kind == "" {
        p := p.(kind := e.payload.promptKind);
      }
    }

    method PromptMoves(p: Prompt)
      modifies this`tasks, this`session
      ensures WorkHeld() == PromptEffect(old(WorkHeld()), p)
    {
      if p.taskId in tasks && p.blocking {
        var t := tasks[p.taskId].(completionCandidate := false);
        if PromptOpen(p.state) {
          t := t.(state := TaskWaitingPrompt);
          session := session.(state := SessionWaitingPrompt);
          tasks := tasks[t.id := t];
        } else if p.state != PromptUnset {
          if t.state == TaskWaitingPrompt {
            t := t.(state := TaskActive);
          }
          if session.state == SessionWaitingPrompt {
            session := session.(state := SessionActive);
          }
          tasks := tasks[t.id := t];
        }
      }
    }

    method ApplyChangeEvent(e: Event) returns (reason: Reason, ok: bool)
      modifies this`candidates, this`verifications, this`commits
      ensures Verdict(JobsHeld(), reason, ok) == ApplyChange(old(JobsHeld()), e)
    {
      var id := e.changeId;
      if id == "" {
        return ReasonInvalidTransition, false;
      }
      var before := Find(candidates, id, NO_CANDIDATE);
      var c := CandidateRecord(before, e);
      var changed := DigestsChanged(before, c);
      candidates := candidates[id := c];
      if changed || e.eventType == ChangeInvalidated {
        InvalidateEvidence(id);
        return ReasonEvidenceInvalidated, true;
      }
      return ReasonAccepted, true;
    }

    method CandidateRecord(before: Candidate, e: Event) returns (c: Candidate)
      ensures c == CandidateAfter(before, e)
    {
      c := before;
      if c.id == "" {
        c := c.(id := e.changeId, taskId := e.taskId);
      }
      c := c.(evidence := e.payload.evidence, treeDigest := e.payload.treeDigest, indexDigest := e.payload.indexDigest);
      c := c.(messageDigest := e.payload.messageDigest, ambiguous := e.payload.ambiguous);
      match e.eventType {
        case ChangeDetected =>
          c := c.(state := ChangeDetectedStatus);
          if c.ambiguous {
            c := c.(state := ChangeAmbiguous);
          }
        case ChangeStaged => c := c.(state := ChangeStagedStatus);
        case ChangeInvalidated => c := c.(state := ChangeInvalidatedStatus);
        case _ =>
      }
    }

    method ApplyVerificationEvent(e: Event) returns (reason: Reason, ok: bool)
      modifies this`verifications
      ensures Verdict(JobsHeld(), reason, ok) == ApplyVerification(old(JobsHeld()), e)
    {
      if e.changeId !in candidates {
        return ReasonInvalidTransition, false;
      }
      var v := VerificationRecord(e);
      match VerificationAfter(v, candidates[e.changeId], e) {
        case No(why) => return why, false;
        case Yes(w) =>
          verifications := verifications[VerificationKey(e) := w];
          return ReasonAccepted, true;
      }
    }

    method VerificationRecord(e: Event) returns (v: Verification)
      ensures v == VerificationFor(verifications, e)
    {
      var id := e.payload.verificationId;
      if id == "" {
        id := e.id;
      }
      v := Find(verifications, id, NO_VERIFICATION);
      if v.id == "" {
        v := Verification(id, e.changeId, NO_EVIDENCE, "", VerificationUnset, false);
      }
      v := v.(evidence := e.payload.evidence, evidenceDigest := e.payload.evidenceDigest);
    }

    method ApplyCommitEvent(e: Event) returns (reason: Reason, ok: bool)
      modifies this`commits
      ensures Verdict(JobsHeld(), reason, ok) == ApplyCommit(old(JobsHeld()), e)
    {
      var id := e.payload.commitJobId;
      if id == "" || e.changeId !in candidates {
        return ReasonInvalidTransition, false;
      }
      var c := candidates[e.changeId];
      if e.payload.evidence.candidate != "" && e.payload.evidence.candidate != c.evidence.candidate {
        return ReasonInvalidTransition, false;
      }
      var j := CommitRecord(e);
      var d := DecideCommit(j, c, e);
      match d {
        case No(why) => return why, false;
        case Yes(k) =>
          commits := commits[id := k];
          return ReasonAccepted, true;
      }
    }

    method CommitRecord(e: Event) returns (j: Commit)
      requires e.changeId in candidates
      ensures j == CommitFor(commits, candidates[e.changeId], e)
    {
      var c := candidates[e.changeId];
      j := Find(commits, e.payload.commitJobId, NO_COMMIT);
      if j.id == "" {
        j := Commit(e.payload.commitJobId, e.changeId, NO_EVIDENCE, "", "", CommitUnset);
      }
      j := j.(evidence := FillEvidence(e.payload.evidence, c), messageDigest := e.payload.messageDigest);
      if j.messageDigest == "" {
        j := j.(messageDigest := c.messageDigest);
      }
    }

    method DecideCommit(j: Commit, c: Candidate, e: Event) returns (d: Decision<Commit>)
      ensures d == CommitAfter(verifications, j, c, e)
    {
      match e.eventType
      case CommitRequested =>
        if !ExactCommit(j, c) {
          return No(ReasonInvalidTransition);
        }
        var found := ReusableVerification(c, j);
        if !found {
          return No(ReasonWaitingForVerification);
        }
        return Yes(j.(state := CommitQueued));
      case CommitCreated | CommitReconciled =>
        if j.state == CommitUnset || !ExactCommit(j, c) {
          return No(ReasonInvalidTransition);
        }
        var k := j.(commitSha := e.payload.commitSha);
        if !ValidSha(k.commitSha) {
          return No(ReasonInvalidTransition);
        }
        return Yes(k.(state := CommitCreatedStatus));
      case CommitFailed => return Yes(j.(state := CommitFailedStatus));
      case _ => return Yes(j);
    }

    method ApplyPushEvent(e: Event) returns (reason: Reason, ok: bool)
      modifies this`pushes
      ensures Verdict(JobsHeld(), reason, ok) == ApplyPush(old(JobsHeld()), e)
    {
      var id := e.payload.pushJobId;
      if id == "" {
        return ReasonInvalidTransition, false;
      }
      if PushConflicts(Find(pushes, id, NO_PUSH), e) {
        return ReasonInvalidTransition, false;
      }
      var p := PushRecord(e);
      if !ValidSha(p.commitSha) {
        return ReasonInvalidTransition, false;
      }
      var d := DecidePush(p, e);
      match d {
        case No(why) => return why, false;
        case Yes(q) =>
          pushes := pushes[id := q];
          return ReasonAccepted, true;
      }
    }

    method PushRecord(e: Event) returns (p: Push)
      ensures p == PushFor(pushes, e)
    {
      p := Find(pushes, e.payload.pushJobId, NO_PUSH);
      if p.id == "" {
        p := Push(e.payload.pushJobId, e.payload.commitJobId, e.payload.remoteDigest, e.payload.ref,
                  e.payload.commitSha, PushUnset, e.payload.localOnly);
      }
      if p.commitSha == "" {
        p := p.(commitSha := e.payload.commitSha);
      }
    }

    method DecidePush(p: Push, e: Event) returns (d: Decision<Push>)
      ensures d == PushAfter(commits, p, e)
    {
      match e.eventType
      case PushRequested =>
        if !ValidDigest(p.remoteDigest) || !ValidRef(p.ref) {
          return No(ReasonInvalidTransition);
        }
        var found := CreatedCommit(p.commitSha);
        if found.None? {
          return No(ReasonInvalidTransition);
        }
        var q := p;
        if q.commitId == "" {
          q := q.(commitId := commits[found.value].id);
        }
        return Yes(q.(state := PushQueued));
      case PushSucceeded =>
        if p.state == PushUnset || p.commitSha != e.payload.commitSha {
          return No(ReasonInvalidTransition);
        }
        return Yes(p.(state := PushSucceededStatus));
      case PushFailed =>
        var q := p.(state := PushRetryWait);
        if BlockingError(e.payload.errorCode) {
          q := q.(state := PushBlockedStatus);
        }
        return Yes(q);
      case _ =>
        return Yes(p.(state := PushSkippedLocal, localOnly := true));
    }

    method ApplyJobsEvent(e: Event) returns (reason: Reason, ok: bool)
      modifies this`candidates, this`verifications, this`commits, this`pushes
      ensures Verdict(JobsHeld(), reason, ok) == ApplyJobs(old(JobsHeld()), e)
    {
      match FamilyOf(e.eventType)
      case ChangeFamily => reason, ok := ApplyChangeEvent(e);
      case VerificationFamily => reason, ok := ApplyVerificationEvent(e);
      case CommitFamily => reason, ok := ApplyCommitEvent(e);
      case PushFamily => reason, ok := ApplyPushEvent(e);
      case _ => reason, ok := ReasonInvalidTransition, false;
    }

    method DispatchEvent(e: Event) returns (reason: Reason, ok: bool)
      modifies this`policy, this`session, this`tasks, this`prompts,
               this`candidates, this`verifications, this`commits, this`pushes
      ensures Verdict(Held(), reason, ok) == Dispatch(old(Held()), e)
    {
      match FamilyOf(e.eventType)
      case NoteFamily => reason, ok := ReasonAccepted, true;
      case FilesFamily => reason, ok := ApplyFiles();
      case PolicyFamily => reason, ok := ApplyPolicy(e.payload);
      case SessionFamily => reason, ok := ApplySessionEvent(e);
      case TaskFamily => reason, ok := ApplyTaskEvent(e);
      case PromptFamily => reason, ok := ApplyPromptEvent(e);
      case UnknownFamily => reason, ok := ReasonInvalidTransition, false;
      case _ => reason, ok := ApplyJobsEvent(e);
    }

    method GreetEvent(e: Event)
      modifies this`session
      ensures session == GreetSession(old(session), repositoryId, e)
    {
      if session.id == "" && e.sessionId != "" {
        session := NO_SESSION.(id := e.sessionId, repositoryId := repositoryId, state := SessionCreated);
      }
      if e.capabilities != NO_CAPABILITIES && session.capabilities == NO_CAPABILITIES {
        session := session.(capabilities := e.capabilities);
      }
    }

    /** `apply`: open the session, refuse a foreign one, then act on the event's family. */
    method ApplyEvent(e: Event) returns (reason: Reason, ok: bool)
      modifies this`policy, this`session, this`tasks, this`prompts,
               this`candidates, this`verifications, this`commits, this`pushes
      ensures Verdict(Held(), reason, ok) == Apply(old(Held()), e)
    {
      GreetEvent(e);
      assert Held() == Greet(old(Held()), e);
      if e.sessionId != "" && session.id != "" && e.sessionId != session.id {
        return ReasonInvalidTransition, false;
      }
      reason, ok := DispatchEvent(e);
    }

    // -------------------------------------------------------------- reduce

    method Digest(e: Event) returns (d: string)
      ensures d == DigestOf(e)
    {
      if e.digest != "" {
        return e.digest;
      }
      return e.contentHash;
    }

    method RecordApplied(id: string, e: Event)
      modifies this`receipts, this`idempotency, this`lastSequence, this`revision
      ensures LedgerHeld() == Take(old(LedgerHeld()), id, e)
    {
      var d := Digest(e);
      receipts := receipts[id := d];
      if e.idempotencyKey != "" {
        idempotency := idempotency[e.idempotencyKey := d];
      }
      if e.producerSeq.Some? && e.producerSeq.value > Find(lastSequence, e.streamId, 0) {
        lastSequence := lastSequence[e.streamId := e.producerSeq.value];
      }
      revision := revision + 1;
    }

    method Quarantine(id: string, e: Event, reason: Reason)
      modifies this`quarantine, this`receipts, this`idempotency, this`revision
      ensures LedgerHeld() == Shelve(old(LedgerHeld()), id, e, reason)
    {
      quarantine := quarantine + [Quarantined(e, reason)];
      var d := Digest(e);
      receipts := receipts[id := d];
      if e.idempotencyKey != "" {
        if e.idempotencyKey !in idempotency {
          idempotency := idempotency[e.idempotencyKey := d];
        }
      }
      revision := revision + 1;
    }

    /** The checks made before an event is applied. */
    method Check(e: Event) returns (a: Admission)
      ensures a == Admit(Now(), e)
    {
      if e.id == "" || e.eventType == OtherType("") {
        return Malformed;
      }
      if !ClassAllows(e.eventClass, e.eventType) {
        return WrongClass;
      }
      var d := Digest(e);
      if e.id in receipts {
        return if receipts[e.id] == d then Repeated else Conflicting;
      }
      if e.idempotencyKey != "" && e.idempotencyKey in idempotency {
        return if idempotency[e.idempotencyKey] == d then Repeated else Conflicting;
      }
      if e.id in pending {
        var prior := Digest(pending[e.id]);
        return if prior == d then StillPending else Conflicting;
      }
      if e.causationId != "" && e.causationId !in receipts {
        return Early;
      }
      if e.producerSeq.Some? && (e.capabilities.monotonicSequence || session.capabilities.monotonicSequence) {
        var last := Find(lastSequence, e.streamId, 0);
        var n := e.producerSeq.value;
        if last > 0 && n <= last {
          return OutOfOrder;
        }
        if (n > 1 && last == 0) || (last > 0 && n > Next64(last)) {
          return Early;
        }
      }
      return Ready;
    }

    /** Applies an event and records what came of it. */
    method Settle(id: string, e: Event) returns (why: Reason, ok: bool)
      modifies this
      ensures pending == old(pending)
      ensures Verdict(Held(), why, ok) == Apply(old(Held()), e)
      ensures LedgerHeld() == Record(old(LedgerHeld()), id, e, why, ok)
    {
      why, ok := ApplyEvent(e);
      if ok {
        RecordApplied(id, e);
      } else {
        Quarantine(id, e, why);
      }
    }

    method PromoteBuffered(id: string, reason: Reason) returns (now: Reason)
      requires id in pending
      modifies this
      ensures Now() == Promote(old(Now()), id) && now == ReasonAfter(old(Now()), id, reason)
    {
      var p := pending[id];
      pending := pending - {id};
      var why, ok := Settle(id, p);
      now := if ok && why == ReasonAccepted then reason else why;
    }

    /** The buffered ids the loop selects, sorted. */
    method SelectBuffered(e: Event) returns (ids: seq<string>)
      ensures ids == Ascending(Eligible(LedgerHeld(), e))
    {
      ids := [];
      var todo := pending.Keys;
      while todo != {}
        invariant todo <= pending.Keys && Distinct(ids)
        invariant forall k :: k in ids <==> k in Eligible(LedgerHeld(), e) && k !in todo
        decreases |todo|
      {
        var id :| id in todo;
        todo := todo - {id};
        var p := pending[id];
        if p.causationId == e.id || (p.producerSeq.Some? && p.streamId == e.streamId &&
                                     p.producerSeq.value <= Next64(Find(lastSequence, e.streamId, 0))) {
          assert Selected(LedgerHeld(), e, p);
          ids := ids + [id];
        }
      }
      assert (set k | k in ids) == Eligible(LedgerHeld(), e);
      SortIsAscending(ids);
      ids := Sort(ids);
    }

    /** One pass of the replay loop over the selected ids. */
    method PassOver(ids: seq<string>, reason: Reason) returns (now: Reason, moved: bool)
      requires Distinct(ids) && forall id :: id in ids ==> id in pending
      modifies this
      ensures ReplayPass(old(Now()), ids, reason) == Progress(Now(), now, moved)
    {
      hide Apply;
      now, moved := reason, false;
      ghost var goal := ReplayPass(Now(), ids, reason);
      var rest := ids;
      while rest != []
        invariant Distinct(rest) && forall id :: id in rest ==> id in pending
        invariant goal == PassFrom(Now(), rest, now, moved)
        decreases |rest|
      {
        PassStep(Now(), rest, now, moved);
        var waits := WaitsStill(pending[rest[0]]);
        if !waits {
          now := PromoteBuffered(rest[0], now);
          moved := true;
        }
        rest := rest[1..];
      }
    }

    method WaitsStill(p: Event) returns (waits: bool)
      ensures waits <==> Blocked(Now(), p)
    {
      if p.causationId != "" {
        if p.causationId !in receipts {
          return true;
        }
      }
      var last := Find(lastSequence, p.streamId, 0);
      return p.producerSeq.Some? && (p.capabilities.monotonicSequence || session.capabilities.monotonicSequence) &&
             last > 0 && p.producerSeq.value > Next64(last);
    }

    /** Replays buffered events until a pass selects nothing or moves nothing. */
    method ReplayBuffered(e: Event, reason: Reason) returns (now: Reason)
      modifies this
      ensures Replay(old(Now()), e, reason) == Progress(Now(), now, false)
    {
      now := reason;
      var going := true;
      while going
        invariant going ==> Replay(old(Now()), e, reason) == Replay(Now(), e, now)
        invariant !going ==> Replay(old(Now()), e, reason) == Progress(Now(), now, false)
        decreases |pending|, going
      {
        var ids := SelectBuffered(e);
        if ids == [] {
          assert Eligible(LedgerHeld(), e) == {};
          going := false;
        } else {
          assert Eligible(LedgerHeld(), e) != {} by { assert ids[0] in ids; }
          now, going := PassOver(ids, now);
        }
      }
    }

    /** `Reduce`: check, apply, record, replay. */
    method Deliver(raw: Event) returns (r: Result)
      modifies this
      ensures (Now(), r) == Reduce(old(Now()), raw)
    {
      var e := Normalize(raw);
      var a := Check(e);
      match a {
        case Malformed => return Result(Rejected, ActionBlocked, ReasonInvalidTransition, revision, e.id);
        case WrongClass | OutOfOrder =>
          Quarantine(e.id, e, ReasonInvalidTransition);
          return Result(Rejected, ActionBlocked, ReasonInvalidTransition, revision, e.id);
        case Conflicting =>
          Quarantine(e.id, e, ReasonIdempotencyConflict);
          return Result(Rejected, ActionBlocked, ReasonIdempotencyConflict, revision, e.id);
        case Repeated => return Result(Duplicate, ActionNone, ReasonDuplicate, revision, e.id);
        case StillPending => return Result(Pending, ActionNone, ReasonCausalGap, revision, e.id);
        case Early =>
          pending := pending[e.id := e];
          return Result(Pending, ActionNone, ReasonCausalGap, revision, e.id);
        case Ready =>
          var reason, ok := Settle(e.id, e);
          if !ok {
            return Result(Rejected, ActionBlocked, reason, revision, e.id);
          }
          var action := ActionFor(e.eventType, reason);
          reason := ReplayBuffered(e, reason);
          return Result(Accepted, action, reason, revision, e.id);
      }
    }
  }

  /** The rest of a pass, when earlier ids have already moved something or not. */
  ghost function PassFrom(s: State, ids: seq<string>, reason: Reason, moved: bool): Progress
    requires Distinct(ids) && forall id :: id in ids ==> id in s.ledger.pending
  {
    var r := ReplayPass(s, ids, reason);
    r.(moved := moved || r.moved)
  }

  lemma PassStep(s: State, ids: seq<string>, reason: Reason, moved: bool)
    requires ids != [] && Distinct(ids) && forall id :: id in ids ==> id in s.ledger.pending
    ensures forall id :: id in ids[1..] ==> id in s.ledger.pending && id in Promote(s, ids[0]).ledger.pending
    ensures Blocked(s, s.ledger.pending[ids[0]]) ==>
              PassFrom(s, ids, reason, moved) == PassFrom(s, ids[1..], reason, moved)
    ensures !Blocked(s, s.ledger.pending[ids[0]]) ==>
              PassFrom(s, ids, reason, moved) ==
              PassFrom(Promote(s, ids[0]), ids[1..], ReasonAfter(s, ids[0], reason), true)
  {
    forall id | id in ids[1..] ensures id != ids[0] && id in s.ledger.pending {
      assert id in ids;
    }
  }
}
