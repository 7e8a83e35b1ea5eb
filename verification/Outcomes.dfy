/** What each event brings about, said of the facts alone: when it is applied, and what is then
    different. A second account of the lifecycle, independent of how `apply` computes it. */
module Outcomes {
  import opened Names
  import opened Lifecycle
  import opened Reducer

  // ---------------------------------------------------------------- the session an event meets

  /** The event names no session, the first one, or the one that is open. */
  predicate Local(s: Session, e: Event) {
    e.sessionId == "" || s.id == "" || s.id == e.sessionId
  }

  predicate Opens(s: Session, e: Event) {
    s.id == "" && e.sessionId != ""
  }

  /** The session once the event has been looked at: opened if it was the first, with the first
      capabilities that were ever given. */
  function Met(s: Session, r: string, e: Event): Session {
    var t := if Opens(s, e) then Session(e.sessionId, r, SessionCreated, "", "", "", "", Capabilities("", "", "", false), 0, 0) else s;
    t.(capabilities := if t.capabilities == Capabilities("", "", "", false) then e.capabilities else t.capabilities)
  }

  /** What an event finds: the facts with the session it meets. */
  function Found(f: Facts, e: Event): Facts {
    f.(work := f.work.(session := Met(f.work.session, f.repositoryId, e)))
  }

  lemma FoundIsGreeted(f: Facts, e: Event)
    ensures Greet(f, e) == Found(f, e)
    ensures ForeignSession(Greet(f, e).work.session, e) <==> !Local(f.work.session, e)
  {
  }

  lemma LocalIsDispatched(f: Facts, e: Event)
    requires Local(f.work.session, e)
    ensures Apply(f, e) == Dispatch(Found(f, e), e)
  {
    hide Dispatch, Found, Greet;
    FoundIsGreeted(f, e);
  }

  /** An event of another session is refused; at most the session's capabilities are noted. */
  lemma ForeignIsRefused(f: Facts, e: Event)
    requires !Local(f.work.session, e)
    ensures Apply(f, e) == Verdict(Found(f, e), ReasonInvalidTransition, false)
    ensures Found(f, e) == f.(work := f.work.(session := f.work.session.(capabilities := Found(f, e).work.session.capabilities)))
  {
    hide Dispatch;
    FoundIsGreeted(f, e);
  }

  /** Discovery and the consent question change nothing, and an unknown event is refused. */
  lemma NotesExactly(f: Facts, e: Event)
    requires Local(f.work.session, e)
    requires e.eventType == RepositoryDiscovered || e.eventType == PolicyConsentRequested || e.eventType.OtherType?
    ensures Apply(f, e) ==
            if e.eventType.OtherType? then Verdict(Found(f, e), ReasonInvalidTransition, false)
            else Verdict(Found(f, e), ReasonAccepted, true)
  {
    hide Found;
    LocalIsDispatched(f, e);
  }

  // ---------------------------------------------------------------- evidence

  /** The evidence of these changes is withdrawn and nothing else is different: verifications no
      longer reusable, commit jobs that are not created to be reconciled. */
  ghost predicate Withdrawn(j: Jobs, k: Jobs, ids: set<string>) {
    && k.pushes == j.pushes && k.verifications.Keys == j.verifications.Keys && k.commits.Keys == j.commits.Keys
    && (forall id :: id in j.verifications ==>
          k.verifications[id] == if j.verifications[id].candidateId in ids
                                 then j.verifications[id].(state := VerificationInvalidatedStatus, reusable := false)
                                 else j.verifications[id])
    && (forall id :: id in j.commits ==>
          k.commits[id] == if j.commits[id].candidateId in ids && j.commits[id].state != CommitCreatedStatus
                           then j.commits[id].(state := CommitReconcileRequired) else j.commits[id])
  }

  lemma InvalidateWithdraws(j: Jobs, ids: set<string>)
    ensures Withdrawn(j, Invalidate(j, ids), ids) && Invalidate(j, ids).candidates == j.candidates
  {
  }

  /** Changed files withdraw all evidence and every task's mark. */
  lemma FilesExactly(f: Facts, e: Event)
    requires Local(f.work.session, e) && e.eventType == FilesChanged
    ensures var v := Apply(f, e); var g, h := Found(f, e), v.result;
            && v.ok && v.reason == (if f.jobs.candidates == map[] then ReasonAccepted else ReasonEvidenceInvalidated)
            && h == g.(jobs := h.jobs, work := g.work.(tasks := h.work.tasks))
            && h.jobs.candidates == f.jobs.candidates && Withdrawn(f.jobs, h.jobs, f.jobs.candidates.Keys)
            && h.work.tasks.Keys == f.work.tasks.Keys
            && forall k :: k in f.work.tasks ==>
                 var t := f.work.tasks[k];
                 h.work.tasks[k] == t.(completionCandidate := false,
                                       state := if t.state == TaskCompletionCandidateStatus then TaskActive else t.state)
  {
    hide Withdrawn, Invalidate;
    LocalIsDispatched(f, e);
    InvalidateWithdraws(f.jobs, f.jobs.candidates.Keys);
  }

  /** A policy is set; replacing one in force by another decision, visibility, digest or locality
      withdraws all evidence. */
  lemma PolicyExactly(f: Facts, e: Event)
    requires Local(f.work.session, e) && e.eventType == PolicySet
    ensures var v, p := Apply(f, e), e.payload; var g, h := Found(f, e), v.result; var was, now := f.policy, v.result.policy;
            && v.ok && h == g.(policy := now, jobs := h.jobs) && h.jobs.candidates == f.jobs.candidates
            && now.decision == p.outcome && now.visibility == p.visibility && now.workflow == p.status
            && now.digest == p.evidence.policy && now.localOnly == p.localOnly && now.revision == was.revision + 1
            && (now.publicConsent <==> p.publicConsent || (p.visibility == "public" && p.explicitComplete))
            && var takes := was.revision > 0 && (was.digest != now.digest || was.decision != now.decision ||
                                                 was.visibility != now.visibility || was.localOnly != now.localOnly);
               v.reason == (if takes then ReasonEvidenceInvalidated else ReasonAccepted) &&
               (takes ==> Withdrawn(f.jobs, h.jobs, f.jobs.candidates.Keys)) && (!takes ==> h.jobs == f.jobs)
  {
    hide Withdrawn, Invalidate, Found;
    LocalIsDispatched(f, e);
    FoundKeeps(f, e);
    InvalidateWithdraws(f.jobs, f.jobs.candidates.Keys);
  }

  lemma FoundKeeps(f: Facts, e: Event)
    ensures var g := Found(f, e);
            g.repositoryId == f.repositoryId && g.policy == f.policy && g.prompts == f.prompts && g.jobs == f.jobs &&
            g.work.tasks == f.work.tasks && g.work.session == Met(f.work.session, f.repositoryId, e)
  {
  }

  // ---------------------------------------------------------------- sessions

  /** The prompt waits for an answer and nothing may go on before it. */
  predicate Waits(p: Prompt) {
    p.blocking && p.state in {PromptRequestedStatus, PromptQueuedStatus, PromptPresentedStatus}
  }

  predicate SomethingWaits(ps: map<string, Prompt>) {
    exists k :: k in ps && Waits(ps[k])
  }

  /** A prompt of this task waits; a task without an id waits for any. */
  predicate TaskWaits(ps: map<string, Prompt>, taskId: string) {
    exists k :: k in ps && Waits(ps[k]) && (taskId == "" || ps[k].taskId == taskId)
  }

  lemma BlockedIsWaiting(ps: map<string, Prompt>, taskId: string)
    ensures HasBlockingPrompt(ps, "") <==> SomethingWaits(ps)
    ensures HasBlockingPrompt(ps, taskId) <==> TaskWaits(ps, taskId)
  {
    if HasBlockingPrompt(ps, taskId) {
      var k :| k in ps && Blocks(ps[k], taskId);
      assert Waits(ps[k]);
    }
    if HasBlockingPrompt(ps, "") {
      var k :| k in ps && Blocks(ps[k], "");
      assert Waits(ps[k]);
    }
    if TaskWaits(ps, taskId) {
      var k :| k in ps && Waits(ps[k]) && (taskId == "" || ps[k].taskId == taskId);
      assert Blocks(ps[k], taskId);
    }
    if SomethingWaits(ps) {
      var k :| k in ps && Waits(ps[k]);
      assert Blocks(ps[k], "");
    }
  }

  function TaskName(e: Event): string {
    if e.taskId == "" then "synthetic-task" else e.taskId
  }

  /** The task an event names, new if there is none. */
  function TaskMet(w: Work, e: Event): Task {
    if TaskName(e) in w.tasks then w.tasks[TaskName(e)] else Task(TaskName(e), w.session.id, TaskCreated, 0, false, false)
  }

  /** A start makes the session active on its baseline and, if it names a task, that task too. */
  lemma StartExactly(f: Facts, e: Event)
    requires Local(f.work.session, e) && e.eventType == SessionStarted && TasksKeyed(f.work.tasks)
    ensures var g, p := Found(f, e), e.payload;
            var s := g.work.session.(state := SessionActive, baselineHead := p.baselineHead, baselineIndex := p.baselineIndex,
                                     statusDigest := p.statusDigest, baselinePathsDigest := p.baselinePathsDigest);
            var ts := if e.taskId == "" then f.work.tasks else f.work.tasks[e.taskId := TaskMet(g.work, e).(state := TaskActive)];
            Apply(f, e) == Verdict(g.(work := Work(s, ts)), ReasonAccepted, true)
  {
    hide Found;
    LocalIsDispatched(f, e);
    FoundKeeps(f, e);
  }

  /** Idling and a stop of the model settle the session, or hold it while a tool runs or a prompt
      waits; neither revives an ended one. */
  lemma PauseExactly(f: Facts, e: Event)
    requires Local(f.work.session, e) && (e.eventType == SessionIdle || e.eventType == ModelStopped)
    ensures var v, g := Apply(f, e), Found(f, e); var s := g.work.session;
            var idle, held := e.eventType == SessionIdle, s.activeTools > 0 || SomethingWaits(f.prompts);
            if s.state == SessionEndedStatus || (idle && s.state == SessionCrashedStatus)
            then v == Verdict(g, ReasonInvalidTransition, false)
            else
              v == Verdict(g.(work := g.work.(session := s.(
                state := if held then SessionWaitingPrompt else SessionSettling,
                settlingUntil := if held && !idle then s.settlingUntil else 0))), if idle then ReasonAccepted else ReasonWeakStop, true)
  {
    hide Found, HasBlockingPrompt, SomethingWaits;
    LocalIsDispatched(f, e);
    FoundKeeps(f, e);
    BlockedIsWaiting(f.prompts, "");
  }

  /** An end and a crash are always taken; only a crashed session recovers. */
  lemma EndExactly(f: Facts, e: Event)
    requires Local(f.work.session, e) && e.eventType in {SessionEnded, SessionCrashed, SessionRecovered}
    ensures var v, g := Apply(f, e), Found(f, e); var s := g.work.session;
            if e.eventType == SessionRecovered && s.state != SessionCrashedStatus
            then v == Verdict(g, ReasonInvalidTransition, false)
            else
              v == Verdict(g.(work := g.work.(session := s.(
                state := if e.eventType == SessionEnded then SessionEndedStatus
                         else if e.eventType == SessionCrashed then SessionCrashedStatus else SessionActive))), ReasonAccepted, true)
  {
    hide Found;
    LocalIsDispatched(f, e);
  }

  // ---------------------------------------------------------------- tasks

  lemma TaskStartExactly(f: Facts, e: Event)
    requires Local(f.work.session, e) && e.eventType == TaskStarted && TasksKeyed(f.work.tasks)
    ensures var g := Found(f, e);
            var w := Work(g.work.session.(state := SessionActive),
                          f.work.tasks[TaskName(e) := TaskMet(g.work, e).(state := TaskActive)]);
            Apply(f, e) == Verdict(g.(work := w), ReasonAccepted, true)
  {
    hide Found;
    LocalIsDispatched(f, e);
    FoundKeeps(f, e);
  }

  /** A tool that starts is counted with its task and with the session, one that completes is
      taken off both, unless the task counts none. */
  lemma ToolExactly(f: Facts, e: Event)
    requires Local(f.work.session, e) && e.eventType in {TaskUpdated, ToolStarted, ToolCompleted} && TasksKeyed(f.work.tasks)
    ensures var v, g := Apply(f, e), Found(f, e);
            if e.taskId !in f.work.tasks then v == Verdict(g, ReasonInvalidTransition, false)
            else
              var t, n := f.work.tasks[e.taskId], g.work.session.activeTools;
              var d := if e.eventType == ToolStarted then 1 else if e.eventType == ToolCompleted && t.activeTools > 0 then -1 else 0;
              var w := Work(g.work.session.(activeTools := if d < 0 && n <= 0 then n else n + d),
                            f.work.tasks[e.taskId := t.(activeTools := t.activeTools + d)]);
              v == Verdict(g.(work := w), ReasonAccepted, true)
  {
    hide Found;
    LocalIsDispatched(f, e);
    FoundKeeps(f, e);
  }

  /** A failure or a cancellation ends its task, whatever it was doing. */
  lemma TaskEndExactly(f: Facts, e: Event)
    requires Local(f.work.session, e) && e.eventType in {TaskFailed, TaskCancelled} && TasksKeyed(f.work.tasks)
    ensures var v, g := Apply(f, e), Found(f, e);
            if e.taskId !in f.work.tasks then v == Verdict(g, ReasonInvalidTransition, false)
            else
              var t := f.work.tasks[e.taskId].(state := if e.eventType == TaskFailed then TaskFailedStatus else TaskCancelledStatus);
              v == Verdict(g.(work := g.work.(tasks := f.work.tasks[e.taskId := t])), ReasonAccepted, true)
  {
    hide Found;
    LocalIsDispatched(f, e);
    FoundKeeps(f, e);
  }

  /** A client's claim is noted; it settles the session, or holds task and session while a tool
      of the task runs or a prompt of it waits. It never completes the task. */
  lemma ClaimExactly(f: Facts, e: Event)
    requires Local(f.work.session, e) && e.eventType == TaskCompleted && e.eventClass != Domain && TasksKeyed(f.work.tasks)
    ensures var v, g := Apply(f, e), Found(f, e);
            if e.taskId !in f.work.tasks then v == Verdict(g, ReasonInvalidTransition, false)
            else
              var t := f.work.tasks[e.taskId].(completionClaim := true);
              var held := t.activeTools > 0 || TaskWaits(f.prompts, e.taskId);
              var w := if held
                       then Work(g.work.session.(state := SessionWaitingPrompt), f.work.tasks[e.taskId := t.(state := TaskWaitingPrompt)])
                       else Work(g.work.session.(state := SessionSettling, settlingUntil := 0), f.work.tasks[e.taskId := t]);
              v == Verdict(g.(work := w), ReasonWeakCompletion, true)
  {
    hide Found, HasBlockingPrompt, TaskWaits, Dispatch;
    LocalIsDispatched(f, e);
    FoundKeeps(f, e);
    BlockedIsWaiting(f.prompts, e.taskId);
    ClaimStep(Found(f, e), e);
  }

  lemma ClaimStep(g: Facts, e: Event)
    requires e.eventType == TaskCompleted
    ensures Dispatch(g, e) == OnWork(g, ApplyTaskCompleted(g.work, g.prompts, e))
  {
    hide ApplyTaskCompleted;
  }

  /** A domain completion is taken exactly when the task is marked, no tool of it runs, no
      blocking prompt of it is queued or shown, and the client's queue can be trusted. */
  lemma CompletionExactly(f: Facts, e: Event)
    requires Local(f.work.session, e) && e.eventType == TaskCompleted && e.eventClass == Domain && TasksKeyed(f.work.tasks)
    ensures var v, g := Apply(f, e), Found(f, e);
            if e.taskId !in f.work.tasks then v == Verdict(g, ReasonInvalidTransition, false)
            else
              var t := f.work.tasks[e.taskId].(completionClaim := true);
              var done := MayComplete(g.work.session, f.prompts, t);
              var u := if done then t.(state := TaskCompletedStatus) else t;
              v == Verdict(g.(work := g.work.(tasks := f.work.tasks[e.taskId := u])),
                           if done then ReasonAccepted else ReasonInvalidTransition, done)
  {
    hide Found, MayComplete, CompletionEligible, Dispatch;
    LocalIsDispatched(f, e);
    FoundKeeps(f, e);
    ClaimStep(Found(f, e), e);
    if e.taskId in f.work.tasks {
      MayCompleteIsEligible(Found(f, e).work.session, f.prompts, f.work.tasks[e.taskId].(completionClaim := true));
    }
  }

  predicate MayComplete(s: Session, ps: map<string, Prompt>, t: Task) {
    && t.completionCandidate && t.activeTools <= 0
    && s.capabilities.queueState in {"native", "none"}
    && forall k :: k in ps ==>
         !(ps[k].blocking && ps[k].taskId == t.id && ps[k].state in {PromptQueuedStatus, PromptPresentedStatus})
  }

  lemma MayCompleteIsEligible(s: Session, ps: map<string, Prompt>, t: Task)
    ensures CompletionEligible(s, ps, t) <==> MayComplete(s, ps, t)
  {
    if MayComplete(s, ps, t) {
      forall k | k in ps ensures !HoldsCompletion(ps[k], t.id) {
      }
    }
    if CompletionEligible(s, ps, t) {
      forall k | k in ps
        ensures !(ps[k].blocking && ps[k].taskId == t.id && ps[k].state in {PromptQueuedStatus, PromptPresentedStatus})
      {
        assert !HoldsCompletion(ps[k], t.id);
      }
    }
  }

  /** A task is marked exactly on its own claim, with no tool of it running and no prompt of it
      waiting. */
  lemma MarkExactly(f: Facts, e: Event)
    requires Local(f.work.session, e) && e.eventType == TaskCompletionCandidate && TasksKeyed(f.work.tasks)
    ensures var v, g := Apply(f, e), Found(f, e);
            if e.taskId in f.work.tasks && f.work.tasks[e.taskId].completionClaim && f.work.tasks[e.taskId].activeTools <= 0 &&
               !TaskWaits(f.prompts, e.taskId)
            then
              var t := f.work.tasks[e.taskId].(completionCandidate := true, state := TaskCompletionCandidateStatus);
              var w := Work(g.work.session.(state := SessionCompletionCandidate), f.work.tasks[e.taskId := t]);
              v == Verdict(g.(work := w), ReasonAccepted, true)
            else v == Verdict(g, ReasonInvalidTransition, false)
  {
    hide Found, HasBlockingPrompt, TaskWaits;
    LocalIsDispatched(f, e);
    FoundKeeps(f, e);
    BlockedIsWaiting(f.prompts, e.taskId);
  }

  // ---------------------------------------------------------------- changes

  /** A change event gives its candidate the event's digests and state. Evidence of the change is
      withdrawn exactly when the event says so, or the candidate had a digest and now differs in
      any of the eight. */
  lemma ChangeExactly(f: Facts, e: Event)
    requires Local(f.work.session, e) && e.eventType in {ChangeDetected, ChangeStaged, ChangeInvalidated}
    ensures var v, g, p := Apply(f, e), Found(f, e), e.payload;
            if e.changeId == "" then v == Verdict(g, ReasonInvalidTransition, false)
            else
              var j, k := f.jobs, v.result.jobs;
              var known := e.changeId in j.candidates && j.candidates[e.changeId].id != "";
              var c := Candidate(
                if known then j.candidates[e.changeId].id else e.changeId,
                if known then j.candidates[e.changeId].taskId else e.taskId,
                if e.eventType == ChangeStaged then ChangeStagedStatus
                else if e.eventType == ChangeInvalidated then ChangeInvalidatedStatus
                else if p.ambiguous then ChangeAmbiguous else ChangeDetectedStatus,
                p.evidence, p.treeDigest, p.indexDigest, p.messageDigest, p.ambiguous);
              var withdrawn := e.eventType == ChangeInvalidated || (e.changeId in j.candidates && Rebound(j.candidates[e.changeId], p));
              && v.ok && v.result == g.(jobs := k) && k.candidates == j.candidates[e.changeId := c]
              && v.reason == (if withdrawn then ReasonEvidenceInvalidated else ReasonAccepted)
              && Withdrawn(j, k, if withdrawn then {e.changeId} else {})
  {
    hide Found, Withdrawn, Invalidate, Dispatch;
    LocalIsDispatched(f, e);
    FoundKeeps(f, e);
    ChangeStep(Found(f, e), e);
    if e.changeId != "" {
      var k := f.jobs.(candidates := f.jobs.candidates[e.changeId := CandidateAfter(Find(f.jobs.candidates, e.changeId, NO_CANDIDATE), e)]);
      InvalidateWithdraws(k, {e.changeId});
      NothingWithdrawn(f.jobs, k);
      SameWithdrawal(f.jobs, k, Invalidate(k, {e.changeId}), {e.changeId});
    }
  }

  predicate Rebound(c: Candidate, p: Payload) {
    c.evidence.candidate != "" &&
    (c.evidence.candidate != p.evidence.candidate || c.evidence.base != p.evidence.base || c.evidence.policy != p.evidence.policy ||
     c.evidence.verifier != p.evidence.verifier || c.evidence.guard != p.evidence.guard || c.treeDigest != p.treeDigest ||
     c.indexDigest != p.indexDigest || c.messageDigest != p.messageDigest)
  }

  lemma ChangeStep(g: Facts, e: Event)
    requires e.eventType in {ChangeDetected, ChangeStaged, ChangeInvalidated}
    ensures Dispatch(g, e) == OnJobs(g, ApplyChange(g.jobs, e))
  {
    hide ApplyChange;
  }

  lemma NothingWithdrawn(j: Jobs, k: Jobs)
    requires k == j.(candidates := k.candidates)
    ensures Withdrawn(j, k, {})
  {
  }

  lemma SameWithdrawal(j: Jobs, k: Jobs, l: Jobs, ids: set<string>)
    requires k == j.(candidates := k.candidates) && Withdrawn(k, l, ids)
    ensures Withdrawn(j, l, ids)
  {
  }

  // ---------------------------------------------------------------- verifications

  function VerificationName(e: Event): string {
    if e.payload.verificationId == "" then e.id else e.payload.verificationId
  }

  function VerificationMet(vs: map<string, Verification>, e: Event): Verification {
    var k := VerificationName(e);
    if k in vs && vs[k].id != "" then vs[k] else Verification(k, e.changeId, NO_EVIDENCE, "", VerificationUnset, false)
  }

  /** The event carries all five digests, and they are the candidate's. */
  predicate Carries(p: Payload, c: Candidate) {
    && p.evidence.candidate != "" && p.evidence.candidate == c.evidence.candidate
    && p.evidence.base != "" && p.evidence.base == c.evidence.base
    && p.evidence.policy != "" && p.evidence.policy == c.evidence.policy
    && p.evidence.verifier != "" && p.evidence.verifier == c.evidence.verifier
    && p.evidence.guard != "" && p.evidence.guard == c.evidence.guard
  }

  /** A verification event of a known change is taken, a pass only with the candidate's five
      digests; only a pass makes it reusable, only a failure or an invalidation stops that. */
  lemma VerificationExactly(f: Facts, e: Event)
    requires Local(f.work.session, e)
    requires e.eventType in {VerificationRequested, VerificationStarted, VerificationPassed, VerificationFailed, VerificationInvalidated}
    ensures var v, g := Apply(f, e), Found(f, e);
            if e.changeId in f.jobs.candidates && (e.eventType == VerificationPassed ==> Carries(e.payload, f.jobs.candidates[e.changeId]))
            then
              var was := VerificationMet(f.jobs.verifications, e);
              var now := Verification(
                was.id, was.candidateId, e.payload.evidence, e.payload.evidenceDigest,
                match e.eventType
                case VerificationRequested => VerificationRequestedStatus
                case VerificationStarted => VerificationRunning
                case VerificationPassed => VerificationPassedStatus
                case VerificationFailed => VerificationFailedStatus
                case _ => VerificationInvalidatedStatus,
                e.eventType == VerificationPassed ||
                (was.reusable && e.eventType in {VerificationRequested, VerificationStarted}));
              v == Verdict(g.(jobs := f.jobs.(verifications := f.jobs.verifications[VerificationName(e) := now])), ReasonAccepted, true)
            else v == Verdict(g, ReasonInvalidTransition, false)
  {
    hide Found, Dispatch;
    LocalIsDispatched(f, e);
    FoundKeeps(f, e);
    VerificationDispatch(Found(f, e), e);
  }

  lemma VerificationDispatch(g: Facts, e: Event)
    requires e.eventType in {VerificationRequested, VerificationStarted, VerificationPassed, VerificationFailed, VerificationInvalidated}
    ensures Dispatch(g, e) == OnJobs(g, ApplyVerification(g.jobs, e))
  {
    hide ApplyVerification;
  }

  // ---------------------------------------------------------------- commits

  /** The digest is the candidate's, or left out. */
  predicate LeftOrEqual(d: string, own: string) {
    d == "" || d == own
  }

  /** The candidate has all five digests and a message digest, and the event names no other. */
  predicate Agrees(p: Payload, c: Candidate) {
    && c.evidence.candidate != "" && LeftOrEqual(p.evidence.candidate, c.evidence.candidate)
    && c.evidence.base != "" && LeftOrEqual(p.evidence.base, c.evidence.base)
    && c.evidence.policy != "" && LeftOrEqual(p.evidence.policy, c.evidence.policy)
    && c.evidence.verifier != "" && LeftOrEqual(p.evidence.verifier, c.evidence.verifier)
    && c.evidence.guard != "" && LeftOrEqual(p.evidence.guard, c.evidence.guard)
    && c.messageDigest != "" && LeftOrEqual(p.messageDigest, c.messageDigest)
  }

  /** Some verification of the candidate stands passed and reusable with its five digests. */
  predicate Verified(vs: map<string, Verification>, c: Candidate) {
    exists k :: k in vs && Confirms(vs[k], c)
  }

  predicate Confirms(v: Verification, c: Candidate) {
    && v.candidateId == c.id && v.reusable && v.state == VerificationPassedStatus
    && v.evidence.candidate == c.evidence.candidate && v.evidence.base == c.evidence.base
    && v.evidence.policy == c.evidence.policy && v.evidence.verifier == c.evidence.verifier
    && v.evidence.guard == c.evidence.guard
  }

  function CommitMet(cs: map<string, Commit>, e: Event): Commit {
    var k := e.payload.commitJobId;
    if k in cs && cs[k].id != "" then cs[k] else Commit(k, e.changeId, NO_EVIDENCE, "", "", CommitUnset)
  }

  /** The event names a job and a known change, and no other candidate digest. */
  predicate NamesJob(f: Facts, e: Event) {
    e.payload.commitJobId != "" && e.changeId in f.jobs.candidates &&
    LeftOrEqual(e.payload.evidence.candidate, f.jobs.candidates[e.changeId].evidence.candidate)
  }

  lemma CommitDispatch(g: Facts, e: Event)
    requires e.eventType in {CommitRequested, CommitCreated, CommitReconciled, CommitFailed}
    ensures Dispatch(g, e) == OnJobs(g, ApplyCommit(g.jobs, e))
  {
    hide ApplyCommit;
  }

  lemma FilledIn(cs: map<string, Commit>, c: Candidate, e: Event)
    requires LeftOrEqual(e.payload.evidence.candidate, c.evidence.candidate)
    ensures var j := CommitFor(cs, c, e);
            (ExactCommit(j, c) <==> Agrees(e.payload, c)) &&
            (Agrees(e.payload, c) ==>
               j == CommitMet(cs, e).(evidence := c.evidence, messageDigest := c.messageDigest))
  {
  }

  lemma SupportedIsVerified(vs: map<string, Verification>, c: Candidate, j: Commit)
    requires ExactCommit(j, c)
    ensures HasReusableVerification(vs, c, j) <==> Verified(vs, c)
  {
    if Verified(vs, c) {
      var k :| k in vs && Confirms(vs[k], c);
      assert Supports(vs[k], c, j);
    }
    if HasReusableVerification(vs, c, j) {
      var k :| k in vs && Supports(vs[k], c, j);
      assert Confirms(vs[k], c);
    }
  }

  /** A commit job is queued exactly when the event names a job and a known change, every digest
      it names is the candidate's, the candidate has all of them and a message digest, and a
      reusable pass of the candidate stands with just these digests. */
  lemma CommitIsQueuedExactly(f: Facts, e: Event)
    requires Local(f.work.session, e) && e.eventType == CommitRequested
    ensures var v, g := Apply(f, e), Found(f, e);
            if NamesJob(f, e) && Agrees(e.payload, f.jobs.candidates[e.changeId])
            then
              var c := f.jobs.candidates[e.changeId];
              var now := CommitMet(f.jobs.commits, e).(evidence := c.evidence, messageDigest := c.messageDigest, state := CommitQueued);
              if Verified(f.jobs.verifications, c)
              then v == Verdict(g.(jobs := f.jobs.(commits := f.jobs.commits[e.payload.commitJobId := now])), ReasonAccepted, true)
              else v == Verdict(g, ReasonWaitingForVerification, false)
            else v == Verdict(g, ReasonInvalidTransition, false)
  {
    hide Found, Dispatch, Agrees, Verified, HasReusableVerification, ExactCommit, CommitFor, CommitMet;
    LocalIsDispatched(f, e);
    FoundKeeps(f, e);
    CommitDispatch(Found(f, e), e);
    if NamesJob(f, e) {
      var c := f.jobs.candidates[e.changeId];
      FilledIn(f.jobs.commits, c, e);
      if Agrees(e.payload, c) {
        SupportedIsVerified(f.jobs.verifications, c, CommitFor(f.jobs.commits, c, e));
      }
    }
  }

  /** A job is created or reconciled exactly when it was started, the digests agree as for a
      request, and the SHA is a full object name. */
  lemma CommitIsCreatedExactly(f: Facts, e: Event)
    requires Local(f.work.session, e) && e.eventType in {CommitCreated, CommitReconciled}
    ensures var v, g, was := Apply(f, e), Found(f, e), CommitMet(f.jobs.commits, e);
            if NamesJob(f, e) && Agrees(e.payload, f.jobs.candidates[e.changeId]) && was.state != CommitUnset && ValidSha(e.payload.commitSha)
            then
              var c := f.jobs.candidates[e.changeId];
              var now := Commit(was.id, was.candidateId, c.evidence, c.messageDigest, e.payload.commitSha, CommitCreatedStatus);
              v == Verdict(g.(jobs := f.jobs.(commits := f.jobs.commits[e.payload.commitJobId := now])), ReasonAccepted, true)
            else v == Verdict(g, ReasonInvalidTransition, false)
  {
    hide Found, Dispatch, Agrees, ExactCommit, ValidSha, CommitFor, CommitMet, CommitAfter;
    LocalIsDispatched(f, e);
    FoundKeeps(f, e);
    CommitDispatch(Found(f, e), e);
    if NamesJob(f, e) {
      var c := f.jobs.candidates[e.changeId];
      FilledIn(f.jobs.commits, c, e);
      FilledState(f.jobs.commits, c, e);
      CreationStep(f.jobs.verifications, CommitFor(f.jobs.commits, c, e), c, e);
    }
  }

  lemma FilledState(cs: map<string, Commit>, c: Candidate, e: Event)
    ensures CommitFor(cs, c, e).state == CommitMet(cs, e).state
  {
  }

  lemma CreationStep(vs: map<string, Verification>, j: Commit, c: Candidate, e: Event)
    requires e.eventType in {CommitCreated, CommitReconciled}
    ensures CommitAfter(vs, j, c, e) ==
            if j.state == CommitUnset || !ExactCommit(j, c) || !ValidSha(e.payload.commitSha) then No(ReasonInvalidTransition)
            else Yes(j.(commitSha := e.payload.commitSha, state := CommitCreatedStatus))
  {
    hide ExactCommit, ValidSha;
  }

  /** A failure is noted with the digests the event names, or else the candidate's. */
  lemma CommitFailsExactly(f: Facts, e: Event)
    requires Local(f.work.session, e) && e.eventType == CommitFailed
    ensures var v, g, was := Apply(f, e), Found(f, e), CommitMet(f.jobs.commits, e);
            if NamesJob(f, e)
            then
              var k := v.result.jobs.commits;
              && v.ok && v.reason == ReasonAccepted && v.result == g.(jobs := f.jobs.(commits := k))
              && e.payload.commitJobId in k && k == f.jobs.commits[e.payload.commitJobId := k[e.payload.commitJobId]]
              && var now, p, c := k[e.payload.commitJobId], e.payload, f.jobs.candidates[e.changeId];
                 now == was.(evidence := now.evidence, messageDigest := now.messageDigest, state := CommitFailedStatus) &&
                 now.evidence.candidate == c.evidence.candidate && Named(now.evidence.base, p.evidence.base, c.evidence.base) &&
                 Named(now.evidence.policy, p.evidence.policy, c.evidence.policy) &&
                 Named(now.evidence.verifier, p.evidence.verifier, c.evidence.verifier) &&
                 Named(now.evidence.guard, p.evidence.guard, c.evidence.guard) &&
                 Named(now.messageDigest, p.messageDigest, c.messageDigest)
            else v == Verdict(g, ReasonInvalidTransition, false)
  {
    hide Found, Dispatch;
    LocalIsDispatched(f, e);
    FoundKeeps(f, e);
    CommitDispatch(Found(f, e), e);
  }

  predicate Named(now: string, given: string, own: string) {
    (given != "" ==> now == given) && (given == "" ==> now == own)
  }

  // ---------------------------------------------------------------- pushes

  function PushMet(ps: map<string, Push>, e: Event): Push {
    var k, p := e.payload.pushJobId, e.payload;
    if k in ps && ps[k].id != ""
    then ps[k].(commitSha := if ps[k].commitSha == "" then p.commitSha else ps[k].commitSha)
    else Push(k, p.commitJobId, p.remoteDigest, p.ref, p.commitSha, PushUnset, p.localOnly)
  }

  /** The event names a job with a full object name, and no other SHA, remote or ref than the job
      has on file. */
  predicate NamesPush(f: Facts, e: Event) {
    var k, p, ps := e.payload.pushJobId, e.payload, f.jobs.pushes;
    && k != "" && ValidSha(PushMet(ps, e).commitSha)
    && (k in ps && ps[k].id != "" ==>
          LeftOrEqual(p.commitSha, ps[k].commitSha) && LeftOrEqual(p.remoteDigest, ps[k].remoteDigest) && LeftOrEqual(p.ref, ps[k].ref))
  }

  ghost predicate Contains(s: string, t: string) {
    exists a, b :: s == a + t + b
  }

  /** A full ref name without an empty or parent component and without line ends or NUL. */
  ghost predicate SafeRef(s: string) {
    "refs/" < s && !Contains(s, "..") && !Contains(s, "//") && '\0' !in s && '\r' !in s && '\n' !in s
  }

  lemma PairIsContained(s: string, t: string)
    requires |t| == 2
    ensures Contains(s, t) <==> exists i :: 0 <= i < |s| - 1 && s[i] == t[0] && s[i + 1] == t[1]
  {
    if i :| 0 <= i < |s| - 1 && s[i] == t[0] && s[i + 1] == t[1] {
      assert s == s[..i] + t + s[i + 2..];
    }
    if Contains(s, t) {
      var a, b :| s == a + t + b;
      assert s[|a|] == t[0] && s[|a| + 1] == t[1];
    }
  }

  lemma RefIsSafe(s: string)
    ensures ValidRef(s) <==> SafeRef(s)
  {
    hide Contains;
    PairIsContained(s, "..");
    PairIsContained(s, "//");
  }

  predicate HasCreated(cs: map<string, Commit>, sha: string) {
    exists k :: k in cs && cs[k].state == CommitCreatedStatus && cs[k].commitSha == sha
  }

  lemma PushDispatch(g: Facts, e: Event)
    requires e.eventType in {PushRequested, PushSucceeded, PushFailed, PushSkipped}
    ensures Dispatch(g, e) == OnJobs(g, ApplyPush(g.jobs, e))
  {
    hide ApplyPush;
  }

  lemma PushStart(f: Facts, e: Event)
    ensures NamesPush(f, e) <==>
            e.payload.pushJobId != "" && !PushConflicts(Find(f.jobs.pushes, e.payload.pushJobId, NO_PUSH), e) &&
            ValidSha(PushFor(f.jobs.pushes, e).commitSha)
    ensures PushFor(f.jobs.pushes, e) == PushMet(f.jobs.pushes, e)
  {
    hide ValidSha;
  }

  /** A push is queued exactly when its remote and ref are well formed and some created commit has
      its SHA; the job is then tied to such a commit unless it names one. */
  lemma PushIsQueuedExactly(f: Facts, e: Event)
    requires Local(f.work.session, e) && e.eventType == PushRequested
    ensures var v, g, was := Apply(f, e), Found(f, e), PushMet(f.jobs.pushes, e);
            if NamesPush(f, e) && ValidDigest(was.remoteDigest) && SafeRef(was.ref) && HasCreated(f.jobs.commits, was.commitSha)
            then
              var k := v.result.jobs.pushes;
              && v.ok && v.reason == ReasonAccepted && v.result == g.(jobs := f.jobs.(pushes := k))
              && e.payload.pushJobId in k && k == f.jobs.pushes[e.payload.pushJobId := k[e.payload.pushJobId]]
              && var now := k[e.payload.pushJobId];
                 now == was.(commitId := now.commitId, state := PushQueued) &&
                 (was.commitId != "" ==> now.commitId == was.commitId) &&
                 (was.commitId == "" ==> TiesTo(f.jobs.commits, now.commitId, was.commitSha))
            else v == Verdict(g, ReasonInvalidTransition, false)
  {
    hide Found, Dispatch, ValidSha, ValidDigest, ValidRef, SafeRef, NamesPush, PushMet, PushFor, PushConflicts;
    LocalIsDispatched(f, e);
    FoundKeeps(f, e);
    PushDispatch(Found(f, e), e);
    PushStart(f, e);
    var was := PushMet(f.jobs.pushes, e);
    RefIsSafe(was.ref);
    CreatedIsThere(f.jobs.commits, was.commitSha);
  }

  /** The id is that of a created commit with the SHA. */
  predicate TiesTo(cs: map<string, Commit>, id: string, sha: string) {
    exists k :: k in cs && cs[k].state == CommitCreatedStatus && cs[k].commitSha == sha && cs[k].id == id
  }

  lemma CreatedIsThere(cs: map<string, Commit>, sha: string)
    ensures CreatedCommits(cs, sha) != {} <==> HasCreated(cs, sha)
    ensures CreatedCommits(cs, sha) != {} ==> Min(CreatedCommits(cs, sha)) in cs && TiesTo(cs, cs[Min(CreatedCommits(cs, sha))].id, sha)
  {
    if HasCreated(cs, sha) {
      var k :| k in cs && cs[k].state == CommitCreatedStatus && cs[k].commitSha == sha;
      assert k in CreatedCommits(cs, sha);
    }
    if CreatedCommits(cs, sha) != {} {
      var k := Min(CreatedCommits(cs, sha));
      assert k in cs && cs[k].state == CommitCreatedStatus && cs[k].commitSha == sha && cs[k].id == cs[k].id;
    }
  }

  /** How a push that has started ends. */
  function PushEnded(was: Push, e: Event): Push {
    was.(state := if e.eventType == PushSucceeded then PushSucceededStatus
                  else if e.eventType == PushSkipped then PushSkippedLocal
                  else if e.payload.errorCode in {"auth", "non-fast-forward", "unsafe", "collision"} then PushBlockedStatus
                  else PushRetryWait,
         localOnly := was.localOnly || e.eventType == PushSkipped)
  }

  lemma PushEndsAs(cs: map<string, Commit>, was: Push, e: Event)
    requires e.eventType in {PushSucceeded, PushFailed, PushSkipped}
    ensures PushAfter(cs, was, e) ==
            if e.eventType == PushSucceeded && (was.state == PushUnset || was.commitSha != e.payload.commitSha)
            then No(ReasonInvalidTransition) else Yes(PushEnded(was, e))
  {
    hide CreatedCommits, ValidRef, ValidDigest;
  }

  /** A success needs a started job and its SHA; a failure waits for a retry unless its error is
      one of the four that a retry cannot mend; a skip makes the job local. */
  lemma PushEndsExactly(f: Facts, e: Event)
    requires Local(f.work.session, e) && e.eventType in {PushSucceeded, PushFailed, PushSkipped}
    ensures var v, g, was := Apply(f, e), Found(f, e), PushMet(f.jobs.pushes, e);
            if NamesPush(f, e) && (e.eventType == PushSucceeded ==> was.state != PushUnset && was.commitSha == e.payload.commitSha)
            then v == Verdict(g.(jobs := f.jobs.(pushes := f.jobs.pushes[e.payload.pushJobId := PushEnded(was, e)])), ReasonAccepted, true)
            else v == Verdict(g, ReasonInvalidTransition, false)
  {
    hide Found, Dispatch, ValidSha, NamesPush, PushMet, PushFor, PushConflicts, PushAfter, PushEnded;
    LocalIsDispatched(f, e);
    FoundKeeps(f, e);
    PushDispatch(Found(f, e), e);
    PushStart(f, e);
    PushEndsAs(f.jobs.commits, PushMet(f.jobs.pushes, e), e);
  }

  // ---------------------------------------------------------------- prompts

  /** A prompt without a task belongs to the synthetic one, which it starts if that is new. */
  function TasksMet(w: Work, e: Event): map<string, Task> {
    if e.taskId == "" && TaskMet(w, e).state == TaskCreated
    then w.tasks["synthetic-task" := TaskMet(w, e).(state := TaskActive)] else w.tasks
  }

  predicate KnownPrompt(ps: map<string, Prompt>, id: string) {
    id in ps && ps[id].id != ""
  }

  /** The prompt as the event finds it, with its task and kind filled in. */
  function PromptMet(ps: map<string, Prompt>, e: Event): Prompt {
    var id, p := e.payload.promptId, e.payload;
    if KnownPrompt(ps, id)
    then ps[id].(taskId := if ps[id].taskId == "" then TaskName(e) else ps[id].taskId,
                 kind := if ps[id].kind == "" then p.promptKind else ps[id].kind)
    else Prompt(id, TaskName(e), p.promptKind, PromptRequestedStatus, p.blocking, "")
  }

  function PromptMade(p: Prompt, e: Event): Prompt {
    match e.eventType
    case PromptRequested => p.(state := PromptRequestedStatus)
    case PromptQueued => p.(state := PromptQueuedStatus)
    case PromptPresented => p.(state := PromptPresentedStatus)
    case PromptSubmitted =>
      p.(state := if e.capabilities.queueState == "none" then PromptPresentedStatus else PromptQueuedStatus)
    case PromptAnswered => p.(state := PromptAnsweredStatus, answer := e.payload.answer)
    case PromptExpired => p.(state := PromptExpiredStatus)
    case _ => p.(state := PromptCancelledStatus)
  }

  /** What a prompt does to the task it belongs to. */
  function TaskTold(t: Task, p: Prompt): Task {
    if !p.blocking then t
    else if Waits(p) then t.(completionCandidate := false, state := TaskWaitingPrompt)
    else t.(completionCandidate := false, state := if t.state == TaskWaitingPrompt then TaskActive else t.state)
  }

  predicate IsPromptEvent(e: Event) {
    e.eventType in {PromptSubmitted, PromptRequested, PromptQueued, PromptPresented, PromptAnswered, PromptExpired, PromptCancelled}
  }

  lemma PromptDispatch(g: Facts, e: Event)
    requires IsPromptEvent(e)
    ensures Dispatch(g, e) == OnPrompts(g, ApplyPrompt(g.work, g.prompts, e))
  {
    hide ApplyPrompt;
  }

  /** A prompt event with an id is taken, an answer only to a known prompt that is still open. It
      leaves its record; a blocking one that waits holds its task and the session, and one that
      is closed lets both go on; either way the task's mark is withdrawn. */
  lemma PromptExactly(f: Facts, e: Event)
    requires Local(f.work.session, e) && IsPromptEvent(e) && TasksKeyed(f.work.tasks)
    ensures var v, g, id := Apply(f, e), Found(f, e), e.payload.promptId;
            if id == "" then v == Verdict(g, ReasonInvalidTransition, false)
            else
              var ts, was := TasksMet(g.work, e), PromptMet(f.prompts, e);
              if e.eventType == PromptAnswered &&
                 !(KnownPrompt(f.prompts, id) && was.state in {PromptRequestedStatus, PromptQueuedStatus, PromptPresentedStatus})
              then v == Verdict(g.(work := g.work.(tasks := ts)), ReasonInvalidTransition, false)
              else
                var now, s := PromptMade(was, e), g.work.session;
                var told := now.blocking && now.taskId in ts;
                var held := told && Waits(now);
                var freed := told && !Waits(now) && s.state == SessionWaitingPrompt;
                var w := Work(s.(state := if held then SessionWaitingPrompt else if freed then SessionActive else s.state),
                              if told then ts[now.taskId := TaskTold(ts[now.taskId], now)] else ts);
                v == Verdict(g.(work := w, prompts := f.prompts[id := now]), ReasonAccepted, true)
  {
    hide Found, Dispatch;
    LocalIsDispatched(f, e);
    FoundKeeps(f, e);
    PromptDispatch(Found(f, e), e);
    if e.payload.promptId != "" {
      PromptParts(Found(f, e).work, f.prompts, e);
      EffectIsTold(Found(f, e).work.(tasks := TasksMet(Found(f, e).work, e)), PromptMade(PromptMet(f.prompts, e), e));
    }
  }

  lemma PromptParts(w: Work, ps: map<string, Prompt>, e: Event)
    requires IsPromptEvent(e) && TasksKeyed(w.tasks)
    ensures PromptTask(w, e.taskId) == (w.(tasks := TasksMet(w, e)), TaskName(e)) && TasksKeyed(TasksMet(w, e))
    ensures PromptFor(ps, e, TaskName(e)) == PromptMet(ps, e)
    ensures PromptAfter(PromptMet(ps, e), e) == PromptMade(PromptMet(ps, e), e)
    ensures PromptMade(PromptMet(ps, e), e).state != PromptUnset
  {
  }

  lemma EffectIsTold(w: Work, p: Prompt)
    requires TasksKeyed(w.tasks) && p.state != PromptUnset
    ensures var told := p.blocking && p.taskId in w.tasks;
            var s := w.session;
            var freed := told && !Waits(p) && s.state == SessionWaitingPrompt;
            PromptEffect(w, p) ==
            Work(s.(state := if told && Waits(p) then SessionWaitingPrompt else if freed then SessionActive else s.state),
                 if told then w.tasks[p.taskId := TaskTold(w.tasks[p.taskId], p)] else w.tasks)
  {
  }
}
