/** The facts of one repository's lifecycle and the meaning of one event: the reducer's
    `apply` and its per-family parts, as functions on values. */
module Lifecycle {
  import opened Names

  datatype EventType =
    | RepositoryDiscovered | PolicyConsentRequested | PolicySet
    | SessionStarted | SessionIdle | SessionEnded | SessionCrashed | SessionRecovered
    | PromptSubmitted | PromptRequested | PromptQueued | PromptPresented | PromptAnswered
    | PromptExpired | PromptCancelled
    | TaskStarted | TaskUpdated | TaskCompletionCandidate | TaskCompleted | TaskFailed | TaskCancelled
    | ToolStarted | ToolCompleted | FilesChanged | ModelStopped
    | ChangeDetected | ChangeStaged | ChangeInvalidated
    | VerificationRequested | VerificationStarted | VerificationPassed | VerificationFailed
    | VerificationInvalidated
    | CommitRequested | CommitCreated | CommitFailed | CommitReconciled
    | PushRequested | PushSucceeded | PushFailed | PushSkipped
    | OtherType(name: string)

  /** OtherType("") and OtherClass("") are Go's empty strings: the field was not set. */
  datatype EventClass = Ingress | Domain | OtherClass(name: string)

  datatype SessionStatus =
    | SessionUnset | SessionCreated | SessionActive | SessionWaitingPrompt | SessionSettling
    | SessionCompletionCandidate | SessionEndedStatus | SessionCrashedStatus

  datatype TaskStatus =
    | TaskCreated | TaskActive | TaskWaitingPrompt | TaskCompletionCandidateStatus
    | TaskCompletedStatus | TaskFailedStatus | TaskCancelledStatus

  datatype PromptStatus =
    | PromptUnset | PromptRequestedStatus | PromptQueuedStatus | PromptPresentedStatus
    | PromptAnsweredStatus | PromptExpiredStatus | PromptCancelledStatus

  datatype ChangeStatus =
    | ChangeUnset | ChangeDetectedStatus | ChangeStagedStatus | ChangeAmbiguous | ChangeInvalidatedStatus

  datatype VerificationStatus =
    | VerificationUnset | VerificationRequestedStatus | VerificationRunning
    | VerificationPassedStatus | VerificationFailedStatus | VerificationInvalidatedStatus

  datatype CommitStatus =
    | CommitUnset | CommitQueued | CommitCreatedStatus | CommitFailedStatus | CommitReconcileRequired

  datatype PushStatus =
    | PushUnset | PushQueued | PushSucceededStatus | PushRetryWait | PushBlockedStatus | PushSkippedLocal

  datatype Reason =
    | ReasonAccepted | ReasonDuplicate | ReasonCausalGap | ReasonInvalidTransition
    | ReasonIdempotencyConflict | ReasonWeakStop | ReasonWeakCompletion
    | ReasonEvidenceInvalidated | ReasonWaitingForVerification

  datatype Capabilities =
    Capabilities(queueState: string, taskBoundaries: string, changedPaths: string, monotonicSequence: bool)

  const NO_CAPABILITIES := Capabilities("", "", "", false)

  /** The digests a verification or commit job carries: candidate, base, policy, verifier, guard. */
  datatype Evidence =
    Evidence(candidate: string, base: string, policy: string, verifier: string, guard: string)

  const NO_EVIDENCE := Evidence("", "", "", "", "")

  datatype Payload = Payload(
    status: string, outcome: string, reason: string,
    promptId: string, promptKind: string, blocking: bool, answer: string,
    baselineHead: string, baselineIndex: string, statusDigest: string, baselinePathsDigest: string,
    evidence: Evidence, treeDigest: string, indexDigest: string, messageDigest: string,
    evidenceDigest: string, verificationId: string,
    commitJobId: string, commitSha: string,
    pushJobId: string, remoteDigest: string, ref: string, errorCode: string,
    explicitComplete: bool, ambiguous: bool, localOnly: bool, publicConsent: bool,
    visibility: string)

  /** A delivered event; `contentHash` is what the typed-event hash gives for it. */
  datatype Event = Event(
    id: string, eventType: EventType, eventClass: EventClass,
    idAlias: string, typeAlias: EventType, classAlias: EventClass,
    sessionId: string, taskId: string, changeId: string,
    streamId: string, causationId: string, idempotencyKey: string,
    producerSeq: Option<int>,
    capabilities: Capabilities, payload: Payload, digest: string, contentHash: string)

  datatype Session = Session(
    id: string, repositoryId: string, state: SessionStatus,
    baselineHead: string, baselineIndex: string, statusDigest: string, baselinePathsDigest: string,
    capabilities: Capabilities, activeTools: int, settlingUntil: int)

  const NO_SESSION := Session("", "", SessionUnset, "", "", "", "", NO_CAPABILITIES, 0, 0)

  datatype Task = Task(
    id: string, sessionId: string, state: TaskStatus, activeTools: int,
    completionClaim: bool, completionCandidate: bool)

  datatype Prompt = Prompt(
    id: string, taskId: string, kind: string, state: PromptStatus, blocking: bool, answer: string)

  const NO_PROMPT := Prompt("", "", "", PromptUnset, false, "")

  datatype Candidate = Candidate(
    id: string, taskId: string, state: ChangeStatus, evidence: Evidence,
    treeDigest: string, indexDigest: string, messageDigest: string, ambiguous: bool)

  const NO_CANDIDATE := Candidate("", "", ChangeUnset, NO_EVIDENCE, "", "", "", false)

  datatype Verification = Verification(
    id: string, candidateId: string, evidence: Evidence, evidenceDigest: string,
    state: VerificationStatus, reusable: bool)

  const NO_VERIFICATION := Verification("", "", NO_EVIDENCE, "", VerificationUnset, false)

  datatype Commit = Commit(
    id: string, candidateId: string, evidence: Evidence, messageDigest: string,
    commitSha: string, state: CommitStatus)

  const NO_COMMIT := Commit("", "", NO_EVIDENCE, "", "", CommitUnset)

  datatype Push = Push(
    id: string, commitId: string, remoteDigest: string, ref: string, commitSha: string,
    state: PushStatus, localOnly: bool)

  const NO_PUSH := Push("", "", "", "", "", PushUnset, false)

  datatype Policy = Policy(
    decision: string, visibility: string, workflow: string, digest: string,
    localOnly: bool, publicConsent: bool, revision: int)

  const NO_POLICY := Policy("", "", "", "", false, false, 0)

  /** The session and its tasks. */
  datatype Work = Work(session: Session, tasks: map<string, Task>)

  /** Candidates and what is bound to them. */
  datatype Jobs = Jobs(
    candidates: map<string, Candidate>, verifications: map<string, Verification>,
    commits: map<string, Commit>, pushes: map<string, Push>)

  /** The part of the projection that `apply` reads and writes. */
  datatype Facts = Facts(
    repositoryId: string, policy: Policy, work: Work, prompts: map<string, Prompt>, jobs: Jobs)

  function NewFacts(repositoryId: string): Facts {
    Facts(repositoryId, NO_POLICY, Work(NO_SESSION, map[]), map[], Jobs(map[], map[], map[], map[]))
  }

  /** What applying one event gives: the result, the reason, and whether it was applied. A
      refused event may still have touched the session or a task. */
  datatype Verdict<+T> = Verdict(result: T, reason: Reason, ok: bool)

  function Refuse<T>(x: T): Verdict<T> {
    Verdict(x, ReasonInvalidTransition, false)
  }

  function Accept<T>(x: T): Verdict<T> {
    Verdict(x, ReasonAccepted, true)
  }

  /** A map read with Go's zero value for a missing key. */
  function Find<V>(m: map<string, V>, k: string, zero: V): V {
    if k in m then m[k] else zero
  }

  // ---------------------------------------------------------------- checks on text

  predicate ValidRef(s: string) {
    && "refs/" <= s && |s| > 5
    && (forall i :: 0 <= i < |s| - 1 ==> !(s[i] == '.' && s[i + 1] == '.') && !(s[i] == '/' && s[i + 1] == '/'))
    && (forall i :: 0 <= i < |s| ==> s[i] != '\0' && s[i] != '\r' && s[i] != '\n')
  }

  // ---------------------------------------------------------------- evidence

  predicate Complete(v: Evidence) {
    v.candidate != "" && v.base != "" && v.policy != "" && v.verifier != "" && v.guard != ""
  }

  /** Every digest is there and is the candidate's own. */
  predicate ExactEvidence(v: Evidence, c: Candidate) {
    Complete(v) && v == c.evidence
  }

  function InvalidateVerifications(vs: map<string, Verification>, ids: set<string>): map<string, Verification> {
    map k | k in vs ::
      if vs[k].candidateId in ids then vs[k].(reusable := false, state := VerificationInvalidatedStatus) else vs[k]
  }

  function InvalidateCommits(cs: map<string, Commit>, ids: set<string>): map<string, Commit> {
    map k | k in cs ::
      if cs[k].candidateId in ids && cs[k].state != CommitCreatedStatus
      then cs[k].(state := CommitReconcileRequired) else cs[k]
  }

  /** `invalidateEvidence` for each change in `ids`. */
  function Invalidate(j: Jobs, ids: set<string>): Jobs {
    j.(verifications := InvalidateVerifications(j.verifications, ids),
       commits := InvalidateCommits(j.commits, ids))
  }

  predicate Supports(v: Verification, c: Candidate, job: Commit) {
    v.candidateId == c.id && v.reusable && v.state == VerificationPassedStatus &&
    ExactEvidence(v.evidence, c) && job.evidence == v.evidence
  }

  predicate HasReusableVerification(vs: map<string, Verification>, c: Candidate, job: Commit) {
    exists k :: k in vs && Supports(vs[k], c, job)
  }

  // ---------------------------------------------------------------- prompts and tasks

  predicate PromptOpen(s: PromptStatus) {
    s == PromptRequestedStatus || s == PromptQueuedStatus || s == PromptPresentedStatus
  }

  predicate Blocks(p: Prompt, taskId: string) {
    (taskId == "" || p.taskId == taskId) && p.blocking && PromptOpen(p.state)
  }

  /** A blocking prompt waits on this task; on any task when `taskId` is empty. */
  predicate HasBlockingPrompt(ps: map<string, Prompt>, taskId: string) {
    exists k :: k in ps && Blocks(ps[k], taskId)
  }

  predicate HoldsCompletion(p: Prompt, taskId: string) {
    p.taskId == taskId && p.blocking && (p.state == PromptQueuedStatus || p.state == PromptPresentedStatus)
  }

  predicate CompletionEligible(s: Session, ps: map<string, Prompt>, t: Task) {
    && t.completionCandidate
    && t.activeTools <= 0
    && (forall k :: k in ps ==> !HoldsCompletion(ps[k], t.id))
    && (s.capabilities.queueState == "native" || s.capabilities.queueState == "none")
  }

  /** The event's task, or a new one; an event without a task id names the synthetic task. */
  function TaskFor(w: Work, taskId: string): Task {
    var id := if taskId == "" then "synthetic-task" else taskId;
    Find(w.tasks, id, Task(id, w.session.id, TaskCreated, 0, false, false))
  }

  /** Tasks sit under their own ids, as they do in every state a run reaches. */
  predicate TasksKeyed(ts: map<string, Task>) {
    forall k :: k in ts ==> ts[k].id == k
  }

  function PutTask(w: Work, t: Task): Work {
    w.(tasks := w.tasks[t.id := t])
  }

  function SetSession(w: Work, s: SessionStatus): Work {
    w.(session := w.session.(state := s))
  }

  /** The settling deadline. The reducer runs with no clock and no settle period, so it is 0. */
  const SETTLE_UNTIL := 0

  function Settle(w: Work): Work {
    w.(session := w.session.(state := SessionSettling, settlingUntil := SETTLE_UNTIL))
  }

  // ---------------------------------------------------------------- apply, by family

  function WithdrawCompletion(t: Task): Task {
    t.(completionCandidate := false,
       state := if t.state == TaskCompletionCandidateStatus then TaskActive else t.state)
  }

  function WithdrawAll(ts: map<string, Task>): map<string, Task> {
    map k | k in ts :: WithdrawCompletion(ts[k])
  }

  function ApplyFilesChanged(f: Facts): Verdict<Facts> {
    Verdict(f.(jobs := Invalidate(f.jobs, f.jobs.candidates.Keys), work := f.work.(tasks := WithdrawAll(f.work.tasks))),
            if f.jobs.candidates != map[] then ReasonEvidenceInvalidated else ReasonAccepted, true)
  }

  function NextPolicy(was: Policy, p: Payload): Policy {
    Policy(p.outcome, p.visibility, p.status, p.evidence.policy, p.localOnly,
           p.publicConsent || (p.visibility == "public" && p.explicitComplete), was.revision + 1)
  }

  /** A policy already in force is replaced by one that differs in what evidence is bound to. */
  predicate PolicyTakesEffect(was: Policy, next: Policy) {
    was.revision > 0 && (was.digest != next.digest || was.decision != next.decision ||
                         was.visibility != next.visibility || was.localOnly != next.localOnly)
  }

  function ApplyPolicySet(f: Facts, p: Payload): Verdict<Facts> {
    var next := NextPolicy(f.policy, p);
    if PolicyTakesEffect(f.policy, next) then
      Verdict(f.(policy := next, jobs := Invalidate(f.jobs, f.jobs.candidates.Keys)), ReasonEvidenceInvalidated, true)
    else Accept(f.(policy := next))
  }

  function ApplySession(w: Work, ps: map<string, Prompt>, e: Event): Verdict<Work> {
    match e.eventType
    case SessionStarted =>
      var p := e.payload;
      var v := w.(session := w.session.(state := SessionActive, baselineHead := p.baselineHead,
                                        baselineIndex := p.baselineIndex, statusDigest := p.statusDigest,
                                        baselinePathsDigest := p.baselinePathsDigest));
      Accept(if e.taskId != "" then PutTask(v, TaskFor(v, e.taskId).(state := TaskActive)) else v)
    case SessionIdle =>
      if w.session.state == SessionEndedStatus || w.session.state == SessionCrashedStatus then Refuse(w)
      else if w.session.activeTools > 0 || HasBlockingPrompt(ps, "") then
        Accept(w.(session := w.session.(state := SessionWaitingPrompt, settlingUntil := SETTLE_UNTIL)))
      else Accept(Settle(w))
    case ModelStopped =>
      if w.session.state == SessionEndedStatus then Refuse(w)
      else if w.session.activeTools > 0 || HasBlockingPrompt(ps, "") then
        Verdict(SetSession(w, SessionWaitingPrompt), ReasonWeakStop, true)
      else Verdict(Settle(w), ReasonWeakStop, true)
    case SessionEnded => Accept(SetSession(w, SessionEndedStatus))
    case SessionCrashed => Accept(SetSession(w, SessionCrashedStatus))
    case SessionRecovered =>
      if w.session.state != SessionCrashedStatus then Refuse(w) else Accept(SetSession(w, SessionActive))
    case _ => Refuse(w)
  }

  function ApplyTool(w: Work, e: Event): Verdict<Work> {
    if e.taskId !in w.tasks then Refuse(w)
    else
      var t := w.tasks[e.taskId];
      if e.eventType == ToolStarted then
        Accept(PutTask(w.(session := w.session.(activeTools := w.session.activeTools + 1)),
                       t.(activeTools := t.activeTools + 1)))
      else if e.eventType == ToolCompleted && t.activeTools > 0 then
        var left := if w.session.activeTools > 0 then w.session.activeTools - 1 else w.session.activeTools;
        Accept(PutTask(w.(session := w.session.(activeTools := left)), t.(activeTools := t.activeTools - 1)))
      else Accept(PutTask(w, t))
  }

  function ApplyTaskCompleted(w: Work, ps: map<string, Prompt>, e: Event): Verdict<Work> {
    if e.taskId !in w.tasks then Refuse(w)
    else
      var t := w.tasks[e.taskId].(completionClaim := true);
      if e.eventClass != Domain then
        if t.activeTools > 0 || HasBlockingPrompt(ps, t.id) then
          Verdict(SetSession(PutTask(w, t.(state := TaskWaitingPrompt)), SessionWaitingPrompt), ReasonWeakCompletion, true)
        else Verdict(Settle(PutTask(w, t)), ReasonWeakCompletion, true)
      else if !CompletionEligible(w.session, ps, t) then Refuse(PutTask(w, t))
      else Accept(PutTask(w, t.(state := TaskCompletedStatus)))
  }

  function ApplyTask(w: Work, ps: map<string, Prompt>, e: Event): Verdict<Work> {
    match e.eventType
    case TaskStarted => Accept(SetSession(PutTask(w, TaskFor(w, e.taskId).(state := TaskActive)), SessionActive))
    case TaskUpdated | ToolStarted | ToolCompleted => ApplyTool(w, e)
    case TaskCompleted => ApplyTaskCompleted(w, ps, e)
    case TaskCompletionCandidate =>
      if e.taskId !in w.tasks then Refuse(w)
      else
        var t := w.tasks[e.taskId];
        if !t.completionClaim || t.activeTools > 0 || HasBlockingPrompt(ps, t.id) then Refuse(w)
        else Accept(SetSession(PutTask(w, t.(completionCandidate := true, state := TaskCompletionCandidateStatus)),
                               SessionCompletionCandidate))
    case TaskFailed =>
      if e.taskId !in w.tasks then Refuse(w) else Accept(PutTask(w, w.tasks[e.taskId].(state := TaskFailedStatus)))
    case TaskCancelled =>
      if e.taskId !in w.tasks then Refuse(w) else Accept(PutTask(w, w.tasks[e.taskId].(state := TaskCancelledStatus)))
    case _ => Refuse(w)
  }

  /** The prompt record an event starts from: the stored one, or a new one, with its task and
      kind filled in. */
  function PromptFor(ps: map<string, Prompt>, e: Event, taskId: string): Prompt {
    var p := Find(ps, e.payload.promptId, NO_PROMPT);
    var q := if p.id == ""
             then Prompt(e.payload.promptId, taskId, e.payload.promptKind, PromptRequestedStatus, e.payload.blocking, "")
             else p;
    q.(taskId := OrElse(q.taskId, taskId), kind := OrElse(q.kind, e.payload.promptKind))
  }

  function PromptAfter(p: Prompt, e: Event): Prompt {
    match e.eventType
    case PromptSubmitted =>
      p.(state := if e.capabilities.queueState == "none" then PromptPresentedStatus else PromptQueuedStatus)
    case PromptRequested => p.(state := PromptRequestedStatus)
    case PromptQueued => p.(state := PromptQueuedStatus)
    case PromptPresented => p.(state := PromptPresentedStatus)
    case PromptAnswered => p.(state := PromptAnsweredStatus, answer := e.payload.answer)
    case PromptExpired => p.(state := PromptExpiredStatus)
    case PromptCancelled => p.(state := PromptCancelledStatus)
    case _ => p
  }

  /** A blocking prompt holds its task and the session; closing it lets them go on. */
  function PromptEffect(w: Work, p: Prompt): Work {
    if p.taskId !in w.tasks || !p.blocking then w
    else
      var t := w.tasks[p.taskId].(completionCandidate := false);
      if PromptOpen(p.state) then SetSession(PutTask(w, t.(state := TaskWaitingPrompt)), SessionWaitingPrompt)
      else if p.state == PromptUnset then w
      else
        PutTask(if w.session.state == SessionWaitingPrompt then SetSession(w, SessionActive) else w,
                if t.state == TaskWaitingPrompt then t.(state := TaskActive) else t)
  }

  /** A prompt without a task id belongs to the synthetic task, which it starts if new. */
  function PromptTask(w: Work, taskId: string): (Work, string) {
    if taskId != "" then (w, taskId)
    else
      var t := TaskFor(w, taskId);
      (if t.state == TaskCreated then PutTask(w, t.(state := TaskActive)) else w, t.id)
  }

  function ApplyPrompt(w: Work, ps: map<string, Prompt>, e: Event): (r: Verdict<(Work, map<string, Prompt>)>)
    ensures !r.ok ==> r.result.1 == ps
  {
    var id := e.payload.promptId;
    if id == "" then Refuse((w, ps))
    else
      var (v, taskId) := PromptTask(w, e.taskId);
      var p := PromptFor(ps, e, taskId);
      if e.eventType == PromptAnswered && (Find(ps, id, NO_PROMPT).id == "" || !PromptOpen(p.state)) then Refuse((v, ps))
      else
        var q := PromptAfter(p, e);
        Accept((PromptEffect(v, q), ps[id := q]))
  }

  function CandidateAfter(c: Candidate, e: Event): Candidate {
    var p := e.payload;
    Candidate(
      OrElse(c.id, e.changeId),
      if c.id == "" then e.taskId else c.taskId,
      (match e.eventType
       case ChangeDetected => if p.ambiguous then ChangeAmbiguous else ChangeDetectedStatus
       case ChangeStaged => ChangeStagedStatus
       case ChangeInvalidated => ChangeInvalidatedStatus
       case _ => c.state),
      p.evidence, p.treeDigest, p.indexDigest, p.messageDigest, p.ambiguous)
  }

  /** A known candidate now carries another digest. */
  predicate DigestsChanged(before: Candidate, after: Candidate) {
    before.evidence.candidate != "" &&
    (before.evidence != after.evidence || before.treeDigest != after.treeDigest ||
     before.indexDigest != after.indexDigest || before.messageDigest != after.messageDigest)
  }

  function ApplyChange(j: Jobs, e: Event): (r: Verdict<Jobs>)
    ensures !r.ok ==> r.result == j
  {
    if e.changeId == "" then Refuse(j)
    else
      var before := Find(j.candidates, e.changeId, NO_CANDIDATE);
      var after := CandidateAfter(before, e);
      var k := j.(candidates := j.candidates[e.changeId := after]);
      if DigestsChanged(before, after) || e.eventType == ChangeInvalidated then
        Verdict(Invalidate(k, {e.changeId}), ReasonEvidenceInvalidated, true)
      else Accept(k)
  }

  function VerificationKey(e: Event): string {
    OrElse(e.payload.verificationId, e.id)
  }

  /** The verification record an event starts from, carrying the event's digests. */
  function VerificationFor(vs: map<string, Verification>, e: Event): Verification {
    var v := Find(vs, VerificationKey(e), NO_VERIFICATION);
    var w := if v.id == ""
             then Verification(VerificationKey(e), e.changeId, NO_EVIDENCE, "", VerificationUnset, false) else v;
    w.(evidence := e.payload.evidence, evidenceDigest := e.payload.evidenceDigest)
  }

  /** What becomes of one job or verification: its new record, or why it is refused. */
  datatype Decision<+T> = Yes(value: T) | No(reason: Reason)

  function VerificationAfter(v: Verification, c: Candidate, e: Event): Decision<Verification> {
    match e.eventType
    case VerificationRequested => Yes(v.(state := VerificationRequestedStatus))
    case VerificationStarted => Yes(v.(state := VerificationRunning))
    case VerificationPassed =>
      if !ExactEvidence(v.evidence, c) then No(ReasonInvalidTransition)
      else Yes(v.(state := VerificationPassedStatus, reusable := true))
    case VerificationFailed => Yes(v.(state := VerificationFailedStatus, reusable := false))
    case VerificationInvalidated => Yes(v.(state := VerificationInvalidatedStatus, reusable := false))
    case _ => Yes(v)
  }

  function ApplyVerification(j: Jobs, e: Event): (r: Verdict<Jobs>)
    ensures !r.ok ==> r.result == j
  {
    if e.changeId !in j.candidates then Refuse(j)
    else
      match VerificationAfter(VerificationFor(j.verifications, e), j.candidates[e.changeId], e)
      case Yes(v) => Accept(j.(verifications := j.verifications[VerificationKey(e) := v]))
      case No(reason) => Verdict(j, reason, false)
  }

  function OrElse(s: string, fallback: string): string {
    if s == "" then fallback else s
  }

  function FillEvidence(v: Evidence, c: Candidate): Evidence {
    Evidence(OrElse(v.candidate, c.evidence.candidate), OrElse(v.base, c.evidence.base),
             OrElse(v.policy, c.evidence.policy), OrElse(v.verifier, c.evidence.verifier),
             OrElse(v.guard, c.evidence.guard))
  }

  /** The commit job an event starts from: the event's digests, the candidate's where the
      event has none. */
  function CommitFor(cs: map<string, Commit>, c: Candidate, e: Event): Commit {
    var j := Find(cs, e.payload.commitJobId, NO_COMMIT);
    var k := if j.id == "" then Commit(e.payload.commitJobId, e.changeId, NO_EVIDENCE, "", "", CommitUnset) else j;
    k.(evidence := FillEvidence(e.payload.evidence, c), messageDigest := OrElse(e.payload.messageDigest, c.messageDigest))
  }

  predicate ExactCommit(j: Commit, c: Candidate) {
    ExactEvidence(j.evidence, c) && j.messageDigest != "" && j.messageDigest == c.messageDigest
  }

  function CommitAfter(vs: map<string, Verification>, j: Commit, c: Candidate, e: Event): Decision<Commit> {
    match e.eventType
    case CommitRequested =>
      if !ExactCommit(j, c) then No(ReasonInvalidTransition)
      else if !HasReusableVerification(vs, c, j) then No(ReasonWaitingForVerification)
      else Yes(j.(state := CommitQueued))
    case CommitCreated | CommitReconciled =>
      if j.state == CommitUnset || !ExactCommit(j, c) || !ValidSha(e.payload.commitSha) then No(ReasonInvalidTransition)
      else Yes(j.(commitSha := e.payload.commitSha, state := CommitCreatedStatus))
    case CommitFailed => Yes(j.(state := CommitFailedStatus))
    case _ => Yes(j)
  }

  function ApplyCommit(j: Jobs, e: Event): (r: Verdict<Jobs>)
    ensures !r.ok ==> r.result == j
  {
    if e.payload.commitJobId == "" || e.changeId !in j.candidates then Refuse(j)
    else
      var c := j.candidates[e.changeId];
      if e.payload.evidence.candidate != "" && e.payload.evidence.candidate != c.evidence.candidate then Refuse(j)
      else
        match CommitAfter(j.verifications, CommitFor(j.commits, c, e), c, e)
        case Yes(k) => Accept(j.(commits := j.commits[e.payload.commitJobId := k]))
        case No(reason) => Verdict(j, reason, false)
  }

  function PushFor(ps: map<string, Push>, e: Event): Push {
    var p := Find(ps, e.payload.pushJobId, NO_PUSH);
    var q := if p.id == ""
             then Push(e.payload.pushJobId, e.payload.commitJobId, e.payload.remoteDigest, e.payload.ref,
                       e.payload.commitSha, PushUnset, e.payload.localOnly)
             else p;
    q.(commitSha := OrElse(q.commitSha, e.payload.commitSha))
  }

  /** The event names another commit, remote or ref than the job already has. */
  predicate PushConflicts(p: Push, e: Event) {
    p.id != "" &&
    ((e.payload.commitSha != "" && e.payload.commitSha != p.commitSha) ||
     (e.payload.remoteDigest != "" && e.payload.remoteDigest != p.remoteDigest) ||
     (e.payload.ref != "" && e.payload.ref != p.ref))
  }

  ghost function CreatedCommits(cs: map<string, Commit>, sha: string): set<string> {
    set k | k in cs && cs[k].state == CommitCreatedStatus && cs[k].commitSha == sha
  }

  predicate BlockingError(code: string) {
    code == "auth" || code == "non-fast-forward" || code == "unsafe" || code == "collision"
  }

  /** A push takes its commit job from a created commit with its SHA; of several the least key
      stands for the one Go's map iteration would meet first. */
  ghost function PushAfter(cs: map<string, Commit>, p: Push, e: Event): Decision<Push> {
    match e.eventType
    case PushRequested =>
      var created := CreatedCommits(cs, p.commitSha);
      if !ValidDigest(p.remoteDigest) || !ValidRef(p.ref) || created == {} then No(ReasonInvalidTransition)
      else Yes(p.(commitId := OrElse(p.commitId, cs[Min(created)].id), state := PushQueued))
    case PushSucceeded =>
      if p.state == PushUnset || p.commitSha != e.payload.commitSha then No(ReasonInvalidTransition)
      else Yes(p.(state := PushSucceededStatus))
    case PushFailed =>
      Yes(p.(state := if BlockingError(e.payload.errorCode) then PushBlockedStatus else PushRetryWait))
    case _ => Yes(p.(state := PushSkippedLocal, localOnly := true))
  }

  ghost function ApplyPush(j: Jobs, e: Event): (r: Verdict<Jobs>)
    ensures !r.ok ==> r.result == j
  {
    var p := PushFor(j.pushes, e);
    if e.payload.pushJobId == "" || PushConflicts(Find(j.pushes, e.payload.pushJobId, NO_PUSH), e) || !ValidSha(p.commitSha)
    then Refuse(j)
    else
      match PushAfter(j.commits, p, e)
      case Yes(q) => Accept(j.(pushes := j.pushes[e.payload.pushJobId := q]))
      case No(reason) => Verdict(j, reason, false)
  }

  // ---------------------------------------------------------------- apply

  /** The first event with a session opens it; the first with capabilities fixes them. */
  function GreetSession(s: Session, repositoryId: string, e: Event): Session {
    var t := if s.id == "" && e.sessionId != ""
             then NO_SESSION.(id := e.sessionId, repositoryId := repositoryId, state := SessionCreated) else s;
    if e.capabilities != NO_CAPABILITIES && t.capabilities == NO_CAPABILITIES then t.(capabilities := e.capabilities) else t
  }

  function Greet(f: Facts, e: Event): Facts {
    f.(work := f.work.(session := GreetSession(f.work.session, f.repositoryId, e)))
  }

  predicate ForeignSession(s: Session, e: Event) {
    e.sessionId != "" && s.id != "" && e.sessionId != s.id
  }

  datatype Family =
    | NoteFamily | FilesFamily | PolicyFamily | SessionFamily | TaskFamily | PromptFamily
    | ChangeFamily | VerificationFamily | CommitFamily | PushFamily | UnknownFamily

  function FamilyOf(t: EventType): Family {
    match t
    case RepositoryDiscovered | PolicyConsentRequested => NoteFamily
    case FilesChanged => FilesFamily
    case PolicySet => PolicyFamily
    case SessionStarted | SessionIdle | ModelStopped | SessionEnded | SessionCrashed | SessionRecovered => SessionFamily
    case TaskStarted | TaskUpdated | ToolStarted | ToolCompleted | TaskCompleted
      | TaskCompletionCandidate | TaskFailed | TaskCancelled => TaskFamily
    case PromptSubmitted | PromptRequested | PromptQueued | PromptPresented | PromptAnswered
      | PromptExpired | PromptCancelled => PromptFamily
    case ChangeDetected | ChangeStaged | ChangeInvalidated => ChangeFamily
    case VerificationRequested | VerificationStarted | VerificationPassed | VerificationFailed
      | VerificationInvalidated => VerificationFamily
    case CommitRequested | CommitCreated | CommitFailed | CommitReconciled => CommitFamily
    case PushRequested | PushSucceeded | PushFailed | PushSkipped => PushFamily
    case OtherType(_) => UnknownFamily
  }

  function OnWork(f: Facts, v: Verdict<Work>): Verdict<Facts> {
    Verdict(f.(work := v.result), v.reason, v.ok)
  }

  function OnPrompts(f: Facts, v: Verdict<(Work, map<string, Prompt>)>): Verdict<Facts> {
    Verdict(f.(work := v.result.0, prompts := v.result.1), v.reason, v.ok)
  }

  function OnJobs(f: Facts, v: Verdict<Jobs>): Verdict<Facts> {
    Verdict(f.(jobs := v.result), v.reason, v.ok)
  }

  ghost function ApplyJobs(j: Jobs, e: Event): (r: Verdict<Jobs>)
    ensures !r.ok ==> r.result == j
  {
    match FamilyOf(e.eventType)
    case ChangeFamily => ApplyChange(j, e)
    case VerificationFamily => ApplyVerification(j, e)
    case CommitFamily => ApplyCommit(j, e)
    case PushFamily => ApplyPush(j, e)
    case _ => Refuse(j)
  }

  ghost function Dispatch(f: Facts, e: Event): Verdict<Facts> {
    match FamilyOf(e.eventType)
    case NoteFamily => Accept(f)
    case FilesFamily => ApplyFilesChanged(f)
    case PolicyFamily => ApplyPolicySet(f, e.payload)
    case SessionFamily => OnWork(f, ApplySession(f.work, f.prompts, e))
    case TaskFamily => OnWork(f, ApplyTask(f.work, f.prompts, e))
    case PromptFamily => OnPrompts(f, ApplyPrompt(f.work, f.prompts, e))
    case ChangeFamily | VerificationFamily | CommitFamily | PushFamily => OnJobs(f, ApplyJobs(f.jobs, e))
    case UnknownFamily => Refuse(f)
  }

  ghost function Apply(f: Facts, e: Event): Verdict<Facts> {
    var g := Greet(f, e);
    if ForeignSession(g.work.session, e) then Refuse(g) else Dispatch(g, e)
  }
}
