/** Completion authority over whole histories: a task is only ever completed by a domain fact
    about a task that was marked as candidate earlier, while it claimed completion with no tool
    running and no prompt blocking it, and nothing since has withdrawn the mark. */
module Completion {
  import opened Names
  import opened Lifecycle
  import opened Reducer
  import opened History
  import opened CurrentEvidence
  import opened Freshness

  /** The event names the task, which claims completion with nothing running or blocking. */
  predicate MarksBy(w: Work, ps: map<string, Prompt>, e: Event, k: string) {
    k == e.taskId && k in w.tasks && w.tasks[k].completionClaim && w.tasks[k].activeTools <= 0 && !HasBlockingPrompt(ps, k)
  }

  /** The event is a domain fact about the task, and the completion conditions hold. */
  predicate EarnsBy(w: Work, ps: map<string, Prompt>, e: Event, k: string) {
    k == e.taskId && k in w.tasks && e.eventClass == Domain &&
    CompletionEligible(w.session, ps, w.tasks[k].(completionClaim := true))
  }

  /** Applied to `f`, the event marks the task as completion candidate, on its own claim. */
  ghost predicate Marks(f: Facts, e: Event, k: string) {
    !Foreign(f, e) && e.eventType == TaskCompletionCandidate && MarksBy(Greet(f, e).work, f.prompts, e, k)
  }

  /** Applied to `f`, the event completes the task: a domain fact, and the conditions hold. */
  ghost predicate Completes(f: Facts, e: Event, k: string) {
    !Foreign(f, e) && e.eventType == TaskCompleted && EarnsBy(Greet(f, e).work, f.prompts, e, k)
  }

  /** The prompt event leaves a blocking prompt of the task, open or closed. */
  ghost predicate Prompts(w: Work, ps: map<string, Prompt>, e: Event, k: string) {
    var v := ApplyPrompt(w, ps, e);
    v.ok && e.payload.promptId in v.result.1 && v.result.1[e.payload.promptId].taskId == k && v.result.1[e.payload.promptId].blocking
  }

  /** Applied to `f`, the event takes the mark away: files changed, or a blocking prompt of the
      task came up or moved. */
  ghost predicate Withdraws(f: Facts, e: Event, k: string) {
    && !Foreign(f, e)
    && (e.eventType == FilesChanged || (FamilyOf(e.eventType) == PromptFamily && Prompts(Greet(f, e).work, f.prompts, e, k)))
  }

  predicate Marked(ts: map<string, Task>, k: string) {
    k in ts && ts[k].completionCandidate
  }

  predicate Finished(ts: map<string, Task>, k: string) {
    k in ts && ts[k].state == TaskCompletedStatus
  }

  // ---------------------------------------------------------------- one event

  /** Nothing at all is gained. */
  ghost predicate Quiet(before: map<string, Task>, after: map<string, Task>) {
    && TasksKeyed(after)
    && forall j :: (Marked(after, j) ==> Marked(before, j)) && (Finished(after, j) ==> Finished(before, j))
  }

  lemma SessionQuiet(w: Work, ps: map<string, Prompt>, e: Event)
    requires TasksKeyed(w.tasks)
    ensures Quiet(w.tasks, ApplySession(w, ps, e).result.tasks)
  {
    hide HasBlockingPrompt;
  }

  lemma ToolQuiet(w: Work, e: Event)
    requires TasksKeyed(w.tasks)
    ensures Quiet(w.tasks, ApplyTool(w, e).result.tasks)
  {
  }

  lemma ClaimGains(w: Work, ps: map<string, Prompt>, e: Event)
    requires TasksKeyed(w.tasks)
    ensures var ts := ApplyTaskCompleted(w, ps, e).result.tasks;
            && TasksKeyed(ts)
            && (forall j :: Marked(ts, j) ==> Marked(w.tasks, j))
            && (forall j :: Finished(ts, j) ==> Finished(w.tasks, j) || EarnsBy(w, ps, e, j))
  {
    hide HasBlockingPrompt, CompletionEligible;
  }

  lemma TaskGains(w: Work, ps: map<string, Prompt>, e: Event)
    requires TasksKeyed(w.tasks)
    ensures var ts := ApplyTask(w, ps, e).result.tasks;
            && TasksKeyed(ts)
            && (forall j :: Marked(ts, j) ==> Marked(w.tasks, j) || (e.eventType == TaskCompletionCandidate && MarksBy(w, ps, e, j)))
            && (forall j :: Finished(ts, j) ==> Finished(w.tasks, j) || (e.eventType == TaskCompleted && EarnsBy(w, ps, e, j)))
  {
    hide HasBlockingPrompt, CompletionEligible, ApplyTool, ApplyTaskCompleted;
    match e.eventType
    case TaskUpdated | ToolStarted | ToolCompleted => ToolQuiet(w, e);
    case TaskCompleted => ClaimGains(w, ps, e);
    case _ =>
  }

  lemma EffectQuiet(w: Work, p: Prompt)
    requires TasksKeyed(w.tasks) && p.state != PromptUnset
    ensures var ts := PromptEffect(w, p).tasks;
            Quiet(w.tasks, ts) && (p.blocking ==> !Marked(ts, p.taskId))
  {
  }

  lemma PromptTaskQuiet(w: Work, taskId: string)
    requires TasksKeyed(w.tasks)
    ensures Quiet(w.tasks, PromptTask(w, taskId).0.tasks)
  {
  }

  lemma PromptQuiet(w: Work, ps: map<string, Prompt>, e: Event)
    requires TasksKeyed(w.tasks) && FamilyOf(e.eventType) == PromptFamily
    ensures Quiet(w.tasks, ApplyPrompt(w, ps, e).result.0.tasks)
    ensures forall k :: Prompts(w, ps, e, k) ==> !Marked(ApplyPrompt(w, ps, e).result.0.tasks, k)
  {
    hide PromptEffect, PromptTask, PromptFor;
    if e.payload.promptId != "" {
      var (v, taskId) := PromptTask(w, e.taskId);
      PromptTaskQuiet(w, e.taskId);
      var q := PromptAfter(PromptFor(ps, e, taskId), e);
      EffectQuiet(v, q);
    }
  }

  lemma FilesQuiet(w: Work)
    requires TasksKeyed(w.tasks)
    ensures Quiet(w.tasks, WithdrawAll(w.tasks)) && forall k :: !Marked(WithdrawAll(w.tasks), k)
  {
  }

  /** What an event does to the tasks, family by family. */
  ghost function TasksVerdict(f: Facts, e: Event): map<string, Task> {
    if Foreign(f, e) then f.work.tasks
    else
      var w := Greet(f, e).work;
      match FamilyOf(e.eventType)
      case FilesFamily => WithdrawAll(f.work.tasks)
      case SessionFamily => ApplySession(w, f.prompts, e).result.tasks
      case TaskFamily => ApplyTask(w, f.prompts, e).result.tasks
      case PromptFamily => ApplyPrompt(w, f.prompts, e).result.0.tasks
      case _ => f.work.tasks
  }

  lemma TasksOf(f: Facts, e: Event)
    ensures Apply(f, e).result.work.tasks == TasksVerdict(f, e)
  {
    hide ApplySession, ApplyTask, ApplyPrompt, ApplyJobs, PolicyTakesEffect, Invalidate;
  }

  /** After an event a task is marked only if it was and the event did not withdraw the mark,
      or the event marks it; it is completed only if it was, or the event completes it. */
  lemma TaskStep(f: Facts, e: Event, k: string)
    requires TasksKeyed(f.work.tasks)
    ensures var ts := Apply(f, e).result.work.tasks;
            && TasksKeyed(ts)
            && (Marked(ts, k) ==> (Marked(f.work.tasks, k) && !Withdraws(f, e, k)) || Marks(f, e, k))
            && (Finished(ts, k) ==> Finished(f.work.tasks, k) || Completes(f, e, k))
  {
    hide Apply, ApplySession, ApplyTask, ApplyPrompt, WithdrawAll, HasBlockingPrompt, CompletionEligible, Prompts;
    TasksOf(f, e);
    if !Foreign(f, e) {
      var w := Greet(f, e).work;
      match FamilyOf(e.eventType)
      case FilesFamily => FilesQuiet(f.work);
      case SessionFamily => SessionQuiet(w, f.prompts, e);
      case TaskFamily => TaskGains(w, f.prompts, e);
      case PromptFamily => PromptQuiet(w, f.prompts, e);
      case _ =>
    }
  }

  // ---------------------------------------------------------------- whole logs

  ghost predicate MarkedAt(r: string, log: seq<Event>, i: nat, k: string) {
    i < |log| && Marks(Before(r, log, i), log[i], k)
  }

  ghost predicate CompletedAt(r: string, log: seq<Event>, n: nat, k: string) {
    n < |log| && Completes(Before(r, log, n), log[n], k)
  }

  /** Between the two positions nothing withdrew the mark. */
  ghost predicate Unwithdrawn(r: string, log: seq<Event>, i: nat, n: nat, k: string) {
    n <= |log| && forall m :: i < m < n ==> !Withdraws(Before(r, log, m), log[m], k)
  }

  /** Marked at `i`, not withdrawn up to `n`. */
  ghost predicate CandidateFrom(r: string, log: seq<Event>, i: nat, n: nat, k: string) {
    MarkedAt(r, log, i, k) && i < n && Unwithdrawn(r, log, i, n, k)
  }

  ghost predicate CompletedFrom(r: string, log: seq<Event>, n: nat, k: string) {
    CompletedAt(r, log, n, k) && exists i :: CandidateFrom(r, log, i, n, k)
  }

  ghost predicate TaskTraced(r: string, log: seq<Event>, k: string) {
    var ts := RunFacts(NewFacts(r), log).work.tasks;
    && (Marked(ts, k) ==> exists i :: CandidateFrom(r, log, i, |log|, k))
    && (Finished(ts, k) ==> exists n :: CompletedFrom(r, log, n, k))
  }

  lemma CandidateLater(r: string, log: seq<Event>, e: Event, i: nat, n: nat, k: string)
    requires CandidateFrom(r, log, i, n, k)
    ensures CandidateFrom(r, log + [e], i, n, k)
  {
    hide Marks, Withdraws, Before;
    Earlier(r, log, e);
  }

  lemma CandidateOn(r: string, log: seq<Event>, e: Event, i: nat, k: string)
    requires CandidateFrom(r, log, i, |log|, k) && !Withdraws(RunFacts(NewFacts(r), log), e, k)
    ensures CandidateFrom(r, log + [e], i, |log| + 1, k)
  {
    hide Marks, Withdraws, Before, RunFacts, MarkedAt;
    CandidateLater(r, log, e, i, |log|, k);
    Whole(r, log, e);
    assert (log + [e])[|log|] == e;
  }

  lemma CompletedLater(r: string, log: seq<Event>, e: Event, n: nat, k: string)
    requires CompletedFrom(r, log, n, k)
    ensures CompletedFrom(r, log + [e], n, k)
  {
    hide Completes, Before, CandidateFrom;
    Earlier(r, log, e);
    var i :| CandidateFrom(r, log, i, n, k);
    CandidateLater(r, log, e, i, n, k);
  }

  lemma CompletesIsMarked(f: Facts, e: Event, k: string)
    requires Completes(f, e, k)
    ensures Marked(f.work.tasks, k)
  {
    hide HoldsCompletion;
  }

  lemma TraceStep(r: string, log: seq<Event>, e: Event, k: string)
    requires TasksKeyed(RunFacts(NewFacts(r), log).work.tasks) && TaskTraced(r, log, k)
    ensures TaskTraced(r, log + [e], k)
  {
    hide Apply, Marks, Completes, Withdraws, Before, CandidateFrom, CompletedFrom, RunFacts, TasksKeyed;
    var f, n := RunFacts(NewFacts(r), log), |log|;
    RunFactsSnoc(NewFacts(r), log, e);
    TaskStep(f, e, k);
    assert |log + [e]| == n + 1;
    var ts := Apply(f, e).result.work.tasks;
    if Marked(ts, k) {
      if Marks(f, e, k) {
        MarkedNow(r, log, e, k);
      } else {
        var i :| CandidateFrom(r, log, i, n, k);
        CandidateOn(r, log, e, i, k);
      }
    }
    if Finished(ts, k) {
      if Finished(f.work.tasks, k) {
        var m :| CompletedFrom(r, log, m, k);
        CompletedLater(r, log, e, m, k);
      } else {
        CompletesIsMarked(f, e, k);
        var i :| CandidateFrom(r, log, i, n, k);
        CompletedNow(r, log, e, i, k);
      }
    }
  }

  lemma MarkedNow(r: string, log: seq<Event>, e: Event, k: string)
    requires Marks(RunFacts(NewFacts(r), log), e, k)
    ensures CandidateFrom(r, log + [e], |log|, |log| + 1, k)
  {
    hide Marks, Withdraws, Before, Apply, RunFacts;
    Whole(r, log, e);
    assert (log + [e])[|log|] == e;
  }

  lemma CompletedNow(r: string, log: seq<Event>, e: Event, i: nat, k: string)
    requires Completes(RunFacts(NewFacts(r), log), e, k) && CandidateFrom(r, log, i, |log|, k)
    ensures CompletedFrom(r, log + [e], |log|, k)
  {
    hide Completes, Before, CandidateFrom, Apply, RunFacts;
    Whole(r, log, e);
    assert (log + [e])[|log|] == e;
    CandidateLater(r, log, e, i, |log|, k);
  }

  lemma {:induction false} LogTraced(r: string, log: seq<Event>)
    ensures TasksKeyed(RunFacts(NewFacts(r), log).work.tasks)
    ensures forall k :: TaskTraced(r, log, k)
  {
    hide Apply, TaskTraced;
    if log == [] {
      forall k ensures TaskTraced(r, log, k) {
        NothingTraced(r, k);
      }
    } else {
      var n := |log| - 1;
      assert log == log[..n] + [log[n]];
      LogTraced(r, log[..n]);
      TaskStep(RunFacts(NewFacts(r), log[..n]), log[n], "");
      forall k ensures TaskTraced(r, log, k) {
        TraceStep(r, log[..n], log[n], k);
      }
    }
  }

  lemma NothingTraced(r: string, k: string)
    ensures TaskTraced(r, [], k)
  {
  }

  /** Over every history of deliveries, buffered and replayed events included: a task that
      stands completed was completed by a domain fact while eligible, and since it was marked
      no file change and no blocking prompt of it came before that. */
  lemma CompletionIsEarned(r: string, es: seq<Event>, k: string)
    ensures var s, log := Run(NewState(r), es), Log(NewState(r), es);
            s.facts == RunFacts(NewFacts(r), log) &&
            (Finished(s.facts.work.tasks, k) ==> exists n :: CompletedFrom(r, log, n, k))
  {
    hide Reduce, CompletedFrom, CandidateFrom;
    var log := Log(NewState(r), es);
    RunIsLog(NewState(r), es);
    LogTraced(r, log);
    assert TaskTraced(r, log, k);
  }
}
