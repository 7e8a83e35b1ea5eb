/** Tool-count conservation over whole histories: the session counts exactly the tools its
    tasks count, and no counter is ever negative. */
module ToolCount {
  import opened Names
  import opened Lifecycle
  import opened Reducer
  import opened History

  /** The active tools of all tasks together. */
  ghost function Total(ts: map<string, Task>): int {
    if ts == map[] then 0
    else
      var k := Min(ts.Keys);
      ts[k].activeTools + Total(ts - {k})
  }

  /** One task's share can be taken out of the total. */
  lemma {:induction false} TotalWithout(ts: map<string, Task>, k: string)
    requires k in ts
    ensures Total(ts) == ts[k].activeTools + Total(ts - {k})
    decreases |ts|
  {
    var m := Min(ts.Keys);
    if m != k {
      var a, b := ts - {m}, ts - {k};
      TotalWithout(a, k);
      LeqAntisymmetric(Min(b.Keys), m) by {
        assert m in b.Keys && Min(b.Keys) in ts.Keys;
      }
      assert a - {k} == b - {m};
    }
  }

  lemma TotalPut(ts: map<string, Task>, k: string, t: Task)
    ensures Total(ts[k := t]) == Total(ts) + t.activeTools - (if k in ts then ts[k].activeTools else 0)
  {
    var put := ts[k := t];
    TotalWithout(put, k);
    assert put - {k} == ts - {k};
    if k in ts {
      TotalWithout(ts, k);
    } else {
      assert ts - {k} == ts;
    }
  }

  lemma {:induction false} TotalSame(ts: map<string, Task>, us: map<string, Task>)
    requires ts.Keys == us.Keys && forall k :: k in ts ==> ts[k].activeTools == us[k].activeTools
    ensures Total(ts) == Total(us)
    decreases |ts|
  {
    if ts != map[] {
      var m := Min(ts.Keys);
      assert m in us.Keys;
      assert (ts - {m}).Keys == (us - {m}).Keys;
      TotalSame(ts - {m}, us - {m});
    }
  }

  lemma {:induction false} TotalNonNegative(ts: map<string, Task>)
    requires forall k :: k in ts ==> ts[k].activeTools >= 0
    ensures Total(ts) >= 0
    ensures forall k :: k in ts ==> Total(ts) >= ts[k].activeTools
    decreases |ts|
  {
    if ts != map[] {
      var m := Min(ts.Keys);
      TotalNonNegative(ts - {m});
      forall k | k in ts ensures Total(ts) >= ts[k].activeTools {
        if k != m {
          assert (ts - {m})[k] == ts[k];
        }
      }
    }
  }

  // ---------------------------------------------------------------- the invariant

  /** Tasks sit under their own ids with counters that are not negative, and the session's
      counter is their sum. Before a session there is nothing to count. */
  ghost predicate Counted(w: Work) {
    && (forall k :: k in w.tasks ==> w.tasks[k].id == k && w.tasks[k].activeTools >= 0)
    && w.session.activeTools == Total(w.tasks)
    && (w.session.id == "" ==> forall k :: k in w.tasks ==> w.tasks[k].activeTools == 0)
  }

  /** Tool events name their session, as the event contract demands. */
  predicate NamesSession(e: Event) {
    e.eventType == ToolStarted || e.eventType == ToolCompleted ==> e.sessionId != ""
  }

  lemma {:induction false} TotalZero(ts: map<string, Task>)
    requires forall k :: k in ts ==> ts[k].activeTools == 0
    ensures Total(ts) == 0
    decreases |ts|
  {
    if ts != map[] {
      var m := Min(ts.Keys);
      TotalZero(ts - {m});
    }
  }

  lemma PutCounted(w: Work, s: Session, t: Task)
    requires Counted(w) && s.id == w.session.id && t.activeTools >= 0
    requires s.activeTools == w.session.activeTools + t.activeTools - (if t.id in w.tasks then w.tasks[t.id].activeTools else 0)
    requires s.id == "" ==> t.activeTools == 0
    ensures Counted(Work(s, w.tasks[t.id := t]))
  {
    TotalPut(w.tasks, t.id, t);
  }

  lemma SessionCounted(w: Work, s: Session)
    requires Counted(w) && s.id == w.session.id && s.activeTools == w.session.activeTools
    ensures Counted(w.(session := s))
  {
  }

  lemma GreetCounted(w: Work, r: string, e: Event)
    requires Counted(w)
    ensures Counted(w.(session := GreetSession(w.session, r, e)))
    ensures e.sessionId != "" ==> GreetSession(w.session, r, e).id != ""
  {
    if w.session.id == "" && e.sessionId != "" {
      TotalZero(w.tasks);
    }
  }

  lemma SessionEventCounted(w: Work, ps: map<string, Prompt>, e: Event)
    requires Counted(w)
    ensures Counted(ApplySession(w, ps, e).result)
  {
    hide Counted, HasBlockingPrompt;
    var r := ApplySession(w, ps, e).result;
    if e.eventType == SessionStarted && e.taskId != "" {
      var t := TaskFor(w, e.taskId);
      TaskForCounted(w, e.taskId);
      PutCounted(w, r.session, t.(state := TaskActive));
    } else {
      SessionCounted(w, r.session);
    }
  }

  lemma TaskForCounted(w: Work, taskId: string)
    requires Counted(w)
    ensures var t := TaskFor(w, taskId);
            && t.activeTools == (if t.id in w.tasks then w.tasks[t.id].activeTools else 0)
            && t.activeTools >= 0 && (w.session.id == "" ==> t.activeTools == 0)
  {
  }

  /** A task with active tools means a session with active tools: the guard on the session's
      decrement never fails. */
  lemma SessionGuardHolds(w: Work, k: string)
    requires Counted(w) && k in w.tasks && w.tasks[k].activeTools > 0
    ensures w.session.activeTools > 0 && w.session.id != ""
  {
    TotalNonNegative(w.tasks);
  }

  lemma KeyedTask(w: Work, id: string)
    requires Counted(w) && id in w.tasks
    ensures w.tasks[id].id == id && w.tasks[id].activeTools >= 0
  {
  }

  /** A task whose tools stay as they are, under a session whose tools stay as they are. */
  lemma MarkCounted(w: Work, s: Session, id: string, t: Task)
    requires Counted(w) && id in w.tasks && t.id == w.tasks[id].id && t.activeTools == w.tasks[id].activeTools
    requires s.id == w.session.id && s.activeTools == w.session.activeTools
    ensures Counted(PutTask(w.(session := s), t))
  {
    PutCounted(w, s, t);
  }

  lemma ToolCounted(w: Work, e: Event)
    requires Counted(w) && (e.eventType == ToolStarted ==> w.session.id != "")
    ensures Counted(ApplyTool(w, e).result)
  {
    hide Counted, Total;
    if e.taskId in w.tasks {
      KeyedTask(w, e.taskId);
      var t := w.tasks[e.taskId];
      if e.eventType == ToolStarted {
        PutCounted(w, w.session.(activeTools := w.session.activeTools + 1), t.(activeTools := t.activeTools + 1));
      } else if e.eventType == ToolCompleted && t.activeTools > 0 {
        SessionGuardHolds(w, e.taskId);
        PutCounted(w, w.session.(activeTools := w.session.activeTools - 1), t.(activeTools := t.activeTools - 1));
      } else {
        MarkCounted(w, w.session, e.taskId, t);
      }
    }
  }

  lemma ClaimCounted(w: Work, ps: map<string, Prompt>, e: Event)
    requires Counted(w)
    ensures Counted(ApplyTaskCompleted(w, ps, e).result)
  {
    hide HasBlockingPrompt, CompletionEligible, Counted;
    if e.taskId in w.tasks {
      var r := ApplyTaskCompleted(w, ps, e).result;
      KeyedTask(w, e.taskId);
      MarkCounted(w, r.session, e.taskId, r.tasks[e.taskId]);
    }
  }

  lemma TaskEventCounted(w: Work, ps: map<string, Prompt>, e: Event)
    requires Counted(w) && (e.eventType == ToolStarted ==> w.session.id != "")
    ensures Counted(ApplyTask(w, ps, e).result)
  {
    hide HasBlockingPrompt, CompletionEligible, ApplyTool, ApplyTaskCompleted;
    match e.eventType
    case TaskStarted =>
      TaskForCounted(w, e.taskId);
      PutCounted(w, w.session.(state := SessionActive), TaskFor(w, e.taskId).(state := TaskActive));
    case TaskUpdated | ToolStarted | ToolCompleted => ToolCounted(w, e);
    case TaskCompleted => ClaimCounted(w, ps, e);
    case TaskCompletionCandidate =>
      if ApplyTask(w, ps, e).ok {
        MarkCounted(w, w.session.(state := SessionCompletionCandidate), e.taskId,
                    w.tasks[e.taskId].(completionCandidate := true, state := TaskCompletionCandidateStatus));
      }
    case TaskFailed =>
      if e.taskId in w.tasks {
        MarkCounted(w, w.session, e.taskId, w.tasks[e.taskId].(state := TaskFailedStatus));
      }
    case TaskCancelled =>
      if e.taskId in w.tasks {
        MarkCounted(w, w.session, e.taskId, w.tasks[e.taskId].(state := TaskCancelledStatus));
      }
    case _ =>
  }

  lemma PromptEventCounted(w: Work, ps: map<string, Prompt>, e: Event)
    requires Counted(w)
    ensures Counted(ApplyPrompt(w, ps, e).result.0)
  {
    if e.payload.promptId != "" {
      TaskForCounted(w, e.taskId);
      var (v, taskId) := PromptTask(w, e.taskId);
      assert Counted(v) by {
        if v != w {
          PutCounted(w, w.session, TaskFor(w, e.taskId).(state := TaskActive));
        }
      }
      var q := PromptAfter(PromptFor(ps, e, taskId), e);
      PromptEffectCounted(v, q);
    }
  }

  lemma PromptEffectCounted(w: Work, p: Prompt)
    requires Counted(w)
    ensures Counted(PromptEffect(w, p))
  {
    var r := PromptEffect(w, p);
    if p.taskId in w.tasks && r.tasks != w.tasks {
      var t := r.tasks[p.taskId];
      assert r.tasks == w.tasks[p.taskId := t];
      PutCounted(w, r.session, t);
    } else {
      SessionCounted(w, r.session);
    }
  }

  lemma FilesCounted(w: Work)
    requires Counted(w)
    ensures Counted(w.(tasks := WithdrawAll(w.tasks)))
  {
    TotalSame(w.tasks, WithdrawAll(w.tasks));
  }

  /** Conservation survives every event, applied or refused. */
  lemma ApplyCounted(f: Facts, e: Event)
    requires Counted(f.work) && NamesSession(e)
    ensures Counted(Apply(f, e).result.work)
  {
    hide Counted, ApplyTask, ApplySession, ApplyPrompt, ApplyJobs, Invalidate, WithdrawAll, GreetSession;
    GreetCounted(f.work, f.repositoryId, e);
    var w := Greet(f, e).work;
    match FamilyOf(e.eventType)
    case SessionFamily => SessionEventCounted(w, f.prompts, e);
    case TaskFamily => TaskEventCounted(w, f.prompts, e);
    case PromptFamily => PromptEventCounted(w, f.prompts, e);
    case FilesFamily => FilesCounted(w);
    case _ =>
  }

  lemma {:induction false} LogCounted(r: string, log: seq<Event>)
    requires forall e :: e in log ==> NamesSession(e)
    ensures Counted(RunFacts(NewFacts(r), log).work)
  {
    hide Apply;
    if log != [] {
      var n := |log| - 1;
      LogCounted(r, log[..n]);
      ApplyCounted(RunFacts(NewFacts(r), log[..n]), log[n]);
    }
  }

  /** In every state that tool events naming their session can reach, however delivered, the
      session's active tools are the sum over its tasks and nothing is negative. */
  lemma ToolsAreConserved(r: string, es: seq<Event>)
    requires forall e :: e in es ==> NamesSession(Normalize(e))
    ensures Counted(Run(NewState(r), es).facts.work)
  {
    hide Reduce, Counted, NamesSession, Normalize;
    var log := Log(NewState(r), es);
    LogAmong(r, es);
    forall e | e in log ensures NamesSession(e) {
      assert Among(e, es);
      var i :| 0 <= i < |es| && e == Normalize(es[i]);
      assert es[i] in es;
    }
    LogCounted(r, log);
    RunIsLog(NewState(r), es);
  }
}
