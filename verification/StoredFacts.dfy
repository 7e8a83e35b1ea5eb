/** What the theorems about reducer runs say of the store: whatever was delivered, repeated,
    reused, redacted or pruned, the projection on file can be relied on like the run behind it. */
module StoredFacts {
  import opened Names
  import opened Lifecycle
  import opened Reducer
  import opened History
  import CurrentEvidence
  import Freshness
  import PushProvenance
  import ToolCount
  import Completion
  import opened EventStore
  import StoreRuns

  /** The facts on file for a repository. */
  ghost function FactsOnFile(steps: seq<StoreRuns.Step>, r: string): Facts
    requires r in StoreRuns.After(steps).projections
  {
    StoreRuns.After(steps).projections[r].state.facts
  }

  /** The events that went through `apply` behind the projection on file, in order. */
  ghost function LogOnFile(steps: seq<StoreRuns.Step>, r: string): seq<Event> {
    Log(NewState(r), StoreRuns.Passed(steps, r))
  }

  /** Apart from stripped answers the facts on file are those of the run. */
  lemma FileIsRun(steps: seq<StoreRuns.Step>, r: string)
    requires StoreRuns.Valid(steps) && r in StoreRuns.After(steps).projections
    ensures var f := Run(NewState(r), StoreRuns.Passed(steps, r)).facts;
            FactsOnFile(steps, r).jobs == f.jobs && FactsOnFile(steps, r).work == f.work && FactsOnFile(steps, r).policy == f.policy
  {
    hide StoreRuns.After, StoreRuns.Passed, Run;
    StoreRuns.ProjectionIsRedactedRun(steps, r);
  }

  /** A verification or commit on file matches its candidate's digests, and a queued commit was
      queued on a pass that nothing has withdrawn since. */
  lemma StoredEvidenceIsFresh(steps: seq<StoreRuns.Step>, r: string)
    requires StoreRuns.Valid(steps) && r in StoreRuns.After(steps).projections
    requires Freshness.Consistent(StoreRuns.Passed(steps, r))
    ensures CurrentEvidence.EvidenceCurrent(FactsOnFile(steps, r).jobs)
    ensures Freshness.Traced(r, LogOnFile(steps, r))
    ensures FactsOnFile(steps, r).jobs == RunFacts(NewFacts(r), LogOnFile(steps, r)).jobs
  {
    hide StoreRuns.After, StoreRuns.Passed, Run, RunFacts, Log, Freshness.Traced, CurrentEvidence.EvidenceCurrent, FactsOnFile;
    FileIsRun(steps, r);
    Freshness.QueuedCommitsAreFresh(r, StoreRuns.Passed(steps, r));
  }

  /** A queued push on file was asked for after an applied commit fact with its SHA. */
  lemma StoredPushesAreSourced(steps: seq<StoreRuns.Step>, r: string)
    requires StoreRuns.Valid(steps) && r in StoreRuns.After(steps).projections
    ensures PushProvenance.Sourced(r, LogOnFile(steps, r))
    ensures FactsOnFile(steps, r).jobs == RunFacts(NewFacts(r), LogOnFile(steps, r)).jobs
  {
    hide StoreRuns.After, StoreRuns.Passed, Run, RunFacts, Log, PushProvenance.Sourced, PushProvenance.DestinationsKept, FactsOnFile;
    FileIsRun(steps, r);
    PushProvenance.QueuedPushesAreSourced(r, StoreRuns.Passed(steps, r));
  }

  /** The session's tool count on file is the sum over its tasks. */
  lemma StoredToolsAreCounted(steps: seq<StoreRuns.Step>, r: string)
    requires StoreRuns.Valid(steps) && r in StoreRuns.After(steps).projections
    requires forall e :: e in StoreRuns.Passed(steps, r) ==> ToolCount.NamesSession(Normalize(e))
    ensures ToolCount.Counted(FactsOnFile(steps, r).work)
  {
    hide StoreRuns.After, StoreRuns.Passed, Run, ToolCount.Counted, ToolCount.NamesSession, Normalize, FactsOnFile;
    FileIsRun(steps, r);
    ToolCount.ToolsAreConserved(r, StoreRuns.Passed(steps, r));
  }

  /** A task completed on file was completed by a domain fact after an unwithdrawn mark. */
  lemma StoredCompletionIsEarned(steps: seq<StoreRuns.Step>, r: string, k: string)
    requires StoreRuns.Valid(steps) && r in StoreRuns.After(steps).projections
    requires Completion.Finished(FactsOnFile(steps, r).work.tasks, k)
    ensures exists n :: Completion.CompletedFrom(r, LogOnFile(steps, r), n, k)
  {
    hide StoreRuns.After, StoreRuns.Passed, Run, RunFacts, Log, Completion.CompletedFrom, FactsOnFile;
    FileIsRun(steps, r);
    var log := LogOnFile(steps, r);
    Completion.CompletionIsEarned(r, StoreRuns.Passed(steps, r), k);
    var n :| Completion.CompletedFrom(r, log, n, k);
    assert Completion.CompletedFrom(r, LogOnFile(steps, r), n, k);
  }
}
