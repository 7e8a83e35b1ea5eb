/** Push provenance over whole histories: a push job's destination never changes, and it is
    queued only for a SHA that an applied commit fact carried earlier. */
module PushProvenance {
  import opened Names
  import opened Lifecycle
  import opened Reducer
  import opened History
  import opened CurrentEvidence

  /** Every stored push is under its own id and names a well-formed SHA. */
  ghost predicate PushesKeyed(ps: map<string, Push>) {
    forall k :: k in ps ==> k != "" && ps[k].id == k && ValidSha(ps[k].commitSha)
  }

  predicate SameDestination(p: Push, q: Push) {
    p.commitSha == q.commitSha && p.remoteDigest == q.remoteDigest && p.ref == q.ref
  }

  ghost predicate DestinationsKept(before: map<string, Push>, after: map<string, Push>) {
    forall k :: k in before ==> k in after && SameDestination(before[k], after[k])
  }

  /** A push event keeps the destination of every job already there. */
  lemma PushStep(j: Jobs, e: Event)
    requires PushesKeyed(j.pushes)
    ensures PushesKeyed(ApplyPush(j, e).result.pushes)
    ensures DestinationsKept(j.pushes, ApplyPush(j, e).result.pushes)
  {
    hide Min, CreatedCommits, ValidDigest, ValidRef, LowerHex;
  }

  lemma DestinationStep(f: Facts, e: Event)
    requires PushesKeyed(f.jobs.pushes)
    ensures PushesKeyed(Apply(f, e).result.jobs.pushes)
    ensures DestinationsKept(f.jobs.pushes, Apply(f, e).result.jobs.pushes)
  {
    hide Apply, ApplyPush, PushesKeyed;
    JobsOf(f, e);
    PushStep(f.jobs, e);
  }

  lemma {:induction false} LogPushesKeyed(r: string, log: seq<Event>)
    ensures PushesKeyed(RunFacts(NewFacts(r), log).jobs.pushes)
  {
    hide Apply;
    if log != [] {
      var n := |log| - 1;
      LogPushesKeyed(r, log[..n]);
      DestinationStep(RunFacts(NewFacts(r), log[..n]), log[n]);
    }
  }

  /** From any point of a history to any later one, no push job changes commit, remote or ref. */
  lemma {:induction false} DestinationsNeverChange(r: string, log: seq<Event>, i: nat)
    requires i <= |log|
    ensures DestinationsKept(RunFacts(NewFacts(r), log[..i]).jobs.pushes, RunFacts(NewFacts(r), log).jobs.pushes)
    decreases |log|
  {
    hide Apply, PushesKeyed;
    if i == |log| {
      assert log[..i] == log;
    } else {
      var n := |log| - 1;
      assert log[..n][..i] == log[..i];
      DestinationsNeverChange(r, log[..n], i);
      LogPushesKeyed(r, log[..n]);
      DestinationStep(RunFacts(NewFacts(r), log[..n]), log[n]);
    }
  }

  // ---------------------------------------------------------------- where a SHA comes from

  /** Applied to `f`, the event records a commit with this SHA. */
  ghost predicate Creates(f: Facts, e: Event, sha: string) {
    Apply(f, e).ok && (e.eventType == CommitCreated || e.eventType == CommitReconciled) && e.payload.commitSha == sha
  }

  /** Applied to `f`, the event queues this push for this SHA. */
  ghost predicate Requests(f: Facts, e: Event, id: string, sha: string) {
    Apply(f, e).ok && e.eventType == PushRequested && e.payload.pushJobId == id && CreatedCommits(f.jobs.commits, sha) != {}
  }

  ghost predicate CreatedAt(r: string, log: seq<Event>, i: nat, sha: string) {
    i < |log| && Creates(RunFacts(NewFacts(r), log[..i]), log[i], sha)
  }

  ghost predicate RequestedAt(r: string, log: seq<Event>, n: nat, id: string, sha: string) {
    n < |log| && Requests(RunFacts(NewFacts(r), log[..n]), log[n], id, sha)
  }

  ghost predicate CommitSourced(r: string, log: seq<Event>, k: Commit) {
    k.state == CommitCreatedStatus ==> exists i :: CreatedAt(r, log, i, k.commitSha)
  }

  /** The job was queued at `n`, and its SHA was carried by an applied commit fact before. */
  ghost predicate PushSourced(r: string, log: seq<Event>, id: string, p: Push) {
    p.state == PushQueued ==> exists i, n :: i < n && CreatedAt(r, log, i, p.commitSha) && RequestedAt(r, log, n, id, p.commitSha)
  }

  ghost predicate Sourced(r: string, log: seq<Event>) {
    var j := RunFacts(NewFacts(r), log).jobs;
    && (forall id :: id in j.commits ==> CommitSourced(r, log, j.commits[id]))
    && (forall id :: id in j.pushes ==> PushSourced(r, log, id, j.pushes[id]))
  }

  lemma CreatedLater(r: string, log: seq<Event>, e: Event)
    ensures forall i, sha :: CreatedAt(r, log, i, sha) ==> CreatedAt(r, log + [e], i, sha)
    ensures forall n, id, sha :: RequestedAt(r, log, n, id, sha) ==> RequestedAt(r, log + [e], n, id, sha)
  {
    hide Creates, Requests;
    forall i | 0 <= i < |log| ensures (log + [e])[..i] == log[..i] && (log + [e])[i] == log[i] {
    }
  }

  lemma LastStep(r: string, log: seq<Event>, e: Event)
    ensures (log + [e])[|log|] == e && (log + [e])[..|log|] == log
  {
  }

  lemma CommitJobStep(f: Facts, e: Event, id: string)
    requires FamilyOf(e.eventType) == CommitFamily && Apply(f, e).ok == ApplyCommit(f.jobs, e).ok
    requires id in ApplyCommit(f.jobs, e).result.commits
    requires ApplyCommit(f.jobs, e).result.commits[id].state == CommitCreatedStatus
    ensures var k := ApplyCommit(f.jobs, e).result.commits[id];
            (id in f.jobs.commits && f.jobs.commits[id] == k) || Creates(f, e, k.commitSha)
  {
    hide Apply, ExactCommit, HasReusableVerification, ValidSha, FillEvidence;
  }

  /** A created commit was created before, or is created by this event. */
  lemma CreatedStep(f: Facts, e: Event, id: string)
    requires id in Apply(f, e).result.jobs.commits && Apply(f, e).result.jobs.commits[id].state == CommitCreatedStatus
    ensures var k := Apply(f, e).result.jobs.commits[id];
            (id in f.jobs.commits && f.jobs.commits[id].state == CommitCreatedStatus && f.jobs.commits[id].commitSha == k.commitSha)
            || Creates(f, e, k.commitSha)
  {
    hide Apply, ApplyVerification, ApplyCommit, ApplyPush;
    JobsOf(f, e);
    if !Foreign(f, e) {
      match FamilyOf(e.eventType)
      case CommitFamily => CommitJobStep(f, e, id);
      case VerificationFamily => VerificationLeaves(f.jobs, e);
      case PushFamily => PushLeaves(f.jobs, e);
      case _ =>
    }
  }

  lemma PushJobStep(f: Facts, e: Event, id: string)
    requires FamilyOf(e.eventType) == PushFamily && Apply(f, e).ok == ApplyPush(f.jobs, e).ok
    requires id in ApplyPush(f.jobs, e).result.pushes && ApplyPush(f.jobs, e).result.pushes[id].state == PushQueued
    ensures var p := ApplyPush(f.jobs, e).result.pushes[id];
            (id in f.jobs.pushes && f.jobs.pushes[id] == p) || Requests(f, e, id, p.commitSha)
  {
    hide Apply, ValidSha, ValidDigest, ValidRef;
  }

  /** A queued push was queued before, or is queued by this event for a created commit. */
  lemma QueuedPushStep(f: Facts, e: Event, id: string)
    requires id in Apply(f, e).result.jobs.pushes && Apply(f, e).result.jobs.pushes[id].state == PushQueued
    ensures var p := Apply(f, e).result.jobs.pushes[id];
            (id in f.jobs.pushes && f.jobs.pushes[id] == p) || Requests(f, e, id, p.commitSha)
  {
    hide Apply, ApplyVerification, ApplyCommit, ApplyPush;
    JobsOf(f, e);
    if !Foreign(f, e) {
      match FamilyOf(e.eventType)
      case PushFamily => PushJobStep(f, e, id);
      case VerificationFamily => VerificationLeaves(f.jobs, e);
      case CommitFamily => CommitLeaves(f.jobs, e);
      case _ =>
    }
  }

  lemma CommitSourcedStep(r: string, log: seq<Event>, e: Event, id: string)
    requires Sourced(r, log)
    requires id in RunFacts(NewFacts(r), log + [e]).jobs.commits
    ensures CommitSourced(r, log + [e], RunFacts(NewFacts(r), log + [e]).jobs.commits[id])
  {
    hide Apply, Creates, Requests, PushSourced;
    var f := RunFacts(NewFacts(r), log);
    RunFactsSnoc(NewFacts(r), log, e);
    CreatedLater(r, log, e);
    LastStep(r, log, e);
    var k := Apply(f, e).result.jobs.commits[id];
    if k.state == CommitCreatedStatus {
      CreatedStep(f, e, id);
      if Creates(f, e, k.commitSha) {
        assert CreatedAt(r, log + [e], |log|, k.commitSha);
      } else {
        assert CommitSourced(r, log, f.jobs.commits[id]);
      }
    }
  }

  lemma PushSourcedStep(r: string, log: seq<Event>, e: Event, id: string)
    requires Sourced(r, log)
    requires id in RunFacts(NewFacts(r), log + [e]).jobs.pushes
    ensures PushSourced(r, log + [e], id, RunFacts(NewFacts(r), log + [e]).jobs.pushes[id])
  {
    hide Apply, Creates;
    var f := RunFacts(NewFacts(r), log);
    RunFactsSnoc(NewFacts(r), log, e);
    CreatedLater(r, log, e);
    LastStep(r, log, e);
    var p := Apply(f, e).result.jobs.pushes[id];
    if p.state == PushQueued {
      QueuedPushStep(f, e, id);
      if Requests(f, e, id, p.commitSha) {
        var c :| c in CreatedCommits(f.jobs.commits, p.commitSha);
        assert CommitSourced(r, log, f.jobs.commits[c]);
        var i :| CreatedAt(r, log, i, p.commitSha);
        assert CreatedAt(r, log + [e], i, p.commitSha);
        assert RequestedAt(r, log + [e], |log|, id, p.commitSha);
      } else {
        assert PushSourced(r, log, id, f.jobs.pushes[id]);
        var i, n :| i < n && CreatedAt(r, log, i, p.commitSha) && RequestedAt(r, log, n, id, p.commitSha);
        assert CreatedAt(r, log + [e], i, p.commitSha) && RequestedAt(r, log + [e], n, id, p.commitSha);
      }
    }
  }

  lemma {:induction false} LogSourced(r: string, log: seq<Event>)
    ensures Sourced(r, log)
  {
    hide Apply, CommitSourced, PushSourced;
    if log != [] {
      var n := |log| - 1;
      assert log == log[..n] + [log[n]];
      LogSourced(r, log[..n]);
      var j := RunFacts(NewFacts(r), log).jobs;
      forall id | id in j.commits ensures CommitSourced(r, log, j.commits[id]) {
        CommitSourcedStep(r, log[..n], log[n], id);
      }
      forall id | id in j.pushes ensures PushSourced(r, log, id, j.pushes[id]) {
        PushSourcedStep(r, log[..n], log[n], id);
      }
    }
  }

  /** In the state any deliveries reach, a created commit's SHA came from an applied commit
      fact, a queued push was requested after its SHA was so recorded, and since each earlier
      point of the log no push job has changed its commit, remote or ref. */
  lemma QueuedPushesAreSourced(r: string, es: seq<Event>)
    ensures var s, log := Run(NewState(r), es), Log(NewState(r), es);
            && s.facts == RunFacts(NewFacts(r), log) && Sourced(r, log)
            && forall i :: 0 <= i <= |log| ==>
                 DestinationsKept(RunFacts(NewFacts(r), log[..i]).jobs.pushes, s.facts.jobs.pushes)
  {
    hide Reduce, DestinationsKept, Sourced;
    var log := Log(NewState(r), es);
    RunIsLog(NewState(r), es);
    LogSourced(r, log);
    forall i | 0 <= i <= |log|
      ensures DestinationsKept(RunFacts(NewFacts(r), log[..i]).jobs.pushes, Run(NewState(r), es).facts.jobs.pushes)
    {
      DestinationsNeverChange(r, log, i);
    }
  }
}
