/** One caller's code for committing, run among any other callers: every run of these methods
    is a run of the step machine; a call without an error has settled the job, and one with an
    error says why. */
module CommitCaller {
  import opened Names
  import opened CommitCoordinator

  /** What a call returns: no error, or which one. */
  datatype Outcome = Done | PortFailed | Invalid | IdentityConflict | BadRecord | LeaseHeld | BadSha

  predicate Fails(x: Action, me: nat) {
    x == Crash(me) || (x.Step? && x.caller == me && !x.answer.ok)
  }

  /** Git.Commit answered with something that is no SHA. */
  predicate Misleads(s: Sys, x: Action, me: nat) {
    x.Step? && x.caller == me && PhaseOf(s, me).Working? && x.answer.ok && !ValidSha(x.answer.sha)
  }

  /** How often a port failed this caller, or it crashed. */
  ghost function FaultsOf(h: seq<Action>, me: nat): nat {
    if h == [] then 0 else FaultsOf(h[..|h| - 1], me) + if Fails(h[|h| - 1], me) then 1 else 0
  }

  ghost function MisledOf(h: seq<Action>, me: nat): nat {
    if h == [] then 0
    else MisledOf(h[..|h| - 1], me) + if Misleads(Run(START, h[..|h| - 1], true), h[|h| - 1], me) then 1 else 0
  }

  /** The request's job is on record under a SHA that Git reported, or waits for reconciliation. */
  predicate Ended(s: Sys, r: Request) {
    && r.id in s.jobs && s.jobs[r.id].evidence == r.evidence && !InFlight(s.jobs[r.id].status)
    && (s.jobs[r.id].status == Created ==> ValidSha(s.jobs[r.id].sha) && (r.id, s.jobs[r.id].sha) in s.reported)
  }

  /** What the outcome says of the world at the point of the call it speaks of. */
  predicate Explains(o: Outcome, r: Request, s: Sys) {
    match o
    case Done => r.id in s.jobs ==> Ended(s, r)
    case PortFailed => true
    case Invalid => !WellFormed(r)
    case IdentityConflict => r.id in s.jobs && s.jobs[r.id].evidence != r.evidence
    case BadRecord => r.id in s.jobs && s.jobs[r.id].status == Created && !ValidSha(s.jobs[r.id].sha)
    case LeaseHeld => r.id in s.leases
    case BadSha => true
  }

  lemma SoundEnds(s: Sys, r: Request)
    requires Sound(s) && r.id in s.jobs && s.jobs[r.id].evidence == r.evidence && !InFlight(s.jobs[r.id].status)
    ensures Ended(s, r)
  {
    hide ValidSha, Budgeted;
    StandsSound(s, 0);
    assert JobSound(s, r.id);
  }

  class Caller {
    const me: nat
    /** Store, leases, Git and the other callers, as they are now. */
    var world: Sys
    /** Everything that has happened. */
    ghost var history: seq<Action>

    ghost predicate Valid()
      reads this
    {
      world == Run(START, history, true)
    }

    ghost predicate At(p: Phase)
      reads this
    {
      PhaseOf(world, me) == p
    }

    ghost function Faults(): nat
      reads this
    {
      FaultsOf(history, me)
    }

    ghost function Misled(): nat
      reads this
    {
      MisledOf(history, me)
    }

    /** The outcome at the point `past`. */
    ghost predicate Explained(o: Outcome, r: Request, past: seq<Action>)
      reads this
    {
      past <= history && Explains(o, r, Run(START, past, true))
    }

    constructor (me: nat)
      ensures Valid() && At(Idle) && this.me == me
    {
      this.me := me;
      world, history := START, [];
    }

    method Happen(x: Action)
      requires Valid()
      modifies this
      ensures Valid() && world == Do(old(world), x, true) && history == old(history) + [x]
      ensures Faults() == old(Faults()) + if Fails(x, me) then 1 else 0
      ensures Misled() == old(Misled()) + if Misleads(old(world), x, me) then 1 else 0
    {
      assert (history + [x])[..|history|] == history;
      history := history + [x];
      world := Do(world, x, true);
    }

    /** Other callers move, crash and lose leases, any number of times. */
    method Others()
      requires Valid()
      modifies this
      ensures Valid() && PhaseOf(world, me) == old(PhaseOf(world, me)) && old(history) <= history
      ensures Faults() == old(Faults()) && Misled() == old(Misled())
    {
      var xs: seq<Action> := *;
      for i := 0 to |xs|
        invariant Valid() && PhaseOf(world, me) == old(PhaseOf(world, me)) && old(history) <= history
        invariant Faults() == old(Faults()) && Misled() == old(Misled())
      {
        var x := xs[i];
        if !By(x, me) {
          OthersStay(world, x, me);
          Happen(x);
        }
      }
    }

    /** One port call: the world as the port saw it, and its answer; or a crash instead. */
    method Port() returns (a: Answer, seen: Sys, crashed: bool, ghost past: seq<Action>)
      requires Valid()
      modifies this
      ensures Valid() && old(history) <= past <= history && PhaseOf(seen, me) == old(PhaseOf(world, me))
      ensures Sound(seen) && seen == Run(START, past, true)
      ensures if crashed then At(Idle) else world == Advance(seen, me, a, true)
      ensures Faults() == old(Faults()) + if crashed || !a.ok then 1 else 0
      ensures Misled() == old(Misled()) + if !crashed && Misleads(seen, Step(me, a), me) then 1 else 0
    {
      a, crashed := *, *;
      Others();
      seen, past := world, history;
      RunSound(history);
      if crashed {
        Happen(Crash(me));
      } else {
        Happen(Step(me, a));
      }
    }

    /** `Commit`. Without an error the job is created, for good, or waits for reconciliation.
        With one, a port failed, Git named no SHA, or the store gave the reason. The release at
        the end stands for the deferred one. */
    method Commit(r: Request) returns (o: Outcome, ghost past: seq<Action>)
      requires Valid() && At(Idle)
      modifies this
      ensures Valid() && At(Idle) && old(history) <= past && Explained(o, r, past)
      ensures o == PortFailed ==> Faults() > old(Faults())
      ensures o == BadSha ==> Misled() > old(Misled())
      ensures o == Done ==>
                var s := Run(START, past, true);
                Ended(s, r) && (s.jobs[r.id].status == Created ==> r.id in world.jobs && world.jobs[r.id] == s.jobs[r.id])
      ensures o != BadRecord
      ensures CountOf(world.commits, r.id) <= 1 + CountOf(world.reconciles, r.id)
    {
      hide Run, ValidSha, Acceptable, Ended, Sound;
      AcceptableIsWellFormed(r);
      if Acceptable(r) {
        Happen(CallCommit(me, r));
        o, past := CommitBody(r);
      } else {
        o, past := Invalid, history;
      }
      CommitsAreBudgeted(history, r.id);
      if o == BadRecord {
        RecordedWasReported(past, r.id);
      }
      if o == Done && Run(START, past, true).jobs[r.id].status == Created {
        assert history[..|past|] == past;
        CreatedForGood(history, |past|, r.id);
      }
    }

    method CommitBody(r: Request) returns (o: Outcome, ghost past: seq<Action>)
      requires Valid() && At(Reading(r))
      modifies this
      ensures Valid() && At(Idle) && old(history) <= past && Explained(o, r, past)
      ensures o == PortFailed ==> Faults() > old(Faults())
      ensures o == BadSha ==> Misled() > old(Misled())
      ensures o == Done ==> r.id in Run(START, past, true).jobs
    {
      hide Run, ValidSha, Acceptable, Ended, Sound, FaultsOf, MisledOf;
      var a, seen, crashed;
      a, seen, crashed, past := Port();
      if crashed || !a.ok {
        return PortFailed, past;
      }
      if Refuses(seen, r) {
        return IdentityConflict, past;
      }
      if r.id in seen.jobs && seen.jobs[r.id].status == Created {
        SoundEnds(seen, r);
        if ValidSha(seen.jobs[r.id].sha) {
          return Done, past;
        }
        ghost var looked := past;
        a, seen, crashed, past := Port();
        return BadRecord, looked;
      }
      o, past := Lease(r);
    }

    /** The lease, and what happens under it. */
    method Lease(r: Request) returns (o: Outcome, ghost past: seq<Action>)
      requires Valid() && At(Acquiring(r, false))
      modifies this
      ensures Valid() && At(Idle) && old(history) <= past && Explained(o, r, past)
      ensures o == PortFailed ==> Faults() > old(Faults())
      ensures o == BadSha ==> Misled() > old(Misled())
      ensures o == Done ==> r.id in Run(START, past, true).jobs
    {
      hide Run, ValidSha, Acceptable, Ended, Sound, FaultsOf, MisledOf;
      var a, seen, crashed;
      a, seen, crashed, past := Port();
      if crashed || !a.ok {
        return PortFailed, past;
      }
      if r.id in seen.leases {
        return LeaseHeld, past;
      }
      o, crashed, past := UnderLease(r);
      if !crashed {
        o := Release(r, o, past);
      }
    }

    /** From the acquired lease to its release: the second look decides. */
    method UnderLease(r: Request) returns (o: Outcome, crashed: bool, ghost past: seq<Action>)
      requires Valid() && At(Rereading(r))
      modifies this
      ensures Valid() && old(history) <= past && At(if crashed then Idle else Releasing(r)) && Explained(o, r, past)
      ensures Faults() >= old(Faults()) && (o == PortFailed ==> Faults() > old(Faults()))
      ensures Misled() >= old(Misled()) && (o == BadSha ==> Misled() > old(Misled()))
      ensures o in {Done, PortFailed, IdentityConflict, BadSha}
      ensures o == Done ==> r.id in Run(START, past, true).jobs
    {
      hide Run, ValidSha, Acceptable, Ended, Sound, FaultsOf, MisledOf;
      var a, seen;
      a, seen, crashed, past := Port();
      if crashed || !a.ok {
        return PortFailed, crashed, past;
      }
      if Refuses(seen, r) {
        return IdentityConflict, false, past;
      }
      if r.id in seen.jobs && seen.jobs[r.id].status == Created && ValidSha(seen.jobs[r.id].sha) {
        SoundEnds(seen, r);
        return Done, false, past;
      }
      if r.id in seen.jobs && InFlight(seen.jobs[r.id].status) {
        ghost var before := past;
        o, crashed, past := RecoverUnderLease(r);
        StaysKnown(before, past, r.id);
      } else {
        o, crashed, past := Effect(r);
      }
    }

    lemma StaysKnown(before: seq<Action>, past: seq<Action>, id: string)
      requires before <= past && id in Run(START, before, true).jobs
      ensures id in Run(START, past, true).jobs
    {
      hide Run;
      assert past[..|before|] == before;
      JobsStay(past, |before|, id);
    }

    /** Intent, Git effect, record. */
    method Effect(r: Request) returns (o: Outcome, crashed: bool, ghost past: seq<Action>)
      requires Valid() && At(Putting(r))
      modifies this
      ensures Valid() && old(history) <= past && At(if crashed then Idle else Releasing(r)) && Explained(o, r, past)
      ensures Faults() >= old(Faults()) && (o == PortFailed ==> Faults() > old(Faults()))
      ensures Misled() >= old(Misled()) && (o == BadSha ==> Misled() > old(Misled()))
      ensures o in {Done, PortFailed, IdentityConflict, BadSha}
      ensures o == Done ==> r.id in Run(START, past, true).jobs
    {
      hide Run, ValidSha, Acceptable, Ended, Sound, FaultsOf, MisledOf;
      var a, seen;
      a, seen, crashed, past := Port();
      if crashed || !a.ok {
        return PortFailed, crashed, past;
      }
      if Refuses(seen, r) {
        return IdentityConflict, false, past;
      }
      o, crashed, past := Work(r);
    }

    /** `Git.Commit` and the record of what it returned. */
    method Work(r: Request) returns (o: Outcome, crashed: bool, ghost past: seq<Action>)
      requires Valid() && At(Working(r))
      modifies this
      ensures Valid() && old(history) <= past && At(if crashed then Idle else Releasing(r)) && Explained(o, r, past)
      ensures Faults() >= old(Faults()) && (o == PortFailed ==> Faults() > old(Faults()))
      ensures Misled() >= old(Misled()) && (o == BadSha ==> Misled() > old(Misled()))
      ensures o in {Done, PortFailed, BadSha}
      ensures o == Done ==> r.id in Run(START, past, true).jobs
    {
      hide Run, ValidSha, Acceptable, Ended, Sound, FaultsOf, MisledOf;
      var a, seen;
      a, seen, crashed, past := Port();
      if crashed || !a.ok {
        return PortFailed, crashed, past;
      }
      if !ValidSha(a.sha) {
        return BadSha, false, past;
      }
      o, crashed := Record(r, a.sha);
      past := history;
    }

    /** `RecordCommit`. */
    method Record(r: Request, sha: string) returns (o: Outcome, crashed: bool)
      requires Valid() && At(Writing(r, sha))
      modifies this
      ensures Valid() && old(history) <= history && At(if crashed then Idle else Releasing(r))
      ensures Faults() >= old(Faults()) && (o == PortFailed ==> Faults() > old(Faults())) && Misled() == old(Misled())
      ensures o in {Done, PortFailed} && Explained(o, r, history) && (o == Done ==> r.id in world.jobs)
    {
      hide Run, ValidSha, Acceptable, Sound, FaultsOf, MisledOf;
      var a, seen;
      ghost var past;
      a, seen, crashed, past := Port();
      if crashed || !a.ok {
        return PortFailed, crashed;
      }
      StandsSound(seen, me);
      assert JobSound(seen, r.id);
      o := Done;
    }

    /** `recoverCommit`: record what Git shows, or ask for reconciliation; nothing where no
        attempt is under way. */
    method RecoverUnderLease(r: Request) returns (o: Outcome, crashed: bool, ghost past: seq<Action>)
      requires Valid() && At(RecoverReading(r))
      modifies this
      ensures Valid() && old(history) <= past && At(if crashed then Idle else Releasing(r)) && Explained(o, r, past)
      ensures Faults() >= old(Faults()) && Misled() == old(Misled())
      ensures o in {Done, PortFailed, IdentityConflict} && (o == PortFailed ==> Faults() > old(Faults()))
    {
      hide Run, ValidSha, Acceptable, Ended, Sound, FaultsOf, MisledOf;
      var a, seen;
      a, seen, crashed, past := Port();
      if crashed || !a.ok {
        return PortFailed, crashed, past;
      }
      if Refuses(seen, r) {
        return IdentityConflict, false, past;
      }
      if r.id !in seen.jobs || !InFlight(seen.jobs[r.id].status) {
        if r.id in seen.jobs {
          SoundEnds(seen, r);
        }
        return Done, false, past;
      }
      o, crashed, past := Inspect(r);
    }

    /** What Git shows of the attempt decides between record and reconciliation. */
    method Inspect(r: Request) returns (o: Outcome, crashed: bool, ghost past: seq<Action>)
      requires Valid() && At(Inspecting(r))
      modifies this
      ensures Valid() && old(history) <= past && At(if crashed then Idle else Releasing(r)) && Explained(o, r, past)
      ensures Faults() >= old(Faults()) && Misled() == old(Misled())
      ensures o in {Done, PortFailed} && (o == PortFailed ==> Faults() > old(Faults()))
    {
      hide Run, ValidSha, Acceptable, Ended, Sound, FaultsOf, MisledOf;
      var a, seen;
      a, seen, crashed, past := Port();
      if crashed {
        return PortFailed, true, past;
      }
      if a.ok && a.evidence == r.evidence && ValidSha(a.sha) {
        o, crashed := Record(r, a.sha);
      } else {
        o, crashed := Reconcile(r);
      }
      past := history;
    }

    /** `RecordReconcile`. */
    method Reconcile(r: Request) returns (o: Outcome, crashed: bool)
      requires Valid() && At(Reconciling(r))
      modifies this
      ensures Valid() && old(history) <= history && At(if crashed then Idle else Releasing(r))
      ensures Faults() >= old(Faults()) && (o == PortFailed ==> Faults() > old(Faults())) && Misled() == old(Misled())
      ensures o in {Done, PortFailed} && Explained(o, r, history) && (o == Done ==> r.id in world.jobs)
    {
      hide Run, ValidSha, Acceptable, Sound, FaultsOf, MisledOf;
      var a, seen;
      ghost var past;
      a, seen, crashed, past := Port();
      if crashed || !a.ok {
        return PortFailed, crashed;
      }
      StandsSound(seen, me);
      o := Done;
    }

    /** The deferred release: its failure only shows when nothing else failed. */
    method Release(r: Request, outcome: Outcome, ghost past: seq<Action>) returns (o: Outcome)
      requires Valid() && At(Releasing(r)) && Explained(outcome, r, past)
      modifies this
      ensures Valid() && At(Idle) && old(history) <= history && Explained(o, r, past)
      ensures Faults() >= old(Faults()) && Misled() == old(Misled())
      ensures o == outcome || (o == PortFailed && Faults() > old(Faults()))
    {
      hide Run, ValidSha, Acceptable, Ended, Sound, FaultsOf, MisledOf;
      var a, seen, crashed;
      ghost var before;
      a, seen, crashed, before := Port();
      o := if outcome == Done && (crashed || !a.ok) then PortFailed else outcome;
    }

    /** `RecoverCommit`: recovery under the same lease. Without an error the job was not under
        way, or now is settled as `Commit` settles it. */
    method Recover(r: Request) returns (o: Outcome, ghost past: seq<Action>)
      requires Valid() && At(Idle)
      modifies this
      ensures Valid() && At(Idle) && old(history) <= past && Explained(o, r, past)
      ensures o in {Done, PortFailed, Invalid, IdentityConflict, LeaseHeld}
      ensures o == PortFailed ==> Faults() > old(Faults())
      ensures CountOf(world.commits, r.id) <= 1 + CountOf(world.reconciles, r.id)
    {
      hide Run, ValidSha, Acceptable, Ended, Sound;
      AcceptableIsWellFormed(r);
      if Acceptable(r) {
        Happen(CallRecover(me, r));
        o, past := RecoverBody(r);
      } else {
        o, past := Invalid, history;
      }
      CommitsAreBudgeted(history, r.id);
    }

    method RecoverBody(r: Request) returns (o: Outcome, ghost past: seq<Action>)
      requires Valid() && At(Acquiring(r, true))
      modifies this
      ensures Valid() && At(Idle) && old(history) <= past && Explained(o, r, past)
      ensures o in {Done, PortFailed, IdentityConflict, LeaseHeld}
      ensures o == PortFailed ==> Faults() > old(Faults())
    {
      hide Run, ValidSha, Acceptable, Ended, Sound, FaultsOf, MisledOf;
      var a, seen, crashed;
      a, seen, crashed, past := Port();
      if crashed || !a.ok {
        return PortFailed, past;
      }
      if r.id in seen.leases {
        return LeaseHeld, past;
      }
      o, crashed, past := RecoverUnderLease(r);
      if !crashed {
        o := Release(r, o, past);
      }
    }
  }

  /** The action is a step, a call or a crash of this caller. */
  predicate By(x: Action, me: nat) {
    match x
    case CallCommit(c, _) => c == me
    case CallRecover(c, _) => c == me
    case Step(c, _) => c == me
    case Crash(c) => c == me
    case Expire(_) => false
  }

  predicate Looks(p: Phase) {
    p.Idle? || p.Reading? || p.Rereading? || p.RecoverReading?
  }

  lemma LookStays(s: Sys, c: nat, a: Answer, me: nat)
    requires c != me && Looks(PhaseOf(s, c))
    ensures PhaseOf(Advance(s, c, a, true), me) == PhaseOf(s, me)
  {
    hide ValidSha, FirstLook, SecondLook, RecoverLook;
  }

  lemma LeaseStays(s: Sys, c: nat, a: Answer, me: nat)
    requires c != me && (PhaseOf(s, c).Acquiring? || PhaseOf(s, c).Releasing?)
    ensures PhaseOf(Advance(s, c, a, true), me) == PhaseOf(s, me)
  {
    hide ValidSha;
  }

  lemma EffectStays(s: Sys, c: nat, a: Answer, me: nat)
    requires c != me && !Looks(PhaseOf(s, c)) && !PhaseOf(s, c).Acquiring? && !PhaseOf(s, c).Releasing?
    ensures PhaseOf(Advance(s, c, a, true), me) == PhaseOf(s, me)
  {
    hide ValidSha, Reconcile, Report;
  }

  lemma OthersStay(s: Sys, x: Action, me: nat)
    requires !By(x, me)
    ensures PhaseOf(Do(s, x, true), me) == PhaseOf(s, me)
  {
    hide Advance, HeldAlive;
    match x
    case Step(c, a) =>
      if Looks(PhaseOf(s, c)) {
        LookStays(s, c, a, me);
      } else if PhaseOf(s, c).Acquiring? || PhaseOf(s, c).Releasing? {
        LeaseStays(s, c, a, me);
      } else {
        EffectStays(s, c, a, me);
      }
    case _ =>
  }
}
