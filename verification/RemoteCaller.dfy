/** The code that creates and attaches a hosted repository, one call at a time under its lease:
    every run is a run of the step machine; an identity is only returned when the alias is bound
    to a repository that is there, and a call that returns none says why. */
module RemoteCaller {
  import opened Names
  import opened RemoteCreation

  /** What a call returns: the identity, or which error. */
  datatype Outcome =
    | Done
    | PortFailed
    | WrongIdentity
    | IdentityConflict
    | LacksIdentity
    | HasFailed
    | BoundElsewhere
    | HostAbsent
    | AliasTaken
    | JobMissing

  predicate Fails(x: Action) {
    x == Crash || (x.Step? && !x.answer.ok)
  }

  /** Hosted Create answered with another identity. */
  predicate Misleads(s: Sys, g: Target, x: Action) {
    x.Step? && x.answer.ok && s.phase.Creating? && x.answer.text != g.identity
  }

  /** How often a port failed, or the process crashed. */
  ghost function FaultsOf(h: seq<Action>): nat {
    if h == [] then 0 else FaultsOf(h[..|h| - 1]) + if Fails(h[|h| - 1]) then 1 else 0
  }

  ghost function MisledOf(s: Sys, g: Target, h: seq<Action>): nat {
    if h == [] then 0
    else MisledOf(s, g, h[..|h| - 1]) + if Misleads(Run(s, g, h[..|h| - 1]), g, h[|h| - 1]) then 1 else 0
  }

  predicate EndsDone(s: Sys, g: Target, r: Request) {
    s.present && r.alias in s.aliases && s.aliases[r.alias] in g.spellings &&
    r.id in s.jobs && s.jobs[r.id] == Job(r.alias, r.visibility, g.identity, Attached)
  }

  /** What the outcome says of the world now, or `before` at an earlier point of the call. */
  predicate Explains(o: Outcome, g: Target, r: Request, before: Sys, now: Sys) {
    match o
    case Done => EndsDone(now, g, r)
    case PortFailed => true
    case WrongIdentity => true
    case IdentityConflict => r.id in before.jobs && (before.jobs[r.id].alias != r.alias || before.jobs[r.id].visibility != r.visibility)
    case LacksIdentity => r.id in before.jobs && before.jobs[r.id].hosted == "" && before.jobs[r.id].status in {Created, Attached}
    case HasFailed => r.id in before.jobs && before.jobs[r.id].status == Failed
    case BoundElsewhere => r.alias in before.aliases && before.aliases[r.alias] !in g.spellings
    case HostAbsent => r.alias in before.aliases && !before.present
    case AliasTaken => r.alias in before.aliases
    case JobMissing => r.id !in before.jobs
  }

  class Transaction {
    const target: Target
    ghost const start: Sys
    /** The durable jobs, the host, the aliases and this caller, as they are now. */
    var world: Sys
    ghost var history: seq<Action>

    ghost predicate Valid()
      reads this
    {
      Initial(start) && Sensible(target) && world == Run(start, target, history)
    }

    ghost predicate At(p: Phase)
      reads this
    {
      world.phase == p
    }

    ghost function Faults(): nat
      reads this
    {
      FaultsOf(history)
    }

    ghost function Misled(): nat
      reads this
    {
      MisledOf(start, target, history)
    }

    /** The outcome, with `past` the earlier point it may speak of. */
    ghost predicate Explained(o: Outcome, r: Request, past: seq<Action>)
      reads this
    {
      past <= history && Explains(o, target, r, Run(start, target, past), world)
    }

    /** No failure without its cause since there were so many. */
    ghost predicate Caused(o: Outcome, faults: nat, misled: nat)
      reads this
    {
      && Faults() >= faults && Misled() >= misled
      && (o == PortFailed ==> Faults() > faults) && (o == WrongIdentity ==> Misled() > misled)
    }

    constructor (target: Target, start: Sys)
      requires Initial(start) && Sensible(target)
      ensures Valid() && world == start && this.target == target
    {
      this.target := target;
      this.start := start;
      world, history := start, [];
    }

    method Happen(x: Action)
      requires Valid()
      modifies this
      ensures Valid() && world == Do(old(world), target, x) && history == old(history) + [x]
      ensures Faults() == old(Faults()) + if Fails(x) then 1 else 0
      ensures Misled() == old(Misled()) + if Misleads(old(world), target, x) then 1 else 0
    {
      assert (history + [x])[..|history|] == history;
      history := history + [x];
      world := Do(world, target, x);
    }

    /** One store, host or Git call: the world as it saw it, and its answer; or a crash instead. */
    method Port() returns (a: Answer, seen: Sys, crashed: bool, ghost past: seq<Action>)
      requires Valid()
      modifies this
      ensures Valid() && seen == old(world) && Sound(seen, target)
      ensures past == old(history) <= history && seen == Run(start, target, past)
      ensures if crashed then At(REFUSED) else world == Advance(seen, target, a)
      ensures Faults() == old(Faults()) + if crashed || !a.ok then 1 else 0
      ensures Misled() == old(Misled()) + if !crashed && Misleads(seen, target, Step(a)) then 1 else 0
    {
      a, crashed := *, *;
      seen, past := world, history;
      RunSound(start, target, history);
      if crashed {
        Happen(Crash);
      } else {
        Happen(Step(a));
      }
    }

    /** `Create`, after the lease. */
    method Create(r: Request) returns (o: Outcome, ghost past: seq<Action>)
      requires Valid() && world.phase.Idle?
      modifies this
      ensures Valid() && world.phase.Idle? && old(history) <= past && Explained(o, r, past)
      ensures Caused(o, old(Faults()), old(Misled()))
    {
      hide Run, Sound, FaultsOf, MisledOf;
      Happen(Call(r));
      var a, seen, crashed;
      a, seen, crashed, past := Port();
      if crashed || !a.ok {
        return PortFailed, past;
      }
      if r.id !in seen.jobs {
        o, past := Begin(r);
        return;
      }
      var j := seen.jobs[r.id];
      if j.alias != r.alias || j.visibility != r.visibility {
        return IdentityConflict, past;
      }
      if (j.status == Created || j.status == Attached) && j.hosted == "" {
        return LacksIdentity, past;
      }
      if j.status == Attached {
        SoundJob(seen, target, r.id);
        return Done, past;
      }
      if j.status == Failed {
        return HasFailed, past;
      }
      o, past := Bind(r);
    }

    /** The durable intent of a new job. */
    method Begin(r: Request) returns (o: Outcome, ghost past: seq<Action>)
      requires Valid() && At(PuttingNew(r))
      modifies this
      ensures Valid() && world.phase.Idle? && old(history) <= past && Explained(o, r, past)
      ensures Caused(o, old(Faults()), old(Misled()))
    {
      hide Run, Sound, FaultsOf, MisledOf;
      var a, seen, crashed;
      a, seen, crashed, past := Port();
      if crashed || !a.ok {
        return PortFailed, past;
      }
      PutIsAccepted(seen, target);
      o, past := Bind(r);
    }

    /** `putJob` with the failed state; its own failure is ignored. */
    method Fail(r: Request, hosted: string, reason: Outcome, ghost past: seq<Action>) returns (o: Outcome)
      requires Valid() && At(MarkingFailed(r, hosted)) && reason != Done && Explained(reason, r, past)
      modifies this
      ensures Valid() && world.phase.Idle? && old(history) <= history && o == reason && Explained(o, r, past)
      ensures Faults() >= old(Faults()) && Misled() == old(Misled())
    {
      hide Run, Sound, FaultsOf, MisledOf;
      var a, seen, crashed;
      ghost var before;
      a, seen, crashed, before := Port();
      o := reason;
    }

    /** From the local alias on. */
    method Bind(r: Request) returns (o: Outcome, ghost past: seq<Action>)
      requires Valid() && At(Binding(r))
      modifies this
      ensures Valid() && world.phase.Idle? && old(history) <= past && Explained(o, r, past)
      ensures Caused(o, old(Faults()), old(Misled()))
    {
      hide Run, Sound, FaultsOf, MisledOf;
      var a, seen, crashed;
      a, seen, crashed, past := Port();
      if crashed || !a.ok {
        return PortFailed, past;
      }
      if r.alias !in seen.aliases {
        o, past := Reread(r);
        return;
      }
      if seen.aliases[r.alias] !in target.spellings {
        o := Fail(r, "", BoundElsewhere, past);
        return;
      }
      o, past := ConfirmBound(r);
    }

    /** The alias is bound rightly: is the repository there? */
    method ConfirmBound(r: Request) returns (o: Outcome, ghost past: seq<Action>)
      requires Valid() && At(ConfirmingBound(r)) && r.alias in world.aliases
      modifies this
      ensures Valid() && world.phase.Idle? && old(history) <= past && Explained(o, r, past)
      ensures Caused(o, old(Faults()), old(Misled()))
    {
      hide Run, Sound, FaultsOf, MisledOf;
      var a, seen, crashed;
      a, seen, crashed, past := Port();
      if crashed {
        return PortFailed, past;
      }
      if !a.ok || !seen.present {
        o := Fail(r, "", if a.ok then HostAbsent else PortFailed, past);
        return;
      }
      o, past := Attach(r, target.identity);
    }

    /** The alias is free: the job says how far an earlier attempt got. */
    method Reread(r: Request) returns (o: Outcome, ghost past: seq<Action>)
      requires Valid() && At(Rereading(r))
      modifies this
      ensures Valid() && world.phase.Idle? && old(history) <= past && Explained(o, r, past)
      ensures Caused(o, old(Faults()), old(Misled()))
    {
      hide Run, Sound, FaultsOf, MisledOf;
      var a, seen, crashed;
      a, seen, crashed, past := Port();
      if crashed || !a.ok {
        return PortFailed, past;
      }
      if r.id !in seen.jobs {
        return JobMissing, past;
      }
      if seen.jobs[r.id].status == Requested {
        o, past := ConfirmHosted(r);
      } else if seen.jobs[r.id].hosted == "" {
        o, past := CreateHosted(r);
      } else {
        o, past := AddRemote(r, seen.jobs[r.id].hosted);
      }
    }

    /** A requested job: the host is asked before anything is created. */
    method ConfirmHosted(r: Request) returns (o: Outcome, ghost past: seq<Action>)
      requires Valid() && At(ConfirmingHosted(r))
      modifies this
      ensures Valid() && world.phase.Idle? && old(history) <= past && Explained(o, r, past)
      ensures Caused(o, old(Faults()), old(Misled()))
    {
      hide Run, Sound, FaultsOf, MisledOf;
      var a, seen, crashed;
      a, seen, crashed, past := Port();
      if crashed || !a.ok {
        return PortFailed, past;
      }
      if seen.present {
        a, seen, crashed, past := Port();
        if crashed || !a.ok {
          return PortFailed, past;
        }
        PutIsAccepted(seen, target);
        o, past := AddRemote(r, target.identity);
      } else if r.id in seen.jobs && seen.jobs[r.id].hosted != "" {
        o, past := AddRemote(r, seen.jobs[r.id].hosted);
      } else {
        o, past := CreateHosted(r);
      }
    }

    method CreateHosted(r: Request) returns (o: Outcome, ghost past: seq<Action>)
      requires Valid() && At(Creating(r))
      modifies this
      ensures Valid() && world.phase.Idle? && old(history) <= past && Explained(o, r, past)
      ensures Caused(o, old(Faults()), old(Misled()))
    {
      hide Run, Sound, FaultsOf, MisledOf;
      var a, seen, crashed;
      a, seen, crashed, past := Port();
      if crashed {
        return PortFailed, past;
      }
      if !a.ok {
        o := Fail(r, "", PortFailed, past);
        return;
      }
      if a.text != target.identity {
        o := Fail(r, a.text, WrongIdentity, past);
        return;
      }
      a, seen, crashed, past := Port();
      if crashed || !a.ok {
        return PortFailed, past;
      }
      PutIsAccepted(seen, target);
      o, past := AddRemote(r, target.identity);
    }

    /** `AddRemote`, and a look at what the alias is bound to then. */
    method AddRemote(r: Request, hosted: string) returns (o: Outcome, ghost past: seq<Action>)
      requires Valid() && At(AddingRemote(r, hosted))
      modifies this
      ensures Valid() && world.phase.Idle? && old(history) <= past && Explained(o, r, past)
      ensures Caused(o, old(Faults()), old(Misled()))
    {
      hide Run, Sound, FaultsOf, MisledOf;
      var a, seen, crashed;
      a, seen, crashed, past := Port();
      if crashed || !a.ok {
        return PortFailed, past;
      }
      if r.alias in seen.aliases {
        return AliasTaken, past;
      }
      o, past := CheckRemote(r, hosted);
    }

    method CheckRemote(r: Request, hosted: string) returns (o: Outcome, ghost past: seq<Action>)
      requires Valid() && At(CheckingRemote(r, hosted)) && r.alias in world.aliases
      modifies this
      ensures Valid() && world.phase.Idle? && old(history) <= past && Explained(o, r, past)
      ensures Caused(o, old(Faults()), old(Misled()))
    {
      hide Run, Sound, FaultsOf, MisledOf;
      var a, seen, crashed;
      a, seen, crashed, past := Port();
      if crashed || !a.ok {
        return PortFailed, past;
      }
      if !Bound(seen, target, r.alias) {
        return BoundElsewhere, past;
      }
      o, past := Attach(r, hosted);
    }

    method Attach(r: Request, hosted: string) returns (o: Outcome, ghost past: seq<Action>)
      requires Valid() && At(Attaching(r, hosted))
      modifies this
      ensures Valid() && world.phase.Idle? && old(history) <= past && Explained(o, r, past)
      ensures Caused(o, old(Faults()), old(Misled()))
    {
      hide Run, Sound, FaultsOf, MisledOf;
      var a, seen, crashed;
      a, seen, crashed, past := Port();
      if crashed || !a.ok {
        return PortFailed, past;
      }
      SoundPhase(seen, target);
      PutIsAccepted(seen, target);
      return Done, past;
    }
  }
}
