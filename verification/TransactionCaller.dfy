/** The transaction's code, run while the user goes on working: every run of these methods is a
    run of the step machine; a SHA is only returned with its ref in place, and a call that
    returns none says why. */
module TransactionCaller {
  import opened Names
  import opened GitTransaction

  /** What a call returns: a commit, or which error. */
  datatype Outcome =
    | Committed(sha: string)
    | PortFailed
    | BadObject
    | Invalid
    | Unknown
    | Mismatch
    | Conflict
    | Moved
    | RefAbsent
    | RefTaken

  /** Where HEAD is looked up. */
  predicate LooksUp(p: Phase) {
    p.Preparing? || p.Committing? || p.Guarding?
  }

  predicate Fails(s: Sys, x: Action) {
    x == Crash || (x.Step? && (!x.answer.ok || (x.answer.blind && LooksUp(s.phase))))
  }

  /** Git answered with no object name, or the prepared candidate is not well formed. */
  predicate Misleads(s: Sys, x: Action) {
    x.Step? && x.answer.ok &&
    ((s.phase.Making? && !ValidSha(x.answer.text)) ||
     (s.phase.Preparing? && !ValidIntent(PreparedIntent(s.user, s.phase.request, x.answer))))
  }

  /** How often a command or the store failed, or the process crashed. */
  ghost function FaultsOf(s: Sys, h: seq<Action>): nat {
    if h == [] then 0
    else FaultsOf(s, h[..|h| - 1]) + if Fails(Run(s, h[..|h| - 1]), h[|h| - 1]) then 1 else 0
  }

  ghost function MisledOf(s: Sys, h: seq<Action>): nat {
    if h == [] then 0
    else MisledOf(s, h[..|h| - 1]) + if Misleads(Run(s, h[..|h| - 1]), h[|h| - 1]) then 1 else 0
  }

  /** The SHA is on the intent's ref, names a commit with exactly its content, and is recorded. */
  predicate Arrived(d: Durable, id: string, sha: string) {
    && id in d.intents && Points(d, d.intents[id], sha) && Exact(d, sha, d.intents[id])
    && id in d.recorded && d.recorded[id] == sha
  }

  /** What the outcome of a call for `id` says of the world now, or `before` at an earlier point
      of the call. */
  predicate Explains(o: Outcome, id: string, before: Sys, now: Sys) {
    match o
    case Committed(sha) => Arrived(now.durable, id, sha)
    case Unknown => id !in before.durable.intents
    case Mismatch => id in before.durable.intents
    case Conflict => id in before.durable.intents
    case RefAbsent => id in before.durable.intents && RefFor(id) !in before.durable.refs
    case RefTaken => RefFor(id) in before.durable.refs
    case _ => true
  }

  /** What more the outcome says when the candidate is known. Without a fault HEAD was found. */
  predicate Grounds(o: Outcome, i: Intent, index: string, before: Sys, faulty: bool) {
    match o
    case Committed(_) => Kept(before.durable, i)
    case Invalid => !ValidIntent(i)
    case Conflict => i.id in before.durable.intents && before.durable.intents[i.id] != i
    case Moved => faulty || !Unchanged(before.user, i, index, false)
    case Mismatch => false
    case _ => true
  }

  class Transaction {
    ghost const start: Sys
    /** The repository, the durable intents and this caller, as they are now. */
    var world: Sys
    ghost var history: seq<Action>

    ghost predicate Valid()
      reads this
    {
      Initial(start) && world == Run(start, history)
    }

    ghost predicate At(p: Phase)
      reads this
    {
      world.phase == p
    }

    ghost function Faults(): nat
      reads this
    {
      FaultsOf(start, history)
    }

    ghost function Misled(): nat
      reads this
    {
      MisledOf(start, history)
    }

    /** The outcome, with `past` the earlier point it may speak of. */
    ghost predicate Explained(o: Outcome, id: string, past: seq<Action>)
      reads this
    {
      past <= history && Explains(o, id, Run(start, past), world)
    }

    /** No failure without its cause since there were so many. */
    ghost predicate Caused(o: Outcome, faults: nat, misled: nat)
      reads this
    {
      && Faults() >= faults && Misled() >= misled
      && (o == PortFailed ==> Faults() > faults) && (o == BadObject ==> Misled() > misled)
    }

    constructor (start: Sys)
      requires Initial(start)
      ensures Valid() && world == start
    {
      this.start := start;
      world, history := start, [];
    }

    method Happen(x: Action)
      requires Valid()
      modifies this
      ensures Valid() && world == Do(old(world), x) && history == old(history) + [x]
      ensures Faults() == old(Faults()) + if Fails(old(world), x) then 1 else 0
      ensures Misled() == old(Misled()) + if Misleads(old(world), x) then 1 else 0
    {
      assert (history + [x])[..|history|] == history;
      history := history + [x];
      world := Do(world, x);
    }

    /** The user moves HEAD, the index, other refs, and adds objects. */
    method UserWorks()
      requires Valid()
      modifies this
      ensures Valid() && world.phase == old(world.phase) && old(history) <= history
      ensures Faults() == old(Faults()) && Misled() == old(Misled())
    {
      var xs: seq<Action> := *;
      for i := 0 to |xs|
        invariant Valid() && world.phase == old(world.phase) && old(history) <= history
        invariant Faults() == old(Faults()) && Misled() == old(Misled())
      {
        if ByUser(xs[i]) {
          Happen(xs[i]);
        }
      }
    }

    /** One command or store call: the world as it saw it, and its answer; or a crash instead. */
    method Port() returns (a: Answer, seen: Sys, crashed: bool, ghost past: seq<Action>)
      requires Valid()
      modifies this
      ensures Valid() && old(history) <= past <= history && seen.phase == old(world.phase) && Sound(seen)
      ensures seen == Run(start, past)
      ensures if crashed then At(REFUSED) else world == Advance(seen, a)
      ensures Faults() == old(Faults()) + if crashed || Fails(seen, Step(a)) then 1 else 0
      ensures Misled() == old(Misled()) + if !crashed && Misleads(seen, Step(a)) then 1 else 0
    {
      a, crashed := *, *;
      UserWorks();
      seen, past := world, history;
      RunSound(start, history);
      if crashed {
        Happen(Crash);
      } else {
        if !Possible(world, Step(a)) {
          a := Answer(false, false, false, "", 0);
        }
        Happen(Step(a));
      }
    }

    /** `reconcile`. */
    method Reconcile(id: string)
      requires Valid() && At(Reconciling(id))
      modifies this
      ensures Valid() && world.phase.Idle? && old(history) <= history
      ensures Faults() >= old(Faults()) && Misled() == old(Misled())
    {
      hide Run, Sound;
      var a, seen, crashed;
      ghost var past;
      a, seen, crashed, past := Port();
    }

    /** A failure that asks for reconciliation before it is returned. */
    method GiveUp(id: string, reason: Outcome, ghost past: seq<Action>) returns (o: Outcome)
      requires Valid() && At(Reconciling(id)) && !reason.Committed? && Explained(reason, id, past)
      modifies this
      ensures Valid() && world.phase.Idle? && old(history) <= history
      ensures o == reason && Explained(o, id, past)
      ensures Faults() >= old(Faults()) && Misled() == old(Misled())
    {
      hide Run, Sound, FaultsOf, MisledOf;
      Reconcile(id);
      o := reason;
    }

    /** `RecordCommit`, and the SHA if it was recorded. */
    method Record(i: Intent, sha: string) returns (o: Outcome)
      requires Valid() && At(Recording(i, sha))
      modifies this
      ensures Valid() && world.phase.Idle? && old(history) <= history
      ensures o in {Committed(sha), PortFailed} && Explained(o, i.id, history)
      ensures Caused(o, old(Faults()), old(Misled())) && (o.Committed? ==> Kept(world.durable, i))
    {
      hide Run, Exact, FaultsOf, MisledOf;
      var a, seen, crashed;
      ghost var past;
      a, seen, crashed, past := Port();
      if crashed || !a.ok {
        return PortFailed;
      }
      RecordedIsExact(seen, i, sha);
      ExactKept(seen.durable, world.durable, sha, i);
      return Committed(sha);
    }

    /** `Recover`: it proves an earlier effect from the ref and never creates one. */
    method Recover(id: string) returns (o: Outcome, ghost past: seq<Action>)
      requires Valid() && world.phase.Idle?
      modifies this
      ensures Valid() && world.phase.Idle? && old(history) <= past && Explained(o, id, past)
      ensures o.Committed? || o in {PortFailed, Unknown, RefAbsent}
      ensures Caused(o, old(Faults()), old(Misled()))
    {
      hide Run, Exact, Sound, FaultsOf, MisledOf;
      Happen(CallRecover(id));
      o, past := RecoverBody(id);
    }

    method RecoverBody(id: string) returns (o: Outcome, ghost past: seq<Action>)
      requires Valid() && At(Recovering(id))
      modifies this
      ensures Valid() && world.phase.Idle? && old(history) <= past && Explained(o, id, past)
      ensures o.Committed? || o in {PortFailed, Unknown, RefAbsent}
      ensures Caused(o, old(Faults()), old(Misled()))
    {
      hide Run, Exact, Sound, Verified, ValidIntent, FaultsOf, MisledOf;
      var a, seen, crashed;
      a, seen, crashed, past := Port();
      if crashed || !a.ok {
        return PortFailed, past;
      }
      if id !in seen.durable.intents {
        return Unknown, past;
      }
      KeptUnder(seen, id);
      o, past := Find(seen.durable.intents[id]);
    }

    /** From the intent on file: the ref, its proof, the record. */
    method Find(i: Intent) returns (o: Outcome, ghost past: seq<Action>)
      requires Valid() && At(Finding(i))
      modifies this
      ensures Valid() && world.phase.Idle? && old(history) <= past && Explained(o, i.id, past)
      ensures o.Committed? || o in {PortFailed, RefAbsent}
      ensures Caused(o, old(Faults()), old(Misled()))
    {
      hide Run, Exact, Sound, Verified, ValidIntent, FaultsOf, MisledOf;
      var a, seen, crashed;
      a, seen, crashed, past := Port();
      if crashed {
        return PortFailed, past;
      }
      var sha := SeenRef(seen.durable, i, a);
      RefIsOwn(seen);
      if sha == "" {
        o := GiveUp(i.id, if a.ok then RefAbsent else PortFailed, past);
        return;
      }
      a, seen, crashed, past := Port();
      if crashed {
        return PortFailed, past;
      }
      if a.ok {
        KnowsItsCommit(seen, a);
      }
      if !Verified(seen.durable, i, sha, a) {
        o := GiveUp(i.id, PortFailed, past);
        return;
      }
      o := Record(i, sha);
      past := history;
    }

    /** `CommitPrepared`: recheck, durable intent, one commit-tree, guarded ref, proof, record.
        `Moved` means HEAD or index had changed, `Conflict` that another candidate is on file. */
    method CommitPrepared(i: Intent, index: string) returns (o: Outcome, ghost past: seq<Action>)
      requires Valid() && world.phase.Idle?
      modifies this
      ensures Valid() && world.phase.Idle? && old(history) <= past && Explained(o, i.id, past)
      ensures Caused(o, old(Faults()), old(Misled()))
      ensures Grounds(o, i, index, Run(start, past), Faults() > old(Faults()))
      ensures o.Committed? ==> i.id in world.durable.intents && world.durable.intents[i.id] == i
    {
      hide Run, Exact, Sound, FaultsOf, MisledOf;
      Happen(CallCommit(i, index));
      o, past := CommitBody(i, index);
      if o.Committed? {
        StaysOnFile(past, history, i.id);
      }
    }

    method CommitBody(i: Intent, index: string) returns (o: Outcome, ghost past: seq<Action>)
      requires Valid() && At(Committing(i, index))
      modifies this
      ensures Valid() && world.phase.Idle? && old(history) <= past && Explained(o, i.id, past)
      ensures Caused(o, old(Faults()), old(Misled()))
      ensures Grounds(o, i, index, Run(start, past), Faults() > old(Faults()))
    {
      hide Run, Exact, Sound, ValidIntent, Unchanged, FaultsOf, MisledOf;
      var a, seen, crashed;
      a, seen, crashed, past := Port();
      if crashed || !a.ok {
        return PortFailed, past;
      }
      if !ValidIntent(i) {
        return Invalid, past;
      }
      if !Unchanged(seen.user, i, index, a.blind) {
        return Moved, past;
      }
      o, past := Check(i, index);
    }

    /** The intent on file, or else a new one. */
    method Check(i: Intent, index: string) returns (o: Outcome, ghost past: seq<Action>)
      requires Valid() && At(Checking(i, index))
      modifies this
      ensures Valid() && world.phase.Idle? && old(history) <= past && Explained(o, i.id, past)
      ensures Caused(o, old(Faults()), old(Misled()))
      ensures Grounds(o, i, index, Run(start, past), Faults() > old(Faults()))
    {
      hide Run, Exact, Sound, ValidIntent, Unchanged, FaultsOf, MisledOf;
      var a, seen, crashed;
      a, seen, crashed, past := Port();
      if crashed || !a.ok {
        return PortFailed, past;
      }
      if i.id in seen.durable.intents {
        if seen.durable.intents[i.id] != i {
          return Conflict, past;
        }
        ghost var looked := past;
        o, past := RecoverBody(i.id);
        StaysOnFile(looked, past, i.id);
        return;
      }
      a, seen, crashed, past := Port();
      if crashed || !a.ok {
        return PortFailed, past;
      }
      if i.id in seen.durable.intents && seen.durable.intents[i.id] != i {
        return Conflict, past;
      }
      o, past := MakeAndPoint(i, index);
    }

    lemma StaysOnFile(before: seq<Action>, past: seq<Action>, id: string)
      requires Initial(start) && before <= past && id in Run(start, before).durable.intents
      ensures id in Run(start, past).durable.intents
      ensures Run(start, past).durable.intents[id] == Run(start, before).durable.intents[id]
    {
      hide Run;
      assert past[..|before|] == before;
      IntentNeverLost(start, past, |before|, id);
    }

    /** From the durable intent on. */
    method MakeAndPoint(i: Intent, index: string) returns (o: Outcome, ghost past: seq<Action>)
      requires Valid() && At(Making(i, index))
      modifies this
      ensures Valid() && world.phase.Idle? && old(history) <= past && Explained(o, i.id, past)
      ensures Caused(o, old(Faults()), old(Misled())) && o !in {Invalid, Unknown, Conflict}
      ensures Grounds(o, i, index, Run(start, past), Faults() > old(Faults()))
    {
      hide Run, Exact, Sound, Verified, ValidSha, NewCommit, Unchanged, ValidIntent, FaultsOf, MisledOf;
      var a, seen, crashed;
      a, seen, crashed, past := Port();
      if crashed {
        return PortFailed, past;
      }
      var sha := a.text;
      if !a.ok || !ValidSha(sha) {
        o := GiveUp(i.id, if a.ok then BadObject else PortFailed, past);
        return;
      }
      o, past := Guard(i, index, sha);
    }

    /** The recheck before the ref. */
    method Guard(i: Intent, index: string, sha: string) returns (o: Outcome, ghost past: seq<Action>)
      requires Valid() && At(Guarding(i, index, sha))
      modifies this
      ensures Valid() && world.phase.Idle? && old(history) <= past && Explained(o, i.id, past)
      ensures Caused(o, old(Faults()), old(Misled())) && o !in {Invalid, Unknown, Conflict}
      ensures Grounds(o, i, index, Run(start, past), Faults() > old(Faults()))
    {
      hide Run, Exact, Sound, Verified, ValidSha, NewCommit, Unchanged, ValidIntent, FaultsOf, MisledOf;
      var a, seen, crashed;
      a, seen, crashed, past := Port();
      if crashed {
        return PortFailed, past;
      }
      if !a.ok || !Unchanged(seen.user, i, index, a.blind) {
        o := GiveUp(i.id, if a.ok then Moved else PortFailed, past);
        return;
      }
      o, past := PointRef(i, sha);
    }

    /** From the guarded ref update to the record. */
    method PointRef(i: Intent, sha: string) returns (o: Outcome, ghost past: seq<Action>)
      requires Valid() && At(Inspecting(i, sha))
      modifies this
      ensures Valid() && world.phase.Idle? && old(history) <= past && Explained(o, i.id, past)
      ensures o.Committed? || o in {PortFailed, RefTaken}
      ensures Caused(o, old(Faults()), old(Misled())) && (o.Committed? ==> Kept(Run(start, past).durable, i))
    {
      hide Run, Exact, Sound, Verified, ValidIntent, FaultsOf, MisledOf;
      var a, seen, crashed;
      a, seen, crashed, past := Port();
      if crashed {
        return PortFailed, past;
      }
      var was := SeenRef(seen.durable, i, a);
      RefIsOwn(seen);
      if was != "" {
        if was != sha {
          o := GiveUp(i.id, RefTaken, past);
          return;
        }
        o := Record(i, sha);
        past := history;
        return;
      }
      o, past := Point(i, sha);
    }

    /** `update-ref` and its proof. */
    method Point(i: Intent, sha: string) returns (o: Outcome, ghost past: seq<Action>)
      requires Valid() && At(Pointing(i, sha))
      modifies this
      ensures Valid() && world.phase.Idle? && old(history) <= past && Explained(o, i.id, past)
      ensures o.Committed? || o in {PortFailed, RefTaken}
      ensures Caused(o, old(Faults()), old(Misled())) && (o.Committed? ==> Kept(Run(start, past).durable, i))
    {
      hide Run, Exact, Sound, Verified, ValidIntent, FaultsOf, MisledOf;
      var a, seen, crashed;
      a, seen, crashed, past := Port();
      if crashed {
        return PortFailed, past;
      }
      RefIsOwn(seen);
      if !a.ok || i.ref in seen.durable.refs {
        o := GiveUp(i.id, if a.ok then RefTaken else PortFailed, past);
        return;
      }
      a, seen, crashed, past := Port();
      if crashed {
        return PortFailed, past;
      }
      if a.ok {
        KnowsItsCommit(seen, a);
      }
      if !Verified(seen.durable, i, sha, a) {
        o := GiveUp(i.id, PortFailed, past);
        return;
      }
      o := Record(i, sha);
      past := history;
    }

    /** `Create`: an existing intent is reconciled, a new one prepared and committed. `Mismatch`
        means the id is on file for another root or other content. */
    method Create(r: Request) returns (o: Outcome, ghost past: seq<Action>)
      requires Valid() && world.phase.Idle?
      modifies this
      ensures Valid() && world.phase.Idle? && old(history) <= past && Explained(o, r.id, past)
      ensures o != Invalid && Caused(o, old(Faults()), old(Misled()))
      ensures o == Mismatch ==> Differs(Run(start, past).durable.intents[r.id], r)
      ensures o.Committed? ==> !Differs(world.durable.intents[r.id], r)
    {
      hide Run, Exact, Sound, ValidIntent, PreparedIntent, FaultsOf, MisledOf;
      Happen(CallCreate(r));
      var a, seen, crashed;
      a, seen, crashed, past := Port();
      if crashed || !a.ok {
        return PortFailed, past;
      }
      if r.id in seen.durable.intents {
        var i := seen.durable.intents[r.id];
        if Differs(i, r) {
          return Mismatch, past;
        }
        ghost var looked := past;
        o, past := RecoverBody(r.id);
        StaysOnFile(looked, history, r.id);
        return;
      }
      a, seen, crashed, past := Port();
      if crashed || !a.ok {
        return PortFailed, past;
      }
      var i := PreparedIntent(seen.user, r, a);
      if !ValidIntent(i) {
        return BadObject, past;
      }
      PreparedFor(seen.user, r, a);
      o, past := CommitBody(i, seen.user.index);
      if o.Committed? {
        StaysOnFile(past, history, r.id);
      }
    }
  }

  /** The intent is for another root, message, snapshot or evidence. */
  predicate Differs(i: Intent, r: Request) {
    || i.root != r.root || i.message != r.message || i.snapshot != r.snapshot
    || i.policy != r.policy || i.verifier != r.verifier || i.guard != r.guard
  }

  predicate ByUser(x: Action) {
    x.UserHead? || x.UserIndex? || x.UserRef? || x.UserDropRef? || x.UserObject?
  }

  lemma PreparedFor(u: UserView, r: Request, a: Answer)
    ensures PreparedIntent(u, r, a).id == r.id && !Differs(PreparedIntent(u, r, a), r)
  {
  }

  lemma KeptUnder(s: Sys, id: string)
    requires Sound(s) && id in s.durable.intents
    ensures s.durable.intents[id].id == id && ValidIntent(s.durable.intents[id])
  {
    SoundIntents(s);
  }

  lemma RecordedIsExact(s: Sys, i: Intent, sha: string)
    requires Sound(s) && s.phase == Recording(i, sha)
    ensures Kept(s.durable, i) && Points(s.durable, i, sha) && Exact(s.durable, sha, i)
  {
    hide Exact, ValidSha;
    SoundParts(s);
    OwnRef(i);
    RefIsExact(s.durable, i.id);
  }

  /** An AutoGit ref that is there holds a name, and it is its intent's. */
  lemma RefIsOwn(s: Sys)
    requires Sound(s) && (s.phase.Finding? || s.phase.Inspecting? || s.phase.Pointing?)
    ensures var i := s.phase.intent;
            i.id in s.durable.intents && i.ref == RefFor(i.id) && (i.ref in s.durable.refs ==> s.durable.refs[i.ref] != "")
  {
    hide Exact, ValidSha, Distinct;
    var i := s.phase.intent;
    SoundParts(s);
    OwnRef(i);
    if i.ref in s.durable.refs {
      RefIsExact(s.durable, i.id);
    }
  }

  /** What stands on the intent's ref always passes the check of its content. */
  lemma KnowsItsCommit(s: Sys, a: Answer)
    requires Sound(s) && (s.phase.Proving? || s.phase.Verifying?) && a.ok
    ensures Verified(s.durable, s.phase.intent, s.phase.sha, a)
  {
    hide Exact, ValidSha, Distinct, Verified;
    var i := s.phase.intent;
    SoundParts(s);
    OwnRef(i);
    RefIsExact(s.durable, i.id);
    ExactIsVerified(s.durable, i, s.phase.sha, a);
  }
}
