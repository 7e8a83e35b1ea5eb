/** One caller's code for pushing, run among any other callers: every run is a run of the step
    machine; a push that reports success has its ref on the remote, and one that does not says
    why. */
module PushCaller {
  import opened Names
  import opened PushCoordinator

  /** What a call returns: no error, or which one. */
  datatype Outcome =
    | Done
    | PortFailed
    | Invalid
    | NotRetryable
    | IdentityConflict
    | IsBlocked
    | LeaseHeld
    | RemoteConflict
    | StillMissing

  predicate Fails(x: Action, me: nat) {
    x == Crash(me) || (x.Step? && x.caller == me && !x.answer.ok)
  }

  /** How often a port failed this caller, or it crashed. */
  ghost function FaultsOf(h: seq<Action>, me: nat): nat {
    if h == [] then 0 else FaultsOf(h[..|h| - 1], me) + if Fails(h[|h| - 1], me) then 1 else 0
  }

  /** What an action of this caller learns from a confirmation after its push. */
  function Learns(s: Sys, x: Action, me: nat): seq<Confirmation> {
    if x.Step? && x.caller == me && x.answer.ok && PhaseOf(s, me).Reconfirming?
    then [Confirmed(s, PhaseOf(s, me).request, x.answer)] else []
  }

  /** All that this caller's confirmations after a push have said, in order. */
  ghost function LearntOf(s: Sys, h: seq<Action>, me: nat): seq<Confirmation> {
    if h == [] then [] else LearntOf(s, h[..|h| - 1], me) + Learns(Run(s, h[..|h| - 1]), h[|h| - 1], me)
  }

  /** The id is taken by another push, or by a local-only one, which the store does not write
      again. */
  predicate Foreign(s: Sys, r: Request) {
    r.id in s.jobs && (s.jobs[r.id].request != r || s.jobs[r.id].request.localOnly)
  }

  /** The push is on file, and on the remote at its SHA. */
  predicate Arrived(s: Sys, r: Request) {
    OnRemote(s, r) && r.id in s.jobs && s.jobs[r.id].request == r
  }

  /** What a call without an error leaves. A local-only push gets there only when another
      caller has meanwhile put the same push as one to be sent. */
  predicate Achieved(s: Sys, r: Request) {
    if r.localOnly then r.id in s.jobs && s.jobs[r.id].request == r.(localOnly := false) else Arrived(s, r)
  }

  predicate Differs(s: Sys, r: Request) {
    r.destination in s.remote && s.remote[r.destination] != r.sha
  }

  predicate HasStatus(s: Sys, id: string, status: Status) {
    id in s.jobs && s.jobs[id].status == status
  }

  /** What the outcome says of the world `now`, or, where others may have changed it since, of
      the world `before` at an earlier point of the call. */
  predicate Explains(o: Outcome, r: Request, before: Sys, now: Sys, learnt: seq<Confirmation>) {
    match o
    case Done => Achieved(now, r)
    case PortFailed => true
    case Invalid => !Acceptable(r) || !Storable(r)
    case NotRetryable => !Retryable(before, r.id)
    case IdentityConflict => Foreign(now, r)
    case IsBlocked => HasStatus(before, r.id, Blocked)
    case LeaseHeld => Engaged(before, r.destination) || LeftBehind(before, r.destination)
    case RemoteConflict => Differs(now, r)
    case StillMissing => |learnt| >= 3 && learnt[|learnt| - 3..] == [Missing, Missing, Missing]
  }

  /** What only grows: what is on the remote, and what the jobs on file are for. */
  predicate Grows(s: Sys, t: Sys) {
    KeepsRequests(s, t) && forall d :: d in s.remote ==> d in t.remote && t.remote[d] == s.remote[d]
  }

  lemma ExplainsStays(o: Outcome, r: Request, before: Sys, s: Sys, t: Sys, learnt: seq<Confirmation>)
    requires Explains(o, r, before, s, learnt) && Grows(s, t)
    ensures Explains(o, r, before, t, learnt)
  {
    hide KeyOf, Acceptable, Storable, Engaged, LeftBehind;
  }

  /** How a call ends that a confirmation decides. */
  function Reason(c: Confirmation): Outcome {
    match c
    case Present => Done
    case Missing => StillMissing
    case Conflict => RemoteConflict
  }

  lemma AcquireStep(s: Sys, c: nat, r: Request, a: Answer)
    requires PhaseOf(s, c) == Acquiring(r)
    ensures PhaseOf(Advance(s, c, a), c) == if a.ok && KeyOf(r.destination) !in s.leases then Confirming(r) else Idle
  {
    hide KeyOf;
  }

  lemma ReleaseStep(s: Sys, c: nat, a: Answer)
    requires PhaseOf(s, c).Releasing?
    ensures PhaseOf(Advance(s, c, a), c) == Idle
  {
    hide KeyOf;
  }

  lemma ConfirmStep(s: Sys, c: nat, r: Request, a: Answer)
    requires PhaseOf(s, c) == Confirming(r)
    ensures PhaseOf(Advance(s, c, a), c) ==
            if !a.ok then Failing(r, a.conflict || !a.retryable)
            else match Observed(s, r)
              case Present => Succeeding(r)
              case Missing => Pushing(r)
              case Conflict => Failing(r, true)
    ensures Observed(s, r) == Conflict ==> Differs(s, r)
  {
    hide KeyOf;
  }

  lemma PushStep(s: Sys, c: nat, r: Request, a: Answer)
    requires PhaseOf(s, c) == Pushing(r)
    ensures PhaseOf(Advance(s, c, a), c) == if a.ok then Reconfirming(r, 2) else Failing(r, !a.retryable)
  {
    hide KeyOf;
  }

  lemma ReconfirmStep(s: Sys, c: nat, r: Request, left: nat, a: Answer)
    requires PhaseOf(s, c) == Reconfirming(r, left)
    ensures PhaseOf(Advance(s, c, a), c) ==
            if !a.ok then Failing(r, a.conflict || !a.retryable)
            else match Confirmed(s, r, a)
              case Present => Succeeding(r)
              case Missing => if left > 0 then Reconfirming(r, left - 1) else Failing(r, true)
              case Conflict => Failing(r, true)
    ensures Confirmed(s, r, a) == Conflict ==> Differs(s, r)
  {
    hide KeyOf;
  }

  class Caller {
    const me: nat
    ghost const start: Sys
    /** Store, leases, remote and the other callers, as they are now. */
    var world: Sys
    ghost var history: seq<Action>

    ghost predicate Valid()
      reads this
    {
      Initial(start) && world == Run(start, history)
    }

    ghost predicate At(p: Phase)
      reads this
    {
      PhaseOf(world, me) == p
    }

    ghost function Faults(): nat
      reads this
    {
      FaultsOf(history, me)
    }

    ghost function Learnt(): seq<Confirmation>
      reads this
    {
      LearntOf(start, history, me)
    }

    /** The world at an earlier point of this call. */
    ghost predicate Between(from: seq<Action>, past: seq<Action>)
      reads this
    {
      from <= past <= history
    }

    constructor (me: nat, start: Sys)
      requires Initial(start)
      ensures Valid() && At(Idle) && this.me == me
    {
      this.me := me;
      this.start := start;
      world, history := start, [];
    }

    method Happen(x: Action)
      requires Valid()
      modifies this
      ensures Valid() && world == Do(old(world), x) && history == old(history) + [x]
      ensures Faults() == old(Faults()) + if Fails(x, me) then 1 else 0
      ensures Learnt() == old(Learnt()) + Learns(old(world), x, me)
    {
      assert (history + [x])[..|history|] == history;
      history := history + [x];
      world := Do(world, x);
    }

    /** Other callers move, crash and lose leases, any number of times. */
    method Others()
      requires Valid()
      modifies this
      ensures Valid() && PhaseOf(world, me) == old(PhaseOf(world, me)) && old(history) <= history
      ensures Faults() == old(Faults()) && Learnt() == old(Learnt())
    {
      var xs: seq<Action> := *;
      for i := 0 to |xs|
        invariant Valid() && PhaseOf(world, me) == old(PhaseOf(world, me)) && old(history) <= history
        invariant Faults() == old(Faults()) && Learnt() == old(Learnt())
      {
        var x := xs[i];
        if !By(x, me) {
          OthersStay(world, x, me);
          Happen(x);
        }
      }
    }

    /** One port call: the world as the port saw it, and its answer; or a crash instead. */
    method Port() returns (a: Answer, seen: Sys, crashed: bool, ghost past: seq<Action>)
      requires Valid()
      modifies this
      ensures Valid() && Between(old(history), past) && PhaseOf(seen, me) == old(PhaseOf(world, me))
      ensures Sound(seen) && seen == Run(start, past)
      ensures if crashed then At(Idle) else world == Advance(seen, me, a)
      ensures Faults() == old(Faults()) + if crashed || !a.ok then 1 else 0
      ensures Learnt() == old(Learnt()) + if crashed then [] else Learns(seen, Step(me, a), me)
    {
      a, crashed := *, *;
      Others();
      seen, past := world, history;
      RunSound(start, history);
      if crashed {
        Happen(Crash(me));
      } else {
        Happen(Step(me, a));
      }
    }

    /** What is on the remote and what is on file stays. */
    lemma StillThere(past: seq<Action>)
      requires Valid() && past <= history
      ensures Grows(Run(start, past), world)
    {
      hide Run;
      assert history[..|past|] == past;
      RequestsNeverChange(start, history, |past|);
      forall d | d in Run(start, past).remote ensures d in world.remote && world.remote[d] == Run(start, past).remote[d] {
        RemoteNeverMovesLater(start, history, |past|, d);
      }
    }

    /** The outcome, with `past` the earlier point it may speak of. */
    ghost predicate Explained(o: Outcome, r: Request, past: seq<Action>)
      reads this
    {
      Explains(o, r, Run(start, past), world, Learnt())
    }

    /** `Push`. Without an error the ref is on the remote at the request's SHA and the push is
        on file. With one, a port failed or the world gave the reason. */
    method Push(r: Request) returns (o: Outcome, ghost past: seq<Action>)
      requires Valid() && At(Idle)
      modifies this
      ensures Valid() && At(Idle) && Between(old(history), past)
      ensures o != NotRetryable && Explained(o, r, past)
      ensures o == PortFailed ==> Faults() > old(Faults())
    {
      hide Run, KeyOf, Sound, Storable, Engaged, LeftBehind, Acceptable;
      if !Acceptable(r) {
        return Invalid, history;
      }
      Happen(CallPush(me, r));
      o, past := PushBody(r);
    }

    method PushBody(r: Request) returns (o: Outcome, ghost past: seq<Action>)
      requires Valid() && At(Reading(r))
      modifies this
      ensures Valid() && At(Idle) && Between(old(history), past)
      ensures o != NotRetryable && Explained(o, r, past)
      ensures o == PortFailed ==> Faults() > old(Faults())
    {
      hide Run, KeyOf, Sound, Storable, Engaged, LeftBehind, Acceptable;
      var a, seen, crashed;
      a, seen, crashed, past := Port();
      if crashed || !a.ok {
        return PortFailed, past;
      }
      if r.id in seen.jobs {
        StandsSound(seen, me);
        if seen.jobs[r.id].request != r {
          return IdentityConflict, past;
        }
        if seen.jobs[r.id].status == Succeeded {
          assert JobSound(seen, r.id);
          return Done, past;
        }
        if seen.jobs[r.id].status == Blocked {
          return IsBlocked, past;
        }
      }
      o, past := Intend(r);
    }

    /** The durable intent, then the local-only mark or the remote. */
    method Intend(r: Request) returns (o: Outcome, ghost past: seq<Action>)
      requires Valid() && At(Putting(r))
      modifies this
      ensures Valid() && At(Idle) && Between(old(history), past)
      ensures o !in {NotRetryable, IsBlocked} && Explained(o, r, past)
      ensures o == PortFailed ==> Faults() > old(Faults())
    {
      hide Run, KeyOf, Sound, Storable, Engaged, LeftBehind, Acceptable;
      var a, seen, crashed;
      a, seen, crashed, past := Port();
      if crashed || !a.ok {
        return PortFailed, past;
      }
      if !Storable(r) {
        return Invalid, past;
      }
      if Refuses(seen, r) {
        return IdentityConflict, past;
      }
      if r.localOnly {
        o, past := Skip(r);
        return;
      }
      o, past := Deliver(r);
    }

    /** `MarkPushSkipped`. With the store answering, the call ends without an error exactly when
        another caller had put the push as one to be sent. */
    method Skip(r: Request) returns (o: Outcome, ghost past: seq<Action>)
      requires Valid() && At(Skipping(r)) && r.localOnly
      requires r.id in world.jobs && SamePush(world.jobs[r.id].request, r)
      modifies this
      ensures Valid() && At(Idle) && Between(old(history), past)
      ensures o in {Done, PortFailed, IdentityConflict} && Explained(o, r, past)
      ensures o == PortFailed ==> Faults() > old(Faults())
      ensures r.id in world.jobs && (o != PortFailed ==> (o == Done <==> !world.jobs[r.id].request.localOnly))
    {
      hide Run, KeyOf, Sound, Storable, Engaged, LeftBehind;
      ghost var before := history;
      var a, seen, crashed;
      a, seen, crashed, past := Port();
      StillThere(before);
      if crashed || !a.ok {
        return PortFailed, past;
      }
      StaysOnFile(before, past, r);
      return if Markable(seen, r.id) then Done else IdentityConflict, past;
    }

    lemma StaysOnFile(before: seq<Action>, past: seq<Action>, r: Request)
      requires Initial(start) && before <= past && r.id in Run(start, before).jobs
      ensures r.id in Run(start, past).jobs && Run(start, past).jobs[r.id].request == Run(start, before).jobs[r.id].request
    {
      hide Run;
      assert past[..|before|] == before;
      RequestsNeverChange(start, past, |before|);
    }

    /** From the recorded intent to the released lease. */
    method Deliver(r: Request) returns (o: Outcome, ghost past: seq<Action>)
      requires Valid() && At(Acquiring(r))
      modifies this
      ensures Valid() && At(Idle) && Between(old(history), past)
      ensures o in {Done, PortFailed, LeaseHeld, RemoteConflict, StillMissing} && Explained(o, r, past)
      ensures o == PortFailed ==> Faults() > old(Faults())
    {
      hide Run, KeyOf, Sound, Storable, Engaged, LeftBehind, Advance, FaultsOf, LearntOf;
      var a, seen, crashed;
      a, seen, crashed, past := Port();
      AcquireStep(seen, me, r, a);
      if crashed || !a.ok {
        return PortFailed, past;
      }
      if KeyOf(r.destination) in seen.leases {
        LeaseIsTheDestination(seen, r.destination);
        return LeaseHeld, past;
      }
      o, crashed := UnderLease(r);
      past := history;
      if !crashed {
        o := Release(r, o);
        past := history;
      }
    }

    /** The deferred release: its failure only shows when nothing else failed. */
    method Release(r: Request, outcome: Outcome) returns (o: Outcome)
      requires Valid() && At(Releasing(r))
      requires outcome in {Done, PortFailed, RemoteConflict, StillMissing} && Explained(outcome, r, history)
      modifies this
      ensures Valid() && At(Idle) && old(history) <= history && Explained(o, r, history)
      ensures o == outcome || (o == PortFailed && Faults() > old(Faults()))
      ensures Faults() >= old(Faults())
    {
      hide Run, KeyOf, Sound, Storable, Engaged, LeftBehind, Advance, FaultsOf, LearntOf, Grows;
      ghost var before := history;
      ghost var learnt := Learnt();
      var a, seen, crashed;
      ghost var past;
      a, seen, crashed, past := Port();
      ReleaseStep(seen, me, a);
      StillThere(before);
      ExplainsStays(outcome, r, Run(start, before), Run(start, before), world, learnt);
      o := if outcome == Done && (crashed || !a.ok) then PortFailed else outcome;
    }

    /** Confirm, push if the ref is missing, confirm again, record. */
    method UnderLease(r: Request) returns (o: Outcome, crashed: bool)
      requires Valid() && At(Confirming(r))
      modifies this
      ensures Valid() && old(history) <= history && At(if crashed then Idle else Releasing(r))
      ensures o in {Done, PortFailed, RemoteConflict, StillMissing} && Explained(o, r, history)
      ensures Faults() >= old(Faults()) && (o == PortFailed ==> Faults() > old(Faults()))
    {
      hide Run, KeyOf, Sound, Storable, Engaged, LeftBehind, Advance, Observed, FaultsOf, LearntOf;
      var a, seen;
      ghost var past;
      a, seen, crashed, past := Port();
      if crashed {
        return PortFailed, true;
      }
      ConfirmStep(seen, me, r, a);
      if !a.ok {
        crashed := Fail(r, a.conflict || !a.retryable);
        return PortFailed, crashed;
      }
      match Observed(seen, r) {
        case Present =>
          o, crashed := Succeed(r);
        case Missing =>
          o, crashed := PushMissing(r);
        case Conflict =>
          StillThere(past);
          o, crashed := Block(r, RemoteConflict);
      }
    }

    /** The push of a missing ref, and what the confirmations after it say. */
    method PushMissing(r: Request) returns (o: Outcome, crashed: bool)
      requires Valid() && At(Pushing(r))
      modifies this
      ensures Valid() && old(history) <= history && At(if crashed then Idle else Releasing(r))
      ensures o in {Done, PortFailed, RemoteConflict, StillMissing} && Explained(o, r, history)
      ensures Faults() >= old(Faults()) && (o == PortFailed ==> Faults() > old(Faults()))
    {
      hide Run, KeyOf, Sound, Storable, Engaged, LeftBehind, Advance, Confirmed, FaultsOf, LearntOf;
      var a, seen;
      ghost var past;
      a, seen, crashed, past := Port();
      if crashed {
        return PortFailed, true;
      }
      PushStep(seen, me, r, a);
      if !a.ok {
        crashed := Fail(r, !a.retryable);
        return PortFailed, crashed;
      }
      var c;
      c, a, crashed := ConfirmAfterMutation(r);
      if crashed {
        return PortFailed, true;
      }
      if !a.ok {
        crashed := Fail(r, a.conflict || !a.retryable);
        return PortFailed, crashed;
      }
      o, crashed := Conclude(r, c);
    }

    /** The record that the last confirmation asks for. */
    method Conclude(r: Request, c: Confirmation) returns (o: Outcome, crashed: bool)
      requires Valid() && At(if c == Present then Succeeding(r) else Failing(r, true))
      requires c != Present ==> Explained(Reason(c), r, history)
      modifies this
      ensures Valid() && old(history) <= history && At(if crashed then Idle else Releasing(r))
      ensures o in {Reason(c), PortFailed} && Explained(o, r, history)
      ensures Faults() == old(Faults()) ==> HasStatus(world, r.id, if c == Present then Succeeded else Blocked)
      ensures Faults() >= old(Faults()) && (o == PortFailed ==> Faults() > old(Faults()))
    {
      hide Run, KeyOf, Sound, Storable, Engaged, LeftBehind, Advance, FaultsOf, LearntOf, Explains, HasStatus;
      if c == Present {
        o, crashed := Succeed(r);
      } else {
        o, crashed := Block(r, Reason(c));
      }
    }

    /** `confirmPushAfterMutation`: up to three confirmations, the next one only while the ref
        is missing, and what the last one said. */
    method ConfirmAfterMutation(r: Request) returns (c: Confirmation, a: Answer, crashed: bool)
      requires Valid() && At(Reconfirming(r, 2))
      modifies this
      ensures Valid() && old(history) <= history
      ensures old(Learnt()) <= Learnt() && |Learnt()| <= |old(Learnt())| + 3
      ensures forall k :: |old(Learnt())| <= k < |Learnt()| - 1 ==> Learnt()[k] == Missing
      ensures if crashed then At(Idle) && Faults() > old(Faults())
              else if !a.ok then At(Failing(r, a.conflict || !a.retryable)) && Faults() > old(Faults())
              else At(if c == Present then Succeeding(r) else Failing(r, true)) && Faults() == old(Faults())
      ensures !crashed && a.ok ==> |Learnt()| > |old(Learnt())| && Learnt()[|Learnt()| - 1] == c
      ensures !crashed && a.ok && c == Missing ==> |Learnt()| == |old(Learnt())| + 3 && Explained(StillMissing, r, history)
      ensures !crashed && a.ok && c == Conflict ==> Explained(RemoteConflict, r, history)
    {
      hide Run, KeyOf, Sound, Storable, Engaged, LeftBehind, Advance, Confirmed, FaultsOf, LearntOf;
      c := Missing;
      var left := 2;
      while true
        invariant 0 <= left <= 2 && Valid() && At(Reconfirming(r, left)) && old(history) <= history
        invariant old(Learnt()) <= Learnt() && |Learnt()| == |old(Learnt())| + 2 - left && Faults() == old(Faults())
        invariant forall k :: |old(Learnt())| <= k < |Learnt()| ==> Learnt()[k] == Missing
        decreases left
      {
        var seen;
        ghost var past;
        a, seen, crashed, past := Port();
        if crashed {
          return;
        }
        ReconfirmStep(seen, me, r, left, a);
        if !a.ok {
          return;
        }
        c := Confirmed(seen, r, a);
        if c == Conflict {
          StillThere(past);
        }
        if c != Missing || left == 0 {
          return;
        }
        left := left - 1;
      }
    }

    /** `recordPushBlocked` for a reason the remote gave. */
    method Block(r: Request, reason: Outcome) returns (o: Outcome, crashed: bool)
      requires Valid() && At(Failing(r, true))
      requires reason in {RemoteConflict, StillMissing} && Explained(reason, r, history)
      modifies this
      ensures Valid() && old(history) <= history && At(if crashed then Idle else Releasing(r))
      ensures o == (if crashed then PortFailed else reason) && Explained(o, r, history)
      ensures Faults() == old(Faults()) ==> HasStatus(world, r.id, Blocked)
      ensures Faults() >= old(Faults()) && (o == PortFailed ==> Faults() > old(Faults()))
    {
      hide Run, KeyOf, Sound, Storable, Engaged, LeftBehind, Advance, FaultsOf, LearntOf, Grows;
      ghost var before := history;
      ghost var learnt := Learnt();
      crashed := Fail(r, true);
      StillThere(before);
      ExplainsStays(reason, r, Run(start, before), Run(start, before), world, learnt);
      o := if crashed then PortFailed else reason;
    }

    /** `MarkPushSucceeded`. */
    method Succeed(r: Request) returns (o: Outcome, crashed: bool)
      requires Valid() && At(Succeeding(r))
      modifies this
      ensures Valid() && old(history) <= history && At(if crashed then Idle else Releasing(r))
      ensures Learnt() == old(Learnt())
      ensures if o == Done
              then !crashed && Faults() == old(Faults()) && Explained(o, r, history) && HasStatus(world, r.id, Succeeded)
              else o == PortFailed && Faults() > old(Faults()) && Explained(o, r, history)
    {
      hide Run, KeyOf, Sound, Storable, Engaged, LeftBehind;
      var a, seen;
      ghost var past;
      a, seen, crashed, past := Port();
      StandsSound(seen, me);
      o := if crashed || !a.ok then PortFailed else Done;
    }

    /** `recordPushFailure` and `recordPushBlocked`. */
    method Fail(r: Request, blocked: bool) returns (crashed: bool)
      requires Valid() && At(Failing(r, blocked))
      modifies this
      ensures Valid() && old(history) <= history && At(if crashed then Idle else Releasing(r))
      ensures Learnt() == old(Learnt()) && Faults() >= old(Faults()) && (crashed ==> Faults() > old(Faults()))
      ensures Faults() == old(Faults()) ==> HasStatus(world, r.id, if blocked then Blocked else RetryWait)
    {
      hide Run, KeyOf, Sound, Storable, Engaged, LeftBehind;
      var a, seen;
      ghost var past;
      a, seen, crashed, past := Port();
      StandsSound(seen, me);
    }

    /** `RetryPush`: only a job waiting for a retry, at the point `looked`, and with the request
        it has on file. */
    method RetryPush(id: string) returns (o: Outcome, r: Option<Request>, ghost looked: seq<Action>, ghost past: seq<Action>)
      requires Valid() && At(Idle)
      modifies this
      ensures Valid() && At(Idle) && Between(old(history), looked) && Between(old(history), past)
      ensures o == PortFailed ==> Faults() > old(Faults())
      ensures r.None? ==> o == PortFailed || (o == NotRetryable && !Retryable(Run(start, looked), id))
      ensures r.Some? ==>
                HasStatus(Run(start, looked), id, RetryWait) && r.value == Run(start, looked).jobs[id].request &&
                r.value.id == id && o != NotRetryable && Explained(o, r.value, past)
    {
      hide Run, KeyOf, Sound, Storable, Engaged, LeftBehind, Acceptable;
      Happen(CallRetry(me, id));
      var a, seen, crashed;
      a, seen, crashed, looked := Port();
      past := looked;
      if crashed || !a.ok {
        return PortFailed, None, looked, past;
      }
      if !Retryable(seen, id) {
        return NotRetryable, None, looked, past;
      }
      StandsSound(seen, me);
      assert JobSound(seen, id);
      r := Some(seen.jobs[id].request);
      o, past := PushBody(r.value);
    }
  }
}
