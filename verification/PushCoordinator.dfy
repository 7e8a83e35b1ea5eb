/** Any number of callers pushing through the coordinator: durable intent, destination lease,
    confirmation, push, confirmation again; interleaved step by step, crashing anywhere. */
module PushCoordinator {
  import opened Names

  datatype Destination = Destination(owner: string, name: string, ref: string)

  datatype Request = Request(id: string, destination: Destination, sha: string, remoteDigest: string, localOnly: bool)

  datatype Status = Requested | RetryWait | Blocked | SkippedLocal | Succeeded

  datatype Job = Job(status: Status, request: Request)

  /** Where one caller is. From `Confirming` on it holds the destination's lease. */
  datatype Phase =
    | Idle
    | RetryReading(id: string)
    | Reading(request: Request)
    | Putting(request: Request)
    | Skipping(request: Request)
    | Acquiring(request: Request)
    | Confirming(request: Request)
    | Pushing(request: Request)
    | Reconfirming(request: Request, left: nat)
    | Succeeding(request: Request)
    | Failing(request: Request, blocked: bool)
    | Releasing(request: Request)

  /** The store, the leases by key, the callers, the remote refs, and for the record every
      destination that was written, in order. */
  datatype Sys = Sys(
    jobs: map<string, Job>, leases: map<string, nat>, callers: map<nat, Phase>,
    remote: map<Destination, string>, written: seq<Destination>)

  datatype Confirmation = Present | Missing | Conflict

  /** How a port answered: success, or failure with its effect done or not. A confirmation that
      fails may still claim a conflict; `retryable` classifies the failure. Right after a push a
      confirmation may be `stale` and still miss the ref. */
  datatype Answer = Answer(ok: bool, effect: bool, conflict: bool, retryable: bool, stale: bool)

  datatype Action =
    | CallPush(caller: nat, request: Request)
    | CallRetry(caller: nat, id: string)
    | Step(caller: nat, answer: Answer)
    | Crash(caller: nat)
    | Expire(key: string)

  function PhaseOf(s: Sys, c: nat): Phase {
    if c in s.callers then s.callers[c] else Idle
  }

  function Goto(s: Sys, c: nat, p: Phase): Sys {
    s.(callers := s.callers[c := p])
  }

  /** What the coordinator checks of a request before anything else. */
  predicate Acceptable(r: Request) {
    r.id != "" && ValidSha(r.sha) && (r.remoteDigest == "" || ValidDigest(r.remoteDigest))
  }

  predicate Alphanumeric(c: char) {
    'A' <= c <= 'Z' || 'a' <= c <= 'z' || '0' <= c <= '9'
  }

  /** Letters, digits and the given marks, a letter or digit first. */
  predicate Plain(s: string, marks: string) {
    s != "" && Alphanumeric(s[0]) && forall i :: 0 <= i < |s| ==> Alphanumeric(s[i]) || s[i] in marks
  }

  /** The form of ids, owners and names: nothing with a slash in it. */
  predicate NameForm(s: string) {
    Plain(s, "._-") && |s| <= 128
  }

  /** The suffix ".lock", in any case. */
  predicate EndsInLock(s: string) {
    var n := |s|;
    n >= 5 && s[n - 5] == '.' && s[n - 4] in "lL" && s[n - 3] in "oO" && s[n - 2] in "cC" && s[n - 1] in "kK"
  }

  predicate RefForm(s: string) {
    Plain(s, "._/-") && !EndsInLock(s) && forall i :: 0 < i < |s| ==> !(s[i - 1] == '.' && s[i] == '.')
  }

  /** What the store checks of a job before it puts it. */
  predicate Storable(r: Request) {
    NameForm(r.id) && NameForm(r.destination.owner) && NameForm(r.destination.name) && RefForm(r.destination.ref) && ValidSha(r.sha)
  }

  /** The lease key: owner, name and ref joined by slashes. */
  function KeyOf(d: Destination): string {
    d.owner + "/" + d.name + "/" + d.ref
  }

  predicate Leased(p: Phase) {
    p.Confirming? || p.Pushing? || p.Reconfirming? || p.Succeeding? || p.Failing? || p.Releasing?
  }

  /** What the remote says about the ref. */
  function Observed(s: Sys, r: Request): Confirmation {
    if r.destination !in s.remote then Missing
    else if s.remote[r.destination] == r.sha then Present else Conflict
  }

  /** What a confirmation after the push says. */
  function Confirmed(s: Sys, r: Request, a: Answer): Confirmation {
    if a.stale then Missing else Observed(s, r)
  }

  /** The same push, whether or not it is to stay local. */
  predicate SamePush(p: Request, q: Request) {
    p.(localOnly := q.localOnly) == q
  }

  /** The store checks the job's form, rereads the row in its own transaction and refuses a put
      under another identity. It compares the stored local-only flag with a zero value, so it
      also refuses every put on a row that is local only. */
  predicate Refuses(s: Sys, r: Request) {
    || !Storable(r)
    || (r.id in s.jobs && (!SamePush(s.jobs[r.id].request, r) || s.jobs[r.id].request.localOnly))
  }

  /** A put on an existing row changes its status only. */
  function Put(s: Sys, r: Request): Sys {
    s.(jobs := s.jobs[r.id := Job(Requested, if r.id in s.jobs then s.jobs[r.id].request else r)])
  }

  /** A mark reads the row and puts it back under its new status, so it is refused as puts are. */
  predicate Markable(s: Sys, id: string) {
    id in s.jobs && !s.jobs[id].request.localOnly
  }

  function Mark(s: Sys, id: string, status: Status, a: Answer): Sys {
    if (a.ok || a.effect) && Markable(s, id) then s.(jobs := s.jobs[id := s.jobs[id].(status := status)]) else s
  }

  function FirstLook(s: Sys, r: Request): Phase {
    if r.id !in s.jobs then Putting(r)
    else if s.jobs[r.id].request != r || s.jobs[r.id].status == Succeeded || s.jobs[r.id].status == Blocked then Idle
    else Putting(r)
  }

  predicate Retryable(s: Sys, id: string) {
    id in s.jobs && s.jobs[id].status == RetryWait && Acceptable(s.jobs[id].request)
  }

  function AfterFailure(r: Request, a: Answer): Phase {
    Failing(r, a.conflict || !a.retryable)
  }

  /** The remote ref is set, whatever was there. */
  function SetRemote(s: Sys, r: Request): Sys {
    s.(remote := s.remote[r.destination := r.sha], written := s.written + [r.destination])
  }

  function Advance(s: Sys, c: nat, a: Answer): Sys {
    match PhaseOf(s, c)
    case Idle => s
    case RetryReading(id) =>
      Goto(s, c, if a.ok && Retryable(s, id) then Reading(s.jobs[id].request) else Idle)
    case Reading(r) => Goto(s, c, if a.ok then FirstLook(s, r) else Idle)
    case Putting(r) =>
      if Refuses(s, r) then Goto(s, c, Idle)
      else
        Goto(if a.ok || a.effect then Put(s, r) else s, c,
             if !a.ok then Idle else if r.localOnly then Skipping(r) else Acquiring(r))
    case Skipping(r) => Goto(Mark(s, r.id, SkippedLocal, a), c, Idle)
    case Acquiring(r) =>
      if KeyOf(r.destination) in s.leases || !(a.ok || a.effect) then Goto(s, c, Idle)
      else Goto(s.(leases := s.leases[KeyOf(r.destination) := c]), c, if a.ok then Confirming(r) else Idle)
    case Confirming(r) =>
      Goto(s, c,
           if !a.ok then AfterFailure(r, a)
           else match Observed(s, r)
             case Present => Succeeding(r)
             case Missing => Pushing(r)
             case Conflict => Failing(r, true))
    case Pushing(r) => Goto(if a.ok || a.effect then SetRemote(s, r) else s, c, if a.ok then Reconfirming(r, 2) else Failing(r, !a.retryable))
    case Reconfirming(r, left) =>
      Goto(s, c,
           if !a.ok then AfterFailure(r, a)
           else match Confirmed(s, r, a)
             case Present => Succeeding(r)
             case Missing => if left > 0 then Reconfirming(r, left - 1) else Failing(r, true)
             case Conflict => Failing(r, true))
    case Succeeding(r) => Goto(Mark(s, r.id, Succeeded, a), c, Releasing(r))
    case Failing(r, blocked) => Goto(Mark(s, r.id, if blocked then Blocked else RetryWait, a), c, Releasing(r))
    case Releasing(r) =>
      var key := KeyOf(r.destination);
      Goto(if (a.ok || a.effect) && key in s.leases && s.leases[key] == c then s.(leases := s.leases - {key}) else s, c, Idle)
  }

  predicate HeldAlive(s: Sys, key: string) {
    key in s.leases && Leased(PhaseOf(s, s.leases[key])) && KeyOf(PhaseOf(s, s.leases[key]).request.destination) == key
  }

  function Do(s: Sys, x: Action): Sys {
    match x
    case CallPush(c, r) => if PhaseOf(s, c) == Idle && Acceptable(r) then Goto(s, c, Reading(r)) else s
    case CallRetry(c, id) => if PhaseOf(s, c) == Idle then Goto(s, c, RetryReading(id)) else s
    case Step(c, a) => Advance(s, c, a)
    case Crash(c) => Goto(s, c, Idle)
    case Expire(key) => if HeldAlive(s, key) then s else s.(leases := s.leases - {key})
  }

  function Run(s: Sys, xs: seq<Action>): Sys {
    if xs == [] then s else Do(Run(s, xs[..|xs| - 1]), xs[|xs| - 1])
  }

  /** No jobs, no callers; the remote may hold any refs already. */
  predicate Initial(s: Sys) {
    s.jobs == map[] && s.leases == map[] && s.callers == map[] && s.written == []
  }

  // ---------------------------------------------------------------- the invariant

  predicate Holds(s: Sys, c: nat, r: Request) {
    KeyOf(r.destination) in s.leases && s.leases[KeyOf(r.destination)] == c
  }

  predicate OnRemote(s: Sys, r: Request) {
    r.destination in s.remote && s.remote[r.destination] == r.sha
  }

  /** From the put on, the caller's push is the one on file, and a pushing one is not local. */
  predicate OnFile(s: Sys, p: Phase) {
    Leased(p) || p.Acquiring? ==> p.request.id in s.jobs && s.jobs[p.request.id].request == p.request && !p.request.localOnly
  }

  predicate PhaseSound(s: Sys, c: nat, p: Phase) {
    && OnFile(s, p)
    && (Leased(p) ==> Holds(s, c, p.request))
    && (p.Pushing? ==> p.request.destination !in s.remote)
    && (p.Succeeding? ==> OnRemote(s, p.request))
  }

  predicate JobSound(s: Sys, id: string)
    requires id in s.jobs
  {
    && s.jobs[id].request.id == id && Storable(s.jobs[id].request)
    && (s.jobs[id].status == Succeeded ==> OnRemote(s, s.jobs[id].request))
    && (s.jobs[id].request.localOnly ==> s.jobs[id].status == Requested)
  }

  ghost predicate Sound(s: Sys) {
    && (forall c :: c in s.callers ==> PhaseSound(s, c, s.callers[c]))
    && (forall id :: id in s.jobs ==> JobSound(s, id))
    && Distinct(s.written) && (forall d :: d in s.written ==> d in s.remote)
  }

  lemma StandsSound(s: Sys, c: nat)
    requires Sound(s)
    ensures PhaseSound(s, c, PhaseOf(s, c))
    ensures forall id :: id in s.jobs ==> JobSound(s, id)
  {
    hide JobSound, Distinct;
  }

  /** A step that changes only where the caller stands. */
  lemma MoveSound(s: Sys, c: nat, p: Phase)
    requires Sound(s) && PhaseSound(s, c, p)
    ensures Sound(Goto(s, c, p))
  {
    hide Distinct, Leased;
    var t := Goto(s, c, p);
    forall d | d in t.callers ensures PhaseSound(t, d, t.callers[d]) {
      assert d != c ==> PhaseSound(s, d, s.callers[d]);
    }
    forall id | id in t.jobs ensures JobSound(t, id) {
      assert JobSound(s, id);
    }
  }

  /** What a job is for never changes. */
  predicate KeepsRequests(s: Sys, t: Sys) {
    forall id :: id in s.jobs ==> id in t.jobs && t.jobs[id].request == s.jobs[id].request
  }

  /** A step that writes one job. */
  lemma MarkSound(s: Sys, t: Sys, id: string)
    requires Sound(s) && t == s.(jobs := t.jobs) && KeepsRequests(s, t)
    requires forall k :: k in t.jobs && k != id ==> k in s.jobs && t.jobs[k] == s.jobs[k]
    requires id in t.jobs ==> JobSound(t, id)
    ensures Sound(t)
  {
    hide Distinct, Leased;
    forall d | d in t.callers ensures PhaseSound(t, d, t.callers[d]) {
      assert PhaseSound(s, d, s.callers[d]);
    }
    forall k | k in t.jobs ensures JobSound(t, k) {
      if k != id {
        assert JobSound(s, k);
      }
    }
  }

  /** A free lease is taken, or a lease no caller depends on goes. */
  lemma LeaseSound(s: Sys, t: Sys, key: string)
    requires Sound(s) && t == s.(leases := t.leases)
    requires forall k :: k != key ==> (k in t.leases <==> k in s.leases) && (k in s.leases ==> t.leases[k] == s.leases[k])
    requires forall c :: c in s.callers && Leased(s.callers[c]) ==> KeyOf(s.callers[c].request.destination) != key
    ensures Sound(t)
  {
    hide Distinct, Leased, KeyOf;
    forall d | d in t.callers ensures PhaseSound(t, d, t.callers[d]) {
      assert PhaseSound(s, d, s.callers[d]);
    }
    forall k | k in t.jobs ensures JobSound(t, k) {
      assert JobSound(s, k);
    }
  }

  lemma FreeLease(s: Sys, key: string)
    requires Sound(s) && key !in s.leases
    ensures forall c :: c in s.callers && Leased(s.callers[c]) ==> KeyOf(s.callers[c].request.destination) != key
  {
    hide Distinct, OnFile, JobSound, KeyOf;
    forall c | c in s.callers && Leased(s.callers[c]) ensures KeyOf(s.callers[c].request.destination) != key {
      assert PhaseSound(s, c, s.callers[c]);
    }
  }

  lemma AloneWithLease(s: Sys, c: nat, r: Request)
    requires Sound(s) && Holds(s, c, r)
    ensures forall d :: d in s.callers && d != c && Leased(s.callers[d]) ==>
              KeyOf(s.callers[d].request.destination) != KeyOf(r.destination)
  {
    hide Distinct, OnFile, JobSound, KeyOf;
    forall d | d in s.callers && d != c && Leased(s.callers[d])
      ensures KeyOf(s.callers[d].request.destination) != KeyOf(r.destination)
    {
      assert PhaseSound(s, d, s.callers[d]);
    }
  }

  /** The push itself: the ref was missing and only the lease holder can set it. */
  lemma PushSound(s: Sys, c: nat, r: Request, p: Phase)
    requires Sound(s) && Holds(s, c, r) && r.destination !in s.remote
    requires PhaseSound(SetRemote(s, r), c, p)
    ensures Sound(Goto(SetRemote(s, r), c, p))
  {
    hide KeyOf;
    var t := Goto(SetRemote(s, r), c, p);
    AloneWithLease(s, c, r);
    forall d | d in t.callers ensures PhaseSound(t, d, t.callers[d]) {
      if d != c {
        assert PhaseSound(s, d, s.callers[d]);
      }
    }
    forall id | id in t.jobs ensures JobSound(t, id) {
      assert JobSound(s, id);
    }
    assert r.destination !in s.written;
  }

  // ---------------------------------------------------------------- every step keeps it

  lemma QuietSound(s: Sys, c: nat, a: Answer)
    requires Sound(s)
    requires var p := PhaseOf(s, c); p.Idle? || p.RetryReading? || p.Reading? || p.Confirming? || p.Reconfirming?
    ensures Sound(Advance(s, c, a))
  {
    hide Sound, KeyOf, Acceptable, Storable;
    StandsSound(s, c);
    match PhaseOf(s, c)
    case Idle =>
    case RetryReading(id) => MoveSound(s, c, if a.ok && Retryable(s, id) then Reading(s.jobs[id].request) else Idle);
    case Reading(r) => MoveSound(s, c, if a.ok then FirstLook(s, r) else Idle);
    case Confirming(r) => MoveSound(s, c, PhaseOf(Advance(s, c, a), c));
    case Reconfirming(r, left) => MoveSound(s, c, PhaseOf(Advance(s, c, a), c));
  }

  lemma PutSound(s: Sys, c: nat, a: Answer)
    requires Sound(s) && PhaseOf(s, c).Putting?
    ensures Sound(Advance(s, c, a))
  {
    hide Sound, KeyOf;
    StandsSound(s, c);
    var r := PhaseOf(s, c).request;
    if Refuses(s, r) {
      MoveSound(s, c, Idle);
    } else {
      var t := if a.ok || a.effect then Put(s, r) else s;
      MarkSound(s, t, r.id);
      MoveSound(t, c, if !a.ok then Idle else if r.localOnly then Skipping(r) else Acquiring(r));
    }
  }

  lemma NoteSound(s: Sys, c: nat, a: Answer)
    requires Sound(s)
    requires var p := PhaseOf(s, c); p.Skipping? || p.Succeeding? || p.Failing?
    ensures Sound(Advance(s, c, a))
  {
    hide Sound, KeyOf, Storable;
    StandsSound(s, c);
    var p := PhaseOf(s, c);
    var r := p.request;
    var t := Mark(s, r.id, if p.Skipping? then SkippedLocal else if p.Succeeding? then Succeeded
                           else if p.blocked then Blocked else RetryWait, a);
    MarkSound(s, t, r.id);
    MoveSound(t, c, if p.Skipping? then Idle else Releasing(r));
  }

  lemma AcquireSound(s: Sys, c: nat, a: Answer)
    requires Sound(s) && PhaseOf(s, c).Acquiring?
    ensures Sound(Advance(s, c, a))
  {
    hide Sound, KeyOf;
    StandsSound(s, c);
    var r := PhaseOf(s, c).request;
    var key := KeyOf(r.destination);
    if key in s.leases || !(a.ok || a.effect) {
      MoveSound(s, c, Idle);
    } else {
      FreeLease(s, key);
      var t := s.(leases := s.leases[key := c]);
      LeaseSound(s, t, key);
      MoveSound(t, c, if a.ok then Confirming(r) else Idle);
    }
  }

  lemma ReleaseSound(s: Sys, c: nat, a: Answer)
    requires Sound(s) && PhaseOf(s, c).Releasing?
    ensures Sound(Advance(s, c, a))
  {
    hide Sound, KeyOf;
    StandsSound(s, c);
    var r := PhaseOf(s, c).request;
    var key := KeyOf(r.destination);
    AloneWithLease(s, c, r);
    MoveSound(s, c, Idle);
    var idle := Goto(s, c, Idle);
    if (a.ok || a.effect) && key in s.leases && s.leases[key] == c {
      LeaseSound(idle, idle.(leases := s.leases - {key}), key);
    }
  }

  lemma PushStepSound(s: Sys, c: nat, a: Answer)
    requires Sound(s) && PhaseOf(s, c).Pushing?
    ensures Sound(Advance(s, c, a))
  {
    hide Sound, KeyOf;
    StandsSound(s, c);
    var r := PhaseOf(s, c).request;
    var p := if a.ok then Reconfirming(r, 2) else Failing(r, !a.retryable);
    if a.ok || a.effect {
      PushSound(s, c, r, p);
    } else {
      MoveSound(s, c, p);
    }
  }

  lemma DoSound(s: Sys, x: Action)
    requires Sound(s)
    ensures Sound(Do(s, x))
  {
    hide Sound, Advance, KeyOf, Acceptable;
    match x
    case CallPush(c, r) => if PhaseOf(s, c) == Idle && Acceptable(r) { MoveSound(s, c, Reading(r)); }
    case CallRetry(c, id) => if PhaseOf(s, c) == Idle { MoveSound(s, c, RetryReading(id)); }
    case Crash(c) => MoveSound(s, c, Idle);
    case Expire(key) => if !HeldAlive(s, key) { ExpireSound(s, key); }
    case Step(c, a) =>
      match PhaseOf(s, c) {
        case Putting(_) => PutSound(s, c, a);
        case Skipping(_) => NoteSound(s, c, a);
        case Succeeding(_) => NoteSound(s, c, a);
        case Failing(_, _) => NoteSound(s, c, a);
        case Acquiring(_) => AcquireSound(s, c, a);
        case Releasing(_) => ReleaseSound(s, c, a);
        case Pushing(_) => PushStepSound(s, c, a);
        case _ => QuietSound(s, c, a);
      }
  }

  lemma ExpireSound(s: Sys, key: string)
    requires Sound(s) && !HeldAlive(s, key)
    ensures Sound(s.(leases := s.leases - {key}))
  {
    hide Sound, KeyOf;
    forall c | c in s.callers && Leased(s.callers[c]) ensures KeyOf(s.callers[c].request.destination) != key {
      StandsSound(s, c);
    }
    LeaseSound(s, s.(leases := s.leases - {key}), key);
  }

  /** Whatever the callers ask for and whatever the schedule. */
  lemma {:induction false} RunSound(s: Sys, xs: seq<Action>)
    requires Initial(s)
    ensures Sound(Run(s, xs))
  {
    hide Do;
    if xs != [] {
      RunSound(s, xs[..|xs| - 1]);
      DoSound(Run(s, xs[..|xs| - 1]), xs[|xs| - 1]);
    }
  }

  // ---------------------------------------------------------------- the remote

  /** A destination ref is set by a push at most once. */
  lemma SetAtMostOnce(s: Sys, xs: seq<Action>)
    requires Initial(s)
    ensures Distinct(Run(s, xs).written)
  {
    hide Run;
    RunSound(s, xs);
  }

  /** No ref that is on the remote, set by a push or there before, is ever changed. */
  lemma RemoteNeverMoves(s: Sys, x: Action, d: Destination)
    requires Sound(s) && d in s.remote
    ensures d in Do(s, x).remote && Do(s, x).remote[d] == s.remote[d]
  {
    hide Sound, KeyOf, FirstLook, JobSound, Acceptable;
    if x.Step? {
      StandsSound(s, x.caller);
    }
  }

  lemma {:induction false} RemoteNeverMovesLater(s: Sys, xs: seq<Action>, n: nat, d: Destination)
    requires Initial(s) && n <= |xs| && d in Run(s, xs[..n]).remote
    ensures d in Run(s, xs).remote && Run(s, xs).remote[d] == Run(s, xs[..n]).remote[d]
    decreases |xs|
  {
    hide Do, Sound;
    if n == |xs| {
      assert xs[..n] == xs;
    } else {
      var m := |xs| - 1;
      assert xs[..m][..n] == xs[..n];
      RemoteNeverMovesLater(s, xs[..m], n, d);
      RunSound(s, xs[..m]);
      RemoteNeverMoves(Run(s, xs[..m]), xs[m], d);
    }
  }

  /** A push is sent only by the lease holder of its destination, to a ref that is not there. */
  lemma PushNeedsMissingAndLease(s: Sys, xs: seq<Action>, c: nat)
    requires Initial(s) && PhaseOf(Run(s, xs), c).Pushing?
    ensures var t := Run(s, xs); var r := PhaseOf(t, c).request; Holds(t, c, r) && r.destination !in t.remote
  {
    hide Run, Sound, KeyOf;
    RunSound(s, xs);
    StandsSound(Run(s, xs), c);
  }

  // ---------------------------------------------------------------- the record

  /** Every job recorded as succeeded has its ref on the remote at its SHA. */
  predicate Truthful(s: Sys) {
    forall id :: id in s.jobs && s.jobs[id].status == Succeeded ==> OnRemote(s, s.jobs[id].request)
  }

  /** Recorded success can be trusted, whatever ids the callers use for what. */
  lemma SuccessIsTrue(s: Sys, xs: seq<Action>)
    requires Initial(s)
    ensures Truthful(Run(s, xs))
  {
    hide Run, Sound;
    var t := Run(s, xs);
    RunSound(s, xs);
    StandsSound(t, 0);
    forall id | id in t.jobs && t.jobs[id].status == Succeeded ensures OnRemote(t, t.jobs[id].request) {
      assert JobSound(t, id);
    }
  }

  /** A job stored as local only stays requested: the store refuses the very mark that would
      skip it, so the coordinator never ends such a push without an error. */
  lemma {:induction false} LocalIsNeverSkipped(s: Sys, xs: seq<Action>, id: string)
    requires Initial(s) && id in Run(s, xs).jobs && Run(s, xs).jobs[id].request.localOnly
    ensures Run(s, xs).jobs[id].status == Requested
  {
    hide Run, Sound;
    RunSound(s, xs);
    StandsSound(Run(s, xs), 0);
    assert JobSound(Run(s, xs), id);
  }

  lemma QuietKeepsJobs(s: Sys, c: nat, a: Answer)
    requires !Marking(PhaseOf(s, c))
    ensures Advance(s, c, a).jobs == s.jobs
  {
    hide KeyOf, FirstLook, Acceptable, Observed, Retryable;
  }

  lemma StepKeepsRequests(s: Sys, x: Action)
    ensures KeepsRequests(s, Do(s, x))
  {
    hide KeyOf, FirstLook, Acceptable, Observed, HeldAlive, Retryable;
    if x.Step? && !Marking(PhaseOf(s, x.caller)) {
      hide Advance;
      QuietKeepsJobs(s, x.caller, x.answer);
    }
  }

  /** What a job is for is settled by the first put: no later history changes it. */
  lemma {:induction false} RequestsNeverChange(s: Sys, xs: seq<Action>, n: nat)
    requires n <= |xs|
    ensures KeepsRequests(Run(s, xs[..n]), Run(s, xs))
    decreases |xs|
  {
    hide Do;
    if n == |xs| {
      assert xs[..n] == xs;
    } else {
      var m := |xs| - 1;
      assert xs[..m][..n] == xs[..n];
      RequestsNeverChange(s, xs[..m], n);
      StepKeepsRequests(Run(s, xs[..m]), xs[m]);
    }
  }

  // ---------------------------------------------------------------- where success comes from

  /** The action is a step, a call or a crash of this caller. */
  predicate By(x: Action, me: nat) {
    match x
    case CallPush(c, _) => c == me
    case CallRetry(c, _) => c == me
    case Step(c, _) => c == me
    case Crash(c) => c == me
    case Expire(_) => false
  }

  predicate Leasing(p: Phase) {
    p.Acquiring? || p.Releasing?
  }

  predicate Marking(p: Phase) {
    p.Putting? || p.Skipping? || p.Succeeding? || p.Failing? || p.Pushing?
  }

  lemma LeaseStays(s: Sys, c: nat, a: Answer, me: nat)
    requires c != me && Leasing(PhaseOf(s, c))
    ensures PhaseOf(Advance(s, c, a), me) == PhaseOf(s, me)
  {
    hide KeyOf;
  }

  lemma MarkStays(s: Sys, c: nat, a: Answer, me: nat)
    requires c != me && Marking(PhaseOf(s, c))
    ensures PhaseOf(Advance(s, c, a), me) == PhaseOf(s, me)
  {
  }

  lemma LookStays(s: Sys, c: nat, a: Answer, me: nat)
    requires c != me && !Leasing(PhaseOf(s, c)) && !Marking(PhaseOf(s, c))
    ensures PhaseOf(Advance(s, c, a), me) == PhaseOf(s, me)
  {
    hide FirstLook, Observed, Acceptable;
  }

  lemma OthersStay(s: Sys, x: Action, me: nat)
    requires !By(x, me)
    ensures PhaseOf(Do(s, x), me) == PhaseOf(s, me)
  {
    hide Advance, HeldAlive, Acceptable;
    match x
    case Step(c, a) =>
      if Leasing(PhaseOf(s, c)) {
        LeaseStays(s, c, a, me);
      } else if Marking(PhaseOf(s, c)) {
        MarkStays(s, c, a, me);
      } else {
        LookStays(s, c, a, me);
      }
    case _ =>
  }

  /** The step is a confirmation that found the ref at the request's SHA. */
  predicate Sighting(s: Sys, x: Action, c: nat, r: Request) {
    && x.Step? && x.caller == c && x.answer.ok && OnRemote(s, r)
    && (PhaseOf(s, c) == Confirming(r) || (PhaseOf(s, c).Reconfirming? && PhaseOf(s, c).request == r))
  }

  lemma SuccessNeedsSighting(s: Sys, x: Action, c: nat)
    requires PhaseOf(Do(s, x), c).Succeeding? && PhaseOf(s, c) != PhaseOf(Do(s, x), c)
    ensures Sighting(s, x, c, PhaseOf(Do(s, x), c).request)
  {
    hide KeyOf, FirstLook, Acceptable, HeldAlive, Refuses, Put, Mark, SetRemote;
    if By(x, c) {
      assert x.Step?;
      LooksBecomePuts(s, x.answer, c);
    } else {
      OthersStay(s, x, c);
    }
  }

  lemma LooksBecomePuts(s: Sys, a: Answer, c: nat)
    ensures PhaseOf(s, c).Reading? ==> !PhaseOf(Advance(s, c, a), c).Succeeding?
  {
    hide KeyOf, Acceptable;
  }

  lemma {:induction false} SuccessWasSighted(s: Sys, xs: seq<Action>, c: nat) returns (i: nat)
    requires Initial(s) && PhaseOf(Run(s, xs), c).Succeeding?
    ensures i < |xs| && Sighting(Run(s, xs[..i]), xs[i], c, PhaseOf(Run(s, xs), c).request)
  {
    hide Do, Sighting;
    var m := |xs| - 1;
    if PhaseOf(Run(s, xs[..m]), c) == PhaseOf(Run(s, xs), c) {
      i := SuccessWasSighted(s, xs[..m], c);
      assert xs[..m][..i] == xs[..i];
    } else {
      SuccessNeedsSighting(Run(s, xs[..m]), xs[m], c);
      i := m;
    }
  }

  predicate HasSucceeded(s: Sys, id: string) {
    id in s.jobs && s.jobs[id].status == Succeeded
  }

  lemma SuccessIsMarked(s: Sys, x: Action, id: string)
    requires Sound(s) && HasSucceeded(Do(s, x), id) && !HasSucceeded(s, id)
    ensures x.Step? && PhaseOf(s, x.caller).Succeeding? && PhaseOf(s, x.caller).request.id == id
  {
    hide Sound, KeyOf, FirstLook, Acceptable, Observed, HeldAlive;
  }

  /** Over whole runs: a job becomes succeeded only at a step of a caller that holds its
      destination's lease, with the ref on the remote at its SHA, and that caller saw it there. */
  lemma SuccessIsObserved(s: Sys, xs: seq<Action>, x: Action, id: string) returns (i: nat)
    requires Initial(s) && HasSucceeded(Do(Run(s, xs), x), id) && !HasSucceeded(Run(s, xs), id)
    ensures var t := Run(s, xs);
            x.Step? && id in t.jobs && Holds(t, x.caller, t.jobs[id].request) && OnRemote(t, t.jobs[id].request) &&
            i < |xs| && Sighting(Run(s, xs[..i]), xs[i], x.caller, t.jobs[id].request)
  {
    hide Run, Do, Sound, KeyOf, Sighting, HasSucceeded;
    RunSound(s, xs);
    SuccessIsMarked(Run(s, xs), x, id);
    StandsSound(Run(s, xs), x.caller);
    i := SuccessWasSighted(s, xs, x.caller);
  }

  // ---------------------------------------------------------------- whose lease it is

  /** Some caller stands between acquiring and releasing a lease for this very destination. */
  predicate Engaged(s: Sys, d: Destination) {
    exists c :: c in s.callers && Leased(s.callers[c]) && s.callers[c].request.destination == d
  }

  /** This caller stands there. */
  predicate StandsAt(s: Sys, c: nat, d: Destination) {
    Leased(PhaseOf(s, c)) && PhaseOf(s, c).request.destination == d
  }

  /** The lease under this destination's name has outlived its holder's call there. */
  predicate LeftBehind(s: Sys, d: Destination) {
    var name := d.owner + "/" + d.name + "/" + d.ref;
    name in s.leases && !StandsAt(s, s.leases[name], d)
  }

  /** Every lease is that of a caller under way at the destination it is named after. */
  predicate NoneLeftBehind(s: Sys) {
    forall name :: name in s.leases ==>
                     var p := PhaseOf(s, s.leases[name]);
                     Leased(p) && name == p.request.destination.owner + "/" + p.request.destination.name + "/" + p.request.destination.ref
  }

  /** A lease is taken exactly while a caller is at work on that destination, or when one left
      it behind there. What goes on at other destinations does not show. */
  lemma LeaseIsTheDestination(s: Sys, d: Destination)
    requires Sound(s)
    ensures KeyOf(d) in s.leases <==> Engaged(s, d) || LeftBehind(s, d)
  {
    hide Distinct, JobSound, OnFile, OnRemote;
    if Engaged(s, d) {
      var c :| c in s.callers && Leased(s.callers[c]) && s.callers[c].request.destination == d;
      assert PhaseSound(s, c, s.callers[c]);
    }
  }

  lemma SplitOnce(a: string, x: string, b: string, y: string)
    requires '/' !in a && '/' !in b && a + "/" + x == b + "/" + y
    ensures a == b && x == y
  {
    var both := a + "/" + x;
    assert both[|a|] == '/' && both[|b|] == '/';
    assert forall i :: 0 <= i < |a| ==> both[i] == a[i];
    assert forall i :: 0 <= i < |b| ==> both[i] == b[i];
    assert both[..|a|] == a && both[|a| + 1..] == x;
    assert both[..|b|] == b && both[|b| + 1..] == y;
  }

  /** Owners and names have no slash in them, so no two destinations share a key. */
  lemma KeyNamesOneDestination(d: Destination, e: Destination)
    requires '/' !in d.owner && '/' !in d.name && '/' !in e.owner && '/' !in e.name
    ensures KeyOf(d) == KeyOf(e) <==> d == e
  {
    if KeyOf(d) == KeyOf(e) {
      assert KeyOf(d) == d.owner + "/" + (d.name + "/" + d.ref);
      assert KeyOf(e) == e.owner + "/" + (e.name + "/" + e.ref);
      SplitOnce(d.owner, d.name + "/" + d.ref, e.owner, e.name + "/" + e.ref);
      SplitOnce(d.name, d.ref, e.name, e.ref);
    }
  }

  lemma NoSlash(s: string)
    requires NameForm(s)
    ensures '/' !in s
  {
  }

  /** Where no lease has been left behind, a destination no caller is at work on is free,
      however many others are in progress. */
  lemma OthersDoNotMatter(s: Sys, d: Destination)
    requires Sound(s) && NoneLeftBehind(s) && NameForm(d.owner) && NameForm(d.name) && !Engaged(s, d)
    ensures !LeftBehind(s, d) && KeyOf(d) !in s.leases
  {
    hide Distinct, NameForm, RefForm;
    if KeyOf(d) in s.leases {
      var h := s.leases[KeyOf(d)];
      assert PhaseSound(s, h, s.callers[h]);
      var e := s.callers[h].request;
      assert JobSound(s, e.id);
      NoSlash(d.owner);
      NoSlash(d.name);
      NoSlash(e.destination.owner);
      NoSlash(e.destination.name);
      KeyNamesOneDestination(d, e.destination);
    }
  }

  // ---------------------------------------------------------------- one undisturbed push

  /** A port that answers; a confirmation that does may still miss what was just pushed. */
  function Yes(late: nat): Answer {
    Answer(true, true, false, false, late > 0)
  }

  /** A call whose ports all answer, the first `late` confirmations after its push too early:
      steps until it has returned. */
  function Drive(s: Sys, c: nat, late: nat, fuel: nat): Sys
    decreases fuel
  {
    if PhaseOf(s, c).Idle? || fuel == 0 then s
    else Drive(Advance(s, c, Yes(late)), c, if PhaseOf(s, c).Reconfirming? && late > 0 then late - 1 else late, fuel - 1)
  }

  /** More steps than any call takes. */
  const ENOUGH := 10

  function PushFine(s: Sys, c: nat, r: Request, late: nat): Sys {
    Drive(Do(s, CallPush(c, r)), c, late, ENOUGH)
  }

  predicate Settled(s: Sys, r: Request) {
    r.id in s.jobs && s.jobs[r.id] == Job(Succeeded, r)
  }

  lemma DriveOne(s: Sys, c: nat, late: nat, fuel: nat)
    requires Sound(s) && !PhaseOf(s, c).Idle? && fuel > 0
    ensures Sound(Advance(s, c, Yes(late)))
    ensures Drive(s, c, late, fuel) ==
            Drive(Advance(s, c, Yes(late)), c, if PhaseOf(s, c).Reconfirming? && late > 0 then late - 1 else late, fuel - 1)
  {
    hide Advance, Sound;
    DoSound(s, Step(c, Yes(late)));
  }

  lemma Returned(s: Sys, c: nat, late: nat, fuel: nat)
    requires PhaseOf(s, c).Idle?
    ensures Drive(s, c, late, fuel) == s
  {
  }

  /** The destination's lease has been given back, and no other. */
  predicate Freed(s: Sys, t: Sys, r: Request) {
    t.leases == s.leases - {KeyOf(r.destination)}
  }

  lemma MarkingEnds(s: Sys, c: nat, late: nat, fuel: nat)
    requires Sound(s) && (PhaseOf(s, c).Succeeding? || PhaseOf(s, c).Failing?) && fuel >= 2
    ensures PhaseOf(Drive(s, c, late, fuel), c).Idle? && Freed(s, Drive(s, c, late, fuel), PhaseOf(s, c).request)
    ensures Settled(Drive(s, c, late, fuel), PhaseOf(s, c).request) <==> PhaseOf(s, c).Succeeding?
  {
    hide Sound, KeyOf, Drive, Storable;
    StandsSound(s, c);
    DriveOne(s, c, late, fuel);
    var t := Advance(s, c, Yes(late));
    DriveOne(t, c, late, fuel - 1);
    Returned(Advance(t, c, Yes(late)), c, late, fuel - 2);
  }

  lemma {:induction false} ReconfirmingEnds(s: Sys, c: nat, left: nat, late: nat, fuel: nat)
    requires Sound(s) && PhaseOf(s, c).Reconfirming? && PhaseOf(s, c).left == left && fuel >= left + 3
    requires OnRemote(s, PhaseOf(s, c).request)
    ensures PhaseOf(Drive(s, c, late, fuel), c).Idle? && Freed(s, Drive(s, c, late, fuel), PhaseOf(s, c).request)
    ensures Settled(Drive(s, c, late, fuel), PhaseOf(s, c).request) <==> late <= left
    decreases left
  {
    hide Sound, KeyOf, Settled, Drive;
    DriveOne(s, c, late, fuel);
    var t := Advance(s, c, Yes(late));
    if late == 0 || left == 0 {
      MarkingEnds(t, c, if late > 0 then late - 1 else late, fuel - 1);
    } else {
      ReconfirmingEnds(t, c, left - 1, late - 1, fuel - 1);
    }
  }

  lemma PushingEnds(s: Sys, c: nat, late: nat, fuel: nat)
    requires Sound(s) && PhaseOf(s, c).Pushing? && fuel >= 6
    ensures PhaseOf(Drive(s, c, late, fuel), c).Idle? && Freed(s, Drive(s, c, late, fuel), PhaseOf(s, c).request)
    ensures Settled(Drive(s, c, late, fuel), PhaseOf(s, c).request) <==> late <= 2
  {
    hide Sound, KeyOf, Settled, Drive;
    DriveOne(s, c, late, fuel);
    ReconfirmingEnds(Advance(s, c, Yes(late)), c, 2, late, fuel - 1);
  }

  /** The ref holds another SHA, or it has to be pushed and then stays invisible for longer
      than three confirmations. */
  predicate Hopeless(s: Sys, r: Request, late: nat) {
    if r.destination in s.remote then s.remote[r.destination] != r.sha else late > 2
  }

  lemma ConfirmingEnds(s: Sys, c: nat, late: nat, fuel: nat)
    requires Sound(s) && PhaseOf(s, c).Confirming? && fuel >= 7
    ensures PhaseOf(Drive(s, c, late, fuel), c).Idle? && Freed(s, Drive(s, c, late, fuel), PhaseOf(s, c).request)
    ensures Settled(Drive(s, c, late, fuel), PhaseOf(s, c).request) <==> !Hopeless(s, PhaseOf(s, c).request, late)
  {
    hide Sound, KeyOf, Settled, Drive;
    DriveOne(s, c, late, fuel);
    var t := Advance(s, c, Yes(late));
    if Observed(s, PhaseOf(s, c).request) == Missing {
      PushingEnds(t, c, late, fuel - 1);
    } else {
      MarkingEnds(t, c, late, fuel - 1);
    }
  }

  lemma PuttingEnds(s: Sys, c: nat, late: nat, fuel: nat)
    requires Sound(s) && PhaseOf(s, c).Putting? && fuel >= 9 && !Settled(s, PhaseOf(s, c).request)
    ensures PhaseOf(Drive(s, c, late, fuel), c).Idle? && Drive(s, c, late, fuel).leases == s.leases
    ensures var r := PhaseOf(s, c).request;
            Settled(Drive(s, c, late, fuel), r) <==>
            !Refuses(s, r) && !r.localOnly && KeyOf(r.destination) !in s.leases && !Hopeless(s, r, late)
  {
    hide Sound, KeyOf, Drive;
    var r := PhaseOf(s, c).request;
    DriveOne(s, c, late, fuel);
    var t := Advance(s, c, Yes(late));
    if Refuses(s, r) {
      Returned(t, c, late, fuel - 1);
    } else {
      DriveOne(t, c, late, fuel - 1);
      var u := Advance(t, c, Yes(late));
      if r.localOnly || KeyOf(r.destination) in s.leases {
        Returned(u, c, late, fuel - 2);
      } else {
        ConfirmingEnds(u, c, late, fuel - 2);
      }
    }
  }

  /** The identity on file is this request's, and it is not blocked. */
  predicate Open(s: Sys, r: Request) {
    r.id in s.jobs ==> s.jobs[r.id].request == r && s.jobs[r.id].status != Blocked
  }

  /** From any state earlier attempts and crashes can leave, one push whose ports all answer
      gives back the lease it took, and ends recorded as succeeded exactly when it already was,
      or it is well-formed and meant for the remote, nothing else is on file under its id, it is
      not blocked, no caller is at work on its destination or has left the lease there behind,
      its ref does not hold another SHA, and what it pushes shows up within three confirmations. */
  lemma OnePushSucceeds(s: Sys, c: nat, r: Request, late: nat)
    requires Sound(s) && PhaseOf(s, c) == Idle
    ensures PhaseOf(PushFine(s, c, r, late), c) == Idle && PushFine(s, c, r, late).leases == s.leases
    ensures Settled(PushFine(s, c, r, late), r) <==>
            Settled(s, r) ||
            (&& Acceptable(r) && Storable(r) && !r.localOnly && Open(s, r)
             && !Engaged(s, r.destination) && !LeftBehind(s, r.destination) && !Hopeless(s, r, late))
  {
    hide Sound, KeyOf, Drive, Hopeless, Acceptable, Storable, Engaged, LeftBehind;
    LeaseIsTheDestination(s, r.destination);
    if !Acceptable(r) {
      Returned(s, c, late, ENOUGH);
      return;
    }
    var t := Do(s, CallPush(c, r));
    DoSound(s, CallPush(c, r));
    DriveOne(t, c, late, ENOUGH);
    var u := Advance(t, c, Yes(late));
    if FirstLook(t, r) == Idle {
      Returned(u, c, late, ENOUGH - 1);
    } else {
      SameRemote(s, u, r, late);
      PuttingEnds(u, c, late, ENOUGH - 1);
    }
  }

  /** Non-empty and all in lower-case letters. */
  predicate Letters(s: string) {
    s != "" && forall i :: 0 <= i < |s| ==> 'a' <= s[i] <= 'z'
  }

  /** Names in lower-case letters, a ref in parts of them, a full SHA-1 name and no digest. */
  predicate Ordinary(r: Request) {
    && Letters(r.id) && Letters(r.destination.owner) && Letters(r.destination.name)
    && |r.id| <= 128 && |r.destination.owner| <= 128 && |r.destination.name| <= 128
    && r.destination.ref != "" && r.destination.ref[0] != '/'
    && (forall i :: 0 <= i < |r.destination.ref| ==> 'a' <= r.destination.ref[i] <= 'z' || r.destination.ref[i] == '/')
    && |r.sha| == 40 && (forall i :: 0 <= i < 40 ==> '0' <= r.sha[i] <= '9' || 'a' <= r.sha[i] <= 'f') && r.remoteDigest == ""
  }

  lemma OrdinaryIsStorable(r: Request)
    requires Ordinary(r)
    ensures Acceptable(r) && Storable(r)
  {
  }

  /** Where nobody is at work on its destination and no lease has been left behind, an ordinary
      new push to a ref that is not there ends on file as succeeded and on the remote. */
  lemma ThePushLeadsThrough(s: Sys, c: nat, r: Request)
    requires Sound(s) && NoneLeftBehind(s) && PhaseOf(s, c) == Idle
    requires Ordinary(r) && !r.localOnly && r.id !in s.jobs
    requires r.destination !in s.remote && !Engaged(s, r.destination)
    ensures var t := PushFine(s, c, r, 0);
            r.id in t.jobs && t.jobs[r.id] == Job(Succeeded, r) &&
            r.destination in t.remote && t.remote[r.destination] == r.sha
  {
    hide Sound, Drive, Acceptable, Storable, Engaged, LeftBehind, NoneLeftBehind, Do, Ordinary;
    OrdinaryIsStorable(r);
    NamesAreStored(r);
    OthersDoNotMatter(s, r.destination);
    OnePushSucceeds(s, c, r, 0);
    DoSound(s, CallPush(c, r));
    DriveSound(Do(s, CallPush(c, r)), c, 0, ENOUGH);
    StandsSound(PushFine(s, c, r, 0), c);
    assert JobSound(PushFine(s, c, r, 0), r.id);
  }

  lemma NamesAreStored(r: Request)
    requires Storable(r)
    ensures NameForm(r.destination.owner) && NameForm(r.destination.name)
  {
  }

  lemma {:induction false} DriveSound(s: Sys, c: nat, late: nat, fuel: nat)
    requires Sound(s)
    ensures Sound(Drive(s, c, late, fuel))
    decreases fuel
  {
    hide Sound, Advance;
    if !PhaseOf(s, c).Idle? && fuel > 0 {
      DriveOne(s, c, late, fuel);
      DriveSound(Advance(s, c, Yes(late)), c, if PhaseOf(s, c).Reconfirming? && late > 0 then late - 1 else late, fuel - 1);
    }
  }

  /** A confirmation or push that fails, and the note of it. */
  function FailThenNote(s: Sys, c: nat, a: Answer, b: Answer): Sys {
    Advance(Advance(s, c, a), c, b)
  }

  /** What became of the remote when an effect failed: a push may still have taken effect. */
  function RemoteAfter(s: Sys, c: nat, a: Answer): map<Destination, string> {
    if PhaseOf(s, c).Pushing? && a.effect
    then s.remote[PhaseOf(s, c).request.destination := PhaseOf(s, c).request.sha] else s.remote
  }

  lemma FailureSteps(s: Sys, c: nat, a: Answer)
    requires !a.ok && (PhaseOf(s, c).Confirming? || PhaseOf(s, c).Pushing? || PhaseOf(s, c).Reconfirming?)
    ensures var t := Advance(s, c, a);
            PhaseOf(t, c) == Failing(PhaseOf(s, c).request, !a.retryable || (a.conflict && !PhaseOf(s, c).Pushing?)) &&
            t.jobs == s.jobs && t.leases == s.leases && t.remote == RemoteAfter(s, c, a)
  {
    hide KeyOf, Observed;
  }

  lemma NoteSteps(s: Sys, c: nat, b: Answer)
    requires b.ok && PhaseOf(s, c).Failing?
    ensures var t, r := Advance(s, c, b), PhaseOf(s, c).request;
            PhaseOf(t, c) == Releasing(r) && t.leases == s.leases && t.remote == s.remote &&
            (Markable(s, r.id) ==>
               t.jobs == s.jobs[r.id := s.jobs[r.id].(status := if PhaseOf(s, c).blocked then Blocked else RetryWait)])
  {
    hide KeyOf;
  }

  /** A failure under the lease is put on file as one to be tried again exactly when it is a
      passing one and nobody claims a conflict; otherwise it blocks the job. The remote has
      changed only if it was the push that failed and it took effect nevertheless. */
  lemma FailureIsClassified(s: Sys, c: nat, a: Answer, b: Answer)
    requires Sound(s) && !a.ok && b.ok
    requires PhaseOf(s, c).Confirming? || PhaseOf(s, c).Pushing? || PhaseOf(s, c).Reconfirming?
    ensures var r, t := PhaseOf(s, c).request, FailThenNote(s, c, a, b);
            var conflict := a.conflict && !PhaseOf(s, c).Pushing?;
            t.jobs == s.jobs[r.id := Job(if a.retryable && !conflict then RetryWait else Blocked, r)] &&
            PhaseOf(t, c) == Releasing(r) && t.leases == s.leases && t.remote == RemoteAfter(s, c, a)
  {
    hide Sound, Advance, Storable, RemoteAfter;
    StandsSound(s, c);
    FailureSteps(s, c, a);
    NoteSteps(Advance(s, c, a), c, b);
  }

  /** `RetryPush` with ports that answer. */
  function RetryFine(s: Sys, c: nat, id: string, late: nat): Sys {
    Drive(Do(s, CallRetry(c, id)), c, late, ENOUGH + 1)
  }

  /** A retry is the push on file, if that one waits for it; else it changes nothing. */
  lemma RetryIsThePush(s: Sys, c: nat, id: string, late: nat)
    requires Sound(s) && PhaseOf(s, c) == Idle
    ensures RetryFine(s, c, id, late) ==
            if id in s.jobs && s.jobs[id].status == RetryWait && Acceptable(s.jobs[id].request)
            then PushFine(s, c, s.jobs[id].request, late) else Goto(s, c, Idle)
  {
    hide Sound, Drive, Acceptable, KeyOf, FirstLook;
    var t := Do(s, CallRetry(c, id));
    DoSound(s, CallRetry(c, id));
    DriveOne(t, c, late, ENOUGH + 1);
    var u := Advance(t, c, Yes(late));
    if Retryable(s, id) {
      assert u.callers == s.callers[c := Reading(s.jobs[id].request)];
    } else {
      assert u.callers == s.callers[c := Idle];
      Returned(u, c, late, ENOUGH);
    }
  }

  lemma SameRemote(s: Sys, t: Sys, r: Request, late: nat)
    requires t.remote == s.remote
    ensures Hopeless(t, r, late) == Hopeless(s, r, late)
  {
  }

  // ---------------------------------------------------------------- one undisturbed local-only push

  predicate Skipped(s: Sys, id: string) {
    id in s.jobs && s.jobs[id].status == SkippedLocal
  }

  /** The same push is on file as one to be sent. */
  predicate ToBeSent(s: Sys, r: Request) {
    r.id in s.jobs && SamePush(s.jobs[r.id].request, r) && !s.jobs[r.id].request.localOnly
  }

  /** From where the caller has looked but not yet put: the put and the mark go through, and the
      job ends skipped, exactly when meanwhile the same push is on file as one to be sent. */
  lemma LocalPutIsSkipped(s: Sys, c: nat, late: nat, fuel: nat)
    requires Sound(s) && PhaseOf(s, c).Putting? && PhaseOf(s, c).request.localOnly && fuel >= 2
    ensures var t, r := Drive(s, c, late, fuel), PhaseOf(s, c).request;
            PhaseOf(t, c) == Idle &&
            t.jobs == if r.id !in s.jobs && Storable(r) then s.jobs[r.id := Job(Requested, r)]
                      else if ToBeSent(s, r) then s.jobs[r.id := s.jobs[r.id].(status := SkippedLocal)]
                      else s.jobs
  {
    hide Sound, Drive, KeyOf, NameForm, RefForm;
    StandsSound(s, c);
    DriveOne(s, c, late, fuel);
    var t := Advance(s, c, Yes(late));
    if Refuses(s, PhaseOf(s, c).request) {
      Returned(t, c, late, fuel - 1);
    } else {
      DriveOne(t, c, late, fuel - 1);
      Returned(Advance(t, c, Yes(late)), c, late, fuel - 2);
    }
  }

  /** The whole undisturbed call, from any state earlier attempts and crashes can leave: it puts
      a new job of the right form and changes no other, so it ends skipped exactly when its id was skipped before.
      The first look turns the very push away that the mark would take. */
  lemma LocalPushIsRefused(s: Sys, c: nat, r: Request, late: nat)
    requires Sound(s) && PhaseOf(s, c) == Idle && Acceptable(r) && r.localOnly
    ensures var t := PushFine(s, c, r, late);
            PhaseOf(t, c) == Idle && (Skipped(t, r.id) <==> Skipped(s, r.id)) &&
            t.jobs == if r.id !in s.jobs && Storable(r) then s.jobs[r.id := Job(Requested, r)] else s.jobs
  {
    hide Sound, Drive, Acceptable, KeyOf;
    var t := Do(s, CallPush(c, r));
    DoSound(s, CallPush(c, r));
    DriveOne(t, c, late, ENOUGH);
    var u := Advance(t, c, Yes(late));
    if FirstLook(t, r) == Idle {
      Returned(u, c, late, ENOUGH - 1);
    } else {
      LocalPutIsSkipped(u, c, late, ENOUGH - 1);
    }
  }
}
