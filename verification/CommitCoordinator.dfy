/** Any number of callers committing through the coordinator: durable intent, writer lease,
    Git effect, verified record; interleaved step by step, crashing anywhere. */
module CommitCoordinator {
  import opened Names

  datatype Evidence = Evidence(candidate: string, base: string, message: string, policy: string, verifier: string, guard: string)

  datatype Request = Request(id: string, evidence: Evidence)

  datatype Status = Requested | Running | ReconcileRequired | Created

  /** The durable job; a job that was never put is not in the map. */
  datatype Job = Job(status: Status, sha: string, evidence: Evidence)

  /** Where one caller is. From `Rereading` and `RecoverReading` on it holds the job's lease. */
  datatype Phase =
    | Idle
    | Reading(request: Request)
    | Mending(request: Request)
    | Acquiring(request: Request, recover: bool)
    | Rereading(request: Request)
    | Putting(request: Request)
    | Working(request: Request)
    | RecoverReading(request: Request)
    | Inspecting(request: Request)
    | Reconciling(request: Request)
    | Writing(request: Request, sha: string)
    | Releasing(request: Request)

  /** The store, the leases, the callers, and two counters for the record: Git.Commit calls and
      reconciles recorded, by job. `reported` holds every SHA Git gave for a job. */
  datatype Sys = Sys(
    jobs: map<string, Job>, leases: map<string, nat>, callers: map<nat, Phase>,
    commits: map<string, nat>, reconciles: map<string, nat>, reported: set<(string, string)>)

  const START := Sys(map[], map[], map[], map[], map[], {})

  /** How a port answered: success, or failure with its effect done or not; `sha` and
      `evidence` are what Git said. */
  datatype Answer = Answer(ok: bool, effect: bool, sha: string, evidence: Evidence)

  datatype Action =
    | CallCommit(caller: nat, request: Request)
    | CallRecover(caller: nat, request: Request)
    | Step(caller: nat, answer: Answer)
    | Crash(caller: nat)
    | Expire(key: string)

  /** What the coordinator checks of a request before anything else. */
  predicate Acceptable(r: Request) {
    && r.id != "" && ValidDigest(r.evidence.candidate) && ValidSha(r.evidence.base) && ValidDigest(r.evidence.message)
    && ValidDigest(r.evidence.policy) && ValidDigest(r.evidence.verifier) && ValidDigest(r.evidence.guard)
  }

  function PhaseOf(s: Sys, c: nat): Phase {
    if c in s.callers then s.callers[c] else Idle
  }

  function Goto(s: Sys, c: nat, p: Phase): Sys {
    s.(callers := s.callers[c := p])
  }

  function CountOf(m: map<string, nat>, id: string): nat {
    if id in m then m[id] else 0
  }

  predicate InFlight(s: Status) {
    s == Requested || s == Running
  }

  predicate Leased(p: Phase) {
    p.Rereading? || p.Putting? || p.Working? || p.RecoverReading? || p.Inspecting? || p.Reconciling? || p.Writing? || p.Releasing?
  }

  // ---------------------------------------------------------------- the steps

  /** The first look, before the lease. */
  function FirstLook(s: Sys, r: Request): Phase {
    if r.id in s.jobs && s.jobs[r.id].evidence != r.evidence then Idle
    else if r.id in s.jobs && s.jobs[r.id].status == Created then
      if ValidSha(s.jobs[r.id].sha) then Idle else Mending(r)
    else Acquiring(r, false)
  }

  /** The second look, under the lease: it sees what others finished in the meantime. */
  function SecondLook(s: Sys, r: Request): Phase {
    if r.id in s.jobs && s.jobs[r.id].evidence != r.evidence then Releasing(r)
    else if r.id in s.jobs && s.jobs[r.id].status == Created && ValidSha(s.jobs[r.id].sha) then Releasing(r)
    else if r.id in s.jobs && InFlight(s.jobs[r.id].status) then RecoverReading(r)
    else Putting(r)
  }

  function RecoverLook(s: Sys, r: Request): Phase {
    if r.id in s.jobs && s.jobs[r.id].evidence != r.evidence then Releasing(r)
    else if r.id in s.jobs && InFlight(s.jobs[r.id].status) then Inspecting(r)
    else Releasing(r)
  }

  /** `Acquire` succeeds only on a free lease. Without the second look the caller would go
      straight on to its intent. */
  function Acquire(s: Sys, c: nat, r: Request, recover: bool, a: Answer, rereads: bool): (t: Sys)
    ensures t.callers == s.callers[c := PhaseOf(t, c)]
  {
    if r.id in s.leases || !(a.ok || a.effect) then Goto(s, c, Idle)
    else
      Goto(s.(leases := s.leases[r.id := c]), c,
           if !a.ok then Idle else if recover then RecoverReading(r) else if rereads then Rereading(r) else Putting(r))
  }

  function Reconcile(s: Sys, id: string): (t: Sys)
    ensures t.callers == s.callers
  {
    if id !in s.jobs then s
    else s.(jobs := s.jobs[id := s.jobs[id].(status := ReconcileRequired)],
            reconciles := s.reconciles[id := CountOf(s.reconciles, id) + 1])
  }

  /** The store refuses a put under other evidence. */
  predicate Refuses(s: Sys, r: Request) {
    r.id in s.jobs && s.jobs[r.id].evidence != r.evidence
  }

  /** A put on an existing row keeps the SHA on it. */
  function Put(s: Sys, r: Request): (t: Sys)
    ensures t.callers == s.callers
  {
    s.(jobs := s.jobs[r.id := Job(Requested, if r.id in s.jobs then s.jobs[r.id].sha else "", r.evidence)])
  }

  /** The store records a SHA only on a row that has none, or that one. */
  predicate Recordable(s: Sys, id: string, sha: string) {
    id in s.jobs && (s.jobs[id].sha == "" || s.jobs[id].sha == sha)
  }

  function Report(s: Sys, id: string, a: Answer): (t: Sys)
    ensures t.callers == s.callers
  {
    if a.ok then s.(reported := s.reported + {(id, a.sha)}) else s
  }

  function Advance(s: Sys, c: nat, a: Answer, rereads: bool): Sys {
    match PhaseOf(s, c)
    case Idle => s
    case Reading(r) => Goto(s, c, if a.ok then FirstLook(s, r) else Idle)
    case Mending(r) => Goto(if a.ok || a.effect then Reconcile(s, r.id) else s, c, Idle)
    case Acquiring(r, recover) => Acquire(s, c, r, recover, a, rereads)
    case Rereading(r) => Goto(s, c, if a.ok then SecondLook(s, r) else Releasing(r))
    case Putting(r) =>
      if Refuses(s, r) then Goto(s, c, Releasing(r))
      else Goto(if a.ok || a.effect then Put(s, r) else s, c, if a.ok then Working(r) else Releasing(r))
    case Working(r) =>
      Goto(Report(s, r.id, a).(commits := s.commits[r.id := CountOf(s.commits, r.id) + 1]), c,
           if a.ok && ValidSha(a.sha) then Writing(r, a.sha) else Releasing(r))
    case RecoverReading(r) => Goto(s, c, if a.ok then RecoverLook(s, r) else Releasing(r))
    case Inspecting(r) =>
      Goto(Report(s, r.id, a), c, if a.ok && a.evidence == r.evidence && ValidSha(a.sha) then Writing(r, a.sha) else Reconciling(r))
    case Reconciling(r) => Goto(if a.ok || a.effect then Reconcile(s, r.id) else s, c, Releasing(r))
    case Writing(r, sha) =>
      Goto(if (a.ok || a.effect) && Recordable(s, r.id, sha)
           then s.(jobs := s.jobs[r.id := s.jobs[r.id].(status := Created, sha := sha)]) else s,
           c, Releasing(r))
    case Releasing(r) =>
      Goto(if (a.ok || a.effect) && r.id in s.leases && s.leases[r.id] == c then s.(leases := s.leases - {r.id}) else s, c, Idle)
  }

  /** The holder is still in the middle of what it took the lease for. */
  predicate HeldAlive(s: Sys, key: string) {
    key in s.leases && Leased(PhaseOf(s, s.leases[key])) && PhaseOf(s, s.leases[key]).request.id == key
  }

  /** A lease runs out only when its holder crashed or could not release it. */
  function Do(s: Sys, x: Action, rereads: bool): Sys {
    match x
    case CallCommit(c, r) => if PhaseOf(s, c) == Idle && Acceptable(r) then Goto(s, c, Reading(r)) else s
    case CallRecover(c, r) => if PhaseOf(s, c) == Idle && Acceptable(r) then Goto(s, c, Acquiring(r, true)) else s
    case Step(c, a) => Advance(s, c, a, rereads)
    case Crash(c) => Goto(s, c, Idle)
    case Expire(key) => if HeldAlive(s, key) then s else s.(leases := s.leases - {key})
  }

  function Run(s: Sys, xs: seq<Action>, rereads: bool): Sys {
    if xs == [] then s else Do(Run(s, xs[..|xs| - 1], rereads), xs[|xs| - 1], rereads)
  }

  // ---------------------------------------------------------------- the invariant

  predicate Holds(s: Sys, c: nat, id: string) {
    id in s.leases && s.leases[id] == c
  }

  predicate Untouched(s: Sys, id: string) {
    id !in s.jobs || s.jobs[id].status == ReconcileRequired
  }

  /** An attempt of this request is on file and has not ended. */
  predicate UnderWay(s: Sys, r: Request) {
    r.id in s.jobs && InFlight(s.jobs[r.id].status) && s.jobs[r.id].evidence == r.evidence
  }

  /** What the lease lets a caller know where it stands. */
  predicate PhaseSound(s: Sys, c: nat, p: Phase) {
    match p
    case Idle => true
    case Reading(_) => true
    case Acquiring(_, _) => true
    case Mending(_) => false
    case Rereading(r) => Holds(s, c, r.id)
    case Putting(r) => Holds(s, c, r.id) && Untouched(s, r.id) && (r.id in s.jobs ==> s.jobs[r.id].evidence == r.evidence)
    case Working(r) =>
      Holds(s, c, r.id) && r.id in s.jobs && s.jobs[r.id].status == Requested && s.jobs[r.id].evidence == r.evidence &&
      CountOf(s.commits, r.id) <= CountOf(s.reconciles, r.id)
    case RecoverReading(r) => Holds(s, c, r.id)
    case Inspecting(r) => Holds(s, c, r.id) && UnderWay(s, r)
    case Reconciling(r) => Holds(s, c, r.id) && UnderWay(s, r)
    case Writing(r, sha) => Holds(s, c, r.id) && UnderWay(s, r) && ValidSha(sha) && (r.id, sha) in s.reported
    case Releasing(r) => Holds(s, c, r.id)
  }

  /** At most one Git.Commit more than reconciles, and not even that while the job is unstarted
      or waits for a new attempt. */
  predicate Budgeted(s: Sys, id: string) {
    && CountOf(s.commits, id) <= 1 + CountOf(s.reconciles, id)
    && (Untouched(s, id) ==> CountOf(s.commits, id) <= CountOf(s.reconciles, id))
  }

  predicate JobSound(s: Sys, id: string)
    requires id in s.jobs
  {
    if s.jobs[id].status == Created then ValidSha(s.jobs[id].sha) && (id, s.jobs[id].sha) in s.reported else s.jobs[id].sha == ""
  }

  ghost predicate Sound(s: Sys) {
    && (forall c :: c in s.callers ==> PhaseSound(s, c, s.callers[c]))
    && (forall id :: Budgeted(s, id))
    && (forall id :: id in s.jobs ==> JobSound(s, id))
  }

  /** A caller between its lease and its release is alone with the job. */
  lemma LeaseExcludes(s: Sys, c: nat, d: nat)
    requires Sound(s) && c in s.callers && d in s.callers && Leased(s.callers[c]) && Leased(s.callers[d])
    requires s.callers[c].request.id == s.callers[d].request.id
    ensures c == d
  {
    hide Budgeted, JobSound;
    assert PhaseSound(s, c, s.callers[c]) && PhaseSound(s, d, s.callers[d]);
  }

  /** What a step on job `id` by `c` leaves alone: other jobs, other leases, other callers. */
  ghost predicate Local(s: Sys, t: Sys, c: nat, id: string) {
    && t.callers == s.callers[c := PhaseOf(t, c)]
    && (forall k :: k != id ==>
          (k in t.jobs <==> k in s.jobs) && (k in s.jobs ==> t.jobs[k] == s.jobs[k]) &&
          (k in t.leases <==> k in s.leases) && (k in s.leases ==> t.leases[k] == s.leases[k]) &&
          CountOf(t.commits, k) == CountOf(s.commits, k) && CountOf(t.reconciles, k) == CountOf(s.reconciles, k))
    && s.reported <= t.reported
  }

  lemma ElsewhereSound(s: Sys, t: Sys, c: nat, id: string, d: nat)
    requires Sound(s) && Local(s, t, c, id) && d in s.callers && d != c
    requires Leased(s.callers[d]) ==> s.callers[d].request.id != id
    ensures PhaseSound(t, d, s.callers[d])
  {
    hide Budgeted, JobSound, ValidSha;
    assert PhaseSound(s, d, s.callers[d]);
  }

  /** A local step is sound when it is so for its own caller and job. */
  lemma LocalSound(s: Sys, t: Sys, c: nat, id: string)
    requires Sound(s) && Local(s, t, c, id)
    requires forall d :: d in s.callers && d != c && Leased(s.callers[d]) ==> s.callers[d].request.id != id
    requires PhaseSound(t, c, PhaseOf(t, c)) && Budgeted(t, id) && (id in t.jobs ==> JobSound(t, id))
    ensures Sound(t)
  {
    hide PhaseSound, ValidSha;
    forall d | d in t.callers ensures PhaseSound(t, d, t.callers[d]) {
      if d != c {
        ElsewhereSound(s, t, c, id, d);
      }
    }
    forall k ensures Budgeted(t, k) {
      if k != id {
        assert Budgeted(s, k);
      }
    }
    forall k | k in t.jobs ensures JobSound(t, k) {
      if k != id {
        assert JobSound(s, k);
      }
    }
  }

  /** A step that changes only where the caller stands. */
  lemma MoveSound(s: Sys, c: nat, p: Phase)
    requires Sound(s) && PhaseSound(s, c, p)
    ensures Sound(Goto(s, c, p))
  {
    hide PhaseSound, Budgeted, JobSound;
    var t := Goto(s, c, p);
    forall d | d in t.callers ensures PhaseSound(t, d, t.callers[d]) {
      SamePhaseSound(s, t, d, t.callers[d]);
    }
    forall k ensures Budgeted(t, k) {
      assert Budgeted(s, k);
      SameBudget(s, t, k);
    }
    forall k | k in t.jobs ensures JobSound(t, k) {
      assert JobSound(s, k);
      SameJob(s, t, k);
    }
  }

  predicate SameStore(s: Sys, t: Sys) {
    t.jobs == s.jobs && t.leases == s.leases && t.commits == s.commits && t.reconciles == s.reconciles && t.reported == s.reported
  }

  lemma SamePhaseSound(s: Sys, t: Sys, d: nat, p: Phase)
    requires SameStore(s, t) && PhaseSound(s, d, p)
    ensures PhaseSound(t, d, p)
  {
    hide ValidSha;
  }

  lemma SameBudget(s: Sys, t: Sys, k: string)
    requires SameStore(s, t) && Budgeted(s, k)
    ensures Budgeted(t, k)
  {
  }

  lemma SameJob(s: Sys, t: Sys, k: string)
    requires SameStore(s, t) && k in s.jobs && JobSound(s, k)
    ensures JobSound(t, k)
  {
    hide ValidSha;
  }

  // ---------------------------------------------------------------- every step keeps it

  lemma AloneByLease(s: Sys, c: nat, id: string)
    requires Sound(s) && Holds(s, c, id)
    ensures forall d :: d in s.callers && d != c && Leased(s.callers[d]) ==> s.callers[d].request.id != id
  {
    hide Budgeted, JobSound, ValidSha;
    forall d | d in s.callers && d != c && Leased(s.callers[d]) ensures s.callers[d].request.id != id {
      assert PhaseSound(s, d, s.callers[d]);
    }
  }

  lemma AloneByAbsence(s: Sys, c: nat, id: string)
    requires Sound(s) && id !in s.leases
    ensures forall d :: d in s.callers && Leased(s.callers[d]) ==> s.callers[d].request.id != id
  {
    hide Budgeted, JobSound, ValidSha;
    forall d | d in s.callers && Leased(s.callers[d]) ensures s.callers[d].request.id != id {
      assert PhaseSound(s, d, s.callers[d]);
    }
  }

  lemma StandsSound(s: Sys, c: nat)
    requires Sound(s)
    ensures PhaseSound(s, c, PhaseOf(s, c))
    ensures forall id :: Budgeted(s, id)
    ensures forall id :: id in s.jobs ==> JobSound(s, id)
  {
    hide Budgeted, JobSound;
  }

  lemma LookSound(s: Sys, c: nat, a: Answer)
    requires Sound(s)
    requires var p := PhaseOf(s, c); p.Idle? || p.Reading? || p.Rereading? || p.RecoverReading?
    ensures Sound(Advance(s, c, a, true))
  {
    hide ValidSha, Budgeted, Sound;
    StandsSound(s, c);
    match PhaseOf(s, c)
    case Idle =>
    case Reading(r) => MoveSound(s, c, if a.ok then FirstLook(s, r) else Idle);
    case Rereading(r) => MoveSound(s, c, if a.ok then SecondLook(s, r) else Releasing(r));
    case RecoverReading(r) => MoveSound(s, c, if a.ok then RecoverLook(s, r) else Releasing(r));
  }

  lemma AcquireSound(s: Sys, c: nat, a: Answer)
    requires Sound(s) && PhaseOf(s, c).Acquiring?
    ensures Sound(Advance(s, c, a, true))
  {
    hide ValidSha, Sound, Budgeted, JobSound;
    StandsSound(s, c);
    var r := PhaseOf(s, c).request;
    if r.id in s.leases || !(a.ok || a.effect) {
      MoveSound(s, c, Idle);
    } else {
      AloneByAbsence(s, c, r.id);
      var t := Advance(s, c, a, true);
      BudgetElsewhere(s, t, r.id);
      LocalSound(s, t, c, r.id);
    }
  }

  lemma BudgetElsewhere(s: Sys, t: Sys, id: string)
    requires Budgeted(s, id) && t.commits == s.commits && t.reconciles == s.reconciles && t.jobs == s.jobs && t.reported == s.reported
    ensures Budgeted(t, id) && (id in s.jobs && JobSound(s, id) ==> JobSound(t, id))
  {
    hide ValidSha;
  }

  // Under the lease.

  lemma PutSound(s: Sys, c: nat, a: Answer)
    requires Sound(s) && PhaseOf(s, c).Putting?
    ensures Sound(Advance(s, c, a, true))
  {
    hide ValidSha, Sound, FirstLook, SecondLook, RecoverLook, Acquire, Reconcile;
    StandsSound(s, c);
    var id := PhaseOf(s, c).request.id;
    var t := Advance(s, c, a, true);
    AloneByLease(s, c, id);
    assert Budgeted(s, id);
    assert id in s.jobs ==> JobSound(s, id);
    LocalSound(s, t, c, id);
  }

  lemma WorkSound(s: Sys, c: nat, a: Answer)
    requires Sound(s) && PhaseOf(s, c).Working?
    ensures Sound(Advance(s, c, a, true))
  {
    hide ValidSha, Sound, FirstLook, SecondLook, RecoverLook, Acquire, Reconcile;
    StandsSound(s, c);
    var id := PhaseOf(s, c).request.id;
    var t := Advance(s, c, a, true);
    AloneByLease(s, c, id);
    assert Budgeted(s, id);
    assert id in s.jobs ==> JobSound(s, id);
    LocalSound(s, t, c, id);
  }

  lemma InspectSound(s: Sys, c: nat, a: Answer)
    requires Sound(s) && PhaseOf(s, c).Inspecting?
    ensures Sound(Advance(s, c, a, true))
  {
    hide ValidSha, Sound, FirstLook, SecondLook, RecoverLook, Acquire, Reconcile;
    StandsSound(s, c);
    var id := PhaseOf(s, c).request.id;
    var t := Advance(s, c, a, true);
    AloneByLease(s, c, id);
    assert Budgeted(s, id);
    assert id in s.jobs ==> JobSound(s, id);
    LocalSound(s, t, c, id);
  }

  lemma ReconcileSound(s: Sys, c: nat, a: Answer)
    requires Sound(s) && PhaseOf(s, c).Reconciling?
    ensures Sound(Advance(s, c, a, true))
  {
    hide ValidSha, Sound, FirstLook, SecondLook, RecoverLook, Acquire;
    StandsSound(s, c);
    var id := PhaseOf(s, c).request.id;
    var t := Advance(s, c, a, true);
    AloneByLease(s, c, id);
    assert Budgeted(s, id);
    assert id in s.jobs ==> JobSound(s, id);
    LocalSound(s, t, c, id);
  }

  lemma WriteSound(s: Sys, c: nat, a: Answer)
    requires Sound(s) && PhaseOf(s, c).Writing?
    ensures Sound(Advance(s, c, a, true))
  {
    hide ValidSha, Sound, FirstLook, SecondLook, RecoverLook, Acquire, Reconcile;
    StandsSound(s, c);
    var id := PhaseOf(s, c).request.id;
    var t := Advance(s, c, a, true);
    AloneByLease(s, c, id);
    assert Budgeted(s, id);
    assert id in s.jobs ==> JobSound(s, id);
    LocalSound(s, t, c, id);
  }

  lemma ReleaseSound(s: Sys, c: nat, a: Answer)
    requires Sound(s) && PhaseOf(s, c).Releasing?
    ensures Sound(Advance(s, c, a, true))
  {
    hide ValidSha, Sound, FirstLook, SecondLook, RecoverLook, Acquire, Reconcile;
    StandsSound(s, c);
    var id := PhaseOf(s, c).request.id;
    var t := Advance(s, c, a, true);
    AloneByLease(s, c, id);
    assert Budgeted(s, id);
    assert id in s.jobs ==> JobSound(s, id);
    LocalSound(s, t, c, id);
  }

  lemma DoSound(s: Sys, x: Action)
    requires Sound(s)
    ensures Sound(Do(s, x, true))
  {
    hide ValidSha, Sound, Advance, Budgeted, JobSound, Acceptable;
    match x
    case CallCommit(c, r) => if PhaseOf(s, c) == Idle && Acceptable(r) { MoveSound(s, c, Reading(r)); }
    case CallRecover(c, r) => if PhaseOf(s, c) == Idle && Acceptable(r) { MoveSound(s, c, Acquiring(r, true)); }
    case Crash(c) => MoveSound(s, c, Idle);
    case Expire(key) => if !HeldAlive(s, key) { ExpireSound(s, key); }
    case Step(c, a) =>
      StandsSound(s, c);
      var p := PhaseOf(s, c);
      match p {
        case Acquiring(_, _) => AcquireSound(s, c, a);
        case Putting(_) => PutSound(s, c, a);
        case Working(_) => WorkSound(s, c, a);
        case Inspecting(_) => InspectSound(s, c, a);
        case Reconciling(_) => ReconcileSound(s, c, a);
        case Writing(_, _) => WriteSound(s, c, a);
        case Releasing(_) => ReleaseSound(s, c, a);
        case _ => LookSound(s, c, a);
      }
  }

  lemma ExpireSound(s: Sys, key: string)
    requires Sound(s) && !HeldAlive(s, key)
    ensures Sound(s.(leases := s.leases - {key}))
  {
    hide ValidSha, Budgeted, JobSound;
    var t := s.(leases := s.leases - {key});
    forall c | c in t.callers ensures PhaseSound(t, c, t.callers[c]) {
      assert PhaseSound(s, c, s.callers[c]);
      assert PhaseOf(s, c) == s.callers[c];
    }
    forall id ensures Budgeted(t, id) {
      assert Budgeted(s, id);
      BudgetElsewhere(s, t, id);
    }
    forall id | id in t.jobs ensures JobSound(t, id) {
      assert Budgeted(s, id) && JobSound(s, id);
      BudgetElsewhere(s, t, id);
    }
  }

  lemma StartSound()
    ensures Sound(START)
  {
  }

  lemma {:induction false} RunSound(xs: seq<Action>)
    ensures Sound(Run(START, xs, true))
  {
    hide Do, Sound;
    if xs == [] {
      StartSound();
    } else {
      RunSound(xs[..|xs| - 1]);
      DoSound(Run(START, xs[..|xs| - 1], true), xs[|xs| - 1]);
    }
  }

  // ---------------------------------------------------------------- what it means

  /** However many callers race, retry and crash, Git.Commit is called for a job at most once
      more than reconciles were recorded for it. */
  lemma CommitsAreBudgeted(xs: seq<Action>, id: string)
    ensures var t := Run(START, xs, true); CountOf(t.commits, id) <= 1 + CountOf(t.reconciles, id)
  {
    hide Run, Sound;
    RunSound(xs);
    StandsSound(Run(START, xs, true), 0);
    assert Budgeted(Run(START, xs, true), id);
  }

  predicate KeepsJob(s: Sys, t: Sys, id: string)
    requires id in s.jobs
  {
    id in t.jobs && t.jobs[id].evidence == s.jobs[id].evidence &&
    (s.jobs[id].status == Created ==> t.jobs[id] == s.jobs[id] && CountOf(t.commits, id) == CountOf(s.commits, id))
  }

  predicate Writes(p: Phase) {
    p.Mending? || p.Putting? || p.Working? || p.Reconciling? || p.Writing?
  }

  lemma QuietSteps(s: Sys, c: nat, a: Answer)
    requires !Writes(PhaseOf(s, c))
    ensures Advance(s, c, a, true).jobs == s.jobs && Advance(s, c, a, true).commits == s.commits
  {
    hide ValidSha, FirstLook, SecondLook, RecoverLook, Reconcile;
  }

  lemma PutKeeps(s: Sys, c: nat, a: Answer, id: string)
    requires PhaseSound(s, c, PhaseOf(s, c)) && id in s.jobs && (PhaseOf(s, c).Putting? || PhaseOf(s, c).Writing?)
    ensures KeepsJob(s, Advance(s, c, a, true), id)
  {
    hide ValidSha;
  }

  lemma WorkKeeps(s: Sys, c: nat, a: Answer, id: string)
    requires PhaseSound(s, c, PhaseOf(s, c)) && id in s.jobs && (PhaseOf(s, c).Working? || PhaseOf(s, c).Reconciling?)
    ensures KeepsJob(s, Advance(s, c, a, true), id)
  {
    hide ValidSha;
  }

  /** A step of one caller never touches a created job, and never replaces a job's evidence. */
  lemma AdvanceKeepsCreated(s: Sys, c: nat, a: Answer, id: string)
    requires PhaseSound(s, c, PhaseOf(s, c)) && id in s.jobs
    ensures KeepsJob(s, Advance(s, c, a, true), id)
  {
    hide Advance, ValidSha;
    match PhaseOf(s, c)
    case Mending(_) => assert false;
    case Putting(_) => PutKeeps(s, c, a, id);
    case Writing(_, _) => PutKeeps(s, c, a, id);
    case Working(_) => WorkKeeps(s, c, a, id);
    case Reconciling(_) => WorkKeeps(s, c, a, id);
    case _ => QuietSteps(s, c, a);
  }

  /** A created job stays created under its SHA, its evidence never changes, and Git is not
      asked to commit it again. */
  lemma CreatedIsAbsorbing(s: Sys, x: Action, id: string)
    requires Sound(s) && id in s.jobs
    ensures KeepsJob(s, Do(s, x, true), id)
  {
    hide Budgeted, JobSound, PhaseSound, Sound, Advance;
    if x.Step? {
      StandsSound(s, x.caller);
      AdvanceKeepsCreated(s, x.caller, x.answer, id);
    }
  }

  lemma {:induction false} CreatedForGood(xs: seq<Action>, n: nat, id: string)
    requires n <= |xs| && id in Run(START, xs[..n], true).jobs && Run(START, xs[..n], true).jobs[id].status == Created
    ensures var a, b := Run(START, xs[..n], true), Run(START, xs, true);
            id in b.jobs && b.jobs[id] == a.jobs[id] && CountOf(b.commits, id) == CountOf(a.commits, id)
    decreases |xs|
  {
    hide Do, Sound;
    if n == |xs| {
      assert xs[..n] == xs;
    } else {
      var m := |xs| - 1;
      assert xs[..m][..n] == xs[..n];
      CreatedForGood(xs[..m], n, id);
      RunSound(xs[..m]);
      CreatedIsAbsorbing(Run(START, xs[..m], true), xs[m], id);
    }
  }

  lemma {:induction false} JobsStay(xs: seq<Action>, n: nat, id: string)
    requires n <= |xs| && id in Run(START, xs[..n], true).jobs
    ensures id in Run(START, xs, true).jobs
    ensures Run(START, xs, true).jobs[id].evidence == Run(START, xs[..n], true).jobs[id].evidence
    decreases |xs|
  {
    hide Do, Sound;
    if n == |xs| {
      assert xs[..n] == xs;
    } else {
      var m := |xs| - 1;
      assert xs[..m][..n] == xs[..n];
      JobsStay(xs[..m], n, id);
      RunSound(xs[..m]);
      CreatedIsAbsorbing(Run(START, xs[..m], true), xs[m], id);
    }
  }

  /** The SHA on record is a full object name that Git itself reported for this job. */
  lemma RecordedWasReported(xs: seq<Action>, id: string)
    requires var t := Run(START, xs, true); id in t.jobs && t.jobs[id].status == Created
    ensures var t := Run(START, xs, true); ValidSha(t.jobs[id].sha) && (id, t.jobs[id].sha) in t.reported
  {
    hide Run, Sound, ValidSha;
    RunSound(xs);
    StandsSound(Run(START, xs, true), 0);
    assert JobSound(Run(START, xs, true), id);
  }

  // ---------------------------------------------------------------- why the second look matters

  const A_SHA := "aaaaaaaaaaaaaaaaaaaaaaaaaaaaaaaaaaaaaaaa"

  function Yes(r: Request): Answer {
    Answer(true, true, A_SHA, r.evidence)
  }

  /** Both callers look before either has the lease; then one commits and the other follows. */
  function Race(r: Request): seq<Action> {
    var y := Yes(r);
    [CallCommit(0, r), CallCommit(1, r), Step(0, y), Step(1, y),
     Step(0, y), Step(0, y), Step(0, y), Step(0, y), Step(0, y),
     Step(1, y), Step(1, y), Step(1, y)]
  }

  lemma Later(xs: seq<Action>, n: nat)
    requires n < |xs|
    ensures Run(START, xs[..n + 1], false) == Do(Run(START, xs[..n], false), xs[n], false)
  {
    hide Do;
    assert xs[..n + 1][..n] == xs[..n];
  }

  /** Without the second look the race ends with two Git.Commit calls and no reconcile. */
  lemma WithoutSecondLook(r: Request)
    requires Acceptable(r)
    ensures var t := Run(START, Race(r), false); CountOf(t.commits, r.id) == 2 && CountOf(t.reconciles, r.id) == 0
  {
    hide Run, ValidSha, Acceptable;
    var y, xs := Yes(r), Race(r);
    ShaIsValid();
    FirstToCommit(r);
    SecondFollows(r);
    assert xs[..12] == xs;
  }

  lemma ShaIsValid()
    ensures ValidSha(A_SHA)
  {
  }

  /** The first caller is done; the second still holds what it saw before. */
  function AfterFirst(r: Request): Sys {
    START.(jobs := map[r.id := Job(Created, A_SHA, r.evidence)], callers := map[0 := Idle, 1 := Acquiring(r, false)],
           commits := map[r.id := 1], reported := {(r.id, A_SHA)})
  }

  function BothWaiting(r: Request): Sys {
    START.(callers := map[0 := Acquiring(r, false), 1 := Acquiring(r, false)])
  }

  lemma BothLook(r: Request)
    requires Acceptable(r)
    ensures Run(START, Race(r)[..4], false) == BothWaiting(r)
  {
    hide Run, ValidSha, Acceptable;
    var xs := Race(r);
    NothingRun(xs);
    Later(xs, 0);
    Later(xs, 1);
    Later(xs, 2);
    Later(xs, 3);
  }

  function FirstWorking(r: Request): Sys {
    BothWaiting(r).(jobs := map[r.id := Job(Requested, "", r.evidence)], leases := map[r.id := 0],
                    callers := map[0 := Working(r), 1 := Acquiring(r, false)])
  }

  lemma FirstWorks(r: Request)
    requires Acceptable(r)
    ensures Run(START, Race(r)[..6], false) == FirstWorking(r)
  {
    hide Run, ValidSha, Acceptable;
    BothLook(r);
    Later(Race(r), 4);
    Later(Race(r), 5);
  }

  lemma FirstWrites(r: Request)
    requires Acceptable(r)
    ensures Run(START, Race(r)[..7], false) ==
            FirstWorking(r).(callers := map[0 := Writing(r, A_SHA), 1 := Acquiring(r, false)],
                             commits := map[r.id := 1], reported := {(r.id, A_SHA)})
  {
    hide Run, ValidSha, Acceptable;
    ShaIsValid();
    FirstWorks(r);
    Later(Race(r), 6);
  }

  lemma FirstToCommit(r: Request)
    requires Acceptable(r)
    ensures Run(START, Race(r)[..9], false) == AfterFirst(r)
  {
    hide Run, ValidSha, Acceptable;
    FirstWrites(r);
    Later(Race(r), 7);
    Later(Race(r), 8);
  }

  lemma NothingRun(xs: seq<Action>)
    ensures Run(START, xs[..0], false) == START
  {
  }

  lemma SecondFollows(r: Request)
    requires Run(START, Race(r)[..9], false) == AfterFirst(r)
    ensures var t := Run(START, Race(r)[..12], false); CountOf(t.commits, r.id) == 2 && CountOf(t.reconciles, r.id) == 0
  {
    hide Run, ValidSha, Acceptable;
    var xs := Race(r);
    Later(xs, 9);
    Later(xs, 10);
    Later(xs, 11);
  }

  // ---------------------------------------------------------------- one undisturbed commit

  /** A call whose ports all answer, Git with this SHA and this evidence: steps until it has
      returned. */
  function Drive(s: Sys, c: nat, a: Answer, fuel: nat): Sys
    decreases fuel
  {
    if PhaseOf(s, c).Idle? || fuel == 0 then s else Drive(Advance(s, c, a, true), c, a, fuel - 1)
  }

  /** More steps than any call takes. */
  const ENOUGH := 8

  function CommitFine(s: Sys, c: nat, r: Request, sha: string, seen: Evidence): Sys {
    Drive(Do(s, CallCommit(c, r), true), c, Answer(true, true, sha, seen), ENOUGH)
  }

  predicate Committed(s: Sys, r: Request) {
    r.id in s.jobs && s.jobs[r.id].status == Created && s.jobs[r.id].evidence == r.evidence
  }

  lemma DriveOne(s: Sys, c: nat, a: Answer, fuel: nat)
    requires Sound(s) && !PhaseOf(s, c).Idle? && fuel > 0
    ensures Sound(Advance(s, c, a, true)) && Drive(s, c, a, fuel) == Drive(Advance(s, c, a, true), c, a, fuel - 1)
  {
    hide Advance, Sound;
    DoSound(s, Step(c, a));
  }

  lemma Returned(s: Sys, c: nat, a: Answer, fuel: nat)
    requires PhaseOf(s, c).Idle?
    ensures Drive(s, c, a, fuel) == s
  {
  }

  /** The call has returned, its job is this one now, and its lease is given back; Git was asked
      for so many commits, and reconciliation so often. No other job or lease has changed. */
  predicate EndedWith(s: Sys, t: Sys, c: nat, id: string, job: Option<Job>, commits: nat, reconciles: nat) {
    && PhaseOf(t, c) == Idle && t.leases == s.leases - {id}
    && t.jobs == (match job case Some(j) => s.jobs[id := j] case None => s.jobs)
    && CountOf(t.commits, id) == CountOf(s.commits, id) + commits
    && CountOf(t.reconciles, id) == CountOf(s.reconciles, id) + reconciles
  }

  /** The release changes nothing but the lease. */
  lemma ReleasingEnds(s: Sys, c: nat, a: Answer, fuel: nat)
    requires Sound(s) && PhaseOf(s, c).Releasing? && a.ok && fuel >= 1
    ensures EndedWith(s, Drive(s, c, a, fuel), c, PhaseOf(s, c).request.id, None, 0, 0)
  {
    hide Sound, Drive, ValidSha;
    StandsSound(s, c);
    DriveOne(s, c, a, fuel);
    Returned(Advance(s, c, a, true), c, a, fuel - 1);
  }

  lemma WritingEnds(s: Sys, c: nat, a: Answer, fuel: nat)
    requires Sound(s) && PhaseOf(s, c).Writing? && a.ok && fuel >= 2
    ensures var r, sha := PhaseOf(s, c).request, PhaseOf(s, c).sha;
            EndedWith(s, Drive(s, c, a, fuel), c, r.id, Some(Job(Created, sha, r.evidence)), 0, 0)
  {
    hide Sound, Drive, ValidSha;
    StandsSound(s, c);
    assert JobSound(s, PhaseOf(s, c).request.id);
    DriveOne(s, c, a, fuel);
    ReleasingEnds(Advance(s, c, a, true), c, a, fuel - 1);
  }

  /** A new attempt: it is created when Git names a commit, else it stays requested. */
  function NewAttempt(r: Request, sha: string): Job {
    if ValidSha(sha) then Job(Created, sha, r.evidence) else Job(Requested, "", r.evidence)
  }

  /** The put and Git's answer to it. */
  lemma PuttingWorks(s: Sys, c: nat, a: Answer)
    requires Sound(s) && PhaseOf(s, c).Putting? && a.ok
    ensures var r, u := PhaseOf(s, c).request, Advance(Advance(s, c, a, true), c, a, true);
            && PhaseOf(Advance(s, c, a, true), c) == Working(r)
            && PhaseOf(u, c) == (if ValidSha(a.sha) then Writing(r, a.sha) else Releasing(r))
            && u.jobs == s.jobs[r.id := Job(Requested, "", r.evidence)] && u.leases == s.leases
            && CountOf(u.commits, r.id) == CountOf(s.commits, r.id) + 1 && u.reconciles == s.reconciles
  {
    hide Sound, ValidSha;
    var r := PhaseOf(s, c).request;
    StandsSound(s, c);
    assert r.id in s.jobs ==> JobSound(s, r.id);
  }

  lemma PuttingEnds(s: Sys, c: nat, a: Answer, fuel: nat)
    requires Sound(s) && PhaseOf(s, c).Putting? && a.ok && fuel >= 4
    ensures var r := PhaseOf(s, c).request;
            EndedWith(s, Drive(s, c, a, fuel), c, r.id, Some(NewAttempt(r, a.sha)), 1, 0)
  {
    hide Sound, Drive, ValidSha, Advance;
    PuttingWorks(s, c, a);
    DriveOne(s, c, a, fuel);
    var t := Advance(s, c, a, true);
    DriveOne(t, c, a, fuel - 1);
    var u := Advance(t, c, a, true);
    if ValidSha(a.sha) {
      WritingEnds(u, c, a, fuel - 2);
    } else {
      ReleasingEnds(u, c, a, fuel - 2);
    }
  }

  /** An attempt under way: it is created when Git finds a commit with the request's evidence,
      else it waits for reconciliation. */
  function OldAttempt(r: Request, sha: string, seen: Evidence): Job {
    if ValidSha(sha) && seen == r.evidence then Job(Created, sha, r.evidence) else Job(ReconcileRequired, "", r.evidence)
  }

  lemma RecoveringEnds(s: Sys, c: nat, a: Answer, fuel: nat)
    requires Sound(s) && PhaseOf(s, c).RecoverReading? && a.ok && fuel >= 5
    requires UnderWay(s, PhaseOf(s, c).request)
    ensures var r := PhaseOf(s, c).request;
            EndedWith(s, Drive(s, c, a, fuel), c, r.id, Some(OldAttempt(r, a.sha, a.evidence)), 0,
                  if ValidSha(a.sha) && a.evidence == r.evidence then 0 else 1)
  {
    hide Sound, Drive, ValidSha;
    StandsSound(s, c);
    assert JobSound(s, PhaseOf(s, c).request.id);
    DriveOne(s, c, a, fuel);
    var t := Advance(s, c, a, true);
    DriveOne(t, c, a, fuel - 1);
    var u := Advance(t, c, a, true);
    if u.callers[c].Writing? {
      WritingEnds(u, c, a, fuel - 2);
    } else {
      DriveOne(u, c, a, fuel - 2);
      ReleasingEnds(Advance(u, c, a, true), c, a, fuel - 3);
    }
  }

  /** The job is this request's, if there is one. */
  predicate Ours(s: Sys, r: Request) {
    r.id in s.jobs ==> s.jobs[r.id].evidence == r.evidence
  }

  /** An attempt of it was started and has not ended. */
  predicate Pending(s: Sys, r: Request) {
    r.id in s.jobs && (s.jobs[r.id].status == Requested || s.jobs[r.id].status == Running)
  }

  /** The call gets past both looks without an end. */
  predicate Proceeds(s: Sys, r: Request) {
    Ours(s, r) && !Committed(s, r) && r.id !in s.leases
  }

  /** How an attempt under the lease ends. */
  predicate AttemptEnds(s: Sys, t: Sys, c: nat, r: Request, sha: string, seen: Evidence) {
    if Pending(s, r)
    then EndedWith(s, t, c, r.id, Some(OldAttempt(r, sha, seen)), 0, if ValidSha(sha) && seen == r.evidence then 0 else 1)
    else EndedWith(s, t, c, r.id, Some(NewAttempt(r, sha)), 1, 0)
  }

  /** How a call ends that Git answers with this SHA and evidence. */
  predicate EndsAs(s: Sys, t: Sys, c: nat, r: Request, sha: string, seen: Evidence) {
    if !Proceeds(s, r) then
      PhaseOf(t, c) == Idle && t.leases == s.leases && t.jobs == s.jobs && t.commits == s.commits && t.reconciles == s.reconciles
    else AttemptEnds(s, t, c, r, sha, seen)
  }

  lemma RereadingEnds(s: Sys, c: nat, a: Answer, fuel: nat)
    requires Sound(s) && PhaseOf(s, c).Rereading? && a.ok && fuel >= 6
    requires Ours(s, PhaseOf(s, c).request) && !Committed(s, PhaseOf(s, c).request)
    ensures AttemptEnds(s, Drive(s, c, a, fuel), c, PhaseOf(s, c).request, a.sha, a.evidence)
  {
    hide Sound, Drive, ValidSha, NewAttempt, OldAttempt;
    DriveOne(s, c, a, fuel);
    var u := Advance(s, c, a, true);
    if Pending(s, PhaseOf(s, c).request) {
      RecoveringEnds(u, c, a, fuel - 1);
    } else {
      PuttingEnds(u, c, a, fuel - 1);
    }
  }

  lemma AcquiringEnds(s: Sys, c: nat, a: Answer, fuel: nat)
    requires Sound(s) && PhaseOf(s, c).Acquiring? && !PhaseOf(s, c).recover && a.ok && fuel >= 7
    requires Ours(s, PhaseOf(s, c).request) && !Committed(s, PhaseOf(s, c).request)
    ensures EndsAs(s, Drive(s, c, a, fuel), c, PhaseOf(s, c).request, a.sha, a.evidence)
  {
    hide Sound, Drive, ValidSha, NewAttempt, OldAttempt;
    DriveOne(s, c, a, fuel);
    var t := Advance(s, c, a, true);
    if PhaseOf(s, c).request.id in s.leases {
      Returned(t, c, a, fuel - 1);
    } else {
      RereadingEnds(t, c, a, fuel - 1);
    }
  }

  /** From any state earlier attempts and crashes can leave, one commit whose ports all answer.
      It changes nothing when the request is malformed, its id is on file with other evidence or
      as created, or its lease is held. Else it gives its lease back. Where no attempt was under
      way Git is asked for exactly one commit, and the job is created if it names one. Where one
      was, Git is asked for none: the job is created with the commit it finds for the request's
      evidence, and must be reconciled if it finds none. */
  lemma OneCommitSucceeds(s: Sys, c: nat, r: Request, sha: string, seen: Evidence)
    requires Sound(s) && PhaseOf(s, c) == Idle
    ensures var t := CommitFine(s, c, r, sha, seen);
            if WellFormed(r) then EndsAs(s, t, c, r, sha, seen) else t == s
  {
    hide Sound, Drive, ValidSha, ValidDigest, EndsAs;
    var a := Answer(true, true, sha, seen);
    if !WellFormed(r) {
      Returned(s, c, a, ENOUGH);
      return;
    }
    var t := Do(s, CallCommit(c, r), true);
    DoSound(s, CallCommit(c, r));
    StandsSound(s, c);
    assert r.id in s.jobs ==> JobSound(s, r.id);
    DriveOne(t, c, a, ENOUGH);
    var u := Advance(t, c, a, true);
    if !Ours(s, r) || Committed(s, r) {
      Returned(u, c, a, ENOUGH - 1);
      NothingEnds(s, u, c, r, sha, seen);
    } else {
      AcquiringEnds(u, c, a, ENOUGH - 1);
      EndsAlike(s, u, CommitFine(s, c, r, sha, seen), c, r, sha, seen);
    }
  }

  /** An id, and the digests and the base of the evidence in their full forms. */
  predicate WellFormed(r: Request) {
    && r.id != "" && ValidSha(r.evidence.base)
    && forall d :: d in [r.evidence.candidate, r.evidence.message, r.evidence.policy, r.evidence.verifier, r.evidence.guard] ==> ValidDigest(d)
  }

  lemma NothingEnds(s: Sys, t: Sys, c: nat, r: Request, sha: string, seen: Evidence)
    requires !Proceeds(s, r) && PhaseOf(t, c) == Idle && SameStore(s, t)
    ensures EndsAs(s, t, c, r, sha, seen)
  {
  }

  lemma EndsAlike(s: Sys, u: Sys, t: Sys, c: nat, r: Request, sha: string, seen: Evidence)
    requires SameStore(s, u) && EndsAs(u, t, c, r, sha, seen)
    ensures EndsAs(s, t, c, r, sha, seen)
  {
    hide ValidSha, NewAttempt, OldAttempt;
  }

  lemma AcceptableIsWellFormed(r: Request)
    ensures Acceptable(r) <==> WellFormed(r)
  {
    hide ValidSha, ValidDigest;
    var e := r.evidence;
    var ds := [e.candidate, e.message, e.policy, e.verifier, e.guard];
    assert ds[0] in ds && ds[1] in ds && ds[2] in ds && ds[3] in ds && ds[4] in ds;
  }

  // ---------------------------------------------------------------- one undisturbed recovery

  function RecoverFine(s: Sys, c: nat, r: Request, sha: string, seen: Evidence): Sys {
    Drive(Do(s, CallRecover(c, r), true), c, Answer(true, true, sha, seen), ENOUGH)
  }

  lemma RecoveryAcquires(s: Sys, c: nat, r: Request, a: Answer)
    requires PhaseOf(s, c) == Acquiring(r, true) && a.ok
    ensures var u := Advance(s, c, a, true);
            PhaseOf(u, c) == (if r.id in s.leases then Idle else RecoverReading(r)) &&
            u.jobs == s.jobs && u.commits == s.commits && u.reconciles == s.reconciles && u.reported == s.reported &&
            u.leases == if r.id in s.leases then s.leases else s.leases[r.id := c]
  {
  }

  lemma RecoveryPasses(s: Sys, c: nat, r: Request, a: Answer)
    requires PhaseOf(s, c) == RecoverReading(r) && a.ok && !(Ours(s, r) && Pending(s, r))
    ensures PhaseOf(Advance(s, c, a, true), c) == Releasing(r) && SameStore(s, Advance(s, c, a, true))
  {
  }

  /** From any state earlier attempts and crashes can leave, one recovery whose ports all answer.
      It asks Git for no commit, and gives its lease back. It settles an attempt of this request
      that has not ended, as created or to be reconciled, and leaves every other job alone. */
  lemma OneRecoveryEnds(s: Sys, c: nat, r: Request, sha: string, seen: Evidence)
    requires Sound(s) && PhaseOf(s, c) == Idle && WellFormed(r)
    ensures var t := RecoverFine(s, c, r, sha, seen);
            if r.id in s.leases then SameStore(s, t) && PhaseOf(t, c) == Idle
            else if Ours(s, r) && Pending(s, r) then
              EndedWith(s, t, c, r.id, Some(OldAttempt(r, sha, seen)), 0, if ValidSha(sha) && seen == r.evidence then 0 else 1)
            else EndedWith(s, t, c, r.id, None, 0, 0)
  {
    hide Sound, Drive, ValidSha, ValidDigest, OldAttempt, Advance, WellFormed, Acceptable;
    var a := Answer(true, true, sha, seen);
    AcceptableIsWellFormed(r);
    var t := Do(s, CallRecover(c, r), true);
    DoSound(s, CallRecover(c, r));
    DriveOne(t, c, a, ENOUGH);
    RecoveryAcquires(t, c, r, a);
    var u := Advance(t, c, a, true);
    if r.id in s.leases {
      Returned(u, c, a, ENOUGH - 1);
    } else if Ours(s, r) && Pending(s, r) {
      RecoveringEnds(u, c, a, ENOUGH - 1);
    } else {
      DriveOne(u, c, a, ENOUGH - 1);
      RecoveryPasses(u, c, r, a);
      ReleasingEnds(Advance(u, c, a, true), c, a, ENOUGH - 2);
    }
  }
}
