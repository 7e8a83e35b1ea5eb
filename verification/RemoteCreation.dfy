/** Creating and attaching one hosted repository, as small steps over the durable job, the
    host and the local aliases. The destination's lease makes calls one at a time; a crash can
    come before every step. */
module RemoteCreation {
  import opened Names

  /** The destination all calls here are for: owner and name, its URL, and the spellings of a
      remote URL that name it. */
  datatype Target = Target(identity: string, url: string, spellings: set<string>)

  predicate Sensible(g: Target) {
    g.identity != "" && g.url in g.spellings
  }

  datatype Request = Request(id: string, alias: string, visibility: string)

  datatype Status = Requested | Created | Attached | Failed

  datatype Job = Job(alias: string, visibility: string, hosted: string, status: Status)

  /** Where the running call is. `Idle` holds what the last call returned. */
  datatype Phase =
    | Idle(reply: Option<string>)
    | Reading(request: Request)
    | PuttingNew(request: Request)
    | Binding(request: Request)
    | ConfirmingBound(request: Request)
    | Rereading(request: Request)
    | ConfirmingHosted(request: Request)
    | Adopting(request: Request)
    | Creating(request: Request)
    | MarkingCreated(request: Request)
    | AddingRemote(request: Request, hosted: string)
    | CheckingRemote(request: Request, hosted: string)
    | Attaching(request: Request, hosted: string)
    | MarkingFailed(request: Request, hosted: string)

  /** `duplicates` counts calls of hosted Create while the repository was already there. */
  datatype Sys = Sys(
    jobs: map<string, Job>, present: bool, aliases: map<string, string>, phase: Phase, duplicates: nat)

  /** How a port answered: success, or failure with its effect done or not; `text` is the
      identity hosted Create returned. */
  datatype Answer = Answer(ok: bool, effect: bool, text: string)

  datatype Action = Call(request: Request) | Step(answer: Answer) | Crash

  const REFUSED := Idle(None)

  function JobFor(r: Request, hosted: string, status: Status): Job {
    Job(r.alias, r.visibility, hosted, status)
  }

  /** The store takes no hosted identity but the destination's own, and no put that says
      something else about a job than what is on file. */
  predicate Accepts(s: Sys, g: Target, r: Request, hosted: string) {
    && (hosted == "" || hosted == g.identity)
    && (r.id in s.jobs ==>
          s.jobs[r.id].alias == r.alias && s.jobs[r.id].visibility == r.visibility &&
          (hosted == "" || s.jobs[r.id].hosted == "" || hosted == s.jobs[r.id].hosted))
  }

  /** A put without a hosted identity keeps the one on file. */
  function Put(s: Sys, g: Target, r: Request, hosted: string, status: Status, a: Answer): Sys {
    if (a.ok || a.effect) && Accepts(s, g, r, hosted)
    then s.(jobs := s.jobs[r.id := JobFor(r, if hosted == "" && r.id in s.jobs then s.jobs[r.id].hosted else hosted, status)])
    else s
  }

  /** Where a call goes on when its put succeeded. */
  function AfterPut(s: Sys, g: Target, r: Request, hosted: string, a: Answer, next: Phase): Phase {
    if a.ok && Accepts(s, g, r, hosted) then next else REFUSED
  }

  /** What the durable record says when the call starts. */
  function FirstLook(s: Sys, g: Target, r: Request): Phase {
    if r.id !in s.jobs then PuttingNew(r)
    else
      var j := s.jobs[r.id];
      if j.alias != r.alias || j.visibility != r.visibility then REFUSED
      else if (j.status == Created || j.status == Attached) && j.hosted == "" then REFUSED
      else if j.status == Attached then Idle(Some(g.identity))
      else if j.status == Failed then REFUSED
      else Binding(r)
  }

  function SecondLook(s: Sys, r: Request): Phase {
    if r.id !in s.jobs then REFUSED
    else if s.jobs[r.id].status == Requested then ConfirmingHosted(r)
    else if s.jobs[r.id].hosted == "" then Creating(r)
    else AddingRemote(r, s.jobs[r.id].hosted)
  }

  /** The host does not have the repository. */
  function Absent(s: Sys, r: Request): Phase {
    if r.id in s.jobs && s.jobs[r.id].hosted != "" then AddingRemote(r, s.jobs[r.id].hosted) else Creating(r)
  }

  /** Hosted Create: a repository appears unless the call failed without effect. */
  function CreateHosted(s: Sys, g: Target, r: Request, a: Answer): Sys {
    s.(present := s.present || a.ok || a.effect,
       duplicates := if s.present then s.duplicates + 1 else s.duplicates,
       phase := if !a.ok then MarkingFailed(r, "") else if a.text != g.identity then MarkingFailed(r, a.text) else MarkingCreated(r))
  }

  function AddAlias(s: Sys, g: Target, r: Request, a: Answer): map<string, string> {
    if r.alias !in s.aliases && (a.ok || a.effect) then s.aliases[r.alias := g.url] else s.aliases
  }

  function Bound(s: Sys, g: Target, alias: string): bool {
    alias in s.aliases && s.aliases[alias] in g.spellings
  }

  function Advance(s: Sys, g: Target, a: Answer): Sys {
    match s.phase
    case Idle(_) => s
    case Reading(r) => s.(phase := if a.ok then FirstLook(s, g, r) else REFUSED)
    case PuttingNew(r) => Put(s, g, r, "", Requested, a).(phase := AfterPut(s, g, r, "", a, Binding(r)))
    case Binding(r) =>
      s.(phase := if !a.ok then REFUSED
                  else if r.alias !in s.aliases then Rereading(r)
                  else if s.aliases[r.alias] in g.spellings then ConfirmingBound(r)
                  else MarkingFailed(r, ""))
    case ConfirmingBound(r) => s.(phase := if a.ok && s.present then Attaching(r, g.identity) else MarkingFailed(r, ""))
    case Rereading(r) => s.(phase := if a.ok then SecondLook(s, r) else REFUSED)
    case ConfirmingHosted(r) => s.(phase := if !a.ok then REFUSED else if s.present then Adopting(r) else Absent(s, r))
    case Adopting(r) =>
      Put(s, g, r, g.identity, Created, a).(phase := AfterPut(s, g, r, g.identity, a, AddingRemote(r, g.identity)))
    case Creating(r) => CreateHosted(s, g, r, a)
    case MarkingCreated(r) =>
      Put(s, g, r, g.identity, Created, a).(phase := AfterPut(s, g, r, g.identity, a, AddingRemote(r, g.identity)))
    case AddingRemote(r, hosted) =>
      s.(aliases := AddAlias(s, g, r, a), phase := if a.ok && r.alias !in s.aliases then CheckingRemote(r, hosted) else REFUSED)
    case CheckingRemote(r, hosted) => s.(phase := if a.ok && Bound(s, g, r.alias) then Attaching(r, hosted) else REFUSED)
    case Attaching(r, hosted) => Put(s, g, r, hosted, Attached, a).(phase := AfterPut(s, g, r, hosted, a, Idle(Some(g.identity))))
    case MarkingFailed(r, hosted) => Put(s, g, r, hosted, Failed, a).(phase := REFUSED)
  }

  function Do(s: Sys, g: Target, x: Action): Sys {
    match x
    case Call(r) => if s.phase.Idle? then s.(phase := Reading(r)) else s
    case Step(a) => Advance(s, g, a)
    case Crash => s.(phase := REFUSED)
  }

  function Run(s: Sys, g: Target, xs: seq<Action>): Sys {
    if xs == [] then s else Do(Run(s, g, xs[..|xs| - 1]), g, xs[|xs| - 1])
  }

  /** No jobs yet; the host and the aliases may hold anything. */
  predicate Initial(s: Sys) {
    s.jobs == map[] && s.phase == REFUSED && s.duplicates == 0
  }

  // ---------------------------------------------------------------- the invariant

  predicate JobSound(s: Sys, g: Target, j: Job) {
    && (j.hosted == "" || j.hosted == g.identity)
    && (j.status == Requested ==> j.hosted == "")
    && (j.status == Created || j.status == Attached ==> j.hosted == g.identity && s.present)
    && (j.status == Attached ==> Bound(s, g, j.alias))
  }

  /** The call is about a job that has not ended. */
  predicate Pursued(s: Sys, r: Request) {
    r.id in s.jobs && s.jobs[r.id].alias == r.alias && s.jobs[r.id].visibility == r.visibility &&
    (s.jobs[r.id].status == Requested || s.jobs[r.id].status == Created)
  }

  predicate PhaseSound(s: Sys, g: Target) {
    match s.phase
    case Idle(_) => true
    case Reading(_) => true
    case PuttingNew(r) => r.id !in s.jobs
    case ConfirmingBound(r) => Pursued(s, r) && Bound(s, g, r.alias)
    case ConfirmingHosted(r) => Pursued(s, r) && s.jobs[r.id].status == Requested
    case Creating(r) => Pursued(s, r) && !s.present
    case MarkingCreated(r) => Pursued(s, r) && s.present
    case Adopting(r) => Pursued(s, r) && s.present
    case AddingRemote(r, hosted) => Pursued(s, r) && s.present && hosted == g.identity
    case CheckingRemote(r, hosted) => Pursued(s, r) && s.present && hosted == g.identity
    case Attaching(r, hosted) => Pursued(s, r) && s.present && hosted == g.identity && Bound(s, g, r.alias)
    case _ => Pursued(s, s.phase.request)
  }

  ghost predicate Sound(s: Sys, g: Target) {
    && Sensible(g) && s.duplicates == 0
    && (forall id :: id in s.jobs ==> JobSound(s, g, s.jobs[id]))
    && PhaseSound(s, g)
  }

  /** What only grows: the hosted repository and the alias bindings. */
  predicate Later(s: Sys, t: Sys) {
    (s.present ==> t.present) && forall k :: k in s.aliases ==> k in t.aliases && t.aliases[k] == s.aliases[k]
  }

  lemma AdvanceGrows(s: Sys, g: Target, a: Answer)
    ensures Later(s, Advance(s, g, a))
  {
    hide FirstLook, SecondLook;
  }

  /** Only the running call's own job is written, and only by these steps. */
  lemma OtherJobsStay(s: Sys, g: Target, a: Answer, id: string)
    requires s.phase.Idle? || s.phase.request.id != id
    ensures id in Advance(s, g, a).jobs <==> id in s.jobs
    ensures id in s.jobs ==> Advance(s, g, a).jobs[id] == s.jobs[id]
  {
    hide FirstLook, SecondLook;
  }

  lemma SoundJob(s: Sys, g: Target, id: string)
    requires Sound(s, g) && id in s.jobs
    ensures JobSound(s, g, s.jobs[id])
  {
    hide JobSound, PhaseSound;
  }

  lemma JobStaysSound(s: Sys, g: Target, t: Sys, j: Job)
    requires JobSound(s, g, j) && Later(s, t)
    ensures JobSound(t, g, j)
  {
  }

  lemma OwnJobSound(s: Sys, g: Target, a: Answer)
    requires Sound(s, g) && !s.phase.Idle?
    ensures var t, id := Advance(s, g, a), s.phase.request.id; id in t.jobs ==> JobSound(t, g, t.jobs[id])
  {
    hide Sound, FirstLook, SecondLook, Sensible;
    SoundPhase(s, g);
    AdvanceGrows(s, g, a);
    var id := s.phase.request.id;
    if id in s.jobs {
      SoundJob(s, g, id);
      JobStaysSound(s, g, Advance(s, g, a), s.jobs[id]);
    }
  }

  lemma SoundPhase(s: Sys, g: Target)
    requires Sound(s, g)
    ensures PhaseSound(s, g) && s.duplicates == 0 && Sensible(g)
  {
    hide JobSound, PhaseSound;
  }

  lemma NextPhaseSound(s: Sys, g: Target, a: Answer)
    requires Sound(s, g)
    ensures PhaseSound(Advance(s, g, a), g) && Advance(s, g, a).duplicates == 0
  {
    hide Sound;
    SoundPhase(s, g);
    if !s.phase.Idle? && s.phase.request.id in s.jobs {
      SoundJob(s, g, s.phase.request.id);
    }
  }

  lemma DoSound(s: Sys, g: Target, x: Action)
    requires Sound(s, g)
    ensures Sound(Do(s, g, x), g)
  {
    hide JobSound, PhaseSound, Advance;
    match x
    case Call(r) => CallSound(s, g, r);
    case Crash => CrashSound(s, g);
    case Step(a) =>
      var t := Advance(s, g, a);
      NextPhaseSound(s, g, a);
      forall id | id in t.jobs ensures JobSound(t, g, t.jobs[id]) {
        if s.phase.Idle? || s.phase.request.id != id {
          OtherJobsStay(s, g, a, id);
          AdvanceGrows(s, g, a);
          JobStaysSound(s, g, t, s.jobs[id]);
        } else {
          OwnJobSound(s, g, a);
        }
      }
  }

  lemma CallSound(s: Sys, g: Target, r: Request)
    requires Sound(s, g)
    ensures Sound(Do(s, g, Call(r)), g)
  {
  }

  lemma CrashSound(s: Sys, g: Target)
    requires Sound(s, g)
    ensures Sound(Do(s, g, Crash), g)
  {
  }

  lemma {:induction false} RunSound(s: Sys, g: Target, xs: seq<Action>)
    requires Initial(s) && Sensible(g)
    ensures Sound(Run(s, g, xs), g)
  {
    hide Do;
    if xs != [] {
      RunSound(s, g, xs[..|xs| - 1]);
      DoSound(Run(s, g, xs[..|xs| - 1]), g, xs[|xs| - 1]);
    }
  }

  // ---------------------------------------------------------------- what it means

  /** Whatever crashed before, hosted Create is never called on a repository that is there. */
  lemma NoDuplicateCreate(s: Sys, g: Target, xs: seq<Action>)
    requires Initial(s) && Sensible(g)
    ensures Run(s, g, xs).duplicates == 0
  {
    hide Run, Sound;
    RunSound(s, g, xs);
    SoundPhase(Run(s, g, xs), g);
  }

  /** Attached means the repository is hosted and the alias is bound to it. */
  lemma AttachedIsBound(s: Sys, g: Target, xs: seq<Action>, id: string)
    requires Initial(s) && Sensible(g) && id in Run(s, g, xs).jobs && Run(s, g, xs).jobs[id].status == Attached
    ensures var t := Run(s, g, xs); t.present && Bound(t, g, t.jobs[id].alias) && t.jobs[id].hosted == g.identity
  {
    hide Run, Sound, Bound;
    RunSound(s, g, xs);
    SoundJob(Run(s, g, xs), g, id);
  }

  /** Attached and failed jobs never change again. */
  lemma EndedIsAbsorbing(s: Sys, g: Target, x: Action, id: string)
    requires Sound(s, g) && id in s.jobs && (s.jobs[id].status == Attached || s.jobs[id].status == Failed)
    ensures id in Do(s, g, x).jobs && Do(s, g, x).jobs[id] == s.jobs[id]
  {
    hide Sound, JobSound, FirstLook, SecondLook, Bound;
    SoundPhase(s, g);
  }

  lemma {:induction false} EndedForGood(s: Sys, g: Target, xs: seq<Action>, n: nat, id: string)
    requires Initial(s) && Sensible(g) && n <= |xs| && id in Run(s, g, xs[..n]).jobs
    requires Run(s, g, xs[..n]).jobs[id].status in {Attached, Failed}
    ensures id in Run(s, g, xs).jobs && Run(s, g, xs).jobs[id] == Run(s, g, xs[..n]).jobs[id]
    decreases |xs|
  {
    hide Do, Sound;
    if n == |xs| {
      assert xs[..n] == xs;
    } else {
      var m := |xs| - 1;
      assert xs[..m][..n] == xs[..n];
      EndedForGood(s, g, xs[..m], n, id);
      RunSound(s, g, xs[..m]);
      EndedIsAbsorbing(Run(s, g, xs[..m]), g, xs[m], id);
    }
  }

  // ---------------------------------------------------------------- recovery

  /** Every port answers, and Create returns the identity asked for. */
  function Fine(s: Sys, g: Target): Sys {
    Advance(s, g, Answer(true, true, g.identity))
  }

  /** A crash-free call: steps until the call has returned. */
  function Drive(s: Sys, g: Target, fuel: nat): Sys
    decreases fuel
  {
    if s.phase.Idle? || fuel == 0 then s else Drive(Fine(s, g), g, fuel - 1)
  }

  /** More steps than any call takes. */
  const ENOUGH := 12

  /** One crash-free call from wherever earlier attempts stopped. */
  function Retry(s: Sys, g: Target, r: Request): Sys {
    Drive(s.(phase := Reading(r)), g, ENOUGH)
  }

  predicate EndsAttached(t: Sys, g: Target, id: string) {
    t.phase == Idle(Some(g.identity)) && id in t.jobs && t.jobs[id].status == Attached
  }

  /** Attached: the repository is there, the alias is bound to it, the job says so, and nothing
      else has changed. */
  function AttachedAs(s: Sys, g: Target, r: Request): Sys {
    Sys(s.jobs[r.id := Job(r.alias, r.visibility, g.identity, Attached)], true,
        if r.alias in s.aliases then s.aliases else s.aliases[r.alias := g.url],
        Idle(Some(g.identity)), s.duplicates)
  }

  /** Failed: the job says so, and nothing else has changed. */
  function FailedAs(s: Sys, g: Target, r: Request): Sys {
    var hosted := if r.id in s.jobs then s.jobs[r.id].hosted else "";
    Sys(s.jobs[r.id := Job(r.alias, r.visibility, hosted, Failed)], s.present, s.aliases, Idle(None), s.duplicates)
  }

  lemma DriveOne(s: Sys, g: Target, fuel: nat)
    requires Sound(s, g) && !s.phase.Idle? && fuel > 0
    ensures Sound(Fine(s, g), g) && Drive(s, g, fuel) == Drive(Fine(s, g), g, fuel - 1)
  {
    hide Sound, Advance;
    DoSound(s, g, Step(Answer(true, true, g.identity)));
  }

  /** What a put says when the call stands where it makes one. */
  function Claimed(g: Target, p: Phase): string {
    match p
    case Attaching(_, hosted) => hosted
    case MarkingFailed(_, hosted) => hosted
    case PuttingNew(_) => ""
    case _ => g.identity
  }

  /** The store never refuses a put of this code, but one of a wrong identity. */
  lemma PutIsAccepted(s: Sys, g: Target)
    requires Sound(s, g)
    requires s.phase.PuttingNew? || s.phase.Adopting? || s.phase.MarkingCreated? || s.phase.Attaching? || s.phase.MarkingFailed?
    ensures var said := Claimed(g, s.phase); Accepts(s, g, s.phase.request, said) <==> said == "" || said == g.identity
  {
    hide Sound;
    SoundPhase(s, g);
    if s.phase.request.id in s.jobs {
      SoundJob(s, g, s.phase.request.id);
    }
  }

  lemma AttachingEnds(s: Sys, g: Target, fuel: nat)
    requires Sound(s, g) && s.phase.Attaching? && fuel >= 1
    ensures Drive(s, g, fuel) == AttachedAs(s, g, s.phase.request)
  {
    hide Sound;
    SoundPhase(s, g);
    PutIsAccepted(s, g);
    DriveOne(s, g, fuel);
  }

  lemma AddingEnds(s: Sys, g: Target, fuel: nat)
    requires Sound(s, g) && s.phase.AddingRemote? && s.phase.request.alias !in s.aliases && fuel >= 3
    ensures Drive(s, g, fuel) == AttachedAs(s, g, s.phase.request)
  {
    hide Sound, Drive;
    var r := s.phase.request;
    SoundPhase(s, g);
    DriveOne(s, g, fuel);
    var t := Fine(s, g);
    assert Bound(t, g, r.alias);
    DriveOne(t, g, fuel - 1);
    AttachingEnds(Fine(t, g), g, fuel - 2);
  }

  /** From a job that exists and has not ended, with the alias still free. */
  lemma UnboundEnds(s: Sys, g: Target, fuel: nat)
    requires Sound(s, g) && s.phase.Rereading? && s.phase.request.alias !in s.aliases && fuel >= 7
    ensures Drive(s, g, fuel) == AttachedAs(s, g, s.phase.request)
  {
    hide Drive, Sound;
    var r := s.phase.request;
    SoundPhase(s, g);
    SoundJob(s, g, r.id);
    DriveOne(s, g, fuel);
    var t := Fine(s, g);
    if s.jobs[r.id].status == Created {
      AddingEnds(t, g, fuel - 1);
    } else {
      DriveOne(t, g, fuel - 1);
      var u := Fine(t, g);
      if s.present {
        PutIsAccepted(u, g);
        DriveOne(u, g, fuel - 2);
        AddingEnds(Fine(u, g), g, fuel - 3);
      } else {
        DriveOne(u, g, fuel - 2);
        var v := Fine(u, g);
        PutIsAccepted(v, g);
        DriveOne(v, g, fuel - 3);
        AddingEnds(Fine(v, g), g, fuel - 4);
      }
    }
  }

  /** The alias is free, or bound to the destination with the repository there. */
  predicate Attachable(s: Sys, g: Target, alias: string) {
    alias !in s.aliases || (s.aliases[alias] in g.spellings && s.present)
  }

  lemma BindingEnds(s: Sys, g: Target, fuel: nat)
    requires Sound(s, g) && s.phase.Binding? && fuel >= 9
    ensures var r := s.phase.request;
            Drive(s, g, fuel) == if Attachable(s, g, r.alias) then AttachedAs(s, g, r) else FailedAs(s, g, r)
  {
    hide Drive, Sound;
    var r := s.phase.request;
    DriveOne(s, g, fuel);
    var t := Fine(s, g);
    if r.alias !in s.aliases {
      UnboundEnds(t, g, fuel - 1);
    } else {
      if t.phase.MarkingFailed? {
        PutIsAccepted(t, g);
      }
      DriveOne(t, g, fuel - 1);
      var u := Fine(t, g);
      if s.aliases[r.alias] in g.spellings && s.present {
        AttachingEnds(u, g, fuel - 2);
      } else if s.aliases[r.alias] in g.spellings {
        PutIsAccepted(u, g);
        DriveOne(u, g, fuel - 2);
        Ended(Fine(u, g), g, fuel - 3);
      } else {
        Ended(u, g, fuel - 2);
      }
    }
  }

  lemma Ended(s: Sys, g: Target, fuel: nat)
    requires s.phase.Idle?
    ensures Drive(s, g, fuel) == s
  {
  }

  /** What one healthy call leaves. An id on file for another alias or visibility, and a failed
      or attached job, are left alone; only an attached one is answered. Else the job is attached
      when the alias is free, or bound to the repository and that is there, and fails when not. */
  function RetriedAs(s: Sys, g: Target, r: Request): Sys {
    if r.id in s.jobs && (s.jobs[r.id].alias != r.alias || s.jobs[r.id].visibility != r.visibility) then s.(phase := Idle(None))
    else if r.id in s.jobs && s.jobs[r.id].status == Attached then s.(phase := Idle(Some(g.identity)))
    else if r.id in s.jobs && s.jobs[r.id].status == Failed then s.(phase := Idle(None))
    else if r.alias !in s.aliases || (s.aliases[r.alias] in g.spellings && s.present) then AttachedAs(s, g, r)
    else FailedAs(s, g, r)
  }

  /** From any state earlier attempts can leave, one crash-free call, whatever it asks for. */
  lemma OneRetryEnds(s: Sys, g: Target, r: Request)
    requires Sound(s, g) && s.phase.Idle?
    ensures Retry(s, g, r) == RetriedAs(s, g, r)
  {
    hide Drive, Sound, Bound;
    var t := Do(s, g, Call(r));
    DoSound(s, g, Call(r));
    SoundPhase(s, g);
    DriveOne(t, g, ENOUGH);
    var u := Fine(t, g);
    if r.id !in s.jobs {
      PutIsAccepted(u, g);
      DriveOne(u, g, ENOUGH - 1);
      BindingEnds(Fine(u, g), g, ENOUGH - 2);
    } else {
      SoundJob(s, g, r.id);
      if u.phase.Idle? {
        Ended(u, g, ENOUGH - 1);
      } else {
        BindingEnds(u, g, ENOUGH - 1);
      }
    }
  }

  /** So of the same request as before it ends attached exactly when the job has not failed and
      the alias is free or rightly bound. */
  lemma OneRetryAttaches(s: Sys, g: Target, r: Request)
    requires Sound(s, g) && s.phase.Idle?
    requires r.id in s.jobs ==> s.jobs[r.id].alias == r.alias && s.jobs[r.id].visibility == r.visibility
    ensures EndsAttached(Retry(s, g, r), g, r.id) <==>
            if r.id in s.jobs && s.jobs[r.id].status == Attached then true
            else (r.id in s.jobs ==> s.jobs[r.id].status != Failed) && Attachable(s, g, r.alias)
  {
    hide Drive, Sound, Retry;
    OneRetryEnds(s, g, r);
  }

  /** Where no alias was bound to begin with, an alias is only ever bound to the repository
      this code has hosted, so only a failed job can keep a retry from attaching. */
  predicate Own(s: Sys, g: Target) {
    forall k :: k in s.aliases ==> s.aliases[k] == g.url && s.present
  }

  lemma {:induction false} AliasesAreOwn(s: Sys, g: Target, xs: seq<Action>)
    requires Initial(s) && Sensible(g) && s.aliases == map[]
    ensures Own(Run(s, g, xs), g)
  {
    hide Do;
    if xs != [] {
      var t := Run(s, g, xs[..|xs| - 1]);
      AliasesAreOwn(s, g, xs[..|xs| - 1]);
      RunSound(s, g, xs[..|xs| - 1]);
      OwnStays(t, g, xs[|xs| - 1]);
    }
  }

  lemma OwnStays(s: Sys, g: Target, x: Action)
    requires Sound(s, g) && Own(s, g)
    ensures Own(Do(s, g, x), g)
  {
    hide Sound, FirstLook, SecondLook, JobSound;
    SoundPhase(s, g);
  }

  lemma RetryAttachesUnlessFailed(s: Sys, g: Target, xs: seq<Action>, r: Request)
    requires Initial(s) && Sensible(g) && s.aliases == map[]
    requires var t := Run(s, g, xs);
             r.id in t.jobs ==> t.jobs[r.id].alias == r.alias && t.jobs[r.id].visibility == r.visibility
    ensures var t := Run(s, g, xs + [Crash]);
            EndsAttached(Retry(t, g, r), g, r.id) <==> (r.id in t.jobs ==> t.jobs[r.id].status != Failed)
  {
    hide Run, Sound, Retry, EndsAttached;
    var ys := xs + [Crash];
    LastStep(s, g, xs, Crash);
    RunSound(s, g, ys);
    AliasesAreOwn(s, g, ys);
    OneRetryAttaches(Run(s, g, ys), g, r);
  }

  lemma LastStep(s: Sys, g: Target, xs: seq<Action>, x: Action)
    ensures Run(s, g, xs + [x]) == Do(Run(s, g, xs), g, x)
  {
    hide Do;
    assert (xs + [x])[..|xs|] == xs;
  }

  // ---------------------------------------------------------------- a wrong identity from the host

  /** Hosted Create returns another identity: the repository is there, and the failure is recorded
      exactly when that identity is empty. Any other the store refuses, so the job stays open. */
  lemma WrongIdentityIsForgotten(s: Sys, g: Target, wrong: string)
    requires Sound(s, g) && s.phase.Creating? && wrong != g.identity
    ensures var a, id := Answer(true, true, wrong), s.phase.request.id;
            var t := Advance(Advance(s, g, a), g, a);
            id in s.jobs && t.phase == REFUSED && t.present && t.aliases == s.aliases &&
            t.jobs == if wrong == "" then s.jobs[id := s.jobs[id].(status := Failed)] else s.jobs
  {
    hide Sound;
    SoundPhase(s, g);
    SoundJob(s, g, s.phase.request.id);
    var a := Answer(true, true, wrong);
    var t := Advance(s, g, a);
    DoSound(s, g, Step(a));
    PutIsAccepted(t, g);
  }

  /** Such a run from the start: seven steps, every one of them answered. */
  function Misnamed(r: Request, wrong: string): seq<Action> {
    var x := Step(Answer(true, true, wrong));
    [Call(r), x, x, x, x, x, x, x]
  }

  lemma CreatingIsReached(s: Sys, g: Target, r: Request, wrong: string)
    requires Initial(s) && !s.present && r.alias !in s.aliases
    ensures Run(s, g, Misnamed(r, wrong)[..6]) == s.(jobs := map[r.id := JobFor(r, "", Requested)], phase := Creating(r))
  {
    hide Run, Advance;
    var xs, a := Misnamed(r, wrong), Answer(true, true, wrong);
    var jobs := map[r.id := JobFor(r, "", Requested)];
    NothingRun(s, g, xs);
    RunOne(s, g, xs, 0);
    RunOne(s, g, xs, 1);
    RunOne(s, g, xs, 2);
    RunOne(s, g, xs, 3);
    RunOne(s, g, xs, 4);
    RunOne(s, g, xs, 5);
    LooksAreMade(s, g, r, a);
  }

  lemma LooksAreMade(s: Sys, g: Target, r: Request, a: Answer)
    requires Initial(s) && !s.present && r.alias !in s.aliases && a.ok
    ensures var open := s.(jobs := map[r.id := JobFor(r, "", Requested)]);
            && Advance(s.(phase := Reading(r)), g, a) == s.(phase := PuttingNew(r))
            && Advance(s.(phase := PuttingNew(r)), g, a) == open.(phase := Binding(r))
            && Advance(open.(phase := Binding(r)), g, a) == open.(phase := Rereading(r))
            && Advance(open.(phase := Rereading(r)), g, a) == open.(phase := ConfirmingHosted(r))
            && Advance(open.(phase := ConfirmingHosted(r)), g, a) == open.(phase := Creating(r))
  {
  }

  /** After it the job is still requested, with the repository there, and the next healthy call
      of the same request attaches it. */
  lemma MisnamedThenAttached(s: Sys, g: Target, r: Request, wrong: string)
    requires Initial(s) && Sensible(g) && !s.present && r.alias !in s.aliases
    requires wrong != "" && wrong != g.identity
    ensures var t := Run(s, g, Misnamed(r, wrong));
            t.phase == REFUSED && t.present && r.id in t.jobs && t.jobs[r.id] == JobFor(r, "", Requested) &&
            EndsAttached(Retry(t, g, r), g, r.id)
  {
    hide Run, Sound, Advance, Retry, EndsAttached;
    var xs := Misnamed(r, wrong);
    CreatingIsReached(s, g, r, wrong);
    RunOne(s, g, xs, 6);
    RunOne(s, g, xs, 7);
    assert xs[..8] == xs;
    RunSound(s, g, xs[..6]);
    WrongIdentityIsForgotten(Run(s, g, xs[..6]), g, wrong);
    RunSound(s, g, xs);
    OneRetryAttaches(Run(s, g, xs), g, r);
  }

  lemma RunOne(s: Sys, g: Target, xs: seq<Action>, n: nat)
    requires n < |xs|
    ensures Run(s, g, xs[..n + 1]) == Do(Run(s, g, xs[..n]), g, xs[n])
  {
    hide Do;
    assert xs[..n + 1][..n] == xs[..n];
  }

  lemma NothingRun(s: Sys, g: Target, xs: seq<Action>)
    ensures Run(s, g, xs[..0]) == s
  {
  }
}
