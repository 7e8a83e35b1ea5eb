/** The commit transaction as small steps over the repository, the durable intents and one
    caller at a time, with a crash possible before every step and a user who goes on working. */
module GitTransaction {
  import opened Names

  /** The identity of one commit operation. Its message stands for its message digest. */
  datatype Intent = Intent(
    id: string, root: string, ref: string, parent: string, tree: string, message: string,
    snapshot: string, policy: string, verifier: string, guard: string)

  datatype Request = Request(
    id: string, root: string, message: string, snapshot: string, policy: string, verifier: string, guard: string)

  /** A commit object; the stamp is what two runs of commit-tree need not share. */
  datatype CommitObject = CommitObject(tree: string, parent: string, message: string, stamp: nat)

  /** What the user owns: the branch head, the index, and every ref outside the namespace. */
  datatype UserView = UserView(head: string, index: string, refs: map<string, string>)

  /** What only this code writes: intents, recorded SHAs, reconcile requests, its refs. `made`
      lists the intents of all commit-tree runs, whatever came of them. */
  datatype Durable = Durable(
    intents: map<string, Intent>, recorded: map<string, string>, reconciles: map<string, nat>,
    refs: map<string, string>, objects: map<string, CommitObject>, made: seq<string>)

  /** Where the one running call is. `Idle` holds what the last call returned. */
  datatype Phase =
    | Idle(reply: Option<string>)
    | Creating(request: Request)
    | Preparing(request: Request)
    | Committing(intent: Intent, index: string)
    | Checking(intent: Intent, index: string)
    | Putting(intent: Intent, index: string)
    | Making(intent: Intent, index: string)
    | Guarding(intent: Intent, index: string, sha: string)
    | Inspecting(intent: Intent, sha: string)
    | Pointing(intent: Intent, sha: string)
    | Verifying(intent: Intent, sha: string)
    | Recording(intent: Intent, sha: string)
    | Recovering(id: string)
    | Finding(intent: Intent)
    | Proving(intent: Intent, sha: string)
    | Reconciling(id: string)

  datatype Sys = Sys(user: UserView, durable: Durable, phase: Phase)

  const REFUSED := Idle(None)

  const NAMESPACE := "refs/autogit/commits/"

  function RefFor(id: string): string {
    NAMESPACE + id
  }

  lemma RefForInjective(a: string, b: string)
    requires RefFor(a) == RefFor(b)
    ensures a == b
  {
    assert RefFor(a)[|NAMESPACE|..] == a && RefFor(b)[|NAMESPACE|..] == b;
  }

  // ---------------------------------------------------------------- actions

  /** How a port answered: success, or failure with the effect done or not done. `text` is the
      output of commands that compute one, `stamp` the time commit-tree saw. `blind` says that
      looking HEAD up failed, which reads as a repository without commits. */
  datatype Answer = Answer(ok: bool, effect: bool, blind: bool, text: string, stamp: nat)

  datatype Action =
    | CallCreate(request: Request)
    | CallCommit(prepared: Intent, observedIndex: string)
    | CallRecover(id: string)
    | Crash
    | Step(answer: Answer)
    | UserHead(head: string)
    | UserIndex(index: string)
    | UserRef(ref: string, sha: string)
    | UserDropRef(ref: string)
    | UserObject(sha: string, content: CommitObject)

  // ---------------------------------------------------------------- the ports

  function BumpReconcile(d: Durable, id: string): Durable {
    d.(reconciles := d.reconciles[id := (if id in d.reconciles then d.reconciles[id] else 0) + 1])
  }

  /** `rev-parse` on HEAD: any failure of the command reads as an unborn branch. */
  function SeenHead(u: UserView, blind: bool): string {
    if blind then "" else u.head
  }

  /** HEAD, as it was looked up, and the index file are what they were when the candidate was
      prepared. */
  predicate Unchanged(u: UserView, i: Intent, index: string, blind: bool) {
    SeenHead(u, blind) == i.parent && u.index == index
  }

  /** `rev-parse` on the AutoGit ref: any failure of the command reads as an absent ref. */
  function SeenRef(d: Durable, i: Intent, a: Answer): string {
    if a.ok && i.ref in d.refs then d.refs[i.ref] else ""
  }

  predicate MatchesIntent(o: CommitObject, i: Intent) {
    o.tree == i.tree && (i.parent != "" ==> o.parent == i.parent) && o.message == i.message
  }

  /** `cat-file` on the commit and the comparison of its tree, parent and message. */
  predicate Verified(d: Durable, i: Intent, sha: string, a: Answer) {
    a.ok && ValidSha(sha) && sha in d.objects && MatchesIntent(d.objects[sha], i)
  }

  predicate SameRequest(i: Intent, r: Request) {
    i.snapshot == r.snapshot && i.message == r.message && i.policy == r.policy && i.verifier == r.verifier && i.guard == r.guard
  }

  function PreparedIntent(u: UserView, r: Request, a: Answer): Intent {
    Intent(r.id, r.root, RefFor(r.id), SeenHead(u, a.blind), a.text, r.message, r.snapshot, r.policy, r.verifier, r.guard)
  }

  /** What a well-formed prepared candidate looks like. */
  predicate ValidIntent(i: Intent) {
    i.ref == RefFor(i.id) && ValidSha(i.tree) && (i.parent == "" || ValidSha(i.parent))
  }

  function NewCommit(i: Intent, stamp: nat): CommitObject {
    CommitObject(i.tree, i.parent, i.message, stamp)
  }

  /** Objects are stored under the hash of their content: a name in use has this very content. */
  predicate Addressable(d: Durable, sha: string, o: CommitObject) {
    sha in d.objects ==> d.objects[sha] == o
  }

  // ---------------------------------------------------------------- one step of the running call

  /** `commit-tree`: the object appears unless the command failed without effect. */
  function MakeCommit(s: Sys, i: Intent, index: string, a: Answer): Sys {
    var o := NewCommit(i, a.stamp);
    var objects := if (a.ok || a.effect) && ValidSha(a.text) then s.durable.objects[a.text := o] else s.durable.objects;
    Sys(s.user, s.durable.(objects := objects, made := s.durable.made + [i.id]),
        if a.ok && ValidSha(a.text) then Guarding(i, index, a.text) else Reconciling(i.id))
  }

  /** `update-ref` with an empty old value: it creates the ref or fails because it exists. */
  function CreateRef(s: Sys, i: Intent, sha: string, a: Answer): Sys {
    if i.ref in s.durable.refs then s.(phase := Reconciling(i.id))
    else
      var d := if a.ok || a.effect then s.durable.(refs := s.durable.refs[i.ref := sha]) else s.durable;
      Sys(s.user, d, if a.ok then Verifying(i, sha) else Reconciling(i.id))
  }

  /** The store records a SHA only for an intent on file that has none, or that one. */
  predicate Recordable(d: Durable, id: string, sha: string) {
    id in d.intents && (id in d.recorded ==> d.recorded[id] == sha)
  }

  function Advance(s: Sys, a: Answer): Sys {
    var d := s.durable;
    match s.phase
    case Idle(_) => s
    case Creating(r) =>
      if !a.ok then s.(phase := REFUSED)
      else if r.id !in d.intents then s.(phase := Preparing(r))
      else if d.intents[r.id].root != r.root || !SameRequest(d.intents[r.id], r) then s.(phase := REFUSED)
      else s.(phase := Recovering(r.id))
    case Preparing(r) =>
      var i := PreparedIntent(s.user, r, a);
      s.(phase := if a.ok && ValidIntent(i) then Committing(i, s.user.index) else REFUSED)
    case Committing(i, index) =>
      s.(phase := if a.ok && ValidIntent(i) && Unchanged(s.user, i, index, a.blind) then Checking(i, index) else REFUSED)
    case Checking(i, index) =>
      if !a.ok then s.(phase := REFUSED)
      else if i.id !in d.intents then s.(phase := Putting(i, index))
      else s.(phase := if d.intents[i.id] == i then Recovering(i.id) else REFUSED)
    case Putting(i, index) =>
      if i.id in d.intents && d.intents[i.id] != i then s.(phase := REFUSED)
      else
        Sys(s.user, if a.ok || a.effect then d.(intents := d.intents[i.id := i]) else d, if a.ok then Making(i, index) else REFUSED)
    case Making(i, index) => MakeCommit(s, i, index, a)
    case Guarding(i, index, sha) =>
      s.(phase := if a.ok && Unchanged(s.user, i, index, a.blind) then Inspecting(i, sha) else Reconciling(i.id))
    case Inspecting(i, sha) =>
      var seen := SeenRef(d, i, a);
      s.(phase := if seen == "" then Pointing(i, sha) else if seen == sha then Recording(i, sha) else Reconciling(i.id))
    case Pointing(i, sha) => CreateRef(s, i, sha, a)
    case Verifying(i, sha) => s.(phase := if Verified(d, i, sha, a) then Recording(i, sha) else Reconciling(i.id))
    case Recording(i, sha) =>
      if !Recordable(d, i.id, sha) then s.(phase := REFUSED)
      else
        Sys(s.user, if a.ok || a.effect then d.(recorded := d.recorded[i.id := sha]) else d, if a.ok then Idle(Some(sha)) else REFUSED)
    case Recovering(id) =>
      s.(phase := if a.ok && id in d.intents && ValidIntent(d.intents[id]) then Finding(d.intents[id]) else REFUSED)
    case Finding(i) =>
      var sha := SeenRef(d, i, a);
      s.(phase := if sha == "" then Reconciling(i.id) else Proving(i, sha))
    case Proving(i, sha) => s.(phase := if Verified(d, i, sha, a) then Recording(i, sha) else Reconciling(i.id))
    case Reconciling(id) => Sys(s.user, if a.ok || a.effect then BumpReconcile(d, id) else d, REFUSED)
  }

  predicate Own(ref: string) {
    NAMESPACE <= ref
  }

  /** A commit-tree answer names its object by content. */
  predicate Possible(s: Sys, x: Action) {
    x.Step? && s.phase.Making? && ValidSha(x.answer.text) ==>
      Addressable(s.durable, x.answer.text, NewCommit(s.phase.intent, x.answer.stamp))
  }

  /** One action; one that cannot happen now changes nothing. */
  function Do(s: Sys, x: Action): Sys {
    if !Possible(s, x) then s
    else
      match x
      case CallCreate(r) => if s.phase.Idle? then s.(phase := Creating(r)) else s
      case CallCommit(i, index) => if s.phase.Idle? then s.(phase := Committing(i, index)) else s
      case CallRecover(id) => if s.phase.Idle? then s.(phase := Recovering(id)) else s
      case Crash => s.(phase := REFUSED)
      case Step(a) => Advance(s, a)
      case UserHead(h) => s.(user := s.user.(head := h))
      case UserIndex(i) => s.(user := s.user.(index := i))
      case UserRef(ref, sha) => if Own(ref) then s else s.(user := s.user.(refs := s.user.refs[ref := sha]))
      case UserDropRef(ref) => if Own(ref) then s else s.(user := s.user.(refs := s.user.refs - {ref}))
      case UserObject(sha, o) =>
        if sha in s.durable.objects then s else s.(durable := s.durable.(objects := s.durable.objects[sha := o]))
  }

  /** A repository this code has not touched: any head, index, refs and objects. */
  predicate Initial(s: Sys) {
    && s.phase == REFUSED
    && s.durable.intents == map[] && s.durable.recorded == map[] && s.durable.refs == map[] && s.durable.made == []
  }

  function Run(s: Sys, xs: seq<Action>): Sys {
    if xs == [] then s else Do(Run(s, xs[..|xs| - 1]), xs[|xs| - 1])
  }

  // ---------------------------------------------------------------- the invariant

  /** The object under `sha` has exactly the intent's tree, parent and message. */
  predicate Exact(d: Durable, sha: string, i: Intent) {
    && ValidSha(sha) && sha in d.objects
    && d.objects[sha].tree == i.tree && d.objects[sha].parent == i.parent && d.objects[sha].message == i.message
  }

  predicate Kept(d: Durable, i: Intent) {
    i.id in d.intents && d.intents[i.id] == i
  }

  predicate Points(d: Durable, i: Intent, sha: string) {
    i.ref in d.refs && d.refs[i.ref] == sha
  }

  /** Intents sit under their own ids and refs. */
  predicate IntentsSound(d: Durable) {
    forall id :: id in d.intents ==> d.intents[id].id == id && ValidIntent(d.intents[id])
  }

  /** Every AutoGit ref belongs to an intent, which made its commit, and names that commit. */
  predicate RefSound(d: Durable, ref: string)
    requires ref in d.refs
  {
    exists id :: id in d.intents && ref == RefFor(id) && id in d.made && Exact(d, d.refs[ref], d.intents[id])
  }

  ghost predicate DurableSound(d: Durable) {
    && IntentsSound(d)
    && (forall ref :: ref in d.refs ==> RefSound(d, ref))
    && (forall id :: id in d.recorded ==> id in d.intents && Points(d, d.intents[id], d.recorded[id]))
    && Distinct(d.made) && (forall id :: id in d.made ==> id in d.intents)
  }

  /** What the running call knows where it stands. */
  predicate PhaseSound(d: Durable, p: Phase) {
    match p
    case Checking(i, _) => ValidIntent(i)
    case Putting(i, _) => ValidIntent(i) && i.id !in d.intents
    case Making(i, _) => Kept(d, i) && i.id !in d.made
    case Guarding(i, _, sha) => Kept(d, i) && i.id in d.made && Exact(d, sha, i)
    case Inspecting(i, sha) => Kept(d, i) && i.id in d.made && Exact(d, sha, i)
    case Pointing(i, sha) => Kept(d, i) && i.id in d.made && Exact(d, sha, i)
    case Verifying(i, sha) => Kept(d, i) && Points(d, i, sha)
    case Recording(i, sha) => Kept(d, i) && Points(d, i, sha)
    case Finding(i) => Kept(d, i)
    case Proving(i, sha) => Kept(d, i) && Points(d, i, sha)
    case _ => true
  }

  ghost predicate Sound(s: Sys) {
    DurableSound(s.durable) && PhaseSound(s.durable, s.phase)
  }

  lemma RefSoundGrows(d: Durable, e: Durable, ref: string)
    requires ref in d.refs && RefSound(d, ref) && ref in e.refs && e.refs[ref] == d.refs[ref]
    requires forall id :: id in d.intents ==> id in e.intents && e.intents[id] == d.intents[id]
    requires forall sha :: sha in d.objects ==> sha in e.objects && e.objects[sha] == d.objects[sha]
    requires forall id :: id in d.made ==> id in e.made
    ensures RefSound(e, ref)
  {
    var id :| id in d.intents && ref == RefFor(id) && id in d.made && Exact(d, d.refs[ref], d.intents[id]);
    assert id in e.intents && ref == RefFor(id) && id in e.made && Exact(e, e.refs[ref], e.intents[id]);
  }

  lemma PutSound(s: Sys, a: Answer)
    requires Sound(s) && s.phase.Putting?
    ensures Sound(Advance(s, a))
  {
    hide ValidSha, RefSound;
    var e := Advance(s, a).durable;
    forall ref | ref in e.refs ensures RefSound(e, ref) {
      RefSoundGrows(s.durable, e, ref);
    }
  }

  lemma MakeSound(s: Sys, a: Answer)
    requires Sound(s) && s.phase.Making? && Possible(s, Step(a))
    ensures Sound(Advance(s, a))
  {
    hide ValidSha, RefSound;
    var e := Advance(s, a).durable;
    forall ref | ref in e.refs ensures RefSound(e, ref) {
      RefSoundGrows(s.durable, e, ref);
    }
  }

  lemma NewRefSound(d: Durable, i: Intent, sha: string)
    requires DurableSound(d) && i.ref !in d.refs && Kept(d, i) && i.id in d.made && Exact(d, sha, i)
    ensures DurableSound(d.(refs := d.refs[i.ref := sha]))
  {
    hide Exact, Distinct, ValidIntent;
    var e := d.(refs := d.refs[i.ref := sha]);
    assert ValidIntent(i);
    OwnRef(i);
    forall ref | ref in e.refs ensures RefSound(e, ref) {
      if ref != i.ref {
        assert RefSound(d, ref);
        RefSoundGrows(d, e, ref);
      } else {
        ExactKept(d, e, sha, i);
        assert i.id in e.intents && ref == RefFor(i.id) && i.id in e.made && Exact(e, e.refs[ref], e.intents[i.id]);
      }
    }
  }

  lemma OwnRef(i: Intent)
    requires ValidIntent(i)
    ensures i.ref == RefFor(i.id)
  {
  }

  lemma ExactKept(d: Durable, e: Durable, sha: string, i: Intent)
    requires Exact(d, sha, i) && e.objects == d.objects
    ensures Exact(e, sha, i)
  {
  }

  lemma PointSound(s: Sys, a: Answer)
    requires Sound(s) && s.phase.Pointing?
    ensures Sound(Advance(s, a))
  {
    hide DurableSound, Exact;
    if s.phase.intent.ref !in s.durable.refs {
      NewRefSound(s.durable, s.phase.intent, s.phase.sha);
    }
  }

  lemma NotesSound(d: Durable, e: Durable)
    requires DurableSound(d) && e.intents == d.intents && e.refs == d.refs && e.objects == d.objects && e.made == d.made
    requires forall id :: id in e.recorded ==> id in e.intents && Points(e, e.intents[id], e.recorded[id])
    ensures DurableSound(e)
  {
    hide Exact, Distinct, ValidIntent;
    forall ref | ref in e.refs ensures RefSound(e, ref) {
      assert RefSound(d, ref);
      RefSoundGrows(d, e, ref);
    }
  }

  lemma RecordSound(s: Sys, a: Answer)
    requires Sound(s) && (s.phase.Recording? || s.phase.Reconciling?)
    ensures Sound(Advance(s, a))
  {
    hide RefSound, Distinct, IntentsSound;
    NotesSound(s.durable, Advance(s, a).durable);
  }

  /** The steps that only read. */
  lemma ReadSound(s: Sys, a: Answer)
    requires Sound(s) && !s.phase.Putting? && !s.phase.Making? && !s.phase.Pointing?
    requires !s.phase.Recording? && !s.phase.Reconciling?
    ensures Sound(Advance(s, a)) && Advance(s, a).durable == s.durable
  {
    hide RefSound, Distinct, ValidIntent, Exact, SameRequest, Unchanged, MatchesIntent, PreparedIntent;
  }

  lemma ObjectSound(s: Sys, sha: string, o: CommitObject)
    requires Sound(s) && sha !in s.durable.objects
    ensures Sound(s.(durable := s.durable.(objects := s.durable.objects[sha := o])))
  {
    hide ValidSha, Distinct, ValidIntent;
    var e := s.durable.(objects := s.durable.objects[sha := o]);
    forall ref | ref in e.refs ensures RefSound(e, ref) {
      assert RefSound(s.durable, ref);
      RefSoundGrows(s.durable, e, ref);
    }
  }

  lemma DoSound(s: Sys, x: Action)
    requires Sound(s)
    ensures Sound(Do(s, x))
  {
    hide DurableSound, Advance;
    if x.Step? && Possible(s, x) {
      match s.phase
      case Putting(_, _) => PutSound(s, x.answer);
      case Making(_, _) => MakeSound(s, x.answer);
      case Pointing(_, _) => PointSound(s, x.answer);
      case Recording(_, _) => RecordSound(s, x.answer);
      case Reconciling(_) => RecordSound(s, x.answer);
      case _ => ReadSound(s, x.answer);
    } else if x.UserObject? && x.sha !in s.durable.objects {
      ObjectSound(s, x.sha, x.content);
    }
  }

  /** Crash safety: after any schedule of calls, answers, lost answers, crashes and user work,
      commit-tree has run at most once per intent, every AutoGit ref names a commit with
      exactly its intent's tree, parent and message, and every recorded SHA is its ref's target. */
  lemma {:induction false} RunSound(s: Sys, xs: seq<Action>)
    requires Initial(s)
    ensures Sound(Run(s, xs))
  {
    hide Do, Sound;
    if xs == [] {
      InitialSound(s);
    } else {
      RunSound(s, xs[..|xs| - 1]);
      DoSound(Run(s, xs[..|xs| - 1]), xs[|xs| - 1]);
    }
  }

  lemma InitialSound(s: Sys)
    requires Initial(s)
    ensures Sound(s)
  {
  }

  // ---------------------------------------------------------------- what it means

  function Count(xs: seq<string>, x: string): nat {
    multiset(xs)[x]
  }

  lemma CountOnce(xs: seq<string>, x: string)
    requires Distinct(xs)
    ensures Count(xs, x) <= 1
  {
    CountOfDistinct(xs, x);
  }

  /** However often a commit is retried, and wherever earlier attempts stopped, commit-tree
      runs for it at most once. */
  lemma CommitTreeAtMostOnce(s: Sys, xs: seq<Action>, id: string)
    requires Initial(s)
    ensures Count(Run(s, xs).durable.made, id) <= 1
  {
    hide Run, Distinct;
    RunSound(s, xs);
    SoundParts(Run(s, xs));
    CountOnce(Run(s, xs).durable.made, id);
  }

  lemma SoundParts(s: Sys)
    requires Sound(s)
    ensures Distinct(s.durable.made) && IntentsSound(s.durable)
    ensures forall id :: id in s.durable.recorded ==> id in s.durable.intents && Points(s.durable, s.durable.intents[id], s.durable.recorded[id])
    ensures forall ref :: ref in s.durable.refs ==> RefSound(s.durable, ref)
  {
    hide Distinct, IntentsSound, RefSound;
  }

  /** The ref of an intent is absent, or names a commit with exactly its tree, parent and message. */
  lemma RefIsAbsentOrExact(s: Sys, xs: seq<Action>, id: string)
    requires Initial(s) && id in Run(s, xs).durable.intents
    ensures var d := Run(s, xs).durable;
            RefFor(id) in d.refs ==> Exact(d, d.refs[RefFor(id)], d.intents[id])
    ensures var d := Run(s, xs).durable;
            id in d.recorded ==> RefFor(id) in d.refs && d.recorded[id] == d.refs[RefFor(id)]
  {
    hide Run, Exact, Sound, ValidSha, Distinct;
    RunSound(s, xs);
    SoundParts(Run(s, xs));
    var d := Run(s, xs).durable;
    if RefFor(id) in d.refs {
      assert RefSound(d, RefFor(id));
      var k :| k in d.intents && RefFor(id) == RefFor(k) && k in d.made && Exact(d, d.refs[RefFor(id)], d.intents[k]);
      RefForInjective(id, k);
    }
  }

  /** Once an AutoGit ref is there it never moves, nor is its intent ever replaced. */
  lemma RefNeverMoves(s: Sys, x: Action)
    requires Sound(s)
    ensures forall ref :: ref in s.durable.refs ==> ref in Do(s, x).durable.refs && Do(s, x).durable.refs[ref] == s.durable.refs[ref]
    ensures forall id :: id in s.durable.intents ==> id in Do(s, x).durable.intents && Do(s, x).durable.intents[id] == s.durable.intents[id]
  {
    hide DurableSound, ValidSha, SameRequest, Unchanged, MatchesIntent, PreparedIntent, Exact, Addressable, ValidIntent;
  }

  lemma {:induction false} RefNeverMovesLater(s: Sys, xs: seq<Action>, n: nat, ref: string)
    requires Initial(s) && n <= |xs| && ref in Run(s, xs[..n]).durable.refs
    ensures ref in Run(s, xs).durable.refs && Run(s, xs).durable.refs[ref] == Run(s, xs[..n]).durable.refs[ref]
    decreases |xs|
  {
    hide Do, Sound;
    if n == |xs| {
      assert xs[..n] == xs;
    } else {
      var m := |xs| - 1;
      assert xs[..m][..n] == xs[..n];
      RefNeverMovesLater(s, xs[..m], n, ref);
      RunSound(s, xs[..m]);
      RefNeverMoves(Run(s, xs[..m]), xs[m]);
    }
  }

  lemma {:induction false} IntentNeverLost(s: Sys, xs: seq<Action>, n: nat, id: string)
    requires Initial(s) && n <= |xs| && id in Run(s, xs[..n]).durable.intents
    ensures id in Run(s, xs).durable.intents && Run(s, xs).durable.intents[id] == Run(s, xs[..n]).durable.intents[id]
    decreases |xs|
  {
    hide Do, Sound;
    if n == |xs| {
      assert xs[..n] == xs;
    } else {
      var m := |xs| - 1;
      assert xs[..m][..n] == xs[..n];
      IntentNeverLost(s, xs[..m], n, id);
      RunSound(s, xs[..m]);
      RefNeverMoves(Run(s, xs[..m]), xs[m]);
    }
  }

  // ---------------------------------------------------------------- the user's repository

  function UserOnly(u: UserView, x: Action): UserView {
    match x
    case UserHead(h) => u.(head := h)
    case UserIndex(i) => u.(index := i)
    case UserRef(ref, sha) => if Own(ref) then u else u.(refs := u.refs[ref := sha])
    case UserDropRef(ref) => if Own(ref) then u else u.(refs := u.refs - {ref})
    case _ => u
  }

  function UserRun(u: UserView, xs: seq<Action>): UserView {
    if xs == [] then u else UserOnly(UserRun(u, xs[..|xs| - 1]), xs[|xs| - 1])
  }

  /** HEAD, the index and all other refs are only ever what the user made them: no step of this
      code touches them, whatever crashes. */
  lemma {:induction false} UserIsUntouched(s: Sys, xs: seq<Action>)
    ensures Run(s, xs).user == UserRun(s.user, xs)
  {
    if xs != [] {
      UserIsUntouched(s, xs[..|xs| - 1]);
      DoKeepsUser(Run(s, xs[..|xs| - 1]), xs[|xs| - 1]);
    }
  }

  lemma DoKeepsUser(s: Sys, x: Action)
    ensures Do(s, x).user == UserOnly(s.user, x)
  {
    hide ValidSha, SameRequest, Unchanged, MatchesIntent, PreparedIntent, Addressable, ValidIntent, Verified, Own;
  }

  // ---------------------------------------------------------------- replies and recovery

  /** A call returns a SHA only with the ref on it and the record made. */
  lemma ReplyIsTheRef(s: Sys, x: Action)
    requires Sound(s) && !s.phase.Idle? && Do(s, x).phase.Idle? && Do(s, x).phase.reply.Some?
    ensures var sha, d := Do(s, x).phase.reply.value, Do(s, x).durable;
            s.phase.Recording? && Points(d, s.phase.intent, sha) && Kept(d, s.phase.intent) &&
            s.phase.intent.id in d.recorded && d.recorded[s.phase.intent.id] == sha
  {
    hide DurableSound, ValidSha, SameRequest, Unchanged, MatchesIntent, PreparedIntent, Addressable, ValidIntent;
  }

  const FINE := Answer(true, true, false, "", 0)

  function Fine(s: Sys): Sys {
    Do(s, Step(FINE))
  }

  function RecoverFine(s: Sys, id: string): Sys {
    Fine(Fine(Fine(Fine(Do(s, CallRecover(id))))))
  }

  /** One more request for reconciliation of this id, nothing else. */
  function OneMoreReconcile(d: Durable, id: string): Durable {
    var before := if id in d.reconciles then d.reconciles[id] else 0;
    Durable(d.intents, d.recorded, d.reconciles[id := before + 1], d.refs, d.objects, d.made)
  }

  lemma RecoverPresent(s: Sys, i: Intent, sha: string)
    requires s.phase.Idle? && Kept(s.durable, i) && ValidIntent(i)
    requires Points(s.durable, i, sha) && sha != "" && Verified(s.durable, i, sha, FINE) && Recordable(s.durable, i.id, sha)
    ensures RecoverFine(s, i.id) == Sys(s.user, s.durable.(recorded := s.durable.recorded[i.id := sha]), Idle(Some(sha)))
  {
    hide Verified, ValidIntent;
    var a := Do(s, CallRecover(i.id));
    assert Fine(a) == a.(phase := Finding(i));
    assert Fine(Fine(a)) == a.(phase := Proving(i, sha));
    assert Fine(Fine(Fine(a))) == a.(phase := Recording(i, sha));
  }

  lemma RecoverAbsent(s: Sys, i: Intent)
    requires s.phase.Idle? && Kept(s.durable, i) && ValidIntent(i) && i.ref !in s.durable.refs
    ensures RecoverFine(s, i.id) == Sys(s.user, BumpReconcile(s.durable, i.id), REFUSED)
  {
    hide ValidIntent, BumpReconcile;
    var a := Do(s, CallRecover(i.id));
    assert Fine(a) == a.(phase := Finding(i));
    assert Fine(Fine(a)) == a.(phase := Reconciling(i.id));
    assert Fine(Fine(Fine(a))) == Sys(s.user, BumpReconcile(s.durable, i.id), REFUSED);
  }

  /** With every port answering, recovering an intent returns its ref's SHA exactly when the
      ref is there; otherwise it asks for reconciliation and creates nothing. */
  lemma RecoverFindsTheRef(s: Sys, id: string)
    requires Sound(s) && s.phase.Idle? && id in s.durable.intents
    ensures RecoverFine(s, id) ==
            if RefFor(id) in s.durable.refs
            then var sha := s.durable.refs[RefFor(id)];
                 Sys(s.user, s.durable.(recorded := s.durable.recorded[id := sha]), Idle(Some(sha)))
            else Sys(s.user, OneMoreReconcile(s.durable, id), REFUSED)
  {
    hide ValidSha, Distinct, DurableSound, Exact, RecoverFine, Verified, RefSound;
    var i := s.durable.intents[id];
    SoundParts(s);
    assert i.id == id && ValidIntent(i);
    OwnRef(i);
    if RefFor(id) in s.durable.refs {
      RefIsExact(s.durable, id);
      ExactIsVerified(s.durable, i, s.durable.refs[RefFor(id)], FINE);
      RecoverPresent(s, i, s.durable.refs[RefFor(id)]);
    } else {
      RecoverAbsent(s, i);
    }
  }

  lemma RefIsExact(d: Durable, id: string)
    requires IntentsSound(d) && id in d.intents && RefFor(id) in d.refs && RefSound(d, RefFor(id))
    ensures Exact(d, d.refs[RefFor(id)], d.intents[id]) && d.refs[RefFor(id)] != ""
  {
    hide ValidSha, Exact;
    var k :| k in d.intents && RefFor(id) == RefFor(k) && k in d.made && Exact(d, d.refs[RefFor(id)], d.intents[k]);
    RefForInjective(id, k);
    ExactIsNamed(d, d.refs[RefFor(id)], d.intents[id]);
  }

  lemma ExactIsNamed(d: Durable, sha: string, i: Intent)
    requires Exact(d, sha, i)
    ensures sha != ""
  {
  }

  lemma ExactIsVerified(d: Durable, i: Intent, sha: string, a: Answer)
    requires Exact(d, sha, i) && a.ok
    ensures Verified(d, i, sha, a)
  {
    hide ValidSha;
  }

  // ---------------------------------------------------------------- one undisturbed commit

  /** Every port answers, commit-tree with the object name `sha`; HEAD may be found or not. */
  function Answering(s: Sys, blind: bool, sha: string, stamp: nat): Sys {
    Advance(s, Answer(true, true, blind, sha, stamp))
  }

  function Steps(s: Sys, blind: bool, sha: string, stamp: nat, n: nat): Sys
    decreases n
  {
    if n == 0 then s else Steps(Answering(s, blind, sha, stamp), blind, sha, stamp, n - 1)
  }

  /** A call for a prepared candidate whose ports all answer while the user does nothing: nine
      steps, and no effect of further ones. */
  function CommitFine(s: Sys, i: Intent, index: string, blind: bool, sha: string, stamp: nat): Sys {
    Steps(s.(phase := Committing(i, index)), blind, sha, stamp, 9)
  }

  /** What commit-tree gives for the intent, under a name that is its own. */
  predicate NamesCommit(s: Sys, i: Intent, sha: string, stamp: nat) {
    ValidSha(sha) && Addressable(s.durable, sha, NewCommit(i, stamp))
  }

  lemma StepOne(s: Sys, blind: bool, sha: string, stamp: nat, n: nat)
    requires n > 0
    ensures Steps(s, blind, sha, stamp, n) == Steps(Answering(s, blind, sha, stamp), blind, sha, stamp, n - 1)
  {
    hide Answering;
  }

  lemma {:induction false} Rests(s: Sys, blind: bool, sha: string, stamp: nat, n: nat)
    requires s.phase.Idle?
    ensures Steps(s, blind, sha, stamp, n) == s
  {
    if n > 0 {
      Rests(s, blind, sha, stamp, n - 1);
    }
  }

  lemma RecordingEnds(s: Sys, blind: bool, sha: string, stamp: nat, n: nat)
    requires Sound(s) && s.phase.Recording? && n >= 1
    ensures Steps(s, blind, sha, stamp, n) ==
            Sys(s.user, s.durable.(recorded := s.durable.recorded[s.phase.intent.id := s.phase.sha]), Idle(Some(s.phase.sha)))
  {
    hide Steps, DurableSound, Exact;
    RecordableNow(s);
    StepOne(s, blind, sha, stamp, n);
    Rests(Answering(s, blind, sha, stamp), blind, sha, stamp, n - 1);
  }

  lemma RecordableNow(s: Sys)
    requires Sound(s) && s.phase.Recording?
    ensures Recordable(s.durable, s.phase.intent.id, s.phase.sha)
  {
    hide RefSound, Distinct, IntentsSound;
  }

  lemma ReconcilingEnds(s: Sys, blind: bool, sha: string, stamp: nat, n: nat)
    requires s.phase.Reconciling? && n >= 1
    ensures Steps(s, blind, sha, stamp, n) == Sys(s.user, OneMoreReconcile(s.durable, s.phase.id), REFUSED)
  {
    hide Steps;
    StepOne(s, blind, sha, stamp, n);
    Rests(Answering(s, blind, sha, stamp), blind, sha, stamp, n - 1);
  }

  /** What an undisturbed recovery leaves: the ref decides. */
  function Recovered(s: Sys, id: string): Sys {
    if RefFor(id) in s.durable.refs
    then var sha := s.durable.refs[RefFor(id)];
         Sys(s.user, s.durable.(recorded := s.durable.recorded[id := sha]), Idle(Some(sha)))
    else Sys(s.user, OneMoreReconcile(s.durable, id), REFUSED)
  }

  /** Recovery within the call. */
  lemma RecoveringEnds(s: Sys, id: string, blind: bool, sha: string, stamp: nat, n: nat)
    requires Sound(s) && s.phase == Recovering(id) && id in s.durable.intents && n >= 4
    ensures Steps(s, blind, sha, stamp, n) == Recovered(s, id)
  {
    hide Steps, Sound, DurableSound, Exact, ValidSha, Distinct, RefSound, Verified;
    SoundParts(s);
    var i := s.durable.intents[id];
    assert i.id == id && ValidIntent(i);
    OwnRef(i);
    ReadSound(s, Answer(true, true, blind, sha, stamp));
    StepOne(s, blind, sha, stamp, n);
    var t := Answering(s, blind, sha, stamp);
    assert t == s.(phase := Finding(i));
    ReadSound(t, Answer(true, true, blind, sha, stamp));
    StepOne(t, blind, sha, stamp, n - 1);
    var u := Answering(t, blind, sha, stamp);
    if RefFor(id) in s.durable.refs {
      RefIsExact(s.durable, id);
      ExactIsVerified(s.durable, i, s.durable.refs[RefFor(id)], Answer(true, true, blind, sha, stamp));
      ReadSound(u, Answer(true, true, blind, sha, stamp));
      StepOne(u, blind, sha, stamp, n - 2);
      RecordingEnds(Answering(u, blind, sha, stamp), blind, sha, stamp, n - 3);
    } else {
      ReconcilingEnds(u, blind, sha, stamp, n - 2);
    }
  }

  /** From the durable intent on. */
  lemma MakingEnds(s: Sys, blind: bool, sha: string, stamp: nat, n: nat)
    requires Sound(s) && s.phase.Making? && NamesCommit(s, s.phase.intent, sha, stamp) && n >= 6
    requires Unchanged(s.user, s.phase.intent, s.phase.index, blind) && s.phase.intent.ref !in s.durable.refs
    ensures var i, d := s.phase.intent, s.durable;
            Steps(s, blind, sha, stamp, n) ==
            Sys(s.user, d.(objects := d.objects[sha := CommitObject(i.tree, i.parent, i.message, stamp)], made := d.made + [i.id],
                           refs := d.refs[i.ref := sha], recorded := d.recorded[i.id := sha]),
                Idle(Some(sha)))
  {
    hide Steps, Sound, ValidSha, Unchanged, Verified;
    var a := Answer(true, true, blind, sha, stamp);
    var i := s.phase.intent;
    StepOne(s, blind, sha, stamp, n);
    DoSound(s, Step(a));
    var t := Answering(s, blind, sha, stamp);
    assert t.phase == Guarding(i, s.phase.index, sha);
    GuardingEnds(t, blind, sha, stamp, n - 1);
  }

  lemma GuardingEnds(s: Sys, blind: bool, sha: string, stamp: nat, n: nat)
    requires Sound(s) && s.phase.Guarding? && s.phase.sha == sha && n >= 5
    requires Unchanged(s.user, s.phase.intent, s.phase.index, blind) && s.phase.intent.ref !in s.durable.refs
    ensures var i, d := s.phase.intent, s.durable;
            Steps(s, blind, sha, stamp, n) ==
            Sys(s.user, d.(refs := d.refs[i.ref := sha], recorded := d.recorded[i.id := sha]), Idle(Some(sha)))
  {
    hide Steps, Sound, ValidSha, Unchanged, Verified, Exact;
    var a := Answer(true, true, blind, sha, stamp);
    var i := s.phase.intent;
    GuardKnows(s);
    StepOne(s, blind, sha, stamp, n);
    DoSound(s, Step(a));
    var t := Answering(s, blind, sha, stamp);
    assert t == s.(phase := Inspecting(i, sha));
    StepOne(t, blind, sha, stamp, n - 1);
    DoSound(t, Step(a));
    var u := Answering(t, blind, sha, stamp);
    assert u == s.(phase := Pointing(i, sha));
    StepOne(u, blind, sha, stamp, n - 2);
    DoSound(u, Step(a));
    var v := Answering(u, blind, sha, stamp);
    assert v.phase == Verifying(i, sha) && v.durable.objects == s.durable.objects;
    ExactKept(s.durable, v.durable, sha, i);
    ExactIsVerified(v.durable, i, sha, a);
    StepOne(v, blind, sha, stamp, n - 3);
    DoSound(v, Step(a));
    RecordingEnds(Answering(v, blind, sha, stamp), blind, sha, stamp, n - 4);
  }

  lemma GuardKnows(s: Sys)
    requires Sound(s) && s.phase.Guarding?
    ensures Exact(s.durable, s.phase.sha, s.phase.intent) && ValidSha(s.phase.sha) && s.phase.sha != ""
  {
    hide DurableSound;
  }

  /** The candidate is well-formed, and HEAD, as looked up, and index are what they were. */
  predicate Timely(s: Sys, i: Intent, index: string, blind: bool) {
    && i.ref == "refs/autogit/commits/" + i.id && ValidSha(i.tree) && (i.parent == "" || ValidSha(i.parent))
    && (if blind then "" else s.user.head) == i.parent && s.user.index == index
  }

  /** What a first commit of the candidate leaves: its intent, its commit, its ref, its record. */
  function Committed(s: Sys, i: Intent, sha: string, stamp: nat): Sys {
    var d := s.durable;
    Sys(s.user,
        Durable(d.intents[i.id := i], d.recorded[i.id := sha], d.reconciles, d.refs[i.ref := sha],
                d.objects[sha := CommitObject(i.tree, i.parent, i.message, stamp)], d.made + [i.id]),
        Idle(Some(sha)))
  }

  /** From any state earlier attempts and crashes can leave, one commit of a prepared candidate
      whose ports all answer. When the candidate is malformed or the repository has moved on,
      or its id is on file for another one, it is refused and nothing changes. The first time it
      makes one commit and returns its SHA. When it was tried before, it makes none: it records
      and returns what the ref names, or asks for reconciliation when there is no ref. */
  lemma OneCommitSucceeds(s: Sys, i: Intent, index: string, blind: bool, sha: string, stamp: nat)
    requires Sound(s) && s.phase.Idle? && NamesCommit(s, i, sha, stamp)
    ensures CommitFine(s, i, index, blind, sha, stamp) ==
            if !Timely(s, i, index, blind) then s.(phase := REFUSED)
            else if i.id !in s.durable.intents then Committed(s, i, sha, stamp)
            else if s.durable.intents[i.id] != i then s.(phase := REFUSED)
            else Recovered(s, i.id)
  {
    hide Steps, Sound, ValidSha, Addressable;
    var a := Answer(true, true, blind, sha, stamp);
    var r := s.(phase := Committing(i, index));
    DoSound(s, CallCommit(i, index));
    StepOne(r, blind, sha, stamp, 9);
    DoSound(r, Step(a));
    var t := Answering(r, blind, sha, stamp);
    if !Timely(s, i, index, blind) {
      Rests(t, blind, sha, stamp, 8);
    } else {
      CheckingEnds(t, blind, sha, stamp);
    }
  }

  lemma CheckingEnds(s: Sys, blind: bool, sha: string, stamp: nat)
    requires Sound(s) && s.phase.Checking? && NamesCommit(s, s.phase.intent, sha, stamp)
    requires Unchanged(s.user, s.phase.intent, s.phase.index, blind)
    ensures var i := s.phase.intent;
            Steps(s, blind, sha, stamp, 8) ==
            if i.id !in s.durable.intents then Committed(s, i, sha, stamp)
            else if s.durable.intents[i.id] != i then s.(phase := REFUSED)
            else Recovered(s, i.id)
  {
    hide Steps, Sound, ValidSha, Unchanged, Addressable;
    var a := Answer(true, true, blind, sha, stamp);
    var i := s.phase.intent;
    CheckKnows(s);
    StepOne(s, blind, sha, stamp, 8);
    DoSound(s, Step(a));
    var t := Answering(s, blind, sha, stamp);
    if i.id in s.durable.intents {
      if s.durable.intents[i.id] == i {
        RecoveringEnds(t, i.id, blind, sha, stamp, 7);
      } else {
        Rests(t, blind, sha, stamp, 7);
      }
    } else {
      StepOne(t, blind, sha, stamp, 7);
      DoSound(t, Step(a));
      var u := Answering(t, blind, sha, stamp);
      SameName(s, u, i, sha, stamp);
      MakingEnds(u, blind, sha, stamp, 6);
    }
  }

  lemma SameName(s: Sys, t: Sys, i: Intent, sha: string, stamp: nat)
    requires NamesCommit(s, i, sha, stamp) && t.durable.objects == s.durable.objects
    ensures NamesCommit(t, i, sha, stamp)
  {
    hide ValidSha;
  }

  /** A ref without an intent is no ref of this code's. */
  lemma CheckKnows(s: Sys)
    requires Sound(s) && s.phase.Checking?
    ensures s.phase.intent.ref == RefFor(s.phase.intent.id)
    ensures s.phase.intent.id !in s.durable.intents ==> s.phase.intent.ref !in s.durable.refs
  {
    hide Distinct, Exact, ValidSha;
    var i := s.phase.intent;
    if i.ref in s.durable.refs {
      assert RefSound(s.durable, i.ref);
      var k :| k in s.durable.intents && i.ref == RefFor(k) && k in s.durable.made && Exact(s.durable, s.durable.refs[i.ref], s.durable.intents[k]);
      RefForInjective(i.id, k);
    }
  }

  // ---------------------------------------------------------------- abandoned intents

  /** A call that could still create or record the ref of `id`. */
  predicate Engaged(p: Phase, id: string) {
    match p
    case Making(i, _) => i.id == id
    case Guarding(i, _, _) => i.id == id
    case Inspecting(i, _) => i.id == id
    case Pointing(i, _) => i.id == id
    case Verifying(i, _) => i.id == id
    case Recording(i, _) => i.id == id
    case Proving(i, _) => i.id == id
    case _ => false
  }

  /** A durable intent without its ref, and no call under way that could still create it. */
  predicate Abandoned(s: Sys, id: string) {
    id in s.durable.intents && RefFor(id) !in s.durable.refs && !Engaged(s.phase, id)
  }

  lemma OtherRef(s: Sys, a: Answer, id: string)
    requires Sound(s) && Abandoned(s, id)
    ensures RefFor(id) !in Advance(s, a).durable.refs
  {
    hide ValidSha, SameRequest, Unchanged, MatchesIntent, PreparedIntent, DurableSound, Exact;
    if s.phase.Pointing? {
      var i := s.phase.intent;
      SoundIntents(s);
      assert i.ref == RefFor(i.id);
      if i.ref == RefFor(id) {
        RefForInjective(i.id, id);
      }
    }
  }

  lemma SoundIntents(s: Sys)
    requires Sound(s)
    ensures IntentsSound(s.durable)
  {
    hide Distinct, RefSound, Points, IntentsSound;
  }

  lemma NotEngaged(s: Sys, a: Answer, id: string)
    requires Sound(s) && Abandoned(s, id)
    ensures !Engaged(Advance(s, a).phase, id)
  {
    hide ValidSha, SameRequest, Unchanged, MatchesIntent, PreparedIntent, DurableSound, Exact, Verified, NewCommit;
    SoundIntents(s);
  }

  lemma AbandonedStays(s: Sys, x: Action, id: string)
    requires Sound(s) && Abandoned(s, id)
    ensures Abandoned(Do(s, x), id)
  {
    hide Sound, Advance, Possible;
    RefNeverMoves(s, x);
    if x.Step? {
      OtherRef(s, x.answer, id);
      NotEngaged(s, x.answer, id);
    }
  }

  /** An attempt that stopped between the durable intent and the ref is never finished by a
      retry: no later history creates that ref, and recovering it can only ask to reconcile. */
  lemma {:induction false} AbandonedForGood(s: Sys, xs: seq<Action>, id: string)
    requires Sound(s) && Abandoned(s, id)
    ensures Sound(Run(s, xs)) && Abandoned(Run(s, xs), id)
  {
    hide Do, Sound, Abandoned;
    if xs != [] {
      AbandonedForGood(s, xs[..|xs| - 1], id);
      DoSound(Run(s, xs[..|xs| - 1]), xs[|xs| - 1]);
      AbandonedStays(Run(s, xs[..|xs| - 1]), xs[|xs| - 1], id);
    }
  }

  function StopsEarly(i: Intent, index: string): seq<Action> {
    [CallCommit(i, index), Step(FINE), Step(FINE), Step(FINE), Crash]
  }

  lemma IntentIsPut(s: Sys, i: Intent, index: string)
    requires Initial(s) && ValidIntent(i) && Unchanged(s.user, i, index, false)
    ensures Run(s, StopsEarly(i, index)[..4]) == Sys(s.user, s.durable.(intents := map[i.id := i]), Making(i, index))
  {
    hide Run, ValidIntent, Unchanged;
    var xs := StopsEarly(i, index);
    NothingRun(s, xs);
    RunOne(s, xs, 0);
    assert Run(s, xs[..1]) == s.(phase := Committing(i, index));
    RunOne(s, xs, 1);
    assert Run(s, xs[..2]) == s.(phase := Checking(i, index));
    RunOne(s, xs, 2);
    assert Run(s, xs[..3]) == s.(phase := Putting(i, index));
    RunOne(s, xs, 3);
  }

  /** And such an attempt is easily had: a crash right after the durable intent leaves one. */
  lemma AbandonedHappens(s: Sys, i: Intent, index: string)
    requires Initial(s) && ValidIntent(i) && Unchanged(s.user, i, index, false)
    ensures Abandoned(Run(s, StopsEarly(i, index)), i.id)
  {
    hide Run, ValidIntent, Unchanged;
    var xs := StopsEarly(i, index);
    IntentIsPut(s, i, index);
    RunOne(s, xs, 4);
    assert xs[..5] == xs;
  }

  lemma RunOne(s: Sys, xs: seq<Action>, n: nat)
    requires n < |xs|
    ensures Run(s, xs[..n + 1]) == Do(Run(s, xs[..n]), xs[n])
  {
    hide Do;
    assert xs[..n + 1][..n] == xs[..n];
  }

  lemma NothingRun(s: Sys, xs: seq<Action>)
    ensures Run(s, xs[..0]) == s
  {
  }
}
