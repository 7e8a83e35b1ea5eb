/** What stands between a commit and its record: the repository has not moved when the ref is
    made, and nothing is recorded that is not the candidate's, whoever wrote it. */
module CommitGuards {
  import opened Names
  import opened GitTransaction
  import TransactionCaller

  // ---------------------------------------------------------------- nothing is taken on trust

  /** The object is a commit of the candidate: its tree, its message and, unless it had none,
      its parent. */
  predicate IsCandidate(objects: map<string, CommitObject>, i: Intent, sha: string) {
    && (|sha| == 40 || |sha| == 64) && (forall k :: 0 <= k < |sha| ==> '0' <= sha[k] <= '9' || 'a' <= sha[k] <= 'f')
    && sha in objects
    && objects[sha].tree == i.tree && objects[sha].message == i.message && (i.parent == "" || objects[sha].parent == i.parent)
  }

  /** In any state whatever, after the ref was set or found: the commit is recorded next exactly
      when it has been looked up and is the candidate's; else it is left for reconciliation. */
  lemma OnlyTheCandidateIsRecorded(s: Sys, a: Answer)
    requires s.phase.Verifying? || s.phase.Proving?
    ensures var i, sha := s.phase.intent, s.phase.sha;
            Advance(s, a) ==
            s.(phase := if a.ok && IsCandidate(s.durable.objects, i, sha) then Recording(i, sha) else Reconciling(i.id))
  {
  }

  /** In any state whatever, before the ref is set: it is set next exactly when it is absent,
      or seen as absent. At this commit already, it is recorded; at another, it is left alone. */
  lemma RefIsNotOverwritten(s: Sys, a: Answer)
    requires s.phase.Inspecting?
    ensures var i, sha, d := s.phase.intent, s.phase.sha, s.durable;
            Advance(s, a) ==
            s.(phase := if !a.ok || i.ref !in d.refs || d.refs[i.ref] == "" then Pointing(i, sha)
                        else if d.refs[i.ref] == sha then Recording(i, sha) else Reconciling(i.id))
  {
  }

  lemma VerifiedIsCandidate(d: Durable, i: Intent, sha: string, a: Answer)
    requires a.ok
    ensures Verified(d, i, sha, a) <==> IsCandidate(d.objects, i, sha)
    ensures !IsCandidate(d.objects, i, "")
  {
  }

  /** Even where others have written the ref, the object or the record: an undisturbed recovery
      returns the ref's SHA exactly when its object is the candidate's and no other SHA is on
      record for it. */
  lemma RecoveryTrustsNobody(s: Sys, i: Intent)
    requires s.phase.Idle? && i.id in s.durable.intents && s.durable.intents[i.id] == i
    requires i.ref == "refs/autogit/commits/" + i.id && ValidSha(i.tree) && (i.parent == "" || ValidSha(i.parent))
    ensures var d, t := s.durable, RecoverFine(s, i.id);
            t.user == s.user && t.durable.refs == d.refs && t.durable.objects == d.objects && t.durable.intents == d.intents &&
            if i.ref in d.refs && IsCandidate(d.objects, i, d.refs[i.ref]) &&
               (i.id in d.recorded ==> d.recorded[i.id] == d.refs[i.ref])
            then t.phase == Idle(Some(d.refs[i.ref])) && t.durable.recorded == d.recorded[i.id := d.refs[i.ref]]
            else t.phase == Idle(None) && t.durable.recorded == d.recorded
  {
    hide Verified, IsCandidate;
    VerifiedIsCandidate(s.durable, i, "", FINE);
    var a := Do(s, CallRecover(i.id));
    var b, c := Fine(a), Fine(Fine(a));
    assert b == a.(phase := Finding(i));
    if i.ref !in s.durable.refs || s.durable.refs[i.ref] == "" {
      assert c == a.(phase := Reconciling(i.id));
      ReconcilingRests(c);
    } else {
      var sha := s.durable.refs[i.ref];
      assert c == a.(phase := Proving(i, sha));
      VerifiedIsCandidate(s.durable, i, sha, FINE);
      if Verified(s.durable, i, sha, FINE) {
        assert Fine(c) == a.(phase := Recording(i, sha));
      } else {
        assert Fine(c) == a.(phase := Reconciling(i.id));
      }
    }
  }

  lemma ReconcilingRests(s: Sys)
    requires s.phase.Reconciling?
    ensures Fine(Fine(s)) == Sys(s.user, BumpReconcile(s.durable, s.phase.id), REFUSED)
  {
    hide BumpReconcile;
  }

  // ---------------------------------------------------------------- the guard before the ref

  /** At this action the caller, its commit made, looked and found HEAD and index unmoved. */
  predicate Guarded(s: Sys, x: Action, ref: string, sha: string) {
    && x.Step? && x.answer.ok && s.phase.Guarding?
    && s.phase.intent.ref == ref && s.phase.sha == sha
    && (if x.answer.blind then "" else s.user.head) == s.phase.intent.parent && s.user.index == s.phase.index
  }

  /** The caller is past the guard for this ref and SHA, and has not set the ref yet. */
  predicate PastGuard(p: Phase, ref: string, sha: string) {
    (p.Inspecting? || p.Pointing?) && p.intent.ref == ref && p.sha == sha
  }

  lemma GuardIsPassed(s: Sys, x: Action, ref: string, sha: string)
    requires PastGuard(Do(s, x).phase, ref, sha) && !PastGuard(s.phase, ref, sha)
    ensures Guarded(s, x, ref, sha)
  {
    hide ValidSha, SameRequest, PreparedIntent, Addressable, ValidIntent, Verified, NewCommit, BumpReconcile, Own;
  }

  lemma {:induction false} PastGuardWasGuarded(s: Sys, xs: seq<Action>, ref: string, sha: string) returns (i: nat)
    requires Initial(s) && PastGuard(Run(s, xs).phase, ref, sha)
    ensures i < |xs| && Guarded(Run(s, xs[..i]), xs[i], ref, sha)
  {
    hide Do, Guarded;
    var m := |xs| - 1;
    if PastGuard(Run(s, xs[..m]).phase, ref, sha) {
      i := PastGuardWasGuarded(s, xs[..m], ref, sha);
      assert xs[..m][..i] == xs[..i];
    } else {
      GuardIsPassed(Run(s, xs[..m]), xs[m], ref, sha);
      i := m;
    }
  }

  lemma OthersKeepRefs(s: Sys, a: Answer)
    requires !s.phase.Pointing?
    ensures Advance(s, a).durable.refs == s.durable.refs
  {
    hide ValidSha, SameRequest, PreparedIntent, ValidIntent, Verified, NewCommit, Unchanged;
  }

  lemma PointingMakesOne(s: Sys, a: Answer, ref: string)
    requires s.phase.Pointing? && ref in Advance(s, a).durable.refs
    ensures (ref in s.durable.refs && s.durable.refs[ref] == Advance(s, a).durable.refs[ref]) ||
            PastGuard(s.phase, ref, Advance(s, a).durable.refs[ref])
  {
  }

  lemma RefComesFromGuard(s: Sys, x: Action, ref: string)
    requires ref in Do(s, x).durable.refs
    ensures (ref in s.durable.refs && s.durable.refs[ref] == Do(s, x).durable.refs[ref]) ||
            PastGuard(s.phase, ref, Do(s, x).durable.refs[ref])
  {
    hide Advance, Possible, Own, PastGuard;
    if x.Step? && s.phase.Pointing? && Possible(s, x) {
      PointingMakesOne(s, x.answer, ref);
    } else if x.Step? && !s.phase.Pointing? {
      OthersKeepRefs(s, x.answer);
    }
  }

  /** Whatever the schedule and the user's work between the steps: for every ref that was made,
      HEAD and index were found unmoved once more after its commit had been made. */
  lemma {:induction false} RefWasGuarded(s: Sys, xs: seq<Action>, ref: string) returns (i: nat)
    requires Initial(s) && ref in Run(s, xs).durable.refs
    ensures i < |xs| && Guarded(Run(s, xs[..i]), xs[i], ref, Run(s, xs).durable.refs[ref])
  {
    hide Do, Guarded, PastGuard;
    var m := |xs| - 1;
    var sha := Run(s, xs).durable.refs[ref];
    RefComesFromGuard(Run(s, xs[..m]), xs[m], ref);
    if PastGuard(Run(s, xs[..m]).phase, ref, sha) {
      i := PastGuardWasGuarded(s, xs[..m], ref, sha);
    } else {
      i := RefWasGuarded(s, xs[..m], ref);
    }
    assert xs[..m][..i] == xs[..i];
  }

  // ---------------------------------------------------------------- one undisturbed creation

  /** A call that prepares the candidate itself, whose ports all answer, the preparation with
      this tree; then as for a prepared candidate. */
  function CreateFine(s: Sys, r: Request, blind: bool, tree: string, sha: string, stamp: nat): Sys {
    var looked := Advance(s.(phase := Creating(r)), FINE);
    if looked.phase.Preparing?
    then Steps(Advance(looked, Answer(true, true, blind, tree, stamp)), blind, sha, stamp, 9)
    else Steps(looked, blind, sha, stamp, 9)
  }

  /** The candidate that a request prepares on this HEAD and tree. */
  function Candidate(s: Sys, r: Request, blind: bool, tree: string): Intent {
    Intent(r.id, r.root, "refs/autogit/commits/" + r.id, if blind then "" else s.user.head, tree, r.message,
           r.snapshot, r.policy, r.verifier, r.guard)
  }

  /** From any state earlier attempts and crashes can leave: a new id is the commit of the
      candidate that its request prepares. An id on file is refused for another request, with
      nothing changed, and recovered for the same. */
  lemma OneCreateSucceeds(s: Sys, r: Request, blind: bool, tree: string, sha: string, stamp: nat)
    requires Sound(s) && s.phase.Idle?
    ensures CreateFine(s, r, blind, tree, sha, stamp) ==
            if r.id !in s.durable.intents
            then CommitFine(s, Candidate(s, r, blind, tree), s.user.index, blind, sha, stamp)
            else if TransactionCaller.Differs(s.durable.intents[r.id], r) then s.(phase := REFUSED)
            else Recovered(s, r.id)
  {
    hide Steps, Sound, ValidSha;
    var t := s.(phase := Creating(r));
    var u := Advance(t, FINE);
    if r.id !in s.durable.intents {
      var i := Candidate(s, r, blind, tree);
      if !ValidIntent(i) {
        assert Advance(u, Answer(true, true, blind, tree, stamp)) == s.(phase := REFUSED);
        Rests(s.(phase := REFUSED), blind, sha, stamp, 9);
        StepOne(s.(phase := Committing(i, s.user.index)), blind, sha, stamp, 9);
        Rests(s.(phase := REFUSED), blind, sha, stamp, 8);
      }
    } else if TransactionCaller.Differs(s.durable.intents[r.id], r) {
      Rests(u, blind, sha, stamp, 9);
    } else {
      RecoveringSound(s, r.id);
      assert u == s.(phase := Recovering(r.id));
      RecoveringEnds(u, r.id, blind, sha, stamp, 9);
    }
  }

  lemma RecoveringSound(s: Sys, id: string)
    requires Sound(s)
    ensures Sound(s.(phase := Recovering(id)))
  {
    hide DurableSound;
  }
}
