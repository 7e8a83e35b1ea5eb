/** Which requested paths a candidate may own, from full observations or from source-free
    fingerprints of the baseline. */
module Staging {
  import opened Names

  /** A captured file; a missing content is Go's nil. */
  datatype ObservedFile = ObservedFile(content: Option<string>, mode: nat, present: bool, symlink: bool)

  /** What a map lookup yields for a path that was not observed. */
  const NO_FILE := ObservedFile(None, 0, false, false)

  datatype Fingerprint = Fingerprint(contentDigest: string, mode: nat, present: bool, symlink: bool)

  datatype SnapshotEntry = SnapshotEntry(path: string, content: string, mode: nat, delete: bool)

  datatype Change = Change(path: string, operation: string, content: string)

  datatype Plan = Plan(paths: seq<string>, changes: seq<Change>, candidate: seq<SnapshotEntry>, digest: string)

  /** What the planner is given besides observations: the path check and the hash functions. */
  datatype Tools = Tools(safe: string -> bool, digest: string -> string, planDigest: seq<SnapshotEntry> -> string)

  function Bytes(f: ObservedFile): string {
    if f.content.Some? then f.content.value else ""
  }

  /** One of the three execute bits of a Unix mode. */
  predicate Executable(mode: nat) {
    mode % 2 == 1 || (mode / 8) % 2 == 1 || (mode / 64) % 2 == 1
  }

  /** 0644 or 0755. */
  function NormalizedMode(mode: nat): nat {
    if mode == 0 || !Executable(mode) then 420 else 493
  }

  predicate ObservedPresent(f: ObservedFile) {
    f.present || f.mode != 0 || f.content != None || f.symlink
  }

  predicate SameObservation(a: ObservedFile, b: ObservedFile) {
    a.symlink == b.symlink && NormalizedMode(a.mode) == NormalizedMode(b.mode) && Bytes(a) == Bytes(b)
  }

  predicate SameFingerprint(t: Tools, a: Fingerprint, now: ObservedFile) {
    if !a.present || !ObservedPresent(now) || a.symlink != now.symlink || NormalizedMode(a.mode) != NormalizedMode(now.mode)
    then !a.present && !ObservedPresent(now)
    else a.symlink || a.contentDigest == t.digest(Bytes(now))
  }

  // ---------------------------------------------------------------- the decision about one path

  datatype Decision = Ambiguous | Unowned | Owned(entry: SnapshotEntry)

  /** Where the baseline comes from. */
  datatype Source =
    | Observed(baseline: map<string, ObservedFile>, current: map<string, ObservedFile>)
    | Printed(prints: map<string, Fingerprint>, current: map<string, ObservedFile>, tracked: set<string>)

  function Look(files: map<string, ObservedFile>, name: string): ObservedFile {
    if name in files then files[name] else NO_FILE
  }

  function Added(name: string, now: ObservedFile): SnapshotEntry {
    SnapshotEntry(name, Bytes(now), NormalizedMode(now.mode), false)
  }

  function Deleted(name: string): SnapshotEntry {
    SnapshotEntry(name, "", 0, true)
  }

  function DecideObserved(baseline: map<string, ObservedFile>, current: map<string, ObservedFile>, name: string): Decision {
    var was, now := Look(baseline, name), Look(current, name);
    var had := name in baseline && ObservedPresent(was);
    var found := name in current && ObservedPresent(now);
    if had then (if found && SameObservation(was, now) then Unowned else Ambiguous)
    else if !found then Unowned
    else if now.symlink then Ambiguous
    else Owned(Added(name, now))
  }

  function DecidePrinted(t: Tools, prints: map<string, Fingerprint>, current: map<string, ObservedFile>,
                         tracked: set<string>, name: string): Decision {
    var now := Look(current, name);
    var found := name in current && ObservedPresent(now);
    if name in prints && name in tracked then
      if !found then (if prints[name].present then Ambiguous else Unowned)
      else if prints[name].present && SameFingerprint(t, prints[name], now) then Unowned else Ambiguous
    else if name in prints && prints[name].present then
      if SameFingerprint(t, prints[name], now) then Unowned else Ambiguous
    else if !found then (if name in tracked then Owned(Deleted(name)) else Unowned)
    else if now.symlink then Ambiguous
    else Owned(Added(name, now))
  }

  function Decide(t: Tools, src: Source, name: string): (d: Decision)
    ensures d.Owned? ==> d.entry.path == name
  {
    match src
    case Observed(b, c) => DecideObserved(b, c, name)
    case Printed(p, c, tracked) => DecidePrinted(t, p, c, tracked, name)
  }

  // ---------------------------------------------------------------- the plan

  predicate Refuses(t: Tools, src: Source, name: string) {
    !t.safe(name) || Decide(t, src, name).Ambiguous?
  }

  function OwnedNames(t: Tools, src: Source, requested: seq<string>): set<string> {
    set n | n in requested && Decide(t, src, n).Owned?
  }

  function EntryOf(t: Tools, src: Source, name: string): SnapshotEntry {
    var d := Decide(t, src, name);
    if d.Owned? then d.entry else Deleted(name)
  }

  function ChangeOf(e: SnapshotEntry): Change {
    if e.delete then Change(e.path, "deleted", "") else Change(e.path, "added", e.content)
  }

  function Entries(t: Tools, src: Source, names: seq<string>): seq<SnapshotEntry> {
    if names == [] then [] else [EntryOf(t, src, names[0])] + Entries(t, src, names[1..])
  }

  function Changes(es: seq<SnapshotEntry>): seq<Change> {
    if es == [] then [] else [ChangeOf(es[0])] + Changes(es[1..])
  }

  function PlanOf(t: Tools, src: Source, names: seq<string>): Plan {
    var es := Entries(t, src, names);
    Plan(names, Changes(es), es, t.planDigest(es))
  }

  /** No plan when any requested path is unsafe or ambiguous; else the owned ones in order. */
  ghost function Derive(t: Tools, src: Source, requested: seq<string>): Option<Plan> {
    if exists n :: n in requested && Refuses(t, src, n) then None
    else Some(PlanOf(t, src, Ascending(OwnedNames(t, src, requested))))
  }

  // ---------------------------------------------------------------- sorting by path

  function InsertEntry(e: SnapshotEntry, es: seq<SnapshotEntry>): seq<SnapshotEntry> {
    if es == [] then [e] else if Leq(e.path, es[0].path) then [e] + es else [es[0]] + InsertEntry(e, es[1..])
  }

  function SortEntries(es: seq<SnapshotEntry>): seq<SnapshotEntry> {
    if es == [] then [] else InsertEntry(es[0], SortEntries(es[1..]))
  }

  function InsertChange(c: Change, cs: seq<Change>): seq<Change> {
    if cs == [] then [c] else if Leq(c.path, cs[0].path) then [c] + cs else [cs[0]] + InsertChange(c, cs[1..])
  }

  function SortChanges(cs: seq<Change>): seq<Change> {
    if cs == [] then [] else InsertChange(cs[0], SortChanges(cs[1..]))
  }

  lemma EntryPath(t: Tools, src: Source, name: string)
    ensures EntryOf(t, src, name).path == name
  {
  }

  lemma {:induction false} InsertEntryIs(t: Tools, src: Source, name: string, names: seq<string>)
    ensures InsertEntry(EntryOf(t, src, name), Entries(t, src, names)) == Entries(t, src, Insert(name, names))
  {
    hide EntryOf, Leq;
    EntryPath(t, src, name);
    if names != [] {
      EntryPath(t, src, names[0]);
      InsertEntryIs(t, src, name, names[1..]);
      assert Entries(t, src, names)[1..] == Entries(t, src, names[1..]);
    }
  }

  lemma {:induction false} SortEntriesIs(t: Tools, src: Source, names: seq<string>)
    ensures SortEntries(Entries(t, src, names)) == Entries(t, src, Sort(names))
  {
    hide EntryOf, Insert;
    if names != [] {
      SortEntriesIs(t, src, names[1..]);
      assert Entries(t, src, names)[1..] == Entries(t, src, names[1..]);
      InsertEntryIs(t, src, names[0], Sort(names[1..]));
    }
  }

  lemma {:induction false} InsertChangeIs(e: SnapshotEntry, es: seq<SnapshotEntry>)
    ensures InsertChange(ChangeOf(e), Changes(es)) == Changes(InsertEntry(e, es))
  {
    hide Leq;
    if es != [] {
      InsertChangeIs(e, es[1..]);
      assert Changes(es)[1..] == Changes(es[1..]);
    }
  }

  lemma {:induction false} SortChangesIs(es: seq<SnapshotEntry>)
    ensures SortChanges(Changes(es)) == Changes(SortEntries(es))
  {
    hide ChangeOf, InsertEntry, InsertChange;
    if es != [] {
      SortChangesIs(es[1..]);
      assert Changes(es)[1..] == Changes(es[1..]);
      InsertChangeIs(es[0], SortEntries(es[1..]));
    }
  }

  lemma {:induction false} EntriesSnoc(t: Tools, src: Source, names: seq<string>, name: string)
    ensures Entries(t, src, names + [name]) == Entries(t, src, names) + [EntryOf(t, src, name)]
  {
    hide EntryOf;
    if names != [] {
      assert (names + [name])[1..] == names[1..] + [name];
      EntriesSnoc(t, src, names[1..], name);
    }
  }

  lemma {:induction false} ChangesSnoc(es: seq<SnapshotEntry>, e: SnapshotEntry)
    ensures Changes(es + [e]) == Changes(es) + [ChangeOf(e)]
  {
    hide ChangeOf;
    if es != [] {
      assert (es + [e])[1..] == es[1..] + [e];
      ChangesSnoc(es[1..], e);
    }
  }

  /** `finalizePlan`: three sorts by path, then the digest of the candidate. */
  method FinalizePlan(paths: seq<string>, changes: seq<Change>, candidate: seq<SnapshotEntry>, t: Tools) returns (p: Plan)
    ensures p == Plan(Sort(paths), SortChanges(changes), SortEntries(candidate), t.planDigest(SortEntries(candidate)))
  {
    var sorted := SortEntries(candidate);
    p := Plan(Sort(paths), SortChanges(changes), sorted, t.planDigest(sorted));
  }

  /** What the loops have gathered after a prefix of the requested names. */
  ghost predicate Gathered(t: Tools, src: Source, past: seq<string>, paths: seq<string>, changes: seq<Change>, candidate: seq<SnapshotEntry>) {
    && Distinct(paths) && (forall n :: n in paths <==> n in OwnedNames(t, src, past))
    && (forall n :: n in past ==> !Refuses(t, src, n))
    && candidate == Entries(t, src, paths) && changes == Changes(candidate)
  }

  lemma GatheredSkip(t: Tools, src: Source, past: seq<string>, name: string,
                     paths: seq<string>, changes: seq<Change>, candidate: seq<SnapshotEntry>)
    requires Gathered(t, src, past, paths, changes, candidate)
    requires !Refuses(t, src, name) && (name in past || Decide(t, src, name).Unowned?)
    ensures Gathered(t, src, past + [name], paths, changes, candidate)
  {
    hide Decide, Refuses, Entries, Changes;
    forall n ensures n in paths <==> n in OwnedNames(t, src, past + [name]) {
      assert n in past + [name] <==> n in past || n == name;
    }
  }

  lemma GatheredAdd(t: Tools, src: Source, past: seq<string>, name: string,
                    paths: seq<string>, changes: seq<Change>, candidate: seq<SnapshotEntry>, e: SnapshotEntry)
    requires Gathered(t, src, past, paths, changes, candidate) && name !in past
    requires !Refuses(t, src, name) && Decide(t, src, name) == Owned(e)
    ensures Gathered(t, src, past + [name], paths + [name], changes + [ChangeOf(e)], candidate + [e])
  {
    hide Refuses, Entries, Changes, ChangeOf, DecideObserved, DecidePrinted;
    assert name !in OwnedNames(t, src, past);
    assert forall i :: 0 <= i < |paths| ==> paths[i] in paths;
    EntriesSnoc(t, src, paths, name);
    ChangesSnoc(candidate, e);
    forall n ensures n in paths + [name] <==> n in OwnedNames(t, src, past + [name]) {
      assert n in past + [name] <==> n in past || n == name;
    }
  }

  lemma GatheredAll(t: Tools, src: Source, requested: seq<string>, paths: seq<string>, changes: seq<Change>, candidate: seq<SnapshotEntry>)
    requires Gathered(t, src, requested, paths, changes, candidate)
    ensures Derive(t, src, requested) ==
            Some(Plan(Sort(paths), SortChanges(changes), SortEntries(candidate), t.planDigest(SortEntries(candidate))))
  {
    hide Refuses, Decide, Entries, Changes, SortChanges, SortEntries;
    SortIsAscending(paths);
    assert (set n | n in paths) == OwnedNames(t, src, requested);
    SortEntriesIs(t, src, paths);
    SortChangesIs(candidate);
  }

  method BuildObservedPlan(baseline: map<string, ObservedFile>, current: map<string, ObservedFile>,
                           requested: seq<string>, t: Tools) returns (p: Option<Plan>)
    ensures p == Derive(t, Observed(baseline, current), requested)
  {
    hide Gathered, Derive, NormalizedMode, SortChanges, SortEntries;
    ghost var src := Observed(baseline, current);
    var seen: set<string> := {};
    var paths: seq<string>, changes: seq<Change>, candidate: seq<SnapshotEntry> := [], [], [];
    NothingGathered(t, src);
    for i := 0 to |requested|
      invariant forall n :: n in seen <==> n in requested[..i]
      invariant Gathered(t, src, requested[..i], paths, changes, candidate)
    {
      var name := requested[i];
      assert requested[..i + 1] == requested[..i] + [name];
      if !t.safe(name) {
        Refused(t, src, requested, i);
        return None;
      }
      if name in seen {
        SeenIsFine(t, src, requested[..i], name, paths, changes, candidate);
        GatheredSkip(t, src, requested[..i], name, paths, changes, candidate);
        continue;
      }
      seen := seen + {name};
      var was, now := Look(baseline, name), Look(current, name);
      var had := name in baseline && ObservedPresent(was);
      var found := name in current && ObservedPresent(now);
      if had {
        if was.symlink != now.symlink {
          Refused(t, src, requested, i);
          return None;
        }
        if !found || !SameObservation(was, now) {
          Refused(t, src, requested, i);
          return None;
        }
        GatheredSkip(t, src, requested[..i], name, paths, changes, candidate);
        continue;
      }
      if !found && !had {
        GatheredSkip(t, src, requested[..i], name, paths, changes, candidate);
        continue;
      }
      if now.symlink {
        Refused(t, src, requested, i);
        return None;
      }
      var e := SnapshotEntry(name, Bytes(now), NormalizedMode(now.mode), false);
      GatheredAdd(t, src, requested[..i], name, paths, changes, candidate, e);
      paths := paths + [name];
      changes := changes + [Change(name, "added", Bytes(now))];
      candidate := candidate + [e];
    }
    assert requested[..|requested|] == requested;
    GatheredAll(t, src, requested, paths, changes, candidate);
    var plan := FinalizePlan(paths, changes, candidate, t);
    return Some(plan);
  }

  lemma NothingGathered(t: Tools, src: Source)
    ensures Gathered(t, src, [], [], [], [])
  {
  }

  lemma Refused(t: Tools, src: Source, requested: seq<string>, i: nat)
    requires i < |requested| && Refuses(t, src, requested[i])
    ensures Derive(t, src, requested) == None
  {
    hide Refuses;
    assert requested[i] in requested;
  }

  lemma SeenIsFine(t: Tools, src: Source, past: seq<string>, name: string, paths: seq<string>, changes: seq<Change>, candidate: seq<SnapshotEntry>)
    requires Gathered(t, src, past, paths, changes, candidate) && name in past
    ensures !Refuses(t, src, name)
  {
    hide Refuses, Decide;
  }

  method BuildPlanFromFingerprints(prints: map<string, Fingerprint>, current: map<string, ObservedFile>,
                                   requested: seq<string>, tracked: set<string>, t: Tools) returns (p: Option<Plan>)
    ensures p == Derive(t, Printed(prints, current, tracked), requested)
  {
    hide Gathered, Derive, NormalizedMode, SortChanges, SortEntries, SameFingerprint;
    ghost var src := Printed(prints, current, tracked);
    var seen: set<string> := {};
    var paths: seq<string>, changes: seq<Change>, candidate: seq<SnapshotEntry> := [], [], [];
    NothingGathered(t, src);
    for i := 0 to |requested|
      invariant forall n :: n in seen <==> n in requested[..i]
      invariant Gathered(t, src, requested[..i], paths, changes, candidate)
    {
      var name := requested[i];
      assert requested[..i + 1] == requested[..i] + [name];
      if !t.safe(name) {
        Refused(t, src, requested, i);
        return None;
      }
      if name in seen {
        SeenIsFine(t, src, requested[..i], name, paths, changes, candidate);
        GatheredSkip(t, src, requested[..i], name, paths, changes, candidate);
        continue;
      }
      seen := seen + {name};
      var d := Weigh(prints, current, tracked, name, t);
      match d {
        case Ambiguous =>
          Refused(t, src, requested, i);
          return None;
        case Unowned => GatheredSkip(t, src, requested[..i], name, paths, changes, candidate);
        case Owned(e) =>
          GatheredAdd(t, src, requested[..i], name, paths, changes, candidate, e);
          paths := paths + [name];
          changes := changes + [if e.delete then Change(name, "deleted", "") else Change(name, "added", e.content)];
          candidate := candidate + [e];
      }
    }
    assert requested[..|requested|] == requested;
    GatheredAll(t, src, requested, paths, changes, candidate);
    var plan := FinalizePlan(paths, changes, candidate, t);
    return Some(plan);
  }

  /** The branches of the loop body for one new name. */
  method Weigh(prints: map<string, Fingerprint>, current: map<string, ObservedFile>, tracked: set<string>, name: string, t: Tools)
    returns (d: Decision)
    ensures d == DecidePrinted(t, prints, current, tracked, name)
  {
    var had := name in prints;
    var now := Look(current, name);
    var found := name in current && ObservedPresent(now);
    if had && name in tracked {
      if !found {
        return if prints[name].present then Ambiguous else Unowned;
      }
      if !prints[name].present {
        return Ambiguous;
      }
      if !SameFingerprint(t, prints[name], now) {
        return Ambiguous;
      }
      return Unowned;
    }
    if had && prints[name].present {
      if !SameFingerprint(t, prints[name], now) {
        return Ambiguous;
      }
      return Unowned;
    }
    if !found {
      if name in tracked {
        return Owned(SnapshotEntry(name, "", 0, true));
      }
      return Unowned;
    }
    if now.symlink {
      return Ambiguous;
    }
    return Owned(SnapshotEntry(name, Bytes(now), NormalizedMode(now.mode), false));
  }

  // ---------------------------------------------------------------- what plans promise

  /** Reordering or repeating the requested paths changes nothing. */
  lemma RequestOrderIsInvisible(t: Tools, src: Source, requested: seq<string>, other: seq<string>)
    requires forall n :: n in requested <==> n in other
    ensures Derive(t, src, requested) == Derive(t, src, other)
  {
    hide Decide, Refuses, PlanOf;
    assert OwnedNames(t, src, requested) == OwnedNames(t, src, other);
  }

  lemma {:induction false} EntriesAre(t: Tools, src: Source, names: seq<string>, e: SnapshotEntry)
    ensures e in Entries(t, src, names) <==> exists n :: n in names && e == EntryOf(t, src, n)
    ensures |Entries(t, src, names)| == |names|
  {
    hide EntryOf;
    if names != [] {
      EntriesAre(t, src, names[1..], e);
      assert names == [names[0]] + names[1..];
      if exists n :: n in names && e == EntryOf(t, src, n) {
        var n :| n in names && e == EntryOf(t, src, n);
        assert n == names[0] || n in names[1..];
      }
    }
  }

  /** The changes and the digest of a plan follow its candidate, which is in the order of its
      paths. */
  ghost predicate InOrder(t: Tools, p: Plan) {
    && Distinct(p.paths) && Sorted(p.paths) && |p.candidate| == |p.paths| == |p.changes|
    && (forall i :: 0 <= i < |p.paths| ==> p.candidate[i].path == p.paths[i])
    && (forall i :: 0 <= i < |p.paths| ==>
                      p.changes[i] == if p.candidate[i].delete then Change(p.paths[i], "deleted", "")
                                      else Change(p.paths[i], "added", p.candidate[i].content))
    && p.digest == t.planDigest(p.candidate)
  }

  lemma {:induction false} PartsAre(t: Tools, src: Source, names: seq<string>, i: nat)
    requires i < |names|
    ensures var es := Entries(t, src, names); |es| == |names| == |Changes(es)| && es[i] == EntryOf(t, src, names[i]) && Changes(es)[i] == ChangeOf(es[i])
  {
    hide EntryOf, ChangeOf;
    var es := Entries(t, src, names);
    EntriesAre(t, src, names, es[0]);
    assert es[1..] == Entries(t, src, names[1..]);
    if i > 0 {
      PartsAre(t, src, names[1..], i - 1);
    } else if |names| > 1 {
      PartsAre(t, src, names[1..], 0);
    }
  }

  lemma PlansAreInOrder(t: Tools, src: Source, requested: seq<string>)
    requires Derive(t, src, requested).Some?
    ensures InOrder(t, Derive(t, src, requested).value)
  {
    hide Entries, Changes, Decide, Refuses, OwnedNames, Sorted, Distinct;
    var p := Derive(t, src, requested).value;
    if p.paths == [] {
      NoParts(t, src);
    } else {
      PartsAre(t, src, p.paths, 0);
    }
    forall i | 0 <= i < |p.paths|
      ensures p.candidate[i].path == p.paths[i] && p.changes[i] == ChangeOf(p.candidate[i])
    {
      PartsAre(t, src, p.paths, i);
      EntryPath(t, src, p.paths[i]);
    }
  }

  lemma NoParts(t: Tools, src: Source)
    ensures Entries(t, src, []) == [] && Changes([]) == []
  {
  }

  /** What is in a candidate: the owned ones of the requested paths. */
  lemma CandidateIsOwned(t: Tools, src: Source, requested: seq<string>, e: SnapshotEntry)
    requires Derive(t, src, requested).Some?
    ensures e in Derive(t, src, requested).value.candidate <==> e.path in requested && Decide(t, src, e.path) == Owned(e)
  {
    hide Entries, Changes, DecideObserved, DecidePrinted;
    var names := Ascending(OwnedNames(t, src, requested));
    EntriesAre(t, src, names, e);
    if exists n :: n in names && e == EntryOf(t, src, n) {
      var n :| n in names && e == EntryOf(t, src, n);
      EntryPath(t, src, n);
    }
    if e.path in requested && Decide(t, src, e.path) == Owned(e) {
      assert e.path in names && e == EntryOf(t, src, e.path);
    }
  }

  /** Some file has been seen at the path. */
  predicate There(files: map<string, ObservedFile>, name: string) {
    name in files && (files[name].present || files[name].mode != 0 || files[name].content.Some? || files[name].symlink)
  }

  /** 0755 with any of the three execute bits set, else 0644. */
  function KeptMode(mode: nat): nat {
    if mode % 2 == 1 || mode / 8 % 2 == 1 || mode / 64 % 2 == 1 then 493 else 420
  }

  function KeptBytes(f: ObservedFile): string {
    match f.content
    case Some(bytes) => bytes
    case None => ""
  }

  /** The same kind of file, with the same mode and the same bytes. */
  predicate Unchanged(was: ObservedFile, now: ObservedFile) {
    was.symlink == now.symlink && KeptMode(was.mode) == KeptMode(now.mode) && KeptBytes(was) == KeptBytes(now)
  }

  /** The entry adds the file that is at its path. */
  predicate Adds(current: map<string, ObservedFile>, e: SnapshotEntry) {
    There(current, e.path) && !current[e.path].symlink &&
    e == SnapshotEntry(e.path, KeptBytes(current[e.path]), KeptMode(current[e.path].mode), false)
  }

  /** A path that was there at the baseline and is gone or changed, or a new link. */
  predicate Disputed(baseline: map<string, ObservedFile>, current: map<string, ObservedFile>, name: string) {
    if There(baseline, name) then !There(current, name) || !Unchanged(baseline[name], current[name])
    else There(current, name) && current[name].symlink
  }

  /** No plan exactly when a requested path is unsafe, was there and is gone or changed, or is
      a new link. Else the candidate is exactly the requested paths that were not there at the
      baseline and are now, each once, in order, with its bytes and its normalized mode. */
  lemma CandidateIsTheNewFiles(t: Tools, baseline: map<string, ObservedFile>, current: map<string, ObservedFile>,
                               requested: seq<string>, e: SnapshotEntry)
    ensures Derive(t, Observed(baseline, current), requested) == None <==>
            exists n :: n in requested && (!t.safe(n) || Disputed(baseline, current, n))
    ensures Derive(t, Observed(baseline, current), requested).Some? ==>
              var p := Derive(t, Observed(baseline, current), requested).value;
              InOrder(t, p) &&
              (e in p.candidate <==> e.path in requested && !There(baseline, e.path) && Adds(current, e))
  {
    hide PlanOf, Disputed, OwnedNames, InOrder, Adds;
    var src := Observed(baseline, current);
    forall n ensures Refuses(t, src, n) <==> !t.safe(n) || Disputed(baseline, current, n) {
      ObservedExactly(t, baseline, current, n, e);
    }
    if Derive(t, src, requested).Some? {
      PlansAreInOrder(t, src, requested);
      CandidateIsOwned(t, src, requested, e);
      ObservedExactly(t, baseline, current, e.path, e);
    }
  }

  lemma ObservedExactly(t: Tools, baseline: map<string, ObservedFile>, current: map<string, ObservedFile>, n: string, e: SnapshotEntry)
    ensures Decide(t, Observed(baseline, current), n).Ambiguous? <==> Disputed(baseline, current, n)
    ensures e.path == n ==> (Decide(t, Observed(baseline, current), n) == Owned(e) <==> !There(baseline, n) && Adds(current, e))
  {
    assert forall mode: nat :: NormalizedMode(mode) == KeptMode(mode);
  }

  /** The manifest records a file at the path, or that there was none. */
  predicate Noted(prints: map<string, Fingerprint>, name: string, present: bool) {
    name in prints && prints[name].present == present
  }

  /** Still the file the manifest records: kind, mode and, but for links, digest. */
  predicate Matches(t: Tools, was: Fingerprint, now: ObservedFile) {
    was.symlink == now.symlink && KeptMode(was.mode) == KeptMode(now.mode) &&
    (was.symlink || was.contentDigest == t.digest(KeptBytes(now)))
  }

  /** A recorded file that is gone or changed; a file where the manifest records none and HEAD
      has one; or a link that nobody recorded. */
  predicate Contested(t: Tools, prints: map<string, Fingerprint>, current: map<string, ObservedFile>, tracked: set<string>, name: string) {
    if Noted(prints, name, true) then !There(current, name) || !Matches(t, prints[name], current[name])
    else There(current, name) && (current[name].symlink || (Noted(prints, name, false) && name in tracked))
  }

  /** A file where the manifest records none, and HEAD has none or the manifest says nothing. */
  predicate Comes(prints: map<string, Fingerprint>, current: map<string, ObservedFile>, tracked: set<string>, e: SnapshotEntry) {
    !Noted(prints, e.path, true) && !(Noted(prints, e.path, false) && e.path in tracked) && Adds(current, e)
  }

  /** A path of HEAD of which the manifest says nothing, so that it was clean, and which is gone. */
  predicate Goes(prints: map<string, Fingerprint>, current: map<string, ObservedFile>, tracked: set<string>, e: SnapshotEntry) {
    e.path in tracked && e.path !in prints && !There(current, e.path) && e == SnapshotEntry(e.path, "", 0, true)
  }

  /** Whatever HEAD tracks: no plan exactly when a requested path is unsafe or contested. Else
      the candidate is exactly the new files and the deletions among the requested paths. */
  lemma CandidateIsNewOrDeleted(t: Tools, prints: map<string, Fingerprint>, current: map<string, ObservedFile>,
                                tracked: set<string>, requested: seq<string>, e: SnapshotEntry)
    ensures Derive(t, Printed(prints, current, tracked), requested) == None <==>
            exists n :: n in requested && (!t.safe(n) || Contested(t, prints, current, tracked, n))
    ensures Derive(t, Printed(prints, current, tracked), requested).Some? ==>
              var p := Derive(t, Printed(prints, current, tracked), requested).value;
              InOrder(t, p) &&
              (e in p.candidate <==>
                 e.path in requested && (Comes(prints, current, tracked, e) || Goes(prints, current, tracked, e)))
  {
    hide PlanOf, Contested, OwnedNames, InOrder, Comes, Goes;
    var src := Printed(prints, current, tracked);
    forall n ensures Refuses(t, src, n) <==> !t.safe(n) || Contested(t, prints, current, tracked, n) {
      PrintedExactly(t, prints, current, tracked, n, e);
    }
    if Derive(t, src, requested).Some? {
      PlansAreInOrder(t, src, requested);
      CandidateIsOwned(t, src, requested, e);
      PrintedExactly(t, prints, current, tracked, e.path, e);
    }
  }

  lemma PrintedExactly(t: Tools, prints: map<string, Fingerprint>, current: map<string, ObservedFile>, tracked: set<string>,
                       n: string, e: SnapshotEntry)
    ensures Decide(t, Printed(prints, current, tracked), n).Ambiguous? <==> Contested(t, prints, current, tracked, n)
    ensures e.path == n ==>
              (Decide(t, Printed(prints, current, tracked), n) == Owned(e) <==>
               Comes(prints, current, tracked, e) || Goes(prints, current, tracked, e))
  {
    assert forall mode: nat :: NormalizedMode(mode) == KeptMode(mode);
  }

  // ---------------------------------------------------------------- the source-free form

  /** The fingerprint of an observed file. */
  function FingerprintOf(t: Tools, f: ObservedFile): Fingerprint {
    Fingerprint(t.digest(Bytes(f)), f.mode, ObservedPresent(f), f.symlink)
  }

  function FingerprintsOf(t: Tools, files: map<string, ObservedFile>): map<string, Fingerprint> {
    map n | n in files :: FingerprintOf(t, files[n])
  }

  ghost predicate DigestInjective(t: Tools) {
    forall a, b :: t.digest(a) == t.digest(b) ==> a == b
  }

  /** A link at the baseline and still a link of the same mode, but observed with other content. */
  predicate LinkRetargeted(baseline: map<string, ObservedFile>, current: map<string, ObservedFile>, name: string) {
    && name in baseline && name in current && baseline[name].symlink && current[name].symlink
    && NormalizedMode(baseline[name].mode) == NormalizedMode(current[name].mode)
    && Bytes(baseline[name]) != Bytes(current[name])
  }

  /** The two forms decide alike about a path exactly when it is not a retargeted link: there
      the full one sees the content change, the source-free one does not look. */
  lemma DecisionsAgree(t: Tools, baseline: map<string, ObservedFile>, current: map<string, ObservedFile>, name: string)
    requires DigestInjective(t)
    ensures DecidePrinted(t, FingerprintsOf(t, baseline), current, {}, name) == DecideObserved(baseline, current, name)
            <==> !LinkRetargeted(baseline, current, name)
    ensures LinkRetargeted(baseline, current, name) ==>
              DecideObserved(baseline, current, name) == Ambiguous &&
              DecidePrinted(t, FingerprintsOf(t, baseline), current, {}, name) == Unowned
  {
    hide NormalizedMode;
    if name in baseline && ObservedPresent(baseline[name]) {
      var was, now := baseline[name], Look(current, name);
      assert t.digest(Bytes(was)) == t.digest(Bytes(now)) <==> Bytes(was) == Bytes(now);
    }
  }

  predicate DecideAlike(t: Tools, src: Source, other: Source, requested: seq<string>) {
    forall n :: n in requested ==> Decide(t, src, n) == Decide(t, other, n)
  }

  lemma SameRefusal(t: Tools, src: Source, other: Source, requested: seq<string>, n: string)
    requires DecideAlike(t, src, other, requested) && n in requested
    ensures Refuses(t, src, n) == Refuses(t, other, n)
  {
    hide Decide;
  }

  lemma SameOwned(t: Tools, src: Source, other: Source, requested: seq<string>)
    requires DecideAlike(t, src, other, requested)
    ensures OwnedNames(t, src, requested) == OwnedNames(t, other, requested)
    ensures forall n :: n in Ascending(OwnedNames(t, src, requested)) ==> n in requested
  {
    hide Decide;
  }

  lemma SamePlans(t: Tools, src: Source, other: Source, requested: seq<string>)
    requires DecideAlike(t, src, other, requested)
    ensures Derive(t, src, requested) == Derive(t, other, requested)
  {
    hide DecideAlike, Refuses, Entries, Changes, OwnedNames;
    SameOwned(t, src, other, requested);
    SameEntries(t, src, other, requested, Ascending(OwnedNames(t, src, requested)));
    forall n | n in requested ensures Refuses(t, src, n) == Refuses(t, other, n) {
      SameRefusal(t, src, other, requested, n);
    }
  }

  lemma {:induction false} SameEntries(t: Tools, src: Source, other: Source, requested: seq<string>, names: seq<string>)
    requires DecideAlike(t, src, other, requested) && forall n :: n in names ==> n in requested
    ensures Entries(t, src, names) == Entries(t, other, names)
  {
    hide Decide;
    if names != [] {
      assert names[0] in names;
      assert forall n :: n in names[1..] ==> n in names;
      SameEntries(t, src, other, requested, names[1..]);
    }
  }

  /** The source-free path refines the full one: with nothing tracked and no requested link
      retargeted, it fails exactly when the full one fails, and otherwise returns the same plan. */
  lemma FingerprintsRefineObservations(t: Tools, baseline: map<string, ObservedFile>, current: map<string, ObservedFile>, requested: seq<string>)
    requires DigestInjective(t) && forall n :: n in requested ==> !LinkRetargeted(baseline, current, n)
    ensures Derive(t, Printed(FingerprintsOf(t, baseline), current, {}), requested) == Derive(t, Observed(baseline, current), requested)
  {
    hide DecideObserved, DecidePrinted, LinkRetargeted, DigestInjective, Derive;
    var a, b := Printed(FingerprintsOf(t, baseline), current, {}), Observed(baseline, current);
    forall n | n in requested ensures Decide(t, a, n) == Decide(t, b, n) {
      DecisionsAgree(t, baseline, current, n);
    }
    SamePlans(t, a, b, requested);
  }

  /** A capture reads no content of links. */
  predicate Captured(files: map<string, ObservedFile>) {
    forall n :: n in files && files[n].symlink ==> files[n].content == None
  }

  /** So on captured observations the two forms always agree: where a link points is seen by
      neither of them. */
  lemma CapturedPlansAgree(t: Tools, baseline: map<string, ObservedFile>, current: map<string, ObservedFile>, requested: seq<string>)
    requires DigestInjective(t) && Captured(baseline) && Captured(current)
    ensures Derive(t, Printed(FingerprintsOf(t, baseline), current, {}), requested) == Derive(t, Observed(baseline, current), requested)
  {
    hide DigestInjective, Derive;
    FingerprintsRefineObservations(t, baseline, current, requested);
  }

  /** With a requested link retargeted the full path fails; the source-free one then returns a
      plan exactly when nothing else stands in its way. */
  lemma RetargetedLinkParts(t: Tools, baseline: map<string, ObservedFile>, current: map<string, ObservedFile>, requested: seq<string>, name: string)
    requires DigestInjective(t) && name in requested && LinkRetargeted(baseline, current, name)
    ensures Derive(t, Observed(baseline, current), requested) == None
    ensures Derive(t, Printed(FingerprintsOf(t, baseline), current, {}), requested).Some? <==>
              forall n :: n in requested ==> t.safe(n) && (LinkRetargeted(baseline, current, n) || !DecideObserved(baseline, current, n).Ambiguous?)
  {
    hide DecideObserved, DecidePrinted, LinkRetargeted, DigestInjective, PlanOf;
    var a, b := Printed(FingerprintsOf(t, baseline), current, {}), Observed(baseline, current);
    DecisionsAgree(t, baseline, current, name);
    assert Refuses(t, b, name);
    forall n | n in requested
      ensures Refuses(t, a, n) <==> !(t.safe(n) && (LinkRetargeted(baseline, current, n) || !DecideObserved(baseline, current, n).Ambiguous?))
    {
      DecisionsAgree(t, baseline, current, n);
    }
  }
}
