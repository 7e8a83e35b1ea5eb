/** The scan of everything a commit would publish: what it lists, what it reads, what it hands
    to the secret scanner, and when its evidence may be called safe. */
module HistoryScan {
  import opened Names

  datatype Entry = Entry(oid: string, path: string, mode: string, kind: string)

  datatype Listing = Listed(entries: seq<Entry>) | Unlisted(reason: string)

  datatype Finding = Finding(path: string, category: string, reason: string, digest: string)

  datatype ScanReport = ScanReport(reasons: seq<string>, findings: seq<Finding>, blocked: bool)

  /** What Git and the secret scanner answer during one scan. A command that fails, or whose
      output is truncated or malformed, is a missing answer. `named` checks content against an
      object name. */
  datatype Repo = Repo(
    isAncestor: string -> bool, kindOf: string -> string, treeOf: string -> Option<string>,
    list: string -> Listing, dirs: string -> Listing,
    sizeOf: string -> Option<nat>, content: string -> Option<string>,
    named: (string, string) -> bool, lfs: string -> bool, scan: (Entry, string) -> ScanReport)

  datatype Limits = Limits(maxObjects: int, maxCommits: int, maxEntries: int, maxBlobBytes: int, maxTotalBytes: int, maxFindings: int)

  function OrDefault(n: int, default_: int): int {
    if n <= 0 then default_ else n
  }

  predicate Positive(l: Limits) {
    l.maxObjects > 0 && l.maxCommits > 0 && l.maxEntries > 0 && l.maxBlobBytes > 0 && l.maxTotalBytes > 0 && l.maxFindings > 0
  }

  /** Zero and negative limits select the defaults. */
  function WithDefaults(l: Limits): (r: Limits)
    ensures Positive(r) && (Positive(l) ==> r == l)
  {
    Limits(OrDefault(l.maxObjects, 100000), OrDefault(l.maxCommits, 10000), OrDefault(l.maxEntries, 1000000),
           OrDefault(l.maxBlobBytes, 4194304), OrDefault(l.maxTotalBytes, 67108864), OrDefault(l.maxFindings, 256))
  }

  // ---------------------------------------------------------------- what the history lists

  predicate Submodule(x: Entry) {
    x.mode == "160000" || x.kind == "commit"
  }

  predicate Regular(x: Entry) {
    x.kind == "blob" && (x.mode == "100644" || x.mode == "100755")
  }

  function Items(repo: Repo, c: string): seq<Entry> {
    if repo.list(c).Listed? then repo.list(c).entries else []
  }

  function Dirs(repo: Repo, c: string): seq<Entry> {
    if repo.dirs(c).Listed? then repo.dirs(c).entries else []
  }

  /** All tree entries of the commits, in order, repeats included. */
  function AllItems(repo: Repo, commits: seq<string>): seq<Entry> {
    if commits == [] then [] else AllItems(repo, commits[..|commits| - 1]) + Items(repo, commits[|commits| - 1])
  }

  predicate Gitlink(x: Entry) {
    x.kind == "commit" && x.mode == "160000"
  }

  predicate Directory(x: Entry) {
    x.kind == "tree" && x.mode == "040000"
  }

  function DirTrees(xs: seq<Entry>): set<string> {
    set i | 0 <= i < |xs| && !Gitlink(xs[i]) :: xs[i].oid
  }

  function TreesOf(repo: Repo, c: string): set<string> {
    (if repo.treeOf(c).Some? then {repo.treeOf(c).value} else {}) + DirTrees(Dirs(repo, c))
  }

  function AllTrees(repo: Repo, commits: seq<string>): set<string> {
    if commits == [] then {} else AllTrees(repo, commits[..|commits| - 1]) + TreesOf(repo, commits[|commits| - 1])
  }

  function BlobsOf(xs: seq<Entry>): set<string> {
    set i | 0 <= i < |xs| && !Submodule(xs[i]) && xs[i].kind == "blob" :: xs[i].oid
  }

  /** The objects of regular entries. */
  function Oids(xs: seq<Entry>): set<string> {
    set i | 0 <= i < |xs| && Regular(xs[i]) :: xs[i].oid
  }

  function SizeOr0(repo: Repo, oid: string): nat {
    if repo.sizeOf(oid).Some? then repo.sizeOf(oid).value else 0
  }

  function SumSizes(repo: Repo, oids: seq<string>): nat {
    if oids == [] then 0 else SumSizes(repo, oids[..|oids| - 1]) + SizeOr0(repo, oids[|oids| - 1])
  }

  // ---------------------------------------------------------------- when a history is clean

  /** The commit belongs to the candidate's history and everything about it can be listed. */
  predicate CommitReads(repo: Repo, sha: string, c: string) {
    && (c == sha || repo.isAncestor(c)) && repo.kindOf(c) == "commit" && repo.treeOf(c).Some?
    && repo.list(c).Listed? && repo.dirs(c).Listed?
    && forall i :: 0 <= i < |Dirs(repo, c)| ==> Gitlink(Dirs(repo, c)[i]) || Directory(Dirs(repo, c)[i])
  }

  predicate BlobFits(repo: Repo, l: Limits, oid: string) {
    repo.kindOf(oid) == "blob" && repo.sizeOf(oid).Some? && repo.sizeOf(oid).value <= l.maxBlobBytes
  }

  /** The bytes read are the object's own. */
  predicate BlobReads(repo: Repo, oid: string) {
    repo.content(oid).Some? && |repo.content(oid).value| == SizeOr0(repo, oid) && repo.named(oid, repo.content(oid).value)
  }

  predicate NoReasons(reasons: seq<string>) {
    forall i :: 0 <= i < |reasons| ==> reasons[i] == ""
  }

  /** A report that leaves no trace: no findings, no reason codes, and when it blocks not even
      empty ones. */
  predicate Silent(r: ScanReport) {
    r.findings == [] && NoReasons(r.reasons) && (r.blocked ==> r.reasons == [])
  }

  /** No large-file stub, and the scanner has nothing to say. */
  predicate EntrySilent(repo: Repo, x: Entry, bytes: string) {
    !repo.lfs(bytes) && Silent(repo.scan(x, bytes))
  }

  predicate EntryClean(repo: Repo, x: Entry) {
    repo.content(x.oid).Some? && EntrySilent(repo, x, repo.content(x.oid).value)
  }

  predicate AllRegular(xs: seq<Entry>) {
    forall i :: 0 <= i < |xs| ==> Regular(xs[i])
  }

  predicate CommitsRead(repo: Repo, sha: string, commits: seq<string>) {
    forall i :: 0 <= i < |commits| ==> CommitReads(repo, sha, commits[i])
  }

  predicate TreesAreTrees(repo: Repo, trees: set<string>) {
    forall t :: t in trees ==> repo.kindOf(t) == "tree"
  }

  predicate AllFit(repo: Repo, l: Limits, oids: set<string>) {
    forall o :: o in oids ==> BlobFits(repo, l, o)
  }

  predicate AllRead(repo: Repo, oids: set<string>) {
    forall o :: o in oids ==> BlobReads(repo, o)
  }

  predicate AllClean(repo: Repo, xs: seq<Entry>) {
    forall i :: 0 <= i < |xs| ==> EntryClean(repo, xs[i])
  }

  /** Every commit reads, every tree entry is a regular file, every object is what it should be
      and within its limit, and the scanner found nothing in any entry. */
  ghost predicate Clean(repo: Repo, sha: string, commits: seq<string>, l: Limits) {
    var xs := AllItems(repo, commits);
    && sha in commits && |commits| <= l.maxCommits && CommitsRead(repo, sha, commits)
    && |xs| <= l.maxEntries && AllRegular(xs)
    && |BlobsOf(xs)| + |commits| + |AllTrees(repo, commits)| <= l.maxObjects
    && TreesAreTrees(repo, AllTrees(repo, commits))
    && AllFit(repo, l, Oids(xs)) && SumSizes(repo, Ascending(Oids(xs))) <= l.maxTotalBytes
    && AllRead(repo, Oids(xs)) && AllClean(repo, xs)
  }

  // ---------------------------------------------------------------- the index of entries

  type Key = (string, string, string)

  function KeyOf(x: Entry): Key {
    (x.oid, x.path, x.mode)
  }

  /** What the first loops gather: entries by object, their keys, blobs, trees, and a count. */
  datatype Index = Index(entries: map<string, seq<Entry>>, seen: set<Key>, blobs: set<string>, trees: set<string>, count: nat)

  const NO_INDEX := Index(map[], {}, {}, {}, 0)

  predicate Bucket(oid: string, xs: seq<Entry>) {
    xs != [] && Distinct(xs) && forall i :: 0 <= i < |xs| ==> xs[i].oid == oid && Regular(xs[i])
  }

  predicate InBucket(entries: map<string, seq<Entry>>, x: Entry) {
    x.oid in entries && x in entries[x.oid]
  }

  /** Every regular entry is in its object's bucket, once, and nothing else is. */
  ghost predicate Indexed(xs: seq<Entry>, ix: Index) {
    && (forall oid :: oid in ix.entries ==> Bucket(oid, ix.entries[oid]))
    && (forall x :: InBucket(ix.entries, x) <==> x in xs && Regular(x))
    && (forall x :: Regular(x) ==> (KeyOf(x) in ix.seen <==> InBucket(ix.entries, x)))
    && ix.blobs == BlobsOf(xs) && ix.count == |xs|
  }

  lemma BlobsSnoc(xs: seq<Entry>, x: Entry)
    ensures BlobsOf(xs + [x]) == BlobsOf(xs) + if !Submodule(x) && x.kind == "blob" then {x.oid} else {}
  {
    var ys := xs + [x];
    assert forall i :: 0 <= i < |xs| ==> ys[i] == xs[i];
    assert ys[|xs|] == x;
  }

  lemma InSnoc(xs: seq<Entry>, x: Entry, y: Entry)
    ensures y in xs + [x] <==> y in xs || y == x
  {
  }

  /** An entry that is not regular, or was seen before, adds no bucket entry. */
  lemma IndexedSkip(xs: seq<Entry>, ix: Index, x: Entry)
    requires Indexed(xs, ix) && (!Regular(x) || KeyOf(x) in ix.seen)
    ensures Indexed(xs + [x], ix.(blobs := BlobsOf(xs + [x]), count := ix.count + 1))
  {
    hide BlobsOf, Bucket, InBucket, Regular;
    forall y ensures InBucket(ix.entries, y) <==> y in xs + [x] && Regular(y) {
      InSnoc(xs, x, y);
    }
  }

  function Append(entries: map<string, seq<Entry>>, x: Entry): map<string, seq<Entry>> {
    entries[x.oid := (if x.oid in entries then entries[x.oid] else []) + [x]]
  }

  lemma AppendBuckets(entries: map<string, seq<Entry>>, x: Entry)
    requires (forall oid :: oid in entries ==> Bucket(oid, entries[oid])) && Regular(x) && !InBucket(entries, x)
    ensures forall oid :: oid in Append(entries, x) ==> Bucket(oid, Append(entries, x)[oid])
    ensures forall y :: InBucket(Append(entries, x), y) <==> InBucket(entries, y) || y == x
  {
    hide Regular;
    if x.oid in entries {
      assert Bucket(x.oid, entries[x.oid]);
    }
  }

  lemma IndexedAdd(xs: seq<Entry>, ix: Index, x: Entry)
    requires Indexed(xs, ix) && Regular(x) && KeyOf(x) !in ix.seen
    ensures Indexed(xs + [x], ix.(entries := Append(ix.entries, x), seen := ix.seen + {KeyOf(x)},
                                  blobs := BlobsOf(xs + [x]), count := ix.count + 1))
  {
    hide BlobsOf, Bucket, InBucket, Append;
    AppendBuckets(ix.entries, x);
    forall y ensures InBucket(Append(ix.entries, x), y) <==> y in xs + [x] && Regular(y) {
      InSnoc(xs, x, y);
    }
    forall y | Regular(y) ensures KeyOf(y) == KeyOf(x) <==> y == x {
    }
  }

  // ---------------------------------------------------------------- the evidence

  const REASON_FINDING_LIMIT := "HIST_FINDING_LIMIT"

  /** A finite set in ascending order, gathered in any order and sorted. */
  method Enumerate(s: set<string>) returns (xs: seq<string>)
    ensures xs == Ascending(s)
  {
    xs := [];
    var todo := s;
    while todo != {}
      invariant todo <= s && Distinct(xs) && forall x :: x in xs <==> x in s && x !in todo
      decreases |todo|
    {
      var x :| x in todo;
      todo := todo - {x};
      xs := xs + [x];
    }
    assert (set x | x in xs) == s;
    SortIsAscending(xs);
    xs := Sort(xs);
  }

  class Evidence {
    const repo: Repo
    const sha: string
    const limits: Limits
    var findings: seq<Finding>
    var reasons: seq<string>
    var commitsScanned: nat
    var objectsScanned: nat
    var totalBytes: nat
    var blocked: bool
    /** The entries handed to the secret scanner, in order. */
    var presented: seq<Entry>

    /** The defaults have been filled in. */
    predicate Valid() {
      Positive(limits)
    }

    /** No more findings than the limit. */
    predicate Bounded()
      reads this`findings
    {
      limits.maxFindings > 0 ==> |findings| <= limits.maxFindings
    }

    predicate Spotless()
      reads this`findings, this`reasons
    {
      findings == [] && reasons == []
    }

    predicate Safe()
      reads this`findings, this`reasons, this`blocked
    {
      !blocked && Spotless()
    }

    constructor (repo: Repo, sha: string, requested: Limits)
      ensures this.repo == repo && this.sha == sha && limits == WithDefaults(requested)
      ensures Valid() && Bounded() && Spotless() && !blocked && presented == []
    {
      this.repo, this.sha, limits := repo, sha, WithDefaults(requested);
      findings, reasons, presented := [], [], [];
      commitsScanned, objectsScanned, totalBytes, blocked := 0, 0, 0, false;
    }

    method AddReason(code: string)
      modifies this`reasons
      ensures reasons == old(reasons) + if code != "" then [code] else []
    {
      if code != "" {
        reasons := reasons + [code];
      }
    }

    /** A finding past the limit is dropped, but the limit itself is then a reason. */
    method AddFinding(f: Finding)
      requires Bounded()
      modifies this`findings, this`reasons
      ensures Bounded() && !Spotless()
      ensures findings == if limits.maxFindings > 0 && |old(findings)| >= limits.maxFindings then old(findings) else old(findings) + [f]
      ensures old(reasons) <= reasons && (findings == old(findings) ==> REASON_FINDING_LIMIT in reasons)
    {
      if limits.maxFindings > 0 && |findings| >= limits.maxFindings {
        AddReason(REASON_FINDING_LIMIT);
        return;
      }
      findings := findings + [f];
      AddReason(f.reason);
    }

    /** Evidence that ends here is blocked. */
    method Finish()
      modifies this`reasons, this`blocked
      ensures blocked
    {
      if limits.maxFindings > 0 && |findings| >= limits.maxFindings {
        AddReason(REASON_FINDING_LIMIT);
      }
      reasons := Enumerate(set r | r in reasons && r != "");
      blocked := true;
    }

    // -------------------------------------------------------------- one commit

    /** One tree entry: counted, and either a finding or in the index. */
    method AddItem(ix: Index, x: Entry, ghost past: seq<Entry>) returns (jx: Index)
      requires Indexed(past, ix)
      requires Bounded()
      modifies this`findings, this`reasons
      ensures Bounded()
      ensures Indexed(past + [x], jx) && jx.trees == ix.trees
      ensures Spotless() <==> old(Spotless()) && Regular(x)
    {
      hide Indexed, BlobsOf;
      BlobsSnoc(past, x);
      BlobsNow(past, ix);
      ModesDiffer();
      jx := ix.(count := ix.count + 1);
      if x.mode == "160000" || x.kind == "commit" {
        AddFinding(Finding(x.path, "submodule", "HIST_SUBMODULE", x.oid));
        assert BlobsOf(past + [x]) == ix.blobs;
        IndexedSkip(past, ix, x);
        return;
      }
      if x.kind == "blob" {
        jx := jx.(blobs := jx.blobs + {x.oid});
      }
      if x.mode == "120000" {
        AddFinding(Finding(x.path, "symlink", "HIST_SYMLINK", x.oid));
        IndexedSkip(past, ix, x);
        return;
      }
      if x.kind != "blob" || (x.mode != "100644" && x.mode != "100755") {
        AddFinding(Finding(x.path, "object", "HIST_OBJECT_TYPE", x.oid));
        IndexedSkip(past, ix, x);
        return;
      }
      if KeyOf(x) in jx.seen {
        IndexedSkip(past, ix, x);
      } else {
        IndexedAdd(past, ix, x);
        jx := jx.(seen := jx.seen + {KeyOf(x)}, entries := Append(jx.entries, x));
      }
    }

    /** All tree entries of one commit; no result when there are too many. */
    method AddItems(ix: Index, xs: seq<Entry>, ghost past: seq<Entry>) returns (jx: Index, ok: bool)
      requires Indexed(past, ix) && |past| <= limits.maxEntries
      requires Bounded()
      modifies this`findings, this`reasons
      ensures Bounded()
      ensures ok <==> |past + xs| <= limits.maxEntries
      ensures ok ==> Indexed(past + xs, jx) && jx.trees == ix.trees && (Spotless() <==> old(Spotless()) && AllRegular(xs))
    {
      hide Indexed, Regular;
      jx := ix;
      assert past + xs[..0] == past;
      for i := 0 to |xs|
        invariant Bounded()
        invariant Indexed(past + xs[..i], jx) && jx.trees == ix.trees
        invariant |past + xs[..i]| <= limits.maxEntries
        invariant Spotless() <==> old(Spotless()) && AllRegular(xs[..i])
      {
        CountNow(past + xs[..i], jx);
        if jx.count + 1 > limits.maxEntries {
          AddReason("HIST_ENTRY_COUNT_LIMIT");
          return jx, false;
        }
        assert xs[..i + 1] == xs[..i] + [xs[i]];
        assert past + xs[..i + 1] == past + xs[..i] + [xs[i]];
        jx := AddItem(jx, xs[i], past + xs[..i]);
      }
      assert xs[..|xs|] == xs;
      return jx, true;
    }

    /** The directory entries of one commit; no result when one is malformed. */
    method AddDirs(trees: set<string>, xs: seq<Entry>) returns (all: set<string>, ok: bool)
      modifies this`reasons
      ensures ok <==> forall i :: 0 <= i < |xs| ==> Gitlink(xs[i]) || Directory(xs[i])
      ensures ok ==> all == trees + DirTrees(xs) && reasons == old(reasons)
    {
      all := trees;
      for i := 0 to |xs|
        invariant forall j :: 0 <= j < i ==> Gitlink(xs[j]) || Directory(xs[j])
        invariant all == trees + DirTrees(xs[..i]) && reasons == old(reasons)
      {
        DirsSnoc(xs, i);
        if xs[i].kind == "commit" && xs[i].mode == "160000" {
          continue;
        }
        if xs[i].kind != "tree" || xs[i].mode != "040000" {
          AddReason("HIST_OBJECT_TYPE");
          return all, false;
        }
        all := all + {xs[i].oid};
      }
      assert xs[..|xs|] == xs;
      return all, true;
    }

    /** One commit of the history; no result when the scan must end here. */
    method ReadCommit(ix: Index, c: string, ghost past: seq<Entry>) returns (jx: Index, ok: bool)
      requires Valid() && Indexed(past, ix) && |past| <= limits.maxEntries
      requires Bounded()
      modifies this`findings, this`reasons
      ensures Bounded()
      ensures ok ==> CommitReads(repo, sha, c) && |past + Items(repo, c)| <= limits.maxEntries
      ensures ok ==> Indexed(past + Items(repo, c), jx) && jx.trees == ix.trees + TreesOf(repo, c)
      ensures ok ==> (Spotless() <==> old(Spotless()) && AllRegular(Items(repo, c)))
      ensures !ok ==> !old(Spotless()) || !CommitReads(repo, sha, c) ||
                      |past + Items(repo, c)| > limits.maxEntries || !AllRegular(Items(repo, c))
    {
      hide Indexed;
      jx, ok := ix, false;
      if c != sha {
        if !repo.isAncestor(c) {
          AddFinding(Finding("", "history", "HIST_OBJECT_SUBSTITUTION", c));
          return;
        }
      }
      if repo.kindOf(c) != "commit" {
        AddFinding(Finding("", "object", "HIST_OBJECT_TYPE", c));
        return;
      }
      var tree := repo.treeOf(c);
      if tree == None {
        AddReason("HIST_OBJECT_UNAVAILABLE");
        return;
      }
      var listing := repo.list(c);
      if listing.Unlisted? {
        AddReason(listing.reason);
        return;
      }
      var fits;
      jx, fits := AddItems(ix, listing.entries, past);
      if !fits {
        return jx, false;
      }
      var dirs := repo.dirs(c);
      if dirs.Unlisted? {
        AddReason(dirs.reason);
        return jx, false;
      }
      var trees, good := AddDirs(jx.trees + {tree.value}, dirs.entries);
      assert Dirs(repo, c) == dirs.entries;
      if !good {
        return jx, false;
      }
      SameBuckets(past + Items(repo, c), jx, trees);
      jx := jx.(trees := trees);
      if |findings| >= limits.maxFindings {
        return jx, false;
      }
      return jx, true;
    }

    // -------------------------------------------------------------- the whole history

    /** All commits; no result when the scan must end here. */
    method ReadCommits(commits: seq<string>) returns (ix: Index, ok: bool)
      requires Valid() && Spotless() && |commits| > 0
      requires Bounded()
      modifies this`findings, this`reasons
      ensures Bounded()
      ensures ok ==> CommitsRead(repo, sha, commits) && |AllItems(repo, commits)| <= limits.maxEntries
      ensures ok ==> Indexed(AllItems(repo, commits), ix) && ix.trees == AllTrees(repo, commits)
      ensures ok ==> (Spotless() <==> AllRegular(AllItems(repo, commits)))
      ensures !ok ==> !ListsClean(repo, sha, commits, limits)
    {
      hide Indexed, CommitReads, Regular, ListsClean;
      ix, ok := NO_INDEX, true;
      NothingIndexed();
      for i := 0 to |commits|
        invariant Bounded()
        invariant CommitsRead(repo, sha, commits[..i]) && |AllItems(repo, commits[..i])| <= limits.maxEntries
        invariant Indexed(AllItems(repo, commits[..i]), ix) && ix.trees == AllTrees(repo, commits[..i])
        invariant Spotless() <==> AllRegular(AllItems(repo, commits[..i]))
      {
        assert commits[..i + 1][..i] == commits[..i];
        var good;
        ix, good := ReadCommit(ix, commits[i], AllItems(repo, commits[..i]));
        RegularConcat(AllItems(repo, commits[..i]), Items(repo, commits[i]));
        if !good {
          ListsBroken(repo, sha, commits, limits, i);
          return ix, false;
        }
      }
      assert commits[..|commits|] == commits;
    }

    /** Every tree object is a tree. */
    method CheckTrees(trees: set<string>) returns (ok: bool)
      requires Bounded()
      modifies this`findings, this`reasons
      ensures Bounded()
      ensures ok <==> TreesAreTrees(repo, trees)
      ensures ok ==> findings == old(findings) && reasons == old(reasons)
    {
      hide Ascending, Sorted;
      var ids := Enumerate(trees);
      for i := 0 to |ids|
        invariant Bounded()
        invariant forall j :: 0 <= j < i ==> repo.kindOf(ids[j]) == "tree"
        invariant findings == old(findings) && reasons == old(reasons)
      {
        if repo.kindOf(ids[i]) != "tree" {
          assert ids[i] in trees by { assert ids[i] in ids; }
          AddFinding(Finding("", "object", "HIST_OBJECT_TYPE", ids[i]));
          return false;
        }
      }
      return true;
    }

    /** Type and size of every blob, before any is read; no result when the scan must end. */
    method MeasureBlobs(oids: seq<string>) returns (sizes: map<string, nat>, total: nat, ok: bool)
      requires Valid()
      requires Bounded()
      modifies this`findings, this`reasons
      ensures Bounded()
      ensures !ok ==> !FitClean(repo, limits, oids)
      ensures ok && Spotless() ==> old(Spotless()) && FitClean(repo, limits, oids) && total == SumSizes(repo, oids)
      ensures ok && Spotless() ==> forall i :: 0 <= i < |oids| ==> oids[i] in sizes
      ensures ok ==> forall o :: o in sizes ==> sizes[o] == SizeOr0(repo, o)
      ensures ok && !Spotless() ==> !old(Spotless()) || !FitClean(repo, limits, oids)
    {
      hide FitClean;
      sizes, total, ok := map[], 0, true;
      FitNone(repo, limits);
      for i := 0 to |oids|
        invariant Bounded()
        invariant forall o :: o in sizes ==> sizes[o] == SizeOr0(repo, o)
        invariant Spotless() ==> old(Spotless()) && FitClean(repo, limits, oids[..i]) && total == SumSizes(repo, oids[..i])
        invariant Spotless() ==> forall j :: 0 <= j < i ==> oids[j] in sizes
        invariant !Spotless() ==> !old(Spotless()) || !FitClean(repo, limits, oids)
        invariant total <= SumSizes(repo, oids[..i])
      {
        var oid := oids[i];
        assert oids[..i + 1][..i] == oids[..i];
        if repo.kindOf(oid) != "blob" {
          FitBroken(repo, limits, oids, i);
          AddFinding(Finding("", "object", "HIST_OBJECT_UNAVAILABLE", oid));
          return sizes, total, false;
        }
        var size := repo.sizeOf(oid);
        if size == None {
          FitBroken(repo, limits, oids, i);
          AddFinding(Finding("", "object", "HIST_OBJECT_UNAVAILABLE", oid));
          return sizes, total, false;
        }
        if size.value > limits.maxBlobBytes {
          FitBroken(repo, limits, oids, i);
          AddFinding(Finding("", "size", "HIST_BLOB_SIZE_LIMIT", oid));
          continue;
        }
        if total + size.value > limits.maxTotalBytes {
          SumTooLarge(repo, limits, oids, i);
          AddFinding(Finding("", "size", "HIST_TOTAL_BYTES_LIMIT", oid));
          return sizes, total, false;
        }
        FitOneMore(repo, limits, oids, i);
        total := total + size.value;
        sizes := sizes[oid := size.value];
      }
      assert oids[..|oids|] == oids;
    }

    /** One entry of a verified blob goes to the secret scanner. */
    method ScanEntry(x: Entry, bytes: string)
      requires Bounded()
      modifies this`findings, this`reasons, this`presented
      ensures Bounded()
      ensures Spotless() <==> old(Spotless()) && EntrySilent(repo, x, bytes)
      ensures presented == old(presented) + if repo.lfs(bytes) then [] else [x]
    {
      if repo.lfs(bytes) {
        AddFinding(Finding(x.path, "lfs", "HIST_LFS_POINTER", x.oid));
        return;
      }
      var scan := repo.scan(x, bytes);
      presented := presented + [x];
      AddCodes(scan.reasons);
      AddScanFindings(scan.findings, x.oid);
      if scan.blocked && |scan.findings| == 0 {
        AddBlocked(scan.reasons, x);
      }
    }

    method AddCodes(codes: seq<string>)
      modifies this`reasons
      ensures Spotless() <==> old(Spotless()) && NoReasons(codes)
    {
      for i := 0 to |codes|
        invariant Spotless() <==> old(Spotless()) && NoReasons(codes[..i])
      {
        AddReason(codes[i]);
        assert codes[..i + 1] == codes[..i] + [codes[i]];
      }
      assert codes[..|codes|] == codes;
    }

    method AddScanFindings(fs: seq<Finding>, oid: string)
      requires Bounded()
      modifies this`findings, this`reasons
      ensures Bounded()
      ensures Spotless() <==> old(Spotless()) && fs == []
    {
      for i := 0 to |fs|
        invariant Bounded()
        invariant Spotless() <==> old(Spotless()) && i == 0
      {
        AddFinding(Finding(fs[i].path, fs[i].category, fs[i].reason, oid));
      }
    }

    /** A block without findings is turned into findings, one a reason code. */
    method AddBlocked(codes: seq<string>, x: Entry)
      requires Bounded()
      modifies this`findings, this`reasons
      ensures Bounded()
      ensures Spotless() <==> old(Spotless()) && codes == []
    {
      for i := 0 to |codes|
        invariant Bounded()
        invariant Spotless() <==> old(Spotless()) && i == 0
      {
        AddFinding(Finding(x.path, "scan", codes[i], x.oid));
      }
    }

    /** Every entry of one verified blob. */
    method ScanBucket(items: seq<Entry>, bytes: string)
      requires Bounded()
      modifies this`findings, this`reasons, this`presented
      ensures Bounded()
      ensures Spotless() <==> old(Spotless()) && BucketSilent(repo, items, bytes)
      ensures Spotless() ==> presented == old(presented) + items
    {
      hide Silent;
      for i := 0 to |items|
        invariant Bounded()
        invariant Spotless() <==> old(Spotless()) && BucketSilent(repo, items[..i], bytes)
        invariant Spotless() ==> presented == old(presented) + items[..i]
      {
        assert items[..i + 1] == items[..i] + [items[i]];
        ScanEntry(items[i], bytes);
      }
      assert items[..|items|] == items;
    }

    /** Every blob that was measured is read, checked and scanned; no result when the scan must end. */
    method ScanBlobs(oids: seq<string>, sizes: map<string, nat>, entries: map<string, seq<Entry>>) returns (ok: bool)
      requires forall i :: 0 <= i < |oids| ==> oids[i] in entries
      requires Spotless() ==> forall i :: 0 <= i < |oids| ==> oids[i] in sizes
      requires forall o :: o in sizes ==> sizes[o] == SizeOr0(repo, o)
      requires Bounded()
      modifies this`findings, this`reasons, this`presented
      ensures Bounded()
      ensures !ok || !Spotless() ==> !old(Spotless()) || !ReadsClean(repo, entries, oids)
      ensures ok && Spotless() ==> old(Spotless()) && ReadsClean(repo, entries, oids) && presented == old(presented) + Flat(entries, oids)
    {
      hide BucketSilent, Ascending, Sorted;
      for i := 0 to |oids|
        invariant Bounded()
        invariant Spotless() ==> old(Spotless()) && ReadsClean(repo, entries, oids[..i])
        invariant Spotless() ==> presented == old(presented) + Flat(entries, oids[..i])
        invariant !Spotless() ==> !old(Spotless()) || !ReadsClean(repo, entries, oids)
      {
        var oid := oids[i];
        assert oids[..i + 1][..i] == oids[..i] && oids[..i + 1][i] == oid;
        if oid !in sizes {
          continue;
        }
        var bytes := repo.content(oid);
        if bytes == None {
          AddFinding(Finding("", "object", "HIST_OBJECT_UNAVAILABLE", oid));
          return false;
        }
        if |bytes.value| != sizes[oid] || !repo.named(oid, bytes.value) {
          AddFinding(Finding("", "object", "HIST_OBJECT_SUBSTITUTION", oid));
          return false;
        }
        ScanBucket(entries[oid], bytes.value);
      }
      assert oids[..|oids|] == oids;
      return true;
    }

    /** Measures, then reads and scans every indexed blob, and closes the evidence. */
    method ScanObjects(entries: map<string, seq<Entry>>)
      requires Valid() && !blocked && presented == []
      requires Bounded()
      modifies this`findings, this`reasons, this`presented, this`totalBytes, this`blocked
      ensures Bounded()
      ensures var oids := Ascending(entries.Keys);
              (forall i :: 0 <= i < |oids| ==> oids[i] in entries) &&
              (Safe() <==> old(Spotless()) && FitClean(repo, limits, oids) && ReadsClean(repo, entries, oids)) &&
              (Safe() ==> presented == Flat(entries, oids) && totalBytes == SumSizes(repo, oids))
    {
      hide FitClean, ReadsClean, SumSizes, Flat;
      var oids := Enumerate(entries.Keys);
      Enumerated(entries, oids);
      var sizes, total, measured := MeasureBlobs(oids);
      if !measured {
        Finish();
        return;
      }
      totalBytes := total;
      var scanned := ScanBlobs(oids, sizes, entries);
      if !scanned {
        Finish();
        return;
      }
      if |findings| > 0 || |reasons| > 0 {
        Finish();
        return;
      }
      blocked := false;
    }

    /** The listed commits are non-empty, hold the candidate and are within their limit. */
    method CheckCommits(commits: seq<string>) returns (ok: bool)
      requires Bounded()
      modifies this`findings, this`reasons, this`blocked
      ensures Bounded()
      ensures ok <==> sha in commits && |commits| <= limits.maxCommits
      ensures ok ==> findings == old(findings) && reasons == old(reasons) && blocked == old(blocked)
      ensures !ok ==> blocked
    {
      if |commits| == 0 {
        AddReason("HIST_GIT_FAILURE");
        Finish();
        return false;
      }
      if sha !in commits {
        AddReason("HIST_OBJECT_SUBSTITUTION");
        Finish();
        return false;
      }
      if |commits| > limits.maxCommits {
        AddReason("HIST_COMMIT_COUNT_LIMIT");
        Finish();
        return false;
      }
      return true;
    }

    /** The object count and the types of the trees. */
    method CheckObjects(ix: Index, commits: nat) returns (ok: bool)
      requires Bounded()
      modifies this`findings, this`reasons, this`blocked, this`objectsScanned
      ensures Bounded()
      ensures ok <==> |ix.blobs| + commits + |ix.trees| <= limits.maxObjects && TreesAreTrees(repo, ix.trees)
      ensures ok ==> findings == old(findings) && reasons == old(reasons) && blocked == old(blocked)
      ensures ok ==> objectsScanned == |ix.blobs| + commits + |ix.trees|
      ensures !ok ==> blocked
    {
      hide TreesAreTrees;
      if |ix.blobs| + commits + |ix.trees| > limits.maxObjects {
        AddReason("HIST_OBJECT_COUNT_LIMIT");
        Finish();
        return false;
      }
      objectsScanned := commits + |ix.blobs| + |ix.trees|;
      ok := CheckTrees(ix.trees);
      if !ok {
        Finish();
      }
    }

    /** The scan of the listed commits. Its evidence is safe exactly when the history is clean,
        and then the secret scanner was handed every distinct entry once and nothing else. */
    method Scan(listed: seq<string>)
      requires Valid() && Spotless() && !blocked && presented == []
      requires Bounded()
      modifies this
      ensures |findings| <= limits.maxFindings
      ensures Safe() <==> Clean(repo, sha, Sort(listed), limits)
      ensures Safe() ==> Distinct(presented) && forall x :: x in presented <==> x in AllItems(repo, Sort(listed))
      ensures Safe() ==> totalBytes == SumSizes(repo, Ascending(Oids(AllItems(repo, Sort(listed))))) <= limits.maxTotalBytes
      ensures Safe() ==> objectsScanned <= limits.maxObjects && commitsScanned == |listed| <= limits.maxCommits
    {
      hide Clean, ListsClean, FitClean, ReadsClean, Indexed, AllItems, AllTrees, SumSizes, Flat, Oids, CommitsRead, AllRegular, TreesAreTrees;
      var commits := Sort(listed);
      SortLength(listed);
      var good := CheckCommits(commits);
      if !good {
        NotClean(repo, sha, commits, limits);
        return;
      }
      commitsScanned := |commits|;
      var ix, read := ReadCommits(commits);
      if !read {
        NotListed(repo, sha, commits, limits);
        Finish();
        return;
      }
      CleanSplits(repo, sha, commits, limits, ix);
      good := CheckObjects(ix, |commits|);
      if !good {
        return;
      }
      ScanObjects(ix.entries);
      if Safe() {
        FlatIsAll(AllItems(repo, commits), ix);
        OidsAreKeys(AllItems(repo, commits), ix);
        WithinTotal(repo, limits, Ascending(ix.entries.Keys));
      }
    }
  }

  lemma WithinTotal(repo: Repo, l: Limits, oids: seq<string>)
    requires FitClean(repo, l, oids)
    ensures SumSizes(repo, oids) <= l.maxTotalBytes
  {
    hide SumSizes, BlobFits;
  }

  lemma ModesDiffer()
    ensures "160000" != "100644" && "160000" != "100755" && "120000" != "100644" && "120000" != "100755"
    ensures "commit" != "blob"
  {
    assert "160000"[1] != "100644"[1] && "160000"[1] != "100755"[1];
    assert "120000"[1] != "100644"[1] && "120000"[1] != "100755"[1];
    assert "commit"[0] != "blob"[0];
  }

  lemma BlobsNow(xs: seq<Entry>, ix: Index)
    requires Indexed(xs, ix)
    ensures ix.blobs == BlobsOf(xs)
  {
    hide BlobsOf, Bucket, InBucket;
  }

  lemma CountNow(xs: seq<Entry>, ix: Index)
    requires Indexed(xs, ix)
    ensures ix.count == |xs|
  {
    hide BlobsOf, Bucket, InBucket;
  }

  lemma SameBuckets(xs: seq<Entry>, ix: Index, trees: set<string>)
    requires Indexed(xs, ix)
    ensures Indexed(xs, ix.(trees := trees))
  {
    hide BlobsOf, Bucket, InBucket, Regular;
  }

  lemma DirsSnoc(xs: seq<Entry>, i: nat)
    requires i < |xs|
    ensures DirTrees(xs[..i + 1]) == DirTrees(xs[..i]) + if Gitlink(xs[i]) then {} else {xs[i].oid}
  {
    assert forall j :: 0 <= j < i ==> xs[..i + 1][j] == xs[..i][j];
    assert xs[..i + 1][i] == xs[i];
    var a, b := DirTrees(xs[..i + 1]), DirTrees(xs[..i]) + if Gitlink(xs[i]) then {} else {xs[i].oid};
    forall o | o in a ensures o in b {
      var j :| 0 <= j < i + 1 && !Gitlink(xs[..i + 1][j]) && xs[..i + 1][j].oid == o;
      assert j < i ==> xs[..i][j].oid == o;
    }
    forall o | o in b ensures o in a {
      if o in DirTrees(xs[..i]) {
        var j :| 0 <= j < i && !Gitlink(xs[..i][j]) && xs[..i][j].oid == o;
        assert xs[..i + 1][j].oid == o;
      }
    }
  }

  // ---------------------------------------------------------------- clean lists, clean sizes

  /** The part of being clean that the listing loops decide. */
  ghost predicate ListsClean(repo: Repo, sha: string, commits: seq<string>, l: Limits) {
    CommitsRead(repo, sha, commits) && |AllItems(repo, commits)| <= l.maxEntries && AllRegular(AllItems(repo, commits))
  }

  lemma NothingIndexed()
    ensures Indexed([], NO_INDEX)
  {
  }

  lemma RegularConcat(xs: seq<Entry>, ys: seq<Entry>)
    ensures AllRegular(xs + ys) <==> AllRegular(xs) && AllRegular(ys)
  {
    hide Regular;
    var zs := xs + ys;
    assert forall i :: 0 <= i < |xs| ==> zs[i] == xs[i];
    assert forall i :: 0 <= i < |ys| ==> zs[|xs| + i] == ys[i];
    if AllRegular(xs) && AllRegular(ys) {
      forall i | 0 <= i < |zs| ensures Regular(zs[i]) {
        assert i < |xs| || zs[i] == ys[i - |xs|];
      }
    }
  }

  /** A prefix of the commits lists a prefix of the items. */
  lemma {:induction false} ItemsPrefix(repo: Repo, commits: seq<string>, i: nat)
    requires i <= |commits|
    ensures |AllItems(repo, commits[..i])| <= |AllItems(repo, commits)|
    ensures AllRegular(AllItems(repo, commits)) ==> AllRegular(AllItems(repo, commits[..i]))
    decreases |commits|
  {
    hide AllRegular, Items;
    if i == |commits| {
      assert commits[..i] == commits;
    } else {
      var n := |commits| - 1;
      assert commits[..n][..i] == commits[..i];
      ItemsPrefix(repo, commits[..n], i);
      RegularConcat(AllItems(repo, commits[..n]), Items(repo, commits[n]));
    }
  }

  /** A commit that cannot be read or overfills the list spoils the whole history. */
  lemma ListsBroken(repo: Repo, sha: string, commits: seq<string>, l: Limits, i: nat)
    requires i < |commits|
    requires var past := AllItems(repo, commits[..i]);
             !AllRegular(past) || !CommitReads(repo, sha, commits[i]) ||
             |past + Items(repo, commits[i])| > l.maxEntries || !AllRegular(Items(repo, commits[i]))
    ensures !ListsClean(repo, sha, commits, l)
  {
    hide CommitReads, AllRegular, Items;
    ItemsPrefix(repo, commits, i);
    ItemsPrefix(repo, commits, i + 1);
    assert commits[..i + 1][..i] == commits[..i];
    RegularConcat(AllItems(repo, commits[..i]), Items(repo, commits[i]));
  }

  /** The part of being clean that the size loop decides. */
  ghost predicate FitClean(repo: Repo, l: Limits, oids: seq<string>) {
    (forall i :: 0 <= i < |oids| ==> BlobFits(repo, l, oids[i])) && SumSizes(repo, oids) <= l.maxTotalBytes
  }

  lemma FitNone(repo: Repo, l: Limits)
    ensures l.maxTotalBytes >= 0 ==> FitClean(repo, l, [])
  {
  }

  lemma FitBroken(repo: Repo, l: Limits, oids: seq<string>, i: nat)
    requires i < |oids| && !BlobFits(repo, l, oids[i])
    ensures !FitClean(repo, l, oids)
  {
  }

  lemma {:induction false} SumPrefix(repo: Repo, oids: seq<string>, i: nat)
    requires i <= |oids|
    ensures SumSizes(repo, oids[..i]) <= SumSizes(repo, oids)
    decreases |oids|
  {
    if i == |oids| {
      assert oids[..i] == oids;
    } else {
      assert oids[..|oids| - 1][..i] == oids[..i];
      SumPrefix(repo, oids[..|oids| - 1], i);
    }
  }

  lemma SumTooLarge(repo: Repo, l: Limits, oids: seq<string>, i: nat)
    requires i < |oids| && SumSizes(repo, oids[..i]) + SizeOr0(repo, oids[i]) > l.maxTotalBytes
    ensures !FitClean(repo, l, oids)
  {
    assert oids[..i + 1][..i] == oids[..i];
    SumPrefix(repo, oids, i + 1);
  }

  lemma FitOneMore(repo: Repo, l: Limits, oids: seq<string>, i: nat)
    requires i < |oids| && BlobFits(repo, l, oids[i])
    ensures SumSizes(repo, oids[..i + 1]) == SumSizes(repo, oids[..i]) + SizeOr0(repo, oids[i])
    ensures FitClean(repo, l, oids[..i]) && SumSizes(repo, oids[..i + 1]) <= l.maxTotalBytes ==> FitClean(repo, l, oids[..i + 1])
  {
    assert oids[..i + 1][..i] == oids[..i];
  }

  // ---------------------------------------------------------------- clean contents

  /** The bytes are no large-file stub and the scanner is silent about each entry that holds them. */
  predicate BucketSilent(repo: Repo, items: seq<Entry>, bytes: string) {
    forall i :: 0 <= i < |items| ==> EntrySilent(repo, items[i], bytes)
  }

  /** The part of being clean that the content loop decides. */
  ghost predicate ReadsClean(repo: Repo, entries: map<string, seq<Entry>>, oids: seq<string>)
    requires forall i :: 0 <= i < |oids| ==> oids[i] in entries
  {
    forall i :: 0 <= i < |oids| ==> BlobReads(repo, oids[i]) && BucketSilent(repo, entries[oids[i]], repo.content(oids[i]).value)
  }

  /** The buckets one after the other. */
  ghost function Flat(entries: map<string, seq<Entry>>, oids: seq<string>): seq<Entry>
    requires forall i :: 0 <= i < |oids| ==> oids[i] in entries
  {
    if oids == [] then [] else Flat(entries, oids[..|oids| - 1]) + entries[oids[|oids| - 1]]
  }

  lemma {:induction false} FlatMembers(entries: map<string, seq<Entry>>, oids: seq<string>, x: Entry)
    requires forall i :: 0 <= i < |oids| ==> oids[i] in entries && Bucket(oids[i], entries[oids[i]])
    ensures x in Flat(entries, oids) <==> x.oid in oids && x in entries[x.oid]
  {
    if oids != [] {
      var n := |oids| - 1;
      FlatMembers(entries, oids[..n], x);
      assert oids == oids[..n] + [oids[n]];
      assert Bucket(oids[n], entries[oids[n]]);
    }
  }

  lemma {:induction false} FlatDistinct(entries: map<string, seq<Entry>>, oids: seq<string>)
    requires Distinct(oids) && forall i :: 0 <= i < |oids| ==> oids[i] in entries && Bucket(oids[i], entries[oids[i]])
    ensures Distinct(Flat(entries, oids))
  {
    if oids != [] {
      var n := |oids| - 1;
      FlatDistinct(entries, oids[..n]);
      var a, b := Flat(entries, oids[..n]), entries[oids[n]];
      assert Bucket(oids[n], b);
      forall i, j | 0 <= i < |a| && 0 <= j < |b| ensures a[i] != b[j] {
        FlatMembers(entries, oids[..n], a[i]);
        assert a[i] in a;
      }
    }
  }

  lemma Enumerated(entries: map<string, seq<Entry>>, oids: seq<string>)
    requires oids == Ascending(entries.Keys)
    ensures forall i :: 0 <= i < |oids| ==> oids[i] in entries
  {
    forall i | 0 <= i < |oids| ensures oids[i] in entries {
      assert oids[i] in oids;
    }
  }

  lemma AllBuckets(xs: seq<Entry>, ix: Index)
    requires Indexed(xs, ix)
    ensures var oids := Ascending(ix.entries.Keys);
            forall i :: 0 <= i < |oids| ==> oids[i] in ix.entries && Bucket(oids[i], ix.entries[oids[i]])
    ensures forall x :: InBucket(ix.entries, x) <==> x in xs && Regular(x)
  {
    hide Bucket, InBucket, Regular, BlobsOf;
    Enumerated(ix.entries, Ascending(ix.entries.Keys));
  }

  lemma FlatIsAll(xs: seq<Entry>, ix: Index)
    requires Indexed(xs, ix) && AllRegular(xs)
    ensures var oids := Ascending(ix.entries.Keys);
            (forall i :: 0 <= i < |oids| ==> oids[i] in ix.entries) &&
            Distinct(Flat(ix.entries, oids)) && forall x :: x in Flat(ix.entries, oids) <==> x in xs
  {
    hide Bucket, Regular, Flat, Indexed;
    var oids := Ascending(ix.entries.Keys);
    AllBuckets(xs, ix);
    FlatDistinct(ix.entries, oids);
    forall x ensures x in Flat(ix.entries, oids) <==> x in xs {
      FlatMembers(ix.entries, oids, x);
      assert x.oid in oids <==> x.oid in ix.entries;
      assert InBucket(ix.entries, x) <==> x in xs && Regular(x);
      if x in xs {
        var i :| 0 <= i < |xs| && xs[i] == x;
        assert Regular(xs[i]);
      }
    }
  }

  lemma OidsAreKeys(xs: seq<Entry>, ix: Index)
    requires Indexed(xs, ix)
    ensures ix.entries.Keys == Oids(xs)
  {
    hide Regular, BlobsOf;
    forall o ensures o in ix.entries <==> o in Oids(xs) {
      if o in ix.entries {
        assert Bucket(o, ix.entries[o]);
        var x := ix.entries[o][0];
        assert InBucket(ix.entries, x);
        var i :| 0 <= i < |xs| && xs[i] == x;
      }
      if o in Oids(xs) {
        var i :| 0 <= i < |xs| && Regular(xs[i]) && xs[i].oid == o;
        assert xs[i] in xs;
        assert InBucket(ix.entries, xs[i]);
      }
    }
  }

  // ---------------------------------------------------------------- putting clean together

  lemma SortLength(xs: seq<string>)
    ensures |Sort(xs)| == |xs|
  {
    assert |multiset(Sort(xs))| == |multiset(xs)|;
  }

  lemma NotClean(repo: Repo, sha: string, commits: seq<string>, l: Limits)
    requires sha !in commits || |commits| > l.maxCommits
    ensures !Clean(repo, sha, commits, l)
  {
    hide AllItems, AllTrees, Oids, SumSizes, CommitsRead;
  }

  lemma NotListed(repo: Repo, sha: string, commits: seq<string>, l: Limits)
    requires !ListsClean(repo, sha, commits, l)
    ensures !Clean(repo, sha, commits, l)
  {
    hide AllItems, AllTrees, Oids, SumSizes, CommitsRead, AllRegular, BlobsOf;
  }

  lemma FitsMeet(repo: Repo, l: Limits, s: set<string>)
    ensures FitClean(repo, l, Ascending(s)) <==> AllFit(repo, l, s) && SumSizes(repo, Ascending(s)) <= l.maxTotalBytes
  {
    hide BlobFits, SumSizes;
    var oids := Ascending(s);
    if AllFit(repo, l, s) {
      forall i | 0 <= i < |oids| ensures BlobFits(repo, l, oids[i]) {
        assert oids[i] in oids;
      }
    }
    if forall i :: 0 <= i < |oids| ==> BlobFits(repo, l, oids[i]) {
      forall o | o in s ensures BlobFits(repo, l, o) {
        assert o in oids;
      }
    }
  }

  lemma ReadsMeet(repo: Repo, xs: seq<Entry>, ix: Index)
    requires Indexed(xs, ix) && AllRegular(xs)
    ensures var oids := Ascending(ix.entries.Keys);
            (forall i :: 0 <= i < |oids| ==> oids[i] in ix.entries) &&
            (ReadsClean(repo, ix.entries, oids) <==> AllRead(repo, ix.entries.Keys) && AllClean(repo, xs))
  {
    hide EntrySilent, Regular, Indexed, Bucket;
    var oids := Ascending(ix.entries.Keys);
    AllBuckets(xs, ix);
    if ReadsClean(repo, ix.entries, oids) {
      ReadsGive(repo, xs, ix);
    }
    if AllRead(repo, ix.entries.Keys) && AllClean(repo, xs) {
      forall i | 0 <= i < |oids|
        ensures BlobReads(repo, oids[i]) && BucketSilent(repo, ix.entries[oids[i]], repo.content(oids[i]).value)
      {
        assert oids[i] in oids;
        CleanGives(repo, xs, ix, oids[i]);
      }
    }
  }

  lemma ReadsGive(repo: Repo, xs: seq<Entry>, ix: Index)
    requires Indexed(xs, ix) && AllRegular(xs)
    requires forall i :: 0 <= i < |Ascending(ix.entries.Keys)| ==> Ascending(ix.entries.Keys)[i] in ix.entries
    requires ReadsClean(repo, ix.entries, Ascending(ix.entries.Keys))
    ensures AllRead(repo, ix.entries.Keys) && AllClean(repo, xs)
  {
    hide EntrySilent, Regular, Indexed, Bucket;
    var oids := Ascending(ix.entries.Keys);
    AllBuckets(xs, ix);
    forall o | o in ix.entries.Keys ensures BlobReads(repo, o) && BucketSilent(repo, ix.entries[o], repo.content(o).value) {
      assert o in oids;
      var i :| 0 <= i < |oids| && oids[i] == o;
    }
    forall i | 0 <= i < |xs| ensures EntryClean(repo, xs[i]) {
      var x := xs[i];
      assert x in xs && Regular(xs[i]);
      assert InBucket(ix.entries, x);
      var j :| 0 <= j < |ix.entries[x.oid]| && ix.entries[x.oid][j] == x;
    }
  }

  lemma CleanGives(repo: Repo, xs: seq<Entry>, ix: Index, o: string)
    requires Indexed(xs, ix) && AllRegular(xs) && o in ix.entries
    requires AllRead(repo, ix.entries.Keys) && AllClean(repo, xs)
    ensures BlobReads(repo, o) && BucketSilent(repo, ix.entries[o], repo.content(o).value)
  {
    hide EntrySilent, Regular, BlobsOf;
    var items := ix.entries[o];
    assert Bucket(o, items);
    assert BlobReads(repo, o);
    var bytes := repo.content(o).value;
    forall i | 0 <= i < |items| ensures EntrySilent(repo, items[i], bytes) {
      assert items[i] in items && items[i].oid == o;
      assert InBucket(ix.entries, items[i]);
      CleanEntry(repo, xs, items[i]);
    }
    assert BucketSilent(repo, items, bytes);
  }

  lemma CleanEntry(repo: Repo, xs: seq<Entry>, x: Entry)
    requires AllClean(repo, xs) && x in xs
    ensures EntryClean(repo, x)
  {
    hide EntryClean;
    var j :| 0 <= j < |xs| && xs[j] == x;
  }

  /** Being clean, in the order the loops decide it. */
  lemma CleanSplits(repo: Repo, sha: string, commits: seq<string>, l: Limits, ix: Index)
    requires Indexed(AllItems(repo, commits), ix) && ix.trees == AllTrees(repo, commits)
    requires CommitsRead(repo, sha, commits) && |AllItems(repo, commits)| <= l.maxEntries
    requires sha in commits && |commits| <= l.maxCommits
    ensures var oids := Ascending(ix.entries.Keys);
            (forall i :: 0 <= i < |oids| ==> oids[i] in ix.entries) &&
            (Clean(repo, sha, commits, l) <==>
               AllRegular(AllItems(repo, commits)) && |ix.blobs| + |commits| + |ix.trees| <= l.maxObjects &&
               TreesAreTrees(repo, ix.trees) && FitClean(repo, l, oids) && ReadsClean(repo, ix.entries, oids))
  {
    hide AllItems, AllTrees, Oids, SumSizes, CommitsRead, AllRegular, BlobsOf, Indexed, ReadsClean, FitClean, AllFit, AllRead, AllClean, TreesAreTrees;
    var xs := AllItems(repo, commits);
    AllBuckets(xs, ix);
    OidsAreKeys(xs, ix);
    BlobsNow(xs, ix);
    FitsMeet(repo, l, ix.entries.Keys);
    if AllRegular(xs) {
      ReadsMeet(repo, xs, ix);
    }
  }

  // ---------------------------------------------------------------- a scanner that does not say why

  /** What is the same for every repository: which paths are well formed, which content has which
      object name, what a large-file stub is, and the secret scanner. */
  datatype Checks = Checks(
    path: string -> bool, named: (string, string) -> bool, lfs: string -> bool, scan: (Entry, string) -> ScanReport)

  predicate WellFormed(k: Checks, x: Entry) {
    ValidSha(x.oid) && k.path(x.path)
  }

  predicate AllWellFormed(k: Checks, xs: seq<Entry>) {
    forall i :: 0 <= i < |xs| ==> WellFormed(k, xs[i])
  }

  /** The scan takes no other name than a full object name, and no malformed path. */
  predicate CommitWellFormed(k: Checks, repo: Repo, c: string) {
    && ValidSha(c) && (repo.treeOf(c).Some? ==> ValidSha(repo.treeOf(c).value))
    && AllWellFormed(k, Items(repo, c)) && AllWellFormed(k, Dirs(repo, c))
  }

  /** A history as the scan accepts it: under these checks, the commits listed once in order, all
      names and paths well formed, and every limit set. */
  ghost predicate Scannable(k: Checks, repo: Repo, sha: string, commits: seq<string>, l: Limits) {
    && repo.named == k.named && repo.lfs == k.lfs && repo.scan == k.scan
    && ValidSha(sha) && Distinct(commits) && Sorted(commits) && Positive(l)
    && forall i :: 0 <= i < |commits| ==> CommitWellFormed(k, repo, commits[i])
  }

  /** A file that can get as far as the scanner. */
  predicate Presentable(k: Checks, x: Entry, bytes: string) {
    Regular(x) && WellFormed(k, x) && k.named(x.oid, bytes) && !k.lfs(bytes)
  }

  predicate SilentlyBlocks(k: Checks, x: Entry, bytes: string) {
    k.scan(x, bytes) == ScanReport([], [], true)
  }

  /** The scanner is handed this entry and blocks it. */
  predicate Blocks(repo: Repo, x: Entry) {
    repo.content(x.oid).Some? && repo.scan(x, repo.content(x.oid).value).blocked
  }

  /** A scanner that gives a finding or a code, if only an empty one, with every block. */
  ghost predicate Speaks(k: Checks) {
    forall x, bytes :: Presentable(k, x, bytes) ==> !SilentlyBlocks(k, x, bytes)
  }

  /** Whatever history it is used on, evidence is only safe when the scanner blocked nothing. */
  ghost predicate BlocksCount(k: Checks) {
    forall repo, sha, commits, l, x ::
      Scannable(k, repo, sha, commits, l) && Clean(repo, sha, commits, l) && x in AllItems(repo, commits) ==> !Blocks(repo, x)
  }

  lemma {:induction false} ItemsWellFormed(k: Checks, repo: Repo, commits: seq<string>)
    requires forall i :: 0 <= i < |commits| ==> CommitWellFormed(k, repo, commits[i])
    ensures AllWellFormed(k, AllItems(repo, commits))
  {
    hide WellFormed, ValidSha, Items, Dirs;
    if commits != [] {
      var n := |commits| - 1;
      ItemsWellFormed(k, repo, commits[..n]);
      assert CommitWellFormed(k, repo, commits[n]);
    }
  }

  /** In safe evidence a blocked entry is one whose report has neither findings nor codes. */
  lemma SafeBlockIsSilent(k: Checks, repo: Repo, sha: string, commits: seq<string>, l: Limits, x: Entry)
    requires Scannable(k, repo, sha, commits, l) && Clean(repo, sha, commits, l)
    requires x in AllItems(repo, commits) && Blocks(repo, x)
    ensures Presentable(k, x, repo.content(x.oid).value) && SilentlyBlocks(k, x, repo.content(x.oid).value)
  {
    hide AllItems, AllTrees, SumSizes, CommitsRead, BlobsOf, TreesAreTrees, AllFit, Regular, WellFormed, CommitWellFormed, ValidSha;
    var xs := AllItems(repo, commits);
    ItemsWellFormed(k, repo, commits);
    var j :| 0 <= j < |xs| && xs[j] == x;
    assert EntryClean(repo, xs[j]) && Regular(xs[j]) && WellFormed(k, xs[j]);
    assert x.oid in Oids(xs) && BlobReads(repo, x.oid);
  }

  // The smallest history that shows it: one commit with one file in it.

  function Repeated(c: char, n: nat): (s: string)
    ensures |s| == n && forall i :: 0 <= i < n ==> s[i] == c
  {
    if n == 0 then "" else [c] + Repeated(c, n - 1)
  }

  /** A full object name other than `oid`, of the same length. */
  function CommitBeside(oid: string): string {
    Repeated(if "a" <= oid then 'b' else 'a', |oid|)
  }

  /** Another one. */
  function TreeBeside(oid: string): string {
    Repeated(if "c" <= oid then 'd' else 'c', |oid|)
  }

  lemma ThreeNames(oid: string)
    requires ValidSha(oid)
    ensures ValidSha(CommitBeside(oid)) && ValidSha(TreeBeside(oid))
    ensures CommitBeside(oid) != oid && TreeBeside(oid) != oid && CommitBeside(oid) != TreeBeside(oid)
  {
    hide Repeated;
    assert CommitBeside(oid)[0] != oid[0] && TreeBeside(oid)[0] != oid[0] && CommitBeside(oid)[0] != TreeBeside(oid)[0];
  }

  function OneFile(k: Checks, x: Entry, bytes: string): Repo {
    Repo(
      _ => false, o => if o == x.oid then "blob" else if o == TreeBeside(x.oid) then "tree" else "commit",
      _ => Some(TreeBeside(x.oid)), _ => Listed([x]), _ => Listed([]),
      _ => Some(|bytes|), _ => Some(bytes), k.named, k.lfs, k.scan)
  }

  function RoomFor(bytes: string): Limits {
    var size := if |bytes| > 0 then |bytes| else 1;
    Limits(3, 1, 1, size, size, 1)
  }

  lemma OneFileLists(k: Checks, x: Entry, bytes: string)
    requires Regular(x) && ValidSha(x.oid)
    ensures var repo, c := OneFile(k, x, bytes), CommitBeside(x.oid);
            AllItems(repo, [c]) == [x] && AllTrees(repo, [c]) == {TreeBeside(x.oid)} && CommitReads(repo, c, c) &&
            Oids([x]) == {x.oid} && |BlobsOf([x])| <= 1
  {
    hide ValidSha, CommitBeside, TreeBeside;
    var repo, c := OneFile(k, x, bytes), CommitBeside(x.oid);
    ThreeNames(x.oid);
    var commits: seq<string> := [c];
    assert commits[..0] == [];
    assert AllItems(repo, []) == [] && AllTrees(repo, []) == {};
    assert repo.list(c).entries == [x] && Dirs(repo, c) == [];
    assert DirTrees([]) == {};
    assert TreesOf(repo, c) == {TreeBeside(x.oid)};
    assert [x][0] == x;
    assert Oids([x]) == {x.oid};
    assert BlobsOf([x]) == {x.oid} || BlobsOf([x]) == {};
  }

  lemma OneFileSizes(k: Checks, x: Entry, bytes: string)
    ensures SumSizes(OneFile(k, x, bytes), Ascending({x.oid})) == |bytes|
  {
    AscendingUnique([x.oid], {x.oid});
    var oids: seq<string> := [x.oid];
    assert oids[..0] == [];
  }

  lemma OneFileIsScannable(k: Checks, x: Entry, bytes: string)
    requires Presentable(k, x, bytes)
    ensures var c := CommitBeside(x.oid); Scannable(k, OneFile(k, x, bytes), c, [c], RoomFor(bytes))
  {
    hide ValidSha, CommitBeside, TreeBeside, Regular;
    ThreeNames(x.oid);
  }

  /** The history of a single file, all its names well formed, is clean although the scanner
      blocks the file: the report has no finding and no code. */
  lemma SilentBlockIsClean(k: Checks, x: Entry, bytes: string)
    requires Presentable(k, x, bytes) && SilentlyBlocks(k, x, bytes)
    ensures var repo, c := OneFile(k, x, bytes), CommitBeside(x.oid);
            Scannable(k, repo, c, [c], RoomFor(bytes)) && Clean(repo, c, [c], RoomFor(bytes)) &&
            x in AllItems(repo, [c]) && Blocks(repo, x)
  {
    hide AllItems, AllTrees, Oids, SumSizes, BlobsOf, Regular, CommitReads, Scannable, ValidSha, CommitBeside, TreeBeside;
    var repo, c := OneFile(k, x, bytes), CommitBeside(x.oid);
    ThreeNames(x.oid);
    OneFileIsScannable(k, x, bytes);
    OneFileLists(k, x, bytes);
    OneFileSizes(k, x, bytes);
    assert |{TreeBeside(x.oid)}| == 1;
  }

  /** Safe evidence means that the scanner blocked nothing, whatever history it accepts, exactly
      when the scanner never blocks a file without a finding or a code. */
  lemma BlocksCountExactlyWhenSpoken(k: Checks)
    ensures BlocksCount(k) <==> Speaks(k)
  {
    hide Clean, AllItems, Scannable, Presentable, SilentlyBlocks, OneFile, RoomFor, CommitBeside;
    if Speaks(k) {
      forall repo, sha, commits, l, x
        | Scannable(k, repo, sha, commits, l) && Clean(repo, sha, commits, l) && x in AllItems(repo, commits)
        ensures !Blocks(repo, x)
      {
        if Blocks(repo, x) {
          var bytes := repo.content(x.oid).value;
          assert Presentable(k, x, bytes) ==> !SilentlyBlocks(k, x, bytes);
          SafeBlockIsSilent(k, repo, sha, commits, l, x);
        }
      }
    }
    if !Speaks(k) {
      var x, bytes :| Presentable(k, x, bytes) && SilentlyBlocks(k, x, bytes);
      SilentBlockIsClean(k, x, bytes);
    }
  }
}
