/** What it takes for a history to be clean, said of Git's and the scanner's answers alone. */
module CleanHistory {
  import opened Names
  import opened HistoryScan

  /** What the scan asks of one regular entry: an ordinary file, whose object is a blob within
      the limit, whose bytes are its own, no large-file stub, and not objected to. */
  predicate FileIsFine(repo: Repo, l: Limits, x: Entry) {
    && x.kind == "blob" && (x.mode == "100644" || x.mode == "100755")
    && repo.kindOf(x.oid) == "blob"
    && repo.sizeOf(x.oid).Some? && repo.sizeOf(x.oid).value <= l.maxBlobBytes
    && repo.content(x.oid).Some? && |repo.content(x.oid).value| == repo.sizeOf(x.oid).value
    && repo.named(x.oid, repo.content(x.oid).value)
    && !repo.lfs(repo.content(x.oid).value)
    && var report := repo.scan(x, repo.content(x.oid).value);
       report.findings == [] && (forall r :: r in report.reasons ==> r == "") && (report.blocked ==> report.reasons == [])
  }

  /** What it asks of an entry in a list of directories. */
  predicate DirectoryIsFine(repo: Repo, y: Entry) {
    (y.kind == "commit" && y.mode == "160000") || (y.kind == "tree" && y.mode == "040000" && repo.kindOf(y.oid) == "tree")
  }

  /** The commit is the candidate or its ancestor, and is all that Git was asked about it. */
  predicate CommitIsFine(repo: Repo, sha: string, l: Limits, c: string) {
    && (c == sha || repo.isAncestor(c)) && repo.kindOf(c) == "commit"
    && repo.treeOf(c).Some? && repo.kindOf(repo.treeOf(c).value) == "tree"
    && repo.list(c).Listed? && repo.dirs(c).Listed?
    && (forall x :: x in repo.list(c).entries ==> FileIsFine(repo, l, x))
    && (forall y :: y in repo.dirs(c).entries ==> DirectoryIsFine(repo, y))
  }

  /** The objects that entries of these commits name. */
  ghost function Files(repo: Repo, commits: seq<string>): set<string> {
    set c, x | c in commits && repo.list(c).Listed? && x in repo.list(c).entries :: x.oid
  }

  /** Their trees, and the directories in them. */
  ghost function Trees(repo: Repo, commits: seq<string>): set<string> {
    (set c | c in commits && repo.treeOf(c).Some? :: repo.treeOf(c).value) +
    (set c, y | c in commits && repo.dirs(c).Listed? && y in repo.dirs(c).entries && y.kind == "tree" :: y.oid)
  }

  /** How many entries are listed, repeats included. */
  function Listings(repo: Repo, commits: seq<string>): nat {
    if commits == [] then 0
    else (if repo.list(commits[0]).Listed? then |repo.list(commits[0]).entries| else 0) + Listings(repo, commits[1..])
  }

  /** The sizes of these objects together. */
  function Bytes(repo: Repo, oids: seq<string>): nat {
    if oids == [] then 0
    else (if repo.sizeOf(oids[0]).Some? then repo.sizeOf(oids[0]).value else 0) + Bytes(repo, oids[1..])
  }

  // ---------------------------------------------------------------- the lists, taken together

  predicate Lists(repo: Repo, c: string, x: Entry) {
    repo.list(c).Listed? && x in repo.list(c).entries
  }

  lemma {:induction false} ItemsAre(repo: Repo, commits: seq<string>, x: Entry)
    ensures x in AllItems(repo, commits) <==> exists c :: c in commits && Lists(repo, c, x)
  {
    if commits != [] {
      var n := |commits| - 1;
      ItemsAre(repo, commits[..n], x);
      assert forall c :: c in commits <==> c in commits[..n] || c == commits[n];
      assert x in Items(repo, commits[n]) <==> Lists(repo, commits[n], x);
    }
  }

  lemma {:induction false} ListingsSnoc(repo: Repo, commits: seq<string>, c: string)
    ensures Listings(repo, commits + [c]) == Listings(repo, commits) + |Items(repo, c)|
  {
    if commits != [] {
      assert (commits + [c])[1..] == commits[1..] + [c];
      ListingsSnoc(repo, commits[1..], c);
    }
  }

  lemma {:induction false} ListingsCount(repo: Repo, commits: seq<string>)
    ensures |AllItems(repo, commits)| == Listings(repo, commits)
  {
    if commits != [] {
      var n := |commits| - 1;
      ListingsCount(repo, commits[..n]);
      ListingsSnoc(repo, commits[..n], commits[n]);
      assert commits[..n] + [commits[n]] == commits;
    }
  }

  lemma {:induction false} TreesAre(repo: Repo, commits: seq<string>, t: string)
    ensures t in AllTrees(repo, commits) <==> exists c :: c in commits && t in TreesOf(repo, c)
  {
    hide TreesOf;
    if commits != [] {
      var n := |commits| - 1;
      TreesAre(repo, commits[..n], t);
      assert forall c :: c in commits <==> c in commits[..n] || c == commits[n];
    }
  }

  lemma {:induction false} BytesSnoc(repo: Repo, oids: seq<string>, o: string)
    ensures Bytes(repo, oids + [o]) == Bytes(repo, oids) + SizeOr0(repo, o)
  {
    if oids != [] {
      assert (oids + [o])[1..] == oids[1..] + [o];
      BytesSnoc(repo, oids[1..], o);
    }
  }

  lemma {:induction false} BytesSum(repo: Repo, oids: seq<string>)
    ensures SumSizes(repo, oids) == Bytes(repo, oids)
  {
    if oids != [] {
      var n := |oids| - 1;
      BytesSum(repo, oids[..n]);
      BytesSnoc(repo, oids[..n], oids[n]);
      assert oids[..n] + [oids[n]] == oids;
    }
  }

  // ---------------------------------------------------------------- what clean means

  /** The part of being clean that is about single entries, trees and objects. */
  ghost predicate PartsClean(repo: Repo, sha: string, commits: seq<string>, l: Limits) {
    var xs := AllItems(repo, commits);
    CommitsRead(repo, sha, commits) && AllRegular(xs) && TreesAreTrees(repo, AllTrees(repo, commits)) &&
    AllFit(repo, l, Oids(xs)) && AllRead(repo, Oids(xs)) && AllClean(repo, xs)
  }

  lemma EntryParts(repo: Repo, l: Limits, x: Entry)
    ensures FileIsFine(repo, l, x) <==> Regular(x) && BlobFits(repo, l, x.oid) && BlobReads(repo, x.oid) && EntryClean(repo, x)
  {
    if repo.content(x.oid).Some? {
      ReasonsAre(repo.scan(x, repo.content(x.oid).value).reasons);
    }
  }

  lemma ReasonsAre(reasons: seq<string>)
    ensures NoReasons(reasons) <==> forall r :: r in reasons ==> r == ""
  {
    if forall r :: r in reasons ==> r == "" {
      forall i | 0 <= i < |reasons| ensures reasons[i] == "" {
        assert reasons[i] in reasons;
      }
    }
  }

  lemma FineEntry(repo: Repo, sha: string, commits: seq<string>, l: Limits, x: Entry)
    requires PartsClean(repo, sha, commits, l) && x in AllItems(repo, commits)
    ensures FileIsFine(repo, l, x)
  {
    hide AllItems, FileIsFine, Regular, BlobFits, BlobReads, EntryClean, CommitsRead, AllTrees, TreesAreTrees;
    EntryParts(repo, l, x);
    var xs := AllItems(repo, commits);
    var j :| 0 <= j < |xs| && xs[j] == x;
    assert Regular(xs[j]) && EntryClean(repo, xs[j]);
    assert x.oid in Oids(xs);
  }

  lemma FineTree(repo: Repo, sha: string, commits: seq<string>, l: Limits, c: string, t: string)
    requires PartsClean(repo, sha, commits, l) && c in commits && t in TreesOf(repo, c)
    ensures repo.kindOf(t) == "tree"
  {
    hide AllItems, AllTrees, CommitsRead, AllRegular, AllFit, AllRead, AllClean, Oids, TreesOf;
    TreesAre(repo, commits, t);
  }

  lemma FineCommit(repo: Repo, sha: string, commits: seq<string>, l: Limits, c: string)
    requires PartsClean(repo, sha, commits, l) && c in commits
    ensures CommitIsFine(repo, sha, l, c)
  {
    hide AllItems, AllTrees, AllRegular, AllFit, AllRead, AllClean, Oids, TreesAreTrees, FileIsFine;
    assert CommitReads(repo, sha, c);
    FineTree(repo, sha, commits, l, c, repo.treeOf(c).value);
    forall x | x in repo.list(c).entries ensures FileIsFine(repo, l, x) {
      assert Lists(repo, c, x);
      ItemsAre(repo, commits, x);
      FineEntry(repo, sha, commits, l, x);
    }
    forall y | y in repo.dirs(c).entries ensures DirectoryIsFine(repo, y) {
      var i :| 0 <= i < |Dirs(repo, c)| && Dirs(repo, c)[i] == y;
      if !Gitlink(y) {
        assert y.oid in DirTrees(Dirs(repo, c));
        FineTree(repo, sha, commits, l, c, y.oid);
      }
    }
  }

  /** What a fine commit lists is fine. */
  lemma ListedIsFine(repo: Repo, sha: string, commits: seq<string>, l: Limits, x: Entry)
    requires (forall c :: c in commits ==> CommitIsFine(repo, sha, l, c)) && x in AllItems(repo, commits)
    ensures FileIsFine(repo, l, x)
  {
    hide AllItems, FileIsFine, DirectoryIsFine;
    ItemsAre(repo, commits, x);
    var c :| c in commits && Lists(repo, c, x);
    assert CommitIsFine(repo, sha, l, c);
  }

  lemma FineReads(repo: Repo, sha: string, l: Limits, c: string)
    requires CommitIsFine(repo, sha, l, c)
    ensures CommitReads(repo, sha, c)
    ensures forall t :: t in TreesOf(repo, c) ==> repo.kindOf(t) == "tree"
  {
    hide FileIsFine;
    var ys := Dirs(repo, c);
    forall i | 0 <= i < |ys| ensures DirectoryIsFine(repo, ys[i]) {
      assert ys[i] in repo.dirs(c).entries;
    }
  }

  lemma PartsOf(repo: Repo, sha: string, commits: seq<string>, l: Limits)
    requires forall c :: c in commits ==> CommitIsFine(repo, sha, l, c)
    ensures PartsClean(repo, sha, commits, l)
  {
    hide AllItems, AllTrees, CommitIsFine, FileIsFine, Regular, BlobFits, BlobReads, EntryClean, CommitReads, TreesOf;
    var xs := AllItems(repo, commits);
    forall x | x in xs ensures Regular(x) && BlobFits(repo, l, x.oid) && BlobReads(repo, x.oid) && EntryClean(repo, x) {
      ListedIsFine(repo, sha, commits, l, x);
      EntryParts(repo, l, x);
    }
    forall c | c in commits
      ensures CommitReads(repo, sha, c) && forall t :: t in TreesOf(repo, c) ==> repo.kindOf(t) == "tree"
    {
      FineReads(repo, sha, l, c);
    }
    forall t | t in AllTrees(repo, commits) ensures repo.kindOf(t) == "tree" {
      TreesAre(repo, commits, t);
    }
  }

  lemma FilesAre(repo: Repo, sha: string, commits: seq<string>, l: Limits)
    requires forall c :: c in commits ==> CommitIsFine(repo, sha, l, c)
    ensures var xs := AllItems(repo, commits); BlobsOf(xs) == Oids(xs) == Files(repo, commits)
  {
    hide AllItems, CommitIsFine, FileIsFine, BlobFits, BlobReads, EntryClean;
    var xs := AllItems(repo, commits);
    ModesDiffer();
    forall i | 0 <= i < |xs| ensures Regular(xs[i]) && !Submodule(xs[i]) {
      assert xs[i] in xs;
      ListedIsFine(repo, sha, commits, l, xs[i]);
      EntryParts(repo, l, xs[i]);
    }
    forall o ensures o in Oids(xs) <==> o in Files(repo, commits) {
      if o in Oids(xs) {
        var i :| 0 <= i < |xs| && xs[i].oid == o;
        assert xs[i] in xs;
        ItemsAre(repo, commits, xs[i]);
      }
      if o in Files(repo, commits) {
        var c, x :| c in commits && repo.list(c).Listed? && x in repo.list(c).entries && x.oid == o;
        assert Lists(repo, c, x);
        ItemsAre(repo, commits, x);
        var i :| 0 <= i < |xs| && xs[i] == x;
      }
    }
  }

  lemma TreesOfOne(repo: Repo, sha: string, l: Limits, c: string, t: string)
    requires CommitIsFine(repo, sha, l, c)
    ensures t in TreesOf(repo, c) <==>
            t == repo.treeOf(c).value || exists y :: y in repo.dirs(c).entries && y.kind == "tree" && y.oid == t
  {
    hide FileIsFine;
    var ys := Dirs(repo, c);
    KindsDiffer();
    forall i | 0 <= i < |ys| ensures DirectoryIsFine(repo, ys[i]) {
      assert ys[i] in repo.dirs(c).entries;
    }
  }

  lemma KindsDiffer()
    ensures "commit" != "tree"
  {
    assert "commit"[0] != "tree"[0];
  }

  lemma TreesAreAll(repo: Repo, sha: string, commits: seq<string>, l: Limits)
    requires forall c :: c in commits ==> CommitIsFine(repo, sha, l, c)
    ensures AllTrees(repo, commits) == Trees(repo, commits)
  {
    hide AllTrees, TreesOf, FileIsFine, DirectoryIsFine;
    forall t ensures t in AllTrees(repo, commits) <==> t in Trees(repo, commits) {
      TreesAre(repo, commits, t);
      forall c | c in commits
        ensures t in TreesOf(repo, c) <==>
                t == repo.treeOf(c).value || exists y :: y in repo.dirs(c).entries && y.kind == "tree" && y.oid == t
      {
        TreesOfOne(repo, sha, l, c, t);
      }
    }
  }

  /** Safe evidence means this, and this is enough for it: the candidate is among its commits,
      every commit is fine, and commits, entries, objects and bytes keep within their limits. */
  lemma CleanMeans(repo: Repo, sha: string, commits: seq<string>, l: Limits)
    ensures Clean(repo, sha, commits, l) <==>
            && sha in commits && |commits| <= l.maxCommits
            && (forall c :: c in commits ==> CommitIsFine(repo, sha, l, c))
            && Listings(repo, commits) <= l.maxEntries
            && |Files(repo, commits)| + |commits| + |Trees(repo, commits)| <= l.maxObjects
            && Bytes(repo, Ascending(Files(repo, commits))) <= l.maxTotalBytes
  {
    hide AllItems, AllTrees, CommitsRead, AllRegular, TreesAreTrees, AllFit, AllRead, AllClean, Oids, BlobsOf, SumSizes, CommitIsFine,
      Files, Trees, Listings, Bytes;
    ListingsCount(repo, commits);
    if PartsClean(repo, sha, commits, l) {
      forall c | c in commits ensures CommitIsFine(repo, sha, l, c) {
        FineCommit(repo, sha, commits, l, c);
      }
    }
    if forall c :: c in commits ==> CommitIsFine(repo, sha, l, c) {
      PartsOf(repo, sha, commits, l);
      FilesAre(repo, sha, commits, l);
      TreesAreAll(repo, sha, commits, l);
      BytesSum(repo, Ascending(Files(repo, commits)));
    }
  }
}
