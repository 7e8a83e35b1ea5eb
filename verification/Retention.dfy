/** What retention keeps, row by row: ages go by the timestamps, limits by what is newer. */
module Retention {
  import opened Names
  import opened Reducer
  import opened EventStore
  import opened StoreAgreement
  import opened StoreRuns

  /** A pending receipt has this revision. */
  predicate Waits(g: Gate, n: int) {
    exists id :: id in g.receipts && g.receipts[id].disposition == Pending && g.receipts[id].revision == n
  }

  /** The audit row is not from before the cutoff, or its receipt is pending. */
  predicate InTime(t: Tables, cutoff: Option<string>, n: int)
    requires n in t.trail.rows
  {
    cutoff.None? || Leq(cutoff.value, t.trail.rows[n].createdAt) || Waits(t.gate, n)
  }

  /** The audit rows in time with a later revision. */
  function Later(t: Tables, cutoff: Option<string>, n: int): set<int> {
    set m | m in t.trail.rows && InTime(t, cutoff, m) && m > n
  }

  /** An audit row survives exactly when its receipt is pending, or it is not from before the
      cutoff and fewer rows than the limit are both in time and later. It survives unchanged. */
  lemma AuditRowSurvives(t: Tables, p: RetentionPolicy, n: int)
    ensures var after := Retain(t, p).trail.rows;
            (n in after <==> n in t.trail.rows && InTime(t, p.auditCutoff, n) &&
                             (Waits(t.gate, n) || p.maxAuditRows <= 0 || |Later(t, p.auditCutoff, n)| < p.maxAuditRows)) &&
            (n in after ==> after[n] == t.trail.rows[n])
  {
    hide CompactGate, Earlier, Leq, InTime, Waits;
    var keep := PendingRevisions(t.gate.receipts);
    var young := PruneOldAudit(t.trail.rows, keep, p.auditCutoff);
    forall m ensures m in young <==> m in t.trail.rows && InTime(t, p.auditCutoff, m) {
      OldAuditRow(t, p, m);
    }
    assert (set x | x in young.Keys && x > n) == Later(t, p.auditCutoff, n);
    PendingWaits(t.gate, n);
  }

  lemma PendingWaits(g: Gate, n: int)
    ensures n in PendingRevisions(g.receipts) <==> Waits(g, n)
  {
  }

  lemma OldAuditRow(t: Tables, p: RetentionPolicy, n: int)
    ensures n in PruneOldAudit(t.trail.rows, PendingRevisions(t.gate.receipts), p.auditCutoff) <==>
            n in t.trail.rows && InTime(t, p.auditCutoff, n)
  {
    hide Earlier, Leq, Waits, PendingRevisions;
    PendingWaits(t.gate, n);
    if n in t.trail.rows && p.auditCutoff.Some? {
      EarlierIsBefore(t.trail.rows[n].createdAt, p.auditCutoff.value);
    }
  }

  /** The revisions of hot receipts that are greater. */
  function Newer(g: Gate, revision: int): set<int> {
    set id | id in g.receipts && g.receipts[id].revision > revision :: g.receipts[id].revision
  }

  /** A receipt stays hot, unchanged, exactly when it is pending or buffered, the policy says
      nothing of receipts, it is not from before the cutoff, or fewer receipts than the limit
      are newer. Else its tombstone has it. */
  lemma ReceiptStaysHot(t: Tables, p: RetentionPolicy, id: string)
    requires Agrees(t) && id in t.gate.receipts
    ensures var row, after := t.gate.receipts[id], Retain(t, p).gate;
            (id in after.receipts <==>
             || row.disposition == Pending || id in t.gate.pending
             || (p.receiptCutoff.None? && p.maxReceiptRows <= 0)
             || (p.receiptCutoff.Some? && Leq(p.receiptCutoff.value, row.createdAt))
             || (p.maxReceiptRows > 0 && |Newer(t.gate, row.revision)| < p.maxReceiptRows)) &&
            (if id in after.receipts then after.receipts[id] == row else id in after.tombstones && after.tombstones[id] == row)
  {
    hide Agrees, Union, GateSound, PruneOldAudit, PruneExcessAudit, PendingRevisions, Earlier, Leq, Entombed, Newer, Compactable,
      RevisionsOf;
    var g := t.gate;
    SoundGate(t);
    CompactableExactly(g, p, id);
    CompactedAreSettled(g, p);
    EntombedAll(g, Compacted(g, p));
  }

  lemma CompactableExactly(g: Gate, p: RetentionPolicy, id: string)
    requires id in g.receipts
    ensures var row := g.receipts[id];
            Compactable(g, p, id) <==>
            && row.disposition != Pending && id !in g.pending
            && (p.receiptCutoff.Some? ==> !Leq(p.receiptCutoff.value, row.createdAt))
            && (p.maxReceiptRows > 0 ==> |Newer(g, row.revision)| >= p.maxReceiptRows)
  {
    hide Earlier, Leq;
    var row := g.receipts[id];
    assert (set x | x in RevisionsOf(g.receipts) && x > row.revision) == Newer(g, row.revision);
    if p.receiptCutoff.Some? {
      EarlierIsBefore(row.createdAt, p.receiptCutoff.value);
    }
  }

  // ---------------------------------------------------------------- how many are the newest

  lemma {:induction false} GreatestInt(s: set<int>) returns (m: int)
    requires s != {}
    ensures m in s && forall x :: x in s ==> x <= m
    decreases |s|
  {
    var x := Member(s);
    m := x;
    var rest := s - {x};
    if rest != {} {
      var k := GreatestInt(rest);
      m := if k > x then k else x;
    }
    forall y | y in s ensures y <= m {
      if y != x {
        assert y in rest;
      }
    }
  }

  function Above(revisions: set<int>, r: int): set<int> {
    set x | x in revisions && x > r
  }

  /** The members fewer than `n` others are greater than. */
  function Newest(revisions: set<int>, n: int): set<int> {
    set r | r in revisions && |Above(revisions, r)| < n
  }

  lemma WithoutGreatest(revisions: set<int>, g: int, n: nat, r: int)
    requires g in revisions && (forall x :: x in revisions ==> x <= g) && n > 0
    ensures r in Newest(revisions, n) <==> r == g || r in Newest(revisions - {g}, n - 1)
  {
    if r == g {
      assert Above(revisions, r) == {};
    } else if r in revisions {
      assert Above(revisions, r) == Above(revisions - {g}, r) + {g};
    }
  }

  lemma NewestGrow(revisions: set<int>, g: int, n: nat)
    requires g in revisions && (forall x :: x in revisions ==> x <= g) && n > 0
    ensures Newest(revisions, n) == Newest(revisions - {g}, n - 1) + {g}
    ensures g !in Newest(revisions - {g}, n - 1)
  {
    forall r ensures r in Newest(revisions, n) <==> r in Newest(revisions - {g}, n - 1) + {g} {
      WithoutGreatest(revisions, g, n, r);
    }
  }

  lemma NoneNewest(revisions: set<int>, n: nat)
    requires n == 0 || revisions == {}
    ensures Newest(revisions, n) == {}
  {
  }

  /** The newest `n` are `n`, or all there are. */
  lemma {:induction false} NewestAreExactly(revisions: set<int>, n: nat)
    ensures |Newest(revisions, n)| == if |revisions| < n then |revisions| else n
    decreases n
  {
    hide Newest;
    if n == 0 || revisions == {} {
      NoneNewest(revisions, n);
    } else {
      var g := GreatestInt(revisions);
      NewestAreExactly(revisions - {g}, n - 1);
      NewestGrow(revisions, g, n);
      assert |revisions - {g}| == |revisions| - 1;
    }
  }
}
