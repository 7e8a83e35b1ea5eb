/** Strings in Go's order, and sorting: what `sort.Strings` and a map's key set mean; and the
    forms of object names and digests. */
module Names {

  datatype Option<+T> = None | Some(value: T)

  /** Byte-lexicographic order, the order of Go's `<=` on strings. */
  predicate Leq(a: string, b: string) {
    a == "" || (b != "" && (a[0] < b[0] || (a[0] == b[0] && Leq(a[1..], b[1..]))))
  }

  lemma {:induction false} LeqTotal(a: string, b: string)
    ensures Leq(a, b) || Leq(b, a)
  {
    if a != "" && b != "" && a[0] == b[0] {
      LeqTotal(a[1..], b[1..]);
    }
  }

  lemma {:induction false} LeqAntisymmetric(a: string, b: string)
    requires Leq(a, b) && Leq(b, a)
    ensures a == b
  {
    if a != "" && b != "" {
      LeqAntisymmetric(a[1..], b[1..]);
      assert a == [a[0]] + a[1..] && b == [b[0]] + b[1..];
    }
  }

  lemma {:induction false} LeqTransitive(a: string, b: string, c: string)
    requires Leq(a, b) && Leq(b, c)
    ensures Leq(a, c)
  {
    if a != "" && a[0] == b[0] && b[0] == c[0] {
      LeqTransitive(a[1..], b[1..], c[1..]);
    }
  }

  /** One string is before another when it begins it, or at the first place where they differ
      its character is the lesser. */
  lemma {:induction false} LeqIsFirstDifference(a: string, b: string)
    ensures Leq(a, b) <==> a <= b || exists k :: 0 <= k < |a| && k < |b| && a[..k] == b[..k] && a[k] < b[k]
  {
    if a == "" || b == "" {
      return;
    }
    var c, d := a[1..], b[1..];
    LeqIsFirstDifference(c, d);
    if a[0] == b[0] {
      forall k | 0 <= k < |c| && k < |d| && c[..k] == d[..k] && c[k] < d[k]
        ensures a[..k + 1] == b[..k + 1] && a[k + 1] < b[k + 1]
      {
        assert a[..k + 1] == [a[0]] + c[..k] && b[..k + 1] == [b[0]] + d[..k];
      }
      forall k | 0 < k < |a| && k < |b| && a[..k] == b[..k] && a[k] < b[k]
        ensures c[..k - 1] == d[..k - 1] && c[k - 1] < d[k - 1]
      {
        assert c[..k - 1] == a[..k][1..] && d[..k - 1] == b[..k][1..];
      }
    }
  }

  predicate Sorted(xs: seq<string>) {
    forall i, j :: 0 <= i < j < |xs| ==> Leq(xs[i], xs[j])
  }

  predicate Distinct<T(==)>(xs: seq<T>) {
    forall i, j :: 0 <= i < j < |xs| ==> xs[i] != xs[j]
  }

  ghost predicate Least(m: string, s: set<string>) {
    m in s && forall x :: x in s ==> Leq(m, x)
  }

  lemma {:induction false} LeastExists(s: set<string>)
    requires s != {}
    ensures exists m :: Least(m, s)
    decreases |s|
  {
    var x :| x in s;
    LeqTotal(x, x);
    if s == {x} {
      assert Least(x, s);
    } else {
      var rest := s - {x};
      LeastExists(rest);
      var m :| Least(m, rest);
      LeqTotal(x, m);
      var k := if Leq(x, m) then x else m;
      forall y | y in s ensures Leq(k, y) {
        if y != x && k == x {
          LeqTransitive(x, m, y);
        }
      }
      assert Least(k, s);
    }
  }

  ghost function Min(s: set<string>): (m: string)
    requires s != {}
    ensures Least(m, s)
  {
    LeastExists(s);
    var m :| Least(m, s);
    m
  }

  /** The members of a finite set in ascending order: the result of collecting a map's keys
      in any order and sorting them. */
  ghost function Ascending(s: set<string>): (xs: seq<string>)
    ensures forall x :: x in xs <==> x in s
    ensures Distinct(xs) && Sorted(xs)
    ensures |xs| == |s|
    decreases |s|
  {
    if s == {} then [] else
      var m := Min(s);
      var rest := Ascending(s - {m});
      assert forall i :: 0 <= i < |rest| ==> rest[i] in rest;
      [m] + rest
  }

  function Insert(x: string, xs: seq<string>): (ys: seq<string>)
    ensures multiset(ys) == multiset(xs) + multiset{x}
  {
    if xs == [] then [x]
    else if Leq(x, xs[0]) then [x] + xs
    else
      assert xs == [xs[0]] + xs[1..];
      [xs[0]] + Insert(x, xs[1..])
  }

  /** `sort.Strings`: a sorted permutation. */
  function Sort(xs: seq<string>): (ys: seq<string>)
    ensures multiset(ys) == multiset(xs)
  {
    if xs == [] then []
    else
      assert xs == [xs[0]] + xs[1..];
      Insert(xs[0], Sort(xs[1..]))
  }

  lemma MembersOf(xs: seq<string>, ys: seq<string>, x: string)
    requires multiset(xs) == multiset(ys)
    ensures x in xs <==> x in ys
  {
    assert x in xs <==> x in multiset(xs);
    assert x in ys <==> x in multiset(ys);
  }

  lemma {:induction false} InsertSorted(x: string, xs: seq<string>)
    requires Sorted(xs)
    ensures Sorted(Insert(x, xs))
  {
    if xs != [] {
      var rest := xs[1..];
      LeqTotal(x, xs[0]);
      if Leq(x, xs[0]) {
        forall j | 0 <= j < |xs| ensures Leq(x, xs[j]) {
          if j > 0 {
            LeqTransitive(x, xs[0], xs[j]);
          }
        }
      } else {
        InsertSorted(x, rest);
        var ys := Insert(x, rest);
        forall j | 0 <= j < |ys| ensures Leq(xs[0], ys[j]) {
          MembersOf(ys, [x] + rest, ys[j]);
          assert ys[j] == x || ys[j] in rest;
        }
      }
    }
  }

  lemma {:induction false} SortSorted(xs: seq<string>)
    ensures Sorted(Sort(xs))
  {
    if xs != [] {
      SortSorted(xs[1..]);
      InsertSorted(xs[0], Sort(xs[1..]));
    }
  }

  lemma FirstIsMin(xs: seq<string>, s: set<string>)
    requires xs != [] && Sorted(xs) && (forall x :: x in xs <==> x in s)
    ensures s != {} && Min(s) == xs[0]
  {
    assert xs[0] in s;
    var m := Min(s);
    var i :| 0 <= i < |xs| && xs[i] == m;
    if i != 0 {
      LeqAntisymmetric(m, xs[0]);
    }
  }

  lemma RestOf(xs: seq<string>, s: set<string>)
    requires xs != [] && Distinct(xs) && forall x :: x in xs <==> x in s
    ensures forall x :: x in xs[1..] <==> x in s - {xs[0]}
    ensures Distinct(xs[1..])
  {
    forall x ensures x in xs[1..] <==> x in s - {xs[0]} {
      assert x in xs <==> x == xs[0] || x in xs[1..];
    }
  }

  lemma AscendingOf(s: set<string>)
    requires s != {}
    ensures Ascending(s) == [Min(s)] + Ascending(s - {Min(s)})
  {
  }

  /** A set has exactly one ascending enumeration. */
  lemma {:induction false} AscendingUnique(xs: seq<string>, s: set<string>)
    requires Sorted(xs) && Distinct(xs)
    requires forall x :: x in xs <==> x in s
    ensures xs == Ascending(s)
    decreases |s|
  {
    hide Leq, Ascending;
    if xs == [] {
      assert s == {};
    } else {
      FirstIsMin(xs, s);
      RestOf(xs, s);
      AscendingUnique(xs[1..], s - {xs[0]});
      AscendingOf(s);
    }
  }

  lemma DistinctPermutation(xs: seq<string>, ys: seq<string>)
    requires Distinct(xs) && multiset(xs) == multiset(ys)
    ensures Distinct(ys)
  {
    forall i, j | 0 <= i < j < |ys| ensures ys[i] != ys[j] {
      if ys[i] == ys[j] {
        assert ys == ys[..i] + [ys[i]] + ys[i+1..j] + [ys[j]] + ys[j+1..];
        assert multiset(xs)[ys[i]] >= 2;
        CountOfDistinct(xs, ys[i]);
      }
    }
  }

  lemma {:induction false} CountOfDistinct(xs: seq<string>, x: string)
    requires Distinct(xs)
    ensures multiset(xs)[x] <= 1
  {
    if xs != [] {
      assert xs == [xs[0]] + xs[1..];
      CountOfDistinct(xs[1..], x);
      if xs[0] == x {
        assert x !in xs[1..];
      }
    }
  }

  /** Collecting distinct keys in any order and sorting them enumerates the key set in
      ascending order, so Go's random map order never shows. */
  lemma SortIsAscending(xs: seq<string>)
    requires Distinct(xs)
    ensures Sort(xs) == Ascending(set x | x in xs)
  {
    SortSorted(xs);
    DistinctPermutation(xs, Sort(xs));
    forall x ensures x in Sort(xs) <==> x in (set y | y in xs) {
      MembersOf(xs, Sort(xs), x);
    }
    AscendingUnique(Sort(xs), set x | x in xs);
  }

  // ---------------------------------------------------------------- object names and digests

  predicate LowerHex(s: string) {
    forall i :: 0 <= i < |s| ==> '0' <= s[i] <= '9' || 'a' <= s[i] <= 'f'
  }

  /** A full Git object name. */
  predicate ValidSha(s: string) {
    (|s| == 40 || |s| == 64) && LowerHex(s)
  }

  predicate ValidDigest(s: string) {
    || ("sha256:" <= s && |s| == 71 && LowerHex(s[7..]))
    || ("hmac-sha256:" <= s && |s| == 76 && LowerHex(s[12..]))
  }

  /** One of the sixteen. */
  predicate Hex(c: char) {
    c in "0123456789abcdef"
  }

  lemma HexDigits(s: string)
    ensures LowerHex(s) <==> forall c :: c in s ==> Hex(c)
  {
    assert forall c :: Hex(c) <==> '0' <= c <= '9' || 'a' <= c <= 'f';
    if forall c :: c in s ==> Hex(c) {
      forall i | 0 <= i < |s| ensures Hex(s[i]) {
        assert s[i] in s;
      }
    }
  }

  /** A full name is 40 or 64 hexadecimal digits. */
  lemma NamesAreHex(s: string)
    ensures ValidSha(s) <==> (|s| == 40 || |s| == 64) && forall c :: c in s ==> Hex(c)
  {
    HexDigits(s);
  }

  /** A digest is one of two prefixes and 64 of them. */
  lemma DigestsAreHex(d: string, h: string)
    ensures d in {"sha256:" + h, "hmac-sha256:" + h} ==> (ValidDigest(d) <==> |h| == 64 && forall c :: c in h ==> Hex(c))
    ensures ValidDigest(d) ==> "sha256:" <= d || "hmac-sha256:" <= d
  {
    HexDigits(h);
    assert ("sha256:" + h)[7..] == h && ("hmac-sha256:" + h)[12..] == h;
    assert ("sha256:" + h)[0] == 's' && ("hmac-sha256:" + h)[0] == 'h';
  }
}
