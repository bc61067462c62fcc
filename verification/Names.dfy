/** Options, object names, and the ordered lists of namespace and key names that the
    controller works through. */
module Names {

  datatype Option<+T> = None | Some(value: T)

  /** Identifies a namespaced object: a ConfigMap or a ConfigPropagation resource. */
  datatype NamespacedName = NamespacedName(ns: string, name: string)

  // ---------------------------------------------------------------------------
  // The order of Go strings
  // ---------------------------------------------------------------------------

  predicate Leq(a: string, b: string) {
    a == "" || (b != "" && (a[0] < b[0] || (a[0] == b[0] && Leq(a[1..], b[1..]))))
  }

  predicate Less(a: string, b: string) {
    a != b && Leq(a, b)
  }

  lemma LeqTotal(a: string, b: string)
    ensures Leq(a, b) || Leq(b, a)
  {
  }

  lemma {:induction false} LeqAntisymmetric(a: string, b: string)
    requires Leq(a, b) && Leq(b, a)
    ensures a == b
  {
    if a == "" {
    } else {
      LeqAntisymmetric(a[1..], b[1..]);
      assert a == [a[0]] + a[1..] && b == [b[0]] + b[1..];
    }
  }

  lemma {:induction false} LeqTransitive(a: string, b: string, c: string)
    requires Leq(a, b) && Leq(b, c)
    ensures Leq(a, c)
  {
    if a != "" && a[0] == b[0] == c[0] {
      LeqTransitive(a[1..], b[1..], c[1..]);
    }
  }

  /** The order of Go strings: the smaller character at the first difference comes first, and a
      string comes before its extensions. */
  lemma {:induction false} FirstDifferenceDecides(common: string, x: char, y: char, a: string, b: string)
    requires x != y
    ensures Less(common + [x] + a, common + [y] + b) <==> x < y
    ensures Less(common, common + [x] + a)
  {
    if common == "" {
      assert ([] + [x] + a)[0] == x && ([] + [y] + b)[0] == y;
    } else {
      FirstDifferenceDecides(common[1..], x, y, a, b);
      var s, t := common + [x] + a, common + [y] + b;
      assert s[0] == t[0] == common[0];
      assert s[1..] == common[1..] + [x] + a && t[1..] == common[1..] + [y] + b;
    }
  }

  lemma LessTrichotomy(a: string, b: string)
    ensures a == b || Less(a, b) || Less(b, a)
    ensures !(Less(a, b) && Less(b, a))
  {
    LeqTotal(a, b);
    if Leq(a, b) && Leq(b, a) {
      LeqAntisymmetric(a, b);
    }
  }

  lemma LessTransitive(a: string, b: string, c: string)
    requires Less(a, b) && Less(b, c)
    ensures Less(a, c)
  {
    LeqTransitive(a, b, c);
    if a == c {
      LeqAntisymmetric(a, b);
    }
  }

  // ---------------------------------------------------------------------------
  // Lists as sets
  // ---------------------------------------------------------------------------

  function Elements(s: seq<string>): set<string> {
    set x | x in s
  }

  predicate NoDuplicates(s: seq<string>) {
    forall i, j :: 0 <= i < j < |s| ==> s[i] != s[j]
  }

  predicate Ascending(s: seq<string>) {
    forall i, j :: 0 <= i < j < |s| ==> Less(s[i], s[j])
  }

  function Take(s: seq<string>, n: nat): seq<string> {
    if n < |s| then s[..n] else s
  }

  lemma {:induction false} ElementsCount(s: seq<string>)
    requires NoDuplicates(s)
    ensures |Elements(s)| == |s|
  {
    if s == [] {
    } else {
      var front := s[..|s| - 1];
      ElementsCount(front);
      assert Elements(s) == Elements(front) + {s[|s| - 1]};
    }
  }

  lemma AscendingNoDuplicates(s: seq<string>)
    requires Ascending(s)
    ensures NoDuplicates(s) && |Elements(s)| == |s|
  {
    ElementsCount(s);
  }

  // ---------------------------------------------------------------------------
  // sort.Strings
  // ---------------------------------------------------------------------------

  /** Puts a new name into its place in an ascending list. */
  function Insert(x: string, s: seq<string>): (r: seq<string>)
    ensures forall y :: y in r <==> y == x || y in s
  {
    if s == [] || Leq(x, s[0]) then [x] + s else [s[0]] + Insert(x, s[1..])
  }

  lemma {:induction false} InsertAscending(x: string, s: seq<string>)
    requires Ascending(s) && x !in s
    ensures Ascending(Insert(x, s))
  {
    if s == [] {
    } else if Leq(x, s[0]) {
      forall i | 0 < i < |s| ensures Less(x, s[i]) {
        LessTransitive(x, s[0], s[i]);
      }
    } else {
      LeqTotal(x, s[0]);
      InsertAscending(x, s[1..]);
      var tail := Insert(x, s[1..]);
      forall y | y in tail ensures Less(s[0], y) {
        if y != x {
          var i :| 0 <= i < |s[1..]| && s[1..][i] == y;
          assert s[i + 1] == y;
        }
      }
    }
  }

  /** The library sort, as a function of the list it is given. */
  function Sort(s: seq<string>): (r: seq<string>)
    ensures forall y :: y in r <==> y in s
  {
    if s == [] then [] else Insert(s[0], Sort(s[1..]))
  }

  lemma {:induction false} SortAscending(s: seq<string>)
    requires NoDuplicates(s)
    ensures Ascending(Sort(s))
  {
    if s == [] {
    } else {
      SortAscending(s[1..]);
      InsertAscending(s[0], Sort(s[1..]));
    }
  }

  lemma {:induction false} SortSetExists(s: set<string>)
    ensures exists r :: Ascending(r) && forall x :: x in r <==> x in s
  {
    if s == {} {
      assert Ascending([]);
    } else {
      var x :| x in s;
      SortSetExists(s - {x});
      var rest :| Ascending(rest) && forall y :: y in rest <==> y in s - {x};
      InsertAscending(x, rest);
      assert forall y :: y in Insert(x, rest) <==> y in s;
    }
  }

  /** The members of a set in ascending order. */
  ghost function SortSet(s: set<string>): (r: seq<string>)
    ensures Ascending(r)
    ensures forall x :: x in r <==> x in s
  {
    SortSetExists(s);
    var r :| Ascending(r) && forall x :: x in r <==> x in s;
    r
  }

  lemma SortSetCount(s: set<string>)
    ensures |SortSet(s)| == |s|
  {
    AscendingNoDuplicates(SortSet(s));
    SortSetElements(s);
  }

  lemma SortSetElements(s: set<string>)
    ensures Elements(SortSet(s)) == s
  {
  }

  /** An ascending list is determined by its members. */
  lemma {:induction false} AscendingUnique(a: seq<string>, b: seq<string>)
    requires Ascending(a) && Ascending(b)
    requires Elements(a) == Elements(b)
    ensures a == b
  {
    AscendingNoDuplicates(a);
    AscendingNoDuplicates(b);
    if a == [] {
    } else {
      var n := |a| - 1;
      assert a[n] in Elements(b) && b[n] in Elements(a);
      LessTrichotomy(a[n], b[n]);
      assert Elements(a[..n]) == Elements(a) - {a[n]};
      assert Elements(b[..n]) == Elements(b) - {b[n]};
      AscendingUnique(a[..n], b[..n]);
      assert a == a[..n] + [a[n]] && b == b[..n] + [b[n]];
    }
  }

  lemma AscendingIsSortSet(s: seq<string>)
    requires Ascending(s)
    ensures s == SortSet(Elements(s))
  {
    AscendingUnique(s, SortSet(Elements(s)));
  }

  /** Sorting a duplicate-free list gives the same result whatever order the list came in. */
  lemma SortIsSortSet(s: seq<string>)
    requires NoDuplicates(s)
    ensures Sort(s) == SortSet(Elements(s))
  {
    SortAscending(s);
    AscendingUnique(Sort(s), SortSet(Elements(s)));
  }

  // ---------------------------------------------------------------------------
  // Filtering a list
  // ---------------------------------------------------------------------------

  /** The members of `s` that are in `keep`, in the order of `s`. */
  function Select(s: seq<string>, keep: set<string>): (r: seq<string>)
    ensures forall x :: x in r <==> x in s && x in keep
  {
    if s == [] then [] else
      var n := |s| - 1;
      Select(s[..n], keep) + (if s[n] in keep then [s[n]] else [])
  }

  lemma SelectNext(s: seq<string>, keep: set<string>, i: nat)
    requires i < |s|
    ensures Select(s[..i + 1], keep) == Select(s[..i], keep) + (if s[i] in keep then [s[i]] else [])
  {
    assert s[..i + 1][..i] == s[..i];
  }

  lemma {:induction false} SelectAscending(s: seq<string>, keep: set<string>)
    requires Ascending(s)
    ensures Ascending(Select(s, keep))
  {
    if s == [] {
    } else {
      var n := |s| - 1;
      SelectAscending(s[..n], keep);
      forall y | y in Select(s[..n], keep) ensures Less(y, s[n]) {
        var i :| 0 <= i < n && s[i] == y;
      }
    }
  }

  lemma {:induction false} SelectNoDuplicates(s: seq<string>, keep: set<string>)
    requires NoDuplicates(s)
    ensures NoDuplicates(Select(s, keep))
  {
    if s == [] {
    } else {
      var n := |s| - 1;
      SelectNoDuplicates(s[..n], keep);
      assert s[n] !in Select(s[..n], keep);
    }
  }

  /** Filtering an ascending list gives the ascending list of what is kept. */
  lemma SelectIsSortSet(s: seq<string>, keep: set<string>)
    requires Ascending(s)
    ensures Select(s, keep) == SortSet(Elements(s) * keep)
  {
    SelectAscending(s, keep);
    AscendingUnique(Select(s, keep), SortSet(Elements(s) * keep));
  }

  // ---------------------------------------------------------------------------
  // Rank: how many members come before a name
  // ---------------------------------------------------------------------------

  function Before(s: set<string>, x: string): set<string> {
    set y | y in s && Less(y, x)
  }

  /** Being among the first n is the same as having fewer than n members before. */
  lemma TakeByRank(s: set<string>, n: nat, x: string)
    requires x in s
    ensures x in Take(SortSet(s), n) <==> |Before(s, x)| < n
  {
    var r := SortSet(s);
    var i :| 0 <= i < |r| && r[i] == x;
    forall y ensures y in Before(s, x) <==> y in r[..i] {
      if y in s {
        var j :| 0 <= j < |r| && r[j] == y;
        LessTrichotomy(x, y);
        if j < i {
          assert r[..i][j] == y;
        }
      }
    }
    assert Before(s, x) == Elements(r[..i]);
    AscendingNoDuplicates(r);
    AscendingNoDuplicates(r[..i]);
    if n < |r| && x in r[..n] {
      var j :| 0 <= j < n && r[j] == x;
      assert j == i;
    }
    if i < n < |r| {
      assert r[..n][i] == x;
    }
  }

  lemma SubsetCount<T>(a: set<T>, b: set<T>)
    requires a <= b
    ensures |a| <= |b|
  {
    assert b == a + (b - a);
  }

  lemma DifferenceCount<T>(a: set<T>, b: set<T>)
    requires a <= b
    ensures |b - a| == |b| - |a|
  {
  }
}
