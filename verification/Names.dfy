/** Case names in the order Python's `sorted` puts them: lexicographic by character. */
module Names {

  predicate Less(a: string, b: string) {
    if |b| == 0 then false
    else if |a| == 0 then true
    else a[0] < b[0] || (a[0] == b[0] && Less(a[1..], b[1..]))
  }

  /** The two agree up to some place where one ends first or has the smaller character. */
  ghost predicate FirstDiffer(a: string, b: string, k: nat) {
    k <= |a| && k < |b| && a[..k] == b[..k] && (k == |a| || a[k] < b[k])
  }

  /** The order is decided at the first difference. */
  lemma {:induction false} LessExactly(a: string, b: string)
    ensures Less(a, b) <==> exists k: nat :: FirstDiffer(a, b, k)
  {
    if |a| > 0 && |b| > 0 && a[0] == b[0] {
      LessExactly(a[1..], b[1..]);
      if k: nat :| FirstDiffer(a[1..], b[1..], k) {
        assert a[..k + 1] == [a[0]] + a[1..][..k] && b[..k + 1] == [b[0]] + b[1..][..k];
        assert FirstDiffer(a, b, k + 1);
      }
      if k: nat :| FirstDiffer(a, b, k) {
        assert k > 0;
        assert a[1..][..k - 1] == a[..k][1..] && b[1..][..k - 1] == b[..k][1..];
        assert FirstDiffer(a[1..], b[1..], k - 1);
      }
    } else if |b| > 0 && (|a| == 0 || a[0] < b[0]) {
      assert FirstDiffer(a, b, 0);
    }
    DifferFromTheStart(a, b);
  }

  lemma DifferFromTheStart(a: string, b: string)
    ensures forall k: nat :: FirstDiffer(a, b, k) ==> |b| > 0 && (k > 0 ==> |a| > 0 && a[0] == b[0])
  {
    forall k: nat | FirstDiffer(a, b, k) && k > 0
      ensures a[0] == b[0]
    {
      assert a[..k][0] == b[..k][0];
    }
  }

  lemma {:induction false} LessTransitive(a: string, b: string, c: string)
    requires Less(a, b) && Less(b, c)
    ensures Less(a, c)
  {
    if |a| > 0 && a[0] == b[0] == c[0] {
      LessTransitive(a[1..], b[1..], c[1..]);
    }
  }

  lemma {:induction false} LessIrreflexive(a: string)
    ensures !Less(a, a)
  {
    if |a| > 0 {
      LessIrreflexive(a[1..]);
    }
  }

  lemma {:induction false} LessTotal(a: string, b: string)
    ensures a == b || Less(a, b) || Less(b, a)
  {
    if |a| > 0 && |b| > 0 && a[0] == b[0] {
      LessTotal(a[1..], b[1..]);
      if a[1..] == b[1..] {
        assert a == [a[0]] + a[1..] && b == [b[0]] + b[1..];
      }
    }
  }

  ghost predicate Ascending(names: seq<string>) {
    forall i, j :: 0 <= i < j < |names| ==> Less(names[i], names[j])
  }

  ghost function Members(names: seq<string>): set<string> {
    set n | n in names
  }

  /** `names` is what `sorted(s)` returns. */
  ghost predicate Sorts(names: seq<string>, s: set<string>) {
    Ascending(names) && Members(names) == s
  }

  lemma AscendingDistinct(names: seq<string>, i: nat, j: nat)
    requires Ascending(names) && i < j < |names|
    ensures names[i] != names[j]
  {
    LessIrreflexive(names[i]);
  }

  /** There is only one sorted list of a set. */
  lemma {:induction false} SortedUnique(xs: seq<string>, ys: seq<string>)
    requires Ascending(xs) && Ascending(ys) && Members(xs) == Members(ys)
    ensures xs == ys
  {
    assert ys != [] ==> ys[0] in Members(ys);
    if xs != [] {
      assert xs[0] in Members(ys);
      assert ys != [];
      assert ys[0] in Members(xs);
      SameLeast(xs, ys);
      TailMembers(xs);
      TailMembers(ys);
      SortedUnique(xs[1..], ys[1..]);
      assert xs == [xs[0]] + xs[1..] && ys == [ys[0]] + ys[1..];
    }
  }

  lemma SameLeast(xs: seq<string>, ys: seq<string>)
    requires xs != [] && ys != [] && Ascending(xs) && Ascending(ys)
    requires xs[0] in ys && ys[0] in xs
    ensures xs[0] == ys[0]
  {
    if xs[0] != ys[0] {
      LessTransitive(xs[0], ys[0], xs[0]);
      LessIrreflexive(xs[0]);
    }
  }

  lemma TailMembers(xs: seq<string>)
    requires xs != [] && Ascending(xs)
    ensures Members(xs[1..]) == Members(xs) - {xs[0]}
  {
    LessIrreflexive(xs[0]);
    forall n | n in Members(xs) - {xs[0]}
      ensures n in Members(xs[1..])
    {
      var i :| 0 <= i < |xs| && xs[i] == n;
      assert xs[1..][i - 1] == n;
    }
  }

  method Sort(s: set<string>) returns (names: seq<string>)
    ensures Sorts(names, s)
  {
    names := [];
    var todo := s;
    while todo != {}
      invariant Ascending(names)
      invariant todo <= s
      invariant Members(names) == s - todo
      decreases todo
    {
      var n :| n in todo;
      var i := 0;
      while i < |names| && Less(names[i], n)
        invariant 0 <= i <= |names|
        invariant forall k :: 0 <= k < i ==> Less(names[k], n)
      {
        i := i + 1;
      }
      InsertAscending(names, n, i);
      names := names[..i] + [n] + names[i..];
      todo := todo - {n};
    }
  }

  lemma InsertAscending(names: seq<string>, n: string, i: nat)
    requires Ascending(names) && i <= |names| && n !in Members(names)
    requires forall k :: 0 <= k < i ==> Less(names[k], n)
    requires i < |names| ==> !Less(names[i], n)
    ensures Ascending(names[..i] + [n] + names[i..])
    ensures Members(names[..i] + [n] + names[i..]) == Members(names) + {n}
  {
    var r := names[..i] + [n] + names[i..];
    forall k | i <= k < |names|
      ensures Less(n, names[k])
    {
      assert names[i] in Members(names);
      LessTotal(names[i], n);
      if k > i {
        LessTransitive(n, names[i], names[k]);
      }
    }
    assert names == names[..i] + names[i..];
  }
}
