/**
  The sort every server applies to its object lists:
  `list.sort((a, b) -> Double.compare(a.getClassProbability(), b.getClassProbability()))`.
  `List.sort` is a stable merge sort; the stable insertion sort below orders the
  same way, so the result is the unique stable ascending order (NaN last).
 */
module ProbSort {
  import opened Basics
  import opened Domain

  /** Ascending by class probability under `Double.compare`. */
  predicate SortedByProb(s: seq<PathObject>) {
    forall i, j :: 0 <= i < j < |s| ==> NotAfter(s[i].probability, s[j].probability)
  }

  /** Inserts `x` after every element whose probability is not greater than its own. */
  function Insert(x: PathObject, s: seq<PathObject>): seq<PathObject> {
    if s == [] then [x]
    else if Compare(x.probability, s[0].probability) < 0 then [x] + s
    else [s[0]] + Insert(x, s[1..])
  }

  /** The stable ascending sort by class probability. */
  function SortByProb(s: seq<PathObject>): seq<PathObject> {
    if s == [] then [] else Insert(s[|s| - 1], SortByProb(s[..|s| - 1]))
  }

  lemma {:induction false} InsertPermutes(x: PathObject, s: seq<PathObject>)
    ensures multiset(Insert(x, s)) == multiset(s) + multiset{x}
  {
    if s != [] && Compare(x.probability, s[0].probability) >= 0 {
      InsertPermutes(x, s[1..]);
      assert s == [s[0]] + s[1..];
    }
  }

  lemma {:induction false} InsertSorted(x: PathObject, s: seq<PathObject>)
    requires SortedByProb(s)
    ensures SortedByProb(Insert(x, s))
  {
    if s != [] {
      if Compare(x.probability, s[0].probability) < 0 {
        forall j | 0 < j < |s| + 1
          ensures NotAfter(x.probability, ([x] + s)[j].probability)
        {
          NotAfterTransitive(x.probability, s[0].probability, s[j - 1].probability);
        }
      } else {
        InsertSorted(x, s[1..]);
        InsertPermutes(x, s[1..]);
        var r := Insert(x, s[1..]);
        forall j | 0 <= j < |r|
          ensures NotAfter(s[0].probability, r[j].probability)
        {
          assert r[j] in multiset(r);
          assert r[j] == x || r[j] in s[1..];
          NotAfterTotal(x.probability, s[0].probability);
        }
      }
    }
  }

  /** The sort puts the list in ascending order of probability. */
  lemma {:induction false} SortByProbSorted(s: seq<PathObject>)
    ensures SortedByProb(SortByProb(s))
  {
    if s != [] {
      SortByProbSorted(s[..|s| - 1]);
      InsertSorted(s[|s| - 1], SortByProb(s[..|s| - 1]));
    }
  }

  /** The sort neither loses nor adds objects. */
  lemma {:induction false} SortByProbPermutes(s: seq<PathObject>)
    ensures multiset(SortByProb(s)) == multiset(s)
  {
    if s != [] {
      SortByProbPermutes(s[..|s| - 1]);
      InsertPermutes(s[|s| - 1], SortByProb(s[..|s| - 1]));
      assert s == s[..|s| - 1] + [s[|s| - 1]];
    }
  }

  /** Sorted and a permutation of the input, as one fact. */
  lemma SortByProbSpec(s: seq<PathObject>)
    ensures SortedByProb(SortByProb(s))
    ensures multiset(SortByProb(s)) == multiset(s)
    ensures |SortByProb(s)| == |s|
  {
    SortByProbSorted(s);
    SortByProbPermutes(s);
    assert |multiset(SortByProb(s))| == |multiset(s)|;
  }

  lemma {:induction false} InsertAfterSorted(x: PathObject, s: seq<PathObject>)
    requires SortedByProb(s + [x])
    ensures Insert(x, s) == s + [x]
  {
    if s != [] {
      assert NotAfter(s[0].probability, x.probability) by {
        assert (s + [x])[0] == s[0] && (s + [x])[|s|] == x;
      }
      assert SortedByProb(s[1..] + [x]) by {
        assert s[1..] + [x] == (s + [x])[1..];
      }
      InsertAfterSorted(x, s[1..]);
      assert s == [s[0]] + s[1..];
    }
  }

  /** Sorting a list that is already sorted leaves it exactly as it was, ties included. */
  lemma {:induction false} SortByProbIdempotent(s: seq<PathObject>)
    requires SortedByProb(s)
    ensures SortByProb(s) == s
  {
    if s != [] {
      var init := s[..|s| - 1];
      assert SortedByProb(init);
      SortByProbIdempotent(init);
      assert s == init + [s[|s| - 1]];
      InsertAfterSorted(s[|s| - 1], init);
    }
  }

  /** Sorting twice is sorting once. */
  lemma SortByProbTwice(s: seq<PathObject>)
    ensures SortByProb(SortByProb(s)) == SortByProb(s)
  {
    SortByProbSorted(s);
    SortByProbIdempotent(SortByProb(s));
  }

  /** Selects the objects whose probability is exactly `k`. */
  function HasProb(k: Double): PathObject -> bool {
    (o: PathObject) => o.probability == k
  }

  lemma FilterNone(s: seq<PathObject>, keep: PathObject -> bool)
    requires forall i :: 0 <= i < |s| ==> !keep(s[i])
    ensures Filter(s, keep) == []
  {
  }

  /** An object smaller than the head of a sorted list shares its probability with none of it. */
  lemma {:induction false} BelowSortedHead(x: PathObject, t: seq<PathObject>, k: Double)
    requires SortedByProb(t) && t != [] && Compare(x.probability, t[0].probability) < 0
    requires x.probability == k
    ensures Filter(t, HasProb(k)) == []
  {
    forall i | 0 <= i < |t| ensures t[i].probability != k {
      if i > 0 {
        NotAfterTransitive(x.probability, t[0].probability, t[i].probability);
        CompareAntisymmetric(x.probability, t[i].probability);
      }
    }
    FilterNone(t, HasProb(k));
  }

  lemma {:induction false} InsertStableFront(x: PathObject, t: seq<PathObject>, k: Double)
    requires SortedByProb(t) && t != [] && Compare(x.probability, t[0].probability) < 0
    ensures Filter([x] + t, HasProb(k)) == Filter(t, HasProb(k)) + Filter([x], HasProb(k))
  {
    FilterSingleton(x, HasProb(k));
    FilterConcat([x], t, HasProb(k));
    if x.probability == k {
      BelowSortedHead(x, t, k);
    }
  }

  lemma {:induction false} StableCons<T>(y: T, rest: seq<T>, t': seq<T>, extra: seq<T>, p: T -> bool)
    requires Filter(rest, p) == Filter(t', p) + extra
    ensures Filter([y] + rest, p) == Filter([y] + t', p) + extra
  {
    FilterConcat([y], rest, p);
    FilterConcat([y], t', p);
    assert Filter([y], p) + (Filter(t', p) + extra) == (Filter([y], p) + Filter(t', p)) + extra;
  }

  lemma {:induction false} InsertStable(x: PathObject, t: seq<PathObject>, k: Double)
    requires SortedByProb(t)
    ensures Filter(Insert(x, t), HasProb(k)) == Filter(t, HasProb(k)) + Filter([x], HasProb(k))
  {
    if t == [] {
      FilterSingleton(x, HasProb(k));
    } else if Compare(x.probability, t[0].probability) < 0 {
      InsertStableFront(x, t, k);
    } else {
      assert SortedByProb(t[1..]);
      InsertStable(x, t[1..], k);
      StableCons(t[0], Insert(x, t[1..]), t[1..], Filter([x], HasProb(k)), HasProb(k));
      assert t == [t[0]] + t[1..];
    }
  }

  /** Sorting a list inserts its last object into the sorted rest. */
  lemma SortByProbLast(s: seq<PathObject>)
    requires s != []
    ensures SortByProb(s) == Insert(s[|s| - 1], SortByProb(s[..|s| - 1]))
  {
  }

  /** The sort is stable: objects with equal probability keep their input order. */
  lemma {:induction false} SortByProbStable(s: seq<PathObject>, k: Double)
    ensures Filter(SortByProb(s), HasProb(k)) == Filter(s, HasProb(k))
  {
    if s != [] {
      var init := s[..|s| - 1];
      var x := s[|s| - 1];
      var keep := HasProb(k);
      var sorted := SortByProb(init);
      SortByProbLast(s);
      SortByProbStable(init, k);
      SortByProbSorted(init);
      InsertStable(x, sorted, k);
      FilterSingleton(x, keep);
    }
  }
}
