/**
  `TunelDetectionHelper`: detections from several fluorescence channels are
  merged into one list, so that a nucleus seen in two channels is kept once.

  Every ordered pair of different channels is compared object by object. A pair
  whose ROIs overlap contributes its second object; a pair that does not overlap
  contributes the one with the larger "Nucleus: Area" (the second one on a tie).
  Each contribution is appended unless the list already holds it.

  ROI containment is a parameter (`roiContains(p, q)`: the ROI of `p` contains
  the ROI of `q`), and so is the order in which the channel `HashMap` hands back
  its keys.
 */
module Overlap {
  import opened Basics
  import opened Domain

  /** The measurement the two objects of a non-overlapping pair are compared on. */
  const AreaName := "Nucleus: Area"

  /** An object's area measurement, NaN when it has none. */
  function Area(p: PathObject): Double {
    MeasurementValue(p.measurements, AreaName)
  }

  /** Java's `>` on doubles: false as soon as either side is NaN. */
  predicate Greater(a: Double, b: Double) {
    a.Num? && b.Num? && a.v > b.v
  }

  /** `significantOverlap`: either ROI contains the other. */
  predicate SignificantOverlap(roiContains: (PathObject, PathObject) -> bool, p1: PathObject, p2: PathObject) {
    roiContains(p1, p2) || roiContains(p2, p1)
  }

  /**
    The object a pair contributes: `p1` only when the two do not overlap and
    `p1` is strictly larger; `p2` on overlap, on a tie and when an area is NaN.
   */
  function Pick(roiContains: (PathObject, PathObject) -> bool, p1: PathObject, p2: PathObject): PathObject {
    if !SignificantOverlap(roiContains, p1, p2) && Greater(Area(p1), Area(p2)) then p1 else p2
  }

  /**
    A pair contributes one of its two objects: the first only when the two do not
    overlap and the first is strictly larger, the second otherwise, NaN included.
   */
  lemma PickSpec(roiContains: (PathObject, PathObject) -> bool, p1: PathObject, p2: PathObject)
    ensures Pick(roiContains, p1, p2) == p1 || Pick(roiContains, p1, p2) == p2
    ensures Pick(roiContains, p1, p2) != p2 ==> !SignificantOverlap(roiContains, p1, p2) && Greater(Area(p1), Area(p2))
    ensures SignificantOverlap(roiContains, p1, p2) || !Greater(Area(p1), Area(p2)) ==> Pick(roiContains, p1, p2) == p2
  {
  }

  /** `if (!tempList.contains(x)) tempList.add(x)`. */
  function AddAbsent(list: seq<PathObject>, x: PathObject): seq<PathObject> {
    if x in list then list else list + [x]
  }

  /** `list` after each element of `s` in turn has been added unless already present. */
  function Dedup(list: seq<PathObject>, s: seq<PathObject>): seq<PathObject> {
    if s == [] then list else AddAbsent(Dedup(list, s[..|s| - 1]), s[|s| - 1])
  }

  /** Adding two batches in turn is adding their concatenation. */
  lemma {:induction false} DedupConcat(list: seq<PathObject>, s: seq<PathObject>, t: seq<PathObject>)
    ensures Dedup(list, s + t) == Dedup(Dedup(list, s), t)
    decreases |t|
  {
    if t == [] {
      assert s + t == s;
    } else {
      DedupConcat(list, s, t[..|t| - 1]);
      assert (s + t)[..|s + t| - 1] == s + t[..|t| - 1];
    }
  }

  /**
    Adding only ever appends: the list keeps its entries in place, holds no
    element twice when it held none twice before, and ends up holding exactly
    its old entries and the added ones.
   */
  lemma {:induction false} DedupSpec(list: seq<PathObject>, s: seq<PathObject>)
    ensures list <= Dedup(list, s)
    ensures NoDuplicates(list) ==> NoDuplicates(Dedup(list, s))
    ensures forall x :: x in Dedup(list, s) <==> x in list || x in s
    decreases |s|
  {
    if s != [] {
      var init := s[..|s| - 1];
      DedupSpec(list, init);
      forall x | x in s
        ensures x in init || x == s[|s| - 1]
      {
        var k :| 0 <= k < |s| && s[k] == x;
        if k < |s| - 1 {
          assert init[k] == x;
        }
      }
    }
  }

  /** `f` applied to `p1` and each element of `o2` in turn. */
  function Row<T>(f: (T, T) -> T, p1: T, o2: seq<T>): (r: seq<T>)
    ensures |r| == |o2| && forall v :: 0 <= v < |o2| ==> r[v] == f(p1, o2[v])
  {
    seq(|o2|, v requires 0 <= v < |o2| => f(p1, o2[v]))
  }

  /** Extending the second list by one element extends the row by its value. */
  lemma RowStep<T>(f: (T, T) -> T, p1: T, o2: seq<T>, v: nat)
    requires v < |o2|
    ensures Row(f, p1, o2[..v + 1]) == Row(f, p1, o2[..v]) + [f(p1, o2[v])]
  {
    var a := Row(f, p1, o2[..v + 1]);
    var b := Row(f, p1, o2[..v]) + [f(p1, o2[v])];
    assert |a| == |b|;
    forall w | 0 <= w < |a|
      ensures a[w] == b[w]
    {
      if w < v {
        assert o2[..v + 1][w] == o2[..v][w];
      }
    }
  }

  /** `f` applied to each pair of `o1` and `o2`, element of `o1` by element. */
  function Grid<T>(f: (T, T) -> T, o1: seq<T>, o2: seq<T>): seq<T> {
    if o1 == [] then [] else Grid(f, o1[..|o1| - 1], o2) + Row(f, o1[|o1| - 1], o2)
  }

  /** Every value of the grid comes from a pair of the two lists. */
  lemma {:induction false} GridFrom<T>(f: (T, T) -> T, o1: seq<T>, o2: seq<T>, k: nat)
    returns (u: nat, v: nat)
    requires k < |Grid(f, o1, o2)|
    ensures u < |o1| && v < |o2| && Grid(f, o1, o2)[k] == f(o1[u], o2[v])
    decreases |o1|
  {
    var last := |o1| - 1;
    var init := Grid(f, o1[..last], o2);
    var row := Row(f, o1[last], o2);
    assert Grid(f, o1, o2) == init + row;
    if k < |init| {
      u, v := GridFrom(f, o1[..last], o2, k);
      assert o1[..last][u] == o1[u];
      assert (init + row)[k] == init[k];
    } else {
      u, v := last, k - |init|;
      assert (init + row)[k] == row[v];
    }
  }

  /** Where the value of a pair sits in the grid. */
  lemma {:induction false} GridAt<T>(f: (T, T) -> T, o1: seq<T>, o2: seq<T>, u: nat, v: nat)
    returns (k: nat)
    requires u < |o1| && v < |o2|
    ensures k < |Grid(f, o1, o2)| && Grid(f, o1, o2)[k] == f(o1[u], o2[v])
    decreases |o1|
  {
    var last := |o1| - 1;
    var init := Grid(f, o1[..last], o2);
    var row := Row(f, o1[last], o2);
    assert Grid(f, o1, o2) == init + row;
    if u < last {
      assert o1[..last][u] == o1[u];
      k := GridAt(f, o1[..last], o2, u, v);
      assert (init + row)[k] == init[k];
    } else {
      k := |init| + v;
      assert (init + row)[k] == row[v];
    }
  }

  /** `Pick` as a function value. */
  function PickOf(roiContains: (PathObject, PathObject) -> bool): (PathObject, PathObject) -> PathObject {
    (p1, p2) => Pick(roiContains, p1, p2)
  }

  /** The picks of one object of the first channel against every object of the second. */
  function RowPicks(roiContains: (PathObject, PathObject) -> bool, p1: PathObject, o2: seq<PathObject>): seq<PathObject> {
    Row(PickOf(roiContains), p1, o2)
  }

  /** The picks of two channels' lists, object of the first list by object. */
  function PairPicks(roiContains: (PathObject, PathObject) -> bool, o1: seq<PathObject>, o2: seq<PathObject>): seq<PathObject> {
    Grid(PickOf(roiContains), o1, o2)
  }

  /** Every key of the list has a channel. */
  predicate Keyed(m: map<int, seq<PathObject>>, keys: seq<int>) {
    forall k :: 0 <= k < |keys| ==> keys[k] in m
  }

  /** `order` lists each key of the channel map once: the map's key iteration order. */
  predicate KeyOrder(m: map<int, seq<PathObject>>, order: seq<int>) {
    NoDuplicates(order) && Keyed(m, order) && forall k :: k in m ==> k in order
  }

  /** The picks of channel `i` against each channel of `js` in turn, itself skipped. */
  function ChannelPicks(roiContains: (PathObject, PathObject) -> bool, m: map<int, seq<PathObject>>, i: int, js: seq<int>)
    : seq<PathObject>
    requires i in m && Keyed(m, js)
  {
    if js == [] then []
    else
      var j := js[|js| - 1];
      var init := ChannelPicks(roiContains, m, i, js[..|js| - 1]);
      if i == j then init else init + PairPicks(roiContains, m[i], m[j])
  }

  /** The picks of each channel of `keys` in turn against every channel of `order`. */
  function AllPicks(roiContains: (PathObject, PathObject) -> bool, m: map<int, seq<PathObject>>, keys: seq<int>, order: seq<int>)
    : seq<PathObject>
    requires Keyed(m, keys) && Keyed(m, order)
  {
    if keys == [] then []
    else AllPicks(roiContains, m, keys[..|keys| - 1], order) + ChannelPicks(roiContains, m, keys[|keys| - 1], order)
  }

  /** `handleOverlappingObjects`: the list that replaces `pathObjects`. */
  function Deduplicated(roiContains: (PathObject, PathObject) -> bool, m: map<int, seq<PathObject>>, order: seq<int>)
    : seq<PathObject>
    requires KeyOrder(m, order)
  {
    Dedup([], AllPicks(roiContains, m, order, order))
  }

  /** The object is in some channel's list. */
  predicate InChannels(m: map<int, seq<PathObject>>, x: PathObject) {
    exists k :: k in m && x in m[k]
  }

  /** A pair's pick is one of the pair. */
  lemma PairPicksFrom(roiContains: (PathObject, PathObject) -> bool, o1: seq<PathObject>, o2: seq<PathObject>)
    ensures forall x :: x in PairPicks(roiContains, o1, o2) ==> x in o1 || x in o2
  {
    var picks := PairPicks(roiContains, o1, o2);
    forall x | x in picks
      ensures x in o1 || x in o2
    {
      var k :| 0 <= k < |picks| && picks[k] == x;
      var u, v := GridFrom(PickOf(roiContains), o1, o2, k);
      PickSpec(roiContains, o1[u], o2[v]);
    }
  }

  /** Every pair of objects of the two lists contributes its pick. */
  lemma PairPicksComplete(roiContains: (PathObject, PathObject) -> bool, o1: seq<PathObject>, o2: seq<PathObject>, u: nat, v: nat)
    requires u < |o1| && v < |o2|
    ensures Pick(roiContains, o1[u], o2[v]) in PairPicks(roiContains, o1, o2)
  {
    var k := GridAt(PickOf(roiContains), o1, o2, u, v);
  }

  /** A channel's picks come from the channels. */
  lemma {:induction false} ChannelPicksFrom(roiContains: (PathObject, PathObject) -> bool, m: map<int, seq<PathObject>>, i: int, js: seq<int>)
    requires i in m && Keyed(m, js)
    ensures forall x :: x in ChannelPicks(roiContains, m, i, js) ==> InChannels(m, x)
    decreases |js|
  {
    if js != [] {
      var j := js[|js| - 1];
      assert Keyed(m, js[..|js| - 1]);
      ChannelPicksFrom(roiContains, m, i, js[..|js| - 1]);
      PairPicksFrom(roiContains, m[i], m[j]);
    }
  }

  /** Channel `i` contributes the pick of each of its objects against each object of every other channel. */
  lemma {:induction false} ChannelPicksComplete(roiContains: (PathObject, PathObject) -> bool, m: map<int, seq<PathObject>>,
                                                i: int, js: seq<int>, b: nat, u: nat, v: nat)
    requires i in m && Keyed(m, js)
    requires b < |js| && js[b] != i && u < |m[i]| && v < |m[js[b]]|
    ensures Pick(roiContains, m[i][u], m[js[b]][v]) in ChannelPicks(roiContains, m, i, js)
    decreases |js|
  {
    var last := |js| - 1;
    var front := js[..last];
    assert Keyed(m, front);
    var init := ChannelPicks(roiContains, m, i, front);
    if b < last {
      assert front[b] == js[b];
      ChannelPicksComplete(roiContains, m, i, front, b, u, v);
      assert ChannelPicks(roiContains, m, i, js) == init || ChannelPicks(roiContains, m, i, js) == init + PairPicks(roiContains, m[i], m[js[last]]);
    } else {
      PairPicksComplete(roiContains, m[i], m[js[b]], u, v);
      assert ChannelPicks(roiContains, m, i, js) == init + PairPicks(roiContains, m[i], m[js[b]]);
    }
  }

  /** A channel compared only against itself contributes nothing. */
  lemma ChannelPicksAlone(roiContains: (PathObject, PathObject) -> bool, m: map<int, seq<PathObject>>, i: int)
    requires i in m
    ensures ChannelPicks(roiContains, m, i, [i]) == []
  {
    assert [i][..0] == [];
  }

  /** All picks come from the channels. */
  lemma {:induction false} AllPicksFrom(roiContains: (PathObject, PathObject) -> bool, m: map<int, seq<PathObject>>, keys: seq<int>, order: seq<int>)
    requires Keyed(m, keys) && Keyed(m, order)
    ensures forall x :: x in AllPicks(roiContains, m, keys, order) ==> InChannels(m, x)
    decreases |keys|
  {
    if keys != [] {
      assert Keyed(m, keys[..|keys| - 1]);
      AllPicksFrom(roiContains, m, keys[..|keys| - 1], order);
      ChannelPicksFrom(roiContains, m, keys[|keys| - 1], order);
    }
  }

  /** Where a pick of a listed channel sits among all the picks. */
  lemma {:induction false} AllPicksHasChannel(roiContains: (PathObject, PathObject) -> bool, m: map<int, seq<PathObject>>,
                                              keys: seq<int>, order: seq<int>, a: nat, c: nat)
    returns (k: nat)
    requires Keyed(m, keys) && Keyed(m, order) && a < |keys|
    requires c < |ChannelPicks(roiContains, m, keys[a], order)|
    ensures k < |AllPicks(roiContains, m, keys, order)|
    ensures AllPicks(roiContains, m, keys, order)[k] == ChannelPicks(roiContains, m, keys[a], order)[c]
    decreases |keys|
  {
    var last := |keys| - 1;
    var init := keys[..last];
    assert Keyed(m, init);
    var before := AllPicks(roiContains, m, init, order);
    var lastPicks := ChannelPicks(roiContains, m, keys[last], order);
    assert AllPicks(roiContains, m, keys, order) == before + lastPicks;
    if a < last {
      assert init[a] == keys[a];
      k := AllPicksHasChannel(roiContains, m, init, order, a, c);
      assert (before + lastPicks)[k] == before[k];
    } else {
      k := |before| + c;
      assert (before + lastPicks)[k] == lastPicks[c];
    }
  }

  /** Every pair of objects from two different channels contributes its pick. */
  lemma AllPicksComplete(roiContains: (PathObject, PathObject) -> bool, m: map<int, seq<PathObject>>,
                         keys: seq<int>, order: seq<int>, a: nat, b: nat, u: nat, v: nat)
    requires Keyed(m, keys) && Keyed(m, order)
    requires a < |keys| && b < |order| && keys[a] != order[b] && u < |m[keys[a]]| && v < |m[order[b]]|
    ensures Pick(roiContains, m[keys[a]][u], m[order[b]][v]) in AllPicks(roiContains, m, keys, order)
  {
    ChannelPicksComplete(roiContains, m, keys[a], order, b, u, v);
    var picks := ChannelPicks(roiContains, m, keys[a], order);
    var c :| 0 <= c < |picks| && picks[c] == Pick(roiContains, m[keys[a]][u], m[order[b]][v]);
    var k := AllPicksHasChannel(roiContains, m, keys, order, a, c);
  }

  /**
    The merged list holds no object twice and only objects of the channels; it
    holds the pick of every pair of objects from two different channels; and
    with a single channel it is empty.
   */
  lemma DeduplicatedSpec(roiContains: (PathObject, PathObject) -> bool, m: map<int, seq<PathObject>>, order: seq<int>)
    requires KeyOrder(m, order)
    ensures var r := Deduplicated(roiContains, m, order);
      && NoDuplicates(r)
      && (forall x :: x in r ==> InChannels(m, x))
      && (forall a: nat, b: nat, u: nat, v: nat ::
            a < |order| && b < |order| && a != b && u < |m[order[a]]| && v < |m[order[b]]| ==>
              Pick(roiContains, m[order[a]][u], m[order[b]][v]) in r)
      && (|order| == 1 ==> m.Keys == {order[0]} && r == [])
  {
    var picks := AllPicks(roiContains, m, order, order);
    DedupSpec([], picks);
    AllPicksFrom(roiContains, m, order, order);
    forall a: nat, b: nat, u: nat, v: nat |
      a < |order| && b < |order| && a != b && u < |m[order[a]]| && v < |m[order[b]]|
      ensures Pick(roiContains, m[order[a]][u], m[order[b]][v]) in Deduplicated(roiContains, m, order)
    {
      AllPicksComplete(roiContains, m, order, order, a, b, u, v);
    }
    if |order| == 1 {
      assert m.Keys == {order[0]} by {
        forall k | k in m
          ensures k == order[0]
        {
          assert k in order;
        }
      }
      assert order == [order[0]];
      ChannelPicksAlone(roiContains, m, order[0]);
      assert order[..0] == [];
      assert picks == AllPicks(roiContains, m, [], order) + ChannelPicks(roiContains, m, order[0], order);
      assert picks == [];
    }
  }

  /** The loop over the second channel's objects for one object `p1` of the first. */
  method AddRow(tempList: seq<PathObject>, roiContains: (PathObject, PathObject) -> bool, p1: PathObject, o2: seq<PathObject>)
    returns (r: seq<PathObject>)
    ensures r == Dedup(tempList, RowPicks(roiContains, p1, o2))
  {
    r := tempList;
    for v := 0 to |o2|
      invariant r == Dedup(tempList, RowPicks(roiContains, p1, o2[..v]))
    {
      var p2 := o2[v];
      var done := RowPicks(roiContains, p1, o2[..v]);
      RowStep(PickOf(roiContains), p1, o2, v);
      assert Dedup(tempList, RowPicks(roiContains, p1, o2[..v + 1])) == AddAbsent(r, Pick(roiContains, p1, p2)) by {
        assert (done + [Pick(roiContains, p1, p2)])[..v] == done;
      }
      if !(roiContains(p1, p2) || roiContains(p2, p1)) {
        var area1 := MeasurementValue(p1.measurements, AreaName);
        var area2 := MeasurementValue(p2.measurements, AreaName);
        if area1.Num? && area2.Num? && area1.v > area2.v {
          if p1 !in r {
            r := r + [p1];
          }
        } else {
          if p2 !in r {
            r := r + [p2];
          }
        }
      } else {
        if p2 !in r {
          r := r + [p2];
        }
      }
    }
    assert o2[..|o2|] == o2;
  }

  /** The loop over the first channel's objects, against one other channel. */
  method AddPair(tempList: seq<PathObject>, roiContains: (PathObject, PathObject) -> bool, o1: seq<PathObject>, o2: seq<PathObject>)
    returns (r: seq<PathObject>)
    ensures r == Dedup(tempList, PairPicks(roiContains, o1, o2))
  {
    r := tempList;
    for u := 0 to |o1|
      invariant r == Dedup(tempList, PairPicks(roiContains, o1[..u], o2))
    {
      assert o1[..u + 1][..u] == o1[..u];
      DedupConcat(tempList, PairPicks(roiContains, o1[..u], o2), RowPicks(roiContains, o1[u], o2));
      r := AddRow(r, roiContains, o1[u], o2);
    }
    assert o1[..|o1|] == o1;
  }

  /** The loop over the second channel key, for one first channel `i`; `i` itself is skipped. */
  method AddChannel(tempList: seq<PathObject>, roiContains: (PathObject, PathObject) -> bool,
                    m: map<int, seq<PathObject>>, i: int, order: seq<int>)
    returns (r: seq<PathObject>)
    requires i in m && Keyed(m, order)
    ensures r == Dedup(tempList, ChannelPicks(roiContains, m, i, order))
  {
    r := tempList;
    for b := 0 to |order|
      invariant r == Dedup(tempList, ChannelPicks(roiContains, m, i, order[..b]))
    {
      assert order[..b + 1][..b] == order[..b];
      var j := order[b];
      if i == j {
        continue;
      }
      DedupConcat(tempList, ChannelPicks(roiContains, m, i, order[..b]), PairPicks(roiContains, m[i], m[j]));
      r := AddPair(r, roiContains, m[i], m[j]);
    }
    assert order[..|order|] == order;
  }

  /** The part of `TunelDetectionHelper` that merges the channels' detections. */
  class TunelHelper {
    var pathObjectMap: map<int, seq<PathObject>>
    var pathObjects: seq<PathObject>

    constructor (channels: map<int, seq<PathObject>>, all: seq<PathObject>)
      ensures pathObjectMap == channels && pathObjects == all
    {
      pathObjectMap := channels;
      pathObjects := all;
    }

    /** `handleOverlappingObjects`: the four nested loops, then `pathObjects` is replaced. */
    method HandleOverlappingObjects(order: seq<int>, roiContains: (PathObject, PathObject) -> bool)
      requires KeyOrder(pathObjectMap, order)
      modifies this
      ensures pathObjectMap == old(pathObjectMap)
      ensures pathObjects == Deduplicated(roiContains, pathObjectMap, order)
    {
      var m := pathObjectMap;
      var tempList: seq<PathObject> := [];
      for a := 0 to |order|
        invariant tempList == Dedup([], AllPicks(roiContains, m, order[..a], order))
        invariant pathObjectMap == m
      {
        assert order[..a + 1][..a] == order[..a];
        DedupConcat([], AllPicks(roiContains, m, order[..a], order), ChannelPicks(roiContains, m, order[a], order));
        tempList := AddChannel(tempList, roiContains, m, order[a], order);
      }
      assert order[..|order|] == order;
      pathObjects := tempList;
    }
  }
}
