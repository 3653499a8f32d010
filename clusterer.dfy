/**
  The clusterer adapters: `ClusterableObject`, which pairs a detection with its
  feature vector, and the k-means and DBSCAN clusterers, which wrap the objects,
  hand them to a clustering library and store the library's clusters under
  the keys 0 .. n-1.

  The two clusterers differ only in the library they configure and in their name,
  so one class with an `Algorithm` field stands for both. The library itself is
  the parameter `library`: for a configuration and the wrapped objects it gives
  the list of clusters.
 */
module Clusterers {
  import opened Basics
  import opened Domain

  /** The configured library clusterer: k-means++ with a cluster count, or DBSCAN with `(eps, minPts)`. */
  datatype Algorithm = KMeans(clusterCount: int) | DBScan(eps: real, minPts: int)

  /** `getName()`. */
  function Name(a: Algorithm): string {
    match a
    case KMeans(_) => "KMeans"
    case DBScan(_, _) => "DBScan"
  }

  /** The value of each named measurement, in name order, NaN where an object lacks one. */
  function ValuesOf(ms: seq<Measurement>, names: seq<string>): (r: seq<Double>)
    ensures |r| == |names|
    ensures forall i :: 0 <= i < |names| ==> r[i] == MeasurementValue(ms, names[i])
  {
    seq(|names|, i requires 0 <= i < |names| => MeasurementValue(ms, names[i]))
  }

  /** The test `containsNamedMeasurement` applies to each feature name. */
  function Measured(ms: seq<Measurement>): string -> bool {
    name => HasMeasurement(ms, name)
  }

  /** The feature names an object has a measurement for, in the given order. */
  function PresentNames(ms: seq<Measurement>, names: seq<string>): seq<string> {
    Filter(names, Measured(ms))
  }

  /** The feature vector of the name-list clusterer constructor: present features only. */
  function FeatureVector(ms: seq<Measurement>, names: seq<string>): seq<Double> {
    ValuesOf(ms, PresentNames(ms, names))
  }

  /** A list every element of which is kept passes a filter unchanged. */
  lemma {:induction false} FilterAll<T>(s: seq<T>, keep: T -> bool)
    requires forall i :: 0 <= i < |s| ==> keep(s[i])
    ensures Filter(s, keep) == s
    decreases |s|
  {
    if s != [] {
      var init, last := s[..|s| - 1], s[|s| - 1];
      forall i | 0 <= i < |init|
        ensures keep(init[i])
      {
        assert init[i] == s[i];
      }
      FilterAll(init, keep);
      assert keep(last);
      assert init + [last] == s;
    }
  }

  /** A list no element of which is kept filters to nothing. */
  lemma {:induction false} FilterNoneKept<T>(s: seq<T>, keep: T -> bool)
    requires forall i :: 0 <= i < |s| ==> !keep(s[i])
    ensures Filter(s, keep) == []
    decreases |s|
  {
    if s != [] {
      FilterNoneKept(s[..|s| - 1], keep);
    }
  }

  /**
    The feature vector holds, in feature-name order, the value of each named
    feature the object has, and nothing for the others: it is as long as the name
    list exactly when every feature is present, and empty when none is, so the
    vectors of different objects may differ in length.
   */
  lemma FeatureVectorSpec(ms: seq<Measurement>, names: seq<string>)
    ensures var r := FeatureVector(ms, names); var present := PresentNames(ms, names);
      && |r| == |present| <= |names|
      && (forall i :: 0 <= i < |present| ==> present[i] in names && HasMeasurement(ms, present[i]))
      && (forall i :: 0 <= i < |r| ==> r[i] == MeasurementValue(ms, present[i]))
      && (forall name :: name in names && HasMeasurement(ms, name) ==> name in present)
      && ((forall i :: 0 <= i < |names| ==> HasMeasurement(ms, names[i])) ==> r == ValuesOf(ms, names))
      && ((forall i :: 0 <= i < |names| ==> !HasMeasurement(ms, names[i])) ==> r == [])
  {
    var keep := Measured(ms);
    var present := PresentNames(ms, names);
    forall i | 0 <= i < |present|
      ensures present[i] in names && HasMeasurement(ms, present[i])
    {
      assert present[i] in present;
    }
    forall name | name in names && HasMeasurement(ms, name)
      ensures name in PresentNames(ms, names)
    {
      FilterKeeps(names, keep, name);
    }
    if forall i :: 0 <= i < |names| ==> HasMeasurement(ms, names[i]) {
      FilterAll(names, keep);
    }
    if forall i :: 0 <= i < |names| ==> !HasMeasurement(ms, names[i]) {
      FilterNoneKept(names, keep);
    }
  }

  /** The feature loop of the name-list constructor for one object. */
  method FeatureList(ms: seq<Measurement>, names: seq<string>) returns (features: seq<Double>)
    ensures features == FeatureVector(ms, names)
  {
    features := [];
    assert names[..0] == [];
    for i := 0 to |names|
      invariant features == FeatureVector(ms, names[..i])
    {
      FeatureVectorStep(ms, names, i);
      var name := names[i];
      if HasMeasurement(ms, name) {
        features := features + [MeasurementValue(ms, name)];
      }
    }
    assert names[..|names|] == names;
  }

  /** One more name adds its value to the feature vector exactly when the object has that measurement. */
  lemma FeatureVectorStep(ms: seq<Measurement>, names: seq<string>, i: nat)
    requires i < |names|
    ensures FeatureVector(ms, names[..i + 1]) ==
            FeatureVector(ms, names[..i]) + (if HasMeasurement(ms, names[i]) then [MeasurementValue(ms, names[i])] else [])
  {
    var keep := Measured(ms);
    assert names[..i + 1] == names[..i] + [names[i]];
    FilterSnoc(names[..i], names[i], keep);
    var before := PresentNames(ms, names[..i]);
    var after := PresentNames(ms, names[..i + 1]);
    if keep(names[i]) {
      assert after == before + [names[i]];
      var r := FeatureVector(ms, names[..i + 1]);
      assert r == FeatureVector(ms, names[..i]) + [MeasurementValue(ms, names[i])];
    } else {
      assert after == before;
    }
  }

  /** `ClusterableObject`: a detection and its feature point. */
  class ClusterableObject {
    const pathObject: PathObject
    const point: array<Double>

    /** One value per requested measurement, in request order, NaN where the object has none. */
    constructor FromNames(p: PathObject, measurements: seq<string>)
      ensures pathObject == p && fresh(point)
      ensures point[..] == ValuesOf(p.measurements, measurements)
    {
      pathObject := p;
      var a := new Double[|measurements|](_ => NaN);
      for i := 0 to |measurements|
        invariant forall j :: 0 <= j < i ==> a[j] == MeasurementValue(p.measurements, measurements[j])
      {
        a[i] := MeasurementValue(p.measurements, measurements[i]);
      }
      point := a;
    }

    /** Copies the caller's features, so later writes to the caller's array do not reach the point. */
    constructor FromFeatures(p: PathObject, features: array<Double>)
      ensures pathObject == p && fresh(point)
      ensures point[..] == features[..]
    {
      pathObject := p;
      var a := new Double[features.Length](i requires 0 <= i < features.Length reads features => features[i]);
      point := a;
    }

    /** `getPathObject()`. */
    method GetPathObject() returns (r: PathObject)
      ensures r == pathObject
    {
      r := pathObject;
    }

    /** `getPoint()`: the point array itself, not a copy. */
    method GetPoint() returns (r: array<Double>)
      ensures r == point
    {
      r := point;
    }
  }

  /** A clustering library: the clusters it makes of the objects under a configuration. */
  type Library = (Algorithm, seq<ClusterableObject>) -> seq<seq<ClusterableObject>>

  /** One "Cluster k: size" line of the report, before its newline. */
  function ClusterLineBody(key: int, size: nat): string {
    "\tCluster " + IntToString(key) + ": " + NatToString(size)
  }

  /** One "Cluster k: size" line of the report. */
  function ClusterLine(key: int, size: nat): string {
    ClusterLineBody(key, size) + "\n"
  }

  /** The report lines for the keys in `order`. */
  function ClusterLines(m: map<int, seq<ClusterableObject>>, order: seq<int>): string
    requires forall i :: 0 <= i < |order| ==> order[i] in m
  {
    if order == [] then ""
    else ClusterLines(m, order[..|order| - 1]) + ClusterLine(order[|order| - 1], |m[order[|order| - 1]]|)
  }

  /** `order` lists every key of `m` once: the map's key-set iteration order. */
  predicate KeyOrder<V>(m: map<int, V>, order: seq<int>) {
    NoDuplicates(order) && (forall i :: 0 <= i < |order| ==> order[i] in m) && (forall k :: k in m ==> k in order)
  }

  /** The first line of the report, naming the clustering technique. */
  function Header(name: string): string {
    "Clustering using " + name + " finished: \n"
  }

  /** The report body when no clusters were produced. */
  const NotCompleted := "Clustering was not completed."

  /** `resultToString()`, listing the keys in the map's iteration order `order`. */
  function ResultText(name: string, m: map<int, seq<ClusterableObject>>, order: seq<int>): string
    requires KeyOrder(m, order)
  {
    Header(name) + if |m| == 0 then NotCompleted else ClusterLines(m, order)
  }

  /** A rendered number holds no newline. */
  lemma {:induction false} DigitsHaveNoNewline(s: string)
    requires AllDigits(s)
    ensures Count(s, '\n') == 0
  {
  }

  /** Each report line ends in the only newline it has. */
  lemma ClusterLineNewlines(key: int, size: nat)
    ensures Count(ClusterLine(key, size), '\n') == 1
    ensures ClusterLine(key, size)[|ClusterLine(key, size)| - 1] == '\n'
  {
    var body := ClusterLineBody(key, size);
    ClusterLineBodyNoNewline(key, size);
    CountConcat(body, "\n", '\n');
    assert Count("\n", '\n') == 1 by {
      assert "\n"[..0] == [];
    }
  }

  /** The text of a report line before its newline holds no newline. */
  lemma ClusterLineBodyNoNewline(key: int, size: nat)
    ensures '\n' !in ClusterLineBody(key, size)
  {
    var lead := "\tCluster ";
    var sep := ": ";
    var k := IntToString(key);
    var n := NatToString(size);
    DigitsHaveNoNewline(NatToString(if key >= 0 then key else -key));
    DigitsHaveNoNewline(n);
    if key < 0 {
      NoneInConcat("-", NatToString(-key), '\n');
    }
    assert '\n' !in lead by {
      assert forall i :: 0 <= i < |lead| ==> lead[i] != '\n';
    }
    assert '\n' !in sep by {
      assert forall i :: 0 <= i < |sep| ==> sep[i] != '\n';
    }
    NoneInConcat(lead, k, '\n');
    NoneInConcat(lead + k, sep, '\n');
    NoneInConcat(lead + k + sep, n, '\n');
  }

  /** An element in neither part is not in the concatenation. */
  lemma NoneInConcat<T>(a: seq<T>, b: seq<T>, x: T)
    requires x !in a && x !in b
    ensures x !in a + b
  {
    forall i | 0 <= i < |a + b|
      ensures (a + b)[i] != x
    {
      if i < |a| {
        assert (a + b)[i] == a[i];
      } else {
        assert (a + b)[i] == b[i - |a|];
      }
    }
  }

  /** The report has one line, and so one newline, per key listed. */
  lemma {:induction false} ClusterLinesCount(m: map<int, seq<ClusterableObject>>, order: seq<int>)
    requires forall i :: 0 <= i < |order| ==> order[i] in m
    ensures Count(ClusterLines(m, order), '\n') == |order|
    decreases |order|
  {
    if order != [] {
      var last := order[|order| - 1];
      ClusterLinesCount(m, order[..|order| - 1]);
      ClusterLineNewlines(last, |m[last]|);
      CountConcat(ClusterLines(m, order[..|order| - 1]), ClusterLine(last, |m[last]|), '\n');
    }
  }

  /**
    The report starts with the header naming the technique; with no clusters it
    then says the clustering was not completed, and otherwise it has exactly one
    line per cluster key.
   */
  lemma ResultTextSpec(name: string, m: map<int, seq<ClusterableObject>>, order: seq<int>)
    requires KeyOrder(m, order)
    ensures StartsWith(ResultText(name, m, order), Header(name))
    ensures |m| == 0 ==> ResultText(name, m, order)[|Header(name)|..] == NotCompleted
    ensures |m| > 0 ==>
      var lines := ResultText(name, m, order)[|Header(name)|..];
      Count(lines, '\n') == |m| && lines[|lines| - 1] == '\n'
  {
    var header := Header(name);
    assert ResultText(name, m, order)[..|header|] == header;
    if |m| == 0 {
      assert ResultText(name, m, order)[|header|..] == NotCompleted;
    } else {
      var lines := ClusterLines(m, order);
      assert ResultText(name, m, order)[|header|..] == lines;
      KeyOrderSize(m, order);
      ClusterLinesCount(m, order);
      var last := order[|order| - 1];
      ClusterLineNewlines(last, |m[last]|);
    }
  }

  /** A duplicate-free listing of the keys is as long as the map. */
  lemma KeyOrderSize<V>(m: map<int, V>, order: seq<int>)
    requires KeyOrder(m, order)
    ensures |order| == |m|
  {
    var keys := set k | k in order;
    forall k | k in keys
      ensures k in m
    {
      var i :| 0 <= i < |order| && order[i] == k;
    }
    forall k | k in m
      ensures k in keys
    {
    }
    assert keys == m.Keys;
    DistinctCard(order);
  }

  /** A sequence without duplicates has as many distinct elements as positions. */
  lemma {:induction false} DistinctCard(s: seq<int>)
    requires NoDuplicates(s)
    ensures |set k | k in s| == |s|
    decreases |s|
  {
    if s != [] {
      var init := s[..|s| - 1];
      DistinctCard(init);
      assert (set k | k in s) == (set k | k in init) + {s[|s| - 1]};
      assert s[|s| - 1] !in init;
    }
  }

  /** `AbstractClusterer` with its `KMeansClusterer` and `DBScanClusterer` subclasses. */
  class Clusterer {
    const algorithm: Algorithm
    var clusterableObjects: seq<ClusterableObject>
    var clusteredMap: map<int, seq<ClusterableObject>>

    /** The data-point constructor: one wrapper per object, the i-th object with the i-th point. */
    constructor Paired(pathObjects: seq<PathObject>, dataPoints: seq<array<Double>>, config: Algorithm)
      requires |pathObjects| <= |dataPoints|
      ensures algorithm == config && clusteredMap == map[]
      ensures |clusterableObjects| == |pathObjects|
      ensures forall i :: 0 <= i < |pathObjects| ==>
        clusterableObjects[i].pathObject == pathObjects[i] && clusterableObjects[i].point[..] == dataPoints[i][..]
    {
      algorithm := config;
      clusteredMap := map[];
      var wrapped: seq<ClusterableObject> := [];
      for i := 0 to |pathObjects|
        invariant |wrapped| == i
        invariant forall j :: 0 <= j < i ==>
          wrapped[j].pathObject == pathObjects[j] && wrapped[j].point[..] == dataPoints[j][..]
      {
        var c := new ClusterableObject.FromFeatures(pathObjects[i], dataPoints[i]);
        wrapped := wrapped + [c];
      }
      clusterableObjects := wrapped;
    }

    /** The feature-name constructor: one wrapper per object, with the features it has. */
    constructor Named(pathObjects: seq<PathObject>, featureNames: seq<string>, config: Algorithm)
      ensures algorithm == config && clusteredMap == map[]
      ensures |clusterableObjects| == |pathObjects|
      ensures forall i :: 0 <= i < |pathObjects| ==>
        clusterableObjects[i].pathObject == pathObjects[i] &&
        clusterableObjects[i].point[..] == FeatureVector(pathObjects[i].measurements, featureNames)
    {
      algorithm := config;
      clusteredMap := map[];
      var wrapped: seq<ClusterableObject> := [];
      for i := 0 to |pathObjects|
        invariant |wrapped| == i
        invariant forall j :: 0 <= j < i ==>
          wrapped[j].pathObject == pathObjects[j] &&
          wrapped[j].point[..] == FeatureVector(pathObjects[j].measurements, featureNames)
      {
        var features := FeatureList(pathObjects[i].measurements, featureNames);
        var d := new Double[|features|](k requires 0 <= k < |features| => features[k]);
        var c := new ClusterableObject.FromFeatures(pathObjects[i], d);
        wrapped := wrapped + [c];
      }
      clusterableObjects := wrapped;
    }

    /** `cluster()`: clear the map, then store the i-th library cluster under key i. */
    method Cluster(library: Library)
      modifies this
      ensures clusteredMap == KeyedByIndex(library(algorithm, clusterableObjects))
      ensures clusterableObjects == old(clusterableObjects)
    {
      clusteredMap := map[];
      var results := library(algorithm, clusterableObjects);
      for i := 0 to |results|
        invariant clusteredMap == KeyedByIndex(results[..i])
        invariant clusterableObjects == old(clusterableObjects)
      {
        var objects: seq<ClusterableObject> := [];
        for j := 0 to |results[i]|
          invariant objects == results[i][..j]
        {
          objects := objects + [results[i][j]];
        }
        assert objects == results[i] by {
          assert results[i][..|results[i]|] == results[i];
        }
        clusteredMap := clusteredMap[i := objects];
        assert clusteredMap == KeyedByIndex(results[..i + 1]);
      }
      assert results[..|results|] == results;
    }

    /** `getClusterMap()`. */
    method GetClusterMap() returns (m: map<int, seq<ClusterableObject>>)
      ensures m == clusteredMap
    {
      m := clusteredMap;
    }

    /** `resultToString()`, with the map's key iteration order as `order`. */
    method ResultToString(order: seq<int>) returns (text: string)
      requires KeyOrder(clusteredMap, order)
      ensures text == ResultText(Name(algorithm), clusteredMap, order)
    {
      text := Header(Name(algorithm));
      if |clusteredMap| != 0 {
        var lines := "";
        for i := 0 to |order|
          invariant lines == ClusterLines(clusteredMap, order[..i])
        {
          assert order[..i + 1][..i] == order[..i];
          lines := lines + ClusterLine(order[i], |clusteredMap[order[i]]|);
        }
        assert order[..|order|] == order;
        text := text + lines;
      } else {
        text := text + NotCompleted;
      }
    }
  }
}
