/**
  The sample server of the second active-learning panel (`ALPathObjectServer`
  nested in ActiveLearningPanel2): it keeps the reviewable objects of the
  hierarchy, splits them into clusters sorted by ascending class probability,
  and serves them cluster by cluster, one object per call, with one forward-only
  cursor per cluster and a pointer that wraps at the cluster count.

  `ServerState` is the abstract value of the server; the functions `Initial`,
  `Clustered` and `Served` say what each operation does to it, and the class
  `Server` is proved to implement them.
 */
module ALServer2 {
  import opened Basics
  import opened Domain
  import opened ProbSort

  /**
    Feature extraction, projection to two principal components and k-means++ with
    the requested count: the objects, in list order, to clusters in library order.
   */
  type Clustering = (seq<PathObject>, int) -> seq<seq<PathObject>>

  /** The constructor's filter: no annotations, no unclassified or "Image" objects, no points ROIs. */
  predicate Servable(p: PathObject) {
    p.kind != Annotation && p.pathClass.Some? && p.pathClass.value != ImageClass && !p.roi.isPoints
  }

  /** The fields of the server that its operations read and write. */
  datatype ServerState = ServerState(
    objects: seq<PathObject>,                  // pathObjects
    clusters: map<int, seq<PathObject>>,       // clusteredMap
    cursors: map<int, Cursor<PathObject>>,     // itMap
    current: int,                              // currentCluster
    last: Option<PathObject>,                  // currentObject
    count: int)                                // clusterCount

  /** A freshly constructed server over the hierarchy's flattened object list. */
  function Initial(flat: seq<PathObject>): ServerState {
    ServerState(Filter(flat, Servable), map[], map[], 0, None, 1)
  }

  /** The pointer after one step: the next cluster, or 0 once it reaches the cluster count. */
  function NextCluster(p: int, count: int): (q: int)
    ensures 0 <= p < count ==> q == (p + 1) % count
    ensures p + 1 >= count ==> q == 0
    ensures p >= -1 ==> 0 <= q && (q < count || q == 0)
  {
    if p + 1 >= count then 0 else p + 1
  }

  /** `clusteredMap.put(i, results[i])` for every library cluster, in order. */
  function Relabelled(m: map<int, seq<PathObject>>, results: seq<seq<PathObject>>): (r: map<int, seq<PathObject>>)
    ensures forall k :: k in r <==> k in m || 0 <= k < |results|
    ensures forall i :: 0 <= i < |results| ==> r[i] == results[i]
    ensures forall k :: k in m && !(0 <= k < |results|) ==> r[k] == m[k]
  {
    if results == [] then m
    else Relabelled(m, results[..|results| - 1])[|results| - 1 := results[|results| - 1]]
  }

  /** Every list of the map sorted by probability. */
  function SortedValues(m: map<int, seq<PathObject>>): map<int, seq<PathObject>> {
    map k | k in m :: SortByProb(m[k])
  }

  /** A fresh cursor for every list of the map. */
  function FreshCursors(m: map<int, seq<PathObject>>): map<int, Cursor<PathObject>> {
    map k | k in m :: Fresh(m[k])
  }

  /** `clusterPathObjects()`. */
  function Clustered(st: ServerState, lib: Clustering): ServerState {
    if |st.objects| <= 1 then st
    else if st.count < 2 then
      var sorted := SortByProb(st.objects);
      st.(objects := sorted, clusters := st.clusters[0 := sorted], cursors := st.cursors[0 := Fresh(sorted)])
    else
      var clusters := SortedValues(Relabelled(st.clusters, lib(st.objects, st.count)));
      st.(clusters := clusters, cursors := st.cursors + FreshCursors(clusters))
  }

  /** `serveNext()`: what it returns or throws, and the server afterwards. */
  function Served(st: ServerState): (Outcome<Option<PathObject>>, ServerState) {
    if st.current !in st.cursors then (Thrown(NullPointer), st)
    else
      var c := st.cursors[st.current];
      var next := NextCluster(st.current, st.count);
      if !c.HasNext() then (Returned(st.last), st.(current := next))
      else
        (Returned(Some(c.Next())),
         st.(cursors := st.cursors[st.current := c.Advanced()], current := next, last := Some(c.Next())))
  }

  /** The loop that stores the i-th library cluster under key i. */
  method PutClusters(m: map<int, seq<PathObject>>, results: seq<seq<PathObject>>)
    returns (r: map<int, seq<PathObject>>)
    ensures r == Relabelled(m, results)
  {
    r := m;
    var i := 0;
    while i < |results|
      invariant 0 <= i <= |results|
      invariant r == Relabelled(m, results[..i])
    {
      assert results[..i + 1][..i] == results[..i];
      r := r[i := results[i]];
      i := i + 1;
    }
    assert results[..|results|] == results;
  }

  /** The loop that sorts every list of the map by probability, whichever clustering it came from. */
  method SortClusters(m: map<int, seq<PathObject>>) returns (r: map<int, seq<PathObject>>)
    ensures r == SortedValues(m)
  {
    r := m;
    var pending := m.Keys;
    while pending != {}
      invariant r.Keys == m.Keys && pending <= m.Keys
      invariant forall k :: k in m ==> r[k] == if k in pending then m[k] else SortByProb(m[k])
      decreases pending
    {
      HasKey(pending);
      var k :| k in pending;
      r := r[k := SortByProb(r[k])];
      pending := pending - {k};
    }
    forall k | k in m ensures k !in pending {
      if k in pending {
        assert false;
      }
    }
    var sorted := SortedValues(m);
    assert r.Keys == sorted.Keys;
    assert forall k :: k in r ==> r[k] == sorted[k];
  }

  /** The loop that puts a fresh iterator for every key of the map. */
  method ResetIterators(its: map<int, Cursor<PathObject>>, m: map<int, seq<PathObject>>)
    returns (r: map<int, Cursor<PathObject>>)
    ensures r == its + FreshCursors(m)
  {
    r := its;
    var pending := m.Keys;
    while pending != {}
      invariant pending <= m.Keys
      invariant forall k :: k in r <==> k in its || k in m.Keys - pending
      invariant forall k :: k in r ==> r[k] == if k in m && k !in pending then Fresh(m[k]) else its[k]
      decreases pending
    {
      HasKey(pending);
      var k :| k in pending;
      r := r[k := Fresh(m[k])];
      pending := pending - {k};
    }
    forall k | k in m ensures k !in pending {
      if k in pending {
        assert false;
      }
    }
    var want := its + FreshCursors(m);
    assert forall k :: k in r <==> k in want;
    assert r.Keys == want.Keys;
    assert forall k :: k in r ==> r[k] == want[k];
  }

  /** `createFeatureMatrix` keeps the measurements whose names mention none of these. */
  predicate ShapeMeasurement(m: Measurement) {
    !Contains(m.name, "Centroid") && !Contains(m.name, "Cell") && !Contains(m.name, "Cytoplasm") && !Contains(m.name, "Channel")
  }

  /** One object's feature row: the values of its shape measurements, in measurement-list order. */
  method ShapeFeatureRow(ms: seq<Measurement>) returns (row: seq<Double>)
    ensures row == Values(Filter(ms, ShapeMeasurement))
  {
    row := [];
    var i := 0;
    while i < |ms|
      invariant 0 <= i <= |ms|
      invariant row == Values(Filter(ms[..i], ShapeMeasurement))
    {
      assert ms[..i + 1] == ms[..i] + [ms[i]];
      FilterSnoc(ms[..i], ms[i], ShapeMeasurement);
      if ShapeMeasurement(ms[i]) {
        row := row + [ms[i].value];
      }
      i := i + 1;
    }
    assert ms[..|ms|] == ms;
  }

  /**
    A measurement's value is in the row exactly when its name avoids the four words,
    and the row keeps measurement-list order.
   */
  lemma ShapeFeatureRowSpec(ms: seq<Measurement>, a: seq<Measurement>, b: seq<Measurement>, m: Measurement)
    ensures m in Filter(ms, ShapeMeasurement) <==> m in ms && ShapeMeasurement(m)
    ensures Values(Filter(a + b, ShapeMeasurement)) == Values(Filter(a, ShapeMeasurement)) + Values(Filter(b, ShapeMeasurement))
  {
    if m in ms && ShapeMeasurement(m) {
      FilterKeeps(ms, ShapeMeasurement, m);
    }
    FilterConcat(a, b, ShapeMeasurement);
    ValuesConcat(Filter(a, ShapeMeasurement), Filter(b, ShapeMeasurement));
  }

  class Server {
    var pathObjects: seq<PathObject>
    var clusteredMap: map<int, seq<PathObject>>
    var itMap: map<int, Cursor<PathObject>>
    var currentCluster: int
    var currentObject: Option<PathObject>
    var clusterCount: int

    function State(): ServerState
      reads this
    {
      ServerState(pathObjects, clusteredMap, itMap, currentCluster, currentObject, clusterCount)
    }

    /** Keeps, in order, the objects of the flattened hierarchy that can be reviewed. */
    constructor (flat: seq<PathObject>)
      ensures State() == Initial(flat)
    {
      var objects := [];
      var i := 0;
      while i < |flat|
        invariant 0 <= i <= |flat|
        invariant objects == Filter(flat[..i], Servable)
      {
        if Servable(flat[i]) {
          objects := objects + [flat[i]];
        }
        assert flat[..i + 1][..i] == flat[..i];
        i := i + 1;
      }
      assert flat[..|flat|] == flat;
      pathObjects := objects;
      clusteredMap := map[];
      itMap := map[];
      currentCluster := 0;
      currentObject := None;
      clusterCount := 1;
    }

    method SetClusterCount(n: int)
      modifies this
      ensures State() == old(State()).(count := n)
    {
      clusterCount := n;
    }

    method ClusterPathObjects(lib: Clustering)
      modifies this
      ensures State() == Clustered(old(State()), lib)
    {
      if |pathObjects| <= 1 {
        return;
      }
      if clusterCount < 2 {
        pathObjects := SortByProb(pathObjects);
        clusteredMap := clusteredMap[0 := pathObjects];
        itMap := itMap[0 := Fresh(pathObjects)];
        return;
      }
      var results := lib(pathObjects, clusterCount);
      var relabelled := PutClusters(clusteredMap, results);
      clusteredMap := SortClusters(relabelled);
      itMap := ResetIterators(itMap, clusteredMap);
    }

    method ServeNext() returns (r: Outcome<Option<PathObject>>)
      modifies this
      ensures (r, State()) == Served(old(State()))
    {
      if currentCluster !in itMap {
        return Thrown(NullPointer);
      }
      var it := itMap[currentCluster];
      if !it.HasNext() {
        currentCluster := currentCluster + 1;
        if currentCluster >= clusterCount {
          currentCluster := 0;
        }
        return Returned(currentObject);
      }
      var served := it.Next();
      itMap := itMap[currentCluster := it.Advanced()];
      currentCluster := currentCluster + 1;
      if currentCluster >= clusterCount {
        currentCluster := 0;
      }
      currentObject := Some(served);
      return Returned(Some(served));
    }
  }

  /** The server's list holds exactly the reviewable objects of the hierarchy. */
  lemma InitialFilters(flat: seq<PathObject>)
    ensures forall p :: p in Initial(flat).objects <==> p in flat && Servable(p)
    ensures Initial(flat).clusters == map[] && Initial(flat).cursors == map[]
    ensures Initial(flat).current == 0 && Initial(flat).last == None && Initial(flat).count == 1
  {
    forall p | p in flat && Servable(p) ensures p in Initial(flat).objects {
      FilterKeeps(flat, Servable, p);
    }
  }

  /** The filter keeps the hierarchy's order: it works piecewise on any split of the list. */
  lemma InitialKeepsOrder(a: seq<PathObject>, b: seq<PathObject>)
    ensures Initial(a + b).objects == Initial(a).objects + Initial(b).objects
  {
    FilterConcat(a, b, Servable);
  }

  /** With fewer than two objects clustering changes nothing. */
  lemma ClusterTooFew(st: ServerState, lib: Clustering)
    requires |st.objects| <= 1
    ensures Clustered(st, lib) == st
  {
  }

  /**
    A fresh server with fewer than two reviewable objects has no cursor for
    cluster 0 after clustering, so the first `serveNext` throws.
   */
  lemma ServeAfterTooFewThrows(flat: seq<PathObject>, lib: Clustering)
    requires |Initial(flat).objects| <= 1
    ensures Served(Clustered(Initial(flat), lib)).0 == Thrown(NullPointer)
  {
  }

  /**
    Below two clusters the whole list is sorted in place by probability and
    installed, the same list, as cluster 0 with a fresh cursor; nothing else changes.
   */
  lemma ClusterSingle(st: ServerState, lib: Clustering)
    requires |st.objects| >= 2 && st.count < 2
    ensures var st' := Clustered(st, lib);
      && SortedByProb(st'.objects) && multiset(st'.objects) == multiset(st.objects)
      && st'.clusters.Keys == st.clusters.Keys + {0} && st'.clusters[0] == st'.objects
      && (forall k :: k in st.clusters && k != 0 ==> st'.clusters[k] == st.clusters[k])
      && st'.cursors.Keys == st.cursors.Keys + {0} && st'.cursors[0] == Cursor(st'.objects, 0)
      && (forall k :: k in st.cursors && k != 0 ==> st'.cursors[k] == st.cursors[k])
      && st'.current == st.current && st'.last == st.last && st'.count == st.count
  {
    SortByProbSpec(st.objects);
  }

  /**
    From two clusters up, the i-th library cluster is stored under key i, every
    list of the map (stale keys from an earlier, larger clustering included) is
    sorted by probability and gets a fresh cursor, and the pointer, the last
    served object and the object list are left alone.
   */
  lemma ClusterMany(st: ServerState, lib: Clustering)
    requires |st.objects| >= 2 && st.count >= 2
    ensures var st' := Clustered(st, lib); var res := lib(st.objects, st.count);
      && (forall k :: k in st'.clusters <==> k in st.clusters || 0 <= k < |res|)
      && (forall i :: 0 <= i < |res| ==>
            SortedByProb(st'.clusters[i]) && multiset(st'.clusters[i]) == multiset(res[i]))
      && (forall k :: k in st.clusters && !(0 <= k < |res|) ==> st'.clusters[k] == SortByProb(st.clusters[k]))
      && (forall k :: k in st'.clusters ==> k in st'.cursors && st'.cursors[k] == Cursor(st'.clusters[k], 0))
      && (forall k :: k in st'.cursors && k !in st'.clusters ==> st'.cursors[k] == st.cursors[k])
      && st'.objects == st.objects && st'.current == st.current && st'.last == st.last
  {
    var res := lib(st.objects, st.count);
    forall i | 0 <= i < |res|
      ensures SortedByProb(SortByProb(res[i])) && multiset(SortByProb(res[i])) == multiset(res[i])
    {
      SortByProbSpec(res[i]);
    }
  }

  /** Every cursor walks the current list of its own cluster. */
  predicate CursorsTrack(st: ServerState) {
    forall k :: k in st.cursors ==>
      k in st.clusters && st.cursors[k].items == st.clusters[k] && st.cursors[k].pos <= |st.clusters[k]|
  }

  lemma InitialTracks(flat: seq<PathObject>)
    ensures CursorsTrack(Initial(flat))
  {
  }

  /** Clustering leaves every cursor on its own cluster's list. */
  lemma ClusteredTracks(st: ServerState, lib: Clustering)
    requires CursorsTrack(st)
    ensures CursorsTrack(Clustered(st, lib))
  {
    if |st.objects| >= 2 && st.count >= 2 {
      ClusterMany(st, lib);
    }
  }

  /** Serving leaves every cursor on its own cluster's list. */
  lemma ServedTracks(st: ServerState)
    requires CursorsTrack(st)
    ensures CursorsTrack(Served(st).1)
  {
  }

  /**
    A cluster with objects left: the next object of that cluster in sorted order
    is returned and recorded, its cursor moves on, the pointer steps with wrap,
    and no other cursor or list changes.
   */
  lemma ServeAvailable(st: ServerState)
    requires CursorsTrack(st) && st.current in st.cursors && st.cursors[st.current].HasNext()
    ensures var (r, st') := Served(st); var c := st.cursors[st.current];
      && r == Returned(Some(st.clusters[st.current][c.pos]))
      && st'.last == Some(st.clusters[st.current][c.pos])
      && st'.cursors == st.cursors[st.current := Cursor(c.items, c.pos + 1)]
      && st'.current == NextCluster(st.current, st.count)
      && st'.clusters == st.clusters && st'.objects == st.objects && st'.count == st.count
  {
  }

  /**
    A drained cluster: the previously served object is returned again and the
    pointer steps once with wrap; no cursor is consumed and there is no sweep.
   */
  lemma ServeDrained(st: ServerState)
    requires st.current in st.cursors && !st.cursors[st.current].HasNext()
    ensures Served(st) == (Returned(st.last), st.(current := NextCluster(st.current, st.count)))
  {
  }

  /** No cursor under the pointer: `itMap.get` gives null and `serveNext` throws. */
  lemma ServeMissing(st: ServerState)
    requires st.current !in st.cursors
    ensures Served(st) == (Thrown(NullPointer), st)
  {
  }

  /** Every cursor is drained. */
  predicate AllDrained(st: ServerState) {
    forall k :: k in st.cursors ==> !st.cursors[k].HasNext()
  }

  /** Once every cluster is drained, each call returns the same last object for good. */
  lemma DrainedStaysDrained(st: ServerState)
    requires AllDrained(st) && st.current in st.cursors
    ensures Served(st).0 == Returned(st.last)
    ensures AllDrained(Served(st).1) && Served(st).1.last == st.last
  {
  }

  /** Starting in range, the pointer stays in `[0, clusterCount)`, or at 0 when the count is below 1. */
  lemma ServedPointerInRange(st: ServerState)
    requires 0 <= st.current && (st.current < st.count || st.current == 0)
    ensures var q := Served(st).1.current; 0 <= q && (q < st.count || q == 0)
  {
  }

  /** The clustering library returns only objects of the list it was given. */
  predicate LibraryWithin(lib: Clustering, st: ServerState) {
    var res := lib(st.objects, st.count);
    forall i, x :: 0 <= i < |res| && x in res[i] ==> x in st.objects
  }

  /** Every cluster list and the last served object come from the server's list. */
  predicate Belongs(st: ServerState) {
    && (forall k, x :: k in st.clusters && x in st.clusters[k] ==> x in st.objects)
    && (st.last.Some? ==> st.last.value in st.objects)
  }

  /** Clustering keeps every list within the server's objects. */
  lemma ClusteredBelongs(st: ServerState, lib: Clustering)
    requires Belongs(st) && LibraryWithin(lib, st)
    ensures Belongs(Clustered(st, lib))
  {
    var st' := Clustered(st, lib);
    if |st.objects| <= 1 {
    } else if st.count < 2 {
      ClusterSingle(st, lib);
      forall k, x | k in st'.clusters && x in st'.clusters[k] ensures x in st'.objects {
        if k != 0 {
          assert x in st.objects;
          assert x in multiset(st'.objects);
        }
      }
      if st.last.Some? {
        assert st.last.value in multiset(st'.objects);
      }
    } else {
      ClusterMany(st, lib);
      var res := lib(st.objects, st.count);
      forall k, x | k in st'.clusters && x in st'.clusters[k] ensures x in st'.objects {
        if 0 <= k < |res| {
          assert x in multiset(res[k]);
        } else {
          SortByProbSpec(st.clusters[k]);
          assert x in multiset(st.clusters[k]);
        }
      }
    }
  }

  /** Whatever `serveNext` returns is one of the server's objects. */
  lemma ServedBelongs(st: ServerState)
    requires CursorsTrack(st) && Belongs(st)
    ensures Belongs(Served(st).1)
    ensures Served(st).0.Returned? && Served(st).0.value.Some? ==> Served(st).0.value.value in st.objects
  {
  }

  /** A library that always returns the same clusters. */
  function FixedClustering(clusters: seq<seq<PathObject>>): Clustering {
    (objs: seq<PathObject>, k: int) => clusters
  }

  /**
    Objects A (0.9), B (0.1) and C (0.5), two clusters, and a library that puts
    A with C and B alone: cluster 0 becomes [C, A], cluster 1 becomes [B], and
    three calls from pointer 0 serve C, B and then A.
   */
  lemma ThreeObjectScenario(a: PathObject, b: PathObject, c: PathObject)
    requires a.probability == Num(0.9) && b.probability == Num(0.1) && c.probability == Num(0.5)
    ensures var st1 := Clustered(ServerState([a, b, c], map[], map[], 0, None, 2), FixedClustering([[a, c], [b]]));
      && st1.clusters == map[0 := [c, a], 1 := [b]]
      && Served(st1).0 == Returned(Some(c))
      && Served(Served(st1).1).0 == Returned(Some(b))
      && Served(Served(Served(st1).1).1).0 == Returned(Some(a))
  {
    ThreeObjectClusters(a, b, c);
    var st1 := Clustered(ServerState([a, b, c], map[], map[], 0, None, 2), FixedClustering([[a, c], [b]]));
    ThreeObjectServes(st1, a, b, c);
  }

  /** The clustering step of the scenario: cluster 0 sorted to [C, A], cluster 1 is [B], fresh cursors on both. */
  lemma ThreeObjectClusters(a: PathObject, b: PathObject, c: PathObject)
    requires a.probability == Num(0.9) && b.probability == Num(0.1) && c.probability == Num(0.5)
    ensures var st1 := Clustered(ServerState([a, b, c], map[], map[], 0, None, 2), FixedClustering([[a, c], [b]]));
      && st1.clusters == map[0 := [c, a], 1 := [b]]
      && st1.cursors == map[0 := Cursor([c, a], 0), 1 := Cursor([b], 0)]
      && st1.current == 0 && st1.count == 2
  {
    var st0 := ServerState([a, b, c], map[], map[], 0, None, 2);
    SortTwoSwaps(a, c);
    SortOne(b);
    RelabelledTwo([a, c], [b]);
    assert FixedClustering([[a, c], [b]])(st0.objects, st0.count) == [[a, c], [b]];
    TwoKeys(map[0 := [a, c], 1 := [b]], [a, c], [b]);
    var sorted := map[0 := [c, a], 1 := [b]];
    TwoKeys(sorted, [c, a], [b]);
    var st1 := Clustered(st0, FixedClustering([[a, c], [b]]));
    assert st1.clusters == sorted;
    assert st1.cursors == map[] + FreshCursors(sorted);
  }

  /** A single object is already sorted. */
  lemma SortOne(x: PathObject)
    ensures SortByProb([x]) == [x]
  {
    assert [x][..0] == [];
  }

  /** Two objects, the second with the lower probability, swap places. */
  lemma SortTwoSwaps(x: PathObject, y: PathObject)
    requires Compare(y.probability, x.probability) < 0
    ensures SortByProb([x, y]) == [y, x]
  {
    SortOne(x);
    assert [x, y][..1] == [x];
  }

  /** Two library clusters go under keys 0 and 1 of an empty map. */
  lemma RelabelledTwo(first: seq<PathObject>, second: seq<PathObject>)
    ensures Relabelled(map[], [first, second]) == map[0 := first, 1 := second]
  {
    assert [first, second][..1] == [first];
    assert [first][..0] == [];
  }

  /** Sorting and cursors over a map with keys 0 and 1 act on each of its two lists. */
  lemma TwoKeys(m: map<int, seq<PathObject>>, x: seq<PathObject>, y: seq<PathObject>)
    requires m == map[0 := x, 1 := y]
    ensures SortedValues(m) == map[0 := SortByProb(x), 1 := SortByProb(y)]
    ensures FreshCursors(m) == map[0 := Fresh(x), 1 := Fresh(y)]
  {
  }

  /** The serving step of the scenario: from pointer 0, C, then B, then A. */
  lemma ThreeObjectServes(st1: ServerState, a: PathObject, b: PathObject, c: PathObject)
    requires st1.cursors == map[0 := Cursor([c, a], 0), 1 := Cursor([b], 0)] && st1.current == 0 && st1.count == 2
    ensures Served(st1).0 == Returned(Some(c))
    ensures Served(Served(st1).1).0 == Returned(Some(b))
    ensures Served(Served(Served(st1).1).1).0 == Returned(Some(a))
  {
    var st2 := st1.(cursors := st1.cursors[0 := Cursor([c, a], 1)], current := 1, last := Some(c));
    assert Served(st1) == (Returned(Some(c)), st2);
    var st3 := st2.(cursors := st2.cursors[1 := Cursor([b], 1)], current := 0, last := Some(b));
    assert Served(st2) == (Returned(Some(b)), st3);
    assert st3.cursors[0] == Cursor([c, a], 1);
  }

  /** `n` calls of `serveNext` in a row: what each returns, and the server afterwards. */
  function ServedTimes(st: ServerState, n: nat): (seq<Outcome<Option<PathObject>>>, ServerState)
    decreases n
  {
    if n == 0 then ([], st)
    else
      var first := Served(st);
      var rest := ServedTimes(first.1, n - 1);
      ([first.0] + rest.0, rest.1)
  }

  /** The pointer after `j` steps from `p`. */
  function Ahead(p: int, j: nat, count: int): int
    decreases j
  {
    if j == 0 then p else Ahead(NextCluster(p, count), j - 1, count)
  }

  /** Within one round, `j` steps from `p` reach `p + j`, wrapped once at the cluster count. */
  lemma {:induction false} AheadWraps(p: int, j: nat, count: int)
    requires 0 <= p < count && j <= count
    ensures Ahead(p, j, count) == if p + j < count then p + j else p + j - count
    decreases j
  {
    if j > 0 {
      AheadWraps(NextCluster(p, count), j - 1, count);
    }
  }

  /**
    Round robin: while each of the next `n <= clusterCount` clusters from the
    pointer has an object left, `n` calls serve the next object of each of them
    once, in ascending order from the pointer and wrapping at the cluster count.
   */
  lemma {:induction false} RoundRobin(st: ServerState, n: nat)
    requires 0 <= st.current < st.count && n <= st.count
    requires forall j: nat :: j < n ==>
      Ahead(st.current, j, st.count) in st.cursors && st.cursors[Ahead(st.current, j, st.count)].HasNext()
    ensures |ServedTimes(st, n).0| == n
    ensures forall j: nat :: j < n ==>
      ServedTimes(st, n).0[j] == Returned(Some(st.cursors[Ahead(st.current, j, st.count)].Next()))
    decreases n
  {
    if n > 0 {
      var k := st.count;
      var st' := Served(st).1;
      assert Ahead(st.current, 0, k) == st.current;
      assert st'.current == NextCluster(st.current, k);
      forall j: nat | j < n - 1
        ensures Ahead(st'.current, j, k) == Ahead(st.current, j + 1, k)
        ensures Ahead(st.current, j + 1, k) != st.current
      {
        AheadWraps(st.current, j + 1, k);
      }
      RoundRobin(st', n - 1);
    }
  }
}
