/**
  The two clustering sample proposals. Both cluster the list they were built with
  into the clusterer's five clusters, keep one cursor per cluster, and serve by
  sweeping a pointer that wraps at their own cluster count past drained
  clusters, for at most as many steps as there are cursors.

  They differ when a sweep finds nothing: `ClusteringSampleProposal` returns its
  current object, which it never sets; `SortedClusteringSampleProposal` sorts the
  shared list, reclusters, and calls itself again. That recursion need not end, so
  the model gives it a bound (`fuel`) and reports `OutOfFuel` past it.

  The clusterer is built once, from the list as it was at construction, so it is
  the function `lib` applied to that snapshot (`input`) with five clusters; its
  `cluster()` clears its map and stores the i-th library cluster under key i.
 */
module ClusterProposals {
  import opened Basics
  import opened Domain
  import opened ProbSort
  import opened ALServer2

  /** Both proposals build their clusterer with five clusters, whatever their own cluster count. */
  const ClustererK := 5

  /** The fields of a clustering proposal. */
  datatype ProposalState = ProposalState(
    objects: seq<PathObject>,                 // pathObjects, the caller's list
    clusters: map<int, seq<PathObject>>,      // clusterMap (the clusterer's map)
    cursors: map<int, Cursor<PathObject>>,    // iteratorMap
    current: int,                             // currentCluster
    count: int,                               // clusterCount
    last: Option<PathObject>)                 // currentObject

  /** A recursion that may not end: its result, or the bound ran out. */
  datatype Bounded<T> = Done(value: T) | OutOfFuel

  /** `initialize()` of the plain proposal: recluster and overwrite one cursor per key, without clearing. */
  function Initialized(st: ProposalState, lib: Clustering, input: seq<PathObject>): ProposalState {
    var m := KeyedByIndex(lib(input, ClustererK));
    st.(clusters := m, cursors := st.cursors + FreshCursors(m))
  }

  /** `initialize()` of the sorted proposal: clear the cursors, recluster, one fresh cursor per key. */
  function InitializedSorted(st: ProposalState, lib: Clustering, input: seq<PathObject>): ProposalState {
    var m := KeyedByIndex(lib(input, ClustererK));
    st.(clusters := m, cursors := FreshCursors(m))
  }

  /** `reset()` of the sorted proposal: sort the shared list, then initialize. */
  function ResetSorted(st: ProposalState, lib: Clustering, input: seq<PathObject>): ProposalState {
    InitializedSorted(st.(objects := SortByProb(st.objects)), lib, input)
  }

  /** Where the sweep stops: the pointer, the steps taken, and whether the pointer had no cursor. */
  datatype SweepEnd = SweepEnd(pointer: int, attempts: nat, missing: bool)

  /**
    The sweep loop: from pointer `p`, step past drained clusters while fewer than
    `size` steps have been taken; a pointer without a cursor makes `hasNext` throw.
   */
  function Sweep(cursors: map<int, Cursor<PathObject>>, p: int, count: int, attempts: nat, size: nat): SweepEnd
    decreases size - attempts
  {
    if p !in cursors then SweepEnd(p, attempts, true)
    else if cursors[p].HasNext() || attempts >= size then SweepEnd(p, attempts, false)
    else Sweep(cursors, NextCluster(p, count), count, attempts + 1, size)
  }

  /**
    The sweep visits the clusters `Ahead(p, j)` in pointer order: every one it
    passes is drained, it takes at most `size` steps, and when it stops early without
    a missing cursor it stops on a cluster with an object left.
   */
  lemma {:induction false} SweepSpec(cursors: map<int, Cursor<PathObject>>, p: int, count: int, attempts: nat, size: nat)
    requires attempts <= size
    ensures var e := Sweep(cursors, p, count, attempts, size);
      && attempts <= e.attempts <= size
      && e.pointer == Ahead(p, e.attempts - attempts, count)
      && (forall i: nat :: i < e.attempts - attempts ==>
            Ahead(p, i, count) in cursors && !cursors[Ahead(p, i, count)].HasNext())
      && (e.missing <==> e.pointer !in cursors)
      && (!e.missing && e.attempts < size ==> cursors[e.pointer].HasNext())
    decreases size - attempts
  {
    if p in cursors && !cursors[p].HasNext() && attempts < size {
      var q := NextCluster(p, count);
      SweepSpec(cursors, q, count, attempts + 1, size);
      var e := Sweep(cursors, q, count, attempts + 1, size);
      forall i: nat | i < e.attempts - attempts
        ensures Ahead(p, i, count) in cursors && !cursors[Ahead(p, i, count)].HasNext()
      {
        if i > 0 {
          assert Ahead(p, i, count) == Ahead(q, i - 1, count);
        }
      }
      assert Ahead(p, e.attempts - attempts, count) == Ahead(q, e.attempts - (attempts + 1), count);
    }
  }

  /** The step after a sweep that found a cluster: advance the pointer once more and take that cluster's next object. */
  function TakeFound(st: ProposalState, e: SweepEnd): (Outcome<Option<PathObject>>, ProposalState)
    requires e.pointer in st.cursors && st.cursors[e.pointer].HasNext()
  {
    var c := st.cursors[e.pointer];
    (Returned(Some(c.Next())),
     st.(cursors := st.cursors[e.pointer := c.Advanced()], current := NextCluster(e.pointer, st.count)))
  }

  /** `serveObject()` of `ClusteringSampleProposal`. */
  function ClusteringServed(st: ProposalState): (Outcome<Option<PathObject>>, ProposalState) {
    var e := Sweep(st.cursors, st.current, st.count, 0, |st.cursors|);
    SweepSpec(st.cursors, st.current, st.count, 0, |st.cursors|);
    if e.missing then (Thrown(NullPointer), st.(current := e.pointer))
    else if e.attempts >= |st.cursors| then (Returned(st.last), st.(current := e.pointer))
    else TakeFound(st, e)
  }

  /** `serveObject()` of `SortedClusteringSampleProposal`, with at most `fuel` reclusterings. */
  function SortedClusteringServed(st: ProposalState, lib: Clustering, input: seq<PathObject>, fuel: nat)
    : (Bounded<Outcome<Option<PathObject>>>, ProposalState)
    decreases fuel
  {
    var e := Sweep(st.cursors, st.current, st.count, 0, |st.cursors|);
    SweepSpec(st.cursors, st.current, st.count, 0, |st.cursors|);
    if e.missing then (Done(Thrown(NullPointer)), st.(current := e.pointer))
    else if e.attempts >= |st.cursors| then
      if fuel == 0 then (OutOfFuel, st.(current := e.pointer))
      else SortedClusteringServed(ResetSorted(st.(current := e.pointer), lib, input), lib, input, fuel - 1)
    else
      var (r, st') := TakeFound(st, e);
      (Done(r), st')
  }

  /** A freshly built proposal of either kind over the caller's list. */
  function Built(objects: seq<PathObject>, count: int, lib: Clustering, sorted: bool): ProposalState {
    var st := ProposalState(objects, map[], map[], 0, count, None);
    if sorted then InitializedSorted(st, lib, objects) else Initialized(st, lib, objects)
  }

  /**
    Construction clusters into the clusterer's five clusters, not `clusterCount`:
    the keys are exactly 0 .. n-1 for the n library clusters, each with a fresh
    cursor on its list; the pointer starts at 0 and nothing has been served.
   */
  lemma BuiltClusters(objects: seq<PathObject>, count: int, lib: Clustering, sorted: bool)
    ensures var st := Built(objects, count, lib, sorted); var res := lib(objects, ClustererK);
      && (forall k :: k in st.clusters <==> 0 <= k < |res|)
      && (forall i :: 0 <= i < |res| ==> st.clusters[i] == res[i])
      && (forall k :: k in st.cursors <==> k in st.clusters)
      && (forall k :: k in st.cursors ==> st.cursors[k] == Fresh(st.clusters[k]))
      && st.current == 0 && st.last == None && st.count == count && st.objects == objects
  {
  }

  /**
    The plain proposal's `initialize` (and so its `reset`) overwrites the cursor of
    every cluster key with a fresh one and keeps any other cursor; the sorted
    proposal's drops every old cursor first.
   */
  lemma InitializeCursors(st: ProposalState, lib: Clustering, input: seq<PathObject>)
    ensures var m := KeyedByIndex(lib(input, ClustererK));
      && Initialized(st, lib, input).clusters == m
      && (forall k :: k in m ==> Initialized(st, lib, input).cursors[k] == Fresh(m[k]))
      && (forall k :: k in st.cursors && k !in m ==> Initialized(st, lib, input).cursors[k] == st.cursors[k])
      && InitializedSorted(st, lib, input).cursors.Keys == m.Keys
      && (forall k :: k in m ==> InitializedSorted(st, lib, input).cursors[k] == Fresh(m[k]))
  {
  }

  /** `reset()` of the sorted proposal sorts the shared list and leaves the pointer and the current object alone. */
  lemma ResetSortedSpec(st: ProposalState, lib: Clustering, input: seq<PathObject>)
    ensures var st' := ResetSorted(st, lib, input);
      && SortedByProb(st'.objects) && multiset(st'.objects) == multiset(st.objects)
      && st'.current == st.current && st'.last == st.last && st'.count == st.count
  {
    SortByProbSpec(st.objects);
  }

  /**
    The plain proposal never records what it serves, so once a sweep finds every
    cluster drained it returns the object it started with: null for a new proposal.
   */
  lemma ClusteringNeverRecords(st: ProposalState)
    ensures ClusteringServed(st).1.last == st.last
    ensures ClusteringServed(st).1.objects == st.objects && ClusteringServed(st).1.clusters == st.clusters
    ensures AllDrained(st.cursors) ==>
      ClusteringServed(st).0 == Returned(st.last) || ClusteringServed(st).0 == Thrown(NullPointer)
  {
    SweepSpec(st.cursors, st.current, st.count, 0, |st.cursors|);
  }

  /** The pointer stays in [0, clusterCount) or at 0. */
  predicate PointerOk(st: ProposalState) {
    0 <= st.current && (st.current < st.count || st.current == 0)
  }

  /**
    Serving keeps the pointer in range, and an object served comes from the cluster
    the sweep stopped on, the first non-drained one in pointer order, so clusters
    with keys at or above the cluster count are never served from.
   */
  lemma ClusteringServedFrom(st: ProposalState)
    requires PointerOk(st)
    ensures PointerOk(ClusteringServed(st).1)
    ensures var e := Sweep(st.cursors, st.current, st.count, 0, |st.cursors|);
      ClusteringServed(st).0.Returned? && ClusteringServed(st).0.value.Some? && e.attempts < |st.cursors| ==>
        && (e.pointer < st.count || e.pointer == 0)
        && e.pointer in st.cursors && st.cursors[e.pointer].HasNext()
        && ClusteringServed(st).0.value.value == st.cursors[e.pointer].Next()
        && (forall i: nat :: i < e.attempts ==>
              Ahead(st.current, i, st.count) in st.cursors && !st.cursors[Ahead(st.current, i, st.count)].HasNext())
  {
    var e := Sweep(st.cursors, st.current, st.count, 0, |st.cursors|);
    SweepSpec(st.cursors, st.current, st.count, 0, |st.cursors|);
    AheadInRange(st.current, e.attempts, st.count);
  }

  /** Steps of the pointer from a position in range stay in range. */
  lemma {:induction false} AheadInRange(p: int, j: nat, count: int)
    requires 0 <= p && (p < count || p == 0)
    ensures 0 <= Ahead(p, j, count) && (Ahead(p, j, count) < count || Ahead(p, j, count) == 0)
    decreases j
  {
    if j > 0 {
      AheadInRange(NextCluster(p, count), j - 1, count);
    }
  }

  /** Every cursor of the map is drained. */
  predicate AllDrained(cursors: map<int, Cursor<PathObject>>) {
    forall k :: k in cursors ==> !cursors[k].HasNext()
  }

  /**
    The sorted proposal's retry ends only if reclustering yields an object: with
    every cursor drained and only empty library clusters, no amount of
    reclustering serves anything.
   */
  lemma {:induction false} EmptyClustersNeverServe(st: ProposalState, lib: Clustering, input: seq<PathObject>, fuel: nat)
    requires AllDrained(st.cursors)
    requires forall i :: 0 <= i < |lib(input, ClustererK)| ==> lib(input, ClustererK)[i] == []
    ensures SortedClusteringServed(st, lib, input, fuel).0 == OutOfFuel ||
            SortedClusteringServed(st, lib, input, fuel).0 == Done(Thrown(NullPointer))
    decreases fuel
  {
    var e := Sweep(st.cursors, st.current, st.count, 0, |st.cursors|);
    SweepSpec(st.cursors, st.current, st.count, 0, |st.cursors|);
    if !e.missing && e.attempts >= |st.cursors| && fuel > 0 {
      var st' := ResetSorted(st.(current := e.pointer), lib, input);
      assert AllDrained(st'.cursors);
      EmptyClustersNeverServe(st', lib, input, fuel - 1);
    }
  }

  /**
    A fruitless sweep is followed by one reset and a fresh serve: when the
    reclustered proposal has an object in reach, that is what is served.
   */
  lemma SortedRetriesAfterReset(st: ProposalState, lib: Clustering, input: seq<PathObject>, fuel: nat)
    requires fuel > 0
    requires var e := Sweep(st.cursors, st.current, st.count, 0, |st.cursors|);
      !e.missing && e.attempts >= |st.cursors|
    ensures var e := Sweep(st.cursors, st.current, st.count, 0, |st.cursors|);
      var st' := ResetSorted(st.(current := e.pointer), lib, input);
      SortedClusteringServed(st, lib, input, fuel) == SortedClusteringServed(st', lib, input, fuel - 1)
  {
  }

  /** `ClusteringSampleProposal`. */
  class ClusteringProposal {
    const pathObjects: array<PathObject>
    const input: seq<PathObject>
    const lib: Clustering
    var clusterMap: map<int, seq<PathObject>>
    var iteratorMap: map<int, Cursor<PathObject>>
    var currentCluster: int
    var clusterCount: int
    var currentObject: Option<PathObject>

    function State(): ProposalState
      reads this, pathObjects
    {
      ProposalState(pathObjects[..], clusterMap, iteratorMap, currentCluster, clusterCount, currentObject)
    }

    constructor (objects: array<PathObject>, count: int, library: Clustering)
      ensures pathObjects == objects && input == objects[..] && lib == library
      ensures State() == Built(objects[..], count, library, false)
    {
      pathObjects := objects;
      input := objects[..];
      lib := library;
      clusterCount := count;
      iteratorMap := map[];
      clusterMap := map[];
      currentCluster := 0;
      currentObject := None;
      new;
      Initialize();
    }

    method Initialize()
      modifies this
      ensures State() == Initialized(old(State()), lib, input)
    {
      var results := lib(input, ClustererK);
      clusterMap := PutClusters(map[], results);
      iteratorMap := ResetIterators(iteratorMap, clusterMap);
    }

    /** `reset()` is `initialize()`. */
    method Reset()
      modifies this
      ensures State() == Initialized(old(State()), lib, input)
    {
      Initialize();
    }

    method ServeObject() returns (r: Outcome<Option<PathObject>>)
      modifies this
      ensures (r, State()) == ClusteringServed(old(State()))
    {
      ghost var st := State();
      var attempts := 0;
      if currentCluster !in iteratorMap {
        return Thrown(NullPointer);
      }
      while !iteratorMap[currentCluster].HasNext() && attempts < |iteratorMap|
        invariant currentCluster in iteratorMap && attempts <= |iteratorMap|
        invariant State() == st.(current := currentCluster)
        invariant Sweep(st.cursors, st.current, st.count, 0, |st.cursors|) ==
                  Sweep(st.cursors, currentCluster, st.count, attempts, |st.cursors|)
        decreases |iteratorMap| - attempts
      {
        currentCluster := currentCluster + 1;
        if currentCluster >= clusterCount {
          currentCluster := 0;
        }
        attempts := attempts + 1;
        if currentCluster !in iteratorMap {
          return Thrown(NullPointer);
        }
      }
      if attempts >= |iteratorMap| {
        return Returned(currentObject);
      }
      var it := iteratorMap[currentCluster];
      iteratorMap := iteratorMap[currentCluster := it.Advanced()];
      currentCluster := currentCluster + 1;
      if currentCluster >= clusterCount {
        currentCluster := 0;
      }
      return Returned(Some(it.Next()));
    }
  }

  /** `SortedClusteringSampleProposal`. */
  class SortedClusteringProposal {
    const pathObjects: array<PathObject>
    const input: seq<PathObject>
    const lib: Clustering
    var clusterMap: map<int, seq<PathObject>>
    var iteratorMap: map<int, Cursor<PathObject>>
    var currentCluster: int
    var clusterCount: int
    var currentObject: Option<PathObject>

    function State(): ProposalState
      reads this, pathObjects
    {
      ProposalState(pathObjects[..], clusterMap, iteratorMap, currentCluster, clusterCount, currentObject)
    }

    constructor (objects: array<PathObject>, count: int, library: Clustering)
      ensures pathObjects == objects && input == objects[..] && lib == library
      ensures State() == Built(objects[..], count, library, true)
    {
      pathObjects := objects;
      input := objects[..];
      lib := library;
      clusterCount := count;
      iteratorMap := map[];
      clusterMap := map[];
      currentCluster := 0;
      currentObject := None;
      new;
      Initialize();
    }

    method Initialize()
      modifies this
      ensures State() == InitializedSorted(old(State()), lib, input)
    {
      var results := lib(input, ClustererK);
      clusterMap := PutClusters(map[], results);
      iteratorMap := ResetIterators(map[], clusterMap);
      assert map[] + FreshCursors(clusterMap) == FreshCursors(clusterMap);
    }

    /** `reset()`: sort the shared list in place, then initialize. */
    method Reset()
      modifies this, pathObjects
      ensures State() == ResetSorted(old(State()), lib, input)
    {
      var sorted := SortByProb(pathObjects[..]);
      SortByProbSpec(pathObjects[..]);
      forall i | 0 <= i < pathObjects.Length {
        pathObjects[i] := sorted[i];
      }
      assert pathObjects[..] == sorted;
      Initialize();
    }

    /** `serveObject()`, recursing after a reset at most `fuel` times. */
    method ServeObject(fuel: nat) returns (r: Bounded<Outcome<Option<PathObject>>>)
      modifies this, pathObjects
      ensures (r, State()) == SortedClusteringServed(old(State()), lib, input, fuel)
      decreases fuel
    {
      ghost var st := State();
      var attempts := 0;
      if currentCluster !in iteratorMap {
        return Done(Thrown(NullPointer));
      }
      while !iteratorMap[currentCluster].HasNext() && attempts < |iteratorMap|
        invariant currentCluster in iteratorMap && attempts <= |iteratorMap|
        invariant State() == st.(current := currentCluster)
        invariant Sweep(st.cursors, st.current, st.count, 0, |st.cursors|) ==
                  Sweep(st.cursors, currentCluster, st.count, attempts, |st.cursors|)
        decreases |iteratorMap| - attempts
      {
        currentCluster := currentCluster + 1;
        if currentCluster >= clusterCount {
          currentCluster := 0;
        }
        attempts := attempts + 1;
        if currentCluster !in iteratorMap {
          return Done(Thrown(NullPointer));
        }
      }
      if attempts >= |iteratorMap| {
        if fuel == 0 {
          return OutOfFuel;
        }
        Reset();
        r := ServeObject(fuel - 1);
        return;
      }
      var it := iteratorMap[currentCluster];
      iteratorMap := iteratorMap[currentCluster := it.Advanced()];
      currentCluster := currentCluster + 1;
      if currentCluster >= clusterCount {
        currentCluster := 0;
      }
      return Done(Returned(Some(it.Next())));
    }
  }
}
