/**
  The first active-learning panel (ActiveLearningPanel): its sample server and its
  training commit.

  The server differs from the second panel's in four ways: the filter keeps
  points-ROI objects; with fewer than two clusters or a single object the list is
  stored as cluster 0, unsorted and without a cursor; the k-means path keeps the
  library's order (the sort runs on a new empty list); and a drained cluster
  returns the last served object without moving the pointer. The panel builds the
  server with three clusters, both at start-up and on every hierarchy change.
  Each commit adds one new annotation holding just the committed object.
 */
module ALServer1 {
  import opened Basics
  import opened Domain
  import opened ALServer2

  /** The cluster count the panel always asks for. */
  const PanelClusterCount := 3

  /** This server's filter: no annotations, no unclassified or "Image" objects. */
  predicate Reviewable(p: PathObject) {
    p.kind != Annotation && p.pathClass.Some? && p.pathClass.value != ImageClass
  }

  /** `new ALPathObjectServer(hierarchy, clusterCount)`. */
  function Initial1(flat: seq<PathObject>, count: int): ServerState {
    ServerState(Filter(flat, Reviewable), map[], map[], 0, None, count)
  }

  /** `clusterPathObjects()`. */
  function Clustered1(st: ServerState, lib: Clustering): ServerState {
    if st.objects == [] then st
    else if st.count < 2 || |st.objects| == 1 then st.(clusters := st.clusters[0 := st.objects])
    else
      var clusters := Relabelled(st.clusters, lib(st.objects, st.count));
      st.(clusters := clusters, cursors := st.cursors + FreshCursors(clusters))
  }

  /** `serveNext()`: a missing cursor throws; a drained one returns the last object and changes nothing. */
  function Served1(st: ServerState): (Outcome<Option<PathObject>>, ServerState) {
    if st.current !in st.cursors then (Thrown(NullPointer), st)
    else
      var c := st.cursors[st.current];
      if !c.HasNext() then (Returned(st.last), st)
      else
        (Returned(Some(c.Next())),
         st.(cursors := st.cursors[st.current := c.Advanced()], current := NextCluster(st.current, st.count),
             last := Some(c.Next())))
  }

  /** `hierarchyChanged(...)` and the panel's start-up: a new server of three clusters, clustered. */
  function Rebuilt(flat: seq<PathObject>, lib: Clustering): ServerState {
    Clustered1(Initial1(flat, PanelClusterCount), lib)
  }

  class Server1 {
    var pathObjects: seq<PathObject>
    var clusteredMap: map<int, seq<PathObject>>
    var itMap: map<int, Cursor<PathObject>>
    var currentCluster: int
    var currentObject: Option<PathObject>
    var clusterCount: int

    function State(): ServerState
      reads this
    {
      ServerState(pathObjects, clusteredMap, itMap, currentCluster, currentObject, clusterCount)
    }

    constructor (flat: seq<PathObject>, count: int)
      ensures State() == Initial1(flat, count)
    {
      var objects := [];
      var i := 0;
      while i < |flat|
        invariant 0 <= i <= |flat|
        invariant objects == Filter(flat[..i], Reviewable)
      {
        if Reviewable(flat[i]) {
          objects := objects + [flat[i]];
        }
        assert flat[..i + 1][..i] == flat[..i];
        i := i + 1;
      }
      assert flat[..|flat|] == flat;
      pathObjects := objects;
      clusteredMap := map[];
      itMap := map[];
      currentCluster := 0;
      currentObject := None;
      clusterCount := count;
    }

    method ClusterPathObjects(lib: Clustering)
      modifies this
      ensures State() == Clustered1(old(State()), lib)
    {
      if pathObjects == [] {
        return;
      }
      if clusterCount < 2 || |pathObjects| == 1 {
        clusteredMap := clusteredMap[0 := pathObjects];
        return;
      }
      var results := lib(pathObjects, clusterCount);
      clusteredMap := PutClusters(clusteredMap, results);
      itMap := ResetIterators(itMap, clusteredMap);
    }

    method ServeNext() returns (r: Outcome<Option<PathObject>>)
      modifies this
      ensures (r, State()) == Served1(old(State()))
    {
      if currentCluster !in itMap {
        return Thrown(NullPointer);
      }
      var it := itMap[currentCluster];
      if !it.HasNext() {
        return Returned(currentObject);
      }
      var served := it.Next();
      itMap := itMap[currentCluster := it.Advanced()];
      currentCluster := currentCluster + 1;
      if currentCluster >= clusterCount {
        currentCluster := 0;
      }
      currentObject := Some(served);
      return Returned(Some(served));
    }
  }

  /** This filter keeps exactly the non-annotation objects with a class other than "Image", points ROIs included, in order. */
  lemma Initial1Filters(flat: seq<PathObject>, a: seq<PathObject>, b: seq<PathObject>, count: int)
    ensures forall p :: p in Initial1(flat, count).objects <==> p in flat && Reviewable(p)
    ensures Initial1(a + b, count).objects == Initial1(a, count).objects + Initial1(b, count).objects
  {
    forall p | p in flat && Reviewable(p) ensures p in Initial1(flat, count).objects {
      FilterKeeps(flat, Reviewable, p);
    }
    FilterConcat(a, b, Reviewable);
  }

  /** Points-ROI objects are served by this server and refused by the second panel's. */
  lemma PointsKeptOnlyHere(p: PathObject)
    requires p.kind != Annotation && p.pathClass.Some? && p.pathClass.value != ImageClass && p.roi.isPoints
    ensures Reviewable(p) && !Servable(p)
  {
  }

  /**
    With fewer than two clusters or a single object, the list is stored unsorted as
    cluster 0 and no cursor is made; an empty list builds nothing.
   */
  lemma Clustered1Small(st: ServerState, lib: Clustering)
    requires st.objects == [] || st.count < 2 || |st.objects| == 1
    ensures var st' := Clustered1(st, lib);
      && st'.cursors == st.cursors && st'.objects == st.objects
      && (st.objects == [] ==> st' == st)
      && (st.objects != [] ==> st'.clusters == st.clusters[0 := st.objects])
  {
  }

  /** So a rebuilt server with at most one object, or one with fewer than two clusters, throws on its first serve. */
  lemma SmallServerThrows(flat: seq<PathObject>, count: int, lib: Clustering)
    requires |Initial1(flat, count).objects| <= 1 || count < 2
    ensures Served1(Clustered1(Initial1(flat, count), lib)).0 == Thrown(NullPointer)
  {
  }

  /**
    From two clusters and two objects up, the i-th library cluster is stored under
    key i in the library's own order, and every key of the map gets a fresh cursor.
   */
  lemma Clustered1Many(st: ServerState, lib: Clustering)
    requires st.count >= 2 && |st.objects| >= 2
    ensures var st' := Clustered1(st, lib); var res := lib(st.objects, st.count);
      && (forall k :: k in st'.clusters <==> k in st.clusters || 0 <= k < |res|)
      && (forall i :: 0 <= i < |res| ==> st'.clusters[i] == res[i])
      && (forall k :: k in st'.clusters ==> k in st'.cursors && st'.cursors[k] == Cursor(st'.clusters[k], 0))
      && st'.objects == st.objects && st'.current == st.current && st'.last == st.last
  {
  }

  /** A cluster with objects left: its next object is returned and recorded, and the pointer steps with wrap. */
  lemma Served1Available(st: ServerState)
    requires st.current in st.cursors && st.cursors[st.current].HasNext()
    ensures var (r, st') := Served1(st); var c := st.cursors[st.current];
      && r == Returned(Some(c.Next()))
      && st'.last == Some(c.Next())
      && st'.cursors == st.cursors[st.current := c.Advanced()]
      && st'.current == NextCluster(st.current, st.count)
      && st'.clusters == st.clusters && st'.objects == st.objects
  {
  }

  /** `n` calls in a row. */
  function ServedTimes1(st: ServerState, n: nat): (seq<Outcome<Option<PathObject>>>, ServerState)
    decreases n
  {
    if n == 0 then ([], st)
    else
      var first := Served1(st);
      var rest := ServedTimes1(first.1, n - 1);
      ([first.0] + rest.0, rest.1)
  }

  /**
    Once the pointer rests on a drained cluster the server is stuck: every later call
    returns the same last object and nothing changes.
   */
  lemma {:induction false} StuckOnDrained(st: ServerState, n: nat)
    requires st.current in st.cursors && !st.cursors[st.current].HasNext()
    ensures ServedTimes1(st, n).1 == st
    ensures |ServedTimes1(st, n).0| == n
    ensures forall j :: 0 <= j < n ==> ServedTimes1(st, n).0[j] == Returned(st.last)
    decreases n
  {
    if n > 0 {
      StuckOnDrained(st, n - 1);
      assert Served1(st) == (Returned(st.last), st);
      assert ServedTimes1(st, n).0 == [Returned(st.last)] + ServedTimes1(st, n - 1).0;
    }
  }

  /** Start-up and every hierarchy change give a server of three clusters with its pointer at 0 and nothing served yet. */
  lemma RebuiltThree(flat: seq<PathObject>, lib: Clustering)
    ensures Rebuilt(flat, lib).count == 3
    ensures Rebuilt(flat, lib).current == 0 && Rebuilt(flat, lib).last == None
    ensures Rebuilt(flat, lib).objects == Filter(flat, Reviewable)
  {
  }

  /** The annotation `addTotTraining(p)` adds: `p`'s ROI and class, with `p` as its only child. */
  datatype AddedAnnotation = AddedAnnotation(roi: Roi, pathClass: Option<PathClass>, children: seq<PathObject>)

  /** The annotations a sequence of commits adds, one per commit, in order. */
  function CommitsAdded(added: seq<AddedAnnotation>, ps: seq<PathObject>): (r: seq<AddedAnnotation>)
    decreases |ps|
  {
    if ps == [] then added
    else CommitsAdded(added + [AddedAnnotation(ps[0].roi, ps[0].pathClass, [ps[0]])], ps[1..])
  }

  /**
    Every commit adds exactly one annotation, whatever was committed before: `n`
    commits add `n` annotations, the i-th holding only the i-th object, with its
    ROI and class. Committing an object twice gives two annotations.
   */
  lemma {:induction false} CommitsAddOneEach(added: seq<AddedAnnotation>, ps: seq<PathObject>)
    ensures |CommitsAdded(added, ps)| == |added| + |ps|
    ensures CommitsAdded(added, ps)[..|added|] == added
    ensures forall i :: 0 <= i < |ps| ==>
      CommitsAdded(added, ps)[|added| + i] == AddedAnnotation(ps[i].roi, ps[i].pathClass, [ps[i]])
    decreases |ps|
  {
    if ps != [] {
      var added' := added + [AddedAnnotation(ps[0].roi, ps[0].pathClass, [ps[0]])];
      CommitsAddOneEach(added', ps[1..]);
      assert CommitsAdded(added', ps[1..])[..|added|] == added'[..|added|];
    }
  }

  /** The hierarchy events a commit fires, each heard by the panel's listener. */
  datatype HierarchyEvent =
    | ObjectAdded(annotation: AddedAnnotation)
    | ClassificationsChanged(annotation: AddedAnnotation)

  /** `setupNext()`: serve the next object; a null one makes `next.getROI()` throw. */
  function SetupNext1(srv: ServerState): (Outcome<PathObject>, ServerState) {
    var (served, srv') := Served1(srv);
    if served.Thrown? then (Thrown(served.exception), srv')
    else if served.value.None? then (Thrown(NullPointer), srv')
    else (Returned(served.value.value), srv')
  }

  /** The panel's constructor: the rebuilt server, and the first object served onto the screen. */
  function Opened1(flat: seq<PathObject>, lib: Clustering): Outcome<(ServerState, PathObject)> {
    var (first, srv) := SetupNext1(Rebuilt(flat, lib));
    if first.Thrown? then Thrown(first.exception) else Returned((srv, first.value))
  }

  /**
    Opening the panel succeeds exactly when at least two objects are reviewable and
    the library's first cluster is not empty; the object on screen is then that
    cluster's first object, in library order. Otherwise the constructor throws.
   */
  lemma OpenedShowsFirstOfCluster(flat: seq<PathObject>, lib: Clustering)
    ensures var objects := Filter(flat, Reviewable); var res := lib(objects, PanelClusterCount);
      && (Opened1(flat, lib).Returned? <==> |objects| >= 2 && |res| >= 1 && |res[0]| >= 1)
      && (Opened1(flat, lib).Returned? ==> Opened1(flat, lib).value.1 == res[0][0])
      && (Opened1(flat, lib).Thrown? ==> Opened1(flat, lib).exception == NullPointer)
  {
    var st := Initial1(flat, PanelClusterCount);
    if |st.objects| >= 2 {
      Clustered1Many(st, lib);
    }
  }

  /**
    The first panel: its server (rebuilt on every hierarchy change), the object on
    screen, the annotations it has added, the events it has fired and the
    clustering library.
   */
  class Panel1 {
    var server: Server1
    var currentObject: Option<PathObject>
    var added: seq<AddedAnnotation>
    var events: seq<HierarchyEvent>
    const lib: Clustering

    /** The constructor up to loading the first object: a three-cluster server, clustered. */
    constructor (flat: seq<PathObject>, clustering: Clustering)
      ensures server.State() == Rebuilt(flat, clustering) && fresh(server)
      ensures currentObject == None && added == [] && events == [] && lib == clustering
    {
      var srv := new Server1(flat, PanelClusterCount);
      srv.ClusterPathObjects(clustering);
      server := srv;
      currentObject := None;
      added := [];
      events := [];
      lib := clustering;
    }

    /** The whole constructor: serving a null first object makes it throw, leaving no panel. */
    static method Open(flat: seq<PathObject>, clustering: Clustering) returns (panel: Panel1?, thrown: Option<JavaException>)
      ensures panel == null <==> Opened1(flat, clustering).Thrown?
      ensures panel == null ==> thrown == Some(Opened1(flat, clustering).exception)
      ensures panel != null ==> fresh(panel) && thrown == None && panel.added == [] && panel.events == []
      ensures panel != null ==>
        panel.currentObject.Some? && (panel.server.State(), panel.currentObject.value) == Opened1(flat, clustering).value
    {
      var p := new Panel1(flat, clustering);
      var first := p.SetupNextObject();
      if first.Thrown? {
        return null, Some(first.exception);
      }
      p.currentObject := Some(first.value);
      return p, None;
    }

    /** `setupNext()` through the server. */
    method SetupNextObject() returns (r: Outcome<PathObject>)
      modifies server
      ensures (r, server.State()) == SetupNext1(old(server.State()))
    {
      var served := server.ServeNext();
      if served.Thrown? {
        return Thrown(served.exception);
      }
      if served.value.None? {
        return Thrown(NullPointer);
      }
      return Returned(served.value.value);
    }

    /** `hierarchyChanged(event)`: a new server of three clusters over the hierarchy's objects. */
    method HierarchyChanged(flat: seq<PathObject>)
      modifies this
      ensures fresh(server) && server.State() == Rebuilt(flat, lib)
      ensures currentObject == old(currentObject) && added == old(added) && events == old(events)
    {
      var srv := new Server1(flat, PanelClusterCount);
      srv.ClusterPathObjects(lib);
      server := srv;
    }

    /**
      `addTotTraining(p)`: one new annotation, added to the hierarchy and then
      announced. The listener hears both events and rebuilds the server each time
      over `flatAfter`, the hierarchy's objects once the annotation is in place.
     */
    method AddToTraining(p: PathObject, flatAfter: seq<PathObject>)
      modifies this
      ensures added == CommitsAdded(old(added), [p])
      ensures var a := AddedAnnotation(p.roi, p.pathClass, [p]);
        events == old(events) + [ObjectAdded(a), ClassificationsChanged(a)]
      ensures fresh(server) && server.State() == Rebuilt(flatAfter, lib)
      ensures currentObject == old(currentObject)
    {
      var annotation := AddedAnnotation(p.roi, p.pathClass, [p]);
      added := added + [annotation];
      events := events + [ObjectAdded(annotation)];
      HierarchyChanged(flatAfter);
      events := events + [ClassificationsChanged(annotation)];
      HierarchyChanged(flatAfter);
    }
  }
}
