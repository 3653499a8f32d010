/**
  The review loop of the second active-learning panel: "Change class" and
  "Confirm" each serve the next object from the sample server, relabel the object
  on screen with probability 1.0 and, when "add to training" is ticked, commit an
  object to the training set.

  Both clicks are modelled over the value `SessionState` (server, training set and
  the object on screen). A click that throws leaves whatever it had already
  changed, so its result is a `Step`: the state at the end and the exception, if any.
 */
module ALSession2 {
  import opened Basics
  import opened Domain
  import opened ALServer2
  import opened TrainingSet2
  import opened ProbSort

  datatype SessionState = SessionState(
    server: ServerState,          // pathObjectServer
    training: TrainingState,      // annotationMap and the annotations it reaches
    current: Option<PathObject>,  // currentObject
    flat: seq<PathObject>,        // the hierarchy's objects, flattened
    slider: int)                  // the "clusterCount" parameter

  /** The state a click leaves and the exception it ended with, if any. */
  datatype Step = Step(state: SessionState, thrown: Option<JavaException>)

  /** The clicks need a consistent integrator and the map's iteration order. */
  predicate Ready(s: SessionState, order: seq<Option<PathClass>>) {
    Valid(s.training) && Keyed(s.training) && ScanOrder(order, s.training.annotationMap)
  }

  /** `setPathClass` on an object of the hierarchy: every entry with its identity now carries the new class and probability. */
  function Reclassified(flat: seq<PathObject>, p: PathObject): seq<PathObject> {
    seq(|flat|, i requires 0 <= i < |flat| => if flat[i].id == p.id then p else flat[i])
  }

  /**
    `hierarchyChanged(event)`: a new server over the hierarchy, with the slider's
    cluster count, clustered. The training annotations and their point children are
    not reviewable, so the hierarchy's other objects are all the new server sees.
   */
  function Rebuilt(flat: seq<PathObject>, slider: int, lib: Clustering): ServerState {
    Clustered(Initial(flat).(count := slider), lib)
  }

  /**
    The server after a commit: the listener rebuilds it when the commit fired an
    event while it was listening. The listener runs inside the commit, but the
    rebuild reads nothing the rest of the commit writes, so applying it afterwards
    gives the same state.
   */
  function AfterCommit(srv: ServerState, before: TrainingState, after: TrainingState, flat: seq<PathObject>, slider: int, lib: Clustering): ServerState {
    if HeardSince(after.events, |before.events|) then Rebuilt(flat, slider, lib) else srv
  }

  /** `setupNext()`: serve the next object; a null one makes `next.getROI()` throw. */
  function SetupNext(srv: ServerState): (r: (Outcome<PathObject>, ServerState))
    ensures r.0.Returned? <==> Served(srv).0.Returned? && Served(srv).0.value.Some?
    ensures r.0.Returned? ==> r.0.value == Served(srv).0.value.value
    ensures r.1 == Served(srv).1
  {
    var (served, srv') := Served(srv);
    if served.Thrown? then (Thrown(served.exception), srv')
    else if served.value.None? then (Thrown(NullPointer), srv')
    else (Returned(served.value.value), srv')
  }

  /** Commits `p` when `addTrain` is set; a commit that throws leaves the training set unchanged. */
  function CommitIf(t: TrainingState, order: seq<Option<PathClass>>, p: PathObject, addTrain: bool): (r: (TrainingState, Option<JavaException>))
    requires Valid(t) && ScanOrder(order, t.annotationMap)
    ensures !addTrain ==> r == (t, None)
    ensures addTrain && Committed(t, order, p).Returned? ==> r == (Committed(t, order, p).value, None)
    ensures addTrain && Committed(t, order, p).Thrown? ==> r == (t, Some(Committed(t, order, p).exception))
  {
    if !addTrain then (t, None)
    else match Committed(t, order, p)
      case Thrown(e) => (t, Some(e))
      case Returned(t') => (t', None)
  }

  /**
    The panel's constructor from `new ALPathObjectServer(hierarchy)` on: a
    one-cluster server, clustered, and the first object served onto the screen.
    A null first object makes the constructor throw.
   */
  function Opened(flat: seq<PathObject>, t: TrainingState, lib: Clustering): Outcome<SessionState> {
    var (first, srv) := SetupNext(Clustered(Initial(flat), lib));
    if first.Thrown? then Thrown(first.exception)
    else Returned(SessionState(srv, t, Some(first.value), flat, 1))
  }

  /**
    `clickChangeClass()`: serve the next object, give the object on screen the
    chosen class with probability 1.0, commit it if asked, then show the next one.
   */
  function ChangedClass(s: SessionState, choice: Option<PathClass>, addTrain: bool, order: seq<Option<PathClass>>, lib: Clustering): Step
    requires Ready(s, order)
  {
    var (next, srv) := SetupNext(s.server);
    if next.Thrown? then Step(s.(server := srv), Some(next.exception))
    else if s.current.None? then Step(s.(server := srv), Some(NullPointer))
    else
      var relabelled := s.current.value.(pathClass := choice, probability := Num(1.0));
      var flat := Reclassified(s.flat, relabelled);
      var (t, e) := CommitIf(s.training, order, relabelled, addTrain);
      var srv' := AfterCommit(srv, s.training, t, flat, s.slider, lib);
      if e.Some? then Step(SessionState(srv', t, Some(relabelled), flat, s.slider), e)
      else Step(SessionState(srv', t, Some(next.value), flat, s.slider), None)
  }

  /**
    `clickConfirmClass()` as written: give the object on screen probability 1.0,
    show the next object, and commit the object now on screen, the newly served one.
   */
  function ConfirmedAsWritten(s: SessionState, addTrain: bool, order: seq<Option<PathClass>>, lib: Clustering): Step
    requires Ready(s, order)
  {
    if s.current.None? then Step(s, Some(NullPointer))
    else
      var confirmed := s.current.value.(probability := Num(1.0));
      var flat := Reclassified(s.flat, confirmed);
      var (next, srv) := SetupNext(s.server);
      if next.Thrown? then Step(SessionState(srv, s.training, Some(confirmed), flat, s.slider), Some(next.exception))
      else
        var (t, e) := CommitIf(s.training, order, next.value, addTrain);
        Step(SessionState(AfterCommit(srv, s.training, t, flat, s.slider, lib), t, Some(next.value), flat, s.slider), e)
  }

  /**
    `clickConfirmClass()` as its comments describe it: the confirmed object, not the
    one served after it, is committed, as "Change class" does.
   */
  function Confirmed(s: SessionState, addTrain: bool, order: seq<Option<PathClass>>, lib: Clustering): Step
    requires Ready(s, order)
  {
    if s.current.None? then Step(s, Some(NullPointer))
    else
      var confirmed := s.current.value.(probability := Num(1.0));
      var flat := Reclassified(s.flat, confirmed);
      var (next, srv) := SetupNext(s.server);
      if next.Thrown? then Step(SessionState(srv, s.training, Some(confirmed), flat, s.slider), Some(next.exception))
      else
        var (t, e) := CommitIf(s.training, order, confirmed, addTrain);
        var srv' := AfterCommit(srv, s.training, t, flat, s.slider, lib);
        if e.Some? then Step(SessionState(srv', t, Some(confirmed), flat, s.slider), e)
        else Step(SessionState(srv', t, Some(next.value), flat, s.slider), None)
  }

  /**
    Opening the panel throws exactly when fewer than two objects are reviewable
    (one cluster, no cursor); otherwise the object on screen is the reviewable
    object of lowest probability, the head of the sorted cluster 0.
   */
  lemma OpenedShowsLeastProbable(flat: seq<PathObject>, t: TrainingState, lib: Clustering)
    ensures Opened(flat, t, lib).Thrown? <==> |Initial(flat).objects| <= 1
    ensures Opened(flat, t, lib).Thrown? ==> Opened(flat, t, lib).exception == NullPointer
    ensures Opened(flat, t, lib).Returned? ==>
      && Opened(flat, t, lib).value.current == Some(SortByProb(Initial(flat).objects)[0])
      && Opened(flat, t, lib).value.training == t && Opened(flat, t, lib).value.slider == 1
      && SortedByProb(SortByProb(Initial(flat).objects))
      && multiset(SortByProb(Initial(flat).objects)) == multiset(Initial(flat).objects)
  {
    if |Initial(flat).objects| <= 1 {
      ServeAfterTooFewThrows(flat, lib);
    } else {
      SortByProbSpec(Initial(flat).objects);
      var st := Clustered(Initial(flat), lib);
      assert st.cursors[0] == Fresh(SortByProb(Initial(flat).objects));
    }
  }

  /**
    A rebuilt server has forgotten what was served: the pointer is back at 0, no
    object was served, the count is the slider's, and it holds the hierarchy's
    reviewable objects, each as often as the hierarchy does.
   */
  lemma RebuiltForgetsServed(flat: seq<PathObject>, slider: int, lib: Clustering)
    ensures var st := Rebuilt(flat, slider, lib);
      && st.current == 0 && st.last == None && st.count == slider
      && multiset(st.objects) == multiset(Filter(flat, Servable))
  {
    var st := Initial(flat).(count := slider);
    if |st.objects| >= 2 && slider < 2 {
      ClusterSingle(st, lib);
    } else if |st.objects| >= 2 {
      ClusterMany(st, lib);
    }
  }

  /**
    "Change class" serves first and then commits the object that was on screen,
    relabelled with the chosen class and probability 1.0; the served object goes
    on screen. The server is rebuilt exactly when the commit added a new
    annotation while the panel was listening.
   */
  lemma ChangeClassCommitsShownObject(s: SessionState, choice: Option<PathClass>, order: seq<Option<PathClass>>, lib: Clustering)
    requires Ready(s, order) && s.current.Some?
    requires SetupNext(s.server).0.Returned?
    ensures var relabelled := s.current.value.(pathClass := choice, probability := Num(1.0));
      var flat := Reclassified(s.flat, relabelled);
      var st := ChangedClass(s, choice, true, order, lib);
      && st.state.flat == flat && st.state.slider == s.slider
      && (Committed(s.training, order, relabelled).Returned? ==>
            st == Step(SessionState(
                         if CreatesAnnotation(s.training, choice) && s.training.listenerOn
                         then Rebuilt(flat, s.slider, lib) else Served(s.server).1,
                         Committed(s.training, order, relabelled).value,
                         Some(SetupNext(s.server).0.value), flat, s.slider), None))
      && (Committed(s.training, order, relabelled).Thrown? ==>
            st.thrown == Some(NullPointer) && st.state.training == s.training &&
            st.state.current == Some(relabelled) && st.state.server == Served(s.server).1)
  {
    var relabelled := s.current.value.(pathClass := choice, probability := Num(1.0));
    CommitThrowsIff(s.training, order, relabelled);
    if Committed(s.training, order, relabelled).Returned? {
      CommitHeardIff(s.training, order, relabelled);
    }
  }

  /** Without "add to training" neither click touches the training set or rebuilds the server. */
  lemma NoTrainingWithoutAddTrain(s: SessionState, choice: Option<PathClass>, order: seq<Option<PathClass>>, lib: Clustering)
    requires Ready(s, order)
    ensures ChangedClass(s, choice, false, order, lib).state.training == s.training
    ensures ChangedClass(s, choice, false, order, lib).state.server == SetupNext(s.server).1
    ensures Confirmed(s, false, order, lib).state.training == s.training
    ensures ConfirmedAsWritten(s, false, order, lib).state.training == s.training
    ensures ConfirmedAsWritten(s, false, order, lib) == Confirmed(s, false, order, lib)
  {
  }

  /** As written, "Confirm" commits the object served after the confirmed one. */
  lemma ConfirmAsWrittenCommitsNext(s: SessionState, order: seq<Option<PathClass>>, lib: Clustering)
    requires Ready(s, order) && s.current.Some?
    requires SetupNext(s.server).0.Returned?
    requires Committed(s.training, order, SetupNext(s.server).0.value).Returned?
    ensures ConfirmedAsWritten(s, true, order, lib).thrown == None
    ensures ConfirmedAsWritten(s, true, order, lib).state.training == Committed(s.training, order, SetupNext(s.server).0.value).value
  {
  }

  /** Corrected, "Confirm" commits the confirmed object with probability 1.0. */
  lemma ConfirmCommitsConfirmed(s: SessionState, order: seq<Option<PathClass>>, lib: Clustering)
    requires Ready(s, order) && s.current.Some?
    requires SetupNext(s.server).0.Returned?
    requires Committed(s.training, order, s.current.value.(probability := Num(1.0))).Returned?
    ensures Confirmed(s, true, order, lib).thrown == None
    ensures Confirmed(s, true, order, lib).state.training ==
      Committed(s.training, order, s.current.value.(probability := Num(1.0))).value
    ensures Confirmed(s, true, order, lib).state.current == Some(SetupNext(s.server).0.value)
  {
  }

  /** A class, a position and an object of that class at that position. */
  const Tumor := PathClass("Tumor", None)
  const Shown := PathObject(1, Detection, Some(Tumor), Num(0.4), Roi(false, Point(0.0, 0.0)), [])
  const Following := PathObject(2, Detection, Some(Tumor), Num(0.6), Roi(false, Point(5.0, 5.0)), [])

  /** A session showing `Shown` whose server serves `Following` next; the training set is empty. */
  function ConfirmScenario(): SessionState {
    var srv := ServerState([Shown, Following], map[0 := [Shown, Following]], map[0 := Cursor([Shown, Following], 1)], 0, Some(Shown), 1);
    SessionState(srv, TrainingState(map[], map[], [], true, [], 3), Some(Shown), [Shown, Following], 1)
  }

  /**
    Confirming `Shown` as written puts a point at `Following`'s position into the
    training set and none at `Shown`'s; the corrected click puts it at `Shown`'s.
   */
  lemma ConfirmScenarioDiffers(lib: Clustering)
    ensures Ready(ConfirmScenario(), [])
    ensures var t := ConfirmedAsWritten(ConfirmScenario(), true, [], lib).state.training;
      Some(Tumor) in t.annotationMap && t.annotationMap[Some(Tumor)] in t.annotations &&
      t.annotations[t.annotationMap[Some(Tumor)]].children == [PointChild(4, Some(Tumor), Point(5.0, 5.0))]
    ensures var t := Confirmed(ConfirmScenario(), true, [], lib).state.training;
      Some(Tumor) in t.annotationMap && t.annotationMap[Some(Tumor)] in t.annotations &&
      t.annotations[t.annotationMap[Some(Tumor)]].children == [PointChild(4, Some(Tumor), Point(0.0, 0.0))]
  {
    var s := ConfirmScenario();
    assert SetupNext(s.server).0 == Returned(Following);
    assert PreviousAnnotation(s.training, [], Some(Tumor)) == Returned(None);
  }

  /**
    The panel object: the server (replaced on every hierarchy change), the
    integrator, the object on screen, the hierarchy's objects, the cluster-count
    slider and the clustering library.
   */
  class Panel {
    var server: Server
    const integrator: Integrator
    var currentObject: Option<PathObject>
    var flat: seq<PathObject>
    var slider: int
    const lib: Clustering

    function State(): SessionState
      reads this, server, integrator
    {
      SessionState(server.State(), integrator.State(), currentObject, flat, slider)
    }

    /**
      The constructor up to loading the first object: an integrator with an empty
      map over the hierarchy's annotations, and a one-cluster server, clustered.
     */
    constructor (objects: seq<PathObject>, store: map<nat, TrainingAnnotation>, annotationsInHierarchy: seq<nat>, firstId: nat, clustering: Clustering)
      requires forall i :: 0 <= i < |annotationsInHierarchy| ==> annotationsInHierarchy[i] in store
      requires forall a :: a in store ==> a < firstId
      ensures State() == SessionState(Clustered(Initial(objects), clustering),
                                      TrainingState(map[], store, annotationsInHierarchy, true, [], firstId), None, objects, 1)
      ensures lib == clustering && fresh(server) && fresh(integrator)
    {
      var srv := new Server(objects);
      srv.ClusterPathObjects(clustering);
      server := srv;
      integrator := new Integrator(store, annotationsInHierarchy, firstId);
      currentObject := None;
      flat := objects;
      slider := 1;
      lib := clustering;
    }

    /**
      The whole constructor: it ends by serving the first object onto the screen,
      and a null one makes it throw, leaving no panel.
     */
    static method Open(objects: seq<PathObject>, store: map<nat, TrainingAnnotation>, annotationsInHierarchy: seq<nat>, firstId: nat, clustering: Clustering)
      returns (panel: Panel?, thrown: Option<JavaException>)
      requires forall i :: 0 <= i < |annotationsInHierarchy| ==> annotationsInHierarchy[i] in store
      requires forall a :: a in store ==> a < firstId
      ensures var t := TrainingState(map[], store, annotationsInHierarchy, true, [], firstId);
        && (panel == null <==> Opened(objects, t, clustering).Thrown?)
        && (panel == null ==> thrown == Some(Opened(objects, t, clustering).exception))
        && (panel != null ==> fresh(panel) && thrown == None && panel.State() == Opened(objects, t, clustering).value)
    {
      var p := new Panel(objects, store, annotationsInHierarchy, firstId, clustering);
      var first := p.SetupNextObject();
      if first.Thrown? {
        return null, Some(first.exception);
      }
      p.currentObject := Some(first.value);
      return p, None;
    }

    /** `setupNext()` through the server. */
    method SetupNextObject() returns (r: Outcome<PathObject>)
      modifies server
      ensures (r, server.State()) == SetupNext(old(server.State()))
    {
      var served := server.ServeNext();
      if served.Thrown? {
        return Thrown(served.exception);
      }
      if served.value.None? {
        return Thrown(NullPointer);
      }
      return Returned(served.value.value);
    }

    /** `parameterChanged` for the slider: the new count goes to the current server, unclustered. */
    method SlideClusterCount(n: int)
      modifies this, server
      ensures State() == old(State()).(server := old(State()).server.(count := n), slider := n)
      ensures server == old(server)
    {
      slider := n;
      server.SetClusterCount(n);
    }

    /** `hierarchyChanged(event)`: a new server with the slider's count, clustered. */
    method HierarchyChanged()
      modifies this
      ensures fresh(server) && server.State() == Rebuilt(flat, slider, lib)
      ensures currentObject == old(currentObject) && flat == old(flat) && slider == old(slider)
    {
      var srv := new Server(flat);
      srv.SetClusterCount(slider);
      srv.ClusterPathObjects(lib);
      server := srv;
    }

    /** `addTotTraining(p)` when `addTrain` is set, with the listener's rebuild when it hears the commit. */
    method CommitIfAsked(p: PathObject, addTrain: bool, order: seq<Option<PathClass>>) returns (e: Option<JavaException>)
      requires Valid(integrator.State()) && ScanOrder(order, integrator.annotationMap)
      modifies this, integrator
      ensures (integrator.State(), e) == CommitIf(old(integrator.State()), order, p, addTrain)
      ensures HeardSince(integrator.events, |old(integrator.events)|) ==> fresh(server) && server.State() == Rebuilt(flat, slider, lib)
      ensures !HeardSince(integrator.events, |old(integrator.events)|) ==> server == old(server)
      ensures currentObject == old(currentObject) && flat == old(flat) && slider == old(slider)
    {
      if !addTrain {
        return None;
      }
      var before := |integrator.events|;
      var r := integrator.AddToTraining(p, order);
      if HeardSince(integrator.events, before) {
        HierarchyChanged();
      }
      if r.Thrown? {
        return Some(r.exception);
      }
      return None;
    }

    /** `clickChangeClass()`. */
    method ClickChangeClass(choice: Option<PathClass>, addTrain: bool, order: seq<Option<PathClass>>)
      returns (thrown: Option<JavaException>)
      requires Ready(State(), order)
      modifies this, server, integrator
      ensures Step(State(), thrown) == ChangedClass(old(State()), choice, addTrain, order, lib)
    {
      var next := SetupNextObject();
      if next.Thrown? {
        return Some(next.exception);
      }
      if currentObject.None? {
        return Some(NullPointer);
      }
      currentObject := Some(currentObject.value.(pathClass := choice, probability := Num(1.0)));
      flat := Reclassified(flat, currentObject.value);
      thrown := CommitIfAsked(currentObject.value, addTrain, order);
      if thrown.None? {
        currentObject := Some(next.value);
      }
    }

    /** `clickConfirmClass()` as written. */
    method ClickConfirmClass(addTrain: bool, order: seq<Option<PathClass>>) returns (thrown: Option<JavaException>)
      requires Ready(State(), order)
      modifies this, server, integrator
      ensures Step(State(), thrown) == ConfirmedAsWritten(old(State()), addTrain, order, lib)
    {
      if currentObject.None? {
        return Some(NullPointer);
      }
      currentObject := Some(currentObject.value.(probability := Num(1.0)));
      flat := Reclassified(flat, currentObject.value);
      var next := SetupNextObject();
      if next.Thrown? {
        return Some(next.exception);
      }
      currentObject := Some(next.value);
      thrown := CommitIfAsked(currentObject.value, addTrain, order);
    }
  }
}
