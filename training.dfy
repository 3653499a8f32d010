/**
  The training-set integrator of the second active-learning panel
  (`addTotTraining` and `removeDuplicate` in ActiveLearningPanel2): one
  "Active Learning" points annotation per class, each with one point detection
  per committed object and a points ROI listing the committed positions.

  Annotations are objects that the map, the hierarchy and the integrator share;
  they are modelled as a store from identity to value (`annotations`), with the
  map and the hierarchy holding identities.
 */
module TrainingSet2 {
  import opened Basics
  import opened Domain

  const ActiveLearningName := "Active Learning"

  /** A points annotation: displayed name, class, child objects and ROI points. */
  datatype TrainingAnnotation = TrainingAnnotation(
    name: string,
    pathClass: Option<PathClass>,
    children: seq<PathObject>,
    points: seq<Point>)

  /**
    A hierarchy event about one annotation, with the panel's listener state at
    that moment: `addPathObject(annotation, true)` or
    `fireObjectClassificationsChangedEvent`. An event fired while the listener is
    on runs the panel's `hierarchyChanged`.
   */
  datatype Event =
    | ObjectAdded(annotation: nat, listenerOn: bool)
    | ClassificationsChanged(annotation: nat, listenerOn: bool)

  /** Some event from position `from` on reached the panel's listener. */
  predicate HeardSince(events: seq<Event>, from: nat) {
    exists i :: from <= i < |events| && events[i].listenerOn
  }

  datatype TrainingState = TrainingState(
    annotationMap: map<Option<PathClass>, nat>,  // class -> annotation identity
    annotations: map<nat, TrainingAnnotation>,   // every annotation, by identity
    hierarchy: seq<nat>,                         // the hierarchy's annotations, in descendant order
    listenerOn: bool,                            // the panel listens to the hierarchy
    events: seq<Event>,                          // notifications fired so far
    nextId: nat)                                 // the next identity for a new object

  /** Every identity the integrator holds refers to a stored annotation, and new identities are fresh. */
  predicate Valid(st: TrainingState) {
    && (forall c :: c in st.annotationMap ==> st.annotationMap[c] in st.annotations)
    && (forall i :: 0 <= i < |st.hierarchy| ==> st.hierarchy[i] in st.annotations)
    && (forall a :: a in st.annotations ==> a < st.nextId)
  }

  /** Every mapped annotation carries the class it is mapped under. */
  predicate Keyed(st: TrainingState) {
    forall c :: c in st.annotationMap ==> st.annotationMap[c] in st.annotations && st.annotations[st.annotationMap[c]].pathClass == c
  }

  /** `order` lists every key of the map once: the order `HashMap.values()` visits them in. */
  predicate ScanOrder(order: seq<Option<PathClass>>, m: map<Option<PathClass>, nat>) {
    && NoDuplicates(order)
    && (forall i :: 0 <= i < |order| ==> order[i] in m)
    && (forall c :: c in m ==> c in order)
  }

  /** The index of the first child whose centroid is `point`, or -1. */
  function FirstAt(children: seq<PathObject>, point: Point): (i: int)
    ensures -1 <= i < |children|
    ensures i == -1 <==> forall j :: 0 <= j < |children| ==> children[j].roi.centroid != point
    ensures 0 <= i ==> children[i].roi.centroid == point
    ensures 0 <= i ==> forall j :: 0 <= j < i ==> children[j].roi.centroid != point
  {
    if children == [] then -1
    else if children[0].roi.centroid == point then 0
    else var j := FirstAt(children[1..], point); if j < 0 then -1 else j + 1
  }

  /**
    The duplicate `removeDuplicate` settles on: scanning the map's annotations in
    `order`, skipping the one mapped to `pc`, the annotation and child index of
    the first child at `point`, the last matching annotation winning.
   */
  function DuplicateIn(st: TrainingState, order: seq<Option<PathClass>>, pc: Option<PathClass>, point: Point): (r: Option<(nat, nat)>)
    requires Valid(st) && forall c :: c in order ==> c in st.annotationMap
    ensures r.Some? ==> r.value.0 in st.annotations && r.value.1 < |st.annotations[r.value.0].children|
    ensures r.Some? ==> st.annotations[r.value.0].children[r.value.1].roi.centroid == point
    ensures r.Some? ==> pc !in st.annotationMap || r.value.0 != st.annotationMap[pc]
    ensures r.Some? ==> r.value.0 in st.annotationMap.Values
    ensures r.Some? ==> r.value.1 == FirstAt(st.annotations[r.value.0].children, point)
  {
    if order == [] then None
    else
      var a := st.annotationMap[order[|order| - 1]];
      var rest := DuplicateIn(st, order[..|order| - 1], pc, point);
      if pc in st.annotationMap && a == st.annotationMap[pc] then rest
      else
        var i := FirstAt(st.annotations[a].children, point);
        if 0 <= i then Some((a, i)) else rest
  }

  /** An annotation without its child `i` (the first equal to it) and without its first ROI point at `point`. */
  function Stripped(an: TrainingAnnotation, i: nat, point: Point): TrainingAnnotation
    requires i < |an.children|
  {
    an.(children := RemoveFirst(an.children, an.children[i]), points := RemoveFirst(an.points, point))
  }

  /** Scanning one more annotation: it wins when it is not the class's own and has a child at the point. */
  lemma DuplicateInStep(st: TrainingState, order: seq<Option<PathClass>>, pc: Option<PathClass>, point: Point, k: nat)
    requires Valid(st) && (forall c :: c in order ==> c in st.annotationMap) && k < |order|
    ensures forall c :: c in order[..k] ==> c in st.annotationMap
    ensures var a := st.annotationMap[order[k]];
      DuplicateIn(st, order[..k + 1], pc, point) ==
        if pc in st.annotationMap && a == st.annotationMap[pc] then DuplicateIn(st, order[..k], pc, point)
        else if 0 <= FirstAt(st.annotations[a].children, point) then Some((a, FirstAt(st.annotations[a].children, point)))
        else DuplicateIn(st, order[..k], pc, point)
  {
    assert order[..k + 1][..k] == order[..k];
    forall c | c in order[..k]
      ensures c in order
    {
      var j :| 0 <= j < k && order[..k][j] == c;
      assert order[j] == c;
    }
  }

  /**
    The annotation mapped to `c` is a candidate for removal: it is not the one mapped
    to the object's class `pc`, and it has a child at `point`.
   */
  predicate Candidate(st: TrainingState, pc: Option<PathClass>, point: Point, c: Option<PathClass>)
    requires Valid(st) && c in st.annotationMap
  {
    var a := st.annotationMap[c];
    !(pc in st.annotationMap && a == st.annotationMap[pc]) && 0 <= FirstAt(st.annotations[a].children, point)
  }

  /** Position `k` of the scan holds the last candidate. */
  predicate LastCandidate(st: TrainingState, order: seq<Option<PathClass>>, pc: Option<PathClass>, point: Point, k: int)
    requires Valid(st) && forall c :: c in order ==> c in st.annotationMap
  {
    && 0 <= k < |order| && Candidate(st, pc, point, order[k])
    && forall j :: k < j < |order| ==> !Candidate(st, pc, point, order[j])
  }

  /**
    The scan finds a duplicate exactly when some candidate exists, and then it
    settles on the last candidate in scan order and its first child at the point.
   */
  lemma {:induction false} DuplicateInSpec(st: TrainingState, order: seq<Option<PathClass>>, pc: Option<PathClass>, point: Point)
    requires Valid(st) && forall c :: c in order ==> c in st.annotationMap
    ensures DuplicateIn(st, order, pc, point).None? <==> forall k :: 0 <= k < |order| ==> !Candidate(st, pc, point, order[k])
    ensures forall k :: LastCandidate(st, order, pc, point, k) ==>
      var a := st.annotationMap[order[k]];
      DuplicateIn(st, order, pc, point) == Some((a, FirstAt(st.annotations[a].children, point)))
    decreases |order|
  {
    if order != [] {
      var n := |order| - 1;
      DuplicateInStep(st, order, pc, point, n);
      assert order[..n + 1] == order;
      var init := order[..n];
      DuplicateInSpec(st, init, pc, point);
      if !Candidate(st, pc, point, order[n]) {
        forall k | LastCandidate(st, order, pc, point, k)
          ensures LastCandidate(st, init, pc, point, k)
        {
          assert k != n;
          assert init[k] == order[k];
          forall j | k < j < |init|
            ensures !Candidate(st, pc, point, init[j])
          {
            assert init[j] == order[j];
          }
        }
        forall k | 0 <= k < |init|
          ensures init[k] == order[k]
        {
        }
      } else {
        forall k | LastCandidate(st, order, pc, point, k)
          ensures k == n
        {
        }
      }
    }
  }

  /** `removeDuplicate(p, point)`. */
  function RemovedDuplicate(st: TrainingState, order: seq<Option<PathClass>>, p: PathObject): TrainingState
    requires Valid(st) && forall c :: c in order ==> c in st.annotationMap
  {
    var point := p.roi.centroid;
    match DuplicateIn(st, order, p.pathClass, point)
    case None => st
    case Some((a, i)) =>
      var an := st.annotations[a];
      st.(annotations := st.annotations[a := Stripped(an, i, point)], annotationMap := st.annotationMap[an.pathClass := a])
  }

  /**
    The previous-session annotation `addTotTraining` reuses: the last hierarchy
    annotation named "Active Learning" whose class equals `pc`. One so named
    without a class makes `getPathClass().equals` throw.
   */
  function PreviousAnnotation(st: TrainingState, hs: seq<nat>, pc: Option<PathClass>): (r: Outcome<Option<nat>>)
    requires forall i :: 0 <= i < |hs| ==> hs[i] in st.annotations
    ensures r.Returned? && r.value.Some? ==> r.value.value in hs
    ensures r.Returned? && r.value.Some? ==> st.annotations[r.value.value].name == ActiveLearningName
    ensures r.Returned? && r.value.Some? ==> st.annotations[r.value.value].pathClass == pc
    ensures r.Thrown? <==> exists i :: 0 <= i < |hs| && NamedWithoutClass(st.annotations[hs[i]])
    ensures r.Thrown? ==> r.exception == NullPointer
  {
    if hs == [] then Returned(None)
    else
      var rest := PreviousAnnotation(st, hs[..|hs| - 1], pc);
      var an := st.annotations[hs[|hs| - 1]];
      if rest.Thrown? then rest
      else if an.name != ActiveLearningName then rest
      else if an.pathClass.None? then Thrown(NullPointer)
      else if an.pathClass == pc then Returned(Some(hs[|hs| - 1]))
      else rest
  }

  /** An annotation named "Active Learning" that has no class. */
  predicate NamedWithoutClass(an: TrainingAnnotation) {
    an.name == ActiveLearningName && an.pathClass.None?
  }

  /** The point detection `addTotTraining` creates: a points ROI at `point`, classified `pc`. */
  function PointChild(id: nat, pc: Option<PathClass>, point: Point): PathObject {
    PathObject(id, Detection, pc, NaN, Roi(true, point), [])
  }

  /** A commit for class `pc` creates a new annotation: the class is unmapped and no earlier session left one. */
  predicate CreatesAnnotation(st: TrainingState, pc: Option<PathClass>)
    requires Valid(st)
  {
    pc !in st.annotationMap && PreviousAnnotation(st, st.hierarchy, pc) == Returned(None)
  }

  /**
    The annotation a commit for an unmapped class `pc` goes to: the previous-session
    one when there is one, otherwise a new "Active Learning" annotation whose ROI is
    `point`, added to the hierarchy with the panel's listener in whatever state it is.
   */
  function AnnotationFor(st: TrainingState, pc: Option<PathClass>, point: Point): (r: Outcome<(TrainingState, nat)>)
    requires Valid(st)
    ensures r.Returned? ==> Valid(r.value.0) && r.value.1 in r.value.0.annotations
    ensures r.Returned? ==> r.value.0.annotationMap == st.annotationMap && r.value.0.listenerOn == st.listenerOn
    ensures r.Returned? ==> r.value.0.annotations[r.value.1].pathClass == pc
    ensures r.Returned? ==> (r.value.1 !in st.annotations <==> PreviousAnnotation(st, st.hierarchy, pc) == Returned(None))
    ensures r.Returned? ==>
      r.value.0.events == st.events + (if r.value.1 in st.annotations then [] else [ObjectAdded(r.value.1, st.listenerOn)])
  {
    var previous := PreviousAnnotation(st, st.hierarchy, pc);
    if previous.Thrown? then Thrown(previous.exception)
    else if previous.value.Some? then Returned((st, previous.value.value))
    else
      var created := st.nextId;
      Returned((st.(annotations := st.annotations[created := TrainingAnnotation(ActiveLearningName, pc, [], [point])],
                    hierarchy := st.hierarchy + [created], events := st.events + [ObjectAdded(created, st.listenerOn)],
                    nextId := created + 1), created))
  }

  /**
    A new point detection classified `pc` at `point` appended to annotation `a`;
    with `widenRoi` the point is also put in front of the annotation's ROI points.
   */
  function Appended(st: TrainingState, a: nat, pc: Option<PathClass>, point: Point, widenRoi: bool): TrainingState
    requires a in st.annotations
  {
    var an := st.annotations[a];
    var points := if widenRoi then [point] + an.points else an.points;
    st.(annotations := st.annotations[a := an.(children := an.children + [PointChild(st.nextId, pc, point)], points := points)],
        nextId := st.nextId + 1)
  }

  /**
    Listener off, notification for `a`, listener on, and `annotationMap.put(pc, a)`
    (in the new-class branch the code puts the same entry twice; once is the same map).
   */
  function Notified(st: TrainingState, pc: Option<PathClass>, a: nat): TrainingState {
    st.(events := st.events + [ClassificationsChanged(a, false)], listenerOn := true,
        annotationMap := st.annotationMap[pc := a])
  }

  /** `addTotTraining(p)`. */
  function Committed(st: TrainingState, order: seq<Option<PathClass>>, p: PathObject): (r: Outcome<TrainingState>)
    requires Valid(st) && ScanOrder(order, st.annotationMap)
    ensures r.Returned? ==> Valid(r.value)
  {
    var pc := p.pathClass;
    var point := p.roi.centroid;
    if pc !in st.annotationMap then
      match AnnotationFor(st, pc, point)
      case Thrown(e) => Thrown(e)
      case Returned((st1, a)) =>
        var st2 := RemovedDuplicate(st1, order, p);
        RemovedDuplicateKeepsValid(st1, order, p);
        AppendedKeepsValid(st2, a, pc, point, false);
        NotifiedSpec(Appended(st2, a, pc, point, false), pc, a);
        Returned(Notified(Appended(st2, a, pc, point, false), pc, a))
    else
      var st2 := RemovedDuplicate(st, order, p);
      RemovedDuplicateKeepsValid(st, order, p);
      var a := st2.annotationMap[pc];
      AppendedKeepsValid(st2, a, pc, point, true);
      NotifiedSpec(Appended(st2, a, pc, point, true), pc, a);
      Returned(Notified(Appended(st2, a, pc, point, true), pc, a))
  }

  class Integrator {
    var annotationMap: map<Option<PathClass>, nat>
    var annotations: map<nat, TrainingAnnotation>
    var hierarchy: seq<nat>
    var listenerOn: bool
    var events: seq<Event>
    var nextId: nat

    function State(): TrainingState
      reads this
    {
      TrainingState(annotationMap, annotations, hierarchy, listenerOn, events, nextId)
    }

    /** A panel over a hierarchy that may hold annotations from earlier sessions; its map starts empty. */
    constructor (store: map<nat, TrainingAnnotation>, annotationsInHierarchy: seq<nat>, firstId: nat)
      requires forall i :: 0 <= i < |annotationsInHierarchy| ==> annotationsInHierarchy[i] in store
      requires forall a :: a in store ==> a < firstId
      ensures State() == TrainingState(map[], store, annotationsInHierarchy, true, [], firstId)
      ensures Valid(State()) && Keyed(State())
    {
      annotationMap := map[];
      annotations := store;
      hierarchy := annotationsInHierarchy;
      listenerOn := true;
      events := [];
      nextId := firstId;
    }

    /** The inner loop of `removeDuplicate`: the first child at `point`, or -1. */
    static method FindChildAt(children: seq<PathObject>, point: Point) returns (found: int)
      ensures found == FirstAt(children, point)
    {
      found := -1;
      var j := 0;
      while j < |children|
        invariant 0 <= j <= |children|
        invariant forall m :: 0 <= m < j ==> children[m].roi.centroid != point
      {
        if children[j].roi.centroid == point {
          found := j;
          break;
        }
        j := j + 1;
      }
    }

    method RemoveDuplicate(p: PathObject, order: seq<Option<PathClass>>)
      requires Valid(State()) && forall c :: c in order ==> c in annotationMap
      modifies this
      ensures State() == RemovedDuplicate(old(State()), order, p)
    {
      var st := State();
      var pc := p.pathClass;
      var point := p.roi.centroid;
      var found: Option<(nat, nat)> := None;
      assert order[..0] == [];
      for k := 0 to |order|
        invariant found == DuplicateIn(st, order[..k], pc, point)
        invariant State() == st
      {
        DuplicateInStep(st, order, pc, point, k);
        var a := st.annotationMap[order[k]];
        if !(pc in st.annotationMap && a == st.annotationMap[pc]) {
          var i := FindChildAt(st.annotations[a].children, point);
          if 0 <= i {
            found := Some((a, i));
          }
        }
      }
      assert order[..|order|] == order;
      if found.Some? {
        var (a, i) := found.value;
        var an := st.annotations[a];
        var stripped := Stripped(an, i, point);
        annotations := st.annotations[a := stripped];
        annotationMap := st.annotationMap[an.pathClass := a];
        assert State() == st.(annotations := st.annotations[a := stripped], annotationMap := st.annotationMap[an.pathClass := a]);
      }
    }

    /** The hierarchy scan of `addTotTraining`: the last earlier-session annotation for `pc`. */
    method FindPreviousAnnotation(pc: Option<PathClass>) returns (r: Outcome<Option<nat>>)
      requires Valid(State())
      ensures r == PreviousAnnotation(State(), hierarchy, pc)
    {
      var annotation: Option<nat> := None;
      var k := 0;
      while k < |hierarchy|
        invariant 0 <= k <= |hierarchy|
        invariant PreviousAnnotation(State(), hierarchy[..k], pc) == Returned(annotation)
      {
        assert hierarchy[..k + 1][..k] == hierarchy[..k];
        var an := annotations[hierarchy[k]];
        if an.name == ActiveLearningName {
          if an.pathClass.None? {
            assert NamedWithoutClass(annotations[hierarchy[..k + 1][k]]);
            NamedWithoutClassThrows(State(), hierarchy, k, pc);
            return Thrown(NullPointer);
          }
          if an.pathClass == pc {
            annotation := Some(hierarchy[k]);
          }
        }
        k := k + 1;
      }
      assert hierarchy[..|hierarchy|] == hierarchy;
      return Returned(annotation);
    }

    /** The first half of the new-class branch: find or create the annotation. */
    method OpenAnnotation(pc: Option<PathClass>, point: Point) returns (r: Outcome<nat>)
      requires Valid(State())
      modifies this
      ensures AnnotationFor(old(State()), pc, point).Thrown? ==>
        r == Thrown(AnnotationFor(old(State()), pc, point).exception) && State() == old(State())
      ensures AnnotationFor(old(State()), pc, point).Returned? ==>
        r == Returned(AnnotationFor(old(State()), pc, point).value.1) && State() == AnnotationFor(old(State()), pc, point).value.0
    {
      var previous := FindPreviousAnnotation(pc);
      if previous.Thrown? {
        return Thrown(previous.exception);
      }
      if previous.value.Some? {
        return Returned(previous.value.value);
      }
      var created := nextId;
      annotations := annotations[created := TrainingAnnotation(ActiveLearningName, pc, [], [point])];
      hierarchy := hierarchy + [created];
      events := events + [ObjectAdded(created, listenerOn)];
      nextId := nextId + 1;
      return Returned(created);
    }

    /** `annotation.addPathObject(new PathDetectionObject(point))`, optionally widening the ROI. */
    method AppendPoint(a: nat, pc: Option<PathClass>, point: Point, widenRoi: bool)
      requires a in annotations
      modifies this
      ensures State() == Appended(old(State()), a, pc, point, widenRoi)
    {
      var an := annotations[a];
      var points := if widenRoi then [point] + an.points else an.points;
      annotations := annotations[a := an.(children := an.children + [PointChild(nextId, pc, point)], points := points)];
      nextId := nextId + 1;
    }

    /** The notification with the panel's own listener detached, then the map update. */
    method Notify(pc: Option<PathClass>, a: nat)
      modifies this
      ensures State() == Notified(old(State()), pc, a)
    {
      listenerOn := false;
      events := events + [ClassificationsChanged(a, listenerOn)];
      listenerOn := true;
      annotationMap := annotationMap[pc := a];
    }

    method AddToTraining(p: PathObject, order: seq<Option<PathClass>>) returns (r: Outcome<()>)
      requires Valid(State()) && ScanOrder(order, annotationMap)
      modifies this
      ensures Committed(old(State()), order, p).Thrown? ==>
        r == Thrown(Committed(old(State()), order, p).exception) && State() == old(State())
      ensures Committed(old(State()), order, p).Returned? ==>
        r == Returned(()) && State() == Committed(old(State()), order, p).value
    {
      var pc := p.pathClass;
      var point := p.roi.centroid;
      if pc !in annotationMap {
        var target := OpenAnnotation(pc, point);
        if target.Thrown? {
          return Thrown(target.exception);
        }
        var a := target.value;
        ghost var st1 := State();
        RemoveDuplicate(p, order);
        RemovedDuplicateKeepsValid(st1, order, p);
        AppendPoint(a, pc, point, false);
        Notify(pc, a);
      } else {
        ghost var st := State();
        RemoveDuplicate(p, order);
        RemovedDuplicateKeepsValid(st, order, p);
        var a := annotationMap[pc];
        AppendPoint(a, pc, point, true);
        Notify(pc, a);
      }
      return Returned(());
    }
  }

  /** Removing a duplicate keeps every identity pointing at a stored annotation. */
  lemma RemovedDuplicateKeepsValid(st: TrainingState, order: seq<Option<PathClass>>, p: PathObject)
    requires Valid(st) && forall c :: c in order ==> c in st.annotationMap
    ensures Valid(RemovedDuplicate(st, order, p))
    ensures RemovedDuplicate(st, order, p).annotations.Keys == st.annotations.Keys
  {
  }

  /** An annotation named "Active Learning" without a class anywhere in the hierarchy makes the scan throw. */
  lemma NamedWithoutClassThrows(st: TrainingState, hs: seq<nat>, k: nat, pc: Option<PathClass>)
    requires forall i :: 0 <= i < |hs| ==> hs[i] in st.annotations
    requires k < |hs| && NamedWithoutClass(st.annotations[hs[k]])
    ensures PreviousAnnotation(st, hs, pc) == Thrown(NullPointer)
  {
  }

  /** Removing the first child equal to the child at the first matching index removes exactly that index. */
  lemma RemoveFirstAt(children: seq<PathObject>, point: Point)
    requires 0 <= FirstAt(children, point)
    ensures var i := FirstAt(children, point);
      RemoveFirst(children, children[i]) == children[..i] + children[i + 1..]
  {
    var i := FirstAt(children, point);
    var x := children[i];
    assert x in children;
    var j := IndexOf(children, x);
    assert children[j].roi.centroid == point;
    assert j == i;
  }

  /** `removeDuplicate` changes nothing but the stored annotations. */
  lemma RemovedDuplicateFrame(st: TrainingState, order: seq<Option<PathClass>>, p: PathObject)
    requires Valid(st) && Keyed(st) && forall c :: c in order ==> c in st.annotationMap
    ensures var st' := RemovedDuplicate(st, order, p);
      && st'.annotationMap == st.annotationMap
      && st'.annotations.Keys == st.annotations.Keys
      && st'.hierarchy == st.hierarchy && st'.events == st.events
      && st'.listenerOn == st.listenerOn && st'.nextId == st.nextId
  {
    var point := p.roi.centroid;
    var found := DuplicateIn(st, order, p.pathClass, point);
    if found.Some? {
      var a := found.value.0;
      var an := st.annotations[a];
      var c :| c in st.annotationMap && st.annotationMap[c] == a;
      assert an.pathClass == c;
      assert st.annotationMap[an.pathClass := a] == st.annotationMap;
    }
  }

  /** `removeDuplicate` keeps each mapped class on its annotation. */
  lemma RemovedDuplicateKeepsKeyed(st: TrainingState, order: seq<Option<PathClass>>, p: PathObject)
    requires Valid(st) && Keyed(st) && forall c :: c in order ==> c in st.annotationMap
    ensures Keyed(RemovedDuplicate(st, order, p))
  {
    var point := p.roi.centroid;
    var found := DuplicateIn(st, order, p.pathClass, point);
    if found.Some? {
      var a := found.value.0;
      var an := st.annotations[a];
      var stripped := Stripped(an, found.value.1, point);
      var c :| c in st.annotationMap && st.annotationMap[c] == a;
      assert an.pathClass == c;
      assert st.annotationMap[an.pathClass := a] == st.annotationMap;
      assert RemovedDuplicate(st, order, p) == st.(annotations := st.annotations[a := stripped]);
      StrippedSpec(an, point);
      ReplacedKeepsKeyed(st, a, stripped);
    }
  }

  /**
    The one annotation `removeDuplicate` may change is mapped, is not the one
    mapped to the object's class, and loses exactly its first child at the point.
   */
  lemma RemovedDuplicateTouches(st: TrainingState, order: seq<Option<PathClass>>, p: PathObject)
    requires Valid(st) && Keyed(st) && forall c :: c in order ==> c in st.annotationMap
    ensures var st' := RemovedDuplicate(st, order, p);
      forall a :: a in st.annotations && st'.annotations[a] != st.annotations[a] ==>
        && a in st.annotationMap.Values
        && (p.pathClass !in st.annotationMap || a != st.annotationMap[p.pathClass])
        && var i := FirstAt(st.annotations[a].children, p.roi.centroid);
           0 <= i && st'.annotations[a].children == st.annotations[a].children[..i] + st.annotations[a].children[i + 1..]
  {
    var point := p.roi.centroid;
    var found := DuplicateIn(st, order, p.pathClass, point);
    var st' := RemovedDuplicate(st, order, p);
    if found.Some? {
      var a := found.value.0;
      var i := found.value.1;
      var an := st.annotations[a];
      var stripped := Stripped(an, i, point);
      assert st'.annotations == st.annotations[a := stripped];
      StrippedSpec(an, point);
      UpdatedOnly(st.annotations, a, stripped);
    } else {
      assert st' == st;
    }
  }

  /**
    `removeDuplicate` removes at most one child: the first child at the committed
    point in one mapped annotation other than the one mapped to the object's class;
    everything else, the map included, is left as it was.
   */
  lemma RemovedDuplicateEffect(st: TrainingState, order: seq<Option<PathClass>>, p: PathObject)
    requires Valid(st) && Keyed(st) && forall c :: c in order ==> c in st.annotationMap
    ensures var st' := RemovedDuplicate(st, order, p);
      && st'.annotationMap == st.annotationMap
      && st'.annotations.Keys == st.annotations.Keys
      && st'.hierarchy == st.hierarchy && st'.events == st.events
      && st'.listenerOn == st.listenerOn && st'.nextId == st.nextId
      && Keyed(st')
    ensures var st' := RemovedDuplicate(st, order, p);
      forall a :: a in st.annotations && st'.annotations[a] != st.annotations[a] ==>
        && a in st.annotationMap.Values
        && (p.pathClass !in st.annotationMap || a != st.annotationMap[p.pathClass])
        && var i := FirstAt(st.annotations[a].children, p.roi.centroid);
           0 <= i && st'.annotations[a].children == st.annotations[a].children[..i] + st.annotations[a].children[i + 1..]
  {
    RemovedDuplicateFrame(st, order, p);
    RemovedDuplicateKeepsKeyed(st, order, p);
    RemovedDuplicateTouches(st, order, p);
  }

  /**
    Which annotation `removeDuplicate` strips: none when no mapped annotation other
    than the class's own has a child at the point; otherwise the last such one in
    scan order, which loses its first child at the point and its first ROI point
    equal to it, and nothing else changes.
   */
  lemma RemovedDuplicateLast(st: TrainingState, order: seq<Option<PathClass>>, p: PathObject)
    requires Valid(st) && Keyed(st) && forall c :: c in order ==> c in st.annotationMap
    ensures (forall k :: 0 <= k < |order| ==> !Candidate(st, p.pathClass, p.roi.centroid, order[k])) ==>
      RemovedDuplicate(st, order, p) == st
    ensures forall k :: LastCandidate(st, order, p.pathClass, p.roi.centroid, k) ==>
      RemovedDuplicate(st, order, p) == LostFirstAt(st, st.annotationMap[order[k]], p.roi.centroid)
  {
    if forall k :: 0 <= k < |order| ==> !Candidate(st, p.pathClass, p.roi.centroid, order[k]) {
      RemovedWithoutCandidate(st, order, p);
    }
    forall k | LastCandidate(st, order, p.pathClass, p.roi.centroid, k)
      ensures RemovedDuplicate(st, order, p) == LostFirstAt(st, st.annotationMap[order[k]], p.roi.centroid)
    {
      RemovedAtLast(st, order, p, k);
    }
  }

  /** Annotation `a` without its first child at `point` and without its first ROI point equal to it. */
  function LostFirstAt(st: TrainingState, a: nat, point: Point): TrainingState
    requires a in st.annotations && 0 <= FirstAt(st.annotations[a].children, point)
  {
    var an := st.annotations[a];
    var i := FirstAt(an.children, point);
    st.(annotations := st.annotations[a := an.(children := an.children[..i] + an.children[i + 1..],
                                                points := RemoveFirst(an.points, point))])
  }

  /** Without a candidate nothing is removed. */
  lemma RemovedWithoutCandidate(st: TrainingState, order: seq<Option<PathClass>>, p: PathObject)
    requires Valid(st) && forall c :: c in order ==> c in st.annotationMap
    requires forall k :: 0 <= k < |order| ==> !Candidate(st, p.pathClass, p.roi.centroid, order[k])
    ensures RemovedDuplicate(st, order, p) == st
  {
    DuplicateInSpec(st, order, p.pathClass, p.roi.centroid);
  }

  /** The removal when position `k` holds the last candidate. */
  lemma RemovedAtLast(st: TrainingState, order: seq<Option<PathClass>>, p: PathObject, k: int)
    requires Valid(st) && Keyed(st) && forall c :: c in order ==> c in st.annotationMap
    requires LastCandidate(st, order, p.pathClass, p.roi.centroid, k)
    ensures RemovedDuplicate(st, order, p) == LostFirstAt(st, st.annotationMap[order[k]], p.roi.centroid)
  {
    var point := p.roi.centroid;
    var a := st.annotationMap[order[k]];
    var an := st.annotations[a];
    var i := FirstAt(an.children, point);
    DuplicateInSpec(st, order, p.pathClass, point);
    assert DuplicateIn(st, order, p.pathClass, point) == Some((a, i));
    assert an.pathClass == order[k];
    assert st.annotationMap[an.pathClass := a] == st.annotationMap;
    assert RemovedDuplicate(st, order, p) == st.(annotations := st.annotations[a := Stripped(an, i, point)]);
    StrippedSpec(an, point);
    assert Stripped(an, i, point) == an.(children := an.children[..i] + an.children[i + 1..], points := RemoveFirst(an.points, point));
  }

  /** After one key of a map is updated, every entry that differs is that key's. */
  lemma UpdatedOnly<K, V>(m: map<K, V>, a: K, v: V)
    ensures forall b :: b in m && m[a := v][b] != m[b] ==> b == a
  {
  }

  /** Stripping the first child at a point keeps the class and removes exactly that child. */
  lemma StrippedSpec(an: TrainingAnnotation, point: Point)
    requires 0 <= FirstAt(an.children, point)
    ensures var i := FirstAt(an.children, point);
      && Stripped(an, i, point).pathClass == an.pathClass
      && Stripped(an, i, point).children == an.children[..i] + an.children[i + 1..]
  {
    RemoveFirstAt(an.children, point);
  }

  /** Replacing a stored annotation by one of the same class keeps every mapped class on its annotation. */
  lemma ReplacedKeepsKeyed(st: TrainingState, a: nat, an: TrainingAnnotation)
    requires Keyed(st) && a in st.annotations && an.pathClass == st.annotations[a].pathClass
    ensures Keyed(st.(annotations := st.annotations[a := an]))
  {
  }

  /** The annotation a commit goes to is never the one `removeDuplicate` strips. */
  lemma TargetUntouched(st: TrainingState, order: seq<Option<PathClass>>, p: PathObject, a: nat)
    requires Valid(st) && Keyed(st) && forall c :: c in order ==> c in st.annotationMap
    requires a in st.annotations
    requires a !in st.annotationMap.Values || (p.pathClass in st.annotationMap && a == st.annotationMap[p.pathClass])
    ensures RemovedDuplicate(st, order, p).annotations[a] == st.annotations[a]
  {
    RemovedDuplicateEffect(st, order, p);
  }

  /** A class that is not mapped has no mapped annotation carrying it. */
  lemma UnmappedClassNotTarget(st: TrainingState, pc: Option<PathClass>, a: nat)
    requires Keyed(st) && pc !in st.annotationMap
    requires a in st.annotations && st.annotations[a].pathClass == pc
    ensures a !in st.annotationMap.Values
  {
  }

  /**
    A commit in stages: the annotation for the class (`a`, in state `st1`), then
    `removeDuplicate`, the new child, and the notification.
   */
  lemma CommitStages(st: TrainingState, order: seq<Option<PathClass>>, p: PathObject) returns (st1: TrainingState, a: nat)
    requires Valid(st) && Keyed(st) && ScanOrder(order, st.annotationMap)
    requires Committed(st, order, p).Returned?
    ensures Valid(st1) && Keyed(st1) && a in st1.annotations && st1.annotations[a].pathClass == p.pathClass
    ensures st1.annotationMap == st.annotationMap && st1.listenerOn == st.listenerOn
    ensures st1.events == st.events + (if CreatesAnnotation(st, p.pathClass) then [ObjectAdded(a, st.listenerOn)] else [])
    ensures st1.nextId >= st.nextId && st.annotations.Keys <= st1.annotations.Keys
    ensures forall c :: c in order ==> c in st1.annotationMap
    ensures a !in st1.annotationMap.Values || (p.pathClass in st1.annotationMap && a == st1.annotationMap[p.pathClass])
    ensures a in st.annotations ==> st1.annotations[a] == st.annotations[a]
    ensures a !in st.annotations ==> st1.annotations[a] == TrainingAnnotation(ActiveLearningName, p.pathClass, [], [p.roi.centroid])
    ensures p.pathClass in st.annotationMap ==> a == st.annotationMap[p.pathClass]
    ensures Committed(st, order, p).value ==
            Notified(Appended(RemovedDuplicate(st1, order, p), a, p.pathClass, p.roi.centroid, p.pathClass in st.annotationMap),
                     p.pathClass, a)
  {
    var pc := p.pathClass;
    var point := p.roi.centroid;
    if pc !in st.annotationMap {
      var r := AnnotationFor(st, pc, point).value;
      st1, a := r.0, r.1;
      assert Keyed(st1);
      UnmappedClassNotTarget(st1, pc, a);
    } else {
      st1, a := st, st.annotationMap[pc];
      RemovedDuplicateFrame(st, order, p);
    }
  }

  /** Appending a point detection changes only the annotation's children, its ROI when widened, and the next identity. */
  lemma AppendedSpec(st: TrainingState, a: nat, pc: Option<PathClass>, point: Point, widenRoi: bool)
    requires a in st.annotations
    ensures var r := Appended(st, a, pc, point, widenRoi);
      && r.annotationMap == st.annotationMap && r.events == st.events && r.listenerOn == st.listenerOn
      && r.hierarchy == st.hierarchy && r.nextId == st.nextId + 1
      && r.annotations.Keys == st.annotations.Keys
      && r.annotations[a].pathClass == st.annotations[a].pathClass
      && r.annotations[a].children == st.annotations[a].children + [PointChild(st.nextId, pc, point)]
      && r.annotations[a].points == (if widenRoi then [point] + st.annotations[a].points else st.annotations[a].points)
  {
  }

  /** Appending a point detection keeps the integrator consistent. */
  lemma AppendedKeepsValid(st: TrainingState, a: nat, pc: Option<PathClass>, point: Point, widenRoi: bool)
    requires Valid(st) && a in st.annotations
    ensures Valid(Appended(st, a, pc, point, widenRoi))
    ensures Keyed(st) ==> Keyed(Appended(st, a, pc, point, widenRoi))
  {
    var r := Appended(st, a, pc, point, widenRoi);
    if Keyed(st) {
      ReplacedKeepsKeyed(st, a, r.annotations[a]);
    }
  }

  /** Notifying keeps the integrator consistent once the annotation carries the class it is mapped under. */
  lemma NotifiedSpec(st: TrainingState, pc: Option<PathClass>, a: nat)
    requires Valid(st) && a in st.annotations
    ensures Valid(Notified(st, pc, a))
    ensures Keyed(st) && st.annotations[a].pathClass == pc ==> Keyed(Notified(st, pc, a))
  {
  }

  /**
    Where a commit puts the point: the annotation mapped to the object's class
    afterwards carries that class and has gained exactly one child, a point
    detection at the object's centroid; the ROI gains the point in front when the
    class was already mapped, is just the point for a new annotation, and is left
    as it was for a previous-session annotation.
   */
  lemma CommitAppendsOne(st: TrainingState, order: seq<Option<PathClass>>, p: PathObject)
    requires Valid(st) && Keyed(st) && ScanOrder(order, st.annotationMap)
    requires Committed(st, order, p).Returned?
    ensures var st' := Committed(st, order, p).value;
      p.pathClass in st'.annotationMap && st'.annotationMap[p.pathClass] in st'.annotations
    ensures var st' := Committed(st, order, p).value; var a := st'.annotationMap[p.pathClass];
      st'.annotations[a].pathClass == p.pathClass
    ensures var st' := Committed(st, order, p).value; var a := st'.annotationMap[p.pathClass];
      st'.annotations[a].children ==
        (if a in st.annotations then st.annotations[a].children else []) + [PointChild(st'.nextId - 1, p.pathClass, p.roi.centroid)]
    ensures var st' := Committed(st, order, p).value; var a := st'.annotationMap[p.pathClass];
      p.pathClass in st.annotationMap ==> a == st.annotationMap[p.pathClass] && st'.annotations[a].points == [p.roi.centroid] + st.annotations[a].points
    ensures var st' := Committed(st, order, p).value; var a := st'.annotationMap[p.pathClass];
      p.pathClass !in st.annotationMap && a !in st.annotations ==> st'.annotations[a].points == [p.roi.centroid]
    ensures var st' := Committed(st, order, p).value; var a := st'.annotationMap[p.pathClass];
      p.pathClass !in st.annotationMap && a in st.annotations ==> st'.annotations[a].points == st.annotations[a].points
  {
    var pc := p.pathClass;
    var point := p.roi.centroid;
    var st1, a := CommitStages(st, order, p);
    TargetUntouched(st1, order, p, a);
    RemovedDuplicateFrame(st1, order, p);
    var st2 := RemovedDuplicate(st1, order, p);
    var widen := pc in st.annotationMap;
    AppendedSpec(st2, a, pc, point, widen);
    var st3 := Appended(st2, a, pc, point, widen);
    var st' := Notified(st3, pc, a);
    assert st'.annotationMap[pc] == a && st'.annotations == st3.annotations && st'.nextId - 1 == st1.nextId;
    var an := st3.annotations[a];
    var before := if a in st.annotations then st.annotations[a].children else [];
    assert st2.annotations[a] == st1.annotations[a];
    assert st1.annotations[a].children == before;
    assert an.children == before + [PointChild(st1.nextId, pc, point)];
    assert an.points == (if widen then [point] + st1.annotations[a].points else st1.annotations[a].points);
  }


  /** A commit fails exactly when the class is new and the hierarchy holds an "Active Learning" annotation without a class. */
  lemma CommitThrowsIff(st: TrainingState, order: seq<Option<PathClass>>, p: PathObject)
    requires Valid(st) && ScanOrder(order, st.annotationMap)
    ensures Committed(st, order, p).Thrown? <==>
      p.pathClass !in st.annotationMap &&
      exists i :: 0 <= i < |st.hierarchy| && NamedWithoutClass(st.annotations[st.hierarchy[i]])
    ensures Committed(st, order, p).Thrown? ==> Committed(st, order, p).exception == NullPointer
  {
  }

  /**
    A commit keeps the integrator consistent and maps the object's class to the
    annotation it used. It fires the classification event with the panel's listener
    detached, which is attached again afterwards; when it creates the annotation,
    adding it to the hierarchy fires one event before that, with the listener as it was.
   */
  lemma CommitKeepsValid(st: TrainingState, order: seq<Option<PathClass>>, p: PathObject)
    requires Valid(st) && Keyed(st) && ScanOrder(order, st.annotationMap)
    requires Committed(st, order, p).Returned?
    ensures var st' := Committed(st, order, p).value;
      && Valid(st') && Keyed(st')
      && p.pathClass in st'.annotationMap
      && st'.annotationMap == st.annotationMap[p.pathClass := st'.annotationMap[p.pathClass]]
      && st'.listenerOn
      && st'.nextId > st.nextId
      && st.annotations.Keys <= st'.annotations.Keys
    ensures var st' := Committed(st, order, p).value; var a := st'.annotationMap[p.pathClass];
      st'.events == st.events + (if CreatesAnnotation(st, p.pathClass) then [ObjectAdded(a, st.listenerOn)] else [])
                              + [ClassificationsChanged(a, false)]
  {
    var pc := p.pathClass;
    var point := p.roi.centroid;
    var st1, a := CommitStages(st, order, p);
    RemovedDuplicateFrame(st1, order, p);
    RemovedDuplicateKeepsValid(st1, order, p);
    RemovedDuplicateKeepsKeyed(st1, order, p);
    var st2 := RemovedDuplicate(st1, order, p);
    AppendedSpec(st2, a, pc, point, pc in st.annotationMap);
    AppendedKeepsValid(st2, a, pc, point, pc in st.annotationMap);
    NotifiedSpec(Appended(st2, a, pc, point, pc in st.annotationMap), pc, a);
  }




  /**
    A commit reaches the panel's listener exactly when it creates the annotation
    while the listener is on: the classification event always fires with the
    listener detached.
   */
  lemma CommitHeardIff(st: TrainingState, order: seq<Option<PathClass>>, p: PathObject)
    requires Valid(st) && Keyed(st) && ScanOrder(order, st.annotationMap)
    requires Committed(st, order, p).Returned?
    ensures HeardSince(Committed(st, order, p).value.events, |st.events|) <==> CreatesAnnotation(st, p.pathClass) && st.listenerOn
  {
    CommitKeepsValid(st, order, p);
    var st' := Committed(st, order, p).value;
    var a := st'.annotationMap[p.pathClass];
    var added := if CreatesAnnotation(st, p.pathClass) then [ObjectAdded(a, st.listenerOn)] else [];
    assert st'.events == st.events + added + [ClassificationsChanged(a, false)];
    if CreatesAnnotation(st, p.pathClass) && st.listenerOn {
      assert st'.events[|st.events|].listenerOn;
    } else {
      forall i | |st.events| <= i < |st'.events|
        ensures !st'.events[i].listenerOn
      {
        if i < |st.events| + |added| {
          assert st'.events[i] == added[i - |st.events|];
        } else {
          assert st'.events[i] == ClassificationsChanged(a, false);
        }
      }
    }
  }
  /**
    Committing is not idempotent: committing the same object twice leaves two point
    detections at its centroid in the annotation of its class.
   */
  lemma CommitTwiceAddsTwo(st: TrainingState, order: seq<Option<PathClass>>, order': seq<Option<PathClass>>, p: PathObject)
    requires Valid(st) && Keyed(st) && ScanOrder(order, st.annotationMap)
    requires Committed(st, order, p).Returned?
    requires ScanOrder(order', Committed(st, order, p).value.annotationMap)
    ensures Committed(Committed(st, order, p).value, order', p).Returned?
    ensures var st'' := Committed(Committed(st, order, p).value, order', p).value;
      var a := st''.annotationMap[p.pathClass];
      && a in st''.annotations
      && |st''.annotations[a].children| >= 2
      && var n := |st''.annotations[a].children|;
         st''.annotations[a].children[n - 2].roi.centroid == p.roi.centroid
         && st''.annotations[a].children[n - 1].roi.centroid == p.roi.centroid
  {
    var st' := Committed(st, order, p).value;
    CommitKeepsValid(st, order, p);
    CommitAppendsOne(st, order, p);
    CommitThrowsIff(st', order', p);
    CommitAppendsOne(st', order', p);
  }
}
