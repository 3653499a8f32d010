/**
  The bookkeeping of the two classifiers: how `ClassifierExampleCommand` and
  `RandomForestClassifier` turn training objects into feature rows and labels,
  and how they turn predicted labels back into classifications.

  The learners themselves (an SVM, a random forest) are not modelled: where a
  prediction is needed, the label the learner gives a feature row is a
  parameter. `getLabelledObjectsForClass` is a parameter too, and so is the order
  in which the command's `HashMap` hands back its values.
 */
module Classifiers {
  import opened Basics
  import opened Domain

  // ---------------------------------------------------------------------------
  // Feature rows

  /** The test `featureList.contains(name)` applies to each measurement. */
  function Listed(featureList: seq<string>): Measurement -> bool {
    (m: Measurement) => m.name in featureList
  }

  /** The values of the measurements whose names are listed, in measurement-list order. */
  function ListedValues(featureList: seq<string>, ms: seq<Measurement>): seq<Double> {
    Values(Filter(ms, Listed(featureList)))
  }

  /** One object's feature row: the values of its listed measurements, in measurement-list order. */
  function FeatureRow(featureList: seq<string>, p: PathObject): seq<Double> {
    ListedValues(featureList, p.measurements)
  }

  /** The feature matrix of a list of objects: one row per object, in list order. */
  function FeatureRows(featureList: seq<string>, objects: seq<PathObject>): (rows: seq<seq<Double>>)
    ensures |rows| == |objects|
    ensures forall i :: 0 <= i < |objects| ==> rows[i] == FeatureRow(featureList, objects[i])
  {
    if objects == [] then []
    else FeatureRows(featureList, objects[..|objects| - 1]) + [FeatureRow(featureList, objects[|objects| - 1])]
  }

  /** The inner loop over the measurement list. */
  method FeatureRowOf(featureList: seq<string>, p: PathObject) returns (row: seq<Double>)
    ensures row == FeatureRow(featureList, p)
  {
    var ms := p.measurements;
    row := [];
    assert ms[..0] == [];
    for j := 0 to |ms|
      invariant row == ListedValues(featureList, ms[..j])
    {
      ListedValuesStep(featureList, ms, j);
      if ms[j].name in featureList {
        row := row + [ms[j].value];
      }
    }
    assert ms[..|ms|] == ms;
  }

  /** One more measurement adds its value to the row exactly when its name is listed. */
  lemma ListedValuesStep(featureList: seq<string>, ms: seq<Measurement>, j: nat)
    requires j < |ms|
    ensures ListedValues(featureList, ms[..j + 1]) ==
            ListedValues(featureList, ms[..j]) + (if ms[j].name in featureList then [ms[j].value] else [])
  {
    var keep := Listed(featureList);
    assert ms[..j + 1] == ms[..j] + [ms[j]];
    FilterSnoc(ms[..j], ms[j], keep);
    var done := Filter(ms[..j], keep);
    if keep(ms[j]) {
      ValuesConcat(done, [ms[j]]);
      assert Values([ms[j]]) == [ms[j].value];
    } else {
      assert Filter(ms[..j + 1], keep) == done;
    }
  }

  /** The outer loop: one row per object. */
  method FeatureMatrix(featureList: seq<string>, objects: seq<PathObject>) returns (rows: seq<seq<Double>>)
    ensures rows == FeatureRows(featureList, objects)
  {
    rows := [];
    for i := 0 to |objects|
      invariant rows == FeatureRows(featureList, objects[..i])
    {
      assert objects[..i + 1][..i] == objects[..i];
      var row := FeatureRowOf(featureList, objects[i]);
      rows := rows + [row];
    }
    assert objects[..|objects|] == objects;
  }

  /**
    A measurement's value is in the row exactly when its name is a listed feature;
    rows of split measurement lists join, so the row follows the measurement list,
    and a name listed twice does not repeat a value.
   */
  lemma FeatureRowSpec(featureList: seq<string>, ms: seq<Measurement>, a: seq<Measurement>, b: seq<Measurement>, m: Measurement)
    ensures m in Filter(ms, Listed(featureList)) <==> m in ms && m.name in featureList
    ensures Values(Filter(a + b, Listed(featureList))) ==
            Values(Filter(a, Listed(featureList))) + Values(Filter(b, Listed(featureList)))
    ensures |Values(Filter(ms, Listed(featureList)))| <= |ms|
  {
    if m in ms && m.name in featureList {
      FilterKeeps(ms, Listed(featureList), m);
    }
    FilterConcat(a, b, Listed(featureList));
    ValuesConcat(Filter(a, Listed(featureList)), Filter(b, Listed(featureList)));
  }

  /** With features listed as ["b", "a"] and measurements a = 1, b = 2, the row is [1, 2]: measurement order wins. */
  lemma FeatureRowOrder()
    ensures var p := PathObject(0, Detection, None, NaN, Roi(false, Point(0.0, 0.0)),
                                [Measurement("a", Num(1.0)), Measurement("b", Num(2.0))]);
      FeatureRow(["b", "a"], p) == [Num(1.0), Num(2.0)]
  {
    var features := ["b", "a"];
    var m0, m1 := Measurement("a", Num(1.0)), Measurement("b", Num(2.0));
    assert m0.name == features[1];
    assert m1.name == features[0];
    ListedValuesOfTwo(features, m0, m1);
  }

  /** Two listed measurements keep their measurement-list order, whatever the feature-list order. */
  lemma ListedValuesOfTwo(features: seq<string>, m0: Measurement, m1: Measurement)
    requires m0.name in features && m1.name in features
    ensures ListedValues(features, [m0, m1]) == [m0.value, m1.value]
  {
    var keep := Listed(features);
    FilterSnoc([m0], m1, keep);
    FilterSingleton(m0, keep);
    assert [m0] + [m1] == [m0, m1];
    assert Filter([m0, m1], keep) == [m0, m1];
    assert [m0, m1][..1] == [m0];
    assert [m0][..0] == [];
  }

  // ---------------------------------------------------------------------------
  // ClassifierExampleCommand

  /** The command's `run()` bookkeeping: training lists per class, the label decoding map, the sample count. */
  datatype TrainingBook = TrainingBook(trainingMap: map<PathClass, seq<PathObject>>, labelMap: map<int, PathClass>, nSamples: int)

  /** The loop over `classList` in `run()`; `labelled` is `getLabelledObjectsForClass`. */
  function Collected(classList: seq<PathClass>, labelled: PathClass -> seq<PathObject>): TrainingBook {
    if classList == [] then TrainingBook(map[], map[], 0)
    else
      var book := Collected(classList[..|classList| - 1], labelled);
      var c := classList[|classList| - 1];
      TrainingBook(book.trainingMap[c := labelled(c)], book.labelMap[|classList| - 1 := c], book.nSamples + |labelled(c)|)
  }

  /** Every class of the list has a training list. */
  predicate Covers(classList: seq<PathClass>, trainingMap: map<PathClass, seq<PathObject>>) {
    forall i :: 0 <= i < |classList| ==> classList[i] in trainingMap
  }

  /** The objects of one class list, each paired with the class's label. */
  function Group(objects: seq<PathObject>, lab: nat): (g: seq<(PathObject, nat)>)
    ensures |g| == |objects| && forall k :: 0 <= k < |objects| ==> g[k] == (objects[k], lab)
  {
    seq(|objects|, k requires 0 <= k < |objects| => (objects[k], lab))
  }

  /** The training samples, class by class in `classes` order, each with the index of its class there. */
  function Samples(classes: seq<PathClass>, trainingMap: map<PathClass, seq<PathObject>>): seq<(PathObject, nat)>
    requires Covers(classes, trainingMap)
  {
    if classes == [] then []
    else
      var k := |classes| - 1;
      Samples(classes[..k], trainingMap) + Group(trainingMap[classes[k]], k)
  }

  /** `getTrainingLabels()`: the label of every sample, class by class in `classList` order. */
  function LabelVector(classList: seq<PathClass>, trainingMap: map<PathClass, seq<PathObject>>): (labels: seq<int>)
    requires Covers(classList, trainingMap)
  {
    var s := Samples(classList, trainingMap);
    seq(|s|, j requires 0 <= j < |s| => s[j].1)
  }

  /** The feature rows of a list of samples, in sample order. */
  function SampleRows(featureList: seq<string>, samples: seq<(PathObject, nat)>): (rows: seq<seq<Double>>)
    ensures |rows| == |samples| && forall j :: 0 <= j < |samples| ==> rows[j] == FeatureRow(featureList, samples[j].0)
  {
    seq(|samples|, j requires 0 <= j < |samples| => FeatureRow(featureList, samples[j].0))
  }

  /** One more class adds its group of samples, labelled with its index. */
  lemma SamplesStep(classes: seq<PathClass>, trainingMap: map<PathClass, seq<PathObject>>, i: nat)
    requires Covers(classes, trainingMap) && i < |classes|
    ensures Covers(classes[..i + 1], trainingMap)
    ensures Samples(classes[..i + 1], trainingMap) == Samples(classes[..i], trainingMap) + Group(trainingMap[classes[i]], i)
  {
    assert classes[..i + 1][..i] == classes[..i];
  }

  /** One more object of a class's list adds its feature row. */
  lemma SampleRowsStep(featureList: seq<string>, done: seq<(PathObject, nat)>, objects: seq<PathObject>, k: nat, lab: nat)
    requires k < |objects|
    ensures SampleRows(featureList, done + Group(objects[..k + 1], lab)) ==
            SampleRows(featureList, done + Group(objects[..k], lab)) + [FeatureRow(featureList, objects[k])]
  {
    assert done + Group(objects[..k + 1], lab) == (done + Group(objects[..k], lab)) + [(objects[k], lab)];
  }

  /** `order` lists every key of the training map once: the map's value iteration order. */
  predicate ValueOrder(trainingMap: map<PathClass, seq<PathObject>>, order: seq<PathClass>) {
    NoDuplicates(order) && Covers(order, trainingMap) && forall c :: c in trainingMap ==> c in order
  }

  /** `getFeatureMatrix()` as written: rows follow the training map's value order. */
  function TrainingRowsAsWritten(featureList: seq<string>, trainingMap: map<PathClass, seq<PathObject>>, order: seq<PathClass>)
    : seq<seq<Double>>
    requires ValueOrder(trainingMap, order)
  {
    SampleRows(featureList, Samples(order, trainingMap))
  }

  /** `getFeatureMatrix()` corrected: rows follow `classList`, the order the labels follow. */
  function TrainingRows(featureList: seq<string>, classList: seq<PathClass>, trainingMap: map<PathClass, seq<PathObject>>)
    : seq<seq<Double>>
    requires Covers(classList, trainingMap)
  {
    SampleRows(featureList, Samples(classList, trainingMap))
  }

  /** Every sample carries the index of a class whose training list holds it. */
  lemma {:induction false} SamplesBelong(classes: seq<PathClass>, trainingMap: map<PathClass, seq<PathObject>>)
    requires Covers(classes, trainingMap)
    ensures forall j :: 0 <= j < |Samples(classes, trainingMap)| ==>
      Samples(classes, trainingMap)[j].1 < |classes| &&
      Samples(classes, trainingMap)[j].0 in trainingMap[classes[Samples(classes, trainingMap)[j].1]]
    decreases |classes|
  {
    if classes != [] {
      var k := |classes| - 1;
      assert Covers(classes[..k], trainingMap);
      SamplesBelong(classes[..k], trainingMap);
      var s := Samples(classes, trainingMap);
      var init := Samples(classes[..k], trainingMap);
      forall j | 0 <= j < |s|
        ensures s[j].1 < |classes| && s[j].0 in trainingMap[classes[s[j].1]]
      {
        if j < |init| {
          assert s[j] == init[j];
          assert classes[..k][init[j].1] == classes[init[j].1];
        } else {
          assert s[j] == (trainingMap[classes[k]][j - |init|], k);
        }
      }
    }
  }

  /**
    The corrected rows line up with the labels: row j holds the features of the
    j-th sample, label j is the index of a class whose training list holds that
    sample, and labels only name classes of the list.
   */
  lemma TrainingRowsAligned(featureList: seq<string>, classList: seq<PathClass>, trainingMap: map<PathClass, seq<PathObject>>)
    requires Covers(classList, trainingMap)
    ensures var s := Samples(classList, trainingMap);
      var rows := TrainingRows(featureList, classList, trainingMap);
      var labels := LabelVector(classList, trainingMap);
      && |rows| == |labels| == |s|
      && forall j :: 0 <= j < |s| ==>
           rows[j] == FeatureRow(featureList, s[j].0) && 0 <= labels[j] < |classList| &&
           s[j].0 in trainingMap[classList[labels[j]]]
  {
    SamplesBelong(classList, trainingMap);
  }

  /** The two objects of the misalignment example. */
  const SampleA := PathObject(1, Detection, None, NaN, Roi(false, Point(0.0, 0.0)), [Measurement("x", Num(1.0))])
  const SampleB := PathObject(2, Detection, None, NaN, Roi(false, Point(0.0, 0.0)), [Measurement("x", Num(2.0))])

  /**
    As written, with classes [A, B], one training object for each, and a hash map
    that hands back B's list first, the first feature row is B's object while the
    first label is 0, class A: the learner is trained on swapped labels.
   */
  lemma TrainingRowsMisaligned()
    ensures var a := PathClass("A", None); var b := PathClass("B", None);
      var tm := map[a := [SampleA], b := [SampleB]];
      && ValueOrder(tm, [b, a])
      && TrainingRowsAsWritten(["x"], tm, [b, a])[0] == FeatureRow(["x"], SampleB)
      && LabelVector([a, b], tm)[0] == 0
      && SampleB !in tm[a]
      && FeatureRow(["x"], SampleB) != FeatureRow(["x"], SampleA)
  {
    var a := PathClass("A", None);
    var b := PathClass("B", None);
    var tm := map[a := [SampleA], b := [SampleB]];
    SamplesOfTwo(b, a, tm);
    SamplesOfTwo(a, b, tm);
    assert Samples([b, a], tm)[0] == (SampleB, 0);
    assert Samples([a, b], tm)[0] == (SampleA, 0);
    SampleRowsDiffer();
  }

  /** The two example objects have different feature rows. */
  lemma SampleRowsDiffer()
    ensures FeatureRow(["x"], SampleB) != FeatureRow(["x"], SampleA)
  {
    FilterSingleton(SampleA.measurements[0], Listed(["x"]));
    FilterSingleton(SampleB.measurements[0], Listed(["x"]));
    assert FeatureRow(["x"], SampleA)[0] == Num(1.0);
  }

  /** The samples of two classes: the first class's objects labelled 0, then the second's labelled 1. */
  lemma SamplesOfTwo(first: PathClass, second: PathClass, tm: map<PathClass, seq<PathObject>>)
    requires first in tm && second in tm
    ensures Samples([first, second], tm) == Group(tm[first], 0) + Group(tm[second], 1)
  {
    assert [first, second][..1] == [first];
    assert Covers([first], tm);
    assert Samples([first], tm) == Group(tm[first], 0) by {
      assert [first][..0] == [];
    }
  }

  /** The training map holds each class of the list, with its labelled objects. */
  lemma {:induction false} CollectedTraining(classList: seq<PathClass>, labelled: PathClass -> seq<PathObject>)
    ensures var tm := Collected(classList, labelled).trainingMap;
      && (forall c :: c in tm <==> c in classList)
      && (forall c :: c in tm ==> tm[c] == labelled(c))
    decreases |classList|
  {
    if classList != [] {
      var k := |classList| - 1;
      var init := classList[..k];
      CollectedTraining(init, labelled);
      var prev := Collected(init, labelled).trainingMap;
      var tm := Collected(classList, labelled).trainingMap;
      assert tm == prev[classList[k] := labelled(classList[k])];
      forall c | c in tm
        ensures c in classList
      {
        if c != classList[k] {
          var i :| 0 <= i < |init| && init[i] == c;
          assert classList[i] == c;
        }
      }
      forall c | c in classList
        ensures c in tm
      {
        var i :| 0 <= i < |classList| && classList[i] == c;
        if i < k {
          assert init[i] == c;
        }
      }
    }
  }

  /** The label map sends each index of the class list to its class. */
  lemma {:induction false} CollectedLabels(classList: seq<PathClass>, labelled: PathClass -> seq<PathObject>)
    ensures var lm := Collected(classList, labelled).labelMap;
      && (forall k :: k in lm <==> 0 <= k < |classList|)
      && (forall k :: 0 <= k < |classList| ==> lm[k] == classList[k])
    decreases |classList|
  {
    if classList != [] {
      var k := |classList| - 1;
      var init := classList[..k];
      CollectedLabels(init, labelled);
      var prev := Collected(init, labelled).labelMap;
      var lm := Collected(classList, labelled).labelMap;
      assert lm == prev[k := classList[k]];
      forall i | 0 <= i < k
        ensures lm[i] == classList[i]
      {
        assert init[i] == classList[i];
      }
    }
  }

  /** `run()` fills the training map and the label map from the class list. */
  lemma CollectedMaps(classList: seq<PathClass>, labelled: PathClass -> seq<PathObject>)
    ensures var book := Collected(classList, labelled);
      && (forall c :: c in book.trainingMap <==> c in classList)
      && (forall c :: c in book.trainingMap ==> book.trainingMap[c] == labelled(c))
      && (forall k :: k in book.labelMap <==> 0 <= k < |classList|)
      && (forall k :: 0 <= k < |classList| ==> book.labelMap[k] == classList[k])
  {
    CollectedTraining(classList, labelled);
    CollectedLabels(classList, labelled);
  }

  /** The number of objects the classes' lists hold, counted class by class. */
  function ListSizes(classes: seq<PathClass>, trainingMap: map<PathClass, seq<PathObject>>): nat
    requires Covers(classes, trainingMap)
  {
    if classes == [] then 0
    else ListSizes(classes[..|classes| - 1], trainingMap) + |trainingMap[classes[|classes| - 1]]|
  }

  /** One sample per object of each class's list. */
  lemma {:induction false} SamplesLength(classes: seq<PathClass>, trainingMap: map<PathClass, seq<PathObject>>)
    requires Covers(classes, trainingMap)
    ensures |Samples(classes, trainingMap)| == ListSizes(classes, trainingMap)
    decreases |classes|
  {
    if classes != [] {
      assert Covers(classes[..|classes| - 1], trainingMap);
      SamplesLength(classes[..|classes| - 1], trainingMap);
    }
  }

  /** `nSamples` adds up the list sizes, a class listed twice counted twice. */
  lemma {:induction false} CollectedCount(classList: seq<PathClass>, labelled: PathClass -> seq<PathObject>, prefix: nat)
    requires prefix <= |classList|
    ensures Covers(classList[..prefix], Collected(classList, labelled).trainingMap)
    ensures Collected(classList[..prefix], labelled).nSamples ==
            ListSizes(classList[..prefix], Collected(classList, labelled).trainingMap)
    decreases prefix
  {
    var tm := Collected(classList, labelled).trainingMap;
    CollectedMaps(classList, labelled);
    assert Covers(classList[..prefix], tm) by {
      forall i | 0 <= i < prefix
        ensures classList[..prefix][i] in tm
      {
        assert classList[..prefix][i] == classList[i];
      }
    }
    if prefix > 0 {
      CollectedCount(classList, labelled, prefix - 1);
      assert classList[..prefix][..prefix - 1] == classList[..prefix - 1];
      assert classList[..prefix][prefix - 1] in classList;
    }
  }

  /**
    After `run()` the training map covers the class list, and the label vector has
    exactly `nSamples` entries: one per object of each class's list.
   */
  lemma CollectedSpec(classList: seq<PathClass>, labelled: PathClass -> seq<PathObject>)
    ensures var book := Collected(classList, labelled);
      && Covers(classList, book.trainingMap)
      && |LabelVector(classList, book.trainingMap)| == book.nSamples
  {
    CollectedCount(classList, labelled, |classList|);
    assert classList[..|classList|] == classList;
    SamplesLength(classList, Collected(classList, labelled).trainingMap);
  }

  /** The classes the command classifies into: detections only, without points ROIs. */
  predicate Propagatable(p: PathObject) {
    p.kind == Detection && !p.roi.isPoints
  }

  /** `labelMap.get(label)`: the class, or null for a label without one. */
  function Decode(labelMap: map<int, PathClass>, lab: int): Option<PathClass> {
    if lab in labelMap then Some(labelMap[lab]) else None
  }

  /** The first `n` objects relabelled with their decoded predictions. */
  function Relabel(objects: seq<PathObject>, predictions: seq<int>, labelMap: map<int, PathClass>, n: nat): (r: seq<PathObject>)
    requires n <= |objects| && n <= |predictions|
    ensures |r| == |objects|
    ensures forall i :: 0 <= i < |objects| ==>
      r[i] == if i < n then objects[i].(pathClass := Decode(labelMap, predictions[i])) else objects[i]
  {
    seq(|objects|, i requires 0 <= i < |objects| =>
      if i < n then objects[i].(pathClass := Decode(labelMap, predictions[i])) else objects[i])
  }

  /** Extending the scanned prefix by one object keeps it exactly when it is neither an annotation, the root nor points. */
  lemma PropagatableStep(flat: seq<PathObject>, i: nat)
    requires i < |flat|
    ensures Filter(flat[..i + 1], Propagatable) == Filter(flat[..i], Propagatable) +
      (if !(flat[i].kind == Annotation || flat[i].kind == Root) && !flat[i].roi.isPoints then [flat[i]] else [])
  {
    assert flat[..i + 1] == flat[..i] + [flat[i]];
    FilterSnoc(flat[..i], flat[i], Propagatable);
  }

  /** Relabelling one more object updates that object's class and nothing else. */
  lemma RelabelStep(objects: seq<PathObject>, predictions: seq<int>, labelMap: map<int, PathClass>, i: nat)
    requires i < |objects| && i < |predictions|
    ensures var r := Relabel(objects, predictions, labelMap, i);
      r[i := r[i].(pathClass := Decode(labelMap, predictions[i]))] == Relabel(objects, predictions, labelMap, i + 1)
  {
  }

  /**
    `propagateClassification()` after the learner has predicted a label for each
    kept object: the kept objects with their new classes, and the exception when
    there are fewer predictions than objects.
   */
  function Propagated(flat: seq<PathObject>, predictions: seq<int>, labelMap: map<int, PathClass>)
    : (seq<PathObject>, Option<JavaException>)
  {
    var kept := Filter(flat, Propagatable);
    if |predictions| >= |kept| then (Relabel(kept, predictions, labelMap, |kept|), None)
    else (Relabel(kept, predictions, labelMap, |predictions|), Some(IndexOutOfBounds))
  }

  /**
    Annotations, the root and points objects are never reclassified; every other
    object of the hierarchy is, in order; object i takes the class its prediction
    decodes to, a class of the list for a label in range and null otherwise.
   */
  lemma PropagatedSpec(flat: seq<PathObject>, predictions: seq<int>, classList: seq<PathClass>, labelled: PathClass -> seq<PathObject>)
    ensures var labelMap := Collected(classList, labelled).labelMap;
      var (objs, thrown) := Propagated(flat, predictions, labelMap);
      var kept := Filter(flat, Propagatable);
      && |objs| == |kept|
      && (forall p :: p in kept <==> p in flat && Propagatable(p))
      && (thrown.Some? <==> |predictions| < |kept|)
      && (forall i :: 0 <= i < |kept| && i < |predictions| ==>
            objs[i].id == kept[i].id &&
            (0 <= predictions[i] < |classList| ==> objs[i].pathClass == Some(classList[predictions[i]])) &&
            (predictions[i] < 0 || predictions[i] >= |classList| ==> objs[i].pathClass == None))
  {
    var kept := Filter(flat, Propagatable);
    forall p | p in flat && Propagatable(p)
      ensures p in kept
    {
      FilterKeeps(flat, Propagatable, p);
    }
    CollectedMaps(classList, labelled);
  }

  /** `ClassifierExampleCommand`. */
  class ClassifierCommand {
    const classList: seq<PathClass>
    const featureList: seq<string>
    const binaryClassifier: bool
    var trainingMap: map<PathClass, seq<PathObject>>
    var labelMap: map<int, PathClass>
    var nSamples: int

    /** The classifier is binary exactly when there are two classes. */
    constructor (classes: seq<PathClass>, features: seq<string>)
      ensures classList == classes && featureList == features
      ensures binaryClassifier <==> |classes| == 2
      ensures trainingMap == map[] && labelMap == map[] && nSamples == 0
    {
      classList := classes;
      featureList := features;
      binaryClassifier := |classes| == 2;
      trainingMap := map[];
      labelMap := map[];
      nSamples := 0;
    }

    /** The training-set part of `run()`: every count restarts from zero. */
    method CollectTraining(labelled: PathClass -> seq<PathObject>)
      modifies this
      ensures TrainingBook(trainingMap, labelMap, nSamples) == Collected(classList, labelled)
    {
      trainingMap := map[];
      labelMap := map[];
      nSamples := 0;
      for k := 0 to |classList|
        invariant TrainingBook(trainingMap, labelMap, nSamples) == Collected(classList[..k], labelled)
      {
        assert classList[..k + 1][..k] == classList[..k];
        var c := classList[k];
        var objectList := labelled(c);
        nSamples := nSamples + |objectList|;
        trainingMap := trainingMap[c := objectList];
        labelMap := labelMap[k := c];
      }
      assert classList[..|classList|] == classList;
    }

    /** `getTrainingLabels()`. */
    method TrainingLabels() returns (labels: seq<int>)
      requires Covers(classList, trainingMap)
      ensures labels == LabelVector(classList, trainingMap)
    {
      labels := [];
      ghost var done: seq<(PathObject, nat)> := [];
      for i := 0 to |classList|
        invariant Covers(classList[..i], trainingMap)
        invariant done == Samples(classList[..i], trainingMap)
        invariant labels == seq(|done|, j requires 0 <= j < |done| => done[j].1)
      {
        assert classList[..i + 1][..i] == classList[..i];
        var objects := trainingMap[classList[i]];
        for k := 0 to |objects|
          invariant labels == seq(|done| + k, j requires 0 <= j < |done| + k =>
                                  if j < |done| then done[j].1 else i)
        {
          labels := labels + [i];
        }
        done := done + Group(objects, i);
      }
      assert classList[..|classList|] == classList;
    }

    /** `getFeatureMatrix()` over the training map, its values taken in `order`. */
    method TrainingFeatureMatrix(order: seq<PathClass>) returns (rows: seq<seq<Double>>)
      requires ValueOrder(trainingMap, order)
      ensures rows == TrainingRowsAsWritten(featureList, trainingMap, order)
    {
      rows := [];
      assert order[..0] == [];
      for i := 0 to |order|
        invariant Covers(order[..i], trainingMap)
        invariant rows == SampleRows(featureList, Samples(order[..i], trainingMap))
      {
        SamplesStep(order, trainingMap, i);
        ghost var done := Samples(order[..i], trainingMap);
        var objects := trainingMap[order[i]];
        assert objects[..0] == [];
        assert done + Group(objects[..0], i) == done;
        for k := 0 to |objects|
          invariant rows == SampleRows(featureList, done + Group(objects[..k], i))
        {
          var row := FeatureRowOf(featureList, objects[k]);
          SampleRowsStep(featureList, done, objects, k, i);
          rows := rows + [row];
        }
        assert objects[..|objects|] == objects;
      }
      assert order[..|order|] == order;
    }

    /** `propagateClassification()` up to the learner: filter, then decode each prediction. */
    method Propagate(flat: seq<PathObject>, predictions: seq<int>) returns (objs: seq<PathObject>, thrown: Option<JavaException>)
      ensures (objs, thrown) == Propagated(flat, predictions, labelMap)
    {
      var kept: seq<PathObject> := [];
      for i := 0 to |flat|
        invariant kept == Filter(flat[..i], Propagatable)
      {
        PropagatableStep(flat, i);
        if flat[i].kind == Annotation || flat[i].kind == Root {
          continue;
        }
        if flat[i].roi.isPoints {
          continue;
        }
        kept := kept + [flat[i]];
      }
      assert flat[..|flat|] == flat;
      objs := kept;
      for i := 0 to |kept|
        invariant i <= |predictions|
        invariant objs == Relabel(kept, predictions, labelMap, i)
      {
        if i >= |predictions| {
          assert objs == Relabel(kept, predictions, labelMap, |predictions|);
          return objs, Some(IndexOutOfBounds);
        }
        var lab := predictions[i];
        var decoded := if lab in labelMap then Some(labelMap[lab]) else None;
        RelabelStep(kept, predictions, labelMap, i);
        objs := objs[i := objs[i].(pathClass := decoded)];
      }
      assert kept == Filter(flat, Propagatable);
      assert objs == Relabel(kept, predictions, labelMap, |kept|);
      thrown := None;
    }
  }

  // ---------------------------------------------------------------------------
  // RandomForestClassifier

  /** A training class matches a class of the list when it derives from it or its name contains the other's. */
  predicate Matches(pc: PathClass, c: PathClass) {
    IsDerivedFrom(pc, c) || Contains(Display(pc), Display(c))
  }

  /** The index of the first class from `k` on that `pc` matches. */
  function FirstMatch(pc: PathClass, classes: seq<PathClass>, k: nat): (r: Option<nat>)
    requires k <= |classes|
    ensures r.Some? ==> k <= r.value < |classes| && Matches(pc, classes[r.value])
    ensures r.Some? ==> forall j :: k <= j < r.value ==> !Matches(pc, classes[j])
    ensures r.None? ==> forall j :: k <= j < |classes| ==> !Matches(pc, classes[j])
    decreases |classes| - k
  {
    if k == |classes| then None
    else if Matches(pc, classes[k]) then Some(k)
    else FirstMatch(pc, classes, k + 1)
  }

  /** The label written for one training object, or none; an unclassified object meets the class loop with null. */
  function LabelOf(p: PathObject, classes: seq<PathClass>): Outcome<Option<nat>> {
    if classes == [] then Returned(None)
    else if p.pathClass.None? then Thrown(NullPointer)
    else Returned(FirstMatch(p.pathClass.value, classes, 0))
  }

  /** `createLabelMatrix(objects)`: one label (or none written) per object, in order. */
  function LabelColumn(objects: seq<PathObject>, classes: seq<PathClass>): Outcome<seq<Option<nat>>> {
    if objects == [] then Returned([])
    else
      match LabelColumn(objects[..|objects| - 1], classes)
      case Thrown(e) => Thrown(e)
      case Returned(init) =>
        match LabelOf(objects[|objects| - 1], classes)
        case Thrown(e) => Thrown(e)
        case Returned(l) => Returned(init + [l])
  }

  /**
    Building the label column throws, and then with a null pointer, exactly when
    there are classes to test and some training object has no class.
   */
  lemma {:induction false} LabelColumnThrows(objects: seq<PathObject>, classes: seq<PathClass>)
    ensures LabelColumn(objects, classes).Thrown? <==>
      classes != [] && exists i :: 0 <= i < |objects| && objects[i].pathClass.None?
    ensures LabelColumn(objects, classes).Thrown? ==> LabelColumn(objects, classes).exception == NullPointer
    decreases |objects|
  {
    if objects != [] {
      var k := |objects| - 1;
      LabelColumnThrows(objects[..k], classes);
      if classes != [] && exists i :: 0 <= i < k && objects[..k][i].pathClass.None? {
        var i :| 0 <= i < k && objects[..k][i].pathClass.None?;
        assert objects[i].pathClass.None?;
      }
      if classes != [] && exists i :: 0 <= i < |objects| && objects[i].pathClass.None? {
        var i :| 0 <= i < |objects| && objects[i].pathClass.None?;
        if i < k {
          assert objects[..k][i].pathClass.None?;
        }
      }
    }
  }

  /**
    Otherwise each classified training object is labelled with the index of the
    first class it matches (see `FirstMatch`), and gets no label when it matches none.
   */
  lemma {:induction false} LabelColumnLabels(objects: seq<PathObject>, classes: seq<PathClass>)
    ensures var r := LabelColumn(objects, classes);
      r.Returned? ==>
        && |r.value| == |objects|
        && forall i :: 0 <= i < |objects| && objects[i].pathClass.Some? ==>
             r.value[i] == FirstMatch(objects[i].pathClass.value, classes, 0)
    decreases |objects|
  {
    if objects != [] {
      var k := |objects| - 1;
      LabelColumnLabels(objects[..k], classes);
      var r := LabelColumn(objects, classes);
      if r.Returned? {
        var init := LabelColumn(objects[..k], classes).value;
        forall i | 0 <= i < k
          ensures r.value[i] == init[i] && objects[i] == objects[..k][i]
        {
        }
      }
    }
  }

  /** The forest's prediction for each feature row, read back through the class list. */
  function Predicted(classes: seq<PathClass>, rows: seq<seq<Double>>, forest: seq<Double> -> int): Outcome<seq<PathClass>> {
    if rows == [] then Returned([])
    else
      match Predicted(classes, rows[..|rows| - 1], forest)
      case Thrown(e) => Thrown(e)
      case Returned(init) =>
        var lab := forest(rows[|rows| - 1]);
        if 0 <= lab < |classes| then Returned(init + [classes[lab]]) else Thrown(IndexOutOfBounds)
  }

  /** `predict` gives one class per row, the class at the forest's label, and throws for a label outside the list. */
  lemma {:induction false} PredictedSpec(classes: seq<PathClass>, rows: seq<seq<Double>>, forest: seq<Double> -> int)
    ensures Predicted(classes, rows, forest).Thrown? <==>
      exists i :: 0 <= i < |rows| && !(0 <= forest(rows[i]) < |classes|)
    ensures Predicted(classes, rows, forest).Thrown? ==> Predicted(classes, rows, forest).exception == IndexOutOfBounds
    ensures var r := Predicted(classes, rows, forest);
      r.Returned? ==> |r.value| == |rows| && forall i :: 0 <= i < |rows| ==> r.value[i] == classes[forest(rows[i])]
    decreases |rows|
  {
    if rows != [] {
      var k := |rows| - 1;
      PredictedSpec(classes, rows[..k], forest);
      if exists i :: 0 <= i < k && !(0 <= forest(rows[..k][i]) < |classes|) {
        var i :| 0 <= i < k && !(0 <= forest(rows[..k][i]) < |classes|);
        assert rows[i] == rows[..k][i];
      }
      if exists i :: 0 <= i < |rows| && !(0 <= forest(rows[i]) < |classes|) {
        var i :| 0 <= i < |rows| && !(0 <= forest(rows[i]) < |classes|);
        if i < k {
          assert rows[..k][i] == rows[i];
        }
      }
    }
  }

  /** `RandomForestClassifier`. */
  class RandomForest {
    const pathClasses: seq<PathClass>
    const featureList: seq<string>
    var trainingSet: seq<PathObject>
    var featureMatrix: seq<seq<Double>>
    var labels: seq<Option<nat>>
    var classProbabilities: Option<nat>   // the probability Mat, by its row count; null before a prediction

    /** Computes the feature rows and labels of the training set; a construction that would throw is excluded. */
    constructor (features: seq<string>, classes: seq<PathClass>, training: seq<PathObject>)
      requires LabelColumn(training, classes).Returned?
      ensures pathClasses == classes && featureList == features && trainingSet == training
      ensures featureMatrix == FeatureRows(features, training)
      ensures labels == LabelColumn(training, classes).value
      ensures classProbabilities == None
    {
      pathClasses := classes;
      featureList := features;
      trainingSet := training;
      classProbabilities := None;
      new;
      featureMatrix := FeatureMatrix(features, training);
      var column := CreateLabelMatrix(training);
      labels := column.value;
    }

    /** `createLabelMatrix`: the class loop with its `break`, writing `indexOf` of the first match. */
    method CreateLabelMatrix(objects: seq<PathObject>) returns (r: Outcome<seq<Option<nat>>>)
      ensures r == LabelColumn(objects, pathClasses)
    {
      var column: seq<Option<nat>> := [];
      for i := 0 to |objects|
        invariant LabelColumn(objects[..i], pathClasses) == Returned(column)
      {
        assert objects[..i + 1][..i] == objects[..i];
        var lab: Option<nat> := None;
        if pathClasses != [] && objects[i].pathClass.None? {
          LabelColumnThrows(objects, pathClasses);
          assert objects[i].pathClass.None?;
          return Thrown(NullPointer);
        }
        if pathClasses != [] {
          var pc := objects[i].pathClass.value;
          var k := 0;
          while k < |pathClasses|
            invariant 0 <= k <= |pathClasses|
            invariant lab.None? ==> FirstMatch(pc, pathClasses, 0) == FirstMatch(pc, pathClasses, k)
            invariant lab.Some? ==> lab == FirstMatch(pc, pathClasses, 0)
            decreases |pathClasses| - k
          {
            var c := pathClasses[k];
            if IsDerivedFrom(pc, c) || Contains(Display(pc), Display(c)) {
              var index := IndexOf(pathClasses, c);
              assert index == k by {
                assert FirstMatch(pc, pathClasses, k) == Some(k);
              }
              lab := Some(index);
              break;
            }
            k := k + 1;
          }
        }
        column := column + [lab];
      }
      assert objects[..|objects|] == objects;
      r := Returned(column);
    }

    /** `addTrainingSamples`: the training set grows, then features and labels are rebuilt from all of it. */
    method AddTrainingSamples(newSamples: seq<PathObject>) returns (thrown: Option<JavaException>)
      modifies this
      ensures trainingSet == old(trainingSet) + newSamples
      ensures featureMatrix == FeatureRows(featureList, trainingSet)
      ensures LabelColumn(trainingSet, pathClasses).Returned? ==>
        labels == LabelColumn(trainingSet, pathClasses).value && thrown == None
      ensures LabelColumn(trainingSet, pathClasses).Thrown? ==>
        labels == old(labels) && thrown == Some(LabelColumn(trainingSet, pathClasses).exception)
      ensures classProbabilities == old(classProbabilities)
    {
      trainingSet := trainingSet + newSamples;
      featureMatrix := FeatureMatrix(featureList, trainingSet);
      var column := CreateLabelMatrix(trainingSet);
      if column.Thrown? {
        return Some(column.exception);
      }
      labels := column.value;
      thrown := None;
    }

    /** `addTrainingSample`: one more sample, then the same rebuild. */
    method AddTrainingSample(sample: PathObject) returns (thrown: Option<JavaException>)
      modifies this
      ensures trainingSet == old(trainingSet) + [sample]
      ensures featureMatrix == FeatureRows(featureList, trainingSet)
      ensures LabelColumn(trainingSet, pathClasses).Returned? ==>
        labels == LabelColumn(trainingSet, pathClasses).value && thrown == None
      ensures LabelColumn(trainingSet, pathClasses).Thrown? ==>
        labels == old(labels) && thrown == Some(LabelColumn(trainingSet, pathClasses).exception)
      ensures classProbabilities == old(classProbabilities)
    {
      trainingSet := trainingSet + [sample];
      featureMatrix := FeatureMatrix(featureList, trainingSet);
      var column := CreateLabelMatrix(trainingSet);
      if column.Thrown? {
        return Some(column.exception);
      }
      labels := column.value;
      thrown := None;
    }

    /** `setFeatureMatrix`: replace the rows, and relabel the training set when asked. */
    method SetFeatureMatrix(matrix: seq<seq<Double>>, recalculateLabels: bool) returns (thrown: Option<JavaException>)
      modifies this
      ensures featureMatrix == matrix && trainingSet == old(trainingSet)
      ensures !recalculateLabels ==> labels == old(labels) && thrown == None
      ensures recalculateLabels && LabelColumn(trainingSet, pathClasses).Returned? ==>
        labels == LabelColumn(trainingSet, pathClasses).value && thrown == None
      ensures recalculateLabels && LabelColumn(trainingSet, pathClasses).Thrown? ==>
        labels == old(labels) && thrown == Some(LabelColumn(trainingSet, pathClasses).exception)
    {
      featureMatrix := matrix;
      thrown := None;
      if recalculateLabels {
        var column := CreateLabelMatrix(trainingSet);
        if column.Thrown? {
          return Some(column.exception);
        }
        labels := column.value;
      }
    }

    /** `getProbabilities()`: the probabilities only for a binary problem, null otherwise. */
    method GetProbabilities() returns (r: Option<nat>)
      ensures |pathClasses| == 2 ==> r == classProbabilities
      ensures |pathClasses| != 2 ==> r == None
    {
      if |pathClasses| == 2 {
        return classProbabilities;
      }
      return None;
    }

    /** `predict(Mat)`: the class of each row; a new probability Mat as tall as the rows. */
    method Predict(rows: seq<seq<Double>>, forest: seq<Double> -> int) returns (r: Outcome<seq<PathClass>>)
      modifies this
      ensures r == Predicted(pathClasses, rows, forest)
      ensures classProbabilities == Some(|rows|)
      ensures trainingSet == old(trainingSet) && labels == old(labels) && featureMatrix == old(featureMatrix)
    {
      classProbabilities := Some(|rows|);
      var results: seq<PathClass> := [];
      for i := 0 to |rows|
        invariant Predicted(pathClasses, rows[..i], forest) == Returned(results)
        invariant trainingSet == old(trainingSet) && labels == old(labels) && featureMatrix == old(featureMatrix)
        invariant classProbabilities == Some(|rows|)
      {
        assert rows[..i + 1][..i] == rows[..i];
        var lab := forest(rows[i]);
        if lab < 0 || lab >= |pathClasses| {
          PredictedSpec(pathClasses, rows, forest);
          assert !(0 <= forest(rows[i]) < |pathClasses|);
          return Thrown(IndexOutOfBounds);
        }
        results := results + [pathClasses[lab]];
      }
      assert rows[..|rows|] == rows;
      r := Returned(results);
    }

    /** `predict(List)`: predict over the objects' feature rows. */
    method PredictObjects(testSet: seq<PathObject>, forest: seq<Double> -> int) returns (r: Outcome<seq<PathClass>>)
      modifies this
      ensures r == Predicted(pathClasses, FeatureRows(featureList, testSet), forest)
      ensures classProbabilities == Some(|testSet|)
    {
      var rows := FeatureMatrix(featureList, testSet);
      r := Predict(rows, forest);
    }

    /** `predictTraining()`. */
    method PredictTraining(forest: seq<Double> -> int) returns (r: Outcome<seq<PathClass>>)
      modifies this
      ensures r == Predicted(pathClasses, FeatureRows(featureList, old(trainingSet)), forest)
    {
      r := PredictObjects(trainingSet, forest);
    }
  }
}
