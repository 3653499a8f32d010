/**
  The QuPath entities the extension works on, as values: class probabilities
  compared the way `java.lang.Double.compare` compares them, classifications
  with their parent chain, path objects (detections, annotations, the root) and
  the forward-only iterators the servers hand out.
 */
module Domain {
  import opened Basics

  /** A Java `double` as far as `Double.compare` can tell values apart: a number or NaN. */
  datatype Double = Num(v: real) | NaN

  /**
    `java.lang.Double.compare`: numeric order on numbers, NaN equal to itself and
    greater than every number.
   */
  function Compare(a: Double, b: Double): (c: int)
    ensures -1 <= c <= 1
    ensures c == 0 <==> a == b
    ensures a == NaN && b != NaN ==> c == 1
  {
    match (a, b)
    case (NaN, NaN) => 0
    case (NaN, Num(_)) => 1
    case (Num(_), NaN) => -1
    case (Num(x), Num(y)) => if x < y then -1 else if x == y then 0 else 1
  }

  /** `a` may come before `b` in an ascending sort by `Double.compare`. */
  predicate NotAfter(a: Double, b: Double) {
    Compare(a, b) <= 0
  }

  /** Swapping the arguments negates the comparison. */
  lemma CompareAntisymmetric(a: Double, b: Double)
    ensures Compare(a, b) == -Compare(b, a)
  {
  }

  /** Any two values are ordered one way or the other. */
  lemma NotAfterTotal(a: Double, b: Double)
    ensures NotAfter(a, b) || NotAfter(b, a)
  {
  }

  /** The comparison is transitive, so it is a total order Java's sort may rely on. */
  lemma NotAfterTransitive(a: Double, b: Double, c: Double)
    requires NotAfter(a, b) && NotAfter(b, c)
    ensures NotAfter(a, c)
  {
  }

  /** NaN is the greatest value: in an ascending sort it goes last. */
  lemma NaNIsGreatest(a: Double)
    ensures NotAfter(a, NaN)
    ensures NotAfter(NaN, a) ==> a == NaN
  {
  }

  /** A QuPath classification: a name under an optional parent classification. */
  datatype PathClass = PathClass(name: string, parent: Option<PathClass>)

  /** The base classification named "Image" that several filters refuse. */
  const ImageClass := PathClass("Image", None)

  /** `c.isDerivedFrom(ancestor)`: `ancestor` is `c` itself or on its parent chain. */
  predicate IsDerivedFrom(c: PathClass, ancestor: PathClass)
    decreases c
  {
    c == ancestor || (c.parent.Some? && IsDerivedFrom(c.parent.value, ancestor))
  }

  /** `c.toString()`: the parent's rendering, then ": ", then the name. */
  function Display(c: PathClass): string
    decreases c
  {
    if c.parent.Some? then Display(c.parent.value) + ": " + c.name else c.name
  }

  /** The kinds of path object the modelled code tells apart. */
  datatype ObjectKind = Detection | Annotation | Root

  /** A position in image space; two centroids are equal when their coordinates are. */
  datatype Point = Point(x: real, y: real)

  /** A region of interest: whether it is a points ROI, and its centroid. */
  datatype Roi = Roi(isPoints: bool, centroid: Point)

  /** One named entry of an object's measurement list. */
  datatype Measurement = Measurement(name: string, value: Double)

  /**
    A path object. `id` stands for the Java reference: two objects with equal
    fields but different ids are different objects.
   */
  datatype PathObject = PathObject(
    id: nat,
    kind: ObjectKind,
    pathClass: Option<PathClass>,
    probability: Double,
    roi: Roi,
    measurements: seq<Measurement>)

  /** The measurement names of an object, in measurement-list order. */
  function MeasurementNames(ms: seq<Measurement>): (names: seq<string>)
    ensures |names| == |ms|
    ensures forall i :: 0 <= i < |ms| ==> names[i] == ms[i].name
  {
    if ms == [] then [] else [ms[0].name] + MeasurementNames(ms[1..])
  }

  /** `containsNamedMeasurement(name)`. */
  predicate HasMeasurement(ms: seq<Measurement>, name: string) {
    name in MeasurementNames(ms)
  }

  /** `getMeasurementValue(name)`: the first entry with that name, NaN when there is none. */
  function MeasurementValue(ms: seq<Measurement>, name: string): Double {
    if ms == [] then NaN
    else if ms[0].name == name then ms[0].value
    else MeasurementValue(ms[1..], name)
  }

  /** A missing measurement reads as NaN; a present one as the value of its first entry with that name. */
  lemma {:induction false} MeasurementValueSpec(ms: seq<Measurement>, name: string)
    ensures !HasMeasurement(ms, name) ==> MeasurementValue(ms, name) == NaN
    ensures HasMeasurement(ms, name) ==> MeasurementValue(ms, name) == ms[IndexOf(MeasurementNames(ms), name)].value
  {
    if ms != [] {
      MeasurementValueSpec(ms[1..], name);
      var names := MeasurementNames(ms);
      assert names == [ms[0].name] + MeasurementNames(ms[1..]);
      assert names[1..] == MeasurementNames(ms[1..]);
    }
  }

  /** The values of a measurement list, in order. */
  function Values(ms: seq<Measurement>): (vs: seq<Double>)
    ensures |vs| == |ms| && forall i :: 0 <= i < |ms| ==> vs[i] == ms[i].value
  {
    if ms == [] then [] else Values(ms[..|ms| - 1]) + [ms[|ms| - 1].value]
  }

  /** The values of a list of measurements are the values of its parts, in order. */
  lemma ValuesConcat(a: seq<Measurement>, b: seq<Measurement>)
    ensures Values(a + b) == Values(a) + Values(b)
  {
  }

  /**
    A Java iterator over a list that is not modified while the iterator lives:
    the list and the index of the next element.
   */
  datatype Cursor<T> = Cursor(items: seq<T>, pos: nat) {
    predicate HasNext() {
      pos < |items|
    }

    function Next(): T
      requires HasNext()
    {
      items[pos]
    }

    function Advanced(): Cursor<T> {
      Cursor(items, pos + 1)
    }
  }

  /** `list.iterator()`: a cursor at the front. */
  function Fresh<T>(items: seq<T>): Cursor<T> {
    Cursor(items, 0)
  }
}
