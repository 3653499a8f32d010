/**
  Confusion-matrix bookkeeping of the classifiers: `ConfusionMatrix`, which
  registers (true class, assigned class) pairs one at a time, and
  `ClassifierStatisticsHelper`, which counts a whole vector of label pairs at once.
  Both are square integer tables; they read the binary outcome cells in opposite
  orientations.
 */
module Confusion {
  import opened Basics
  import opened Domain

  /** An n-by-n table of zeros. */
  function Zero(n: nat): (m: seq<seq<int>>)
    ensures |m| == n && forall i :: 0 <= i < n ==> |m[i]| == n && forall j :: 0 <= j < n ==> m[i][j] == 0
  {
    seq(n, i => seq(n, j => 0))
  }

  /** Every row is as long as the table is high. */
  predicate Square(m: seq<seq<int>>) {
    forall i :: 0 <= i < |m| ==> |m[i]| == |m|
  }

  /** The table with one cell incremented. */
  function Bump(m: seq<seq<int>>, i: nat, j: nat): seq<seq<int>>
    requires i < |m| && j < |m[i]|
  {
    m[i := m[i][j := m[i][j] + 1]]
  }

  /** The sum of a row. */
  function Sum(s: seq<int>): int {
    if s == [] then 0 else Sum(s[..|s| - 1]) + s[|s| - 1]
  }

  /** The sum of all cells. */
  function Total(m: seq<seq<int>>): int {
    if m == [] then 0 else Total(m[..|m| - 1]) + Sum(m[|m| - 1])
  }

  /** Incrementing one entry adds one to the sum. */
  lemma {:induction false} SumBump(s: seq<int>, j: nat)
    requires j < |s|
    ensures Sum(s[j := s[j] + 1]) == Sum(s) + 1
    decreases |s|
  {
    var t := s[j := s[j] + 1];
    if j < |s| - 1 {
      assert t[..|t| - 1] == s[..|s| - 1][j := s[j] + 1];
      SumBump(s[..|s| - 1], j);
    } else {
      assert t[..|t| - 1] == s[..|s| - 1];
    }
  }

  /** Incrementing one cell adds one to the total. */
  lemma {:induction false} TotalBump(m: seq<seq<int>>, i: nat, j: nat)
    requires i < |m| && j < |m[i]|
    ensures Total(Bump(m, i, j)) == Total(m) + 1
    decreases |m|
  {
    var b := Bump(m, i, j);
    if i < |m| - 1 {
      assert b[..|b| - 1] == Bump(m[..|m| - 1], i, j);
      TotalBump(m[..|m| - 1], i, j);
    } else {
      assert b[..|b| - 1] == m[..|m| - 1];
      SumBump(m[i], j);
    }
  }

  /** A row of zeros sums to zero. */
  lemma {:induction false} SumZero(s: seq<int>)
    requires forall j :: 0 <= j < |s| ==> s[j] == 0
    ensures Sum(s) == 0
    decreases |s|
  {
    if s != [] {
      SumZero(s[..|s| - 1]);
    }
  }

  /** A table of zeros totals zero. */
  lemma {:induction false} TotalZero(m: seq<seq<int>>)
    requires forall i, j :: 0 <= i < |m| && 0 <= j < |m[i]| ==> m[i][j] == 0
    ensures Total(m) == 0
    decreases |m|
  {
    if m != [] {
      TotalZero(m[..|m| - 1]);
      SumZero(m[|m| - 1]);
    }
  }

  // ---------------------------------------------------------------------------
  // ConfusionMatrix

  /** The fields of a `ConfusionMatrix`. */
  datatype MatrixState = MatrixState(classes: seq<PathClass>, cells: seq<seq<int>>, errors: int)

  /** The table is as wide and as high as there are classes. */
  predicate Shaped(st: MatrixState) {
    |st.cells| == |st.classes| && Square(st.cells)
  }

  /** A new matrix: the classes in the order given, all cells zero, no errors. */
  function Created(classes: seq<PathClass>): (st: MatrixState)
    ensures Shaped(st)
  {
    MatrixState(classes, Zero(|classes|), 0)
  }

  /** The row of the true class: its first position in the class list, or -1. */
  function TrueIndex(st: MatrixState, trueClass: PathClass): int {
    IndexOf(st.classes, trueClass)
  }

  /** The column of the assigned class; the same class as the true one reuses the row index. */
  function AssignedIndex(st: MatrixState, trueClass: PathClass, assignedClass: PathClass): int {
    if trueClass == assignedClass then TrueIndex(st, trueClass) else IndexOf(st.classes, assignedClass)
  }

  /** `registerClassification(trueClass, assignedClass)`. */
  function Register(st: MatrixState, trueClass: PathClass, assignedClass: PathClass): (r: MatrixState)
    requires Shaped(st)
    ensures Shaped(r)
  {
    var it := TrueIndex(st, trueClass);
    var ia := AssignedIndex(st, trueClass, assignedClass);
    if it < 0 || ia < 0 then st.(errors := st.errors + 1)
    else st.(cells := Bump(st.cells, it, ia))
  }

  /**
    A pair with a class outside the list adds one error and leaves the table
    alone; any other pair adds one to exactly the cell [true class][assigned
    class] and to nothing else.
   */
  lemma RegisterSpec(st: MatrixState, trueClass: PathClass, assignedClass: PathClass)
    requires Shaped(st)
    ensures var r := Register(st, trueClass, assignedClass);
      && r.classes == st.classes
      && ((trueClass !in st.classes || assignedClass !in st.classes) <==> r.errors == st.errors + 1)
      && ((trueClass !in st.classes || assignedClass !in st.classes) ==> r.cells == st.cells)
      && (trueClass in st.classes && assignedClass in st.classes ==>
            var it := IndexOf(st.classes, trueClass);
            var ia := IndexOf(st.classes, assignedClass);
            && r.errors == st.errors
            && st.classes[it] == trueClass && st.classes[ia] == assignedClass
            && r.cells[it][ia] == st.cells[it][ia] + 1
            && (forall i, j :: 0 <= i < |st.cells| && 0 <= j < |st.cells| && (i, j) != (it, ia) ==>
                  r.cells[i][j] == st.cells[i][j]))
  {
  }

  /** Each registration adds one to the cells plus the errors. */
  lemma RegisterCounts(st: MatrixState, trueClass: PathClass, assignedClass: PathClass)
    requires Shaped(st)
    ensures Total(Register(st, trueClass, assignedClass).cells) + Register(st, trueClass, assignedClass).errors ==
            Total(st.cells) + st.errors + 1
  {
    var it := TrueIndex(st, trueClass);
    var ia := AssignedIndex(st, trueClass, assignedClass);
    if it >= 0 && ia >= 0 {
      TotalBump(st.cells, it, ia);
    }
  }

  /** Registering a list of pairs in order. */
  function RegisterAll(st: MatrixState, pairs: seq<(PathClass, PathClass)>): (r: MatrixState)
    requires Shaped(st)
    ensures Shaped(r) && r.classes == st.classes
  {
    if pairs == [] then st
    else
      var last := pairs[|pairs| - 1];
      Register(RegisterAll(st, pairs[..|pairs| - 1]), last.0, last.1)
  }

  /** From a new matrix, the cells plus the errors count the registrations. */
  lemma {:induction false} RegisterAllCounts(classes: seq<PathClass>, pairs: seq<(PathClass, PathClass)>)
    ensures var r := RegisterAll(Created(classes), pairs);
      Total(r.cells) + r.errors == |pairs| && r.errors >= 0
    decreases |pairs|
  {
    if pairs == [] {
      TotalZero(Zero(|classes|));
    } else {
      var init := RegisterAll(Created(classes), pairs[..|pairs| - 1]);
      RegisterAllCounts(classes, pairs[..|pairs| - 1]);
      RegisterCounts(init, pairs[|pairs| - 1].0, pairs[|pairs| - 1].1);
    }
  }

  /** The binary outcome cells as `ConfusionMatrix` reads them: class 0 is positive. */
  function TruePositive(st: MatrixState): int requires Shaped(st) && |st.classes| == 2 { st.cells[0][0] }
  function FalsePositive(st: MatrixState): int requires Shaped(st) && |st.classes| == 2 { st.cells[0][1] }
  function TrueNegative(st: MatrixState): int requires Shaped(st) && |st.classes| == 2 { st.cells[1][1] }
  function FalseNegative(st: MatrixState): int requires Shaped(st) && |st.classes| == 2 { st.cells[1][0] }

  /**
    With two distinct classes, a pair of the first class with itself is a true
    positive, the first assigned the second a false positive, the second with
    itself a true negative, and the second assigned the first a false negative;
    each registration changes only its own count.
   */
  lemma BinaryOutcomes(st: MatrixState)
    requires Shaped(st) && |st.classes| == 2 && st.classes[0] != st.classes[1]
    ensures var (p, n) := (st.classes[0], st.classes[1]);
      && TruePositive(Register(st, p, p)) == TruePositive(st) + 1
      && FalsePositive(Register(st, p, n)) == FalsePositive(st) + 1
      && TrueNegative(Register(st, n, n)) == TrueNegative(st) + 1
      && FalseNegative(Register(st, n, p)) == FalseNegative(st) + 1
      && FalsePositive(Register(st, p, p)) == FalsePositive(st)
      && TrueNegative(Register(st, p, p)) == TrueNegative(st)
      && FalseNegative(Register(st, p, p)) == FalseNegative(st)
  {
    var (p, n) := (st.classes[0], st.classes[1]);
    assert IndexOf(st.classes, p) == 0;
    assert IndexOf(st.classes, n) == 1 by {
      assert st.classes[1..] == [n];
    }
  }

  /** What `getStatistics()` reports: the refusal, or the four binary counts it computes ratios of. */
  datatype StatisticsReport = Refusal(message: string) | BinaryCounts(tp: int, fp: int, tn: int, fn: int)

  /** The refusal message. */
  const NotBinaryMessage := "Could not print stats because not a binary classification."

  /** `getStatistics()`. */
  function Statistics(st: MatrixState): (r: StatisticsReport)
    requires Shaped(st)
    ensures r.Refusal? <==> |st.classes| != 2
    ensures r.Refusal? ==> r.message == NotBinaryMessage
    ensures r.BinaryCounts? ==>
      r.tp == st.cells[0][0] && r.fp == st.cells[0][1] && r.tn == st.cells[1][1] && r.fn == st.cells[1][0]
  {
    if |st.classes| != 2 then Refusal(NotBinaryMessage)
    else BinaryCounts(TruePositive(st), FalsePositive(st), TrueNegative(st), FalseNegative(st))
  }

  /** `ConfusionMatrix`. */
  class ConfusionMatrix {
    const pathClasses: seq<PathClass>
    const matrix: array2<int>
    var errors: int

    /** The cells of the matrix as rows. */
    function Cells(): seq<seq<int>>
      reads matrix
    {
      seq(matrix.Length0, i requires 0 <= i < matrix.Length0 reads matrix =>
        seq(matrix.Length1, j requires 0 <= j < matrix.Length1 reads matrix => matrix[i, j]))
    }

    function State(): MatrixState
      reads this, matrix
    {
      MatrixState(pathClasses, Cells(), errors)
    }

    predicate Valid()
      reads this, matrix
    {
      matrix.Length0 == |pathClasses| && matrix.Length1 == |pathClasses|
    }

    constructor (classes: seq<PathClass>)
      ensures Valid() && fresh(matrix)
      ensures State() == Created(classes)
    {
      pathClasses := classes;
      var n := |classes|;
      matrix := new int[n, n]((i, j) => 0);
      errors := 0;
      new;
      forall i | 0 <= i < n
        ensures Cells()[i] == Zero(n)[i]
      {
      }
      assert Cells() == Zero(n);
    }

    method RegisterClassification(trueClass: PathClass, assignedClass: PathClass)
      requires Valid()
      modifies this, matrix
      ensures Valid()
      ensures State() == Register(old(State()), trueClass, assignedClass)
    {
      var indTrue := IndexOf(pathClasses, trueClass);
      var indAssigned := if trueClass == assignedClass then indTrue else IndexOf(pathClasses, assignedClass);
      if indTrue < 0 || indAssigned < 0 {
        errors := errors + 1;
        return;
      }
      ghost var before := Cells();
      matrix[indTrue, indAssigned] := matrix[indTrue, indAssigned] + 1;
      forall i | 0 <= i < matrix.Length0
        ensures Cells()[i] == Bump(before, indTrue, indAssigned)[i]
      {
      }
      assert Cells() == Bump(before, indTrue, indAssigned);
    }

    method GetStatistics() returns (r: StatisticsReport)
      requires Valid()
      ensures r == Statistics(State())
    {
      if |pathClasses| != 2 {
        return Refusal(NotBinaryMessage);
      }
      r := BinaryCounts(matrix[0, 0], matrix[0, 1], matrix[1, 1], matrix[1, 0]);
    }
  }

  // ---------------------------------------------------------------------------
  // ClassifierStatisticsHelper

  /** A pixel of an 8-bit unsigned Mat. */
  type Pixel8 = b: int | 0 <= b < 256

  /** A label read into a Java `byte` from an 8-bit unsigned Mat: values from 128 up read as negative. */
  function SignedByte(b: Pixel8): int {
    if b < 128 then b else b - 256
  }

  /** Every label pair the loop reads is a valid index: the predictions are long enough and all labels are in [0, n). */
  predicate LabelsFit(truth: seq<Pixel8>, predictions: seq<Pixel8>, n: int) {
    |truth| <= |predictions| &&
    forall i :: 0 <= i < |truth| ==>
      0 <= SignedByte(truth[i]) < n && 0 <= SignedByte(predictions[i]) < n
  }

  /** The count table after the loop has read the first |truth| pairs. */
  function Tallied(n: nat, truth: seq<Pixel8>, predictions: seq<Pixel8>): (m: seq<seq<int>>)
    requires LabelsFit(truth, predictions, n)
    ensures |m| == n && Square(m)
  {
    if truth == [] then Zero(n)
    else
      var k := |truth| - 1;
      Bump(Tallied(n, truth[..k], predictions), SignedByte(truth[k]), SignedByte(predictions[k]))
  }

  /** `calculateConfusionMatrix()`: the count table, or the exception the loop or the allocation throws. */
  function ConfusionCounts(truth: seq<Pixel8>, predictions: seq<Pixel8>, n: int): Outcome<seq<seq<int>>> {
    if n < 0 then Thrown(NegativeArraySize)
    else if !LabelsFit(truth, predictions, n) then Thrown(IndexOutOfBounds)
    else Returned(Tallied(n, truth, predictions))
  }

  /** The number of positions i with true label t and predicted label p. */
  function PairCount(truth: seq<Pixel8>, predictions: seq<Pixel8>, t: int, p: int): nat
    requires |truth| <= |predictions|
  {
    if truth == [] then 0
    else
      var k := |truth| - 1;
      PairCount(truth[..k], predictions, t, p) +
        (if SignedByte(truth[k]) == t && SignedByte(predictions[k]) == p then 1 else 0)
  }

  /** Cell [t][p] counts the positions whose true label is t and whose prediction is p. */
  lemma {:induction false} TalliedCounts(n: nat, truth: seq<Pixel8>, predictions: seq<Pixel8>)
    requires LabelsFit(truth, predictions, n)
    ensures forall t, p :: 0 <= t < n && 0 <= p < n ==>
      Tallied(n, truth, predictions)[t][p] == PairCount(truth, predictions, t, p)
    decreases |truth|
  {
    if truth != [] {
      var k := |truth| - 1;
      assert LabelsFit(truth[..k], predictions, n);
      TalliedCounts(n, truth[..k], predictions);
    }
  }

  /** All cells together count every position once. */
  lemma {:induction false} TalliedTotal(n: nat, truth: seq<Pixel8>, predictions: seq<Pixel8>)
    requires LabelsFit(truth, predictions, n)
    ensures Total(Tallied(n, truth, predictions)) == |truth|
    decreases |truth|
  {
    if truth == [] {
      TotalZero(Zero(n));
    } else {
      var k := |truth| - 1;
      assert LabelsFit(truth[..k], predictions, n);
      TalliedTotal(n, truth[..k], predictions);
      TotalBump(Tallied(n, truth[..k], predictions), SignedByte(truth[k]), SignedByte(predictions[k]));
    }
  }

  /**
    The helper throws exactly when the class count is negative, a prediction is
    missing, or a label (read as a signed byte) is outside [0, n).
   */
  lemma ConfusionCountsThrows(truth: seq<Pixel8>, predictions: seq<Pixel8>, n: int)
    ensures ConfusionCounts(truth, predictions, n).Thrown? <==> n < 0 || !LabelsFit(truth, predictions, n)
    ensures 0 <= n && |truth| > |predictions| ==> ConfusionCounts(truth, predictions, n) == Thrown(IndexOutOfBounds)
    ensures 0 <= n && (exists i :: 0 <= i < |truth| && 128 <= truth[i] < 256) ==>
      ConfusionCounts(truth, predictions, n) == Thrown(IndexOutOfBounds)
  {
  }

  /** The binary outcome cells as the helper reads them: class 1 is positive, the opposite of `ConfusionMatrix`. */
  function HelperTruePositive(m: seq<seq<int>>): int requires |m| == 2 && Square(m) { m[1][1] }
  function HelperFalsePositive(m: seq<seq<int>>): int requires |m| == 2 && Square(m) { m[1][0] }
  function HelperTrueNegative(m: seq<seq<int>>): int requires |m| == 2 && Square(m) { m[0][0] }
  function HelperFalseNegative(m: seq<seq<int>>): int requires |m| == 2 && Square(m) { m[0][1] }

  /**
    For a binary problem the helper's four outcomes count the positions by true
    and predicted label, with label 1 as the positive class, and together they
    count every position.
   */
  lemma HelperBinaryOutcomes(truth: seq<Pixel8>, predictions: seq<Pixel8>)
    requires LabelsFit(truth, predictions, 2)
    ensures var m := Tallied(2, truth, predictions);
      && HelperTruePositive(m) == PairCount(truth, predictions, 1, 1)
      && HelperFalsePositive(m) == PairCount(truth, predictions, 1, 0)
      && HelperTrueNegative(m) == PairCount(truth, predictions, 0, 0)
      && HelperFalseNegative(m) == PairCount(truth, predictions, 0, 1)
      && HelperTruePositive(m) + HelperFalsePositive(m) + HelperTrueNegative(m) + HelperFalseNegative(m) == |truth|
  {
    var m := Tallied(2, truth, predictions);
    TalliedCounts(2, truth, predictions);
    TalliedTotal(2, truth, predictions);
    assert m[..1] == [m[0]] && m[..0] == [];
    assert m[0][..1] == [m[0][0]] && m[0][..0] == [];
    assert m[1][..1] == [m[1][0]] && m[1][..0] == [];
  }

  /** The counting loop of `calculateConfusionMatrix()`, over labels already read from the Mats. */
  method CalculateConfusionMatrix(groundTruth: seq<Pixel8>, predictions: seq<Pixel8>, nClasses: int)
    returns (r: Outcome<seq<seq<int>>>)
    ensures r == ConfusionCounts(groundTruth, predictions, nClasses)
  {
    if nClasses < 0 {
      return Thrown(NegativeArraySize);
    }
    var counts := Zero(nClasses);
    for i := 0 to |groundTruth|
      invariant LabelsFit(groundTruth[..i], predictions, nClasses)
      invariant counts == Tallied(nClasses, groundTruth[..i], predictions)
    {
      var t := SignedByte(groundTruth[i]);
      if t < 0 || t >= nClasses || i >= |predictions| {
        return Thrown(IndexOutOfBounds);
      }
      var p := SignedByte(predictions[i]);
      if p < 0 || p >= nClasses {
        return Thrown(IndexOutOfBounds);
      }
      assert groundTruth[..i + 1][..i] == groundTruth[..i];
      counts := Bump(counts, t, p);
    }
    assert groundTruth[..|groundTruth|] == groundTruth;
    return Returned(counts);
  }
}
