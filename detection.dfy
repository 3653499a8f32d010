/**
  The integer and string rules of the two nucleus-detection plugins
  (`WatershedDetectionFRS` and `ThresholderOpenCV`): the detection-channel
  default, the thresholder-name lookup, the adaptive-method choice, the
  results description, and the two pixel-statistics loops of
  `WatershedDetectionFRS`.

  A `RunningStatistics` is modelled as the list of values added to it; the
  image processing around these rules is not modelled.
 */
module Detection {
  import opened Basics
  import opened Domain

  // ---------------------------------------------------------------------------
  // Parameters

  /** The detection channel used: 0 or a channel past the last one falls back to channel 1. */
  function DetectionChannel(requested: int, nChannels: int): (c: int)
    ensures c == requested || c == 1
    ensures requested == 0 || requested > nChannels ==> c == 1
    ensures 1 <= requested <= nChannels ==> c == requested
  {
    if requested == 0 || requested > nChannels then 1 else requested
  }

  /**
    For an image with channels, a non-negative request always ends on an
    existing channel; a negative request is passed on unchanged.
   */
  lemma DetectionChannelRange(requested: int, nChannels: int)
    requires nChannels >= 1
    ensures requested >= 0 ==> 1 <= DetectionChannel(requested, nChannels) <= nChannels
    ensures requested < 0 ==> DetectionChannel(requested, nChannels) == requested
  {
  }

  /** ImageJ's `AutoThresholder.Method`. */
  datatype AutoMethod =
    | Default | Huang | Intermodes | IsoData | Li | MaxEntropy | Mean | MinError | Minimum
    | Moments | Otsu | Percentile | RenyiEntropy | Shanbhag | Triangle | Yen

  /** The name of each method. */
  function MethodName(m: AutoMethod): string {
    match m
    case Default => "Default"
    case Huang => "Huang"
    case Intermodes => "Intermodes"
    case IsoData => "IsoData"
    case Li => "Li"
    case MaxEntropy => "MaxEntropy"
    case Mean => "Mean"
    case MinError => "MinError"
    case Minimum => "Minimum"
    case Moments => "Moments"
    case Otsu => "Otsu"
    case Percentile => "Percentile"
    case RenyiEntropy => "RenyiEntropy"
    case Shanbhag => "Shanbhag"
    case Triangle => "Triangle"
    case Yen => "Yen"
  }

  /** The switch on the `thresholder` choice; an unknown name selects `Default`. */
  function ThresholderMethod(name: string): AutoMethod {
    match name
    case "Huang" => Huang
    case "Intermodes" => Intermodes
    case "IsoData" => IsoData
    case "Li" => Li
    case "MaxEntropy" => MaxEntropy
    case "Mean" => Mean
    case "MinError" => MinError
    case "Minimum" => Minimum
    case "Moments" => Moments
    case "Otsu" => Otsu
    case "Percentile" => Percentile
    case "RenyiEntropy" => RenyiEntropy
    case "Shanbhag" => Shanbhag
    case "Triangle" => Triangle
    case "Yen" => Yen
    case _ => Default
  }

  /**
    Every method is selected by its own name ("Default" falls through to the
    default case), and a name that is no method's selects `Default`.
   */
  lemma ThresholderMethodSpec(name: string)
    ensures forall m: AutoMethod :: ThresholderMethod(MethodName(m)) == m
    ensures (forall m: AutoMethod :: name != MethodName(m)) ==> ThresholderMethod(name) == Default
    ensures ThresholderMethod(name) != Default ==> MethodName(ThresholderMethod(name)) == name
  {
    if ThresholderMethod(name) != Default {
      assert name == MethodName(ThresholderMethod(name));
    }
  }

  /** OpenCV's `ADAPTIVE_THRESH_MEAN_C` and `ADAPTIVE_THRESH_GAUSSIAN_C`. */
  const AdaptiveThreshMeanC := 0
  const AdaptiveThreshGaussianC := 1

  /** The adaptive method: Gaussian-C for the choice "Gaussian", Mean-C for anything else. */
  function AdaptiveMethod(choice: string): (r: int)
    ensures r == AdaptiveThreshGaussianC <==> choice == "Gaussian"
    ensures r == AdaptiveThreshMeanC <==> choice != "Gaussian"
  {
    if choice == "Gaussian" then AdaptiveThreshGaussianC else AdaptiveThreshMeanC
  }

  // ---------------------------------------------------------------------------
  // Results description

  /**
    `getLastResultsDescription()`: none before a run; "1 nucleus detected" for
    one detection; "n nuclei detected" otherwise, followed by the positive
    percentage (formatted by the caller) when the nuclei are classified.
   */
  function ResultsDescription(detections: Option<nat>, classified: bool, percentText: string): Option<string> {
    match detections
    case None => None
    case Some(n) =>
      if n == 1 then Some("1 nucleus detected")
      else
        var s := NatToString(n) + " nuclei detected";
        if classified then Some(s + " (" + percentText + "% positive)") else Some(s)
  }

  /** The run of digits a string starts with. */
  function LeadingDigits(s: string): (d: string)
    ensures AllDigits(d) && |d| <= |s| && d == s[..|d|]
  {
    if s == [] || !('0' <= s[0] <= '9') then [] else [s[0]] + LeadingDigits(s[1..])
  }

  /** Digits followed by a non-digit are the leading digits. */
  lemma {:induction false} LeadingDigitsOf(d: string, rest: string)
    requires AllDigits(d) && rest != [] && !('0' <= rest[0] <= '9')
    ensures LeadingDigits(d + rest) == d
    decreases |d|
  {
    var s := d + rest;
    if d != [] {
      assert s[0] == d[0] && '0' <= d[0] <= '9';
      assert s[1..] == d[1..] + rest;
      LeadingDigitsOf(d[1..], rest);
      assert LeadingDigits(s) == [d[0]] + LeadingDigits(s[1..]);
      assert [d[0]] + d[1..] == d;
    } else {
      assert s == rest;
    }
  }

  /**
    The description always begins with the count, which reads back as the number
    of detections; it says "nucleus" only for one detection and "nuclei" otherwise.
   */
  lemma ResultsDescriptionSpec(n: nat, classified: bool, percentText: string)
    ensures var r := ResultsDescription(Some(n), classified, percentText);
      && r.Some?
      && ParseDigits(LeadingDigits(r.value)) == n
      && (n == 1 ==> r.value == "1 nucleus detected")
      && (n != 1 ==> StartsWith(r.value, NatToString(n) + " nuclei detected"))
  {
    if n == 1 {
      OneNucleusDescription(classified, percentText);
    } else {
      NucleiDescription(n, classified, percentText);
    }
  }

  /** One detection is described as "1 nucleus detected", which reads back as 1. */
  lemma OneNucleusDescription(classified: bool, percentText: string)
    ensures ResultsDescription(Some(1), classified, percentText) == Some("1 nucleus detected")
    ensures ParseDigits(LeadingDigits("1 nucleus detected")) == 1
  {
    var tail := " nucleus detected";
    assert NatToString(1) == "1";
    assert "1 nucleus detected" == NatToString(1) + tail;
    CountReadsBack(1, tail);
  }

  /** Any other count is rendered first, followed by " nuclei detected". */
  lemma NucleiDescription(n: nat, classified: bool, percentText: string)
    requires n != 1
    ensures var r := ResultsDescription(Some(n), classified, percentText);
      && r.Some?
      && ParseDigits(LeadingDigits(r.value)) == n
      && StartsWith(r.value, NatToString(n) + " nuclei detected")
  {
    var r := ResultsDescription(Some(n), classified, percentText).value;
    var digits := NatToString(n);
    var s := digits + " nuclei detected";
    var tail := if classified then " nuclei detected" + " (" + percentText + "% positive)" else " nuclei detected";
    assert r == digits + tail;
    CountReadsBack(n, tail);
    assert r[..|s|] == s;
  }

  /** A rendered count followed by a non-digit reads back as the count. */
  lemma CountReadsBack(n: nat, tail: string)
    requires tail != [] && !('0' <= tail[0] <= '9')
    ensures ParseDigits(LeadingDigits(NatToString(n) + tail)) == n
  {
    LeadingDigitsOf(NatToString(n), tail);
    NatToStringRoundTrip(n);
  }

  /** Different counts give different descriptions. */
  lemma ResultsDescriptionInjective(m: nat, n: nat, classified: bool, percentText: string)
    requires ResultsDescription(Some(m), classified, percentText) == ResultsDescription(Some(n), classified, percentText)
    ensures m == n
  {
    ResultsDescriptionSpec(m, classified, percentText);
    ResultsDescriptionSpec(n, classified, percentText);
  }

  // ---------------------------------------------------------------------------
  // Running statistics by label

  /**
    The first `n` pixels of `computeRunningStatistics(pxIntensities, pxLabels,
    statsList)`: pixel i goes to the statistics of its label; labels 0 and past
    the last statistics are skipped; a negative label (or a missing one) throws,
    keeping what was added so far.
   */
  function RoutedUpTo(stats: seq<seq<Double>>, intensities: seq<Double>, labels: seq<int>, n: nat)
    : (r: (seq<seq<Double>>, Option<JavaException>))
    requires n <= |intensities|
    ensures |r.0| == |stats|
  {
    if n == 0 then (stats, None)
    else
      var (s, thrown) := RoutedUpTo(stats, intensities, labels, n - 1);
      if thrown.Some? then (s, thrown)
      else if n - 1 >= |labels| then (s, Some(IndexOutOfBounds))
      else
        var lab := labels[n - 1];
        if lab == 0 || lab > |stats| then (s, None)
        else if lab < 0 then (s, Some(IndexOutOfBounds))
        else (s[lab - 1 := s[lab - 1] + [intensities[n - 1]]], None)
  }

  /** The whole loop. */
  function Routed(stats: seq<seq<Double>>, intensities: seq<Double>, labels: seq<int>): (seq<seq<Double>>, Option<JavaException>) {
    RoutedUpTo(stats, intensities, labels, |intensities|)
  }

  /** The intensities of the first `n` pixels labelled `lab`, in pixel order. */
  function Selected(intensities: seq<Double>, labels: seq<int>, lab: int, n: nat): seq<Double>
    requires n <= |intensities| && n <= |labels|
  {
    if n == 0 then []
    else Selected(intensities, labels, lab, n - 1) + (if labels[n - 1] == lab then [intensities[n - 1]] else [])
  }

  /** A pixel the loop cannot route: its label is missing or negative. */
  predicate Unroutable(labels: seq<int>, i: nat) {
    i >= |labels| || labels[i] < 0
  }

  /**
    The loop throws, an index-out-of-bounds, exactly when some pixel is
    unroutable; otherwise the statistics of label k gain the intensities of the
    pixels labelled k, each once and in pixel order.
   */
  lemma {:induction false} RoutedUpToSpec(stats: seq<seq<Double>>, intensities: seq<Double>, labels: seq<int>, n: nat)
    requires n <= |intensities|
    ensures var (s, thrown) := RoutedUpTo(stats, intensities, labels, n);
      && (thrown.Some? <==> exists i: nat :: i < n && Unroutable(labels, i))
      && (thrown.Some? ==> thrown.value == IndexOutOfBounds)
      && (thrown.None? ==> n <= |labels|)
      && (thrown.None? ==> forall lab :: 1 <= lab <= |stats| ==>
            s[lab - 1] == stats[lab - 1] + Selected(intensities, labels, lab, n))
    decreases n
  {
    if n > 0 {
      RoutedUpToSpec(stats, intensities, labels, n - 1);
      var (s, thrown) := RoutedUpTo(stats, intensities, labels, n - 1);
      if thrown.None? {
        if n - 1 < |labels| {
          var lab := labels[n - 1];
          if lab < 0 {
            assert Unroutable(labels, n - 1);
          } else {
            forall i: nat | i < n
              ensures !Unroutable(labels, i)
            {
            }
          }
        } else {
          assert Unroutable(labels, n - 1);
        }
      } else {
        var i: nat :| i < n - 1 && Unroutable(labels, i);
      }
    }
  }

  /** Once the loop has thrown, the later pixels change nothing. */
  lemma {:induction false} RoutedStays(stats: seq<seq<Double>>, intensities: seq<Double>, labels: seq<int>, i: nat, n: nat)
    requires i <= n <= |intensities| && RoutedUpTo(stats, intensities, labels, i).1.Some?
    ensures RoutedUpTo(stats, intensities, labels, n) == RoutedUpTo(stats, intensities, labels, i)
    decreases n
  {
    if n > i {
      RoutedStays(stats, intensities, labels, i, n - 1);
    }
  }

  /** The statistics of the whole loop. */
  lemma RoutedSpec(stats: seq<seq<Double>>, intensities: seq<Double>, labels: seq<int>)
    ensures var (s, thrown) := Routed(stats, intensities, labels);
      && |s| == |stats|
      && (thrown.Some? <==> exists i: nat :: i < |intensities| && Unroutable(labels, i))
      && (thrown.Some? ==> thrown.value == IndexOutOfBounds)
      && (thrown.None? ==> forall lab :: 1 <= lab <= |stats| ==>
            s[lab - 1] == stats[lab - 1] + Selected(intensities, labels, lab, |intensities|))
  {
    RoutedUpToSpec(stats, intensities, labels, |intensities|);
  }

  /**
    `computeRunningStatistics(pxIntensities, pxLabels, statsList)`, with its
    cached `stats` and `lastLabel` (`None` for the initial NaN).
   */
  method ComputeRunningStatistics(pxIntensities: seq<Double>, pxLabels: seq<int>, statsList: array<seq<Double>>)
    returns (thrown: Option<JavaException>)
    modifies statsList
    ensures (statsList[..], thrown) == Routed(old(statsList[..]), pxIntensities, pxLabels)
  {
    var lastLabel: Option<int> := None;
    var nLabels := statsList.Length;
    var stats := 0;
    for i := 0 to |pxIntensities|
      invariant (statsList[..], None) == RoutedUpTo(old(statsList[..]), pxIntensities, pxLabels, i)
      invariant lastLabel.Some? ==> 1 <= lastLabel.value <= nLabels && stats == lastLabel.value - 1
    {
      if i >= |pxLabels| {
        RoutedStays(old(statsList[..]), pxIntensities, pxLabels, i + 1, |pxIntensities|);
        return Some(IndexOutOfBounds);
      }
      var lab := pxLabels[i];
      if lab == 0 || lab > nLabels {
        continue;
      }
      if lastLabel != Some(lab) {
        if lab - 1 < 0 {
          RoutedStays(old(statsList[..]), pxIntensities, pxLabels, i + 1, |pxIntensities|);
          return Some(IndexOutOfBounds);
        }
        stats := lab - 1;
        lastLabel := Some(lab);
      }
      statsList[stats] := statsList[stats] + [pxIntensities[i]];
    }
    thrown := None;
  }

  // ---------------------------------------------------------------------------
  // Running statistics under a mask

  /** OpenCV's `Rect`: the bounding box of the mask within the image. */
  datatype Rect = Rect(x: int, y: int, width: int, height: int)

  /**
    The image index read for mask pixel `i`: column `i % width + x` and, as
    written, row `i % width + y`; the intended row is `i / width + y`. For the
    non-negative `i` here Java's `%` and `/` agree with the ones used here.
   */
  function MaskIndex(i: nat, imageWidth: int, b: Rect, asWritten: bool): int
    requires b.width != 0
  {
    var x := i % b.width + b.x;
    var y := if asWritten then i % b.width + b.y else i / b.width + b.y;
    y * imageWidth + x
  }

  /**
    The first `n` mask pixels of `computeRunningStatistics(pxIntensities,
    pxMask, width, bounds)`: the values added, and the exception that ends the
    loop (a zero-width box divides by zero, an index off the image is out of range).
   */
  function MaskedUpTo(intensities: seq<Double>, mask: seq<bv8>, imageWidth: int, b: Rect, asWritten: bool, n: nat)
    : (seq<Double>, Option<JavaException>)
    requires n <= |mask|
  {
    if n == 0 then ([], None)
    else
      var (vs, thrown) := MaskedUpTo(intensities, mask, imageWidth, b, asWritten, n - 1);
      if thrown.Some? || mask[n - 1] == 0 then (vs, thrown)
      else if b.width == 0 then (vs, Some(Arithmetic))
      else
        var k := MaskIndex(n - 1, imageWidth, b, asWritten);
        if 0 <= k < |intensities| then (vs + [intensities[k]], None) else (vs, Some(IndexOutOfBounds))
  }

  /** The loop over the whole mask. */
  function Masked(intensities: seq<Double>, mask: seq<bv8>, imageWidth: int, b: Rect, asWritten: bool)
    : (seq<Double>, Option<JavaException>)
  {
    MaskedUpTo(intensities, mask, imageWidth, b, asWritten, |mask|)
  }

  /** Once the loop has thrown, the later mask pixels change nothing. */
  lemma {:induction false} MaskedStays(intensities: seq<Double>, mask: seq<bv8>, imageWidth: int, b: Rect, asWritten: bool, i: nat, n: nat)
    requires i <= n <= |mask| && MaskedUpTo(intensities, mask, imageWidth, b, asWritten, i).1.Some?
    ensures MaskedUpTo(intensities, mask, imageWidth, b, asWritten, n) == MaskedUpTo(intensities, mask, imageWidth, b, asWritten, i)
    decreases n
  {
    if n > i {
      MaskedStays(intensities, mask, imageWidth, b, asWritten, i, n - 1);
    }
  }

  /** `computeRunningStatistics(pxIntensities, pxMask, width, bounds)` as written. */
  method ComputeMaskedStatistics(pxIntensities: seq<Double>, pxMask: seq<bv8>, width: int, bounds: Rect)
    returns (stats: seq<Double>, thrown: Option<JavaException>)
    ensures (stats, thrown) == Masked(pxIntensities, pxMask, width, bounds, true)
  {
    stats := [];
    for i := 0 to |pxMask|
      invariant (stats, None) == MaskedUpTo(pxIntensities, pxMask, width, bounds, true, i)
    {
      if pxMask[i] == 0 {
        continue;
      }
      if bounds.width == 0 {
        MaskedStays(pxIntensities, pxMask, width, bounds, true, i + 1, |pxMask|);
        return stats, Some(Arithmetic);
      }
      var x := i % bounds.width + bounds.x;
      var y := i % bounds.width + bounds.y;
      if !(0 <= y * width + x < |pxIntensities|) {
        MaskedStays(pxIntensities, pxMask, width, bounds, true, i + 1, |pxMask|);
        return stats, Some(IndexOutOfBounds);
      }
      stats := stats + [pxIntensities[y * width + x]];
    }
    thrown := None;
  }

  /** The intensities of the first `n` pixels whose mask byte is set, in pixel order. */
  function MaskSelected(intensities: seq<Double>, mask: seq<bv8>, n: nat): seq<Double>
    requires n <= |mask| && n <= |intensities|
  {
    if n == 0 then []
    else MaskSelected(intensities, mask, n - 1) + (if mask[n - 1] != 0 then [intensities[n - 1]] else [])
  }

  /**
    With the intended row, a mask whose box is the whole image (at the origin,
    as wide as the image) reads the intensity of each set mask pixel itself, in
    order, without an exception.
   */
  lemma {:induction false} MaskedWholeImage(intensities: seq<Double>, mask: seq<bv8>, imageWidth: int, height: int, n: nat)
    requires imageWidth > 0 && n <= |mask| <= |intensities|
    ensures MaskedUpTo(intensities, mask, imageWidth, Rect(0, 0, imageWidth, height), false, n) ==
      (MaskSelected(intensities, mask, n), None)
    decreases n
  {
    if n > 0 {
      MaskedWholeImage(intensities, mask, imageWidth, height, n - 1);
      var i := n - 1;
      var box := Rect(0, 0, imageWidth, height);
      assert i / imageWidth * imageWidth + i % imageWidth == i;
      assert MaskIndex(i, imageWidth, box, false) == i;
      var prev := MaskedUpTo(intensities, mask, imageWidth, box, false, i);
      assert prev == (MaskSelected(intensities, mask, i), None);
      if mask[i] != 0 {
        assert MaskedUpTo(intensities, mask, imageWidth, box, false, n) == (prev.0 + [intensities[i]], None);
      } else {
        assert MaskedUpTo(intensities, mask, imageWidth, box, false, n) == prev;
        assert MaskSelected(intensities, mask, i) + [] == MaskSelected(intensities, mask, i);
      }
    }
  }

  /** One set mask pixel whose index is on the image adds its intensity. */
  lemma MaskedStep(intensities: seq<Double>, mask: seq<bv8>, imageWidth: int, b: Rect, asWritten: bool, n: nat)
    requires n < |mask| && mask[n] != 0 && b.width != 0
    requires MaskedUpTo(intensities, mask, imageWidth, b, asWritten, n).1.None?
    requires 0 <= MaskIndex(n, imageWidth, b, asWritten) < |intensities|
    ensures MaskedUpTo(intensities, mask, imageWidth, b, asWritten, n + 1) ==
      (MaskedUpTo(intensities, mask, imageWidth, b, asWritten, n).0 + [intensities[MaskIndex(n, imageWidth, b, asWritten)]], None)
  {
  }

  /** The four pixels of the counterexample: a 2 x 2 image with intensities 1 to 4. */
  const SquareIntensities: seq<Double> := [Num(1.0), Num(2.0), Num(3.0), Num(4.0)]

  /**
    As written, a 2 x 2 box covering a 2 x 2 image with every mask byte set reads
    pixels 0, 3, 0, 3 (its row is the column again).
   */
  lemma MaskedAsWrittenMisreads()
    ensures Masked(SquareIntensities, [1, 1, 1, 1], 2, Rect(0, 0, 2, 2), true) ==
      ([Num(1.0), Num(4.0), Num(1.0), Num(4.0)], None)
  {
    var mask: seq<bv8> := [1, 1, 1, 1];
    var box := Rect(0, 0, 2, 2);
    var p0 := MaskedUpTo(SquareIntensities, mask, 2, box, true, 0);
    assert p0.0 == [] && p0.1 == None;
    assert MaskIndex(0, 2, box, true) == 0;
    MaskedStep(SquareIntensities, mask, 2, box, true, 0);
    var p1 := MaskedUpTo(SquareIntensities, mask, 2, box, true, 1);
    assert p1.0 == [Num(1.0)] && p1.1 == None;
    assert MaskIndex(1, 2, box, true) == 3;
    MaskedStep(SquareIntensities, mask, 2, box, true, 1);
    var p2 := MaskedUpTo(SquareIntensities, mask, 2, box, true, 2);
    assert p2.0 == [Num(1.0), Num(4.0)] && p2.1 == None;
    assert MaskIndex(2, 2, box, true) == 0;
    MaskedStep(SquareIntensities, mask, 2, box, true, 2);
    var p3 := MaskedUpTo(SquareIntensities, mask, 2, box, true, 3);
    assert p3.0 == [Num(1.0), Num(4.0), Num(1.0)] && p3.1 == None;
    assert MaskIndex(3, 2, box, true) == 3;
    MaskedStep(SquareIntensities, mask, 2, box, true, 3);
    var p4 := MaskedUpTo(SquareIntensities, mask, 2, box, true, 4);
    assert p4.0 == [Num(1.0), Num(4.0), Num(1.0), Num(4.0)] && p4.1 == None;
  }

  /** With the intended row the same input reads pixels 0, 1, 2, 3. */
  lemma MaskedIntendedReadsAll()
    ensures Masked(SquareIntensities, [1, 1, 1, 1], 2, Rect(0, 0, 2, 2), false) == (SquareIntensities, None)
  {
    var mask: seq<bv8> := [1, 1, 1, 1];
    MaskedWholeImage(SquareIntensities, mask, 2, 2, 4);
    var r := MaskedUpTo(SquareIntensities, mask, 2, Rect(0, 0, 2, 2), false, 4);
    assert MaskSelected(SquareIntensities, mask, 0) == [];
    assert MaskSelected(SquareIntensities, mask, 1) == [Num(1.0)];
    assert MaskSelected(SquareIntensities, mask, 2) == [Num(1.0), Num(2.0)];
    assert MaskSelected(SquareIntensities, mask, 3) == [Num(1.0), Num(2.0), Num(3.0)];
    assert MaskSelected(SquareIntensities, mask, 4) == SquareIntensities;
    assert r.0 == SquareIntensities && r.1 == None;
  }
}
