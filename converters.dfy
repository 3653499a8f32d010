/**
  The ImageJ / OpenCV image converters: an ImageJ processor becomes an OpenCV
  `Mat` of the matching type and back.

  An ImageJ processor is its width, height and pixel array; a `Mat` is its row
  and column counts, its type and its element data. 8-bit, 16-bit and float
  images are copied unchanged; an RGB image is split into three bytes per pixel
  (red, green, blue) on the way in and packed back into one `int` on the way
  out, which loses the top (alpha) byte. Java `int`s are 32-bit vectors and Java
  `byte`s 8-bit vectors, so the shifts and masks are the source's own.
 */
module Converters {
  import opened Basics
  import opened Domain

  // ---------------------------------------------------------------------------
  // Images

  /** An ImageJ processor; `OtherProcessor` stands for any other subclass. */
  datatype ImageProcessor =
    | ByteProcessor(width: nat, height: nat, bytes: seq<bv8>)
    | ColorProcessor(width: nat, height: nat, ints: seq<bv32>)
    | ShortProcessor(width: nat, height: nat, shorts: seq<bv16>)
    | FloatProcessor(width: nat, height: nat, floats: seq<Double>)
    | OtherProcessor(width: nat, height: nat)

  /** An ImageJ processor holds one pixel per position of its image. */
  predicate ProcessorShaped(ip: ImageProcessor) {
    match ip
    case ByteProcessor(w, h, px) => |px| == w * h
    case ColorProcessor(w, h, px) => |px| == w * h
    case ShortProcessor(w, h, px) => |px| == w * h
    case FloatProcessor(w, h, px) => |px| == w * h
    case OtherProcessor(_, _) => true
  }

  type Processor = ip: ImageProcessor | ProcessorShaped(ip) witness OtherProcessor(0, 0)

  /** The OpenCV types the converters know, and any other one. */
  datatype CvType = CV_8UC1 | CV_8UC3 | CV_16UC1 | CV_32FC1 | OtherType(code: int)

  /** A `Mat`'s element data, by element kind. */
  datatype MatData = Bytes(bytes: seq<bv8>) | Shorts(shorts: seq<bv16>) | Floats(floats: seq<Double>)

  datatype RawMat = Mat(rows: nat, cols: nat, cvType: CvType, data: MatData)

  /** A `Mat` of a known type holds elements of its kind, as many as its rows, columns and channels. */
  predicate MatShaped(m: RawMat) {
    match m.cvType
    case CV_8UC1 => m.data.Bytes? && |m.data.bytes| == m.rows * m.cols
    case CV_8UC3 => m.data.Bytes? && |m.data.bytes| == m.rows * m.cols * 3
    case CV_16UC1 => m.data.Shorts? && |m.data.shorts| == m.rows * m.cols
    case CV_32FC1 => m.data.Floats? && |m.data.floats| == m.rows * m.cols
    case OtherType(_) => true
  }

  type Mat = m: RawMat | MatShaped(m) witness Mat(0, 0, CV_8UC1, Bytes([]))

  // ---------------------------------------------------------------------------
  // RGB pixels

  /** `(byte) ((p >> 16) & 0xFF)`. */
  function Red(p: bv32): bv8 {
    ((p >> 16) & 0xFF) as bv8
  }

  /** `(byte) ((p >> 8) & 0xFF)`. */
  function Green(p: bv32): bv8 {
    ((p >> 8) & 0xFF) as bv8
  }

  /** `(byte) (p & 0xFF)`. */
  function Blue(p: bv32): bv8 {
    (p & 0xFF) as bv8
  }

  /** `(red & 0xff) << 16 | (grn & 0xff) << 8 | (blu & 0xff)`. */
  function Rgb(red: bv8, grn: bv8, blu: bv8): bv32 {
    (red as bv32 << 16) | (grn as bv32 << 8) | blu as bv32
  }

  /** Byte `k` (0 red, 1 green, 2 blue) of a pixel. */
  function Channel(p: bv32, k: nat): bv8
    requires k < 3
  {
    if k == 0 then Red(p) else if k == 1 then Green(p) else Blue(p)
  }

  /** Splitting a pixel and packing the bytes back gives the pixel without its alpha byte. */
  lemma PixelRoundTrip(p: bv32)
    ensures Rgb(Red(p), Green(p), Blue(p)) == p & 0xFF_FFFF
  {
  }

  /** Packing three bytes and splitting the pixel gives the three bytes back. */
  lemma BytesRoundTrip(red: bv8, grn: bv8, blu: bv8)
    ensures Red(Rgb(red, grn, blu)) == red && Green(Rgb(red, grn, blu)) == grn && Blue(Rgb(red, grn, blu)) == blu
  {
  }

  /** The byte data `toMat(ColorProcessor)` builds: three bytes per pixel, in pixel order. */
  function Unpacked(ps: seq<bv32>): (bs: seq<bv8>)
    ensures |bs| == 3 * |ps|
  {
    seq(3 * |ps|, j requires 0 <= j < 3 * |ps| => Channel(ps[j / 3], j % 3))
  }

  /** The pixels `makeColorProcessor` builds from the first `3 * n` bytes. */
  function Packed(bs: seq<bv8>, n: nat): (ps: seq<bv32>)
    requires 3 * n <= |bs|
    ensures |ps| == n
  {
    seq(n, i requires 0 <= i < n => Rgb(bs[3 * i], bs[3 * i + 1], bs[3 * i + 2]))
  }

  /** Each pixel gives its red, green and blue bytes, at `3i`, `3i + 1` and `3i + 2`. */
  lemma UnpackedLayout(ps: seq<bv32>, i: nat)
    requires i < |ps|
    ensures Unpacked(ps)[3 * i] == Red(ps[i])
    ensures Unpacked(ps)[3 * i + 1] == Green(ps[i])
    ensures Unpacked(ps)[3 * i + 2] == Blue(ps[i])
  {
    assert (3 * i) / 3 == i && (3 * i + 1) / 3 == i && (3 * i + 2) / 3 == i;
  }

  /** Unpacking then packing keeps each pixel's low 24 bits and drops its alpha byte. */
  lemma UnpackPackRoundTrip(ps: seq<bv32>)
    ensures Packed(Unpacked(ps), |ps|) == seq(|ps|, i requires 0 <= i < |ps| => ps[i] & 0xFF_FFFF)
  {
    forall i | 0 <= i < |ps|
      ensures Packed(Unpacked(ps), |ps|)[i] == ps[i] & 0xFF_FFFF
    {
      UnpackedLayout(ps, i);
      PixelRoundTrip(ps[i]);
    }
  }

  /** Packing then unpacking gives the bytes back. */
  lemma PackUnpackRoundTrip(bs: seq<bv8>, n: nat)
    requires |bs| == 3 * n
    ensures Unpacked(Packed(bs, n)) == bs
  {
    var ps := Packed(bs, n);
    forall j | 0 <= j < |bs|
      ensures Unpacked(ps)[j] == bs[j]
    {
      var i := j / 3;
      assert 3 * i + j % 3 == j;
      BytesRoundTrip(bs[3 * i], bs[3 * i + 1], bs[3 * i + 2]);
    }
  }

  /** The loop of `toMat(ColorProcessor)` over the pixel array. */
  method UnpackPixels(pixels: seq<bv32>) returns (bData: array<bv8>)
    ensures fresh(bData) && bData[..] == Unpacked(pixels)
  {
    bData := new bv8[3 * |pixels|];
    for i := 0 to |pixels|
      invariant forall j :: 0 <= j < 3 * i ==> bData[j] == Channel(pixels[j / 3], j % 3)
    {
      bData[i * 3 + 0] := Red(pixels[i]);
      bData[i * 3 + 1] := Green(pixels[i]);
      bData[i * 3 + 2] := Blue(pixels[i]);
    }
  }

  /** The loop of `makeColorProcessor` over the first `n` pixels. */
  method PackPixels(pixels: array<bv8>, n: nat) returns (iData: array<bv32>)
    requires 3 * n <= pixels.Length
    ensures fresh(iData) && iData[..] == Packed(pixels[..], n)
  {
    iData := new bv32[n];
    for i := 0 to n
      invariant forall k :: 0 <= k < i ==> iData[k] == Rgb(pixels[3 * k], pixels[3 * k + 1], pixels[3 * k + 2])
    {
      var red := pixels[i * 3 + 0];
      var grn := pixels[i * 3 + 1];
      var blu := pixels[i * 3 + 2];
      iData[i] := Rgb(red, grn, blu);
    }
  }

  // ---------------------------------------------------------------------------
  // ImagePlusToMatConverter

  /** `toMat(ImageProcessor)`: an `h`-row, `w`-column `Mat` of the processor's kind; other processors are refused. */
  function ToMat(ip: Processor): (r: Outcome<Mat>)
    ensures r.Thrown? <==> ip.OtherProcessor?
    ensures r.Thrown? ==> r.exception == IllegalArgument
    ensures r.Returned? ==> r.value.rows == ip.height && r.value.cols == ip.width
  {
    match ip
    case ByteProcessor(w, h, px) => Returned(Mat(h, w, CV_8UC1, Bytes(px)))
    case ColorProcessor(w, h, px) => Returned(Mat(h, w, CV_8UC3, Bytes(Unpacked(px))))
    case ShortProcessor(w, h, px) => Returned(Mat(h, w, CV_16UC1, Shorts(px)))
    case FloatProcessor(w, h, px) => Returned(Mat(h, w, CV_32FC1, Floats(px)))
    case OtherProcessor(_, _) => Thrown(IllegalArgument)
  }

  /**
    The type follows the processor: 8-bit to `CV_8UC1`, RGB to `CV_8UC3` with the
    red, green and blue byte of each pixel in turn, 16-bit to `CV_16UC1` and
    float to `CV_32FC1`, single-channel data copied unchanged.
   */
  lemma ToMatTypes(ip: Processor)
    ensures ip.ByteProcessor? ==> ToMat(ip).value.cvType == CV_8UC1 && ToMat(ip).value.data == Bytes(ip.bytes)
    ensures ip.ShortProcessor? ==> ToMat(ip).value.cvType == CV_16UC1 && ToMat(ip).value.data == Shorts(ip.shorts)
    ensures ip.FloatProcessor? ==> ToMat(ip).value.cvType == CV_32FC1 && ToMat(ip).value.data == Floats(ip.floats)
    ensures ip.ColorProcessor? ==>
      && ToMat(ip).value.cvType == CV_8UC3
      && |ToMat(ip).value.data.bytes| == 3 * ip.width * ip.height
      && forall i :: 0 <= i < |ip.ints| ==>
           ToMat(ip).value.data.bytes[3 * i] == Red(ip.ints[i]) &&
           ToMat(ip).value.data.bytes[3 * i + 1] == Green(ip.ints[i]) &&
           ToMat(ip).value.data.bytes[3 * i + 2] == Blue(ip.ints[i])
  {
    if ip.ColorProcessor? {
      forall i | 0 <= i < |ip.ints|
        ensures Unpacked(ip.ints)[3 * i] == Red(ip.ints[i])
        ensures Unpacked(ip.ints)[3 * i + 1] == Green(ip.ints[i])
        ensures Unpacked(ip.ints)[3 * i + 2] == Blue(ip.ints[i])
      {
        UnpackedLayout(ip.ints, i);
      }
    }
  }

  /** `toMat` with the colour path's loop. */
  method ToMatOf(ip: Processor) returns (r: Outcome<Mat>)
    ensures r == ToMat(ip)
  {
    match ip
    case ByteProcessor(w, h, px) =>
      r := Returned(Mat(h, w, CV_8UC1, Bytes(px)));
    case ColorProcessor(w, h, px) =>
      var bData := UnpackPixels(px);
      r := Returned(Mat(h, w, CV_8UC3, Bytes(bData[..])));
    case ShortProcessor(w, h, px) =>
      r := Returned(Mat(h, w, CV_16UC1, Shorts(px)));
    case FloatProcessor(w, h, px) =>
      r := Returned(Mat(h, w, CV_32FC1, Floats(px)));
    case OtherProcessor(_, _) =>
      r := Thrown(IllegalArgument);
  }

  // ---------------------------------------------------------------------------
  // MatToImagePlusConverter

  /** `makeByteProcessor`: refuses any type but `CV_8UC1`; `cols` wide, `rows` high. */
  function MakeByteProcessor(mat: Mat): (r: Outcome<Processor>)
    ensures r.Thrown? <==> mat.cvType != CV_8UC1
    ensures r.Thrown? ==> r.exception == IllegalArgument
    ensures r.Returned? ==> r.value.ByteProcessor? && r.value.width == mat.cols && r.value.height == mat.rows
  {
    if mat.cvType != CV_8UC1 then Thrown(IllegalArgument)
    else Returned(ByteProcessor(mat.cols, mat.rows, mat.data.bytes))
  }

  /** `makeShortProcessor`: refuses any type but `CV_16UC1`. */
  function MakeShortProcessor(mat: Mat): (r: Outcome<Processor>)
    ensures r.Thrown? <==> mat.cvType != CV_16UC1
    ensures r.Thrown? ==> r.exception == IllegalArgument
    ensures r.Returned? ==> r.value.ShortProcessor? && r.value.width == mat.cols && r.value.height == mat.rows
  {
    if mat.cvType != CV_16UC1 then Thrown(IllegalArgument)
    else Returned(ShortProcessor(mat.cols, mat.rows, mat.data.shorts))
  }

  /** `makeFloatProcessor`: refuses any type but `CV_32FC1`. */
  function MakeFloatProcessor(mat: Mat): (r: Outcome<Processor>)
    ensures r.Thrown? <==> mat.cvType != CV_32FC1
    ensures r.Thrown? ==> r.exception == IllegalArgument
    ensures r.Returned? ==> r.value.FloatProcessor? && r.value.width == mat.cols && r.value.height == mat.rows
  {
    if mat.cvType != CV_32FC1 then Thrown(IllegalArgument)
    else Returned(FloatProcessor(mat.cols, mat.rows, mat.data.floats))
  }

  /** `makeColorProcessor`: refuses any type but `CV_8UC3`; packs each pixel's three bytes. */
  function MakeColorProcessor(mat: Mat): (r: Outcome<Processor>)
    ensures r.Thrown? <==> mat.cvType != CV_8UC3
    ensures r.Thrown? ==> r.exception == IllegalArgument
    ensures r.Returned? ==> r.value.ColorProcessor? && r.value.width == mat.cols && r.value.height == mat.rows
  {
    if mat.cvType != CV_8UC3 then Thrown(IllegalArgument)
    else Returned(ColorProcessor(mat.cols, mat.rows, Packed(mat.data.bytes, mat.cols * mat.rows)))
  }

  /** `toImageProcessor`: dispatches on the type; unknown types are refused. */
  function ToImageProcessor(mat: Mat): (r: Outcome<Processor>)
    ensures r.Thrown? <==> mat.cvType.OtherType?
    ensures r.Thrown? ==> r.exception == IllegalArgument
    ensures r.Returned? ==> r.value.width == mat.cols && r.value.height == mat.rows
  {
    match mat.cvType
    case CV_8UC1 => MakeByteProcessor(mat)
    case CV_8UC3 => MakeColorProcessor(mat)
    case CV_16UC1 => MakeShortProcessor(mat)
    case CV_32FC1 => MakeFloatProcessor(mat)
    case OtherType(code) => Thrown(IllegalArgument)
  }

  /** `makeColorProcessor` with its loop. */
  method MakeColorProcessorOf(mat: Mat) returns (r: Outcome<Processor>)
    ensures r == MakeColorProcessor(mat)
  {
    if mat.cvType != CV_8UC3 {
      return Thrown(IllegalArgument);
    }
    var w := mat.cols;
    var h := mat.rows;
    var pixels := new bv8[w * h * 3](j requires 0 <= j < w * h * 3 => mat.data.bytes[j]);
    assert pixels[..] == mat.data.bytes;
    var iData := PackPixels(pixels, w * h);
    r := Returned(ColorProcessor(w, h, iData[..]));
  }

  /** A processor's pixels after a trip through a `Mat`: RGB pixels lose their alpha byte, others are unchanged. */
  function AlphaDropped(ip: Processor): (r: Processor)
    ensures r.width == ip.width && r.height == ip.height
  {
    match ip
    case ColorProcessor(w, h, px) => ColorProcessor(w, h, seq(|px|, i requires 0 <= i < |px| => px[i] & 0xFF_FFFF))
    case _ => ip
  }

  /** Converting a supported processor to a `Mat` and back gives it back, without the alpha byte. */
  lemma ProcessorRoundTrip(ip: Processor)
    requires !ip.OtherProcessor?
    ensures ToImageProcessor(ToMat(ip).value) == Returned(AlphaDropped(ip))
  {
    if ip.ColorProcessor? {
      UnpackPackRoundTrip(ip.ints);
      assert ip.width * ip.height == |ip.ints|;
    }
  }

  /** Converting a `Mat` of a supported type to a processor and back gives the same `Mat`. */
  lemma MatRoundTrip(mat: Mat)
    requires !mat.cvType.OtherType?
    ensures ToMat(ToImageProcessor(mat).value) == Returned(mat)
  {
    if mat.cvType == CV_8UC3 {
      PackUnpackRoundTrip(mat.data.bytes, mat.cols * mat.rows);
    }
  }
}
