/**
 * Output-shape arithmetic for convolution and pooling layers
 * (sonixhub/architect/utils.py).
 */
module ShapeUtils {
  import opened Wrappers
  import Python

  /** An argument that may be an int or a tuple of ints. */
  datatype IntOrTuple = Scalar(n: int) | Tuple(items: seq<int>)

  /** The `padding` argument: an int, a string, or a value of any other type. */
  datatype Padding = IntPadding(n: int) | StrPadding(s: string) | OtherPadding

  /** The dictionary returned by `_conv_shape_info`, flattened. */
  datatype ShapeInfo = ShapeInfo(
    inChannels: Option<int>,
    inFeatures: int,
    outChannels: Option<int>,
    outFeatures: int,
    padding: Padding,
    kernelSize: int,
    stride: int)

  datatype ShapeError =
    | IndexError            // an empty tuple was given for kernel_size or in_features
    | TypeError             // padding is neither int nor str
    | ValueError(s: string) // padding is a string other than "same" and "valid"
    | ZeroDivisionError     // stride is 0

  /**
   * `_compute_conv_out_features`: the number of kernel placements,
   * `(in + 2*padding - kernel) // stride + 1`.
   */
  function ConvOutFeatures(kernelSize: int, stride: int, padding: int, inFeatures: int): (out: int)
    requires stride != 0
    ensures stride > 0 ==>
      stride * (out - 1) <= inFeatures + 2 * padding - kernelSize < stride * out
  {
    Python.FloorDiv(inFeatures + 2 * padding - kernelSize, stride) + 1
  }

  /** `_compute_same_padding`: half the length lost without padding, `stride * (in - out) // 2`. */
  function SamePadding(inFeatures: int, outFeatures: int, stride: int): (p: int)
    ensures 2 * p <= stride * (inFeatures - outFeatures) < 2 * p + 2
  {
    Python.FloorDiv(stride * (inFeatures - outFeatures), 2)
  }

  /** `_conv_shape_info`, raising exactly where the Python function raises. */
  function ConvShapeInfo(
    kernel: IntOrTuple, stride: int, padding: Padding, input: IntOrTuple,
    inChannels: Option<int>, outChannels: Option<int>): (r: Result<ShapeInfo, ShapeError>)
    ensures r.Success? ==>
      && r.value.inChannels == inChannels && r.value.outChannels == outChannels
      && r.value.stride == stride && stride != 0
      && (kernel.Scalar? ==> r.value.kernelSize == kernel.n)
      && (kernel.Tuple? ==> |kernel.items| > 0 && r.value.kernelSize == kernel.items[0])
      && (input.Scalar? ==> r.value.inFeatures == input.n)
      && (input.Tuple? ==> |input.items| > 0 && r.value.inFeatures == input.items[|input.items| - 1])
  {
    if kernel.Tuple? && |kernel.items| == 0 then Failure(IndexError)
    else if input.Tuple? && |input.items| == 0 then Failure(IndexError)
    else
      var k := if kernel.Scalar? then kernel.n else kernel.items[0];
      var n := if input.Scalar? then input.n else input.items[|input.items| - 1];
      match padding
      case IntPadding(p) =>
        if stride == 0 then Failure(ZeroDivisionError)
        else Success(ShapeInfo(inChannels, n, outChannels, ConvOutFeatures(k, stride, p, n), padding, k, stride))
      case StrPadding(s) =>
        if s == "valid" then
          if stride == 0 then Failure(ZeroDivisionError)
          else Success(ShapeInfo(inChannels, n, outChannels, ConvOutFeatures(k, stride, 0, n), padding, k, stride))
        else if s == "same" then
          if stride == 0 then Failure(ZeroDivisionError)
          else
            var p := SamePadding(n, ConvOutFeatures(k, stride, 0, n), stride);
            Success(ShapeInfo(inChannels, n, outChannels, ConvOutFeatures(k, stride, p, n), IntPadding(p), k, stride))
        else Failure(ValueError(s))
      case OtherPadding => Failure(TypeError)
  }

  /** The padding, as an int, that a successful `_conv_shape_info` call applied. */
  function AppliedPadding(info: ShapeInfo): int
  {
    match info.padding
    case IntPadding(p) => p
    case _ => 0
  }

  /**
   * Every successful call computes the output length from the padding it
   * reports: `params.padding` is the int given, 0 for "valid", and the
   * computed padding for "same".
   */
  lemma ShapeInfoPadding(kernel: IntOrTuple, stride: int, padding: Padding, input: IntOrTuple,
                         inChannels: Option<int>, outChannels: Option<int>)
    requires ConvShapeInfo(kernel, stride, padding, input, inChannels, outChannels).Success?
    ensures var info := ConvShapeInfo(kernel, stride, padding, input, inChannels, outChannels).value;
      && info.outFeatures == ConvOutFeatures(info.kernelSize, stride, AppliedPadding(info), info.inFeatures)
      && (padding.IntPadding? ==> info.padding == padding)
      && (padding == StrPadding("valid") ==> info.padding == StrPadding("valid"))
      && (padding == StrPadding("same") ==>
            info.padding == IntPadding(SamePadding(info.inFeatures,
                                                   ConvOutFeatures(info.kernelSize, stride, 0, info.inFeatures), stride)))
  {
  }

  /** The call raises exactly in the four cases the Python code raises, with the Python error. */
  lemma ShapeInfoErrors(kernel: IntOrTuple, stride: int, padding: Padding, input: IntOrTuple,
                        inChannels: Option<int>, outChannels: Option<int>)
    ensures var r := ConvShapeInfo(kernel, stride, padding, input, inChannels, outChannels);
      var emptyTuple := (kernel.Tuple? && kernel.items == []) || (input.Tuple? && input.items == []);
      && (r == Failure(IndexError) <==> emptyTuple)
      && (r == Failure(TypeError) <==> !emptyTuple && padding.OtherPadding?)
      && (forall s :: r == Failure(ValueError(s)) <==>
            !emptyTuple && padding == StrPadding(s) && s != "valid" && s != "same")
      && (r == Failure(ZeroDivisionError) <==>
            !emptyTuple && stride == 0 &&
            (padding.IntPadding? || padding == StrPadding("valid") || padding == StrPadding("same")))
  {
  }

  /** "valid" is integer padding 0, except that `params.padding` keeps the string. */
  lemma ValidIsZeroPadding(kernel: IntOrTuple, stride: int, input: IntOrTuple,
                           inChannels: Option<int>, outChannels: Option<int>)
    ensures var v := ConvShapeInfo(kernel, stride, StrPadding("valid"), input, inChannels, outChannels);
      var z := ConvShapeInfo(kernel, stride, IntPadding(0), input, inChannels, outChannels);
      && v.Success? == z.Success?
      && (v.Failure? ==> v == z)
      && (v.Success? ==> v.value == z.value.(padding := StrPadding("valid")))
  {
  }

  /** A 2/2 pooling window with no padding halves the length, rounding down. */
  lemma PoolHalves(n: int)
    ensures ConvOutFeatures(2, 2, 0, n) == Python.FloorDiv(n, 2)
  {
  }

  /** The docstring example: 52 features, kernel 5, stride 1, padding 0 give 48. */
  lemma DocstringExample()
    ensures ConvShapeInfo(Scalar(5), 1, IntPadding(0), Scalar(52), Some(1), Some(512))
         == Success(ShapeInfo(Some(1), 52, Some(512), 48, IntPadding(0), 5, 1))
  {
  }

  /** With stride 1, "same" keeps the length if and only if the kernel size is odd. */
  lemma {:induction false} SameStrideOneKeepsLength(k: int, n: int)
    ensures var r := ConvShapeInfo(Scalar(k), 1, StrPadding("same"), Scalar(n), None, None);
      && r.Success?
      && r.value.padding == IntPadding(Python.FloorDiv(k - 1, 2))
      && (r.value.outFeatures == n <==> k % 2 == 1)
      && (k % 2 == 0 ==> r.value.outFeatures == n - 1)
  {
    var out0 := ConvOutFeatures(k, 1, 0, n);
    assert out0 == n - k + 1;
    var p := SamePadding(n, out0, 1);
    assert p == Python.FloorDiv(k - 1, 2);
    assert k % 2 == 1 ==> 2 * p == k - 1;
    assert k % 2 == 0 ==> 2 * p == k - 2;
  }

  /** The smallest input that shows the even-kernel shrinkage: 10 features, kernel 4. */
  lemma SameEvenKernelCounterexample()
    ensures var r := ConvShapeInfo(Scalar(4), 1, StrPadding("same"), Scalar(10), None, None);
      r.Success? && r.value.outFeatures == 9
  {
    assert ConvOutFeatures(4, 1, 0, 10) == 7;
    assert SamePadding(10, 7, 1) == 1;
    assert ConvOutFeatures(4, 1, 1, 10) == 9;
  }

  /**
   * Corrected "same": the total padding `stride*(n-1) + kernel - n`, split
   * between the two ends (the larger half at the end), as PyTorch pads a
   * "same" convolution.
   */
  function SameTotalPadding(kernelSize: int, stride: int, inFeatures: int): int
  {
    stride * (inFeatures - 1) + kernelSize - inFeatures
  }

  /** The output length under the corrected "same" padding. */
  function SameOutFeatures(kernelSize: int, stride: int, inFeatures: int): (out: int)
    requires stride > 0
    requires inFeatures >= 1 && kernelSize >= 1
    ensures SameTotalPadding(kernelSize, stride, inFeatures) >= 0
    ensures out == inFeatures
  {
    var total := SameTotalPadding(kernelSize, stride, inFeatures);
    SameTotalPaddingParts(kernelSize, stride, inFeatures);
    DivExact(stride, inFeatures - 1);
    Python.FloorDiv(inFeatures + total - kernelSize, stride) + 1
  }

  /** The corrected total padding, split into its stride part and its kernel part. */
  lemma SameTotalPaddingParts(kernelSize: int, stride: int, inFeatures: int)
    requires stride > 0 && inFeatures >= 1 && kernelSize >= 1
    ensures SameTotalPadding(kernelSize, stride, inFeatures) >= 0
    ensures inFeatures + SameTotalPadding(kernelSize, stride, inFeatures) - kernelSize == stride * (inFeatures - 1)
  {
    MulAtLeast(stride, inFeatures - 1);
  }

  lemma {:induction false} MulAtLeast(s: int, d: int)
    requires s >= 1 && d >= 0
    ensures s * d >= d
  {
    if d > 0 {
      MulAtLeast(s, d - 1);
      assert s * d == s * (d - 1) + s;
    }
  }

  lemma DivExact(s: int, m: int)
    requires s > 0
    ensures Python.FloorDiv(s * m, s) == m
  {
    var q := Python.FloorDiv(s * m, s);
    assert s * (m - q) == s * m - s * q;
    MulBounds(s, m - q);
  }

  lemma MulBounds(s: int, d: int)
    requires s > 0
    ensures d >= 1 ==> s * d >= s
    ensures d <= -1 ==> s * d <= -s
  {
    if d >= 1 {
      assert s * d == s + s * (d - 1);
    } else if d <= -1 {
      assert s * d == -s + s * (d + 1);
    }
  }
}
