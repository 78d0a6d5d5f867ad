/** Per-channel standardisation that `normalize_image` prepares but never applies, and the
    unit test that expects it.

    `normalize_image` builds mean = (0.485, 0.456, 0.406) and std = (0.229, 0.224, 0.225)
    and then returns only the scaled, reshaped array. The test
    `test_image_is_normalized_using_mean_std` expects (x / 255 - mean[c]) / std[c].
    `AsWrittenMissesTest` shows that the code as written does not give the expected tensor on
    the test's own 2x2 image; `Standardized` is the evidently intended normalisation, and
    `StandardizedMeetsTest` shows that it does. */
module Standardization {
  import opened Failures
  import opened NdArrays
  import opened ImageLoader

  const Mean: seq<real> := [0.485, 0.456, 0.406]
  const Std: seq<real> := [0.229, 0.224, 0.225]

  /** `(x - mean[c]) / std[c]` applied along the channel axis of a (b, 3, h, w) tensor. */
  function StandardizeChannels(t: Array4<real>, b: nat, h: nat, w: nat): (r: Array4<real>)
    requires HasShape4(t, b, 3, h, w)
    ensures HasShape4(r, b, 3, h, w)
    ensures forall i, k, y, x :: 0 <= i < b && 0 <= k < 3 && 0 <= y < h && 0 <= x < w ==>
      r[i][k][y][x] * Std[k] + Mean[k] == t[i][k][y][x]
  {
    seq(b, i requires 0 <= i < b =>
      seq(3, k requires 0 <= k < 3 =>
        seq(h, y requires 0 <= y < h =>
          seq(w, x requires 0 <= x < w => (t[i][k][y][x] - Mean[k]) / Std[k]))))
  }

  /** The corrected `normalize_image`: scale, reshape, then standardise each of the three
      channels. This version chooses to reject any other channel count; numpy itself would
      broadcast a single channel against the three statistics. */
  function Standardized(input: Array3<byte>, height: nat := 224, width: nat := 224, channels: nat := 3,
                        batch: nat := 1)
    : (r: Result<Array4<real>>)
    ensures r.Ok? <==> channels == 3 && |Ravel3(input)| == batch * channels * height * width
    ensures r.Ok? ==> HasShape4(r.value, batch, 3, height, width)
  {
    var scaled :- NormalizeImage(input, height, width, channels, batch);
    if channels != 3 then Err(ValueError("operands could not be broadcast together"))
    else Ok(StandardizeChannels(scaled, batch, height, width))
  }

  /** For a (3, height, width) image and batch 1, element (0, k, y, x) of the corrected
      result is (input[k][y][x] / 255 - mean[k]) / std[k]. */
  lemma StandardizedSingleBatch(input: Array3<byte>, height: nat, width: nat)
    requires HasShape3(input, 3, height, width)
    ensures Standardized(input, height, width, 3, 1).Ok?
    ensures forall k, y, x :: 0 <= k < 3 && 0 <= y < height && 0 <= x < width ==>
      Standardized(input, height, width, 3, 1).value[0][k][y][x] == (Scaled(input[k][y][x]) - Mean[k]) / Std[k]
  {
    NormalizeSingleBatch(input, 3, height, width);
  }

  function Abs(x: real): real
  {
    if x < 0.0 then -x else x
  }

  /** The test's tolerances: rtol = atol = 1e-5. */
  const Tolerance: real := 0.00001

  /** Within numpy's `assert_allclose` bound |actual - desired| <= atol + rtol * |desired|. */
  predicate Close(actual: real, desired: real)
  {
    Abs(actual - desired) <= Tolerance + Tolerance * Abs(desired)
  }

  /** `assert_allclose(actual, desired, rtol=1e-5, atol=1e-5)` on two (1, 3, 2, 2) tensors. */
  predicate AllClose(actual: Array4<real>, desired: Array4<real>)
  {
    HasShape4(actual, 1, 3, 2, 2) && HasShape4(desired, 1, 3, 2, 2) &&
    forall k, y, x :: 0 <= k < 3 && 0 <= y < 2 && 0 <= x < 2 ==>
      Close(actual[0][k][y][x], desired[0][k][y][x])
  }

  /** The test's 2x2 RGB image in height-width-channel layout. */
  const TestImage: Array3<byte> := [[[0, 0, 0], [255, 255, 255]], [[128, 128, 128], [64, 64, 64]]]

  /** The test's expected tensor, reshaped to (1, 3, 2, 2). */
  const TestExpected: Array4<real> := [[
    [[-2.117904, 2.2489083], [0.07406463, -1.0219197]],
    [[-2.0357141, 2.4285715], [0.2051822, -0.91526604]],
    [[-1.8044444, 2.64], [0.42649257, -0.68897593]]]]

  /** The test's input to `normalize_image`: the image transposed to channel-first. */
  const TestInput: Array3<byte> := [[[0, 255], [128, 64]], [[0, 255], [128, 64]], [[0, 255], [128, 64]]]

  lemma TestInputIsTransposed()
    ensures TransposeToChw(TestImage, 2, 2, 3) == TestInput
  {
    var t := TransposeToChw(TestImage, 2, 2, 3);
    forall k, y | 0 <= k < 3 && 0 <= y < 2 ensures t[k][y] == TestInput[k][y] {
      assert t[k][y][0] == TestInput[k][y][0] && t[k][y][1] == TestInput[k][y][1];
    }
    forall k | 0 <= k < 3 ensures t[k] == TestInput[k] {
      assert t[k][0] == TestInput[k][0] && t[k][1] == TestInput[k][1];
    }
  }

  /** As written, `normalize_image` returns 0.0 for the black pixel's red value where the test
      expects about -2.1179, so the test cannot pass. */
  lemma AsWrittenMissesTest()
    ensures NormalizeImage(TestInput, 2, 2).Ok?
    ensures NormalizeImage(TestInput, 2, 2).value[0][0][0][0] == 0.0
    ensures !AllClose(NormalizeImage(TestInput, 2, 2).value, TestExpected)
  {
    var input := TestInput;
    assert HasShape3(input, 3, 2, 2);
    NormalizeSingleBatch(input, 3, 2, 2);
  }

  /** The corrected normalisation agrees with every expected value within the test's
      tolerances (rtol = atol = 1e-5). */
  lemma StandardizedMeetsTest()
    ensures Standardized(TestInput, 2, 2).Ok?
    ensures AllClose(Standardized(TestInput, 2, 2).value, TestExpected)
  {
    assert HasShape3(TestInput, 3, 2, 2);
    StandardizedSingleBatch(TestInput, 2, 2);
    ExactValuesAreClose(Standardized(TestInput, 2, 2).value);
  }

  /** The exact standardised values of the test image are all within tolerance. */
  lemma ExactValuesAreClose(r: Array4<real>)
    requires HasShape4(r, 1, 3, 2, 2)
    requires forall k, y, x :: 0 <= k < 3 && 0 <= y < 2 && 0 <= x < 2 ==>
      r[0][k][y][x] == (Scaled(TestInput[k][y][x]) - Mean[k]) / Std[k]
    ensures AllClose(r, TestExpected)
  {
    forall k, y, x | 0 <= k < 3 && 0 <= y < 2 && 0 <= x < 2
      ensures Close(r[0][k][y][x], TestExpected[0][k][y][x])
    {
      ExpectedIsClose(k, y, x, TestInput[k][y][x], r[0][k][y][x]);
    }
  }

  /** One expected entry against the exact standardised value of the test pixel. */
  lemma ExpectedIsClose(k: nat, y: nat, x: nat, v: byte, a: real)
    requires k < 3 && y < 2 && x < 2
    requires v == TestInput[k][y][x] && a == (Scaled(v) - Mean[k]) / Std[k]
    ensures Close(a, TestExpected[0][k][y][x])
  {
    if y == 0 && x == 0 {
      assert v == 0;
    } else if y == 0 {
      assert v == 255;
    } else if x == 0 {
      assert v == 128;
    } else {
      assert v == 64;
    }
  }
}
