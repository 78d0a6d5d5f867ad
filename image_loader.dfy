/** The OpenCV image loader: decode, BGR to RGB, resize, HWC to CHW, scale and reshape into
    the (batch, channels, height, width) tensor the classifier takes; and the factory that
    picks a loader by its tag. */
module ImageLoader {
  import opened Failures
  import opened Sequences
  import opened NdArrays

  /** An 8-bit pixel intensity (numpy uint8). */
  type byte = x: int | 0 <= x < 256

  // ---------------------------------------------------------------------------
  // The OpenCV calls, which the model does not look inside
  // ---------------------------------------------------------------------------

  /** The three OpenCV entry points the loader uses. Only their shapes are modelled. */
  datatype Cv2 = Cv2(
    imdecode: seq<byte> -> Option<Array3<byte>>,
    imread: string -> Option<Array3<byte>>,
    resize: (Array3<byte>, (nat, nat)) -> Array3<byte>)

  datatype Option<+T> = None | Some(value: T)

  /** Number of columns of an image (0 for an image without rows). */
  function Width(img: Array3<byte>): nat
  {
    if |img| == 0 then 0 else |img[0]|
  }

  /** A rectangular 3-channel image in height-width-channel layout. */
  predicate IsColorImage(img: Array3<byte>)
  {
    HasShape3(img, |img|, Width(img), 3)
  }

  predicate IsNonEmptyColorImage(img: Array3<byte>)
  {
    IsColorImage(img) && |img| > 0 && Width(img) > 0
  }

  /** What OpenCV guarantees about shapes: a decoded or read image (IMREAD_COLOR) is a
      non-empty 3-channel image, and `resize(img, (w, h))` has h rows and w columns
      (the size argument is given width first). */
  ghost predicate Cv2Promises(cv: Cv2)
  {
    && (forall bytes :: cv.imdecode(bytes).Some? ==> IsNonEmptyColorImage(cv.imdecode(bytes).value))
    && (forall path :: cv.imread(path).Some? ==> IsNonEmptyColorImage(cv.imread(path).value))
    && (forall img, dsize: (nat, nat) :: IsColorImage(img) && dsize.0 > 0 && dsize.1 > 0 ==>
          HasShape3(cv.resize(img, dsize), dsize.1, dsize.0, 3))
  }

  /** `cv2.resize(img, dsize)`; OpenCV rejects an empty source or a zero target size. */
  function Resize(cv: Cv2, img: Array3<byte>, dsize: (nat, nat)): (r: Result<Array3<byte>>)
    requires Cv2Promises(cv) && IsColorImage(img)
    ensures r.Ok? <==> |img| > 0 && Width(img) > 0 && dsize.0 > 0 && dsize.1 > 0
    ensures r.Ok? ==> HasShape3(r.value, dsize.1, dsize.0, 3)
    ensures r.Err? ==> r.error == Cv2Error("resize")
  {
    if |img| == 0 || Width(img) == 0 || dsize.0 == 0 || dsize.1 == 0 then Err(Cv2Error("resize"))
    else Ok(cv.resize(img, dsize))
  }

  // ---------------------------------------------------------------------------
  // Layout steps
  // ---------------------------------------------------------------------------

  /** `cv2.cvtColor(img, cv2.COLOR_BGR2RGB)`: reverses the channel order of every pixel. */
  function SwapRedBlue(img: Array3<byte>): (r: Array3<byte>)
    requires IsColorImage(img)
    ensures IsColorImage(r) && |r| == |img| && Width(r) == Width(img)
    ensures forall y, x, k :: 0 <= y < |img| && 0 <= x < Width(img) && 0 <= k < 3 ==>
      r[y][x][k] == img[y][x][2 - k]
  {
    seq(|img|, y requires 0 <= y < |img| =>
      seq(|img[y]|, x requires 0 <= x < |img[y]| =>
        [img[y][x][2], img[y][x][1], img[y][x][0]]))
  }

  /** Swapping red and blue twice gives the image back (BGR2RGB is its own inverse). */
  lemma SwapRedBlueInvolution(img: Array3<byte>)
    requires IsColorImage(img)
    ensures SwapRedBlue(SwapRedBlue(img)) == img
  {
    var twice := SwapRedBlue(SwapRedBlue(img));
    forall y, x | 0 <= y < |img| && 0 <= x < Width(img) ensures twice[y][x] == img[y][x] {
      assert twice[y][x][0] == img[y][x][0] && twice[y][x][1] == img[y][x][1] && twice[y][x][2] == img[y][x][2];
    }
    forall y | 0 <= y < |img| ensures twice[y] == img[y] {
      assert forall x :: 0 <= x < Width(img) ==> twice[y][x] == img[y][x];
    }
  }

  /** A pixel intensity as a float in [0, 1]. */
  function Scaled(v: byte): (r: real)
    ensures 0.0 <= r <= 1.0
  {
    v as real / 255.0
  }

  /** `input.astype(float32) / 255.0`, element-wise, keeping the shape. */
  function ScaleArray(input: Array3<byte>): (r: Array3<real>)
    ensures |r| == |input|
    ensures forall k :: 0 <= k < |input| ==> |r[k]| == |input[k]|
    ensures forall k, y :: 0 <= k < |input| && 0 <= y < |input[k]| ==> |r[k][y]| == |input[k][y]|
    ensures forall k, y, x :: 0 <= k < |input| && 0 <= y < |input[k]| && 0 <= x < |input[k][y]| ==>
      r[k][y][x] == Scaled(input[k][y][x])
  {
    Map((plane: seq<seq<byte>>) => Map((row: seq<byte>) => Map(Scaled, row), plane), input)
  }

  lemma RavelScaleArray(input: Array3<byte>)
    ensures Ravel3(ScaleArray(input)) == Map(Scaled, Ravel3(input))
  {
    var rowMap := (row: seq<byte>) => Map(Scaled, row);
    var planeMap := (plane: seq<seq<byte>>) => Map(rowMap, plane);
    MapFlatten(rowMap, planeMap, input);
    MapFlatten(Scaled, rowMap, Flatten(input));
  }

  /** `ImageLoader.normalize_image` as written: divide by 255 and reshape to
      (batch, channels, height, width). The mean and standard deviation it builds are
      never applied, so they do not appear here. The reshape fails unless the element count
      is exactly batch * channels * height * width. */
  function NormalizeImage(input: Array3<byte>, height: nat := 224, width: nat := 224, channels: nat := 3,
                          batch: nat := 1)
    : (r: Result<Array4<real>>)
    ensures r.Ok? <==> |Ravel3(input)| == batch * channels * height * width
    ensures r.Err? ==> r.error == ReshapeError(|Ravel3(input)|, [batch, channels, height, width])
    ensures r.Ok? ==> HasShape4(r.value, batch, channels, height, width)
    ensures r.Ok? ==> |Ravel4(r.value)| == |Ravel3(input)|
    ensures r.Ok? ==>
      forall i :: 0 <= i < |Ravel3(input)| ==> Ravel4(r.value)[i] == Scaled(Ravel3(input)[i])
    ensures r.Ok? ==> forall i :: 0 <= i < |Ravel4(r.value)| ==> 0.0 <= Ravel4(r.value)[i] <= 1.0
  {
    var img := ScaleArray(input);
    RavelScaleArray(input);
    var flat := Ravel3(img);
    if |flat| != batch * channels * height * width then
      Err(ReshapeError(|flat|, [batch, channels, height, width]))
    else
      Ok(Reshape4(flat, batch, channels, height, width))
  }

  /** With batch 1 and a (channels, height, width) input, normalisation only scales each
      element and adds the batch axis in front. */
  lemma NormalizeSingleBatch(input: Array3<byte>, channels: nat, height: nat, width: nat)
    requires HasShape3(input, channels, height, width)
    ensures NormalizeImage(input, height, width, channels, 1).Ok?
    ensures NormalizeImage(input, height, width, channels, 1).value == [ScaleArray(input)]
    ensures forall k, y, x :: 0 <= k < channels && 0 <= y < height && 0 <= x < width ==>
      NormalizeImage(input, height, width, channels, 1).value[0][k][y][x] == Scaled(input[k][y][x])
  {
    var img := ScaleArray(input);
    assert HasShape3(img, channels, height, width);
    Ravel3Length(input, channels, height, width);
    RavelScaleArray(input);
    ReshapeAddsBatchAxis(img, channels, height, width);
  }

  // ---------------------------------------------------------------------------
  // The loader entry points
  // ---------------------------------------------------------------------------

  /** The steps shared by both entry points once OpenCV has produced a BGR image. */
  function PrepareDecoded(cv: Cv2, image: Array3<byte>, height: nat, width: nat, channels: nat, batch: nat)
    : (r: Result<Array4<real>>)
    requires Cv2Promises(cv) && IsNonEmptyColorImage(image)
    ensures r.Ok? <==> height > 0 && width > 0 && batch * channels * height * width == 3 * height * width
    ensures r.Ok? ==> HasShape4(r.value, batch, channels, height, width)
  {
    var image := SwapRedBlue(image);
    var image :- Resize(cv, image, (width, height));
    var image := TransposeToChw(image, height, width, 3);
    Ravel3Length(image, 3, height, width);
    NormalizeImage(image, height, width, channels, batch)
  }

  /** `OcvImgLoader.load_img_bytes`. OpenCV refuses an empty buffer with its own assertion
      error; a non-empty buffer it cannot decode fails with "Invalid image bytes", before any
      other step runs. */
  function LoadImgBytes(cv: Cv2, imageBytes: seq<byte>, height: nat, width: nat, channels: nat := 3,
                        batch: nat := 1)
    : (r: Result<Array4<real>>)
    requires Cv2Promises(cv)
    ensures imageBytes == [] ==> r == Err(Cv2Error("imdecode"))
    ensures imageBytes != [] && cv.imdecode(imageBytes).None? ==> r == Err(ValueError("Invalid image bytes"))
    ensures imageBytes != [] && cv.imdecode(imageBytes).Some? ==>
      r == PrepareDecoded(cv, cv.imdecode(imageBytes).value, height, width, channels, batch)
  {
    if imageBytes == [] then Err(Cv2Error("imdecode"))
    else
      match cv.imdecode(imageBytes)
      case None => Err(ValueError("Invalid image bytes"))
      case Some(image) => PrepareDecoded(cv, image, height, width, channels, batch)
  }

  /** `OcvImgLoader.load_local_img`: an unreadable path is not checked for, so the missing
      image makes `cvtColor` fail inside OpenCV. */
  function LoadLocalImg(cv: Cv2, imgPath: string, height: nat, width: nat, channels: nat := 3, batch: nat := 1)
    : (r: Result<Array4<real>>)
    requires Cv2Promises(cv)
    ensures cv.imread(imgPath).None? ==> r == Err(Cv2Error("cvtColor"))
    ensures cv.imread(imgPath).Some? ==>
      r == PrepareDecoded(cv, cv.imread(imgPath).value, height, width, channels, batch)
  {
    match cv.imread(imgPath)
    case None => Err(Cv2Error("cvtColor"))
    case Some(image) => PrepareDecoded(cv, image, height, width, channels, batch)
  }

  /** With the default channels = 3 and batch = 1, a decodable image becomes a
      (1, 3, height, width) tensor whose channel k, row y, column x is the scaled k-th
      RGB component of the resized image at (y, x). */
  lemma LoadedTensorLayout(cv: Cv2, image: Array3<byte>, height: nat, width: nat)
    requires Cv2Promises(cv) && IsNonEmptyColorImage(image)
    requires height > 0 && width > 0
    ensures var r := PrepareDecoded(cv, image, height, width, 3, 1);
      var resized := cv.resize(SwapRedBlue(image), (width, height));
      && r.Ok?
      && HasShape4(r.value, 1, 3, height, width)
      && forall k, y, x :: 0 <= k < 3 && 0 <= y < height && 0 <= x < width ==>
           r.value[0][k][y][x] == Scaled(resized[y][x][k])
  {
    var resized := cv.resize(SwapRedBlue(image), (width, height));
    var chw := TransposeToChw(resized, height, width, 3);
    NormalizeSingleBatch(chw, 3, height, width);
  }

  /** A decodable image loads exactly when the requested layout holds three channel planes in
      all (batch * channels == 3), for any positive target size. */
  lemma LoadSucceedsIff(cv: Cv2, image: Array3<byte>, height: nat, width: nat, channels: nat, batch: nat)
    requires Cv2Promises(cv) && IsNonEmptyColorImage(image)
    requires height > 0 && width > 0
    ensures PrepareDecoded(cv, image, height, width, channels, batch).Ok? <==> batch * channels == 3
  {
    var n := height * width;
    var m := batch * channels;
    assert batch * channels * height * width == m * n;
    assert 3 * height * width == 3 * n;
    Cancel(m, 3, n);
  }

  lemma Cancel(a: nat, b: nat, n: nat)
    requires n > 0
    ensures a * n == b * n <==> a == b
  {
    if a < b {
      assert b * n == a * n + (b - a) * n;
    }
    if b < a {
      assert a * n == b * n + (a - b) * n;
    }
  }

  // ---------------------------------------------------------------------------
  // The factory
  // ---------------------------------------------------------------------------

  /** The loader tags (a string enumeration, so a plain string with the same text is the
      same key). */
  datatype ImgLoaderTypes = OcvImageLoader {
    function Value(): string
    {
      "ocvImageloader"
    }
  }

  /** The concrete loaders. */
  datatype ImgLoader = OcvImgLoader

  const LoaderMap: map<string, ImgLoader> := map[OcvImageLoader.Value() := OcvImgLoader]

  /** `create_img_loader`: a dictionary lookup; an unknown tag is reported by a ValueError
      naming it. */
  function CreateImgLoader(loaderType: string): (r: Result<ImgLoader>)
    ensures r.Ok? <==> loaderType == OcvImageLoader.Value()
    ensures r.Ok? ==> r.value == OcvImgLoader
    ensures r.Err? ==> r.error == ValueError("Unsupported image loader: " + loaderType)
  {
    if loaderType in LoaderMap then Ok(LoaderMap[loaderType])
    else Err(ValueError("Unsupported image loader: " + loaderType))
  }

  /** Every tag of the enumeration has a loader. */
  lemma EveryTagHasLoader(tag: ImgLoaderTypes)
    ensures CreateImgLoader(tag.Value()) == Ok(OcvImgLoader)
  {
  }
}
