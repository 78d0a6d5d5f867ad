# Image classification core: preprocessing and ranking

This project models, in Dafny, the algorithmic core of a small image classification
service built around OpenCV and a ResNet-50 ONNX model. It covers three parts.

- **The image loader** (`loaders/image_loader.py`):
  - An OpenCV-decoded BGR image has its red and blue channels swapped (BGR to RGB).
  - It is resized to the requested height and width, then transposed from height-width-channel to channel-height-width.
  - `normalize_image` scales every byte by 1/255 and reshapes the result to `(batch, channels, height, width)`.
  - In `load_img_bytes`, a non-empty buffer that OpenCV cannot decode gives `ValueError("Invalid image bytes")`; an empty buffer fails inside `cv2.imdecode` with OpenCV's own error.
  - `create_img_loader` picks a loader by its tag and rejects an unknown tag with a `ValueError` that names it.
- **The ranking model loader** (`loaders/model_loader.py`):
  - The label file is read line by line, and every line is stripped of surrounding whitespace.
  - Row 0 of the probability matrix is paired index by index with the labels.
  - The pairs are ranked with Python's stable `sorted(..., key=confidence, reverse=True)`.
  - The whole ranked list is returned together with the measured inference time.
- **The top-1 draft** (`model_loader.py`): it takes numpy's `argmax` over the whole output array, then reports the label at that index and the raw score `predictions[0][idx]`.

Modules:

| module | file | models |
|---|---|---|
| `Failures` | failures.dfy | Python exceptions as a `Result` error value |
| `Sequences` | sequences.dfy | row-major flattening and splitting of nested sequences, element-wise map |
| `NdArrays` | ndarrays.dfy | 3-D and 4-D arrays, `ravel`, `reshape`, the transposes `(2, 0, 1)` and `(1, 2, 0)` |
| `ImageLoader` | image_loader.dfy | loaders/image_loader.py |
| `Standardization` | standardization.dfy | the mean/std standardisation the unit test expects (see Findings) |
| `LabelFile` | label_file.dfy | `_load_labels`, shared by both model loaders: `readlines` and `str.strip` |
| `RankedModelLoader` | ranked_model_loader.dfy | loaders/model_loader.py |
| `TopOneModelLoader` | top_one_model_loader.dfy | model_loader.py |

Some modelling choices:

- **OpenCV.** The calls `imdecode`, `imread` and `resize` are function-valued fields of a `Cv2` value. The ghost predicate `Cv2Promises` states the only things the model relies on:
  - A decoded or read image is a non-empty 3-channel image.
  - `resize(img, (w, h))` has `h` rows and `w` columns. The size argument is given width first, as in the source.
- **Exceptions.** A Python exception is the `Err` case of a `Result`:
  - A numpy reshape with the wrong element count gives `ReshapeError`.
  - An OpenCV assertion gives `Cv2Error`.
  - A list index past the end gives `IndexError`.
- **Reshape.** numpy's reshape is row-major. It is modelled as flattening followed by splitting into equal rows, so `Ravel4(Reshape4(flat, ...)) == flat`.
- **Numbers.** Scores, probabilities and scaled pixels are mathematical reals.
- **Objects.** Each `ModelLoader` is a class whose `labels` field is set once, by the constructor, from the label file's text.

### Where the code and its own comments and tests differ

The model follows the code in each of these cases.

- The unit test `tests/test_img_loader.py:17-56` expects `normalize_image` to standardise each channel as `(image - mean) / std` with the ImageNet mean and standard deviation, and the comment at `loaders/image_loader.py:37-38` names that expression as the one the model expects. The code builds both arrays (`loaders/image_loader.py:41-42`) but returns only the scaled and reshaped array (`:44`). `ImageLoader.NormalizeImage` follows the code; the Findings section records the mismatch.
- The HTTP endpoint accepts a `number_of_predictions` form field (`apis/inference_api.py:19`). The ranking never truncates by it: the code returns every prediction (`loaders/model_loader.py:75-78`), and so does `RankedModelLoader.ModelLoader.RunPrediction`.

Two more behaviours of the code that the model keeps:

- An unknown loader tag raises `ValueError` (`loaders/image_loader.py:99`), and so does `ImageLoader.CreateImgLoader`.
- The code does not check the label count against the model's output size at load time. A short score row surfaces only as an `IndexError` during pairing.

## Model

| member | source | states |
|---|---|---|
| Sequences.Split | loaders/image_loader.py:44 | splitting k*n elements gives k rows of n elements each, and flattening the rows gives the input back |
| Sequences.SplitFlatten | loaders/image_loader.py:44 | splitting a flattened list of equal-length rows gives the rows back, so split and flatten are inverses |
| Sequences.SplitUnique | loaders/image_loader.py:44 | a row-major reshape is unique: any k rows of length n that flatten to the input are the split |
| Sequences.Map | loaders/image_loader.py:35 | element-wise application keeps the length, and element i is f of input element i |
| Sequences.MapFlatten | loaders/image_loader.py:35 | mapping over the flattened array equals flattening the row-wise mapped array |
| NdArrays.Reshape4 | loaders/image_loader.py:44 | reshaping d0*d1*d2*d3 elements gives shape (d0, d1, d2, d3), and its row-major ravel is the input unchanged |
| NdArrays.ReshapeAddsBatchAxis | loaders/image_loader.py:44 | reshaping a (d0, d1, d2) array to (1, d0, d1, d2) only puts a batch axis in front |
| NdArrays.TransposeToChw | loaders/image_loader.py:72 | `np.transpose(img, (2, 0, 1))` gives shape (C, H, W), with out[c][y][x] == in[y][x][c] |
| NdArrays.TransposeToHwc | loaders/image_loader.py:72 | the inverse permutation (1, 2, 0) gives shape (H, W, C), with out[y][x][c] == in[c][y][x] |
| NdArrays.TransposeRoundTrip | loaders/image_loader.py:72 | the two transposes undo each other, in both orders |
| ImageLoader.Cv2Promises | loaders/image_loader.py:63-70 | what the model assumes of OpenCV: a decoded or read image is a non-empty 3-channel image, and `resize(img, (w, h))` has h rows and w columns of 3 channels |
| ImageLoader.Resize | loaders/image_loader.py:70 | `cv2.resize(img, (width, height))` succeeds exactly on a non-empty image and a non-zero size; the result has `height` rows and `width` columns of 3 channels |
| ImageLoader.SwapRedBlue | loaders/image_loader.py:69 | BGR2RGB keeps the shape, and out[y][x][k] == in[y][x][2-k] |
| ImageLoader.SwapRedBlueInvolution | loaders/image_loader.py:83 | swapping red and blue twice gives the image back |
| ImageLoader.Scaled | loaders/image_loader.py:35 | a byte divided by 255 lies in [0, 1] |
| ImageLoader.ScaleArray | loaders/image_loader.py:35 | `astype(np.float32) / 255.0` keeps the shape, and element (k, y, x) is input[k][y][x] / 255 |
| ImageLoader.RavelScaleArray | loaders/image_loader.py:35 | scaling element-wise commutes with raveling, so the order of elements is kept |
| ImageLoader.NormalizeImage | loaders/image_loader.py:27-44 | succeeds exactly when the element count is batch*channels*height*width, and otherwise fails with the reshape error naming the size and shape; the result has shape (batch, channels, height, width), and its ravel is the input's ravel with each element divided by 255, so every value is in [0, 1]; mean and std play no part; the sizes default to 224, 224, 3 and 1 |
| ImageLoader.NormalizeSingleBatch | loaders/image_loader.py:35-44 | with batch 1, a (C, H, W) input becomes [scaled input], so element (0, k, y, x) is input[k][y][x] / 255 |
| ImageLoader.PrepareDecoded | loaders/image_loader.py:68-76 | after swap, resize and transpose, normalisation succeeds exactly when height and width are positive and batch*channels*height*width == 3*height*width; the result has the requested 4-D shape |
| ImageLoader.LoadImgBytes | loaders/image_loader.py:53-76 | an empty buffer fails inside `cv2.imdecode` with OpenCV's error; a non-empty buffer that does not decode gives ValueError("Invalid image bytes") whatever the other arguments are, so no later step runs; a decoded image goes through the shared layout steps; channels and batch default to 3 and 1 |
| ImageLoader.LoadLocalImg | loaders/image_loader.py:78-90 | an unreadable path is not checked for, so it surfaces as the OpenCV error of `cvtColor`; a read image goes through the same layout steps; channels and batch default to 3 and 1 |
| ImageLoader.LoadedTensorLayout | loaders/image_loader.py:74-76 | with the defaults channels = 3 and batch = 1, the result has shape (1, 3, height, width), and element (0, k, y, x) is the k-th RGB component of the resized image at (y, x), divided by 255 |
| ImageLoader.LoadSucceedsIff | loaders/image_loader.py:70-76 | for a decoded image and a positive size, loading succeeds exactly when batch*channels == 3 |
| ImageLoader.CreateImgLoader | loaders/image_loader.py:93-99 | the lookup succeeds exactly for the tag "ocvImageloader" and returns the OpenCV loader; any other tag gives ValueError("Unsupported image loader: " + tag) |
| ImageLoader.EveryTagHasLoader | loaders/image_loader.py:94-97 | every member of `ImgLoaderTypes` maps to `OcvImgLoader` |
| Standardization.StandardizeChannels | loaders/image_loader.py:41-42 | element (i, k, y, x) of the result times std[k] plus mean[k] gives the input element back |
| Standardization.Standardized | loaders/image_loader.py:27-44 | the corrected normalisation succeeds exactly when there are 3 channels and the element count matches; the result has shape (batch, 3, height, width) |
| Standardization.StandardizedSingleBatch | loaders/image_loader.py:41-44 | for a (3, H, W) input and batch 1, element (0, k, y, x) is (input[k][y][x] / 255 - mean[k]) / std[k] |
| Standardization.TestInputIsTransposed | tests/test_img_loader.py:79 | the test's input is its 2x2 image transposed to channel-first |
| Standardization.AsWrittenMissesTest | tests/test_img_loader.py:76-88 | on the test's image, the as-written `normalize_image` gives 0.0 where the test expects about -2.1179, so `assert_allclose` fails |
| Standardization.StandardizedMeetsTest | tests/test_img_loader.py:76-88 | the corrected normalisation meets every expected value within rtol = atol = 1e-5 |
| Standardization.ExactValuesAreClose | tests/test_img_loader.py:88 | any tensor holding the exact standardised test values is `allclose` to the expected tensor |
| Standardization.ExpectedIsClose | tests/test_img_loader.py:57-69 | each of the twelve expected values is within tolerance of its exact standardised value |
| LabelFile.IsSpace | loaders/model_loader.py:34 | the characters `str.strip()` removes: Python's `isspace` set, the Unicode White_Space characters plus U+001C to U+001F |
| LabelFile.LeadingSpaces | loaders/model_loader.py:34 | counts the whitespace at the start: all of it is whitespace, and the next character, if any, is not |
| LabelFile.TrailingSpaces | loaders/model_loader.py:34 | counts the whitespace at the end: all of it is whitespace, and the character before it, if any, is not |
| LabelFile.Strip | loaders/model_loader.py:34 | `line.strip()` is the slice of the line that starts after its leading whitespace, and it neither starts nor ends with whitespace |
| LabelFile.StripIsTrimmedSlice | loaders/model_loader.py:34 | `line.strip()` is a slice s[i..j] with only whitespace outside it, and it neither starts nor ends with whitespace |
| LabelFile.StripBounds | loaders/model_loader.py:34 | the same, with i the leading whitespace count and j the end of the text minus the trailing whitespace count |
| LabelFile.StripIdempotent | loaders/model_loader.py:34 | stripping a stripped string changes nothing |
| LabelFile.LineEnd | loaders/model_loader.py:34 | the first line runs up to and including the first '\n', or to the end of a text that has none |
| LabelFile.ReadLines | loaders/model_loader.py:33-34 | `readlines` cuts the text into non-empty lines whose concatenation is the text |
| LabelFile.LinesEndAtNewlines | loaders/model_loader.py:34 | every line holds a '\n' only as its last character, and every line but the last ends with one |
| LabelFile.LineCount | loaders/model_loader.py:33-34 | there is one line per '\n', plus one for a final line without '\n' |
| LabelFile.LoadLabels | loaders/model_loader.py:32-35 | exactly one label per line, in file order, and label i is line i stripped |
| LabelFile.LabelsAreClean | loaders/model_loader.py:32-35 | no label holds a '\n' or begins or ends with whitespace |
| LabelFile.StrippedLineIsClean | loaders/model_loader.py:34 | a line with '\n' at most at its end strips to a string without '\n' and without surrounding whitespace |
| RankedModelLoader.PairWithLabels | loaders/model_loader.py:66-69 | the comprehension over `range(len(labels))` succeeds exactly when the probability row is at least as long as the label list, and otherwise raises IndexError |
| RankedModelLoader.Paired | loaders/model_loader.py:66-69 | one entry per label, and entry i pairs labels[i] with probs[i] |
| RankedModelLoader.Insert | loaders/model_loader.py:72 | insertion adds exactly the one entry: the length grows by one and the multiset gains p |
| RankedModelLoader.SortByConfidence | loaders/model_loader.py:72 | `sorted` keeps the length and the multiset of entries: no entry is added, dropped or changed |
| RankedModelLoader.InsertSorted | loaders/model_loader.py:72 | inserting into a descending list keeps it descending |
| RankedModelLoader.SortIsSorted | loaders/model_loader.py:72 | the result is in non-increasing confidence order |
| RankedModelLoader.InsertKeepsTies | loaders/model_loader.py:72 | the inserted entry goes ahead of the entries it ties with, and their order is kept |
| RankedModelLoader.SortIsStable | loaders/model_loader.py:72 | for every confidence value, the entries with that value keep their input order (stability with reverse=True) |
| RankedModelLoader.SortHead | loaders/model_loader.py:72 | the first ranked entry is the first entry with the highest confidence |
| RankedModelLoader.ModelLoader.constructor | loaders/model_loader.py:25-29 | the loader's labels are the stripped lines of the label file |
| RankedModelLoader.ModelLoader.RunPrediction | loaders/model_loader.py:59-78 | succeeds exactly when there is a row 0 at least as long as the label list, and otherwise gives IndexError; the response holds all len(labels) predictions with no truncation, sorted descending, a permutation of the pairing of the labels with row 0, stable on ties, and carries the measured time unchanged |
| RankedModelLoader.ModelLoader.OnlyFirstRowUsed | loaders/model_loader.py:63 | two probability matrices with the same row 0 give the same response |
| TopOneModelLoader.ArgMax | model_loader.py:42 | `np.argmax` gives a valid index whose value is at least every other value, and every earlier value is strictly smaller (the first maximum) |
| TopOneModelLoader.ModelLoader.constructor | model_loader.py:13-17 | the loader's labels are the stripped lines of the label file |
| TopOneModelLoader.ModelLoader.RunPrediction | model_loader.py:40-44 | an empty output gives numpy's ValueError; otherwise the call succeeds exactly when the argmax of the flattened output indexes both the labels and row 0, and otherwise gives IndexError; on success the index is that argmax, the label is labels[idx], the confidence is the raw score predictions[0][idx], that score is at least every score, and all earlier scores are smaller |
| TopOneModelLoader.FirstRowPrefix | model_loader.py:44 | row 0 is the start of the flattened output, so predictions[0][i] is flattened element i |
| TopOneModelLoader.SingleRowSucceeds | model_loader.py:40-44 | a single non-empty row with one score per label always gives a result, at the row's argmax |
| TopOneModelLoader.TopIsHeadOfRanking | model_loader.py:42 | the draft's best class and score are the first entry of the ranked loader's list for the same row |

## Left out

- OpenCV internals. Decoding, reading and bilinear resizing are abstract functions that promise only shapes, and the model says nothing about pixel values after a resize.
- ImageLoader.Resize: states only the shape and the failure cases of `cv2.resize`, because the interpolated pixel values are computed by OpenCV.
- onnxruntime: the session, `ort_session.run`, and `get_model_details` with its `ModelDetails` record are foreign calls. The model takes the output array as input.
- The softmax `_from_score_to_prob` (`loaders/model_loader.py:37-39`) is left out, because it rests on floating-point `exp`.
- RankedModelLoader.ModelLoader.RunPrediction: receives the probability matrix after the softmax, and receives the elapsed time as a parameter. `TimeMesure` reads a wall clock and is not part of this model.
- ImageLoader.Scaled: computes over reals. The source computes in float32, so its rounding, NaN and infinities are not modelled; the same holds for every confidence and score.
- ImageLoader.NormalizeImage: takes a 3-D array only, because that is what both loaders pass it. numpy's `-1` reshape dimension and negative sizes are not modelled; all sizes are natural numbers.
- ImageLoader.PrepareDecoded: takes height and width as natural numbers. A negative size, which OpenCV rejects, is not modelled.
- LabelFile.LoadLabels: reads the file's text as given. Python's universal-newline translation of "\r" and "\r\n" and the file I/O are not modelled.
- TopOneModelLoader.ModelLoader.RunPrediction: returns the index it computes (`model_loader.py:42`) and the label and raw score that the source prints (`:46-47`); the print's four-decimal formatting is I/O and not modelled. The `__main__` block with its random input is not modelled.
- The HTTP layer (apis/inference_api.py, main.py), run_localy.py and utils/stdin_loader.py are glue around the core and are not part of this model.

## Findings

| source | as written | input that shows it | evidently intended | confidence | as-written member | corrected member |
|---|---|---|---|---|---|---|
| loaders/image_loader.py:41-44 | `normalize_image` builds mean and std but returns only the input divided by 255 and reshaped | the 2x2 image of tests/test_img_loader.py:6-13, transposed to channel-first: element (0, 0, 0, 0) comes out 0.0, while the test expects -2.117904 | each channel k becomes (x / 255 - mean[k]) / std[k], which meets the test within rtol = atol = 1e-5 | high; not executed | Standardization.AsWrittenMissesTest | Standardization.StandardizedMeetsTest |

`Standardization.Standardized` is the corrected normalisation; `StandardizedSingleBatch` and `StandardizedMeetsTest` are proved about it. The loader entry points (`ImageLoader.LoadImgBytes`, `ImageLoader.LoadLocalImg`) keep the behaviour as written, through `ImageLoader.NormalizeImage`, so that they describe what the service does today.
