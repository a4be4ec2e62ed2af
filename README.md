# YOLO-NAS pre- and post-processing, modelled in Dafny

This project models the paired transform pipeline of the YOLO-NAS ONNX
runner: `Preprocessing` and `Postprocessing` in
`yolo-nas-py/yolo_nas/processing.py`.

- The forward pass (`Preprocessing.__call__`) runs an ordered list of step
  slots over an image. Empty slots are skipped. Every other slot names one of
  six steps (`Standardize`, `DetRescale`, `DetLongMaxRescale`, `BotRightPad`,
  `CenterPad`, `Normalize`) and appends one metadata entry to a trail: `None`,
  the `(w, h)` scale factors or the `(top, bottom, left, right)` padding.
- The inverse pass (`Postprocessing.__call__`) walks the same slots in
  reverse. It pops one trail entry per non-empty slot from a copy of the
  trail. Rescale steps divide the box coordinates by the recorded factors.
  Pad steps subtract the recorded left and top padding. Photometric steps
  discard their entry. The boxes are then turned from corner form into
  `(x, y, w, h)`, and every candidate gets its best class probability and
  the first class index that has it.

Modules, one per part of the file:

- `Steps` (`steps.dfy`) holds the shared vocabulary: step slots, the closed
  `Step` type, the `Meta` entry, the errors, and the forward mapper lookup
  with its keyword binding.
- `Preprocess` (`preprocessing.dfy`) holds the per-step functions on the
  image shape, the specification `ForwardPass`, and the class
  `Preprocessing`, whose `Call` is the step loop.
- `Postprocess` (`postprocessing.dfy`) holds the box inverses, the
  specification `Undo` of the reverse loop, the score reductions, the
  in-place methods over the box tensor (an `array2<Box>` of shape
  batch × candidates), and the class `Postprocessing`.
- `Pipeline` (`pipeline.dfy`) holds the properties that connect the two
  passes. The trail lines up with the slots. Popping pairs each entry with
  the step that recorded it. Undoing the steps takes every box back through
  the coordinate transform the trail records.

An image is modelled by its array shape and element type. It is an
`(H, W, C)` array, or an `(H, W)` array for a single-channel image with no
channel axis, which is how the OpenCV bindings return every single-channel
result. The element type is uint8, float32 or float64. Coordinates and
factors are `real`, so the round trips are exact.

`out_shape` is read two ways in the code:

- `_det_rescale` divides `out_shape[0]` by the height and `out_shape[1]` by
  the width (lines 18-20).
- The pad steps and `_det_long_max_rescale` use `out_shape[1]` as the height
  and `out_shape[0]` as the width (lines 28, 37, 43).
- `cv2.resize` takes `dsize = (width, height)` (line 12).

So the factors DetRescale records are the ratios of the resize it performs
only when `out_shape` is square. `Pipeline.DetRescaleFactorsMatchResize`
proves this as an if-and-only-if. The model keeps the code's formula.

Other behaviour of the code that the model keeps:

- A 100 × 50 (H × W) image rescaled by DetRescale to `(200, 200)` records
  `(out_shape[1] / W, out_shape[0] / H) = (4.0, 2.0)`. The box
  `(10, 10, 20, 20)` goes back to `(2.5, 5, 5, 10)`
  (`Pipeline.DetRescaleExample`).
- The inverse pass fails for lack of metadata only when `pop` meets an empty
  list. A failing name lookup or a metadata entry of the wrong kind can fail
  earlier. Entries left over at the head of a longer trail are ignored
  (`Postprocess.Undo` returns them).
- `np.squeeze` returns a view, so the in-place column updates write through
  to the caller's box tensor. `Postprocessing.Call` takes that tensor as an
  array and modifies it.
- `out_shape` is never validated. The failures come from `cv2.resize` and
  `cv2.copyMakeBorder`, modelled as `ResizeRejected` and `BorderRejected`.
- The channel count is not validated either. The pad steps pass a border
  value with `img.shape[-1]` components, and the OpenCV bindings refuse more
  than four (`PadValueRejected`). After a resize or a pad, a single-channel
  image is a 2-D array, so `img.shape[-1]` is its width, and a later pad
  step fails unless the width is at most four
  (`Pipeline.SingleChannelPadExample`).
- `cv2.dnn.blobFromImage` accepts only 1, 3 or 4 channels (`BlobRejected`),
  and only uint8 or float32 elements (`DepthRejected`). Normalize leaves
  float64 elements, so a configuration whose last Standardize, Normalize or
  resize is Normalize fails there (`Pipeline.DepthRefusalExample`).

## Model

| member | source | states |
|---|---|---|
| `Steps.Parse` | yolo-nas-py/yolo_nas/processing.py:58-67 | The lookup succeeds exactly when the name is one of the six steps and the keyword names are exactly that step's parameters. An unknown name fails with `UnknownStep`, a wrong keyword set with `BadArguments`. The parsed step carries the name it was looked up by. |
| `Preprocess.RoundHalfEven` | yolo-nas-py/yolo_nas/processing.py:31 | Python's `round`: the result is within 1/2 of the argument, and at an exact half it is even. |
| `Preprocess.Resize` | yolo-nas-py/yolo_nas/processing.py:11-12 | `__rescale_img`: `cv2.resize` with `dsize = (width, height)`, then a cast to uint8. It fails exactly when a requested side is not positive. Otherwise the result has that width and height, the same channel count and uint8 elements, and a single-channel result loses its channel axis. |
| `Preprocess.CopyMakeBorder` | yolo-nas-py/yolo_nas/processing.py:38-40 | `cv2.copyMakeBorder` with a border value of `img.shape[-1]` components: the channel count, or the width of a 2-D single-channel array. It fails exactly when that length is above four (`PadValueRejected`, checked first) or a border is negative (`BorderRejected`). Otherwise each side grows by its two borders. The channels and the element type are kept, and a single-channel result loses its channel axis. |
| `Preprocess.DetRescaleStep` | yolo-nas-py/yolo_nas/processing.py:17-24 | It succeeds exactly when both `out_shape` components are positive, and otherwise fails with the resize's `ResizeRejected`. The image becomes `out_shape[1]` high, `out_shape[0]` wide and uint8. The recorded width factor times W is `out_shape[1]`, and the height factor times H is `out_shape[0]`. |
| `Preprocess.DetLongMaxRescaleStep` | yolo-nas-py/yolo_nas/processing.py:26-34 | It succeeds exactly when `s` is 1 or both sides, scaled by `s` and rounded half to even, are positive. Otherwise it fails with `ResizeRejected` of those rounded sides. One positive factor `s` is recorded for both axes. It is no larger than either margin-reduced ratio `(out_shape[1]-4)/H` and `(out_shape[0]-4)/W`, and equals one of them. When `s` is 1 the image is untouched, channel axis and element type included. Otherwise the image becomes the rounded sides, uint8. |
| `Preprocess.BotRightPadStep` | yolo-nas-py/yolo_nas/processing.py:36-40 | It succeeds exactly when `img.shape[-1]` is at most 4 and the image fits in `out_shape`. Otherwise it fails with `PadValueRejected` of that length, or else with the negative `BorderRejected`. The image becomes `(out_shape[1], out_shape[0])` with its channels and element type. The recorded top and left are 0, and the bottom and right make up the difference. |
| `Preprocess.CenterPadStep` | yolo-nas-py/yolo_nas/processing.py:42-53 | It succeeds exactly when `img.shape[-1]` is at most 4 and the image fits in `out_shape`. Otherwise it fails with `PadValueRejected` of that length, or else with a `BorderRejected` split like the padding. The image becomes `(out_shape[1], out_shape[0])` with its channels and element type. Top plus bottom is `out_shape[1] - H` and left plus right is `out_shape[0] - W`. Bottom exceeds top, and right exceeds left, by 0 or 1. |
| `Preprocess.Apply` | yolo-nas-py/yolo_nas/processing.py:14-56 | Every step records an entry of its own kind (`MetaFits`). Standardize and Normalize record `None` and, broadcasting aside, keep the image's shape. Standardize leaves float32 elements and Normalize float64. |
| `Preprocess.ForwardPass` | yolo-nas-py/yolo_nas/processing.py:71-77 | A successful pass records exactly one entry per non-empty slot. |
| `Preprocess.BlobFromImage` | yolo-nas-py/yolo_nas/processing.py:79 | It succeeds exactly when the image has 1, 3 or 4 channels and uint8 or float32 elements. Any other channel count fails with `BlobRejected`, checked first, and any other element type with `DepthRejected`. The blob is a batch of one with the image's channels, height and width. |
| `Preprocess.FailureAborts` | yolo-nas-py/yolo_nas/processing.py:72-77 | Once a prefix of the configuration fails, the whole pass fails with the same error. |
| `Preprocess.UnknownNameAborts` | yolo-nas-py/yolo_nas/processing.py:58-67 | A non-empty slot with an unknown name makes the pass fail. If every earlier slot succeeded, it fails with `UnknownStep` of that name. |
| `Preprocess.Preprocessing.constructor` | yolo-nas-py/yolo_nas/processing.py:6-8 | The object keeps the configuration and the output shape it is given. |
| `Preprocess.Preprocessing.Call` | yolo-nas-py/yolo_nas/processing.py:69-80 | The step loop computes `ForwardPass`. It succeeds exactly when `ForwardPass` succeeds and its final image can be made into a blob. The result is that blob with `ForwardPass`'s trail, which has one entry per non-empty slot. Otherwise the error is the pass's error, or the blob's. |
| `Postprocess.InverseOf` | yolo-nas-py/yolo_nas/processing.py:101-110 | Both rescale names map to the rescale inverse, both pad names to the shift inverse, and the photometric names to no inverse. Any other name fails with `UnknownStep`. Each case is an if-and-only-if. |
| `Postprocess.RescaleBox` | yolo-nas-py/yolo_nas/processing.py:89-93 | Scaling the x pair of the result by the width factor, and the y pair by the height factor, gives the input row. |
| `Postprocess.ShiftBox` | yolo-nas-py/yolo_nas/processing.py:95-99 | Adding the left padding to the result's x pair, and the top padding to its y pair, gives the input row. |
| `Postprocess.ToXywh` | yolo-nas-py/yolo_nas/processing.py:126-128 | `x1` and `y1` are kept. Origin plus width is the old `x2`, and origin plus height is the old `y2`. |
| `Postprocess.ApplyInverse` | yolo-nas-py/yolo_nas/processing.py:89-99 | It fails with `MetadataMismatch` exactly when the rescale inverse gets an entry that is not scale factors, or the shift inverse one that is not padding. No inverse returns the rows unchanged. Otherwise every row is rescaled by the entry's factors, or shifted by its left and top padding. |
| `Postprocess.Undo` | yolo-nas-py/yolo_nas/processing.py:116-124 | The reverse loop keeps the row count. When it completes, it has popped exactly one entry per non-empty slot from the tail of the trail, and what is left is the trail's head. So a trail shorter than the non-empty slot count always fails. |
| `Postprocess.RowMax` | yolo-nas-py/yolo_nas/processing.py:130 | The result is one of the row's values and no value exceeds it. |
| `Postprocess.ArgMax` | yolo-nas-py/yolo_nas/processing.py:131 | The result is an index of a maximum, and every earlier value is strictly smaller (numpy's first maximum). |
| `Postprocess.FlattenPlacesRows` | yolo-nas-py/yolo_nas/processing.py:130-131 | In numpy's `flatten`, element `j` of row `i` sits at the total length of the rows before `i`, plus `j`. |
| `Postprocess.Detect` | yolo-nas-py/yolo_nas/processing.py:130-131 | It fails exactly when the class axis is empty. For a batch of one, there is one score and one class per candidate, in candidate order. The class attains the score, no class exceeds it, and every earlier class is strictly below it. |
| `Postprocess.InversePass` | yolo-nas-py/yolo_nas/processing.py:116-132 | The caller's rows keep their count. The pass fails exactly when the reverse loop gets stuck or the class axis is empty. A stuck loop gives its error and the rows as they stood. A completed loop gives its rows in `xywh` form and the detections. |
| `Postprocess.Rows` | yolo-nas-py/yolo_nas/processing.py:114 | The squeezed view of a batch-of-one tensor: its row `k` is element `(0, k)` of the tensor. |
| `Postprocess.RescaleBoxes` | yolo-nas-py/yolo_nas/processing.py:89-93 | In place: every row of the squeezed tensor becomes its `RescaleBox`. |
| `Postprocess.ShiftBboxes` | yolo-nas-py/yolo_nas/processing.py:95-99 | In place: every row becomes its `ShiftBox`. |
| `Postprocess.ConvertToXywh` | yolo-nas-py/yolo_nas/processing.py:126-128 | In place: every row becomes its `ToXywh`. |
| `Postprocess.Postprocessing.constructor` | yolo-nas-py/yolo_nas/processing.py:84-87 | The object keeps the configuration it is given. |
| `Postprocess.Postprocessing.Call` | yolo-nas-py/yolo_nas/processing.py:112-132 | A batch axis other than 1 fails and leaves the tensor unchanged. Otherwise the result and the tensor's rows are those of `InversePass`: on an error, the rows as they stood when it was raised; on completion, the `xywh` rows and the detections. |
| `Pipeline.AlignedShape` | yolo-nas-py/yolo_nas/processing.py:71-77 | An aligned trail has exactly one entry per non-empty slot, and all its scale factors are nonzero. |
| `Pipeline.ForwardAligned` | yolo-nas-py/yolo_nas/processing.py:71-77 | The forward pass records an aligned trail: one entry per non-empty slot, in slot order, each of the kind its step's inverse reads. |
| `Pipeline.RescaleUndoesScale` | yolo-nas-py/yolo_nas/processing.py:89-93 | With nonzero factors, `_rescale_boxes` and scaling by the same factors undo each other, in both orders. |
| `Pipeline.ShiftUndoesTranslate` | yolo-nas-py/yolo_nas/processing.py:95-99 | `_shift_bboxes` and translating by the same padding undo each other, in both orders. |
| `Pipeline.InverseUndoesEntry` | yolo-nas-py/yolo_nas/processing.py:101-124 | The inverse the mapper gives for a step, applied with the entry that step records, takes every row moved by that entry back to where it was. |
| `Pipeline.UndoInvertsProject` | yolo-nas-py/yolo_nas/processing.py:116-124 | With an aligned trail, the reverse loop pops the whole trail last-in first-out. It takes every row projected through the recorded transforms back to the original row. |
| `Pipeline.ForwardThenInverse` | yolo-nas-py/yolo_nas/processing.py:69-132 | After a successful forward pass over the same configuration, the inverse pass consumes the trail exactly. Boxes projected into the network's input come back to the original coordinates, in `xywh` form. The detections depend on the class probabilities alone. |
| `Pipeline.PhotometricStepsKeepBoxes` | yolo-nas-py/yolo_nas/processing.py:117-123 | With only Standardize and Normalize slots, the image is kept apart from its element type (broadcasting aside), and the trail is one `None` per non-empty slot. The inverse loop pops all of it and leaves the boxes unchanged. |
| `Pipeline.BotRightPadShiftIsIdentity` | yolo-nas-py/yolo_nas/processing.py:36-40 | The bottom-right pad records zero top and left padding, so its inverse shift leaves every row unchanged. |
| `Pipeline.DetRescaleFactorsMatchResize` | yolo-nas-py/yolo_nas/processing.py:17-24 | DetRescale's recorded factors equal the ratios of the resize it performs if and only if `out_shape` is square. |
| `Pipeline.DetRescaleExample` | yolo-nas-py/yolo_nas/processing.py:17-24 | A 100 × 50 image rescaled to (200, 200) records (4.0, 2.0), and the box (10, 10, 20, 20) goes back to (2.5, 5, 5, 10). |
| `Pipeline.DetLongMaxRescaleExample` | yolo-nas-py/yolo_nas/processing.py:26-34 | A 1000 × 500 image with output (416, 416) records 0.412 on both axes and becomes 412 × 206. A 5 × 10 image with output (9, 9) records 0.5 and becomes 2 × 5, the half rounding to even. |
| `Pipeline.ChannelRefusalExample` | yolo-nas-py/yolo_nas/processing.py:36-79 | A pad step on a five-channel image fails with `PadValueRejected`. The blob of a two-channel image fails with `BlobRejected`, and a four-channel image gives a batch-of-one blob. |
| `Pipeline.SingleChannelPadExample` | yolo-nas-py/yolo_nas/processing.py:17-53 | A 10 × 10 single-channel image rescaled to (20, 20) comes back 2-D, so CenterPad builds a 20-component border value and fails with `PadValueRejected(20)`. Without the resize, the (10, 10, 1) array pads into a 2-D 20 × 20 image. |
| `Pipeline.DepthRefusalExample` | yolo-nas-py/yolo_nas/processing.py:14-79 | Normalize leaves float64 elements, which the blob refuses with `DepthRejected`. A Standardize after it gives float32 again. |
| `Pipeline.PaddingExample` | yolo-nas-py/yolo_nas/processing.py:36-53 | A 100 × 80 image padded to 110 × 90 records (5, 5, 5, 5) when centred and (0, 10, 0, 10) at the bottom right. The box (5, 5, 15, 15) shifts back to (0, 0, 10, 10). |
| `Pipeline.XywhExample` | yolo-nas-py/yolo_nas/processing.py:126-128 | The corner box (10, 10, 30, 40) becomes (10, 10, 20, 30). |

## Left out

- Pixel contents are not modelled. This covers what `cv2.resize`, `cv2.copyMakeBorder` and `cv2.dnn.blobFromImage` produce, the pad value and the red/blue swap. These are foreign OpenCV calls. Only the shapes they produce are modelled, plus their refusal of a non-positive size, a negative border, a border value of more than four components, or a blob of other than 1, 3 or 4 channels or of elements other than uint8 or float32.
- The pixel arithmetic of Standardize and Normalize is not modelled: it is floating-point division and subtraction.
- `Preprocess.Apply`, `Pipeline.PhotometricStepsKeepBoxes`: numpy broadcasting against a list-valued `max_value`, `mean` or `std` is not modelled, and the model keeps the image's shape. In the code, a list of several components grows a last axis of length 1: an `(H, W, 1)` image normalised with a three-component `mean` becomes `(H, W, 3)`, and an `(H, W)` plane of width 1 becomes `(H, k)`. A list that does not broadcast against the image raises `ValueError`. Either can change what a later pad step or `cv2.dnn.blobFromImage` accepts and produces. The argument values are not part of the model (only the keyword names are), so their lengths are not either.
- IEEE float rounding is not modelled: factors and coordinates are `real`.
- `Postprocess.RescaleBox`, `Postprocess.RescaleRows`, `Postprocess.ApplyInverse`, `Postprocess.RescaleBoxes`, `Postprocess.Undo`, `Postprocess.InversePass` and `Postprocess.Postprocessing.Call` require nonzero scale factors. numpy's division by a zero factor gives infinities, which `real` cannot represent. Every trail the forward pass records meets this requirement (`Pipeline.ForwardAligned`, `Pipeline.AlignedShape`).
- `Pipeline.ForwardThenInverse` states the round trip against the transform the trail records. For DetLongMaxRescale, the image was resized to rounded sides, which differ from `s` times the old sides by at most half a pixel. For DetRescale with a non-square `out_shape`, the recorded factors are not those of the resize (`Pipeline.DetRescaleFactorsMatchResize`).
- Input element types other than uint8, float32 and float64 are not modelled. Nor is the older NumPy promotion (before 2.0), under which Normalize with scalar `mean` and `std` keeps a float32 image float32. The model follows NumPy 2, where `np.asarray` of a Python number is a float64 array and the result is float64.
- Zero-sized images and images with no channels are not modelled: sides and channel counts are positive, as for any decoded image.
- OpenCV's limit of 512 channels per matrix is not modelled. The model refuses only what the pad steps and `cv2.dnn.blobFromImage` refuse on their own account.
- A box tensor whose last axis is not 4 is not modelled. A row is a four-coordinate `Box`, so the `IndexError` paths of the column updates do not arise.
- Ragged score tensors are not modelled: `Postprocess.Detect` requires every candidate to have one probability per class, as a numpy array always does.
- Keyword argument values of the wrong type are not modelled. Only the keyword names are checked when a step is bound.
- `iou_tresh` and `score_tresh` are stored by `Postprocessing.__init__` but never used in this file. Suppression happens downstream, so the model's `Postprocessing` does not hold them.
- `yolo-nas-cpp/include/yolo-nas.hpp` is not part of this model. It only declares the C++ runner (network, inference, warm-up, drawing), with no logic to check.
