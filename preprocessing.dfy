/** The forward pass: each configured step reshapes the image and records one
    metadata entry. An image is modelled by its array shape and element
    type; pixel values, and so the photometric steps' arithmetic, are not
    part of the model. */
module Preprocess {
  import opened Steps

  /** A side of a decoded image. */
  type Side = x: int | x > 0 witness 1

  /** The channel count of a decoded image. */
  type ChannelCount = c: int | c > 0 witness 1

  /** An image as a numpy array, by its shape and element type: an
      (H, W, C) array, or an (H, W) plane, a single-channel image with no
      channel axis. */
  datatype Image =
    | Image(height: Side, width: Side, channels: ChannelCount, depth: Depth)
    | Plane(height: Side, width: Side, depth: Depth)
  {
    /** The number of channels; a plane has one. */
    function NumChannels(): ChannelCount
    {
      if Image? then channels else 1
    }

    /** `img.shape[-1]`: the channel count, or a plane's width. */
    function LastAxis(): Side
    {
      if Image? then channels else width
    }
  }

  /** The array the OpenCV bindings hand back for a matrix of the given
      shape: a single-channel matrix comes back as a plane. */
  function FromMat(height: Side, width: Side, channels: ChannelCount, depth: Depth): (img: Image)
    ensures img.height == height && img.width == width && img.NumChannels() == channels && img.depth == depth
    ensures img.Plane? <==> channels == 1
  {
    if channels == 1 then Plane(height, width, depth) else Image(height, width, channels, depth)
  }

  /** The network-ready (N, C, H, W) blob made from the final image. */
  datatype Blob = Blob(batch: nat, channels: nat, height: nat, width: nat)

  /** The configured output shape. Its first component is the one cv2.resize
      reads as the width. */
  type OutShape = (int, int)

  /** Python's built-in `round` on a number: the nearest integer, halves
      going to the even neighbour. */
  function RoundHalfEven(x: real): (n: int)
    ensures -0.5 <= x - n as real <= 0.5
    ensures (x - n as real == 0.5 || n as real - x == 0.5) ==> n % 2 == 0
  {
    var f := x.Floor;
    var d := x - f as real;
    if d < 0.5 then f
    else if d > 0.5 then f + 1
    else if f % 2 == 0 then f
    else f + 1
  }

  /** `__rescale_img`: cv2.resize with `dsize = (width, height)`, then
      `astype(np.uint8)`. The call fails when a requested side is not
      positive; a single-channel result comes back as a plane. */
  function Resize(img: Image, width: int, height: int): (r: Result<Image>)
    ensures r.Success? <==> width > 0 && height > 0
    ensures r.Failure? ==> r.error == ResizeRejected(width, height)
    ensures r.Success? ==> r.value == FromMat(height, width, img.NumChannels(), U8)
  {
    if width <= 0 || height <= 0 then Failure(ResizeRejected(width, height))
    else Success(FromMat(height, width, img.NumChannels(), U8))
  }

  /** cv2.copyMakeBorder with a constant border whose value repeats the pad
      value `img.shape[-1]` times: the bindings refuse a value of more than
      four components before the call, the call fails on a negative border,
      and otherwise each side grows by its borders, a single-channel result
      coming back as a plane. */
  function CopyMakeBorder(img: Image, top: int, bottom: int, left: int, right: int): (r: Result<Image>)
    ensures r.Success? <==> img.LastAxis() <= 4 && top >= 0 && bottom >= 0 && left >= 0 && right >= 0
    ensures r.Failure? ==>
      r.error == (if img.LastAxis() > 4 then PadValueRejected(img.LastAxis()) else BorderRejected(top, bottom, left, right))
    ensures r.Success? ==>
      r.value.height == img.height + top + bottom &&
      r.value.width == img.width + left + right &&
      r.value.NumChannels() == img.NumChannels() && r.value.depth == img.depth &&
      (r.value.Plane? <==> img.NumChannels() == 1)
  {
    if img.LastAxis() > 4 then Failure(PadValueRejected(img.LastAxis()))
    else if top < 0 || bottom < 0 || left < 0 || right < 0 then Failure(BorderRejected(top, bottom, left, right))
    else Success(FromMat(img.height + top + bottom, img.width + left + right, img.NumChannels(), img.depth))
  }

  /** `_det_rescale`: resize to `out` and record `(out[1] / W, out[0] / H)`.
      The resize takes `out[0]` as the new width, while the recorded width
      factor divides `out[1]`: the two agree only for a square `out`. */
  function DetRescaleStep(img: Image, out: OutShape): (r: Result<(Image, Meta)>)
    ensures r.Success? <==> out.0 > 0 && out.1 > 0
    ensures r.Failure? ==> r.error == ResizeRejected(out.0, out.1)
    ensures r.Success? ==>
      var (resized, meta) := r.value;
      resized == FromMat(out.1, out.0, img.NumChannels(), U8) &&
      meta.ScaleFactors? &&
      meta.sw * img.width as real == out.1 as real &&
      meta.sh * img.height as real == out.0 as real
  {
    var sh := out.0 as real / img.height as real;
    var sw := out.1 as real / img.width as real;
    var resized :- Resize(img, out.0, out.1);
    Success((resized, ScaleFactors(sw, sh)))
  }

  /** Python's `min` of two numbers. */
  function Min(a: real, b: real): (m: real)
    ensures m <= a && m <= b && (m == a || m == b)
  {
    if b < a then b else a
  }

  /** The factor `_det_long_max_rescale` uses for both axes: the smaller of
      the two ratios that fit the image into `out` less a 4-pixel margin. */
  function LongMaxFactor(img: Image, out: OutShape): real
  {
    Min((out.1 - 4) as real / img.height as real, (out.0 - 4) as real / img.width as real)
  }

  /** A side scaled by `s` and rounded as Python's `round` does. */
  function ScaledSide(side: Side, s: real): (n: int)
    ensures -0.5 <= n as real - side as real * s <= 0.5
  {
    RoundHalfEven(side as real * s)
  }

  /** `_det_long_max_rescale`: one factor for both axes, the smaller of the
      two ratios that fit the image into `out` less a 4-pixel margin; the
      image is resized to the rounded sides only when that factor is not 1,
      and that resize fails when a rounded side is not positive. A recorded
      factor is positive, so the inverse can divide by it. */
  function DetLongMaxRescaleStep(img: Image, out: OutShape): (r: Result<(Image, Meta)>)
    ensures
      var s := LongMaxFactor(img, out);
      r.Success? <==> s == 1.0 || (ScaledSide(img.height, s) > 0 && ScaledSide(img.width, s) > 0)
    ensures r.Failure? ==>
      var s := LongMaxFactor(img, out);
      r.error == ResizeRejected(ScaledSide(img.width, s), ScaledSide(img.height, s))
    ensures r.Success? ==> r.value.1.ScaleFactors? && r.value.1.sw > 0.0
    ensures r.Success? ==>
      var (resized, meta) := r.value;
      var ratioH := (out.1 - 4) as real / img.height as real;
      var ratioW := (out.0 - 4) as real / img.width as real;
      meta.ScaleFactors? && meta.sw == meta.sh &&
      meta.sw <= ratioH && meta.sw <= ratioW &&
      (meta.sw == ratioH || meta.sw == ratioW) &&
      (meta.sw == 1.0 ==> resized == img) &&
      (meta.sw != 1.0 ==>
        resized == FromMat(ScaledSide(img.height, meta.sw), ScaledSide(img.width, meta.sw), img.NumChannels(), U8))
  {
    var s := LongMaxFactor(img, out);
    if s != 1.0 then
      var newHeight, newWidth := ScaledSide(img.height, s), ScaledSide(img.width, s);
      var resized :- Resize(img, newWidth, newHeight);
      assert resized == FromMat(newHeight, newWidth, img.NumChannels(), U8);
      Success((resized, ScaleFactors(s, s)))
    else
      Success((img, ScaleFactors(s, s)))
  }

  /** `_bot_right_pad`: all the padding goes below and to the right, so the
      image grows to `(out[1], out[0])`. A border value longer than four
      (`img.shape[-1]` is the channel count, or a plane's width) or a
      negative padding fails. */
  function BotRightPadStep(img: Image, out: OutShape): (r: Result<(Image, Meta)>)
    ensures r.Success? <==> img.LastAxis() <= 4 && img.height <= out.1 && img.width <= out.0
    ensures r.Failure? ==>
      r.error == (if img.LastAxis() > 4 then PadValueRejected(img.LastAxis())
                  else BorderRejected(0, out.1 - img.height, 0, out.0 - img.width))
    ensures r.Success? ==>
      var (padded, meta) := r.value;
      padded == FromMat(out.1, out.0, img.NumChannels(), img.depth) &&
      meta.Padding? && meta.top == 0 && meta.left == 0 &&
      img.height + meta.bottom == out.1 && img.width + meta.right == out.0
  {
    var padHeight, padWidth := out.1 - img.height, out.0 - img.width;
    var padded :- CopyMakeBorder(img, 0, padHeight, 0, padWidth);
    Success((padded, Padding(0, padHeight, 0, padWidth)))
  }

  /** `_center_pad`: the padding is split in halves, the bottom and the right
      taking the odd pixel. A border value longer than four or a negative
      padding fails. */
  function CenterPadStep(img: Image, out: OutShape): (r: Result<(Image, Meta)>)
    ensures r.Success? <==> img.LastAxis() <= 4 && img.height <= out.1 && img.width <= out.0
    ensures r.Failure? && img.LastAxis() > 4 ==> r.error == PadValueRejected(img.LastAxis())
    ensures r.Failure? && img.LastAxis() <= 4 ==>
      r.error.BorderRejected? &&
      r.error.top + r.error.bottom == out.1 - img.height &&
      r.error.left + r.error.right == out.0 - img.width &&
      0 <= r.error.bottom - r.error.top <= 1 &&
      0 <= r.error.right - r.error.left <= 1
    ensures r.Success? ==>
      var (padded, meta) := r.value;
      padded == FromMat(out.1, out.0, img.NumChannels(), img.depth) &&
      meta.Padding? &&
      meta.top + meta.bottom == out.1 - img.height &&
      meta.left + meta.right == out.0 - img.width &&
      0 <= meta.bottom - meta.top <= 1 &&
      0 <= meta.right - meta.left <= 1
  {
    var padHeight, padWidth := out.1 - img.height, out.0 - img.width;
    var padTop, padLeft := padHeight / 2, padWidth / 2;
    var padded :- CopyMakeBorder(img, padTop, padHeight - padTop, padLeft, padWidth - padLeft);
    Success((padded, Padding(padTop, padHeight - padTop, padLeft, padWidth - padLeft)))
  }

  /** One step applied to the image. Standardize and Normalize change pixel
      values and their type and record `None`; the model keeps the shape,
      leaving out the last axis a list argument can grow by broadcasting.
      Standardize casts to float32; Normalize computes with the float64
      arrays `np.asarray` makes of its Python-number arguments. */
  function Apply(step: Step, out: OutShape, img: Image): (r: Result<(Image, Meta)>)
    ensures r.Success? ==> MetaFits(NameOf(step), r.value.1)
    ensures step.Standardize? ==> r == Success((img.(depth := F32), NoMeta))
    ensures step.Normalize? ==> r == Success((img.(depth := F64), NoMeta))
  {
    match step
    case Standardize(_) => Success((img.(depth := F32), NoMeta))
    case DetRescale => DetRescaleStep(img, out)
    case DetLongMaxRescale => DetLongMaxRescaleStep(img, out)
    case BotRightPad(_) => BotRightPadStep(img, out)
    case CenterPad(_) => CenterPadStep(img, out)
    case Normalize(_, _) => Success((img.(depth := F64), NoMeta))
  }

  /** The forward pass over `steps`, as the image and the trail stand after
      the last slot: empty slots are skipped, every other slot is looked
      up, bound, applied and appends one entry. The first failure aborts. */
  function ForwardPass(steps: seq<StepSlot>, out: OutShape, img: Image): (r: Result<(Image, seq<Meta>)>)
    ensures r.Success? ==> |r.value.1| == NonEmptyCount(steps)
    decreases |steps|
  {
    if |steps| == 0 then Success((img, []))
    else
      var before :- ForwardPass(steps[..|steps| - 1], out, img);
      var slot := steps[|steps| - 1];
      if |slot| == 0 then Success(before)
      else
        var step :- Parse(slot[0]);
        var after :- Apply(step, out, before.0);
        Success((after.0, before.1 + [after.1]))
  }

  /** `cv2.dnn.blobFromImage` into its default float32 blob: an image of 1,
      3 or 4 channels whose elements are uint8 (converted) or float32
      becomes a batch of one in channel-first layout. Any other channel
      count is refused first, then any other element type. */
  function BlobFromImage(img: Image): (r: Result<Blob>)
    ensures r.Success? <==>
      (img.NumChannels() == 1 || img.NumChannels() == 3 || img.NumChannels() == 4) &&
      (img.depth == U8 || img.depth == F32)
    ensures r.Failure? ==>
      r.error == (if img.NumChannels() == 1 || img.NumChannels() == 3 || img.NumChannels() == 4
                  then DepthRejected(img.depth) else BlobRejected(img.NumChannels()))
    ensures r.Success? ==>
      r.value.batch == 1 && r.value.channels == img.NumChannels() &&
      r.value.height == img.height && r.value.width == img.width
  {
    var channels := img.NumChannels();
    if channels != 1 && channels != 3 && channels != 4 then Failure(BlobRejected(channels))
    else if img.depth != U8 && img.depth != F32 then Failure(DepthRejected(img.depth))
    else Success(Blob(1, channels, img.height, img.width))
  }

  /** Once a prefix of the configuration fails, every longer prefix fails
      with the same error: a failing step aborts the pass. */
  lemma {:induction false} FailureAborts(steps: seq<StepSlot>, k: nat, out: OutShape, img: Image)
    requires k <= |steps|
    requires ForwardPass(steps[..k], out, img).Failure?
    ensures ForwardPass(steps, out, img) == ForwardPass(steps[..k], out, img)
    decreases |steps|
  {
    if k < |steps| {
      var prefix := steps[..|steps| - 1];
      assert prefix[..k] == steps[..k];
      FailureAborts(prefix, k, out, img);
    } else {
      assert steps[..k] == steps;
    }
  }

  /** A non-empty slot whose name the mapper does not know makes the whole
      pass fail, with that name unless an earlier slot failed first. */
  lemma UnknownNameAborts(steps: seq<StepSlot>, k: nat, out: OutShape, img: Image)
    requires k < |steps| && |steps[k]| > 0 && steps[k][0].name !in StepNames
    ensures ForwardPass(steps, out, img).Failure?
    ensures ForwardPass(steps[..k], out, img).Success? ==> ForwardPass(steps, out, img) == Failure(UnknownStep(steps[k][0].name))
  {
    var prefix := steps[..k + 1];
    assert prefix[..k] == steps[..k];
    assert prefix[k] == steps[k];
    FailureAborts(steps, k + 1, out, img);
  }

  /** The `Preprocessing` object: a step configuration and an output shape,
      both fixed at construction. */
  class Preprocessing {
    const steps: seq<StepSlot>
    const outShape: OutShape

    constructor (steps: seq<StepSlot>, outShape: OutShape)
      ensures this.steps == steps && this.outShape == outShape
    {
      this.steps := steps;
      this.outShape := outShape;
    }

    /** `__call__`: runs every slot in order, reassigning the image and
        appending each entry to the trail, then converts the final image to
        the network blob. */
    method Call(img: Image) returns (r: Result<(Blob, seq<Meta>)>)
      ensures r.Success? <==>
        ForwardPass(steps, outShape, img).Success? && BlobFromImage(ForwardPass(steps, outShape, img).value.0).Success?
      ensures r.Success? ==>
        r.value == (BlobFromImage(ForwardPass(steps, outShape, img).value.0).value, ForwardPass(steps, outShape, img).value.1)
      ensures r.Failure? ==>
        r.error == (if ForwardPass(steps, outShape, img).Failure? then ForwardPass(steps, outShape, img).error
                    else BlobFromImage(ForwardPass(steps, outShape, img).value.0).error)
      ensures r.Success? ==> |r.value.1| == NonEmptyCount(steps) && r.value.0.batch == 1
    {
      var image := img;
      var metadata: seq<Meta> := [];
      var i := 0;
      while i < |steps|
        invariant 0 <= i <= |steps|
        invariant ForwardPass(steps[..i], outShape, img) == Success((image, metadata))
      {
        var slot := steps[i];
        assert steps[..i + 1][..i] == steps[..i];
        assert steps[..i + 1][i] == slot;
        if |slot| > 0 {
          var step := Parse(slot[0]);
          if step.Failure? {
            FailureAborts(steps, i + 1, outShape, img);
            return Failure(step.error);
          }
          var applied := Apply(step.value, outShape, image);
          if applied.Failure? {
            FailureAborts(steps, i + 1, outShape, img);
            return Failure(applied.error);
          }
          image := applied.value.0;
          metadata := metadata + [applied.value.1];
        }
        i := i + 1;
      }
      assert steps[..i] == steps;
      var blob := BlobFromImage(image);
      if blob.Failure? {
        return Failure(blob.error);
      }
      r := Success((blob.value, metadata));
    }
  }
}
