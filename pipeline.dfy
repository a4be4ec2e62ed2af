/** The two passes together: the trail the forward pass records lines up
    with the configuration slot by slot, and the inverse pass, run over the
    same configuration and that trail, exactly undoes the coordinate
    transform the trail describes. */
module Pipeline {
  import opened Steps
  import opened Preprocess
  import opened Postprocess

  /** `trail` holds one entry per non-empty slot of `steps`, in slot order,
      each of the kind its step records and its inverse reads. */
  predicate Aligned(steps: seq<StepSlot>, trail: seq<Meta>)
    decreases |steps|
  {
    if |steps| == 0 then trail == []
    else if |steps[|steps| - 1]| == 0 then Aligned(steps[..|steps| - 1], trail)
    else
      |trail| > 0 &&
      MetaFits(steps[|steps| - 1][0].name, trail[|trail| - 1]) &&
      Aligned(steps[..|steps| - 1], trail[..|trail| - 1])
  }

  /** An aligned trail has exactly one entry per non-empty slot, and every
      scale factor in it can be divided by. */
  lemma {:induction false} AlignedShape(steps: seq<StepSlot>, trail: seq<Meta>)
    requires Aligned(steps, trail)
    ensures |trail| == NonEmptyCount(steps)
    ensures NonZeroScales(trail)
    decreases |steps|
  {
    if |steps| > 0 {
      var prefix := steps[..|steps| - 1];
      if |steps[|steps| - 1]| == 0 {
        AlignedShape(prefix, trail);
      } else {
        var rest := trail[..|trail| - 1];
        AlignedShape(prefix, rest);
        assert trail == rest + [trail[|trail| - 1]];
      }
    }
  }

  /** The forward pass records an aligned trail: one entry per non-empty
      slot, in slot order, the photometric steps' entries being `None`. */
  lemma {:induction false} ForwardAligned(steps: seq<StepSlot>, out: OutShape, img: Image)
    requires ForwardPass(steps, out, img).Success?
    ensures Aligned(steps, ForwardPass(steps, out, img).value.1)
    decreases |steps|
  {
    if |steps| > 0 {
      var prefix := steps[..|steps| - 1];
      ForwardAligned(prefix, out, img);
      var slot := steps[|steps| - 1];
      if |slot| > 0 {
        var before := ForwardPass(prefix, out, img).value.1;
        var trail := ForwardPass(steps, out, img).value.1;
        assert trail[..|trail| - 1] == before;
      }
    }
  }

  /** A box scaled by the recorded factors. */
  function ScaleBox(b: Box, sw: real, sh: real): Box
  {
    Box(b.x1 * sw, b.y1 * sh, b.x2 * sw, b.y2 * sh)
  }

  /** A box moved by the recorded left and top padding. */
  function TranslateBox(b: Box, left: int, top: int): Box
  {
    Box(b.x1 + left as real, b.y1 + top as real, b.x2 + left as real, b.y2 + top as real)
  }

  /** The coordinate transform one trail entry describes: a rescale scales
      by its factors, a pad moves the image to `(left, top)`, a photometric
      step changes nothing. */
  function ForwardBox(meta: Meta, b: Box): Box
  {
    match meta
    case NoMeta => b
    case ScaleFactors(sw, sh) => ScaleBox(b, sw, sh)
    case Padding(top, _, left, _) => TranslateBox(b, left, top)
  }

  /** `_rescale_boxes` and the scaling by the same nonzero factors undo each
      other, in both orders. */
  lemma RescaleUndoesScale(b: Box, sw: real, sh: real)
    requires sw != 0.0 && sh != 0.0
    ensures RescaleBox(ScaleBox(b, sw, sh), sw, sh) == b
    ensures ScaleBox(RescaleBox(b, sw, sh), sw, sh) == b
  {
  }

  /** `_shift_bboxes` and the translation by the same padding undo each
      other, in both orders. */
  lemma ShiftUndoesTranslate(b: Box, left: int, top: int)
    ensures ShiftBox(TranslateBox(b, left, top), left, top) == b
    ensures TranslateBox(ShiftBox(b, left, top), left, top) == b
  {
  }

  /** The rows carried from the original image into the network's input by
      the transforms an aligned trail records, first slot first. */
  function Project(steps: seq<StepSlot>, trail: seq<Meta>, b: Box): Box
    requires Aligned(steps, trail)
    decreases |steps|
  {
    if |steps| == 0 then b
    else if |steps[|steps| - 1]| == 0 then Project(steps[..|steps| - 1], trail, b)
    else ForwardBox(trail[|trail| - 1], Project(steps[..|steps| - 1], trail[..|trail| - 1], b))
  }

  function ProjectRows(steps: seq<StepSlot>, trail: seq<Meta>, rows: seq<Box>): seq<Box>
    requires Aligned(steps, trail)
  {
    seq(|rows|, k requires 0 <= k < |rows| => Project(steps, trail, rows[k]))
  }

  /** The inverse of the step named `name`, with the entry that step
      recorded, takes every row moved by that entry back where it was. */
  lemma {:induction false} InverseUndoesEntry(name: string, meta: Meta, rows: seq<Box>)
    requires MetaFits(name, meta)
    ensures InverseOf(name).Success?
    ensures ApplyInverse(InverseOf(name).value, name, meta,
                         seq(|rows|, k requires 0 <= k < |rows| => ForwardBox(meta, rows[k]))) == Success(rows)
  {
    var moved := seq(|rows|, k requires 0 <= k < |rows| => ForwardBox(meta, rows[k]));
    match meta
    case NoMeta =>
      assert moved == rows;
    case ScaleFactors(sw, sh) =>
      forall k | 0 <= k < |rows| ensures RescaleBox(moved[k], sw, sh) == rows[k] {
        RescaleUndoesScale(rows[k], sw, sh);
      }
      assert RescaleRows(moved, sw, sh) == rows;
    case Padding(top, _, left, _) =>
      forall k | 0 <= k < |rows| ensures ShiftBox(moved[k], left, top) == rows[k] {
        ShiftUndoesTranslate(rows[k], left, top);
      }
      assert ShiftRows(moved, left, top) == rows;
  }

  /** Undoing the steps in reverse with an aligned trail pops the whole
      trail, each entry paired with the step that recorded it, and takes
      every projected row back to the original one. */
  lemma {:induction false} UndoInvertsProject(steps: seq<StepSlot>, trail: seq<Meta>, rows: seq<Box>)
    requires Aligned(steps, trail)
    ensures NonZeroScales(trail)
    ensures Undo(steps, trail, ProjectRows(steps, trail, rows)) == Undone(rows, [])
    decreases |steps|
  {
    AlignedShape(steps, trail);
    if |steps| == 0 {
      assert ProjectRows(steps, trail, rows) == rows;
    } else {
      var prefix := steps[..|steps| - 1];
      var slot := steps[|steps| - 1];
      if |slot| == 0 {
        UndoInvertsProject(prefix, trail, rows);
        assert ProjectRows(steps, trail, rows) == ProjectRows(prefix, trail, rows);
      } else {
        var meta, rest := trail[|trail| - 1], trail[..|trail| - 1];
        UndoInvertsProject(prefix, rest, rows);
        var inner := ProjectRows(prefix, rest, rows);
        InverseUndoesEntry(slot[0].name, meta, inner);
        assert ProjectRows(steps, trail, rows)
            == seq(|inner|, k requires 0 <= k < |inner| => ForwardBox(meta, inner[k]));
      }
    }
  }

  /** The forward pass followed by the inverse pass over the same
      configuration: the trail is consumed exactly, the boxes come back to
      the original image's coordinates before the `xywh` conversion, and the
      scores and classes depend on the class probabilities alone. */
  lemma ForwardThenInverse(steps: seq<StepSlot>, out: OutShape, img: Image, rows: seq<Box>, scores: ScoreTensor)
    requires ForwardPass(steps, out, img).Success? && scores.WellShaped()
    ensures Aligned(steps, ForwardPass(steps, out, img).value.1)
    ensures NonZeroScales(ForwardPass(steps, out, img).value.1)
    ensures
      var trail := ForwardPass(steps, out, img).value.1;
      Undo(steps, trail, ProjectRows(steps, trail, rows)) == Undone(rows, []) &&
      InversePass(steps, ProjectRows(steps, trail, rows), scores, trail) == (Detect(scores), XywhRows(rows))
  {
    var trail := ForwardPass(steps, out, img).value.1;
    ForwardAligned(steps, out, img);
    UndoInvertsProject(steps, trail, rows);
  }

  /** Every non-empty slot names a photometric step. */
  predicate PhotometricOnly(steps: seq<StepSlot>)
  {
    forall k | 0 <= k < |steps| && |steps[k]| > 0 :: steps[k][0].name == "Standardize" || steps[k][0].name == "Normalize"
  }

  /** A configuration of Standardize and Normalize steps changes at most
      the image's element type (broadcasting aside), records one `None` per
      non-empty slot, and its inverse pass leaves the boxes as they are. */
  lemma {:induction false} PhotometricStepsKeepBoxes(steps: seq<StepSlot>, out: OutShape, img: Image, rows: seq<Box>)
    requires PhotometricOnly(steps) && ForwardPass(steps, out, img).Success?
    ensures ForwardPass(steps, out, img).value.0 == img.(depth := ForwardPass(steps, out, img).value.0.depth)
    ensures ForwardPass(steps, out, img).value.1 == seq(NonEmptyCount(steps), _ => NoMeta)
    ensures NonZeroScales(ForwardPass(steps, out, img).value.1)
    ensures Undo(steps, ForwardPass(steps, out, img).value.1, rows) == Undone(rows, [])
    decreases |steps|
  {
    var trail := ForwardPass(steps, out, img).value.1;
    if |steps| > 0 {
      var prefix := steps[..|steps| - 1];
      assert PhotometricOnly(prefix) by {
        forall k | 0 <= k < |prefix| && |prefix[k]| > 0
          ensures prefix[k][0].name == "Standardize" || prefix[k][0].name == "Normalize"
        {
          assert prefix[k] == steps[k];
        }
      }
      PhotometricStepsKeepBoxes(prefix, out, img, rows);
      var slot := steps[|steps| - 1];
      if |slot| > 0 {
        assert slot == steps[|steps| - 1];
        var before := ForwardPass(prefix, out, img).value.1;
        assert trail == before + [NoMeta];
        assert trail[..|trail| - 1] == before;
      }
    }
  }

  /** The bottom-right pad records no top or left padding, so its inverse
      leaves every row as it is. */
  lemma BotRightPadShiftIsIdentity(img: Image, out: OutShape, rows: seq<Box>)
    requires BotRightPadStep(img, out).Success?
    ensures ApplyInverse(ShiftInverse, "BotRightPad", BotRightPadStep(img, out).value.1, rows) == Success(rows)
  {
    var meta := BotRightPadStep(img, out).value.1;
    assert ShiftRows(rows, meta.left, meta.top) == rows;
  }

  /** The recorded DetRescale factors are the ratios of the resize actually
      performed exactly when the output shape is square. */
  lemma DetRescaleFactorsMatchResize(img: Image, out: OutShape)
    requires DetRescaleStep(img, out).Success?
    ensures
      var (resized, meta) := DetRescaleStep(img, out).value;
      (meta.sw * img.width as real == resized.width as real &&
       meta.sh * img.height as real == resized.height as real) <==> out.0 == out.1
  {
  }

  /** A 100 x 50 (h x w) image rescaled to (200, 200) records the factors
      (4, 2), and the box (10, 10, 20, 20) goes back to (2.5, 5, 5, 10). */
  lemma DetRescaleExample()
    ensures DetRescaleStep(Image(100, 50, 3, U8), (200, 200)) == Success((Image(200, 200, 3, U8), ScaleFactors(4.0, 2.0)))
    ensures RescaleBox(Box(10.0, 10.0, 20.0, 20.0), 4.0, 2.0) == Box(2.5, 5.0, 5.0, 10.0)
  {
  }

  /** A 1000 x 500 (h x w) image with output shape (416, 416) gets the
      uniform factor 0.412 and becomes 412 x 206. A 5 x 10 image with
      output shape (9, 9) gets 0.5, and its height 2.5 rounds to the even
      neighbour 2. */
  lemma DetLongMaxRescaleExample()
    ensures DetLongMaxRescaleStep(Image(1000, 500, 3, U8), (416, 416)) == Success((Image(412, 206, 3, U8), ScaleFactors(0.412, 0.412)))
    ensures DetLongMaxRescaleStep(Image(5, 10, 3, U8), (9, 9)) == Success((Image(2, 5, 3, U8), ScaleFactors(0.5, 0.5)))
  {
  }

  /** The channel counts the OpenCV calls refuse: a pad step on a
      five-channel image, and the blob of a two-channel image. */
  lemma ChannelRefusalExample()
    ensures CenterPadStep(Image(10, 10, 5, U8), (20, 20)) == Failure(PadValueRejected(5))
    ensures BlobFromImage(Image(10, 10, 2, U8)) == Failure(BlobRejected(2))
    ensures BlobFromImage(Image(10, 10, 4, U8)) == Success(Blob(1, 4, 10, 10))
  {
  }

  /** A 10 x 10 single-channel image rescaled to (20, 20) comes back as a
      plane, so the centre pad repeats its value once per column, 20 times,
      and the bindings refuse it. Without a resize, the (10, 10, 1) array
      pads into a plane. */
  lemma SingleChannelPadExample()
    ensures ForwardPass([[StepEntry("DetRescale", map[])],
                         [StepEntry("CenterPad", map["pad_value" := Number(0.0)])]],
                        (20, 20), Image(10, 10, 1, U8))
         == Failure(PadValueRejected(20))
    ensures CenterPadStep(Image(10, 10, 1, U8), (20, 20)) == Success((Plane(20, 20, U8), Padding(5, 5, 5, 5)))
  {
  }

  /** Normalize leaves float64 elements, which the blob refuses; a later
      Standardize makes them float32 again. */
  lemma DepthRefusalExample()
    ensures
      var normalize := StepEntry("Normalize", map["mean" := Number(0.5), "std" := Number(0.25)]);
      var standardize := StepEntry("Standardize", map["max_value" := Number(255.0)]);
      ForwardPass([[normalize]], (20, 20), Image(10, 10, 3, U8)) == Success((Image(10, 10, 3, F64), [NoMeta])) &&
      BlobFromImage(Image(10, 10, 3, F64)) == Failure(DepthRejected(F64)) &&
      ForwardPass([[normalize], [standardize]], (20, 20), Image(10, 10, 3, U8))
        == Success((Image(10, 10, 3, F32), [NoMeta, NoMeta]))
  {
    var normalize := StepEntry("Normalize", map["mean" := Number(0.5), "std" := Number(0.25)]);
    var standardize := StepEntry("Standardize", map["max_value" := Number(255.0)]);
    var steps: seq<StepSlot> := [[normalize], [standardize]];
    assert steps[..1] == [[normalize]];
    assert [[normalize]][..0] == [];
    assert Parse(normalize) == Success(Normalize(Number(0.5), Number(0.25)));
    assert Parse(standardize) == Success(Standardize(Number(255.0)));
    var img := Image(10, 10, 3, U8);
    assert ForwardPass([], (20, 20), img) == Success((img, []));
    assert Apply(Normalize(Number(0.5), Number(0.25)), (20, 20), img) == Success((Image(10, 10, 3, F64), NoMeta));
    assert |[[normalize]][0]| == 1;
    assert [[normalize]][0][0] == normalize;
    assert [] + [NoMeta] == [NoMeta];
    assert ForwardPass([[normalize]], (20, 20), img) == Success((Image(10, 10, 3, F64), [NoMeta]));
    assert Apply(Standardize(Number(255.0)), (20, 20), Image(10, 10, 3, F64)) == Success((Image(10, 10, 3, F32), NoMeta));
    assert steps[|steps| - 1][0] == standardize;
    assert [NoMeta] + [NoMeta] == [NoMeta, NoMeta];
    assert ForwardPass(steps, (20, 20), img) == Success((Image(10, 10, 3, F32), [NoMeta, NoMeta]));
  }

  /** A 100 x 80 (h x w) image padded to 110 x 90: centred, 5 pixels on
      every side and the box (5, 5, 15, 15) goes back to (0, 0, 10, 10);
      bottom-right, all 10 pixels below and to the right. */
  lemma PaddingExample()
    ensures CenterPadStep(Image(100, 80, 3, U8), (90, 110)) == Success((Image(110, 90, 3, U8), Padding(5, 5, 5, 5)))
    ensures ShiftBox(Box(5.0, 5.0, 15.0, 15.0), 5, 5) == Box(0.0, 0.0, 10.0, 10.0)
    ensures BotRightPadStep(Image(100, 80, 3, U8), (90, 110)) == Success((Image(110, 90, 3, U8), Padding(0, 10, 0, 10)))
  {
  }

  /** The corner box (10, 10, 30, 40) becomes (10, 10, 20, 30). */
  lemma XywhExample()
    ensures ToXywh(Box(10.0, 10.0, 30.0, 40.0)) == Box(10.0, 10.0, 20.0, 30.0)
  {
  }
}
