/** The inverse pass: the boxes the network predicts in its input's
    coordinates are carried back to the original image by undoing the
    geometric steps in reverse order, each with the metadata entry its
    forward step recorded; then the boxes are turned into (x, y, w, h) form
    and each candidate gets its best score and class. */
module Postprocess {
  import opened Steps

  /** One row of the box tensor: corner form `(x1, y1, x2, y2)` until the
      final conversion, `(x, y, w, h)` after it. */
  datatype Box = Box(x1: real, y1: real, x2: real, y2: real)

  /** What the inverse mapper gives for a step name. */
  datatype Inverse = RescaleInverse | ShiftInverse | NoInverse

  /** The inverse mapper: both rescale steps share `_rescale_boxes`, both pad
      steps `_shift_bboxes`, the photometric steps have no inverse, and any
      other name fails the lookup. */
  function InverseOf(name: string): (r: Result<Inverse>)
    ensures r.Success? <==> name in StepNames
    ensures r == Success(RescaleInverse) <==> name == "DetRescale" || name == "DetLongMaxRescale"
    ensures r == Success(ShiftInverse) <==> name == "BotRightPad" || name == "CenterPad"
    ensures r == Success(NoInverse) <==> name == "Standardize" || name == "Normalize"
    ensures r.Failure? ==> r.error == UnknownStep(name)
  {
    if name == "DetRescale" || name == "DetLongMaxRescale" then Success(RescaleInverse)
    else if name == "BotRightPad" || name == "CenterPad" then Success(ShiftInverse)
    else if name == "Standardize" || name == "Normalize" then Success(NoInverse)
    else Failure(UnknownStep(name))
  }

  /** `_rescale_boxes` on one row: the x pair is divided by the width factor
      and the y pair by the height factor, so scaling the result back by the
      factors gives the row again. */
  function RescaleBox(b: Box, sw: real, sh: real): (c: Box)
    requires sw != 0.0 && sh != 0.0
    ensures c.x1 * sw == b.x1 && c.x2 * sw == b.x2
    ensures c.y1 * sh == b.y1 && c.y2 * sh == b.y2
  {
    Box(b.x1 / sw, b.y1 / sh, b.x2 / sw, b.y2 / sh)
  }

  /** `_shift_bboxes` on one row: the x pair loses the left padding and the
      y pair the top padding. */
  function ShiftBox(b: Box, left: int, top: int): (c: Box)
    ensures c.x1 + left as real == b.x1 && c.x2 + left as real == b.x2
    ensures c.y1 + top as real == b.y1 && c.y2 + top as real == b.y2
  {
    Box(b.x1 - left as real, b.y1 - top as real, b.x2 - left as real, b.y2 - top as real)
  }

  /** The final `xyxy` to `xywh` conversion of one row: the corner is kept,
      and the far corner becomes the extent measured from it. */
  function ToXywh(b: Box): (c: Box)
    ensures c.x1 == b.x1 && c.y1 == b.y1
    ensures c.x1 + c.x2 == b.x2 && c.y1 + c.y2 == b.y2
  {
    Box(b.x1, b.y1, b.x2 - b.x1, b.y2 - b.y1)
  }

  function RescaleRows(rows: seq<Box>, sw: real, sh: real): seq<Box>
    requires sw != 0.0 && sh != 0.0
  {
    seq(|rows|, k requires 0 <= k < |rows| => RescaleBox(rows[k], sw, sh))
  }

  function ShiftRows(rows: seq<Box>, left: int, top: int): seq<Box>
  {
    seq(|rows|, k requires 0 <= k < |rows| => ShiftBox(rows[k], left, top))
  }

  function XywhRows(rows: seq<Box>): seq<Box>
  {
    seq(|rows|, k requires 0 <= k < |rows| => ToXywh(rows[k]))
  }

  /** Every scale-factor entry of the trail can be divided by. */
  predicate NonZeroScales(trail: seq<Meta>)
  {
    forall m | m in trail :: m.ScaleFactors? ==> m.sw != 0.0 && m.sh != 0.0
  }

  /** One inverse applied to all rows with the entry popped for its step. An
      entry of the wrong kind fails before any row is written. */
  function ApplyInverse(inverse: Inverse, name: string, meta: Meta, rows: seq<Box>): (r: Result<seq<Box>>)
    requires meta.ScaleFactors? ==> meta.sw != 0.0 && meta.sh != 0.0
    ensures r.Failure? <==>
      (inverse == RescaleInverse && !meta.ScaleFactors?) || (inverse == ShiftInverse && !meta.Padding?)
    ensures r.Failure? ==> r.error == MetadataMismatch(name)
    ensures r.Success? ==> |r.value| == |rows|
    ensures inverse == NoInverse ==> r == Success(rows)
    ensures r.Success? && inverse == RescaleInverse ==>
      forall k | 0 <= k < |rows| :: r.value[k] == RescaleBox(rows[k], meta.sw, meta.sh)
    ensures r.Success? && inverse == ShiftInverse ==>
      forall k | 0 <= k < |rows| :: r.value[k] == ShiftBox(rows[k], meta.left, meta.top)
  {
    match inverse
    case NoInverse => Success(rows)
    case RescaleInverse =>
      if meta.ScaleFactors? then Success(RescaleRows(rows, meta.sw, meta.sh))
      else Failure(MetadataMismatch(name))
    case ShiftInverse =>
      if meta.Padding? then Success(ShiftRows(rows, meta.left, meta.top))
      else Failure(MetadataMismatch(name))
  }

  /** How the inverse loop ends: with the rows and the entries left unpopped,
      or with an error and the rows as they stood when it was raised. */
  datatype Undone =
    | Undone(rows: seq<Box>, rest: seq<Meta>)
    | Stuck(error: Error, rows: seq<Box>)

  /** The inverse loop over `steps`, last slot first: an empty slot is
      skipped; any other slot pops one entry from the tail of the trail
      (failing on an empty trail), looks its name up, and, if the step has
      an inverse, applies it with that entry. */
  function Undo(steps: seq<StepSlot>, trail: seq<Meta>, rows: seq<Box>): (u: Undone)
    requires NonZeroScales(trail)
    ensures |u.rows| == |rows|
    ensures u.Undone? ==>
      |trail| >= NonEmptyCount(steps) && u.rest == trail[..|trail| - NonEmptyCount(steps)]
    decreases |steps|
  {
    if |steps| == 0 then Undone(rows, trail)
    else
      var slot := steps[|steps| - 1];
      if |slot| == 0 then Undo(steps[..|steps| - 1], trail, rows)
      else if |trail| == 0 then Stuck(PopFromEmpty, rows)
      else
        var meta := trail[|trail| - 1];
        match InverseOf(slot[0].name)
        case Failure(e) => Stuck(e, rows)
        case Success(inverse) =>
          match ApplyInverse(inverse, slot[0].name, meta, rows)
          case Failure(e) => Stuck(e, rows)
          case Success(undone) => Undo(steps[..|steps| - 1], trail[..|trail| - 1], undone)
  }

  /** Class probabilities as a (batch, candidates, classes) tensor. */
  datatype ScoreTensor = ScoreTensor(classes: nat, data: seq<seq<seq<real>>>) {
    /** Every candidate has one probability per class. */
    predicate WellShaped()
    {
      forall b, i | 0 <= b < |data| && 0 <= i < |data[b]| :: |data[b][i]| == classes
    }
  }

  /** The outputs besides the boxes, one entry per candidate. */
  datatype Detections = Detections(scores: seq<real>, classes: seq<nat>)

  /** `max` over the class axis of one candidate. */
  function RowMax(row: seq<real>): (m: real)
    requires |row| > 0
    ensures m in row
    ensures forall k | 0 <= k < |row| :: row[k] <= m
    decreases |row|
  {
    if |row| == 1 then row[0]
    else
      var m := RowMax(row[..|row| - 1]);
      if row[|row| - 1] > m then row[|row| - 1] else m
  }

  /** `argmax` over the class axis of one candidate: the first index of a
      maximum. */
  function ArgMax(row: seq<real>): (k: nat)
    requires |row| > 0
    ensures k < |row|
    ensures forall j | 0 <= j < |row| :: row[j] <= row[k]
    ensures forall j | 0 <= j < k :: row[j] < row[k]
    decreases |row|
  {
    if |row| == 1 then 0
    else
      var k := ArgMax(row[..|row| - 1]);
      if row[|row| - 1] > row[k] then |row| - 1 else k
  }

  /** The number of elements of a two-level nesting. */
  function TotalLength<T>(xss: seq<seq<T>>): nat
  {
    if |xss| == 0 then 0 else |xss[0]| + TotalLength(xss[1..])
  }

  /** numpy's `flatten` of a two-level nesting: the rows one after another. */
  function Flatten<T>(xss: seq<seq<T>>): (r: seq<T>)
    ensures |r| == TotalLength(xss)
    ensures |xss| == 1 ==> r == xss[0]
  {
    if |xss| == 0 then [] else xss[0] + Flatten(xss[1..])
  }

  /** In the flattened sequence, row `i` starts where the rows before it
      end: element `j` of row `i` sits at `TotalLength(xss[..i]) + j`. */
  lemma {:induction false} FlattenPlacesRows<T>(xss: seq<seq<T>>, i: nat, j: nat)
    requires i < |xss| && j < |xss[i]|
    ensures TotalLength(xss[..i]) + j < |Flatten(xss)|
    ensures Flatten(xss)[TotalLength(xss[..i]) + j] == xss[i][j]
    decreases i
  {
    if i == 0 {
      assert xss[..i] == [];
    } else {
      assert xss[..i][1..] == xss[1..][..i - 1];
      FlattenPlacesRows(xss[1..], i - 1, j);
    }
  }

  /** `raw_scores.max(axis=2).flatten()` and `argmax(raw_scores, axis=2).flatten()`:
      a reduction over an empty class axis fails; otherwise, for a batch of
      one, candidate `i` gets its highest probability and the first class
      that has it. */
  function Detect(t: ScoreTensor): (r: Result<Detections>)
    requires t.WellShaped()
    ensures r.Failure? <==> t.classes == 0
    ensures r.Failure? ==> r.error == EmptyClassAxis
    ensures r.Success? && |t.data| == 1 ==>
      |r.value.scores| == |t.data[0]| && |r.value.classes| == |t.data[0]| &&
      forall i | 0 <= i < |t.data[0]| ::
        r.value.classes[i] < t.classes &&
        t.data[0][i][r.value.classes[i]] == r.value.scores[i] &&
        (forall c | 0 <= c < t.classes :: t.data[0][i][c] <= r.value.scores[i]) &&
        (forall c | 0 <= c < r.value.classes[i] :: t.data[0][i][c] < r.value.scores[i])
  {
    if t.classes == 0 then Failure(EmptyClassAxis)
    else
      var scores := seq(|t.data|, b requires 0 <= b < |t.data| =>
        seq(|t.data[b]|, i requires 0 <= i < |t.data[b]| => RowMax(t.data[b][i])));
      var classes: seq<seq<nat>> := seq(|t.data|, b requires 0 <= b < |t.data| =>
        seq(|t.data[b]|, i requires 0 <= i < |t.data[b]| => ArgMax(t.data[b][i])));
      Success(Detections(Flatten(scores), Flatten(classes)))
  }

  /** The whole inverse pass on the squeezed rows: the inverse loop, then, if
      it completed, the `xywh` conversion and the detections. Also gives the
      rows as they are left, which is what the caller's tensor holds. */
  function InversePass(steps: seq<StepSlot>, rows: seq<Box>, scores: ScoreTensor, trail: seq<Meta>): (r: (Result<Detections>, seq<Box>))
    requires NonZeroScales(trail) && scores.WellShaped()
    ensures |r.1| == |rows|
    ensures r.0.Failure? <==> Undo(steps, trail, rows).Stuck? || scores.classes == 0
    ensures Undo(steps, trail, rows).Stuck? ==>
      r == (Failure(Undo(steps, trail, rows).error), Undo(steps, trail, rows).rows)
    ensures Undo(steps, trail, rows).Undone? ==>
      r.1 == XywhRows(Undo(steps, trail, rows).rows) && r.0 == Detect(scores)
  {
    match Undo(steps, trail, rows)
    case Stuck(e, stuckRows) => (Failure(e), stuckRows)
    case Undone(undoneRows, _) => (Detect(scores), XywhRows(undoneRows))
  }

  /** The rows of a (1, N) box tensor, as `np.squeeze(boxes, 0)` views them. */
  ghost function Rows(a: array2<Box>): (rs: seq<Box>)
    requires a.Length0 == 1
    reads a
    ensures |rs| == a.Length1
    ensures forall k | 0 <= k < a.Length1 :: rs[k] == a[0, k]
  {
    seq(a.Length1, k requires 0 <= k < a.Length1 reads a => a[0, k])
  }

  /** `_rescale_boxes`, in place. */
  method RescaleBoxes(boxes: array2<Box>, sw: real, sh: real)
    requires boxes.Length0 == 1 && sw != 0.0 && sh != 0.0
    modifies boxes
    ensures Rows(boxes) == RescaleRows(old(Rows(boxes)), sw, sh)
  {
    var k := 0;
    while k < boxes.Length1
      invariant 0 <= k <= boxes.Length1
      invariant forall j | 0 <= j < k :: boxes[0, j] == RescaleBox(old(boxes[0, j]), sw, sh)
      invariant forall j | k <= j < boxes.Length1 :: boxes[0, j] == old(boxes[0, j])
    {
      boxes[0, k] := RescaleBox(boxes[0, k], sw, sh);
      k := k + 1;
    }
  }

  /** `_shift_bboxes`, in place. */
  method ShiftBboxes(boxes: array2<Box>, left: int, top: int)
    requires boxes.Length0 == 1
    modifies boxes
    ensures Rows(boxes) == ShiftRows(old(Rows(boxes)), left, top)
  {
    var k := 0;
    while k < boxes.Length1
      invariant 0 <= k <= boxes.Length1
      invariant forall j | 0 <= j < k :: boxes[0, j] == ShiftBox(old(boxes[0, j]), left, top)
      invariant forall j | k <= j < boxes.Length1 :: boxes[0, j] == old(boxes[0, j])
    {
      boxes[0, k] := ShiftBox(boxes[0, k], left, top);
      k := k + 1;
    }
  }

  /** The `xyxy` to `xywh` column updates, in place. */
  method ConvertToXywh(boxes: array2<Box>)
    requires boxes.Length0 == 1
    modifies boxes
    ensures Rows(boxes) == XywhRows(old(Rows(boxes)))
  {
    var k := 0;
    while k < boxes.Length1
      invariant 0 <= k <= boxes.Length1
      invariant forall j | 0 <= j < k :: boxes[0, j] == ToXywh(old(boxes[0, j]))
      invariant forall j | k <= j < boxes.Length1 :: boxes[0, j] == old(boxes[0, j])
    {
      boxes[0, k] := ToXywh(boxes[0, k]);
      k := k + 1;
    }
  }

  /** The `Postprocessing` object: the step configuration, fixed at
      construction. */
  class Postprocessing {
    const steps: seq<StepSlot>

    constructor (steps: seq<StepSlot>)
      ensures this.steps == steps
    {
      this.steps := steps;
    }

    /** `__call__`: squeezes the batch axis of the box tensor (writes go
        through to the caller's tensor), undoes the steps in reverse order
        popping a copy of the trail, converts to `xywh` and reduces the
        scores. */
    method Call(boxes: array2<Box>, scores: ScoreTensor, metadata: seq<Meta>) returns (r: Result<Detections>)
      requires NonZeroScales(metadata) && scores.WellShaped()
      modifies boxes
      ensures boxes.Length0 != 1 ==> r == Failure(BatchNotOne(boxes.Length0)) && unchanged(boxes)
      ensures boxes.Length0 == 1 ==> (r, Rows(boxes)) == InversePass(steps, old(Rows(boxes)), scores, metadata)
    {
      if boxes.Length0 != 1 {
        return Failure(BatchNotOne(boxes.Length0));
      }
      ghost var initial := Rows(boxes);
      var pending := metadata;
      var i := |steps|;
      assert steps[..i] == steps;
      while i > 0
        invariant 0 <= i <= |steps|
        invariant NonZeroScales(pending)
        invariant Undo(steps[..i], pending, Rows(boxes)) == Undo(steps, metadata, initial)
      {
        assert steps[..i][..i - 1] == steps[..i - 1];
        assert steps[..i][i - 1] == steps[i - 1];
        i := i - 1;
        var slot := steps[i];
        if |slot| == 0 {
          continue;
        }
        if |pending| == 0 {
          return Failure(PopFromEmpty);
        }
        var meta := pending[|pending| - 1];
        pending := pending[..|pending| - 1];
        var name := slot[0].name;
        var inverse := InverseOf(name);
        if inverse.Failure? {
          return Failure(inverse.error);
        }
        match inverse.value {
          case NoInverse =>
          case RescaleInverse =>
            if !meta.ScaleFactors? {
              return Failure(MetadataMismatch(name));
            }
            RescaleBoxes(boxes, meta.sw, meta.sh);
          case ShiftInverse =>
            if !meta.Padding? {
              return Failure(MetadataMismatch(name));
            }
            ShiftBboxes(boxes, meta.left, meta.top);
        }
      }
      ConvertToXywh(boxes);
      r := Detect(scores);
    }
  }
}
