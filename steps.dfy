/** Vocabulary shared by the forward (pre-processing) and the inverse
    (post-processing) pass: the step configuration as the caller writes it,
    the closed set of step kinds it names, the per-step metadata record and
    the errors either pass can raise. */
module Steps {

  /** Every failure of the two passes, one constructor per exception the
      source can raise on its own account or through the call it makes. */
  datatype Error =
    | UnknownStep(name: string)          // KeyError from a step-name mapper
    | BadArguments(name: string)         // TypeError binding the step's keyword arguments
    | ResizeRejected(width: int, height: int)
                                         // cv2.resize refuses a target side that is not positive
    | BorderRejected(top: int, bottom: int, left: int, right: int)
                                         // cv2.copyMakeBorder refuses a negative border
    | PadValueRejected(components: int)  // the OpenCV bindings refuse a border value of more than 4 components
    | BlobRejected(channels: int)        // cv2.dnn.blobFromImage accepts 1, 3 or 4 channels only
    | DepthRejected(depth: Depth)        // cv2.dnn.blobFromImage accepts uint8 or float32 elements only
    | PopFromEmpty                       // IndexError: the trail ran out on the inverse pass
    | MetadataMismatch(name: string)     // the popped entry is not of the kind the inverse reads
    | BatchNotOne(size: nat)             // ValueError from squeezing a batch axis that is not 1
    | EmptyClassAxis                     // ValueError: max/argmax over zero classes

  /** The element type of an image array. */
  datatype Depth = U8 | F32 | F64

  datatype Result<+T> = Success(value: T) | Failure(error: Error) {
    predicate IsFailure() { Failure? }
    function PropagateFailure<U>(): Result<U>
      requires Failure?
    {
      Failure(error)
    }
    function Extract(): T
      requires Success?
    {
      value
    }
  }

  /** A keyword-argument value: a number or a list of numbers. The model
      reads only its presence, not the broadcasting a list can cause. */
  datatype Arg = Number(x: real) | Numbers(xs: seq<real>)

  /** One item of a step dictionary: the step name and its keyword arguments
      (an empty map stands for both `{}` and `None`, which the source treats
      alike). */
  datatype StepEntry = StepEntry(name: string, kwargs: map<string, Arg>)

  /** A configuration slot: the items of one step dictionary in insertion
      order. An empty slot (an empty dictionary or `None`) is skipped; of a
      non-empty one only the first item is read. */
  type StepSlot = seq<StepEntry>

  /** The closed set of steps the forward mapper knows. */
  datatype Step =
    | Standardize(maxValue: Arg)
    | DetRescale
    | DetLongMaxRescale
    | BotRightPad(padValue: Arg)
    | CenterPad(padValue: Arg)
    | Normalize(mean: Arg, std: Arg)

  /** What one forward step records: nothing, the `(w, h)` scale factors, or
      the `(top, bottom, left, right)` padding. */
  datatype Meta =
    | NoMeta
    | ScaleFactors(sw: real, sh: real)
    | Padding(top: int, bottom: int, left: int, right: int)

  const StepNames: set<string> :=
    {"Standardize", "DetRescale", "DetLongMaxRescale", "BotRightPad", "CenterPad", "Normalize"}

  /** The number of slots that hold a step: the ones both passes act on. */
  function NonEmptyCount(steps: seq<StepSlot>): nat
  {
    if |steps| == 0 then 0
    else NonEmptyCount(steps[..|steps| - 1]) + (if |steps[|steps| - 1]| == 0 then 0 else 1)
  }

  /** The keyword parameters each step function declares after the image;
      none of them has a default. */
  function Params(name: string): set<string>
  {
    if name == "Standardize" then {"max_value"}
    else if name == "BotRightPad" || name == "CenterPad" then {"pad_value"}
    else if name == "Normalize" then {"mean", "std"}
    else {}
  }

  function NameOf(step: Step): string
  {
    match step
    case Standardize(_) => "Standardize"
    case DetRescale => "DetRescale"
    case DetLongMaxRescale => "DetLongMaxRescale"
    case BotRightPad(_) => "BotRightPad"
    case CenterPad(_) => "CenterPad"
    case Normalize(_, _) => "Normalize"
  }

  /** The forward mapper lookup followed by the call's argument binding:
      an unknown name fails first, then a keyword set that is not exactly
      the step's parameters. */
  function Parse(e: StepEntry): (r: Result<Step>)
    ensures r.Success? <==> e.name in StepNames && e.kwargs.Keys == Params(e.name)
    ensures r.Failure? ==> r.error == (if e.name in StepNames then BadArguments(e.name) else UnknownStep(e.name))
    ensures r.Success? ==> NameOf(r.value) == e.name
  {
    if e.name !in StepNames then Failure(UnknownStep(e.name))
    else if e.kwargs.Keys != Params(e.name) then Failure(BadArguments(e.name))
    else if e.name == "Standardize" then Success(Standardize(e.kwargs["max_value"]))
    else if e.name == "DetRescale" then Success(DetRescale)
    else if e.name == "DetLongMaxRescale" then Success(DetLongMaxRescale)
    else if e.name == "BotRightPad" then Success(BotRightPad(e.kwargs["pad_value"]))
    else if e.name == "CenterPad" then Success(CenterPad(e.kwargs["pad_value"]))
    else Success(Normalize(e.kwargs["mean"], e.kwargs["std"]))
  }

  /** The kind of metadata entry each named step records, and that the
      inverse of that step reads back. */
  predicate MetaFits(name: string, meta: Meta)
  {
    if name == "DetRescale" || name == "DetLongMaxRescale" then
      meta.ScaleFactors? && meta.sw != 0.0 && meta.sh != 0.0
    else if name == "BotRightPad" || name == "CenterPad" then
      meta.Padding?
    else if name == "Standardize" || name == "Normalize" then
      meta == NoMeta
    else
      false
  }
}
