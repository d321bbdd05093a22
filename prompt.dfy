/** The decoder's input feed built by `decode` in app/SAM2.js from the
    clicked points, an optional previous mask and the stored embeddings. */
module Prompt {
  import opened Wrappers
  import opened Half
  import opened Tensors
  import opened Embeddings

  /** A click `{ x, y, label }` (`label` is reserved in Dafny); the label is 1 for a positive and 0 for a
      negative point, passed on as a number. */
  datatype Point = Point(x: real, y: real, pointLabel: real)

  /** `points.map(p => [p.x, p.y]).flat()`: the coordinates pair by pair. */
  function FlatCoords(points: seq<Point>): (coords: seq<Float>)
    ensures |coords| == 2 * |points|
    ensures forall i :: 0 <= i < |points| ==>
              coords[2 * i] == FromReal(points[i].x) && coords[2 * i + 1] == FromReal(points[i].y)
  {
    seq(2 * |points|, j requires 0 <= j < 2 * |points| =>
      var p := points[j / 2]; FromReal(if j % 2 == 0 then p.x else p.y))
  }

  /** `points.map(p => p.label)`. */
  function Labels(points: seq<Point>): (labels: seq<Float>)
    ensures |labels| == |points|
  {
    seq(|points|, i requires 0 <= i < |points| => FromReal(points[i].pointLabel))
  }

  /** The side of the low-resolution mask the decoder takes. */
  const MaskSide: nat := 256

  /** The placeholder used when no previous mask is given: a zero
      `Float32Array(256 * 256)` shaped [1, 1, 256, 256]. */
  const EmptyMask: Tensor := Tensor(Float32, Zeros(MaskSide * MaskSide), [1, 1, MaskSide, MaskSide])

  /** The inputs object fed to `session.run`, one field per input name. */
  datatype DecoderInputs = DecoderInputs(
    imageEmbed: Tensor,
    highResFeats0: Tensor,
    highResFeats1: Tensor,
    pointCoords: Tensor,
    pointLabels: Tensor,
    maskInput: Tensor,
    hasMaskInput: Tensor)

  /** The number of elements dims describe. */
  function Size(dims: seq<int>): int
  {
    if |dims| == 0 then 1 else dims[0] * Size(dims[1..])
  }

  /** The `inputs` object of app/SAM2.js:245-288. The image tensors are
      passed through untouched; point i's coordinates are elements 2i and
      2i+1 of `point_coords` and its label is element i of `point_labels`;
      `has_mask_input` is 1 exactly when a previous mask is supplied, which
      is then `mask_input`, and the zero placeholder otherwise. */
  function BuildInputs(points: seq<Point>, masks: Option<Tensor>, image: EncodedImage): (inputs: DecoderInputs)
    ensures inputs.imageEmbed == image.imageEmbed
    ensures inputs.highResFeats0 == image.highResFeats0 && inputs.highResFeats1 == image.highResFeats1
    ensures inputs.pointCoords.dtype == Float32 && inputs.pointCoords.dims == [1, |points|, 2]
    ensures |inputs.pointCoords.data| == 2 * |points|
    ensures forall i :: 0 <= i < |points| ==>
              inputs.pointCoords.data[2 * i] == FromReal(points[i].x) &&
              inputs.pointCoords.data[2 * i + 1] == FromReal(points[i].y)
    ensures inputs.pointLabels.dtype == Float32 && inputs.pointLabels.dims == [1, |points|]
    ensures |inputs.pointLabels.data| == |points|
    ensures forall i :: 0 <= i < |points| ==> inputs.pointLabels.data[i] == FromReal(points[i].pointLabel)
    ensures inputs.hasMaskInput.dtype == Float32 && inputs.hasMaskInput.dims == [1]
    ensures inputs.hasMaskInput.data == [FromReal(if masks.Some? then 1.0 else 0.0)]
    ensures inputs.maskInput == if masks.Some? then masks.value else EmptyMask
  {
    var maskInput := if masks.Some? then masks.value else EmptyMask;
    var hasMaskInput := Tensor(Float32, [FromReal(if masks.Some? then 1.0 else 0.0)], [1]);
    DecoderInputs(
      image.imageEmbed,
      image.highResFeats0,
      image.highResFeats1,
      Tensor(Float32, FlatCoords(points), [1, |points|, 2]),
      Tensor(Float32, Labels(points), [1, |points|]),
      maskInput,
      hasMaskInput)
  }

  /** Every tensor `decode` builds itself holds exactly as many elements as
      its dimensions describe; only the image tensors and a supplied mask
      come from elsewhere. */
  lemma BuiltTensorsMatchTheirShape(points: seq<Point>, masks: Option<Tensor>, image: EncodedImage)
    ensures var inputs := BuildInputs(points, masks, image);
            Size(inputs.pointCoords.dims) == |inputs.pointCoords.data| &&
            Size(inputs.pointLabels.dims) == |inputs.pointLabels.data| &&
            Size(inputs.hasMaskInput.dims) == |inputs.hasMaskInput.data| &&
            (masks.None? ==> Size(inputs.maskInput.dims) == |inputs.maskInput.data|)
  {
    var p := |points|;
    assert Size([2]) == 2 && Size([p, 2]) == p * 2;
    assert Size([1, p, 2]) == 2 * p;
    assert Size([p]) == p && Size([1, p]) == p;
    assert Size([MaskSide]) == MaskSide;
    assert Size([MaskSide, MaskSide]) == MaskSide * MaskSide;
    assert Size([1, MaskSide, MaskSide]) == MaskSide * MaskSide;
    assert Size([1, 1, MaskSide, MaskSide]) == MaskSide * MaskSide;
  }
}
