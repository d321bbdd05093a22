/** The tensor descriptors handed to the inference engine. */
module Tensors {
  import opened Half

  /** What `new ort.Tensor(type, data, dims)` records: the element type, the
      flat data and the dimensions. */
  datatype Tensor = Tensor(dtype: string, data: seq<Float>, dims: seq<int>)

  const Float32: string := "float32"

  /** A JavaScript number stored as binary32 (rounding is not modelled). */
  function FromReal(x: real): (v: Float)
    ensures v.Finite? && (if v.negative then -v.magnitude else v.magnitude) == x
  {
    if x < 0.0 then Finite(true, -x) else Finite(false, x)
  }

  /** The elements of `new Float32Array(n)`: n zeros. */
  function Zeros(n: nat): seq<Float>
  {
    seq(n, _ => Finite(false, 0.0))
  }
}
