/** Tensor sizes: a size is the sequence of a tensor's dimensions. */
module Shapes {

  /** `numel()`: the number of elements of a tensor of size `shape`. */
  function Numel(shape: seq<nat>): nat
  {
    if shape == [] then 1 else shape[0] * Numel(shape[1..])
  }

  /** The number of elements of a three-dimensional tensor. */
  lemma Numel3(shape: seq<nat>)
    requires |shape| == 3
    ensures Numel(shape) == shape[0] * (shape[1] * shape[2])
  {
    var t := shape[1..];
    assert Numel(t[1..]) == shape[2] by {
      assert t[1..][1..] == [];
    }
    assert Numel(t) == shape[1] * shape[2];
  }
}
