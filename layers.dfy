/**
 * The PyTorch layers the architecture is assembled from, as descriptors, and
 * the shape each of them produces from an input shape (None where PyTorch
 * raises). Only shapes are modelled; the numeric work of the layers is not.
 */
module Layers {
  import opened Wrappers
  import ShapeUtils

  datatype Activation = ReLU | LeakyReLU | SELU

  datatype Layer =
    | Conv1d(inChannels: int, outChannels: int, kernelSize: int, stride: int) // padding="same"
    | Act(kind: Activation)
    | MaxPool1d(kernelSize: int, stride: int)
    | BatchNorm1d(numFeatures: int)
    | Dropout(p: real)
    | Lstm(inputSize: int, hiddenSize: int, dropout: real)                   // batch_first=True
    | Linear(inFeatures: int, outFeatures: int)

  /** The exceptions PyTorch's layer constructors raise for arguments they refuse. */
  datatype TorchError = ValueError | RuntimeError

  /**
   * The exception constructing `layer` raises, if any. `nn.Conv1d` refuses
   * "same" padding for a stride other than 1 before it allocates its weight;
   * `nn.LSTM` refuses a dropout outside [0, 1] and a hidden size below 1;
   * `nn.Dropout` refuses a probability outside [0, 1]; allocating a weight
   * or buffer with a negative dimension is a RuntimeError. Zero widths are
   * accepted (PyTorch only warns about initialising empty tensors).
   */
  function ConstructorError(layer: Layer): Option<TorchError>
  {
    match layer
    case Conv1d(i, o, k, s) =>
      if s != 1 then Some(ValueError)
      else if i < 0 || o < 0 || k < 0 then Some(RuntimeError)
      else None
    case Lstm(i, h, d) =>
      if d < 0.0 || d > 1.0 || h <= 0 then Some(ValueError)
      else if i < 0 then Some(RuntimeError)
      else None
    case BatchNorm1d(n) => if n < 0 then Some(RuntimeError) else None
    case Linear(i, o) => if i < 0 || o < 0 then Some(RuntimeError) else None
    case Dropout(p) => if p < 0.0 || p > 1.0 then Some(ValueError) else None
    case Act(_) => None
    case MaxPool1d(_, _) => None
  }

  /** A tensor shape, outermost dimension first. */
  type Shape = seq<int>

  /** `nn.ModuleDict` lookup of an activation by name (KeyError when absent). */
  function ActivationByName(name: string): Option<Activation>
  {
    if name == "relu" then Some(ReLU)
    else if name == "leaky_relu" then Some(LeakyReLU)
    else if name == "selu" then Some(SELU)
    else None
  }

  function Last(s: Shape): int
    requires |s| > 0
  {
    s[|s| - 1]
  }

  /** The shape one layer of an `nn.Sequential` produces, or None where PyTorch raises. */
  function Apply(layer: Layer, x: Shape): Option<Shape>
  {
    match layer
    case Conv1d(i, o, k, s) =>
      // PyTorch rejects "same" padding for strided convolutions and pads
      // asymmetrically otherwise, so the length is kept.
      if |x| == 3 && x[1] == i && s == 1 && k >= 1 && x[2] >= 1
      then Some([x[0], o, ShapeUtils.SameOutFeatures(k, s, x[2])])
      else None
    case Act(_) => Some(x)
    case Dropout(_) => Some(x)
    case MaxPool1d(k, s) =>
      if 2 <= |x| <= 3 && s != 0 && ShapeUtils.ConvOutFeatures(k, s, 0, Last(x)) >= 1
      then Some(x[..|x| - 1] + [ShapeUtils.ConvOutFeatures(k, s, 0, Last(x))])
      else None
    case BatchNorm1d(n) =>
      if 2 <= |x| <= 3 && x[1] == n then Some(x) else None
    case Linear(i, o) =>
      if |x| >= 1 && Last(x) == i then Some(x[..|x| - 1] + [o]) else None
    case Lstm(_, _, _) =>
      // An LSTM returns a pair and is driven only by the recurrent stage.
      None
  }

  /** `nn.Sequential(*layers)(x)`, on shapes. */
  function RunSequential(layers: seq<Layer>, x: Shape): Option<Shape>
  {
    if layers == [] then Some(x)
    else match RunSequential(layers[..|layers| - 1], x)
      case None => None
      case Some(y) => Apply(layers[|layers| - 1], y)
  }

  /** An `nn.Sequential` of `nn.Sequential` blocks. */
  function RunBlocks(blocks: seq<seq<Layer>>, x: Shape): Option<Shape>
  {
    if blocks == [] then Some(x)
    else match RunBlocks(blocks[..|blocks| - 1], x)
      case None => None
      case Some(y) => RunSequential(blocks[|blocks| - 1], y)
  }

  /**
   * One `nn.LSTM(batch_first=True)` call on an input of shape
   * (batch, steps, features): the output sequence (batch, steps, hidden) and
   * the final hidden state (1, batch, hidden).
   */
  function LstmStep(layer: Layer, x: Shape): Option<(Shape, Shape)>
  {
    if layer.Lstm? && |x| == 3 && x[2] == layer.inputSize
    then Some(([x[0], x[1], layer.hiddenSize], [1, x[0], layer.hiddenSize]))
    else None
  }

  /** `Tensor.squeeze()`: every dimension of size 1 removed, the others kept in order. */
  function Squeeze(x: Shape): (r: Shape)
    ensures 1 !in r
    ensures |r| <= |x|
    ensures forall d :: d != 1 ==> multiset(r)[d] == multiset(x)[d]
  {
    if x == [] then []
    else
      var init := x[..|x| - 1];
      assert x == init + [x[|x| - 1]];
      if x[|x| - 1] == 1 then Squeeze(init)
      else Squeeze(init) + [x[|x| - 1]]
  }

  /** Squeezing works dimension by dimension, left to right: the kept dimensions stay in order. */
  lemma {:induction false} SqueezeAppend(a: Shape, b: Shape)
    ensures Squeeze(a + b) == Squeeze(a) + Squeeze(b)
    decreases |b|
  {
    if b == [] {
      assert a + b == a;
    } else {
      var b' := b[..|b| - 1];
      assert a + b == (a + b') + [b[|b| - 1]];
      assert (a + b)[..|a + b| - 1] == a + b';
      SqueezeAppend(a, b');
    }
  }

  /** A shape with no dimension of size 1 is left as it is. */
  lemma {:induction false} SqueezeKeepsOthers(x: Shape)
    requires 1 !in x
    ensures Squeeze(x) == x
    decreases |x|
  {
    if x != [] {
      assert x[|x| - 1] in x;
      SqueezeKeepsOthers(x[..|x| - 1]);
      assert x[..|x| - 1] + [x[|x| - 1]] == x;
    }
  }
}
