/**
 * The baseline classifier of sonixhub/architect/baseline.py as a builder of
 * layer descriptors: a convolutional encoder, a stack of LSTM layers and a
 * fully connected decoder, with the rules that say how the channel and
 * feature widths of consecutive stages connect.
 */
module ArchitectBaseline {
  import opened Wrappers
  import opened Layers
  import ShapeUtils
  import Python

  /** A dropout argument: None, or a probability (0.0 counts as unset, as in Python). */
  type Rate = Option<real>

  predicate Truthy(d: Rate)
  {
    d.Some? && d.value != 0.0
  }

  /** The constructor arguments of `BaselineRNNModel`. */
  datatype ModelConfig = ModelConfig(
    inputShape: seq<int>,
    encoderDepth: seq<int>,
    rnnDepth: seq<int>,
    decoderDepth: seq<int>,
    kernelSize: int,
    stride: int,
    activation: string,
    dropout: Option<(Rate, Rate, Rate)>)

  datatype BuildError =
    | IndexError                      // input_shape or rnn_depth is empty
    | KeyError(key: string)            // an unknown activation name is looked up
    | ConstructorRaised(kind: TorchError) // a layer constructor or `torch.zeros` refuses its arguments
    | ShapeError                      // PyTorch rejects the example input while measuring the encoder

  /** All entries of a shape are at least 0 (`torch.zeros` refuses a negative dimension). */
  predicate NonNegative(s: seq<int>)
  {
    forall i :: 0 <= i < |s| ==> s[i] >= 0
  }

  /* ------------------------------------------------- construction errors */

  /**
   * The exception building `layer` raises; an `Act` layer stands for the
   * `self.activations[self.activation]` lookup, a KeyError for an unknown name.
   */
  function LayerError(layer: Layer, activation: string): Option<BuildError>
  {
    if layer.Act? && ActivationByName(activation).None? then Some(KeyError(activation))
    else if ConstructorError(layer).Some? then Some(ConstructorRaised(ConstructorError(layer).value))
    else None
  }

  /** The first exception raised while the layers are built one after the other, in list order. */
  function FirstError(layers: seq<Layer>, activation: string): (r: Option<BuildError>)
    ensures r.None? <==> forall x :: x in layers ==> LayerError(x, activation).None?
    decreases |layers|
  {
    if layers == [] then None
    else if LayerError(layers[0], activation).Some? then LayerError(layers[0], activation)
    else
      assert forall x :: x in layers ==> x == layers[0] || x in layers[1..];
      FirstError(layers[1..], activation)
  }

  /** A raised exception is the one of the first layer whose construction raises. */
  lemma {:induction false} FirstErrorIsFirst(layers: seq<Layer>, activation: string)
    requires FirstError(layers, activation).Some?
    ensures exists i :: 0 <= i < |layers| && FirstError(layers, activation) == LayerError(layers[i], activation)
                        && forall j :: 0 <= j < i ==> LayerError(layers[j], activation).None?
    decreases |layers|
  {
    if LayerError(layers[0], activation).None? {
      var rest := layers[1..];
      FirstErrorIsFirst(rest, activation);
      var i :| 0 <= i < |rest| && FirstError(rest, activation) == LayerError(rest[i], activation)
               && forall j :: 0 <= j < i ==> LayerError(rest[j], activation).None?;
      forall j | 0 <= j < i + 1
        ensures LayerError(layers[j], activation).None?
      {
        if j > 0 {
          assert layers[j] == rest[j - 1];
        }
      }
      assert layers[i + 1] == rest[i];
    }
  }

  /** The first exception raised while the blocks are built one after the other. */
  function FirstBlockError(blocks: seq<seq<Layer>>, activation: string): (r: Option<BuildError>)
    ensures r.None? <==> forall i :: 0 <= i < |blocks| ==> FirstError(blocks[i], activation).None?
    decreases |blocks|
  {
    if blocks == [] then None
    else if FirstError(blocks[0], activation).Some? then FirstError(blocks[0], activation)
    else
      assert forall i :: 1 <= i < |blocks| ==> blocks[i] == blocks[1..][i - 1];
      FirstBlockError(blocks[1..], activation)
  }

  /** A raised exception is the one of the first block whose construction raises. */
  lemma {:induction false} FirstBlockErrorIsFirst(blocks: seq<seq<Layer>>, activation: string)
    requires FirstBlockError(blocks, activation).Some?
    ensures exists i :: 0 <= i < |blocks| && FirstBlockError(blocks, activation) == FirstError(blocks[i], activation)
                        && forall j :: 0 <= j < i ==> FirstError(blocks[j], activation).None?
    decreases |blocks|
  {
    if FirstError(blocks[0], activation).None? {
      var rest := blocks[1..];
      FirstBlockErrorIsFirst(rest, activation);
      var i :| 0 <= i < |rest| && FirstBlockError(rest, activation) == FirstError(rest[i], activation)
               && forall j :: 0 <= j < i ==> FirstError(rest[j], activation).None?;
      forall j | 0 <= j < i + 1
        ensures FirstError(blocks[j], activation).None?
      {
        if j > 0 {
          assert blocks[j] == rest[j - 1];
        }
      }
      assert blocks[i + 1] == rest[i];
    }
  }

  /** The three stages of a built model and the measured encoder output shape. */
  datatype BaselineModel = BaselineModel(
    encoder: seq<seq<Layer>>,
    encoderOutputShape: Shape,
    rnn: seq<Layer>,
    decoder: seq<Layer>)

  /* ---------------------------------------------------------------- encoder */

  /**
   * `Encoder.encoder_block`: conv("same") -> activation -> maxpool(2, 2) ->
   * batchnorm(out_channels), then dropout unless this is the head block.
   */
  function EncoderBlock(index: int, inChannels: int, outChannels: int, kernelSize: int,
                        stride: int, act: Activation, dropout: Rate, head: int): seq<Layer>
  {
    [Conv1d(inChannels, outChannels, kernelSize, stride), Act(act), MaxPool1d(2, 2), BatchNorm1d(outChannels)]
    + (if Truthy(dropout) && head != index then [Dropout(dropout.value)] else [])
  }

  /** `Encoder.encoder`: one block per consecutive pair of the channel chain. */
  function EncoderBlocks(chain: seq<int>, kernelSize: int, stride: int, act: Activation,
                         dropout: Rate): seq<seq<Layer>>
    requires |chain| >= 1
  {
    seq(|chain| - 1, i requires 0 <= i < |chain| - 1 =>
      EncoderBlock(i, chain[i], chain[i + 1], kernelSize, stride, act, dropout, |chain| - 2))
  }

  /** There is one block per entry of `encoder_depth`; block i maps chain[i] to chain[i+1]. */
  lemma EncoderStructure(chain: seq<int>, kernelSize: int, stride: int, act: Activation, dropout: Rate)
    requires |chain| >= 1
    ensures var blocks := EncoderBlocks(chain, kernelSize, stride, act, dropout);
      && |blocks| == |chain| - 1
      && forall i :: 0 <= i < |blocks| ==>
           && blocks[i][..4] == [Conv1d(chain[i], chain[i + 1], kernelSize, stride), Act(act),
                                 MaxPool1d(2, 2), BatchNorm1d(chain[i + 1])]
           && (|blocks[i]| == 5 <==> Truthy(dropout) && i != |chain| - 2)
           && (|blocks[i]| == 5 ==> blocks[i][4] == Dropout(dropout.value))
           && (|blocks[i]| != 5 ==> |blocks[i]| == 4)
  {
  }

  /** The feature length after n floor-halvings. */
  function Halve(n: int, times: nat): int
  {
    if times == 0 then n else Python.FloorDiv(Halve(n, times - 1), 2)
  }

  lemma RunSequentialSnoc(layers: seq<Layer>, last: Layer, x: Shape)
    ensures RunSequential(layers + [last], x) ==
      match RunSequential(layers, x)
      case None => None
      case Some(y) => Apply(last, y)
  {
    assert (layers + [last])[..|layers|] == layers;
  }

  /** Running `l + m` is running l and then m. */
  lemma {:induction false} RunSequentialAppend(l: seq<Layer>, m: seq<Layer>, x: Shape)
    ensures RunSequential(l + m, x) ==
      match RunSequential(l, x)
      case None => None
      case Some(y) => RunSequential(m, y)
    decreases |m|
  {
    if m == [] {
      assert l + m == l;
    } else {
      var m' := m[..|m| - 1];
      assert l + m == (l + m') + [m[|m| - 1]];
      RunSequentialSnoc(l + m', m[|m| - 1], x);
      RunSequentialAppend(l, m', x);
      match RunSequential(l, x)
      case None =>
      case Some(y) =>
        RunSequentialSnoc(m', m[|m| - 1], y);
        assert m' + [m[|m| - 1]] == m;
    }
  }

  /**
   * One encoder block on (1, in_channels, n): with stride 1 it yields
   * (1, out_channels, n // 2); PyTorch raises for a strided "same"
   * convolution and when pooling would leave no feature.
   */
  lemma EncoderBlockShape(index: int, inChannels: int, outChannels: int, kernelSize: int,
                          stride: int, act: Activation, dropout: Rate, head: int, b: int, n: int)
    ensures RunSequential(EncoderBlock(index, inChannels, outChannels, kernelSize, stride, act, dropout, head),
                          [b, inChannels, n])
         == if stride == 1 && kernelSize >= 1 && n >= 2
            then Some([b, outChannels, Python.FloorDiv(n, 2)])
            else None
  {
    var core := [Conv1d(inChannels, outChannels, kernelSize, stride), Act(act), MaxPool1d(2, 2), BatchNorm1d(outChannels)];
    var tail := if Truthy(dropout) && head != index then [Dropout(dropout.value)] else [];
    var x := [b, inChannels, n];
    EncoderCoreShape(inChannels, outChannels, kernelSize, stride, act, b, n);
    RunSequentialAppend(core, tail, x);
    if stride == 1 && kernelSize >= 1 && n >= 2 && tail != [] {
      var y := [b, outChannels, Python.FloorDiv(n, 2)];
      assert tail == [] + [tail[0]];
      RunSequentialSnoc([], tail[0], y);
    }
  }

  /** The four layers every encoder block starts with: conv, activation, maxpool(2, 2), batchnorm. */
  lemma EncoderCoreShape(inChannels: int, outChannels: int, kernelSize: int, stride: int, act: Activation, b: int, n: int)
    ensures RunSequential([Conv1d(inChannels, outChannels, kernelSize, stride), Act(act), MaxPool1d(2, 2),
                           BatchNorm1d(outChannels)], [b, inChannels, n])
         == if stride == 1 && kernelSize >= 1 && n >= 2
            then Some([b, outChannels, Python.FloorDiv(n, 2)])
            else None
  {
    var conv := Conv1d(inChannels, outChannels, kernelSize, stride);
    var pool := MaxPool1d(2, 2);
    var bn := BatchNorm1d(outChannels);
    var x := [b, inChannels, n];
    assert [conv] == [] + [conv];
    RunSequentialSnoc([], conv, x);
    assert [conv, Act(act)] == [conv] + [Act(act)];
    RunSequentialSnoc([conv], Act(act), x);
    assert [conv, Act(act), pool] == [conv, Act(act)] + [pool];
    RunSequentialSnoc([conv, Act(act)], pool, x);
    assert [conv, Act(act), pool, bn] == [conv, Act(act), pool] + [bn];
    RunSequentialSnoc([conv, Act(act), pool], bn, x);
    ShapeUtils.PoolHalves(n);
    if stride == 1 && kernelSize >= 1 && n >= 2 {
      var c := [b, outChannels, n];
      var y := [b, outChannels, Python.FloorDiv(n, 2)];
      assert RunSequential([conv], x) == Some(c);
      assert RunSequential([conv, Act(act)], x) == Some(c);
      assert c[..|c| - 1] + [Python.FloorDiv(n, 2)] == y;
      assert RunSequential([conv, Act(act), pool], x) == Some(y);
    } else if stride == 1 && kernelSize >= 1 && n >= 1 {
      assert RunSequential([conv, Act(act), pool], x) == None;
    }
  }

  lemma RunBlocksSnoc(blocks: seq<seq<Layer>>, last: seq<Layer>, x: Shape)
    ensures RunBlocks(blocks + [last], x) ==
      match RunBlocks(blocks, x)
      case None => None
      case Some(y) => RunSequential(last, y)
  {
    assert (blocks + [last])[..|blocks|] == blocks;
  }

  /** The encoder succeeds on its first j blocks exactly when the (j-1)-th halving still leaves 2 features. */
  predicate EncoderFits(kernelSize: int, stride: int, n: int, j: nat)
  {
    j == 0 || (stride == 1 && kernelSize >= 1 && Halve(n, j - 1) >= 2)
  }

  lemma HalveStep(n: int, j: nat)
    ensures Halve(n, j + 1) >= 2 ==> Halve(n, j) >= 4
  {
  }

  /**
   * The encoder's shape law on (1, chain[0], n): each block floor-halves the
   * feature length and moves to the next channel width, so the output is
   * (1, chain[-1], n halved |depth| times); it fails exactly when some block
   * is strided or has fewer than 2 features to pool.
   */
  lemma {:induction false} EncoderShape(chain: seq<int>, kernelSize: int, stride: int,
                                        act: Activation, dropout: Rate, n: int, j: nat)
    requires 1 <= |chain| && j <= |chain| - 1
    ensures RunBlocks(EncoderBlocks(chain, kernelSize, stride, act, dropout)[..j], [1, chain[0], n])
         == if EncoderFits(kernelSize, stride, n, j) then Some([1, chain[j], Halve(n, j)]) else None
  {
    var blocks := EncoderBlocks(chain, kernelSize, stride, act, dropout);
    if j == 0 {
      assert blocks[..0] == [];
    } else {
      assert blocks[..j] == blocks[..j - 1] + [blocks[j - 1]];
      RunBlocksSnoc(blocks[..j - 1], blocks[j - 1], [1, chain[0], n]);
      EncoderShape(chain, kernelSize, stride, act, dropout, n, j - 1);
      if EncoderFits(kernelSize, stride, n, j - 1) {
        EncoderBlockShape(j - 1, chain[j - 1], chain[j], kernelSize, stride, act, dropout,
                          |chain| - 2, 1, Halve(n, j - 1));
      } else if j >= 2 {
        HalveStep(n, j - 2);
      }
    }
  }

  /**
   * Building one encoder block raises nothing exactly when its convolution is
   * unstrided with non-negative widths and kernel, the activation name is
   * known, and its dropout, when it gets one, is a probability.
   */
  predicate BlockOk(index: int, inChannels: int, outChannels: int, kernelSize: int, stride: int,
                    activation: string, dropout: Rate, head: int)
  {
    && stride == 1 && inChannels >= 0 && outChannels >= 0 && kernelSize >= 0
    && ActivationByName(activation).Some?
    && (Truthy(dropout) && head != index ==> 0.0 <= dropout.value <= 1.0)
  }

  lemma EncoderBlockBuilds(index: int, inChannels: int, outChannels: int, kernelSize: int, stride: int,
                           activation: string, dropout: Rate, head: int)
    ensures FirstError(EncoderBlock(index, inChannels, outChannels, kernelSize, stride,
                                    ResolveActivation(activation), dropout, head), activation).None?
        <==> BlockOk(index, inChannels, outChannels, kernelSize, stride, activation, dropout, head)
  {
    var b := EncoderBlock(index, inChannels, outChannels, kernelSize, stride, ResolveActivation(activation), dropout, head);
    assert b[0] in b && b[1] in b;
    if Truthy(dropout) && head != index {
      assert b[4] in b;
    }
  }

  /**
   * The encoder's layers all build: with at least one block, the convolutions
   * are unstrided with a non-negative kernel, every channel width is
   * non-negative, the activation name is known, and the dropout is a
   * probability whenever some (non-head) block gets it.
   */
  predicate EncoderArgsOk(chain: seq<int>, kernelSize: int, stride: int, activation: string, dropout: Rate)
  {
    |chain| >= 2 ==>
      && stride == 1 && kernelSize >= 0 && NonNegative(chain)
      && ActivationByName(activation).Some?
      && (Truthy(dropout) && |chain| >= 3 ==> 0.0 <= dropout.value <= 1.0)
  }

  /** Building the encoder raises nothing exactly when its arguments are the ones `EncoderArgsOk` admits. */
  lemma EncoderBuilds(chain: seq<int>, kernelSize: int, stride: int, activation: string, dropout: Rate)
    requires |chain| >= 1
    ensures FirstBlockError(EncoderBlocks(chain, kernelSize, stride, ResolveActivation(activation), dropout),
                            activation).None?
        <==> EncoderArgsOk(chain, kernelSize, stride, activation, dropout)
  {
    var blocks := EncoderBlocks(chain, kernelSize, stride, ResolveActivation(activation), dropout);
    var head := |chain| - 2;
    forall i | 0 <= i < |blocks|
      ensures FirstError(blocks[i], activation).None?
          <==> BlockOk(i, chain[i], chain[i + 1], kernelSize, stride, activation, dropout, head)
    {
      EncoderBlockBuilds(i, chain[i], chain[i + 1], kernelSize, stride, activation, dropout, head);
    }
    if |chain| >= 2 && !EncoderArgsOk(chain, kernelSize, stride, activation, dropout) {
      if !NonNegative(chain) {
        var j :| 0 <= j < |chain| && chain[j] < 0;
        if j < |chain| - 1 {
          assert !BlockOk(j, chain[j], chain[j + 1], kernelSize, stride, activation, dropout, head);
        } else {
          assert !BlockOk(j - 1, chain[j - 1], chain[j], kernelSize, stride, activation, dropout, head);
        }
      } else {
        assert !BlockOk(0, chain[0], chain[1], kernelSize, stride, activation, dropout, head);
      }
    }
  }

  /* ------------------------------------------------------------ recurrent */

  /** `LSTMModule.rnn`: layer i maps chain[i] to chain[i+1]; only non-head layers get the dropout. */
  function RnnLayers(chain: seq<int>, dropout: Rate): seq<Layer>
    requires |chain| >= 1
  {
    seq(|chain| - 1, i requires 0 <= i < |chain| - 1 =>
      Lstm(chain[i], chain[i + 1], if Truthy(dropout) && i != |chain| - 2 then dropout.value else 0.0))
  }

  /** The dropout passed to an LSTM layer is nonzero only on a non-head layer with a set dropout. */
  lemma RnnDropout(chain: seq<int>, dropout: Rate)
    requires |chain| >= 1
    ensures var rnn := RnnLayers(chain, dropout);
      && |rnn| == |chain| - 1
      && forall i :: 0 <= i < |rnn| ==>
           && rnn[i].Lstm? && rnn[i].inputSize == chain[i] && rnn[i].hiddenSize == chain[i + 1]
           && (rnn[i].dropout != 0.0 <==> Truthy(dropout) && i != |chain| - 2)
  {
  }

  /**
   * `LSTMModule.forward`: each layer consumes the previous layer's output
   * sequence; the result is the last layer's final hidden state (with no
   * layer at all, `hidden` is unbound and Python raises).
   */
  function LstmForward(layers: seq<Layer>, x: Shape): Option<Shape>
    decreases |layers|
  {
    if layers == [] then None
    else match LstmStep(layers[0], x)
      case None => None
      case Some((y, h)) => if |layers| == 1 then Some(h) else LstmForward(layers[1..], y)
  }

  /** LSTM layers whose sizes follow the chain. */
  predicate LstmChained(layers: seq<Layer>, chain: seq<int>)
  {
    && |layers| + 1 == |chain|
    && forall i :: 0 <= i < |layers| ==>
         layers[i].Lstm? && layers[i].inputSize == chain[i] && layers[i].hiddenSize == chain[i + 1]
  }

  /** A chained LSTM stack maps (b, t, chain[0]) to the hidden state (1, b, chain[-1]). */
  lemma {:induction false} LstmChainShape(layers: seq<Layer>, chain: seq<int>, b: int, t: int)
    requires LstmChained(layers, chain) && |layers| >= 1
    ensures LstmForward(layers, [b, t, chain[0]]) == Some([1, b, chain[|chain| - 1]])
    decreases |layers|
  {
    if |layers| > 1 {
      assert LstmChained(layers[1..], chain[1..]);
      LstmChainShape(layers[1..], chain[1..], b, t);
    }
  }

  /**
   * The LSTM layers all build: every width of the chain after the first is
   * a positive hidden size, the first is a non-negative input size, and the
   * dropout is a probability whenever some (non-head) layer gets it.
   */
  predicate RnnArgsOk(chain: seq<int>, dropout: Rate)
  {
    && (|chain| >= 2 ==> chain[0] >= 0)
    && (forall i :: 1 <= i < |chain| ==> chain[i] >= 1)
    && (Truthy(dropout) && |chain| >= 3 ==> 0.0 <= dropout.value <= 1.0)
  }

  /** Building the LSTM stack raises nothing exactly when its arguments are the ones `RnnArgsOk` admits. */
  lemma RnnBuilds(chain: seq<int>, dropout: Rate, activation: string)
    requires |chain| >= 1
    ensures FirstError(RnnLayers(chain, dropout), activation).None? <==> RnnArgsOk(chain, dropout)
  {
    var rnn := RnnLayers(chain, dropout);
    if FirstError(rnn, activation).None? {
      forall i | 1 <= i < |chain|
        ensures chain[i] >= 1
      {
        assert rnn[i - 1] in rnn;
      }
      if |chain| >= 2 {
        assert rnn[0] in rnn;
      }
    }
  }

  /* -------------------------------------------------------------- decoder */

  /** One step of `Decoder.decoder_block`: a Linear, then activation and dropout unless it is the head. */
  function DecoderStep(i: int, chain: seq<int>, act: Activation, dropout: Rate): seq<Layer>
    requires 0 <= i < |chain| - 1
  {
    [Linear(chain[i], chain[i + 1])]
    + (if i != |chain| - 2
       then [Act(act)] + (if Truthy(dropout) then [Dropout(dropout.value)] else [])
       else [])
  }

  /** The decoder after its first n steps. */
  function DecoderLayers(chain: seq<int>, act: Activation, dropout: Rate, n: nat): seq<Layer>
    requires n <= |chain| - 1
  {
    if n == 0 then [] else DecoderLayers(chain, act, dropout, n - 1) + DecoderStep(n - 1, chain, act, dropout)
  }

  /** After the last step the decoder ends with the Linear that emits chain[-1] values. */
  lemma DecoderEndsWithLinear(chain: seq<int>, act: Activation, dropout: Rate)
    requires |chain| >= 2
    ensures var dec := DecoderLayers(chain, act, dropout, |chain| - 1);
      |dec| > 0 && dec[|dec| - 1] == Linear(chain[|chain| - 2], chain[|chain| - 1])
  {
  }

  /** The decoder begins with the Linear that reads chain[0] values. */
  lemma {:induction false} DecoderStartsWithLinear(chain: seq<int>, act: Activation, dropout: Rate, n: nat)
    requires 1 <= n <= |chain| - 1
    ensures var dec := DecoderLayers(chain, act, dropout, n);
      |dec| > 0 && dec[0] == Linear(chain[0], chain[1])
  {
    if n > 1 {
      DecoderStartsWithLinear(chain, act, dropout, n - 1);
    }
  }

  /** One decoder step maps a last dimension chain[i] to chain[i+1]. */
  lemma DecoderStepShape(i: int, chain: seq<int>, act: Activation, dropout: Rate, prefix: Shape)
    requires 0 <= i < |chain| - 1 && |prefix| >= 1
    ensures RunSequential(DecoderStep(i, chain, act, dropout), prefix + [chain[i]]) == Some(prefix + [chain[i + 1]])
  {
    var lin := Linear(chain[i], chain[i + 1]);
    var x := prefix + [chain[i]];
    var y := prefix + [chain[i + 1]];
    assert x[..|x| - 1] == prefix;
    assert [] + [lin] == [lin];
    RunSequentialSnoc([], lin, x);
    assert RunSequential([lin], x) == Some(y);
    if i != |chain| - 2 {
      assert [lin] + [Act(act)] == [lin, Act(act)];
      RunSequentialSnoc([lin], Act(act), x);
      if Truthy(dropout) {
        var d := Dropout(dropout.value);
        assert DecoderStep(i, chain, act, dropout) == [lin, Act(act)] + [d];
        RunSequentialSnoc([lin, Act(act)], d, x);
      } else {
        assert DecoderStep(i, chain, act, dropout) == [lin, Act(act)];
      }
    } else {
      assert DecoderStep(i, chain, act, dropout) == [lin];
    }
  }

  /** The first n decoder steps map a last dimension of chain[0] to chain[n]. */
  lemma {:induction false} DecoderShape(chain: seq<int>, act: Activation, dropout: Rate, n: nat, prefix: Shape)
    requires n <= |chain| - 1 && |prefix| >= 1
    ensures RunSequential(DecoderLayers(chain, act, dropout, n), prefix + [chain[0]]) == Some(prefix + [chain[n]])
  {
    if n > 0 {
      DecoderShape(chain, act, dropout, n - 1, prefix);
      RunSequentialAppend(DecoderLayers(chain, act, dropout, n - 1), DecoderStep(n - 1, chain, act, dropout),
                          prefix + [chain[0]]);
      DecoderStepShape(n - 1, chain, act, dropout, prefix);
    }
  }

  /**
   * Building decoder step i raises nothing exactly when both Linear widths
   * are non-negative and, unless it is the head, the activation name is
   * known and a set dropout is a probability.
   */
  predicate DecoderStepOk(i: int, chain: seq<int>, activation: string, dropout: Rate)
    requires 0 <= i < |chain| - 1
  {
    && chain[i] >= 0 && chain[i + 1] >= 0
    && (i != |chain| - 2 ==> ActivationByName(activation).Some? && (Truthy(dropout) ==> 0.0 <= dropout.value <= 1.0))
  }

  lemma DecoderStepBuilds(i: int, chain: seq<int>, activation: string, dropout: Rate)
    requires 0 <= i < |chain| - 1
    ensures (forall x :: x in DecoderStep(i, chain, ResolveActivation(activation), dropout) ==> LayerError(x, activation).None?)
        <==> DecoderStepOk(i, chain, activation, dropout)
  {
    var step := DecoderStep(i, chain, ResolveActivation(activation), dropout);
    assert step[0] in step;
    if i != |chain| - 2 {
      assert step[1] in step;
      if Truthy(dropout) {
        assert step[2] in step;
      }
    }
  }

  lemma {:induction false} DecoderPrefixBuilds(chain: seq<int>, activation: string, dropout: Rate, n: nat)
    requires n <= |chain| - 1
    ensures (forall x :: x in DecoderLayers(chain, ResolveActivation(activation), dropout, n) ==> LayerError(x, activation).None?)
        <==> forall i :: 0 <= i < n ==> DecoderStepOk(i, chain, activation, dropout)
  {
    if n > 0 {
      DecoderPrefixBuilds(chain, activation, dropout, n - 1);
      DecoderStepBuilds(n - 1, chain, activation, dropout);
    }
  }

  /**
   * The decoder's layers all build: with at least one Linear, every width is
   * non-negative, and with more than one the activation name is known and a
   * set dropout is a probability.
   */
  predicate DecoderArgsOk(chain: seq<int>, activation: string, dropout: Rate)
  {
    |chain| >= 2 ==>
      && NonNegative(chain)
      && (|chain| >= 3 ==> ActivationByName(activation).Some? && (Truthy(dropout) ==> 0.0 <= dropout.value <= 1.0))
  }

  /** Building the decoder raises nothing exactly when its arguments are the ones `DecoderArgsOk` admits. */
  lemma DecoderBuilds(chain: seq<int>, activation: string, dropout: Rate)
    requires |chain| >= 1
    ensures FirstError(DecoderLayers(chain, ResolveActivation(activation), dropout, |chain| - 1), activation).None?
        <==> DecoderArgsOk(chain, activation, dropout)
  {
    DecoderPrefixBuilds(chain, activation, dropout, |chain| - 1);
    if |chain| >= 2 {
      if forall i :: 0 <= i < |chain| - 1 ==> DecoderStepOk(i, chain, activation, dropout) {
        forall j | 0 <= j < |chain|
          ensures chain[j] >= 0
        {
          if j < |chain| - 1 {
            assert DecoderStepOk(j, chain, activation, dropout);
          } else {
            assert DecoderStepOk(j - 1, chain, activation, dropout);
          }
        }
        if |chain| >= 3 {
          assert DecoderStepOk(0, chain, activation, dropout);
        }
      }
    }
  }

  /* ---------------------------------------------------------------- model */

  /** The activation a name selects; ReLU stands in where the name is never looked up. */
  function ResolveActivation(name: string): Activation
  {
    if ActivationByName(name).Some? then ActivationByName(name).value else ReLU
  }

  /**
   * `BaselineRNNModel.__init__`, raising what the Python constructor raises
   * at the first point it raises: `torch.zeros` on the example shape, the
   * encoder's layers in order, measuring the encoder, the LSTM layers in
   * order, `rnn_depth[-1]`, then the decoder's layers in order.
   */
  function Build(cfg: ModelConfig): Result<BaselineModel, BuildError>
  {
    var d := Dropouts(cfg);
    var a := ResolveActivation(cfg.activation);
    if !NonNegative(cfg.inputShape) then Failure(ConstructorRaised(RuntimeError))
    else if cfg.inputShape == [] then Failure(IndexError)
    else
      var blocks := EncoderBlocks([cfg.inputShape[0]] + cfg.encoderDepth, cfg.kernelSize, cfg.stride, a, d.0);
      var example := [1] + cfg.inputShape;
      var encoderError := FirstBlockError(blocks, cfg.activation);
      if encoderError.Some? then Failure(encoderError.value)
      else match RunBlocks(blocks, example)
      case None => Failure(ShapeError)
      case Some(outShape) =>
        RunBlocksKeepsRank(blocks, example);
        var rnn := RnnLayers([outShape[|outShape| - 1]] + cfg.rnnDepth, d.1);
        var rnnError := FirstError(rnn, cfg.activation);
        if rnnError.Some? then Failure(rnnError.value)
        else if cfg.rnnDepth == [] then Failure(IndexError)
        else
          var decChain := [cfg.rnnDepth[|cfg.rnnDepth| - 1]] + cfg.decoderDepth;
          var decoder := DecoderLayers(decChain, a, d.2, |decChain| - 1);
          var decoderError := FirstError(decoder, cfg.activation);
          if decoderError.Some? then Failure(decoderError.value)
          else Success(BaselineModel(blocks, outShape, rnn, decoder))
  }

  /** `BaselineRNNModel.forward` on shapes: encoder, then rnn, then decoder, then squeeze. */
  function ModelForward(model: BaselineModel, x: Shape): Option<Shape>
  {
    match RunBlocks(model.encoder, x)
    case None => None
    case Some(e) =>
      match LstmForward(model.rnn, e)
      case None => None
      case Some(h) =>
        match RunSequential(model.decoder, h)
        case None => None
        case Some(o) => Some(Squeeze(o))
  }

  lemma ApplyKeepsRank(layer: Layer, x: Shape)
    requires Apply(layer, x).Some?
    ensures |Apply(layer, x).value| == |x|
    ensures |x| >= 2 ==> Apply(layer, x).value[0] == x[0]
  {
  }

  lemma {:induction false} RunSequentialKeepsRank(layers: seq<Layer>, x: Shape)
    requires RunSequential(layers, x).Some?
    ensures |RunSequential(layers, x).value| == |x|
    ensures |x| >= 2 ==> RunSequential(layers, x).value[0] == x[0]
  {
    if layers != [] {
      RunSequentialKeepsRank(layers[..|layers| - 1], x);
      ApplyKeepsRank(layers[|layers| - 1], RunSequential(layers[..|layers| - 1], x).value);
    }
  }

  /** Every layer of the encoder keeps the rank and the batch dimension. */
  lemma {:induction false} RunBlocksKeepsRank(blocks: seq<seq<Layer>>, x: Shape)
    requires RunBlocks(blocks, x).Some?
    ensures |RunBlocks(blocks, x).value| == |x|
    ensures |x| >= 2 ==> RunBlocks(blocks, x).value[0] == x[0]
  {
    if blocks != [] {
      RunBlocksKeepsRank(blocks[..|blocks| - 1], x);
      RunSequentialKeepsRank(blocks[|blocks| - 1], RunBlocks(blocks[..|blocks| - 1], x).value);
    }
  }

  /**
   * For an input shape (channels, features), the model builds exactly when
   * the shape is non-negative, the encoder's, LSTM's and decoder's layers
   * accept their arguments, the encoder fits the feature length and
   * rnn_depth is non-empty; the measured encoder output is
   * (1, encoder_depth[-1], features halved once per block), and that length
   * is the first LSTM layer's input size.
   */
  lemma BuildEncoderOutput(cfg: ModelConfig)
    requires |cfg.inputShape| == 2
    ensures var chain := [cfg.inputShape[0]] + cfg.encoderDepth;
      var n := |cfg.encoderDepth|;
      var d := Dropouts(cfg);
      && (Build(cfg).Success? <==>
            && NonNegative(cfg.inputShape)
            && EncoderArgsOk(chain, cfg.kernelSize, cfg.stride, cfg.activation, d.0)
            && EncoderFits(cfg.kernelSize, cfg.stride, cfg.inputShape[1], n)
            && RnnArgsOk([Halve(cfg.inputShape[1], n)] + cfg.rnnDepth, d.1)
            && cfg.rnnDepth != []
            && DecoderArgsOk([cfg.rnnDepth[|cfg.rnnDepth| - 1]] + cfg.decoderDepth, cfg.activation, d.2))
      && (Build(cfg).Success? ==>
            && Build(cfg).value.encoderOutputShape == [1, chain[n], Halve(cfg.inputShape[1], n)]
            && Build(cfg).value.rnn[0].inputSize == Halve(cfg.inputShape[1], n))
  {
    var d := Dropouts(cfg);
    var n := |cfg.encoderDepth|;
    if NonNegative(cfg.inputShape) {
      EncoderStage(cfg);
      var h := Halve(cfg.inputShape[1], n);
      RnnBuilds([h] + cfg.rnnDepth, d.1, cfg.activation);
      if cfg.rnnDepth != [] {
        DecoderBuilds([cfg.rnnDepth[|cfg.rnnDepth| - 1]] + cfg.decoderDepth, cfg.activation, d.2);
      }
    }
  }

  /**
   * The encoder stage of `Build` on an input shape (channels, features):
   * its layers build and the example input passes exactly when
   * `EncoderArgsOk` and `EncoderFits` hold, and the output then has
   * encoder_depth[-1] channels and the features halved once per block.
   */
  lemma EncoderStage(cfg: ModelConfig)
    requires |cfg.inputShape| == 2
    ensures var chain := [cfg.inputShape[0]] + cfg.encoderDepth;
      var n := |cfg.encoderDepth|;
      var blocks := EncoderBlocks(chain, cfg.kernelSize, cfg.stride, ResolveActivation(cfg.activation), Dropouts(cfg).0);
      && (FirstBlockError(blocks, cfg.activation).None? && RunBlocks(blocks, [1] + cfg.inputShape).Some?
          <==> EncoderArgsOk(chain, cfg.kernelSize, cfg.stride, cfg.activation, Dropouts(cfg).0)
               && EncoderFits(cfg.kernelSize, cfg.stride, cfg.inputShape[1], n))
      && (RunBlocks(blocks, [1] + cfg.inputShape).Some? ==>
            RunBlocks(blocks, [1] + cfg.inputShape) == Some([1, chain[n], Halve(cfg.inputShape[1], n)]))
  {
    var chain := [cfg.inputShape[0]] + cfg.encoderDepth;
    var blocks := EncoderBlocks(chain, cfg.kernelSize, cfg.stride, ResolveActivation(cfg.activation), Dropouts(cfg).0);
    EncoderShape(chain, cfg.kernelSize, cfg.stride, ResolveActivation(cfg.activation), Dropouts(cfg).0,
                 cfg.inputShape[1], |chain| - 1);
    assert blocks[..|chain| - 1] == blocks;
    assert [1] + cfg.inputShape == [1, chain[0], cfg.inputShape[1]];
    EncoderBuilds(chain, cfg.kernelSize, cfg.stride, cfg.activation, Dropouts(cfg).0);
  }

  /**
   * `nn.Conv1d` refuses "same" padding with a stride other than 1 when the
   * first block is built, before the activation is looked up and before any
   * shape is measured.
   */
  lemma StridedEncoderRaisesValueError(cfg: ModelConfig)
    requires NonNegative(cfg.inputShape) && cfg.inputShape != [] && cfg.encoderDepth != []
    requires cfg.stride != 1
    ensures Build(cfg) == Failure(ConstructorRaised(ValueError))
  {
    var blocks := EncoderBlocks([cfg.inputShape[0]] + cfg.encoderDepth, cfg.kernelSize, cfg.stride,
                                ResolveActivation(cfg.activation), Dropouts(cfg).0);
    assert LayerError(blocks[0][0], cfg.activation) == Some(ConstructorRaised(ValueError));
    assert FirstError(blocks[0], cfg.activation) == Some(ConstructorRaised(ValueError));
  }

  /**
   * An unknown activation name raises KeyError as soon as the first block
   * looks it up, provided that block's convolution was accepted.
   */
  lemma UnknownActivationRaisesKeyError(cfg: ModelConfig)
    requires NonNegative(cfg.inputShape) && cfg.inputShape != [] && cfg.encoderDepth != []
    requires cfg.stride == 1 && cfg.kernelSize >= 0 && cfg.encoderDepth[0] >= 0
    requires ActivationByName(cfg.activation).None?
    ensures Build(cfg) == Failure(KeyError(cfg.activation))
  {
    var blocks := EncoderBlocks([cfg.inputShape[0]] + cfg.encoderDepth, cfg.kernelSize, cfg.stride,
                                ResolveActivation(cfg.activation), Dropouts(cfg).0);
    var b := blocks[0];
    assert LayerError(b[0], cfg.activation).None?;
    assert b[1..][0] == b[1];
    assert FirstError(b[1..], cfg.activation) == Some(KeyError(cfg.activation));
    assert FirstError(b, cfg.activation) == Some(KeyError(cfg.activation));
  }

  /**
   * End to end: a model built for an input shape (channels, features), run on
   * its example input (1, channels, features), yields the squeezed
   * (1, 1, decoder width) tensor, where the decoder width is
   * decoder_depth[-1], or rnn_depth[-1] when the decoder is empty.
   */
  lemma BuildForward(cfg: ModelConfig)
    requires |cfg.inputShape| == 2 && Build(cfg).Success?
    ensures var width := if cfg.decoderDepth == [] then cfg.rnnDepth[|cfg.rnnDepth| - 1]
                         else cfg.decoderDepth[|cfg.decoderDepth| - 1];
      ModelForward(Build(cfg).value, [1] + cfg.inputShape) == Some(Squeeze([1, 1, width]))
  {
    BuildParts(cfg);
    ForwardOfParts(cfg, Build(cfg).value);
  }

  /** `BuildForward` for any model with the parts `BuildParts` describes. */
  lemma ForwardOfParts(cfg: ModelConfig, m: BaselineModel)
    requires |cfg.inputShape| == 2 && cfg.rnnDepth != []
    requires var e := m.encoderOutputShape;
      && RunBlocks(m.encoder, [1] + cfg.inputShape) == Some(e)
      && |e| == 3 && e[0] == 1
      && m.rnn == RnnLayers([e[2]] + cfg.rnnDepth, Dropouts(cfg).1)
      && m.decoder == DecoderLayers([cfg.rnnDepth[|cfg.rnnDepth| - 1]] + cfg.decoderDepth,
                                    ResolveActivation(cfg.activation), Dropouts(cfg).2, |cfg.decoderDepth|)
    ensures var width := if cfg.decoderDepth == [] then cfg.rnnDepth[|cfg.rnnDepth| - 1]
                         else cfg.decoderDepth[|cfg.decoderDepth| - 1];
      ModelForward(m, [1] + cfg.inputShape) == Some(Squeeze([1, 1, width]))
  {
    var e := m.encoderOutputShape;
    var rnnChain := [e[2]] + cfg.rnnDepth;
    RnnLayersChained(rnnChain, Dropouts(cfg).1);
    LstmChainShape(m.rnn, rnnChain, 1, e[1]);
    assert e == [1, e[1], rnnChain[0]];
    var h := [1, 1, cfg.rnnDepth[|cfg.rnnDepth| - 1]];
    var decChain := [cfg.rnnDepth[|cfg.rnnDepth| - 1]] + cfg.decoderDepth;
    DecoderShape(decChain, ResolveActivation(cfg.activation), Dropouts(cfg).2, |decChain| - 1, [1, 1]);
    assert [1, 1] + [decChain[0]] == h;
    var o := [1, 1] + [decChain[|decChain| - 1]];
    StagesCompose(m, [1] + cfg.inputShape, e, h, o);
    assert o == [1, 1, decChain[|decChain| - 1]];
  }

  /** `RnnLayers` builds a stack whose sizes follow its chain. */
  lemma RnnLayersChained(chain: seq<int>, dropout: Rate)
    requires |chain| >= 1
    ensures LstmChained(RnnLayers(chain, dropout), chain)
  {
  }

  /** `ModelForward` is the three stages run one after the other, then squeezed. */
  lemma StagesCompose(m: BaselineModel, x: Shape, e: Shape, h: Shape, o: Shape)
    requires RunBlocks(m.encoder, x) == Some(e)
    requires LstmForward(m.rnn, e) == Some(h)
    requires RunSequential(m.decoder, h) == Some(o)
    ensures ModelForward(m, x) == Some(Squeeze(o))
  {
  }

  /** The dropout triple after `dropout if dropout else (None, None, None)`. */
  function Dropouts(cfg: ModelConfig): (Rate, Rate, Rate)
  {
    if cfg.dropout.Some? then cfg.dropout.value else (None, None, None)
  }

  /** The parts of a successfully built model, one by one. */
  lemma BuildParts(cfg: ModelConfig)
    requires Build(cfg).Success?
    ensures var m := Build(cfg).value;
      var e := m.encoderOutputShape;
      && cfg.inputShape != [] && cfg.rnnDepth != [] && NonNegative(cfg.inputShape)
      && m.encoder == EncoderBlocks([cfg.inputShape[0]] + cfg.encoderDepth, cfg.kernelSize, cfg.stride,
                                    ResolveActivation(cfg.activation), Dropouts(cfg).0)
      && FirstBlockError(m.encoder, cfg.activation).None?
      && FirstError(m.rnn, cfg.activation).None?
      && FirstError(m.decoder, cfg.activation).None?
      && RunBlocks(m.encoder, [1] + cfg.inputShape) == Some(e)
      && |e| == |cfg.inputShape| + 1 && e[0] == 1
      && m.rnn == RnnLayers([e[|e| - 1]] + cfg.rnnDepth, Dropouts(cfg).1)
      && m.decoder == DecoderLayers([cfg.rnnDepth[|cfg.rnnDepth| - 1]] + cfg.decoderDepth,
                                    ResolveActivation(cfg.activation), Dropouts(cfg).2, |cfg.decoderDepth|)
  {
    var m := Build(cfg).value;
    RunBlocksKeepsRank(m.encoder, [1] + cfg.inputShape);
  }

  /** Without a dropout argument no Dropout layer is built and every LSTM dropout is 0. */
  lemma NoDropoutWhenUnset(cfg: ModelConfig)
    requires cfg.dropout.None? && Build(cfg).Success?
    ensures var m := Build(cfg).value;
      && (forall i, j :: 0 <= i < |m.encoder| && 0 <= j < |m.encoder[i]| ==> !m.encoder[i][j].Dropout?)
      && (forall i :: 0 <= i < |m.rnn| ==> m.rnn[i].dropout == 0.0)
      && (forall i :: 0 <= i < |m.decoder| ==> !m.decoder[i].Dropout?)
  {
    BuildParts(cfg);
    NoDropoutInParts(cfg, Build(cfg).value);
  }

  /** `NoDropoutWhenUnset` for any model with the parts `BuildParts` describes. */
  lemma NoDropoutInParts(cfg: ModelConfig, m: BaselineModel)
    requires cfg.dropout.None? && cfg.inputShape != [] && cfg.rnnDepth != []
    requires var e := m.encoderOutputShape;
      && |e| >= 1
      && m.encoder == EncoderBlocks([cfg.inputShape[0]] + cfg.encoderDepth, cfg.kernelSize, cfg.stride,
                                    ResolveActivation(cfg.activation), Dropouts(cfg).0)
      && m.rnn == RnnLayers([e[|e| - 1]] + cfg.rnnDepth, Dropouts(cfg).1)
      && m.decoder == DecoderLayers([cfg.rnnDepth[|cfg.rnnDepth| - 1]] + cfg.decoderDepth,
                                    ResolveActivation(cfg.activation), Dropouts(cfg).2, |cfg.decoderDepth|)
    ensures && (forall i, j :: 0 <= i < |m.encoder| && 0 <= j < |m.encoder[i]| ==> !m.encoder[i][j].Dropout?)
            && (forall i :: 0 <= i < |m.rnn| ==> m.rnn[i].dropout == 0.0)
            && (forall i :: 0 <= i < |m.decoder| ==> !m.decoder[i].Dropout?)
  {
    var a := ResolveActivation(cfg.activation);
    var e := m.encoderOutputShape;
    RnnDropout([e[|e| - 1]] + cfg.rnnDepth, None);
    var decChain := [cfg.rnnDepth[|cfg.rnnDepth| - 1]] + cfg.decoderDepth;
    DecoderHasNoDropout(decChain, a, |decChain| - 1);
  }

  lemma {:induction false} DecoderHasNoDropout(chain: seq<int>, act: Activation, n: nat)
    requires n <= |chain| - 1
    ensures forall i :: 0 <= i < |DecoderLayers(chain, act, None, n)| ==> !DecoderLayers(chain, act, None, n)[i].Dropout?
  {
    if n > 0 {
      DecoderHasNoDropout(chain, act, n - 1);
    }
  }

  /* ------------------------------------------------- the PyTorch modules */

  /**
   * `Encoder`: the block list is built by a comprehension and the output
   * shape is measured once, by running the blocks on a zero example input.
   * The constructor requires what keeps the Python constructor from raising;
   * `Build` models the raising cases.
   */
  class Encoder {
    const stride: int
    const kernelSize: int
    const activation: string
    const dropout: Rate
    const encoderDepth: seq<int>
    const headBlockIndex: int
    const encoder: seq<seq<Layer>>
    const outputShape: Shape

    constructor (encoderDepth: seq<int>, inputShape: Shape, stride: int, kernelSize: int,
                 activation: string, dropout: Rate)
      requires |inputShape| > 0 && NonNegative(inputShape)
      requires EncoderArgsOk([inputShape[0]] + encoderDepth, kernelSize, stride, activation, dropout)
      requires RunBlocks(EncoderBlocks([inputShape[0]] + encoderDepth, kernelSize, stride,
                                       ResolveActivation(activation), dropout), [1] + inputShape).Some?
      ensures this.encoderDepth == [inputShape[0]] + encoderDepth
      ensures headBlockIndex == |this.encoderDepth| - 2
      ensures encoder == EncoderBlocks(this.encoderDepth, kernelSize, stride, ResolveActivation(activation), dropout)
      ensures outputShape == RunBlocks(encoder, [1] + inputShape).value
    {
      this.stride := stride;
      this.kernelSize := kernelSize;
      this.activation := activation;
      this.dropout := dropout;
      var chain := [inputShape[0]] + encoderDepth;
      this.encoderDepth := chain;
      headBlockIndex := |chain| - 2;
      var blocks := EncoderBlocks(chain, kernelSize, stride, ResolveActivation(activation), dropout);
      encoder := blocks;
      outputShape := RunBlocks(blocks, [1] + inputShape).value;
    }
  }

  /** `LSTMModule`: the LSTM list is filled in place by `rnn_block`. */
  class LSTMModule {
    const rnnDepth: seq<int>
    const dropout: Rate
    const headBlockIndex: int
    var rnn: seq<Layer>

    ghost predicate Valid()
    {
      |rnnDepth| >= 1 && headBlockIndex == |rnnDepth| - 2
    }

    constructor (inputShape: Shape, rnnDepth: seq<int>, dropout: Rate)
      requires |inputShape| > 0
      requires RnnArgsOk([inputShape[|inputShape| - 1]] + rnnDepth, dropout)
      ensures Valid()
      ensures this.rnnDepth == [inputShape[|inputShape| - 1]] + rnnDepth && this.dropout == dropout
      ensures rnn == RnnLayers(this.rnnDepth, dropout)
    {
      this.rnnDepth := [inputShape[|inputShape| - 1]] + rnnDepth;
      this.dropout := dropout;
      headBlockIndex := |rnnDepth| - 1;
      rnn := [];
      new;
      RnnBlock();
    }

    /** `rnn_block`: appends one LSTM per consecutive pair of rnn_depth. */
    method RnnBlock()
      requires Valid()
      modifies this`rnn
      ensures rnn == old(rnn) + RnnLayers(rnnDepth, dropout)
    {
      var i := 0;
      while i < |rnnDepth| - 1
        invariant 0 <= i <= |rnnDepth| - 1
        invariant rnn == old(rnn) + RnnLayers(rnnDepth, dropout)[..i]
      {
        var d := 0.0;
        if Truthy(dropout) && headBlockIndex != i {
          d := dropout.value;
        }
        rnn := rnn + [Lstm(rnnDepth[i], rnnDepth[i + 1], d)];
        i := i + 1;
      }
      assert RnnLayers(rnnDepth, dropout)[..i] == RnnLayers(rnnDepth, dropout);
    }

    /**
     * `forward`: feeds each layer the previous layer's output sequence and
     * returns the last hidden state (None where Python raises).
     */
    method Forward(x: Shape) returns (hidden: Option<Shape>)
      ensures hidden == LstmForward(rnn, x)
    {
      var y := x;
      hidden := None;
      var i := 0;
      assert rnn[0..] == rnn;
      while i < |rnn|
        invariant 0 <= i <= |rnn|
        invariant i == 0 ==> hidden == None && y == x
        invariant LstmForward(rnn, x) == if i == |rnn| then hidden else LstmForward(rnn[i..], y)
      {
        var step := LstmStep(rnn[i], y);
        if step.None? {
          return None;
        }
        assert rnn[i..][1..] == rnn[i + 1..];
        y, hidden := step.value.0, Some(step.value.1);
        i := i + 1;
      }
    }
  }

  /** `Decoder`: the layer list is filled in place by `decoder_block`. */
  class Decoder {
    const dropout: Rate
    const decoderDepth: seq<int>
    const headBlockIndex: int
    const activation: string
    var decoder: seq<Layer>

    ghost predicate Valid()
    {
      && |decoderDepth| >= 1 && headBlockIndex == |decoderDepth| - 2
      && (|decoderDepth| >= 3 ==> ActivationByName(activation).Some?)
    }

    constructor (inputShape: Shape, decoderDepth: seq<int>, dropout: Rate, activation: string)
      requires |inputShape| > 0
      requires DecoderArgsOk([inputShape[0]] + decoderDepth, activation, dropout)
      ensures Valid()
      ensures this.decoderDepth == [inputShape[0]] + decoderDepth
      ensures decoder == DecoderLayers(this.decoderDepth, ResolveActivation(activation), dropout, |decoderDepth|)
    {
      this.dropout := dropout;
      this.decoderDepth := [inputShape[0]] + decoderDepth;
      headBlockIndex := |decoderDepth| - 1;
      this.activation := activation;
      decoder := [];
      new;
      DecoderBlock();
    }

    /** `decoder_block`: a Linear per pair, followed by activation and dropout except at the head. */
    method DecoderBlock()
      requires Valid()
      modifies this`decoder
      ensures decoder == old(decoder) + DecoderLayers(decoderDepth, ResolveActivation(activation), dropout, |decoderDepth| - 1)
    {
      var i := 0;
      while i < |decoderDepth| - 1
        invariant 0 <= i <= |decoderDepth| - 1
        invariant decoder == old(decoder) + DecoderLayers(decoderDepth, ResolveActivation(activation), dropout, i)
      {
        decoder := decoder + [Linear(decoderDepth[i], decoderDepth[i + 1])];
        if headBlockIndex != i {
          decoder := decoder + [Act(ActivationByName(activation).value)];
          if Truthy(dropout) {
            decoder := decoder + [Dropout(dropout.value)];
          }
        }
        i := i + 1;
      }
    }

    /** `forward`: the layers as one `nn.Sequential`. */
    function Forward(x: Shape): Option<Shape>
      reads this
    {
      RunSequential(decoder, x)
    }
  }

  /** `BaselineRNNModel`: the three modules composed. */
  class BaselineRNNModel {
    const exampleInput: Shape
    const dropout: (Rate, Rate, Rate)
    const encoder: Encoder
    const rnn: LSTMModule
    const decoder: Decoder

    /** The modules, as the descriptor value that `Build` specifies. */
    function Model(): BaselineModel
      reads this, rnn, decoder
    {
      BaselineModel(encoder.encoder, encoder.outputShape, rnn.rnn, decoder.decoder)
    }

    constructor (cfg: ModelConfig)
      requires Build(cfg).Success?
      ensures exampleInput == [1] + cfg.inputShape
      ensures Model() == Build(cfg).value
    {
      exampleInput := [1] + cfg.inputShape;
      var d := Dropouts(cfg);
      dropout := d;
      BuildParts(cfg);
      var m := Build(cfg).value;
      EncoderBuilds([cfg.inputShape[0]] + cfg.encoderDepth, cfg.kernelSize, cfg.stride, cfg.activation, d.0);
      var enc := new Encoder(cfg.encoderDepth, cfg.inputShape, cfg.stride, cfg.kernelSize, cfg.activation, d.0);
      var e := enc.outputShape;
      RnnBuilds([e[|e| - 1]] + cfg.rnnDepth, d.1, cfg.activation);
      var r := new LSTMModule(e, cfg.rnnDepth, d.1);
      var decChain := [cfg.rnnDepth[|cfg.rnnDepth| - 1]] + cfg.decoderDepth;
      DecoderBuilds(decChain, cfg.activation, d.2);
      assert [cfg.rnnDepth[|cfg.rnnDepth| - 1], 1][0] == decChain[0];
      var dec := new Decoder([cfg.rnnDepth[|cfg.rnnDepth| - 1], 1], cfg.decoderDepth, d.2, cfg.activation);
      encoder, rnn, decoder := enc, r, dec;
    }

    /** `forward`: encoder, then the LSTM stack, then the decoder, then squeeze. */
    method Forward(x: Shape) returns (y: Option<Shape>)
      ensures y == ModelForward(Model(), x)
    {
      var e := RunBlocks(encoder.encoder, x);
      if e.None? {
        return None;
      }
      var h := rnn.Forward(e.value);
      if h.None? {
        return None;
      }
      var o := decoder.Forward(h.value);
      if o.None? {
        return None;
      }
      y := Some(Squeeze(o.value));
    }
  }
}
