/**
 * The production configuration of sonixhub/prod/baseline.py: the concrete
 * classifier, its feature pipeline and its class labels, and the facts that
 * make the three consistent with each other.
 */
module ProdBaseline {
  import opened Wrappers
  import opened Layers
  import opened ArchitectBaseline
  import Python

  /** The arguments of `get_base_cardionet`'s `BaselineRNNModel` (kernel 5 and stride 1 by default). */
  const CardioNet: ModelConfig := ModelConfig(
    [1, 52], [2048, 1024, 512], [256, 128], [64, 32, 3], 5, 1, "relu", None)

  const Classes: seq<string> := ["artifact", "healthy", "abnormal"]

  /** The `ETLPipeline` arguments, with the MFCC extractor's keyword arguments flattened. */
  datatype PipelineConfig = PipelineConfig(
    sampleRate: int,
    duration: int,
    mono: bool,
    extractor: string,
    nFft: int,
    winLength: int,
    hopLength: int,
    nMels: int,
    nMfcc: int,
    averageBy: string)

  const CardioPipeline: PipelineConfig :=
    PipelineConfig(22050, 10, true, "MFCC", 2048, 2048, 1024, 52, 52, "time")

  /** The number of samples every waveform is fixed to. */
  function TargetSamples(p: PipelineConfig): int
  {
    p.duration * p.sampleRate
  }

  /**
   * The production model builds, and its three encoder blocks take the 52
   * MFCC features to 52 -> 26 -> 13 -> 6 over 512 channels.
   */
  lemma CardioNetEncoder()
    ensures Build(CardioNet).Success?
    ensures Build(CardioNet).value.encoderOutputShape == [1, 512, 6]
  {
    assert Halve(52, 1) == 26 && Halve(52, 2) == 13 && Halve(52, 3) == 6;
    BuildEncoderOutput(CardioNet);
  }

  /**
   * The encoder's 6 output features are the first LSTM's input size, the
   * stack runs 6 -> 256 -> 128 without dropout, and the last LSTM width 128
   * is the first Linear's input.
   */
  lemma CardioNetStages()
    ensures Build(CardioNet).Success?
    ensures var m := Build(CardioNet).value;
      && m.rnn == [Lstm(6, 256, 0.0), Lstm(256, 128, 0.0)]
      && m.decoder[0] == Linear(128, 64)
  {
    CardioNetEncoder();
    BuildParts(CardioNet);
    var m := Build(CardioNet).value;
    assert [m.encoderOutputShape[2]] + CardioNet.rnnDepth == [6, 256, 128];
    assert ResolveActivation("relu") == ReLU && Dropouts(CardioNet).2 == None;
    assert [CardioNet.rnnDepth[1]] + CardioNet.decoderDepth == [128, 64, 32, 3];
    DecoderStartsWithLinear([128, 64, 32, 3], ReLU, None, 3);
  }

  /** On its example input (1, 1, 52) the production model emits one logit per class label. */
  lemma CardioNetLogits()
    ensures Build(CardioNet).Success?
    ensures ModelForward(Build(CardioNet).value, [1, 1, 52]) == Some([|Classes|])
  {
    CardioNetEncoder();
    BuildForward(CardioNet);
    assert [1] + CardioNet.inputShape == [1, 1, 52];
    assert Squeeze([1, 1, 3]) == [3] by {
      assert [1, 1, 3][..2] == [1, 1];
      assert [1, 1][..1] == [1];
      assert [1][..0] == [];
    }
  }

  /**
   * The feature pipeline agrees with the model: 52 MFCCs averaged over time
   * give the (1, 52) input, the waveform is fixed to 10 s at 22050 Hz, and
   * the FFT window equals the window length with a hop of half a window.
   */
  lemma CardioPipelineConsistent()
    ensures CardioPipeline.nMfcc == CardioNet.inputShape[1] && CardioPipeline.averageBy == "time"
    ensures CardioNet.inputShape[0] == 1 && CardioPipeline.mono
    ensures TargetSamples(CardioPipeline) == 220500
    ensures CardioPipeline.nFft == CardioPipeline.winLength == 2 * CardioPipeline.hopLength
  {
  }
}
