# cardio-sonix core, modelled in Dafny

This project models the discrete core of cardio-sonix, a heart-sound
classifier. The model covers five parts:

- the shape arithmetic for convolutions and pooling (`ShapeUtils`);
- the baseline recurrent classifier. It is modelled as a builder of layer
  descriptors with their shape rules (`Layers`, `ArchitectBaseline`): a
  convolutional encoder, a stack of LSTM layers and a fully connected
  decoder;
- the production configuration and the facts that make its stages fit
  together (`ProdBaseline`);
- the survey label encoder and the keys of the survey record (`ExtraForm`);
- the assembly of results, in the PyTorch wrapper (`ProdWrapper`) and in the
  ONNX session (`Sessions`), plus the upload format gate (`Converter`).

`Python` collects the Python semantics the code relies on:

- floor division;
- negative indexing;
- ASCII `str.lower`;
- `split(".")[-1]`;
- `dict(zip(...))`, where the last duplicate key wins;
- the first-maximum `argmax` that both numpy and torch use.

`Wrappers` holds `Option` and `Result`.

Four parts of PyTorch are modelled from its documented behaviour, since their
source is not part of this model:

- **Layer shapes.** `Layers.Apply` computes each layer's output shape:
  - a "same" convolution needs stride 1 and keeps the length, using
    asymmetric padding;
  - pooling must leave at least one feature;
  - `BatchNorm1d` and `Linear` check their input width;
  - an LSTM with `batch_first` maps (b, t, in) to the sequence (b, t, h) and
    to the hidden state (1, b, h).
- **Layer constructors.** `Layers.ConstructorError` says which arguments a
  layer's constructor refuses:
  - a "same" convolution with a stride other than 1, an LSTM dropout
    outside [0, 1], an LSTM hidden size below 1 and a `Dropout`
    probability outside [0, 1] raise ValueError;
  - a negative width, kernel or example dimension raises RuntimeError;
  - zero widths are accepted.
- **`load_state_dict`.** In strict mode it copies the matching entries and
  then raises for a missing or unexpected key.
- **`argmax`.** Reducing a dimension of size 0 raises IndexError.

Where classes change state in place, the model uses Dafny classes whose
methods are proved against the specification functions:

- the `rnn_block` and `decoder_block` append loops;
- `LSTMModule.forward`;
- `freeze`;
- `define_model`;
- the converter's `__call__` and the file system it writes to.

Loops that only compute a value are rendered as methods with loop
invariants; `encode`'s search through the tables is one of them. Everything
else is functions and lemmas.

`ArchitectBaseline.Build` raises what `BaselineRNNModel.__init__` raises, at
the first point where it raises. The layers are built in the order the
Python code builds them, and each one is checked as it is built:

- the example input is created with `torch.zeros`;
- then the encoder's layers, block by block;
- then the encoder is measured on the example input;
- then the LSTM layers;
- then `rnn_depth[-1]` is read;
- then the decoder's layers.

Where the docstring and the code disagree, the code is followed. The encoder
docstring shows `BatchNorm1d(26)`, `BatchNorm1d(13)` and `BatchNorm1d(6)`.
The code builds `BatchNorm1d(out_channels)` (sonixhub/architect/baseline.py:132),
and the model does the same.

## Model

| member | source | states |
|---|---|---|
| Python.FloorDiv | sonixhub/architect/utils.py:37 | Python's `//`: the quotient is the floor of a/b for divisors of either sign |
| Python.Index | sonixhub/prod/wrapper.py:52 | Python sequence indexing is defined exactly for -len <= i < len; a negative index counts from the end |
| Python.Lower | utils/forms/extra_form.py:56 | the model's ASCII `str.lower` keeps the length and lower-cases each ASCII letter, leaving every other character as it is |
| Python.LowerIdempotent | utils/forms/extra_form.py:61 | lower-casing twice is lower-casing once |
| Python.AfterLast | utils/converter.py:34 | `split(sep)[-1]` is a suffix without `sep`; when shorter than the input, a `sep` precedes it |
| Python.AfterLastNoSeparator | utils/converter.py:34 | a name without a '.' is its own last piece |
| Python.DictZip | pipeline/sessions.py:45 | `dict(zip(k, v))` has exactly the first min(len k, len v) keys |
| Python.DictZipLastOccurrence | pipeline/sessions.py:48 | in `dict(zip(k, v))`, a key whose last occurrence is at i maps to v[i] |
| Python.ArgMax | pipeline/sessions.py:51 | argmax is the index of the first largest entry |
| ShapeUtils.ConvOutFeatures | sonixhub/architect/utils.py:11-37 | for stride > 0 the output is the number of stride-spaced kernel placements: stride*(out-1) <= in+2p-k < stride*out |
| ShapeUtils.ConvShapeInfo | sonixhub/architect/utils.py:66-159 | on success it echoes in/out channels and stride (never 0); a tuple kernel contributes its first element, tuple features their last |
| ShapeUtils.ShapeInfoPadding | sonixhub/architect/utils.py:123-159 | the output length comes from the padding reported: an int unchanged, "valid" kept as the string, "same" replaced by the computed int |
| ShapeUtils.SamePadding | sonixhub/architect/utils.py:40-63 | `_compute_same_padding` is half of stride*(in - out), rounded down |
| ShapeUtils.ShapeInfoErrors | sonixhub/architect/utils.py:118-141 | IndexError iff a tuple is empty; TypeError iff padding is not int/str; ValueError(s) iff padding is another string s; ZeroDivisionError iff stride is 0 otherwise |
| ShapeUtils.ValidIsZeroPadding | sonixhub/architect/utils.py:123-127 | "valid" behaves as integer padding 0, except that `params.padding` keeps the string |
| ShapeUtils.PoolHalves | sonixhub/architect/utils.py:37 | kernel 2, stride 2, padding 0 gives in // 2 |
| ShapeUtils.DocstringExample | sonixhub/architect/utils.py:78-96 | 52 features, kernel 5, stride 1, padding 0 give 48 and echo the channels |
| ShapeUtils.SameStrideOneKeepsLength | sonixhub/architect/utils.py:128-131 | with stride 1, "same" pads (k-1)//2 and keeps the length iff the kernel is odd; an even kernel loses one feature |
| ShapeUtils.SameEvenKernelCounterexample | sonixhub/architect/utils.py:128-131 | 10 features with kernel 4 and "same" give 9 |
| ShapeUtils.SameOutFeatures | sonixhub/architect/utils.py:128-131 | corrected "same": total padding s*(n-1)+k-n is non-negative and the output length equals the input length for every stride, kernel and length |
| Layers.Squeeze | sonixhub/architect/baseline.py:357 | `squeeze()` leaves no dimension of size 1, and keeps every other size exactly as often as the input has it |
| Layers.SqueezeAppend | sonixhub/architect/baseline.py:357 | squeezing a concatenation squeezes each part, so the kept dimensions stay in their input order |
| Layers.SqueezeKeepsOthers | sonixhub/architect/baseline.py:357 | a shape with no dimension of size 1 is returned unchanged |
| ArchitectBaseline.EncoderStructure | sonixhub/architect/baseline.py:62-74 | `EncoderBlocks` holds one `EncoderBlock` per `encoder_depth` entry; block i is conv(chain[i]->chain[i+1]), activation, maxpool(2,2), batchnorm(chain[i+1]), plus dropout iff dropout is truthy and i is not the head index |
| ArchitectBaseline.EncoderBlockShape | sonixhub/architect/baseline.py:121-137 | under the layer shape rules (`Layers.Apply`, `RunSequential`), a block maps (b, in, n) to (b, out, n//2) exactly when stride is 1, kernel >= 1 and n >= 2, and raises otherwise |
| ArchitectBaseline.EncoderCoreShape | sonixhub/architect/baseline.py:121-133 | conv, activation, maxpool(2,2) and batchnorm map (b, in, n) to (b, out, n//2) exactly when stride is 1, kernel >= 1 and n >= 2 |
| ArchitectBaseline.EncoderShape | sonixhub/architect/baseline.py:71-81 | under the modelled shape rules, run as nested `nn.Sequential`s (`RunBlocks`), the first j blocks map (1, chain[0], n) to (1, chain[j], n halved j times); they fail exactly when `EncoderFits` does not hold, i.e. a block is strided or would pool fewer than 2 features |
| ArchitectBaseline.RnnDropout | sonixhub/architect/baseline.py:163-202 | `RnnLayers`: LSTM layer i maps chain[i] to chain[i+1] with chain = [input_shape[-1]] + rnn_depth; its dropout is nonzero iff dropout is set and i is not the head |
| ArchitectBaseline.LstmChainShape | sonixhub/architect/baseline.py:204-207 | `LstmForward`, which feeds each `LstmStep` its predecessor's output, maps (b, t, chain[0]) through a chained stack to the final hidden state (1, b, chain[-1]) |
| ArchitectBaseline.DecoderEndsWithLinear | sonixhub/architect/baseline.py:268-279 | the decoder's last layer is the Linear emitting decoder_depth[-1] values (no activation after the head) |
| ArchitectBaseline.DecoderStartsWithLinear | sonixhub/architect/baseline.py:268-274 | the decoder's first layer is Linear(chain[0], chain[1]) |
| ArchitectBaseline.DecoderShape | sonixhub/architect/baseline.py:268-282 | the first n `DecoderStep`s of `DecoderLayers` map a last dimension chain[0] to chain[n], keeping the other dimensions |
| ArchitectBaseline.DecoderHasNoDropout | sonixhub/architect/baseline.py:276-279 | without dropout the decoder holds no Dropout layer |
| ArchitectBaseline.BuildEncoderOutput | sonixhub/architect/baseline.py:327-351 | under the modelled shape rules, for an input (channels, features), `Build` succeeds iff: the shape is non-negative; the encoder's, LSTM's and decoder's layers accept their arguments (`EncoderArgsOk`, `RnnArgsOk`, `DecoderArgsOk`); the encoder fits; and rnn_depth is non-empty. The encoder output is then (1, encoder_depth[-1], features halved per block), which is the first LSTM's input size |
| ArchitectBaseline.EncoderStage | sonixhub/architect/baseline.py:71-81 | under the modelled shape rules, the encoder's layers build and the example input passes iff `EncoderArgsOk` and `EncoderFits` hold; the output is then (1, encoder_depth[-1], features halved per block) |
| ArchitectBaseline.FirstError | sonixhub/architect/baseline.py:121-136 | building layers in order raises nothing iff no layer's own construction raises (`LayerError`: a refused constructor argument or an unknown activation name) |
| ArchitectBaseline.FirstErrorIsFirst | sonixhub/architect/baseline.py:121-136 | the exception raised is that of the first layer whose construction raises; every earlier layer built |
| ArchitectBaseline.FirstBlockError | sonixhub/architect/baseline.py:71-74 | building the blocks in order raises nothing iff no block raises |
| ArchitectBaseline.FirstBlockErrorIsFirst | sonixhub/architect/baseline.py:71-74 | the exception raised is that of the first block that raises; every earlier block built |
| ArchitectBaseline.EncoderBlockBuilds | sonixhub/architect/baseline.py:121-136 | a block builds iff its convolution is unstrided with non-negative widths and kernel, the activation name is known, and its dropout, when present, is in [0, 1] |
| ArchitectBaseline.EncoderBuilds | sonixhub/architect/baseline.py:62-74 | the encoder builds iff, with at least one block, stride is 1, the kernel and all channel widths are non-negative, the activation is known, and a dropout given to some block is in [0, 1] |
| ArchitectBaseline.RnnBuilds | sonixhub/architect/baseline.py:189-202 | the LSTM stack builds iff every rnn_depth width is positive, the input size is non-negative, and a dropout given to some layer is in [0, 1] |
| ArchitectBaseline.DecoderStepBuilds | sonixhub/architect/baseline.py:268-279 | a decoder step builds iff its Linear widths are non-negative and, unless it is the head, the activation is known and a set dropout is in [0, 1] |
| ArchitectBaseline.DecoderPrefixBuilds | sonixhub/architect/baseline.py:268-279 | the first n decoder steps build iff each of them does |
| ArchitectBaseline.DecoderBuilds | sonixhub/architect/baseline.py:268-279 | the decoder builds iff, with at least one Linear, every width is non-negative and, with more than one, the activation is known and a set dropout is in [0, 1] |
| ArchitectBaseline.StridedEncoderRaisesValueError | sonixhub/architect/baseline.py:121-128 | with a non-empty encoder and a valid example shape, a stride other than 1 raises ValueError from the first `nn.Conv1d`, before the activation is looked up or any shape is measured |
| ArchitectBaseline.UnknownActivationRaisesKeyError | sonixhub/architect/baseline.py:121-130 | with a non-empty encoder whose first convolution is accepted, an unknown activation name raises KeyError |
| ArchitectBaseline.BuildParts | sonixhub/architect/baseline.py:327-351 | a built model's encoder is built with dropout element 0 (`Dropouts`), its LSTM chain starts at the measured encoder length with element 1, and its decoder chain starts at rnn_depth[-1] with element 2; no stage raised |
| ArchitectBaseline.BuildForward | sonixhub/architect/baseline.py:353-357 | under `ModelForward`, the built model maps its example input (1, channels, features) to squeeze((1, 1, decoder_depth[-1])) |
| ArchitectBaseline.NoDropoutWhenUnset | sonixhub/architect/baseline.py:329 | with no dropout argument, no stage gets a Dropout layer and every LSTM dropout is 0 |
| ArchitectBaseline.Encoder.constructor | sonixhub/architect/baseline.py:46-81 | the chain is [input_shape[0]] + encoder_depth, the head index len-2, and the output shape is the blocks run on (1, *input_shape) |
| ArchitectBaseline.LSTMModule.constructor | sonixhub/architect/baseline.py:156-167 | the chain is [input_shape[-1]] + rnn_depth and the layer list is the one `RnnLayers` specifies |
| ArchitectBaseline.LSTMModule.RnnBlock | sonixhub/architect/baseline.py:189-202 | the loop appends exactly the LSTM layers `RnnLayers` specifies |
| ArchitectBaseline.LSTMModule.Forward | sonixhub/architect/baseline.py:204-207 | the loop returns the hidden state `LstmForward` specifies |
| ArchitectBaseline.Decoder.constructor | sonixhub/architect/baseline.py:228-248 | the chain is [input_shape[0]] + decoder_depth and the layer list is the one `DecoderLayers` specifies |
| ArchitectBaseline.Decoder.DecoderBlock | sonixhub/architect/baseline.py:268-279 | the loop appends exactly the layers `DecoderLayers` specifies |
| ArchitectBaseline.BaselineRNNModel.constructor | sonixhub/architect/baseline.py:316-351 | the three modules together are the model `Build` specifies |
| ArchitectBaseline.BaselineRNNModel.Forward | sonixhub/architect/baseline.py:353-357 | encoder, LSTM stack, decoder and squeeze compose as `ModelForward` specifies |
| ProdBaseline.CardioNetEncoder | sonixhub/prod/baseline.py:17-23 | the production model builds, and its encoder takes (1, 1, 52) to (1, 512, 6) |
| ProdBaseline.CardioNetStages | sonixhub/prod/baseline.py:18-21 | the 6 encoder features are the first LSTM's input, the stack is 6->256->128 without dropout, and 128 feeds the first Linear |
| ProdBaseline.CardioNetLogits | sonixhub/prod/baseline.py:17-41 | on (1, 1, 52) the production model emits exactly one logit per class label |
| ProdBaseline.CardioPipelineConsistent | sonixhub/prod/baseline.py:25-38 | 52 time-averaged MFCCs match the (1, 52) input; waveforms are 220500 samples; n_fft = win_length = 2 * hop_length |
| ExtraForm.Len | utils/forms/extra_form.py:41-51 | the encoder has 6 tables |
| ExtraForm.Options | utils/forms/extra_form.py:53-58 | options are the table's labels lower-cased, in insertion order |
| ExtraForm.Get | utils/forms/extra_form.py:63 | `dict.get` finds a key iff the table holds it, with the code of its entry |
| ExtraForm.Lookup | utils/forms/extra_form.py:62-64 | the result is the code from the first table, in search order, that holds the key; None iff no table does |
| ExtraForm.Encode | utils/forms/extra_form.py:60-64 | the loop returns the first-match lookup of the lower-cased label |
| ExtraForm.EncodeIgnoresCase | utils/forms/extra_form.py:60-61 | a label and its lower-cased form encode alike |
| ExtraForm.TablesWellFormed | utils/forms/extra_form.py:10-38 | in every table the codes are 0..n-1 in order and the labels are distinct and lower-case |
| ExtraForm.SharedLabelsAgree | utils/forms/extra_form.py:34-38 | a label present in two tables ("no", "yes") has the same code in both |
| ExtraForm.OptionsRoundTrip | utils/forms/extra_form.py:53-64 | for every table and option i, encoding options(T)[i] gives T's code i |
| ExtraForm.EncodeUnknown | utils/forms/extra_form.py:60-64 | encoding returns None exactly when no table holds the lower-cased label |
| ExtraForm.Categorical | utils/forms/extra_form.py:217-232 | exactly the 13 keys Smoking..SkinCancer in order, each with the encoding of its answer |
| ExtraForm.Quantity | utils/forms/extra_form.py:209-215 | exactly the keys BMI, PhysicalHealth, MentalHealth, SleepTime |
| ExtraForm.GetAllForm | utils/forms/extra_form.py:238-245 | a record with both parts iff the form was submitted |
| ExtraForm.SchemaTable | utils/forms/extra_form.py:77-166 | every question's options come from one of the encoder's tables |
| ExtraForm.CategoricalFromOptions | utils/forms/extra_form.py:217-232 | a record filled from the offered options carries each table's code for the chosen option |
| ProdWrapper.DefineDevice | sonixhub/prod/wrapper.py:32-34 | cuda iff available, cpu otherwise |
| ProdWrapper.ResolveDevice | sonixhub/prod/wrapper.py:28 | "auto" defers to `define_device`; any other name is the device |
| ProdWrapper.ResolvedDevice | sonixhub/prod/wrapper.py:28-34 | the device is never "auto", and is cuda iff asked for or auto-detected |
| ProdWrapper.ArgMaxDim0 | sonixhub/prod/wrapper.py:58 | argmax over dim 0: the first largest entry of a vector or of each column; an empty dimension raises IndexError |
| ProdWrapper.LabelDecoding | sonixhub/prod/wrapper.py:51-52 | a 0-dim index gives classes[i]; a vector gives a same-length list of classes[x_k]; an index out of range raises IndexError |
| ProdWrapper.ToList | sonixhub/prod/wrapper.py:47-49 | one float per element in order; a matrix row converts only if it holds one value |
| ProdWrapper.Forward | sonixhub/prod/wrapper.py:54-63 | "preds" is the decoded argmax of the probabilities, "probs" their list, "classes" the class list unchanged |
| ProdWrapper.ForwardVector | sonixhub/prod/wrapper.py:57-62 | a non-empty probability vector within the class list yields the class of its first largest entry and itself; an empty one fails |
| ProdWrapper.ForwardPastClasses | sonixhub/prod/wrapper.py:58-60 | an argmax past the end of the class list raises IndexError |
| ProdWrapper.TorchModule.LoadStateDict | sonixhub/prod/wrapper.py:38 | matching entries are copied in; it fails iff the keys differ from the module's |
| ProdWrapper.TorchModule.To | sonixhub/prod/wrapper.py:39 | the module is on the given device; nothing else changes |
| ProdWrapper.TorchModule.Eval | sonixhub/prod/wrapper.py:40 | the module leaves training mode; nothing else changes |
| ProdWrapper.BaseWrapper.Init | sonixhub/prod/wrapper.py:17-29 | fields as given, device resolved by `ResolveDevice` |
| ProdWrapper.BaseWrapper.Freeze | sonixhub/prod/wrapper.py:43-45 | no model parameter requires gradients afterwards |
| ProdWrapper.BaseWrapper.DefineModel | sonixhub/prod/wrapper.py:36-41 | a missing weights file raises FileNotFoundError and changes nothing. Otherwise the weights are loaded, the model is moved to the device, switched to eval and frozen. A load whose keys differ raises RuntimeError after copying the matching entries, and leaves device, mode and gradients as they were |
| ProdWrapper.BaseWrapper.Create | sonixhub/prod/wrapper.py:17-30 | construction succeeds iff the weights exist and fit the model. A missing file leaves the model and its parameters untouched; otherwise the matching entries are copied into the state. On success the state holds all the weights, and the model is on the resolved device, in eval mode and frozen; weights that do not fit raise RuntimeError and leave device, mode and gradients as they were |
| Sessions.ClassesUnchanged | pipeline/sessions.py:10-20 | a session made by `New` returns from `Classes` (`classes()`) the constructor's list unchanged |
| Sessions.GetInput | pipeline/sessions.py:44-45 | the feed has exactly the first min(names, arrays) input names as keys |
| Sessions.GetInputPairs | pipeline/sessions.py:44-45 | with distinct input names each name is paired with the array in its position |
| Sessions.GetOutput | pipeline/sessions.py:47-48 | the mapping has exactly the first min(classes, probs) classes as keys |
| Sessions.GetOutputPairs | pipeline/sessions.py:47-48 | with distinct classes each class maps to the probability in its position |
| Sessions.GetPredict | pipeline/sessions.py:50-51 | the class at the first largest probability; empty probabilities raise ValueError, an index past the classes IndexError |
| Sessions.Call | pipeline/sessions.py:53-58 | prediction and mapping come from the same probability vector; it fails iff the prediction does |
| Sessions.CallPredictionIsMaximal | pipeline/sessions.py:53-58 | with distinct classes and one probability per class, the prediction is a key of the mapping with the largest value |
| Sessions.DuplicateClassesLoseMaximum | pipeline/sessions.py:47-51 | with a repeated class name the predicted label can map to a smaller probability than its own |
| Converter.Extension | utils/converter.py:34 | the text after the last '.', or the whole name without one |
| Converter.ExtensionOfSuffix | utils/converter.py:34 | the extension of "stem.ext" is ext |
| Converter.PathJoin | utils/converter.py:38 | POSIX `os.path.join`: an absolute leaf replaces the root, otherwise the result is the root then the leaf |
| Converter.AudioConverter.constructor | utils/converter.py:17-25 | the accepted extensions, target format, channel count and root directory as given |
| Converter.AudioConverter.CheckExtension | utils/converter.py:33-35 | the filename iff its extension is not accepted (exact match), None otherwise |
| Converter.AudioConverter.DefineLocation | utils/converter.py:37-38 | the path ends in "<file_id>.<extension>", and is root/<file_id>.<extension> for a relative id under a root without trailing '/' |
| Converter.NeedsConversionIff | utils/converter.py:48 | `NeedsConversion`, the truth test on `check_extension`'s result, holds iff the name is non-empty and its extension is not accepted |
| Converter.ExtensionCaseSensitive | utils/converter.py:33-35 | with ["wav"] accepted, "heart.WAV" needs conversion and "heart.wav" does not |
| Converter.AudioConverter.Call | utils/converter.py:45-64 | without conversion the upload's bytes come back and the disk is unchanged; with it the temporary file is removed, and the result is ffmpeg's output if write and convert both succeeded, else the upload's bytes |
| Converter.AudioConverter.ConvertThroughFile | utils/converter.py:53-64 | the temporary path is gone afterwards and nothing else on disk changes; the result is ffmpeg's output when writing and converting both went through, the upload's bytes otherwise |
| Converter.AudioConverter.WriteAndConvert | utils/converter.py:53-56 | the disk gains the upload at the path iff the write went through; the body raises iff the write or the ffmpeg start raised, and otherwise yields ffmpeg's output on the written bytes |
| Converter.RemoveIfExists | utils/converter.py:60-62 | the path is absent afterwards and every other file is kept |
| Converter.Disk.Write | utils/converter.py:41-43 | the path holds exactly the data written |
| Converter.Disk.Exists | utils/converter.py:61 | true iff the path is present |
| Converter.Disk.Remove | utils/converter.py:62 | the path is gone; nothing else changes |

## Findings

| source | as written | input that shows it | evidently intended | confidence | as-written member | corrected member |
|---|---|---|---|---|---|---|
| sonixhub/architect/utils.py:128-131 | "same" pads `stride*(in - out0)//2` on both sides, so with stride 1 and an even kernel the output is one feature short | in_features 10, kernel 4, stride 1, padding "same" gives out_features 9 | "same" keeps the input length, as the docstring at sonixhub/architect/utils.py:47-48 says (PyTorch pads asymmetrically to achieve it) | not executed | ShapeUtils.SameEvenKernelCounterexample | ShapeUtils.SameOutFeatures |

`Layers.Apply` uses the corrected length for the encoder's "same"
convolutions, because that is what PyTorch computes at run time. The
production kernel of 5 is odd, so both versions give the same length there
(`ShapeUtils.SameStrideOneKeepsLength`).

## Left out

- Audio loading, length fixing and MFCC extraction are left out. They are float DSP in librosa and torchaudio. Only the constant pipeline arguments are modelled (`ProdBaseline.CardioPipeline`).
- Neural-network numerics are left out: convolution, LSTM gates, batch normalisation, softmax and the ONNX run. Layers are modelled only by their shapes. `ProdWrapper.Forward` and `Sessions.Call` receive the probabilities, or a function producing them, instead of computing softmax.
- The constructors' other argument checks are not modelled: types, `groups`, and the LSTM's single-layer dropout warning. Neither is what the forward pass does with zero-sized tensors, beyond the shape rules.
- `BatchNorm1d`'s training-mode refusal of a single value per channel is not modelled. Nor are unbatched 2-D convolution inputs or a tuple `stride`.
- `ArchitectBaseline.Build`, `ArchitectBaseline.EncoderShape`, `ArchitectBaseline.EncoderStage` and `ArchitectBaseline.BuildEncoderOutput` therefore succeed where the last block pools to length 1. For example, input_shape (1, 3) with encoder_depth [4] reaches a `BatchNorm1d` in training mode with input (1, 4, 1), and `__get_output_shape` raises ValueError there (sonixhub/architect/baseline.py:327-351). The production encoder pools to length 6, so it does not reach this case.
- `ProdWrapper.Tensor` holds one- and two-dimensional probabilities only. A decoder of width 1 squeezes its output to a 0-dimensional tensor. `to_list` (sonixhub/prod/wrapper.py:48-49) and `dict(zip(...))` in pipeline/sessions.py:48 then raise TypeError, and the model does not express that input. The production decoder has width 3.
- `torch.device`'s validation of device names is not modelled. The same goes for moving a model to an unavailable cuda device, and for a state dict whose tensor shapes do not fit.
- `torch.load`, `hf_hub_download`, `InferenceSession`, CUDA availability and the ffmpeg subprocess are parameters. They are a map of weight files, the session's input names, a flag, and a function that may fail.
- `Python.Lower` lower-cases ASCII letters only, and keeps the length; Python's `str.lower` also maps other characters, sometimes to two (for example "\u0130"). The form only passes the tables' own ASCII options to `encode` (utils/forms/extra_form.py:217-232), and for those the result is the same. A label with other non-ASCII letters can encode differently: `"blac\u212A"` lowers to `"black"` in Python, but the model leaves it unchanged and finds no code.
- `ShapeUtils.ConvShapeInfo` takes `padding` as int, str or any other type. A Python bool, which is an int, is not distinguished.
- The Streamlit widgets of `ExtraForm` are left out: the questions, their value bounds, `output_format` and the submit button. The answers are inputs, and the button is the `submitted` flag of `ExtraForm.GetAllForm`.
- `st.error`, the message shown when conversion fails, is left out.
- `AudioConverter.ac` is stored but never passed to ffmpeg in the source, so it has no effect in the model either.
- The ffmpeg process's exit status is not modelled. `Popen` raises only when ffmpeg cannot be started, so a rejected input yields ffmpeg's (possibly empty) output rather than the original bytes.
- The production wrapper's construction (`get_base_cardionet`'s `BaseWrapper(...)` call) is modelled by `ProdWrapper.BaseWrapper.Create`. No lemma instantiates it with the production weights path.
- The Streamlit resource cache on `_make_session` and `get_base_cardionet` is left out.
