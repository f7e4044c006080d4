/**
 * The production inference wrapper of sonixhub/prod/wrapper.py: device
 * choice, weight loading and freezing of the wrapped model, and the
 * assembly of the output record from the class probabilities.
 */
module ProdWrapper {
  import opened Wrappers
  import Python

  /* -------------------------------------------------------------- device */

  datatype Device = Device(name: string)

  /** `define_device`: cuda when it is available, otherwise cpu. */
  function DefineDevice(cudaAvailable: bool): (d: Device)
    ensures d == Device("cuda") || d == Device("cpu")
    ensures d == Device("cuda") <==> cudaAvailable
  {
    if cudaAvailable then Device("cuda") else Device("cpu")
  }

  /** The device chosen in the constructor: "auto" defers to `define_device`, anything else names the device. */
  function ResolveDevice(device: string, cudaAvailable: bool): (d: Device)
    ensures device == "auto" ==> d == DefineDevice(cudaAvailable)
    ensures device != "auto" ==> d.name == device
  {
    if device == "auto" then DefineDevice(cudaAvailable) else Device(device)
  }

  /** The resolved device is never "auto", and cuda is chosen only when asked for or when "auto" finds it available. */
  lemma ResolvedDevice(device: string, cudaAvailable: bool)
    ensures ResolveDevice(device, cudaAvailable).name != "auto"
    ensures ResolveDevice(device, cudaAvailable) == Device("cuda") <==>
      device == "cuda" || (device == "auto" && cudaAvailable)
  {
  }

  /* ------------------------------------------------------ result assembly */

  datatype WrapperError = IndexError | TypeError | RuntimeError | FileNotFoundError(path: string)

  /** A probability tensor of one or two dimensions. */
  datatype Tensor = Vec(v: seq<real>) | Mat(rows: seq<seq<real>>)

  /** A tensor's rows all have the same length. */
  predicate Rectangular(t: Tensor)
  {
    t.Mat? ==> forall i :: 0 <= i < |t.rows| ==> |t.rows[i]| == |t.rows[0]|
  }

  /** The index tensor `argmax` returns: 0-dimensional or a vector. */
  datatype Preds = Index(i: int) | Indices(items: seq<int>)

  /** What `label_decoding` returns: one label, or a list of labels. */
  datatype Decoded = Label(name: string) | Labels(labels: seq<string>)

  function Column(rows: seq<seq<real>>, j: nat): (c: seq<real>)
    requires forall i :: 0 <= i < |rows| ==> j < |rows[i]|
    ensures |c| == |rows| && forall i :: 0 <= i < |rows| ==> c[i] == rows[i][j]
  {
    seq(|rows|, i requires 0 <= i < |rows| => rows[i][j])
  }

  /**
   * `torch.argmax(probs, dim=0)`: the index of the first largest entry of a
   * vector, or of each column of a matrix; reducing a dimension of size 0
   * raises IndexError.
   */
  function ArgMaxDim0(t: Tensor): (r: Result<Preds, WrapperError>)
    requires Rectangular(t)
    ensures t.Vec? ==> (r.Success? <==> |t.v| > 0)
    ensures r.Failure? ==> r.error == IndexError
    ensures t.Vec? && r.Success? ==>
      && r.value.Index? && 0 <= r.value.i < |t.v|
      && (forall j :: 0 <= j < |t.v| ==> t.v[j] <= t.v[r.value.i])
      && (forall j :: 0 <= j < r.value.i ==> t.v[j] < t.v[r.value.i])
    ensures t.Mat? ==> (r.Success? <==> |t.rows| > 0)
    ensures t.Mat? && r.Success? ==>
      && r.value.Indices? && |r.value.items| == |t.rows[0]|
      && forall j :: 0 <= j < |t.rows[0]| ==>
           && 0 <= r.value.items[j] < |t.rows|
           && (forall i :: 0 <= i < |t.rows| ==> t.rows[i][j] <= t.rows[r.value.items[j]][j])
           && (forall i :: 0 <= i < r.value.items[j] ==> t.rows[i][j] < t.rows[r.value.items[j]][j])
  {
    match t
    case Vec(v) => if |v| == 0 then Failure(IndexError) else Success(Index(Python.ArgMax(v)))
    case Mat(rows) =>
      if |rows| == 0 then Failure(IndexError)
      else Success(Indices(seq(|rows[0]|, j requires 0 <= j < |rows[0]| => Python.ArgMax(Column(rows, j)))))
  }

  /**
   * `label_decoding`: a 0-dimensional index selects one class, a vector of
   * indices selects one class per entry; every index follows Python's
   * sequence indexing, so one out of range raises `IndexError`.
   */
  function LabelDecoding(classes: seq<string>, preds: Preds): (r: Result<Decoded, WrapperError>)
    ensures preds.Index? ==> (r.Success? <==> -|classes| <= preds.i < |classes|)
    ensures preds.Index? && r.Success? ==> r.value == Label(Python.Index(classes, preds.i).value)
    ensures preds.Indices? ==> (r.Success? <==> forall k :: 0 <= k < |preds.items| ==> -|classes| <= preds.items[k] < |classes|)
    ensures preds.Indices? && r.Success? ==>
      && r.value.Labels? && |r.value.labels| == |preds.items|
      && forall k :: 0 <= k < |preds.items| ==> r.value.labels[k] == Python.Index(classes, preds.items[k]).value
  {
    match preds
    case Index(i) =>
      if -|classes| <= i < |classes| then Success(Label(Python.Index(classes, i).value)) else Failure(IndexError)
    case Indices(items) =>
      if forall k :: 0 <= k < |items| ==> -|classes| <= items[k] < |classes| then
        Success(Labels(seq(|items|, k requires 0 <= k < |items| => Python.Index(classes, items[k]).value)))
      else Failure(IndexError)
  }

  /**
   * `to_list`: one Python float per element along the first dimension, in
   * order; a row of a matrix converts only when it holds exactly one value.
   */
  function ToList(t: Tensor): (r: Result<seq<real>, WrapperError>)
    ensures t.Vec? ==> r == Success(t.v)
    ensures t.Mat? ==> (r.Success? <==> forall i :: 0 <= i < |t.rows| ==> |t.rows[i]| == 1)
    ensures t.Mat? && r.Success? ==> |r.value| == |t.rows| && forall i :: 0 <= i < |t.rows| ==> r.value[i] == t.rows[i][0]
  {
    match t
    case Vec(v) => Success(v)
    case Mat(rows) =>
      if forall i :: 0 <= i < |rows| ==> |rows[i]| == 1 then
        Success(seq(|rows|, i requires 0 <= i < |rows| => rows[i][0]))
      else Failure(TypeError)
  }

  /** The record `forward` returns. */
  datatype Output = Output(preds: Decoded, probs: seq<real>, classes: seq<string>)

  /**
   * `forward` from the class probabilities on: the decoded argmax, the
   * probabilities as a list, and the class list, built in that order.
   */
  function Forward(classes: seq<string>, probs: Tensor): (r: Result<Output, WrapperError>)
    requires Rectangular(probs)
    ensures r.Success? <==>
      && ArgMaxDim0(probs).Success?
      && LabelDecoding(classes, ArgMaxDim0(probs).value).Success?
      && ToList(probs).Success?
    ensures r.Success? ==> r.value.classes == classes
    ensures r.Success? ==> r.value.preds == LabelDecoding(classes, ArgMaxDim0(probs).value).value
    ensures r.Success? ==> r.value.probs == ToList(probs).value
  {
    var preds := ArgMaxDim0(probs);
    if preds.Failure? then Failure(preds.error)
    else
      var decoded := LabelDecoding(classes, preds.value);
      if decoded.Failure? then Failure(decoded.error)
      else
        var list := ToList(probs);
        if list.Failure? then Failure(list.error)
        else Success(Output(decoded.value, list.value, classes))
  }

  /**
   * For a probability vector with at most one entry per class, `forward`
   * succeeds, returns the vector unchanged, and predicts the class of its
   * first largest entry; an empty vector is refused.
   */
  lemma ForwardVector(classes: seq<string>, v: seq<real>)
    requires |v| <= |classes|
    ensures Forward(classes, Vec(v)).Success? <==> |v| > 0
    ensures |v| > 0 ==> exists k ::
      && 0 <= k < |v|
      && Forward(classes, Vec(v)).value == Output(Label(classes[k]), v, classes)
      && (forall j :: 0 <= j < |v| ==> v[j] <= v[k])
      && (forall j :: 0 <= j < k ==> v[j] < v[k])
  {
    if |v| > 0 {
      var k := Python.ArgMax(v);
      assert Forward(classes, Vec(v)).value == Output(Label(classes[k]), v, classes);
    }
  }

  /** A probability vector longer than the class list whose largest entry lies past its end raises `IndexError`. */
  lemma ForwardPastClasses(classes: seq<string>, v: seq<real>)
    requires |v| > 0 && Python.ArgMax(v) >= |classes|
    ensures Forward(classes, Vec(v)) == Failure(IndexError)
  {
  }

  /* ------------------------------------------------- model and weights */

  /** A named tensor dictionary as `torch.load` returns it. */
  type StateDict = map<string, seq<real>>

  class Parameter {
    var requiresGrad: bool

    constructor ()
      ensures requiresGrad
    {
      requiresGrad := true;
    }
  }

  /** The calls the wrapper makes on its model, in the order made. */
  datatype ModelCall = LoadStateDictCall | ToCall(device: Device) | EvalCall

  /** The part of a torch module that construction touches. */
  class TorchModule {
    const keys: set<string>
    const params: seq<Parameter>
    var state: StateDict
    var device: Device
    var training: bool
    ghost var calls: seq<ModelCall>

    constructor (keys: set<string>, params: seq<Parameter>)
      ensures this.keys == keys && this.params == params
      ensures state == map[] && device == Device("cpu") && training && calls == []
    {
      this.keys := keys;
      this.params := params;
      state := map[];
      device := Device("cpu");
      training := true;
      calls := [];
    }

    /**
     * `load_state_dict` in strict mode: every entry whose key the module
     * has is copied in, then a missing or unexpected key raises.
     */
    method LoadStateDict(sd: StateDict) returns (r: Result<(), WrapperError>)
      modifies this
      ensures state == old(state) + map k | k in sd.Keys * keys :: sd[k]
      ensures r.Success? <==> sd.Keys == keys
      ensures r.Failure? ==> r.error == RuntimeError
      ensures device == old(device) && training == old(training)
      ensures calls == old(calls) + [LoadStateDictCall]
    {
      state := state + map k | k in sd.Keys * keys :: sd[k];
      calls := calls + [LoadStateDictCall];
      if sd.Keys == keys {
        r := Success(());
      } else {
        r := Failure(RuntimeError);
      }
    }

    method To(d: Device)
      modifies this
      ensures device == d
      ensures state == old(state) && training == old(training)
      ensures calls == old(calls) + [ToCall(d)]
    {
      device := d;
      calls := calls + [ToCall(d)];
    }

    method Eval()
      modifies this
      ensures !training
      ensures state == old(state) && device == old(device)
      ensures calls == old(calls) + [EvalCall]
    {
      training := false;
      calls := calls + [EvalCall];
    }
  }

  class BaseWrapper {
    const classes: seq<string>
    const model: TorchModule
    const device: Device
    const weightsPath: string

    /** The fields the constructor sets before it loads the weights. */
    constructor Init(classes: seq<string>, model: TorchModule, device: string, cudaAvailable: bool, weightsPath: string)
      ensures this.classes == classes && this.model == model && this.weightsPath == weightsPath
      ensures this.device == ResolveDevice(device, cudaAvailable)
    {
      this.classes := classes;
      this.model := model;
      this.device := ResolveDevice(device, cudaAvailable);
      this.weightsPath := weightsPath;
    }

    /** `freeze`: every parameter of the model stops requiring gradients. */
    method Freeze()
      modifies set p | p in model.params
      ensures forall p :: p in model.params ==> !p.requiresGrad
    {
      var i := 0;
      while i < |model.params|
        invariant 0 <= i <= |model.params|
        invariant forall j :: 0 <= j < i ==> !model.params[j].requiresGrad
      {
        model.params[i].requiresGrad := false;
        i := i + 1;
      }
    }

    /**
     * `define_model`: load the weights file (`files` stands for the disk),
     * load the state dict, move the model to the device, switch it to
     * evaluation mode and freeze it, stopping at the first step that raises.
     */
    method DefineModel(files: map<string, StateDict>) returns (r: Result<(), WrapperError>)
      modifies model, set p | p in model.params
      ensures weightsPath !in files ==> r == Failure(FileNotFoundError(weightsPath))
      ensures weightsPath !in files ==> unchanged(model) && forall p :: p in model.params ==> unchanged(p)
      ensures weightsPath in files ==> model.state == old(model.state) + map k | k in files[weightsPath].Keys * model.keys :: files[weightsPath][k]
      ensures r.Success? <==> weightsPath in files && files[weightsPath].Keys == model.keys
      ensures weightsPath in files && files[weightsPath].Keys != model.keys ==>
        && r == Failure(RuntimeError)
        && model.device == old(model.device) && model.training == old(model.training)
        && model.calls == old(model.calls) + [LoadStateDictCall]
        && forall p :: p in model.params ==> p.requiresGrad == old(p.requiresGrad)
      ensures r.Success? ==>
        && model.state == old(model.state) + files[weightsPath]
        && model.device == device
        && !model.training
        && model.calls == old(model.calls) + [LoadStateDictCall, ToCall(device), EvalCall]
        && forall p :: p in model.params ==> !p.requiresGrad
    {
      if weightsPath !in files {
        return Failure(FileNotFoundError(weightsPath));
      }
      var sd := files[weightsPath];
      r := model.LoadStateDict(sd);
      if r.Failure? {
        return;
      }
      assert (map k | k in sd.Keys * model.keys :: sd[k]) == sd;
      model.To(device);
      model.Eval();
      Freeze();
    }

    /** The constructor: set the fields, then `define_model`. */
    static method Create(classes: seq<string>, model: TorchModule, device: string, cudaAvailable: bool,
                         weightsPath: string, files: map<string, StateDict>)
      returns (r: Result<BaseWrapper, WrapperError>)
      modifies model, set p | p in model.params
      ensures r.Success? <==> weightsPath in files && files[weightsPath].Keys == model.keys
      ensures weightsPath !in files ==> r == Failure(FileNotFoundError(weightsPath))
      ensures weightsPath !in files ==> unchanged(model) && forall p :: p in model.params ==> unchanged(p)
      ensures weightsPath in files ==> model.state == old(model.state) + map k | k in files[weightsPath].Keys * model.keys :: files[weightsPath][k]
      ensures weightsPath in files && files[weightsPath].Keys != model.keys ==>
        && r == Failure(RuntimeError)
        && model.device == old(model.device) && model.training == old(model.training)
        && forall p :: p in model.params ==> p.requiresGrad == old(p.requiresGrad)
      ensures r.Success? ==>
        && fresh(r.value)
        && model.state == old(model.state) + files[weightsPath]
        && r.value.classes == classes && r.value.model == model
        && r.value.device == ResolveDevice(device, cudaAvailable)
        && model.device == r.value.device && !model.training
        && model.calls == old(model.calls) + [LoadStateDictCall, ToCall(r.value.device), EvalCall]
        && forall p :: p in model.params ==> !p.requiresGrad
    {
      var w := new BaseWrapper.Init(classes, model, device, cudaAvailable, weightsPath);
      var loaded := w.DefineModel(files);
      if loaded.Failure? {
        return Failure(loaded.error);
      }
      return Success(w);
    }
  }
}
