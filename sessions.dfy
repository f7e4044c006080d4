/**
 * The ONNX prediction session of pipeline/sessions.py, from the class
 * probabilities on: pairing input names with arrays, pairing class names
 * with probabilities, and picking the most probable class.
 */
module Sessions {
  import opened Wrappers
  import Python

  datatype SessionError = IndexError | ValueError

  /** The session's input names (read from the loaded model) and the class list. */
  datatype PredictionSession = PredictionSession(inputNames: seq<string>, classList: seq<string>)

  /** The constructor, given the input names the loaded model declares. */
  function New(modelInputs: seq<string>, classes: seq<string>): PredictionSession
  {
    PredictionSession(modelInputs, classes)
  }

  function Classes(s: PredictionSession): seq<string>
  {
    s.classList
  }

  /** `classes()` returns the list given to the constructor, unchanged. */
  lemma ClassesUnchanged(modelInputs: seq<string>, classes: seq<string>)
    ensures Classes(New(modelInputs, classes)) == classes
    ensures New(modelInputs, classes).inputNames == modelInputs
  {
  }

  /** `_get_input`: `dict(zip(input_names, args))`. */
  function GetInput<A>(s: PredictionSession, args: seq<A>): (m: map<string, A>)
    ensures m.Keys == set i | 0 <= i < Python.Min(|s.inputNames|, |args|) :: s.inputNames[i]
  {
    Python.DictZip(s.inputNames, args)
  }

  /** `_get_output`: `dict(zip(classes, probs))`. */
  function GetOutput(s: PredictionSession, probs: seq<real>): (m: map<string, real>)
    ensures m.Keys == set i | 0 <= i < Python.Min(|s.classList|, |probs|) :: s.classList[i]
  {
    Python.DictZip(s.classList, probs)
  }

  /** Distinct names: no entry of `names` occurs twice. */
  predicate Distinct(names: seq<string>)
  {
    forall i, j :: 0 <= i < j < |names| ==> names[i] != names[j]
  }

  /**
   * With distinct input names, every name up to the shorter of the two
   * lists is bound to the array in the same position; surplus items on
   * either side are dropped.
   */
  lemma GetInputPairs<A>(s: PredictionSession, args: seq<A>)
    requires Distinct(s.inputNames)
    ensures forall i :: 0 <= i < Python.Min(|s.inputNames|, |args|) ==>
      s.inputNames[i] in GetInput(s, args) && GetInput(s, args)[s.inputNames[i]] == args[i]
  {
    forall i | 0 <= i < Python.Min(|s.inputNames|, |args|)
      ensures s.inputNames[i] in GetInput(s, args) && GetInput(s, args)[s.inputNames[i]] == args[i]
    {
      Python.DictZipLastOccurrence(s.inputNames, args, i);
    }
  }

  /** With distinct class names, each class up to the shorter list maps to the probability in its position. */
  lemma GetOutputPairs(s: PredictionSession, probs: seq<real>)
    requires Distinct(s.classList)
    ensures forall i :: 0 <= i < Python.Min(|s.classList|, |probs|) ==>
      s.classList[i] in GetOutput(s, probs) && GetOutput(s, probs)[s.classList[i]] == probs[i]
  {
    forall i | 0 <= i < Python.Min(|s.classList|, |probs|)
      ensures s.classList[i] in GetOutput(s, probs) && GetOutput(s, probs)[s.classList[i]] == probs[i]
    {
      Python.DictZipLastOccurrence(s.classList, probs, i);
    }
  }

  /**
   * `_get_predict`: the class at the index of the first largest
   * probability. An empty vector has no argmax (`ValueError`) and an index
   * past the class list raises `IndexError`.
   */
  function GetPredict(s: PredictionSession, probs: seq<real>): (r: Result<string, SessionError>)
    ensures |probs| == 0 ==> r == Failure(ValueError)
    ensures |probs| > 0 && Python.ArgMax(probs) >= |s.classList| ==> r == Failure(IndexError)
    ensures r.Success? <==> |probs| > 0 && Python.ArgMax(probs) < |s.classList|
    ensures r.Success? ==> exists k ::
      && 0 <= k < |probs| && k < |s.classList|
      && r.value == s.classList[k]
      && (forall j :: 0 <= j < |probs| ==> probs[j] <= probs[k])
      && (forall j :: 0 <= j < k ==> probs[j] < probs[k])
  {
    if |probs| == 0 then Failure(ValueError)
    else
      var k := Python.ArgMax(probs);
      if k < |s.classList| then Success(s.classList[k]) else Failure(IndexError)
  }

  /**
   * `__call__`: bind the arrays to the input names, run the model to get
   * the class probabilities (`run` stands for the ONNX run, squeeze and
   * softmax), then build the class mapping and the prediction from the
   * same vector.
   */
  function Call<A>(s: PredictionSession, args: seq<A>, run: map<string, A> -> seq<real>)
    : (r: Result<(string, map<string, real>), SessionError>)
    ensures r.Success? <==> GetPredict(s, run(GetInput(s, args))).Success?
    ensures r.Success? ==>
      && r.value.0 == GetPredict(s, run(GetInput(s, args))).value
      && r.value.1 == GetOutput(s, run(GetInput(s, args)))
  {
    var probs := run(GetInput(s, args));
    var outputs := GetOutput(s, probs);
    var predict := GetPredict(s, probs);
    if predict.Failure? then Failure(predict.error) else Success((predict.value, outputs))
  }

  /**
   * With distinct class names and one probability per class, `__call__`
   * succeeds, the predicted label is a key of the mapping, and its value
   * is the largest value in the mapping.
   */
  lemma CallPredictionIsMaximal<A>(s: PredictionSession, args: seq<A>, run: map<string, A> -> seq<real>)
    requires Distinct(s.classList)
    requires |run(GetInput(s, args))| == |s.classList| > 0
    ensures Call(s, args, run).Success?
    ensures Call(s, args, run).value.0 in Call(s, args, run).value.1
    ensures forall c :: c in Call(s, args, run).value.1 ==>
      Call(s, args, run).value.1[c] <= Call(s, args, run).value.1[Call(s, args, run).value.0]
  {
    var probs := run(GetInput(s, args));
    var out := GetOutput(s, probs);
    var k := Python.ArgMax(probs);
    GetOutputPairs(s, probs);
    assert Call(s, args, run).value == (s.classList[k], out);
    forall c | c in out
      ensures out[c] <= out[s.classList[k]]
    {
      var i :| 0 <= i < Python.Min(|s.classList|, |probs|) && s.classList[i] == c;
    }
  }

  /**
   * Without distinct class names the mapping keeps the last duplicate, so
   * the predicted label can map to a smaller probability than its own.
   */
  lemma DuplicateClassesLoseMaximum()
    ensures var s := PredictionSession([], ["healthy", "healthy"]);
      && GetPredict(s, [0.9, 0.1]) == Success("healthy")
      && GetOutput(s, [0.9, 0.1])["healthy"] == 0.1
  {
    var s := PredictionSession([], ["healthy", "healthy"]);
    Python.DictZipLastOccurrence(s.classList, [0.9, 0.1], 1);
  }
}
