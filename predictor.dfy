/**
 * The prediction path: feed the preprocessed image to an interpreter, take the
 * first score vector of its output, pick the first maximal score and look its
 * index up in the task's label list. Every failure on the way, and an absent
 * interpreter, gives the sentinel result ("Unknown", 0.0).
 */
module Predictor {
  import opened Wrappers
  import opened Classes
  import opened Preprocessing

  /** The result handed to the caller: the "label" entry is `name`. */
  datatype Prediction = Prediction(name: string, confidence: real)

  /** The result for "no usable model" and for "inference failed". */
  function Sentinel(): Prediction {
    Prediction(UnknownLabel, 0.0)
  }

  /**
   * The evaluation of a loaded model: from an input tensor to the output
   * tensor [batch, scores], or `None` when the runtime raises.
   */
  type Graph = Tensor -> Option<seq<seq<real>>>

  /**
   * An interpreter handle. `tensorsReady` records whether its tensors were
   * allocated; writing the input of an unallocated interpreter raises.
   */
  datatype Interpreter = Interpreter(graph: Graph, tensorsReady: bool)

  /** `i` is the index the first-maximum rule picks: a maximum, and no earlier score equals it. */
  predicate IsFirstMax(s: seq<real>, i: int) {
    && 0 <= i < |s|
    && (forall j :: 0 <= j < |s| ==> s[j] <= s[i])
    && (forall j :: 0 <= j < i ==> s[j] < s[i])
  }

  /** At most one index is the first maximum. */
  lemma FirstMaxUnique(s: seq<real>, i: int, k: int)
    requires IsFirstMax(s, i) && IsFirstMax(s, k)
    ensures i == k
  {
    assert s[i] == s[k];
  }

  /** The index of the largest score, ties going to the lowest index. */
  function ArgMax(s: seq<real>): (i: nat)
    requires |s| > 0
    ensures IsFirstMax(s, i)
  {
    if |s| == 1 then 0
    else
      var k := ArgMax(s[..|s| - 1]);
      if s[k] < s[|s| - 1] then |s| - 1 else k
  }

  /** ArgMax is characterised by the first-maximum rule. */
  lemma ArgMaxIsFirstMax(s: seq<real>, i: int)
    requires |s| > 0
    ensures ArgMax(s) == i <==> IsFirstMax(s, i)
  {
  }

  /** The winning index of `scores` is a valid position in `labels`. */
  predicate Wins(scores: seq<real>, labels: seq<string>, i: int) {
    IsFirstMax(scores, i) && i < |labels|
  }

  /**
   * Post-processing of one score vector: the winning label and its raw score,
   * or `None` where `predict_breed` raises (an empty vector, or a winning index
   * beyond the label list).
   */
  function Decide(scores: seq<real>, labels: seq<string>): (r: Option<Prediction>)
    ensures r.Some? <==> exists i :: Wins(scores, labels, i)
    ensures forall i :: Wins(scores, labels, i) ==> r == Some(Prediction(labels[i], scores[i]))
    ensures r.Some? ==> r.value.name in labels
    ensures r.Some? ==> r.value.confidence in scores
    ensures r.Some? ==> forall j :: 0 <= j < |scores| ==> scores[j] <= r.value.confidence
    ensures r.Some? && (forall j :: 0 <= j < |scores| ==> 0.0 <= scores[j] <= 1.0) ==>
      0.0 <= r.value.confidence <= 1.0
  {
    if |scores| == 0 then None
    else
      var top := ArgMax(scores);
      if top < |labels| then
        assert Wins(scores, labels, top);
        Some(Prediction(labels[top], scores[top]))
      else
        None
  }

  /**
   * The score vector an interpreter yields for an image: preprocessing, writing
   * the input, invoking, and taking entry 0 of the output batch. `None` where
   * any of these raises.
   */
  function Infer(interpreter: Interpreter, resize: Resampler, image: Grid): (r: Option<seq<real>>)
    ensures r.Some? <==>
      && Preprocess(resize, image, DefaultSize).Some?
      && interpreter.tensorsReady
      && interpreter.graph(Preprocess(resize, image, DefaultSize).value).Some?
      && |interpreter.graph(Preprocess(resize, image, DefaultSize).value).value| > 0
    ensures r.Some? ==> r.value == interpreter.graph(Preprocess(resize, image, DefaultSize).value).value[0]
  {
    match Preprocess(resize, image, DefaultSize)
    case None => None
    case Some(input) =>
      if !interpreter.tensorsReady then None
      else
        match interpreter.graph(input)
        case None => None
        case Some(output) => if |output| == 0 then None else Some(output[0])
  }

  /**
   * The runtime is only ever fed the preprocessed image: whenever inference
   * yields scores, they are entry 0 of the output for a tensor of shape
   * [1, 224, 224, 3] whose values all lie in [0,1].
   */
  lemma InferInput(interpreter: Interpreter, resize: Resampler, image: Grid)
    requires Resamples(resize)
    requires Infer(interpreter, resize, image).Some?
    ensures exists t :: && HasShape(t, 1, 224, 224, 3)
                        && InUnitRange(t)
                        && interpreter.graph(t).Some?
                        && |interpreter.graph(t).value| > 0
                        && Infer(interpreter, resize, image).value == interpreter.graph(t).value[0]
  {
  }

  /** The prediction for one task: the label list `labels`, served by `handle`. */
  function Predict(handle: Option<Interpreter>, resize: Resampler, image: Grid, labels: seq<string>): (r: Prediction)
    ensures handle.None? ==> r == Sentinel()
    ensures r == Sentinel() || r.name in labels
  {
    match handle
    case None => Sentinel()
    case Some(interpreter) =>
      match Infer(interpreter, resize, image)
      case None => Sentinel()
      case Some(scores) => Decide(scores, labels).GetOr(Sentinel())
  }

  /**
   * With a loaded interpreter whose scores have a first maximum at a position
   * of the label list, the result is that label with its raw, unnormalised
   * score, which is at least every other score.
   */
  lemma PredictWins(interpreter: Interpreter, resize: Resampler, image: Grid, labels: seq<string>, scores: seq<real>, i: int)
    requires Infer(interpreter, resize, image) == Some(scores)
    requires IsFirstMax(scores, i) && i < |labels|
    ensures Predict(Some(interpreter), resize, image, labels) == Prediction(labels[i], scores[i])
    ensures forall j :: 0 <= j < |scores| ==> scores[j] <= Predict(Some(interpreter), resize, image, labels).confidence
  {
  }

  /**
   * Every failure inside the try block gives the sentinel: a failing
   * preprocessing or runtime, an empty output batch, an empty score vector, or
   * a winning index beyond the label list.
   */
  lemma PredictFallsBack(interpreter: Interpreter, resize: Resampler, image: Grid, labels: seq<string>)
    requires
      || Infer(interpreter, resize, image).None?
      || (forall i :: IsFirstMax(Infer(interpreter, resize, image).value, i) ==> i >= |labels|)
    ensures Predict(Some(interpreter), resize, image, labels) == Sentinel()
  {
  }

  /** An interpreter whose tensors were never allocated only ever yields the sentinel. */
  lemma UnallocatedGivesSentinel(graph: Graph, resize: Resampler, image: Grid, labels: seq<string>)
    ensures Predict(Some(Interpreter(graph, false)), resize, image, labels) == Sentinel()
  {
  }

  /** The absent-model result does not depend on the image or the imaging library at all. */
  lemma AbsentIgnoresImage(resize: Resampler, resize': Resampler, image: Grid, image': Grid, labels: seq<string>)
    ensures Predict(None, resize, image, labels) == Predict(None, resize', image', labels) == Sentinel()
  {
  }

  /**
   * The same decision, step by step in the order `predict_breed` takes them; every
   * early return is the handler of one way the try block can raise.
   */
  method Run(handle: Option<Interpreter>, resize: Resampler, image: Grid, labels: seq<string>) returns (r: Prediction)
    ensures r == Predict(handle, resize, image, labels)
  {
    if handle.None? {
      return Sentinel();
    }
    var interpreter := handle.value;
    var input := Preprocess(resize, image, DefaultSize);
    if input.None? || !interpreter.tensorsReady {
      return Sentinel();
    }
    var output := interpreter.graph(input.value);
    if output.None? || |output.value| == 0 {
      return Sentinel();
    }
    var predictions := output.value[0];
    if |predictions| == 0 {
      return Sentinel();
    }
    var top := ArgMax(predictions);
    if top >= |labels| {
      return Sentinel();
    }
    r := Prediction(labels[top], predictions[top]);
  }

  /** Scores [0.1, 0.7, 0.2] on the breed labels give "Pug" with confidence 0.7. */
  lemma BreedArgMaxExample()
    ensures Decide([0.1, 0.7, 0.2], BreedClasses) == Some(Prediction("Pug", 0.7))
  {
  }

  /** A tie between the first two scores goes to the first: "Pomeranian". */
  lemma BreedTieExample()
    ensures Decide([0.5, 0.5, 0.0], BreedClasses) == Some(Prediction("Pomeranian", 0.5))
  {
  }

  /**
   * A breed handle whose model yields four scores with the maximum last has
   * no breed label for them: the breed prediction falls back to the sentinel.
   */
  lemma MismatchedOutputExample(interpreter: Interpreter, resize: Resampler, image: Grid)
    requires Infer(interpreter, resize, image) == Some([0.1, 0.2, 0.3, 0.4])
    ensures Decide([0.1, 0.2, 0.3, 0.4], BreedClasses).None?
    ensures Predict(Some(interpreter), resize, image, BreedClasses) == Sentinel()
  {
  }
}
