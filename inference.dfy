/**
 * The inference service: the two interpreter handles loaded at start-up and
 * the two prediction operations built on them.
 */
module Inference {
  import opened Wrappers
  import opened Classes
  import opened Preprocessing
  import opened Predictor

  /** What the runtime makes of a model file: nothing usable, or a graph whose tensors may or may not allocate. */
  datatype Artifact = Unreadable | Readable(graph: Graph, allocates: bool)

  /** The file system as the loader sees it: which paths exist, and what each file loads as. */
  datatype Storage = Storage(present: string -> bool, load: string -> Artifact)

  /** The two handle fields together. */
  datatype Handles = Handles(breed: Option<Interpreter>, mood: Option<Interpreter>)

  /** Loading `path` raises: the file is there, but it cannot be opened or its tensors cannot be allocated. */
  predicate Raises(store: Storage, path: string) {
    store.present(path) && (store.load(path).Unreadable? || !store.load(path).allocates)
  }

  /**
   * A handle field after its `if the file exists: open, allocate` block,
   * starting from `prior`. Opening assigns the field before allocation is
   * tried, so an allocation failure leaves an interpreter whose tensors are
   * not ready.
   */
  function Install(store: Storage, path: string, prior: Option<Interpreter>): (h: Option<Interpreter>)
    ensures h == prior || (store.present(path) && h.Some? && store.load(path).Readable? && h.value.graph == store.load(path).graph)
    ensures h != prior ==> (h.value.tensorsReady <==> !Raises(store, path))
    ensures store.present(path) && store.load(path).Readable? ==> h.Some? && h.value.graph == store.load(path).graph
  {
    if !store.present(path) then prior
    else
      match store.load(path)
      case Unreadable => prior
      case Readable(graph, allocates) => Some(Interpreter(graph, allocates))
  }

  /**
   * Both loads inside one try block: the breed model first, then the mood
   * model, which is never reached when the breed load raises.
   */
  function LoadAll(store: Storage, prior: Handles): (after: Handles)
    ensures after.breed != prior.breed ==> store.present(BreedModelPath)
    ensures after.mood != prior.mood ==> store.present(MoodModelPath) && !Raises(store, BreedModelPath)
    ensures after.breed != prior.breed ==> after.breed.Some? && store.load(BreedModelPath).Readable? && after.breed.value.graph == store.load(BreedModelPath).graph
    ensures after.mood != prior.mood ==> after.mood.Some? && store.load(MoodModelPath).Readable? && after.mood.value.graph == store.load(MoodModelPath).graph
  {
    var breed := Install(store, BreedModelPath, prior.breed);
    if Raises(store, BreedModelPath) then Handles(breed, prior.mood)
    else Handles(breed, Install(store, MoodModelPath, prior.mood))
  }

  /**
   * From empty handles, a handle is set exactly when its file exists and the
   * runtime can open it (the mood one also needs the breed load not to raise),
   * it holds the graph of its own file, and its tensors are ready exactly when
   * its own load did not raise.
   */
  lemma LoadFromScratch(store: Storage)
    ensures LoadAll(store, Handles(None, None)).breed.Some? <==>
      store.present(BreedModelPath) && store.load(BreedModelPath).Readable?
    ensures LoadAll(store, Handles(None, None)).mood.Some? <==>
      !Raises(store, BreedModelPath) && store.present(MoodModelPath) && store.load(MoodModelPath).Readable?
    ensures LoadAll(store, Handles(None, None)).breed.Some? ==>
      (LoadAll(store, Handles(None, None)).breed.value.tensorsReady <==> !Raises(store, BreedModelPath))
    ensures LoadAll(store, Handles(None, None)).mood.Some? ==>
      (LoadAll(store, Handles(None, None)).mood.value.tensorsReady <==> !Raises(store, MoodModelPath))
    ensures LoadAll(store, Handles(None, None)).breed.Some? ==>
      LoadAll(store, Handles(None, None)).breed.value.graph == store.load(BreedModelPath).graph
    ensures LoadAll(store, Handles(None, None)).mood.Some? ==>
      LoadAll(store, Handles(None, None)).mood.value.graph == store.load(MoodModelPath).graph
  {
  }

  /** A failing breed load leaves the mood handle untouched, even when the mood file is fine. */
  lemma BreedFailureSkipsMood(store: Storage, prior: Handles)
    requires Raises(store, BreedModelPath)
    ensures LoadAll(store, prior).mood == prior.mood
  {
  }

  /** The inference engine: the imaging library's resize and the two handles. */
  class DogInference {
    const resize: Resampler
    var breed: Option<Interpreter>
    var mood: Option<Interpreter>

    function State(): Handles
      reads this
    {
      Handles(breed, mood)
    }

    /** Both handles start absent; then the models are loaded. */
    constructor (store: Storage, resize: Resampler)
      ensures this.resize == resize
      ensures State() == LoadAll(store, Handles(None, None))
    {
      this.resize := resize;
      breed := None;
      mood := None;
      new;
      LoadModels(store);
    }

    /** The try block of the loader; a raise ends it, leaving the fields as they are at that point. */
    method LoadModels(store: Storage)
      modifies this
      ensures State() == LoadAll(store, old(State()))
    {
      if store.present(BreedModelPath) {
        match store.load(BreedModelPath)
        case Unreadable =>
          return;
        case Readable(graph, allocates) =>
          breed := Some(Interpreter(graph, false));
          if !allocates {
            return;
          }
          breed := Some(Interpreter(graph, true));
      }
      if store.present(MoodModelPath) {
        match store.load(MoodModelPath)
        case Unreadable =>
          return;
        case Readable(graph, allocates) =>
          mood := Some(Interpreter(graph, false));
          if !allocates {
            return;
          }
          mood := Some(Interpreter(graph, true));
      }
    }

    /**
     * The breed prediction. It changes nothing, so for fixed handles it is a
     * function of the image: the label is a breed or "Unknown", and "Unknown"
     * always comes with confidence 0.0.
     */
    method PredictBreed(image: Grid) returns (r: Prediction)
      ensures r == Predict(breed, resize, image, BreedClasses)
      ensures r.name in BreedClasses || r.name == UnknownLabel
      ensures r.name == UnknownLabel ==> r.confidence == 0.0
    {
      r := Run(breed, resize, image, BreedClasses);
    }

    /** The mood prediction, the same algorithm over the mood handle and labels. */
    method PredictMood(image: Grid) returns (r: Prediction)
      ensures r == Predict(mood, resize, image, MoodClasses)
      ensures r.name in MoodClasses || r.name == UnknownLabel
      ensures r.name == UnknownLabel ==> r.confidence == 0.0
    {
      r := Run(mood, resize, image, MoodClasses);
    }
  }

  /** The module-level breed entry point; the process-wide instance is passed in. */
  method ClassifyBreed(service: DogInference, image: Grid) returns (r: Prediction)
    ensures r == Predict(service.breed, service.resize, image, BreedClasses)
  {
    r := service.PredictBreed(image);
  }

  /** The module-level mood entry point; the process-wide instance is passed in. */
  method ClassifyMood(service: DogInference, image: Grid) returns (r: Prediction)
    ensures r == Predict(service.mood, service.resize, image, MoodClasses)
  {
    r := service.PredictMood(image);
  }
}
