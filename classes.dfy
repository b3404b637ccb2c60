/** The fixed configuration of the inference engine: label lists and model paths. */
module Classes {
  /** Breed labels; position i names output score i of the breed model. */
  const BreedClasses: seq<string> := ["Pomeranian", "Pug", "Shih Tzu"]

  /** Mood labels; position i names output score i of the mood model. */
  const MoodClasses: seq<string> := ["Happy", "Sad", "Angry", "Scared"]

  /** The label of the fallback result. */
  const UnknownLabel: string := "Unknown"

  const BreedModelPath: string := "assets/models/dog_classification.tflite"
  const MoodModelPath: string := "assets/models/dog_mood_classifier_finetuned.tflite"
}
