# Dog classifier inference engine, modelled in Dafny

This project models the inference core of a small dog-photo classifier
(`lib/services/inference.py`). The engine holds two interpreter handles, one
for a breed model (labels Pomeranian, Pug, Shih Tzu) and one for a mood model
(labels Happy, Sad, Angry, Scared). Both are loaded once at start-up and
either may be absent. A prediction resizes the image to 224x224, scales every
8-bit channel by 1/255 and adds a batch dimension of 1. It then runs the
model, takes the first score vector of the output and picks the first
maximal score. That index is looked up in the task's label list, and the raw
score becomes the confidence. An absent handle and every failure inside the
prediction give the sentinel result `("Unknown", 0.0)`.

Files:

- `wrappers.dfy`: the `Option` type.
- `classes.dfy`: the two label lists, the sentinel label and the model paths.
- `preprocessing.dfy`: 8-bit RGB images (`Grid`), the scaling, the
  scale-and-expand step and its shape and range lemma.
- `predictor.dfy`: the first-maximum rule and `ArgMax`, post-processing
  (`Decide`), the inference step (`Infer`), the whole prediction as a
  function (`Predict`) and as a step-by-step method (`Run`), and its lemmas.
- `inference.dfy`: model loading (`Install`, `LoadAll`), the class
  `DogInference` with its handle fields, and the module-level entry points.

The imaging library's resize is a parameter of type `Resampler`. It may fail,
which is `None`. Its exact pixel values are not modelled. The shape lemma
assumes only that a successful resize has the requested size (`Resamples`).
The inference runtime is an `Interpreter`: a `Graph` from input tensor to
output tensor that may fail, plus a flag saying whether its tensors were
allocated. Which model files exist and what each loads as is a `Storage`
value handed to the constructor. The process-wide instance is an argument of
the module-level entry points.

Behaviour of the code worth knowing, each captured by a member below:

- Both loads share one try block, so a breed model that fails to open or
  allocate also prevents the mood model from loading, even when the mood
  file is fine (`BreedFailureSkipsMood`).
- A failed `allocate_tensors` comes after the handle field was assigned. The
  handle stays set but unusable, and every later prediction falls back
  (`UnallocatedGivesSentinel`).
- Loading never compares a model's output length with its label list. A
  winning index beyond the list raises at prediction time and gives the
  sentinel (`MismatchedOutputExample`).
- Preprocessing runs inside the try block, so a resize failure gives the
  sentinel and not an error to the caller.

## Model

| member | source | states |
|---|---|---|
| `Preprocessing.Scale` | lib/services/inference.py:36 | an 8-bit value v becomes x in [0,1] with x * 255 = v; 0 maps to 0.0 and 255 to 1.0, and only they do |
| `Preprocessing.Channels` | lib/services/inference.py:36 | one pixel becomes three values in [0,1], each times 255 equal to its R, G and B byte in that order |
| `Preprocessing.ToArray` | lib/services/inference.py:36 | the float array has the image's rows and columns, 3 channels per pixel, each channel value times 255 equal to the R, G or B byte, all values in [0,1] |
| `Preprocessing.Preprocess` | lib/services/inference.py:34-38 | fails exactly when the resize fails; otherwise a batch of exactly one entry, the scaled resized image |
| `Preprocessing.PreprocessShape` | lib/services/inference.py:34-38 | with a resize that honours the target size, the tensor has shape [1, height, width, 3] and every value lies in [0,1] |
| `Preprocessing.DefaultShape` | lib/services/inference.py:34-37 | at the default target size the tensor shape is [1, 224, 224, 3] |
| `Predictor.FirstMaxUnique` | lib/services/inference.py:53 | at most one index is a maximum with every earlier score strictly smaller |
| `Predictor.ArgMax` | lib/services/inference.py:53 | the returned index holds a maximum score and every earlier score is strictly smaller (ties go to the first maximum) |
| `Predictor.ArgMaxIsFirstMax` | lib/services/inference.py:53 | `ArgMax(s) == i` holds exactly when i is the first maximum of s |
| `Predictor.Decide` | lib/services/inference.py:52-58 | a result exists iff the vector has a first maximum inside the label list; it is then that label with the raw score there, a score of the vector at least every other score, and in [0,1] when all scores are |
| `Predictor.InferInput` | lib/services/inference.py:36-52 | whenever inference yields scores, they are entry 0 of the runtime's output for a tensor of shape [1, 224, 224, 3] with every value in [0,1] |
| `Predictor.Predict` | lib/services/inference.py:40-61 | an absent handle gives the sentinel; every result is the sentinel or carries a label of the task's list |
| `Predictor.PredictWins` | lib/services/inference.py:52-58 | with a loaded handle whose scores have their first maximum at index i of the label list, the result is label i with the raw score i, which is at least every score |
| `Predictor.PredictFallsBack` | lib/services/inference.py:44-61 | a failing preprocessing or runtime, an empty batch, an empty vector or a winning index beyond the labels all give the sentinel |
| `Predictor.UnallocatedGivesSentinel` | lib/services/inference.py:49-61 | an interpreter whose tensors were never allocated only ever yields the sentinel |
| `Predictor.AbsentIgnoresImage` | lib/services/inference.py:41-42 | with no handle the result is the sentinel whatever the image and the resize do, so neither is consulted |
| `Predictor.Run` | lib/services/inference.py:40-61 | the step-by-step prediction (absent check, preprocess, write input, invoke, read batch entry 0, argmax, label lookup, catch-all) returns exactly `Predict` |
| `Predictor.BreedArgMaxExample` | lib/services/inference.py:53-58 | scores [0.1, 0.7, 0.2] on the breed labels give ("Pug", 0.7) |
| `Predictor.BreedTieExample` | lib/services/inference.py:53-58 | scores [0.5, 0.5, 0.0] on the breed labels give ("Pomeranian", 0.5) |
| `Predictor.MismatchedOutputExample` | lib/services/inference.py:56 | a breed handle whose model yields four scores with the maximum last gets no result from `Decide`, so the breed prediction is the sentinel |
| `Inference.Install` | lib/services/inference.py:23-25 | a handle field changes only when its file exists and opens, and then to that file's graph (always so when the file opens); its tensors are ready iff the load did not raise |
| `Inference.LoadAll` | lib/services/inference.py:20-32 | the breed handle changes only when its file exists, and then to the breed file's graph; the mood handle changes only when its file exists and the breed load did not raise, and then to the mood file's graph |
| `Inference.LoadFromScratch` | lib/services/inference.py:15-32 | from empty handles, the breed handle is set iff its file exists and opens; the mood handle iff the breed load did not raise and its own file exists and opens; each set handle holds its own file's graph and is ready iff its own load did not raise |
| `Inference.BreedFailureSkipsMood` | lib/services/inference.py:21-32 | when the breed load raises, the mood handle keeps its prior value |
| `Inference.DogInference.constructor` | lib/services/inference.py:15-18 | the handles start absent and end as the loader leaves them |
| `Inference.DogInference.LoadModels` | lib/services/inference.py:20-32 | the new handles are the old ones after the try block over both loads |
| `Inference.DogInference.PredictBreed` | lib/services/inference.py:40-61 | changes nothing and returns `Predict` on the breed handle; the label is a breed or "Unknown", and "Unknown" comes with confidence 0.0 |
| `Inference.DogInference.PredictMood` | lib/services/inference.py:63-84 | the same over the mood handle and the mood labels |
| `Inference.ClassifyBreed` | lib/services/inference.py:90-91 | the module-level breed call returns the instance's breed prediction |
| `Inference.ClassifyMood` | lib/services/inference.py:93-94 | the module-level mood call returns the instance's mood prediction |

## Left out

- The HTTP layer (`lib/services/inference_server.py`): routing, multipart parsing, the 400 and 500 responses, the RGB conversion and the health check.
- The inference runtime's internals (`get_input_details`, `get_output_details`, `set_tensor`, `invoke`, `get_tensor`) and its buffers. They are one `Graph` that may fail, plus the allocation flag. An input shape the model rejects is a `Graph` failure.
- The resize itself: bilinear resampling is library behaviour. Only the output size and the value range are modelled.
- Float32 arithmetic, rounding and NaN scores: scores and scaled channels are exact `real` values.
- Concurrency: the shared interpreter buffers across simultaneous requests.
- Logging (`print`), the real file-system checks and the hard-coded paths beyond their names. File existence and loading come from a `Storage` value.
- The module-level instance created at import time. It is an explicit `DogInference` object passed to `ClassifyBreed` and `ClassifyMood`.
- Determinism is not a separate lemma. `PredictBreed` and `PredictMood` modify nothing, and their result is a function of the handle, the resize and the image.
