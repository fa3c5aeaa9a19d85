# Gesture dispatch of the sign-language assistant

The assistant watches a webcam, runs each frame through a trained image
classifier and, when a hand gesture is recognised with enough confidence,
shows its label and plays a matching response video. This project models the
per-frame dispatch in `script.js`:

- the scan that keeps the top prediction of the classifier's output, where a
  later record replaces the kept one only on a strictly greater probability
  (`Dispatch.SelectTop`, specified by `Dispatch.TopIndex`);
- the inclusive comparison with `CONFIDENCE_THRESHOLD = 0.85` and the lookup in
  the two-entry `VIDEO_SOURCES` table (`Dispatch.Decide`, `Dispatch.PlayRequest`,
  and `Dispatch.Tick` for a whole frame);
- the page those decisions change: the response video element, the result
  text and the script's globals, as the class `App.Page` with the handlers
  `predict`, `updateResults`, `playResponseVideo`, `hideResponseVideo` and
  `toggleDebug`.

Probabilities are `real`s; the code only compares them. The classifier's
output is an input sequence. Whether the promise returned by `play()` is
rejected, for any reason, is an input flag (`playRejected`).

Behaviour of the code worth noting:

- The threshold is the constant `CONFIDENCE_THRESHOLD` (script.js:7).
- Below the threshold the code always hides, pauses and rewinds the video,
  whether or not it was playing (script.js:146-149, script.js:168-172).
- Each frame is dispatched on its own. No label is kept from one frame to the
  next.
- A repeated request for the clip already showing restarts it. Each frame
  above the threshold assigns `src` again (script.js:156). By the HTML media
  element load algorithm, that assignment rewinds and pauses the clip before
  `play()` is called. So `App.Page.PlayResponseVideo` ends with `currentTime == 0`
  every time.
- An empty classifier output makes `predictions[0]` undefined. `updateResults`
  then fails on its first line and the `catch` at script.js:125 logs the
  error. The model treats this frame as one that changes nothing.

## Model

| member | source | states |
|---|---|---|
| Dispatch.TopIndex | script.js:105-110 | the kept index is the first index holding the largest probability: no record is larger, and every earlier record is strictly smaller |
| Dispatch.SelectTop | script.js:104-110 | the loop keeps `None` exactly for an empty output; otherwise it keeps the record at the first index of largest probability, so the chosen record is in the list, is at least every record, and ties go to the earliest one |
| Dispatch.FirstMaxUnique | script.js:107 | because replacement needs a strictly greater probability, exactly one index qualifies as the choice |
| Dispatch.TopProbabilityOrderIndependent | script.js:105-110 | any reordering of the classifier's output gives the same top probability, so the threshold decision does not depend on the order |
| Dispatch.TopChoiceOrderIndependent | script.js:105-110 | when only one record holds the top probability, every reordering selects that same record |
| Dispatch.PlayRequest | script.js:155-156 | a class asks for a clip exactly when `VIDEO_SOURCES` has it, and the clip is that class's entry; it never asks to stop |
| Dispatch.Decide | script.js:139-150 | at or above 0.85 the text is the class name and the clip is requested; below it the text is "Indeterminado" and the video is stopped; only a class in the table plays |
| Dispatch.Tick | script.js:104-113 | a frame with output stops the video exactly when no prediction reaches the threshold; otherwise the text shown is the label of a prediction that reaches it; an empty output yields no outcome |
| Dispatch.ScenarioRecognisedWithVideo | script.js:140-145 | `[derivada_1_x 0.2, letra_a 0.9]` shows "letra_a" and plays its clip |
| Dispatch.ScenarioRecognisedWithoutVideo | script.js:141-145 | a class at 0.99 with no table entry is shown and leaves the video alone |
| Dispatch.ScenarioAtThreshold | script.js:140 | a probability of exactly 0.85 is recognised |
| Dispatch.ScenarioTie | script.js:107 | of two records at 0.9, the earlier one is chosen |
| Dispatch.ScenarioBelowThreshold | script.js:146-149 | a top probability of 0.84 shows "Indeterminado" and stops the video |
| App.Page.constructor | script.js:24-27 | the script starts with no model loaded, no webcam and the debug mode off |
| App.Page.HideResponseVideo | script.js:168-172 | the video ends hidden, paused and at time 0 whatever its prior state; its source stays as it was, and so do its controls, because a `play()` rejection this `pause()` causes is charged to the play call that started it |
| App.Page.PlayResponseVideo | script.js:154-165 | for a class in the table, `src` becomes exactly its clip and the video is shown, rewound, and playing unless its `play()` promise is rejected (autoplay refused, or the attempt aborted by a later load or pause), in which case it stays paused and the controls are turned on; for any other class the page is unchanged |
| App.Page.UpdateResults | script.js:131-151 | the result text and video follow `Decide`: at or above the threshold the text is the class name and the clip plays when the table has one, with the video untouched otherwise; below it the text is "Indeterminado" and the video is hidden, paused and rewound |
| App.Page.Predict | script.js:96-113 | without a loaded model, a webcam, or any prediction, nothing on the page changes; otherwise the page shows the outcome of `Tick` for the frame |
| App.Page.ToggleDebug | script.js:175-176 | the debug mode is negated and nothing else changes |
| Scenarios.ToggleDebugTwice | script.js:175-176 | toggling twice restores the debug mode |
| Scenarios.GestureThenLowConfidence | script.js:140-149 | after a recognised "letra_a" frame and then a frame below the threshold, the text is "Indeterminado" and the video is hidden, paused and at time 0, with the clip still as its source |

## Left out

- Model loading and camera set-up (`init`, `startWebcam`): asynchronous I/O through the image-model library and the browser's media APIs. Only their effect on `isModelLoaded` and `webcam` is kept, as the fields `isModelLoaded` and `hasWebcam`.
- The `requestAnimationFrame` loop (`loop`): browser scheduling. One call of `App.Page.Predict` is one frame.
- The classifier call `model.predict`: foreign code. Its output is the `predictions` argument.
- The asynchronous outcome of `play()`: reduced to the `playRejected` flag, applied within the same call.
- App.Page.PlayResponseVideo: a rejection of its `play()` promise caused later, when the next recognised frame assigns `src` again or a low frame calls `pause()`, is charged to the call that started the play. The model sets `controls` and leaves the clip paused in that call. In the browser, `controls` turns on during the later call, while the clip is already playing.
- App.Page.HideResponseVideo: promises `controls` unchanged. In the browser, the `pause()` it calls can reject a still-pending `play()` promise, and that rejection's handler turns `controls` on. The model charges that change to the `App.Page.PlayResponseVideo` call that started the play.
- The percentage, the confidence bar, the debug JSON text, colours, button labels, `classList.toggle` and the DOM lookups: number formatting and UI wiring.
- `classes`, the list of class labels read when the model loads: nothing in the dispatch uses it.
- Floating point: probabilities and the threshold are exact reals. Double rounding of 0.85 and NaN comparisons are not modelled.
- Dispatch.PlayRequest: looks up own entries of `VIDEO_SOURCES` only. A label matching an inherited object property (such as "constructor") would be truthy in JavaScript and is not modelled.
- The initial state of the video and result elements comes from the page markup. That markup is not part of this model, so `App.Page.constructor` leaves those fields unconstrained.
