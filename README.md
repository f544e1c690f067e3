# Traces of Digital Memory: a Dafny model of the sketch's core

"Traces of Digital Memory" is a p5.js installation. A camera feed is shown
only through the shapes of 125 dialogue lines. The lines are drawn from the
DailyDialog dataset and match the emotion the face detector reads on the
viewer's face. This project models the logic under the camera, detector and
canvas glue of `sketch.js`. Each piece is a Dafny module:

- **PropertyKeys**: how an emotion label becomes an object key. A number
  becomes its decimal string (for integers below 1e21 in magnitude) and
  `undefined` becomes `"undefined"`. The model proves that distinct integer
  labels give distinct keys and that a missing label never shares a key with
  a real one.
- **DatasetIndex**: `preprocessDataset`. It is a nested loop (a method)
  proved equal to a specification function. Lemmas about that function show
  three things. Each pool holds its key's utterances in dataset order. No
  pool is empty. The pool sizes sum to the number of turns.
- **EmotionResolver**: `mapApiEmotionToDataset` as a total table that
  defaults to "0", proved to be a bijection between the table's seven names
  and the codes "0".."6".
  `getMostProminentEmotion` is the `reduce` argmax, whose strict `>` makes
  the *last* maximal key win.
- **DialogueSampler**: `getRandomDialogue`, and the line list that
  `selectRandomDialogues` builds. `Math.random()` is an input sequence of
  reals in [0, 1). The index is `Floor(r * n)`, which is proved to lie in
  [0, n).
- **RefreshPacer**: `adjustChangeInterval` and the pacing block of
  `renderCanvas`, modelled as a step function over
  (`lastChangeTime`, `changeInterval`, displayed lines).
- **TextMask**: the line layout of `displayVideoText` and its in-place mask
  loop over the RGBA byte array.
- **ModeToggles**: `keyPressed` as a transition on
  (`debugingMode`, `showcaseMode`, fullscreen).
- **Installation**: class `Sketch`, which holds the sketch's globals. Its
  methods change them in place, and each method's postcondition ties the new
  state to the functions above.

Four behaviours of `sketch.js` are easy to misread:

- A turn without a label is not skipped. `emotion[index]` is `undefined`,
  so the turn is filed under the key `"undefined"`
  (`PropertyKeys.LabelKey`, `DatasetIndex.FullyLabelledHasNoUndefined`).
- A tie between expression scores goes to the later key, because
  `emotions[a] > emotions[b] ? a : b` keeps `b` unless `a` scores strictly
  more (`EmotionResolver.ReduceToMax`).
- `preload` calls `selectRandomDialogues()` with no argument. That call
  looks up the key `"undefined"`. It shows only the fallback sentence when
  every turn is labelled (`Installation.PreloadShowsFallback`).
- The table spells the fear expression `fear`, and only that exact name
  reaches class "3". A detector that reports the expression as `fearful`
  (the key face-api.js uses) gets "0" from the default, so class "3" is
  then never shown (`EmotionResolver.FearOnlyByExactName`).

## Model

| member | source | states |
|---|---|---|
| `PropertyKeys.LabelKey` | sketch.js:52-56 | the key a turn is filed under is "undefined" exactly when its label is missing |
| `PropertyKeys.IntToKeyInjective` | sketch.js:52-56 | two integer labels with the same key are the same number, so distinct integer labels never share a pool |
| `PropertyKeys.SmallLabelKeys` | sketch.js:52-56 | labels 0..9 become the one-character keys "0".."9" |
| `PropertyKeys.DecimalDigits` | sketch.js:53-56 | a number used as a key is a non-empty string of decimal digits without a leading zero |
| `PropertyKeys.ParseDecimalInvertsDigits` | sketch.js:53-56 | reading the key's digits back gives the label, so the conversion loses nothing |
| `DatasetIndex.EmotionAt` | sketch.js:52 | a label is present exactly for turns within the emotion list |
| `DatasetIndex.FileTurn` | sketch.js:51-57 | filing a turn adds its key, appends the utterance to that key's pool (created empty on first use), and leaves every other pool alone |
| `DatasetIndex.PreprocessDataset` | sketch.js:47-61 | the nested loop returns exactly the index of all turns, filed in dataset order |
| `DatasetIndex.GroupPools` | sketch.js:50-58 | a key is present iff some turn carries it; its pool is the utterances with that key, in input order, and is never empty |
| `DatasetIndex.IndexPools` | sketch.js:47-61 | every pool of the dataset index is non-empty and lists its key's utterances in dataset order |
| `DatasetIndex.RowTurnFiled` | sketch.js:51-56 | the utterance of turn i of record j is in the pool of that turn's own label |
| `DatasetIndex.IndexSize` | sketch.js:47-61 | the pool sizes sum to the total number of turns in the dataset |
| `DatasetIndex.AddTurnSize` | sketch.js:53-56 | filing one turn adds exactly one utterance to the index |
| `DatasetIndex.FullyLabelledHasNoUndefined` | sketch.js:52-56 | if every turn has a label, the index has no "undefined" key |
| `EmotionResolver.MapApiEmotionToDataset` | sketch.js:100-111 | the result is always one of the codes "0".."6"; it is the table's code for the seven table names and "0" for any other name |
| `EmotionResolver.DetectorName` | sketch.js:101-109 | each class code has a name in the table |
| `EmotionResolver.NameCodeName` | sketch.js:101-109 | name to code to name is the identity on the table's names |
| `EmotionResolver.CodeNameCode` | sketch.js:101-109 | code to name to code is the identity on the codes "0".."6" |
| `EmotionResolver.MapInjective` | sketch.js:101-109 | two table names never map to the same code |
| `EmotionResolver.FearOnlyByExactName` | sketch.js:108-110 | a name maps to "3" exactly when it is "fear"; "fearful" maps to "0" |
| `EmotionResolver.ReduceToMax` | sketch.js:117-119 | the reduce returns a key whose score is at least every score, and every later key scores strictly less (ties go to the later key) |
| `EmotionResolver.LastMaximumUnique` | sketch.js:117-119 | that characterisation determines the key uniquely |
| `EmotionResolver.GetMostProminentEmotion` | sketch.js:114-123 | "0" with no detection; otherwise the code of the first face's last maximal expression, always one of "0".."6" |
| `EmotionResolver.UniqueMaximumResolves` | sketch.js:114-123 | a face whose scores have a unique maximum resolves to that expression's code, whatever the key order |
| `DialogueSampler.RandomIndex` | sketch.js:201 | `Math.floor(Math.random() * n)` is a valid index of a pool of size n |
| `DialogueSampler.GetRandomDialogue` | sketch.js:240-247 | a member of the class's pool when it exists and is non-empty, otherwise the fallback sentence |
| `DialogueSampler.EveryMemberDrawable` | sketch.js:243-244 | every member of a pool is returned for some value of `Math.random()` |
| `DialogueSampler.Sample` | sketch.js:196-209 | one line per draw; all from the class's pool when it exists and is non-empty, all the fallback sentence otherwise |
| `DialogueSampler.SampleDrawable` | sketch.js:196-209 | every sampled line is the fallback or an utterance of the dataset |
| `DialogueSampler.CodeIsLabelKey` | sketch.js:102-108 | every code the resolver returns is the key of a dataset label in 0..6 |
| `RefreshPacer.AdjustedInterval` | sketch.js:125-134 | the interval lies in [100, 1000] and is the larger of 1000 - 200·faces and 100 |
| `RefreshPacer.IntervalNonIncreasing` | sketch.js:125-134 | more faces never give a longer interval |
| `RefreshPacer.IntervalValues` | sketch.js:125-134 | 0 faces give 1000, 1 face 800, 4 faces 200, up to 4 faces 1000 - 200·faces, and 5 or more faces 100 |
| `RefreshPacer.RenderStep` | sketch.js:160-168 | with no face nothing changes; with a face the lines are resampled and the timestamp set exactly when the elapsed time strictly exceeds the previous interval, and the interval becomes that of the face count |
| `RefreshPacer.RenderStepKeepsValid` | sketch.js:160-168 | a frame keeps the interval in [100, 1000] and the display at 125 lines, each the fallback or a dataset utterance |
| `RefreshPacer.IntervalOfPreviousFrameGoverns` | sketch.js:161-167 | the resample check of a frame uses the interval computed on the frame before it |
| `TextMask.LayoutLines` | sketch.js:216-220 | line k is drawn at x = 0 and y = 20 + 15·k, in display order |
| `TextMask.MaskEffect` | sketch.js:226-234 | where the text buffer's alpha is 0 the output alpha is 0; colour bytes never change; alpha is kept where the text alpha is non-zero |
| `TextMask.MaskIdempotent` | sketch.js:226-234 | masking twice gives the same canvas as masking once |
| `TextMask.MaskTracesText` | sketch.js:226-234 | on equal-sized buffers a pixel stays visible exactly where the text alpha is non-zero (and it was visible before) |
| `TextMask.ApplyTextMask` | sketch.js:226-234 | the loop leaves the canvas equal to the masked canvas, whether or not the two buffers are the same array |
| `ModeToggles.KeyPressed` | sketch.js:182-194 | D/d flips debugging, clears showcase and leaves fullscreen when debugging turns on; S/s flips showcase, clears debugging and sets fullscreen to showcase; other keys change nothing; after D or S at most one mode is on |
| `ModeToggles.PressAllExclusive` | sketch.js:182-194 | from a state with at most one mode on, no key sequence turns both on |
| `ModeToggles.PressAllShowcaseFullscreen` | sketch.js:182-194 | from a state where showcase implies fullscreen, every key sequence keeps it so |
| `ModeToggles.ShowcaseTwice` | sketch.js:189-193 | pressing S twice restores showcase mode, with debugging off |
| `ModeToggles.DebugTwice` | sketch.js:183-188 | pressing D twice restores debugging mode, with showcase off |
| `Installation.Sketch.Preload` | sketch.js:24-44 | the globals start at their declared values; the dataset is the index of the rows, and the lines are sampled under the key "undefined" |
| `Installation.Sketch.SelectRandomDialogues` | sketch.js:196-209 | the displayed lines are replaced by exactly the sample for the class |
| `Installation.Sketch.AdjustChangeInterval` | sketch.js:125-134 | the interval becomes that of the current face count |
| `Installation.Sketch.DisplayVideoText` | sketch.js:212-237 | each displayed line is laid out at its baseline, and the canvas is masked by the text buffer |
| `Installation.Sketch.RenderCanvas` | sketch.js:148-169 | the canvas is masked using the lines from before the frame; the pacing state then takes one pacing step; the state stays valid |
| `Installation.Sketch.KeyPressed` | sketch.js:182-194 | the modes take one key transition, and at most one mode is on afterwards |
| `Installation.ResampledLinesMatchFace` | sketch.js:162-163 | after a resample every line is the fallback or an utterance the dataset labels with the resolved emotion, itself a label in 0..6 |
| `Installation.PreloadShowsFallback` | sketch.js:39-44 | when every turn is labelled, the lines shown before any face is seen are all the fallback |

## Left out

- Camera, face-API model and detection loop (`setup`, `faceReady`,
  `gotFaces`, sketch.js:63-97). These are foreign library calls with
  self-re-arming callbacks. The detector's latest `detections` is a
  parameter of every step that reads it.
- `loadJSON` in `preload`. This is I/O, so the dataset rows are a
  parameter of `Installation.Sketch.Preload`. The model does not cover
  `dataset` before the load, because p5 finishes `preload` before drawing
  starts.
- Drawing calls: `background`, `image` and the cover-scale factor (a
  floating-point division used only for drawing, sketch.js:150-155). Also
  `pg.clear`, `pg.fill`, the glyph rasterisation of `pg.text`,
  `loadPixels`/`updatePixels` and `fullscreen`. The model receives the
  canvas (already holding the video frame) and the off-screen text buffer
  as byte arrays, and records the `pg.text` calls as data.
  `fullscreen()` is a boolean the key handler reads and sets. The model
  does not cover the browser leaving fullscreen on its own.
- `draw` (sketch.js:137-145). In debugging mode it calls `renderCanvas`
  twice per frame. Such a frame is two consecutive
  `Installation.Sketch.RenderCanvas` steps, each on a freshly drawn canvas.
  The model has no separate member for it, because the canvas redraw
  between the two calls is foreign.
- `renderDebugInfo` and `logMostProminentEmotion` (sketch.js:171-180,
  sketch.js:250-257). They only log or have no effect.
- `Math.random()`. Its distribution is not modelled, and neither is IEEE
  rounding in `Math.random() * n`: draws are exact reals in [0, 1). The
  model supplies 125 draws per resample, and they go unused when the
  fallback branch is taken.
- `millis()`. Its two readings in `renderCanvas` (the check and the new
  timestamp) are separate parameters.
- JavaScript prototype keys in object lookups (such as `emotionMap["constructor"]`).
  Index keys are always decimal strings or "undefined" and never hit a
  prototype property. Expression names are compared with the table's seven
  names as exact strings.
- `EmotionResolver.ReduceToMax` and `EmotionResolver.GetMostProminentEmotion`
  require a non-empty score list when a face is present, because `reduce`
  without an initial value throws on an empty array. Scores are reals, so
  NaN scores are not modelled.
- PropertyKeys.IntToKey: labels are unbounded integers written in decimal.
  JavaScript's `String(n)` switches to exponent form from 1e21 upward
  (label 1e21 becomes "1e+21"), and JSON numbers beyond 2^53 lose precision
  when parsed, so two distinct large literals can share a pool there. Neither
  is modelled; the dataset's labels are 0..6.
- `numberOfLines` is declared with `let` but never reassigned, so it is the
  constant 125.
