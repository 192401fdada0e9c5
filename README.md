# Emotion detector feedback loop, modelled in Dafny

This project models the per-frame feedback logic and the start-up and
teardown sequencing of the `EmotionDetector` React component
(`src/components/EmotionDetector.jsx`). The component shows a live camera
feed. For each frame it asks face-api.js for face detections. It picks the
dominant expression of the first face and, at most once every 5000 ms,
shows a random joke message from that expression's pool.

Modules, following the parts of the component:

- `Wrappers`: the `Option` type used for the `topText` state, which starts out `null`.
- `Expressions`: dominant-label selection, the `reduce` over `Object.entries(expressions)`.
- `FunnyTexts`: the shape of the `funnyTexts` table, the pool lookup with its `neutral` fallback, the random index, and the badge's `topText || status`.
- `Feedback`: the throttled update as a pure step (`Step`, `FrameUpdate`) and its runs over many frames (`Run`, `ChangeTimes`), with lemmas. It also holds the class `FeedbackSelector`, which keeps `lastChangeRef.current` and `topText` as fields. Each method of the class is tied to the pure step.
- `Lifecycle`: the `useEffect` closure as the class `Effect`. Each method is one event: an awaited operation settles, an animation frame fires, React detaches the refs, or the cleanup runs. The fields are the closure's variables (`isMounted`, `stream`, `raf`) and the status. `Valid()` holds the ordering invariants.

Host inputs are parameters:

- `Date.now()` is read twice per update, at line 137 and at line 141. Both reads are inputs: `Reading.checkedAt` and `Reading.stampedAt`.
- `Math.random()` is the input `Reading.draw`, with `0 <= draw < 1`.
- The clock at first render is a constructor argument.
- Face-api detections are an input sequence. A detection keeps only its expression entries.

Behaviour of the code that the model keeps as written:

- Ties: `a[1] > b[1] ? a : b` gives a tie to the later entry (`Expressions.TieGoesToLaterEntry`).
- Cancellation: `detectLoop` does not check for cancellation after the detection `await`. It always requests the next frame (`Lifecycle.FrameAfterUnmountIsRequested`).
- Errors in `detectLoop`: a failed detection or a throwing `reduce` is never caught. The loop just stops and the status does not change.
- Teardown: the cleanup stops only a stream that has already arrived. A stream that resolves after unmount stays open (`Lifecycle.StreamAfterUnmountStaysOpen`).

## Model

| member | source | states |
|---|---|---|
| `Expressions.Dominant` | src/components/EmotionDetector.jsx:131-134 | the reduce needs a non-empty entry list; its result is one of the entries and its score is at least every entry's score |
| `Expressions.DominantIsLastMaximum` | src/components/EmotionDetector.jsx:132-134 | the selected entry is the last one in entry order that reaches the maximum score: every later entry scores strictly less |
| `Expressions.UniqueMaximumIsSelected` | src/components/EmotionDetector.jsx:132-134 | an entry with a strictly greatest score is always the one selected |
| `Expressions.TieGoesToLaterEntry` | src/components/EmotionDetector.jsx:133 | when two entries tie at the maximum, the result comes from the later one or after it (strict `>` keeps the right operand) |
| `FunnyTexts.Messages` | src/components/EmotionDetector.jsx:22-70 | each of the seven label lists has five messages, in table order |
| `FunnyTexts.TableShape` | src/components/EmotionDetector.jsx:21-71 | the table has exactly the seven labels, `neutral` among them, and every pool has five messages |
| `FunnyTexts.PoolFor` | src/components/EmotionDetector.jsx:138 | the pool is the label's own list when the table has the label and the `neutral` list otherwise; it is never empty |
| `FunnyTexts.PoolForOwner` | src/components/EmotionDetector.jsx:138 | every message of the chosen pool belongs to the label's list, or to the `neutral` list when the label has none |
| `FunnyTexts.RandomIndex` | src/components/EmotionDetector.jsx:139 | `floor(r * n)` with `0 <= r < 1` and `n > 0` is an index in `[0, n)`, the integer part of `r * n` |
| `FunnyTexts.BadgeText` | src/components/EmotionDetector.jsx:184 | the badge shows the feedback message exactly when one is set, and the status otherwise |
| `Feedback.Step` | src/components/EmotionDetector.jsx:137-142 | less than 5000 ms after the last change nothing changes; otherwise the timestamp becomes the second clock read and the message is taken from the dominant label's pool |
| `Feedback.StepMovesForward` | src/components/EmotionDetector.jsx:137-141 | when the clock does not step back within a frame, one due update moves the timestamp forward by at least 5000 ms, and an update that is not due leaves it where it was |
| `Feedback.StepDrawsFromLabelPool` | src/components/EmotionDetector.jsx:138-140 | a message set by an update belongs to the dominant label's list, or to the `neutral` list when the table lacks that label |
| `Feedback.FrameUpdate` | src/components/EmotionDetector.jsx:130-143 | with zero detections the state is untouched; an empty entry list of the first face makes `reduce` throw; otherwise one step runs for the first face's dominant label |
| `Feedback.RunAppend` | src/components/EmotionDetector.jsx:137-142 | a run extended by one frame ends in one more step from the state reached so far |
| `Feedback.QuietWithinInterval` | src/components/EmotionDetector.jsx:18 | updates whose clock read is within 5000 ms of the starting timestamp change nothing, so no message appears within 5000 ms of mount |
| `Feedback.RunState` | src/components/EmotionDetector.jsx:137-141 | after a run the timestamp equals the last change time (or the starting one), and a message is set exactly when some change happened |
| `Feedback.ChangesAreSpaced` | src/components/EmotionDetector.jsx:137-141 | when the clock does not step back within a frame, the first change comes at least 5000 ms after the start and successive changes are at least 5000 ms apart |
| `Feedback.LastChangeNeverDecreases` | src/components/EmotionDetector.jsx:141 | when the clock does not step back within a frame, the timestamp never moves backwards |
| `Feedback.BadgeShowsStatusUntilFirstChange` | src/components/EmotionDetector.jsx:184 | from mount on, the badge shows the status until the first message change and a feedback message afterwards |
| `Feedback.FeedbackSelector.constructor` | src/components/EmotionDetector.jsx:17-18 | the timestamp starts at the clock of first render and no message is set |
| `Feedback.FeedbackSelector.Update` | src/components/EmotionDetector.jsx:137-142 | the in-place update of `topText` and `lastChangeRef.current` leaves the state `Step` gives, and keeps the state equal to the run of all updates so far |
| `Feedback.FeedbackSelector.OnDetections` | src/components/EmotionDetector.jsx:130-143 | the per-frame block leaves the state `FrameUpdate` gives and reports when `reduce` throws; with zero detections or a throw nothing changes; otherwise the history grows by the first face's dominant label |
| `Lifecycle.Effect.constructor` | src/components/EmotionDetector.jsx:73-80 | the effect starts mounted, with status `Loading models.`, nothing loaded or acquired and no frame pending |
| `Lifecycle.Effect.ModelsLoaded` | src/components/EmotionDetector.jsx:81-85 | `onModelsLoaded` is called once, after the models load and before the camera request; an error it throws is caught into the status and the camera is not requested |
| `Lifecycle.Effect.ModelsFailed` | src/components/EmotionDetector.jsx:81-99 | a model-loading failure sets status `Error: ` plus the message, notifies nobody and requests no camera |
| `Lifecycle.Effect.CameraResolved` | src/components/EmotionDetector.jsx:86-96 | the stream is held; `play()` is called only if the component is still mounted and the video element exists, and otherwise `start()` returns |
| `Lifecycle.Effect.CameraFailed` | src/components/EmotionDetector.jsx:86-99 | a refused camera sets the error status, acquires no stream and starts no loop |
| `Lifecycle.Effect.PlayResolved` | src/components/EmotionDetector.jsx:93-95 | once `play()` resolves the status becomes `Detecting.` and the loop starts; a detection is pending exactly when both elements exist |
| `Lifecycle.Effect.PlayFailed` | src/components/EmotionDetector.jsx:93-99 | a rejected `play()` sets the error status and starts no loop |
| `Lifecycle.Effect.Fail` | src/components/EmotionDetector.jsx:97-100 | the catch sets status `Error: ` plus the message and `start()` ends |
| `Lifecycle.Effect.EnterDetectLoop` | src/components/EmotionDetector.jsx:103-118 | `detectLoop` returns at once without the video or canvas element and otherwise suspends on detection |
| `Lifecycle.Effect.DetectionResolved` | src/components/EmotionDetector.jsx:118-145 | the feedback block runs and the next frame is requested unless `reduce` threw, whether or not the component is still mounted |
| `Lifecycle.Effect.DetectionFailed` | src/components/EmotionDetector.jsx:118-121 | a rejected detection ends the loop with no frame pending and no status change |
| `Lifecycle.Effect.FrameFired` | src/components/EmotionDetector.jsx:145 | the fired frame runs `detectLoop` again and leaves the feedback state alone |
| `Lifecycle.Effect.RefsDetached` | src/components/EmotionDetector.jsx:160-169 | the video and canvas refs become unset and nothing else changes |
| `Lifecycle.Effect.Cleanup` | src/components/EmotionDetector.jsx:150-155 | cleanup clears `isMounted`, cancels a pending frame, pauses the video if present and stops the tracks of an already acquired stream; an in-flight detection is left running |
| `Lifecycle.StreamAfterUnmountStaysOpen` | src/components/EmotionDetector.jsx:86-90 | from any state awaiting the camera, cleanup followed by the stream's arrival leaves the stream held with its tracks running and no loop started |
| `Lifecycle.FrameAfterUnmountIsRequested` | src/components/EmotionDetector.jsx:145 | from any state with a detection in flight, cleanup followed by that detection resolving (without `reduce` throwing) leaves a new frame requested on an unmounted component |
| `Lifecycle.CameraDenied` | src/components/EmotionDetector.jsx:86-99 | for any callback choice and mount time, loading the models and then a denied camera request leaves the loop unstarted, no stream held and the error in the status |

## Left out

- face-api.js model loading, detection, `resizeResults` and drawing (lines 5-11, 113-128): foreign library calls. Their outcomes are events, and detections are an input sequence without geometry.
- `getUserMedia` constraints, `srcObject`, canvas sizing and `getContext` (lines 86-93, 108-110, 124-125): browser I/O.
- `requestAnimationFrame` timing and frame ids: a frame is only "pending" or not. The id test `if (raf)` is modelled as "a frame is pending", because cancelling a frame that already fired does nothing.
- React rendering, styles, the asynchronous application of `setState`, the warning React gives for state set after unmount, and re-running the effect when `onModelsLoaded` changes.
- `console.error` (line 98): output only.
- The literal message strings: a message is named by its pool and position. The badge abstraction relies on every message being a non-empty string, which holds for the table.
- Floating-point scores: only their ordering is modelled, and NaN scores are not.
- Lookups of inherited object keys in `funnyTexts`, such as `constructor`: face-api labels are always the seven table keys.
- `Feedback.ChangesAreSpaced`: assumes the clock does not step back between the two `Date.now()` reads of a frame. `Date.now` has no such guarantee.
- `Feedback.LastChangeNeverDecreases`: makes the same clock assumption.
- `Feedback.StepMovesForward`: makes the same clock assumption.
