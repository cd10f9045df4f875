# Pepper museum guide: controller model

A Dafny model of the control logic in `MainActivity.kt`, the single activity of an Android
app that drives a Pepper robot. The activity lets the user disable and re-enable the
robot's autonomous abilities (background movement, basic awareness, blinking) through an
SDK holder. It speaks the contents of a text file once when periodic speech is started
and then every ten minutes. It also cycles a slideshow of the jpg/jpeg/png files found in
an image folder.

The activity keeps its state in mutable fields (`qiContext`, `holder`, `isHolding`,
`isAutoSpeechRunning`, `speechRunnable`, `imageFiles`, `currentImageIndex`). These fields
change from button clicks, robot-focus callbacks, handler runnables, background threads
and SDK future completions. The model turns this into:

- `Control.Controller`: one immutable record of those fields. `speechScheduled` says
  whether the speech runnable is posted on the handler. `qiContext != null` becomes
  `connected`.
- `Control.Event`: one constructor per stimulus. `Control.Step` gives the next controller
  and an `Output`: an utterance (`Say`), a displayed image (`Show`) or nothing.
- `tasks`: a multiset of work that has been started but not finished. Each entry is a
  background thread or an SDK future still owed to the controller. A hold request adds
  `BuildHolder`. Building the holder assigns the `holder` field and turns that entry into
  `AwaitHold`. Only the completion of that future sets `isHolding`. Release works the same
  way through `RunRelease` and `AwaitRelease`. A speech request adds `ReadSpeech`.
  A completion event for work nobody started is a no-op. This keeps the gap between an
  SDK request and its completion visible.
- `Images`: the folder scan. It keeps the entries that are regular files and whose
  extension (the text after the last dot), lower-cased, is `jpg`, `jpeg` or `png`,
  in listing order.
- `Status`: the status text and the two button captions.

Two observations are stated as lemmas:

- `loadImages` does not reset `currentImageIndex`. If it ran a second time and found fewer
  images, the cursor could be left past the end. From then on every slideshow tick would
  throw inside its `try`, the exception would be caught, and the cursor would never move
  again (`Properties.ShrinkingScanStrandsCursor`, `Properties.StaleCursorStalls`). This is
  latent in `loadImages` only: the activity calls it once, from `initializeFiles`
  (MainActivity.kt:219), while the cursor is still 0.
- Nothing stops a second hold request while the first is in flight. The second holder
  overwrites the first. A release then drops it, and the late completion of the other
  hold reports abilities held with no holder left. A later release request finds no
  holder and does nothing (`Traces.OverlappingHoldsStrandHolding`).

Three facts about `MainActivity.kt` that the model keeps:

- A refused focus does not touch the context (MainActivity.kt:341-351).
- A hold without a context only shows a toast and leaves the state unchanged
  (MainActivity.kt:368-375).
- A speech thread that has already started is not cancelled by a stop
  (MainActivity.kt:523-551, 587-594).

## Model

| member | source | states |
|---|---|---|
| Images.Extension | app/src/main/java/com/example/myapplication/MainActivity.kt:618-620 | the extension is the dot-free suffix after the last '.', and empty when the name has no '.' |
| Images.ExtensionAfterLastDot | app/src/main/java/com/example/myapplication/MainActivity.kt:618-620 | for any prefix, even one with dots, the extension of prefix + "." + ext is ext when ext has no dot |
| Images.FilterImages | app/src/main/java/com/example/myapplication/MainActivity.kt:617-621 | an entry is kept exactly when it is listed, is a regular file, and its lower-cased extension is jpg, jpeg or png |
| Images.FilterImagesAppend | app/src/main/java/com/example/myapplication/MainActivity.kt:617-621 | filtering distributes over concatenation, so the kept entries stay in listing order |
| Images.FilterImagesIdempotent | app/src/main/java/com/example/myapplication/MainActivity.kt:617-621 | filtering a filtered list changes nothing |
| Images.FilterImagesCounts | app/src/main/java/com/example/myapplication/MainActivity.kt:617-621 | each image entry is kept as many times as it is listed, and every other entry is dropped |
| Images.UpperCaseExtensionIsImage | app/src/main/java/com/example/myapplication/MainActivity.kt:618-620 | the extension test ignores case: hall.JPG is an image |
| Images.InnerExtensionIsIgnored | app/src/main/java/com/example/myapplication/MainActivity.kt:618-620 | only the last extension counts: scan.png.txt is not an image |
| Images.NoDotOrNoFileIsNoImage | app/src/main/java/com/example/myapplication/MainActivity.kt:618-620 | a name without a dot, or an entry that is not a regular file, is not an image |
| Control.OnFocusGained | app/src/main/java/com/example/myapplication/MainActivity.kt:293-301 | gaining focus stores the context and changes nothing else in the controller |
| Control.OnFocusLost | app/src/main/java/com/example/myapplication/MainActivity.kt:324-335 | losing focus drops the context and turns periodic speech off; hold, holder, slides and pending work stay as they were |
| Control.ToggleAutonomousAbilities | app/src/main/java/com/example/myapplication/MainActivity.kt:357-363 | the button requests a release when abilities are held; otherwise it requests a hold, which needs a context |
| Control.HoldAutonomousAbilities | app/src/main/java/com/example/myapplication/MainActivity.kt:368-377 | without a context nothing changes; with one, a hold thread starts and neither isHolding nor the holder changes yet |
| Control.ReleaseAutonomousAbilities | app/src/main/java/com/example/myapplication/MainActivity.kt:412-413 | a release request starts a thread whatever the connection and changes nothing else |
| Control.OnHolderBuilt | app/src/main/java/com/example/myapplication/MainActivity.kt:381-391 | a finished build assigns the holder field and waits on hold(); isHolding is not changed |
| Control.OnHoldFailed | app/src/main/java/com/example/myapplication/MainActivity.kt:400-405 | a throw in the hold thread ends that thread and leaves isHolding and the holder unchanged |
| Control.OnHoldCompleted | app/src/main/java/com/example/myapplication/MainActivity.kt:391-398 | only a pending hold completion sets isHolding; the holder field is untouched |
| Control.OnHoldRejected | app/src/main/java/com/example/myapplication/MainActivity.kt:391 | a failed hold future never runs its consumer; only the pending completion goes away |
| Control.OnReleaseRun | app/src/main/java/com/example/myapplication/MainActivity.kt:414-417 | a release thread asks for a release only when a holder exists; without one it ends doing nothing |
| Control.OnReleaseCompleted | app/src/main/java/com/example/myapplication/MainActivity.kt:417-424 | a pending release completion clears isHolding and the holder; nothing else changes |
| Control.OnReleaseRejected | app/src/main/java/com/example/myapplication/MainActivity.kt:417 | a failed release future never runs its consumer; only the pending completion goes away |
| Control.ToggleAutoSpeech | app/src/main/java/com/example/myapplication/MainActivity.kt:439-445 | the speech button flips the running flag, and the runnable is posted exactly when the flag ends up on |
| Control.SpeakFromFile | app/src/main/java/com/example/myapplication/MainActivity.kt:515-523 | a speech thread starts exactly when a context is present |
| Control.StartAutoSpeech | app/src/main/java/com/example/myapplication/MainActivity.kt:557-578 | a no-op while running; otherwise speech is turned on, the runnable is posted, and one utterance is requested if a context is present |
| Control.StopAutoSpeech | app/src/main/java/com/example/myapplication/MainActivity.kt:587-594 | a no-op while stopped; otherwise the flag is cleared and the runnable removed; pending speech threads are kept |
| Control.OnSpeechTick | app/src/main/java/com/example/myapplication/MainActivity.kt:569-576 | while running the runnable speaks and posts itself again; after a stop it does neither; unposted it cannot fire |
| Control.OnSpeechRead | app/src/main/java/com/example/myapplication/MainActivity.kt:525-550 | a pending speech thread says the text exactly when it is present and non-empty and the Say action builds, and says it verbatim; otherwise it says nothing |
| Control.NextIndex | app/src/main/java/com/example/myapplication/MainActivity.kt:689 | the cursor moves one forward and wraps to 0 after the last image; it stays below the count |
| Control.OnSlideshowTick | app/src/main/java/com/example/myapplication/MainActivity.kt:670-693 | an empty list is a no-op; otherwise the image under the cursor is shown if it decodes and the cursor wraps forward; a cursor past the end changes nothing |
| Control.LoadImages | app/src/main/java/com/example/myapplication/MainActivity.kt:604-621 | a missing folder leaves the list alone; an unlistable one empties it; otherwise the list becomes exactly the listing's images; the cursor is kept |
| Control.Step | app/src/main/java/com/example/myapplication/MainActivity.kt:537-545 | where an utterance can come from: among all handlers, only a speech thread's read asks for one (the Say at these lines), and only a slideshow tick shows an image |
| Properties.StartAutoSpeechIdempotent | app/src/main/java/com/example/myapplication/MainActivity.kt:557-560 | starting twice is the same as starting once |
| Properties.StopAutoSpeechIdempotent | app/src/main/java/com/example/myapplication/MainActivity.kt:587-594 | stopping twice is the same as stopping once |
| Properties.ToggleSpeechFromStopped | app/src/main/java/com/example/myapplication/MainActivity.kt:439-445 | from stopped, one press runs speech; a second press restores the state except for the utterance already requested |
| Properties.TickAfterStopIsInert | app/src/main/java/com/example/myapplication/MainActivity.kt:569-576 | a tick after stop neither requests speech nor reposts itself |
| Properties.BlankTextIsSpoken | app/src/main/java/com/example/myapplication/MainActivity.kt:527 | blank text is spoken; only absent or empty text is skipped |
| Properties.FailedSayBuildIsSilent | app/src/main/java/com/example/myapplication/MainActivity.kt:537-550 | when building the Say action throws, the thread ends without an utterance, whatever the text |
| Properties.NoSpeechThreadWhileDisconnected | app/src/main/java/com/example/myapplication/MainActivity.kt:516-521 | without a context no event starts a speech thread |
| Properties.StepKeepsSchedule | app/src/main/java/com/example/myapplication/MainActivity.kt:562-594 | every event keeps the runnable posted exactly while speech is on |
| Properties.FocusLostStopsSpeechKeepsHold | app/src/main/java/com/example/myapplication/MainActivity.kt:324-335 | after focus loss there is no context, no speech and no posted runnable, and the hold and holder are unchanged |
| Properties.FocusRefusedChangesNothing | app/src/main/java/com/example/myapplication/MainActivity.kt:341-351 | a refused focus changes no controller state and asks for nothing |
| Properties.HoldingStartsOnlyOnCompletion | app/src/main/java/com/example/myapplication/MainActivity.kt:391-398 | isHolding turns on only through a pending hold completion, never on a request |
| Properties.HoldingEndsOnlyOnRelease | app/src/main/java/com/example/myapplication/MainActivity.kt:417-424 | isHolding turns off only through a pending release completion, which also drops the holder |
| Properties.HolderAppearsOnlyWhenBuilt | app/src/main/java/com/example/myapplication/MainActivity.kt:381-387 | a holder appears only when a hold thread builds it |
| Properties.HoldWithoutContextIsNoOp | app/src/main/java/com/example/myapplication/MainActivity.kt:369-375 | pressing the button without a context and with nothing held changes nothing |
| Properties.ReleaseWithoutHolderIsNoOp | app/src/main/java/com/example/myapplication/MainActivity.kt:417 | a release thread that finds no holder asks for no release |
| Properties.CursorIgnoresDecoding | app/src/main/java/com/example/myapplication/MainActivity.kt:679-689 | the cursor advances the same way whether or not the image decodes |
| Properties.StepKeepsCursor | app/src/main/java/com/example/myapplication/MainActivity.kt:670-689 | every event except a folder scan keeps the cursor inside a non-empty list |
| Properties.ScanKeepsCursorWhenNotShrinking | app/src/main/java/com/example/myapplication/MainActivity.kt:604-621 | a scan keeps the cursor inside the list when the cursor is at the start or a non-empty list does not shrink |
| Properties.StaleCursorStalls | app/src/main/java/com/example/myapplication/MainActivity.kt:675-693 | with the cursor past the end of a non-empty list, every tick shows nothing and moves nothing |
| Properties.ShrinkingScanStrandsCursor | app/src/main/java/com/example/myapplication/MainActivity.kt:615-621 | in the model, a rescan finding one image when the cursor is at 2 leaves the cursor out of bounds and the slideshow stuck; the activity never rescans |
| Properties.SlideshowWrapsAround | app/src/main/java/com/example/myapplication/MainActivity.kt:689 | with three images and the cursor at 0, four ticks visit 1, 2, 0, 1 |
| Traces.RunKeepsSchedule | app/src/main/java/com/example/myapplication/MainActivity.kt:557-599 | along any run the runnable stays posted exactly while speech is on |
| Traces.NoHoldWithoutCompletion | app/src/main/java/com/example/myapplication/MainActivity.kt:391-398 | a run without a hold completion never ends holding if it started not holding |
| Traces.SilentWhileDisconnected | app/src/main/java/com/example/myapplication/MainActivity.kt:516-521 | with no context and no pending speech thread, a run without focus gain says nothing and stays that way |
| Traces.TwoHoldRequests | app/src/main/java/com/example/myapplication/MainActivity.kt:368-391 | two hold presses before a completion leave one holder and two pending hold completions |
| Traces.ReleaseBetweenCompletions | app/src/main/java/com/example/myapplication/MainActivity.kt:412-424 | one completion and a release drop the holder while the other hold completion is still pending |
| Traces.LateCompletionWithoutHolder | app/src/main/java/com/example/myapplication/MainActivity.kt:391-424 | the late completion reports abilities held with no holder, and a later release request does nothing |
| Traces.OverlappingHoldsStrandHolding | app/src/main/java/com/example/myapplication/MainActivity.kt:357-424 | from a connected start, overlapping hold requests end with abilities held and no holder to release |
| Status.StatusTextRoundTrip | app/src/main/java/com/example/myapplication/MainActivity.kt:450-456 | the three flags can be read back from the status text, so distinct states show distinct texts |
| Status.View | app/src/main/java/com/example/myapplication/MainActivity.kt:450-460 | the panel shows all three flags; the captions read "Enable Abilities" exactly when holding and "Stop Speech" exactly when running |
| Status.AbilitiesCaptionMatchesToggle | app/src/main/java/com/example/myapplication/MainActivity.kt:357-363 | the abilities caption reads "Enable Abilities" exactly when pressing the button requests a release |
| Status.SpeechCaptionMatchesToggle | app/src/main/java/com/example/myapplication/MainActivity.kt:439-460 | the speech caption reads "Stop Speech" exactly when pressing the button turns speech off |

## Left out

- Activity lifecycle and permissions (`onCreate`, `checkAndRequestPermissions`, `onRequestPermissionsResult`, `onDestroy`). These are platform glue.
- File-system work: paths, existence checks, directory creation, the sample text file, reading the text file, the storage-state check. The file's text is an `Option<string>` input to `SpeechRead`. The folder's listing is a `Listing` input to `ImagesLoaded`.
- Bitmap decoding. Whether an image decodes is a boolean input to `SlideshowTick`.
- Toasts, the refused-focus status line, and enabling or disabling the buttons. These are UI only and change no controller state.
- The SDK itself (holder and say builders, futures). Their outcomes are inputs: the hold and release completion and failure events, and the `builds` flag of `SpeechRead`. The welcome utterance on focus gain is fire-and-forget and has no state effect.
- Threads, `Handler.postDelayed`, `runOnUiThread` and the 10-minute and 5-second intervals. Ticks are discrete events. The delay between starting a background thread and its work is modelled by the pending `tasks`, and the SDK's delay by the completion events.
- Interleaving inside a handler: every callback body runs as one atomic step. In the activity, `onRobotFocusLost` runs off the UI thread, so its `stopAutoSpeech` (MainActivity.kt:330) could run between lines 562 and 578 of a `startAutoSpeech` on the UI thread. That would leave the flag off and a runnable posted. `Properties.StepKeepsSchedule` and `Traces.RunKeepsSchedule` rely on this atomicity; `Control.OnSpeechTick` still handles the state it rules out.
- Repeated folder scans: the model lets `ImagesLoaded` happen any number of times and at any cursor position, while the activity scans once at start. This over-approximates the activity.
- `startImageSlideshow` and `stopImageSlideshow`. Every display, including the first one made directly by `startImageSlideshow`, is a `SlideshowTick`. Posting and removing the image runnable is timing.
- Images.Lower: only the ASCII letters A-Z are lower-cased. The locale-dependent lower-casing of other letters is not modelled.
- Control.OnFocusLost: states that the runnable is removed only when speech was running. A runnable posted while speech is off is impossible by `Properties.StepKeepsSchedule`, and `Properties.FocusLostStopsSpeechKeepsHold` states the full promise under that invariant.
