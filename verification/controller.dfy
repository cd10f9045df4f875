/**
  The activity's controller: robot connection, the autonomous-abilities hold,
  the periodic speech from the text file, and the slideshow cursor.

  The activity keeps this state in mutable fields and changes it from
  button clicks, robot-focus callbacks, timer runnables, background threads
  and SDK completions. Here the state is one immutable record and every one
  of those stimuli is an `Event`; `Step` gives the next state and what the
  robot or the screen is asked to do.

  Background threads and SDK futures are not run. What they still owe the
  controller is kept in `tasks`: requesting a hold, a release or a spoken
  text adds a task, and the event that finishes the work consumes it. An
  event for work nobody started changes nothing.
 */
module Control {
  import opened Images

  datatype Option<T> = None | Some(value: T)

  /** Work started on a background thread or in the SDK that has not finished yet. */
  datatype Task =
    | BuildHolder     // a hold thread is building the holder
    | AwaitHold       // the holder's hold() future has not completed
    | RunRelease      // a release thread has not yet looked at the holder
    | AwaitRelease    // the holder's release() future has not completed
    | ReadSpeech      // a speech thread has not yet read the text file

  datatype Controller = Controller(
    connected: bool,                // a robot context is present (focus gained, not lost)
    holderPresent: bool,            // the holder field is not null
    isHolding: bool,                // abilities are reported as held
    isAutoSpeechRunning: bool,
    speechScheduled: bool,          // the speech runnable is posted on the handler
    images: seq<FileEntry>,
    currentImageIndex: nat,
    tasks: multiset<Task>)

  datatype Event =
    | FocusGained
    | FocusLost
    | FocusRefused
    | ToggleAbilities                 // the abilities button
    | HolderBuilt                     // a hold thread built the holder and asked it to hold
    | HoldFailed                      // a hold thread threw before the holder was assigned
    | HoldCompleted                   // a hold() future completed
    | HoldRejected                    // a hold() future failed: its consumer never runs
    | ReleaseRun                      // a release thread looks at the holder
    | ReleaseCompleted                // a release() future completed
    | ReleaseRejected                 // a release() future failed: its consumer never runs
    | ToggleSpeech                    // the speech button
    | SpeechTick                      // the posted speech runnable fires
    | SpeechRead(text: Option<string>, builds: bool)
        // a speech thread read the file (None when absent or unreadable);
        // `builds` is whether building the Say action from the captured context succeeds
    | SlideshowTick(decodes: bool)    // the slideshow shows its next image; `decodes` is whether the bitmap decodes
    | ImagesLoaded(listing: Listing)  // the image folder is scanned

  /** What a step asks of the robot or the screen. */
  datatype Output = Quiet | Say(text: string) | Show(image: FileEntry)

  datatype Transition = Transition(next: Controller, out: Output)

  /** The controller when the activity is created. */
  const Initial: Controller := Controller(false, false, false, false, false, [], 0, multiset{})

  /** The fields the speech feature owns are the same in both states. */
  predicate SameSpeech(c: Controller, d: Controller)
  {
    c.isAutoSpeechRunning == d.isAutoSpeechRunning && c.speechScheduled == d.speechScheduled
  }

  /** The fields the abilities feature owns are the same in both states. */
  predicate SameAbilities(c: Controller, d: Controller)
  {
    c.holderPresent == d.holderPresent && c.isHolding == d.isHolding
  }

  /** The fields the slideshow owns are the same in both states. */
  predicate SameSlides(c: Controller, d: Controller)
  {
    c.images == d.images && c.currentImageIndex == d.currentImageIndex
  }

  // ---------------------------------------------------------------- focus

  function OnFocusGained(c: Controller): (d: Controller)
    ensures d.connected
    ensures SameAbilities(c, d) && SameSpeech(c, d) && SameSlides(c, d) && d.tasks == c.tasks
  {
    c.(connected := true)
  }

  /** Losing focus drops the context and stops the periodic speech; the hold is left as it is. */
  function OnFocusLost(c: Controller): (d: Controller)
    ensures !d.connected
    ensures !d.isAutoSpeechRunning
    ensures c.isAutoSpeechRunning ==> !d.speechScheduled
    ensures d.speechScheduled == (c.speechScheduled && !c.isAutoSpeechRunning)
    ensures SameAbilities(c, d) && SameSlides(c, d) && d.tasks == c.tasks
  {
    StopAutoSpeech(c.(connected := false))
  }

  // ---------------------------------------------------------------- abilities

  /** The abilities button: release when abilities are held, hold otherwise. */
  function ToggleAutonomousAbilities(c: Controller): (d: Controller)
    ensures c.isHolding ==> d.tasks == c.tasks + multiset{RunRelease}
    ensures !c.isHolding && c.connected ==> d.tasks == c.tasks + multiset{BuildHolder}
    ensures !c.isHolding && !c.connected ==> d == c
    ensures d.(tasks := c.tasks) == c
  {
    if c.isHolding then ReleaseAutonomousAbilities(c) else HoldAutonomousAbilities(c)
  }

  /** A hold request only starts a thread, and only with a robot context; nothing is held yet. */
  function HoldAutonomousAbilities(c: Controller): (d: Controller)
    ensures !c.connected ==> d == c
    ensures c.connected ==> d.tasks == c.tasks + multiset{BuildHolder}
    ensures SameAbilities(c, d)
    ensures d.(tasks := c.tasks) == c
  {
    if !c.connected then c else c.(tasks := c.tasks + multiset{BuildHolder})
  }

  /** A release request starts a thread whatever the connection; the holder is looked at later. */
  function ReleaseAutonomousAbilities(c: Controller): (d: Controller)
    ensures d.tasks == c.tasks + multiset{RunRelease}
    ensures d.(tasks := c.tasks) == c
  {
    c.(tasks := c.tasks + multiset{RunRelease})
  }

  /** A hold thread assigned the holder field and asked it to hold: the holder exists, abilities are not held yet. */
  function OnHolderBuilt(c: Controller): (d: Controller)
    ensures BuildHolder !in c.tasks ==> d == c
    ensures BuildHolder in c.tasks ==>
      d.holderPresent && d.tasks == c.tasks - multiset{BuildHolder} + multiset{AwaitHold}
    ensures d.isHolding == c.isHolding
    ensures d.(holderPresent := c.holderPresent, tasks := c.tasks) == c
  {
    if BuildHolder !in c.tasks then c
    else c.(holderPresent := true, tasks := c.tasks - multiset{BuildHolder} + multiset{AwaitHold})
  }

  /** Building the holder threw: the holder field keeps its value and nothing is held. */
  function OnHoldFailed(c: Controller): (d: Controller)
    ensures d.tasks == c.tasks - multiset{BuildHolder}
    ensures d.(tasks := c.tasks) == c
  {
    c.(tasks := c.tasks - multiset{BuildHolder})
  }

  /** The hold future completed: only now are abilities held. */
  function OnHoldCompleted(c: Controller): (d: Controller)
    ensures AwaitHold !in c.tasks ==> d == c
    ensures AwaitHold in c.tasks ==> d.isHolding && d.tasks == c.tasks - multiset{AwaitHold}
    ensures d.holderPresent == c.holderPresent
    ensures d.(isHolding := c.isHolding, tasks := c.tasks) == c
  {
    if AwaitHold !in c.tasks then c
    else c.(isHolding := true, tasks := c.tasks - multiset{AwaitHold})
  }

  /** A hold future failed: its consumer never runs, so only the pending completion goes away. */
  function OnHoldRejected(c: Controller): (d: Controller)
    ensures d.tasks == c.tasks - multiset{AwaitHold}
    ensures d.(tasks := c.tasks) == c
  {
    c.(tasks := c.tasks - multiset{AwaitHold})
  }

  /** A release thread runs: without a holder it does nothing, otherwise it asks the holder to release. */
  function OnReleaseRun(c: Controller): (d: Controller)
    ensures RunRelease in c.tasks && c.holderPresent ==>
      d.tasks == c.tasks - multiset{RunRelease} + multiset{AwaitRelease}
    ensures !c.holderPresent ==> d.tasks == c.tasks - multiset{RunRelease}
    ensures RunRelease !in c.tasks ==> d == c
    ensures d.(tasks := c.tasks) == c
  {
    if RunRelease !in c.tasks then c
    else if !c.holderPresent then c.(tasks := c.tasks - multiset{RunRelease})
    else c.(tasks := c.tasks - multiset{RunRelease} + multiset{AwaitRelease})
  }

  /** The release future completed: abilities are no longer held and the holder is dropped. */
  function OnReleaseCompleted(c: Controller): (d: Controller)
    ensures AwaitRelease !in c.tasks ==> d == c
    ensures AwaitRelease in c.tasks ==>
      !d.isHolding && !d.holderPresent && d.tasks == c.tasks - multiset{AwaitRelease}
    ensures SameSpeech(c, d) && SameSlides(c, d) && d.connected == c.connected
  {
    if AwaitRelease !in c.tasks then c
    else c.(isHolding := false, holderPresent := false, tasks := c.tasks - multiset{AwaitRelease})
  }

  /** A release future failed: its consumer never runs, so only the pending completion goes away. */
  function OnReleaseRejected(c: Controller): (d: Controller)
    ensures d.tasks == c.tasks - multiset{AwaitRelease}
    ensures d.(tasks := c.tasks) == c
  {
    c.(tasks := c.tasks - multiset{AwaitRelease})
  }

  // ---------------------------------------------------------------- speech

  /** The speech button: stop when running, start otherwise. */
  function ToggleAutoSpeech(c: Controller): (d: Controller)
    ensures d.isAutoSpeechRunning == !c.isAutoSpeechRunning
    ensures d.speechScheduled == !c.isAutoSpeechRunning
    ensures d.tasks == c.tasks + (if !c.isAutoSpeechRunning && c.connected then multiset{ReadSpeech} else multiset{})
    ensures SameAbilities(c, d) && SameSlides(c, d) && d.connected == c.connected
  {
    if c.isAutoSpeechRunning then StopAutoSpeech(c) else StartAutoSpeech(c)
  }

  /** Ask for one utterance of the file's text: a speech thread starts, but only with a robot context. */
  function SpeakFromFile(c: Controller): (d: Controller)
    ensures d.tasks[ReadSpeech] == c.tasks[ReadSpeech] + (if c.connected then 1 else 0)
    ensures d == (if c.connected then c.(tasks := c.tasks + multiset{ReadSpeech}) else c)
  {
    if !c.connected then c else c.(tasks := c.tasks + multiset{ReadSpeech})
  }

  /** Start is a no-op while running; otherwise it sets the flag, speaks once at once and posts the runnable. */
  function StartAutoSpeech(c: Controller): (d: Controller)
    ensures c.isAutoSpeechRunning ==> d == c
    ensures !c.isAutoSpeechRunning ==> d.isAutoSpeechRunning && d.speechScheduled
    ensures !c.isAutoSpeechRunning ==>
      d.tasks == c.tasks + (if c.connected then multiset{ReadSpeech} else multiset{})
    ensures SameAbilities(c, d) && SameSlides(c, d) && d.connected == c.connected
  {
    if c.isAutoSpeechRunning then c
    else SpeakFromFile(c.(isAutoSpeechRunning := true)).(speechScheduled := true)
  }

  /** Stop is a no-op while stopped; otherwise it clears the flag and removes the runnable.
      A speech thread already started is not cancelled. */
  function StopAutoSpeech(c: Controller): (d: Controller)
    ensures !c.isAutoSpeechRunning ==> d == c
    ensures c.isAutoSpeechRunning ==> !d.isAutoSpeechRunning && !d.speechScheduled
    ensures d.(isAutoSpeechRunning := c.isAutoSpeechRunning, speechScheduled := c.speechScheduled) == c
  {
    if !c.isAutoSpeechRunning then c
    else c.(isAutoSpeechRunning := false, speechScheduled := false)
  }

  /** The posted runnable fires. While running it speaks and posts itself again;
      after a stop it does neither. Nothing fires when nothing is posted. */
  function OnSpeechTick(c: Controller): (d: Controller)
    ensures !c.isAutoSpeechRunning ==> d == c.(speechScheduled := false)
    ensures c.isAutoSpeechRunning && c.speechScheduled ==>
      d.speechScheduled && d.tasks[ReadSpeech] == c.tasks[ReadSpeech] + (if c.connected then 1 else 0)
    ensures c.isAutoSpeechRunning && c.speechScheduled ==> d == SpeakFromFile(c)
    ensures !c.speechScheduled ==> d == c
    ensures d.isAutoSpeechRunning == c.isAutoSpeechRunning
    ensures SameAbilities(c, d) && SameSlides(c, d) && d.connected == c.connected
  {
    if !c.speechScheduled then c
    else if c.isAutoSpeechRunning then SpeakFromFile(c)
    else c.(speechScheduled := false)
  }

  /** A speech thread read the file. Absent or empty text is not spoken; any other text,
      blank text included, is, unless building the Say action throws, which the thread
      catches and ends silently. The thread does not look at the speech flag again. */
  function OnSpeechRead(c: Controller, text: Option<string>, builds: bool): (t: Transition)
    ensures t.out.Say? <==> ReadSpeech in c.tasks && text.Some? && |text.value| > 0 && builds
    ensures !t.out.Say? ==> t.out == Quiet
    ensures t.out.Say? ==> t.out.text == text.value
    ensures !t.out.Show?
    ensures t.next.tasks == c.tasks - multiset{ReadSpeech}
    ensures t.next.(tasks := c.tasks) == c
  {
    if ReadSpeech !in c.tasks then Transition(c, Quiet)
    else
      var d := c.(tasks := c.tasks - multiset{ReadSpeech});
      match text
      case None => Transition(d, Quiet)
      case Some(s) => if s == "" || !builds then Transition(d, Quiet) else Transition(d, Say(s))
  }

  // ---------------------------------------------------------------- slideshow

  /** The next slide position: one further on, back to the first after the last. */
  function NextIndex(i: nat, n: nat): (j: nat)
    requires i < n
    ensures j < n
    ensures i + 1 < n ==> j == i + 1
    ensures i + 1 == n ==> j == 0
  {
    (i + 1) % n
  }

  /** Show the image under the cursor and advance the cursor, whether or not the image decodes.
      An empty list does nothing; a cursor past the end makes the lookup throw, which is
      caught, so nothing changes either. */
  function OnSlideshowTick(c: Controller, decodes: bool): (t: Transition)
    ensures |c.images| == 0 ==> t == Transition(c, Quiet)
    ensures c.currentImageIndex < |c.images| ==>
      t.next.currentImageIndex < |c.images| &&
      t.next.currentImageIndex == NextIndex(c.currentImageIndex, |c.images|)
    ensures c.currentImageIndex >= |c.images| ==> t.next == c
    ensures t.out.Show? <==> decodes && c.currentImageIndex < |c.images|
    ensures t.out.Show? ==> t.out.image == c.images[c.currentImageIndex]
    ensures !t.out.Show? ==> t.out == Quiet
    ensures t.next.(currentImageIndex := c.currentImageIndex) == c
  {
    var n := |c.images|;
    if n == 0 then Transition(c, Quiet)
    else if c.currentImageIndex >= n then Transition(c, Quiet)
    else
      var i := c.currentImageIndex;
      Transition(c.(currentImageIndex := NextIndex(i, n)), if decodes then Show(c.images[i]) else Quiet)
  }

  /** Scan the image folder. A missing folder leaves the list as it was; otherwise the list is
      cleared and refilled with the slides of the listing. The cursor is not reset. */
  function LoadImages(c: Controller, listing: Listing): (d: Controller)
    ensures listing.Missing? ==> d == c
    ensures listing.Unlistable? ==> d.images == []
    ensures listing.Entries? ==>
      forall e :: e in d.images <==> e in listing.entries && IsImage(e)
    ensures listing.Entries? ==> d.images == FilterImages(listing.entries)
    ensures d.(images := c.images) == c
  {
    match listing
    case Missing => c
    case Unlistable => c.(images := [])
    case Entries(entries) => c.(images := FilterImages(entries))
  }

  // ---------------------------------------------------------------- dispatch

  function Step(c: Controller, e: Event): (t: Transition)
    ensures t.out.Say? ==> e.SpeechRead?
    ensures t.out.Show? ==> e.SlideshowTick?
  {
    match e
    case FocusGained => Transition(OnFocusGained(c), Quiet)
    case FocusLost => Transition(OnFocusLost(c), Quiet)
    case FocusRefused => Transition(c, Quiet)
    case ToggleAbilities => Transition(ToggleAutonomousAbilities(c), Quiet)
    case HolderBuilt => Transition(OnHolderBuilt(c), Quiet)
    case HoldFailed => Transition(OnHoldFailed(c), Quiet)
    case HoldCompleted => Transition(OnHoldCompleted(c), Quiet)
    case HoldRejected => Transition(OnHoldRejected(c), Quiet)
    case ReleaseRun => Transition(OnReleaseRun(c), Quiet)
    case ReleaseCompleted => Transition(OnReleaseCompleted(c), Quiet)
    case ReleaseRejected => Transition(OnReleaseRejected(c), Quiet)
    case ToggleSpeech => Transition(ToggleAutoSpeech(c), Quiet)
    case SpeechTick => Transition(OnSpeechTick(c), Quiet)
    case SpeechRead(text, builds) => OnSpeechRead(c, text, builds)
    case SlideshowTick(decodes) => OnSlideshowTick(c, decodes)
    case ImagesLoaded(listing) => Transition(LoadImages(c, listing), Quiet)
  }
}
