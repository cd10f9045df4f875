/**
  Properties of single controller steps: start/stop idempotence, what a
  late speech tick does, which events alone can flip the hold, what focus
  changes leave alone, and the slideshow cursor.
 */
module Properties {
  import opened Images
  import opened Control

  /** The speech runnable is posted exactly while periodic speech is on. */
  predicate ScheduleMatchesFlag(c: Controller)
  {
    c.speechScheduled == c.isAutoSpeechRunning
  }

  /** The slideshow cursor points into the list, or the list is empty. */
  predicate CursorInBounds(c: Controller)
  {
    |c.images| == 0 || c.currentImageIndex < |c.images|
  }

  // ---------------------------------------------------------------- speech

  /** Starting twice is starting once. */
  lemma StartAutoSpeechIdempotent(c: Controller)
    ensures StartAutoSpeech(StartAutoSpeech(c)) == StartAutoSpeech(c)
  {
  }

  /** Stopping twice is stopping once. */
  lemma StopAutoSpeechIdempotent(c: Controller)
    ensures StopAutoSpeech(StopAutoSpeech(c)) == StopAutoSpeech(c)
  {
  }

  /** From the stopped state the speech button turns periodic speech on and posts the runnable;
      pressing it again turns it off, and the one utterance already asked for stays asked for. */
  lemma ToggleSpeechFromStopped(c: Controller)
    requires !c.isAutoSpeechRunning && ScheduleMatchesFlag(c)
    ensures ToggleAutoSpeech(c).isAutoSpeechRunning && ToggleAutoSpeech(c).speechScheduled
    ensures ToggleAutoSpeech(ToggleAutoSpeech(c))
         == c.(tasks := c.tasks + (if c.connected then multiset{ReadSpeech} else multiset{}))
  {
  }

  /** A tick that fires after a stop neither speaks nor posts itself again. */
  lemma TickAfterStopIsInert(c: Controller)
    requires ScheduleMatchesFlag(c)
    ensures OnSpeechTick(StopAutoSpeech(c)) == StopAutoSpeech(c)
    ensures !StopAutoSpeech(c).speechScheduled
  {
  }

  /** A speech thread that read blank text speaks it: only absent or empty text is skipped. */
  lemma BlankTextIsSpoken(c: Controller)
    requires ReadSpeech in c.tasks
    ensures OnSpeechRead(c, Some(" "), true).out == Say(" ")
    ensures OnSpeechRead(c, Some(""), true).out == Quiet
    ensures OnSpeechRead(c, None, true).out == Quiet
  {
  }

  /** A speech thread whose Say action fails to build says nothing, whatever the text, and is finished. */
  lemma FailedSayBuildIsSilent(c: Controller, text: Option<string>)
    ensures OnSpeechRead(c, text, false).out == Quiet
    ensures OnSpeechRead(c, text, false).next.tasks == c.tasks - multiset{ReadSpeech}
  {
  }

  /** Without a robot context no speech thread is started, by a tick or by the button. */
  lemma NoSpeechThreadWhileDisconnected(c: Controller, e: Event)
    requires !c.connected
    ensures Step(c, e).next.tasks[ReadSpeech] <= c.tasks[ReadSpeech]
  {
  }

  /** Every step keeps the runnable posted exactly while speech is on. */
  lemma StepKeepsSchedule(c: Controller, e: Event)
    requires ScheduleMatchesFlag(c)
    ensures ScheduleMatchesFlag(Step(c, e).next)
  {
  }

  // ---------------------------------------------------------------- focus

  /** Losing focus leaves nothing connected, speech stopped, and the hold and holder as they were. */
  lemma FocusLostStopsSpeechKeepsHold(c: Controller)
    requires ScheduleMatchesFlag(c)
    ensures var d := Step(c, FocusLost).next;
      !d.connected && !d.isAutoSpeechRunning && !d.speechScheduled &&
      d.isHolding == c.isHolding && d.holderPresent == c.holderPresent
  {
  }

  /** A refused focus changes no controller state and asks nothing of the robot. */
  lemma FocusRefusedChangesNothing(c: Controller)
    ensures Step(c, FocusRefused) == Transition(c, Quiet)
  {
  }

  // ---------------------------------------------------------------- abilities

  /** Abilities become held only when a pending hold future completes, never at request time. */
  lemma HoldingStartsOnlyOnCompletion(c: Controller, e: Event)
    requires !c.isHolding && Step(c, e).next.isHolding
    ensures e == HoldCompleted && AwaitHold in c.tasks
  {
  }

  /** Abilities stop being held only when a pending release future completes. */
  lemma HoldingEndsOnlyOnRelease(c: Controller, e: Event)
    requires c.isHolding && !Step(c, e).next.isHolding
    ensures e == ReleaseCompleted && AwaitRelease in c.tasks
    ensures !Step(c, e).next.holderPresent
  {
  }

  /** A holder appears only when a hold thread assigns it. */
  lemma HolderAppearsOnlyWhenBuilt(c: Controller, e: Event)
    requires !c.holderPresent && Step(c, e).next.holderPresent
    ensures e == HolderBuilt && BuildHolder in c.tasks
  {
  }

  /** Without a robot context the abilities button leaves the controller as it is when nothing is held. */
  lemma HoldWithoutContextIsNoOp(c: Controller)
    requires !c.connected && !c.isHolding
    ensures Step(c, ToggleAbilities) == Transition(c, Quiet)
  {
  }

  /** A release thread that finds no holder ends without asking for anything. */
  lemma ReleaseWithoutHolderIsNoOp(c: Controller)
    requires RunRelease in c.tasks && !c.holderPresent
    ensures Step(c, ReleaseRun).next == c.(tasks := c.tasks - multiset{RunRelease})
    ensures AwaitRelease !in c.tasks ==> AwaitRelease !in Step(c, ReleaseRun).next.tasks
  {
  }

  // ---------------------------------------------------------------- slideshow

  /** The cursor advances the same way whether or not the image decodes. */
  lemma CursorIgnoresDecoding(c: Controller)
    ensures OnSlideshowTick(c, true).next == OnSlideshowTick(c, false).next
  {
  }

  /** Every step other than a folder scan keeps the cursor inside the list. */
  lemma StepKeepsCursor(c: Controller, e: Event)
    requires CursorInBounds(c) && !e.ImagesLoaded?
    ensures CursorInBounds(Step(c, e).next)
  {
  }

  /** A scan keeps the cursor inside the list when the cursor is at the start, or a non-empty list does not shrink. */
  lemma ScanKeepsCursorWhenNotShrinking(c: Controller, listing: Listing)
    requires CursorInBounds(c)
    requires c.currentImageIndex == 0 || (|c.images| > 0 && |LoadImages(c, listing).images| >= |c.images|)
    ensures CursorInBounds(LoadImages(c, listing))
  {
  }

  /** A cursor left past the end by a shrinking scan is stuck: every tick shows nothing and moves nothing. */
  lemma StaleCursorStalls(c: Controller, decodes: bool)
    requires |c.images| > 0 && c.currentImageIndex >= |c.images|
    ensures OnSlideshowTick(c, decodes) == Transition(c, Quiet)
  {
  }

  /** A second scan that finds fewer slides than the cursor position strands the cursor. */
  lemma ShrinkingScanStrandsCursor(a: FileEntry)
    requires IsImage(a)
    ensures var c := Initial.(images := [a, a, a], currentImageIndex := 2);
      var d := LoadImages(c, Entries([a]));
      !CursorInBounds(d) && OnSlideshowTick(d, true) == Transition(d, Quiet)
  {
    assert FilterImages([a]) == [a] by {
      assert [a][1..] == [];
    }
  }

  /** Three slides from the first: four ticks visit 1, 2, 0, 1. */
  lemma SlideshowWrapsAround(a: FileEntry, b: FileEntry, x: FileEntry, decodes: bool)
    ensures var c0 := Initial.(images := [a, b, x]);
      var c1 := OnSlideshowTick(c0, decodes).next;
      var c2 := OnSlideshowTick(c1, decodes).next;
      var c3 := OnSlideshowTick(c2, decodes).next;
      var c4 := OnSlideshowTick(c3, decodes).next;
      c1.currentImageIndex == 1 && c2.currentImageIndex == 2 &&
      c3.currentImageIndex == 0 && c4.currentImageIndex == 1
  {
  }
}
