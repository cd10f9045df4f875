/**
  Runs of the controller over sequences of events, and what holds along a
  whole run: the speech runnable stays in step with its flag, abilities
  never become held without a hold completion, and a disconnected robot
  says nothing until focus comes back.
 */
module Traces {
  import opened Control
  import opened Properties

  datatype Run = Run(final: Controller, outs: seq<Output>)

  /** Feed the events to the controller one after another, collecting what each step asks for. */
  function RunEvents(c: Controller, es: seq<Event>): (r: Run)
    ensures |r.outs| == |es|
    ensures forall i :: 0 <= i < |es| && r.outs[i].Say? ==> es[i].SpeechRead?
    decreases |es|
  {
    if es == [] then Run(c, [])
    else
      var t := Step(c, es[0]);
      var rest := RunEvents(t.next, es[1..]);
      Run(rest.final, [t.out] + rest.outs)
  }

  /** Along any run the speech runnable is posted exactly while speech is on. */
  lemma {:induction false} RunKeepsSchedule(c: Controller, es: seq<Event>)
    requires ScheduleMatchesFlag(c)
    ensures ScheduleMatchesFlag(RunEvents(c, es).final)
    decreases |es|
  {
    if es != [] {
      StepKeepsSchedule(c, es[0]);
      RunKeepsSchedule(Step(c, es[0]).next, es[1..]);
    }
  }

  /** A run with no hold completion in it cannot end with abilities held when they were not held at its start. */
  lemma {:induction false} NoHoldWithoutCompletion(c: Controller, es: seq<Event>)
    requires !c.isHolding && HoldCompleted !in es
    ensures !RunEvents(c, es).final.isHolding
    decreases |es|
  {
    if es != [] {
      assert es[0] in es;
      if Step(c, es[0]).next.isHolding {
        HoldingStartsOnlyOnCompletion(c, es[0]);
      }
      assert forall e :: e in es[1..] ==> e in es;
      NoHoldWithoutCompletion(Step(c, es[0]).next, es[1..]);
    }
  }

  /** No robot context and no speech thread pending. */
  predicate Mute(c: Controller)
  {
    !c.connected && ReadSpeech !in c.tasks
  }

  /** From a mute controller, a run without a focus gain says nothing. */
  lemma {:induction false} SilentWhileDisconnected(c: Controller, es: seq<Event>)
    requires Mute(c) && FocusGained !in es
    ensures forall i :: 0 <= i < |es| ==> !RunEvents(c, es).outs[i].Say?
    ensures Mute(RunEvents(c, es).final)
    decreases |es|
  {
    if es != [] {
      assert es[0] in es;
      var d := Step(c, es[0]).next;
      NoSpeechThreadWhileDisconnected(c, es[0]);
      assert Mute(d);
      assert forall e :: e in es[1..] ==> e in es;
      SilentWhileDisconnected(d, es[1..]);
      var r := RunEvents(c, es);
      forall i | 0 <= i < |es|
        ensures !r.outs[i].Say?
      {
        if i > 0 {
          assert r.outs[i] == RunEvents(d, es[1..]).outs[i - 1];
        }
      }
    }
  }

  /** Two presses of the abilities button with a robot context, both holders built:
      the second holder has replaced the first and two hold completions are pending. */
  lemma TwoHoldRequests(c: Controller)
    requires c.connected && !c.isHolding && c.tasks == multiset{}
    ensures var d := Step(Step(Step(Step(c, ToggleAbilities).next, ToggleAbilities).next, HolderBuilt).next, HolderBuilt).next;
      d.holderPresent && !d.isHolding && d.tasks == multiset{AwaitHold, AwaitHold}
  {
    var c1 := Step(c, ToggleAbilities).next;
    assert c1.tasks == multiset{BuildHolder};
    var c2 := Step(c1, ToggleAbilities).next;
    assert c2.tasks == multiset{BuildHolder, BuildHolder};
    var c3 := Step(c2, HolderBuilt).next;
    assert c3.tasks == multiset{BuildHolder, AwaitHold};
    var c4 := Step(c3, HolderBuilt).next;
    assert c4.tasks == multiset{AwaitHold, AwaitHold};
  }

  /** One hold completes and the user releases: the holder is gone, one hold completion still pending. */
  lemma ReleaseBetweenCompletions(c: Controller)
    requires c.holderPresent && !c.isHolding && c.tasks == multiset{AwaitHold, AwaitHold}
    ensures var d := Step(Step(Step(Step(c, HoldCompleted).next, ToggleAbilities).next, ReleaseRun).next, ReleaseCompleted).next;
      !d.holderPresent && !d.isHolding && d.tasks == multiset{AwaitHold}
  {
    var c1 := Step(c, HoldCompleted).next;
    assert c1.tasks == multiset{AwaitHold} && c1.isHolding;
    var c2 := Step(c1, ToggleAbilities).next;
    assert c2.tasks == multiset{AwaitHold, RunRelease};
    var c3 := Step(c2, ReleaseRun).next;
    assert c3.tasks == multiset{AwaitHold, AwaitRelease};
    var c4 := Step(c3, ReleaseCompleted).next;
    assert c4.tasks == multiset{AwaitHold};
  }

  /** The late completion reports abilities held with no holder; a further release finds no holder. */
  lemma LateCompletionWithoutHolder(c: Controller)
    requires !c.holderPresent && !c.isHolding && c.tasks == multiset{AwaitHold}
    ensures var d := Step(c, HoldCompleted).next;
      d.isHolding && !d.holderPresent && d.tasks == multiset{}
    ensures var d := Step(Step(Step(c, HoldCompleted).next, ToggleAbilities).next, ReleaseRun).next;
      d.isHolding && !d.holderPresent && d.tasks == multiset{}
  {
    var c1 := Step(c, HoldCompleted).next;
    assert c1.tasks == multiset{};
    var c2 := Step(c1, ToggleAbilities).next;
    assert c2.tasks == multiset{RunRelease};
  }

  /** Two presses of the abilities button before the first hold completes: the second
      holder replaces the first, the release drops it, and the other hold's late
      completion then reports abilities held with no holder left to release. A further
      release request finds no holder and leaves abilities held. */
  lemma OverlappingHoldsStrandHolding()
    ensures var c0 := Initial.(connected := true);
      var c4 := Step(Step(Step(Step(c0, ToggleAbilities).next, ToggleAbilities).next, HolderBuilt).next, HolderBuilt).next;
      var c8 := Step(Step(Step(Step(c4, HoldCompleted).next, ToggleAbilities).next, ReleaseRun).next, ReleaseCompleted).next;
      var c9 := Step(c8, HoldCompleted).next;
      var c11 := Step(Step(c9, ToggleAbilities).next, ReleaseRun).next;
      c9.isHolding && !c9.holderPresent && c11.isHolding && !c11.holderPresent && c11.tasks == multiset{}
  {
    var c0 := Initial.(connected := true);
    TwoHoldRequests(c0);
    var c4 := Step(Step(Step(Step(c0, ToggleAbilities).next, ToggleAbilities).next, HolderBuilt).next, HolderBuilt).next;
    ReleaseBetweenCompletions(c4);
    var c8 := Step(Step(Step(Step(c4, HoldCompleted).next, ToggleAbilities).next, ReleaseRun).next, ReleaseCompleted).next;
    LateCompletionWithoutHolder(c8);
  }
}
