/**
 * The unscored sequence demo (`SequenceGame` in seq_demo.py). After the start
 * gesture, trials alternate between two fixed five-key sequences and between
 * the two hands. Each trial is a cue, SEQ_PER_TRIAL rounds of presses and
 * feedback, and an inter-trial interval. Feedback reports only whether every
 * key was right.
 *
 * Clocks hold the time of their last reset, and `now` stands for reading them.
 */
module SeqDemo {
  import opened Wrappers
  import opened Filters
  import opened Cue
  import opened Exo
  import opened Keyboard
  import opened Stages

  /** `DEMO_SEQUENCE`, the first trial's keys. */
  const DemoSequence: seq<nat> := [4, 2, 3, 1, 0]

  /** `DEMO_SEQUENCE_2`, the keys of every other trial. */
  const DemoSequence2: seq<nat> := [1, 3, 2, 4, 0]

  /** `START_WAIT_TIME`, in seconds. */
  const StartWaitTime: real := 0.3

  /** The inter-trial swap: `DEMO_SEQUENCE` gives way to `DEMO_SEQUENCE_2`, and anything else to `DEMO_SEQUENCE`. */
  function NextSequence(s: seq<nat>): (r: seq<nat>)
    ensures r == DemoSequence <==> s != DemoSequence
  {
    if s == DemoSequence then DemoSequence2 else DemoSequence
  }

  /** The inter-trial swap of `hand`. */
  function OtherHand(h: Hand): (r: Hand)
    ensures r != h
  {
    if h == Left then Right else Left
  }

  /** The two demo sequences take turns: each swap gives the other one, and two swaps give the first back. */
  lemma SequencesAlternate(s: seq<nat>)
    requires s == DemoSequence || s == DemoSequence2
    ensures NextSequence(s) != s && NextSequence(NextSequence(s)) == s
    ensures NextSequence(s) == DemoSequence || NextSequence(s) == DemoSequence2
  {
    assert DemoSequence[0] != DemoSequence2[0];
  }

  /** One of the two demo sequences: five keys, each below five. */
  predicate DemoKeys(s: seq<nat>) {
    s == DemoSequence || s == DemoSequence2
  }

  /** Both demo sequences press each of the five keys exactly once. */
  lemma DemoSequencesPressEveryKeyOnce(s: seq<nat>)
    requires DemoKeys(s)
    ensures |s| == 5 && forall k :: 0 <= k < 5 ==> k in s
    ensures forall i :: 0 <= i < |s| ==> s[i] < 5
    ensures forall i, j :: 0 <= i < j < |s| ==> s[i] != s[j]
  {
    if s == DemoSequence {
      assert s[4] == 0 && s[3] == 1 && s[1] == 2 && s[2] == 3 && s[0] == 4;
    } else {
      assert s[4] == 0 && s[0] == 1 && s[2] == 2 && s[1] == 3 && s[3] == 4;
    }
  }

  /** `all(start_keys_pressed)` as written: every channel, displayed or not, has been held. */
  predicate AllHeldAsWritten(pressed: seq<bool>) {
    forall f :: 0 <= f < |pressed| ==> pressed[f]
  }

  /** The intended start condition, as the scored experiment states it: every displayed key has been held. */
  predicate DisplayedHeld(pressed: seq<bool>, numActive: nat)
    requires numActive <= |pressed|
  {
    forall f :: 0 <= f < numActive ==> pressed[f]
  }

  /**
   * Only displayed keys ever register a press, so when some channels are not
   * displayed the written start condition can never hold.
   */
  lemma AsWrittenStartNeverOpens(pressed: seq<bool>, numActive: nat)
    requires numActive < |pressed|
    requires forall f :: numActive <= f < |pressed| ==> !pressed[f]
    ensures !AllHeldAsWritten(pressed)
  {
    assert !pressed[numActive];
  }

  /** When every channel is displayed, the written and the intended start conditions agree. */
  lemma StartConditionsAgreeWhenAllDisplayed(pressed: seq<bool>)
    ensures AllHeldAsWritten(pressed) <==> DisplayedHeld(pressed, |pressed|)
  {
  }

  /** The trial's sequence and hand, and how many sequences of the trial are done. */
  datatype Place = Place(sequence: seq<nat>, hand: Hand, seqInTrial: nat)

  /** What `reset_for_seq` resets: the position of the next key, that key, and the judgement of each key. */
  datatype Progress = Progress(keyNum: nat, keyToPress: nat, correct: seq<bool>)

  /** The start screen: the keys held since it appeared, whether all have been, and when. */
  datatype StartGate = StartGate(keysPressed: seq<bool>, initiated: bool, clock: real)

  /** `reset_for_seq`'s values for `sequence`. */
  function FreshProgress(sequence: seq<nat>): (p: Progress)
    requires |sequence| > 0
    ensures p.keyNum == 0 && p.keyToPress == sequence[0]
    ensures |p.correct| == |sequence| && forall i :: 0 <= i < |sequence| ==> !p.correct[i]
  {
    Progress(0, sequence[0], Falses(|sequence|))
  }

  /** The feedback a finished sequence earns: success exactly when every key was right. */
  function Outcome(correct: seq<bool>): (f: Feedback)
    ensures f == Success <==> forall i :: 0 <= i < |correct| ==> correct[i]
    ensures f == Success || f == Fail
  {
    if false !in correct then Success else Fail
  }

  class SequenceGame {
    const display: ExoDisplay
    const seqPerTrial: nat
    const cueTime: real
    const feedbackTime: real
    const itiTime: real

    var stage: Stage
    var place: Place
    var progress: Progress
    var start: StartGate

    /** The display can show the demo: five keys at least, a key code per channel at most. */
    ghost predicate ConfigOk() {
      && 5 <= display.numActiveFingers
      && |DemoKeyCodes| <= display.numFingers
      && this !in display.FilterRepr
    }

    /** Everything but the progress through the current sequence. */
    ghost predicate Ledger()
      reads this
    {
      && stage.exp != QuitStage
      && DemoKeys(place.sequence)
      && |start.keysPressed| == display.numFingers
      && forall f :: display.numActiveFingers <= f < display.numFingers ==> !start.keysPressed[f]
    }

    ghost predicate Valid()
      reads this
    {
      && Ledger()
      && |progress.correct| == |place.sequence| && progress.keyNum <= |place.sequence|
      && (stage.trial != FeedbackStage ==> progress.keyNum < |place.sequence|)
    }

    /**
     * The demo on `display`, at time `now`: the start screen, the first demo
     * sequence on the left hand, and the cue stage to come.
     */
    constructor (display: ExoDisplay, now: real, seqPerTrial: nat, cueTime: real, feedbackTime: real, itiTime: real)
      requires display.Valid()
      requires 5 <= display.numActiveFingers && |DemoKeyCodes| <= display.numFingers
      modifies display.baseColours
      ensures ConfigOk() && Valid() && display.Valid()
      ensures this.display == display && this.seqPerTrial == seqPerTrial
      ensures this.cueTime == cueTime && this.feedbackTime == feedbackTime && this.itiTime == itiTime
      ensures stage == Stage(WaitStage, CueStage, now)
      ensures place == Place(DemoSequence, Left, 0)
      ensures start == StartGate(Falses(display.numFingers), false, now)
      ensures forall k :: 0 <= k < display.baseColours.Length ==> display.baseColours[k] == CueColour
    {
      this.display := display;
      this.seqPerTrial := seqPerTrial;
      this.cueTime := cueTime;
      this.feedbackTime := feedbackTime;
      this.itiTime := itiTime;
      stage := Stage(WaitStage, CueStage, now);
      place := Place(DemoSequence, Left, 0);
      // the source leaves these undefined until the first reset_for_seq; they start at its values
      progress := FreshProgress(DemoSequence);
      start := StartGate(Falses(display.numFingers), false, now);
      new;
      ResetForStart();
    }

    /** `reset_for_start`: the start screen, every key painted the cue colour. */
    method ResetForStart()
      requires ConfigOk() && Valid()
      modifies this, display.baseColours
      ensures Valid()
      ensures stage == old(stage).(exp := WaitStage)
      ensures start == StartGate(Falses(display.numFingers), false, old(start.clock))
      ensures forall k :: 0 <= k < display.baseColours.Length ==> display.baseColours[k] == CueColour
      ensures place == old(place) && progress == old(progress)
    {
      stage := stage.(exp := WaitStage);
      PaintKeys(display.baseColours, CueColour);
      start := StartGate(Falses(display.numFingers), false, start.clock);
    }

    /**
     * `wait_for_start`: latch every held key; once every displayed key has been
     * held, wait START_WAIT_TIME and then start the trials.
     */
    method WaitForStart(now: real)
      requires ConfigOk() && Valid() && display.Valid() && stage.exp == WaitStage
      modifies this, display.baseColours
      ensures Valid()
      ensures start.keysPressed == Latched(old(start.keysPressed), display.keydowns[..])
      ensures start.initiated == (old(start.initiated) || DisplayedHeld(start.keysPressed, display.numActiveFingers))
      ensures start.clock == if start.initiated && !old(start.initiated) then now else old(start.clock)
      ensures !(start.initiated && now - start.clock > StartWaitTime) ==>
                && stage == old(stage) && place == old(place) && progress == old(progress)
                && forall f :: 0 <= f < display.numActiveFingers ==>
                     display.baseColours[f] == if display.keydowns[f] then SuccessColour else old(display.baseColours[f])
      ensures start.initiated && now - start.clock > StartWaitTime ==>
                && stage == Stage(RunStage, CueStage, now)
                && place == old(place).(seqInTrial := 0) && progress == FreshProgress(place.sequence)
                && forall k :: 0 <= k < display.baseColours.Length ==> display.baseColours[k] == KeyColour
    {
      var pressed := LatchKeys(start.keysPressed, display.keydowns, display.baseColours);
      start := start.(keysPressed := pressed);
      if DisplayedHeld(start.keysPressed, display.numActiveFingers) && !start.initiated {
        start := start.(initiated := true, clock := now);
      }
      if start.initiated && now - start.clock > StartWaitTime {
        ResetForExp(now);
      }
    }

    /** `reset_for_exp`: start running trials. */
    method ResetForExp(now: real)
      requires ConfigOk() && Ledger()
      modifies this, display.baseColours
      ensures Valid()
      ensures stage == Stage(RunStage, CueStage, now)
      ensures place == old(place).(seqInTrial := 0) && progress == FreshProgress(place.sequence)
      ensures forall k :: 0 <= k < display.baseColours.Length ==> display.baseColours[k] == KeyColour
      ensures start == old(start)
    {
      stage := stage.(exp := RunStage);
      ResetForTrial(now);
    }

    /** `reset_for_trial`: the cue stage of a new trial, at time `now`. */
    method ResetForTrial(now: real)
      requires ConfigOk() && Ledger()
      modifies this, display.baseColours
      ensures Valid()
      ensures stage == old(stage).(trial := CueStage, clock := now)
      ensures place == old(place).(seqInTrial := 0) && progress == FreshProgress(place.sequence)
      ensures forall k :: 0 <= k < display.baseColours.Length ==> display.baseColours[k] == KeyColour
      ensures start == old(start)
    {
      place := place.(seqInTrial := 0);
      stage := stage.(trial := CueStage, clock := now);
      ResetForSeq();
    }

    /** `reset_for_seq`: all keys idle, and nothing of the sequence pressed yet. */
    method ResetForSeq()
      requires ConfigOk() && Ledger()
      modifies this, display.baseColours
      ensures Valid()
      ensures progress == FreshProgress(place.sequence)
      ensures forall k :: 0 <= k < display.baseColours.Length ==> display.baseColours[k] == KeyColour
      ensures stage == old(stage) && place == old(place) && start == old(start)
    {
      PaintKeys(display.baseColours, KeyColour);
      progress := FreshProgress(place.sequence);
    }

    /** `reset_new_keydowns`: forget every pending rising edge. */
    method ResetNewKeydowns()
      requires display.Valid()
      modifies display.newKeydowns
      ensures display.Valid()
      ensures forall f :: 0 <= f < display.newKeydowns.Length ==> !display.newKeydowns[f]
    {
      forall f | 0 <= f < display.newKeydowns.Length {
        display.newKeydowns[f] := false;
      }
    }

    /** `check_keys`: the keyboard stand-in's events set and clear the spoofed key states. */
    method CheckKeys(events: seq<KeyEvent>)
      requires ConfigOk() && display.Valid()
      modifies display.spoofKeydowns
      ensures display.spoofKeydowns[..] == ApplyKeyEvents(old(display.spoofKeydowns[..]), DemoKeyCodes, events)
    {
      HandleKeyEvents(display.spoofKeydowns, DemoKeyCodes, events);
    }

    /** `run_trial`: one frame of the trial's stage machine. */
    method RunTrial(now: real)
      requires ConfigOk() && Valid() && display.Valid() && stage.exp == RunStage
      modifies this, display.cueDisplay, display.baseColours, display.newKeydowns
      ensures Valid() && display.Valid()
      ensures stage.exp == RunStage
      ensures match old(stage.trial)
              case CueStage => stage.trial in {CueStage, PressStage}
              case PressStage => stage.trial in {PressStage, FeedbackStage}
              case FeedbackStage => stage.trial in {FeedbackStage, PressStage, ItiStage}
              case ItiStage => stage.trial in {ItiStage, CueStage}
      ensures || (place.sequence == old(place.sequence) && place.hand == old(place.hand))
              || (place.sequence == NextSequence(old(place.sequence)) && place.hand == OtherHand(old(place.hand)))
    {
      match stage.trial
      case CueStage => CueStep(now);
      case PressStage => PressStep(now);
      case FeedbackStage => FeedbackStep(now);
      case ItiStage => ItiStep(now);
    }

    /**
     * The cue stage: show the sequence until CUE_TIME has passed, then clear the
     * cue and await presses. The trial clock keeps running.
     */
    method CueStep(now: real)
      requires ConfigOk() && Valid() && display.Valid() && stage.trial == CueStage
      modifies this, display.cueDisplay, display.newKeydowns
      ensures Valid() && display.Valid()
      ensures now - old(stage.clock) > cueTime ==>
                && stage == old(stage).(trial := PressStage)
                && display.cueDisplay.outlineColour == KeyColour && display.cueDisplay.text == ""
                && forall f :: 0 <= f < display.newKeydowns.Length ==> !display.newKeydowns[f]
      ensures !(now - old(stage.clock) > cueTime) ==>
                && stage == old(stage)
                && display.cueDisplay.outlineColour == CueColour && display.cueDisplay.text == CueLabel(place.sequence)
                && unchanged(display.newKeydowns)
      ensures display.cueDisplay.msgColour == CueColour
      ensures display.cueDisplay.activeHand == old(display.cueDisplay.activeHand)
      ensures place == old(place) && progress == old(progress) && start == old(start)
    {
      display.cueDisplay.SetCue(CueLabel(place.sequence));
      if now - stage.clock > cueTime {
        stage := stage.(trial := PressStage);
        display.cueDisplay.SetAllIdle();
        ResetNewKeydowns();
      }
    }

    /** What judging the lowest pending rising edge records: whether it was the key to press. */
    twostate predicate PressJudged()
      reads this, display.baseColours
    {
      && old(progress.keyNum) < |old(progress.correct)|
      && true in old(display.newKeydowns[..])
      && progress.keyToPress < display.baseColours.Length
      && var k := old(progress.keyNum);
         var correct := LowestSet(old(display.newKeydowns[..])) == progress.keyToPress;
         && progress.keyNum == k + 1
         && progress.correct == old(progress.correct)[k := correct]
         && display.baseColours[..] ==
              old(display.baseColours[..])[progress.keyToPress := if correct then SuccessColour else FailColour]
    }

    /** A finished sequence at time `now`: its feedback shown, the clock reset, and the sequence counted. */
    twostate predicate SequenceFinished(now: real)
      reads this, display.cueDisplay
    {
      && stage == old(stage).(trial := FeedbackStage, clock := now)
      && place == old(place).(seqInTrial := old(place.seqInTrial) + 1)
      && display.cueDisplay.text == FeedbackText(Outcome(progress.correct))
      && display.cueDisplay.msgColour == FeedbackColour(Outcome(progress.correct))
      && display.cueDisplay.outlineColour == FeedbackColour(Outcome(progress.correct))
      && display.cueDisplay.activeHand == old(display.cueDisplay.activeHand)
    }

    /**
     * The press stage: the key to press is shown; the lowest pending rising edge,
     * if any, is judged against it and all edges are forgotten. The last key of
     * the sequence moves on to feedback.
     */
    method PressStep(now: real)
      requires ConfigOk() && Valid() && display.Valid() && stage.trial == PressStage
      modifies this, display.newKeydowns, display.baseColours, display.cueDisplay
      ensures Valid() && display.Valid()
      ensures progress.keyToPress == old(place.sequence[progress.keyNum])
      ensures true !in old(display.newKeydowns[..]) ==>
                && progress == old(progress).(keyToPress := progress.keyToPress)
                && display.baseColours[..] == old(display.baseColours[..])[progress.keyToPress := CueColour]
                && unchanged(display.newKeydowns, display.cueDisplay)
                && stage == old(stage) && place == old(place)
      ensures true in old(display.newKeydowns[..]) ==>
                && PressJudged()
                && forall f :: 0 <= f < display.newKeydowns.Length ==> !display.newKeydowns[f]
      ensures true in old(display.newKeydowns[..]) && progress.keyNum < |place.sequence| ==>
                stage == old(stage) && place == old(place) && unchanged(display.cueDisplay)
      ensures true in old(display.newKeydowns[..]) && progress.keyNum == |place.sequence| ==> SequenceFinished(now)
      ensures start == old(start)
    {
      DemoSequencesPressEveryKeyOnce(place.sequence);
      progress := progress.(keyToPress := place.sequence[progress.keyNum]);
      display.baseColours[progress.keyToPress] := CueColour;
      if true in display.newKeydowns[..] {
        ConsumePress(now);
      }
    }

    /** The branch of the press stage that consumes an edge. */
    method ConsumePress(now: real)
      requires ConfigOk() && Valid() && display.Valid() && stage.trial == PressStage
      requires progress.keyToPress == place.sequence[progress.keyNum] && true in display.newKeydowns[..]
      modifies this, display.newKeydowns, display.baseColours, display.cueDisplay
      ensures Valid() && display.Valid()
      ensures progress.keyToPress == old(progress.keyToPress) && PressJudged()
      ensures forall f :: 0 <= f < display.newKeydowns.Length ==> !display.newKeydowns[f]
      ensures progress.keyNum < |place.sequence| ==>
                stage == old(stage) && place == old(place) && unchanged(display.cueDisplay)
      ensures progress.keyNum == |place.sequence| ==> SequenceFinished(now)
      ensures start == old(start)
    {
      JudgePress();
      ResetNewKeydowns();
      if progress.keyNum >= |place.sequence| {
        FinishSequence(now);
      }
    }

    /** The completion branch: show the sequence's feedback, reset the clock, and count the sequence. */
    method FinishSequence(now: real)
      requires ConfigOk() && Ledger() && |progress.correct| == |place.sequence| == progress.keyNum
      modifies this, display.cueDisplay
      ensures Valid() && SequenceFinished(now)
      ensures progress == old(progress) && start == old(start)
    {
      stage := stage.(trial := FeedbackStage);
      display.cueDisplay.SetFeedback(Outcome(progress.correct));
      stage := stage.(clock := now);
      place := place.(seqInTrial := place.seqInTrial + 1);
    }

    /** Judge the lowest pending rising edge against the key to press. */
    method JudgePress()
      requires ConfigOk() && Valid() && display.Valid() && stage.trial == PressStage
      requires progress.keyToPress == place.sequence[progress.keyNum] && true in display.newKeydowns[..]
      modifies this, display.baseColours
      ensures Ledger() && |progress.correct| == |place.sequence| && progress.keyNum <= |place.sequence|
      ensures progress.keyToPress == old(progress.keyToPress) && PressJudged()
      ensures stage == old(stage) && place == old(place) && start == old(start)
    {
      var k := progress.keyNum;
      var pressedKey := LowestSet(display.newKeydowns[..]);
      if pressedKey == progress.keyToPress {
        progress := progress.(correct := progress.correct[k := true]);
        display.baseColours[progress.keyToPress] := SuccessColour;
      } else {
        progress := progress.(correct := progress.correct[k := false]);
        display.baseColours[progress.keyToPress] := FailColour;
      }
      progress := progress.(keyNum := k + 1);
    }

    /**
     * The feedback stage: after FEEDBACK_TIME, clear the cue and start the next
     * sequence of the trial with the clock and the pending edges as they are,
     * or the inter-trial interval after the last one.
     */
    method FeedbackStep(now: real)
      requires ConfigOk() && Valid() && display.Valid() && stage.trial == FeedbackStage
      modifies this, display.cueDisplay, display.baseColours
      ensures Valid() && display.Valid()
      ensures !(now - old(stage.clock) > feedbackTime) ==>
                unchanged(this) && unchanged(display.cueDisplay, display.baseColours)
      ensures now - old(stage.clock) > feedbackTime ==>
                && display.cueDisplay.outlineColour == KeyColour && display.cueDisplay.text == ""
                && display.cueDisplay.msgColour == old(display.cueDisplay.msgColour)
                && progress == FreshProgress(place.sequence)
                && (forall k :: 0 <= k < display.baseColours.Length ==> display.baseColours[k] == KeyColour)
                && (place.seqInTrial < seqPerTrial ==> stage == old(stage).(trial := PressStage))
                && (place.seqInTrial >= seqPerTrial ==> stage == old(stage).(trial := ItiStage, clock := now))
      ensures display.cueDisplay.activeHand == old(display.cueDisplay.activeHand)
      ensures place == old(place) && start == old(start)
    {
      if now - stage.clock > feedbackTime {
        display.cueDisplay.SetAllIdle();
        if place.seqInTrial < seqPerTrial {
          ResetForSeq();
          stage := stage.(trial := PressStage);
        } else {
          stage := stage.(trial := ItiStage, clock := now);
          ResetForSeq();
        }
      }
    }

    /** The inter-trial interval: after ITI_TIME, the other sequence on the other hand, from its cue. */
    method ItiStep(now: real)
      requires ConfigOk() && Valid() && stage.trial == ItiStage
      modifies this, display.baseColours
      ensures Valid()
      ensures !(now - old(stage.clock) > itiTime) ==> unchanged(this) && unchanged(display.baseColours)
      ensures now - old(stage.clock) > itiTime ==>
                && place == Place(NextSequence(old(place.sequence)), OtherHand(old(place.hand)), 0)
                && stage == old(stage).(trial := CueStage, clock := now)
                && progress == FreshProgress(place.sequence)
                && forall k :: 0 <= k < display.baseColours.Length ==> display.baseColours[k] == KeyColour
      ensures start == old(start)
    {
      if now - stage.clock > itiTime {
        place := place.(sequence := NextSequence(place.sequence), hand := OtherHand(place.hand));
        ResetForTrial(now);
      }
    }

    /**
     * One pass of `run_main_loop` at time `now`: the keyboard stand-in's
     * `events` (read only without an exoskeleton), the sensor `position`, the
     * input update, then the stage of the demo. A filter error ends the frame
     * after the input update.
     */
    method Frame(now: real, events: seq<KeyEvent>, position: seq<real>) returns (err: Option<InputError>)
      requires ConfigOk() && Valid() && display.Valid()
      requires display.exoActive ==> |position| == display.numFingers
      modifies this, display, display.spoofKeydowns, display.angleRaw, display.angleFilt, display.keydowns
      modifies display.newKeydowns, display.keyPositions, display.FilterRepr, display.cueDisplay, display.baseColours
      ensures Valid() && display.Valid()
      ensures !display.exoActive ==>
                display.spoofKeydowns[..] == ApplyKeyEvents(old(display.spoofKeydowns[..]), DemoKeyCodes, events)
      ensures display.exoActive ==> unchanged(display.spoofKeydowns)
      ensures err.Some? ==> unchanged(this)
      ensures stage.exp == RunStage || (stage.exp == WaitStage && old(stage.exp) == WaitStage)
      ensures DemoKeys(place.sequence)
    {
      if !display.exoActive {
        CheckKeys(events);
      }
      err := display.UpdateInputs(now, position);
      if err.Some? {
        return;
      }
      Advance(now);
    }

    /** The stage dispatch of `run_main_loop`: WaitForStart's step while waiting, RunTrial's while running. */
    method Advance(now: real)
      requires ConfigOk() && Valid() && display.Valid()
      modifies this, display.cueDisplay, display.baseColours, display.newKeydowns
      ensures Valid() && display.Valid()
      ensures stage.exp == RunStage || (stage.exp == WaitStage && old(stage.exp) == WaitStage)
      ensures DemoKeys(place.sequence)
      // waiting: the start gesture of WaitForStart
      ensures old(stage.exp) == WaitStage ==>
                && start.keysPressed == Latched(old(start.keysPressed), display.keydowns[..])
                && start.initiated == (old(start.initiated) || DisplayedHeld(start.keysPressed, display.numActiveFingers))
                && start.clock == if start.initiated && !old(start.initiated) then now else old(start.clock)
      ensures old(stage.exp) == WaitStage && !(start.initiated && now - start.clock > StartWaitTime) ==>
                && stage == old(stage) && place == old(place) && progress == old(progress)
                && forall f :: 0 <= f < display.numActiveFingers ==>
                     display.baseColours[f] == if display.keydowns[f] then SuccessColour else old(display.baseColours[f])
      ensures old(stage.exp) == WaitStage && start.initiated && now - start.clock > StartWaitTime ==>
                && stage == Stage(RunStage, CueStage, now)
                && place == old(place).(seqInTrial := 0) && progress == FreshProgress(place.sequence)
                && forall k :: 0 <= k < display.baseColours.Length ==> display.baseColours[k] == KeyColour
      // running: one step of RunTrial's stage machine
      ensures old(stage.exp) == RunStage ==>
                && (match old(stage.trial)
                    case CueStage => stage.trial in {CueStage, PressStage}
                    case PressStage => stage.trial in {PressStage, FeedbackStage}
                    case FeedbackStage => stage.trial in {FeedbackStage, PressStage, ItiStage}
                    case ItiStage => stage.trial in {ItiStage, CueStage})
                && (|| (place.sequence == old(place.sequence) && place.hand == old(place.hand))
                    || (place.sequence == NextSequence(old(place.sequence)) && place.hand == OtherHand(old(place.hand))))
    {
      if stage.exp == WaitStage {
        WaitForStart(now);
      } else if stage.exp == RunStage {
        RunTrial(now);
      }
    }
  }
}
