/**
 * The sequence-learning experiment (`SequenceGame` in seq_exp.py). Every frame
 * the game reads the keyboard stand-in (when no exoskeleton is attached),
 * updates the display's inputs, and then either waits for the start gesture
 * (every displayed key held at least once) or advances the trial's stage
 * machine: cue -> press -> feedback -> (press | iti) -> (cue | wait).
 *
 * Clocks are the time of their last reset; `now` stands for reading the clock.
 * Drawing, the CSV logs and the window are left out.
 */
module SeqExp {
  import opened Wrappers
  import opened Filters
  import opened Cue
  import opened Exo
  import opened Keyboard
  import opened Scoring
  import opened Stages

  /** One entry of the configured `sequences`: the hand and the keys to press in order. */
  datatype SeqSpec = SeqSpec(hand: Hand, keys: seq<nat>)

  /** The text of `run_msg`: empty until the first reset, then "Run r of n" or "All done!". */
  datatype RunMessage = NoRunMessage | RunOf(run: nat, total: nat) | AllDone

  /** The keyboard stand-in's key codes, channel by channel. */
  const SeqKeyCodes: seq<string> := ["q", "w", "e", "r", "v", "n", "u", "i", "o", "p"]

  /** `np.tile(base, reps)`: reps copies of base, one after another. */
  function Tile<T>(base: seq<T>, reps: nat): (r: seq<T>)
    ensures |r| == |base| * reps
  {
    if reps == 0 then [] else Tile(base, reps - 1) + base
  }

  /** Copy q of the tiling holds base at offsets q |base| onwards. */
  lemma {:induction false} TileAt<T>(base: seq<T>, reps: nat, q: nat, i: nat)
    requires q < reps && i < |base|
    ensures q * |base| + i < |Tile(base, reps)|
    ensures Tile(base, reps)[q * |base| + i] == base[i]
    decreases reps
  {
    assert q * |base| + i < (q + 1) * |base| <= reps * |base|;
    if q < reps - 1 {
      TileAt(base, reps - 1, q, i);
    }
  }

  /** The tiling holds nothing that base does not. */
  lemma {:induction false} TileFrom<T>(base: seq<T>, reps: nat, x: T)
    requires x in Tile(base, reps)
    ensures x in base
    decreases reps
  {
    if reps > 0 {
      if x !in base {
        TileFrom(base, reps - 1, x);
      }
    }
  }

  /** Every entry of the tiling is an entry of base. */
  lemma TileDrawsFrom<T>(base: seq<T>, reps: nat)
    ensures forall i :: 0 <= i < |Tile(base, reps)| ==> Tile(base, reps)[i] in base
  {
    forall i | 0 <= i < |Tile(base, reps)|
      ensures Tile(base, reps)[i] in base
    {
      TileFrom(base, reps, Tile(base, reps)[i]);
    }
  }

  /** `trial_order`: the base order tiled int(TRIALS_PER_RUN / len(base)) times. */
  function TrialOrder(base: seq<string>, trialsPerRun: nat): seq<string>
    requires |base| > 0
  {
    Tile(base, trialsPerRun / |base|)
  }

  /**
   * The trial order never exceeds a run, and covers every trial of the run
   * exactly when the base order's length divides the run's length.
   */
  lemma TrialOrderCoversRun(base: seq<string>, trialsPerRun: nat)
    requires |base| > 0
    ensures |TrialOrder(base, trialsPerRun)| <= trialsPerRun
    ensures |TrialOrder(base, trialsPerRun)| == trialsPerRun <==> trialsPerRun % |base| == 0
  {
    var q, r := trialsPerRun / |base|, trialsPerRun % |base|;
    assert trialsPerRun == |base| * q + r;
  }

  /** A base order whose length divides the run, drawn from `sequences`, gives a full run of configured sequences. */
  lemma TrialOrderFills(base: seq<string>, trialsPerRun: nat, sequences: map<string, SeqSpec>)
    requires 0 < |base| && trialsPerRun % |base| == 0
    requires forall i :: 0 <= i < |base| ==> base[i] in sequences
    ensures |TrialOrder(base, trialsPerRun)| == trialsPerRun
    ensures forall i :: 0 <= i < trialsPerRun ==> TrialOrder(base, trialsPerRun)[i] in sequences
  {
    TrialOrderCoversRun(base, trialsPerRun);
    TileDrawsFrom(base, trialsPerRun / |base|);
  }

  /** The execution number logged with each frame and sequence. */
  function ExecutionIndex(seqInTrial: nat, trialNum: nat, runNum: nat, seqPerTrial: nat, trialsPerRun: nat): nat
  {
    seqInTrial + trialNum * seqPerTrial + runNum * (seqPerTrial * trialsPerRun)
  }

  /** Digit a and b q of a number in base b: a + b q determines a < b and q. */
  lemma Radix(a1: nat, q1: nat, a2: nat, q2: nat, b: nat)
    requires a1 < b && a2 < b && a1 + b * q1 == a2 + b * q2
    ensures a1 == a2 && q1 == q2
  {
    if q1 < q2 {
      StepAtLeastBase(b, q1, q2);
    } else if q2 < q1 {
      StepAtLeastBase(b, q2, q1);
    }
  }

  /** Multiples of b below and above each other lie at least b apart. */
  lemma {:induction false} StepAtLeastBase(b: nat, lo: nat, hi: nat)
    requires lo < hi
    ensures b * lo + b <= b * hi
    decreases hi - lo
  {
    if lo + 1 < hi {
      StepAtLeastBase(b, lo, hi - 1);
      assert b * hi == b * (hi - 1) + b;
    } else {
      assert b * hi == b * lo + b;
    }
  }

  /** Distinct executions (sequence of trial of run) get distinct numbers. */
  lemma ExecutionIndexInjective(s1: nat, t1: nat, r1: nat, s2: nat, t2: nat, r2: nat, seqPerTrial: nat, trialsPerRun: nat)
    requires s1 < seqPerTrial && s2 < seqPerTrial && t1 < trialsPerRun && t2 < trialsPerRun
    requires ExecutionIndex(s1, t1, r1, seqPerTrial, trialsPerRun) == ExecutionIndex(s2, t2, r2, seqPerTrial, trialsPerRun)
    ensures s1 == s2 && t1 == t2 && r1 == r2
  {
    var S, T := seqPerTrial, trialsPerRun;
    assert ExecutionIndex(s1, t1, r1, S, T) == s1 + S * (t1 + T * r1);
    assert ExecutionIndex(s2, t2, r2, S, T) == s2 + S * (t2 + T * r2);
    Radix(s1, t1 + T * r1, s2, t2 + T * r2, S);
    Radix(t1, r1, t2, r2, T);
  }

  /**
   * Executions are numbered consecutively: the next sequence of a trial, the
   * first of the next trial, and the first of the next run each follow on by one.
   */
  lemma ExecutionIndexConsecutive(s: nat, t: nat, r: nat, seqPerTrial: nat, trialsPerRun: nat)
    requires s < seqPerTrial && t < trialsPerRun
    ensures s + 1 < seqPerTrial ==>
              ExecutionIndex(s + 1, t, r, seqPerTrial, trialsPerRun) == ExecutionIndex(s, t, r, seqPerTrial, trialsPerRun) + 1
    ensures s + 1 == seqPerTrial && t + 1 < trialsPerRun ==>
              ExecutionIndex(0, t + 1, r, seqPerTrial, trialsPerRun) == ExecutionIndex(s, t, r, seqPerTrial, trialsPerRun) + 1
    ensures s + 1 == seqPerTrial && t + 1 == trialsPerRun ==>
              ExecutionIndex(0, 0, r + 1, seqPerTrial, trialsPerRun) == ExecutionIndex(s, t, r, seqPerTrial, trialsPerRun) + 1
  {
    var S, T := seqPerTrial, trialsPerRun;
    assert (t + 1) * S == t * S + S;
    assert (r + 1) * (S * T) == r * (S * T) + S * T;
    assert (T - 1) * S == S * T - S;
  }

  /** A sequence the game can play: non-empty, every key displayed. */
  predicate Playable(sp: SeqSpec, numActive: nat) {
    && |sp.keys| > 0
    && forall k :: 0 <= k < |sp.keys| ==> sp.keys[k] < numActive
  }

  /** `np.full(n, 0.0)`. */
  function Zeros(n: nat): (r: seq<real>)
    ensures |r| == n && forall i :: 0 <= i < n ==> r[i] == 0.0
  {
    seq(n, _ => 0.0)
  }

  /**
   * Where the game stands: the run, the trial of the run, the sequence of the
   * trial, and the trial's sequence (`next_seq_id`, `sequence`).
   */
  datatype Place = Place(runNum: nat, trialNum: nat, seqInTrial: nat, seqId: string, sequence: seq<nat>)

  /**
   * What `reset_for_seq` resets: the position of the next key to press, that
   * key, and whether and when each key of the sequence was pressed.
   */
  datatype Progress = Progress(keyNum: nat, keyToPress: nat, correct: seq<bool>, timings: seq<real>)

  /**
   * The score, each sequence's history of completion times, and the outcome of
   * the last completed sequence (`seq_time`, `seq_correct`, `add_score`).
   */
  datatype Tally = Tally(score: nat, seqTimes: map<string, seq<real>>, seqTime: real, seqCorrect: bool, addScore: nat)

  /**
   * The start screen: the keys held since it appeared, whether all displayed
   * ones have been and when that happened, and its two messages.
   */
  datatype StartGate = StartGate(keysPressed: seq<bool>, initiated: bool, clock: real,
                                 runMessage: RunMessage, scoreMessage: Option<nat>)

  /** `reset_for_seq`'s values for `sequence`. */
  function FreshProgress(sequence: seq<nat>): (p: Progress)
    requires |sequence| > 0
    ensures p.keyNum == 0 && p.keyToPress == sequence[0]
    ensures |p.correct| == |sequence| && |p.timings| == |sequence|
    ensures forall i :: 0 <= i < |sequence| ==> !p.correct[i] && p.timings[i] == 0.0
  {
    Progress(0, sequence[0], Falses(|sequence|), Zeros(|sequence|))
  }

  /**
   * The progress fits a sequence of n keys: one flag and one time per key, and
   * a key still to press except once the last has been (the feedback stage).
   */
  predicate ProgressFits(p: Progress, n: nat, trial: TrialStage) {
    && |p.correct| == n && |p.timings| == n && p.keyNum <= n
    && (trial != FeedbackStage ==> p.keyNum < n)
  }

  /** The allowed moves of the trial's stage machine in one frame. */
  predicate StageStep(before: TrialStage, after: TrialStage, exp: ExpStage) {
    match before
    case CueStage => after in {CueStage, PressStage}
    case PressStage => after in {PressStage, FeedbackStage}
    case FeedbackStage => after in {FeedbackStage, PressStage, ItiStage}
    case ItiStage => after in {ItiStage, CueStage} || exp == WaitStage
  }


  /**
   * The game. Its attributes are kept in five records, grouped as the source's
   * reset methods reset them: `stage`, `place`, `progress`, `tally`, `start`.
   */
  class SequenceGame {
    const display: ExoDisplay
    const startHand: Hand
    const startWaitTime: real
    const seqPerTrial: nat
    const cueTime: real
    const feedbackTime: real
    const itiTime: real
    const numRuns: nat
    const trialsPerRun: nat
    const sequences: map<string, SeqSpec>
    const trialOrder: seq<string>

    var stage: Stage
    var place: Place
    var progress: Progress
    var tally: Tally
    var start: StartGate

    /** The configuration the game can run: playable sequences, a trial order covering a run. */
    ghost predicate ConfigOk() {
      && (forall id :: id in sequences ==> Playable(sequences[id], display.numActiveFingers))
      && 0 < trialsPerRun <= |trialOrder|
      && (forall i :: 0 <= i < |trialOrder| ==> trialOrder[i] in sequences)
      // the keyboard stand-in, used only without an exoskeleton, needs a channel per key code
      && (!display.exoActive ==> |SeqKeyCodes| <= display.numFingers)
      // the game's own state lies outside the display's filters
      && this !in display.FilterRepr
    }

    /** The trial's sequence is one of the configured ones, and the trial lies within the run. */
    ghost predicate PlaceOk(p: Place) {
      p.seqId in sequences && p.sequence == sequences[p.seqId].keys && p.trialNum < trialsPerRun
    }

    /** Every sequence the trial order can pick has a history. */
    ghost predicate TallyOk(t: Tally, p: Place) {
      p.seqId in t.seqTimes && forall i :: 0 <= i < |trialOrder| ==> trialOrder[i] in t.seqTimes
    }

    /** One flag per channel, and only displayed keys are ever latched. */
    ghost predicate StartOk(g: StartGate) {
      && |g.keysPressed| == display.numFingers
      && forall f :: display.numActiveFingers <= f < display.numFingers ==> !g.keysPressed[f]
    }

    /** Everything but the progress through the current sequence. */
    ghost predicate Ledger()
      reads this
    {
      PlaceOk(place) && TallyOk(tally, place) && StartOk(start)
    }

    ghost predicate Valid()
      reads this
    {
      Ledger() && ProgressFits(progress, |place.sequence|, stage.trial)
    }

    /**
     * The game on `display`, at time `now`: every sequence's history empty, the
     * first trial's sequence chosen, and the start screen shown.
     */
    constructor (display: ExoDisplay, now: real, startHand: Hand, startWaitTime: real, seqPerTrial: nat,
                 cueTime: real, feedbackTime: real, itiTime: real, numRuns: nat, trialsPerRun: nat,
                 sequences: map<string, SeqSpec>, baseOrder: seq<string>)
      requires display.Valid()
      requires forall id :: id in sequences ==> Playable(sequences[id], display.numActiveFingers)
      requires 0 < |baseOrder| && 0 < trialsPerRun && trialsPerRun % |baseOrder| == 0
      requires forall i :: 0 <= i < |baseOrder| ==> baseOrder[i] in sequences
      requires !display.exoActive ==> |SeqKeyCodes| <= display.numFingers
      modifies display.cueDisplay, display.baseColours
      ensures ConfigOk() && Valid() && display.Valid()
      ensures this.display == display && this.sequences == sequences && this.startHand == startHand
      ensures this.numRuns == numRuns && this.trialsPerRun == trialsPerRun && this.seqPerTrial == seqPerTrial
      ensures trialOrder == TrialOrder(baseOrder, trialsPerRun)
      ensures tally.score == 0 && tally.seqTimes == map id | id in sequences :: []
      ensures place == Place(0, 0, 0, trialOrder[0], sequences[trialOrder[0]].keys)
      ensures stage == Stage(WaitStage, CueStage, now)
      ensures start == StartGate(Falses(display.numFingers), false, now,
                                 if 0 < numRuns then RunOf(1, numRuns) else AllDone, None)
      ensures display.cueDisplay.activeHand == startHand && display.cueDisplay.text == "Press All"
      ensures display.cueDisplay.outlineColour == KeyColour && display.cueDisplay.msgColour == CueColour
      ensures forall k :: 0 <= k < display.baseColours.Length ==> display.baseColours[k] == CueColour
    {
      this.display := display;
      this.startHand := startHand;
      this.startWaitTime := startWaitTime;
      this.seqPerTrial := seqPerTrial;
      this.cueTime := cueTime;
      this.feedbackTime := feedbackTime;
      this.itiTime := itiTime;
      this.numRuns := numRuns;
      this.trialsPerRun := trialsPerRun;
      this.sequences := sequences;
      var order := TrialOrder(baseOrder, trialsPerRun);
      TrialOrderFills(baseOrder, trialsPerRun, sequences);
      trialOrder := order;
      stage := Stage(WaitStage, CueStage, now);
      // set_sequence picks the sequence again below; it is fixed here so the state is whole from the start
      var keys := sequences[order[0]].keys;
      place := Place(0, 0, 0, order[0], keys);
      // the source leaves these undefined until the first reset_for_seq; they start at its values
      progress := FreshProgress(keys);
      tally := Tally(0, map id | id in sequences :: [], 0.0, false, 0);
      start := StartGate(Falses(display.numFingers), false, now, NoRunMessage, None);
      new;
      SetSequence();
      ResetForStart();
    }

    /** `set_sequence`: the trial's sequence and its hand. */
    method SetSequence()
      requires ConfigOk() && Ledger() && display.Valid()
      modifies this, display.cueDisplay
      ensures Ledger() && display.Valid()
      ensures place == old(place).(seqId := trialOrder[place.trialNum],
                                   sequence := sequences[trialOrder[place.trialNum]].keys)
      ensures display.cueDisplay.activeHand == sequences[place.seqId].hand
      ensures display.cueDisplay.text == old(display.cueDisplay.text)
      ensures display.cueDisplay.msgColour == old(display.cueDisplay.msgColour)
      ensures display.cueDisplay.outlineColour == old(display.cueDisplay.outlineColour)
      ensures stage == old(stage) && progress == old(progress) && tally == old(tally) && start == old(start)
    {
      var id := trialOrder[place.trialNum];
      display.cueDisplay.activeHand := sequences[id].hand;
      place := place.(seqId := id, sequence := sequences[id].keys);
    }

    /** `reset_for_start`: the start screen, with the run and score messages. */
    method ResetForStart()
      requires ConfigOk() && Valid() && display.Valid()
      modifies this, display.cueDisplay, display.baseColours
      ensures Valid() && display.Valid()
      ensures stage == old(stage).(exp := WaitStage)
      ensures start == StartGate(Falses(display.numFingers), false, old(start.clock),
                                 if place.runNum < numRuns then RunOf(place.runNum + 1, numRuns) else AllDone,
                                 if place.runNum > 0 then Some(tally.score) else old(start.scoreMessage))
      ensures display.cueDisplay.outlineColour == KeyColour && display.cueDisplay.text == "Press All"
      ensures display.cueDisplay.msgColour == CueColour && display.cueDisplay.activeHand == startHand
      ensures forall k :: 0 <= k < display.baseColours.Length ==> display.baseColours[k] == CueColour
      ensures place == old(place) && progress == old(progress) && tally == old(tally)
    {
      stage := stage.(exp := WaitStage);
      var scoreMessage := start.scoreMessage;
      if place.runNum > 0 {
        scoreMessage := Some(tally.score);
      }
      var runMessage := AllDone;
      if place.runNum < numRuns {
        runMessage := RunOf(place.runNum + 1, numRuns);
      }
      display.cueDisplay.SetForStart(startHand);
      PaintKeys(display.baseColours, CueColour);
      start := StartGate(Falses(display.numFingers), false, start.clock, runMessage, scoreMessage);
    }

    /** The start gesture: latch the held keys, and note when every displayed key has been held. */
    method UpdateStartGate(now: real)
      requires ConfigOk() && Valid() && display.Valid()
      modifies this, display.baseColours
      ensures Valid()
      ensures start.keysPressed == Latched(old(start.keysPressed), display.keydowns[..])
      ensures start.initiated ==
                (old(start.initiated) || forall f :: 0 <= f < display.numActiveFingers ==> start.keysPressed[f])
      ensures start.clock == if start.initiated && !old(start.initiated) then now else old(start.clock)
      ensures start.runMessage == old(start.runMessage) && start.scoreMessage == old(start.scoreMessage)
      ensures forall f :: 0 <= f < display.numActiveFingers ==>
                display.baseColours[f] == if display.keydowns[f] then SuccessColour else old(display.baseColours[f])
      ensures stage == old(stage) && place == old(place) && progress == old(progress) && tally == old(tally)
    {
      var pressed := LatchKeys(start.keysPressed, display.keydowns, display.baseColours);
      start := start.(keysPressed := pressed);
      CountReachesPrefix(start.keysPressed, display.numActiveFingers);
      if CountTrue(start.keysPressed) >= display.numActiveFingers && !start.initiated {
        start := start.(initiated := true, clock := now);
      }
    }

    /**
     * `wait_for_start`: once every displayed key has been held since the start
     * screen appeared, wait START_WAIT_TIME and then start the next run, or quit
     * when all runs are done.
     */
    method WaitForStart(now: real)
      requires ConfigOk() && Valid() && display.Valid() && stage.exp == WaitStage
      modifies this, display.cueDisplay, display.baseColours
      ensures Valid()
      ensures start.keysPressed == Latched(old(start.keysPressed), display.keydowns[..])
      ensures start.initiated ==
                (old(start.initiated) || forall f :: 0 <= f < display.numActiveFingers ==> start.keysPressed[f])
      ensures start.clock == if start.initiated && !old(start.initiated) then now else old(start.clock)
      ensures !(start.initiated && now - start.clock > startWaitTime) ==>
                stage == old(stage) && place == old(place) && progress == old(progress)
      ensures start.initiated && now - start.clock > startWaitTime && place.runNum < numRuns ==>
                && stage == Stage(RunStage, CueStage, now)
                && place == old(place).(seqInTrial := 0, seqId := trialOrder[place.trialNum],
                                        sequence := sequences[trialOrder[place.trialNum]].keys)
                && progress == FreshProgress(place.sequence)
      ensures start.initiated && now - start.clock > startWaitTime && place.runNum >= numRuns ==>
                stage == old(stage).(exp := QuitStage) && place == old(place) && progress == old(progress)
      ensures start.initiated && now - start.clock > startWaitTime && place.runNum < numRuns ==>
                && display.cueDisplay.activeHand == sequences[place.seqId].hand
                && display.cueDisplay.text == old(display.cueDisplay.text)
                && display.cueDisplay.outlineColour == old(display.cueDisplay.outlineColour)
                && display.cueDisplay.msgColour == old(display.cueDisplay.msgColour)
                && forall k :: 0 <= k < display.baseColours.Length ==> display.baseColours[k] == KeyColour
      ensures !(start.initiated && now - start.clock > startWaitTime && place.runNum < numRuns) ==>
                && unchanged(display.cueDisplay)
                && forall f :: 0 <= f < display.numActiveFingers ==>
                     display.baseColours[f] == if display.keydowns[f] then SuccessColour else old(display.baseColours[f])
      ensures tally == old(tally)
    {
      UpdateStartGate(now);
      if start.initiated && now - start.clock > startWaitTime {
        if place.runNum < numRuns {
          ResetForExp(now);
        } else {
          Quit();
        }
      }
    }

    /** `quit`: the game stops. */
    method Quit()
      modifies this
      ensures stage == old(stage).(exp := QuitStage)
      ensures place == old(place) && progress == old(progress) && tally == old(tally) && start == old(start)
    {
      stage := stage.(exp := QuitStage);
    }

    /** `reset_for_exp`: start running trials. */
    method ResetForExp(now: real)
      requires ConfigOk() && Ledger() && display.Valid()
      modifies this, display.cueDisplay, display.baseColours
      ensures Valid() && display.Valid()
      ensures stage == Stage(RunStage, CueStage, now)
      ensures place == old(place).(seqInTrial := 0, seqId := trialOrder[place.trialNum],
                                   sequence := sequences[trialOrder[place.trialNum]].keys)
      ensures progress == FreshProgress(place.sequence)
      ensures display.cueDisplay.activeHand == sequences[place.seqId].hand
      ensures display.cueDisplay.text == old(display.cueDisplay.text)
      ensures display.cueDisplay.outlineColour == old(display.cueDisplay.outlineColour)
      ensures display.cueDisplay.msgColour == old(display.cueDisplay.msgColour)
      ensures forall k :: 0 <= k < display.baseColours.Length ==> display.baseColours[k] == KeyColour
      ensures tally == old(tally) && start == old(start)
    {
      stage := stage.(exp := RunStage);
      ResetForTrial(now);
    }

    /** `reset_for_trial`: the trial's sequence, shown from the cue stage, at time `now`. */
    method ResetForTrial(now: real)
      requires ConfigOk() && Ledger() && display.Valid()
      modifies this, display.cueDisplay, display.baseColours
      ensures Valid() && display.Valid()
      ensures stage == old(stage).(trial := CueStage, clock := now)
      ensures place == old(place).(seqInTrial := 0, seqId := trialOrder[place.trialNum],
                                   sequence := sequences[trialOrder[place.trialNum]].keys)
      ensures progress == FreshProgress(place.sequence)
      ensures display.cueDisplay.activeHand == sequences[place.seqId].hand
      ensures display.cueDisplay.text == old(display.cueDisplay.text)
      ensures display.cueDisplay.outlineColour == old(display.cueDisplay.outlineColour)
      ensures display.cueDisplay.msgColour == old(display.cueDisplay.msgColour)
      ensures forall k :: 0 <= k < display.baseColours.Length ==> display.baseColours[k] == KeyColour
      ensures tally == old(tally) && start == old(start)
    {
      SetSequence();
      place := place.(seqInTrial := 0);
      stage := stage.(trial := CueStage, clock := now);
      ResetForSeq();
    }

    /** `reset_for_seq`: all keys idle, and nothing of the sequence pressed yet. */
    method ResetForSeq()
      requires ConfigOk() && Ledger()
      modifies this, display.baseColours
      ensures Valid()
      ensures progress == FreshProgress(place.sequence)
      ensures forall k :: 0 <= k < display.baseColours.Length ==> display.baseColours[k] == KeyColour
      ensures stage == old(stage) && place == old(place) && tally == old(tally) && start == old(start)
    {
      PaintKeys(display.baseColours, KeyColour);
      progress := FreshProgress(place.sequence);
    }

    /** `reset_new_keydowns`: forget every pending rising edge. */
    method ResetNewKeydowns()
      requires display.Valid()
      modifies display.newKeydowns
      ensures display.Valid()
      ensures forall f :: 0 <= f < display.newKeydowns.Length ==> !display.newKeydowns[f]
    {
      forall f | 0 <= f < display.newKeydowns.Length {
        display.newKeydowns[f] := false;
      }
    }

    /** `check_keys`: the keyboard stand-in's events set and clear the spoofed key states. */
    method CheckKeys(events: seq<KeyEvent>)
      requires ConfigOk() && display.Valid() && |SeqKeyCodes| <= display.numFingers
      modifies display.spoofKeydowns
      ensures display.spoofKeydowns[..] == ApplyKeyEvents(old(display.spoofKeydowns[..]), SeqKeyCodes, events)
    {
      HandleKeyEvents(display.spoofKeydowns, SeqKeyCodes, events);
    }

    /** `run_trial`: one frame of the trial's stage machine. */
    method RunTrial(now: real)
      requires ConfigOk() && Valid() && display.Valid() && stage.exp == RunStage
      modifies this, display.cueDisplay, display.baseColours, display.newKeydowns
      ensures Valid() && display.Valid()
      ensures StageStep(old(stage.trial), stage.trial, stage.exp)
      ensures old(tally.score) <= tally.score <= old(tally.score) + 3
      ensures place.runNum == old(place.runNum) || (place.runNum == old(place.runNum) + 1 && stage.exp == WaitStage)
    {
      match stage.trial
      case CueStage => CueStep(now);
      case PressStage => PressStep(now);
      case FeedbackStage => FeedbackStep(now);
      case ItiStage => ItiStep(now);
    }

    /** The cue stage: show the sequence until CUE_TIME has passed, then clear the cue and await presses. */
    method CueStep(now: real)
      requires ConfigOk() && Valid() && display.Valid() && stage.trial == CueStage
      modifies this, display.cueDisplay, display.newKeydowns
      ensures Valid() && display.Valid()
      ensures now - old(stage.clock) > cueTime ==>
                && stage == old(stage).(trial := PressStage, clock := now)
                && display.cueDisplay.outlineColour == KeyColour && display.cueDisplay.text == ""
                && forall f :: 0 <= f < display.newKeydowns.Length ==> !display.newKeydowns[f]
      ensures !(now - old(stage.clock) > cueTime) ==>
                && stage == old(stage)
                && display.cueDisplay.outlineColour == CueColour && display.cueDisplay.text == CueLabel(place.sequence)
                && unchanged(display.newKeydowns)
      ensures display.cueDisplay.msgColour == CueColour
      ensures display.cueDisplay.activeHand == old(display.cueDisplay.activeHand)
      ensures place == old(place) && progress == old(progress) && tally == old(tally) && start == old(start)
    {
      display.cueDisplay.SetCue(CueLabel(place.sequence));
      if now - stage.clock > cueTime {
        stage := stage.(trial := PressStage);
        display.cueDisplay.SetAllIdle();
        ResetNewKeydowns();
        stage := stage.(clock := now);
      }
    }

    /**
     * What judging the lowest pending rising edge at time `now` records: whether
     * it was the key to press, and the time since the trial clock's reset.
     */
    twostate predicate PressJudged(now: real)
      reads this, display.baseColours
    {
      && old(progress.keyNum) < |old(progress.correct)| && old(progress.keyNum) < |old(progress.timings)|
      && true in old(display.newKeydowns[..])
      && progress.keyToPress < display.baseColours.Length
      && var k := old(progress.keyNum);
         var correct := LowestSet(old(display.newKeydowns[..])) == progress.keyToPress;
         && progress.keyNum == k + 1
         && progress.correct == old(progress.correct)[k := correct]
         && progress.timings == old(progress.timings)[k := now - old(stage.clock)]
         && display.baseColours[..] ==
              old(display.baseColours[..])[progress.keyToPress := if correct then SuccessColour else FailColour]
    }

    /** What consuming the lowest pending rising edge at time `now` records: its judgement, and no edge left. */
    twostate predicate PressRecorded(now: real)
      reads this, display.newKeydowns, display.baseColours
    {
      && PressJudged(now)
      && forall f :: 0 <= f < display.newKeydowns.Length ==> !display.newKeydowns[f]
    }

    /** How a completed sequence is scored at time `now`: the assessment against its history. */
    twostate predicate SequenceScored(now: real)
      reads this, display.cueDisplay
    {
      && |progress.timings| > 0 && old(place.seqId) in old(tally.seqTimes)
      && var time := progress.timings[|progress.timings| - 1] - progress.timings[0];
         var correct := false !in progress.correct;
         var a := Assess(correct, time, old(tally.seqTimes)[old(place.seqId)]);
         && tally == Tally(old(tally.score) + a.points, old(tally.seqTimes)[old(place.seqId) := a.history],
                           time, correct, a.points)
         && stage == old(stage).(trial := FeedbackStage, clock := now)
         && place == old(place).(seqInTrial := old(place.seqInTrial) + 1)
         && display.cueDisplay.text == FeedbackText(a.feedback)
         && display.cueDisplay.msgColour == FeedbackColour(a.feedback)
         && display.cueDisplay.outlineColour == FeedbackColour(a.feedback)
         && display.cueDisplay.activeHand == old(display.cueDisplay.activeHand)
    }

    /**
     * The press stage: the key to press is shown; the lowest pending rising edge,
     * if any, is judged against it, timed, and all edges are forgotten. The last
     * key of the sequence moves on to feedback.
     */
    method PressStep(now: real)
      requires ConfigOk() && Valid() && display.Valid() && stage.trial == PressStage
      modifies this, display.newKeydowns, display.baseColours, display.cueDisplay
      ensures Valid() && display.Valid()
      ensures progress.keyToPress == old(place.sequence[progress.keyNum])
      ensures true !in old(display.newKeydowns[..]) ==>
                && progress == old(progress).(keyToPress := progress.keyToPress)
                && display.baseColours[..] == old(display.baseColours[..])[progress.keyToPress := CueColour]
                && unchanged(display.newKeydowns, display.cueDisplay)
                && stage == old(stage) && place == old(place) && tally == old(tally)
      ensures true in old(display.newKeydowns[..]) ==> PressRecorded(now)
      ensures true in old(display.newKeydowns[..]) && progress.keyNum < |place.sequence| ==>
                stage == old(stage) && place == old(place) && tally == old(tally) && unchanged(display.cueDisplay)
      ensures true in old(display.newKeydowns[..]) && progress.keyNum == |place.sequence| ==> SequenceScored(now)
      ensures start == old(start)
    {
      progress := progress.(keyToPress := place.sequence[progress.keyNum]);
      display.baseColours[progress.keyToPress] := CueColour;
      if true in display.newKeydowns[..] {
        ConsumePress(now);
      }
    }

    /** The branch of the press stage that consumes an edge. */
    method ConsumePress(now: real)
      requires ConfigOk() && Valid() && display.Valid() && stage.trial == PressStage
      requires progress.keyToPress == place.sequence[progress.keyNum] && true in display.newKeydowns[..]
      modifies this, display.newKeydowns, display.baseColours, display.cueDisplay
      ensures Valid() && display.Valid()
      ensures progress.keyToPress == old(progress.keyToPress) && PressRecorded(now)
      ensures progress.keyNum < |place.sequence| ==>
                stage == old(stage) && place == old(place) && tally == old(tally) && unchanged(display.cueDisplay)
      ensures progress.keyNum == |place.sequence| ==> SequenceScored(now)
      ensures start == old(start)
    {
      JudgePress(now);
      ResetNewKeydowns();
      if progress.keyNum >= |place.sequence| {
        CompleteSequence(now);
      }
    }

    /** Judge the lowest pending rising edge against the key to press, and time it. */
    method JudgePress(now: real)
      requires ConfigOk() && Valid() && display.Valid() && stage.trial == PressStage
      requires progress.keyToPress == place.sequence[progress.keyNum] && true in display.newKeydowns[..]
      modifies this, display.baseColours
      ensures Ledger() && ProgressFits(progress, |place.sequence|, FeedbackStage)
      ensures progress.keyToPress == old(progress.keyToPress) && PressJudged(now)
      ensures stage == old(stage) && place == old(place) && tally == old(tally) && start == old(start)
    {
      var k := progress.keyNum;
      var pressedKey := LowestSet(display.newKeydowns[..]);
      if pressedKey == progress.keyToPress {
        progress := progress.(correct := progress.correct[k := true]);
        display.baseColours[progress.keyToPress] := SuccessColour;
      } else {
        progress := progress.(correct := progress.correct[k := false]);
        display.baseColours[progress.keyToPress] := FailColour;
      }
      progress := progress.(timings := progress.timings[k := now - stage.clock], keyNum := k + 1);
    }

    /** The completion branch: score the sequence, show its feedback, and count it. */
    method CompleteSequence(now: real)
      requires ConfigOk() && Ledger() && ProgressFits(progress, |place.sequence|, FeedbackStage)
      requires progress.keyNum == |place.sequence|
      modifies this, display.cueDisplay
      ensures Valid() && SequenceScored(now)
      ensures progress == old(progress) && start == old(start)
    {
      stage := stage.(trial := FeedbackStage);
      var a := ScoreSequence();
      display.cueDisplay.SetFeedback(a.feedback);
      stage := stage.(clock := now);
      place := place.(seqInTrial := place.seqInTrial + 1);
      // the assessment shown is the one SequenceScored describes
      assert a == Assess(false !in progress.correct, progress.timings[|progress.timings| - 1] - progress.timings[0],
                         old(tally.seqTimes)[old(place.seqId)]);
    }

    /** The scoring of the completion branch: the sequence's time and correctness, assessed against its history. */
    method ScoreSequence() returns (a: Assessment)
      requires ConfigOk() && Ledger() && |progress.timings| > 0
      modifies this
      ensures stage == old(stage) && place == old(place) && progress == old(progress) && start == old(start)
      ensures Ledger()
      ensures var time := progress.timings[|progress.timings| - 1] - progress.timings[0];
              var correct := false !in progress.correct;
              && a == Assess(correct, time, old(tally.seqTimes)[place.seqId])
              && tally == Tally(old(tally.score) + a.points, old(tally.seqTimes)[place.seqId := a.history],
                                time, correct, a.points)
    {
      var time := progress.timings[|progress.timings| - 1] - progress.timings[0];
      var correct := false !in progress.correct;
      a := Assess(correct, time, tally.seqTimes[place.seqId]);
      tally := Tally(tally.score + a.points, tally.seqTimes[place.seqId := a.history], time, correct, a.points);
    }

    /**
     * The feedback stage: after FEEDBACK_TIME, clear the cue and start the next
     * sequence of the trial, or the inter-trial interval after the last one.
     */
    method FeedbackStep(now: real)
      requires ConfigOk() && Valid() && display.Valid() && stage.trial == FeedbackStage
      modifies this, display.cueDisplay, display.baseColours, display.newKeydowns
      ensures Valid() && display.Valid()
      ensures !(now - old(stage.clock) > feedbackTime) ==>
                unchanged(this) && unchanged(display.cueDisplay, display.baseColours, display.newKeydowns)
      ensures now - old(stage.clock) > feedbackTime ==> FeedbackEnded(now)
      ensures display.cueDisplay.activeHand == old(display.cueDisplay.activeHand)
      ensures place == old(place) && tally == old(tally) && start == old(start)
    {
      if now - stage.clock > feedbackTime {
        EndFeedback(now);
      }
    }

    /** Feedback over at time `now`: the cue cleared, the sequence reset, and the next stage begun. */
    twostate predicate FeedbackEnded(now: real)
      reads this, display.cueDisplay, display.baseColours, display.newKeydowns
    {
      && display.cueDisplay.outlineColour == KeyColour && display.cueDisplay.text == ""
      && display.cueDisplay.msgColour == old(display.cueDisplay.msgColour)
      && |place.sequence| > 0 && progress == FreshProgress(place.sequence)
      && (forall k :: 0 <= k < display.baseColours.Length ==> display.baseColours[k] == KeyColour)
      && (old(place.seqInTrial) < seqPerTrial ==>
            && stage == old(stage).(trial := PressStage, clock := now)
            && forall f :: 0 <= f < display.newKeydowns.Length ==> !display.newKeydowns[f])
      && (old(place.seqInTrial) >= seqPerTrial ==>
            stage == old(stage).(trial := ItiStage, clock := now) && unchanged(display.newKeydowns))
    }

    /** The end of the feedback stage. */
    method EndFeedback(now: real)
      requires ConfigOk() && Valid() && display.Valid() && stage.trial == FeedbackStage
      modifies this, display.cueDisplay, display.baseColours, display.newKeydowns
      ensures Valid() && display.Valid() && FeedbackEnded(now)
      ensures display.cueDisplay.activeHand == old(display.cueDisplay.activeHand)
      ensures place == old(place) && tally == old(tally) && start == old(start)
    {
      display.cueDisplay.SetAllIdle();
      if place.seqInTrial < seqPerTrial {
        ResetForSeq();
        stage := stage.(trial := PressStage, clock := now);
        ResetNewKeydowns();
      } else {
        stage := stage.(trial := ItiStage, clock := now);
        ResetForSeq();
      }
    }

    /**
     * The inter-trial interval: after ITI_TIME, the next trial, or at the end of
     * a run the start screen of the next run.
     */
    method ItiStep(now: real)
      requires ConfigOk() && Valid() && display.Valid() && stage.trial == ItiStage
      modifies this, display.cueDisplay, display.baseColours
      ensures Valid() && display.Valid()
      ensures !(now - old(stage.clock) > itiTime) ==> unchanged(this) && unchanged(display.cueDisplay, display.baseColours)
      ensures now - old(stage.clock) > itiTime && old(place.trialNum) + 1 < trialsPerRun ==>
                && place == old(place).(trialNum := old(place.trialNum) + 1, seqInTrial := 0,
                                        seqId := trialOrder[place.trialNum],
                                        sequence := sequences[trialOrder[place.trialNum]].keys)
                && stage == old(stage).(trial := CueStage, clock := now)
                && progress == FreshProgress(place.sequence) && start == old(start)
                && display.cueDisplay.activeHand == sequences[place.seqId].hand
                && display.cueDisplay.text == old(display.cueDisplay.text)
                && display.cueDisplay.outlineColour == old(display.cueDisplay.outlineColour)
                && display.cueDisplay.msgColour == old(display.cueDisplay.msgColour)
                && forall k :: 0 <= k < display.baseColours.Length ==> display.baseColours[k] == KeyColour
      ensures now - old(stage.clock) > itiTime && old(place.trialNum) + 1 >= trialsPerRun ==>
                && place == old(place).(trialNum := 0, runNum := old(place.runNum) + 1)
                && stage == old(stage).(exp := WaitStage) && progress == old(progress)
                && start == StartGate(Falses(display.numFingers), false, old(start.clock),
                                      if place.runNum < numRuns then RunOf(place.runNum + 1, numRuns) else AllDone,
                                      Some(tally.score))
                && display.cueDisplay.activeHand == startHand && display.cueDisplay.text == "Press All"
                && display.cueDisplay.outlineColour == KeyColour && display.cueDisplay.msgColour == CueColour
                && forall k :: 0 <= k < display.baseColours.Length ==> display.baseColours[k] == CueColour
      ensures tally == old(tally)
    {
      if now - stage.clock > itiTime {
        place := place.(trialNum := place.trialNum + 1);
        if place.trialNum >= trialsPerRun {
          place := place.(trialNum := 0, runNum := place.runNum + 1);
          ResetForStart();
        } else {
          ResetForTrial(now);
        }
      }
    }

    /**
     * One pass of `run_main_loop` at time `now`: the keyboard stand-in's
     * `events` (read only without an exoskeleton), the sensor `position`, the
     * input update, then the stage of the experiment. A filter error ends the
     * frame after the input update.
     */
    method Frame(now: real, events: seq<KeyEvent>, position: seq<real>) returns (err: Option<InputError>)
      requires ConfigOk() && Valid() && display.Valid()
      requires display.exoActive ==> |position| == display.numFingers
      modifies this, display, display.spoofKeydowns, display.angleRaw, display.angleFilt, display.keydowns
      modifies display.newKeydowns, display.keyPositions, display.FilterRepr, display.cueDisplay, display.baseColours
      ensures Valid() && display.Valid()
      ensures !display.exoActive ==>
                display.spoofKeydowns[..] == ApplyKeyEvents(old(display.spoofKeydowns[..]), SeqKeyCodes, events)
      ensures display.exoActive ==> unchanged(display.spoofKeydowns)
      ensures err.Some? || old(stage.exp) == QuitStage ==> unchanged(this)
      ensures old(tally.score) <= tally.score <= old(tally.score) + 3
      ensures place.runNum == old(place.runNum) || place.runNum == old(place.runNum) + 1
    {
      if !display.exoActive {
        CheckKeys(events);
      }
      err := display.UpdateInputs(now, position);
      if err.Some? {
        return;
      }
      Advance(now);
    }

    /** The stage dispatch of `run_main_loop`: WaitForStart's step while waiting, RunTrial's while running. */
    method Advance(now: real)
      requires ConfigOk() && Valid() && display.Valid()
      modifies this, display.cueDisplay, display.baseColours, display.newKeydowns
      ensures Valid() && display.Valid()
      ensures old(stage.exp) == QuitStage ==> unchanged(this)
      ensures old(tally.score) <= tally.score <= old(tally.score) + 3
      ensures place.runNum == old(place.runNum) || place.runNum == old(place.runNum) + 1
      // waiting: the start gesture of WaitForStart
      ensures old(stage.exp) == WaitStage ==>
                && start.keysPressed == Latched(old(start.keysPressed), display.keydowns[..])
                && start.initiated ==
                     (old(start.initiated) || forall f :: 0 <= f < display.numActiveFingers ==> start.keysPressed[f])
                && tally == old(tally)
                && start.clock == if start.initiated && !old(start.initiated) then now else old(start.clock)
      ensures old(stage.exp) == WaitStage && !(start.initiated && now - start.clock > startWaitTime) ==>
                stage == old(stage) && place == old(place) && progress == old(progress)
      ensures old(stage.exp) == WaitStage && start.initiated && now - start.clock > startWaitTime && place.runNum < numRuns ==>
                && stage == Stage(RunStage, CueStage, now)
                && place == old(place).(seqInTrial := 0, seqId := trialOrder[place.trialNum],
                                        sequence := sequences[trialOrder[place.trialNum]].keys)
                && progress == FreshProgress(place.sequence)
                && display.cueDisplay.activeHand == sequences[place.seqId].hand
                && display.cueDisplay.text == old(display.cueDisplay.text)
                && display.cueDisplay.outlineColour == old(display.cueDisplay.outlineColour)
                && display.cueDisplay.msgColour == old(display.cueDisplay.msgColour)
                && forall k :: 0 <= k < display.baseColours.Length ==> display.baseColours[k] == KeyColour
      ensures old(stage.exp) == WaitStage && start.initiated && now - start.clock > startWaitTime && place.runNum >= numRuns ==>
                stage == old(stage).(exp := QuitStage) && place == old(place) && progress == old(progress)
      ensures old(stage.exp) == WaitStage && !(start.initiated && now - start.clock > startWaitTime && place.runNum < numRuns) ==>
                && unchanged(display.cueDisplay)
                && forall f :: 0 <= f < display.numActiveFingers ==>
                     display.baseColours[f] == if display.keydowns[f] then SuccessColour else old(display.baseColours[f])
      // running: one step of RunTrial's stage machine
      ensures old(stage.exp) == RunStage ==>
                && StageStep(old(stage.trial), stage.trial, stage.exp)
                && (place.runNum == old(place.runNum) || (place.runNum == old(place.runNum) + 1 && stage.exp == WaitStage))
    {
      if stage.exp == WaitStage {
        WaitForStart(now);
      } else if stage.exp == RunStage {
        RunTrial(now);
      }
    }
  }
}
