# Exoskeleton finger-training games, modelled in Dafny

This project models the game logic of a finger-training rig. An exoskeleton (or a
keyboard standing in for it) reports one angle per finger channel.
`ExoDisplay` turns each channel into a displayed key:

- it checks each raw sample against the valid range;
- when filtering is on, it smooths the sample with a one-euro filter;
- it maps the channel to a displayed key through the active hand;
- it derives the key's position, its held level (`keydowns`) and its latched rising edge (`new_keydowns`).

Three games run on top of it:

- **`SequenceGame`** (seq_exp.py) is the scored sequence-learning experiment.
  - A start gesture gates each run.
  - Each trial of a tiled trial order shows a sequence cue. The player presses the sequence `SEQ_PER_TRIAL` times.
  - Each completed sequence is scored against the median of its own history: +3 fast, +1 success, +0 fail.
  - An inter-trial interval ends each trial. After the last trial of a run, the start screen of the next run follows, or the game quits.
- **`SequenceGame`** (seq_demo.py) is an unscored demo. It alternates two fixed five-key sequences and the two hands.
- **`ExoDemoGame`** (exo_demo.py) is a reaction-time demo. A target key is cued, and the trial's first press is classed as fail, success or slow.

Modules, one file each:

- `Wrappers`: Option and Result.
- `Filters`: `LowPassFilter`, `OneEuroFilter` and the smoothing step.
- `Cue`: the cue display's intent setters.
- `Keyboard`: the keyboard stand-in.
- `Scoring`: sorting, the median and the assessment of a sequence.
- `Stages`: the stage names and numpy idioms the games share.
- `Exo`: `ExoDisplay`.
- `SeqExp`, `SeqDemo`, `ExoDemo`: the three games.

Objects the source updates in place are classes: `ExoDisplay` with array fields, the filters, the cue display, and each game.

The scored game keeps its attributes in five records, grouped by the reset method that resets them:

- `stage`: exp_stage, trial_stage and the trial clock;
- `place`: run, trial, sequence in trial, sequence id and keys;
- `progress`: key number, key to press, correctness and timings;
- `tally`: score, history and last outcome;
- `start`: the start-screen state.

Each clock is modelled as the time of its last reset. A method that reads a clock takes the current time `now`.

## Model

| member | source | states |
|---|---|---|
| Cue.FeedbackColour | ExoDisplay.py:143-150 | fast and success feedback are shown in the success colour, fail feedback in the fail colour, and nothing else |
| Cue.CueDisplay.constructor | ExoDisplay.py:110-113 | a new cue display has the left hand active, an empty message and the idle outline |
| Cue.CueDisplay.SetForStart | ExoDisplay.py:128-132 | idle outline, "Press All" in the cue colour, and the given hand active |
| Cue.CueDisplay.SetAllIdle | ExoDisplay.py:134-136 | idle outline and empty text; message colour and hand unchanged |
| Cue.CueDisplay.SetCue | ExoDisplay.py:138-141 | cue-coloured outline and message showing the given text; hand unchanged |
| Cue.CueDisplay.SetFeedback | ExoDisplay.py:143-150 | the message shows +3/+1/+0 and both colours are the feedback's colour; hand unchanged |
| Filters.SmoothBetween | ExoDisplay.py:343 | a blended low-pass output lies between the previous output and the new sample |
| Filters.SmoothDistance | ExoDisplay.py:343 | one blend shrinks the distance to the sample by exactly the factor 1 - alpha |
| Filters.ConstantInputConverges | ExoDisplay.py:337-346 | on a constant input, after n calls the distance to that input is at most the initial distance divided by 1 + n alpha |
| Filters.CutoffRisesWithSpeed | ExoDisplay.py:319 | with beta >= 0 the adaptive cutoff never falls below mincutoff and never falls as the speed estimate grows |
| Filters.ConfigError | ExoDisplay.py:290-302 | construction succeeds exactly when freq, mincutoff and dcutoff are positive and both initial alphas are in (0, 1]; freq is checked first |
| Filters.BetaNotChecked | ExoDisplay.py:290-300 | beta takes no part in the constructor's checks |
| Filters.LowPassFilter.constructor | ExoDisplay.py:327-329 | a filter with the given alpha and no previous input or output |
| Filters.LowPassFilter.Create | ExoDisplay.py:327-335 | construction fails with the alpha error exactly when alpha is outside (0, 1] |
| Filters.LowPassFilter.Call | ExoDisplay.py:337-346 | a rejected new alpha changes nothing; otherwise the output is the sample on the first call and the alpha blend with the previous output afterwards, and the last input is recorded |
| Filters.OneEuroFilter.constructor | ExoDisplay.py:290-303 | the parameters are stored, and both inner filters are created with the alphas of mincutoff and dcutoff and no history |
| Filters.OneEuroFilter.Create | ExoDisplay.py:290-303 | construction fails with the first failing check's error exactly when a check fails |
| Filters.OneEuroFilter.Call | ExoDisplay.py:310-321 | the result is EuroStep of the state before the call: frequency updated from a non-zero time step; the derivative (0 on the first call) is smoothed first, then the sample with the cutoff it gives; either alpha error stops the call at that point |
| Filters.EuroStepStaysBetween | ExoDisplay.py:310-321 | a successful one-euro step returns the sample on the first call and otherwise a value between the previous output and the sample; a failed step reports an alpha outside (0, 1] |
| Keyboard.IndexOf | seq_exp.py:274 | the position found holds the key, and no earlier position does |
| Keyboard.IndexOfDistinct | seq_exp.py:272-276 | among distinct key codes, each code's position is its own index |
| Keyboard.LastEventWins | seq_exp.py:271-276 | after all events, a channel is held exactly when the last press or release of its code was a press; channels whose code saw neither keep their state |
| Keyboard.UnmappedKeysIgnored | seq_exp.py:272 | events on keys without a code change nothing |
| Keyboard.HandleKeyEvents | seq_exp.py:269-276 | the in-place loop leaves the spoofed states as ApplyKeyEvents of the old states |
| Scoring.InsertKeepsOrder | seq_exp.py:233 | inserting into a sorted list keeps it sorted and adds exactly the new value |
| Scoring.SortSortsValues | seq_exp.py:233 | sorting yields a sorted permutation of the history |
| Scoring.MedianAtMost | seq_exp.py:233 | the median is at most any upper bound on the values |
| Scoring.MedianAtLeast | seq_exp.py:233 | the median is at least any lower bound on the values |
| Scoring.MedianOrderFree | seq_exp.py:233 | the median depends only on the multiset of times |
| Scoring.MedianOfSorted | seq_exp.py:233 | the median of sorted values is their middle (the mean of the two middle values for an even count) |
| Scoring.SortOfSorted | seq_exp.py:233 | sorting a sorted list leaves it unchanged |
| Scoring.SortAppend | seq_exp.py:232-233 | sorting the history with one more time inserts that time into the sorted history |
| Scoring.Points | seq_exp.py:235-242 | fail scores 0, fast scores 3, and only those |
| Scoring.Assess | seq_exp.py:229-243 | a wrong press fails and leaves the history; a correct sequence appends its time; points follow the feedback |
| Scoring.FirstAttemptScoresOne | seq_exp.py:232-238 | the first correct attempt at a sequence scores +1 with a one-entry history |
| Scoring.FasterThanAllScoresThree | seq_exp.py:232-235 | a correct attempt strictly quicker than every earlier one (with some history) scores +3 |
| Scoring.NoFasterThanAnyScoresOne | seq_exp.py:232-238 | a correct attempt no quicker than any earlier one scores +1 |
| Scoring.SecondOfFourIsFast | seq_exp.py:232-235 | after three times, a new second-fastest time is below the four-value median and is fast |
| Scoring.ThirdOfFourIsNotFast | seq_exp.py:232-238 | after three times, a new third-fastest time is at or above the four-value median and is success |
| Scoring.MedianTierFast | seq_exp.py:232-235 | concrete case: 0.9 s after [1.0, 1.2, 0.8] is fast (+3) |
| Scoring.MedianTierSuccess | seq_exp.py:232-238 | concrete case: 1.1 s after [1.0, 1.2, 0.8] is success (+1) |
| Scoring.MiddleOfThreeIsNotFast | seq_exp.py:232-238 | after two times, a time between them is the three-value median, so it is never fast |
| Scoring.MedianIncludesCurrentAttempt | seq_exp.py:232-233 | the median includes the new time: 1.4 s after [1.0, 2.0] is below the earlier median 1.5 yet scores success |
| Stages.LowestSet | seq_exp.py:217 | `np.where(flags)[0][0]`: the index returned is set, and no lower index is |
| Stages.Latched | seq_exp.py:114-115 | each latched flag is the old flag or the held flag |
| Stages.CountTrueAll | seq_exp.py:118 | the count of set flags equals the length exactly when every flag is set |
| Stages.CountReachesPrefix | seq_exp.py:118 | when only the first m flags can be set, at least m are set exactly when all of them are |
| Stages.CueLabelSpellsKeys | seq_exp.py:205-206 | for keys below 9 the cue label shows key i + 1 at position 2i with single spaces between |
| Stages.PaintKeys | seq_exp.py:141-142 | every key gets the given base colour |
| Stages.LatchKeys | seq_exp.py:114-116 | the pressed flags become Latched(old, held), and exactly the held keys are painted the success colour |
| Exo.PhysicalFingerInRange | ExoDisplay.py:263-267 | left-hand keys read the first num_active_fingers channels, right-hand keys the next ones, always within num_fingers |
| Exo.ClipClampsAngle | ExoDisplay.py:270-272 | the clip call with the angle in the lower-bound slot still clamps the angle into the display range |
| Exo.KeyPositionAsWrittenOffset | ExoDisplay.py:268-273 | with display_angle_min 10 and max 20, the formula as written puts a resting key at the top of its travel and a fully pressed key beyond it |
| Exo.KeyPositionSpansRange | ExoDisplay.py:268-273 | the corrected position is ypos_min at or below the minimum angle, ypos_max at or above the maximum, and in between otherwise |
| Exo.KeyPositionReversed | ExoDisplay.py:268-273 | with display_angle_min above display_angle_max the clip always yields display_angle_max, so the corrected position stays at ypos_max |
| Exo.FirstMissingChannel | ExoDisplay.py:263-271 | the first displayed key without a channel is the right hand's key num_fingers - num_active_fingers, reading the channel one past the last; then the right hand has fewer than twice num_active_fingers channels, and no later key has a channel |
| Exo.AllChannelsPresent | ExoDisplay.py:263-271 | when every displayed key has a channel, the right hand has at least twice num_active_fingers channels |
| Exo.KeyPositionAgreesAtZeroMin | ExoDisplay.py:268-273 | the written and the corrected formulas agree when display_angle_min is zero |
| Exo.NewFilters | ExoDisplay.py:225-231 | a bad filter configuration (the filter's first failing check) is the error exactly when at least one channel is built; otherwise one fresh valid filter per channel, with the dummy frequency 120, the configured mincutoff, beta and dcutoff, their initial alphas, no history and disjoint state |
| Exo.NewBuffers | ExoDisplay.py:200-224 | per channel, zero angles and false flags; per key, the key colour and the top at key_base_ypos; all buffers distinct |
| Exo.ExoDisplay.constructor | ExoDisplay.py:154-231 | a valid display storing the configured channel counts, key travel (ypos_min, ypos_max), display and valid angle ranges and exo flag; left hand, empty cue, zeroed channels, keys in the key colour at key_base_ypos; every filter built from the configured parameters at the dummy frequency with no history; filtering as configured; clock read at `now` |
| Exo.ExoDisplay.Create | ExoDisplay.py:154-231 | the display's construction with its filters' checks: with at least one channel, a bad filter configuration is the error and no display is made; otherwise a fresh valid display with the configured channel counts, key travel, angle ranges, exo and filter flags, left hand and configured filters |
| Exo.ExoDisplay.ToggleFilter | ExoDisplay.py:233-234 | filtering is switched the other way and nothing else changes |
| Exo.ExoDisplay.ReadChannel | ExoDisplay.py:243-254 | the channel keeps its new sample (sensor, or 1.1 x max when spoofed held, else min) only inside the valid range; other channels are unchanged |
| Exo.ExoDisplay.FilterChannel | ExoDisplay.py:256-260 | with filtering on, the channel's output is the one-euro step (EuroStep) of its filter's state before the call on its raw angle, and an error is that step's error; with filtering off, the output is the raw angle; other channels and filters are unchanged |
| Exo.ExoDisplay.ConditionChannel | ExoDisplay.py:243-260 | one channel range-checked and filtered: its raw angle is the accepted sample, its output the one-euro step of its old filter state; other channels keep their angles and filter state |
| Exo.ExoDisplay.UpdateKey | ExoDisplay.py:263-280 | a key whose hand-mapped channel is past the last one raises an IndexError and changes nothing; otherwise the key is held exactly when its channel is at or above the maximum angle, a new press latches an edge, and the position is ypos_min at or below the minimum angle, ypos_max at or above the maximum, and within the range otherwise (always ypos_max when the angle bounds are reversed); other keys are unchanged |
| Exo.ExoDisplay.ConditionChannels | ExoDisplay.py:242-260 | every channel is range-checked and then filtered with the one-euro step of its old filter state; an error is the step error of some channel, and it stops the loop |
| Exo.ExoDisplay.UpdateKeys | ExoDisplay.py:262-280 | an IndexError is raised exactly when the active hand does not fit the channels, at the right hand's key num_fingers - num_active_fingers; every key with a channel has its level, latched edge and position from its hand-mapped channel, and the keys after the failing one are unchanged |
| Exo.ExoDisplay.UpdateInputs | ExoDisplay.py:236-280 | the time step is measured; every channel is range-checked and filtered with the one-euro step of its old filter state, then every key with a channel updated; a filter error is a channel's step error and leaves the key state untouched; without one, an IndexError comes exactly when the active hand does not fit the channels |
| SeqExp.TileAt | seq_exp.py:81-82 | copy q of the tiled order holds the base order at offset q times its length |
| SeqExp.TileDrawsFrom | seq_exp.py:81-82 | every entry of the tiled order comes from the base order |
| SeqExp.TrialOrderCoversRun | seq_exp.py:81-82 | the trial order never exceeds a run, and fills it exactly when the base order's length divides TRIALS_PER_RUN |
| SeqExp.TrialOrderFills | seq_exp.py:81-82 | a base order of configured sequences whose length divides TRIALS_PER_RUN gives a trial order of exactly one run, every entry a configured sequence |
| SeqExp.ExecutionIndexInjective | seq_exp.py:171-173 | distinct (sequence, trial, run) triples get distinct execution numbers |
| SeqExp.ExecutionIndexConsecutive | seq_exp.py:196-198 | the next sequence, the next trial's first sequence and the next run's first sequence each number one more |
| SeqExp.FreshProgress | seq_exp.py:143-146 | key number 0, the first key to press, and all-false / all-zero per-key records of the sequence's length |
| SeqExp.SequenceGame.constructor | seq_exp.py:63-89 | every sequence's history is empty, the trial order is the tiled base order, the first trial's sequence is chosen, and the start screen of run 1 is shown: "Press All" in the cue colour, idle outline, the start hand, cue-coloured keys |
| SeqExp.SequenceGame.SetSequence | seq_exp.py:91-95 | the trial's sequence id, keys and hand come from the trial order at the trial number |
| SeqExp.SequenceGame.ResetForStart | seq_exp.py:97-109 | waiting stage, run message "Run r of n" or "All done!", the score message after a run, cue-coloured keys, no keys latched |
| SeqExp.SequenceGame.UpdateStartGate | seq_exp.py:114-121 | held keys are latched and painted; the gate opens, and its clock starts, once every displayed key has been held |
| SeqExp.SequenceGame.WaitForStart | seq_exp.py:111-127 | held keys are latched and painted the success colour, other keys and the cue display unchanged; START_WAIT_TIME after the gate opens, the next run starts at the cue stage with its sequence's hand and idle keys, or the game quits when all runs are done |
| SeqExp.SequenceGame.Quit | seq_exp.py:290-295 | the game stops; nothing else changes |
| SeqExp.SequenceGame.ResetForExp | seq_exp.py:129-131 | running stage, and a new trial at the cue stage with its sequence's hand and idle keys; cue text and colours unchanged |
| SeqExp.SequenceGame.ResetForTrial | seq_exp.py:133-138 | the trial's sequence and hand are set, the trial restarts at the cue stage with its clock reset, and the sequence is reset with idle keys; cue text and colours unchanged |
| SeqExp.SequenceGame.ResetForSeq | seq_exp.py:140-146 | all keys idle and the sequence's progress fresh |
| SeqExp.SequenceGame.ResetNewKeydowns | seq_exp.py:148-149 | no rising edge is pending |
| SeqExp.SequenceGame.CheckKeys | seq_exp.py:269-276 | the spoofed states are ApplyKeyEvents with the ten experiment key codes |
| SeqExp.SequenceGame.RunTrial | seq_exp.py:202-267 | one stage-machine step (cue to press, press to feedback, feedback to press or iti, iti to cue or start screen); the score rises by at most 3; the run number rises by at most one, and only back at the start screen |
| SeqExp.SequenceGame.CueStep | seq_exp.py:204-211 | the cue shows the sequence label until CUE_TIME, then clears, edges are forgotten and the press stage starts with the clock reset |
| SeqExp.SequenceGame.PressStep | seq_exp.py:212-246 | the key to press is cued; without an edge nothing else changes; otherwise the press is judged, timed and counted; after the last key the sequence is scored |
| SeqExp.SequenceGame.ConsumePress | seq_exp.py:216-246 | the lowest pending edge is judged and timed, all edges are cleared, and the sequence is scored when it is complete |
| SeqExp.SequenceGame.JudgePress | seq_exp.py:217-225 | correct exactly when the lowest edge is the key to press; the key is painted success or fail and the press time is recorded |
| SeqExp.SequenceGame.CompleteSequence | seq_exp.py:227-246 | feedback stage with the clock reset; the assessment's feedback is shown, its points added and its history stored; the sequence count rises by one |
| SeqExp.SequenceGame.ScoreSequence | seq_exp.py:229-243 | the time from first to last press and the correctness are assessed against the sequence's history, and the tally records the result |
| SeqExp.SequenceGame.FeedbackStep | seq_exp.py:247-258 | before FEEDBACK_TIME nothing changes; after it the feedback ends |
| SeqExp.SequenceGame.EndFeedback | seq_exp.py:249-258 | cue cleared and the sequence reset; the next sequence's press stage starts with edges cleared, or the iti after the last sequence; the clock is reset either way |
| SeqExp.SequenceGame.ItiStep | seq_exp.py:259-267 | before ITI_TIME nothing changes; after it, the next trial's cue with its hand and idle keys, or at the end of a run the next run's start screen ("Press All", start hand, cue-coloured keys, no key latched) with the score shown |
| SeqExp.SequenceGame.Frame | seq_exp.py:278-286 | keyboard events handled without an exoskeleton, inputs updated, then the stage's step; an input error (filter or missing channel) or a quit game changes no game state |
| SeqExp.SequenceGame.Advance | seq_exp.py:283-286 | while waiting, the start gesture of WaitForStart: keys latched and painted, the gate and its clock, then the next run's first trial with its hand and idle keys or the quit; while running, one stage move of RunTrial; a quit game is unchanged, the score grows by at most three and the run number by at most one |
| SeqDemo.NextSequence | seq_demo.py:143-146 | the swap gives DEMO_SEQUENCE exactly when the current sequence is not DEMO_SEQUENCE |
| SeqDemo.OtherHand | seq_demo.py:147-150 | the swap always changes the hand |
| SeqDemo.SequencesAlternate | seq_demo.py:143-146 | the two demo sequences take turns, and two swaps return to the first |
| SeqDemo.DemoSequencesPressEveryKeyOnce | seq_demo.py:34-35 | each demo sequence presses each of the keys 0-4 exactly once |
| SeqDemo.AsWrittenStartNeverOpens | seq_demo.py:74 | with fewer displayed keys than channels, `all(start_keys_pressed)` can never hold |
| SeqDemo.StartConditionsAgreeWhenAllDisplayed | seq_demo.py:74 | when every channel is displayed, the written and the intended start conditions agree |
| SeqDemo.FreshProgress | seq_demo.py:94-96 | key number 0, the first key to press, and all-false correctness of the sequence's length |
| SeqDemo.Outcome | seq_demo.py:125-128 | success exactly when every key was right, otherwise fail |
| SeqDemo.SequenceGame.constructor | seq_demo.py:47-59 | the start screen, DEMO_SEQUENCE on the left hand, cue stage to come |
| SeqDemo.SequenceGame.ResetForStart | seq_demo.py:61-66 | waiting stage, cue-coloured keys, no keys latched |
| SeqDemo.SequenceGame.WaitForStart | seq_demo.py:68-79 | held keys latched and painted; the gate opens once every displayed key has been held; START_WAIT_TIME later the trials start at the cue stage |
| SeqDemo.SequenceGame.ResetForExp | seq_demo.py:81-83 | running stage, and a new trial at the cue stage |
| SeqDemo.SequenceGame.ResetForTrial | seq_demo.py:85-89 | cue stage with the clock reset, no sequence done, and the sequence reset |
| SeqDemo.SequenceGame.ResetForSeq | seq_demo.py:91-96 | all keys idle and the sequence's progress fresh |
| SeqDemo.SequenceGame.ResetNewKeydowns | seq_demo.py:98-99 | no rising edge is pending |
| SeqDemo.SequenceGame.CheckKeys | seq_demo.py:153-160 | the spoofed states are ApplyKeyEvents with the five demo key codes |
| SeqDemo.SequenceGame.RunTrial | seq_demo.py:101-151 | one stage-machine step; the sequence and hand stay, or both swap together |
| SeqDemo.SequenceGame.CueStep | seq_demo.py:103-109 | the cue shows the sequence label until CUE_TIME, then clears and edges are forgotten; the clock is not reset |
| SeqDemo.SequenceGame.PressStep | seq_demo.py:110-130 | the key to press is cued; without an edge nothing else changes; otherwise the press is judged and counted; after the last key the feedback is shown |
| SeqDemo.SequenceGame.ConsumePress | seq_demo.py:113-130 | the lowest pending edge is judged, all edges are cleared, and the sequence is finished when it is complete |
| SeqDemo.SequenceGame.FinishSequence | seq_demo.py:123-130 | feedback stage with the clock reset, success exactly when every key was right, and the sequence count rises by one |
| SeqDemo.SequenceGame.JudgePress | seq_demo.py:114-121 | correct exactly when the lowest edge is the key to press; the key is painted success or fail |
| SeqDemo.SequenceGame.FeedbackStep | seq_demo.py:131-140 | after FEEDBACK_TIME the cue clears and the sequence resets; the next press stage keeps the clock and the pending edges, while the iti resets the clock |
| SeqDemo.SequenceGame.ItiStep | seq_demo.py:141-151 | after ITI_TIME, the other sequence on the other hand, from its cue with the clock reset |
| SeqDemo.SequenceGame.Frame | seq_demo.py:162-172 | keyboard events handled without an exoskeleton, inputs updated, then the stage's step; an input error changes no game state; the demo never leaves the running stage once in it |
| SeqDemo.SequenceGame.Advance | seq_demo.py:167-170 | while waiting, the start gesture of WaitForStart: keys latched and painted, the gate and its clock, then the cue stage with idle keys; while running, one stage move of RunTrial with sequence and hand kept or swapped together; the demo stays running once started |
| ExoDemo.FirstOther | exo_demo.py:47-49 | the first draw that differs from the last target, with every earlier draw equal to it |
| ExoDemo.Classify | exo_demo.py:59-64 | fail exactly for a wrong key, success exactly for the target within TARGET_TIME, slow exactly for the target later |
| ExoDemo.FirstQuit | exo_demo.py:76-77 | the first event that is `q` with `lctrl` as its only modifier, with no quit event before it |
| ExoDemo.ExoDemoGame.constructor | exo_demo.py:33-39 | stopped, key 0 the target, nothing pressed, clock started at `now` |
| ExoDemo.ExoDemoGame.ToggleExp | exo_demo.py:41-43 | running flips, and a new trial begins with a different target |
| ExoDemo.ExoDemoGame.ResetTrial | exo_demo.py:45-53 | the clock is reset; the target is the first draw that differs from the last target; no press yet; all keys idle except the cued target |
| ExoDemo.ExoDemoGame.RunTrial | exo_demo.py:55-66 | only the trial's first press paints the target with Classify of the lowest held key; after TRIAL_TIME a new trial begins |
| ExoDemo.ExoDemoGame.CheckKeys | exo_demo.py:68-77 | events before the first quit event set and clear the spoofed states; quit is reported exactly when there is one |
| ExoDemo.ExoDemoGame.Frame | exo_demo.py:79-87 | keyboard events without an exoskeleton, inputs updated, then the trial while running; a quit, an input error or a stopped demo changes no game state |
| ExoDemo.ExoDemoGame.Advance | exo_demo.py:84-85 | a stopped demo changes neither the game nor the key colours; a running one takes RunTrial's step: only the first press paints the target with Classify, and after TRIAL_TIME a new trial begins |

## Findings

| source | as written | input that shows it | evidently intended | confidence | as-written member | corrected member |
|---|---|---|---|---|---|---|
| ExoDisplay.py:268-273 | the key position is `ypos_min + (ypos_max - ypos_min) * clip / (display_angle_max - display_angle_min)`, with the clipped angle not offset by `display_angle_min` | display_angle_min 10, display_angle_max 20, ypos 0 to 1: a resting key (angle 10) is drawn at 1.0, the top, and a pressed key at 2.0 | `(clip - display_angle_min) / (display_angle_max - display_angle_min)`, mapping the display range onto [ypos_min, ypos_max] | medium, not executed | Exo.KeyPositionAsWrittenOffset | Exo.ExoDisplay.UpdateKey |
| seq_demo.py:74 | the start gate waits for `all(start_keys_pressed)`, over all `num_fingers` channels, though only the `num_active_fingers` displayed keys can ever be held | num_fingers 10 and num_active_fingers 5: channels 5-9 are never latched, so the demo never leaves the start screen | every displayed key held, as seq_exp.py:118 counts it | medium, not executed | SeqDemo.AsWrittenStartNeverOpens | SeqDemo.SequenceGame.WaitForStart |

## Left out

- Drawing is not modelled: key shapes, hand images, text stimuli, `draw`, the window and `flip`. Key base colours, the cue display's text and colours, and key positions are kept as presentation intent.
- The CSV logs are left out: `write_frame`, `write_trial` and their headers. Only the execution number they record is modelled (`ExecutionIndex`).
- Loading the YAML configuration, command-line arguments and the subject directory checks are left out; configuration values are constructor parameters.
- The exoskeleton device is left out. Its sample vector is the `position` parameter. `update_inputs` reads a bare `exo.position` (ExoDisplay.py:244); the model reads the display's sensor sample.
- The psychopy global-key hooks (ctrl-q in seq_exp.py and seq_demo.py, ctrl-s in exo_demo.py) are left out; the handlers they call (`Quit`, `ToggleExp`) are modelled.
- Clocks are not read: `now` stands for the current time, read once per frame.
- `np.random.randint(0, 5)` is the `draws` parameter. ResetTrial requires a draw that differs from the last target, because with finite draws the loop otherwise would not end.
- `OneEuroFilter.__alpha` (a formula in frequency, cutoff and pi) is an opaque function `alphaOf`, whose results the low-pass filter checks as `__setAlpha` does.
- Floating point is modelled as real arithmetic.
- `if time_passed:` is modelled as a non-zero time step; `update_inputs` never passes None.
- A filter `ValueError` or a missing channel's `IndexError` in `update_inputs` would end the program. In the model `UpdateInputs` returns it and the frame ends with the game state unchanged.
- Stages.CueLabelSpellsKeys: proved only for keys below 9; numpy pads the columns when key numbers differ in width, and that padding is not modelled.
- The two demos build `ExoDisplay` from a config name (seq_demo.py:20, exo_demo.py:20); their constructors take a constructed display.
- seq_demo.py:104-105 passes `hand=` to `set_cue`, which does not accept it and would raise a TypeError. The model calls `SetCue` with the label only, so the demo's `hand` field changes but never reaches the display.
- The unused `best_times` and `END_WAIT_TIME` of seq_demo.py are left out.
- seq_exp.py sets progress and outcome fields only at the first `reset_for_seq` or the first completed sequence. The constructors give them those reset values from the start.
- Each game's `quit` ends the program with `core.quit()`. SeqExp models it as the quit stage. ExoDemo's `Frame` reports a quit and stops before the input update.
- SeqExp.SequenceGame.RunTrial: states the allowed stage moves, the score bound and the run counter, not the whole new state; the per-stage methods it calls state that.
- SeqExp.SequenceGame.Frame: states the key handling, the unchanged game on a filter error or after quitting, and the score and run bounds; the new stage state is stated by the methods it calls.
- SeqDemo.SequenceGame.RunTrial: states the allowed stage moves and the joint swap of sequence and hand; the per-stage methods state the new state.
- SeqDemo.SequenceGame.Frame: states the key handling, the unchanged game on a filter error and the stage bounds; the methods it calls state the rest.
- ExoDemo.ExoDemoGame.Frame: states the key handling and the cases with no game change; Advance states the trial's new state.
- Exo.ExoDisplay.UpdateKey: places the key with the corrected formula (the angle minus display_angle_min), not with ExoDisplay.py:268-273 as written; the two agree when display_angle_min is 0 (KeyPositionAgreesAtZeroMin).
- Exo.ExoDisplay.UpdateKeys: uses the corrected key position of UpdateKey, not the formula as written.
- Exo.ExoDisplay.UpdateInputs: uses the corrected key position of UpdateKey, not the formula as written.
- SeqExp.SequenceGame.CheckKeys: requires a channel for each of the ten key codes; the source fails with an IndexError only when a key without a channel is pressed.
- SeqExp.SequenceGame.Advance: in the running stage states only what RunTrial states (the allowed stage move and the run counter); the per-stage methods state the new state.
- SeqDemo.SequenceGame.Advance: in the running stage states only what RunTrial states (the allowed stage move and the joint swap); the per-stage methods state the new state.
- SeqExp.SequenceGame.constructor: requires TRIALS_PER_RUN to be a multiple of the base order's length, so that the trial order fills a run. Otherwise `np.tile` gives fewer trials than TRIALS_PER_RUN, and the source raises an IndexError in `set_sequence` (seq_exp.py:92) at the first trial past the order; that error path is not modelled. It also requires every configured sequence to be non-empty and to press only displayed keys, including sequences the order never picks; the source raises an IndexError when it cues a key past the last displayed one (seq_exp.py:215), and that error path is not modelled.
- Exo.ExoDisplay.constructor: requires display_angle_min != display_angle_max. With equal bounds the source's key position divides by zero, which numpy turns into inf or nan positions; real arithmetic has no such values. Reversed bounds are modelled.
- Exo.ExoDisplay.constructor: requires num_active_fingers <= num_fingers. The source builds such a display and fails only later, with an IndexError in the second loop of `update_inputs`; the model's display invariant keeps every displayed key on a channel, so that configuration is not modelled.
- Exo.ExoDisplay.constructor: requires a valid filter configuration when there is a channel, since a constructor cannot fail; `Exo.ExoDisplay.Create` models the source's ValueError (ExoDisplay.py:231, raised at ExoDisplay.py:291-296) for that case.
- Exo.ExoDisplay.Create: requires display_angle_min != display_angle_max and num_active_fingers <= num_fingers, for the reasons given for the constructor.
- SeqDemo.SequenceGame.constructor: requires at least five displayed keys. The demo sequences press keys up to 4, and with fewer keys the source raises an IndexError when it cues key 4 (seq_demo.py:112); that error path is not modelled.
- ExoDemo.ExoDemoGame.constructor: requires at least five displayed keys. `np.random.randint(0, 5)` draws targets up to 4, and with fewer keys the source raises an IndexError when it cues such a target (exo_demo.py:53); that error path is not modelled.
