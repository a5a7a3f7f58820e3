/**
 * The reaction-time demo (`ExoDemoGame` in exo_demo.py). While it runs, one
 * of the first five keys is the target. The trial's first press paints the
 * target: fail for a wrong key, success for the right key within TARGET_TIME,
 * slow for the right key later. After TRIAL_TIME a new target, different from
 * the last one, is drawn.
 *
 * The random draws of `np.random.randint(0, 5)` are supplied as a sequence.
 * Clocks hold the time of their last reset, and `now` stands for reading them.
 */
module ExoDemo {
  import opened Wrappers
  import opened Filters
  import opened Cue
  import opened Exo
  import opened Keyboard
  import opened Stages

  /** `trial_time`, in seconds. */
  const TrialTime: real := 1.0

  /** `target_time`, in seconds. */
  const TargetTime: real := 0.5

  /** Targets are drawn from `range(5)`. */
  const NumTargets: nat := 5

  /** Draws of `randint(0, 5)`. */
  predicate Draws(draws: seq<nat>) {
    forall i :: 0 <= i < |draws| ==> draws[i] < NumTargets
  }

  /** Some draw differs from `last`, so the redrawing loop stops. */
  predicate EndsRedraw(draws: seq<nat>, last: nat) {
    exists i :: 0 <= i < |draws| && draws[i] != last
  }

  /** The position of the first draw that differs from `last`. */
  function FirstOther(draws: seq<nat>, last: nat): (n: nat)
    requires EndsRedraw(draws, last)
    ensures n < |draws| && draws[n] != last
    ensures forall j :: 0 <= j < n ==> draws[j] == last
    decreases |draws|
  {
    if draws[0] != last then 0
    else
      assert EndsRedraw(draws[1..], last) by {
        var i :| 0 <= i < |draws| && draws[i] != last;
        assert draws[1..][i - 1] != last;
      }
      1 + FirstOther(draws[1..], last)
  }

  /**
   * The colour the trial's first press gives the target: fail for a key other
   * than the target, success for the target within TARGET_TIME of the trial's
   * start, and slow for the target later.
   */
  function Classify(pressed: nat, target: nat, elapsed: real): (c: Colour)
    ensures c == FailColour <==> pressed != target
    ensures c == SuccessColour <==> pressed == target && elapsed <= TargetTime
    ensures c == SlowColour <==> pressed == target && elapsed > TargetTime
  {
    if pressed != target then FailColour
    else if elapsed <= TargetTime then SuccessColour
    else SlowColour
  }

  /** The quit shortcut: `q`, which is not a key code, with `lctrl` as its only modifier. */
  predicate IsQuit(e: KeyEvent, codes: seq<string>) {
    e.key !in codes && e.key == "q" && e.modifiers == ["lctrl"]
  }

  /** The position of the first quit event, or the number of events when there is none. */
  function FirstQuit(events: seq<KeyEvent>, codes: seq<string>): (n: nat)
    ensures n <= |events|
    ensures forall j :: 0 <= j < n ==> !IsQuit(events[j], codes)
    ensures n < |events| ==> IsQuit(events[n], codes)
    decreases |events|
  {
    if events == [] then 0
    else if IsQuit(events[0], codes) then 0
    else 1 + FirstQuit(events[1..], codes)
  }

  class ExoDemoGame {
    const display: ExoDisplay

    var expRunning: bool
    /** The trial clock: the time of its last reset. */
    var trialClock: real
    var targetFinger: nat
    var fingerPressed: bool

    /** The display can show the demo: five keys at least, a key code per channel at most. */
    ghost predicate ConfigOk() {
      && 5 <= display.numActiveFingers
      && |DemoKeyCodes| <= display.numFingers
      && this !in display.FilterRepr
    }

    ghost predicate Valid()
      reads this
    {
      targetFinger < NumTargets
    }

    /** The demo on `display` at time `now`: stopped, the first key the target, nothing pressed. */
    constructor (display: ExoDisplay, now: real)
      requires display.Valid()
      requires 5 <= display.numActiveFingers && |DemoKeyCodes| <= display.numFingers
      ensures ConfigOk() && Valid()
      ensures this.display == display
      ensures !expRunning && trialClock == now && targetFinger == 0 && !fingerPressed
    {
      this.display := display;
      expRunning := false;
      trialClock := now;
      targetFinger := 0;
      fingerPressed := false;
    }

    /**
     * A new trial at time `now`, its target the first of `draws` that differs
     * from the last target: the clock reset, no press yet, every key idle but
     * the target, which is cued.
     */
    twostate predicate TrialReset(now: real, draws: seq<nat>)
      reads this, display.baseColours
    {
      && EndsRedraw(draws, old(targetFinger))
      && targetFinger == draws[FirstOther(draws, old(targetFinger))]
      && trialClock == now && !fingerPressed
      && forall k :: 0 <= k < display.baseColours.Length ==>
           display.baseColours[k] == if k == targetFinger then CueColour else KeyColour
    }

    /** `toggle_exp`: start or stop the demo, and begin a new trial either way. */
    method ToggleExp(now: real, draws: seq<nat>)
      requires ConfigOk() && Valid() && display.Valid()
      requires Draws(draws) && EndsRedraw(draws, targetFinger)
      modifies this, display.baseColours
      ensures Valid() && TrialReset(now, draws)
      ensures expRunning == !old(expRunning)
      ensures targetFinger != old(targetFinger)
    {
      expRunning := !expRunning;
      ResetTrial(now, draws);
    }

    /** `reset_trial`: redraw the target until it changes, then show it. */
    method ResetTrial(now: real, draws: seq<nat>)
      requires ConfigOk() && display.Valid()
      requires Draws(draws) && EndsRedraw(draws, targetFinger)
      modifies this, display.baseColours
      ensures Valid() && TrialReset(now, draws)
      ensures targetFinger != old(targetFinger)
      ensures expRunning == old(expRunning)
    {
      trialClock := now;
      var last := targetFinger;
      ghost var n := FirstOther(draws, last);
      var i := 0;
      while targetFinger == last
        invariant 0 <= i <= n + 1
        invariant i == 0 ==> targetFinger == last
        invariant i > 0 ==> targetFinger == draws[i - 1]
        invariant targetFinger == last <==> i <= n
        invariant trialClock == now && expRunning == old(expRunning)
        decreases |draws| - i
      {
        targetFinger := draws[i];
        i := i + 1;
      }
      fingerPressed := false;
      PaintKeys(display.baseColours, KeyColour);
      display.baseColours[targetFinger] := CueColour;
    }

    /**
     * `run_trial`: the trial's first press, judged by the lowest held key, paints
     * the target; later presses change nothing. After TRIAL_TIME a new trial begins.
     */
    method RunTrial(now: real, draws: seq<nat>)
      requires ConfigOk() && Valid() && display.Valid() && Draws(draws)
      requires now - trialClock > TrialTime ==> EndsRedraw(draws, targetFinger)
      modifies this, display.baseColours
      ensures Valid()
      ensures expRunning == old(expRunning)
      ensures now - old(trialClock) > TrialTime ==> TrialReset(now, draws)
      ensures !(now - old(trialClock) > TrialTime) ==>
                && targetFinger == old(targetFinger) && trialClock == old(trialClock)
                && fingerPressed == (old(fingerPressed) || true in display.keydowns[..])
                && (!old(fingerPressed) && true in display.keydowns[..] ==>
                      display.baseColours[..] == old(display.baseColours[..])[targetFinger :=
                        Classify(LowestSet(display.keydowns[..]), targetFinger, now - trialClock)])
                && (old(fingerPressed) || true !in display.keydowns[..] ==> unchanged(display.baseColours))
    {
      if true in display.keydowns[..] && !fingerPressed {
        fingerPressed := true;
        var pressedKey := LowestSet(display.keydowns[..]);
        display.baseColours[targetFinger] := Classify(pressedKey, targetFinger, now - trialClock);
      }
      if now - trialClock > TrialTime {
        ResetTrial(now, draws);
      }
    }

    /**
     * `check_keys`: the keyboard stand-in's events set and clear the spoofed key
     * states, in order, until a quit event, which ends the program.
     */
    method CheckKeys(events: seq<KeyEvent>) returns (quit: bool)
      requires ConfigOk() && display.Valid()
      modifies display.spoofKeydowns
      ensures quit <==> FirstQuit(events, DemoKeyCodes) < |events|
      ensures display.spoofKeydowns[..] ==
                ApplyKeyEvents(old(display.spoofKeydowns[..]), DemoKeyCodes, events[..FirstQuit(events, DemoKeyCodes)])
    {
      var spoof := display.spoofKeydowns;
      var k := 0;
      while k < |events|
        invariant 0 <= k <= FirstQuit(events, DemoKeyCodes)
        invariant spoof[..] == ApplyKeyEvents(old(spoof[..]), DemoKeyCodes, events[..k])
      {
        var e := events[k];
        if e.key in DemoKeyCodes {
          if e.kind == KeyboardPress {
            spoof[IndexOf(DemoKeyCodes, e.key)] := true;
          } else if e.kind == KeyboardRelease {
            spoof[IndexOf(DemoKeyCodes, e.key)] := false;
          }
        } else if e.key == "q" && |e.modifiers| == 1 {
          if e.modifiers[0] == "lctrl" {
            assert e.modifiers == ["lctrl"];
            return true;
          }
        }
        assert events[..k + 1][..k] == events[..k];
        k := k + 1;
      }
      assert events[..k] == events;
      return false;
    }

    /**
     * One pass of `run_main_loop` at time `now`: the keyboard stand-in's
     * `events` (read only without an exoskeleton), the sensor `position`, the
     * input update, then the trial while the demo runs. A quit event ends the
     * program at once; a filter error ends the frame after the input update.
     */
    method Frame(now: real, events: seq<KeyEvent>, position: seq<real>, draws: seq<nat>)
      returns (quit: bool, err: Option<InputError>)
      requires ConfigOk() && Valid() && display.Valid() && Draws(draws)
      requires now - trialClock > TrialTime ==> EndsRedraw(draws, targetFinger)
      requires display.exoActive ==> |position| == display.numFingers
      modifies this, display, display.spoofKeydowns, display.angleRaw, display.angleFilt, display.keydowns
      modifies display.newKeydowns, display.keyPositions, display.FilterRepr, display.baseColours
      ensures Valid() && display.Valid()
      ensures display.exoActive ==> !quit && unchanged(display.spoofKeydowns)
      ensures !display.exoActive ==>
                && (quit <==> FirstQuit(events, DemoKeyCodes) < |events|)
                && display.spoofKeydowns[..] ==
                     ApplyKeyEvents(old(display.spoofKeydowns[..]), DemoKeyCodes, events[..FirstQuit(events, DemoKeyCodes)])
      ensures quit || err.Some? || !old(expRunning) ==> unchanged(this)
      ensures quit ==> unchanged(display)
    {
      quit, err := false, None;
      if !display.exoActive {
        quit := CheckKeys(events);
        if quit {
          return;
        }
      }
      err := display.UpdateInputs(now, position);
      if err.Some? {
        return;
      }
      Advance(now, draws);
    }

    /** The trial step of `run_main_loop`, taken only while the demo runs: RunTrial's step, or nothing. */
    method Advance(now: real, draws: seq<nat>)
      requires ConfigOk() && Valid() && display.Valid() && Draws(draws)
      requires now - trialClock > TrialTime ==> EndsRedraw(draws, targetFinger)
      modifies this, display.baseColours
      ensures Valid() && display.Valid()
      ensures expRunning == old(expRunning)
      ensures !old(expRunning) ==> unchanged(this, display.baseColours)
      ensures old(expRunning) && now - old(trialClock) > TrialTime ==> TrialReset(now, draws)
      ensures old(expRunning) && !(now - old(trialClock) > TrialTime) ==>
                && targetFinger == old(targetFinger) && trialClock == old(trialClock)
                && fingerPressed == (old(fingerPressed) || true in display.keydowns[..])
                && (!old(fingerPressed) && true in display.keydowns[..] ==>
                      display.baseColours[..] == old(display.baseColours[..])[targetFinger :=
                        Classify(LowestSet(display.keydowns[..]), targetFinger, now - trialClock)])
                && (old(fingerPressed) || true !in display.keydowns[..] ==> unchanged(display.baseColours))
    {
      if expRunning {
        RunTrial(now, draws);
      }
    }
  }
}
