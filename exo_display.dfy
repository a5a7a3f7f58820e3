/**
 * `ExoDisplay` of ExoDisplay.py: per-channel input conditioning (range check,
 * optional filtering) and, per displayed key, the held level (`keydowns`) and the
 * latched rising edge (`new_keydowns`) that the games consume.
 *
 * The exoskeleton's sample vector is a parameter (`position`); with the keyboard
 * stand-in each channel reads a synthetic angle from `spoofKeydowns`. The clock is
 * replaced by the time `now` passed to each update.
 */
module Exo {
  import opened Wrappers
  import opened Filters
  import opened Cue

  /** The channel that feeds displayed key `finger`: itself for the left hand, `num_active_fingers` further on for the right. */
  function PhysicalFinger(hand: Hand, finger: nat, numActive: nat): nat {
    match hand
    case Left => finger
    case Right => finger + numActive
  }

  /** Left-hand keys read the first `numActive` channels, right-hand keys the next `numActive`. */
  lemma PhysicalFingerInRange(hand: Hand, finger: nat, numActive: nat, numFingers: nat)
    requires finger < numActive <= numFingers
    requires hand == Right ==> 2 * numActive <= numFingers
    ensures PhysicalFinger(hand, finger, numActive) < numFingers
    ensures hand == Left ==> PhysicalFinger(hand, finger, numActive) < numActive
    ensures hand == Right ==> numActive <= PhysicalFinger(hand, finger, numActive)
  {
  }

  /**
   * Channels grow with the key, so the first key without one is the right hand's
   * key num_fingers - num_active_fingers, reading the channel one past the last;
   * the hand then has too few channels, and no later key has one either.
   */
  lemma FirstMissingChannel(hand: Hand, finger: nat, numActive: nat, numFingers: nat)
    requires finger < numActive <= numFingers
    requires numFingers <= PhysicalFinger(hand, finger, numActive)
    requires 0 < finger ==> PhysicalFinger(hand, finger - 1, numActive) < numFingers
    ensures hand == Right && numFingers < 2 * numActive
    ensures finger == numFingers - numActive && PhysicalFinger(hand, finger, numActive) == numFingers
    ensures forall g :: finger <= g ==> numFingers <= PhysicalFinger(hand, g, numActive)
  {
  }

  /** When every key has a channel, the hand fits. */
  lemma AllChannelsPresent(hand: Hand, numActive: nat, numFingers: nat)
    requires forall f :: 0 <= f < numActive ==> PhysicalFinger(hand, f, numActive) < numFingers
    ensures hand == Right ==> 2 * numActive <= numFingers
  {
    if 0 < numActive && hand == Right {
      assert PhysicalFinger(hand, numActive - 1, numActive) < numFingers;
    }
  }

  /**
   * What ends `update_inputs` early: a filter's ValueError, or the IndexError of a
   * displayed key whose channel is past the last one.
   */
  datatype InputError = FilterFailed(cause: FilterError) | NoChannel(key: nat, channel: nat)

  /** A raw sample is kept only inside the valid range; otherwise the previous value stays. */
  function Accept(prev: real, input: real, lo: real, hi: real): real {
    if lo <= input && input <= hi then input else prev
  }

  function Min(a: real, b: real): real {
    if a <= b then a else b
  }

  function Max(a: real, b: real): real {
    if a <= b then b else a
  }

  /** `np.clip(a, a_min, a_max)`: `minimum(maximum(a, a_min), a_max)`. */
  function Clip(a: real, aMin: real, aMax: real): real {
    Min(Max(a, aMin), aMax)
  }

  /**
   * The source calls `np.clip(display_angle_min, angle, display_angle_max)`, with the
   * angle in the lower-bound slot. Between ordered bounds this is still the angle
   * clamped into [display_angle_min, display_angle_max].
   */
  lemma ClipClampsAngle(dMin: real, angle: real, dMax: real)
    requires dMin <= dMax
    ensures dMin <= Clip(dMin, angle, dMax) <= dMax
    ensures dMin <= angle <= dMax ==> Clip(dMin, angle, dMax) == angle
    ensures angle < dMin ==> Clip(dMin, angle, dMax) == dMin
    ensures dMax < angle ==> Clip(dMin, angle, dMax) == dMax
  {
  }

  /** The key position as the source computes it: the clamped angle over the range width, without subtracting the minimum. */
  function KeyPositionAsWritten(yMin: real, yMax: real, dMin: real, dMax: real, angle: real): real
    requires dMin != dMax
  {
    yMin + (yMax - yMin) * Clip(dMin, angle, dMax) / (dMax - dMin)
  }

  /** With a non-zero display_angle_min the resting key is drawn at the top of its travel. */
  lemma KeyPositionAsWrittenOffset()
    ensures KeyPositionAsWritten(0.0, 1.0, 10.0, 20.0, 10.0) == 1.0
    ensures KeyPositionAsWritten(0.0, 1.0, 10.0, 20.0, 20.0) == 2.0
  {
    assert Clip(10.0, 10.0, 20.0) == 10.0;
    assert Clip(10.0, 20.0, 20.0) == 20.0;
  }

  /** The key position with the minimum subtracted: the angle range maps onto [yMin, yMax]. */
  function KeyPosition(yMin: real, yMax: real, dMin: real, dMax: real, angle: real): real
    requires dMin != dMax
  {
    yMin + (yMax - yMin) * (Clip(dMin, angle, dMax) - dMin) / (dMax - dMin)
  }

  /** The corrected position runs from yMin at or below the minimum angle to yMax at or above the maximum. */
  lemma KeyPositionSpansRange(yMin: real, yMax: real, dMin: real, dMax: real, angle: real)
    requires dMin < dMax
    ensures angle <= dMin ==> KeyPosition(yMin, yMax, dMin, dMax, angle) == yMin
    ensures dMax <= angle ==> KeyPosition(yMin, yMax, dMin, dMax, angle) == yMax
    ensures yMin <= yMax ==> yMin <= KeyPosition(yMin, yMax, dMin, dMax, angle) <= yMax
  {
    ClipClampsAngle(dMin, angle, dMax);
    var num, den := Clip(dMin, angle, dMax) - dMin, dMax - dMin;
    var t := num / den;
    FractionInUnit(num, den);
    assert (yMax - yMin) * num / den == (yMax - yMin) * t;
    if yMin <= yMax {
      MulLe(0.0, t, yMax - yMin);
      MulLe(t, 1.0, yMax - yMin);
    }
    if angle <= dMin {
      assert num == 0.0;
    }
    if dMax <= angle {
      assert num == den;
    }
  }

  /** With reversed bounds the clip always yields display_angle_max, so the corrected position stays at yMax. */
  lemma KeyPositionReversed(yMin: real, yMax: real, dMin: real, dMax: real, angle: real)
    requires dMax < dMin
    ensures Clip(dMin, angle, dMax) == dMax
    ensures KeyPosition(yMin, yMax, dMin, dMax, angle) == yMax
  {
  }

  lemma FractionInUnit(num: real, den: real)
    requires 0.0 <= num <= den && 0.0 < den
    ensures 0.0 <= num / den <= 1.0
  {
    var t := num / den;
    assert t * den == num;
    if t < 0.0 {
      assert false;
    }
    if t > 1.0 {
      MulLe(1.0, t, den);
    }
  }

  /** The two formulas agree exactly when display_angle_min is zero. */
  lemma KeyPositionAgreesAtZeroMin(yMin: real, yMax: real, dMax: real, angle: real)
    requires dMax != 0.0
    ensures KeyPositionAsWritten(yMin, yMax, 0.0, dMax, angle) == KeyPosition(yMin, yMax, 0.0, dMax, angle)
  {
  }

  /** Every channel owns a valid filter of its own, and no two filters share state. */
  ghost predicate FiltersOwn(fs: seq<OneEuroFilter>, repr: set<object>)
    reads repr
  {
    && (forall i :: 0 <= i < |fs| ==> fs[i] in repr && fs[i].Repr <= repr && fs[i].Valid())
    && (forall i, j :: 0 <= i < j < |fs| ==> fs[i].Repr !! fs[j].Repr)
  }

  /** A filter built from `filter_config`: its parameters, and its inner filters' alphas at the dummy frequency 120. */
  ghost predicate Configured(f: OneEuroFilter, mincutoff: real, beta: real, dcutoff: real, alphaOf: (real, real) -> real)
    reads f.x, f.dx
  {
    && f.mincutoff == mincutoff && f.beta == beta && f.dcutoff == dcutoff && f.alphaOf == alphaOf
    && f.x.alpha == alphaOf(120.0, mincutoff) && f.dx.alpha == alphaOf(120.0, dcutoff)
  }

  /**
   * `[OneEuroFilter(**filter_config) for filt in range(num_fingers)]`, with the dummy
   * frequency 120: the first filter built raises on a bad `filter_config`, so no
   * display is made; with no channels no filter is built and nothing raises.
   */
  method NewFilters(n: nat, mincutoff: real, beta: real, dcutoff: real, alphaOf: (real, real) -> real)
    returns (r: Result<seq<OneEuroFilter>, FilterError>, ghost repr: set<object>)
    ensures r.Err? <==> 0 < n && ConfigError(120.0, mincutoff, beta, dcutoff, alphaOf).Some?
    ensures r.Err? ==> r.error == ConfigError(120.0, mincutoff, beta, dcutoff, alphaOf).value
    ensures r.Ok? ==> |r.value| == n && fresh(repr) && FiltersOwn(r.value, repr)
    ensures r.Ok? ==> forall i :: 0 <= i < n ==>
              r.value[i].freq == 120.0 && r.value[i].x.y == None && r.value[i].dx.y == None
    ensures r.Ok? ==> forall i :: 0 <= i < n ==> Configured(r.value[i], mincutoff, beta, dcutoff, alphaOf)
  {
    repr := {};
    var e := ConfigError(120.0, mincutoff, beta, dcutoff, alphaOf);
    if 0 < n && e.Some? {
      return Err(e.value), repr;
    }
    var fs := [];
    while |fs| < n
      invariant |fs| <= n && fresh(repr) && FiltersOwn(fs, repr)
      invariant forall i :: 0 <= i < |fs| ==> fs[i].freq == 120.0 && fs[i].x.y == None && fs[i].dx.y == None
      invariant forall i :: 0 <= i < |fs| ==> Configured(fs[i], mincutoff, beta, dcutoff, alphaOf)
    {
      var f := new OneEuroFilter(120.0, mincutoff, beta, dcutoff, alphaOf);
      fs, repr := fs + [f], repr + f.Repr;
    }
    r := Ok(fs);
  }

  /**
   * The buffers of `__init__`: per channel the raw and filtered angles (zero) and
   * the spoofed, held and newly pressed flags (false); per displayed key its base
   * colour and the vertical position of its top (`key_base_ypos`).
   */
  method NewBuffers(numFingers: nat, numActiveFingers: nat, baseYpos: real)
    returns (angleRaw: array<real>, angleFilt: array<real>, spoofKeydowns: array<bool>, keydowns: array<bool>,
             newKeydowns: array<bool>, baseColours: array<Colour>, keyPositions: array<real>)
    ensures fresh(angleRaw) && fresh(angleFilt) && fresh(spoofKeydowns) && fresh(keydowns)
    ensures fresh(newKeydowns) && fresh(baseColours) && fresh(keyPositions)
    ensures angleRaw != angleFilt && angleRaw != keyPositions && angleFilt != keyPositions
    ensures spoofKeydowns != keydowns && spoofKeydowns != newKeydowns && keydowns != newKeydowns
    ensures angleRaw.Length == numFingers && angleFilt.Length == numFingers && spoofKeydowns.Length == numFingers
    ensures keydowns.Length == numFingers && newKeydowns.Length == numFingers
    ensures baseColours.Length == numActiveFingers && keyPositions.Length == numActiveFingers
    ensures forall f :: 0 <= f < numFingers ==>
              !keydowns[f] && !newKeydowns[f] && !spoofKeydowns[f] && angleRaw[f] == 0.0 && angleFilt[f] == 0.0
    ensures forall k :: 0 <= k < numActiveFingers ==> baseColours[k] == KeyColour && keyPositions[k] == baseYpos
  {
    angleRaw := new real[numFingers](_ => 0.0);
    angleFilt := new real[numFingers](_ => 0.0);
    spoofKeydowns := new bool[numFingers](_ => false);
    keydowns := new bool[numFingers](_ => false);
    newKeydowns := new bool[numFingers](_ => false);
    baseColours := new Colour[numActiveFingers](_ => KeyColour);
    keyPositions := new real[numActiveFingers](_ => baseYpos);
  }

  class ExoDisplay {
    const numFingers: nat
    const numActiveFingers: nat
    const yposMin: real
    const yposMax: real
    const displayAngleMin: real
    const displayAngleMax: real
    const validAngleMin: real
    const validAngleMax: real
    const exoActive: bool
    const cueDisplay: CueDisplay
    const angleRaw: array<real>
    const angleFilt: array<real>
    const spoofKeydowns: array<bool>
    const keydowns: array<bool>
    const newKeydowns: array<bool>
    /** The base colour of each displayed key (`KeyDisplay.setBaseColor`). */
    const baseColours: array<Colour>
    /** The vertical position of each displayed key (`KeyDisplay.setPos`). */
    const keyPositions: array<real>
    const filters: seq<OneEuroFilter>
    ghost const FilterRepr: set<object>
    var filterBool: bool
    var lastTime: real
    var timePassed: real

    /** Sizes and separation of the buffers, fixed at construction. */
    ghost predicate Shape() {
      && numActiveFingers <= numFingers
      && displayAngleMin != displayAngleMax
      && angleRaw.Length == numFingers && angleFilt.Length == numFingers
      && spoofKeydowns.Length == numFingers && keydowns.Length == numFingers
      && newKeydowns.Length == numFingers
      && baseColours.Length == numActiveFingers && keyPositions.Length == numActiveFingers
      && angleRaw != angleFilt && angleRaw != keyPositions && angleFilt != keyPositions
      && spoofKeydowns != keydowns && spoofKeydowns != newKeydowns && keydowns != newKeydowns
      && |filters| == numFingers
      && this !in FilterRepr && cueDisplay !in FilterRepr && baseColours !in FilterRepr
      && angleRaw !in FilterRepr && angleFilt !in FilterRepr && keyPositions !in FilterRepr
      && spoofKeydowns !in FilterRepr && keydowns !in FilterRepr && newKeydowns !in FilterRepr
    }

    ghost predicate Valid()
      reads keydowns, newKeydowns, FilterRepr
    {
      && Shape()
      && FiltersOwn(filters, FilterRepr)
      // only displayed keys ever register a press
      && (forall f :: numActiveFingers <= f < numFingers ==> !keydowns[f] && !newKeydowns[f])
    }

    /** The right hand's keys read channels numActiveFingers.., which exist only if there are twice as many channels. */
    predicate HandFits()
      reads cueDisplay
    {
      cueDisplay.activeHand == Right ==> 2 * numActiveFingers <= numFingers
    }

    constructor (numFingers: nat, numActiveFingers: nat, yposMin: real, yposMax: real, baseYpos: real,
                 displayAngleMin: real, displayAngleMax: real,
                 validAngleMin: real, validAngleMax: real, exoActive: bool, useFilter: bool,
                 now: real, mincutoff: real, beta: real, dcutoff: real, alphaOf: (real, real) -> real)
      requires numActiveFingers <= numFingers && displayAngleMin != displayAngleMax
      requires 0 < numFingers ==> ConfigError(120.0, mincutoff, beta, dcutoff, alphaOf).None?
      ensures Valid() && fresh(FilterRepr)
      ensures fresh(cueDisplay) && fresh(angleRaw) && fresh(angleFilt) && fresh(spoofKeydowns)
      ensures fresh(keydowns) && fresh(newKeydowns) && fresh(baseColours) && fresh(keyPositions)
      ensures this.numFingers == numFingers && this.numActiveFingers == numActiveFingers
      ensures this.exoActive == exoActive && filterBool == useFilter && lastTime == now && timePassed == 0.0
      ensures cueDisplay.activeHand == Left && cueDisplay.text == ""
      ensures forall f :: 0 <= f < numFingers ==>
                !keydowns[f] && !newKeydowns[f] && !spoofKeydowns[f] && angleRaw[f] == 0.0 && angleFilt[f] == 0.0
      ensures forall k :: 0 <= k < numActiveFingers ==> baseColours[k] == KeyColour && keyPositions[k] == baseYpos
      ensures forall f :: 0 <= f < numFingers ==> filters[f].freq == 120.0 && filters[f].x.y == None
      ensures forall f :: 0 <= f < numFingers ==> Configured(filters[f], mincutoff, beta, dcutoff, alphaOf)
      ensures this.yposMin == yposMin && this.yposMax == yposMax
      ensures this.displayAngleMin == displayAngleMin && this.displayAngleMax == displayAngleMax
      ensures this.validAngleMin == validAngleMin && this.validAngleMax == validAngleMax
    {
      this.numFingers := numFingers;
      this.numActiveFingers := numActiveFingers;
      this.yposMin := yposMin;
      this.yposMax := yposMax;
      this.displayAngleMin := displayAngleMin;
      this.displayAngleMax := displayAngleMax;
      this.validAngleMin := validAngleMin;
      this.validAngleMax := validAngleMax;
      this.exoActive := exoActive;
      var made;
      ghost var repr;
      made, repr := NewFilters(numFingers, mincutoff, beta, dcutoff, alphaOf);
      filters := made.value;
      FilterRepr := repr;
      cueDisplay := new CueDisplay();
      var ar, af, sk, kd, nk, bc, kp := NewBuffers(numFingers, numActiveFingers, baseYpos);
      angleRaw, angleFilt, spoofKeydowns, keydowns, newKeydowns := ar, af, sk, kd, nk;
      baseColours, keyPositions := bc, kp;

      filterBool := useFilter;
      lastTime := now;
      timePassed := 0.0;
    }

    /** `ExoDisplay(...)` with the filters' checks: a bad `filter_config` raises before any display exists. */
    static method Create(numFingers: nat, numActiveFingers: nat, yposMin: real, yposMax: real, baseYpos: real,
                         displayAngleMin: real, displayAngleMax: real,
                         validAngleMin: real, validAngleMax: real, exoActive: bool, useFilter: bool,
                         now: real, mincutoff: real, beta: real, dcutoff: real, alphaOf: (real, real) -> real)
      returns (r: Result<ExoDisplay, FilterError>)
      requires numActiveFingers <= numFingers && displayAngleMin != displayAngleMax
      ensures r.Err? <==> 0 < numFingers && ConfigError(120.0, mincutoff, beta, dcutoff, alphaOf).Some?
      ensures r.Err? ==> r.error == ConfigError(120.0, mincutoff, beta, dcutoff, alphaOf).value
      ensures r.Ok? ==> fresh(r.value) && r.value.Valid() && fresh(r.value.FilterRepr) && fresh(r.value.cueDisplay)
      ensures r.Ok? ==> r.value.numFingers == numFingers && r.value.numActiveFingers == numActiveFingers
      ensures r.Ok? ==> r.value.exoActive == exoActive && r.value.filterBool == useFilter && r.value.lastTime == now
      ensures r.Ok? ==> r.value.yposMin == yposMin && r.value.yposMax == yposMax
      ensures r.Ok? ==> r.value.displayAngleMin == displayAngleMin && r.value.displayAngleMax == displayAngleMax
      ensures r.Ok? ==> r.value.validAngleMin == validAngleMin && r.value.validAngleMax == validAngleMax
      ensures r.Ok? ==> r.value.cueDisplay.activeHand == Left
      ensures r.Ok? ==> forall f :: 0 <= f < numFingers ==>
                Configured(r.value.filters[f], mincutoff, beta, dcutoff, alphaOf)
    {
      var e := ConfigError(120.0, mincutoff, beta, dcutoff, alphaOf);
      if 0 < numFingers && e.Some? {
        return Err(e.value);
      }
      var d := new ExoDisplay(numFingers, numActiveFingers, yposMin, yposMax, baseYpos, displayAngleMin, displayAngleMax,
                              validAngleMin, validAngleMax, exoActive, useFilter, now, mincutoff, beta, dcutoff, alphaOf);
      return Ok(d);
    }

    method ToggleFilter()
      modifies this
      ensures filterBool == !old(filterBool)
      ensures lastTime == old(lastTime) && timePassed == old(timePassed)
    {
      filterBool := !filterBool;
    }

    /** The sample a channel reads: the sensor's, or the keyboard stand-in's synthetic angle. */
    function RawInput(f: nat, position: seq<real>): real
      reads spoofKeydowns
      requires f < spoofKeydowns.Length && (exoActive ==> f < |position|)
    {
      if exoActive then position[f]
      else if spoofKeydowns[f] then 1.1 * displayAngleMax
      else displayAngleMin
    }

    /** After a completed update, channel f's output is what its filter holds, or its raw angle when filtering is off. */
    ghost predicate FilteredAs(f: nat)
      reads this, angleRaw, angleFilt, filters[f].x
      requires f < |filters| && f < angleRaw.Length && f < angleFilt.Length
    {
      if filterBool then
        filters[f].x.y == Some(angleRaw[f]) && filters[f].x.s == Some(angleFilt[f])
      else
        angleFilt[f] == angleRaw[f]
    }

    /**
     * What channel f's filter yields for the channel's current raw angle, from
     * the filter's state in the earlier of the two states.
     */
    twostate function ChannelStep(f: nat): Result<real, FilterError>
      reads this, angleRaw, filters[f]
      requires f < |filters| && f < angleRaw.Length
    {
      var flt := filters[f];
      EuroStep(old(flt.freq), old(flt.x.y), old(flt.x.s), old(flt.dx.s), flt.mincutoff, flt.beta, flt.dcutoff,
               flt.alphaOf, angleRaw[f], timePassed)
    }

    /** The filtered angle that drives displayed key f under the active hand. */
    function KeyAngle(f: nat): real
      reads cueDisplay, angleFilt
      requires Shape() && f < numActiveFingers && PhysicalFinger(cueDisplay.activeHand, f, numActiveFingers) < numFingers
    {
      angleFilt[PhysicalFinger(cueDisplay.activeHand, f, numActiveFingers)]
    }

    /** The range check of one pass of the first loop of `update_inputs`: channel `finger` keeps its sample only inside the valid range. */
    method ReadChannel(finger: nat, position: seq<real>)
      requires Shape() && finger < numFingers
      requires exoActive ==> |position| == numFingers
      modifies angleRaw
      ensures angleRaw[..] == old(angleRaw[..])[finger := Accept(old(angleRaw[finger]), RawInput(finger, position),
                                                                 validAngleMin, validAngleMax)]
    {
      var inputRaw: real;
      if exoActive {
        inputRaw := position[finger];
      } else if spoofKeydowns[finger] {
        inputRaw := 1.1 * displayAngleMax;
      } else {
        inputRaw := displayAngleMin;
      }
      if validAngleMin <= inputRaw && inputRaw <= validAngleMax {
        angleRaw[finger] := inputRaw;
      }
    }

    /** The filtering of one pass of the first loop of `update_inputs`: channel `finger`'s output, through its filter when filtering is on. */
    method FilterChannel(finger: nat) returns (err: Option<FilterError>)
      requires Valid() && finger < numFingers
      modifies angleFilt, filters[finger].Repr
      ensures Valid()
      ensures forall f :: 0 <= f < numFingers && f != finger ==>
                && angleFilt[f] == old(angleFilt[f]) && filters[f].freq == old(filters[f].freq)
                && filters[f].x.y == old(filters[f].x.y) && filters[f].x.s == old(filters[f].x.s)
                && filters[f].dx.s == old(filters[f].dx.s)
      ensures !filterBool ==> err.None? && unchanged(FilterRepr)
      ensures filterBool ==> (err.None? <==> ChannelStep(finger).Ok?)
      ensures filterBool && err.Some? ==> err.value == ChannelStep(finger).error
      ensures filterBool && err.None? ==> angleFilt[finger] == ChannelStep(finger).value
      ensures err.None? ==> FilteredAs(finger)
      ensures err.None? && filterBool ==> filters[finger].freq == NextFreq(old(filters[finger].freq), timePassed)
    {
      if filterBool {
        var out := filters[finger].Call(angleRaw[finger], timePassed);
        // the call changed only this filter's state, so the others stay valid
        forall i | 0 <= i < |filters| && i != finger
          ensures filters[i].Valid()
        {
          assert old(filters[i].Valid());
          assert filters[i].Repr !! filters[finger].Repr;
        }
        if out.Err? {
          return Some(out.error);
        }
        angleFilt[finger] := out.value;
      } else {
        angleFilt[finger] := angleRaw[finger];
      }
      err := None;
    }

    /**
     * Displayed key f after its pass of the second loop of `update_inputs`: placed
     * by its channel's angle, held exactly when that angle reaches
     * display_angle_max, and its rising edge latched.
     */
    twostate predicate KeyDerived(f: nat)
      reads cueDisplay, angleFilt, keydowns, newKeydowns, keyPositions
      requires Shape() && f < numActiveFingers && PhysicalFinger(cueDisplay.activeHand, f, numActiveFingers) < numFingers
    {
      && keydowns[f] == (KeyAngle(f) >= displayAngleMax)
      && newKeydowns[f] == (old(newKeydowns[f]) || (KeyAngle(f) >= displayAngleMax && !old(keydowns[f])))
      && keyPositions[f] == KeyPosition(yposMin, yposMax, displayAngleMin, displayAngleMax, KeyAngle(f))
    }

    /** After the second loop: every key whose channel exists is derived from it; the others are as they were. */
    twostate predicate KeysDerived()
      reads cueDisplay, angleFilt, keydowns, newKeydowns, keyPositions
      requires Shape()
    {
      forall f :: 0 <= f < numActiveFingers ==>
        if PhysicalFinger(cueDisplay.activeHand, f, numActiveFingers) < numFingers then KeyDerived(f)
        else keydowns[f] == old(keydowns[f]) && newKeydowns[f] == old(newKeydowns[f]) && keyPositions[f] == old(keyPositions[f])
    }

    /**
     * One pass of the second loop of `update_inputs`: position, level and rising
     * edge of displayed key `finger`; reading a channel past the last raises.
     */
    method UpdateKey(finger: nat) returns (err: Option<InputError>)
      requires Valid() && finger < numActiveFingers
      modifies keydowns, newKeydowns, keyPositions
      ensures Valid()
      ensures err.Some? <==> numFingers <= PhysicalFinger(cueDisplay.activeHand, finger, numActiveFingers)
      ensures err.Some? ==> err.value == NoChannel(finger, PhysicalFinger(cueDisplay.activeHand, finger, numActiveFingers))
      ensures err.Some? ==> unchanged(keydowns, newKeydowns, keyPositions)
      ensures err.None? ==> KeyDerived(finger)
      ensures err.None? && displayAngleMin < displayAngleMax && KeyAngle(finger) <= displayAngleMin ==>
                keyPositions[finger] == yposMin
      ensures err.None? && displayAngleMin < displayAngleMax && displayAngleMax <= KeyAngle(finger) ==>
                keyPositions[finger] == yposMax
      ensures err.None? && displayAngleMin < displayAngleMax && yposMin <= yposMax ==>
                yposMin <= keyPositions[finger] <= yposMax
      ensures err.None? && displayAngleMax < displayAngleMin ==> keyPositions[finger] == yposMax
      ensures forall f :: 0 <= f < numFingers && f != finger ==>
                keydowns[f] == old(keydowns[f]) && newKeydowns[f] == old(newKeydowns[f])
      ensures forall f :: 0 <= f < numActiveFingers && f != finger ==> keyPositions[f] == old(keyPositions[f])
    {
      var physical := PhysicalFinger(cueDisplay.activeHand, finger, numActiveFingers);
      if numFingers <= physical {
        return Some(NoChannel(finger, physical));
      }
      if displayAngleMin < displayAngleMax {
        KeyPositionSpansRange(yposMin, yposMax, displayAngleMin, displayAngleMax, angleFilt[physical]);
      } else {
        KeyPositionReversed(yposMin, yposMax, displayAngleMin, displayAngleMax, angleFilt[physical]);
      }
      keyPositions[finger] :=
        KeyPosition(yposMin, yposMax, displayAngleMin, displayAngleMax, angleFilt[physical]);
      if angleFilt[physical] >= displayAngleMax {
        if !keydowns[finger] {
          newKeydowns[finger] := true;
        }
        keydowns[finger] := true;
      } else {
        keydowns[finger] := false;
      }
      err := None;
    }

    /**
     * Every channel after the first loop of `update_inputs`, against the state
     * before it: its sample kept only inside the valid range, and its output its
     * filter's one-euro step (or its raw angle when filtering is off).
     */
    twostate predicate ChannelsConditioned(position: seq<real>)
      reads this, angleRaw, angleFilt, spoofKeydowns, FilterRepr
      requires Shape() && FiltersOwn(filters, FilterRepr) && (exoActive ==> |position| == numFingers)
    {
      forall f :: 0 <= f < numFingers ==>
        && angleRaw[f] == Accept(old(angleRaw[f]), RawInput(f, position), validAngleMin, validAngleMax)
        && FilteredAs(f)
        && (filterBool ==> ChannelStep(f) == Ok(angleFilt[f]))
        && (filterBool ==> filters[f].freq == NextFreq(old(filters[f].freq), timePassed))
    }

    /** One pass of the first loop of `update_inputs`: range check, then filtering, of channel `finger`. */
    method ConditionChannel(finger: nat, position: seq<real>) returns (err: Option<FilterError>)
      requires Valid() && finger < numFingers
      requires exoActive ==> |position| == numFingers
      modifies angleRaw, angleFilt, filters[finger].Repr
      ensures Valid()
      ensures !filterBool ==> err.None? && unchanged(FilterRepr)
      ensures angleRaw[finger] == Accept(old(angleRaw[finger]), RawInput(finger, position), validAngleMin, validAngleMax)
      ensures filterBool ==> (err.None? <==> ChannelStep(finger).Ok?)
      ensures filterBool && err.Some? ==> err.value == ChannelStep(finger).error
      ensures err.None? ==> FilteredAs(finger)
      ensures err.None? && filterBool ==>
                && angleFilt[finger] == ChannelStep(finger).value
                && filters[finger].freq == NextFreq(old(filters[finger].freq), timePassed)
      ensures forall f :: 0 <= f < numFingers && f != finger ==>
                && angleRaw[f] == old(angleRaw[f]) && angleFilt[f] == old(angleFilt[f])
                && filters[f].freq == old(filters[f].freq) && filters[f].dx.s == old(filters[f].dx.s)
                && filters[f].x.y == old(filters[f].x.y) && filters[f].x.s == old(filters[f].x.s)
    {
      ReadChannel(finger, position);
      err := FilterChannel(finger);
    }

    /** The first loop of `update_inputs`: condition every channel in turn; a filter that raises ends the loop. */
    method ConditionChannels(position: seq<real>) returns (err: Option<FilterError>)
      requires Valid()
      requires exoActive ==> |position| == numFingers
      modifies angleRaw, angleFilt, FilterRepr
      ensures Valid()
      ensures !filterBool ==> err.None? && unchanged(FilterRepr)
      ensures err.None? ==> ChannelsConditioned(position)
      ensures err.Some? ==> exists f :: 0 <= f < numFingers && ChannelStep(f) == Err(err.value)
    {
      err := None;
      var finger := 0;
      while finger < numFingers
        invariant 0 <= finger <= numFingers
        invariant Valid()
        invariant !filterBool ==> unchanged(FilterRepr)
        invariant err.None?
        invariant forall f :: 0 <= f < finger ==>
                    && angleRaw[f] == Accept(old(angleRaw[f]), RawInput(f, position), validAngleMin, validAngleMax)
                    && FilteredAs(f)
                    && (filterBool ==> ChannelStep(f) == Ok(angleFilt[f]))
                    && (filterBool ==> filters[f].freq == NextFreq(old(filters[f].freq), timePassed))
        invariant forall f :: finger <= f < numFingers ==>
                    && angleRaw[f] == old(angleRaw[f]) && filters[f].freq == old(filters[f].freq)
                    && filters[f].x.y == old(filters[f].x.y) && filters[f].x.s == old(filters[f].x.s)
                    && filters[f].dx.s == old(filters[f].dx.s)
      {
        label pass:
        err := ConditionChannel(finger, position);
        // the channel was untouched until this pass, so its state at the pass is its state on entry
        assert old@pass(angleRaw[finger]) == old(angleRaw[finger]);
        assert old@pass(filters[finger].freq) == old(filters[finger].freq);
        assert old@pass(filters[finger].x.y) == old(filters[finger].x.y);
        assert old@pass(filters[finger].x.s) == old(filters[finger].x.s);
        assert old@pass(filters[finger].dx.s) == old(filters[finger].dx.s);
        if err.Some? {
          assert ChannelStep(finger) == Err(err.value);
          return;
        }
        finger := finger + 1;
      }
    }

    /**
     * The second loop of `update_inputs`: each displayed key's position, level and
     * latched rising edge. The right hand's first key past the last channel raises,
     * which happens exactly when the hand does not fit.
     */
    method UpdateKeys() returns (err: Option<InputError>)
      requires Valid()
      modifies keydowns, newKeydowns, keyPositions
      ensures Valid()
      ensures err.None? <==> HandFits()
      ensures err.Some? ==> err.value == NoChannel(numFingers - numActiveFingers, numFingers)
      ensures KeysDerived()
    {
      err := None;
      var finger := 0;
      while finger < numActiveFingers
        invariant 0 <= finger <= numActiveFingers
        invariant Valid() && err.None?
        invariant forall f :: 0 <= f < finger ==> PhysicalFinger(cueDisplay.activeHand, f, numActiveFingers) < numFingers
        invariant forall f :: 0 <= f < finger ==>
                    && keydowns[f] == (KeyAngle(f) >= displayAngleMax)
                    && newKeydowns[f] == (old(newKeydowns[f]) || (KeyAngle(f) >= displayAngleMax && !old(keydowns[f])))
                    && keyPositions[f] == KeyPosition(yposMin, yposMax, displayAngleMin, displayAngleMax, KeyAngle(f))
        invariant forall f :: finger <= f < numFingers ==>
                    keydowns[f] == old(keydowns[f]) && newKeydowns[f] == old(newKeydowns[f])
        invariant forall f :: finger <= f < numActiveFingers ==> keyPositions[f] == old(keyPositions[f])
      {
        err := UpdateKey(finger);
        if err.Some? {
          FirstMissingChannel(cueDisplay.activeHand, finger, numActiveFingers, numFingers);
          return;
        }
        finger := finger + 1;
      }
      AllChannelsPresent(cueDisplay.activeHand, numActiveFingers, numFingers);
    }

    /**
     * `update_inputs`: condition every channel, then derive each displayed key's
     * level and latched rising edge from its channel's filtered angle. A filter
     * that raises ends the update where it stands, before any key; a key whose
     * channel is missing raises during the second loop.
     */
    method UpdateInputs(now: real, position: seq<real>) returns (err: Option<InputError>)
      requires Valid()
      requires exoActive ==> |position| == numFingers
      modifies this, angleRaw, angleFilt, keydowns, newKeydowns, keyPositions, FilterRepr
      ensures Valid()
      ensures timePassed == now - old(lastTime) && lastTime == now && filterBool == old(filterBool)
      ensures !filterBool ==> unchanged(FilterRepr) && !(err.Some? && err.value.FilterFailed?)
      ensures err.Some? && err.value.FilterFailed? ==>
                && (exists f :: 0 <= f < numFingers && ChannelStep(f) == Err(err.value.cause))
                && unchanged(keydowns, newKeydowns, keyPositions)
      ensures !(err.Some? && err.value.FilterFailed?) ==>
                && ChannelsConditioned(position)
                && KeysDerived()
                && (err.None? <==> HandFits())
      ensures err.Some? && err.value.NoChannel? ==> err.value == NoChannel(numFingers - numActiveFingers, numFingers)
    {
      var newTime := now;
      timePassed := newTime - lastTime;
      lastTime := newTime;
      label conditioning:
      var filterErr := ConditionChannels(position);
      if filterErr.Some? {
        // the filters are as they were on entry, so the failing channel's step is the same from either state
        ghost var f :| 0 <= f < numFingers && ChannelStep@conditioning(f) == Err(filterErr.value);
        assert ChannelStep(f) == ChannelStep@conditioning(f);
        return Some(FilterFailed(filterErr.value));
      }
      err := UpdateKeys();
    }
  }
}
