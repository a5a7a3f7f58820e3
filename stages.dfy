/**
 * Pieces the three games share: their stage names, the cue label, and the
 * numpy idioms they apply to the key arrays (`np.where(...)[0][0]` for the lowest
 * set flag, `sum` over a boolean array, painting every key one colour).
 */
module Stages {
  import opened Cue

  /** `exp_stage`: waiting for the start gesture, running trials, or quit. */
  datatype ExpStage = WaitStage | RunStage | QuitStage

  /** `trial_stage`: 'cue', 'press', 'feedback' or 'iti'. */
  datatype TrialStage = CueStage | PressStage | FeedbackStage | ItiStage

  /** `np.full(n, False)`. */
  function Falses(n: nat): (r: seq<bool>)
    ensures |r| == n && forall i :: 0 <= i < n ==> !r[i]
  {
    seq(n, _ => false)
  }

  /** Flags set before, or held now. */
  function Latched(pressed: seq<bool>, held: seq<bool>): (r: seq<bool>)
    requires |pressed| == |held|
    ensures |r| == |pressed|
    ensures forall f :: 0 <= f < |r| ==> r[f] == (pressed[f] || held[f])
  {
    seq(|pressed|, f requires 0 <= f < |pressed| => pressed[f] || held[f])
  }

  /** `exp_stage`, `trial_stage`, and the trial clock (the time of its last reset). */
  datatype Stage = Stage(exp: ExpStage, trial: TrialStage, clock: real)

  /** The lowest index whose flag is set. */
  function LowestSet(flags: seq<bool>): (i: nat)
    requires true in flags
    ensures i < |flags| && flags[i]
    ensures forall j :: 0 <= j < i ==> !flags[j]
  {
    if flags[0] then 0
    else
      assert flags == [flags[0]] + flags[1..];
      1 + LowestSet(flags[1..])
  }

  /** `sum(flags)`: how many flags are set. */
  function CountTrue(flags: seq<bool>): (n: nat)
    ensures n <= |flags|
    decreases |flags|
  {
    if flags == [] then 0
    else CountTrue(flags[..|flags| - 1]) + (if flags[|flags| - 1] then 1 else 0)
  }

  /** All flags are set exactly when the count equals the length. */
  lemma {:induction false} CountTrueAll(flags: seq<bool>)
    ensures CountTrue(flags) == |flags| <==> forall j :: 0 <= j < |flags| ==> flags[j]
    decreases |flags|
  {
    if flags != [] {
      var init := flags[..|flags| - 1];
      CountTrueAll(init);
      if CountTrue(flags) == |flags| {
        forall j | 0 <= j < |flags|
          ensures flags[j]
        {
          if j < |init| {
            assert flags[j] == init[j];
          }
        }
      }
    }
  }

  /** Unset flags at the end do not add to the count. */
  lemma {:induction false} CountTrueUnsetTail(flags: seq<bool>, m: nat)
    requires m <= |flags|
    requires forall j :: m <= j < |flags| ==> !flags[j]
    ensures CountTrue(flags) == CountTrue(flags[..m])
    decreases |flags|
  {
    if |flags| > m {
      var init := flags[..|flags| - 1];
      assert init[..m] == flags[..m];
      CountTrueUnsetTail(init, m);
      assert !flags[|flags| - 1];
      assert CountTrue(flags) == CountTrue(init);
    } else {
      assert flags[..m] == flags;
    }
  }

  /**
   * When only the first m flags can be set, at least m are set exactly when
   * all of the first m are set.
   */
  lemma CountReachesPrefix(flags: seq<bool>, m: nat)
    requires m <= |flags|
    requires forall j :: m <= j < |flags| ==> !flags[j]
    ensures CountTrue(flags) >= m <==> forall j :: 0 <= j < m ==> flags[j]
  {
    CountTrueUnsetTail(flags, m);
    CountTrueAll(flags[..m]);
    assert forall j :: 0 <= j < m ==> flags[..m][j] == flags[j];
  }

  /** The decimal digit for d < 10. */
  function DigitChar(d: nat): char
    requires d < 10
  {
    ('0' as int + d) as char
  }

  /** The decimal numeral of n. */
  function Decimal(n: nat): (s: string)
    ensures |s| > 0
  {
    if n < 10 then [DigitChar(n)] else Decimal(n / 10) + [DigitChar(n % 10)]
  }

  /** The cue label: the keys numbered from 1, separated by single spaces. */
  function CueLabel(keys: seq<nat>): string
  {
    if keys == [] then ""
    else if |keys| == 1 then Decimal(keys[0] + 1)
    else Decimal(keys[0] + 1) + " " + CueLabel(keys[1..])
  }

  /**
   * For keys below 9 every number is one digit, so the label holds the i-th key,
   * numbered from 1, at position 2 i, with spaces between.
   */
  lemma {:induction false} CueLabelSpellsKeys(keys: seq<nat>)
    requires |keys| > 0
    requires forall i :: 0 <= i < |keys| ==> keys[i] < 9
    ensures |CueLabel(keys)| == 2 * |keys| - 1
    ensures forall i :: 0 <= i < |keys| ==> CueLabel(keys)[2 * i] == DigitChar(keys[i] + 1)
    ensures forall i :: 0 <= i < |keys| - 1 ==> CueLabel(keys)[2 * i + 1] == ' '
    decreases |keys|
  {
    if |keys| > 1 {
      var rest := keys[1..];
      CueLabelSpellsKeys(rest);
      var text := CueLabel(keys);
      assert text == [DigitChar(keys[0] + 1)] + " " + CueLabel(rest);
      forall i | 1 <= i < |keys|
        ensures text[2 * i] == DigitChar(keys[i] + 1)
      {
        assert text[2 * i] == CueLabel(rest)[2 * (i - 1)];
        assert rest[i - 1] == keys[i];
      }
      forall i | 1 <= i < |keys| - 1
        ensures text[2 * i + 1] == ' '
      {
        assert text[2 * i + 1] == CueLabel(rest)[2 * (i - 1) + 1];
      }
    }
  }

  /** `for key in key_stims: key.setBaseColor(c)`. */
  method PaintKeys(keys: array<Colour>, c: Colour)
    modifies keys
    ensures forall k :: 0 <= k < keys.Length ==> keys[k] == c
  {
    var k := 0;
    while k < keys.Length
      invariant 0 <= k <= keys.Length
      invariant forall j :: 0 <= j < k ==> keys[j] == c
    {
      keys[k] := c;
      k := k + 1;
    }
  }

  /**
   * The latching loop of the start screen: every held key is marked pressed and
   * painted the success colour. Only keys with a colour can be held.
   */
  method LatchKeys(pressed: seq<bool>, held: array<bool>, colours: array<Colour>) returns (r: seq<bool>)
    requires |pressed| == held.Length && colours.Length <= held.Length
    requires forall f :: colours.Length <= f < held.Length ==> !held[f]
    modifies colours
    ensures r == Latched(pressed, held[..])
    ensures forall f :: 0 <= f < colours.Length ==> colours[f] == if held[f] then SuccessColour else old(colours[f])
  {
    r := pressed;
    var f := 0;
    while f < held.Length
      invariant 0 <= f <= held.Length && |r| == |pressed|
      invariant forall g :: 0 <= g < |r| ==> r[g] == (pressed[g] || (g < f && held[g]))
      invariant forall g :: 0 <= g < colours.Length ==>
                  colours[g] == if g < f && held[g] then SuccessColour else old(colours[g])
    {
      if held[f] {
        r := r[f := true];
        colours[f] := SuccessColour;
      }
      f := f + 1;
    }
  }
}
