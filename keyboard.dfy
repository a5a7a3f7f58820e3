/**
 * The keyboard stand-in for the exoskeleton (`check_keys` in the three games):
 * pressing or releasing one of the configured key codes sets or clears the
 * spoofed key state of the channel at that code's position. Polling the
 * keyboard device is replaced by the list of events it returned.
 */
module Keyboard {
  import opened Wrappers

  /** The ioHub event types; any other type is ignored. */
  datatype KeyKind = KeyboardPress | KeyboardRelease | OtherKind

  datatype KeyEvent = KeyEvent(key: string, kind: KeyKind, modifiers: seq<string>)

  /** The two demos' keyboard stand-in key codes, channel by channel. */
  const DemoKeyCodes: seq<string> := ["a", "w", "e", "r", "b"]

  /** No key code is listed twice. */
  predicate Distinct(codes: seq<string>) {
    forall i, j :: 0 <= i < j < |codes| ==> codes[i] != codes[j]
  }

  /** `np.where(key == np.array(key_codes))[0]`: the position of the first occurrence of `key`. */
  function IndexOf(codes: seq<string>, key: string): (i: nat)
    requires key in codes
    ensures i < |codes| && codes[i] == key
    ensures key !in codes[..i]
  {
    if codes[0] == key then 0
    else
      var i := 1 + IndexOf(codes[1..], key);
      assert codes[..i] == [codes[0]] + codes[1..][..i - 1];
      i
  }

  /** Among distinct codes, a code's position is its own index. */
  lemma IndexOfDistinct(codes: seq<string>, i: nat)
    requires Distinct(codes) && i < |codes|
    ensures IndexOf(codes, codes[i]) == i
  {
  }

  /** The effect of one event on the spoofed key states. */
  function ApplyKeyEvent(spoof: seq<bool>, codes: seq<string>, e: KeyEvent): seq<bool>
    requires |codes| <= |spoof|
  {
    if e.key in codes then
      match e.kind
      case KeyboardPress => spoof[IndexOf(codes, e.key) := true]
      case KeyboardRelease => spoof[IndexOf(codes, e.key) := false]
      case OtherKind => spoof
    else
      spoof
  }

  /** The spoofed key states after handling `events` in order. */
  function ApplyKeyEvents(spoof: seq<bool>, codes: seq<string>, events: seq<KeyEvent>): (r: seq<bool>)
    requires |codes| <= |spoof|
    ensures |r| == |spoof|
    decreases |events|
  {
    if events == [] then spoof
    else ApplyKeyEvent(ApplyKeyEvents(spoof, codes, events[..|events| - 1]), codes, events[|events| - 1])
  }

  /** The kind of the last press or release of `key` among `events`, if any. */
  function LastEventOn(events: seq<KeyEvent>, key: string): Option<KeyKind>
    decreases |events|
  {
    if events == [] then None
    else
      var e := events[|events| - 1];
      if e.key == key && e.kind != OtherKind then Some(e.kind)
      else LastEventOn(events[..|events| - 1], key)
  }

  /**
   * After handling the events, channel i is held exactly when the last press or
   * release of its key code was a press; a channel whose key saw neither, or that
   * has no key code, keeps its state.
   */
  lemma {:induction false} LastEventWins(spoof: seq<bool>, codes: seq<string>, events: seq<KeyEvent>, i: nat)
    requires Distinct(codes) && |codes| <= |spoof| && i < |spoof|
    ensures ApplyKeyEvents(spoof, codes, events)[i] ==
              if i < |codes| && LastEventOn(events, codes[i]).Some?
              then LastEventOn(events, codes[i]).value == KeyboardPress
              else spoof[i]
    decreases |events|
  {
    if events != [] {
      var init := events[..|events| - 1];
      var e := events[|events| - 1];
      LastEventWins(spoof, codes, init, i);
      if e.key in codes {
        var j := IndexOf(codes, e.key);
        if i < |codes| {
          IndexOfDistinct(codes, i);
        }
        if j == i {
          assert e.key == codes[i];
        }
      }
    }
  }

  /** Events on keys without a code change nothing. */
  lemma {:induction false} UnmappedKeysIgnored(spoof: seq<bool>, codes: seq<string>, events: seq<KeyEvent>)
    requires |codes| <= |spoof|
    requires forall k :: 0 <= k < |events| ==> events[k].key !in codes
    ensures ApplyKeyEvents(spoof, codes, events) == spoof
    decreases |events|
  {
    if events != [] {
      UnmappedKeysIgnored(spoof, codes, events[..|events| - 1]);
    }
  }

  /** The `for kbe in events` loop of `check_keys`, writing the spoofed key states in place. */
  method HandleKeyEvents(spoof: array<bool>, codes: seq<string>, events: seq<KeyEvent>)
    requires |codes| <= spoof.Length
    modifies spoof
    ensures spoof[..] == ApplyKeyEvents(old(spoof[..]), codes, events)
  {
    var k := 0;
    while k < |events|
      invariant 0 <= k <= |events|
      invariant spoof[..] == ApplyKeyEvents(old(spoof[..]), codes, events[..k])
    {
      var e := events[k];
      if e.key in codes {
        if e.kind == KeyboardPress {
          spoof[IndexOf(codes, e.key)] := true;
        } else if e.kind == KeyboardRelease {
          spoof[IndexOf(codes, e.key)] := false;
        }
      }
      assert events[..k + 1][..k] == events[..k];
      k := k + 1;
    }
    assert events[..k] == events;
  }
}
