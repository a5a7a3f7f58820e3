/**
 * The cue area of the display (`CueDisplay` in ExoDisplay.py) as presentation
 * intent: the message text, the message and outline colours, and the hand shown
 * as active. Drawing the hand images and shapes is not part of this model.
 */
module Cue {

  datatype Hand = Left | Right

  /**
   * The configured palette entries. The cue display's idle colour is the key
   * colour, as ExoDisplay builds it.
   */
  datatype Colour = KeyColour | CueColour | SuccessColour | FailColour | SlowColour

  /** The feedback kinds `set_feedback` knows: 'fast', 'success' and 'fail'. */
  datatype Feedback = Fast | Success | Fail

  /** `feedback_msgs`. */
  function FeedbackText(f: Feedback): string {
    match f
    case Fast => "+3"
    case Success => "+1"
    case Fail => "+0"
  }

  /** Fast and successful attempts are shown in the success colour, failed ones in the fail colour. */
  function FeedbackColour(f: Feedback): (c: Colour)
    ensures c == SuccessColour <==> f != Fail
    ensures c == FailColour <==> f == Fail
  {
    if f == Fail then FailColour else SuccessColour
  }

  class CueDisplay {
    var text: string
    var msgColour: Colour
    var outlineColour: Colour
    var activeHand: Hand

    /** The initial state: cue-coloured empty message, idle outline, left hand active. */
    constructor ()
      ensures text == "" && msgColour == CueColour && outlineColour == KeyColour && activeHand == Left
    {
      msgColour := CueColour;
      activeHand := Left;
      outlineColour := KeyColour;
      text := "";
    }

    method SetForStart(hand: Hand)
      modifies this
      ensures outlineColour == KeyColour && text == "Press All" && msgColour == CueColour
      ensures activeHand == hand
    {
      outlineColour := KeyColour;
      text := "Press All";
      msgColour := CueColour;
      activeHand := hand;
    }

    method SetAllIdle()
      modifies this
      ensures outlineColour == KeyColour && text == ""
      ensures msgColour == old(msgColour) && activeHand == old(activeHand)
    {
      outlineColour := KeyColour;
      text := "";
    }

    method SetCue(cueText: string)
      modifies this
      ensures outlineColour == CueColour && msgColour == CueColour && text == cueText
      ensures activeHand == old(activeHand)
    {
      outlineColour := CueColour;
      msgColour := CueColour;
      text := cueText;
    }

    /** The label shows the points; message and outline share the tier's colour. */
    method SetFeedback(feedback: Feedback)
      modifies this
      ensures text == FeedbackText(feedback)
      ensures msgColour == FeedbackColour(feedback) && outlineColour == FeedbackColour(feedback)
      ensures activeHand == old(activeHand)
    {
      text := FeedbackText(feedback);
      if feedback == Fast || feedback == Success {
        msgColour := SuccessColour;
        outlineColour := SuccessColour;
      } else if feedback == Fail {
        msgColour := FailColour;
        outlineColour := FailColour;
      }
    }
  }
}
