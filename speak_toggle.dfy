/**
 * The read-aloud toggle that the news cards and the chatbot messages share: a click
 * on the item being read stops the speech, a click on any other item reads that one,
 * and the highlight is cleared once the speech engine stops.
 */
module SpeakToggle {
  import opened Wrappers

  /** What a click asks the speech engine to do; `lang` is absent when the default voice is used. */
  datatype SpeechRequest = StopSpeaking | Speak(text: string, lang: Option<string>)

  /** The index being read after a click on item `idx`. */
  function AfterClick(current: Option<int>, idx: int): (r: Option<int>)
    ensures r.None? <==> current == Some(idx)
    ensures r.Some? ==> r.value == idx
  {
    if current == Some(idx) then None else Some(idx)
  }

  /** The request a click on item `idx` with text `text` sends. */
  function RequestFor(current: Option<int>, idx: int, text: string, lang: Option<string>): (q: SpeechRequest)
    ensures q.StopSpeaking? <==> current == Some(idx)
    ensures q.Speak? ==> q.text == text && q.lang == lang
  {
    if current == Some(idx) then StopSpeaking else Speak(text, lang)
  }

  /** Two clicks on the same idle item start and then stop its speech. */
  lemma ClickTwiceStops(current: Option<int>, idx: int)
    requires current != Some(idx)
    ensures AfterClick(current, idx) == Some(idx)
    ensures AfterClick(AfterClick(current, idx), idx) == None
  {
  }

  class SpeakingIndex {
    /** `speakingIdx`: the item being read aloud, if any. */
    var speakingIdx: Option<int>

    constructor()
      ensures speakingIdx == None
    {
      speakingIdx := None;
    }

    /** `handleSpeak(text, idx)`. */
    method HandleSpeak(text: string, idx: int, lang: Option<string>) returns (request: SpeechRequest)
      modifies this
      ensures speakingIdx == AfterClick(old(speakingIdx), idx)
      ensures request == RequestFor(old(speakingIdx), idx, text, lang)
    {
      if speakingIdx == Some(idx) {
        request := StopSpeaking;
        speakingIdx := None;
      } else {
        speakingIdx := Some(idx);
        request := Speak(text, lang);
      }
    }

    /** The effect on `speaking`: the highlight goes once the engine is silent. */
    method SpeakingChanged(speaking: bool)
      modifies this
      ensures speakingIdx == if speaking then old(speakingIdx) else None
    {
      if !speaking {
        speakingIdx := None;
      }
    }
  }
}
