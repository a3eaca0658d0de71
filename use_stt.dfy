/**
 * The speech-to-text hook: a small state machine over idle, listening, done and error,
 * driven by the caller's start, stop and reset and by the browser recognizer's
 * events. Whether the browser offers a recognizer is an input; the callbacks the hook
 * invokes are returned as results.
 */
module UseStt {
  import opened Wrappers
  import JsString

  datatype SttState = Idle | Listening | Done | Error

  /** The settings `start` gives a new recognizer. */
  datatype Recognizer = Recognizer(lang: string, interimResults: bool, maxAlternatives: nat, continuous: bool)

  const DefaultLang := "hi-IN"
  const Unsupported := "Speech recognition not supported. Use Chrome or Edge."
  const MicDenied := "Microphone access denied \U{2014} allow mic in browser settings."
  const NeedsNetwork := "Speech recognition needs internet (Chrome).\nTry Edge which uses Windows speech engine offline."
  const NoMicrophone := "No microphone found."
  const LanguageUnsupported := "Language not supported by this browser."

  /** The codes the message table names. */
  const KnownCodes: seq<string> :=
    ["not-allowed", "service-not-allowed", "network", "audio-capture", "language-not-supported"]

  /** Error codes after which the hook quietly returns to idle. */
  predicate IsQuietError(code: string) {
    code == "aborted" || code == "no-speech"
  }

  /** The message an error event reports, if any: the table entry, else the code itself. */
  function ErrorMessage(code: string): (m: Option<string>)
    ensures m.None? <==> IsQuietError(code)
    ensures code == "not-allowed" || code == "service-not-allowed" ==> m == Some(MicDenied)
    ensures code == "network" ==> m == Some(NeedsNetwork)
    ensures code == "audio-capture" ==> m == Some(NoMicrophone)
    ensures code == "language-not-supported" ==> m == Some(LanguageUnsupported)
    ensures !IsQuietError(code) && code !in KnownCodes ==> m == Some("Speech error: " + code)
  {
    if IsQuietError(code) then None
    else if code == "not-allowed" || code == "service-not-allowed" then Some(MicDenied)
    else if code == "network" then Some(NeedsNetwork)
    else if code == "audio-capture" then Some(NoMicrophone)
    else if code == "language-not-supported" then Some(LanguageUnsupported)
    else Some("Speech error: " + code)
  }

  /** The state an error event leaves. */
  function AfterError(code: string): (s: SttState)
    ensures s == Idle <==> ErrorMessage(code).None?
    ensures s != Idle ==> s == Error
  {
    if IsQuietError(code) then Idle else Error
  }

  /** The state an end event leaves: only listening is cut short, to idle. */
  function AfterEnd(s: SttState): (r: SttState)
    ensures s == Listening ==> r == Idle
    ensures s != Listening ==> r == s
  {
    if s == Listening then Idle else s
  }

  /** An end event never leaves the hook listening, and a second one changes nothing. */
  lemma AfterEndSettles(s: SttState)
    ensures AfterEnd(s) != Listening
    ensures AfterEnd(AfterEnd(s)) == AfterEnd(s)
  {
  }

  class SpeechToText {
    /** The `lang` option of the latest render; `start` reads it when it runs. */
    var lang: string
    var state: SttState
    var transcript: string
    var isSupported: bool
    /** `recRef.current`: the recognizer of the latest `start`, if any. */
    var recognizer: Option<Recognizer>

    constructor(langOption: Option<string>)
      ensures lang == langOption.GetOr(DefaultLang)
      ensures state == Idle && transcript == "" && !isSupported && recognizer == None
    {
      lang := langOption.GetOr(DefaultLang);
      state := Idle;
      transcript := "";
      isSupported := false;
      recognizer := None;
    }

    /**
     * A render with a new `lang` option: the callbacks are rebuilt over it, so the next
     * `start` configures its recognizer in that language; nothing else changes.
     */
    method Rerender(langOption: Option<string>)
      modifies this
      ensures lang == langOption.GetOr(DefaultLang)
      ensures state == old(state) && transcript == old(transcript) && isSupported == old(isSupported)
      ensures recognizer == old(recognizer)
    {
      lang := langOption.GetOr(DefaultLang);
    }

    /** The mount effect records whether the browser has a recognizer. */
    method DetectSupport(available: bool)
      modifies this
      ensures lang == old(lang)
      ensures isSupported == available
      ensures state == old(state) && transcript == old(transcript) && recognizer == old(recognizer)
    {
      isSupported := available;
    }

    /**
     * `start`: without a recognizer the unsupported message goes to `onError` and the
     * state becomes error. Otherwise a previous recognizer is aborted and a new one is
     * configured (final results only, one alternative, not continuous) and started; the
     * state changes only when its events arrive.
     */
    method Start(available: bool) returns (onError: Option<string>, abortedPrevious: bool)
      modifies this
      ensures lang == old(lang)
      ensures !available ==> onError == Some(Unsupported) && state == Error && !abortedPrevious &&
                             recognizer == old(recognizer)
      ensures available ==> onError == None && state == old(state) &&
                            abortedPrevious == old(recognizer).Some? &&
                            recognizer == Some(Recognizer(lang, false, 1, false))
      ensures transcript == old(transcript) && isSupported == old(isSupported)
    {
      if !available {
        onError := Some(Unsupported);
        state := Error;
        abortedPrevious := false;
        return;
      }
      abortedPrevious := recognizer.Some?;
      onError := None;
      recognizer := Some(Recognizer(lang, false, 1, false));
    }

    /** `onstart`: listening, with the transcript cleared. */
    method OnStart()
      modifies this
      ensures lang == old(lang)
      ensures state == Listening && transcript == ""
      ensures isSupported == old(isSupported) && recognizer == old(recognizer)
    {
      state := Listening;
      transcript := "";
    }

    /**
     * `onresult`: the first alternative of the first result (empty if missing) becomes the
     * transcript and the state is done; `onResult` receives the trimmed text only when
     * the text is not empty.
     */
    method OnResult(firstAlternative: Option<string>) returns (onResult: Option<string>)
      modifies this
      ensures lang == old(lang)
      ensures transcript == firstAlternative.GetOr("") && state == Done
      ensures onResult.Some? <==> transcript != ""
      ensures onResult.Some? ==> onResult.value == JsString.Trim(transcript)
      ensures isSupported == old(isSupported) && recognizer == old(recognizer)
    {
      var text := firstAlternative.GetOr("");
      transcript := text;
      state := Done;
      onResult := if text != "" then Some(JsString.Trim(text)) else None;
    }

    /** `onerror`: quiet codes return to idle; any other code is an error reported to `onError`. */
    method OnError(code: string) returns (onError: Option<string>)
      modifies this
      ensures lang == old(lang)
      ensures state == AfterError(code) && onError == ErrorMessage(code)
      ensures transcript == old(transcript) && isSupported == old(isSupported) && recognizer == old(recognizer)
    {
      if code == "aborted" || code == "no-speech" {
        state := Idle;
        return None;
      }
      state := Error;
      onError := ErrorMessage(code);
    }

    /** `onend`. */
    method OnEnd()
      modifies this
      ensures lang == old(lang)
      ensures state == AfterEnd(old(state))
      ensures transcript == old(transcript) && isSupported == old(isSupported) && recognizer == old(recognizer)
    {
      if state == Listening {
        state := Idle;
      }
    }

    /** `stop`: asks a current recognizer to stop and goes idle, keeping the transcript. */
    method Stop() returns (stopped: bool)
      modifies this
      ensures lang == old(lang)
      ensures state == Idle && stopped == old(recognizer).Some?
      ensures transcript == old(transcript) && isSupported == old(isSupported) && recognizer == old(recognizer)
    {
      stopped := recognizer.Some?;
      state := Idle;
    }

    /** `reset`: aborts a current recognizer, goes idle and clears the transcript. */
    method Reset() returns (aborted: bool)
      modifies this
      ensures lang == old(lang)
      ensures state == Idle && transcript == "" && aborted == old(recognizer).Some?
      ensures isSupported == old(isSupported) && recognizer == old(recognizer)
    {
      aborted := recognizer.Some?;
      state := Idle;
      transcript := "";
    }
  }
}
