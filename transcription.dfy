/** The outcome mapping of `transcribe_audio_with_speech_recognition`
    (app.py): the recogniser's three possible outcomes become the single
    transcript string the rest of the script works with. Decoding the WAV clip
    and the call to the hosted recogniser are not modelled; the recogniser's
    outcome is an input. */
module Transcription {

  /** What `recognize_google` does: returns the recognised text, raises
      `UnknownValueError`, or raises `RequestError` carrying a message. */
  datatype Recognition =
    | Recognized(text: string)
    | UnknownValue
    | RequestError(message: string)

  /** The sentinel returned for unintelligible audio. */
  const Unintelligible: string := "Sorry, I couldn't understand the audio."

  /** The text put in front of a recognition-service error message. */
  const ServiceErrorPrefix: string := "Error with speech recognition service: "

  /** The transcript the function returns for a recogniser outcome. Recognised
      text passes through unchanged; the two failures become fixed texts, and
      a service error is never mistaken for the unintelligible sentinel. */
  function TranscriptOf(o: Recognition): (t: string)
    ensures o.Recognized? ==> t == o.text
    ensures o.UnknownValue? ==> t == Unintelligible
    ensures o.RequestError? ==>
              |t| == |ServiceErrorPrefix| + |o.message| &&
              t[..|ServiceErrorPrefix|] == ServiceErrorPrefix &&
              t[|ServiceErrorPrefix|..] == o.message
    ensures o.RequestError? ==> t != [] && t != Unintelligible
  {
    match o
    case Recognized(text) => text
    case UnknownValue => Unintelligible
    case RequestError(message) =>
      var t := ServiceErrorPrefix + message;
      assert t[0] == 'E' && Unintelligible[0] == 'S';
      t
  }
}
