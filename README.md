# Voice chat: chat-history update and rendering

A Dafny model of the one piece of logic in the voice-chat demo `app.py`: a
Streamlit page that records a clip, transcribes it with a hosted speech
recogniser, sends the transcript to a hosted chat model and shows the
conversation. Everything around that logic (the page, the recorder widget,
audio decoding, both hosted services) is glue; the model keeps the three
parts that have a behaviour of their own:

1. **Transcription outcome mapping** (`transcribe_audio_with_speech_recognition`,
   app.py lines 36-42). The recogniser's outcome is an input
   (`Transcription.Recognition`: recognised text, `UnknownValueError` or
   `RequestError(message)`), and `TranscriptOf` maps it to the one string the
   script works with.
2. **Exchange step** (lines 95-106). The guard (`VoiceChat.ShouldSend`) lets
   through any non-empty transcript other than the sentinel
   `"Sorry, I couldn't understand the audio."`. The chat service's answer is
   an input (`VoiceChat.Reply`): the send call raises, or it returns a finite
   stream of text fragments. The session object `VoiceChat.Session` holds
   `st.session_state['chat_history']` as a `seq<Turn>` field. `Submit`
   appends the User turn only after the send call has returned. `Receive`
   then walks the stream and appends one Bot turn per fragment whose
   `strip()` is non-empty, keeping the fragment verbatim. The pure function
   `VoiceChat.Exchange` specifies the step; `ChatHistory.BotTurns`
   specifies the filtered fragments.
3. **Rendering** (lines 109-113). `Session.Render` walks the history
   backwards and labels each entry `User` if its role is `"User"` and `Bot`
   otherwise. It is specified by `ChatHistory.Rendered`, and
   `ChatHistory.RenderedAt` proves that rendering is exactly the history
   reversed.

`Session.Run` puts the three parts together for one script run from line 87
on. Python's `str.strip()` is modelled in `PyText`, over the whitespace set
CPython uses for it (`Py_UNICODE_ISSPACE`).

Three consequences of the order of statements in `app.py` that the model
keeps:

- A failed send leaves no User turn, because line 99 runs only after the
  call on line 97 returns. The exception also ends the script run, so that
  run renders nothing (`Page.rendered` is `None`).
- A recognition-service error is not treated as a failed transcription. Its
  text `"Error with speech recognition service: …"` (line 42) passes the
  guard on line 95, is sent as a prompt and is recorded as a User turn
  (`VoiceChat.ServiceErrorIsSent`).
- Only the unintelligible sentinel raises the error notice (lines 95 and
  105). Recognised speech whose text happens to be exactly that sentence is
  treated the same way (`VoiceChat.ErrorNoticeShown`).

## Model

| member | source | states |
|---|---|---|
| `PyText.IsWhitespace` | app.py:102 | the characters `strip()` removes: U+0009-U+000D, U+001C-U+0020, U+0085, U+00A0, U+1680, U+2000-U+200A, U+2028, U+2029, U+202F, U+205F and U+3000 |
| `PyText.TrimLeft` | app.py:102 | the result is a suffix of the input, everything cut off is whitespace, and it does not start with whitespace |
| `PyText.TrimRight` | app.py:102 | the result is a prefix of the input, everything cut off is whitespace, and it does not end with whitespace |
| `PyText.Strip` | app.py:102 | `strip()` is empty exactly when the fragment consists only of whitespace, and a non-empty result neither starts nor ends with whitespace |
| `PyText.StrippedIsTruthy` | app.py:102 | the truth test `if chunk.text.strip():` holds exactly when the fragment has a non-whitespace character |
| `PyText.StripInfix` | app.py:102 | `strip()` keeps one contiguous piece of the text, and everything it cuts away before and after that piece is whitespace |
| `Transcription.TranscriptOf` | app.py:36-42 | recognised text is returned unchanged; `UnknownValueError` gives exactly the sentinel; `RequestError(e)` gives the fixed prefix followed by `e`, which is never empty and never the sentinel |
| `ChatHistory.FragmentTurn` | app.py:102-103 | a blank fragment contributes no turn; any other contributes one `Bot` turn holding the fragment verbatim |
| `ChatHistory.BotTurns` | app.py:100-103 | a reply adds at most one turn per fragment, and every added turn has role `Bot` and non-blank text |
| `ChatHistory.BotTurnsStep` | app.py:100-103 | handling one more fragment adds that fragment's turn, if it is kept, after the turns already added |
| `ChatHistory.KeptIndices` | app.py:100-103 | the positions of the kept fragments, strictly increasing and in range, include a position exactly when its fragment is not blank |
| `ChatHistory.BotTurnsSelect` | app.py:100-103 | the k-th added Bot turn holds, verbatim, the fragment at the k-th non-blank position: blanks are dropped, nothing is merged, reordered or stripped |
| `ChatHistory.BotTurnsAppend` | app.py:100-103 | the turns of a stream split anywhere are the turns of the first part followed by those of the second (one turn per fragment, in arrival order) |
| `ChatHistory.BotTurnsCount` | app.py:100-103 | the number of Bot turns added equals the number of non-blank fragments |
| `ChatHistory.Label` | app.py:110-113 | the label is `User` exactly when the role is `"User"`, and `Bot` otherwise |
| `ChatHistory.Line` | app.py:110-113 | a User turn is shown as `**User:** ` followed by its text, any other turn as `**Bot:** ` followed by its text |
| `ChatHistory.Rendered` | app.py:109-113 | the rendering has one line per history entry |
| `ChatHistory.RenderedAt` | app.py:109-113 | line k of the rendering is the labelled k-th newest entry: the rendering is the history reversed |
| `ChatHistory.RenderedPush` | app.py:109 | a newly appended entry is rendered at the top, with the older entries below it in unchanged order |
| `VoiceChat.ShouldSend` | app.py:95 | a transcript is sent exactly when it is non-empty and differs from the unintelligible sentinel |
| `VoiceChat.Exchange` | app.py:95-106 | a prompt is sent exactly when the guard passes; the notice is shown exactly for the sentinel; the send raises only if one was made; the old history is a prefix of the new one; the history changes exactly when the send returned, and then gains the User turn followed by the reply's Bot turns |
| `VoiceChat.Session.constructor` | app.py:73-74 | a new session starts with an empty history |
| `VoiceChat.Session.Submit` | app.py:95-106 | the prompt, the raised flag, the notice flag and the new history are those of `Exchange` applied to the old history |
| `VoiceChat.Session.Receive` | app.py:100-103 | consuming the stream appends exactly `BotTurns` of the fragments to the history and changes nothing else |
| `VoiceChat.Session.Render` | app.py:109-113 | returns one line per entry, line k being the labelled k-th newest entry, and does not change the history |
| `VoiceChat.Session.Run` | app.py:87-113 | with no clip the history is unchanged and rendered; with a clip the transcript is shown, the exchange is applied to it, and the history is rendered unless the send call raised |
| `VoiceChat.TranscriptSent` | app.py:95 | a transcript reaches the chat service exactly for a service error or for recognised text that is neither empty nor the sentinel; unintelligible audio never does |
| `VoiceChat.ErrorNoticeShown` | app.py:105-106 | the error notice is shown exactly for unintelligible audio or for recognised text equal to the sentinel |
| `VoiceChat.GuardedTranscriptChangesNothing` | app.py:95 | an empty transcript or the sentinel leaves the history unchanged, sends nothing and raises nothing |
| `VoiceChat.SendFailureAppendsNothing` | app.py:97-99 | when the send call raises, the history is unchanged: the User turn is not appended |
| `VoiceChat.ExchangeAppends` | app.py:99-103 | after a successful exchange the history is the old history, then the User turn with the transcript, then the reply's Bot turns |
| `VoiceChat.UserBeforeBot` | app.py:99-103 | the first new entry is the User turn and every later new entry is a Bot turn with non-blank text, at most one per fragment |
| `VoiceChat.ServiceErrorIsSent` | app.py:41-42 | the text of a recognition-service error is sent as the prompt, shows no notice and is recorded as the User turn |
| `VoiceChat.ExchangesAccumulate` | app.py:99-103 | two exchanges in a row keep the first one's entries and add the second one's after them |
| `VoiceChat.HelloExchange` | app.py:99-103 | "hello" answered by "Hi" and " there!" gives the entries User "hello", Bot "Hi", Bot " there!" in that order |
| `VoiceChat.BlankFragmentDropped` | app.py:102-103 | for any stream and any transcript the guard passes, appending a whitespace-only fragment to the stream leaves the resulting history unchanged: it adds no Bot turn |

## Left out

- The Streamlit page itself: page setup, CSS, header, `st.audio`, `st.write`, `st.spinner` and `st.error` (lines 45-70, 88, 92, 96, 106). They only display; the model keeps the transcript shown and whether the error notice appeared, in `Page`.
- The `audio_recorder` widget (lines 77-85). A clip is modelled as present or absent (`Option<Recognition>`).
- WAV decoding and re-export with pydub, and `sr.AudioFile` / `recognizer.record` (lines 25-35). These are foreign audio code; a decoding failure there is an uncaught exception that the script does not handle.
- The hosted recogniser `recognize_google` and the Gemini chat client (lines 13-21, 37). Their results are inputs. This loses nothing about the `chat` object: line 17 re-creates it with an empty history on every run of the script, so it holds no context from earlier exchanges.
- Loading the API key from the environment (lines 12-13): process start-up.
- An exception raised while the reply stream is being iterated (line 100). The script has no handler for it. Turns appended before it would stay in the history; the model's `Reply` has no such case.
- The history is never cleared by the script, so no reset operation is modelled.
