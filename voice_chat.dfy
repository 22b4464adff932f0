/** One run of the voice-chat page script (app.py lines 87-113): the guard on
    the transcript, the exchange with the chat service, the update of the
    session's history and the newest-first rendering. The chat service is an
    input: either the send call raises, or it returns a finite stream of text
    fragments. */
module VoiceChat {
  import opened Wrappers
  import opened PyText
  import opened Transcription
  import opened ChatHistory

  /** What `get_gemini_response` does with a prompt: the call raises before
      returning a stream, or it returns the stream's text fragments. */
  datatype Reply = SendFailed | Stream(fragments: seq<string>)

  /** The guard on line 95: a non-empty transcript other than the
      unintelligible sentinel is sent to the chat service. */
  predicate ShouldSend(transcript: string) {
    transcript != [] && transcript != Unintelligible
  }

  /** The effect of one transcript on the session: the prompt sent to the chat
      service (if any), whether the send call raised (which ends the script
      run), whether the transcription error notice was shown, and the history
      afterwards. */
  datatype Step = Step(prompt: Option<string>, raised: bool, errorShown: bool, history: seq<Turn>)

  /** One exchange (app.py lines 95-106), given the history before it. */
  function Exchange(h: seq<Turn>, transcript: string, reply: Reply): (s: Step)
    ensures s.prompt == (if ShouldSend(transcript) then Some(transcript) else None)
    ensures s.errorShown <==> transcript == Unintelligible
    ensures s.raised <==> s.prompt.Some? && reply.SendFailed?
    ensures |h| <= |s.history| && s.history[..|h|] == h
    ensures s.history != h <==> s.prompt.Some? && !s.raised
    ensures s.prompt.Some? && !s.raised ==>
              s.history[|h|] == Turn(UserRole, transcript) &&
              s.history[|h| + 1..] == BotTurns(reply.fragments)
  {
    if ShouldSend(transcript) then
      match reply
      case SendFailed => Step(Some(transcript), true, false, h)
      case Stream(fs) =>
        var n := h + [Turn(UserRole, transcript)] + BotTurns(fs);
        assert n[..|h|] == h;
        Step(Some(transcript), false, false, n)
    else
      Step(None, false, transcript == Unintelligible, h)
  }

  /** What one run of the script shows: the transcript (when a clip was
      recorded), whether the error notice appeared, the prompt sent to the
      chat service, and the rendered history (absent when the send call
      raised and the run stopped before the render loop). */
  datatype Page = Page(
    transcript: Option<string>,
    errorShown: bool,
    prompt: Option<string>,
    rendered: Option<seq<string>>)

  /** The session state `st.session_state['chat_history']`. */
  class Session {
    var history: seq<Turn>

    /** A new session starts with an empty history (app.py lines 73-74). */
    constructor ()
      ensures history == []
    {
      history := [];
    }

    /** Lines 95-106: send the transcript if the guard allows, then append the
        User turn and the turns of the reply. */
    method Submit(transcript: string, reply: Reply)
      returns (prompt: Option<string>, raised: bool, errorShown: bool)
      modifies this
      ensures Step(prompt, raised, errorShown, history) == Exchange(old(history), transcript, reply)
    {
      prompt, raised, errorShown := None, false, false;
      if ShouldSend(transcript) {
        prompt := Some(transcript);
        match reply
        case SendFailed =>
          // the exception leaves the script before the User turn is appended
          raised := true;
        case Stream(fs) =>
          history := history + [Turn(UserRole, transcript)];
          Receive(fs);
      } else if transcript == Unintelligible {
        errorShown := true;
      }
    }

    /** Lines 100-103: consume the reply stream, appending one Bot turn per
        fragment whose stripped text is non-empty, as the fragments arrive. */
    method Receive(fs: seq<string>)
      modifies this
      ensures history == old(history) + BotTurns(fs)
    {
      var i := 0;
      while i < |fs|
        invariant 0 <= i <= |fs|
        invariant history == old(history) + BotTurns(fs[..i])
      {
        BotTurnsStep(fs, i);
        var kept := StrippedIsTruthy(fs[i]);
        if kept {
          history := history + [Turn(BotRole, fs[i])];
        }
        i := i + 1;
      }
      assert fs[..i] == fs;
    }

    /** Lines 109-113: the labelled lines of the history, newest first. The
        history itself is only read. */
    method Render() returns (lines: seq<string>)
      ensures |lines| == |history|
      ensures forall k :: 0 <= k < |history| ==> lines[k] == Line(history[|history| - 1 - k])
      ensures lines == Rendered(history)
    {
      lines := [];
      var i := |history|;
      while i > 0
        invariant 0 <= i <= |history|
        invariant |lines| == |history| - i
        invariant forall k :: 0 <= k < |lines| ==> lines[k] == Line(history[|history| - 1 - k])
      {
        i := i - 1;
        lines := lines + [Line(history[i])];
      }
      forall k | 0 <= k < |history|
        ensures lines[k] == Rendered(history)[k]
      {
        RenderedAt(history, k);
      }
    }

    /** One run of the script from line 87 on: with a recorded clip, its
        recogniser outcome is turned into a transcript and submitted; the
        history is then rendered unless the send call raised. */
    method Run(clip: Option<Recognition>, reply: Reply) returns (page: Page)
      modifies this
      ensures clip.None? ==>
                history == old(history) &&
                page == Page(None, false, None, Some(Rendered(history)))
      ensures clip.Some? ==>
                var t := TranscriptOf(clip.value);
                var s := Exchange(old(history), t, reply);
                history == s.history &&
                page == Page(Some(t), s.errorShown, s.prompt,
                             if s.raised then None else Some(Rendered(history)))
    {
      var transcript: Option<string> := None;
      var prompt: Option<string> := None;
      var raised, errorShown := false, false;
      if clip.Some? {
        var t := TranscriptOf(clip.value);
        transcript := Some(t);
        prompt, raised, errorShown := Submit(t, reply);
      }
      if raised {
        page := Page(transcript, errorShown, prompt, None);
      } else {
        var lines := Render();
        page := Page(transcript, errorShown, prompt, Some(lines));
      }
    }
  }

  /** Which recogniser outcomes reach the chat service: recognised text that is
      neither empty nor the sentinel, and every service error. Unintelligible
      audio never does. */
  lemma TranscriptSent(o: Recognition)
    ensures ShouldSend(TranscriptOf(o)) <==>
              o.RequestError? || (o.Recognized? && o.text != [] && o.text != Unintelligible)
  {
  }

  /** The error notice is shown for unintelligible audio, and otherwise only
      for recognised speech whose text is literally the sentinel. */
  lemma ErrorNoticeShown(h: seq<Turn>, o: Recognition, reply: Reply)
    ensures Exchange(h, TranscriptOf(o), reply).errorShown <==>
              o.UnknownValue? || (o.Recognized? && o.text == Unintelligible)
  {
  }

  /** A transcript the guard stops leaves the history as it was, sends nothing
      and raises nothing. */
  lemma GuardedTranscriptChangesNothing(h: seq<Turn>, transcript: string, reply: Reply)
    requires !ShouldSend(transcript)
    ensures var s := Exchange(h, transcript, reply);
            s.history == h && s.prompt == None && !s.raised
  {
  }

  /** A send call that raises appends nothing, not even the User turn. */
  lemma SendFailureAppendsNothing(h: seq<Turn>, transcript: string)
    ensures Exchange(h, transcript, SendFailed).history == h
  {
  }

  /** After a successful exchange the history is the old one, then the User
      turn holding the transcript, then exactly the Bot turns of the non-blank
      fragments. */
  lemma ExchangeAppends(h: seq<Turn>, transcript: string, fs: seq<string>)
    requires ShouldSend(transcript)
    ensures Exchange(h, transcript, Stream(fs)).history ==
              h + [Turn(UserRole, transcript)] + BotTurns(fs)
  {
  }

  /** Within one exchange the User turn comes before every Bot turn: the new
      entries are one User turn followed only by Bot turns with non-blank text,
      at most one per fragment. */
  lemma UserBeforeBot(h: seq<Turn>, transcript: string, fs: seq<string>)
    requires ShouldSend(transcript)
    ensures var n := Exchange(h, transcript, Stream(fs)).history;
            |h| < |n| <= |h| + 1 + |fs| &&
            n[|h|].role == UserRole &&
            forall k :: |h| < k < |n| ==> n[k].role == BotRole && !IsBlank(n[k].text)
  {
  }

  /** A recognition-service error is not treated as a failed transcription:
      its text is sent as the prompt and recorded as the User turn. */
  lemma ServiceErrorIsSent(h: seq<Turn>, message: string, fs: seq<string>)
    ensures var t := TranscriptOf(RequestError(message));
            var s := Exchange(h, t, Stream(fs));
            s.prompt == Some(t) && !s.errorShown &&
            s.history == h + [Turn(UserRole, t)] + BotTurns(fs)
  {
  }

  /** Exchanges compose: two exchanges in a row leave the first one's entries
      untouched and add the second one's after them. */
  lemma ExchangesAccumulate(h: seq<Turn>, t1: string, fs1: seq<string>, t2: string, fs2: seq<string>)
    requires ShouldSend(t1) && ShouldSend(t2)
    ensures var h1 := Exchange(h, t1, Stream(fs1)).history;
            var h2 := Exchange(h1, t2, Stream(fs2)).history;
            h2 == h + [Turn(UserRole, t1)] + BotTurns(fs1) + [Turn(UserRole, t2)] + BotTurns(fs2)
  {
  }

  /** Speech "hello" answered by the fragments "Hi" and " there!" gives three
      entries, User first. */
  lemma HelloExchange()
    ensures Exchange([], "hello", Stream(["Hi", " there!"])).history ==
              [Turn(UserRole, "hello"), Turn(BotRole, "Hi"), Turn(BotRole, " there!")]
  {
    var fs := ["Hi", " there!"];
    assert !IsWhitespace(fs[0][0]) && !IsWhitespace(fs[1][1]);
    assert fs[..1] == ["Hi"];
    ExchangeAppends([], "hello", fs);
  }

  /** A whitespace-only fragment adds no Bot turn: the exchange with it at
      the end of the stream leaves the same history as without it. */
  lemma BlankFragmentDropped(h: seq<Turn>, transcript: string, fs: seq<string>, f: string)
    requires ShouldSend(transcript) && IsBlank(f)
    ensures Exchange(h, transcript, Stream(fs + [f])).history ==
              Exchange(h, transcript, Stream(fs)).history
  {
    assert (fs + [f])[..|fs|] == fs;
  }
}
