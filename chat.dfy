/**
 * The conversation side of the chatbot: the request `generate_response`
 * builds for the completion service, the fallback it answers with when the
 * call fails, and the session state one chat turn appends to.
 */
module Chat {
  import opened Wrappers
  import opened TextOps
  import opened Mood
  import opened Rules

  /** One chat message, as stored in the session (`(role, content)`) and as sent in a request. */
  datatype Message = Message(role: string, content: string)

  const SystemPrompt: string :=
    "\nYou are a supportive mental health chatbot.\n"
    + "Always respond kindly and empathetically.\n"
    + "Never give medical or clinical diagnosis.\n"
    + "If the user expresses self-harm or extreme distress, suggest contacting helplines.\n"
    + "Keep responses short and caring.\n"

  /** How many stored messages go into a request as conversational memory. */
  const HistoryWindow: nat := 5

  /** The reply given when anything about the completion call goes wrong. */
  const Fallback: string := "⚠️ I'm having trouble responding. Please try again."

  function SystemMessage(): Message { Message("system", SystemPrompt) }

  function MinNat(a: nat, b: nat): nat { if a <= b then a else b }

  /** Python's `history[-5:]`: the last five entries, or all of them when there are fewer. */
  function Recent(history: seq<Message>): (r: seq<Message>)
    ensures |r| == MinNat(HistoryWindow, |history|)
    ensures r == history[|history| - |r|..]
  {
    if |history| <= HistoryWindow then history else history[|history| - HistoryWindow..]
  }

  /** The message list `generate_response` sends: the system prompt, the recent history, the prompt. */
  function RequestFor(history: seq<Message>, prompt: string): (req: seq<Message>)
    ensures |req| == MinNat(HistoryWindow, |history|) + 2
    ensures req[0] == SystemMessage() && req[|req| - 1] == Message("user", prompt)
  {
    [SystemMessage()] + Recent(history) + [Message("user", prompt)]
  }

  /** The request has the system prompt first, the prompt last and the newest history, oldest first, between. */
  lemma RequestShape(history: seq<Message>, prompt: string)
    ensures var req, n := RequestFor(history, prompt), MinNat(HistoryWindow, |history|);
            |req| == n + 2 && |req| <= 7 &&
            req[0] == SystemMessage() &&
            req[|req| - 1] == Message("user", prompt) &&
            forall k :: 1 <= k <= n ==> req[k] == history[|history| - n + k - 1]
  {
  }

  /** The turn stores the prompt before building the request, so the request ends with it twice. */
  lemma PromptSentTwice(history: seq<Message>, prompt: string)
    ensures var req := RequestFor(history + [Message("user", prompt)], prompt);
            |req| >= 3 &&
            req[|req| - 2] == req[|req| - 1] == Message("user", prompt) &&
            |req| == MinNat(HistoryWindow - 1, |history|) + 3
  {
    var h := history + [Message("user", prompt)];
    var r := Recent(h);
    assert r[|r| - 1] == h[|h| - 1];
  }

  /**
   * What the completion service did with a request: answered with some
   * message content, or failed in any way at all (transport, authentication,
   * rate limit, or a response without the expected content).
   */
  datatype CompletionOutcome = Completed(content: string) | Failed

  /** The text `generate_response` returns for an outcome. */
  function ReplyFrom(outcome: CompletionOutcome): (reply: string)
    ensures outcome.Failed? ==> reply == Fallback
    ensures outcome.Completed? ==> IsTrimmed(reply)
    ensures outcome.Completed? ==>
              var c := outcome.content;
              exists a: nat :: a + |reply| <= |c| && AllSpace(c[..a]) && reply == c[a..a + |reply|] && AllSpace(c[a + |reply|..])
  {
    match outcome
    case Completed(content) =>
      var a := LeadingSpaces(content);
      var r := Strip(content);
      assert a + |r| <= |content| && AllSpace(content[..a]) && r == content[a..a + |r|] && AllSpace(content[a + |r|..]);
      r
    case Failed => Fallback
  }

  /** The reply a turn gives: the canned therapy text when there is one, else the model's. */
  function TurnReply(mode: string, userMessage: string, outcome: CompletionOutcome): (reply: string)
    ensures TherapyModule(mode, userMessage).Some? ==> reply == TherapyModule(mode, userMessage).value
    ensures TherapyModule(mode, userMessage).None? ==> reply == ReplyFrom(outcome)
  {
    var canned := TherapyModule(mode, userMessage);
    if canned.Some? && canned.value != "" then canned.value else ReplyFrom(outcome)
  }

  /** A failed completion in "Empathetic Chat" mode always yields the fixed fallback text. */
  lemma FailureFallsBack(userMessage: string)
    ensures TurnReply("Empathetic Chat", userMessage, Failed) == Fallback
  {
  }

  /** One row of the mood tracker: `(datetime.now(), sentiment, polarity)`. */
  datatype MoodEntry = MoodEntry(time: int, sentiment: string, polarity: real)

  /** A turn as the session records it: the user's message, the reply and the mood entry. */
  predicate TurnRecord(user: Message, assistant: Message, entry: MoodEntry) {
    user.role == "user" && user.content != "" &&
    assistant.role == "assistant" &&
    -1.0 <= entry.polarity <= 1.0 &&
    entry.sentiment == LabelOf(entry.polarity).Name()
  }

  /** The session log: two messages per mood entry, the `t`th pair recording the `t`th turn. */
  predicate WellFormedLog(messages: seq<Message>, moods: seq<MoodEntry>) {
    |messages| == 2 * |moods| &&
    forall t :: 0 <= t < |moods| ==> TurnRecord(messages[2 * t], messages[2 * t + 1], moods[t])
  }

  /** Appending a recorded turn keeps the log well formed. */
  lemma {:induction false} LogExtends(messages: seq<Message>, moods: seq<MoodEntry>,
                                      user: Message, assistant: Message, entry: MoodEntry)
    requires WellFormedLog(messages, moods)
    requires TurnRecord(user, assistant, entry)
    ensures WellFormedLog(messages + [user, assistant], moods + [entry])
  {
    var ms, es := messages + [user, assistant], moods + [entry];
    forall t | 0 <= t < |es|
      ensures TurnRecord(ms[2 * t], ms[2 * t + 1], es[t])
    {
      if t < |moods| {
        assert ms[2 * t] == messages[2 * t] && ms[2 * t + 1] == messages[2 * t + 1];
      }
    }
  }

  /** In a well-formed log the messages alternate user, assistant, and there is one mood entry per user message. */
  lemma RolesAlternate(messages: seq<Message>, moods: seq<MoodEntry>)
    requires WellFormedLog(messages, moods)
    ensures |messages| % 2 == 0 && |moods| == |messages| / 2
    ensures forall i :: 0 <= i < |messages| ==> messages[i].role == (if i % 2 == 0 then "user" else "assistant")
  {
    forall i | 0 <= i < |messages|
      ensures messages[i].role == (if i % 2 == 0 then "user" else "assistant")
    {
      var t := i / 2;
      assert TurnRecord(messages[2 * t], messages[2 * t + 1], moods[t]);
    }
  }

  /** The latest entry of a well-formed log names a label, so its coping tip is never the default. */
  lemma LoggedMoodHasTip(messages: seq<Message>, moods: seq<MoodEntry>)
    requires moods != []
    ensures WellFormedLog(messages, moods) ==>
      var last := moods[|moods| - 1];
      CopingStrategy(last.sentiment) == CopingStrategy(LabelOf(last.polarity).Name()) &&
      CopingStrategy(last.sentiment) != DefaultTip
  {
    if WellFormedLog(messages, moods) {
      var t := |moods| - 1;
      assert TurnRecord(messages[2 * t], messages[2 * t + 1], moods[t]);
      CopingTipsDistinct(LabelOf(moods[t].polarity), LabelOf(moods[t].polarity));
    }
  }

  /** The chat session: `st.session_state.messages` and `st.session_state.mood_tracker`. */
  class Session {
    var messages: seq<Message>
    var moodTracker: seq<MoodEntry>

    ghost predicate Valid()
      reads this
    {
      WellFormedLog(messages, moodTracker)
    }

    constructor ()
      ensures Valid()
      ensures messages == [] && moodTracker == []
    {
      messages := [];
      moodTracker := [];
    }

    /**
     * `generate_response(prompt)`: builds the request from the stored
     * messages and turns the completion service's outcome into the reply.
     */
    method GenerateResponse(prompt: string, outcome: CompletionOutcome) returns (reply: string, request: seq<Message>)
      ensures request == RequestFor(messages, prompt)
      ensures outcome.Failed? ==> reply == Fallback
      ensures outcome.Completed? ==> reply == Strip(outcome.content)
    {
      var recent := Recent(messages);
      request := [SystemMessage()];
      for i := 0 to |recent|
        invariant request == [SystemMessage()] + recent[..i]
      {
        request := request + [Message(recent[i].role, recent[i].content)];
      }
      request := request + [Message("user", prompt)];
      reply := ReplyFrom(outcome);
    }

    /**
     * One pass of the turn block for the message submitted on this rerun
     * (`""` when nothing was submitted). The estimator's base polarity, the
     * clock reading and the completion outcome are given.
     */
    method ProcessTurn(mode: string, userMessage: string, basePolarity: real, now: int, outcome: CompletionOutcome)
      returns (request: Option<seq<Message>>)
      requires Valid()
      modifies this
      ensures Valid()
      ensures userMessage == "" ==>
        messages == old(messages) && moodTracker == old(moodTracker) && request == None
      ensures userMessage != "" ==>
        messages == old(messages) + [Message("user", userMessage), Message("assistant", TurnReply(mode, userMessage, outcome))] &&
        moodTracker == old(moodTracker) + [MoodEntry(now, AnalyzeSentiment(userMessage, basePolarity).0.Name(), AnalyzeSentiment(userMessage, basePolarity).1)]
      ensures userMessage != "" ==>
        (request.Some? <==> TherapyModule(mode, userMessage).None?) &&
        (request.Some? ==> request.value == RequestFor(old(messages) + [Message("user", userMessage)], userMessage))
    {
      request := None;
      if userMessage != "" {
        var user := Message("user", userMessage);
        messages := messages + [user];
        var (sentiment, polarity) := AnalyzeSentiment(userMessage, basePolarity);
        var therapyResponse := TherapyModule(mode, userMessage);
        var botResponse;
        if therapyResponse.Some? && therapyResponse.value != "" {
          botResponse := therapyResponse.value;
        } else {
          var sent;
          botResponse, sent := GenerateResponse(userMessage, outcome);
          request := Some(sent);
        }
        var assistant := Message("assistant", botResponse);
        messages := messages + [assistant];
        var entry := MoodEntry(now, sentiment.Name(), polarity);
        moodTracker := moodTracker + [entry];
        LabelOfCovers(polarity, sentiment);
        LogExtends(old(messages), old(moodTracker), user, assistant, entry);
        assert old(messages) + [user] + [assistant] == old(messages) + [user, assistant];
      }
    }

    /** The coping tip shown under the chat: the one for the latest mood entry, if any. */
    function LatestCopingTip(): (tip: Option<string>)
      reads this
      ensures tip.Some? <==> moodTracker != []
      ensures tip.Some? ==> tip.value == CopingStrategy(moodTracker[|moodTracker| - 1].sentiment)
      ensures Valid() && tip.Some? ==> tip.value != DefaultTip
    {
      if moodTracker == [] then None
      else
        var last := moodTracker[|moodTracker| - 1];
        LoggedMoodHasTip(messages, moodTracker);
        Some(CopingStrategy(last.sentiment))
    }
  }
}
