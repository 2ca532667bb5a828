/**
 * The message handler `schedule_event`: the authorisation gate, seeding of
 * the user's history, the tool-calling loop over the model's responses, and
 * the reply, with the model and the chat transport as oracles.
 */
module Handler {
  import opened Wrappers
  import opened Messages
  import opened Text
  import opened Registry
  import opened Conversation

  /** The one chat allowed to use the bot. */
  const AllowedChat: int := 716853175

  // The fixed texts are written in two pieces: the verifier reads the
  // characters of short string literals only.
  const Rejection: string := "You are not " + "Kai Sheng.. wya doing here.... \U{1F621}"
  const NoResponseApology: string := "I'm sorry, " + "I couldn't generate a response. Please try again."
  const ErrorApology: string := "Sorry, " + "I encountered an error. Please try again."

  /** A message sent to a chat. */
  datatype Reply = Reply(chatId: int, text: string)

  /**
   * The text sent for a final response: its content, unless that is empty
   * or whitespace only, in which case the fixed apology. Never empty.
   */
  function FinalText(content: string): (r: string)
    ensures r != ""
    ensures r == content <==> !AllSpace(content)
    ensures r != content ==> r == NoResponseApology
  {
    StripEmptyIff(content);
    assert !AllSpace(NoResponseApology) by {
      assert !IsSpace(NoResponseApology[0]);
    }
    if content == "" || Strip(content) == "" then NoResponseApology else content
  }

  /** The one reply an authorised turn sends, by how the turn ended. */
  function ReplyText(end: TurnEnd): (r: string)
    ensures r != ""
    ensures end.ModelFailed? ==> r == ErrorApology
    ensures end.Answered? ==> r == FinalText(end.final.content)
  {
    match end
    case Answered(final) => FinalText(final.content)
    case ModelFailed => ErrorApology
  }

  /**
   * The chat model, an oracle: a finite sequence of responses handed out one
   * per call. A call made once they are used up fails. Every call records
   * the history it was shown.
   */
  class ChatModel {
    var pending: seq<Response>
    var prompts: seq<seq<Message>>

    constructor (responses: seq<Response>)
      ensures pending == responses && prompts == []
    {
      pending := responses;
      prompts := [];
    }

    /** `model_with_tools.invoke(messages)`: None when the call fails. */
    method Invoke(history: seq<Message>) returns (r: Option<Response>)
      modifies this
      ensures prompts == old(prompts) + [history]
      ensures r == Next(old(pending)) && pending == Later(old(pending))
    {
      prompts := prompts + [history];
      if pending == [] {
        r := None;
      } else {
        r := Some(pending[0]);
        pending := pending[1..];
      }
    }
  }

  /**
   * The bot as one user sees it: that user's `user_data` (whether it holds
   * a message history, and the history), the replies sent so far, the model
   * and the tools.
   */
  class Bot {
    const instructions: string
    const model: ChatModel
    const tools: ToolBox
    var hasHistory: bool
    var messages: seq<Message>
    var outbox: seq<Reply>

    /** A stored history holds exactly one system message, first. */
    ghost predicate Valid()
      reads this
    {
      if hasHistory then OneSystemFirst(messages, instructions) else messages == []
    }

    constructor (instructions: string, model: ChatModel, tools: ToolBox)
      ensures Valid() && !hasHistory && outbox == []
      ensures this.instructions == instructions && this.model == model && this.tools == tools
    {
      this.instructions := instructions;
      this.model := model;
      this.tools := tools;
      hasHistory := false;
      messages := [];
      outbox := [];
    }

    /**
     * The loop over one response's tool calls: append, in call order, the
     * tool message answering each.
     */
    method AnswerCalls(calls: seq<ToolCall>)
      modifies this, tools
      ensures messages == old(messages) + Answers(calls, tools.env, old(tools.log)).results
      ensures tools.log == Answers(calls, tools.env, old(tools.log)).log
      ensures hasHistory == old(hasHistory) && outbox == old(outbox)
    {
      ghost var before, log0 := messages, tools.log;
      for j := 0 to |calls|
        invariant messages == before + Answers(calls[..j], tools.env, log0).results
        invariant tools.log == Answers(calls[..j], tools.env, log0).log
        invariant hasHistory == old(hasHistory) && outbox == old(outbox)
      {
        var call := calls[j];
        var result := tools.Dispatch(call);
        messages := messages + [ToolMessage(result, call.id)];
        assert calls[..j + 1][..j] == calls[..j];
      }
      assert calls[..|calls|] == calls;
    }

    /**
     * The tool-calling loop, from the first model call to the response
     * without tool calls, which is returned and not yet appended. None
     * when a model call failed; the history then stays as it stands.
     */
    method ToolLoop() returns (response: Option<Response>)
      modifies this, model, tools
      ensures var t := Turn(old(messages), old(model.pending), tools.env, old(tools.log));
        model.pending == t.rest && model.prompts == old(model.prompts) + t.prompts &&
        tools.log == t.log &&
        (response.None? ==> t.end == ModelFailed && messages == t.history) &&
        (response.Some? ==> t.end == Answered(response.value) &&
                            messages + [AIMessage(response.value)] == t.history)
      ensures hasHistory == old(hasHistory) && outbox == old(outbox)
    {
      LoopIsTurn(messages, model.pending, tools.env, tools.log, model.prompts);
      ghost var whole :=
        Loop(messages, Next(model.pending), Later(model.pending), tools.env, tools.log,
             model.prompts + [messages]);
      response := model.Invoke(messages);
      while response.Some? && response.value.toolCalls != []
        invariant hasHistory == old(hasHistory) && outbox == old(outbox)
        invariant response.None? ==> model.pending == []
        invariant Loop(messages, response, model.pending, tools.env, tools.log, model.prompts) == whole
        decreases |model.pending| + (if response.Some? then 1 else 0)
      {
        var r := response.value;
        messages := messages + [AIMessage(r)];
        AnswerCalls(r.toolCalls);
        response := model.Invoke(messages);
      }
    }

    /**
     * Handle one text message from `chatId`. Another chat gets the
     * rejection and nothing else happens. The allowed chat's turn is
     * exactly `Turn` from the seeded history plus the user's message, and
     * sends one reply.
     */
    method ScheduleEvent(chatId: int, text: string)
      requires Valid()
      modifies this, model, tools
      ensures Valid()
      ensures old(hasHistory) ==> old(messages) <= messages
      ensures chatId != AllowedChat ==>
        hasHistory == old(hasHistory) && messages == old(messages) &&
        outbox == old(outbox) + [Reply(chatId, Rejection)] &&
        model.pending == old(model.pending) && model.prompts == old(model.prompts) &&
        tools.log == old(tools.log)
      ensures chatId == AllowedChat ==>
        var t := Turn(Seed(old(hasHistory), old(messages), instructions) + [HumanMessage(text)],
                      old(model.pending), tools.env, old(tools.log));
        hasHistory && messages == t.history &&
        outbox == old(outbox) + [Reply(chatId, ReplyText(t.end))] &&
        model.pending == t.rest && model.prompts == old(model.prompts) + t.prompts &&
        tools.log == t.log
    {
      if chatId != AllowedChat {
        outbox := outbox + [Reply(chatId, Rejection)];
        return;
      }
      if !hasHistory {
        messages := [SystemMessage(instructions)];
        hasHistory := true;
      }
      messages := messages + [HumanMessage(text)];
      TurnShape(messages, model.pending, tools.env, tools.log);
      TurnKeepsOneSystem(messages, model.pending, tools.env, tools.log, instructions);

      var response := ToolLoop();
      if response.None? {
        outbox := outbox + [Reply(chatId, ErrorApology)];
        return;
      }
      var final := response.value;
      messages := messages + [AIMessage(final)];
      var reply := final.content;
      if reply == "" || Strip(reply) == "" {
        reply := NoResponseApology;
      }
      outbox := outbox + [Reply(chatId, reply)];
    }
  }

  /**
   * A first message answered after one date lookup: the history gains the
   * user's message, the response requesting the lookup, its result under
   * the call's id, and the final response, whose text is the reply.
   */
  lemma DateLookupScenario(instructions: string, env: ToolEnv, log: seq<Invocation>)
    ensures
      var call := ToolCall("c1", GetCurrentDate, map[]);
      var first := Response("", [call]);
      var last := Response("Today is fine", []);
      var h := Seed(false, [], instructions) + [HumanMessage("When am I free?")];
      var t := Turn(h, [first, last], env, log);
      var inv := Invocation(GetCurrentDate, map[]);
      t.history == h + [AIMessage(first), ToolMessage(Render(GetCurrentDate, env(log, inv)), "c1"), AIMessage(last)] &&
      t.end == Answered(last) && ReplyText(t.end) == "Today is fine" &&
      t.log == log + [inv] && |t.prompts| == 2
  {
    var call := ToolCall("c1", GetCurrentDate, map[]);
    var first := Response("", [call]);
    var last := Response("Today is fine", []);
    var h := Seed(false, [], instructions) + [HumanMessage("When am I free?")];
    var inv := Invocation(GetCurrentDate, map[]);
    assert [call][..0] == [];
    var b := Answers([call], env, log);
    assert Answers([], env, log) == Batch([], log);
    assert Answer(call, env, log) == Step(Render(GetCurrentDate, env(log, inv)), log + [inv]);
    assert b.results == [ToolMessage(Render(GetCurrentDate, env(log, inv)), "c1")];
    assert b.log == log + [inv];
    var h' := h + [AIMessage(first)] + b.results;
    assert Turn(h', [last], env, b.log).history == h' + [AIMessage(last)];
    assert [first, last][1..] == [last];
    assert !AllSpace(last.content) by {
      assert !IsSpace(last.content[0]);
    }
  }
}
