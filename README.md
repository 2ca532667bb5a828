# Calendar-assistant bot: the message handler and its tool-calling loop

This project models `schedule_event`, the Telegram message handler of the
calendar-assistant bot, in Dafny. The handler does the following:

- It rejects every chat except the one allowed chat id.
- It seeds the user's stored history with the system instructions the first
  time, then appends the user's text.
- It asks the chat model for a response. While that response requests tool
  calls, it appends the response and answers every call in order.
- Each call is answered by searching `tools_list` by name and invoking the
  tool with empty arguments or with the model's arguments, depending on the
  tool. A raised exception becomes an error text. An unknown name becomes
  "Unknown tool: <name>".
- After each round it asks the model again.
- It appends the final response and sends its content as the reply. Empty
  or whitespace-only content is replaced by a fixed apology.
- If the model call fails, it sends a different fixed apology and keeps the
  history as it stands.

The model's files:

- `messages.dfy`: the message, tool-call and invocation values.
- `registry.dfy`: `tools_list`, the per-tool choice of arguments, and the
  `ToolBox` class. Its `Dispatch` method performs the linear search and the
  `if`/`elif` chain.
- `conversation.dfy`: `Turn`, a specification function for one authorised
  turn, and the lemmas about it.
- `text.dfy`: Python's `str.strip()` emptiness test.
- `handler.dfy`: the `ChatModel` oracle and the `Bot` class. Its
  `ScheduleEvent` method is proved to compute exactly `Turn`.

The chat model is an oracle: a finite sequence of responses, handed out one
per call. A call made after they run out is a failing model call, which takes
the handler's catch path. The tools are an oracle too (`ToolEnv`). An
invocation's outcome may depend on every invocation made before it, because
the tools read a clock and a calendar that earlier invocations change.

The handler's tool loop has no iteration cap: it runs until the model returns
a response without tool calls, or until a model call fails. The system's
design description asks for a cap and a "took longer than expected" fallback,
but the code has neither. The model follows the code. Termination therefore
comes only from the oracle being finite (see `TurnExit`). The same
description says each tool is invoked with the call's arguments. The code
instead passes empty arguments to `get_current_date`, `get_events` and
`get_calendars`, and the model follows the code (`ArgsFor`).

## Model

| member | source | states |
|---|---|---|
| Registry.ArgsFor | bot.py:256-268 | a name gets arguments exactly when it is one of the six tools in `tools_list`; `get_current_date`, `get_events` and `get_calendars` get empty arguments, and the other three get the model's |
| Registry.Answer | bot.py:248-274 | an unregistered name gives "Unknown tool: <name>" and invokes nothing; a registered one is invoked exactly once, and its result is the return value or "Error executing <name>: <msg>" |
| Registry.Answers | bot.py:247-279 | one tool message per call, in call order, each echoing its call's id; the invocation log only grows |
| Registry.AnswersAt | bot.py:247-279 | the i-th tool message is the i-th call's answer, computed after the invocations of the calls before it |
| Registry.AnswersLog | bot.py:253-268 | which tools a batch of calls invokes, and with what arguments, depends on the calls alone, never on what the tools returned or raised |
| Registry.ToolBox.Invoke | bot.py:257-268 | an invocation's outcome is what the environment gives it after the earlier invocations; the invocation is appended to the log |
| Registry.ToolBox.Dispatch | bot.py:252-274 | the linear search over `tools_list` and the `if`/`elif` chain yield exactly `Answer`'s text and log |
| Conversation.Seed | bot.py:227-228 | a user with a history keeps it; a user without one gets a history of just the system message; either way the history has exactly one system message, and it is first |
| Conversation.Turn | bot.py:235-285 | the model is called at least once, first with the history as it was at the start of the turn, and at most once per available response plus one |
| Conversation.LoopIsTurn | bot.py:239-282 | the loop's state after the first model call determines the whole turn: the loop function from that state equals `Turn` |
| Conversation.TurnShape | bot.py:239-285 | a turn only appends: complete tool rounds (each a response with k > 0 calls, then k tool messages with matching ids, in order), then the final response without tool calls when answered, or nothing more when the model call failed; the invocation log only grows |
| Conversation.TurnPrompts | bot.py:235-285 | each model call sees a prefix of the final history; an answered turn is its last prompt plus the final response; a failed turn ends exactly at its last prompt, with nothing rolled back |
| Conversation.TurnExit | bot.py:235-282 | the turn is answered iff some response has no tool calls; the final response is the first such one; the model was called once per response up to it, and later responses stay unconsumed; a failed turn used every response and made one call more |
| Conversation.TurnLog | bot.py:247-282 | a turn invokes exactly the registered tools named by the responses it consumed, in order |
| Conversation.TurnKeepsOneSystem | bot.py:226-285 | a history with exactly one system message, first, keeps that shape through any turn, including a failed one |
| Text.StripEmptyIff | bot.py:289 | `strip()` of a text is empty iff every character of it is Python whitespace |
| Handler.FinalText | bot.py:288-290 | the reply is the content exactly when the content is not empty and not all whitespace, and otherwise the fixed apology; it is never empty |
| Handler.ReplyText | bot.py:288-296 | an answered turn replies with `FinalText` of the final content; a failed model call replies with the error apology; never empty |
| Handler.ChatModel.Invoke | bot.py:235 | a model call records the history it was shown and returns the next pending response, or fails when none is left |
| Handler.Bot.AnswerCalls | bot.py:247-279 | the loop over a response's calls appends exactly `Answers`' tool messages and leaves the tools' log where `Answers` says |
| Handler.Bot.ToolLoop | bot.py:235-282 | the while loop, from the first model call, ends in `Turn`'s state: a failed model call leaves `Turn`'s history; otherwise it returns `Turn`'s final response, not yet appended; the responses left, the prompts and the tool log are as `Turn` says |
| Handler.Bot.ScheduleEvent | bot.py:218-296 | another chat gets the rejection and nothing else changes (no model or tool call); the allowed chat's history becomes `Turn` of the seeded history plus the user's text, exactly one reply (`ReplyText`) is sent, and a stored history keeps exactly one system message, first, and is only ever extended |
| Handler.DateLookupScenario | bot.py:233-292 | a first message answered after one `get_current_date` call: the history gains the request, the date result under the call's id and the final response; the tool is invoked once with empty arguments; the reply is the final text |

## Left out

- The Telegram transport, `main` and polling are not modelled. Replies are collected in `Bot.outbox`. A failure of `reply_text` inside the `try` (which would send the error apology as a second reply) is not modelled.
- The model client's construction and the Google Calendar credentials are not modelled. The model's behaviour is the response oracle.
- The tool bodies (`get_current_date`, `get_events`, `add_event`, `remove_event`, `reschedule_event`, `get_calendars`) are not modelled: their clock, calendar API, date and float arithmetic and result formatting are the `ToolEnv` oracle. Every tool returns text, so a tool returning `None` is not modelled; the code would report that as "Unknown tool".
- The instruction text is a constructor parameter of `Bot`.
- `print` and logging are not modelled.
- Tool arguments are modelled as a map from parameter name to the value's text. Their JSON types are not modelled.
- Response content is modelled as text. Content given as a list of parts is not modelled.
- `str(e)` is modelled by the oracle supplying the exception's message text.
- Asynchrony is not modelled. One `Bot` object is one user's `user_data`, and keying by user is left out.
- An exception from anywhere other than the model call is not modelled: a malformed tool call without `name`, `args` or `id`, for instance.
- The tool loop's termination is not modelled as a property of the code, because the code has no cap. It comes from the finite response oracle.
