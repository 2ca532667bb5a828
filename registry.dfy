/**
 * The tool registry (`tools_list`) and the handling of one tool call: the
 * search of the registry by name, the per-tool choice of arguments, and the
 * containment of unknown names and raised exceptions into result text.
 */
module Registry {
  import opened Wrappers
  import opened Messages

  const GetCurrentDate := "get_current_date"
  const GetEvents := "get_events"
  const AddEvent := "add_event"
  const RemoveEvent := "remove_event"
  const RescheduleEvent := "reschedule_event"
  const GetCalendars := "get_calendars"

  /** The names of `tools_list`, in its order. */
  const ToolNames: seq<string> :=
    [GetCurrentDate, GetEvents, AddEvent, RemoveEvent, RescheduleEvent, GetCalendars]

  /** The tools invoked with empty arguments whatever the model supplied. */
  predicate TakesNoArgs(name: string)
  {
    name == GetCurrentDate || name == GetEvents || name == GetCalendars
  }

  function UnknownTool(name: string): string
  {
    "Unknown tool: " + name
  }

  function ErrorText(name: string, msg: string): string
  {
    "Error executing " + name + ": " + msg
  }

  /** The result text of an invocation: its return value, or the text its exception is turned into. */
  function Render(name: string, o: Outcome): string
  {
    match o
    case Ok(v) => v
    case Fail(m) => ErrorText(name, m)
  }

  /**
   * The `if`/`elif` chain run once a tool has matched: the arguments the named
   * tool is invoked with, or None when no branch names it (the result then
   * stays unset).
   */
  function ArgsFor(name: string, args: Args): (r: Option<Args>)
    ensures r.Some? <==> name in ToolNames
    ensures r.Some? && TakesNoArgs(name) ==> r.value == map[]
    ensures r.Some? && !TakesNoArgs(name) ==> r.value == args
  {
    if name == GetCurrentDate then Some(map[])
    else if name == GetEvents then Some(map[])
    else if name == AddEvent then Some(args)
    else if name == RemoveEvent then Some(args)
    else if name == RescheduleEvent then Some(args)
    else if name == GetCalendars then Some(map[])
    else None
  }

  /** The result text of one tool call, and the invocation log after it. */
  datatype Step = Step(text: string, log: seq<Invocation>)

  /**
   * What one tool call yields: a call naming no registered tool gives
   * "Unknown tool: <name>" and invokes nothing; a registered one is invoked
   * once, with empty arguments or the model's, and its return value or
   * "Error executing <name>: <msg>" is the result.
   */
  function Answer(call: ToolCall, env: ToolEnv, log: seq<Invocation>): (s: Step)
    ensures call.name !in ToolNames ==> s == Step(UnknownTool(call.name), log)
    ensures call.name in ToolNames ==>
      var inv := Invocation(call.name, if TakesNoArgs(call.name) then map[] else call.args);
      s.log == log + [inv] &&
      (env(log, inv).Ok? ==> s.text == env(log, inv).value) &&
      (env(log, inv).Fail? ==> s.text == ErrorText(call.name, env(log, inv).msg))
  {
    match ArgsFor(call.name, call.args)
    case None => Step(UnknownTool(call.name), log)
    case Some(a) =>
      var inv := Invocation(call.name, a);
      Step(Render(call.name, env(log, inv)), log + [inv])
  }

  /** The tool messages answering a list of calls, and the invocation log after them. */
  datatype Batch = Batch(results: seq<Message>, log: seq<Invocation>)

  /**
   * The answers to a response's calls, in call order: one tool message per
   * call, echoing that call's id; the invocation log only grows.
   */
  function Answers(calls: seq<ToolCall>, env: ToolEnv, log: seq<Invocation>): (b: Batch)
    ensures |b.results| == |calls|
    ensures forall i :: 0 <= i < |calls| ==>
      b.results[i].ToolMessage? && b.results[i].toolCallId == calls[i].id
    ensures log <= b.log
    decreases |calls|
  {
    if calls == [] then Batch([], log)
    else
      var front := Answers(calls[..|calls| - 1], env, log);
      var last := calls[|calls| - 1];
      var s := Answer(last, env, front.log);
      Batch(front.results + [ToolMessage(s.text, last.id)], s.log)
  }

  /** The i-th answer is the i-th call's result, computed after the calls before it. */
  lemma {:induction false} AnswersAt(calls: seq<ToolCall>, env: ToolEnv, log: seq<Invocation>, i: nat)
    requires i < |calls|
    ensures Answers(calls, env, log).results[i] ==
      ToolMessage(Answer(calls[i], env, Answers(calls[..i], env, log).log).text, calls[i].id)
    decreases |calls|
  {
    var front := calls[..|calls| - 1];
    if i < |calls| - 1 {
      AnswersAt(front, env, log, i);
      assert front[..i] == calls[..i];
    } else {
      assert front == calls[..i];
    }
  }

  /** The invocation a call makes: one when it names a registered tool, none otherwise. */
  function InvocationOf(call: ToolCall): seq<Invocation>
  {
    if call.name in ToolNames
    then [Invocation(call.name, if TakesNoArgs(call.name) then map[] else call.args)]
    else []
  }

  /** The invocations a list of calls makes, in call order. */
  function Invocations(calls: seq<ToolCall>): seq<Invocation>
    decreases |calls|
  {
    if calls == [] then [] else Invocations(calls[..|calls| - 1]) + InvocationOf(calls[|calls| - 1])
  }

  /**
   * Which tools are invoked, and with what arguments, depends on the calls
   * alone: not on what earlier invocations returned or raised.
   */
  lemma {:induction false} AnswersLog(calls: seq<ToolCall>, env: ToolEnv, log: seq<Invocation>)
    ensures Answers(calls, env, log).log == log + Invocations(calls)
    decreases |calls|
  {
    if calls != [] {
      AnswersLog(calls[..|calls| - 1], env, log);
    }
  }

  /** The registered tools, as one object whose invocation log grows with every call. */
  class ToolBox {
    const env: ToolEnv
    var log: seq<Invocation>

    constructor (env: ToolEnv)
      ensures this.env == env && log == []
    {
      this.env := env;
      log := [];
    }

    /** `tool.invoke(args)`: the outcome the environment gives this invocation. */
    method Invoke(inv: Invocation) returns (o: Outcome)
      modifies this
      ensures o == env(old(log), inv)
      ensures log == old(log) + [inv]
    {
      o := env(log, inv);
      log := log + [inv];
    }

    /**
     * One pass of the body of the loop over tool calls: search the registry
     * in order for the call's name, run the matching branch, and fall back
     * to "Unknown tool: <name>" when nothing produced a result.
     */
    method Dispatch(call: ToolCall) returns (text: string)
      modifies this
      ensures text == Answer(call, env, old(log)).text
      ensures log == Answer(call, env, old(log)).log
    {
      var result: Option<string> := None;
      var i := 0;
      while i < |ToolNames|
        invariant 0 <= i <= |ToolNames|
        invariant forall j :: 0 <= j < i ==> ToolNames[j] != call.name
        invariant result == None && log == old(log)
      {
        if ToolNames[i] == call.name {
          if call.name == GetCurrentDate {
            var o := Invoke(Invocation(call.name, map[]));
            result := Some(Render(call.name, o));
          } else if call.name == GetEvents {
            var o := Invoke(Invocation(call.name, map[]));
            result := Some(Render(call.name, o));
          } else if call.name == AddEvent {
            var o := Invoke(Invocation(call.name, call.args));
            result := Some(Render(call.name, o));
          } else if call.name == RemoveEvent {
            var o := Invoke(Invocation(call.name, call.args));
            result := Some(Render(call.name, o));
          } else if call.name == RescheduleEvent {
            var o := Invoke(Invocation(call.name, call.args));
            result := Some(Render(call.name, o));
          } else if call.name == GetCalendars {
            var o := Invoke(Invocation(call.name, map[]));
            result := Some(Render(call.name, o));
          }
          break;
        }
        i := i + 1;
      }
      if result == None {
        text := UnknownTool(call.name);
      } else {
        text := result.value;
      }
    }
  }
}
