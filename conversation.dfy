/**
 * The conversation turn as a specification: what one authorised message does
 * to a history, given the responses the model will give and the tools'
 * behaviour. The handler's loop is proved to compute exactly this.
 */
module Conversation {
  import opened Wrappers
  import opened Messages
  import opened Registry

  /** A history holds exactly one system message, and it comes first. */
  predicate OneSystemFirst(h: seq<Message>, instructions: string)
  {
    |h| > 0 && h[0] == SystemMessage(instructions) &&
    forall i :: 1 <= i < |h| ==> !h[i].SystemMessage?
  }

  /**
   * The history the user's message is appended to: the existing one, or a
   * new one holding only the system message when the user has none yet.
   */
  function Seed(hasHistory: bool, messages: seq<Message>, instructions: string): (h: seq<Message>)
    requires hasHistory ==> OneSystemFirst(messages, instructions)
    ensures OneSystemFirst(h, instructions)
    ensures hasHistory ==> h == messages
    ensures !hasHistory ==> |h| == 1
  {
    if hasHistory then messages else [SystemMessage(instructions)]
  }

  /** How a turn ends: with the model's final response, or with the model call failing. */
  datatype TurnEnd = Answered(final: Response) | ModelFailed

  /**
   * The outcome of a turn: the history after it, how it ended, the model
   * responses it left unconsumed, the history shown to each model call, and
   * the tool invocation log after it.
   */
  datatype TurnResult = TurnResult(
    history: seq<Message>,
    end: TurnEnd,
    rest: seq<Response>,
    prompts: seq<seq<Message>>,
    log: seq<Invocation>)

  /**
   * The tool-calling loop from history `h` when the model's next responses
   * are `rs`: ask the model; while the response carries tool calls, append
   * it and one answer per call and ask again; then append the final
   * response. Running out of responses is the model call failing, which
   * leaves the history as it stands.
   */
  function Turn(h: seq<Message>, rs: seq<Response>, env: ToolEnv, log: seq<Invocation>): (t: TurnResult)
    ensures |t.prompts| > 0 && t.prompts[0] == h
    ensures |t.prompts| <= |rs| + 1
    decreases |rs|
  {
    if rs == [] then TurnResult(h, ModelFailed, [], [h], log)
    else
      var r := rs[0];
      if r.toolCalls == [] then TurnResult(h + [AIMessage(r)], Answered(r), rs[1..], [h], log)
      else
        var b := Answers(r.toolCalls, env, log);
        var t := Turn(h + [AIMessage(r)] + b.results, rs[1..], env, b.log);
        t.(prompts := [h] + t.prompts)
  }

  /** The response the next model call gives when `rs` are still to come; None: the call fails. */
  function Next(rs: seq<Response>): Option<Response>
  {
    if rs == [] then None else Some(rs[0])
  }

  /** The responses still to come after that call. */
  function Later(rs: seq<Response>): seq<Response>
  {
    if rs == [] then [] else rs[1..]
  }

  /**
   * The same loop seen from inside: `response` is what the last model call
   * gave (None: it failed), `pending` what later calls will give, and
   * `seen` every history the model has been shown so far.
   */
  function Loop(h: seq<Message>, response: Option<Response>, pending: seq<Response>,
                env: ToolEnv, log: seq<Invocation>, seen: seq<seq<Message>>): TurnResult
    decreases |pending| + (if response.Some? then 1 else 0)
  {
    match response
    case None => TurnResult(h, ModelFailed, [], seen, log)
    case Some(r) =>
      if r.toolCalls == [] then TurnResult(h + [AIMessage(r)], Answered(r), pending, seen, log)
      else
        var b := Answers(r.toolCalls, env, log);
        var h' := h + [AIMessage(r)] + b.results;
        Loop(h', Next(pending), Later(pending), env, b.log, seen + [h'])
  }

  /**
   * Entering the loop after the first model call gives the turn, with the
   * histories the model was shown before the turn in front of its prompts.
   */
  lemma {:induction false} LoopIsTurn(h: seq<Message>, rs: seq<Response>, env: ToolEnv,
                                      log: seq<Invocation>, seen: seq<seq<Message>>)
    ensures var t := Turn(h, rs, env, log);
      Loop(h, Next(rs), Later(rs), env, log, seen + [h]) == t.(prompts := seen + t.prompts)
    decreases |rs|
  {
    if rs != [] && rs[0].toolCalls != [] {
      var r := rs[0];
      var b := Answers(r.toolCalls, env, log);
      var h' := h + [AIMessage(r)] + b.results;
      LoopIsTurn(h', rs[1..], env, b.log, seen + [h]);
      var t' := Turn(h', rs[1..], env, b.log);
      assert seen + [h] + t'.prompts == seen + ([h] + t'.prompts);
    }
  }

  /**
   * A sequence of complete tool rounds: each a response with at least one
   * tool call, followed by exactly one tool message per call, in call order,
   * echoing the call's id.
   */
  predicate Rounds(ext: seq<Message>)
    decreases |ext|
  {
    ext == [] ||
    (ext[0].AIMessage? &&
     var calls := ext[0].response.toolCalls;
     0 < |calls| && |calls| < |ext| &&
     (forall i :: 0 <= i < |calls| ==> AnswersCall(ext[1..], calls[i], i)) &&
     Rounds(ext[1 + |calls|..]))
  }

  /** `ms[i]` is the tool message answering `call`. */
  predicate AnswersCall(ms: seq<Message>, call: ToolCall, i: nat)
  {
    i < |ms| && ms[i].ToolMessage? && ms[i].toolCallId == call.id
  }

  lemma {:induction false} RoundsHaveNoSystem(ext: seq<Message>)
    requires Rounds(ext)
    ensures forall i :: 0 <= i < |ext| ==> !ext[i].SystemMessage?
    decreases |ext|
  {
    if ext != [] {
      var k := |ext[0].response.toolCalls|;
      RoundsHaveNoSystem(ext[1 + k..]);
      forall i | 0 <= i < |ext| ensures !ext[i].SystemMessage? {
        if 1 <= i <= k {
          assert AnswersCall(ext[1..], ext[0].response.toolCalls[i - 1], i - 1);
        } else if i > k {
          assert ext[i] == ext[1 + k..][i - 1 - k];
        }
      }
    }
  }

  /** A response with tool calls, its answers and further rounds form rounds. */
  lemma RoundsCons(r: Response, results: seq<Message>, tail: seq<Message>)
    requires r.toolCalls != [] && |results| == |r.toolCalls|
    requires forall i :: 0 <= i < |results| ==>
      results[i].ToolMessage? && results[i].toolCallId == r.toolCalls[i].id
    requires Rounds(tail)
    ensures Rounds([AIMessage(r)] + results + tail)
  {
    var ext := [AIMessage(r)] + results + tail;
    assert ext[1 + |results|..] == tail;
    forall i | 0 <= i < |results| ensures AnswersCall(ext[1..], r.toolCalls[i], i) {
      assert ext[1..][i] == results[i];
    }
  }

  /** The same, for a slice of a longer history that starts with `h` and that round. */
  lemma RoundsPrepend(h: seq<Message>, r: Response, results: seq<Message>, x: seq<Message>, n: nat)
    requires r.toolCalls != [] && |results| == |r.toolCalls|
    requires forall i :: 0 <= i < |results| ==>
      results[i].ToolMessage? && results[i].toolCallId == r.toolCalls[i].id
    requires h + [AIMessage(r)] + results <= x && |h| + 1 + |results| <= n <= |x|
    requires Rounds(x[|h| + 1 + |results|..n])
    ensures Rounds(x[|h|..n])
  {
    var mid := [AIMessage(r)] + results;
    var tail := x[|h| + 1 + |results|..n];
    assert x[|h|..|h| + |mid|] == mid;
    assert x[|h|..n] == mid + tail;
    RoundsCons(r, results, tail);
  }

  /** Where the tool rounds of a turn's history end: before the final response, if any. */
  function RoundsEnd(t: TurnResult): nat
  {
    if t.end.Answered? && t.history != [] then |t.history| - 1 else |t.history|
  }

  /** What a turn appends after the history it started from. */
  predicate Appended(h: seq<Message>, t: TurnResult)
  {
    h <= t.history && |h| <= RoundsEnd(t) &&
    Rounds(t.history[|h|..RoundsEnd(t)]) &&
    (t.end.Answered? ==>
      t.end.final.toolCalls == [] && |h| < |t.history| &&
      t.history[|t.history| - 1] == AIMessage(t.end.final))
  }

  /**
   * The turn only appends: `h` is a prefix of the history after it, and
   * what follows is complete tool rounds, then the final response (which
   * has no tool calls) when the turn is answered, or nothing more when the
   * model call failed. The invocation log only grows.
   */
  lemma {:induction false} TurnShape(h: seq<Message>, rs: seq<Response>, env: ToolEnv, log: seq<Invocation>)
    ensures Appended(h, Turn(h, rs, env, log))
    ensures log <= Turn(h, rs, env, log).log
    decreases |rs|
  {
    var T := Turn(h, rs, env, log);
    if rs == [] {
      assert T.history[|h|..|h|] == [];
    } else if rs[0].toolCalls == [] {
      assert T.history[|h|..|T.history| - 1] == [];
    } else {
      var r := rs[0];
      var b := Answers(r.toolCalls, env, log);
      var h' := h + [AIMessage(r)] + b.results;
      TurnShape(h', rs[1..], env, b.log);
      ShapeStep(h, r, b.results, Turn(h', rs[1..], env, b.log), T);
    }
  }

  /** A tool round in front of what a later turn appended is still rounds. */
  lemma ShapeStep(h: seq<Message>, r: Response, results: seq<Message>, t: TurnResult, T: TurnResult)
    requires r.toolCalls != [] && |results| == |r.toolCalls|
    requires forall i :: 0 <= i < |results| ==>
      results[i].ToolMessage? && results[i].toolCallId == r.toolCalls[i].id
    requires Appended(h + [AIMessage(r)] + results, t)
    requires T.history == t.history && T.end == t.end
    ensures Appended(h, T)
  {
    RoundsPrepend(h, r, results, t.history, RoundsEnd(t));
  }

  /**
   * Each model call is shown the whole history as it stands: every prompt
   * is a prefix of the final history. An answered turn ends with the final
   * response appended to the last prompt; a failed one ends exactly at the
   * last prompt, with nothing rolled back.
   */
  lemma {:induction false} TurnPrompts(h: seq<Message>, rs: seq<Response>, env: ToolEnv, log: seq<Invocation>)
    ensures var t := Turn(h, rs, env, log);
      (forall i :: 0 <= i < |t.prompts| ==> t.prompts[i] <= t.history) &&
      (t.end.Answered? ==> t.history == t.prompts[|t.prompts| - 1] + [AIMessage(t.end.final)]) &&
      (t.end.ModelFailed? ==> t.history == t.prompts[|t.prompts| - 1])
    decreases |rs|
  {
    if rs != [] && rs[0].toolCalls != [] {
      var r := rs[0];
      var b := Answers(r.toolCalls, env, log);
      var h' := h + [AIMessage(r)] + b.results;
      TurnPrompts(h', rs[1..], env, b.log);
      TurnShape(h', rs[1..], env, b.log);
    }
  }

  /**
   * The loop exits exactly at the first response without tool calls: the
   * turn is answered iff some response has none, the final response is the
   * first such one, the model is called once per response up to it, and the
   * responses after it are left. A failed turn consumed every response and
   * made one more call.
   */
  predicate ExitsAtFirstAnswer(rs: seq<Response>, t: TurnResult)
  {
    (t.end.Answered? <==> exists k :: 0 <= k < |rs| && rs[k].toolCalls == []) &&
    (t.end.Answered? ==>
      var k := |t.prompts| - 1;
      0 <= k < |rs| && rs[k] == t.end.final && t.rest == rs[k + 1..] &&
      forall j :: 0 <= j < k ==> rs[j].toolCalls != []) &&
    (t.end.ModelFailed? ==> |t.prompts| == |rs| + 1 && t.rest == [])
  }

  lemma {:induction false} TurnExit(h: seq<Message>, rs: seq<Response>, env: ToolEnv, log: seq<Invocation>)
    ensures ExitsAtFirstAnswer(rs, Turn(h, rs, env, log))
    decreases |rs|
  {
    if rs != [] && rs[0].toolCalls != [] {
      var r := rs[0];
      var b := Answers(r.toolCalls, env, log);
      var h' := h + [AIMessage(r)] + b.results;
      TurnExit(h', rs[1..], env, b.log);
      ExitStep(rs, Turn(h', rs[1..], env, b.log), Turn(h, rs, env, log));
    }
  }

  /** A response with tool calls in front of a later turn's responses moves its exit by one. */
  lemma ExitStep(rs: seq<Response>, t: TurnResult, T: TurnResult)
    requires rs != [] && rs[0].toolCalls != []
    requires ExitsAtFirstAnswer(rs[1..], t)
    requires T.end == t.end && T.rest == t.rest && |T.prompts| == |t.prompts| + 1
    ensures ExitsAtFirstAnswer(rs, T)
  {
    if t.end.Answered? {
      var k :| 0 <= k < |rs[1..]| && rs[1..][k].toolCalls == [];
      assert rs[k + 1].toolCalls == [];
      assert rs[1..][|t.prompts|..] == rs[|T.prompts|..];
      forall j | 0 <= j < |T.prompts| - 1 ensures rs[j].toolCalls != [] {
        if j > 0 {
          assert rs[j] == rs[1..][j - 1];
        }
      }
    } else {
      forall k | 0 <= k < |rs| ensures rs[k].toolCalls != [] {
        if k > 0 {
          assert rs[k] == rs[1..][k - 1];
        }
      }
    }
  }

  /** The invocations the tool calls of a run of responses make, in order. */
  function RequestedInvocations(rs: seq<Response>): seq<Invocation>
    decreases |rs|
  {
    if rs == [] then [] else Invocations(rs[0].toolCalls) + RequestedInvocations(rs[1..])
  }

  /**
   * A turn invokes exactly the registered tools named by the responses it
   * consumed, in order, whatever the tools returned or raised.
   */
  lemma {:induction false} TurnLog(h: seq<Message>, rs: seq<Response>, env: ToolEnv, log: seq<Invocation>)
    ensures var t := Turn(h, rs, env, log);
      t.log == log + RequestedInvocations(rs[..|t.prompts| - 1])
    decreases |rs|
  {
    if rs == [] || rs[0].toolCalls == [] {
      assert rs[..0] == [];
    } else {
      var r := rs[0];
      var b := Answers(r.toolCalls, env, log);
      var h' := h + [AIMessage(r)] + b.results;
      TurnLog(h', rs[1..], env, b.log);
      AnswersLog(r.toolCalls, env, log);
      LogStep(rs, log, b.log, Turn(h', rs[1..], env, b.log), Turn(h, rs, env, log));
    }
  }

  lemma LogStep(rs: seq<Response>, log: seq<Invocation>, mid: seq<Invocation>, t: TurnResult, T: TurnResult)
    requires rs != [] && 0 < |t.prompts| <= |rs|
    requires mid == log + Invocations(rs[0].toolCalls)
    requires t.log == mid + RequestedInvocations(rs[1..][..|t.prompts| - 1])
    requires T.log == t.log && |T.prompts| == |t.prompts| + 1
    ensures T.log == log + RequestedInvocations(rs[..|T.prompts| - 1])
  {
    var k := |t.prompts|;
    assert rs[..k][1..] == rs[1..][..k - 1];
  }

  /** A history with one leading system message keeps that shape through a turn. */
  lemma TurnKeepsOneSystem(h: seq<Message>, rs: seq<Response>, env: ToolEnv, log: seq<Invocation>, instructions: string)
    requires OneSystemFirst(h, instructions)
    ensures OneSystemFirst(Turn(h, rs, env, log).history, instructions)
  {
    var t := Turn(h, rs, env, log);
    TurnShape(h, rs, env, log);
    NoSystemAppended(h, t, instructions);
  }

  /** Appending tool rounds and a final response adds no system message. */
  lemma NoSystemAppended(h: seq<Message>, t: TurnResult, instructions: string)
    requires OneSystemFirst(h, instructions) && Appended(h, t)
    ensures OneSystemFirst(t.history, instructions)
  {
    var n := RoundsEnd(t);
    RoundsHaveNoSystem(t.history[|h|..n]);
    forall i | 1 <= i < |t.history| ensures !t.history[i].SystemMessage? {
      if |h| <= i < n {
        assert t.history[i] == t.history[|h|..n][i - |h|];
      }
    }
  }
}
