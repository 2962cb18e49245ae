/** One turn of an agent handler (`handle_goal_agent_prompt`,
    `handle_budget_agent_prompt`): reset, first model reply, the unbounded
    tool loop and the catch-all, over the process-wide message history.

    The model is a script of outcomes consumed in order; running out of script
    stands for a raised exception. `handle_tool_usage` is an uninterpreted
    function of the reply text that either returns the tool response or raises. */
module Agent {
  import opened Text
  import opened Protocol

  /** The outcome of one external call: its text, or the message of the
      exception it raised. */
  datatype Call = Returned(text: string) | Raised(message: string)

  /** `str(e)` of the exception raised when the model has no reply left. */
  const ScriptExhausted := "the model has no reply left"

  /** The next model reply and what is left of the script after it. */
  function NextReply(script: seq<Call>): (Call, seq<Call>)
  {
    if script == [] then (Raised(ScriptExhausted), []) else (script[0], script[1..])
  }

  /** Which `return` of the handler ends the turn. */
  datatype Ending =
    | Reset      // `/start`: history reseeded with the welcome message
    | Direct     // first reply asked or answered: stripped text after `:::`
    | Verbatim   // first reply had no marker at all
    | ToolFinal  // first follow-up of the tool loop without `USE_TOOL:::`
    | Error      // an exception turned into `An error occurred: ...`

  /** The history after the turn, the returned `content`, the unused part of
      the model script, and the way the turn ended. */
  datatype TurnResult = TurnResult(history: seq<Message>, content: string, rest: seq<Call>, ending: Ending)

  /** The `while "USE_TOOL:::" in agent_response.text` loop, entered with the
      reply `reply` that asks for a tool and the history `h` that already
      holds it. */
  function ToolLoop(h: seq<Message>, reply: string, rest: seq<Call>, tool: string -> Call): TurnResult
    requires UsesTool(reply)
    decreases |rest|
  {
    match tool(reply)
    case Raised(e) => TurnResult(h, ErrorContent(e), rest, Error)
    case Returned(t) =>
      var h1 := h + [Message(System, t)];
      var (follow, more) := NextReply(rest);
      match follow
      case Raised(e) => TurnResult(h1, ErrorContent(e), more, Error)
      case Returned(f) =>
        var h2 := h1 + [Message(System, f)];
        if UsesTool(f) then ToolLoop(h2, f, more, tool)
        else TurnResult(h2, f, more, ToolFinal)
  }

  /** One call of the handler with history `h` and welcome text `welcome`. */
  function TurnSpec(h: seq<Message>, welcome: string, input: string, script: seq<Call>, tool: string -> Call): TurnResult
  {
    if IsReset(input) then
      TurnResult([Message(System, welcome)], welcome, script, Reset)
    else
      var h1 := h + [Message(User, input)];
      var (first, more) := NextReply(script);
      match first
      case Raised(e) => TurnResult(h1, ErrorContent(e), more, Error)
      case Returned(r) =>
        var h2 := h1 + [Message(System, r)];
        if IsDirect(r) then TurnResult(h2, DirectContent(r), more, Direct)
        else if UsesTool(r) then ToolLoop(h2, r, more, tool)
        else TurnResult(h2, r, more, Verbatim)
  }

  /** `calls` is a prefix of the model script and `t` the history entries a
      tool loop appended: for each iteration the tool response to the current
      reply, then the follow-up reply taken from `calls`; every follow-up but
      the last asks for another tool, and the last does not. */
  ghost predicate Transcript(reply: string, t: seq<Message>, calls: seq<Call>, tool: string -> Call)
    decreases |calls|
  {
    && |t| >= 2 && |calls| >= 1
    && tool(reply) == Returned(t[0].content) && t[0].role == System
    && calls[0] == Returned(t[1].content) && t[1].role == System
    && if |calls| == 1 then |t| == 2 && !UsesTool(t[1].content)
       else UsesTool(t[1].content) && Transcript(t[1].content, t[2..], calls[1..], tool)
  }

  /** `suffix` is what is left of `s` after some leading calls were used. */
  predicate IsSuffix(suffix: seq<Call>, s: seq<Call>)
  {
    |suffix| <= |s| && suffix == s[|s| - |suffix|..]
  }

  /** The tool loop entered with `reply` and the script `rest` ended with an
      exception, leaving `left` of the script, after appending `t`, and
      `content` is the text of the exception of the call that raised: the tool
      call on the current reply (nothing appended), or else the follow-up call
      after the tool response (the script ran out, or its next entry raised),
      or else, after a follow-up that asks for another tool, the same one
      iteration later. */
  ghost predicate ErrorTrace(reply: string, t: seq<Message>, rest: seq<Call>, left: seq<Call>, tool: string -> Call, content: string)
    decreases |rest|
  {
    match tool(reply)
    case Raised(e) => t == [] && left == rest && content == ErrorContent(e)
    case Returned(resp) =>
      && |t| >= 1 && t[0] == Message(System, resp)
      && if rest == [] then |t| == 1 && left == [] && content == ErrorContent(ScriptExhausted)
         else match rest[0]
           case Raised(e) => |t| == 1 && left == rest[1..] && content == ErrorContent(e)
           case Returned(f) =>
             && |t| >= 2 && t[1] == Message(System, f) && UsesTool(f)
             && ErrorTrace(f, t[2..], rest[1..], left, tool, content)
  }

  lemma {:induction false} TranscriptLength(reply: string, t: seq<Message>, calls: seq<Call>, tool: string -> Call)
    requires Transcript(reply, t, calls, tool)
    ensures |t| == 2 * |calls|
    decreases |calls|
  {
    if |calls| > 1 { TranscriptLength(t[1].content, t[2..], calls[1..], tool); }
  }

  /** The tool loop only appends to the history and only consumes the script;
      it ends with the first follow-up that asks for no tool, or with an error
      whose content is the error text. */
  lemma {:induction false} ToolLoopBounds(h: seq<Message>, reply: string, rest: seq<Call>, tool: string -> Call)
    requires UsesTool(reply)
    ensures var r := ToolLoop(h, reply, rest, tool);
      && (r.ending == ToolFinal || r.ending == Error)
      && h <= r.history
      && IsSuffix(r.rest, rest)
      && (r.ending == Error ==> exists m :: r.content == ErrorContent(m))
    decreases |rest|
  {
    var r := ToolLoop(h, reply, rest, tool);
    match tool(reply)
    case Raised(e) =>
      assert r.content == ErrorContent(e);
    case Returned(t) =>
      var h1 := h + [Message(System, t)];
      var (follow, more) := NextReply(rest);
      match follow
      case Raised(e) =>
        assert r.content == ErrorContent(e);
      case Returned(f) =>
        var h2 := h1 + [Message(System, f)];
        if UsesTool(f) {
          ToolLoopBounds(h2, f, more, tool);
        }
  }

  /** A transcript grows by one iteration at the front. */
  lemma TranscriptCons(reply: string, t: string, f: string, c: Call, tail: seq<Message>, calls: seq<Call>, tool: string -> Call)
    requires tool(reply) == Returned(t) && c == Returned(f) && UsesTool(f)
    requires Transcript(f, tail, calls, tool)
    ensures Transcript(reply, [Message(System, t), Message(System, f)] + tail, [c] + calls, tool)
  {
    var t' := [Message(System, t), Message(System, f)] + tail;
    assert t'[2..] == tail;
    assert ([c] + calls)[1..] == calls;
  }

  /** When the tool loop ends normally, the appended entries are a transcript
      of the loop whose last entry is the returned content, unchanged. */
  lemma {:induction false} ToolLoopTranscript(h: seq<Message>, reply: string, rest: seq<Call>, tool: string -> Call)
    requires UsesTool(reply)
    requires ToolLoop(h, reply, rest, tool).ending == ToolFinal
    ensures var r := ToolLoop(h, reply, rest, tool);
      && h <= r.history
      && IsSuffix(r.rest, rest)
      && Transcript(reply, r.history[|h|..], rest[..|rest| - |r.rest|], tool)
      && r.content == r.history[|r.history| - 1].content
      && !UsesTool(r.content)
    decreases |rest|
  {
    var r := ToolLoop(h, reply, rest, tool);
    assert tool(reply).Returned? && rest != [] && rest[0].Returned?;
    var t := tool(reply).text;
    var f := rest[0].text;
    var more := rest[1..];
    var pair := [Message(System, t), Message(System, f)];
    var h2 := h + [Message(System, t)] + [Message(System, f)];
    assert h2 == h + pair;
    if UsesTool(f) {
      assert r == ToolLoop(h2, f, more, tool);
      ToolLoopTranscript(h2, f, more, tool);
      var n := |more| - |r.rest|;
      assert rest[..|rest| - |r.rest|] == [rest[0]] + more[..n];
      assert r.history[|h|..] == pair + r.history[|h2|..];
      TranscriptCons(reply, t, f, rest[0], r.history[|h2|..], more[..n], tool);
    } else {
      assert r == TurnResult(h2, f, more, ToolFinal);
      assert rest[..|rest| - |r.rest|] == [rest[0]];
      assert r.history[|h|..] == pair;
    }
  }

  /** When the tool loop ends with an exception, the appended entries, the
      script left and the content are those of an error trace: the content is
      the text of the exception the failing call raised. */
  lemma {:induction false} ToolLoopErrorTrace(h: seq<Message>, reply: string, rest: seq<Call>, tool: string -> Call)
    requires UsesTool(reply)
    requires ToolLoop(h, reply, rest, tool).ending == Error
    ensures var r := ToolLoop(h, reply, rest, tool);
      h <= r.history && ErrorTrace(reply, r.history[|h|..], rest, r.rest, tool, r.content)
    decreases |rest|
  {
    var r := ToolLoop(h, reply, rest, tool);
    match tool(reply)
    case Raised(e) =>
      assert r.history[|h|..] == [];
    case Returned(t) =>
      var h1 := h + [Message(System, t)];
      if rest == [] {
        assert r == TurnResult(h1, ErrorContent(ScriptExhausted), [], Error);
        assert r.history[|h|..] == [Message(System, t)];
      } else if rest[0].Raised? {
        assert r == TurnResult(h1, ErrorContent(rest[0].message), rest[1..], Error);
        assert r.history[|h|..] == [Message(System, t)];
      } else {
        var f := rest[0].text;
        var h2 := h1 + [Message(System, f)];
        assert UsesTool(f);
        assert r == ToolLoop(h2, f, rest[1..], tool);
        ToolLoopErrorTrace(h2, f, rest[1..], tool);
        assert r.history[|h|..] == [Message(System, t), Message(System, f)] + r.history[|h2|..];
        assert r.history[|h|..][2..] == r.history[|h2|..];
      }
  }

  /** A failing follow-up call ends the turn with its error text; the tool
      response stays in the history and nothing else is appended. */
  lemma FollowUpFailureCaught(h: seq<Message>, reply: string, t: string, e: string, more: seq<Call>, tool: string -> Call)
    requires UsesTool(reply) && tool(reply) == Returned(t)
    ensures ToolLoop(h, reply, [Raised(e)] + more, tool) == TurnResult(h + [Message(System, t)], ErrorContent(e), more, Error)
  {
    assert ([Raised(e)] + more)[1..] == more;
  }

  /** A follow-up call for which the model has no reply left fails the same way. */
  lemma FollowUpExhausted(h: seq<Message>, reply: string, t: string, tool: string -> Call)
    requires UsesTool(reply) && tool(reply) == Returned(t)
    ensures ToolLoop(h, reply, [], tool) == TurnResult(h + [Message(System, t)], ErrorContent(ScriptExhausted), [], Error)
  {
  }

  /** `/start` (any case, any surrounding whitespace) drops the whole history,
      leaves exactly the welcome message, returns its text and asks the model
      nothing; it is also the only way a turn ends in a reset. */
  lemma ResetSeedsWelcome(h: seq<Message>, welcome: string, input: string, script: seq<Call>, tool: string -> Call)
    ensures var r := TurnSpec(h, welcome, input, script, tool);
      IsReset(input) <==> r.ending == Reset
    ensures IsReset(input) ==>
      TurnSpec(h, welcome, input, script, tool) == TurnResult([Message(System, welcome)], welcome, script, Reset)
  {
    if !IsReset(input) && script != [] && script[0].Returned? {
      var reply := script[0].text;
      if !IsDirect(reply) && UsesTool(reply) {
        assert script == [Returned(reply)] + script[1..];
        ToolTurnStep(h, welcome, input, reply, script[1..], tool);
        ToolLoopBounds(h + [Message(User, input)] + [Message(System, reply)], reply, script[1..], tool);
      }
    }
  }

  /** Any other input is appended as a `user` message before the model is
      asked; when the model replies, its text follows as a `system` message. */
  lemma UserMessageThenReply(h: seq<Message>, welcome: string, input: string, script: seq<Call>, tool: string -> Call)
    requires !IsReset(input)
    ensures var r := TurnSpec(h, welcome, input, script, tool);
      |r.history| > |h| && r.history[..|h| + 1] == h + [Message(User, input)]
    ensures var r := TurnSpec(h, welcome, input, script, tool);
      script != [] && script[0].Returned? ==>
        |r.history| >= |h| + 2 && r.history[|h| + 1] == Message(System, script[0].text)
  {
    var h1 := h + [Message(User, input)];
    var r := TurnSpec(h, welcome, input, script, tool);
    if script != [] && script[0].Returned? {
      var reply := script[0].text;
      var h2 := h1 + [Message(System, reply)];
      if !IsDirect(reply) && UsesTool(reply) {
        assert script == [Returned(reply)] + script[1..];
        ToolTurnStep(h, welcome, input, reply, script[1..], tool);
        ToolLoopBounds(h2, reply, script[1..], tool);
      }
      assert h2 <= r.history;
      assert r.history[..|h| + 1] == h2[..|h| + 1];
    }
  }

  /** A first reply that contains `REQUEST_INFORMATION:::` or `ANSWER:::` ends
      the turn with the stripped text after its first `:::`, even when it also
      asks for a tool; the invalid-format text is never returned this way. */
  lemma DirectReplyWins(h: seq<Message>, welcome: string, input: string, reply: string, more: seq<Call>, tool: string -> Call)
    requires !IsReset(input) && IsDirect(reply)
    ensures TurnSpec(h, welcome, input, [Returned(reply)] + more, tool) ==
      TurnResult(h + [Message(User, input)] + [Message(System, reply)], DirectContent(reply), more, Direct)
  {
    var script := [Returned(reply)] + more;
    assert NextReply(script) == (Returned(reply), more);
  }

  /** A first reply with no marker at all is returned unchanged. */
  lemma UnmarkedReplyVerbatim(h: seq<Message>, welcome: string, input: string, reply: string, more: seq<Call>, tool: string -> Call)
    requires !IsReset(input) && !IsDirect(reply) && !UsesTool(reply)
    ensures TurnSpec(h, welcome, input, [Returned(reply)] + more, tool) ==
      TurnResult(h + [Message(User, input)] + [Message(System, reply)], reply, more, Verbatim)
  {
    assert ([Returned(reply)] + more)[1..] == more;
  }

  /** One iteration of the tool loop appends exactly the tool response and then
      the follow-up reply, and goes round again exactly when the follow-up asks
      for a tool; otherwise the follow-up is returned unchanged, markers and
      all. */
  lemma ToolIteration(h: seq<Message>, reply: string, t: string, f: string, more: seq<Call>, tool: string -> Call)
    requires UsesTool(reply) && tool(reply) == Returned(t)
    ensures var h2 := h + [Message(System, t), Message(System, f)];
      ToolLoop(h, reply, [Returned(f)] + more, tool) ==
        if UsesTool(f) then ToolLoop(h2, f, more, tool) else TurnResult(h2, f, more, ToolFinal)
  {
    assert ([Returned(f)] + more)[1..] == more;
    assert h + [Message(System, t)] + [Message(System, f)] == h + [Message(System, t), Message(System, f)];
  }

  /** A non-reset turn whose first reply is no direct reply and asks for a
      tool continues in the tool loop with the rest of the script. */
  lemma ToolTurnStep(h: seq<Message>, welcome: string, input: string, reply: string, more: seq<Call>, tool: string -> Call)
    requires !IsReset(input) && !IsDirect(reply) && UsesTool(reply)
    ensures TurnSpec(h, welcome, input, [Returned(reply)] + more, tool) ==
      ToolLoop(h + [Message(User, input)] + [Message(System, reply)], reply, more, tool)
  {
    assert NextReply([Returned(reply)] + more) == (Returned(reply), more);
  }

  /** A turn ends in the tool loop only when the first reply arrived, was no
      direct reply and asked for a tool. */
  lemma ToolTurnEntersLoop(h: seq<Message>, welcome: string, input: string, script: seq<Call>, tool: string -> Call)
    requires TurnSpec(h, welcome, input, script, tool).ending == ToolFinal
    ensures !IsReset(input) && script != [] && script[0].Returned?
    ensures !IsDirect(script[0].text) && UsesTool(script[0].text)
    ensures TurnSpec(h, welcome, input, script, tool) ==
      ToolLoop(h + [Message(User, input)] + [Message(System, script[0].text)], script[0].text, script[1..], tool)
  {
    ResetSeedsWelcome(h, welcome, input, script, tool);
  }

  /** A turn that goes through the tool loop and ends normally returns the last
      follow-up verbatim; the history then holds the user message, the first
      reply and a transcript of the loop, and every model call made is one
      entry of that history. */
  lemma ToolTurnTranscript(h: seq<Message>, welcome: string, input: string, script: seq<Call>, tool: string -> Call)
    requires TurnSpec(h, welcome, input, script, tool).ending == ToolFinal
    ensures script != [] && script[0].Returned?
    ensures var first := script[0].text;
      var r := TurnSpec(h, welcome, input, script, tool);
      var h2 := h + [Message(User, input)] + [Message(System, first)];
      && !IsDirect(first) && UsesTool(first)
      && h2 <= r.history
      && IsSuffix(r.rest, script[1..])
      && Transcript(first, r.history[|h2|..], script[1..|script| - |r.rest|], tool)
      && |r.history| == |h| + 2 + 2 * (|script| - 1 - |r.rest|)
      && r.content == r.history[|r.history| - 1].content && !UsesTool(r.content)
  {
    ToolTurnEntersLoop(h, welcome, input, script, tool);
    var first := script[0].text;
    var h2 := h + [Message(User, input)] + [Message(System, first)];
    var r := TurnSpec(h, welcome, input, script, tool);
    ToolLoopTranscript(h2, first, script[1..], tool);
    assert script[1..][..|script[1..]| - |r.rest|] == script[1..|script| - |r.rest|];
    TranscriptLength(first, r.history[|h2|..], script[1..|script| - |r.rest|], tool);
  }

  /** A turn whose first reply arrived ends in an error only inside the tool
      loop, and then the rest of the turn is an error trace of the loop. */
  lemma ToolTurnErrorTrace(h: seq<Message>, welcome: string, input: string, script: seq<Call>, tool: string -> Call)
    requires !IsReset(input) && script != [] && script[0].Returned?
    ensures var r := TurnSpec(h, welcome, input, script, tool);
      r.ending == Error ==>
      && !IsDirect(script[0].text) && UsesTool(script[0].text)
      && |r.history| >= |h| + 2
      && r.history[..|h| + 2] == h + [Message(User, input)] + [Message(System, script[0].text)]
      && ErrorTrace(script[0].text, r.history[|h| + 2..], script[1..], r.rest, tool, r.content)
  {
    var reply := script[0].text;
    var h2 := h + [Message(User, input)] + [Message(System, reply)];
    assert NextReply(script) == (Returned(reply), script[1..]);
    if TurnSpec(h, welcome, input, script, tool).ending == Error {
      assert !IsDirect(reply) && UsesTool(reply);
      var r := ToolLoop(h2, reply, script[1..], tool);
      assert TurnSpec(h, welcome, input, script, tool) == r;
      ToolLoopErrorTrace(h2, reply, script[1..], tool);
      assert r.history[..|h| + 2] == h2;
    }
  }

  /** Every exception is caught: a failed first model call leaves the user
      message as the last history entry, a failed tool call or follow-up keeps
      everything appended before it, and the content is the error text. */
  lemma ErrorsAreCaught(h: seq<Message>, welcome: string, input: string, script: seq<Call>, tool: string -> Call)
    requires !IsReset(input)
    ensures script == [] ==>
      TurnSpec(h, welcome, input, script, tool) ==
        TurnResult(h + [Message(User, input)], ErrorContent(ScriptExhausted), [], Error)
    ensures script != [] && script[0].Raised? ==>
      TurnSpec(h, welcome, input, script, tool) ==
        TurnResult(h + [Message(User, input)], ErrorContent(script[0].message), script[1..], Error)
    ensures var r := TurnSpec(h, welcome, input, script, tool);
      r.ending == Error ==> exists m :: r.content == ErrorContent(m)
    ensures var r := TurnSpec(h, welcome, input, script, tool);
      r.ending == Error && script != [] && script[0].Returned? ==>
        && !IsDirect(script[0].text) && UsesTool(script[0].text)
        && |r.history| >= |h| + 2
        && r.history[..|h| + 2] == h + [Message(User, input)] + [Message(System, script[0].text)]
        && ErrorTrace(script[0].text, r.history[|h| + 2..], script[1..], r.rest, tool, r.content)
  {
    var r := TurnSpec(h, welcome, input, script, tool);
    if script != [] && script[0].Returned? {
      var reply := script[0].text;
      if !IsDirect(reply) && UsesTool(reply) {
        assert script == [Returned(reply)] + script[1..];
        ToolTurnStep(h, welcome, input, reply, script[1..], tool);
        ToolLoopBounds(h + [Message(User, input)] + [Message(System, reply)], reply, script[1..], tool);
      }
      ToolTurnErrorTrace(h, welcome, input, script, tool);
    } else {
      assert r.content == ErrorContent(NextReply(script).0.message);
    }
  }

  /** A failing tool call ends the turn at once with its error text; the
      history keeps everything appended before the call. */
  lemma ToolFailureCaught(h: seq<Message>, reply: string, e: string, rest: seq<Call>, tool: string -> Call)
    requires UsesTool(reply) && tool(reply) == Raised(e)
    ensures ToolLoop(h, reply, rest, tool) == TurnResult(h, ErrorContent(e), rest, Error)
  {
  }

  /** Apart from `/start`, the history only grows, even when the turn ends in
      an error; and the model script is consumed from the front, at least one
      reply per non-reset turn (when there is one). */
  lemma HistoryOnlyGrows(h: seq<Message>, welcome: string, input: string, script: seq<Call>, tool: string -> Call)
    ensures var r := TurnSpec(h, welcome, input, script, tool);
      !IsReset(input) ==> h < r.history
    ensures var r := TurnSpec(h, welcome, input, script, tool);
      IsSuffix(r.rest, script) && (!IsReset(input) && script != [] ==> |r.rest| < |script|)
  {
    if !IsReset(input) {
      UserMessageThenReply(h, welcome, input, script, tool);
      var r := TurnSpec(h, welcome, input, script, tool);
      assert r.history[..|h|] == r.history[..|h| + 1][..|h|];
      ScriptConsumed(h, welcome, input, script, tool);
    }
  }

  lemma ScriptConsumed(h: seq<Message>, welcome: string, input: string, script: seq<Call>, tool: string -> Call)
    requires !IsReset(input)
    ensures var r := TurnSpec(h, welcome, input, script, tool);
      IsSuffix(r.rest, script) && (script != [] ==> |r.rest| < |script|)
  {
    if script != [] && script[0].Returned? {
      var reply := script[0].text;
      if !IsDirect(reply) && UsesTool(reply) {
        assert script == [Returned(reply)] + script[1..];
        ToolTurnStep(h, welcome, input, reply, script[1..], tool);
        ToolLoopBounds(h + [Message(User, input)] + [Message(System, reply)], reply, script[1..], tool);
      }
    }
  }

  /** The process-wide `message_history` of one agent module, with that
      module's `welcome_message`. */
  class Session {
    const welcome: string
    var history: seq<Message>

    /** Module load: `message_history = []`. */
    constructor (welcome: string)
      ensures this.welcome == welcome && history == []
    {
      this.welcome := welcome;
      history := [];
    }

    /** The handler: one prompt in, `{"content": ...}` out. `script` holds the
        model's upcoming replies; `rest` is what the turn left of it. */
    method Turn(input: string, script: seq<Call>, tool: string -> Call) returns (content: string, rest: seq<Call>)
      modifies this
      ensures var r := TurnSpec(old(history), welcome, input, script, tool);
        history == r.history && content == r.content && rest == r.rest
      ensures IsReset(input) ==> history == [Message(System, welcome)] && content == welcome && rest == script
      ensures !IsReset(input) ==> old(history) < history
    {
      ghost var goal := TurnSpec(history, welcome, input, script, tool);
      ResetSeedsWelcome(history, welcome, input, script, tool);
      HistoryOnlyGrows(history, welcome, input, script, tool);

      if IsReset(input) {
        history := [Message(System, welcome)];
        return welcome, script;
      }
      history := history + [Message(User, input)];

      var call := NextReply(script);
      var first := call.0;
      rest := call.1;
      if first.Raised? {
        return ErrorContent(first.message), rest;
      }
      var reply := first.text;
      history := history + [Message(System, reply)];

      if IsDirect(reply) {
        return DirectContent(reply), rest;
      }

      while UsesTool(reply)
        invariant UsesTool(reply) ==> ToolLoop(history, reply, rest, tool) == goal
        invariant !UsesTool(reply) ==> goal == TurnResult(history, reply, rest, Verbatim)
        decreases |rest|
      {
        var toolCall := tool(reply);
        if toolCall.Raised? {
          return ErrorContent(toolCall.message), rest;
        }
        history := history + [Message(System, toolCall.text)];

        var next := NextReply(rest);
        var follow := next.0;
        rest := next.1;
        if follow.Raised? {
          return ErrorContent(follow.message), rest;
        }
        history := history + [Message(System, follow.text)];

        if UsesTool(follow.text) {
          reply := follow.text;
        } else {
          return follow.text, rest;
        }
      }
      return reply, rest;
    }
  }
}
