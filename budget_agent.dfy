/** `budget_agent.py`: the budgeting agent. Its handler is the same turn as the
    goal agent's, over this module's own history and welcome message. */
module BudgetAgent {
  import opened Text
  import opened Protocol
  import opened Agent

  const WelcomeText := "Hi! I am Budgy, your personal financial coach helping you set a realistic financial budget for the upcoming month. What would you like to focus on next month?"

  /** `welcome_message`. */
  const WelcomeMessage := Message(System, WelcomeText)

  /** Module load: `message_history = []`. */
  method Load() returns (session: Session)
    ensures fresh(session) && session.welcome == WelcomeText && session.history == []
  {
    session := new Session(WelcomeText);
  }

  /** `handle_budget_agent_prompt(input)`. */
  method HandleBudgetAgentPrompt(session: Session, input: string, script: seq<Call>, tool: string -> Call)
    returns (content: string, rest: seq<Call>)
    requires session.welcome == WelcomeText
    modifies session
    ensures var r := TurnSpec(old(session.history), WelcomeText, input, script, tool);
      session.history == r.history && content == r.content && rest == r.rest
    ensures IsReset(input) ==> session.history == [WelcomeMessage] && content == WelcomeText && rest == script
    ensures !IsReset(input) ==> old(session.history) < session.history
  {
    content, rest := session.Turn(input, script, tool);
  }

  /** `/start` leaves exactly the welcome message and returns its text. */
  lemma StartGreets(h: seq<Message>, script: seq<Call>, tool: string -> Call)
    ensures TurnSpec(h, WelcomeText, "/start", script, tool) == TurnResult([WelcomeMessage], WelcomeText, script, Reset)
  {
    assert Lower("/start") == ResetCommand;
    ResetAcceptsPaddedAnyCase("", "/start", "");
    assert "" + "/start" + "" == "/start";
  }

  /** A turn with one tool call: the reasoning that asks for the tool, the tool
      response and the final follow-up are appended after the question, and the
      follow-up is returned as it is. */
  lemma OneToolCall(h: seq<Message>, input: string, reply: string, answer: string, tool: string -> Call)
    requires input == "plan my budget" && reply == "USE_TOOL:::get_goals:::{}" && answer == "You have no goals yet."
    requires tool(reply) == Returned("[]")
    ensures var r := TurnSpec(h, WelcomeText, input, [Returned(reply), Returned(answer)], tool);
      && r.content == answer && r.rest == [] && r.ending == ToolFinal
      && r.history == h + [Message(User, input), Message(System, reply), Message(System, "[]"), Message(System, answer)]
  {
    ScenarioStrings(input, reply, answer);
    SingleToolTurn(h, input, reply, "[]", answer, tool);
  }

  lemma ScenarioStrings(input: string, reply: string, answer: string)
    requires input == "plan my budget" && reply == "USE_TOOL:::get_goals:::{}" && answer == "You have no goals yet."
    ensures !IsReset(input) && !IsDirect(reply) && UsesTool(reply) && !UsesTool(answer)
  {
    PlanIsNoReset(input);
    ReplyAsksForTool(reply);
    AnswerAsksNothing(answer);
  }

  lemma PlanIsNoReset(input: string)
    requires input == "plan my budget"
    ensures !IsReset(input)
  {
    StripPadded("", input, "");
    assert "" + input + "" == input;
  }

  lemma ReplyAsksForTool(reply: string)
    requires reply == "USE_TOOL:::get_goals:::{}"
    ensures !IsDirect(reply) && UsesTool(reply)
  {
    assert reply[..|UseToolMarker|] == UseToolMarker && OccursAt(reply, UseToolMarker, 0);
    assert forall k :: 0 <= k < |reply| ==> reply[k] != 'R' && reply[k] != 'A';
    AbsentFirstChar(reply, RequestInformationMarker);
    AbsentFirstChar(reply, AnswerMarker);
  }

  lemma AnswerAsksNothing(answer: string)
    requires answer == "You have no goals yet."
    ensures !UsesTool(answer)
  {
    assert forall k :: 0 <= k < |answer| ==> answer[k] != 'U';
    AbsentFirstChar(answer, UseToolMarker);
  }

  lemma SingleToolTurn(h: seq<Message>, input: string, reply: string, t: string, answer: string, tool: string -> Call)
    requires !IsReset(input) && !IsDirect(reply) && UsesTool(reply) && !UsesTool(answer)
    requires tool(reply) == Returned(t)
    ensures var r := TurnSpec(h, WelcomeText, input, [Returned(reply), Returned(answer)], tool);
      && r.content == answer && r.rest == [] && r.ending == ToolFinal
      && r.history == h + [Message(User, input), Message(System, reply), Message(System, t), Message(System, answer)]
  {
    var h2 := h + [Message(User, input)] + [Message(System, reply)];
    assert [Returned(reply), Returned(answer)] == [Returned(reply)] + [Returned(answer)];
    ToolTurnStep(h, WelcomeText, input, reply, [Returned(answer)], tool);
    ToolIteration(h2, reply, t, answer, [], tool);
    assert [Returned(answer)] + [] == [Returned(answer)];
    assert h2 + [Message(System, t), Message(System, answer)] ==
      h + [Message(User, input), Message(System, reply), Message(System, t), Message(System, answer)];
  }
}
