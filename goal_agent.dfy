/** `goal_agent.py`: the goal-setting agent. Its handler is the shared agent
    turn over this module's own history and welcome message. */
module GoalAgent {
  import opened Text
  import opened Protocol
  import opened Agent

  const WelcomeText := "Hi! I am Budgy, your personal financial coach helping you set a realistic financial goal. What would you like to achieve?"

  /** `welcome_message`. */
  const WelcomeMessage := Message(System, WelcomeText)

  /** Module load: `message_history = []`. */
  method Load() returns (session: Session)
    ensures fresh(session) && session.welcome == WelcomeText && session.history == []
  {
    session := new Session(WelcomeText);
  }

  /** `handle_goal_agent_prompt(input)`. */
  method HandleGoalAgentPrompt(session: Session, input: string, script: seq<Call>, tool: string -> Call)
    returns (content: string, rest: seq<Call>)
    requires session.welcome == WelcomeText
    modifies session
    ensures var r := TurnSpec(old(session.history), WelcomeText, input, script, tool);
      session.history == r.history && content == r.content && rest == r.rest
    ensures IsReset(input) ==> session.history == [WelcomeMessage] && content == WelcomeText && rest == script
    ensures !IsReset(input) ==> old(session.history) < session.history
  {
    content, rest := session.Turn(input, script, tool);
  }

  /** `/start` leaves exactly the welcome message and returns its text. */
  lemma StartGreets(h: seq<Message>, script: seq<Call>, tool: string -> Call)
    ensures TurnSpec(h, WelcomeText, "/start", script, tool) == TurnResult([WelcomeMessage], WelcomeText, script, Reset)
  {
    assert Lower("/start") == ResetCommand;
    ResetAcceptsPaddedAnyCase("", "/start", "");
    assert "" + "/start" + "" == "/start";
  }

  /** A question the model answers directly gets the stripped answer, and the
      history gains the question and the raw reply. */
  lemma DirectAnswerExample(h: seq<Message>, input: string, reply: string, tool: string -> Call)
    requires input == "a new car" && reply == "ANSWER::: Sure!"
    ensures var r := TurnSpec(h, WelcomeText, input, [Returned(reply)], tool);
      r.content == "Sure!" && r.history == h + [Message(User, input)] + [Message(System, reply)]
  {
    QuestionIsNoReset(input);
    AnswerPayload(reply);
    SingleDirectTurn(h, input, reply, tool);
  }

  lemma SingleDirectTurn(h: seq<Message>, input: string, reply: string, tool: string -> Call)
    requires !IsReset(input) && IsDirect(reply)
    ensures TurnSpec(h, WelcomeText, input, [Returned(reply)], tool) ==
      TurnResult(h + [Message(User, input)] + [Message(System, reply)], DirectContent(reply), [], Direct)
  {
    DirectReplyWins(h, WelcomeText, input, reply, [], tool);
    assert [Returned(reply)] + [] == [Returned(reply)];
  }

  lemma QuestionIsNoReset(input: string)
    requires input == "a new car"
    ensures !IsReset(input)
  {
    StripPadded("", input, "");
    assert "" + input + "" == input;
  }

  lemma AnswerPayload(reply: string)
    requires reply == "ANSWER::: Sure!"
    ensures IsDirect(reply) && DirectContent(reply) == "Sure!"
  {
    assert reply[..|AnswerMarker|] == AnswerMarker && OccursAt(reply, AnswerMarker, 0);
    SeparatorAtSix(reply);
    assert reply[6 + |Separator|..] == " Sure!";
    PaddedAnswer(" Sure!");
  }

  lemma PaddedAnswer(s: string)
    requires s == " Sure!"
    ensures Strip(s) == "Sure!"
  {
    StripPadded(" ", "Sure!", "");
    assert " " + "Sure!" + "" == s;
  }

  lemma SeparatorAtSix(reply: string)
    requires reply == "ANSWER::: Sure!"
    ensures FindFirst(reply, Separator) == Some(6)
  {
    assert reply[6..9] == Separator && OccursAt(reply, Separator, 6);
    forall j | 0 <= j < 6 ensures !OccursAt(reply, Separator, j) {
      assert reply[j] != ':';
      assert j + 3 <= |reply| ==> reply[j..j + 3][0] == reply[j];
    }
  }
}
