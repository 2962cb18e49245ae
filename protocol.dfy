/** The textual reply protocol shared by the goal and the budget agent: the
    reset command, the three directive markers, the `:::` split of a direct
    reply and the text of the catch-all error. */
module Protocol {
  import opened Text

  const ResetCommand := "/start"
  const RequestInformationMarker := "REQUEST_INFORMATION:::"
  const AnswerMarker := "ANSWER:::"
  const UseToolMarker := "USE_TOOL:::"
  const Separator := ":::"
  const InvalidFormat := "Invalid response format from the agent."
  const ErrorPrefix := "An error occurred: "

  datatype Role = User | System

  /** One entry of `message_history`: `{"role": ..., "content": ...}`. */
  datatype Message = Message(role: Role, content: string)

  /** `input.strip().lower() == "/start"`. */
  predicate IsReset(input: string)
  {
    Lower(Strip(input)) == ResetCommand
  }

  /** The first reply asks the user or answers the user directly. */
  predicate IsDirect(reply: string)
  {
    Contains(reply, RequestInformationMarker) || Contains(reply, AnswerMarker)
  }

  /** `"USE_TOOL:::" in reply`. */
  predicate UsesTool(reply: string)
  {
    Contains(reply, UseToolMarker)
  }

  /** `reply.split(":::", 1)`: the stripped second part, or the invalid-format
      text when there is no second part. */
  function DirectContent(reply: string): string
  {
    var parts := SplitOnce(reply, Separator);
    if |parts| > 1 then Strip(parts[1]) else InvalidFormat
  }

  /** `f"An error occurred: {str(e)}"`. */
  function ErrorContent(message: string): string
  {
    ErrorPrefix + message
  }

  /** Both direct markers end in the separator, so a direct reply contains it. */
  lemma DirectContainsSeparator(reply: string)
    requires IsDirect(reply)
    ensures Contains(reply, Separator)
  {
    if Contains(reply, RequestInformationMarker) {
      assert "REQUEST_INFORMATION" + Separator == RequestInformationMarker;
      ContainsSuffixOfPattern(reply, "REQUEST_INFORMATION", Separator);
    } else {
      assert "ANSWER" + Separator == AnswerMarker;
      ContainsSuffixOfPattern(reply, "ANSWER", Separator);
    }
  }

  /** A direct reply always splits in two, so the invalid-format branch cannot
      be taken; the content is the stripped text after the FIRST `:::` of the
      reply, which may lie before the marker itself. */
  lemma DirectAlwaysSplits(reply: string)
    requires IsDirect(reply)
    ensures var parts := SplitOnce(reply, Separator);
      |parts| == 2 && DirectContent(reply) == Strip(parts[1])
  {
    DirectContainsSeparator(reply);
    SplitOnceCount(reply, Separator);
  }

  /** The reset test ignores the letter case of the command and any whitespace
      around it. */
  lemma ResetAcceptsPaddedAnyCase(pre: string, command: string, post: string)
    requires AllSpace(pre) && AllSpace(post)
    requires Lower(command) == ResetCommand
    ensures IsReset(pre + command + post)
  {
    assert |command| == 6 && command[0] == '/' && command[5] in "tT" by {
      assert |Lower(command)| == |command|;
      assert Lower(command)[0] == LowerChar(command[0]) == ResetCommand[0] == '/';
      assert Lower(command)[5] == LowerChar(command[5]) == ResetCommand[5] == 't';
    }
    StripPadded(pre, command, post);
  }

  /** The command in any letter case and with any whitespace around it resets. */
  lemma ResetExamples(a: string, b: string)
    requires a == " /Start\n" && b == "\t/StArT  "
    ensures IsReset(a) && IsReset(b)
  {
    var c1, c2 := "/Start", "/StArT";
    assert " " + c1 + "\n" == a && AllSpace(" ") && AllSpace("\n");
    PaddedCommandResets(a, " ", c1, "\n");
    assert "\t" + c2 + "  " == b && AllSpace("\t") && AllSpace("  ");
    PaddedCommandResets(b, "\t", c2, "  ");
  }

  /** An input made of whitespace, a word whose characters each lower-case to
      the command's, and whitespace, resets. */
  lemma PaddedCommandResets(input: string, pre: string, cmd: string, post: string)
    requires input == pre + cmd + post && AllSpace(pre) && AllSpace(post)
    requires |cmd| == 6 && cmd[0] == '/'
    requires LowerChar(cmd[1]) == 's' && LowerChar(cmd[2]) == 't' && LowerChar(cmd[3]) == 'a'
    requires LowerChar(cmd[4]) == 'r' && LowerChar(cmd[5]) == 't'
    ensures IsReset(input)
  {
    forall k | 0 <= k < |cmd| ensures Lower(cmd)[k] == ResetCommand[k] {
      assert Lower(cmd)[k] == LowerChar(cmd[k]);
    }
    ResetAcceptsPaddedAnyCase(pre, cmd, post);
  }

  /** Anything else, including the command followed by more words, is no reset. */
  lemma NonResetExamples(a: string, b: string)
    requires a == "/start now" && b == "start"
    ensures !IsReset(a) && !IsReset(b) && !IsReset("")
  {
    StripPadded("", a, "");
    assert "" + a + "" == a;
    StripPadded("", b, "");
    assert "" + b + "" == b;
    assert Strip("") == "";
  }
}
