# Budgy agent backend — a Dafny model

Budgy is a personal finance coach. It is built from two chat agents and a
small tool layer in front of a JSON document store:

- the goal agent (`handle_goal_agent_prompt`) helps the user set a realistic
  savings goal;
- the budget agent (`handle_budget_agent_prompt`) helps the user plan next
  month's budget.

Each agent keeps one process-wide `message_history`. A turn works like this:

- `/start`, in any letter case and with any whitespace around it, reseeds the
  history with the agent's welcome message.
- Any other input is appended as a `user` message, and the language model is
  asked for a reply.
- If that reply contains `REQUEST_INFORMATION:::` or `ANSWER:::`, the turn
  returns the stripped text after the reply's first `:::`.
- If it contains `USE_TOOL:::`, the turn enters a loop. Each iteration calls the
  tool, appends its response, asks the model for a follow-up and appends that.
  The loop goes round again while the follow-up still asks for a tool; the
  first follow-up that does not is returned unchanged.
- A reply with no marker is returned unchanged.
- Every exception becomes `An error occurred: <message>`.

The tool layer does three things:

- it advertises a catalog of two tools, `get_goals` and `save_goal`;
- it filters the store's transactions by an inclusive date range, comparing
  the dates as strings;
- it maps failed store requests to HTTP errors.

## Project layout

| file | module | what it holds |
|---|---|---|
| `text.dfy` | `Text` | Python string operations: `in`, first-occurrence split, `strip()`, ASCII `lower()`, `str <=` |
| `protocol.dfy` | `Protocol` | the reset command, the three markers, the direct-reply split, the error text |
| `agent.dfy` | `Agent` | `TurnSpec` models the whole handler (goal_agent.py:28-193, budget_agent.py:28-152) as a function; `ToolLoop` models its `while` loop (goal_agent.py:130-184, budget_agent.py:97-142); class `Session` holds the history and the imperative turn with its loop |
| `goal_agent.dfy` | `GoalAgent` | the goal agent's welcome message and handler, plus worked scenarios |
| `budget_agent.dfy` | `BudgetAgent` | the budget agent's welcome message and handler, plus worked scenarios |
| `tools.dfy` | `Tools` | the tool catalog, `load_transactions`, `get_transactions`, `get_goals`, `save_goal` |

External calls are not executed. They are inputs to the model:

- **The language model** is a script, a `seq<Call>` of outcomes. Each outcome
  is `Returned(text)` or `Raised(message)`, and the outcomes are consumed in
  order. A turn returns the unused rest of the script, so a caller can see how
  many model calls it made. An exhausted script stands for a raised exception
  with the message `ScriptExhausted`.
- **`handle_tool_usage`** is a function parameter `tool: string -> Call`. It is
  applied to the text that asks for the tool, and it either returns the tool
  response or raises.
- **Each store request** is its `StoreCall` outcome:
  - `Delivered(body)`: the decoded body;
  - `RequestFailed`: a `requests.exceptions.RequestException`;
  - `OtherFailed`: any other exception.

  `raise_for_status()` and `response.json()` are part of that outcome.

## Model

| member | source | states |
|---|---|---|
| Agent.Session.Turn | agent-backend/goal_agent.py:28-193 | The imperative handler, with the tool loop as a `while` loop. The new history, the returned content and the unused script are exactly those of `TurnSpec`. `/start` leaves only the welcome message and returns the welcome text without calling the model. Any other input strictly extends the history. The `while` loop's invariant ties its state to `ToolLoop`. The budget agent's handler, budget_agent.py:28-152, has the same control flow, with different prompt text and no prints. |
| GoalAgent.HandleGoalAgentPrompt | agent-backend/goal_agent.py:28-193 | `handle_goal_agent_prompt` over the goal agent's history and welcome text. Same guarantees as `Session.Turn`; a reset leaves exactly `[WelcomeMessage]`. |
| BudgetAgent.HandleBudgetAgentPrompt | agent-backend/budget_agent.py:28-152 | `handle_budget_agent_prompt` over the budget agent's history and welcome text. Same guarantees as `Session.Turn`. |
| GoalAgent.Load | agent-backend/goal_agent.py:21-26 | Module load: a fresh session whose history is empty and whose welcome is the goal agent's text. |
| BudgetAgent.Load | agent-backend/budget_agent.py:21-26 | Module load: a fresh session whose history is empty and whose welcome is the budget agent's text. |
| Agent.ResetSeedsWelcome | agent-backend/goal_agent.py:31-34 | A turn ends in a reset if and only if the input is `/start` after `strip().lower()`. It then returns the welcome text, the history is exactly the welcome message, and the script is untouched. budget_agent.py:31-34 is the same. |
| Agent.UserMessageThenReply | agent-backend/goal_agent.py:37-40 | A non-reset input is appended as a `user` message right after the old history. When the model replies, the reply follows as a `system` message (goal_agent.py:117-120, budget_agent.py:83-86). |
| Agent.DirectReplyWins | agent-backend/goal_agent.py:122-127 | A first reply with `REQUEST_INFORMATION:::` or `ANSWER:::` ends the turn with the stripped text after its first `:::`. This holds even when the reply also carries `USE_TOOL:::`. The invalid-format branch is never taken this way. budget_agent.py:89-94 is the same. |
| Protocol.DirectAlwaysSplits | agent-backend/goal_agent.py:122-127 | Every direct reply contains `:::`, so `split(":::", 1)` always has two parts. The content is the stripped second part, which begins after the first separator; that may lie before the marker. |
| Text.SplitOnce | agent-backend/goal_agent.py:123 | `s.split(p, 1)` gives one or two parts. A single part is `s` itself, unsplit. |
| Text.SplitOnceCount | agent-backend/goal_agent.py:123-124 | There are two parts exactly when `p` occurs in `s`, so `len(response_parts) > 1` is the same test as `p in s`. |
| Text.SplitOnceParts | agent-backend/goal_agent.py:123 | When `p` occurs, the two parts joined by `p` give back `s`. `p` does not start anywhere inside the first part, so the cut is at the leftmost occurrence. |
| Protocol.ResetAcceptsPaddedAnyCase | agent-backend/goal_agent.py:31 | Any Python whitespace padding around a command that lower-cases to `/start` is a reset. |
| Protocol.ResetExamples | agent-backend/goal_agent.py:31 | ` /Start\n` and `\t/StArT  ` are resets. |
| Protocol.PaddedCommandResets | agent-backend/goal_agent.py:31 | Whitespace, then a six-character word whose letters each lower-case to those of `/start`, then whitespace, is a reset. |
| Protocol.NonResetExamples | agent-backend/goal_agent.py:31 | `/start now`, `start` and the empty input are not resets. |
| Agent.UnmarkedReplyVerbatim | agent-backend/goal_agent.py:186-189 | A first reply with none of the three markers is returned unchanged, after the user message and the reply are appended. budget_agent.py:144-147 is the same. |
| Agent.ToolIteration | agent-backend/goal_agent.py:130-184 | One loop iteration appends the tool response and then the follow-up, in that order, and repeats exactly when the follow-up contains `USE_TOOL:::`. Otherwise the follow-up is returned unchanged. budget_agent.py:97-142 is the same. |
| Agent.ToolLoopBounds | agent-backend/goal_agent.py:130-184 | The loop only appends to the history and only consumes the script from the front. It ends in the final-answer return or in an error, and an error's content starts with `An error occurred: `; which exception's text follows is `ToolLoopErrorTrace`. |
| Agent.ToolLoopErrorTrace | agent-backend/goal_agent.py:130-193 | When the loop ends in an error, the appended entries, the unused script and the content form an error trace. The content is `An error occurred: ` followed by the text of the call that raised. A raising tool call appends nothing. A follow-up call that raises, or finds the script exhausted, leaves the tool response as the last entry and consumes only its own call. |
| Agent.FollowUpFailureCaught | agent-backend/goal_agent.py:165-173 | A raising follow-up call ends the turn with its own error text. The tool response stays in the history, nothing else is appended, and only that call is consumed. budget_agent.py:127-134 is the same. |
| Agent.FollowUpExhausted | agent-backend/goal_agent.py:165-173 | A follow-up call with no reply left ends the same way, with the exhaustion message. |
| Agent.ToolLoopTranscript | agent-backend/goal_agent.py:130-184 | When the loop returns normally, the appended entries alternate tool response and follow-up. Every follow-up but the last asks for a tool, the last is the returned content, and it asks for none. |
| Agent.ToolTurnEntersLoop | agent-backend/goal_agent.py:122-130 | A turn ends in the tool loop's return only if the input is no reset and the first reply arrived, was not direct and asked for a tool. |
| Agent.ToolTurnStep | agent-backend/goal_agent.py:122-130 | For a non-reset input whose first reply is not direct and asks for a tool, the turn is the tool loop started on that reply, with the history extended by the user message and the reply, and the rest of the script. budget_agent.py:89-97 is the same. |
| Agent.ToolTurnTranscript | agent-backend/goal_agent.py:112-184 | A turn ending in the tool loop's return holds the user message, the first reply and a transcript of the loop. The history grows by exactly two entries per model call after the first. The returned text is the last entry. |
| Agent.ToolFailureCaught | agent-backend/goal_agent.py:131 | A failing tool call ends the turn at once with `An error occurred: ...` and appends nothing for it. |
| Agent.ErrorsAreCaught | agent-backend/goal_agent.py:190-193 | A failed first model call leaves the user message as the last history entry and returns that call's error text. An error after a first reply arrived happens only in the tool loop. The history then starts with the user message and the first reply, and the rest of the turn is an error trace of the loop, so the content is the text of the call that raised. budget_agent.py:149-152 is the same. |
| Agent.ToolTurnErrorTrace | agent-backend/goal_agent.py:117-193 | When the first reply arrived and the turn still ends in an error, that reply asked for a tool and was not direct. The history starts with the user message and the first reply, followed by an error trace of the loop, so the content is the text of the call that raised. |
| Agent.HistoryOnlyGrows | agent-backend/goal_agent.py:37-173 | Apart from `/start`, the history strictly grows, even on errors, and the script is consumed from the front. |
| Agent.ScriptConsumed | agent-backend/goal_agent.py:112-167 | A non-reset turn with a non-empty script consumes at least one reply, and what it leaves is a suffix of the script. |
| Agent.TranscriptLength | agent-backend/goal_agent.py:130-173 | A loop transcript has exactly two history entries per follow-up call. |
| GoalAgent.StartGreets | agent-backend/goal_agent.py:23-34 | `/start` leaves exactly the goal agent's welcome message and returns its text. |
| GoalAgent.DirectAnswerExample | agent-backend/goal_agent.py:117-125 | The reply `ANSWER::: Sure!` to `a new car` returns `Sure!` and appends the question and the raw reply. |
| GoalAgent.SingleDirectTurn | agent-backend/goal_agent.py:122-125 | For a non-reset input and a one-reply script, a direct reply ends the turn and consumes the whole script. |
| BudgetAgent.StartGreets | agent-backend/budget_agent.py:23-34 | `/start` leaves exactly the budget agent's welcome message and returns its text. |
| BudgetAgent.OneToolCall | agent-backend/budget_agent.py:83-142 | One `get_goals` call, then a plain answer. The answer is returned, and the history gains the question, the tool request, the tool response and the answer, in that order. |
| BudgetAgent.SingleToolTurn | agent-backend/budget_agent.py:97-142 | Covers a non-reset turn whose first reply is not direct, asks for a tool and gets a tool response, followed by a follow-up that asks for none. The history gains the question, the first reply, the tool response and the follow-up, in that order, and the follow-up is returned. |
| Text.FindFirst | agent-backend/goal_agent.py:123 | The cut point of `split(":::", 1)` is an occurrence, and no occurrence lies to its left. It is absent exactly when the separator does not occur. |
| Text.StripBounds | agent-backend/goal_agent.py:125 | What `strip()` removes is whitespace, and the part it keeps neither starts nor ends with whitespace. |
| Text.StripPadded | agent-backend/goal_agent.py:125 | `strip()` removes exactly the whitespace padding around a word without outer whitespace. |
| Text.ContainsSuffixOfPattern | agent-backend/goal_agent.py:122-123 | A string containing `a + b` contains `b`, at most the length of `a` to the right of the first occurrence of `a + b`. |
| Text.LexLeTransitive | agent-backend/tools.py:104 | String `<=` is transitive. |
| Text.LexLeTotal | agent-backend/tools.py:104 | String `<=` is total. |
| Text.LexLeAntisymmetric | agent-backend/tools.py:104 | String `<=` is antisymmetric. |
| Text.LexLeReflexive | agent-backend/tools.py:104 | String `<=` is reflexive. |
| Tools.CatalogShape | agent-backend/tools.py:16-81 | The catalog has exactly two tools, `get_goals` and `save_goal`, with distinct names. `get_goals` has no parameters. `save_goal` declares exactly the fields of `SaveGoalParams` (tools.py:126-130), in order. |
| Tools.LoadTransactions | agent-backend/tools.py:86-94 | The store's list when delivered. A request failure becomes HTTP 500 "Failed to fetch transactions from the /transactions endpoint.". Other exceptions escape, and no status other than 500 is produced. |
| Tools.SelectInRange | agent-backend/tools.py:102-105 | The filter fails exactly when some transaction lacks a string `Date`. Otherwise it keeps, in their original order, exactly the transactions with `start <= Date <= end`, as many as `CountInRange`. |
| Tools.GetTransactions | agent-backend/tools.py:96-113 | Succeeds exactly when the list is delivered and every `Date` is a string. The page is the in-range transactions in their original order, and `total_count` is their number. Every failure, the 500 of `load_transactions` included, becomes HTTP 500 "Failed to process transactions.". |
| Tools.EmptyWhenStartAfterEnd | agent-backend/tools.py:104 | With `start_date > end_date` the page is empty and its count 0. `start_date > end_date` means `end_date` sorts strictly before `start_date`. |
| Tools.SingleDayRange | agent-backend/tools.py:104 | A range whose start and end are the same day keeps a transaction exactly when its `Date` is that day. |
| Tools.BoundsInclusive | agent-backend/tools.py:104 | When `start_date <= end_date`, a delivered transaction dated exactly `start_date` or exactly `end_date` is kept. |
| Tools.ExtendedEndDateExcluded | agent-backend/tools.py:104 | A date that extends `end_date`, such as a time stamp, sorts after it, so it is dropped. |
| Tools.GetGoals | agent-backend/tools.py:115-123 | The body exactly as delivered. A request failure becomes HTTP 500 "Failed to fetch goals from the /goals endpoint.". Other exceptions escape, and no status other than 500 is produced. |
| Tools.SaveGoal | agent-backend/tools.py:132-147 | The store's answer on success, and a request failure becomes HTTP 500 "Failed to save the goal to the /goals endpoint.". Any other error becomes HTTP 400 "Invalid parameters: <message>". Nothing escapes uncaught. |

## Left out

- The prompt texts and the Gemini client are left out. Each model call is the next entry of the script. The prompts, `CURRENT_DATE`, the `json.dumps` of the history and the catalog inside them only shape what the model answers, and a script can model any answer.
- `handle_tool_usage` is not defined in tools.py and is not part of this model. Its caller awaits it and appends its result. The model takes it as an arbitrary function of the reply text that returns a text or raises.
- The `print` calls are left out: console output only.
- The model's `text` is always a string in this model; a `None` text from the SDK is not modelled.
- There is no cap on tool iterations, because the code has none. The tool loop runs until a follow-up without `USE_TOOL:::` arrives or a call fails.
- Async execution and concurrent requests are left out. Each route call is one sequential turn over `message_history`.
- The HTTP routes, `main.py` and the frontend are left out. They only forward the prompt; routes.py:10-12 routes only the goal agent.
- `summary_agent.py` is commented out and not part of this model.
- Startup checks of environment variables (`GEMINI_API_KEY`, `JSON_SERVER_URL`) are left out. They run at import time and do not affect a turn.
- `lower()` is modelled on ASCII letters only. This is exact for the reset test: no non-ASCII character lower-cases to a character of `/start`. Python's full Unicode case mapping is not modelled.
- The HTTP requests themselves are left out. Each request is its `StoreCall` outcome, and the JSON decoding of the body is part of that outcome.
- Tools.SaveGoal: success needs the caller to pass something `requests` can serialise as JSON, such as a dict. The parameter is annotated `SaveGoalParams`, and posting a pydantic model as `json=` raises a `TypeError` when it is serialised. tools.py:145-147 turns that into HTTP 400 on every call, so for that argument type the success branch is never reached. The caller, `handle_tool_usage`, is not part of this model. `post` is therefore left arbitrary, and this outcome is one `OtherFailed` case.
- Tools.GetTransactions: the function receives a list of transaction records. A body that is not such a list is not modelled.
- Only `Date` is inspected; the other fields of a transaction are carried unchanged.
- Agent.ToolLoop: modelling `handle_tool_usage` as a function of the reply text gives the same reply text the same response throughout a turn. The real tool reads and writes the store, so a repeated `USE_TOOL:::get_goals:::{}` after a `save_goal` could get a different answer. No lemma depends on this.
- Text.SplitOnce: the separator must be non-empty. Python raises `ValueError` for an empty one, and the code only ever splits on `:::`.
