/** `tools.py`: the tool catalog advertised to the model, the date-range
    filter over the transaction list, and the outcome contracts of the calls
    to the external document store (whose requests are abstracted into the
    `StoreCall` they produce). */
module Tools {
  import opened Text

  // ---------------------------------------------------------------- catalog

  /** A declared field: its name and the type text shown to the model. */
  datatype Param = Param(name: string, typeName: string)

  /** `expected_output`: a flat record, or a record holding one list of records. */
  datatype OutputShape = Record(fields: seq<Param>) | ListUnder(key: string, item: seq<Param>)

  /** One entry of `tool_definitions`; `parameters` is `None` for a tool that
      takes none. */
  datatype ToolDefinition = ToolDefinition(
    toolName: string,
    description: string,
    parameters: Option<seq<Param>>,
    expectedOutput: OutputShape)

  const GoalFields: seq<Param> := [
    Param("goal_name", "string"),
    Param("target_amount", "float"),
    Param("monthly_amount", "float"),
    Param("due_date", "string (YYYY-MM-DD)")
  ]

  const GetGoalsTool := ToolDefinition(
    "get_goals",
    "Retrieves a list of already saved financial goals of the user.",
    None,
    ListUnder("goals", GoalFields))

  const SaveGoalTool := ToolDefinition(
    "save_goal",
    "Saves a new financial goal for a user, and returns the saved goal. You should only use this tool when you have all the information needed to save a goal.",
    Some(GoalFields),
    Record(GoalFields))

  /** `tool_definitions`; the commented-out entries of the source are not part of it. */
  const ToolDefinitionsCatalog: seq<ToolDefinition> := [GetGoalsTool, SaveGoalTool]

  /** `SaveGoalParams`, the validated argument of `save_goal`. */
  datatype SaveGoalParams = SaveGoalParams(goalName: string, targetAmount: real, monthlyAmount: real, dueDate: string)

  /** The field names of `SaveGoalParams`, in declaration order. */
  const SaveGoalParamsFields := ["goal_name", "target_amount", "monthly_amount", "due_date"]

  function ParamNames(ps: seq<Param>): (r: seq<string>)
    ensures |r| == |ps| && forall i :: 0 <= i < |ps| ==> r[i] == ps[i].name
  {
    if ps == [] then [] else [ps[0].name] + ParamNames(ps[1..])
  }

  /** Exactly two tools, `get_goals` and `save_goal`, under distinct names;
      `get_goals` takes no parameters and `save_goal` declares exactly the
      fields of `SaveGoalParams`, in the same order. */
  lemma CatalogShape()
    ensures |ToolDefinitionsCatalog| == 2
    ensures ToolDefinitionsCatalog[0].toolName == "get_goals" && ToolDefinitionsCatalog[1].toolName == "save_goal"
    ensures forall i, j :: 0 <= i < j < |ToolDefinitionsCatalog| ==>
      ToolDefinitionsCatalog[i].toolName != ToolDefinitionsCatalog[j].toolName
    ensures ToolDefinitionsCatalog[0].parameters == None
    ensures ToolDefinitionsCatalog[1].parameters.Some?
    ensures ParamNames(ToolDefinitionsCatalog[1].parameters.value) == SaveGoalParamsFields
  {
    assert "get_goals"[0] != "save_goal"[0];
    var names := ParamNames(GoalFields);
    assert |names| == 4 && names[0] == "goal_name" && names[1] == "target_amount";
    assert names[2] == "monthly_amount" && names[3] == "due_date";
  }

  // ---------------------------------------------------------- store outcomes

  /** What a store function raises: an `HTTPException(status_code, detail)`,
      or some other exception it does not catch. */
  datatype Failure = HttpException(status: nat, detail: string) | Uncaught(message: string)

  datatype Result<T> = Ok(value: T) | Err(failure: Failure)

  /** The outcome of one request to the document store, `raise_for_status()`
      and `response.json()` included: the decoded body, a failure of the
      `requests.exceptions.RequestException` family, or any other exception. */
  datatype StoreCall<T> = Delivered(body: T) | RequestFailed(message: string) | OtherFailed(message: string)

  const TransactionsFetchFailed := "Failed to fetch transactions from the /transactions endpoint."
  const TransactionsProcessFailed := "Failed to process transactions."
  const GoalsFetchFailed := "Failed to fetch goals from the /goals endpoint."
  const GoalSaveFailed := "Failed to save the goal to the /goals endpoint."
  const InvalidParametersPrefix := "Invalid parameters: "

  // ------------------------------------------------------------ transactions

  /** The value under a transaction's `"Date"` key: absent, a string, or a
      value of another JSON type. */
  datatype DateValue = NoDate | DateString(s: string) | DateOther

  /** One transaction document; only `Date` is inspected, the other fields are
      carried along unchanged. */
  datatype Transaction = Transaction(date: DateValue, category: string, subcategory: string, amount: real, seller: string)

  /** The result of `get_transactions`. */
  datatype TransactionPage = TransactionPage(transactions: seq<Transaction>, totalCount: nat)

  /** `start_date <= transaction["Date"] <= end_date`, both ends inclusive,
      compared as strings. */
  predicate InRange(start: string, end: string, t: Transaction)
  {
    t.date.DateString? && LexLe(start, t.date.s) && LexLe(t.date.s, end)
  }

  /** Every transaction has a string `Date`, so the comparison never raises. */
  predicate AllDated(ts: seq<Transaction>)
  {
    forall t :: t in ts ==> t.date.DateString?
  }

  function CountInRange(start: string, end: string, ts: seq<Transaction>): nat
  {
    if ts == [] then 0
    else (if InRange(start, end, ts[0]) then 1 else 0) + CountInRange(start, end, ts[1..])
  }

  /** `a` is `b` with some elements left out, the rest in their original order. */
  ghost predicate IsSubsequence(a: seq<Transaction>, b: seq<Transaction>)
    decreases |b|
  {
    a == [] || (b != [] && ((a[0] == b[0] && IsSubsequence(a[1..], b[1..])) || IsSubsequence(a, b[1..])))
  }

  /** `load_transactions()`: the store's list, or HTTP 500 when the request
      fails; other exceptions pass through. */
  function LoadTransactions(call: StoreCall<seq<Transaction>>): (r: Result<seq<Transaction>>)
    ensures r.Ok? <==> call.Delivered?
    ensures r.Ok? ==> r.value == call.body
    ensures call.RequestFailed? ==> r == Err(HttpException(500, TransactionsFetchFailed))
    ensures call.OtherFailed? ==> r == Err(Uncaught(call.message))
    ensures r.Err? && r.failure.HttpException? ==> r.failure.status == 500
  {
    match call
    case Delivered(body) => Ok(body)
    case RequestFailed(_) => Err(HttpException(500, TransactionsFetchFailed))
    case OtherFailed(m) => Err(Uncaught(m))
  }

  /** The list comprehension of `get_transactions`, left to right: `None` when
      some transaction has no string `Date` (a KeyError or TypeError), else the
      transactions in range. */
  function SelectInRange(start: string, end: string, ts: seq<Transaction>): (r: Option<seq<Transaction>>)
    ensures r.Some? <==> AllDated(ts)
    ensures r.Some? ==> IsSubsequence(r.value, ts)
    ensures r.Some? ==> forall t :: t in r.value <==> t in ts && InRange(start, end, t)
    ensures r.Some? ==> |r.value| == CountInRange(start, end, ts)
    decreases |ts|
  {
    if ts == [] then Some([])
    else if !ts[0].date.DateString? then
      assert ts[0] in ts;
      None
    else
      var tail := SelectInRange(start, end, ts[1..]);
      assert AllDated(ts) <==> AllDated(ts[1..]) by {
        assert forall t :: t in ts <==> t == ts[0] || t in ts[1..] by {
          assert ts == [ts[0]] + ts[1..];
        }
      }
      assert forall t :: t in ts <==> t == ts[0] || t in ts[1..] by {
        assert ts == [ts[0]] + ts[1..];
      }
      match tail
      case None => None
      case Some(rest) =>
        if InRange(start, end, ts[0]) then
          var r := [ts[0]] + rest;
          assert r[0] == ts[0] && r[1..] == rest;
          Some(r)
        else
          Some(rest)
  }

  /** `get_transactions(start_date, end_date)`: the transactions dated within
      the inclusive range, in their original order, with their count; any
      failure on the way, the 500 of `load_transactions` included, becomes
      HTTP 500 "Failed to process transactions.". */
  function GetTransactions(start: string, end: string, loaded: StoreCall<seq<Transaction>>): (r: Result<TransactionPage>)
    ensures r.Ok? <==> loaded.Delivered? && AllDated(loaded.body)
    ensures r.Ok? ==> r.value.totalCount == |r.value.transactions|
    ensures r.Ok? ==> IsSubsequence(r.value.transactions, loaded.body)
    ensures r.Ok? ==> forall t :: t in r.value.transactions <==> t in loaded.body && InRange(start, end, t)
    ensures r.Ok? ==> r.value.totalCount == CountInRange(start, end, loaded.body)
    ensures r.Err? ==> r.failure == HttpException(500, TransactionsProcessFailed)
  {
    match LoadTransactions(loaded)
    case Err(_) => Err(HttpException(500, TransactionsProcessFailed))
    case Ok(ts) =>
      match SelectInRange(start, end, ts)
      case None => Err(HttpException(500, TransactionsProcessFailed))
      case Some(selected) => Ok(TransactionPage(selected, |selected|))
  }

  /** With `start_date > end_date` nothing can lie in between: the page is
      empty and its count 0. Python's `start_date > end_date` is
      `!LexLe(start, end)`: by `LexLeTotal` and `LexLeReflexive` that is the
      same as `end` sorting strictly before `start`. */
  lemma EmptyWhenStartAfterEnd(start: string, end: string, loaded: StoreCall<seq<Transaction>>)
    requires !LexLe(start, end)
    ensures LexLe(end, start) && end != start
    ensures var r := GetTransactions(start, end, loaded);
      r.Ok? ==> r.value.transactions == [] && r.value.totalCount == 0
  {
    LexLeTotal(start, end);
    LexLeReflexive(start);
    var r := GetTransactions(start, end, loaded);
    if r.Ok? && r.value.transactions != [] {
      var t := r.value.transactions[0];
      assert t in r.value.transactions;
      LexLeTransitive(start, t.date.s, end);
      assert false;
    }
  }

  /** Both bounds are inclusive: a transaction dated exactly `start_date` or
      exactly `end_date` is kept when the range is not empty. */
  lemma BoundsInclusive(start: string, end: string, loaded: StoreCall<seq<Transaction>>, t: Transaction)
    requires LexLe(start, end)
    requires loaded.Delivered? && t in loaded.body
    requires t.date == DateString(start) || t.date == DateString(end)
    ensures var r := GetTransactions(start, end, loaded);
      r.Ok? ==> t in r.value.transactions
  {
    LexLeReflexive(start);
    LexLeReflexive(end);
  }

  /** A one-day range keeps exactly the transactions dated that very day
      (by `LexLeAntisymmetric`, a date between `day` and `day` is `day`). */
  lemma SingleDayRange(day: string, t: Transaction)
    ensures InRange(day, day, t) <==> t.date == DateString(day)
  {
    if InRange(day, day, t) {
      LexLeAntisymmetric(day, t.date.s);
    }
    LexLeReflexive(day);
  }

  /** The comparison is on strings, not dates: a timestamp that extends the
      end date (`"2024-05-31T10:00"` against `"2024-05-31"`) sorts after it and
      is left out. */
  lemma {:induction false} ExtendedEndDateExcluded(end: string, extra: string)
    requires extra != []
    ensures !LexLe(end + extra, end)
    decreases |end|
  {
    if end != [] {
      assert (end + extra)[0] == end[0];
      assert (end + extra)[1..] == end[1..] + extra;
      ExtendedEndDateExcluded(end[1..], extra);
    }
  }

  // ------------------------------------------------------------------- goals

  /** `get_goals()`: the store's goals exactly as delivered, or HTTP 500 when
      the request fails; other exceptions pass through. */
  function GetGoals<T>(fetched: StoreCall<T>): (r: Result<T>)
    ensures r.Ok? <==> fetched.Delivered?
    ensures r.Ok? ==> r.value == fetched.body
    ensures fetched.RequestFailed? ==> r == Err(HttpException(500, GoalsFetchFailed))
    ensures fetched.OtherFailed? ==> r == Err(Uncaught(fetched.message))
    ensures r.Err? && r.failure.HttpException? ==> r.failure.status == 500
  {
    match fetched
    case Delivered(body) => Ok(body)
    case RequestFailed(_) => Err(HttpException(500, GoalsFetchFailed))
    case OtherFailed(m) => Err(Uncaught(m))
  }

  /** `save_goal(params)`: `post` is the store's answer to posting `params`.
      The body of the store's response on success; HTTP 500 when the request
      fails; HTTP 400 "Invalid parameters: ..." on any other error. Nothing
      escapes uncaught. */
  function SaveGoal<T>(params: SaveGoalParams, post: SaveGoalParams -> StoreCall<T>): (r: Result<T>)
    ensures r.Ok? <==> post(params).Delivered?
    ensures r.Ok? ==> r.value == post(params).body
    ensures post(params).RequestFailed? ==> r == Err(HttpException(500, GoalSaveFailed))
    ensures post(params).OtherFailed? ==> r == Err(HttpException(400, InvalidParametersPrefix + post(params).message))
    ensures r.Err? ==> r.failure.HttpException? && (r.failure.status == 500 || r.failure.status == 400)
  {
    match post(params)
    case Delivered(body) => Ok(body)
    case RequestFailed(_) => Err(HttpException(500, GoalSaveFailed))
    case OtherFailed(m) => Err(HttpException(400, InvalidParametersPrefix + m))
  }
}
