/** The dashboard page: the summary cards, the goal progress bars, the page's own short
    fallback summary, and the state the page keeps while it loads goals, transactions and
    insights. Fetches are split into the step that starts them and the step that takes
    their outcome, so the loading flags can be observed in between. */
module Dashboard {
  import opened Prims
  import opened Models
  import opened Aggregation

  // ---------------------------------------------------------------------------------
  // Summary cards and progress bars
  // ---------------------------------------------------------------------------------

  datatype Summary = Summary(totalIncome: int, totalExpenses: int, netSavings: int, recentActivity: nat)

  /** calculateSummary over the loaded transactions. */
  function CalculateSummary(txs: seq<Transaction>): (s: Summary)
    ensures s.recentActivity == |txs|
    ensures s.totalIncome == TotalIncome(txs) && s.totalExpenses == TotalExpenses(txs)
    ensures s.netSavings == s.totalIncome - s.totalExpenses
  {
    var income := TotalIncome(txs);
    var expenses := TotalExpenses(txs);
    Summary(income, expenses, income - expenses, |txs|)
  }

  /** What the summary means, one transaction at a time: an income raises income and net
      savings by its amount, an expense raises expenses and lowers net savings by its amount,
      any other record moves neither, and every record counts as one unit of activity. */
  lemma SummaryStep(txs: seq<Transaction>, t: Transaction)
    ensures var before := CalculateSummary(txs);
      var after := CalculateSummary(txs + [t]);
      && after.recentActivity == before.recentActivity + 1
      && after.totalIncome == before.totalIncome + (if HasType(t, INCOME) then AmountOf(t) else 0)
      && after.totalExpenses == before.totalExpenses + (if HasType(t, EXPENSE) then AmountOf(t) else 0)
      && after.netSavings == after.totalIncome - after.totalExpenses
  {
    TotalOfTypeStep(txs, t, INCOME);
    TotalOfTypeStep(txs, t, EXPENSE);
  }

  /** The percentage a goal's progress bar shows. */
  function GoalCardProgress(g: Goal): (p: int)
    ensures g.targetAmount <= 0 ==> p == 0
    ensures p <= 100
    ensures g.currentAmount >= 0 ==> 0 <= p
    ensures g.targetAmount > 0 && g.currentAmount >= g.targetAmount ==> p == 100
    ensures g.targetAmount > 0 && p < 100 ==>
      200 * g.currentAmount - g.targetAmount < 2 * g.targetAmount * p <= 200 * g.currentAmount + g.targetAmount
    ensures g.targetAmount > 0 && p == 100 ==> 200 * g.currentAmount + g.targetAmount >= 200 * g.targetAmount
    ensures p == GoalProgress(g.currentAmount, g.targetAmount)
  {
    GoalProgress(g.currentAmount, g.targetAmount)
  }

  // ---------------------------------------------------------------------------------
  // generateFallbackInsights: the page's own fallback
  // ---------------------------------------------------------------------------------

  /** `- **name** - ₹current/₹target (progress% complete)` */
  datatype ProgressLine = ProgressLine(name: string, currentAmount: int, targetAmount: int, progress: int)

  /** The page's fallback: counts, the expense sentence (or "No expense transactions
      recorded yet."), the income sentence (or "No income transactions recorded yet."),
      and the goal lines (or "No goals set yet."). */
  datatype LocalSummary = LocalSummary(
    transactionCount: nat,
    goalCount: nat,
    expenseSentence: Option<int>,
    incomeSentence: Option<int>,
    goalLines: Option<seq<ProgressLine>>)

  function ProgressLines(goals: seq<Goal>): (r: seq<ProgressLine>)
    ensures |r| == |goals|
    ensures forall i :: 0 <= i < |goals| ==>
      && r[i].name == goals[i].name
      && r[i].currentAmount == goals[i].currentAmount
      && r[i].targetAmount == goals[i].targetAmount
      && r[i].progress == GoalProgress(goals[i].currentAmount, goals[i].targetAmount)
  {
    seq(|goals|, i requires 0 <= i < |goals| =>
      ProgressLine(goals[i].name, goals[i].currentAmount, goals[i].targetAmount, GoalCardProgress(goals[i])))
  }

  function GenerateFallbackInsights(goals: seq<Goal>, txs: seq<Transaction>): (f: LocalSummary)
    ensures f.transactionCount == |txs| && f.goalCount == |goals|
    ensures f.expenseSentence.Some? <==> TotalExpenses(txs) > 0
    ensures f.incomeSentence.Some? <==> TotalIncome(txs) > 0
    ensures f.goalLines.Some? <==> |goals| > 0
  {
    var expenses := TotalExpenses(txs);
    var income := TotalIncome(txs);
    LocalSummary(
      |txs|, |goals|,
      if expenses > 0 then Some(expenses) else None,
      if income > 0 then Some(income) else None,
      if |goals| > 0 then Some(ProgressLines(goals)) else None)
  }

  /** The fallback uses the same filters as the summary cards, so every figure it shows is
      the one the cards show; it shows one progress line per goal, with the card's percentage. */
  lemma FallbackAgreesWithSummary(goals: seq<Goal>, txs: seq<Transaction>)
    ensures var f := GenerateFallbackInsights(goals, txs);
      var s := CalculateSummary(txs);
      && f.transactionCount == s.recentActivity
      && (f.expenseSentence.Some? <==> s.totalExpenses > 0)
      && (f.expenseSentence.Some? ==> f.expenseSentence.value == s.totalExpenses)
      && (f.incomeSentence.Some? <==> s.totalIncome > 0)
      && (f.incomeSentence.Some? ==> f.incomeSentence.value == s.totalIncome)
      && (f.goalLines.Some? <==> |goals| > 0)
      && (f.goalLines.Some? ==> forall i :: 0 <= i < |goals| ==>
            f.goalLines.value[i].progress == GoalCardProgress(goals[i]) <= 100)
  {
  }

  // ---------------------------------------------------------------------------------
  // fetchInsights: outcome of the request
  // ---------------------------------------------------------------------------------

  /** What `response.json()` yields: a body with the optional `error` text and the optional
      `insights.markdownContent`, or a parse failure with its message. */
  datatype ResponseBody = Unparseable(message: string) | Body(error: Option<string>, markdown: Option<string>)

  /** What `fetch` yields: a rejection with its message, or a response. */
  datatype FetchOutcome = NetworkFailure(message: string) | Response(ok: bool, body: ResponseBody)

  const INVALID_INSIGHTS: string := "Invalid insights data received"
  const FETCH_FAILED: string := "Failed to fetch insights"

  /** The error fetchInsights throws for an outcome, or None when it accepts the insights:
      a failed status, an unreadable body and a body without markdown all count as errors. */
  function FetchError(r: FetchOutcome): (e: Option<string>)
    ensures e.None? <==> r.Response? && r.ok && r.body.Body? && Truthy(r.body.markdown)
    ensures r.Response? && !r.ok && r.body.Body? ==>
      e == Some(if Truthy(r.body.error) then r.body.error.value else FETCH_FAILED)
    ensures r.Response? && r.ok && r.body.Body? && !Truthy(r.body.markdown) ==> e == Some(INVALID_INSIGHTS)
    ensures r.NetworkFailure? ==> e == Some(r.message)
    ensures r.Response? && r.body.Unparseable? ==> e == Some(r.body.message)
  {
    match r
    case NetworkFailure(message) => Some(message)
    case Response(ok, body) =>
      match body
      case Unparseable(message) => Some(message)
      case Body(error, markdown) =>
        if !ok then Some(if Truthy(error) then error.value else FETCH_FAILED)
        else if !Truthy(markdown) then Some(INVALID_INSIGHTS)
        else None
  }

  /** What the insights panel holds once a fetch has ended. */
  datatype InsightsView =
    | ServerInsights(markdown: string)
    | LocalFallback(summary: LocalSummary)
    | UnableToGenerate(errorMessage: string)

  /** The insights after a fetch ends with an error: the page's fallback when there is any
      data, and otherwise the "Unable to Generate Insights" text carrying the error. */
  function InsightsAfterError(goals: seq<Goal>, txs: seq<Transaction>, message: string): (v: InsightsView)
    ensures v.LocalFallback? <==> |goals| > 0 || |txs| > 0
    ensures v.LocalFallback? ==> v.summary == GenerateFallbackInsights(goals, txs)
    ensures v.UnableToGenerate? ==> v.errorMessage == message
  {
    if |goals| > 0 || |txs| > 0 then LocalFallback(GenerateFallbackInsights(goals, txs))
    else UnableToGenerate(message)
  }

  /** Whatever the outcome, the panel ends up with something to show: markdown the server
      sent that is not empty, or a fallback, or the error text; the server's markdown is
      shown only when the request succeeded. */
  function InsightsAfter(goals: seq<Goal>, txs: seq<Transaction>, r: FetchOutcome): (v: InsightsView)
    ensures v.ServerInsights? <==> FetchError(r).None?
    ensures v.ServerInsights? ==> v.markdown != "" && Some(v.markdown) == r.body.markdown
    ensures v.LocalFallback? <==> FetchError(r).Some? && (goals != [] || txs != [])
    ensures v.UnableToGenerate? ==> goals == [] && txs == [] && Some(v.errorMessage) == FetchError(r)
  {
    match FetchError(r)
    case None => ServerInsights(r.body.markdown.value)
    case Some(message) => InsightsAfterError(goals, txs, message)
  }

  /** A date stored as text (the 'YYYY-MM-DD' the voice webhook writes) rather than as a
      timestamp. */
  predicate HasTextDate(t: Transaction) {
    t.date.Some? && t.date.value.IsoText?
  }

  /** The `.map` of fetchTransactions as written: `date?.toDate()` converts a timestamp or a
      missing date, and throws on a text date, which abandons the whole list (None). */
  function ConvertDatesAsWritten(docs: seq<Transaction>): (r: Option<seq<Transaction>>)
    ensures r.None? <==> exists i :: 0 <= i < |docs| && HasTextDate(docs[i])
    ensures r.Some? ==> r.value == docs
  {
    if docs == [] then Some([])
    else
      var init := ConvertDatesAsWritten(docs[..|docs| - 1]);
      assert forall i :: 0 <= i < |docs| - 1 ==> docs[..|docs| - 1][i] == docs[i];
      if init.None? || HasTextDate(docs[|docs| - 1]) then None
      else Some(init.value + [docs[|docs| - 1]])
  }

  /** A conversion that tolerates both forms (`date?.toDate ? date.toDate() : date`). A
      timestamp and the Date it converts to are both milliseconds here, and a text date is
      kept as text, so every document read is kept, in order. */
  function ConvertDates(docs: seq<Transaction>): (r: seq<Transaction>)
    ensures |r| == |docs|
    ensures forall i :: 0 <= i < |docs| ==> r[i] == docs[i]
  {
    docs
  }

  /** As written, one transaction the voice webhook stored among the latest five makes the
      whole read fail, so the page keeps its old list (empty on first load) even though the
      read succeeded. */
  lemma VoiceRecordHidesRecentTransactions(voiceRecord: Transaction, others: seq<Transaction>)
    requires HasTextDate(voiceRecord)
    ensures ConvertDatesAsWritten([voiceRecord] + others).None?
  {
    assert ([voiceRecord] + others)[0] == voiceRecord;
  }

  /** With the tolerant conversion the same read is shown in full, the summary cards count
      every transaction in it, and wherever the as-written conversion succeeds the two agree. */
  lemma ToleratedReadIsShown(docs: seq<Transaction>)
    ensures ConvertDates(docs) == docs
    ensures CalculateSummary(ConvertDates(docs)).recentActivity == |docs|
    ensures ConvertDatesAsWritten(docs).Some? ==> ConvertDatesAsWritten(docs).value == ConvertDates(docs)
  {
  }

  /** The number of transactions the page loads: `limit(5)`. */
  const TRANSACTION_LIMIT: nat := 5

  // ---------------------------------------------------------------------------------
  // Page state
  // ---------------------------------------------------------------------------------

  class DashboardState {
    var user: Option<User>
    var goals: seq<Goal>
    var transactions: seq<Transaction>
    var goalsLoading: bool
    var transactionsLoading: bool
    var insights: Option<InsightsView>
    var insightsLoading: bool

    /** The page never holds more transactions than the query's limit. */
    predicate Valid()
      reads this
    {
      |transactions| <= TRANSACTION_LIMIT
    }

    /** The state on first render. */
    constructor(user: Option<User>)
      ensures this.user == user && goals == [] && transactions == []
      ensures goalsLoading && transactionsLoading
      ensures insights.None? && !insightsLoading
      ensures Valid()
    {
      this.user := user;
      goals := [];
      transactions := [];
      goalsLoading := true;
      transactionsLoading := true;
      insights := None;
      insightsLoading := false;
    }

    /** The summary cards. */
    function Cards(): Summary
      reads this
    {
      CalculateSummary(transactions)
    }

    /** The Refresh button is disabled while insights load. */
    predicate RefreshEnabled()
      reads this
    {
      !insightsLoading
    }

    /** The effect at lines 215-219 fires only with a user and both loads finished. */
    predicate ShouldAutoFetch()
      reads this
    {
      user.Some? && !goalsLoading && !transactionsLoading
    }

    /** fetchGoals up to the read: nothing without a user, else the loading flag is set. */
    method StartFetchGoals()
      modifies this
      ensures user.None? ==> unchanged(this)
      ensures user.Some? ==> goalsLoading && goals == old(goals) && transactions == old(transactions)
      ensures user == old(user) && transactionsLoading == old(transactionsLoading)
      ensures insights == old(insights) && insightsLoading == old(insightsLoading)
    {
      if user.None? {
        return;
      }
      goalsLoading := true;
    }

    /** fetchGoals after the read: the goals (the user's, newest first) on success, the old
        list on failure; loading ends either way. */
    method FinishFetchGoals(read: Option<seq<Goal>>)
      requires user.Some?
      modifies this
      ensures goals == (if read.Some? then read.value else old(goals))
      ensures !goalsLoading
      ensures user == old(user) && transactions == old(transactions)
      ensures transactionsLoading == old(transactionsLoading)
      ensures insights == old(insights) && insightsLoading == old(insightsLoading)
    {
      if read.Some? {
        goals := read.value;
      }
      goalsLoading := false;
    }

    /** fetchTransactions up to the read. */
    method StartFetchTransactions()
      modifies this
      ensures user.None? ==> unchanged(this)
      ensures user.Some? ==> transactionsLoading && transactions == old(transactions)
      ensures user == old(user) && goals == old(goals) && goalsLoading == old(goalsLoading)
      ensures insights == old(insights) && insightsLoading == old(insightsLoading)
    {
      if user.None? {
        return;
      }
      transactionsLoading := true;
    }

    /** fetchTransactions after the read of the user's transactions, newest first: the first
        five when the read succeeds and their dates convert; the old list when the read
        fails or a text date makes the conversion throw; loading ends either way. */
    method FinishFetchTransactions(read: Option<seq<Transaction>>)
      requires user.Some? && Valid()
      modifies this
      ensures read.Some? && ConvertDatesAsWritten(read.value[..Min(|read.value|, TRANSACTION_LIMIT)]).Some? ==>
        transactions == read.value[..Min(|read.value|, TRANSACTION_LIMIT)]
      ensures read.None? || ConvertDatesAsWritten(read.value[..Min(|read.value|, TRANSACTION_LIMIT)]).None? ==>
        transactions == old(transactions)
      ensures !transactionsLoading && Valid()
      ensures user == old(user) && goals == old(goals) && goalsLoading == old(goalsLoading)
      ensures insights == old(insights) && insightsLoading == old(insightsLoading)
    {
      if read.Some? {
        var converted := ConvertDatesAsWritten(read.value[..Min(|read.value|, TRANSACTION_LIMIT)]);
        if converted.Some? {
          transactions := converted.value;
        }
      }
      transactionsLoading := false;
    }

    /** fetchInsights up to the request: nothing without a user, else loading starts. */
    method StartFetchInsights()
      modifies this
      ensures user.None? ==> unchanged(this)
      ensures user.Some? ==> insightsLoading && !RefreshEnabled()
      ensures user == old(user) && goals == old(goals) && transactions == old(transactions)
      ensures goalsLoading == old(goalsLoading) && transactionsLoading == old(transactionsLoading)
      ensures insights == old(insights)
    {
      if user.None? {
        return;
      }
      insightsLoading := true;
    }

    /** fetchInsights after the request: the server's insights when it answered with markdown,
        else the error branch; loading ends whatever the outcome. */
    method FinishFetchInsights(r: FetchOutcome)
      requires user.Some?
      modifies this
      ensures insights == Some(InsightsAfter(goals, transactions, r))
      ensures !insightsLoading && RefreshEnabled()
      ensures user == old(user) && goals == old(goals) && transactions == old(transactions)
      ensures goalsLoading == old(goalsLoading) && transactionsLoading == old(transactionsLoading)
    {
      var error := FetchError(r);
      if error.None? {
        insights := Some(ServerInsights(r.body.markdown.value));
      } else if |goals| > 0 || |transactions| > 0 {
        insights := Some(LocalFallback(GenerateFallbackInsights(goals, transactions)));
      } else {
        insights := Some(UnableToGenerate(error.value));
      }
      insightsLoading := false;
    }

    /** The auto-fetch effect: starts a fetch exactly when a user is present and both loads
        have finished. */
    method OnLoadStateChange()
      modifies this
      ensures insightsLoading == (old(insightsLoading) || old(ShouldAutoFetch()))
      ensures user == old(user) && goals == old(goals) && transactions == old(transactions)
      ensures goalsLoading == old(goalsLoading) && transactionsLoading == old(transactionsLoading)
      ensures insights == old(insights)
    {
      if ShouldAutoFetch() {
        StartFetchInsights();
      }
    }
  }

  /** Right after sign-in nothing is fetched automatically: the goal and transaction loads
      are both pending, and only finishing both lets the insights fetch start. A failed read,
      or a text date among the latest five, leaves the first page with no transactions. */
  method FirstLoadThenInsights(u: User, goalsRead: Option<seq<Goal>>, txsRead: Option<seq<Transaction>>)
    returns (page: DashboardState)
    ensures page.insightsLoading && page.user == Some(u)
    ensures txsRead.Some? && ConvertDatesAsWritten(txsRead.value[..Min(|txsRead.value|, TRANSACTION_LIMIT)]).Some? ==>
      |page.transactions| == Min(|txsRead.value|, TRANSACTION_LIMIT)
    ensures txsRead.None? || ConvertDatesAsWritten(txsRead.value[..Min(|txsRead.value|, TRANSACTION_LIMIT)]).None? ==>
      page.transactions == []
  {
    page := new DashboardState(Some(u));
    assert !page.ShouldAutoFetch();
    page.OnLoadStateChange();
    assert !page.insightsLoading;
    page.FinishFetchGoals(goalsRead);
    page.OnLoadStateChange();
    assert !page.insightsLoading;
    page.FinishFetchTransactions(txsRead);
    page.OnLoadStateChange();
  }
}
