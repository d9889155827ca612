/** The insights library: the local fallback report (totals, expenses grouped by category
    with percentages, goal progress and monthly savings), the choice between the language
    model's reply and that fallback, and the extraction of a transaction from a transcript.
    The language model and JSON.parse are oracles: their outcomes are parameters. */
module Gemini {
  import opened Prims
  import opened Models
  import opened Aggregation

  // ---------------------------------------------------------------------------------
  // Expenses grouped by category
  // ---------------------------------------------------------------------------------

  const OTHER_CATEGORY: string := "Other"

  /** `transaction.category || 'Other'`: the bucket an expense is counted in. */
  function BucketOf(t: Transaction): (b: string)
    ensures b != ""
    ensures Truthy(t.category) ==> b == t.category.value
    ensures !Truthy(t.category) ==> b == OTHER_CATEGORY
  {
    if Truthy(t.category) then t.category.value else OTHER_CATEGORY
  }

  /** The value stored under a key, 0 when absent. */
  function Lookup(m: map<string, int>, k: string): int {
    if k in m then m[k] else 0
  }

  /** One visit of the forEach: an expense adds its amount to its bucket, anything else
      leaves the dictionary alone. */
  function AddExpense(m: map<string, int>, t: Transaction): map<string, int> {
    if HasType(t, EXPENSE) then m[BucketOf(t) := Lookup(m, BucketOf(t)) + AmountOf(t)] else m
  }

  /** The key order after that visit: a bucket seen for the first time goes last. */
  function AddBucket(o: seq<string>, t: Transaction): seq<string> {
    if HasType(t, EXPENSE) && BucketOf(t) !in o then o + [BucketOf(t)] else o
  }

  /** The `expensesByCategory` dictionary once the forEach has visited `txs`. */
  function CategoryTotals(txs: seq<Transaction>): (m: map<string, int>)
    ensures txs == [] ==> m == map[]
    ensures forall k :: k in m ==> k != ""
  {
    if txs == [] then map[] else AddExpense(CategoryTotals(txs[..|txs| - 1]), txs[|txs| - 1])
  }

  /** The dictionary's key order, as Object.entries lists it: buckets by first appearance. */
  function CategoryOrder(txs: seq<Transaction>): (o: seq<string>)
    ensures |o| <= |txs|
    ensures forall i :: 0 <= i < |o| ==> o[i] != ""
  {
    if txs == [] then [] else AddBucket(CategoryOrder(txs[..|txs| - 1]), txs[|txs| - 1])
  }

  /** The buckets of the expenses among `txs`. */
  function ExpenseBuckets(txs: seq<Transaction>): set<string> {
    set i | 0 <= i < |txs| && HasType(txs[i], EXPENSE) :: BucketOf(txs[i])
  }

  /** Sum of the dictionary's values along a key order. */
  function BucketSum(order: seq<string>, m: map<string, int>): int {
    if order == [] then 0 else BucketSum(order[..|order| - 1], m) + Lookup(m, order[|order| - 1])
  }

  /** The key order lists every key of the dictionary exactly once. */
  lemma {:induction false} OrderMatchesTotals(txs: seq<Transaction>)
    ensures NoDuplicates(CategoryOrder(txs))
    ensures forall k :: k in CategoryOrder(txs) <==> k in CategoryTotals(txs)
  {
    if txs != [] {
      OrderMatchesTotals(txs[..|txs| - 1]);
    }
  }

  /** Every expense lands in a bucket, and every bucket holds at least one expense. */
  lemma {:induction false} BucketsAreExpenseCategories(txs: seq<Transaction>)
    ensures CategoryTotals(txs).Keys == ExpenseBuckets(txs)
  {
    if txs != [] {
      var init := txs[..|txs| - 1];
      var t := txs[|txs| - 1];
      BucketsAreExpenseCategories(init);
      var extra: set<string> := if HasType(t, EXPENSE) then {BucketOf(t)} else {};
      assert CategoryTotals(txs).Keys == CategoryTotals(init).Keys + extra;
      forall k | k in ExpenseBuckets(txs) ensures k in ExpenseBuckets(init) + extra {
        var i :| 0 <= i < |txs| && HasType(txs[i], EXPENSE) && BucketOf(txs[i]) == k;
        if i < |init| {
          assert txs[i] == init[i];
        }
      }
      forall k | k in ExpenseBuckets(init) + extra ensures k in ExpenseBuckets(txs) {
        if k in ExpenseBuckets(init) {
          var i :| 0 <= i < |init| && HasType(init[i], EXPENSE) && BucketOf(init[i]) == k;
          assert txs[i] == init[i];
        } else {
          assert k == BucketOf(txs[|txs| - 1]);
        }
      }
    }
  }

  lemma {:induction false} BucketSumFrame(order: seq<string>, m: map<string, int>, k: string, v: int)
    requires k !in order
    ensures BucketSum(order, m[k := v]) == BucketSum(order, m)
  {
    if order != [] {
      BucketSumFrame(order[..|order| - 1], m, k, v);
    }
  }

  lemma {:induction false} BucketSumBump(order: seq<string>, m: map<string, int>, k: string, a: int)
    requires NoDuplicates(order) && k in order
    ensures BucketSum(order, m[k := Lookup(m, k) + a]) == BucketSum(order, m) + a
  {
    var init := order[..|order| - 1];
    var last := order[|order| - 1];
    if last == k {
      forall j | 0 <= j < |init| ensures init[j] != k {
        assert order[j] != order[|order| - 1];
      }
      BucketSumFrame(init, m, k, Lookup(m, k) + a);
    } else {
      assert k in init by {
        var j :| 0 <= j < |order| && order[j] == k;
        assert j < |order| - 1;
        assert init[j] == k;
      }
      BucketSumBump(init, m, k, a);
    }
  }

  /** One visit moves the sum of the buckets by the amount of an expense and by nothing otherwise. */
  lemma BucketSumStep(o: seq<string>, m: map<string, int>, t: Transaction)
    requires NoDuplicates(o)
    requires forall k :: k in o <==> k in m
    ensures BucketSum(AddBucket(o, t), AddExpense(m, t))
         == BucketSum(o, m) + (if HasType(t, EXPENSE) then AmountOf(t) else 0)
  {
    if HasType(t, EXPENSE) {
      var b := BucketOf(t);
      var a := AmountOf(t);
      assert AddExpense(m, t) == m[b := Lookup(m, b) + a];
      if b in o {
        assert AddBucket(o, t) == o;
        BucketSumBump(o, m, b, a);
      } else {
        assert AddBucket(o, t) == o + [b];
        assert Lookup(m, b) + a == a;
        BucketSumAppend(o, m, b, a);
      }
    } else {
      assert AddBucket(o, t) == o && AddExpense(m, t) == m;
    }
  }

  lemma BucketSumAppend(o: seq<string>, m: map<string, int>, b: string, a: int)
    requires b !in o
    ensures BucketSum(o + [b], m[b := a]) == BucketSum(o, m) + a
  {
    assert (o + [b])[..|o|] == o;
    BucketSumFrame(o, m, b, a);
  }

  /** The category buckets add up to the total of the expenses. */
  lemma {:induction false} BucketsSumToTotalExpenses(txs: seq<Transaction>)
    ensures BucketSum(CategoryOrder(txs), CategoryTotals(txs)) == TotalExpenses(txs)
  {
    if txs != [] {
      var init := txs[..|txs| - 1];
      var t := txs[|txs| - 1];
      BucketsSumToTotalExpenses(init);
      OrderMatchesTotals(init);
      BucketSumStep(CategoryOrder(init), CategoryTotals(init), t);
      TotalOfTypeStep(init, t, EXPENSE);
      assert init + [t] == txs;
    }
  }

  /** The forEach of lines 262-270: fill the dictionary one expense at a time. */
  method GroupExpensesByCategory(txs: seq<Transaction>) returns (order: seq<string>, totals: map<string, int>)
    ensures order == CategoryOrder(txs) && totals == CategoryTotals(txs)
  {
    order, totals := [], map[];
    for i := 0 to |txs|
      invariant order == CategoryOrder(txs[..i]) && totals == CategoryTotals(txs[..i])
    {
      assert txs[..i + 1][..i] == txs[..i];
      OrderMatchesTotals(txs[..i]);
      var t := txs[i];
      if t.kind == Some(EXPENSE) {
        var category := BucketOf(t);
        if category !in totals {
          totals := totals[category := 0];
          order := order + [category];
        }
        totals := totals[category := totals[category] + AmountOf(t)];
      }
    }
    assert txs[..|txs|] == txs;
  }

  // ---------------------------------------------------------------------------------
  // The category breakdown
  // ---------------------------------------------------------------------------------

  /** One line of the breakdown: `- **category**: ₹amount (percentage% of expenses)`. */
  datatype CategoryLine = CategoryLine(category: string, amount: int, percentage: int)

  function LineFor(category: string, totals: map<string, int>, totalExpenses: int): CategoryLine {
    CategoryLine(category, Lookup(totals, category), Percentage(Lookup(totals, category), totalExpenses))
  }

  /** The breakdown lines for the keys in `order`. */
  function BreakdownLines(order: seq<string>, totals: map<string, int>, totalExpenses: int): (r: seq<CategoryLine>)
    ensures |r| == |order|
    ensures forall i :: 0 <= i < |order| ==>
      && r[i].category == order[i]
      && r[i].amount == Lookup(totals, order[i])
      && r[i].percentage == Percentage(Lookup(totals, order[i]), totalExpenses)
  {
    if order == [] then []
    else BreakdownLines(order[..|order| - 1], totals, totalExpenses)
         + [LineFor(order[|order| - 1], totals, totalExpenses)]
  }

  function LinesTotal(lines: seq<CategoryLine>): int {
    if lines == [] then 0 else LinesTotal(lines[..|lines| - 1]) + lines[|lines| - 1].amount
  }

  /** The for-of loop of lines 276-279: one line per dictionary entry, in key order. */
  method CategoryBreakdown(order: seq<string>, totals: map<string, int>, totalExpenses: int)
    returns (lines: seq<CategoryLine>)
    requires forall k :: k in order ==> k in totals
    ensures lines == BreakdownLines(order, totals, totalExpenses)
  {
    lines := [];
    for i := 0 to |order|
      invariant lines == BreakdownLines(order[..i], totals, totalExpenses)
    {
      assert order[..i + 1][..i] == order[..i];
      var category := order[i];
      var amount := totals[category];
      var percentage := if totalExpenses > 0 then RoundDiv(100 * amount, totalExpenses) else 0;
      lines := lines + [CategoryLine(category, amount, percentage)];
    }
    assert order[..|order|] == order;
  }

  lemma {:induction false} LinesTotalIsBucketSum(order: seq<string>, totals: map<string, int>, totalExpenses: int)
    ensures LinesTotal(BreakdownLines(order, totals, totalExpenses)) == BucketSum(order, totals)
  {
    if order != [] {
      var init := order[..|order| - 1];
      LinesTotalIsBucketSum(init, totals, totalExpenses);
      var lines := BreakdownLines(order, totals, totalExpenses);
      assert lines[..|lines| - 1] == BreakdownLines(init, totals, totalExpenses);
    }
  }

  /** With non-negative amounts each bucket is non-negative and at most the expense total. */
  lemma {:induction false} BucketsWithinTotal(txs: seq<Transaction>)
    requires forall i :: 0 <= i < |txs| ==> AmountOf(txs[i]) >= 0
    ensures forall k :: k in CategoryTotals(txs) ==> 0 <= CategoryTotals(txs)[k] <= TotalExpenses(txs)
  {
    if txs != [] {
      var init := txs[..|txs| - 1];
      var t := txs[|txs| - 1];
      assert txs == init + [t];
      BucketsWithinTotal(init);
      TotalNonNegative(init, EXPENSE);
      TotalOfTypeStep(init, t, EXPENSE);
    }
  }

  /** Every percentage of the breakdown lies between 0 and 100 when amounts are non-negative. */
  lemma BreakdownPercentagesInRange(txs: seq<Transaction>)
    requires forall i :: 0 <= i < |txs| ==> AmountOf(txs[i]) >= 0
    ensures forall k :: k in CategoryTotals(txs) ==>
      0 <= Percentage(CategoryTotals(txs)[k], TotalExpenses(txs)) <= 100
  {
    BucketsWithinTotal(txs);
    forall k | k in CategoryTotals(txs)
      ensures 0 <= Percentage(CategoryTotals(txs)[k], TotalExpenses(txs)) <= 100
    {
      PercentageInRange(CategoryTotals(txs)[k], TotalExpenses(txs));
    }
  }

  // ---------------------------------------------------------------------------------
  // Goal analysis
  // ---------------------------------------------------------------------------------

  /** One goal's entry: name, amounts, progress, target date and, when a target date is
      set, the recommended monthly saving in rupees. */
  datatype GoalLine = GoalLine(
    name: string,
    currentAmount: int,
    targetAmount: int,
    progress: int,
    targetDate: Option<int>,
    monthlySaving: Option<int>)

  function GoalLineOf(g: Goal, now: int): GoalLine {
    var saving :=
      if g.targetDate.Some? then
        Some(MonthlySaving(Remaining(g.targetAmount, g.currentAmount), MonthsRemaining(g.targetDate.value, now)))
      else None;
    GoalLine(g.name, g.currentAmount, g.targetAmount, GoalProgress(g.currentAmount, g.targetAmount),
             g.targetDate, saving)
  }

  /** The figures of a goal's entry: progress never exceeds 100 and is 0 for a degenerate
      target; a saving is recommended exactly when a target date is set, and it is the least
      whole-rupee amount that, saved every remaining month (at least one), covers what is
      left, so it is never negative and never more than the whole remaining amount. */
  lemma GoalLineFigures(g: Goal, now: int)
    ensures GoalLineOf(g, now).progress <= 100
    ensures g.targetAmount <= 0 ==> GoalLineOf(g, now).progress == 0
    ensures GoalLineOf(g, now).monthlySaving.Some? <==> g.targetDate.Some?
    ensures g.targetDate.Some? ==>
      var s := GoalLineOf(g, now).monthlySaving.value;
      var left := Remaining(g.targetAmount, g.currentAmount);
      var months := MonthsRemaining(g.targetDate.value, now);
      && months >= 1
      && 100 * months * (s - 1) < left <= 100 * months * s
      && 0 <= s <= CeilDiv(left, 100)
  {
    if g.targetDate.Some? {
      MonthlySavingBounded(Remaining(g.targetAmount, g.currentAmount), MonthsRemaining(g.targetDate.value, now));
    }
  }

  function GoalLinesOf(goals: seq<Goal>, now: int): (r: seq<GoalLine>)
    ensures |r| == |goals|
    ensures forall i :: 0 <= i < |goals| ==>
      && r[i].name == goals[i].name
      && r[i].currentAmount == goals[i].currentAmount
      && r[i].targetAmount == goals[i].targetAmount
      && r[i].targetDate == goals[i].targetDate
      && r[i].progress == GoalProgress(goals[i].currentAmount, goals[i].targetAmount)
      && (r[i].monthlySaving.Some? <==> goals[i].targetDate.Some?)
      && (goals[i].targetDate.Some? ==>
            r[i].monthlySaving.value == MonthlySaving(Remaining(goals[i].targetAmount, goals[i].currentAmount),
                                                      MonthsRemaining(goals[i].targetDate.value, now)))
  {
    seq(|goals|, i requires 0 <= i < |goals| => GoalLineOf(goals[i], now))
  }

  // ---------------------------------------------------------------------------------
  // The fallback report
  // ---------------------------------------------------------------------------------

  /** The "Spending Patterns" section: the breakdown, or "No expense transactions recorded yet." */
  datatype Spending = NoExpensesRecorded | ByCategory(lines: seq<CategoryLine>)

  /** The "Goal Progress Analysis" section: one entry per goal, or "No goals set yet." */
  datatype GoalSection = NoGoalsSet | GoalEntries(entries: seq<GoalLine>)

  /** The locally generated report: which line of each section is chosen and its figures. */
  datatype FallbackReport = FallbackReport(
    transactionCount: nat,
    goalCount: nat,
    totalIncome: int,
    totalExpenses: int,
    netSavings: int,
    positiveBalance: bool,          // "Positive Balance" rather than "Negative Balance"
    spending: Spending,
    goals: GoalSection,
    adviseReduceExpenses: bool,     // recommendation 1
    adviseStartTracking: bool,      // recommendation 2
    adviseSetGoals: bool)           // recommendation 3

  /** The report generateFallbackResponse builds (lines 249-343). */
  function FallbackReportOf(txs: seq<Transaction>, goals: seq<Goal>, now: int): (r: FallbackReport)
    ensures r.transactionCount == |txs| && r.goalCount == |goals|
    ensures r.netSavings == r.totalIncome - r.totalExpenses
    ensures r.positiveBalance <==> r.netSavings >= 0
    ensures r.spending.ByCategory? <==> r.totalExpenses > 0
    ensures r.goals.GoalEntries? <==> |goals| > 0
    ensures r.adviseStartTracking <==> r.totalExpenses == 0
    ensures r.adviseSetGoals <==> goals == []
  {
    var income := TotalIncome(txs);
    var expenses := TotalExpenses(txs);
    var net := income - expenses;
    FallbackReport(
      |txs|, |goals|, income, expenses, net, net >= 0,
      if expenses > 0 then ByCategory(BreakdownLines(CategoryOrder(txs), CategoryTotals(txs), expenses))
      else NoExpensesRecorded,
      if |goals| > 0 then GoalEntries(GoalLinesOf(goals, now)) else NoGoalsSet,
      net < 0, expenses == 0, |goals| == 0)
  }

  /** generateFallbackResponse: the totals by reduce, the dictionary and breakdown by loops. */
  method GenerateFallbackResponse(txs: seq<Transaction>, goals: seq<Goal>, now: int) returns (r: FallbackReport)
    ensures r == FallbackReportOf(txs, goals, now)
  {
    var totalExpenses := TotalExpenses(txs);
    var totalIncome := TotalIncome(txs);
    var netSavings := totalIncome - totalExpenses;
    var order, totals := GroupExpensesByCategory(txs);
    var breakdown: seq<CategoryLine> := [];
    if |order| > 0 {
      OrderMatchesTotals(txs);
      breakdown := CategoryBreakdown(order, totals, totalExpenses);
    }
    var goalSection := if |goals| > 0 then GoalEntries(GoalLinesOf(goals, now)) else NoGoalsSet;
    r := FallbackReport(
      |txs|, |goals|, totalIncome, totalExpenses, netSavings, netSavings >= 0,
      if totalExpenses > 0 then ByCategory(breakdown) else NoExpensesRecorded,
      goalSection, netSavings < 0, totalExpenses == 0, |goals| == 0);
  }

  /** The fallback's figures: the totals are the sums by type, net savings is their difference,
      the balance line is "Positive" exactly when net savings is at least zero, the breakdown
      appears exactly when expenses are positive and then has one line per expense category
      whose amounts add up to the expense total, and the goal section lists every goal. */
  lemma FallbackReportFigures(txs: seq<Transaction>, goals: seq<Goal>, now: int)
    ensures var r := FallbackReportOf(txs, goals, now);
      && r.transactionCount == |txs| && r.goalCount == |goals|
      && r.totalIncome == TotalIncome(txs)
      && r.totalExpenses == TotalExpenses(txs)
      && r.netSavings == r.totalIncome - r.totalExpenses
      && (r.positiveBalance <==> r.netSavings >= 0)
      && (r.adviseReduceExpenses <==> !r.positiveBalance)
      && (r.spending.ByCategory? <==> r.totalExpenses > 0)
      && (r.spending.ByCategory? ==>
            && |r.spending.lines| == |CategoryOrder(txs)| > 0
            && LinesTotal(r.spending.lines) == r.totalExpenses)
      && (r.goals.GoalEntries? <==> |goals| > 0)
      && (r.goals.GoalEntries? ==> r.goals.entries == GoalLinesOf(goals, now))
  {
    var expenses := TotalExpenses(txs);
    BucketsSumToTotalExpenses(txs);
    LinesTotalIsBucketSum(CategoryOrder(txs), CategoryTotals(txs), expenses);
  }

  // ---------------------------------------------------------------------------------
  // generateFinancialInsights: the model's reply or the fallback
  // ---------------------------------------------------------------------------------

  /** What the language model call gives: the reply text, or a rejection with its message. */
  datatype ApiReply = Reply(text: string) | ApiFailure(message: string)

  /** The `markdownContent` of an insights result. */
  datatype Content = ModelReply(text: string) | LocalFallback(report: FallbackReport) | SampleDataReport

  datatype Insights = Insights(content: Content, summary: string)

  /** An insights result together with the number of model calls made to produce it. */
  datatype Generation = Generation(insights: Insights, modelCalls: nat)

  const SUMMARY_GENERATED: string := "Financial insights generated successfully"
  const SUMMARY_LOCAL: string := "Financial insights generated locally"
  const SUMMARY_SAMPLE: string := "Financial insights generated for your sample data"

  /** The hard-coded demo data: one 'Food' transaction of 1000 rupees and two goals, the
      first named 'Buy a Shoes'. */
  predicate IsSampleData(txs: seq<Transaction>, goals: seq<Goal>) {
    && |txs| == 1 && txs[0].amount == Some(100000) && txs[0].category == Some("Food")
    && |goals| == 2 && goals[0].name == "Buy a Shoes"
  }

  /** `!markdownText || markdownText.trim() === ''` */
  predicate IsBlank(text: string) {
    Trim(text) == ""
  }

  function FallbackInsights(txs: seq<Transaction>, goals: seq<Goal>, now: int): Insights {
    Insights(LocalFallback(FallbackReportOf(txs, goals, now)), SUMMARY_LOCAL)
  }

  /** generateFinancialInsights, with the key's presence and the model's reply as parameters. */
  function GenerateFinancialInsights(txs: seq<Transaction>, goals: seq<Goal>, hasApiKey: bool,
                                     reply: ApiReply, now: int): (r: Generation)
    ensures !hasApiKey ==> r == Generation(FallbackInsights(txs, goals, now), 0)
    ensures hasApiKey && IsSampleData(txs, goals) ==>
      r == Generation(Insights(SampleDataReport, SUMMARY_SAMPLE), 0)
    ensures hasApiKey && !IsSampleData(txs, goals) ==> r.modelCalls == 1
    ensures hasApiKey && !IsSampleData(txs, goals) && reply.Reply? && !IsBlank(reply.text) ==>
      r.insights == Insights(ModelReply(reply.text), SUMMARY_GENERATED)
    ensures hasApiKey && !IsSampleData(txs, goals) && (reply.ApiFailure? || IsBlank(reply.text)) ==>
      r.insights == FallbackInsights(txs, goals, now)
  {
    if !hasApiKey then Generation(FallbackInsights(txs, goals, now), 0)
    else if IsSampleData(txs, goals) then Generation(Insights(SampleDataReport, SUMMARY_SAMPLE), 0)
    else match reply
      case Reply(text) =>
        if IsBlank(text) then Generation(FallbackInsights(txs, goals, now), 1)
        else Generation(Insights(ModelReply(text), SUMMARY_GENERATED), 1)
      case ApiFailure(_) => Generation(FallbackInsights(txs, goals, now), 1)
  }

  /** The fallback is used exactly when there is no key, or the model was asked and failed or
      answered with blanks; a reply that is used is never blank, so the content is never empty. */
  lemma InsightsBranches(txs: seq<Transaction>, goals: seq<Goal>, hasApiKey: bool, reply: ApiReply, now: int)
    ensures var r := GenerateFinancialInsights(txs, goals, hasApiKey, reply, now);
      && (r.insights.content.LocalFallback? <==>
            !hasApiKey || (!IsSampleData(txs, goals) && (reply.ApiFailure? || IsBlank(reply.text))))
      && (r.insights.content.ModelReply? ==> r.insights.content.text == reply.text && r.insights.content.text != "")
      && (r.modelCalls == 0 <==> !hasApiKey || IsSampleData(txs, goals))
  {
  }

  // ---------------------------------------------------------------------------------
  // parseFinancialTransaction: tagged errors, never an exception
  // ---------------------------------------------------------------------------------

  /** The transaction fields the model is asked for; null where it could not tell.
      The amount is in paise. */
  datatype ParsedFields = ParsedFields(
    kind: Option<string>,
    amount: Option<int>,
    category: Option<string>,
    description: Option<string>,
    date: Option<string>)

  /** What JSON.parse yields: null, or an object with an optional `error` and the fields. */
  datatype Json = JsonNull | JsonObject(error: Option<string>, fields: ParsedFields)

  /** JSON.parse of the reply text: a value, or a SyntaxError. */
  datatype JsonParse = Parsed(value: Json) | SyntaxError

  const NO_FIELDS: ParsedFields := ParsedFields(None, None, None, None, None)
  const MISSING_KEY_MESSAGE: string := "GEMINI_API_KEY is not defined"
  const PARSE_FAILURE: string := "Failed to parse transaction"
  const API_FAILURE_PREFIX: string := "API processing failed: "
  const NO_TRANSACTION_FOUND: string := "No transaction found"

  /** `{ error: message }` */
  function ErrorObject(message: string): Json {
    JsonObject(Some(message), NO_FIELDS)
  }

  /** `!result.error` fails: the result is an object whose `error` is truthy. */
  predicate IsTaggedError(j: Json) {
    j.JsonObject? && Truthy(j.error)
  }

  /** parseFinancialTransaction, with the key's presence, the model's reply and the outcome
      of JSON.parse on that reply as parameters. */
  function ParseFinancialTransaction(hasApiKey: bool, reply: ApiReply, parsed: JsonParse): (r: Json)
    ensures !hasApiKey ==> r == ErrorObject(API_FAILURE_PREFIX + MISSING_KEY_MESSAGE)
    ensures hasApiKey && reply.ApiFailure? ==> r == ErrorObject(API_FAILURE_PREFIX + reply.message)
    ensures hasApiKey && reply.Reply? && parsed.SyntaxError? ==> r == ErrorObject(PARSE_FAILURE)
    ensures hasApiKey && reply.Reply? && parsed.Parsed? ==> r == parsed.value
  {
    if !hasApiKey then ErrorObject(API_FAILURE_PREFIX + MISSING_KEY_MESSAGE)
    else match reply
      case ApiFailure(message) => ErrorObject(API_FAILURE_PREFIX + message)
      case Reply(_) =>
        match parsed
        case SyntaxError => ErrorObject(PARSE_FAILURE)
        case Parsed(value) => value
  }

  /** Every failure of the extractor itself is a tagged error, and none of its own tags can
      be mistaken for the model's "No transaction found" answer. */
  lemma ExtractorFailuresAreTagged(hasApiKey: bool, reply: ApiReply, parsed: JsonParse)
    ensures var r := ParseFinancialTransaction(hasApiKey, reply, parsed);
      (!hasApiKey || reply.ApiFailure? || parsed.SyntaxError?) ==>
        && IsTaggedError(r)
        && r.error.value != NO_TRANSACTION_FOUND
        && r.fields == NO_FIELDS
        && (r.error.value == PARSE_FAILURE || r.error.value[..|API_FAILURE_PREFIX|] == API_FAILURE_PREFIX)
  {
    var r := ParseFinancialTransaction(hasApiKey, reply, parsed);
    if !hasApiKey || reply.ApiFailure? {
      assert r.error.value[..|API_FAILURE_PREFIX|] == API_FAILURE_PREFIX;
      assert r.error.value[0] == 'A';
      assert NO_TRANSACTION_FOUND[0] == 'N';
    } else if parsed.SyntaxError? {
      assert r.error.value[0] == 'F';
    }
  }
}
