# Nayidisha personal-finance core, modelled in Dafny

Nayidisha lets a signed-in user record income and expense transactions and set savings
goals. The user does this through two dialogs or by talking to a voice assistant. A
dashboard shows totals and goal progress, along with an insights report. A language model
writes that report, and a local summary takes its place when the model cannot be used.

This project models the following parts and proves properties about them:

- the aggregation behind every report: totals by type, spending by category, percentages,
  goal progress and the recommended monthly saving;
- the language-model helpers: the local fallback report, the choice between the model's
  answer and the fallback, and the transaction extractor's tagged errors;
- the insights endpoint: reading the bearer header, reading only the caller's documents,
  and caching the report by merging it into the caller's insights document;
- the voice webhook's decision tree: what is stored, for whom, and what the assistant says;
- the voice widget: the summary it sends to the assistant, and its call state machine;
- the dashboard's state while it loads goals, transactions and insights;
- the two entry dialogs: field rules, the record they write, and reset on success;
- the sign-in page: the checks made before each authentication call, the loading flag, and
  the navigation after the call.

Amounts are integers in paise, which are hundredths of a rupee. The two dialogs' amount
pattern allows at most two decimals, so paise represent every accepted amount exactly.
Each outside dependency becomes a parameter:

- the model's reply and the JSON.parse outcome;
- whether a store write or read fails;
- the clock;
- locale formatting of amounts;
- the result of an authentication call.

The store is a class holding the three collections. Each asynchronous handler that waits
in the middle is split into a method before the wait and a method after it.

Modules: `Prims` (options, JavaScript rounding, trimming, decimal text), `Models`,
`Aggregation`, `Gemini`, `Store`, `InsightsRoute`, `Webhook`, `Dashboard`, `Voice`,
`AmountField`, `TransactionDialog`, `GoalDialog` and `Auth`.

## Model

| member | source | states |
|---|---|---|
| Prims.RoundDiv | src/lib/gemini/index.js:277 | `Math.round(p/q)`: the result is within half of p/q, rounding halves up |
| Prims.CeilDiv | src/lib/gemini/index.js:298 | `Math.ceil(a/b)`: the least integer r with a <= b*r |
| Prims.TrimEmptyIffBlank | src/lib/gemini/index.js:218 | `text.trim() === ''` holds exactly when every character is whitespace |
| Models.ParseTransactionType | src/models/index.js:12-14 | a string names a transaction type exactly when it is 'income' or 'expense' |
| Models.TypeNameRoundTrip | src/models/index.js:12-14 | the name of a type parses back to that type |
| Models.DescriptionIsOptional | src/models/index.js:16-26 | adding or dropping a description never changes whether a record has the declared shape |
| Models.CategoryListsWellFormed | src/models/index.js:37-57 | 5 income and 10 expense categories, no repeats, and no category in both lists |
| Aggregation.OfType | src/lib/gemini/index.js:249-255 | the filter keeps exactly the transactions of the type |
| Aggregation.OfTypeAppend | src/lib/gemini/index.js:249-255 | filtering a concatenation is the concatenation of the filtered parts |
| Aggregation.SumAppend | src/lib/gemini/index.js:251 | the sum of `amount \|\| 0` over a concatenation adds the two sums |
| Aggregation.TotalOfTypeStep | src/app/dashboard/page.js:222-229 | one more transaction adds its amount to its own type's total and leaves the other totals unchanged |
| Aggregation.TotalsOfEmpty | src/app/dashboard/page.js:222-229 | no transactions give zero totals |
| Aggregation.OtherTypesIgnored | src/lib/gemini/index.js:249-255 | a record whose type is neither income nor expense moves neither total |
| Aggregation.TotalNonNegative | src/lib/gemini/index.js:249-255 | when every amount is non-negative, so is every total |
| Aggregation.Percentage | src/lib/gemini/index.js:277 | 0 when there are no expenses; otherwise the share, rounded as `Math.round` rounds |
| Aggregation.PercentageInRange | src/lib/gemini/index.js:277 | a share of the total is between 0 and 100 percent |
| Aggregation.GoalProgress | src/lib/gemini/index.js:286-288 | 0 when the target is not positive; otherwise min(round(100·current/target), 100): below 100 it is the rounded percentage, and it is 100 exactly when that percentage rounds to at least 100 |
| Aggregation.Remaining | src/lib/gemini/index.js:290 | never negative, and equal to target minus current whenever that is positive |
| Aggregation.MonthsRemaining | src/lib/gemini/index.js:298 | at least one; 1 when the target date is at most a month away; whenever the date is ahead, exactly the number of whole 30-day months that covers the time left |
| Aggregation.MonthlySaving | src/lib/gemini/index.js:299-301 | the least whole-rupee monthly amount that reaches the remaining amount in time |
| Aggregation.MonthlySavingBounded | src/lib/gemini/index.js:299-301 | the saving is never negative and never more than the whole remaining amount |
| Gemini.BucketOf | src/lib/gemini/index.js:265 | the category when it is truthy, 'Other' when it is missing or empty; never empty |
| Gemini.CategoryTotals | src/lib/gemini/index.js:261-270 | the `expensesByCategory` dictionary: empty for no transactions, and no key is empty (see BucketsAreExpenseCategories and BucketsSumToTotalExpenses for its keys and values) |
| Gemini.CategoryOrder | src/lib/gemini/index.js:261-276 | the dictionary's key order: never longer than the transaction list, and no entry is empty (see OrderMatchesTotals) |
| Gemini.OrderMatchesTotals | src/lib/gemini/index.js:261-276 | the category order lists each category that has a total exactly once |
| Gemini.BucketsAreExpenseCategories | src/lib/gemini/index.js:261-270 | the grouped categories are exactly the buckets of the expense transactions |
| Gemini.BucketsSumToTotalExpenses | src/lib/gemini/index.js:249-270 | the per-category totals add up to the expense total |
| Gemini.GroupExpensesByCategory | src/lib/gemini/index.js:261-270 | the loop builds the category totals and their first-seen order |
| Gemini.BreakdownLines | src/lib/gemini/index.js:273-280 | one line per category in `order`, and line i names category i, carries its total and that total's rounded share of the expenses |
| Gemini.CategoryBreakdown | src/lib/gemini/index.js:276-279 | the loop writes the breakdown lines in category order |
| Gemini.LinesTotalIsBucketSum | src/lib/gemini/index.js:276-279 | the amounts on the breakdown lines add up to the category totals |
| Gemini.BucketsWithinTotal | src/lib/gemini/index.js:261-270 | with non-negative amounts, each category total is between 0 and the expense total |
| Gemini.BreakdownPercentagesInRange | src/lib/gemini/index.js:277 | with non-negative amounts, every category percentage is between 0 and 100 |
| Gemini.GoalLineFigures | src/lib/gemini/index.js:285-304 | progress at most 100 and 0 for a non-positive target; a saving recommendation exactly when a target date is set, reaching the remaining amount in the months left |
| Gemini.GoalLinesOf | src/lib/gemini/index.js:284-308 | one entry per goal, and entry i carries goal i's name, amounts and target date, its progress as GoalProgress gives it, and a monthly saving exactly when the goal has a target date, which is MonthlySaving of what remains over MonthsRemaining until that date |
| Gemini.FallbackReportOf | src/lib/gemini/index.js:249-343 | counts of transactions and goals; net savings are income minus expenses; 'Positive Balance' exactly when they are at least 0; the breakdown exactly when expenses are positive; goal entries exactly when there are goals; the tracking and goal-setting advice exactly when there are no expenses and no goals |
| Gemini.GenerateFallbackResponse | src/lib/gemini/index.js:246-343 | the local report built from the transactions and goals |
| Gemini.FallbackReportFigures | src/lib/gemini/index.js:310-343 | totals by type, net savings, a positive balance exactly when net savings are at least 0, a breakdown exactly when expenses are positive with lines adding up to them, and the goal section holding goal i's entry at position i |
| Gemini.GenerateFinancialInsights | src/lib/gemini/index.js:53-235 | without a key, the local report; sample data gets the canned report with no model call; otherwise the model is called once, and its non-blank reply is used or the local report replaces it |
| Gemini.InsightsBranches | src/lib/gemini/index.js:53-235 | the local report is used exactly when there is no key or the model failed or answered blank; a used reply is verbatim and never empty; the model is not called exactly when there is no key or the data is the sample |
| Gemini.ParseFinancialTransaction | src/lib/gemini/index.js:7-50 | a missing key or a failed call gives 'API processing failed: …'; unparseable text gives 'Failed to parse transaction'; otherwise the parsed value |
| Gemini.ExtractorFailuresAreTagged | src/lib/gemini/index.js:40-49 | every failure of the extractor is an object with a truthy error and no fields, and never reads 'No transaction found' |
| Store.MergeFields | src/app/api/financial-insights/route.js:104-111 | a merge write replaces the given fields and keeps every other field |
| Store.Database.AddTransaction | src/app/api/vapi-webhook/route.js:39-44 | an append, unless the write fails; the other collections are unchanged |
| Store.Database.AddGoal | src/components/AddGoalDialog.jsx:70 | an append, unless the write fails; the other collections are unchanged |
| Store.Database.MergeInsights | src/app/api/financial-insights/route.js:104-111 | a merge into the keyed document, unless the write fails |
| InsightsRoute.UpToSpace | src/app/api/financial-insights/route.js:16 | the longest space-free prefix, followed by the end of the text or a space |
| InsightsRoute.GetUserId | src/app/api/financial-insights/route.js:7-17 | an id exactly when the header starts with 'Bearer '; the id has no space and is the text after 'Bearer ' up to a space or the end |
| InsightsRoute.BearerRoundTrip | src/app/api/financial-insights/route.js:7-17 | the header 'Bearer <uid>' names uid back whenever uid has no space |
| InsightsRoute.OwnedTransactions | src/app/api/financial-insights/route.js:36-47 | exactly the caller's transactions |
| InsightsRoute.OwnedGoals | src/app/api/financial-insights/route.js:50-61 | exactly the caller's goals |
| InsightsRoute.GetResponse | src/app/api/financial-insights/route.js:19-119 | 401 exactly without an id; the access error exactly when a read fails; 'No Data' exactly when the caller owns nothing; otherwise the insights from the caller's own documents |
| InsightsRoute.OtherUsersIgnored | src/app/api/financial-insights/route.js:36-47 | another user's transaction in the store never changes the answer |
| InsightsRoute.CacheFields | src/app/api/financial-insights/route.js:104-111 | exactly the five cached fields: the report, the caller's id, the time, and the transaction and goal counts |
| InsightsRoute.ReadTransactions | src/app/api/financial-insights/route.js:36-47 | the loop over the snapshot collects the caller's transactions in store order |
| InsightsRoute.ReadGoals | src/app/api/financial-insights/route.js:50-61 | the loop over the snapshot collects the caller's goals in store order |
| InsightsRoute.Get | src/app/api/financial-insights/route.js:19-119 | answers as GetResponse; transactions and goals unchanged; only generated insights are merged into the caller's document, and a failed write changes nothing |
| Webhook.CallerOf | src/app/api/vapi-webhook/route.js:14 | the metadata's user id when it is truthy, otherwise 'anonymous'; never empty |
| Webhook.RecordFor | src/app/api/vapi-webhook/route.js:40-44 | the extracted fields with the caller's id and the server time |
| Webhook.StatusOf | src/app/api/vapi-webhook/route.js:17-89 | the `status` field: 'error' exactly for the no-transcript reply, absent exactly on the 500 reply, and otherwise 'success' |
| Webhook.Decide | src/app/api/vapi-webhook/route.js:7-90 | no transcript: the 'error' reply, no extraction and no write; a transcript is handed to the extractor once; a record is stored exactly for a named caller, a clean extraction and a write that succeeds; tagged errors give hints; a null extraction or an unreadable body gives the 500 reply |
| Webhook.StoredRecordBelongsToCaller | src/app/api/vapi-webhook/route.js:14-44 | a stored record belongs to the user named in the metadata, never to 'anonymous', and is answered with 'success' and status 200 |
| Webhook.Post | src/app/api/vapi-webhook/route.js:7-90 | replies as Decide, and appends the decided record to the store and nothing else |
| Dashboard.SummaryStep | src/app/dashboard/page.js:222-236 | each transaction adds one to the activity count and its amount to its own type's total; net savings are income minus expenses |
| Dashboard.CalculateSummary | src/app/dashboard/page.js:222-236 | the activity count is the number of transactions, the totals are the sums by type, and net savings are income minus expenses |
| Dashboard.GoalCardProgress | src/app/dashboard/page.js:341-343 | the bar shows GoalProgress: 0 for a non-positive target, otherwise min(round(100·current/target), 100), pinned by its bounds |
| Dashboard.ProgressLines | src/app/dashboard/page.js:195-201 | one progress line per goal, and line i carries goal i's name and amounts and its GoalProgress |
| Dashboard.FallbackAgreesWithSummary | src/app/dashboard/page.js:168-212 | the page's fallback shows the same totals as the summary cards, and the card's percentage for each goal |
| Dashboard.GenerateFallbackInsights | src/app/dashboard/page.js:168-212 | the counts of transactions and goals; the expense sentence exactly when expenses are positive, the income sentence exactly when income is positive, and progress lines exactly when there are goals |
| Dashboard.FetchError | src/app/dashboard/page.js:111-135 | no error exactly when the response is ok and carries markdown; otherwise the server's error text, 'Failed to fetch insights', 'Invalid insights data received', or the thrown error's message for a rejected request or an unreadable body |
| Dashboard.InsightsAfterError | src/app/dashboard/page.js:142-161 | the local fallback exactly when the page holds any data, otherwise 'Unable to Generate Insights' with the error |
| Dashboard.InsightsAfter | src/app/dashboard/page.js:104-165 | the server's markdown is shown exactly when the fetch succeeded, and it is never empty; the local fallback exactly after an error with data on the page; the error text only when the page holds no data |
| Dashboard.DashboardState.constructor | src/app/dashboard/page.js:21-28 | empty lists, both loads pending, no insights |
| Dashboard.DashboardState.StartFetchGoals | src/app/dashboard/page.js:38-42 | nothing without a user, otherwise goal loading starts |
| Dashboard.DashboardState.FinishFetchGoals | src/app/dashboard/page.js:49-63 | the goals that were read (the old list when the read fails), and loading ends |
| Dashboard.DashboardState.StartFetchTransactions | src/app/dashboard/page.js:71-75 | nothing without a user, otherwise transaction loading starts |
| Dashboard.ConvertDatesAsWritten | src/app/dashboard/page.js:87-91 | the `.map` with `date?.toDate()` fails exactly when some record's date is stored as text, and otherwise keeps the list as read |
| Dashboard.ConvertDates | src/app/dashboard/page.js:87-91 | a conversion that keeps every record read, in order |
| Dashboard.VoiceRecordHidesRecentTransactions | src/app/dashboard/page.js:87-94 | a record with a text date among those read makes the as-written conversion fail |
| Dashboard.ToleratedReadIsShown | src/app/dashboard/page.js:87-92 | with the tolerant conversion the whole read is shown, and the summary counts every record in it |
| Dashboard.DashboardState.FinishFetchTransactions | src/app/dashboard/page.js:76-97 | the first five transactions read when the read succeeds and every date converts; the old list when the read fails or a text date among them makes `.toDate()` throw; loading ends either way |
| Dashboard.DashboardState.StartFetchInsights | src/app/dashboard/page.js:104-108 | nothing without a user, otherwise loading starts and Refresh is disabled |
| Dashboard.DashboardState.FinishFetchInsights | src/app/dashboard/page.js:119-164 | the insights InsightsAfter gives for the outcome, and loading ends whatever the outcome |
| Dashboard.DashboardState.OnLoadStateChange | src/app/dashboard/page.js:215-219 | a fetch starts exactly when a user is present and both loads have finished |
| Dashboard.FirstLoadThenInsights | src/app/dashboard/page.js:215-219 | after sign-in, insights load only once goals and transactions have both finished; a failed read, or a text date among the latest five, leaves the page with no transactions |
| Voice.GoalPercent | src/components/VapiVoiceChat.jsx:29 | the rounded percentage for a non-zero target; Infinity or -Infinity when only the target is zero; 0 for 0/0 |
| Voice.TotalSaved | src/components/VapiVoiceChat.jsx:28 | the sum of the goals' saved amounts: 0 for no goals, a single goal's own saved amount, and (with TotalSavedAppend) additive over concatenation, so the sum on every list; never negative when no goal's saved amount is negative |
| Voice.TotalSavedAppend | src/components/VapiVoiceChat.jsx:28 | the total saved over two lists of goals is the sum of their totals |
| Voice.PercentMatchesProgress | src/components/VapiVoiceChat.jsx:29 | for a goal in progress, the percentage the assistant hears is the one the progress bar shows |
| Voice.GoalsSummary | src/components/VapiVoiceChat.jsx:29 | the joined goal entries are non-empty whenever there is a goal |
| Voice.Header | src/components/VapiVoiceChat.jsx:38 | the summary starts with 'User has ' and a digit |
| Voice.GoalsClause | src/components/VapiVoiceChat.jsx:39-41 | the goals sentence is present exactly when there is a goal |
| Voice.TransactionsClause | src/components/VapiVoiceChat.jsx:42-44 | the transactions sentence is present exactly when there is a transaction |
| Voice.BuiltSummary | src/components/VapiVoiceChat.jsx:38-44 | the untruncated summary starts with its header |
| Voice.Shorten | src/components/VapiVoiceChat.jsx:47-52 | a summary of at most 300 characters is only trimmed; a longer one becomes its first 300 characters and '...'; the header survives both |
| Voice.SummarizeFinancialData | src/components/VapiVoiceChat.jsx:24-53 | at most 303 characters; starts with the header; the trimmed summary when it is short, and otherwise cut to 300 characters and marked '...' |
| Voice.Next | src/components/VapiVoiceChat.jsx:75-106 | one step of the call state machine: Start changes the flags exactly when a start is allowed and then only sets connecting; Stop on a live call clears connecting and otherwise changes nothing; Mute flips only on a live call; a rejected start clears connecting only; 'call-start' makes the call live and unmuted; 'call-end' makes the widget idle; 'error' clears live and connecting and keeps muted; only 'call-end' and 'error' end a live call |
| Voice.RunKeepsExclusive | src/components/VapiVoiceChat.jsx:75-197 | whatever happens, a call is never both live and connecting |
| Voice.MuteTwiceRestores | src/components/VapiVoiceChat.jsx:187-197 | pressing mute twice restores the flags |
| Voice.StopThenEnd | src/components/VapiVoiceChat.jsx:175-185 | Stop leaves the call live; 'call-end' after it makes the widget idle |
| Voice.UserName | src/components/VapiVoiceChat.jsx:147 | the display name when it is truthy, otherwise 'User'; never empty |
| Voice.CleanupAsWrittenMissesLiveCall | src/components/VapiVoiceChat.jsx:111-124 | the mount-time guard is false even while a call is live |
| Voice.VoiceSession.constructor | src/components/VapiVoiceChat.jsx:55-72 | idle flags; an SDK instance exactly when the keys are configured |
| Voice.VoiceSession.StartVapiCall | src/components/VapiVoiceChat.jsx:126-173 | the flags follow Next; a start command with the user's name, the summary and the uid is sent exactly when a start is allowed |
| Voice.VoiceSession.OnStartRejected | src/components/VapiVoiceChat.jsx:168-172 | a rejected start stops connecting |
| Voice.VoiceSession.StopVapiCall | src/components/VapiVoiceChat.jsx:175-185 | the flags follow Next; a stop command is sent only on a live call |
| Voice.VoiceSession.ToggleMute | src/components/VapiVoiceChat.jsx:187-197 | the flags follow Next; a mute command with the new state is sent only on a live call |
| Voice.VoiceSession.OnSdkEvent | src/components/VapiVoiceChat.jsx:75-106 | the flags follow Next for 'call-start', 'call-end' and 'error' |
| Voice.VoiceSession.Cleanup | src/components/VapiVoiceChat.jsx:111-124 | a call that is live or pending at unmount is stopped, and the instance is released |
| AmountField.AmountText | src/components/AddTransactionDialog.jsx:176 | a decimal text with a dot followed by two digits |
| AmountField.AmountTextRoundTrip | src/components/AddTransactionDialog.jsx:176 | every amount in paise has a text that matches `^[0-9]+(\.[0-9]{1,2})?$` and reads back as the same amount |
| AmountField.CheckAmount | src/components/AddTransactionDialog.jsx:173-183 | accepted exactly when the text matches the pattern and reaches the minimum; 'required' exactly for the empty text; the pattern error exactly for other texts that do not match |
| AmountField.CheckAmountOfText | src/components/AddGoalDialog.jsx:125-134 | a canonical amount text is accepted exactly at or above the minimum, and is otherwise below the minimum |
| TransactionDialog.FormErrors | src/components/AddTransactionDialog.jsx:141-204 | no errors exactly when a category is chosen, the amount is at least 0.01 and matches the pattern, and a date is set |
| TransactionDialog.RecordOf | src/components/AddTransactionDialog.jsx:81-86 | the form data with the numeric amount (at least one paisa), the current uid and the server time; it has the declared shape exactly when its type is income or expense |
| TransactionDialog.ResetAsWrittenMislabelsIncome | src/components/AddTransactionDialog.jsx:49-66 | after the as-written reset on the Income tab, a valid income entry is recorded with type 'expense' |
| TransactionDialog.ResetKeepingType | src/components/AddTransactionDialog.jsx:96 | the defaults, with the tab's type |
| TransactionDialog.ResetKeepingTypeIsConsistent | src/components/AddTransactionDialog.jsx:96 | the corrected reset leaves the form's type equal to the tab's |
| TransactionDialog.ConsistentFormsSaveMatchingCategories | src/components/AddTransactionDialog.jsx:156 | a form that agrees with its tab saves a record of the tab's type, with the declared shape and a category of that type |
| TransactionDialog.AddTransactionDialog.constructor | src/components/AddTransactionDialog.jsx:47-59 | closed, not submitting, on the Expense tab, with the default values |
| TransactionDialog.AddTransactionDialog.SetOpen | src/components/AddTransactionDialog.jsx:109 | opens or closes; the form is unchanged |
| TransactionDialog.AddTransactionDialog.HandleTransactionTypeChange | src/components/AddTransactionDialog.jsx:62-66 | sets the tab and the form's type, and clears the category |
| TransactionDialog.AddTransactionDialog.Edit | src/components/AddTransactionDialog.jsx:141-204 | the user's entries, with categories only from the tab's list |
| TransactionDialog.AddTransactionDialog.Submit | src/components/AddTransactionDialog.jsx:68-106 | saved exactly when the form is valid, a user is signed in and the write succeeds; the store gains exactly that record; reset and close only on success; never left submitting |
| GoalDialog.GoalFormErrors | src/components/AddGoalDialog.jsx:110-156 | no errors exactly when a name is given, the amount is at least 1 and matches the pattern, and a date is set |
| GoalDialog.GoalRecordOf | src/components/AddGoalDialog.jsx:61-67 | a named goal with a target of at least one rupee, currentAmount 0, the current uid and the server time |
| GoalDialog.NewGoalStartsAtZero | src/components/AddGoalDialog.jsx:61-67 | a new goal shows 0% progress, and its whole target is still to save |
| GoalDialog.AddGoalDialog.constructor | src/components/AddGoalDialog.jsx:37-46 | closed, not submitting, with the default values |
| GoalDialog.AddGoalDialog.SetOpen | src/components/AddGoalDialog.jsx:90 | opens or closes; the form is unchanged |
| GoalDialog.AddGoalDialog.Edit | src/components/AddGoalDialog.jsx:107-151 | the typed name and amount |
| GoalDialog.AddGoalDialog.PickDate | src/components/AddGoalDialog.jsx:177-182 | a day before now cannot be picked; any other pick, or clearing, becomes the target date |
| GoalDialog.AddGoalDialog.Submit | src/components/AddGoalDialog.jsx:48-87 | saved exactly when the form is valid, a user is signed in and the write succeeds; the store gains exactly that goal; reset and close only on success; never left submitting |
| Auth.SignInPrecheck | src/app/auth/page.js:32-35 | proceeds exactly when the email and password are both non-empty |
| Auth.SignUpPrecheck | src/app/auth/page.js:51-59 | 'missing' exactly for an empty email or password; 'too short' exactly for a shorter password with both present; proceeds otherwise |
| Auth.SignUpStricterThanSignIn | src/app/auth/page.js:30-59 | what sign-up accepts, sign-in accepts; both reject missing credentials alike |
| Auth.ToastAfter | src/app/auth/page.js:40-43 | a success toast exactly when the call succeeded, otherwise the error's message |
| Auth.AuthPage.constructor | src/app/auth/page.js:22-26 | empty inputs, not loading, on the sign-in tab |
| Auth.AuthPage.SetCredentials | src/app/auth/page.js:193-200 | the typed email and password, accepted only while no call is in flight |
| Auth.AuthPage.SetName | src/app/auth/page.js:250-257 | the typed name, also while a call is in flight, without touching the call |
| Auth.AuthPage.SetActiveTab | src/app/auth/page.js:162-166 | the chosen tab |
| Auth.AuthPage.HandleEmailSignIn | src/app/auth/page.js:30-39 | rejected input shows the message and leaves isLoading false; accepted input starts loading with the sign-in call |
| Auth.AuthPage.HandleEmailSignUp | src/app/auth/page.js:49-63 | the same, with the six-character password check |
| Auth.AuthPage.HandleGoogleSignIn | src/app/auth/page.js:73-76 | loading starts with the popup call; there are no checks |
| Auth.AuthPage.FinishAuthCall | src/app/auth/page.js:40-46 | a toast for the result; the dashboard only on success; loading ends whatever the result |

## Left out

- Locale formatting (`toLocaleString`, `toLocaleDateString`) is not modelled. The voice summary takes it as a function parameter. The two fallback reports are modelled as data (which line is chosen, and its figures), not as markdown text.
- Floating point: amounts are exact paise, so a total of doubles that would round differently is not captured. `parseFloat` is modelled only on texts that match the amount pattern.
- AmountField.CheckAmount: the form library checks the minimum before the pattern. For a text that fails the pattern but reads as a number below the minimum, such as '-5' or '0.001', it shows "Amount must be at least 0.01", while the model reports the pattern error. Acceptance is the same either way.
- String lengths: the 300-character cut and the 6-character password rule count Unicode scalar values. JavaScript counts UTF-16 code units.
- The canned report for the demo data is reduced to its trigger condition.
- The catch-all 500 answers are not modelled:
  - the insights route's outer handler;
  - `generateFinancialInsights`'s outer catch (the 'Failed to generate insights' object);
  - `generateFallbackResponse`'s catch.
  No modelled step throws past the inner handlers.
- The OPTIONS handlers of both routes are not modelled. They return fixed CORS headers.
- Store collections are sequences. For `expensesByCategory`, three things are not modelled: object-key ordering for integer-like category names, the `__proto__` key, and category names inherited from `Object.prototype` such as 'toString' or 'constructor'. For those names the `!expensesByCategory[category]` guard finds the inherited function, so the total becomes text.
- Firestore timestamps are not modelled: a timestamp and the JavaScript Date it converts to are both milliseconds (`Instant`). A transaction date the voice webhook stores as 'YYYY-MM-DD' text stays text (`IsoText`), and the dashboard's conversion of it is modelled (see Findings).
- The insights route converts only `createdAt` (src/app/api/financial-insights/route.js:53-58). Each goal's `targetDate` therefore reaches `new Date(goal.targetDate)` in the fallback report as a Firestore Timestamp object, which may not convert to a valid date. The model treats it as milliseconds, so it does not capture a month count or saving that may come out as NaN.
- A falsy `targetDate` of 0 counts as set. Goals without `currentAmount` are not modelled: the field is always a number.
- The voice widget's toasts are not modelled, nor the `timestamp` it sends in the start metadata.
- Dialog and page toasts and console logging are not modelled. Router navigation is modelled only as a list of pushed routes on the sign-in page. The dashboard's redirect to /auth is left out.
- Webhook.RecordFor: a falsy `error` field (null or '') that the extraction carried is spread into the stored record. The model's record has no such field.
- Gemini.ParseFinancialTransaction: the parsed JSON is modelled as `null` or an object with the five typed fields. JSON.parse may also give a number, a string, a boolean or an array, whose `error` is undefined. The webhook then stores a record with no transaction fields (or with index keys). An object with extra or wrongly typed fields (such as `amount: "45"`) is also stored as it is. None of these shapes is modelled.
- Webhook.Decide: the confirmation carries the extracted amount, description and category values, not the sentence text built from them.
- The extractor's amount is the number the model returns. Its unit is taken to be paise, like every other amount.
- `parseFinancialTransaction` does not check for an empty transcript; only the webhook's `!transcript` check (src/app/api/vapi-webhook/route.js:17) rejects it, and the model follows the code.
- The transaction dialog uses the corrected reset (see Findings). The tab state therefore always agrees with the form's type.
- The voice widget's cleanup uses the flags at unmount (see Findings).
- The dashboard's transaction fetch follows the code as written: a text date among the records read keeps the old list (see Findings). The tolerant conversion is modelled beside it.
- The model call's prompt texts and generation settings are not modelled: the reply is a parameter.
- Auth.AuthPage.SetName: the name is typed separately from the email and password because its input stays enabled while a call is in flight.
- Concurrency between handlers (a second press while a request is pending) is ruled out: every button that could start one is disabled while loading, and each method takes the state as it finds it. The dashboard's second 'Generate Insights' button is not disabled, and overlapping fetches are not modelled.

## Findings

| source | as written | input that shows it | evidently intended | confidence | as-written member | corrected member |
|---|---|---|---|---|---|---|
| src/components/AddTransactionDialog.jsx:96 | `form.reset()` restores the default type 'expense' and keeps the `transactionType` tab state | Choose the Income tab and save an income. The tab still shows Income, but the form's type is 'expense'. Pressing Income again does not fire a change, so the next income with category 'Salary' and amount 500.00 is stored with type 'expense'. | The reset keeps the form's type equal to the tab, so every saved record's category belongs to its type | not executed | TransactionDialog.ResetAsWrittenMislabelsIncome | TransactionDialog.ConsistentFormsSaveMatchingCategories |
| src/components/VapiVoiceChat.jsx:111-124 | The cleanup closure created on mount reads `isSessionActive` and `isConnecting` from the mount-time render, where both are false | Start a call and wait for 'call-start', then leave the page. The guard reads the mount-time flags, so `stop()` is never called. | A call that is live or connecting at unmount is stopped | not executed | Voice.CleanupAsWrittenMissesLiveCall | Voice.VoiceSession.Cleanup |
| src/app/dashboard/page.js:87-94 | `date: doc.data().date?.toDate()` assumes every stored date is a Firestore timestamp, but the voice webhook stores the extracted date as 'YYYY-MM-DD' text (src/app/api/vapi-webhook/route.js:39-44, with the extractor's format at src/lib/gemini/index.js:27). `.toDate` is undefined on a string, so the map throws and the catch keeps the old list. | Record an expense by voice with a date, then open the dashboard. Firestore orders text after timestamps, so the query sorted by `date` descending lists that record among the first five. The map throws, the recent list stays empty, and the summary cards show zero. | The dashboard shows the latest five transactions, whichever form their dates were stored in | not executed | Dashboard.VoiceRecordHidesRecentTransactions | Dashboard.ToleratedReadIsShown |
