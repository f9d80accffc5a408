# Finance bot core in Dafny

This is a Dafny model of the core of a WhatsApp personal-finance bot, which is written in JavaScript (`index.js`). A user writes free text. A language model reads the text as an intent with slots: description, value and category name. The bot turns that into a command, asks back when it must, and keeps the user's ledger. The ledger has a balance, an optional spending limit, categories, a reminder mode and a collection of transactions.

The model has these parts:

- **Text** (`text.dfy`) and **Numbers** (`numbers.dfy`): the JavaScript string and number operations the core relies on: `trim`, `toLowerCase`, `split`, `startsWith`, `includes`, `parseFloat` and `toFixed(2)`.
- **Intent** (`intent.dfy`): `analyzeIntent`. It reads the model's `key: value` reply into an `Analysis`. The reply is a parameter.
- **Category** (`category.dfy`): `getCategoryFromAI`. The model's answer is normalised and matched against the user's categories, or it becomes a suggestion. The `sugestão:` replacement is `Category.StripTag`.
- **Commands** (`commands.dfy`): `parseCommand` as a pure function. Its inputs are:
  - the analysis;
  - the user's categories;
  - the model's category answer;
  - the user's reply to the approval question. The literal `"timeout"` stands for no answer within 60 seconds.
- **Ledger** (`ledger.dfy`): the users and transactions collections as values, and the store operations as functions over them:
  - `getUser`, `addTransaction`, `deleteAllTransactions`;
  - `setBalance`, `setSpendingLimit`;
  - `addCategory`, the reminder toggles;
  - `getLastTransactions`, `getTotalExpensesThisMonth`.
- **Reports** (`report.dfy`): the `getMonthlyReport` aggregation, as a left fold over the month's transactions.
- **Conversation** (`conversation.dfy`): the `message` handler as a state machine over a `BotState`. The state holds:
  - the ledger;
  - the two waiting maps (`waitingForClarification`, `waitingForConfirmation`);
  - the outstanding delete-confirmation timeouts;
  - the messages sent and the conversation log.

  Each `Event` is either a message or a timer firing.
- **Storage** (`store.dfy`) and **Handler** (`bot.dfy`): the same operations in imperative form.
  - `Storage.Store` holds the collections as fields updated in place.
  - `Handler.Bot` holds the waiting maps, the timers, the outbox and the log, plus a `Store`.
  - Every method's contract ties its new state to a value-level function. Most are tied to the function of the same name. The exceptions are:
    - `Storage.Store.GetUser` and `GetCategories` to `Ledger.EnsureUser`;
    - `GetBalance` to `Ledger.Balance`, and `TotalExpensesThisMonth` to `Ledger.ExpenseSum` of the month's transactions;
    - `Storage.Tabulate` to `Reports.ReportOf`;
    - `Handler.Bot.ChooseCategoryFor` to `CategoryStep`, `HandleClarification` to `Clarification` and `HandleConfirmation` to `Confirmation`;
    - `ParseMessage` to `Parse`, `Answer` to `FreshState` and `HandleCommand` to `Fresh`;
    - `Query` and `UpdateRecord` to `Execute`, and `Respond` to `Deliver`;
    - `OnMessage` and `OnTimer` to `Step`.
  - The `forEach` loop of `getMonthlyReport` is the `while` loop of `Storage.Tabulate`.

Replies are modelled as a `Reply` value: which message template, with which data. The rendered text is not modelled. The model's answers, the approval reply, the clock and the current month window reach the handler as one `Env` value per message.

Where the code and its design description disagree, the model follows the code:

- **Clarification has no timeout.** The design says the `receita ou despesa` clarification is cancelled after 60 seconds. The code arms no timer for it, so the question stays pending until answered.
- **Only the timeout is notified.** The delete-confirmation timeout sends its notice. The lost clarification sends none, because it never times out.
- **Errors reach the parser as text.** The design calls for an apology reply when the language model fails. The code returns a fixed error text. The intent parser reads it as having no intent line, so the user gets the "not understood" reply. The model shows this by passing the error text in as the intent reply.
- **A declined suggestion ends as "not understood".** The design treats a declined suggestion as an abandoned add. In the code, `parseCommand` returns `null` after a declined suggestion, and the message is then answered as a greeting or as not understood. The model does the same.

## Model

| member | source | states |
|---|---|---|
| Numbers.ParseFloat | index.js:167 | `parseFloat` gives NaN (none) for blank text and for text whose first non-blank character is not a digit, a sign or a point; a leading `-` negates the unsigned reading and fails exactly when it fails |
| Numbers.ParseFixed2 | index.js:167 | `parseFloat` reads back exactly the number that `toFixed(2)` writes, for any non-negative amount in cents |
| Numbers.ParseStopsAtComma | index.js:167 | `parseFloat` stops at a decimal comma: "20,50" reads as 20 |
| Text.TrimSpec | index.js:165 | `trim` keeps one contiguous middle part, removes only white space around it, and leaves no white space at either end |
| Text.TrimUnique | index.js:78 | the white space around a trimmed string is exactly what `trim` removes |
| Text.JoinSplit | index.js:159 | joining the pieces of `split('\n')` with the separator gives back the reply |
| Text.SplitJoin | index.js:159 | splitting a join of separator-free lines gives back those lines |
| Text.SecondPiece | index.js:165 | for a line that starts with a key ending in `:`, `split(':')[1]` is the text between the first and second colon |
| Intent.FindLine | index.js:160-163 | `lines.find(startsWith(key))`: the index of the first line with the key and no earlier one, or none when no line has it |
| Intent.Analyze | index.js:164-171 | with no intent line, the analysis is `incerto` with no slots |
| Intent.AnalyzeFirstIntentLine | index.js:160-167 | the intent is the trimmed text between the first two colons of the first intent line, and the value is read from the value line |
| Intent.TextFieldOfFirstLine | index.js:161-168 | each slot comes from the first line with its key, between its first two colons, trimmed |
| Intent.AnalyzeRender | index.js:152-169 | a reply in the requested four-line format with plain slots reads back as exactly those slots (intent, description, value, name) |
| Category.MatchCategory | index.js:78-79 | the answer is a known category exactly when some category equals the normalised answer ignoring case; either way it carries the normalised answer |
| Category.Normalize | index.js:78 | the normalised answer (trimmed, lower-cased, any `sugestão:` marker removed) is lower case |
| Category.SuggestionIsNew | index.js:79 | a suggested category is never one the user already has |
| Category.KnownAnswer | index.js:78-79 | a known category written in any case, with white space around it, selects that category in lower case |
| Category.SuggestionAnswer | index.js:78-79 | "Sugestão: name" (the marker in any case) for an unknown name is read as the lower-cased name, suggested |
| Category.EmptyAnswerIsEmptySuggestion | index.js:78-79 | an empty answer becomes the suggestion of the empty name |
| Commands.Classify | index.js:177-244 | the analysis gives no command exactly when an add lacks a truthy description or value, set_balance or set_limit lacks a truthy value, or add_category lacks a name. A category is needed only for an unambiguous add with both slots, typed by its intent. Every other command comes from its own phrase, and `clarify` only from an add |
| Commands.ParseCommand | index.js:174-248 | `parseCommand` gives null only for an add, set_balance, set_limit or add_category intent. An add command carries the analysis's description and value, is not ambiguous, and has the category the category step chooses |
| Commands.ClassifyAdd | index.js:178-182 | an add gives no command exactly when the description or the value is falsy (absent, empty, NaN or 0); it gives `clarify` exactly when the description is ambiguous; otherwise it needs a category |
| Commands.ChooseCategory | index.js:185-195 | a known category is taken as is; a suggestion is taken exactly when the reply is "sim" in any case |
| Commands.TimeoutDeclines | index.js:259-262 | a question left unanswered ("timeout") counts as declined |
| Commands.AddNeedsSlots | index.js:179-199 | an add with a falsy description or value gives no command, whatever the category answers |
| Commands.AmbiguousAsksClarification | index.js:180-182 | an ambiguous add description gives `clarify` with its description and value before any category step (the income flow repeats this check at lines 200-202) |
| Commands.TransferIsAmbiguous | index.js:176-180 | "transferência", in any case and anywhere in the description, makes it ambiguous |
| Commands.AddUsesChosenCategory | index.js:183-216 | an unambiguous add is completed with the chosen category, as an expense or an income by its intent, and gives no command when the suggestion is declined |
| Commands.AddCategoryIsKnownOrApproved | index.js:183-216 | the category of an add command is a lower-cased category of the user's, or a new suggestion the user approved |
| Commands.OtherIntentIsUnknown | index.js:245-247 | any intent that is not one of the thirteen phrases (including `incerto`) gives `unknown` |
| Commands.CommandFromItsPhrase | index.js:177-244 | every command other than `unknown` comes only from its own intent phrase; `clarify` comes only from the two add phrases |
| Commands.ParseAnalysisFor | index.js:217-244 | reporting a command's phrase with a truthy slot gives that command back |
| Commands.ZeroAmountIgnored | index.js:218-224 | set_balance and set_limit with a value of 0 or no value give no command |
| Commands.ChooseCategoryAsWritten | index.js:185 | the category step as written: a known category passes unchanged |
| Commands.EmptySuggestionSkipsApproval | index.js:185 | as written, the empty suggestion is used without asking the user; the corrected step asks, and keeps it only on approval |
| Commands.ChooseCategoryAgrees | index.js:185-195 | away from the empty suggestion, the corrected step and the step as written choose the same category |
| Ledger.EnsureUser | index.js:42-50 | `getUser` adds the new record (balance 0, no limit, no categories, reminders off) only for an unknown user, and changes nothing else |
| Ledger.EnsureUserKeepsConsistent | index.js:42-50 | `getUser` keeps every user's balance equal to the signed sum of their transactions, the new user's included (0 and none) |
| Ledger.AddTransaction | index.js:52-59 | one transaction is appended with a fresh id, which is returned; the user's balance moves by +amount for an income and -amount for an expense; no other user changes |
| Ledger.AddTransactionEffect | index.js:52-58 | the user's log grows by exactly the new transaction; every other user's log is unchanged |
| Ledger.AddTransactionKeepsConsistent | index.js:54-57 | adding a transaction keeps each balance equal to the signed sum of that user's log |
| Ledger.AddTransactionKeepsWellFormed | index.js:52-59 | adding a transaction keeps every transaction owned by a known user, with increasing ids |
| Ledger.DeleteAllTransactions | index.js:70-73 | `deleteAllTransactions` sets the user's balance to 0 and leaves other users' records unchanged |
| Ledger.DeleteAllEffect | index.js:70-73 | after the delete, the user has no transactions, everyone else keeps theirs, and consistency of every user is kept |
| Ledger.TxsOfNotOf | index.js:71 | `deleteMany({ userId })` removes exactly that user's transactions |
| Ledger.DeleteAllKeepsWellFormed | index.js:70-73 | deleting keeps the collections well formed (ids still increase) |
| Ledger.SetBalance | index.js:103-105 | `setBalance` overrides the balance and nothing else |
| Ledger.SetBalanceDrifts | index.js:103-105 | a balance override breaks the balance/log agreement: a user with no transactions is left with balance 50 |
| Ledger.SetSpendingLimit | index.js:107-109 | `setSpendingLimit` sets the limit and nothing else |
| Ledger.SetReminderMode | index.js:428-433 | the reminder toggles set the mode and nothing else |
| Ledger.AddToSet | index.js:83 | `$addToSet`: the category is present afterwards, and nothing but it is added |
| Ledger.AddToSetIsSetLike | index.js:83 | `$addToSet` is idempotent, keeps the array free of duplicates, and leaves it unchanged for a present name |
| Ledger.AddCategory | index.js:82-84 | `addCategory` changes only the user's categories |
| Ledger.AddCategoryIdempotent | index.js:82-84 | adding a category twice has the effect of adding it once |
| Ledger.Balance | index.js:61-64 | for a consistent user, `getBalance` is the signed sum of their transactions |
| Ledger.MonthExpenses | index.js:86-93 | with no expense in the month, the month's expense total is 0 |
| Ledger.LastTransactions | index.js:66-68 | `getLastTransactions` returns min(limit, count) of the user's transactions, newest first |
| Ledger.LastDayLeftOut | index.js:95-101 | as written, an expense at noon on the last day of the month is outside the reported window |
| Ledger.MonthTxsExact | index.js:86-93 | the corrected month filter keeps exactly the user's transactions dated inside the calendar month |
| Reports.ReportOf | index.js:115-125 | the totals of the fold are the sum of the expenses and the sum of all other amounts |
| Reports.MonthlyReport | index.js:111-125 | the report's totals are the month's expense total (the one the limit line uses) and the sum of the month's incomes |
| Reports.ReportNet | index.js:129 | the report's balance line is the signed sum of the month's transactions |
| Reports.ReportByCategory | index.js:116-124 | a category appears exactly when some transaction of the month is filed under it; its columns are the sums of that category's expenses and incomes |
| Reports.ReportOrder | index.js:116-133 | the categories are listed once each, exactly those of the map |
| Reports.TallyAddsUp | index.js:116-124 | one loop iteration keeps the per-category lines adding up to the two totals |
| Reports.CategoriesAddUp | index.js:116-133 | the per-category expense and income columns add up to the report's totals |
| Conversation.LimitNoteOf | index.js:372-376 | "over the limit" exactly when a truthy limit is exceeded; otherwise, under a truthy limit, the amount left, which added to the total gives the limit (the clarification flow repeats this at lines 330-334) |
| Conversation.ReminderOf | index.js:377-383 | the reminder line appears exactly in reminder mode, with the balance and, when the balance is negative, its absolute value (the clarification flow repeats this at lines 335-341) |
| Conversation.CategoryStep | index.js:183-195 | the category step creates the user if new and keeps every known user and the transactions. A known answer, or no choice (declined or timed out), leaves the user's categories unchanged. An approved suggestion is added to them. The user is asked exactly when the answer is a suggestion |
| Conversation.CategoryStepChooses | index.js:183-195 | the category step chooses the category exactly as `parseCommand` does |
| Conversation.PostExpense | index.js:369-383 | an expense is recorded as `addTransaction` does. The reply carries the amount, the category, the description and the new id, the limit line for the month's expenses after it, and the reminder line for the balance after it |
| Conversation.PostIncome | index.js:384-387 | an income is recorded as `addTransaction` does, and the reply carries the new id |
| Conversation.Clarification | index.js:305-349 | an answer to the clarification question is never logged, sends at least one message after those already sent, and keeps every known user |
| Conversation.Settle | index.js:308-344 | settling a clarification clears only that user's wait, keeps the confirmations and timers, logs nothing, keeps every known user, and sends at least one message |
| Conversation.Confirmation | index.js:351-360 | an answer to the delete confirmation is never logged, sends exactly one message, and neither creates nor removes users |
| Conversation.ListReply | index.js:401-407 | the corrected list reply gives the "no transactions" notice exactly when there are none; otherwise it lists them |
| Conversation.Execute | index.js:365-438 | running a command sends nothing, logs nothing and creates or removes no user |
| Conversation.QueryKeepsState | index.js:394-407 | report, help, show_balance, list_transactions and list_categories leave the whole state unchanged |
| Conversation.FreshState | index.js:362-443 | handling a new message before its reply is sent sends and logs nothing and keeps every known user |
| Conversation.Fresh | index.js:362-446 | a new message is answered with at least one message, all to its sender, and is logged once with the last reply |
| Conversation.FreshRunsCommand | index.js:362-438 | a message that parses to a known command runs exactly that command, for the user's record after the category step |
| Conversation.Parse | index.js:362 | parsing keeps every transaction and every known user |
| Conversation.ParseIsParseCommand | index.js:362 | the handler runs the command `parseCommand` gives for the user's categories |
| Conversation.InitialInv | index.js:12-14 | the initial state satisfies the handler invariant |
| Conversation.ClarificationKeepsInv | index.js:305-349 | answering a clarification keeps the invariant |
| Conversation.ConfirmationKeepsInv | index.js:351-360 | answering a confirmation keeps the invariant |
| Conversation.ExecuteKeepsInv | index.js:365-438 | every command keeps the invariant |
| Conversation.FreshKeepsInv | index.js:362-446 | handling a new message keeps the invariant |
| Conversation.Fire | index.js:411-416 | a timeout removes only its own timer, changes neither the ledger nor the log nor the clarifications, and sends nothing or the one timeout notice to the timer's user |
| Conversation.FireKeepsInv | index.js:411-416 | the corrected timeout keeps the invariant |
| Conversation.StepKeepsInv | index.js:301-447 | every event keeps the invariant: the ledger stays well formed; a user waits for at most one answer; a pending confirmation's timer is outstanding and belongs to that user |
| Conversation.Step | index.js:301-447 | empty messages and the bot's own change nothing; a timer changes neither the ledger nor the log; messages already sent stay sent; every known user stays known; the log is unchanged or grows by the incoming message with the last reply sent |
| Conversation.StepKeepsConsistent | index.js:301-447 | every event other than a set_balance for the user keeps that user's balance equal to the signed sum of their transactions |
| Conversation.RunKeepsConsistent | index.js:301-447 | along any sequence of events with no set_balance for the user, the invariant and that user's balance/log agreement are kept |
| Conversation.ConsistentFromStart | index.js:12-14 | from the initial state, a user who never sets the balance always has a balance equal to the signed sum of their transactions |
| Conversation.IgnoredMessage | index.js:302 | empty messages and the bot's own messages change nothing |
| Conversation.PendingAnswerNotLogged | index.js:305-360 | a reply to a pending question is not logged, and is handled as the clarification answer when one is pending, otherwise as the confirmation answer |
| Conversation.FreshMessageLogged | index.js:445-446 | any other message gets exactly one reply after the suggestion prompt (if any), and is logged with that reply |
| Conversation.NoCommandReply | index.js:439-443 | with no command, the reply is the greeting for a greeting and "not understood" otherwise |
| Conversation.DeleteRequestArmsTimer | index.js:408-416 | a delete request deletes nothing: it marks the user as waiting and arms a new timer for them |
| Conversation.ConfirmationOutcome | index.js:351-360 | a confirmation answer always clears the wait. "sim" deletes exactly the user's transactions; anything else leaves the ledger as it was |
| Conversation.ClarificationRepeats | index.js:345-347 | an answer other than "receita" or "despesa" repeats the question and keeps it pending |
| Conversation.ClarificationRecords | index.js:308-344 | "receita" or "despesa" settles the question: with a category, exactly one transaction of that type, with the pending value and description, is recorded; without one, none |
| Conversation.TimeoutOnlyOwn | index.js:411-416 | the corrected timeout cancels a confirmation exactly when it is that confirmation's own timer, and sends the notice once |
| Conversation.TimerFiresOnce | index.js:411-416 | a timer that has fired is gone, so firing it again changes nothing |
| Conversation.RequestDeclined | index.js:408-416 | a delete request answered with "não" leaves its timer outstanding |
| Conversation.StaleTimerCancelsNewerRequest | index.js:409-416 | as written, the leftover timer, when it fires, cancels a newer delete request and sends the timeout notice, before that request's own 60 seconds are up; the corrected timeout leaves it pending |
| Conversation.NoTransactionsNoticeUnreachable | index.js:403-407 | as written, the list text always starts with the header, so the "no transactions" notice is never sent |
| Storage.Tabulate | index.js:114-125 | the `forEach` loop leaves exactly the fold of the month's transactions: categories in first-seen order, per-category totals, two totals |
| Storage.Store.MonthlyReport | index.js:111-125 | the report is the month's fold, its totals are the expense and income sums, and its lines add up |
| Storage.Store.GetUser | index.js:42-50 | the store after `getUser` is `EnsureUser` of the store before, and the returned record is the stored one |
| Storage.Store.GetCategories | index.js:266-269 | the user's categories, after creating the user if new |
| Storage.Store.AddTransaction | index.js:52-59 | the new store and the id are those of `AddTransaction` |
| Storage.Store.GetBalance | index.js:61-64 | the stored balance |
| Storage.Store.DeleteAllTransactions | index.js:70-73 | the new store is that of `DeleteAllTransactions` |
| Storage.Store.SetBalance | index.js:103-105 | the new store is that of `SetBalance` |
| Storage.Store.SetSpendingLimit | index.js:107-109 | the new store is that of `SetSpendingLimit` |
| Storage.Store.SetReminderMode | index.js:428-433 | the new store is that of `SetReminderMode` |
| Storage.Store.AddCategory | index.js:82-84 | the new store is that of `AddCategory` |
| Storage.Store.LastTransactions | index.js:66-68 | the user's newest transactions, as `Ledger.LastTransactions`. The method is a plain wrapper around that function, because the code is a single database query with no loop of its own |
| Storage.Store.TotalExpensesThisMonth | index.js:86-93 | the sum of the user's expenses in the month window |
| Handler.Bot.ChooseCategoryFor | index.js:183-195 | the prompt, the choice and the new store are those of `CategoryStep` |
| Handler.Bot.PostExpense | index.js:369-383 | the new store and the reply are those of `PostExpense` |
| Handler.Bot.PostIncome | index.js:384-387 | the new store and the reply are those of `PostIncome` |
| Handler.Bot.HandleClarification | index.js:305-349 | the new state is that of `Clarification` |
| Handler.Bot.Settle | index.js:308-344 | the new state is that of `Settle` |
| Handler.Bot.HandleConfirmation | index.js:351-360 | the new state is that of `Confirmation` |
| Handler.Bot.Execute | index.js:365-438 | the new state and the reply are those of `Execute` |
| Handler.Bot.Query | index.js:394-402 | the reading commands leave the state as it was and reply as `Execute` does |
| Handler.Bot.UpdateRecord | index.js:388-433 | the record-changing commands reach the state and reply of `Execute` |
| Handler.Bot.ParseMessage | index.js:362 | the prompts, the command and the new store are those of `Parse` |
| Handler.Bot.Answer | index.js:362-443 | the state and reply before sending are those of `FreshState` |
| Handler.Bot.HandleCommand | index.js:362-446 | the new state is that of `Fresh` |
| Handler.Bot.Respond | index.js:445-446 | the prompts and the reply are appended to the outbox for the sender, and the message is logged with the reply; nothing else changes |
| Handler.Bot.OnMessage | index.js:301-447 | the new state is that of `Step` on the message |
| Handler.Bot.OnTimer | index.js:411-416 | the new state is that of `Step` on the timer (the corrected timeout) |

## Left out

- WhatsApp transport, the Gemini calls and the MongoDB connection are not modelled. The model's replies, the approval reply, the clock and the month window are parameters of each message (`Env`). `generateAiResponse`'s error text is one such reply. `Env.intentReply` and `Env.categoryReply` stand for what `generateAiResponse` returns, which is trimmed (index.js:35). `Intent.Analyze` and `Category.MatchCategory` also accept untrimmed replies, which the code never produces.
- The monthly cron broadcast of the report is not modelled.
- Concurrency is not modelled:
  - Events are handled one at a time.
  - In the code, the user's reply to a suggestion question also reaches the main handler as a new message. Here, that reply is only the approval input.
  - A second delete confirmation or clarification racing the first is not modelled.
- Reply text is not modelled: `toFixed` formatting in the replies, dates (`toLocaleString`), the help text and the report text (layout only; its numbers are modelled).
- saveLog is modelled as a `LogEntry`, not a database write.
- `fixedExpenseId` is always null in the code and is left out.
- Ids come from a counter.
- Number handling is partial:
  - Amounts are reals, so floating-point rounding is not modelled.
  - `parseFloat` covers sign, digits and a decimal point, but not exponents, `Infinity` or hex.
  - `toFixed(2)` is modelled only for non-negative amounts given in cents.
- `toLowerCase` covers ASCII and the Latin-1 letters only.
- Text.TrimSpec: the white-space set is the one JavaScript uses. Unicode normalisation is not modelled.
- Ledger.LastTransactions: the code sorts by date. The model takes insertion order as date order, which holds when the clock does not go backwards.
- Ledger.Balance and Storage.Store.GetBalance: these require a known user. In the code, `getBalance` on an unknown user throws, and every caller first creates the user.
- Negative amounts are accepted, as in the code.
- `add_category` compares names case-sensitively, as in the code.
- Conversation.Clarification: its contract states only that the log is kept, that messages are sent and that users are kept. Its full behaviour is stated by ClarificationRepeats and ClarificationRecords.
- Conversation.Execute: its contract states only what every command shares. Per-command effects are stated by the Ledger lemmas used by `Execute`, and by DeleteRequestArmsTimer.
- Conversation.ListReply: a transaction line renders only its category and description.
- Conversation.Step, Conversation.Fresh and Handler.Bot: the handler is modelled with the four corrections of "## Findings", not as written. Specifically:
  - the category step uses `Commands.ChooseCategory`;
  - the month's transactions come from the whole-month `Ledger.MonthTxs`;
  - the timeout is `Conversation.Fire`;
  - the transaction list is `Conversation.ListReply`.
  The as-written versions (`Commands.ChooseCategoryAsWritten`, `Ledger.MonthTxsAsWritten`, `Conversation.FireAsWritten`, `Conversation.ListTextAsWritten`) appear only in the lemmas of "## Findings".
- Reports.ReportOf: `order` lists categories in first-seen order. `Object.entries` at index.js:130 lists integer-like keys first, in ascending order, and the model does not reproduce that.
- Reports.ReportOf: the report object at index.js:117 is a plain `{}`. A category named like an inherited property (`constructor`, `__proto__`) would find that property and not start at zero. The model treats every name as a fresh key.
- Reports.MonthlyReport: the `find()` at index.js:113 has no sort. The model takes insertion order as the order the transactions are folded in.

## Findings

| source | as written | input that shows it | evidently intended | confidence | as-written member | corrected member |
|---|---|---|---|---|---|---|
| index.js:183-195 | `typeof category === 'object' && category.suggested` is false for the empty suggestion. The `{ suggested: "" }` object then becomes the transaction's category, and the user is never asked. | The model answers with nothing (or only "Sugestão:"). With no empty category, this gives `{ suggested: "" }`. | Every suggestion is put to the user, and only an approved name is used. | not executed | Commands.EmptySuggestionSkipsApproval | Commands.ChooseCategory |
| index.js:95-101 | The month window ends at `new Date(y, m + 1, 0)`, which is midnight at the start of the last day. `$lte: end` therefore leaves out the rest of that day. | A 20.00 expense at 12:00 on the last day of the month is missing from the month's expense total and from the report. | The whole calendar month is included, up to the first day of the next month. | not executed | Ledger.LastDayLeftOut | Ledger.MonthTxsExact |
| index.js:411-416 | The timeout tests only whether the user is still waiting. A timer left over from an earlier request answered "não" cancels a newer request early. | "apagar tudo", "não", then "apagar tudo" again. When the first timer fires, it cancels the second request before that request's own 60 seconds are up. | A timeout cancels only the confirmation it was armed for. | not executed | Conversation.StaleTimerCancelsNewerRequest | Conversation.TimeoutOnlyOwn |
| index.js:403-407 | In `text \|\| "Nenhuma transação por aqui."`, `text` always starts with the header, so it is never empty and the fallback is never used. | list_transactions for a user with no transactions replies with the bare header. | When there are no transactions, the reply is the "no transactions" notice. | not executed | Conversation.NoTransactionsNoticeUnreachable | Conversation.ListReply |
