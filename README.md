# Budget conversation and budget status, in Dafny

A model of the `/budget` feature of a personal-finance chat bot
(`handlers/budget_handler.py`): the two-state conversation through which a
chat sets its monthly budget or views it, and the arithmetic that turns a
budget and the month's transactions into spent, remaining, percentage spent
and a text progress bar.

- `budget_engine.dfy`, module `BudgetEngine`: the pure budget-status
  computation of `view_budget`. Amounts are whole cents (`int`) instead of
  floats, so every identity is exact; the percentage is a `real`. `int(x)` is
  modelled as truncation toward zero (`Trunc`) and string repetition with a
  zero or negative count as the empty string (`Repeat`).
- `budget_conversation.dfy`, module `BudgetConversation`: the conversation as
  a class `Conversation` whose fields are the framework's current state for
  the chat (`CHOOSE_ACTION`, `GET_BUDGET_AMOUNT` or the terminal state), the
  session dictionary `user_data` and the budget store keyed by (chat, period).
  Each handler is a method that updates those fields and returns the next
  state and a tag for the message it sends. The current month and the
  month's transactions are parameters; the currency validator and the text
  to amount conversion are functions given to the constructor. The class
  invariant `Valid()` says that whenever the conversation waits for an
  amount, the session holds `budget_period`; both ways into that state
  establish it and no handler of this conversation removes it before the
  amount is accepted. It holds under the assumption that this conversation
  is the only writer of the dictionary (see "## Left out"); only then can the
  lookup in `receive_budget_amount` not fail.

The progress bar is modelled as written: the filled count is not clamped,
so, in exact arithmetic, spending 110% or more of the budget draws a bar
wider than ten cells
(`BarIsTenCellsIff`, `OverspentBarOverflows`). A clamped bar would be a
different design, and it is not part of this model.

## Model

| member | source | states |
|---|---|---|
| `BudgetEngine.SumExpenses` | handlers/budget_handler.py:96 | spent equals the total of the transactions whose type is exactly "expense" (an independent filter-then-sum definition) |
| `BudgetEngine.SumExpensesAppend` | handlers/budget_handler.py:96 | spent over a concatenation is the sum of the spent of each part |
| `BudgetEngine.NonExpenseIgnored` | handlers/budget_handler.py:96 | adding an income (any non-expense) transaction before or after the others leaves spent unchanged |
| `BudgetEngine.SumExpensesBounds` | handlers/budget_handler.py:96 | with non-negative amounts, 0 <= spent <= total of all transactions |
| `BudgetEngine.Remaining` | handlers/budget_handler.py:98 | remaining + spent == budget, and remaining is negative exactly when spent exceeds the budget |
| `BudgetEngine.PercentSpent` | handlers/budget_handler.py:99 | for a positive budget, percent * budget == spent * 100, non-negative iff spent is, at most 100 iff spent <= budget; otherwise 0 (no division) |
| `BudgetEngine.Trunc` | handlers/budget_handler.py:103 | `int()` truncates toward zero: for x >= 0, n <= x < n + 1; for x < 0, n - 1 < x <= n |
| `BudgetEngine.FilledCells` | handlers/budget_handler.py:103 | filled cells are (spent * 10) / budget for a positive budget and non-negative spent, and 0 when the budget is not positive |
| `BudgetEngine.FilledIsIntegerDivision` | handlers/budget_handler.py:99-103 | truncating percent / 10 equals integer division of 10 * spent by the budget |
| `BudgetEngine.Repeat` | handlers/budget_handler.py:104-105 | repetition gives max(n, 0) copies of the character, empty for n <= 0 |
| `BudgetEngine.ProgressBar` | handlers/budget_handler.py:102-105 | for 0..10 filled: ten cells, the first `filled` full and the rest empty; above 10: `filled` full cells; below 0: 10 - filled empty cells |
| `BudgetEngine.BarIsTenCellsIff` | handlers/budget_handler.py:99-105 | for a positive budget and non-negative spent, the bar is ten cells wide iff less than 110% of the budget is spent |
| `BudgetEngine.ComputeStatus` | handlers/budget_handler.py:95-105 | spent is the expense total, remaining = budget - spent, percent * budget == spent * 100, filled == (spent*10)/budget, the bar is `ProgressBar(filled)` (filled full cells then 10 - filled empty ones, unclamped), ten cells when 0 <= spent <= budget, and for a budget <= 0 percent 0 and ten empty cells |
| `BudgetEngine.StatusBarIsTenCellsIff` | handlers/budget_handler.py:95-105 | with non-negative amounts and a positive budget, the reported bar is never narrower than ten cells, and is exactly ten iff less than 110% is spent |
| `BudgetEngine.HalfSpentExample` | handlers/budget_handler.py:95-105 | budget 100.00 with expenses 30.00 and 20.00 and an income: spent 50.00, remaining 50.00, 50%, bar "▓▓▓▓▓░░░░░" |
| `BudgetEngine.OverspentBarOverflows` | handlers/budget_handler.py:103-105 | spending 250% of the budget draws a 25-cell bar |
| `BudgetConversation.ViewBudget` | handlers/budget_handler.py:86-105 | "not set" exactly when the store has no budget for (chat, current month); otherwise the stored budget with its status over the month's transactions |
| `BudgetConversation.Conversation.Start` | handlers/budget_handler.py:11-21 | `/budget` offers the two choices and moves to CHOOSE_ACTION; session and store unchanged |
| `BudgetConversation.Conversation.HandleChoice` | handlers/budget_handler.py:23-35 | "Set Budget": session period := current month, GET_BUDGET_AMOUNT; "View Budget": shows the view and ends with the session unchanged; any other text: stays in CHOOSE_ACTION, session unchanged; the store is never written |
| `BudgetConversation.Conversation.SetBudgetStart` | handlers/budget_handler.py:37-45 | the session's `budget_period` becomes the current month (overwriting any earlier one), state GET_BUDGET_AMOUNT, store unchanged |
| `BudgetConversation.Conversation.PromptSetBudget` | handlers/budget_handler.py:47-56 | the monthly reminder's button has the same effect as "Set Budget" |
| `BudgetConversation.Conversation.ReceiveBudgetAmount` | handlers/budget_handler.py:58-79 | rejected text: stays in GET_BUDGET_AMOUNT, session and store unchanged; accepted text: store[(chat, session period)] := parsed amount with every other entry unchanged, session cleared, conversation ended |
| `BudgetConversation.Conversation.Cancel` | handlers/budget_handler.py:121-125 | from any state: session cleared, conversation ended, store unchanged |
| `BudgetConversation.SetBudgetTwice` | handlers/budget_handler.py:58-79 | setting the same month's budget twice leaves only the second amount for it, every other entry as before, and an empty session |
| `BudgetConversation.RejectThenCancel` | handlers/budget_handler.py:121-125 | reminder, rejected amount, then cancel: store untouched, session cleared, conversation ended |

## Left out

- Message text and keyboards (`reply_text`, `ReplyKeyboardMarkup`, `ReplyKeyboardRemove`, the callback answer and message edit, Markdown layout, the currency symbol from the user settings): each handler returns a `Reply` tag carrying the values the message shows instead.
- Number formatting (`:.2f`, `:.1f`) and floating-point rounding: amounts are exact integer cents and the percentage an exact real. The difference is visible on the bar where the exact percentage is a multiple of 10: the source's binary floating-point quotient can fall just below it and truncate one cell lower (budget 1.10 and spent 0.99 give 8 full cells in doubles and 9 in the model; budget 0.10 and spent 0.11 give a ten-cell bar in doubles and 11 cells in the model), so the 110% boundary of `BarIsTenCellsIff` is a statement about exact arithmetic.
- Sharing of `user_data`: the framework keeps one session dictionary per user, shared by all of that user's chats and by the bot's other conversations (transaction, summary, search). The model gives the dictionary to this one conversation and assumes nothing else writes it; otherwise another conversation's `clear()` (for instance a budget set in a second chat) can remove `budget_period` while this one waits for an amount, and the lookup at handlers/budget_handler.py:68 raises `KeyError`, which the model does not capture.
- `datetime.now().strftime("%Y-%m")`: the current month is a parameter.
- `is_valid_currency` and `float()` parsing: `utils/validators.py` is not part of this model; the validator and the text-to-cents conversion are arbitrary functions supplied to the constructor, and the conversion is only applied to text the validator accepts.
- Database internals (`set_or_update_budget`, `get_budget_for_month`, `get_summary_data`, `get_user_settings`): the budget store is a map with upsert by map update, and the month's transactions are a parameter of `HandleChoice` and `ViewBudget`.
- Routing of messages to handlers by the conversation framework: the requires `state == ChooseAction` on `HandleChoice` and `state == GetBudgetAmount` on `ReceiveBudgetAmount` stand for it; the registration of this conversation is not in `main.py` and is not part of this model.
- Per-chat serialisation and concurrency of updates: handled by the framework, not modelled.
- `main.py`: bootstrap and handler registration with no logic of its own.
