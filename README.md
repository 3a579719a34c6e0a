# Finance-tracking chat bot: conversation state and ledger

This project models the core of a Telegram finance-tracking bot in Dafny.
Users record income and expenses in two steps: `/add_expense <amount>` or
`/add_income <amount>`, then a category chosen from an inline keyboard.
They ask `/stats` for their balance, their totals and a per-category breakdown
of their expenses. They can also leave one feedback message after `/feedback`.

The model has four modules:

- `Wrappers` (`wrappers.dfy`): the `Option` type. It is used for the parsed
  amount argument and for the dictionary keys that may be missing.
- `Ledger` (`ledger.dfy`): the rows of the `transactions` and `feedback`
  tables. It also holds the statistics query as pure functions: `TotalOf` is
  `SUM(amount)` filtered by user and type, with `NULL` read as 0. `Balance`
  is income minus expense. `CategorySums` is the `GROUP BY category` map.
  `SpentCategories` lists the group keys. `Breakdown` gives the result rows.
  The lemmas state what these queries mean and how they relate.
- `Keyboard` (`keyboard.dfy`): the two fixed category lists. `Rows2` lays
  them out two buttons per row. It is defined recursively, and `Rows2At`
  proves it equal, row by row, to the slicing list comprehension of the code.
- `Bot` (`bot.dfy`): the class `FinanceBot`. Its fields are the per-user
  conversation state (`userData`, standing for `context.user_data`) and the
  two tables, kept as sequences that handlers only append to. Each handler is
  one method whose contract gives the whole new state. After the class come
  client methods. Each one runs a sequence of handlers on a fresh bot and
  states the outcome: last write wins, zero and negative amounts, at most one
  commit per pending entry, user isolation, one-shot feedback, and the
  statistics of a worked example.

Where the design description of the system and the code disagree, the model
follows the code:

- The description says an amount must parse as a positive number. The code
  accepts any `float`: negative amounts are recorded, and zero is accepted at
  entry. A zero amount then fails the truthiness test `if amount and
  trans_type` at commit, so the user gets the "try again" reply and the
  pending entry stays.
- The description treats the pending entry and the feedback flag as
  independent. The code's commit calls `user_data.clear()`, which also wipes
  a pending feedback request (`CommitClearsFeedbackMode`).
- SQL does not fix the order of `GROUP BY` result rows. The model lists the
  groups in the order of `SpentCategories`: distinct categories, by last
  appearance in the log. Every property stated about the breakdown holds
  whatever the order: each category once, each sum, the total.

## Model

| member | source | states |
|---|---|---|
| `Ledger.TotalOf` | app.py:114-117 | a user with no rows of the given type gets total 0 (the `or 0` over a `NULL` sum) |
| `Ledger.TotalOfAppend` | app.py:114-117 | the total is a sum over rows: it splits over any division of the log into two parts |
| `Ledger.ForeignRowsIgnored` | app.py:114-117 | rows of other users never change a user's income or expense total |
| `Ledger.BalanceAfterAppend` | app.py:118 | one more row changes its owner's balance by +amount for income and -amount for expense; other users' balances do not change |
| `Ledger.SpentMeans` | app.py:120-121 | the recursive "user spent on category c" test holds exactly when some row of the log is an expense of that user in c |
| `Ledger.CategoryTotal` | app.py:120-121 | the reference sum of one group is 0 for a category the user never spent on |
| `Ledger.CategorySumsSpec` | app.py:120-122 | the grouped query has a key exactly for each category among the user's expense rows, and each key holds that category's sum |
| `Ledger.SpentCategoriesSpec` | app.py:120-122 | the listed group keys are distinct and are exactly the categories the user spent on |
| `Ledger.Breakdown` | app.py:120-128 | result rows: distinct categories, one per category spent on, each with its category's sum; the result is empty exactly when the user has no expense rows, which is when the "no expenses yet" line is shown |
| `Ledger.BreakdownTotal` | app.py:116-122 | the per-category sums add up to the user's total expense |
| `Ledger.GroupStep` | app.py:120-122 | one more row raises the sum over the groups by its amount when it is the user's expense, and leaves it unchanged otherwise |
| `Keyboard.Rows2At` | app.py:62-63 | the keyboard has ceil(n/2) rows, and row j is the slice of the category list starting at index 2j, at most two long, as the comprehension builds it |
| `Keyboard.Rows2Flatten` | app.py:62-63 | reading the keyboard row by row gives back the category list in order |
| `Keyboard.Rows2Shape` | app.py:62-63 | there are ceil(n/2) rows of one or two buttons; all rows but the last are full, and the last holds one button exactly when n is odd |
| `Keyboard.StandardKeyboards` | app.py:40-41 | the five expense categories give rows of 2, 2 and 1; the four income categories give two rows of 2 |
| `Bot.FinanceBot.constructor` | app.py:12-30 | the bot starts with empty tables and no conversation state |
| `Bot.FinanceBot.BeginEntry` | app.py:57-66 | a parsed amount sets the user's pending amount and type, overwriting earlier ones and keeping the feedback flag; a missing or unparsable one changes nothing and yields the usage hint |
| `Bot.FinanceBot.AddExpense` | app.py:56-68 | `/add_expense`: pending amount and type `expense` for that user only; the expense keyboard; the usage hint and no change on a parse failure |
| `Bot.FinanceBot.AddIncome` | app.py:71-83 | `/add_income`: pending amount and type `income` for that user only; the income keyboard; the usage hint and no change on a parse failure |
| `Bot.FinanceBot.ButtonCallback` | app.py:86-106 | with a nonzero pending amount and a pending type, exactly one row (user, type, amount, category verbatim) is appended and the user's whole state is cleared; otherwise nothing changes and the reply is "try again" |
| `Bot.FinanceBot.Stats` | app.py:109-131 | both totals are the filtered sums, balance is income minus expense, the category lines are the grouped rows and add up to total expense, and the "no expenses yet" line appears exactly when the user has no expense rows; nothing changes |
| `Bot.FinanceBot.Feedback` | app.py:134-136 | `/feedback` sets the user's feedback flag and changes nothing else |
| `Bot.FinanceBot.HandleMessage` | app.py:139-155 | in feedback mode, exactly one feedback row (user, text) is appended and the flag is reset while the pending entry stays; otherwise nothing changes and the command list is sent |
| `Bot.LastEntryWins` | app.py:59-60 | two amounts entered before a category is chosen: only the second is recorded |
| `Bot.ZeroAmountNotRecorded` | app.py:91-106 | a zero amount gets the keyboard but is refused at commit, and nothing is recorded |
| `Bot.NegativeAmountRecorded` | app.py:73-75 | a negative amount is accepted and recorded unchanged |
| `Bot.UnparsedAmountNotRecorded` | app.py:57-68 | an amount that does not parse gets the usage hint, and the next button records nothing |
| `Bot.RecordedOnce` | app.py:95-106 | a pending entry is recorded at most once: a second button press gets "try again" |
| `Bot.UsersIndependent` | app.py:91-104 | interleaved entries of two users each record their own amount, type and category |
| `Bot.FeedbackOnce` | app.py:140-155 | feedback mode captures exactly one message; the next message gets the command list |
| `Bot.CommitClearsFeedbackMode` | app.py:104 | a commit clears a pending feedback request, so the next message is not stored |
| `Bot.EmptyStats` | app.py:114-128 | a user with no rows gets balance, income and expense 0, no category lines, and the "no expenses yet" line |
| `Bot.ExampleFigures` | app.py:114-122 | for income 1000 and food expenses 200 and 50: income 1000, expense 250, one line for food with 250 |
| `Bot.StatsExample` | app.py:109-128 | the same log built through the handlers gives balance 750, income 1000, expense 250 and the single food line |

## Left out

- The chat transport is not modelled: updates, `reply_text`, `edit_message_text`, `query.answer`, the `/start` help text, handler registration in `main`, the webhook and polling. Replies are returned as values. The exact reply texts are reduced to which reply is sent.
- The forwarding of each feedback message to the operator chat (`send_message` to a placeholder chat id) is not modelled: it only sends a message.
- The connection pool, `getconn`/`putconn`, commits and the `CREATE TABLE` statements are not modelled. The tables are in-memory sequences, and each insert is one append.
- The `date` columns with their `CURRENT_TIMESTAMP` default are not modelled.
- Amounts are exact reals. Python `float` parsing (formats, `nan`, `inf`), float rounding in sums and the single-precision `REAL` column are not modelled. The parse is an `Option<real>` argument. A `nan` amount, which is truthy in Python, is therefore not a case of the model.
- Exceptions from the transport or the database are not modelled. This includes the bare `except` in the entry commands catching a failed reply after the state was already set, and a failed reply in the button handler that would skip `clear()`.
- Concurrency is not modelled: each handler runs as one atomic step, and interleavings of handlers for the same user are not considered.
- `Ledger.SpentCategories`: the order of the breakdown lines is one fixed choice, because SQL leaves the order of `GROUP BY` results open.
