# Income/expense bot: record store and conversation engine

This project models the two parts of the income/expense chat bot that hold
its logic, and proves properties of them in Dafny.

- **The record store** (`DB_Manager` in `logic.py`). It has four SQLite tables:
  `income`, `expense`, `income_categories` and `expense_categories`. Each
  table is a map from row id to row, held in the class `Store.DBManager`.
  Each method is tied to a pure function of the `Tables` datatype
  (`AfterInsertIncome`, `AfterDelete`, `AfterUpdateIncome`, ...). The
  lemmas are stated about those functions.
- **The conversation engine** (the step handlers in `main.py`).
  - A command registers a handler for the chat's next message. Each handler
    reads one message and then does one of three things:
    - registers a handler for the message after it (itself again to
      re-prompt, or the next step);
    - ends the flow;
    - commits with exactly one store call.
  - `Conversation.Handler` is a registered handler, together with the keyword
    arguments it was registered with: the `data` list built so far, the
    captured `category_names` and the typed record id.
  - `Conversation.Step` is what that handler does with one message.
  - `Conversation.Run` feeds a handler one message after another. The
    flow lemmas are stated about `Run`.
  - `Handlers.Bot` holds the shared store handle and the registered
    handler of each chat. It has one method per command handler and one per
    step handler. Each step method grows its `data` list by appending, calls
    the store at most once and registers the next handler. Each is proved to
    carry out what `Step` says for its handler (`Bot.Performed`).

Modelling choices:

- Amounts, descriptions, categories and timestamps are opaque strings.
- The timestamp `datetime.now()` is the `now` argument.
- A storage error (`sqlite3.Error`) is the `fault` argument. An operation
  given `fault` changes nothing and returns False, or `[]` for a query.
- A new row's id follows SQLite's rule for an `INTEGER PRIMARY KEY` insert
  that gives no id: one more than the largest id in the table, or 1 when the
  table is empty (`Store.NextId`). Starting from created tables, every id
  is therefore at least 1 (`Store.IdsPositive`).
- An id typed by the user (a digit string) reaches the store as a number.
  SQLite compares a text operand with an INTEGER column that way, so `007`
  names row 7 (`Conversation.LeadingZeroSameId`).
- `str.isdigit()` is modelled as "non-empty, ASCII `0`-`9` only".

In these places the model follows the code's actual behaviour:

- `delete_record` returns the `rowcount` of its last statement, the expense
  DELETE. So it reports True only when an expense row was removed, not "when
  either table lost a row". An id held only by an income row is deleted
  while the user is told it was not found (`Store.DeleteIncomeOnly`,
  `Conversation.DeleteIncomeOnlyReportsFailure`).
- A storage failure and "no row matched" both come back as False. They are
  not distinguished.
- The cancel button is honoured only at the two category steps. At any
  other step its text is taken as ordinary input.
- Valid expense categories come from the distinct categories of existing
  expense rows, never from the seeded `expense_categories` table. With no
  expense rows anywhere, NewExpense can never commit
  (`Conversation.EmptyCatalogueNeverCommits`).

## Model

| member | source | states |
|---|---|---|
| `Store.DBManager.constructor` | logic.py:10-12 | connecting to a database file leaves the tables exactly as the file holds them |
| `Store.DBManager.CreateTables` | logic.py:14-43 | after dropping and re-creating, all four tables are empty |
| `Store.NextId` | logic.py:20-21 | the id given to an inserted row is not in use, is larger than every id in the table, is one past the largest id, and is 1 for an empty table |
| `Store.InsertAll` | logic.py:47-48 | `executemany` of an INSERT keeps every existing row unchanged, grows the table by exactly the number of tuples, and every added row is one of the tuples |
| `Store.InsertAllInOrder` | logic.py:47-48 | `executemany` into any table, empty or not, puts the `i`-th tuple under the `i`-th id after the table's next id, in list order, and adds no row under any other id |
| `Store.InsertIncomeAddsOneRow` | logic.py:45-50 | inserting one income tuple adds exactly one row under an id not used before, holding the tuple's fields; the expense and category tables are unchanged |
| `Store.InsertExpenseAddsOneRow` | logic.py:55-60 | inserting one expense tuple adds exactly one row under an id not used before, holding the tuple's fields; the income and category tables are unchanged |
| `Store.DBManager.InsertIncome` | logic.py:45-53 | returns True and inserts the tuples into `income` only; on a storage error returns False and changes nothing |
| `Store.DBManager.InsertExpense` | logic.py:55-63 | returns True and inserts the tuples into `expense` only; on a storage error returns False and changes nothing |
| `Store.DBManager.GetRecords` | logic.py:65-76 | returns each of the user's income rows tagged 'income' with its own description, and each of the user's expense rows tagged 'expense' with description `category - description`; each row once, nothing from other users, income rows before expense rows; `[]` on a storage error |
| `Store.SalaryAndLunch` | logic.py:67-70 | one salary income and one lunch expense of user 1 are listed as exactly two records, "salary" and "food - lunch", both with id 1 (one per table) |
| `Store.AfterDelete` | logic.py:80-83 | after the two DELETEs no row in either table has the id; every other row is kept unchanged; the category tables are untouched |
| `Store.DBManager.DeleteRecord` | logic.py:78-88 | deletes the id from both tables and returns True exactly when the id was in `expense` (the last statement's rowcount); on a storage error returns False and changes nothing |
| `Store.DeleteTwice` | logic.py:78-85 | deleting the same id a second time changes nothing and finds no expense row, so it returns False |
| `Store.DeleteIncomeOnly` | logic.py:82-83 | the two DELETEs remove an id present only in `income` from that table (one row fewer) and leave `expense` unchanged; the False result this yields is stated by `Store.DBManager.DeleteRecord` and `Conversation.DeleteIncomeOnlyReportsFailure` |
| `Store.DBManager.GetExpenseCategories` | logic.py:90-97 | returns a duplicate-free list whose elements are exactly the categories of the expense rows; empty exactly when `expense` is empty; the seeded catalogue is not read; `[]` on a storage error |
| `Store.AfterUpdateIncome` | logic.py:101-102 | the row with the id gets `user_id`, `amount` and `description` from `data[0..2]` and keeps its id and date; every other row and every other table is unchanged; an unknown id changes nothing |
| `Store.DBManager.UpdateIncome` | logic.py:99-107 | applies that update and returns True exactly when a row has the id; on a storage error returns False and changes nothing |
| `Store.AfterUpdateExpense` | logic.py:111-112 | the row with the id gets `user_id`, `amount`, `category` and `description` from `data[0..3]` and keeps its id and date; every other row and every other table is unchanged; an unknown id changes nothing |
| `Store.DBManager.UpdateExpense` | logic.py:109-117 | applies that update and returns True exactly when a row has the id; on a storage error returns False and changes nothing |
| `Store.DBManager.DefaultInsert` | logic.py:119-125 | appends the income seed names to `income_categories` and the expense seed names to `expense_categories`; on a storage error changes nothing |
| `Store.InsertIntoEmpty` | logic.py:121-122 | names inserted into an empty table get the ids 1, 2, ... in list order |
| `Store.SeededCatalogue` | logic.py:6-7 | `create_tables` then `default_insert` leaves `income` and `expense` empty, exactly the 4 income names and exactly the 5 expense names, numbered from 1 in seed order |
| `Conversation.GenMarkup` | main.py:24-30 | the keyboard has the given labels in order, then a single final cancel button |
| `Conversation.Step` | main.py:66-212 | a registered handler only ever registers handlers whose `data` has the shape the next step binds; only the last step of a flow commits; a flow ends without committing only on the cancel button at a category step |
| `Conversation.CancelEndsFlow` | main.py:100-102 | at either category step the cancel button ends the flow with the command hint; no store call is made and no handler is registered |
| `Conversation.OffListCategoryRetries` | main.py:103-106 | at either category step a text outside the captured list re-registers the same handler, with the same data and the same captured list, and shows the same keyboard; nothing is committed |
| `Conversation.NonDigitIdRetries` | main.py:129-132 | at the delete, update-income and update-expense id steps, a text that is not all digits re-registers the same handler and makes no store call |
| `Conversation.CategoriesCapturedOnce` | main.py:93-96 | only the amount steps read the category list; every later step, retries included, behaves the same whatever the store would now return |
| `Conversation.IncomeFlow` | main.py:66-78 | NewIncome waits for two messages, then commits exactly one `insert_income` of the tuple (user_id, amount, description, timestamp), in that order |
| `Conversation.IncomeFlowAddsOneRow` | main.py:73-78 | completing NewIncome adds exactly one income row under a fresh id, owned by the amount message's sender and stamped with the commit time, and reports success |
| `Conversation.ExpenseCategoryRun` | main.py:98-116 | from the category step, every text that is neither the cancel button nor a captured category is retried; the first listed category is accepted; the message after it completes one `insert_expense` of the single tuple (user_id, amount, that category, its text, its time), in column order |
| `Conversation.ExpenseFlow` | main.py:89-116 | a NewExpense commit is exactly one `insert_expense` of the tuple (amount message's sender, amount text, first listed category typed after it, the next message's text, that message's time), where the category is in the list captured at the amount step and every text before it was retried |
| `Conversation.EmptyCatalogueNeverCommits` | main.py:93-106 | when the captured category list is empty, NewExpense never commits |
| `Conversation.DeleteFlow` | main.py:127-133 | the delete flow retries every non-digit text; the first digit string is sent, as a number, to exactly one `delete_record` call |
| `Conversation.DeleteTwiceReportsFailure` | main.py:133-137 | a second delete of the same id reports failure and changes nothing |
| `Conversation.DeleteIncomeOnlyReportsFailure` | main.py:133-137 | deleting an id held only by an income row removes that row but reports failure |
| `Conversation.LeadingZeroSameId` | main.py:129-133 | a digit string with a leading zero is still accepted and names the same record id |
| `Conversation.UpdateIncomeFlow` | main.py:144-163 | after the id retries, the commit is one `update_income` of the accepted id; `data` is the amount message's sender, its amount and the description, in UPDATE parameter order |
| `Conversation.UpdateExpenseCategoryRun` | main.py:192-208 | from the update-expense category step, every text that is neither the cancel button nor a captured category is retried; the first listed category is accepted; the next message completes one `update_expense` of the carried id with (user_id, amount, that category, its text), in UPDATE parameter order |
| `Conversation.UpdateExpenseFlow` | main.py:174-208 | after the id retries, the commit is one `update_expense` of the accepted id with (amount message's sender, its amount text, the first listed category typed after it, the next message's text), in UPDATE parameter order; the category is in the list captured at the amount step and every text before it was retried |
| `Conversation.Execute` | logic.py:45-117 | a store call as the conversation sees it: a storage error changes nothing and gives False; no call touches the category tables; a False result from an insert or update means nothing changed; a delete removes the id from both tables and gives True exactly when `expense` held it |
| `Conversation.IsDigits` | main.py:129-132 | the id check accepts only non-empty texts of ASCII digits: an empty text, a signed or spaced number, and the cancel button are all rejected |
| `Conversation.DigitsValue` | main.py:133 | the number SQLite compares with the INTEGER id column when given the typed digit string; it is 0 exactly when every digit is `0` |
| `Conversation.Decimal` | main.py:56 | the id `/records` shows for a row, when that id is not negative, is a digit string that passes the id check and denotes that same id |
| `Store.NoTablesIdsPositive` | logic.py:14-43 | freshly created tables satisfy `IdsPositive`: every id in the four tables is at least 1 |
| `Store.InsertAllKeepsIdsPositive` | logic.py:47-48 | `executemany` into a table whose ids are all at least 1 only adds ids that are at least 1 |
| `Store.DefaultInsertKeepsIdsPositive` | logic.py:119-125 | `default_insert` keeps every id of the four tables at least 1 |
| `Conversation.ExecuteKeepsIdsPositive` | logic.py:45-117 | every store call a flow commits keeps every id of the four tables at least 1 |
| `Conversation.ZeroTextNamesNoRow` | main.py:129-137 | in a store whose ids are all at least 1, a typed id made only of zeros names no income or expense row, so deleting it changes nothing and reports failure |
| `Conversation.ShownIdRoundTrip` | main.py:56 | in a store whose ids are all at least 1, the id `/records` shows for any stored row passes the id check and, typed back, denotes that same row |
| `Conversation.Run` | main.py:64 | the chat library delivers each next message of the chat to the handler registered last; a run that is still waiting holds a well-formed handler |
| `Handlers.Bot.constructor` | main.py:5-6 | the bot starts with the given store handle and no handler registered for any chat |
| `Handlers.Bot.NewIncome` | main.py:61-64 | registers the income amount step for the chat and asks the first question |
| `Handlers.Bot.NewExpense` | main.py:84-87 | registers the expense amount step for the chat and asks the first question |
| `Handlers.Bot.DeleteRecord` | main.py:122-125 | registers the delete id step for the chat and asks for the id |
| `Handlers.Bot.UpdateIncome` | main.py:139-142 | registers the update-income id step for the chat and asks for the id |
| `Handlers.Bot.UpdateExpense` | main.py:169-172 | registers the update-expense id step for the chat and asks for the id |
| `Handlers.Bot.IncomeAmount` | main.py:66-71 | registers the description step with `data = [user_id, amount]`; no store call |
| `Handlers.Bot.IncomeDescription` | main.py:73-82 | appends the description and the timestamp and makes exactly one `insert_income` call; the reply is its result |
| `Handlers.Bot.ExpenseAmount` | main.py:89-96 | reads the category list once from the store and shows it as a keyboard with cancel; registers the category step with `data = [user_id, amount]` and that list |
| `Handlers.Bot.ExpenseDescription` | main.py:98-109 | cancel ends the flow; an unlisted category re-registers the same step with the same data and list; otherwise appends the category and registers the save step; never calls the store |
| `Handlers.Bot.SaveExpense` | main.py:111-120 | appends the description and the timestamp and makes exactly one `insert_expense` call; the reply is its result |
| `Handlers.Bot.ConfirmDelete` | main.py:127-137 | a non-digit text re-registers the same step without a store call; a digit string makes exactly one `delete_record` call, and the reply is its result |
| `Handlers.Bot.UpdateIncomeAmount` | main.py:144-151 | a non-digit text re-registers the same step; otherwise registers the amount step carrying the id |
| `Handlers.Bot.UpdateIncomeDescription` | main.py:153-158 | registers the final step with `data = [user_id, amount]` and the id |
| `Handlers.Bot.PerformIncomeUpdate` | main.py:160-167 | appends the description and makes exactly one `update_income` call; the reply is its result |
| `Handlers.Bot.UpdateExpenseAmount` | main.py:174-181 | a non-digit text re-registers the same step; otherwise registers the amount step carrying the id |
| `Handlers.Bot.UpdateExpenseCategory` | main.py:183-190 | reads the category list once and shows it as a keyboard with cancel; registers the category step with `data = [user_id, amount]`, the id and that list |
| `Handlers.Bot.UpdateExpenseDescription` | main.py:192-203 | cancel ends the flow; an unlisted category re-registers the same step with the same data, id and list; otherwise appends the category and registers the final step |
| `Handlers.Bot.PerformExpenseUpdate` | main.py:205-212 | appends the description and makes exactly one `update_expense` call; the reply is its result |
| `Handlers.Bot.Receive` | main.py:64 | delivering a message to the chat's registered handler does exactly what `Step` says: it registers the next handler, or ends the flow without touching the store, or makes exactly the committed call and replies with its result; registered handlers stay well-formed |

## Left out

- Telegram transport is not modelled: `TeleBot`, `send_message`, polling and
  `gen_inline_markup`. Replies are tags (`Ask`, `TryAgain`, `ShowCommands`,
  `Outcome`) rather than the Russian texts. `ReplyKeyboardRemove` on cancel
  is folded into `ShowCommands`.
- A command arriving while a step is registered for the chat is not
  modelled. Which handler then gets the message is decided by the chat
  library, which is not part of this model. So the command methods require
  that the chat has no step registered, and `Receive` requires that it has one.
- The `/start`, `/info` and `/records` command handlers are not modelled.
  They only format text; `get_records` itself is modelled, and of the
  `/records` text only the way it shows a row id (`Conversation.Decimal`).
- SQLite's 64-bit rowid ceiling is not modelled. Once the largest id is
  9223372036854775807, SQLite picks an unused id at random, while
  `Store.NextId` returns the next integer.
- A database file opened with ids below 1 (rows inserted with an explicit id)
  is accepted by `Store.DBManager.constructor`. The zero-id and shown-id
  properties are stated only for stores satisfying `Store.IdsPositive`,
  which created tables and every modelled write preserve.
- The sqlite3 connection, cursor, commit and the `print` logging are not
  modelled.
- Storage errors are modelled as all-or-nothing. A real failure inside
  `executemany`, or between the two DELETEs, can leave earlier statements
  pending in the open transaction. The model does not capture that.
- SQLite type affinity and `REAL` amounts are not modelled: amounts are
  text. An id too large for a 64-bit integer is not modelled either; SQLite
  would compare it as a REAL.
- `Handlers.Bot.ExpenseAmount` does not fix the order of the category list,
  and neither does `Store.DBManager.GetRecords` within each half of the
  UNION ALL: nothing in the SQL fixes it.
- Non-text messages (`message.text` being None) and SQL NULL concatenation
  are not modelled. Every message has a text.
- `str.isdigit` accepts non-ASCII digits; the model accepts ASCII digits only.
- config.py and `check_same_thread` concurrency are not modelled.
