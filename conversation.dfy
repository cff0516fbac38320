/** The conversation engine of the bot: each command starts a fixed chain of
    step handlers; a step consumes one message and either registers a
    handler for the next message (itself again to re-prompt, or the next
    step), ends the flow, or commits with one call to the record store.

    A registered handler is a value of `Handler`: the handler function the
    bot registered plus the keyword arguments it registered it with (the
    accumulated `data` list, the captured `category_names`, the record id).
    `Step` is what calling that handler on a message does. */
module Conversation {
  import opened Store

  /** The label of the cancel button under every category keyboard. */
  const CancelButton: string := "Отмена 🚫"

  /** An element of the handlers' `data` list: the sender's user id or a message text. */
  datatype Field = UserField(userId: int) | TextField(text: string)

  /** An inbound text message: its chat, its sender and its text. */
  datatype Message = Message(chatId: int, userId: int, text: string)

  /** The handler registered for a chat's next message, with its arguments. */
  datatype Handler =
    | IncomeAmount
    | IncomeDescription(data: seq<Field>)
    | ExpenseAmount
    | ExpenseDescription(data: seq<Field>, categoryNames: seq<string>)
    | SaveExpense(data: seq<Field>)
    | ConfirmDelete
    | UpdateIncomeAmount
    | UpdateIncomeDescription(incomeId: string)
    | PerformIncomeUpdate(data: seq<Field>, incomeId: string)
    | UpdateExpenseAmount
    | UpdateExpenseCategory(expenseId: string)
    | UpdateExpenseDescription(data: seq<Field>, expenseId: string, categoryNames: seq<string>)
    | PerformExpenseUpdate(data: seq<Field>, expenseId: string)

  /** What the user is sent back: a question (with the buttons of a reply
      keyboard, none for plain text), the same question again after invalid
      input, the command hint after cancelling, or the outcome of a commit. */
  datatype Reply =
    | Ask(keyboard: seq<string>)
    | TryAgain(keyboard: seq<string>)
    | ShowCommands
    | Outcome(success: bool)

  /** The single store call a flow commits with. Ids are the digit strings
      the user typed, read as numbers the way SQLite compares text with an
      INTEGER column. */
  datatype Call =
    | InsertIncomeCall(incomeRows: seq<IncomeRow>)
    | InsertExpenseCall(expenseRows: seq<ExpenseRow>)
    | DeleteCall(recordId: int)
    | UpdateIncomeCall(incomeData: IncomeUpdate, incomeId: int)
    | UpdateExpenseCall(expenseData: ExpenseUpdate, expenseId: int)

  /** What one step does: register a handler for the next message and reply,
      end the flow with a reply, or make one store call. */
  datatype Effect =
    | Register(next: Handler, reply: Reply)
    | End(reply: Reply)
    | Commit(call: Call)

  // ---------------------------------------------------------------------------
  // Input checks and the keyboard.
  // ---------------------------------------------------------------------------

  /** `text.isdigit()`, for ASCII digits: an empty text, a sign, a space or
      the cancel button never passes. */
  predicate IsDigits(text: string): (ok: bool)
    ensures ok ==> text != [] && text != CancelButton && '-' !in text && '+' !in text && ' ' !in text
  {
    assert CancelButton[0] == 'О';
    |text| > 0 && forall i :: 0 <= i < |text| ==> '0' <= text[i] <= '9'
  }

  /** The number a string of ASCII digits denotes. It is 0 exactly when
      every digit is `0`. */
  function DigitsValue(text: string): (n: nat)
    requires forall i :: 0 <= i < |text| ==> '0' <= text[i] <= '9'
    ensures n == 0 <==> forall i :: 0 <= i < |text| ==> text[i] == '0'
    decreases |text|
  {
    if text == [] then 0
    else
      var init := text[..|text| - 1];
      assert forall i :: 0 <= i < |init| ==> init[i] == text[i];
      10 * DigitsValue(init) + (text[|text| - 1] as int - '0' as int)
  }

  /** The decimal rendering of a row id, as an f-string shows it. */
  function Decimal(n: nat): (text: string)
    ensures IsDigits(text) && DigitsValue(text) == n
    decreases n
  {
    var last := [('0' as int + n % 10) as char];
    if n < 10 then last
    else
      var text := Decimal(n / 10) + last;
      assert text[..|text| - 1] == Decimal(n / 10);
      text
  }

  /** The buttons of `gen_markup(rows)`: one per row, then the cancel button. */
  function Keyboard(rows: seq<string>): seq<string> {
    rows + [CancelButton]
  }

  /** `gen_markup`: adds a button per row, then the cancel button. */
  method GenMarkup(rows: seq<string>) returns (labels: seq<string>)
    ensures labels == Keyboard(rows)
  {
    labels := [];
    for i := 0 to |rows|
      invariant labels == rows[..i]
    {
      labels := labels + [rows[i]];
    }
    labels := labels + [CancelButton];
  }

  // ---------------------------------------------------------------------------
  // The `data` list and the store calls built from it.
  // ---------------------------------------------------------------------------

  /** `data` is `[user_id, text, ..., text]` with `n` elements. */
  predicate Shaped(data: seq<Field>, n: nat) {
    n > 0 && |data| == n && data[0].UserField? && forall i :: 1 <= i < n ==> data[i].TextField?
  }

  /** The arguments a registered handler can carry: the `data` list built by
      the steps before it, and an id that passed the digit check. */
  predicate WellFormed(h: Handler) {
    match h
    case IncomeAmount => true
    case IncomeDescription(data) => Shaped(data, 2)
    case ExpenseAmount => true
    case ExpenseDescription(data, _) => Shaped(data, 2)
    case SaveExpense(data) => Shaped(data, 3)
    case ConfirmDelete => true
    case UpdateIncomeAmount => true
    case UpdateIncomeDescription(id) => IsDigits(id)
    case PerformIncomeUpdate(data, id) => Shaped(data, 2) && IsDigits(id)
    case UpdateExpenseAmount => true
    case UpdateExpenseCategory(id) => IsDigits(id)
    case UpdateExpenseDescription(data, id, _) => Shaped(data, 2) && IsDigits(id)
    case PerformExpenseUpdate(data, id) => Shaped(data, 3) && IsDigits(id)
  }

  /** `tuple(data)` bound positionally to `(user_id, amount, description, date)`. */
  function IncomeTuple(data: seq<Field>): IncomeRow
    requires Shaped(data, 4)
  {
    IncomeRow(data[0].userId, data[1].text, data[2].text, data[3].text)
  }

  /** `tuple(data)` bound positionally to `(user_id, amount, category, description, date)`. */
  function ExpenseTuple(data: seq<Field>): ExpenseRow
    requires Shaped(data, 5)
  {
    ExpenseRow(data[0].userId, data[1].text, data[2].text, data[3].text, data[4].text)
  }

  /** `data[0]`, `data[1]`, `data[2]` bound to `user_id=?, amount=?, description=?`. */
  function IncomeParams(data: seq<Field>): IncomeUpdate
    requires Shaped(data, 3)
  {
    IncomeUpdate(data[0].userId, data[1].text, data[2].text)
  }

  /** `data[0]` .. `data[3]` bound to `user_id=?, amount=?, category=?, description=?`. */
  function ExpenseParams(data: seq<Field>): ExpenseUpdate
    requires Shaped(data, 4)
  {
    ExpenseUpdate(data[0].userId, data[1].text, data[2].text, data[3].text)
  }

  // ---------------------------------------------------------------------------
  // One step.
  // ---------------------------------------------------------------------------

  /** The handler `h` consuming message `m`. `now` is the timestamp the
      commit steps stamp; `live` is what `get_expense_categories` returns at
      this moment, read only by the two amount steps that ask for a category. */
  function Step(h: Handler, m: Message, now: string, live: seq<string>): (e: Effect)
    requires WellFormed(h)
    ensures e.Register? ==> WellFormed(e.next)
    ensures e.Commit? ==>
      h.IncomeDescription? || h.SaveExpense? || h.ConfirmDelete? || h.PerformIncomeUpdate? || h.PerformExpenseUpdate?
    ensures e.End? ==> (h.ExpenseDescription? || h.UpdateExpenseDescription?) && m.text == CancelButton
  {
    match h
    case IncomeAmount =>
      Register(IncomeDescription([UserField(m.userId), TextField(m.text)]), Ask([]))
    case IncomeDescription(data) =>
      Commit(InsertIncomeCall([IncomeTuple(data + [TextField(m.text), TextField(now)])]))
    case ExpenseAmount =>
      Register(ExpenseDescription([UserField(m.userId), TextField(m.text)], live), Ask(Keyboard(live)))
    case ExpenseDescription(data, names) =>
      if m.text == CancelButton then End(ShowCommands)
      else if m.text !in names then Register(h, TryAgain(Keyboard(names)))
      else Register(SaveExpense(data + [TextField(m.text)]), Ask([]))
    case SaveExpense(data) =>
      Commit(InsertExpenseCall([ExpenseTuple(data + [TextField(m.text), TextField(now)])]))
    case ConfirmDelete =>
      if !IsDigits(m.text) then Register(h, TryAgain([]))
      else Commit(DeleteCall(DigitsValue(m.text)))
    case UpdateIncomeAmount =>
      if !IsDigits(m.text) then Register(h, TryAgain([]))
      else Register(UpdateIncomeDescription(m.text), Ask([]))
    case UpdateIncomeDescription(id) =>
      Register(PerformIncomeUpdate([UserField(m.userId), TextField(m.text)], id), Ask([]))
    case PerformIncomeUpdate(data, id) =>
      Commit(UpdateIncomeCall(IncomeParams(data + [TextField(m.text)]), DigitsValue(id)))
    case UpdateExpenseAmount =>
      if !IsDigits(m.text) then Register(h, TryAgain([]))
      else Register(UpdateExpenseCategory(m.text), Ask([]))
    case UpdateExpenseCategory(id) =>
      Register(UpdateExpenseDescription([UserField(m.userId), TextField(m.text)], id, live), Ask(Keyboard(live)))
    case UpdateExpenseDescription(data, id, names) =>
      if m.text == CancelButton then End(ShowCommands)
      else if m.text !in names then Register(h, TryAgain(Keyboard(names)))
      else Register(PerformExpenseUpdate(data + [TextField(m.text)], id), Ask([]))
    case PerformExpenseUpdate(data, id) =>
      Commit(UpdateExpenseCall(ExpenseParams(data + [TextField(m.text)]), DigitsValue(id)))
  }

  /** What a commit does to the tables and what it returns; a storage error
      (`fault`) changes nothing and returns False. */
  function Execute(t: Tables, call: Call, fault: bool): (r: (Tables, bool))
    ensures fault ==> r == (t, false)
    ensures r.0.incomeCategories == t.incomeCategories && r.0.expenseCategories == t.expenseCategories
    ensures !r.1 && !call.DeleteCall? ==> r.0 == t
    ensures call.DeleteCall? && !fault ==>
      call.recordId !in r.0.income && call.recordId !in r.0.expense && (r.1 <==> call.recordId in t.expense)
  {
    if fault then (t, false)
    else match call
      case InsertIncomeCall(rows) => (AfterInsertIncome(t, rows), true)
      case InsertExpenseCall(rows) => (AfterInsertExpense(t, rows), true)
      case DeleteCall(id) => (AfterDelete(t, id), id in t.expense)
      case UpdateIncomeCall(data, id) => (AfterUpdateIncome(t, data, id), id in t.income)
      case UpdateExpenseCall(data, id) => (AfterUpdateExpense(t, data, id), id in t.expense)
  }

  /** Every commit keeps the ids of a store positive. */
  lemma ExecuteKeepsIdsPositive(t: Tables, call: Call, fault: bool)
    requires IdsPositive(t)
    ensures IdsPositive(Execute(t, call, fault).0)
  {
    if !fault {
      match call
      case InsertIncomeCall(rows) => InsertAllKeepsIdsPositive(t.income, rows);
      case InsertExpenseCall(rows) => InsertAllKeepsIdsPositive(t.expense, rows);
      case DeleteCall(_) =>
      case UpdateIncomeCall(_, _) =>
      case UpdateExpenseCall(_, _) =>
    }
  }

  /** In a store of positive ids a typed id of zeros ("0", "00", ...) names
      no row, so deleting or updating it finds nothing. */
  lemma ZeroTextNamesNoRow(t: Tables, text: string)
    requires IdsPositive(t) && IsDigits(text)
    requires forall i :: 0 <= i < |text| ==> text[i] == '0'
    ensures DigitsValue(text) !in t.income && DigitsValue(text) !in t.expense
    ensures Execute(t, DeleteCall(DigitsValue(text)), false) == (t, false)
  {
    var id := DigitsValue(text);
    assert t.income - {id} == t.income && t.expense - {id} == t.expense;
  }

  /** In a store of positive ids, the id `/records` shows for a row is a
      digit string that passes the id check and denotes that same row. */
  lemma ShownIdRoundTrip(t: Tables, id: int)
    requires IdsPositive(t) && (id in t.income || id in t.expense)
    ensures id >= 1 && IsDigits(Decimal(id)) && DigitsValue(Decimal(id)) == id
  {
  }

  // ---------------------------------------------------------------------------
  // Runs: a handler fed one message after another.
  // ---------------------------------------------------------------------------

  /** One message delivered to the chat, with the clock and the category
      list the store would return at that moment. */
  datatype Input = Input(message: Message, now: string, live: seq<string>)

  /** Where a flow stands: still waiting for a message, ended, or committed. */
  datatype Status = Waiting(handler: Handler) | Ended | Committed(call: Call)

  /** Feeds `inputs` to `h` until the flow ends or commits. */
  function Run(h: Handler, inputs: seq<Input>): (s: Status)
    requires WellFormed(h)
    ensures s.Waiting? ==> WellFormed(s.handler)
    decreases |inputs|
  {
    if inputs == [] then Waiting(h)
    else
      match Step(h, inputs[0].message, inputs[0].now, inputs[0].live)
      case Register(next, _) => Run(next, inputs[1..])
      case End(_) => Ended
      case Commit(call) => Committed(call)
  }

  // ---------------------------------------------------------------------------
  // Properties of single steps.
  // ---------------------------------------------------------------------------

  /** At a category step the cancel button ends the flow: no store call and
      no handler registered. */
  lemma CancelEndsFlow(h: Handler, m: Message, now: string, live: seq<string>)
    requires WellFormed(h) && (h.ExpenseDescription? || h.UpdateExpenseDescription?)
    requires m.text == CancelButton
    ensures Step(h, m, now, live) == End(ShowCommands)
  {
  }

  /** At a category step a text outside the captured list re-registers the
      same handler with the same data and the same captured list, and shows
      the same keyboard again. */
  lemma OffListCategoryRetries(h: Handler, m: Message, now: string, live: seq<string>)
    requires WellFormed(h) && (h.ExpenseDescription? || h.UpdateExpenseDescription?)
    requires m.text != CancelButton && m.text !in h.categoryNames
    ensures Step(h, m, now, live) == Register(h, TryAgain(Keyboard(h.categoryNames)))
  {
  }

  /** At an id step a text that is not all digits re-registers the same
      handler and calls nothing. */
  lemma NonDigitIdRetries(h: Handler, m: Message, now: string, live: seq<string>)
    requires h.ConfirmDelete? || h.UpdateIncomeAmount? || h.UpdateExpenseAmount?
    requires !IsDigits(m.text)
    ensures Step(h, m, now, live) == Register(h, TryAgain([]))
  {
  }

  /** The category list is read once, by the amount step; every other step,
      retries at the category step included, ignores the live list. */
  lemma CategoriesCapturedOnce(h: Handler, m: Message, now: string, live1: seq<string>, live2: seq<string>)
    requires WellFormed(h) && !h.ExpenseAmount? && !h.UpdateExpenseCategory?
    ensures Step(h, m, now, live1) == Step(h, m, now, live2)
  {
  }

  // ---------------------------------------------------------------------------
  // Properties of whole flows.
  // ---------------------------------------------------------------------------

  /** NewIncome: amount, then description, then exactly one `insert_income`
      of the tuple (user_id, amount, description, timestamp). */
  lemma {:induction false} IncomeFlow(inputs: seq<Input>)
    ensures |inputs| < 2 ==> Run(IncomeAmount, inputs).Waiting?
    ensures |inputs| >= 2 ==>
      Run(IncomeAmount, inputs) == Committed(InsertIncomeCall([IncomeRow(
        inputs[0].message.userId, inputs[0].message.text, inputs[1].message.text, inputs[1].now)]))
  {
    if inputs != [] {
      var m := inputs[0].message;
      var data := [UserField(m.userId), TextField(m.text)];
      assert Run(IncomeAmount, inputs) == Run(IncomeDescription(data), inputs[1..]);
      if |inputs| >= 2 {
        var i := inputs[1];
        assert data + [TextField(i.message.text), TextField(i.now)]
          == [UserField(m.userId), TextField(m.text), TextField(i.message.text), TextField(i.now)];
      }
    }
  }

  /** From the category step of NewExpense: texts that are neither the
      cancel button nor a captured category are retried; the first listed
      category `inputs[k]` is accepted, and the next message completes one
      `insert_expense` of (user_id, amount, category, description, timestamp). */
  lemma {:induction false} ExpenseCategoryRun(data: seq<Field>, names: seq<string>, inputs: seq<Input>, call: Call)
    returns (k: nat)
    requires Shaped(data, 2)
    requires Run(ExpenseDescription(data, names), inputs) == Committed(call)
    ensures k + 1 < |inputs|
    ensures forall j :: 0 <= j < k ==> inputs[j].message.text != CancelButton && inputs[j].message.text !in names
    ensures inputs[k].message.text != CancelButton && inputs[k].message.text in names
    ensures call == InsertExpenseCall([ExpenseRow(data[0].userId, data[1].text, inputs[k].message.text,
                                                  inputs[k + 1].message.text, inputs[k + 1].now)])
    decreases |inputs|
  {
    var h := ExpenseDescription(data, names);
    var text := inputs[0].message.text;
    if text != CancelButton && text in names {
      k := 0;
      var data3 := data + [TextField(text)];
      assert Run(h, inputs) == Run(SaveExpense(data3), inputs[1..]);
      var j := inputs[1];
      assert data3 + [TextField(j.message.text), TextField(j.now)]
        == [data[0], data[1], TextField(text), TextField(j.message.text), TextField(j.now)];
    } else {
      assert Run(h, inputs) == Run(h, inputs[1..]);
      var k' := ExpenseCategoryRun(data, names, inputs[1..], call);
      k := k' + 1;
      assert forall j :: 1 <= j <= k + 1 ==> inputs[j] == inputs[1..][j - 1];
    }
  }

  /** NewExpense: a commit is exactly one `insert_expense` whose tuple holds
      the amount-step sender and text, the first listed category `inputs[k]`
      from the list captured at the amount step, then the next message's
      text as description and its time as the timestamp. */
  lemma {:induction false} ExpenseFlow(inputs: seq<Input>, call: Call) returns (k: nat)
    requires Run(ExpenseAmount, inputs) == Committed(call)
    ensures 1 <= k && k + 1 < |inputs|
    ensures forall j :: 1 <= j < k ==>
      inputs[j].message.text != CancelButton && inputs[j].message.text !in inputs[0].live
    ensures inputs[k].message.text != CancelButton && inputs[k].message.text in inputs[0].live
    ensures call == InsertExpenseCall([ExpenseRow(inputs[0].message.userId, inputs[0].message.text,
                                                  inputs[k].message.text, inputs[k + 1].message.text, inputs[k + 1].now)])
  {
    var i := inputs[0];
    var data := [UserField(i.message.userId), TextField(i.message.text)];
    var next := ExpenseDescription(data, i.live);
    assert Step(ExpenseAmount, i.message, i.now, i.live).next == next;
    var k' := ExpenseCategoryRun(data, i.live, inputs[1..], call);
    k := k' + 1;
    assert forall j :: 1 <= j <= k + 1 ==> inputs[j] == inputs[1..][j - 1];
  }

  /** With no expense rows anywhere the captured list is empty, so NewExpense
      never commits. */
  lemma {:induction false} EmptyCatalogueNeverCommits(inputs: seq<Input>)
    requires inputs != [] && inputs[0].live == []
    ensures !Run(ExpenseAmount, inputs).Committed?
  {
    if Run(ExpenseAmount, inputs).Committed? {
      var k := ExpenseFlow(inputs, Run(ExpenseAmount, inputs).call);
    }
  }

  /** Delete: non-digit texts are retried; the first digit string is sent,
      as a number, to exactly one `delete_record` call. */
  lemma {:induction false} DeleteFlow(inputs: seq<Input>, call: Call) returns (k: nat)
    requires Run(ConfirmDelete, inputs) == Committed(call)
    ensures k < |inputs| && IsDigits(inputs[k].message.text)
    ensures forall j :: 0 <= j < k ==> !IsDigits(inputs[j].message.text)
    ensures call == DeleteCall(DigitsValue(inputs[k].message.text))
    decreases |inputs|
  {
    if IsDigits(inputs[0].message.text) {
      k := 0;
    } else {
      var k' := DeleteFlow(inputs[1..], call);
      k := k' + 1;
      assert forall j :: 1 <= j < k ==> inputs[j] == inputs[1..][j - 1];
    }
  }

  /** After the id step of UpdateIncome: the amount sender's id, the amount
      and the description are written to the row with the accepted id. */
  lemma {:induction false} UpdateIncomeFlow(inputs: seq<Input>, call: Call) returns (k: nat)
    requires Run(UpdateIncomeAmount, inputs) == Committed(call)
    ensures k + 2 < |inputs| && IsDigits(inputs[k].message.text)
    ensures forall j :: 0 <= j < k ==> !IsDigits(inputs[j].message.text)
    ensures call == UpdateIncomeCall(
      IncomeUpdate(inputs[k + 1].message.userId, inputs[k + 1].message.text, inputs[k + 2].message.text),
      DigitsValue(inputs[k].message.text))
    decreases |inputs|
  {
    var text := inputs[0].message.text;
    if IsDigits(text) {
      k := 0;
      var rest := inputs[1..];
      assert Run(UpdateIncomeAmount, inputs) == Run(UpdateIncomeDescription(text), rest);
      var m := rest[0].message;
      var data := [UserField(m.userId), TextField(m.text)];
      assert Run(UpdateIncomeDescription(text), rest) == Run(PerformIncomeUpdate(data, text), rest[1..]);
      var d := rest[1].message.text;
      assert data + [TextField(d)] == [UserField(m.userId), TextField(m.text), TextField(d)];
    } else {
      var k' := UpdateIncomeFlow(inputs[1..], call);
      k := k' + 1;
      assert forall j :: 1 <= j < k ==> inputs[j] == inputs[1..][j - 1];
    }
  }

  /** From the category step of UpdateExpense: texts that are neither the
      cancel button nor a captured category are retried; the first listed
      category `inputs[k]` is accepted, and the next message completes one
      `update_expense` of the accepted id with (user_id, amount, category,
      description) in UPDATE parameter order. */
  lemma {:induction false} UpdateExpenseCategoryRun(data: seq<Field>, id: string, names: seq<string>,
                                                    inputs: seq<Input>, call: Call) returns (k: nat)
    requires Shaped(data, 2) && IsDigits(id)
    requires Run(UpdateExpenseDescription(data, id, names), inputs) == Committed(call)
    ensures k + 1 < |inputs|
    ensures forall j :: 0 <= j < k ==> inputs[j].message.text != CancelButton && inputs[j].message.text !in names
    ensures inputs[k].message.text != CancelButton && inputs[k].message.text in names
    ensures call == UpdateExpenseCall(
      ExpenseUpdate(data[0].userId, data[1].text, inputs[k].message.text, inputs[k + 1].message.text),
      DigitsValue(id))
    decreases |inputs|
  {
    var h := UpdateExpenseDescription(data, id, names);
    var text := inputs[0].message.text;
    if text != CancelButton && text in names {
      k := 0;
      var data3 := data + [TextField(text)];
      assert Run(h, inputs) == Run(PerformExpenseUpdate(data3, id), inputs[1..]);
      var d := inputs[1].message.text;
      assert data3 + [TextField(d)] == [data[0], data[1], TextField(text), TextField(d)];
    } else {
      assert Run(h, inputs) == Run(h, inputs[1..]);
      var k' := UpdateExpenseCategoryRun(data, id, names, inputs[1..], call);
      k := k' + 1;
      assert forall j :: 1 <= j <= k + 1 ==> inputs[j] == inputs[1..][j - 1];
    }
  }

  /** UpdateExpense: non-digit ids are retried until `inputs[k]`; the next
      message gives the user and the amount and captures the category list;
      the first listed category `inputs[c]` is accepted; the message after it
      is the description. The commit is one `update_expense` of those four
      values, in UPDATE parameter order, for the accepted id. */
  lemma {:induction false} UpdateExpenseFlow(inputs: seq<Input>, call: Call) returns (k: nat, c: nat)
    requires Run(UpdateExpenseAmount, inputs) == Committed(call)
    ensures k + 2 <= c && c + 1 < |inputs| && IsDigits(inputs[k].message.text)
    ensures forall j :: 0 <= j < k ==> !IsDigits(inputs[j].message.text)
    ensures forall j :: k + 2 <= j < c ==>
      inputs[j].message.text != CancelButton && inputs[j].message.text !in inputs[k + 1].live
    ensures inputs[c].message.text != CancelButton && inputs[c].message.text in inputs[k + 1].live
    ensures call == UpdateExpenseCall(
      ExpenseUpdate(inputs[k + 1].message.userId, inputs[k + 1].message.text,
                    inputs[c].message.text, inputs[c + 1].message.text),
      DigitsValue(inputs[k].message.text))
    decreases |inputs|
  {
    var text := inputs[0].message.text;
    if IsDigits(text) {
      k := 0;
      var rest := inputs[1..];
      assert Run(UpdateExpenseAmount, inputs) == Run(UpdateExpenseCategory(text), rest);
      var m := rest[0].message;
      var data := [UserField(m.userId), TextField(m.text)];
      assert Run(UpdateExpenseCategory(text), rest)
        == Run(UpdateExpenseDescription(data, text, rest[0].live), rest[1..]);
      var c' := UpdateExpenseCategoryRun(data, text, rest[0].live, rest[1..], call);
      c := c' + 2;
      assert forall j :: 2 <= j <= c + 1 ==> inputs[j] == rest[1..][j - 2];
    } else {
      var k', c' := UpdateExpenseFlow(inputs[1..], call);
      k, c := k' + 1, c' + 1;
      assert forall j :: 1 <= j <= c + 1 ==> inputs[j] == inputs[1..][j - 1];
    }
  }

  /** Completing NewIncome against any tables adds exactly one income row,
      under a fresh id, owned by the amount message's sender and stamped
      with the commit time; the expense table is untouched. */
  lemma IncomeFlowAddsOneRow(t: Tables, inputs: seq<Input>)
    requires |inputs| >= 2
    ensures Run(IncomeAmount, inputs).Committed?
    ensures var row := IncomeRow(inputs[0].message.userId, inputs[0].message.text,
                                 inputs[1].message.text, inputs[1].now);
      var (after, ok) := Execute(t, Run(IncomeAmount, inputs).call, false);
      && ok && after.expense == t.expense
      && exists id :: id !in t.income && after.income == t.income[id := row]
  {
    IncomeFlow(inputs);
    InsertIncomeAddsOneRow(t, IncomeRow(inputs[0].message.userId, inputs[0].message.text,
                                        inputs[1].message.text, inputs[1].now));
  }

  /** Ids typed with leading zeros name the same row: "007" and "7" are the
      same number once SQLite compares them with the INTEGER id column. */
  lemma {:induction false} LeadingZeroSameId(text: string)
    requires IsDigits(text)
    ensures IsDigits("0" + text) && DigitsValue("0" + text) == DigitsValue(text)
    decreases |text|
  {
    var z := "0" + text;
    var n := |text|;
    assert z[..|z| - 1] == "0" + text[..n - 1];
    assert z[|z| - 1] == text[n - 1];
    if n == 1 {
      assert DigitsValue("0") == 0 by {
        assert "0"[..0] == [];
      }
      assert text[..0] == [];
    } else {
      LeadingZeroSameId(text[..n - 1]);
    }
  }

  /** Deleting twice: the second call reports failure and changes nothing. */
  lemma DeleteTwiceReportsFailure(t: Tables, id: int)
    ensures var (once, _) := Execute(t, DeleteCall(id), false);
      Execute(once, DeleteCall(id), false) == (once, false)
  {
    DeleteTwice(t, id);
  }

  /** An id held only by an income row: the row is deleted, and the reply
      is nevertheless a failure. */
  lemma DeleteIncomeOnlyReportsFailure(t: Tables, id: int)
    requires id in t.income && id !in t.expense
    ensures var (after, ok) := Execute(t, DeleteCall(id), false);
      !ok && id !in after.income && |after.income| == |t.income| - 1
  {
    DeleteIncomeOnly(t, id);
  }
}
