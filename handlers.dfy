/** The bot's handlers as the source runs them: one shared store handle, the
    handler registered for each chat's next message, and a method per command
    handler and per step handler. Each step method builds its `data` list by
    appending, calls the store at most once, and registers the next handler;
    each is proved to do what `Conversation.Step` says for its handler. */
module Handlers {
  import opened Store
  import opened Conversation

  class Bot {
    /** The module-level `manager`. */
    const db: DBManager
    /** The next-step handler registered per chat id. */
    var pending: map<int, Handler>

    ghost predicate Valid()
      reads this
    {
      forall chat :: chat in pending ==> WellFormed(pending[chat])
    }

    /** The step's effect `e` has been carried out for `chat`, starting from
        the registrations `before` and the tables `tables`: its handler is
        registered, or the chat has none any more; the store is untouched
        unless `e` commits, and then it has made exactly `e`'s call. */
    ghost predicate Performed(chat: int, e: Effect, before: map<int, Handler>, tables: Tables,
                              fault: bool, reply: Reply)
      reads this, db
    {
      match e
      case Register(next, r) =>
        pending == before[chat := next] && db.State() == tables && reply == r
      case End(r) =>
        pending == before - {chat} && db.State() == tables && reply == r
      case Commit(call) =>
        pending == before - {chat} && db.State() == Execute(tables, call, fault).0
        && reply == Outcome(Execute(tables, call, fault).1)
    }

    constructor (manager: DBManager)
      ensures db == manager && pending == map[] && Valid()
    {
      db := manager;
      pending := map[];
    }

    // -------------------------------------------------------------------------
    // Command handlers: each asks its first question and registers the first
    // step. They are modelled only for a chat with no step pending.
    // -------------------------------------------------------------------------

    method NewIncome(m: Message) returns (reply: Reply)
      requires Valid() && m.chatId !in pending
      modifies this
      ensures Valid() && pending == old(pending)[m.chatId := Handler.IncomeAmount] && reply == Ask([])
    {
      reply := Ask([]);
      pending := pending[m.chatId := Handler.IncomeAmount];
    }

    method NewExpense(m: Message) returns (reply: Reply)
      requires Valid() && m.chatId !in pending
      modifies this
      ensures Valid() && pending == old(pending)[m.chatId := Handler.ExpenseAmount] && reply == Ask([])
    {
      reply := Ask([]);
      pending := pending[m.chatId := Handler.ExpenseAmount];
    }

    method DeleteRecord(m: Message) returns (reply: Reply)
      requires Valid() && m.chatId !in pending
      modifies this
      ensures Valid() && pending == old(pending)[m.chatId := Handler.ConfirmDelete] && reply == Ask([])
    {
      reply := Ask([]);
      pending := pending[m.chatId := Handler.ConfirmDelete];
    }

    method UpdateIncome(m: Message) returns (reply: Reply)
      requires Valid() && m.chatId !in pending
      modifies this
      ensures Valid() && pending == old(pending)[m.chatId := Handler.UpdateIncomeAmount] && reply == Ask([])
    {
      reply := Ask([]);
      pending := pending[m.chatId := Handler.UpdateIncomeAmount];
    }

    method UpdateExpense(m: Message) returns (reply: Reply)
      requires Valid() && m.chatId !in pending
      modifies this
      ensures Valid() && pending == old(pending)[m.chatId := Handler.UpdateExpenseAmount] && reply == Ask([])
    {
      reply := Ask([]);
      pending := pending[m.chatId := Handler.UpdateExpenseAmount];
    }

    // -------------------------------------------------------------------------
    // Step handlers. Each is called with the chat's registration already
    // removed, as the library pops it before calling.
    // -------------------------------------------------------------------------

    method IncomeAmount(m: Message) returns (reply: Reply)
      requires m.chatId !in pending
      modifies this
      ensures Performed(m.chatId, Step(Handler.IncomeAmount, m, "", []), old(pending), old(db.State()), false, reply)
    {
      var data := [UserField(m.userId), TextField(m.text)];
      reply := Ask([]);
      pending := pending[m.chatId := Handler.IncomeDescription(data)];
    }

    method IncomeDescription(m: Message, data: seq<Field>, now: string, fault: bool) returns (reply: Reply)
      requires Shaped(data, 2) && m.chatId !in pending
      modifies db
      ensures Performed(m.chatId, Step(Handler.IncomeDescription(data), m, now, []),
                        old(pending), old(db.State()), fault, reply)
    {
      var row := data;
      row := row + [TextField(m.text)];
      row := row + [TextField(now)];
      var success := db.InsertIncome([IncomeTuple(row)], fault);
      reply := Outcome(success);
    }

    method ExpenseAmount(m: Message, fault: bool) returns (reply: Reply, ghost live: seq<string>)
      requires m.chatId !in pending
      modifies this
      ensures if fault then live == [] else IsCategoryListing(live, old(db.expense))
      ensures Performed(m.chatId, Step(Handler.ExpenseAmount, m, "", live), old(pending), old(db.State()), fault, reply)
    {
      var data := [UserField(m.userId), TextField(m.text)];
      var categoryNames := db.GetExpenseCategories(fault);
      live := categoryNames;
      var keyboard := GenMarkup(categoryNames);
      reply := Ask(keyboard);
      pending := pending[m.chatId := Handler.ExpenseDescription(data, categoryNames)];
    }

    method ExpenseDescription(m: Message, data: seq<Field>, categoryNames: seq<string>) returns (reply: Reply)
      requires Shaped(data, 2) && m.chatId !in pending
      modifies this
      ensures Performed(m.chatId, Step(Handler.ExpenseDescription(data, categoryNames), m, "", []),
                        old(pending), old(db.State()), false, reply)
    {
      var category := m.text;
      if category == CancelButton {
        reply := ShowCommands;
        return;
      }
      if category !in categoryNames {
        var keyboard := GenMarkup(categoryNames);
        reply := TryAgain(keyboard);
        pending := pending[m.chatId := Handler.ExpenseDescription(data, categoryNames)];
        return;
      }
      var grown := data + [TextField(category)];
      reply := Ask([]);
      pending := pending[m.chatId := Handler.SaveExpense(grown)];
    }

    method SaveExpense(m: Message, data: seq<Field>, now: string, fault: bool) returns (reply: Reply)
      requires Shaped(data, 3) && m.chatId !in pending
      modifies db
      ensures Performed(m.chatId, Step(Handler.SaveExpense(data), m, now, []),
                        old(pending), old(db.State()), fault, reply)
    {
      var row := data;
      row := row + [TextField(m.text)];
      row := row + [TextField(now)];
      var success := db.InsertExpense([ExpenseTuple(row)], fault);
      reply := Outcome(success);
    }

    method ConfirmDelete(m: Message, fault: bool) returns (reply: Reply)
      requires m.chatId !in pending
      modifies this, db
      ensures Performed(m.chatId, Step(Handler.ConfirmDelete, m, "", []), old(pending), old(db.State()), fault, reply)
    {
      var recordId := m.text;
      if !IsDigits(recordId) {
        reply := TryAgain([]);
        pending := pending[m.chatId := Handler.ConfirmDelete];
        return;
      }
      var success := db.DeleteRecord(DigitsValue(recordId), fault);
      reply := Outcome(success);
    }

    method UpdateIncomeAmount(m: Message) returns (reply: Reply)
      requires m.chatId !in pending
      modifies this
      ensures Performed(m.chatId, Step(Handler.UpdateIncomeAmount, m, "", []), old(pending), old(db.State()), false, reply)
    {
      var incomeId := m.text;
      if !IsDigits(incomeId) {
        reply := TryAgain([]);
        pending := pending[m.chatId := Handler.UpdateIncomeAmount];
        return;
      }
      reply := Ask([]);
      pending := pending[m.chatId := Handler.UpdateIncomeDescription(incomeId)];
    }

    method UpdateIncomeDescription(m: Message, incomeId: string) returns (reply: Reply)
      requires IsDigits(incomeId) && m.chatId !in pending
      modifies this
      ensures Performed(m.chatId, Step(Handler.UpdateIncomeDescription(incomeId), m, "", []),
                        old(pending), old(db.State()), false, reply)
    {
      var data := [UserField(m.userId), TextField(m.text)];
      reply := Ask([]);
      pending := pending[m.chatId := Handler.PerformIncomeUpdate(data, incomeId)];
    }

    method PerformIncomeUpdate(m: Message, data: seq<Field>, incomeId: string, fault: bool) returns (reply: Reply)
      requires Shaped(data, 2) && IsDigits(incomeId) && m.chatId !in pending
      modifies db
      ensures Performed(m.chatId, Step(Handler.PerformIncomeUpdate(data, incomeId), m, "", []),
                        old(pending), old(db.State()), fault, reply)
    {
      var grown := data + [TextField(m.text)];
      var success := db.UpdateIncome(IncomeParams(grown), DigitsValue(incomeId), fault);
      reply := Outcome(success);
    }

    method UpdateExpenseAmount(m: Message) returns (reply: Reply)
      requires m.chatId !in pending
      modifies this
      ensures Performed(m.chatId, Step(Handler.UpdateExpenseAmount, m, "", []), old(pending), old(db.State()), false, reply)
    {
      var expenseId := m.text;
      if !IsDigits(expenseId) {
        reply := TryAgain([]);
        pending := pending[m.chatId := Handler.UpdateExpenseAmount];
        return;
      }
      reply := Ask([]);
      pending := pending[m.chatId := Handler.UpdateExpenseCategory(expenseId)];
    }

    method UpdateExpenseCategory(m: Message, expenseId: string, fault: bool) returns (reply: Reply, ghost live: seq<string>)
      requires IsDigits(expenseId) && m.chatId !in pending
      modifies this
      ensures if fault then live == [] else IsCategoryListing(live, old(db.expense))
      ensures Performed(m.chatId, Step(Handler.UpdateExpenseCategory(expenseId), m, "", live),
                        old(pending), old(db.State()), fault, reply)
    {
      var data := [UserField(m.userId), TextField(m.text)];
      var categoryNames := db.GetExpenseCategories(fault);
      live := categoryNames;
      var keyboard := GenMarkup(categoryNames);
      reply := Ask(keyboard);
      pending := pending[m.chatId := Handler.UpdateExpenseDescription(data, expenseId, categoryNames)];
    }

    method UpdateExpenseDescription(m: Message, data: seq<Field>, expenseId: string, categoryNames: seq<string>)
      returns (reply: Reply)
      requires Shaped(data, 2) && IsDigits(expenseId) && m.chatId !in pending
      modifies this
      ensures Performed(m.chatId, Step(Handler.UpdateExpenseDescription(data, expenseId, categoryNames), m, "", []),
                        old(pending), old(db.State()), false, reply)
    {
      var category := m.text;
      if category == CancelButton {
        reply := ShowCommands;
        return;
      }
      if category !in categoryNames {
        var keyboard := GenMarkup(categoryNames);
        reply := TryAgain(keyboard);
        pending := pending[m.chatId := Handler.UpdateExpenseDescription(data, expenseId, categoryNames)];
        return;
      }
      var grown := data + [TextField(category)];
      reply := Ask([]);
      pending := pending[m.chatId := Handler.PerformExpenseUpdate(grown, expenseId)];
    }

    method PerformExpenseUpdate(m: Message, data: seq<Field>, expenseId: string, fault: bool) returns (reply: Reply)
      requires Shaped(data, 3) && IsDigits(expenseId) && m.chatId !in pending
      modifies db
      ensures Performed(m.chatId, Step(Handler.PerformExpenseUpdate(data, expenseId), m, "", []),
                        old(pending), old(db.State()), fault, reply)
    {
      var grown := data + [TextField(m.text)];
      var success := db.UpdateExpense(ExpenseParams(grown), DigitsValue(expenseId), fault);
      reply := Outcome(success);
    }

    // -------------------------------------------------------------------------
    // Delivery of a message to the handler registered for its chat.
    // -------------------------------------------------------------------------

    /** Pops the chat's registered handler and calls it on `m`. `now` is the
        clock and `fault` whether the store call of this step fails; `live`
        is the category list the step read from the store, if it read one. */
    method Receive(m: Message, now: string, fault: bool) returns (reply: Reply, ghost live: seq<string>)
      requires Valid() && m.chatId in pending
      modifies this, db
      ensures Valid()
      ensures old(pending)[m.chatId].ExpenseAmount? || old(pending)[m.chatId].UpdateExpenseCategory? ==>
        if fault then live == [] else IsCategoryListing(live, old(db.expense))
      ensures Performed(m.chatId, Step(old(pending)[m.chatId], m, now, live), old(pending) - {m.chatId},
                        old(db.State()), fault, reply)
    {
      var h := pending[m.chatId];
      pending := pending - {m.chatId};
      live := [];
      match h {
        case IncomeAmount =>
          assert Step(h, m, now, live) == Step(h, m, "", []);
          reply := IncomeAmount(m);
        case IncomeDescription(data) =>
          assert Step(h, m, now, live) == Step(h, m, now, []);
          reply := IncomeDescription(m, data, now, fault);
        case ExpenseAmount => reply, live := ExpenseAmount(m, fault);
        case ExpenseDescription(data, names) =>
          assert Step(h, m, now, live) == Step(h, m, "", []);
          reply := ExpenseDescription(m, data, names);
        case SaveExpense(data) =>
          assert Step(h, m, now, live) == Step(h, m, now, []);
          reply := SaveExpense(m, data, now, fault);
        case ConfirmDelete =>
          assert Step(h, m, now, live) == Step(h, m, "", []);
          reply := ConfirmDelete(m, fault);
        case UpdateIncomeAmount =>
          assert Step(h, m, now, live) == Step(h, m, "", []);
          reply := UpdateIncomeAmount(m);
        case UpdateIncomeDescription(id) =>
          assert Step(h, m, now, live) == Step(h, m, "", []);
          reply := UpdateIncomeDescription(m, id);
        case PerformIncomeUpdate(data, id) =>
          assert Step(h, m, now, live) == Step(h, m, "", []);
          reply := PerformIncomeUpdate(m, data, id, fault);
        case UpdateExpenseAmount =>
          assert Step(h, m, now, live) == Step(h, m, "", []);
          reply := UpdateExpenseAmount(m);
        case UpdateExpenseCategory(id) => reply, live := UpdateExpenseCategory(m, id, fault);
        case UpdateExpenseDescription(data, id, names) =>
          assert Step(h, m, now, live) == Step(h, m, "", []);
          reply := UpdateExpenseDescription(m, data, id, names);
        case PerformExpenseUpdate(data, id) =>
          assert Step(h, m, now, live) == Step(h, m, "", []);
          reply := PerformExpenseUpdate(m, data, id, fault);
      }
    }
  }
}
