/** The record store of the income/expense bot: the four SQLite tables
    behind `DB_Manager`, each held as a map from row id to row. Amounts and
    timestamps are opaque text; a storage error is an explicit `fault`
    argument that makes an operation change nothing and report failure. */
module Store {

  /** A row of `income`, its columns after `id` in declaration order. */
  datatype IncomeRow = IncomeRow(userId: int, amount: string, description: string, date: string)

  /** A row of `expense`, its columns after `id` in declaration order. */
  datatype ExpenseRow = ExpenseRow(userId: int, amount: string, category: string, description: string, date: string)

  /** The values `update_income` binds from its `data` list: `data[0..2]`. */
  datatype IncomeUpdate = IncomeUpdate(userId: int, amount: string, description: string)

  /** The values `update_expense` binds from its `data` list: `data[0..3]`. */
  datatype ExpenseUpdate = ExpenseUpdate(userId: int, amount: string, category: string, description: string)

  /** A row of the `get_records` query: id, user_id, amount, description, date, type. */
  datatype Record = Record(id: int, userId: int, amount: string, description: string, date: string, kind: string)

  /** The contents of the whole database. */
  datatype Tables = Tables(
    income: map<int, IncomeRow>,
    expense: map<int, ExpenseRow>,
    incomeCategories: map<int, string>,
    expenseCategories: map<int, string>)

  const NoTables := Tables(map[], map[], map[], map[])

  /** The seed catalogues inserted by `default_insert`. */
  const IncomeCategorySeed: seq<string> := ["Зарплата", "Аванс", "Премия", "Другое"]
  const ExpenseCategorySeed: seq<string> := ["Аренда", "Продукты", "Транспорт", "Развлечения", "Другое"]

  predicate Distinct<T(==)>(s: seq<T>) {
    forall i, j :: 0 <= i < j < |s| ==> s[i] != s[j]
  }

  /** A non-empty set of ids has an element (stated for the verifier's benefit). */
  lemma HasElement(ids: set<int>)
    requires ids != {}
    ensures exists x :: x in ids
  {
    if forall x :: x !in ids {
      assert false;
    }
  }

  /** The table that numbers `rows` from 1, in order. */
  function Numbered<R>(rows: seq<R>): map<int, R> {
    map i | 1 <= i <= |rows| :: RowAt(rows, i)
  }

  function RowAt<R>(rows: seq<R>, i: int): R
    requires 1 <= i <= |rows|
  {
    rows[i - 1]
  }

  // ---------------------------------------------------------------------------
  // Row ids. Every table's `id INTEGER PRIMARY KEY` is SQLite's rowid: an insert
  // that gives no id takes one more than the largest id in the table, or 1 when
  // the table is empty.
  // ---------------------------------------------------------------------------

  lemma {:induction false} HasMaximum(ids: set<int>)
    requires ids != {}
    ensures exists top :: top in ids && forall k :: k in ids ==> k <= top
  {
    HasElement(ids);
    var x :| x in ids;
    var rest := ids - {x};
    if rest == {} {
      assert ids == {x};
      assert forall k :: k in ids ==> k <= x;
    } else {
      HasMaximum(rest);
      var top :| top in rest && forall k :: k in rest ==> k <= top;
      var best := if x <= top then top else x;
      forall k | k in ids
        ensures k <= best
      {
        if k != x {
          assert k in rest;
        }
      }
      assert best in ids;
    }
  }

  function MaxOf(ids: set<int>): (top: int)
    requires ids != {}
    ensures top in ids
    ensures forall k :: k in ids ==> k <= top
  {
    HasMaximum(ids);
    var top :| top in ids && forall k :: k in ids ==> k <= top;
    top
  }

  /** The id SQLite gives the next row inserted into a table holding `ids`. */
  function NextId(ids: set<int>): (id: int)
    ensures id !in ids
    ensures forall k :: k in ids ==> k < id
    ensures ids == {} ==> id == 1
    ensures ids != {} ==> id - 1 in ids
  {
    if ids == {} then 1 else MaxOf(ids) + 1
  }

  /** `executemany` of an INSERT: each tuple in turn becomes a row with a fresh id. */
  function InsertAll<R>(table: map<int, R>, rows: seq<R>): (result: map<int, R>)
    ensures forall k :: k in table ==> k in result && result[k] == table[k]
    ensures |result| == |table| + |rows|
    ensures forall k :: k in result && k !in table ==> result[k] in rows
    decreases |rows|
  {
    if rows == [] then table
    else
      var before := InsertAll(table, rows[..|rows| - 1]);
      before[NextId(before.Keys) := rows[|rows| - 1]]
  }

  /** The id the `i`-th tuple of an `executemany` into `table` receives. */
  function Slot<R>(table: map<int, R>, i: int): int {
    NextId(table.Keys) + i
  }

  /** `executemany` places the tuples in order: the `i`-th one under the
      `i`-th id after the table's, and nothing else is added. */
  lemma {:induction false} InsertAllInOrder<R>(table: map<int, R>, rows: seq<R>)
    ensures Placed(table, InsertAll(table, rows), rows)
    decreases |rows|
  {
    if rows == [] {
      assert InsertAll(table, rows) == table;
    } else {
      var init, last := rows[..|rows| - 1], rows[|rows| - 1];
      assert init + [last] == rows;
      InsertAllInOrder(table, init);
      var before := InsertAll(table, init);
      NextIdAfterInserts(table, before, init);
      PlacedSnoc(table, before, init, last);
      assert InsertAll(table, rows) == before[NextId(before.Keys) := last];
    }
  }

  /** `grown` is `table` with `rows[i]` added under `Slot(table, i)` and no other row added. */
  ghost predicate Placed<R>(table: map<int, R>, grown: map<int, R>, rows: seq<R>) {
    && (forall k :: k in table ==> k in grown)
    && (forall i :: 0 <= i < |rows| ==> Slot(table, i) in grown && grown[Slot(table, i)] == rows[i])
    && (forall k :: k in grown && k !in table ==> Slot(table, 0) <= k < Slot(table, |rows|))
  }

  lemma PlacedSnoc<R>(table: map<int, R>, before: map<int, R>, init: seq<R>, last: R)
    requires Placed(table, before, init)
    ensures Placed(table, before[Slot(table, |init|) := last], init + [last])
  {
    var rows, after := init + [last], before[Slot(table, |init|) := last];
    forall i | 0 <= i < |rows| ensures Slot(table, i) in after && after[Slot(table, i)] == rows[i] {
      if i < |init| {
        assert rows[i] == init[i] && Slot(table, i) in before;
      }
    }
    forall k | k in after && k !in table ensures Slot(table, 0) <= k < Slot(table, |rows|) {
      if k != Slot(table, |init|) {
        assert k in before;
      }
    }
  }

  /** Once `n` tuples have been inserted, the next id is `n` past the table's. */
  lemma NextIdAfterInserts<R>(table: map<int, R>, grown: map<int, R>, rows: seq<R>)
    requires Placed(table, grown, rows)
    ensures NextId(grown.Keys) == Slot(table, |rows|)
  {
    var next, n := NextId(grown.Keys), |rows|;
    if n == 0 {
      forall k | k in grown.Keys ensures k in table.Keys {
        if k !in table {
          assert false;
        }
      }
      forall k | k in table.Keys ensures k in grown.Keys {
        assert k in table;
      }
      assert grown.Keys == table.Keys;
    } else {
      assert Slot(table, n - 1) in grown.Keys;
      assert Slot(table, n - 1) < next;
      assert next - 1 in grown.Keys && next - 1 !in table;
      assert next - 1 < Slot(table, n);
    }
  }

  /** Inserting one tuple adds exactly one row, under an id not used before,
      holding exactly that tuple; every other row stays as it was. */
  lemma InsertOne<R>(table: map<int, R>, row: R)
    ensures exists id :: id !in table && InsertAll(table, [row]) == table[id := row]
  {
    assert [row][..0] == [];
    var id := NextId(table.Keys);
    assert InsertAll(table, [row]) == table[id := row];
  }

  /** The id after a table numbered from 1 is one past its last row. */
  lemma NumberedNextId<R>(rows: seq<R>)
    ensures NextId(Numbered(rows).Keys) == |rows| + 1
  {
    var keys := Numbered(rows).Keys;
    if rows != [] {
      assert |rows| in keys;
      assert forall k :: k in keys ==> k <= |rows|;
    } else {
      assert keys == {};
    }
  }

  lemma NumberedSnoc<R>(rows: seq<R>, x: R)
    ensures Numbered(rows + [x]) == Numbered(rows)[|rows| + 1 := x]
  {
    var longer := rows + [x];
    assert forall i :: 1 <= i <= |rows| ==> RowAt(longer, i) == RowAt(rows, i);
    assert RowAt(longer, |rows| + 1) == x;
  }

  /** The tuples inserted into an empty table get the ids 1, 2, ... in order. */
  lemma {:induction false} InsertIntoEmpty<R>(rows: seq<R>)
    ensures InsertAll(map[], rows) == Numbered(rows)
  {
    if rows != [] {
      var init, last := rows[..|rows| - 1], rows[|rows| - 1];
      assert init + [last] == rows;
      InsertIntoEmpty(init);
      NumberedNextId(init);
      NumberedSnoc(init, last);
      calc {
        InsertAll(map[], rows);
        InsertAll(map[], init)[NextId(InsertAll(map[], init).Keys) := last];
        Numbered(init)[|init| + 1 := last];
        Numbered(rows);
      }
    }
  }

  // ---------------------------------------------------------------------------
  // What each statement does to the tables.
  // ---------------------------------------------------------------------------

  /** `INSERT INTO income (user_id, amount, description, date) VALUES (?, ?, ?, ?)` per tuple. */
  function AfterInsertIncome(t: Tables, rows: seq<IncomeRow>): Tables {
    t.(income := InsertAll(t.income, rows))
  }

  /** `INSERT INTO expense (user_id, amount, category, description, date) VALUES (?, ?, ?, ?, ?)` per tuple. */
  function AfterInsertExpense(t: Tables, rows: seq<ExpenseRow>): Tables {
    t.(expense := InsertAll(t.expense, rows))
  }

  /** `DELETE FROM income WHERE id=?` followed by `DELETE FROM expense WHERE id=?`. */
  function AfterDelete(t: Tables, id: int): (r: Tables)
    ensures id !in r.income && id !in r.expense
    ensures forall k :: k != id && k in t.income ==> k in r.income && r.income[k] == t.income[k]
    ensures forall k :: k != id && k in t.expense ==> k in r.expense && r.expense[k] == t.expense[k]
    ensures r.income.Keys <= t.income.Keys && r.expense.Keys <= t.expense.Keys
    ensures r.incomeCategories == t.incomeCategories && r.expenseCategories == t.expenseCategories
  {
    t.(income := t.income - {id}, expense := t.expense - {id})
  }

  /** `UPDATE income SET user_id=?, amount=?, description=? WHERE id=?`. */
  function AfterUpdateIncome(t: Tables, data: IncomeUpdate, id: int): (r: Tables)
    ensures id in t.income ==>
      r.income.Keys == t.income.Keys &&
      r.income[id] == IncomeRow(data.userId, data.amount, data.description, t.income[id].date)
    ensures forall k :: k != id && k in t.income ==> k in r.income && r.income[k] == t.income[k]
    ensures id !in t.income ==> r == t
    ensures r.expense == t.expense
    ensures r.incomeCategories == t.incomeCategories && r.expenseCategories == t.expenseCategories
  {
    if id in t.income then
      t.(income := t.income[id := t.income[id].(userId := data.userId, amount := data.amount, description := data.description)])
    else t
  }

  /** `UPDATE expense SET user_id=?, amount=?, category=?, description=? WHERE id=?`. */
  function AfterUpdateExpense(t: Tables, data: ExpenseUpdate, id: int): (r: Tables)
    ensures id in t.expense ==>
      r.expense.Keys == t.expense.Keys &&
      r.expense[id] == ExpenseRow(data.userId, data.amount, data.category, data.description, t.expense[id].date)
    ensures forall k :: k != id && k in t.expense ==> k in r.expense && r.expense[k] == t.expense[k]
    ensures id !in t.expense ==> r == t
    ensures r.income == t.income
    ensures r.incomeCategories == t.incomeCategories && r.expenseCategories == t.expenseCategories
  {
    if id in t.expense then
      t.(expense := t.expense[id := t.expense[id].(userId := data.userId, amount := data.amount,
                                                    category := data.category, description := data.description)])
    else t
  }

  /** `default_insert`: the two seed catalogues appended to the category tables. */
  function AfterDefaultInsert(t: Tables): Tables {
    t.(incomeCategories := InsertAll(t.incomeCategories, IncomeCategorySeed),
       expenseCategories := InsertAll(t.expenseCategories, ExpenseCategorySeed))
  }

  // ---------------------------------------------------------------------------
  // Ids handed out without an explicit id are positive.
  // ---------------------------------------------------------------------------

  /** Every row id in the four tables is at least 1, as in a database whose
      rows were all inserted without giving an id. */
  ghost predicate IdsPositive(t: Tables) {
    && (forall k :: k in t.income ==> k >= 1)
    && (forall k :: k in t.expense ==> k >= 1)
    && (forall k :: k in t.incomeCategories ==> k >= 1)
    && (forall k :: k in t.expenseCategories ==> k >= 1)
  }

  /** Freshly created tables hold no ids at all. */
  lemma NoTablesIdsPositive()
    ensures IdsPositive(NoTables)
  {
  }

  /** `executemany` into a table of positive ids only adds positive ids. */
  lemma InsertAllKeepsIdsPositive<R>(table: map<int, R>, rows: seq<R>)
    requires forall k :: k in table ==> k >= 1
    ensures forall k :: k in InsertAll(table, rows) ==> k >= 1
  {
    InsertAllInOrder(table, rows);
    assert Slot(table, 0) >= 1;
  }

  /** `default_insert` keeps every id positive. */
  lemma DefaultInsertKeepsIdsPositive(t: Tables)
    requires IdsPositive(t)
    ensures IdsPositive(AfterDefaultInsert(t))
  {
    InsertAllKeepsIdsPositive(t.incomeCategories, IncomeCategorySeed);
    InsertAllKeepsIdsPositive(t.expenseCategories, ExpenseCategorySeed);
  }

  // ---------------------------------------------------------------------------
  // What the two queries select.
  // ---------------------------------------------------------------------------

  /** The first half of the UNION ALL: an income row tagged 'income'. */
  function IncomeRecord(id: int, row: IncomeRow): Record {
    Record(id, row.userId, row.amount, row.description, row.date, "income")
  }

  /** The second half: an expense row tagged 'expense', its description
      being `category || ' - ' || description`. */
  function ExpenseRecord(id: int, row: ExpenseRow): Record {
    Record(id, row.userId, row.amount, row.category + " - " + row.description, row.date, "expense")
  }

  /** `r` is selected by `get_records(userId)`. */
  predicate IsUserRecord(t: Tables, userId: int, r: Record) {
    || (r.kind == "income" && r.id in t.income && t.income[r.id].userId == userId
        && r == IncomeRecord(r.id, t.income[r.id]))
    || (r.kind == "expense" && r.id in t.expense && t.expense[r.id].userId == userId
        && r == ExpenseRecord(r.id, t.expense[r.id]))
  }

  /** The `category` values present among the rows of `expense` with ids in `ids`. */
  function CategoriesAmong(expense: map<int, ExpenseRow>, ids: set<int>): set<string> {
    set id | id in ids && id in expense :: expense[id].category
  }

  /** `SELECT DISTINCT category FROM expense`. */
  function Categories(expense: map<int, ExpenseRow>): set<string> {
    CategoriesAmong(expense, expense.Keys)
  }

  /** `names` is one answer of `SELECT DISTINCT category FROM expense`. */
  ghost predicate IsCategoryListing(names: seq<string>, expense: map<int, ExpenseRow>) {
    Distinct(names) && forall c :: c in names <==> c in Categories(expense)
  }

  // ---------------------------------------------------------------------------
  // The store as the source holds it: a connection object whose methods
  // change the tables in place.
  // ---------------------------------------------------------------------------

  class DBManager {
    var income: map<int, IncomeRow>
    var expense: map<int, ExpenseRow>
    var incomeCategories: map<int, string>
    var expenseCategories: map<int, string>

    function State(): Tables
      reads this
    {
      Tables(income, expense, incomeCategories, expenseCategories)
    }

    /** Connecting to a database file that already holds `existing`. */
    constructor (existing: Tables)
      ensures State() == existing
    {
      income := existing.income;
      expense := existing.expense;
      incomeCategories := existing.incomeCategories;
      expenseCategories := existing.expenseCategories;
    }

    /** Drops and re-creates all four tables. */
    method CreateTables()
      modifies this
      ensures State() == NoTables
    {
      income := map[];
      expense := map[];
      incomeCategories := map[];
      expenseCategories := map[];
    }

    method InsertIncome(data: seq<IncomeRow>, fault: bool) returns (ok: bool)
      modifies this
      ensures ok == !fault
      ensures State() == if fault then old(State()) else AfterInsertIncome(old(State()), data)
    {
      if fault {
        return false;
      }
      income := InsertAll(income, data);
      ok := true;
    }

    method InsertExpense(data: seq<ExpenseRow>, fault: bool) returns (ok: bool)
      modifies this
      ensures ok == !fault
      ensures State() == if fault then old(State()) else AfterInsertExpense(old(State()), data)
    {
      if fault {
        return false;
      }
      expense := InsertAll(expense, data);
      ok := true;
    }

    /** The user's income rows followed by the user's expense rows, each
        once, in no particular order within each half. */
    method GetRecords(userId: int, fault: bool) returns (rows: seq<Record>)
      ensures fault ==> rows == []
      ensures !fault ==> forall r :: r in rows <==> IsUserRecord(State(), userId, r)
      ensures Distinct(rows)
      ensures forall i, j :: 0 <= i < j < |rows| && rows[i].kind == "expense" ==> rows[j].kind == "expense"
    {
      rows := [];
      if fault {
        return;
      }
      var incomeRows: seq<Record> := [];
      var todo := income.Keys;
      while todo != {}
        invariant todo <= income.Keys
        invariant Distinct(incomeRows)
        invariant forall r :: r in incomeRows <==>
          r.kind == "income" && r.id in income && r.id !in todo && income[r.id].userId == userId
          && r == IncomeRecord(r.id, income[r.id])
        decreases todo
      {
        HasElement(todo);
        var id :| id in todo;
        if income[id].userId == userId {
          incomeRows := incomeRows + [IncomeRecord(id, income[id])];
        }
        todo := todo - {id};
      }
      var expenseRows: seq<Record> := [];
      todo := expense.Keys;
      while todo != {}
        invariant todo <= expense.Keys
        invariant Distinct(expenseRows)
        invariant forall r :: r in expenseRows <==>
          r.kind == "expense" && r.id in expense && r.id !in todo && expense[r.id].userId == userId
          && r == ExpenseRecord(r.id, expense[r.id])
        decreases todo
      {
        HasElement(todo);
        var id :| id in todo;
        if expense[id].userId == userId {
          expenseRows := expenseRows + [ExpenseRecord(id, expense[id])];
        }
        todo := todo - {id};
      }
      rows := incomeRows + expenseRows;
    }

    /** Removes the row with that id from both tables; the result is the
        `rowcount` of the second DELETE only. */
    method DeleteRecord(recordId: int, fault: bool) returns (ok: bool)
      modifies this
      ensures ok == (!fault && recordId in old(expense))
      ensures State() == if fault then old(State()) else AfterDelete(old(State()), recordId)
    {
      if fault {
        return false;
      }
      income := income - {recordId};
      var rowcount := if recordId in expense then 1 else 0;
      expense := expense - {recordId};
      ok := rowcount > 0;
    }

    /** The distinct categories of the expense rows; the seeded
        `expense_categories` table plays no part. */
    method GetExpenseCategories(fault: bool) returns (names: seq<string>)
      ensures fault ==> names == []
      ensures !fault ==> IsCategoryListing(names, expense)
      ensures !fault ==> (names == [] <==> expense == map[])
    {
      names := [];
      if fault {
        return;
      }
      var todo := expense.Keys;
      while todo != {}
        invariant todo <= expense.Keys
        invariant Distinct(names)
        invariant forall c :: c in names <==> c in CategoriesAmong(expense, expense.Keys - todo)
        decreases todo
      {
        HasElement(todo);
        var id :| id in todo;
        var c := expense[id].category;
        ghost var done := expense.Keys - todo;
        assert CategoriesAmong(expense, done + {id}) == CategoriesAmong(expense, done) + {c};
        if c !in names {
          names := names + [c];
        }
        todo := todo - {id};
        assert expense.Keys - todo == done + {id};
      }
      assert expense.Keys - todo == expense.Keys;
      if expense != map[] {
        HasElement(expense.Keys);
        var id :| id in expense;
        assert expense[id].category in Categories(expense);
      }
      if names != [] {
        assert names[0] in Categories(expense);
      }
    }

    method UpdateIncome(data: IncomeUpdate, incomeId: int, fault: bool) returns (ok: bool)
      modifies this
      ensures ok == (!fault && incomeId in old(income))
      ensures State() == if fault then old(State()) else AfterUpdateIncome(old(State()), data, incomeId)
    {
      if fault {
        return false;
      }
      var rowcount := 0;
      if incomeId in income {
        income := income[incomeId := income[incomeId].(userId := data.userId, amount := data.amount,
                                                      description := data.description)];
        rowcount := 1;
      }
      ok := rowcount > 0;
    }

    method UpdateExpense(data: ExpenseUpdate, expenseId: int, fault: bool) returns (ok: bool)
      modifies this
      ensures ok == (!fault && expenseId in old(expense))
      ensures State() == if fault then old(State()) else AfterUpdateExpense(old(State()), data, expenseId)
    {
      if fault {
        return false;
      }
      var rowcount := 0;
      if expenseId in expense {
        expense := expense[expenseId := expense[expenseId].(userId := data.userId, amount := data.amount,
                                                          category := data.category, description := data.description)];
        rowcount := 1;
      }
      ok := rowcount > 0;
    }

    /** Appends the seed catalogues; an error is caught and leaves the tables alone. */
    method DefaultInsert(fault: bool)
      modifies this
      ensures State() == if fault then old(State()) else AfterDefaultInsert(old(State()))
    {
      if fault {
        return;
      }
      incomeCategories := InsertAll(incomeCategories, IncomeCategorySeed);
      expenseCategories := InsertAll(expenseCategories, ExpenseCategorySeed);
    }
  }

  // ---------------------------------------------------------------------------
  // Properties of the store.
  // ---------------------------------------------------------------------------

  /** Inserting one income tuple adds exactly one income row, under a fresh
      id, holding the tuple's fields; nothing else changes. */
  lemma InsertIncomeAddsOneRow(t: Tables, row: IncomeRow)
    ensures var r := AfterInsertIncome(t, [row]);
      && (exists id :: id !in t.income && r.income == t.income[id := row])
      && r.expense == t.expense
      && r.incomeCategories == t.incomeCategories && r.expenseCategories == t.expenseCategories
  {
    InsertOne(t.income, row);
  }

  /** Inserting one expense tuple adds exactly one expense row, under a
      fresh id, holding the tuple's fields; nothing else changes. */
  lemma InsertExpenseAddsOneRow(t: Tables, row: ExpenseRow)
    ensures var r := AfterInsertExpense(t, [row]);
      && (exists id :: id !in t.expense && r.expense == t.expense[id := row])
      && r.income == t.income
      && r.incomeCategories == t.incomeCategories && r.expenseCategories == t.expenseCategories
  {
    InsertOne(t.expense, row);
  }

  /** Deleting the same id twice: the second delete finds nothing, reports
      failure and changes nothing. */
  lemma DeleteTwice(t: Tables, id: int)
    ensures var once := AfterDelete(t, id);
      AfterDelete(once, id) == once && id !in once.expense
  {
  }

  /** An id held only by an income row: that row is deleted, yet the result
      (the expense DELETE's rowcount) is a failure. */
  lemma DeleteIncomeOnly(t: Tables, id: int)
    requires id in t.income && id !in t.expense
    ensures var r := AfterDelete(t, id);
      id !in r.income && |r.income| == |t.income| - 1 && r.expense == t.expense
  {
    var r := AfterDelete(t, id);
    assert r.expense == t.expense - {id} == t.expense;
    assert r.income.Keys + {id} == t.income.Keys;
    assert |r.income.Keys + {id}| == |r.income.Keys| + 1;
  }

  lemma NumberedFour<R>(rows: seq<R>)
    requires |rows| == 4
    ensures Numbered(rows) == map[1 := rows[0], 2 := rows[1], 3 := rows[2], 4 := rows[3]]
  {
    assert Numbered(rows).Keys == {1, 2, 3, 4};
  }

  lemma NumberedFive<R>(rows: seq<R>)
    requires |rows| == 5
    ensures Numbered(rows) == map[1 := rows[0], 2 := rows[1], 3 := rows[2], 4 := rows[3], 5 := rows[4]]
  {
    assert Numbered(rows).Keys == {1, 2, 3, 4, 5};
  }

  /** `create_tables` followed by `default_insert`: empty record tables and
      exactly the seeded names, numbered from 1 in seed order. */
  lemma SeededCatalogue()
    ensures var t := AfterDefaultInsert(NoTables);
      && t.income == map[] && t.expense == map[]
      && t.incomeCategories == map[1 := "Зарплата", 2 := "Аванс", 3 := "Премия", 4 := "Другое"]
      && t.expenseCategories == map[1 := "Аренда", 2 := "Продукты", 3 := "Транспорт", 4 := "Развлечения", 5 := "Другое"]
  {
    InsertIntoEmpty(IncomeCategorySeed);
    InsertIntoEmpty(ExpenseCategorySeed);
    NumberedFour(IncomeCategorySeed);
    NumberedFive(ExpenseCategorySeed);
  }

  /** The two records of one user's salary and lunch: an income record that
      keeps its description and an expense record described "food - lunch".
      Both rows get id 1, one per table. */
  lemma SalaryAndLunch(t1: string, t2: string)
    ensures var t := AfterInsertExpense(AfterInsertIncome(NoTables, [IncomeRow(1, "100", "salary", t1)]),
                                        [ExpenseRow(1, "20", "food", "lunch", t2)]);
      forall r :: IsUserRecord(t, 1, r) <==>
        r == Record(1, 1, "100", "salary", t1, "income") || r == Record(1, 1, "20", "food - lunch", t2, "expense")
  {
    InsertIntoEmpty([IncomeRow(1, "100", "salary", t1)]);
    InsertIntoEmpty([ExpenseRow(1, "20", "food", "lunch", t2)]);
  }
}
