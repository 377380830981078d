/**
 * The budget-insight engine. For one user and one "today" it sums this
 * month's expenses per category name, flags the budgets already exceeded,
 * and predicts the ones a linear run rate would exceed by the end of the
 * month. It only reads the ledger.
 */
module Intelligence {
  import opened Wrappers
  import opened Calendar
  import opened Ledger

  /** A row of the monthly-spending query: `category__name` (None for no category) and `total`. */
  datatype SpendingRow = SpendingRow(name: Option<string>, total: Cents)

  /** An OVERSPENDING entry; the message reports `overage`. */
  datatype Alert = Alert(category: string, budget: Cents, spent: Cents, overage: Cents)

  /**
   * A PREDICTED_OVERRUN entry. The projected total is the exact fraction
   * `projectedTimesDays / daysPassed`.
   */
  datatype Prediction = Prediction(
    category: string, budget: Cents, currentSpent: Cents, projectedTimesDays: int, daysPassed: int)

  datatype Insights = Insights(overspending: seq<Alert>, predictions: seq<Prediction>)

  /** Python's OverflowError when the date arithmetic leaves year 9999. */
  datatype EngineError = DateOverflow

  // ---------------------------------------------------------------------
  // Monthly spending
  // ---------------------------------------------------------------------

  /** The query's filter: the user's expenses dated on or after the month start (no upper bound). */
  predicate InWindow(e: Transaction, user: UserId, start: Date)
  {
    e.user == user && DateLe(start, e.date)
  }

  predicate CountsToward(cats: seq<Category>, e: Transaction, user: UserId, start: Date, name: Option<string>)
  {
    InWindow(e, user, start) && CategoryName(cats, e.category) == name
  }

  /** The sum of the amounts of the expenses that count toward category name `name`. */
  function Spent(cats: seq<Category>, exps: seq<Transaction>, user: UserId, start: Date, name: Option<string>): Cents
  {
    if exps == [] then 0
    else
      var e := exps[|exps| - 1];
      Spent(cats, exps[..|exps| - 1], user, start, name) + (if CountsToward(cats, e, user, start, name) then e.amount else 0)
  }

  predicate AnySpending(cats: seq<Category>, exps: seq<Transaction>, user: UserId, start: Date, name: Option<string>)
  {
    exists e :: e in exps && CountsToward(cats, e, user, start, name)
  }

  predicate HasRow(rows: seq<SpendingRow>, name: Option<string>)
  {
    exists p :: 0 <= p < |rows| && rows[p].name == name
  }

  predicate NamesDistinct(rows: seq<SpendingRow>)
  {
    forall p, q :: 0 <= p < |rows| && 0 <= q < |rows| && rows[p].name == rows[q].name ==> p == q
  }

  /** No later row has the name of row `p`. */
  predicate LastWithName(rows: seq<SpendingRow>, p: int)
    requires 0 <= p < |rows|
  {
    forall q :: p < q < |rows| ==> rows[q].name != rows[p].name
  }

  /** A category name with no expense that counts toward it has spent 0. */
  lemma {:induction false} NoSpendingIsZero(cats: seq<Category>, exps: seq<Transaction>, user: UserId, start: Date, name: Option<string>)
    requires !AnySpending(cats, exps, user, start, name)
    ensures Spent(cats, exps, user, start, name) == 0
  {
    if exps != [] {
      var prefix := exps[..|exps| - 1];
      assert exps[|exps| - 1] in exps;
      forall e | e in prefix ensures e in exps {
        var i :| 0 <= i < |prefix| && prefix[i] == e;
        assert exps[i] == e;
      }
      NoSpendingIsZero(cats, prefix, user, start, name);
    }
  }

  /** Add `amount` to the row named `name`, or append a new row for it. */
  function AddToGroup(rows: seq<SpendingRow>, name: Option<string>, amount: Cents): (r: seq<SpendingRow>)
    requires NamesDistinct(rows)
    ensures HasRow(rows, name) ==> |r| == |rows|
    ensures !HasRow(rows, name) ==> r == rows + [SpendingRow(name, amount)]
    ensures forall p :: 0 <= p < |rows| ==>
      r[p].name == rows[p].name && r[p].total == rows[p].total + (if rows[p].name == name then amount else 0)
  {
    if rows == [] then [SpendingRow(name, amount)]
    else if rows[0].name == name then
      assert !HasRow(rows[1..], name) by {
        forall p | 0 <= p < |rows[1..]| ensures rows[1..][p].name != name {
          assert rows[p + 1] == rows[1..][p];
        }
      }
      [rows[0].(total := rows[0].total + amount)] + rows[1..]
    else
      var rest := AddToGroup(rows[1..], name, amount);
      assert HasRow(rows, name) ==> HasRow(rows[1..], name) by {
        if HasRow(rows, name) {
          var p :| 0 <= p < |rows| && rows[p].name == name;
          assert rows[1..][p - 1] == rows[p];
        }
      }
      [rows[0]] + rest
  }

  /** Adding to a group keeps one row per name. */
  lemma AddToGroupDistinct(rows: seq<SpendingRow>, name: Option<string>, amount: Cents)
    requires NamesDistinct(rows)
    ensures NamesDistinct(AddToGroup(rows, name, amount))
  {
    var r := AddToGroup(rows, name, amount);
    if !HasRow(rows, name) {
      forall p | 0 <= p < |rows| ensures r[p].name != r[|rows|].name {
        assert rows[p].name != name;
      }
    }
  }

  /** Counting expense `e` into the rows: only an expense of `user` dated on or after `start` counts. */
  function Tally(cats: seq<Category>, rows: seq<SpendingRow>, e: Transaction, user: UserId, start: Date): (r: seq<SpendingRow>)
    requires NamesDistinct(rows)
    ensures NamesDistinct(r)
  {
    if InWindow(e, user, start) then
      AddToGroupDistinct(rows, CategoryName(cats, e.category), e.amount);
      AddToGroup(rows, CategoryName(cats, e.category), e.amount)
    else rows
  }

  /** An expense counts toward some name of the extended table exactly when it counts toward it in the prefix or is `e`. */
  lemma AnySpendingSnoc(cats: seq<Category>, prefix: seq<Transaction>, e: Transaction, user: UserId, start: Date,
                        k: Option<string>)
    ensures AnySpending(cats, prefix + [e], user, start, k)
        <==> AnySpending(cats, prefix, user, start, k) || CountsToward(cats, e, user, start, k)
  {
    var exps := prefix + [e];
    if AnySpending(cats, exps, user, start, k) {
      var x :| x in exps && CountsToward(cats, x, user, start, k);
      assert x in prefix || x == e;
    }
    if AnySpending(cats, prefix, user, start, k) {
      var x :| x in prefix && CountsToward(cats, x, user, start, k);
      assert x in exps;
    }
    assert e in exps;
  }

  /**
   * Tallying one more expense keeps the rows in step with the table: distinct
   * names, each total the spending on its name, a row exactly for each name spent on.
   */
  lemma TallySnoc(cats: seq<Category>, prefix: seq<Transaction>, e: Transaction, user: UserId, start: Date,
                  rows: seq<SpendingRow>)
    requires NamesDistinct(rows)
    requires forall p :: 0 <= p < |rows| ==> rows[p].total == Spent(cats, prefix, user, start, rows[p].name)
    requires forall k :: HasRow(rows, k) <==> AnySpending(cats, prefix, user, start, k)
    ensures var r := Tally(cats, rows, e, user, start);
      && (forall p :: 0 <= p < |r| ==> r[p].total == Spent(cats, prefix + [e], user, start, r[p].name))
      && (forall k :: HasRow(r, k) <==> AnySpending(cats, prefix + [e], user, start, k))
  {
    var exps := prefix + [e];
    assert exps[..|exps| - 1] == prefix;
    assert exps[|exps| - 1] == e;
    forall k ensures AnySpending(cats, exps, user, start, k)
                 <==> AnySpending(cats, prefix, user, start, k) || CountsToward(cats, e, user, start, k) {
      AnySpendingSnoc(cats, prefix, e, user, start, k);
    }
    if InWindow(e, user, start) {
      var k := CategoryName(cats, e.category);
      var r := AddToGroup(rows, k, e.amount);
      if !HasRow(rows, k) {
        NoSpendingIsZero(cats, prefix, user, start, k);
        assert HasRow(r, k) by { assert r[|rows|].name == k; }
        assert forall j :: HasRow(r, j) ==> HasRow(rows, j) || j == k;
      } else {
        forall j ensures HasRow(r, j) <==> HasRow(rows, j) {
          if HasRow(r, j) {
            var p :| 0 <= p < |r| && r[p].name == j;
            assert rows[p].name == j;
          }
          if HasRow(rows, j) {
            var p :| 0 <= p < |rows| && rows[p].name == j;
            assert r[p].name == j;
          }
        }
      }
    }
  }

  /**
   * `values('category__name').annotate(total=Sum('amount'))` over the
   * user's expenses dated on or after `start`: one row per category name,
   * holding that name's total, and a row exactly for the names that have
   * an expense. The database returns the groups in no specified order;
   * this function lists them by first appearance.
   */
  function MonthlySpending(cats: seq<Category>, exps: seq<Transaction>, user: UserId, start: Date): (rows: seq<SpendingRow>)
    ensures NamesDistinct(rows)
    ensures forall p :: 0 <= p < |rows| ==> rows[p].total == Spent(cats, exps, user, start, rows[p].name)
    ensures forall k :: HasRow(rows, k) <==> AnySpending(cats, exps, user, start, k)
  {
    if exps == [] then []
    else
      var prefix, e := exps[..|exps| - 1], exps[|exps| - 1];
      var rows := MonthlySpending(cats, prefix, user, start);
      TallySnoc(cats, prefix, e, user, start, rows);
      assert exps == prefix + [e];
      Tally(cats, rows, e, user, start)
  }

  /** Spending is additive over a split of the expense table. */
  lemma {:induction false} SpentAdditive(cats: seq<Category>, a: seq<Transaction>, b: seq<Transaction>,
                                         user: UserId, start: Date, name: Option<string>)
    ensures Spent(cats, a + b, user, start, name)
         == Spent(cats, a, user, start, name) + Spent(cats, b, user, start, name)
  {
    if b == [] {
      assert a + b == a;
    } else {
      var b' := b[..|b| - 1];
      assert (a + b)[..|a + b| - 1] == a + b';
      assert (a + b)[|a + b| - 1] == b[|b| - 1];
      SpentAdditive(cats, a, b', user, start, name);
    }
  }

  /** Another user's expenses never contribute: spending equals spending over the user's own rows. */
  lemma {:induction false} SpentIgnoresOtherUsers(cats: seq<Category>, exps: seq<Transaction>,
                                                  user: UserId, start: Date, name: Option<string>)
    ensures Spent(cats, exps, user, start, name)
         == Spent(cats, Filter(exps, (e: Transaction) => e.user == user), user, start, name)
  {
    if exps != [] {
      var e := exps[0];
      var own := (t: Transaction) => t.user == user;
      assert exps == [e] + exps[1..];
      SpentAdditive(cats, [e], exps[1..], user, start, name);
      SpentIgnoresOtherUsers(cats, exps[1..], user, start, name);
      assert [e][..0] == [];
      if e.user == user {
        assert Filter(exps, own) == [e] + Filter(exps[1..], own);
        SpentAdditive(cats, [e], Filter(exps[1..], own), user, start, name);
      } else {
        assert Filter(exps, own) == Filter(exps[1..], own);
      }
    }
  }

  // ---------------------------------------------------------------------
  // The spending map
  // ---------------------------------------------------------------------

  /** A name has a row among the first `i + 1` rows exactly when it has one among the first `i` or is row `i`'s. */
  lemma HasRowSnoc(rows: seq<SpendingRow>, i: int, k: Option<string>)
    requires 0 <= i < |rows|
    ensures HasRow(rows[..i + 1], k) <==> HasRow(rows[..i], k) || k == rows[i].name
  {
    if HasRow(rows[..i + 1], k) {
      var p :| 0 <= p < i + 1 && rows[..i + 1][p].name == k;
      if p < i { assert rows[..i][p].name == k; }
    }
    if HasRow(rows[..i], k) {
      var p :| 0 <= p < i && rows[..i][p].name == k;
      assert rows[..i + 1][p].name == k;
    }
    if k == rows[i].name { assert rows[..i + 1][i].name == k; }
  }

  /** The last row with its name among the first `i + 1` rows, other than row `i`, is last among the first `i` too. */
  lemma LastWithNameSnoc(rows: seq<SpendingRow>, i: int, p: int)
    requires 0 <= p < i < |rows| && LastWithName(rows[..i + 1], p)
    ensures LastWithName(rows[..i], p) && rows[i].name != rows[p].name
  {
    forall q | p < q < i ensures rows[..i][q].name != rows[..i][p].name {
      assert rows[..i + 1][q] == rows[..i][q];
    }
    assert rows[..i + 1][i].name != rows[..i + 1][p].name;
  }

  /** Storing row `i` in a map built from the first `i` rows gives the map of the first `i + 1`. */
  lemma MapStep(rows: seq<SpendingRow>, i: int, m: map<Option<string>, Cents>)
    requires 0 <= i < |rows|
    requires forall k :: k in m <==> HasRow(rows[..i], k)
    requires forall p :: 0 <= p < i && LastWithName(rows[..i], p) ==> rows[p].name in m && m[rows[p].name] == rows[p].total
    ensures var m' := m[rows[i].name := rows[i].total];
      && (forall k :: k in m' <==> HasRow(rows[..i + 1], k))
      && (forall p :: 0 <= p < i + 1 && LastWithName(rows[..i + 1], p) ==> rows[p].name in m' && m'[rows[p].name] == rows[p].total)
  {
    var m' := m[rows[i].name := rows[i].total];
    forall k ensures k in m' <==> HasRow(rows[..i + 1], k) {
      HasRowSnoc(rows, i, k);
    }
    forall p | 0 <= p < i + 1 && LastWithName(rows[..i + 1], p)
      ensures rows[p].name in m' && m'[rows[p].name] == rows[p].total
    {
      if p < i {
        LastWithNameSnoc(rows, i, p);
      }
    }
  }

  /**
   * `for e in expenses: spending_map[e['category__name']] = e['total']`:
   * the map has a key exactly for each row's name, and a repeated name
   * keeps the last row's total.
   */
  method BuildSpendingMap(rows: seq<SpendingRow>) returns (m: map<Option<string>, Cents>)
    ensures forall k :: k in m <==> HasRow(rows, k)
    ensures forall p :: 0 <= p < |rows| && LastWithName(rows, p) ==> rows[p].name in m && m[rows[p].name] == rows[p].total
  {
    m := map[];
    var i := 0;
    while i < |rows|
      invariant 0 <= i <= |rows|
      invariant forall k :: k in m <==> HasRow(rows[..i], k)
      invariant forall p :: 0 <= p < i && LastWithName(rows[..i], p) ==> rows[p].name in m && m[rows[p].name] == rows[p].total
    {
      MapStep(rows, i, m);
      m := m[rows[i].name := rows[i].total];
      i := i + 1;
    }
    assert rows[..i] == rows;
  }

  /** `m.get(name, 0)`. */
  function Get(m: map<Option<string>, Cents>, name: Option<string>): Cents
  {
    if name in m then m[name] else 0
  }

  /** Looking a name up in the spending map, with default 0, gives what was spent on it. */
  lemma MapLookupIsSpent(cats: seq<Category>, exps: seq<Transaction>, user: UserId, start: Date,
                         rows: seq<SpendingRow>, m: map<Option<string>, Cents>, name: Option<string>)
    requires NamesDistinct(rows)
    requires forall p :: 0 <= p < |rows| ==> rows[p].total == Spent(cats, exps, user, start, rows[p].name)
    requires forall k :: HasRow(rows, k) <==> AnySpending(cats, exps, user, start, k)
    requires forall k :: k in m <==> HasRow(rows, k)
    requires forall p :: 0 <= p < |rows| && LastWithName(rows, p) ==> rows[p].name in m && m[rows[p].name] == rows[p].total
    ensures Get(m, name) == Spent(cats, exps, user, start, name)
  {
    if name in m {
      var p :| 0 <= p < |rows| && rows[p].name == name;
      assert LastWithName(rows, p);
    } else {
      NoSpendingIsZero(cats, exps, user, start, name);
    }
  }

  // ---------------------------------------------------------------------
  // Budgets of the current month
  // ---------------------------------------------------------------------

  /** The condition of `Budget.objects.filter(user=user, month=start)`. */
  function ThisMonths(user: UserId, start: Date): Budget -> bool
  {
    (b: Budget) => b.user == user && b.month == start
  }

  /**
   * `Budget.objects.filter(user=user, month=start)`: exactly the matching
   * budgets, in table order.
   */
  function CurrentBudgets(bs: seq<Budget>, user: UserId, start: Date): (r: seq<Budget>)
    ensures |r| <= |bs|
    ensures forall b :: b in r <==> b in bs && b.user == user && b.month == start
  {
    if bs == [] then []
    else
      var b := bs[|bs| - 1];
      var prefix := bs[..|bs| - 1];
      assert bs == prefix + [b];
      CurrentBudgets(prefix, user, start) + (if b.user == user && b.month == start then [b] else [])
  }

  /** The selection keeps the matching budgets in their table order. */
  lemma {:induction false} CurrentBudgetsIsFilter(bs: seq<Budget>, user: UserId, start: Date)
    ensures CurrentBudgets(bs, user, start) == Filter(bs, ThisMonths(user, start))
  {
    if bs != [] {
      var b, prefix := bs[|bs| - 1], bs[..|bs| - 1];
      assert bs == prefix + [b];
      var keep := ThisMonths(user, start);
      CurrentBudgetsIsFilter(prefix, user, start);
      FilterAppend(prefix, [b], keep);
      assert [b][1..] == [];
      assert Filter([b], keep) == if b.user == user && b.month == start then [b] else [];
    }
  }

  /** Removing a budget the selection does not match, from any position, leaves the selection unchanged. */
  lemma SkipUnselected(bs1: seq<Budget>, b: Budget, bs2: seq<Budget>, user: UserId, start: Date)
    requires b.user != user || b.month != start
    ensures CurrentBudgets(bs1 + [b] + bs2, user, start) == CurrentBudgets(bs1 + bs2, user, start)
  {
    CurrentBudgetsIsFilter(bs1 + [b] + bs2, user, start);
    CurrentBudgetsIsFilter(bs1 + bs2, user, start);
    FilterSkip(bs1, b, bs2, ThisMonths(user, start));
  }

  predicate BudgetRefsValid(cats: seq<Category>, bs: seq<Budget>)
  {
    forall j :: 0 <= j < |bs| ==> HasCategory(cats, bs[j].category)
  }

  /** Every prefix of budgets with existing categories has existing categories. */
  lemma RefsPrefix(cats: seq<Category>, bs: seq<Budget>, n: int)
    requires BudgetRefsValid(cats, bs) && 0 <= n <= |bs|
    ensures BudgetRefsValid(cats, bs[..n])
  {
    forall j | 0 <= j < n ensures HasCategory(cats, bs[..n][j].category) {
      assert bs[..n][j] == bs[j];
    }
  }

  /** Two lists of budgets with existing categories concatenate to one. */
  lemma RefsAppend(cats: seq<Category>, bs1: seq<Budget>, bs2: seq<Budget>)
    requires BudgetRefsValid(cats, bs1) && BudgetRefsValid(cats, bs2)
    ensures BudgetRefsValid(cats, bs1 + bs2)
  {
    forall j | 0 <= j < |bs1 + bs2| ensures HasCategory(cats, (bs1 + bs2)[j].category) {
      if j < |bs1| {
        assert (bs1 + bs2)[j] == bs1[j];
      } else {
        assert (bs1 + bs2)[j] == bs2[j - |bs1|];
      }
    }
  }

  /** Every budget this month's query selects refers to an existing category. */
  lemma {:induction false} CurrentBudgetsRefs(cats: seq<Category>, bs: seq<Budget>, user: UserId, start: Date)
    requires BudgetRefsValid(cats, bs)
    ensures BudgetRefsValid(cats, CurrentBudgets(bs, user, start))
  {
    if bs != [] {
      var prefix := bs[..|bs| - 1];
      assert BudgetRefsValid(cats, prefix) by {
        forall j | 0 <= j < |prefix| ensures HasCategory(cats, prefix[j].category) {
          assert prefix[j] == bs[j];
        }
      }
      CurrentBudgetsRefs(cats, prefix, user, start);
    }
  }

  /** Valid tables meet the engine's one demand on the store: budget categories exist. */
  lemma TablesBudgetRefs(cats: seq<Category>, incs: seq<Transaction>, exps: seq<Transaction>, bs: seq<Budget>)
    requires TablesValid(cats, incs, exps, bs)
    ensures BudgetRefsValid(cats, bs)
  {
    forall j | 0 <= j < |bs| ensures HasCategory(cats, bs[j].category) {
      assert bs[j] in bs;
    }
  }

  /** `budget.category.name`. */
  function BudgetName(cats: seq<Category>, b: Budget): string
    requires HasCategory(cats, b.category)
  {
    FindCategory(cats, b.category).value.name
  }

  // ---------------------------------------------------------------------
  // Overspending
  // ---------------------------------------------------------------------

  /**
   * The alert budget `b` yields: one exactly when spent is strictly greater
   * than the budget (spent equal to the budget gives none), reporting a
   * positive overage of spent minus budget.
   */
  function AlertFor(cats: seq<Category>, exps: seq<Transaction>, user: UserId, start: Date, b: Budget): (r: Option<Alert>)
    requires HasCategory(cats, b.category)
    ensures r.Some? <==> Spent(cats, exps, user, start, Some(BudgetName(cats, b))) > b.amount
    ensures r.Some? ==>
      && r.value.category == BudgetName(cats, b) && r.value.budget == b.amount
      && r.value.spent == Spent(cats, exps, user, start, Some(BudgetName(cats, b)))
      && r.value.overage == r.value.spent - r.value.budget && r.value.overage > 0
  {
    var name := BudgetName(cats, b);
    var spent := Spent(cats, exps, user, start, Some(name));
    if spent > b.amount then Some(Alert(name, b.amount, spent, spent - b.amount)) else None
  }

  function OptionToSeq<T>(o: Option<T>): seq<T>
  {
    if o.Some? then [o.value] else []
  }

  /** The alerts of budgets `bs`, each budget's alert in the budgets' order. */
  function Alerts(cats: seq<Category>, exps: seq<Transaction>, user: UserId, start: Date, bs: seq<Budget>): (r: seq<Alert>)
    requires BudgetRefsValid(cats, bs)
    ensures |r| <= |bs|
  {
    if bs == [] then []
    else
      var b := bs[|bs| - 1];
      assert b in bs;
      Alerts(cats, exps, user, start, bs[..|bs| - 1]) + OptionToSeq(AlertFor(cats, exps, user, start, b))
  }

  /** Iterating one more budget appends that budget's alert, if any. */
  lemma AlertsSnoc(cats: seq<Category>, exps: seq<Transaction>, user: UserId, start: Date, bs: seq<Budget>, b: Budget)
    requires BudgetRefsValid(cats, bs) && HasCategory(cats, b.category)
    ensures BudgetRefsValid(cats, bs + [b])
    ensures Alerts(cats, exps, user, start, bs + [b])
         == Alerts(cats, exps, user, start, bs) + OptionToSeq(AlertFor(cats, exps, user, start, b))
  {
    assert (bs + [b])[..|bs|] == bs;
  }

  /**
   * One step of the alert loop: with `spent` the spending on budget `bs[i]`'s
   * category, the alerts of the first `i + 1` budgets are those of the first
   * `i` plus an alert exactly when `spent` exceeds the amount.
   */
  lemma AlertsStep(cats: seq<Category>, exps: seq<Transaction>, user: UserId, start: Date,
                   bs: seq<Budget>, i: int, name: string, spent: Cents)
    requires BudgetRefsValid(cats, bs) && 0 <= i < |bs|
    requires name == BudgetName(cats, bs[i]) && spent == Spent(cats, exps, user, start, Some(name))
    ensures BudgetRefsValid(cats, bs[..i]) && BudgetRefsValid(cats, bs[..i + 1])
    ensures spent > bs[i].amount ==>
      Alerts(cats, exps, user, start, bs[..i + 1])
      == Alerts(cats, exps, user, start, bs[..i]) + [Alert(name, bs[i].amount, spent, spent - bs[i].amount)]
    ensures spent <= bs[i].amount ==>
      Alerts(cats, exps, user, start, bs[..i + 1]) == Alerts(cats, exps, user, start, bs[..i])
  {
    assert bs[..i + 1] == bs[..i] + [bs[i]];
    AlertsSnoc(cats, exps, user, start, bs[..i], bs[i]);
  }

  /** `detect_overspending`: the alerts of this month's budgets of `user`. */
  function Overspending(cats: seq<Category>, exps: seq<Transaction>, bs: seq<Budget>, user: UserId, start: Date): seq<Alert>
    requires BudgetRefsValid(cats, bs)
  {
    Alerts(cats, exps, user, start, CurrentBudgets(bs, user, start))
  }

  /** The alerts of a concatenation are the alerts of each part, in order. */
  lemma {:induction false} AlertsAppend(cats: seq<Category>, exps: seq<Transaction>, user: UserId, start: Date,
                                        bs1: seq<Budget>, bs2: seq<Budget>)
    requires BudgetRefsValid(cats, bs1) && BudgetRefsValid(cats, bs2)
    ensures BudgetRefsValid(cats, bs1 + bs2)
    ensures Alerts(cats, exps, user, start, bs1 + bs2)
         == Alerts(cats, exps, user, start, bs1) + Alerts(cats, exps, user, start, bs2)
  {
    if bs2 == [] {
      assert bs1 + bs2 == bs1;
    } else {
      var bs2', b := bs2[..|bs2| - 1], bs2[|bs2| - 1];
      assert bs2' + [b] == bs2;
      assert (bs1 + bs2') + [b] == bs1 + bs2;
      assert b == bs2[|bs2| - 1];
      RefsPrefix(cats, bs2, |bs2| - 1);
      RefsAppend(cats, bs1, bs2');
      AlertsAppend(cats, exps, user, start, bs1, bs2');
      AlertsSnoc(cats, exps, user, start, bs1 + bs2', b);
      AlertsSnoc(cats, exps, user, start, bs2', b);
    }
  }

  /** An alert is in the list exactly when some budget in the list yields it. */
  lemma {:induction false} AlertsMembers(cats: seq<Category>, exps: seq<Transaction>, user: UserId, start: Date,
                                         bs: seq<Budget>, a: Alert)
    requires BudgetRefsValid(cats, bs)
    ensures a in Alerts(cats, exps, user, start, bs)
       <==> exists b :: b in bs && HasCategory(cats, b.category) && AlertFor(cats, exps, user, start, b) == Some(a)
  {
    if bs != [] {
      var prefix := bs[..|bs| - 1];
      var b := bs[|bs| - 1];
      assert bs == prefix + [b];
      AlertsMembers(cats, exps, user, start, prefix, a);
    }
  }

  /**
   * `detect_overspending` alerts exactly for the user's budgets of this
   * month whose spending is strictly above the amount.
   */
  lemma OverspendingIff(cats: seq<Category>, exps: seq<Transaction>, bs: seq<Budget>, user: UserId, start: Date, a: Alert)
    requires BudgetRefsValid(cats, bs)
    ensures a in Overspending(cats, exps, bs, user, start)
       <==> exists b :: b in bs && b.user == user && b.month == start && HasCategory(cats, b.category)
              && Spent(cats, exps, user, start, Some(BudgetName(cats, b))) > b.amount
              && a == Alert(BudgetName(cats, b), b.amount, Spent(cats, exps, user, start, Some(BudgetName(cats, b))),
                            Spent(cats, exps, user, start, Some(BudgetName(cats, b))) - b.amount)
  {
    AlertsMembers(cats, exps, user, start, CurrentBudgets(bs, user, start), a);
  }

  // ---------------------------------------------------------------------
  // Overrun prediction
  // ---------------------------------------------------------------------

  /** `max(today.day, 1)`: the day of the month, which is never below 1. */
  function DaysPassed(today: Date): (n: int)
    requires ValidDate(today)
    ensures n == today.day && 1 <= n <= DaysInMonth(today.year, today.month)
  {
    if today.day > 1 then today.day else 1
  }

  /**
   * The prediction budget `b` yields: one exactly when the projected total
   * `spent / daysPassed * daysInMonth` exceeds the budget while spent does
   * not yet exceed it, compared as `spent * daysInMonth > budget * daysPassed`.
   * The two comparisons agree when `daysPassed >= 1`, which `Predictions`
   * guarantees by passing `DaysPassed(today)`.
   */
  function PredictionFor(cats: seq<Category>, exps: seq<Transaction>, user: UserId, start: Date,
                         daysPassed: int, daysInMonth: int, b: Budget): (r: Option<Prediction>)
    requires HasCategory(cats, b.category)
    ensures var spent := Spent(cats, exps, user, start, Some(BudgetName(cats, b)));
      (r.Some? <==> spent * daysInMonth > b.amount * daysPassed && spent <= b.amount)
      && (r.Some? ==> r.value == Prediction(BudgetName(cats, b), b.amount, spent, spent * daysInMonth, daysPassed))
  {
    var name := BudgetName(cats, b);
    var spent := Spent(cats, exps, user, start, Some(name));
    if spent * daysInMonth > b.amount * daysPassed && spent <= b.amount then
      Some(Prediction(name, b.amount, spent, spent * daysInMonth, daysPassed))
    else None
  }

  /** The predictions of budgets `bs`, each budget's prediction in the budgets' order; `daysPassed >= 1` as for `PredictionFor`. */
  function PredictionList(cats: seq<Category>, exps: seq<Transaction>, user: UserId, start: Date,
                          daysPassed: int, daysInMonth: int, bs: seq<Budget>): (r: seq<Prediction>)
    requires BudgetRefsValid(cats, bs)
    ensures |r| <= |bs|
  {
    if bs == [] then []
    else
      var b := bs[|bs| - 1];
      assert b in bs;
      PredictionList(cats, exps, user, start, daysPassed, daysInMonth, bs[..|bs| - 1])
        + OptionToSeq(PredictionFor(cats, exps, user, start, daysPassed, daysInMonth, b))
  }

  /** Iterating one more budget appends that budget's prediction, if any. */
  lemma PredictionsSnoc(cats: seq<Category>, exps: seq<Transaction>, user: UserId, start: Date,
                        daysPassed: int, daysInMonth: int, bs: seq<Budget>, b: Budget)
    requires BudgetRefsValid(cats, bs) && HasCategory(cats, b.category)
    ensures BudgetRefsValid(cats, bs + [b])
    ensures PredictionList(cats, exps, user, start, daysPassed, daysInMonth, bs + [b])
         == PredictionList(cats, exps, user, start, daysPassed, daysInMonth, bs)
            + OptionToSeq(PredictionFor(cats, exps, user, start, daysPassed, daysInMonth, b))
  {
    assert (bs + [b])[..|bs|] == bs;
  }

  /**
   * One step of the prediction loop: with `spent` the spending on budget
   * `bs[i]`'s category, the predictions of the first `i + 1` budgets are those
   * of the first `i` plus a prediction exactly when the projection exceeds the
   * amount and `spent` does not.
   */
  lemma PredictionsStep(cats: seq<Category>, exps: seq<Transaction>, user: UserId, start: Date,
                        daysPassed: int, daysInMonth: int, bs: seq<Budget>, i: int, name: string, spent: Cents)
    requires BudgetRefsValid(cats, bs) && 0 <= i < |bs|
    requires name == BudgetName(cats, bs[i]) && spent == Spent(cats, exps, user, start, Some(name))
    ensures BudgetRefsValid(cats, bs[..i]) && BudgetRefsValid(cats, bs[..i + 1])
    ensures spent * daysInMonth > bs[i].amount * daysPassed && spent <= bs[i].amount ==>
      PredictionList(cats, exps, user, start, daysPassed, daysInMonth, bs[..i + 1])
      == PredictionList(cats, exps, user, start, daysPassed, daysInMonth, bs[..i])
         + [Prediction(name, bs[i].amount, spent, spent * daysInMonth, daysPassed)]
    ensures !(spent * daysInMonth > bs[i].amount * daysPassed && spent <= bs[i].amount) ==>
      PredictionList(cats, exps, user, start, daysPassed, daysInMonth, bs[..i + 1])
      == PredictionList(cats, exps, user, start, daysPassed, daysInMonth, bs[..i])
  {
    assert bs[..i + 1] == bs[..i] + [bs[i]];
    PredictionsSnoc(cats, exps, user, start, daysPassed, daysInMonth, bs[..i], bs[i]);
  }

  /** `predict_overrun` for `today`; fails where the days-in-month arithmetic overflows. */
  function Predictions(cats: seq<Category>, exps: seq<Transaction>, bs: seq<Budget>, user: UserId, today: Date)
    : Result<seq<Prediction>, EngineError>
    requires ValidDate(today) && BudgetRefsValid(cats, bs)
  {
    var start := MonthStart(today);
    match DaysToNextMonth(start)
    case None => Failure(DateOverflow)
    case Some(daysInMonth) =>
      Success(PredictionList(cats, exps, user, start, DaysPassed(today), daysInMonth, CurrentBudgets(bs, user, start)))
  }

  /** A prediction is in the list exactly when some budget in the list yields it. */
  lemma {:induction false} PredictionsMembers(cats: seq<Category>, exps: seq<Transaction>, user: UserId, start: Date,
                                              daysPassed: int, daysInMonth: int, bs: seq<Budget>, p: Prediction)
    requires BudgetRefsValid(cats, bs)
    ensures p in PredictionList(cats, exps, user, start, daysPassed, daysInMonth, bs)
       <==> exists b :: b in bs && HasCategory(cats, b.category)
              && PredictionFor(cats, exps, user, start, daysPassed, daysInMonth, b) == Some(p)
  {
    if bs != [] {
      var prefix := bs[..|bs| - 1];
      var b := bs[|bs| - 1];
      assert bs == prefix + [b];
      PredictionsMembers(cats, exps, user, start, daysPassed, daysInMonth, prefix, p);
    }
  }

  /**
   * Outside December 9999, the month used for predictions has its Gregorian
   * length, `1 <= daysPassed <= daysInMonth`, and so a non-negative spent
   * projects to at least itself (a negative one to at most itself).
   */
  lemma ProjectionBounds(today: Date, spent: Cents)
    requires ValidDate(today) && !(today.year == MaxYear && today.month == 12)
    ensures DaysToNextMonth(MonthStart(today)) == Some(DaysInMonth(today.year, today.month))
    ensures 1 <= DaysPassed(today) <= DaysInMonth(today.year, today.month)
    ensures spent >= 0 ==> spent * DaysInMonth(today.year, today.month) >= spent * DaysPassed(today)
    ensures spent <= 0 ==> spent * DaysInMonth(today.year, today.month) <= spent * DaysPassed(today)
  {
    var start := MonthStart(today);
    DaysToNextMonthIsGregorian(start);
    assert start.year == today.year && start.month == today.month && start.day == 1;
    ScaleByDays(spent, DaysPassed(today), DaysInMonth(today.year, today.month));
  }

  /** Scaling by more days moves a non-negative amount up and a non-positive one down. */
  lemma ScaleByDays(spent: int, d: int, n: int)
    requires 1 <= d <= n
    ensures spent >= 0 ==> spent * n >= spent * d
    ensures spent <= 0 ==> spent * n <= spent * d
  {
    assert spent * n - spent * d == spent * (n - d);
  }

  /**
   * One budget never yields both an alert and a prediction: the alert
   * needs spent above the budget, the prediction spent at most the budget.
   */
  lemma NoBudgetAlertsAndPredicts(cats: seq<Category>, exps: seq<Transaction>, user: UserId, start: Date,
                                  daysPassed: int, daysInMonth: int, b: Budget)
    requires HasCategory(cats, b.category)
    ensures !(AlertFor(cats, exps, user, start, b).Some?
              && PredictionFor(cats, exps, user, start, daysPassed, daysInMonth, b).Some?)
  {
  }

  /** The user's budgets of month `start` use EXPENSE categories of the user's own. */
  predicate OwnExpenseBudgets(cats: seq<Category>, bs: seq<Budget>, user: UserId, start: Date)
  {
    forall b :: b in bs && b.user == user && b.month == start ==>
      HasCategory(cats, b.category) && FindCategory(cats, b.category).value.user == user
      && FindCategory(cats, b.category).value.kind == EXPENSE
  }

  /**
   * With valid tables and this month's budgets on the user's own EXPENSE
   * categories, no category name is both overspent and predicted to overrun.
   */
  lemma OverspendingPredictionsDisjoint(cats: seq<Category>, incs: seq<Transaction>, exps: seq<Transaction>,
                                        bs: seq<Budget>, user: UserId, today: Date)
    requires TablesValid(cats, incs, exps, bs) && ValidDate(today)
    requires OwnExpenseBudgets(cats, bs, user, MonthStart(today))
    requires Predictions(cats, exps, bs, user, today).Success?
    ensures forall a, p ::
      (a in Overspending(cats, exps, bs, user, MonthStart(today)) && p in Predictions(cats, exps, bs, user, today).value)
      ==> a.category != p.category
  {
    var start := MonthStart(today);
    var dim := DaysToNextMonth(start).value;
    var dp := DaysPassed(today);
    var cur := CurrentBudgets(bs, user, start);
    forall a, p | a in Overspending(cats, exps, bs, user, start) && p in Predictions(cats, exps, bs, user, today).value
      ensures a.category != p.category
    {
      AlertsMembers(cats, exps, user, start, cur, a);
      PredictionsMembers(cats, exps, user, start, dp, dim, cur, p);
      var b1 :| b1 in cur && HasCategory(cats, b1.category) && AlertFor(cats, exps, user, start, b1) == Some(a);
      var b2 :| b2 in cur && HasCategory(cats, b2.category) && PredictionFor(cats, exps, user, start, dp, dim, b2) == Some(p);
      if a.category == p.category {
        var c1, c2 := FindCategory(cats, b1.category).value, FindCategory(cats, b2.category).value;
        CategoryNamesUnique(cats, c1, c2);
        BudgetKeysUnique(cats, bs, b1, b2);
        NoBudgetAlertsAndPredicts(cats, exps, user, start, dp, dim, b1);
      }
    }
  }

  // A category name both overspent and predicted to overrun. User 1 budgets
  // 99.99 on their own "Food" category and 100.00 on user 2's "Food"
  // category, both for June 2024, and spent 100.00 on their own "Food" by
  // 10 June. The tables are valid and the type choices hold.

  function ExampleCategories(): seq<Category>
  {
    [Category(1, 1, "Food", EXPENSE), Category(2, 2, "Food", EXPENSE)]
  }

  function ExampleExpenses(): seq<Transaction>
  {
    [Transaction(1, 1, 10000, Some(1), Date(2024, 6, 5), "")]
  }

  function ExampleBudgets(): seq<Budget>
  {
    [Budget(1, 1, 1, 9999, Date(2024, 6, 1)), Budget(2, 1, 2, 10000, Date(2024, 6, 1))]
  }

  /** The example's categories: ids 1 and 2, and two distinct (user, name, type) keys. */
  lemma ExampleCategoriesValid()
    ensures CategoriesValid(ExampleCategories())
    ensures FindCategory(ExampleCategories(), 1) == Some(Category(1, 1, "Food", EXPENSE))
    ensures FindCategory(ExampleCategories(), 2) == Some(Category(2, 2, "Food", EXPENSE))
  {
    var cats := ExampleCategories();
    forall i, j | 0 <= i < 2 && 0 <= j < 2 && CategoryId(cats[i]) == CategoryId(cats[j]) ensures i == j { }
    forall i, j | 0 <= i < 2 && 0 <= j < 2 && CategoryKey(cats[i]) == CategoryKey(cats[j]) ensures i == j { }
  }

  /** The example's budgets: ids 1 and 2, distinct keys, existing categories. */
  lemma ExampleBudgetsValid()
    ensures BudgetsValid(ExampleCategories(), ExampleBudgets())
    ensures BudgetRefsValid(ExampleCategories(), ExampleBudgets())
  {
    var bs := ExampleBudgets();
    ExampleCategoriesValid();
    forall i, j | 0 <= i < 2 && 0 <= j < 2 && BudgetId(bs[i]) == BudgetId(bs[j]) ensures i == j { }
    forall i, j | 0 <= i < 2 && 0 <= j < 2 && BudgetKey(bs[i]) == BudgetKey(bs[j]) ensures i == j { }
  }

  /** The example's tables are valid, keep the type choices, and put a budget on another user's category. */
  lemma ExampleTablesValid()
    ensures TablesValid(ExampleCategories(), [], ExampleExpenses(), ExampleBudgets())
    ensures ChoicesRespected(ExampleCategories(), [], ExampleExpenses(), ExampleBudgets())
    ensures BudgetRefsValid(ExampleCategories(), ExampleBudgets())
    ensures !OwnExpenseBudgets(ExampleCategories(), ExampleBudgets(), 1, Date(2024, 6, 1))
  {
    ExampleCategoriesValid();
    ExampleBudgetsValid();
    assert ExampleBudgets()[1] in ExampleBudgets();
  }

  /** In the example, 100.00 was spent on "Food" in June 2024. */
  lemma ExampleSpent()
    ensures Spent(ExampleCategories(), ExampleExpenses(), 1, Date(2024, 6, 1), Some("Food")) == 10000
  {
    var cats, exps := ExampleCategories(), ExampleExpenses();
    assert FindCategory(cats, 1) == Some(cats[0]);
    assert exps[..0] == [];
    assert CountsToward(cats, exps[0], 1, Date(2024, 6, 1), Some("Food"));
  }

  /** Both example budgets are user 1's budgets for June 2024, and both are on a "Food" category. */
  lemma ExampleSelection()
    ensures BudgetRefsValid(ExampleCategories(), ExampleBudgets())
    ensures CurrentBudgets(ExampleBudgets(), 1, Date(2024, 6, 1)) == ExampleBudgets()
    ensures HasCategory(ExampleCategories(), ExampleBudgets()[0].category)
    ensures HasCategory(ExampleCategories(), ExampleBudgets()[1].category)
    ensures BudgetName(ExampleCategories(), ExampleBudgets()[0]) == "Food"
    ensures BudgetName(ExampleCategories(), ExampleBudgets()[1]) == "Food"
  {
    var bs := ExampleBudgets();
    ExampleCategoriesValid();
    ExampleBudgetsValid();
    assert bs[..1] == [bs[0]] && [bs[0]][..0] == [];
  }

  /** The example's first budget yields an alert of 0.01; the second, spent exactly, yields none. */
  lemma ExampleAlertFor()
    ensures HasCategory(ExampleCategories(), ExampleBudgets()[0].category)
    ensures HasCategory(ExampleCategories(), ExampleBudgets()[1].category)
    ensures AlertFor(ExampleCategories(), ExampleExpenses(), 1, Date(2024, 6, 1), ExampleBudgets()[0])
         == Some(Alert("Food", 9999, 10000, 1))
    ensures AlertFor(ExampleCategories(), ExampleExpenses(), 1, Date(2024, 6, 1), ExampleBudgets()[1]).None?
  {
    ExampleSelection();
    ExampleSpent();
  }

  /** On 10 June 2024 the example's first budget is overspent by 0.01. */
  lemma ExampleAlerts()
    ensures BudgetRefsValid(ExampleCategories(), ExampleBudgets())
    ensures Overspending(ExampleCategories(), ExampleExpenses(), ExampleBudgets(), 1, Date(2024, 6, 1))
         == [Alert("Food", 9999, 10000, 1)]
  {
    var cats, exps, bs := ExampleCategories(), ExampleExpenses(), ExampleBudgets();
    var start := Date(2024, 6, 1);
    ExampleSelection();
    ExampleAlertFor();
    assert bs == [bs[0]] + [bs[1]];
    assert [] + [bs[0]] == [bs[0]];
    AlertsSnoc(cats, exps, 1, start, [], bs[0]);
    assert Alerts(cats, exps, 1, start, [bs[0]]) == [Alert("Food", 9999, 10000, 1)];
    AlertsSnoc(cats, exps, 1, start, [bs[0]], bs[1]);
  }

  /** On 10 June 2024 the example's second budget is projected to reach 300.00 in the 30 days of June. */
  lemma ExamplePredictions()
    ensures BudgetRefsValid(ExampleCategories(), ExampleBudgets())
    ensures Predictions(ExampleCategories(), ExampleExpenses(), ExampleBudgets(), 1, Date(2024, 6, 10))
         == Success([Prediction("Food", 10000, 10000, 300000, 10)])
  {
    var cats, exps, bs := ExampleCategories(), ExampleExpenses(), ExampleBudgets();
    var start, today := Date(2024, 6, 1), Date(2024, 6, 10);
    ExampleSelection();
    ExampleSpent();
    assert MonthStart(today) == start;
    DaysToNextMonthIsGregorian(start);
    assert DaysToNextMonth(start) == Some(30);
    assert DaysPassed(today) == 10;
    assert bs == [bs[0]] + [bs[1]];
    assert [] + [bs[0]] == [bs[0]];
    assert PredictionFor(cats, exps, 1, start, 10, 30, bs[0]) == None;
    assert PredictionFor(cats, exps, 1, start, 10, 30, bs[1]) == Some(Prediction("Food", 10000, 10000, 300000, 10));
    PredictionsSnoc(cats, exps, 1, start, 10, 30, [], bs[0]);
    PredictionsSnoc(cats, exps, 1, start, 10, 30, [bs[0]], bs[1]);
    assert PredictionList(cats, exps, 1, start, 10, 30, bs) == [Prediction("Food", 10000, 10000, 300000, 10)];
  }

  /**
   * Without `OwnExpenseBudgets`, valid tables that keep the type choices can
   * still list one category name both as overspent and as predicted to overrun.
   */
  lemma SharedNameOverlap()
    ensures TablesValid(ExampleCategories(), [], ExampleExpenses(), ExampleBudgets())
    ensures ChoicesRespected(ExampleCategories(), [], ExampleExpenses(), ExampleBudgets())
    ensures !OwnExpenseBudgets(ExampleCategories(), ExampleBudgets(), 1, MonthStart(Date(2024, 6, 10)))
    ensures Predictions(ExampleCategories(), ExampleExpenses(), ExampleBudgets(), 1, Date(2024, 6, 10)).Success?
    ensures exists a, p ::
      && a in Overspending(ExampleCategories(), ExampleExpenses(), ExampleBudgets(), 1, MonthStart(Date(2024, 6, 10)))
      && p in Predictions(ExampleCategories(), ExampleExpenses(), ExampleBudgets(), 1, Date(2024, 6, 10)).value
      && a.category == p.category
  {
    ExampleTablesValid();
    ExampleAlerts();
    ExamplePredictions();
    var a, p := Alert("Food", 9999, 10000, 1), Prediction("Food", 10000, 10000, 300000, 10);
    assert MonthStart(Date(2024, 6, 10)) == Date(2024, 6, 1);
    assert a in [a] && p in [p];
  }

  /**
   * A budget of another user, or whose month is not the first of this month,
   * changes neither list, wherever it stands in the Budget table.
   */
  lemma OtherBudgetIgnored(cats: seq<Category>, exps: seq<Transaction>, bs1: seq<Budget>, b: Budget, bs2: seq<Budget>,
                           user: UserId, today: Date)
    requires ValidDate(today) && BudgetRefsValid(cats, bs1) && BudgetRefsValid(cats, bs2) && HasCategory(cats, b.category)
    requires b.user != user || b.month != MonthStart(today)
    ensures BudgetRefsValid(cats, bs1 + bs2) && BudgetRefsValid(cats, bs1 + [b] + bs2)
    ensures Overspending(cats, exps, bs1 + [b] + bs2, user, MonthStart(today))
         == Overspending(cats, exps, bs1 + bs2, user, MonthStart(today))
    ensures Predictions(cats, exps, bs1 + [b] + bs2, user, today) == Predictions(cats, exps, bs1 + bs2, user, today)
  {
    RefsAppend(cats, bs1, bs2);
    assert BudgetRefsValid(cats, [b]);
    RefsAppend(cats, bs1, [b]);
    RefsAppend(cats, bs1 + [b], bs2);
    SkipUnselected(bs1, b, bs2, user, MonthStart(today));
  }

  /** `get_insights`: both lists, or the error `predict_overrun` raises. */
  function InsightsFor(cats: seq<Category>, exps: seq<Transaction>, bs: seq<Budget>, user: UserId, today: Date)
    : Result<Insights, EngineError>
    requires ValidDate(today) && BudgetRefsValid(cats, bs)
  {
    match Predictions(cats, exps, bs, user, today)
    case Failure(e) => Failure(e)
    case Success(ps) => Success(Insights(Overspending(cats, exps, bs, user, MonthStart(today)), ps))
  }

  /**
   * The loop of `detect_overspending` over this month's budgets: for each,
   * look its category's name up in the spending map (0 when absent) and alert
   * when spent is strictly above the amount.
   */
  method CollectAlerts(cats: seq<Category>, exps: seq<Transaction>, user: UserId, start: Date,
                       budgets: seq<Budget>, spendingMap: map<Option<string>, Cents>) returns (alerts: seq<Alert>)
    requires BudgetRefsValid(cats, budgets)
    requires forall k :: Get(spendingMap, k) == Spent(cats, exps, user, start, k)
    ensures alerts == Alerts(cats, exps, user, start, budgets)
  {
    alerts := [];
    var i := 0;
    while i < |budgets|
      invariant 0 <= i <= |budgets|
      invariant BudgetRefsValid(cats, budgets[..i])
      invariant alerts == Alerts(cats, exps, user, start, budgets[..i])
    {
      var budget := budgets[i];
      var categoryName := BudgetName(cats, budget);
      var spent := Get(spendingMap, Some(categoryName));
      AlertsStep(cats, exps, user, start, budgets, i, categoryName, spent);
      if spent > budget.amount {
        alerts := alerts + [Alert(categoryName, budget.amount, spent, spent - budget.amount)];
      }
      i := i + 1;
    }
    assert budgets[..i] == budgets;
  }

  /**
   * The loop of `predict_overrun` over this month's budgets: for each, look
   * its category's name up in the spending map (0 when absent) and predict an
   * overrun when the projection exceeds the amount while spent does not
   * (`daysPassed >= 1` as for `PredictionFor`).
   */
  method CollectPredictions(cats: seq<Category>, exps: seq<Transaction>, user: UserId, start: Date,
                            daysPassed: int, daysInMonth: int,
                            budgets: seq<Budget>, spendingMap: map<Option<string>, Cents>)
    returns (predictions: seq<Prediction>)
    requires BudgetRefsValid(cats, budgets)
    requires forall k :: Get(spendingMap, k) == Spent(cats, exps, user, start, k)
    ensures predictions == PredictionList(cats, exps, user, start, daysPassed, daysInMonth, budgets)
  {
    predictions := [];
    var i := 0;
    while i < |budgets|
      invariant 0 <= i <= |budgets|
      invariant BudgetRefsValid(cats, budgets[..i])
      invariant predictions == PredictionList(cats, exps, user, start, daysPassed, daysInMonth, budgets[..i])
    {
      var budget := budgets[i];
      var categoryName := BudgetName(cats, budget);
      var spent := Get(spendingMap, Some(categoryName));
      PredictionsStep(cats, exps, user, start, daysPassed, daysInMonth, budgets, i, categoryName, spent);
      if spent * daysInMonth > budget.amount * daysPassed && spent <= budget.amount {
        predictions := predictions + [Prediction(categoryName, budget.amount, spent, spent * daysInMonth, daysPassed)];
      }
      i := i + 1;
    }
    assert budgets[..i] == budgets;
  }

  // ---------------------------------------------------------------------
  // The engine object
  // ---------------------------------------------------------------------

  /** `FinanceIntelligence(user)` with the clock reading passed in as `today`. */
  class FinanceIntelligence {
    const user: UserId
    const today: Date
    const currentMonthStart: Date

    predicate Valid()
    {
      ValidDate(today) && currentMonthStart == MonthStart(today)
    }

    constructor (user: UserId, today: Date)
      requires ValidDate(today)
      ensures Valid() && this.user == user && this.today == today
      ensures currentMonthStart.year == today.year && currentMonthStart.month == today.month
      ensures currentMonthStart.day == 1
    {
      this.user := user;
      this.today := today;
      this.currentMonthStart := ReplaceDay(today, 1);
    }

    /**
     * `get_monthly_spending`: one row per category name, each holding what
     * was spent on that name this month, and rows for exactly the names spent on.
     */
    method GetMonthlySpending(store: Store) returns (rows: seq<SpendingRow>)
      requires Valid()
      ensures NamesDistinct(rows)
      ensures forall p :: 0 <= p < |rows| ==>
        rows[p].total == Spent(store.categories, store.expenses, user, currentMonthStart, rows[p].name)
      ensures forall k :: HasRow(rows, k) <==> AnySpending(store.categories, store.expenses, user, currentMonthStart, k)
    {
      rows := MonthlySpending(store.categories, store.expenses, user, currentMonthStart);
    }

    /**
     * Lines building `spending_map` from `get_monthly_spending()`: a key
     * for exactly the category names spent on this month, and `get(name, 0)`
     * gives what was spent on `name`.
     */
    method SpendingMap(store: Store) returns (m: map<Option<string>, Cents>)
      requires Valid()
      ensures forall k :: k in m <==> AnySpending(store.categories, store.expenses, user, currentMonthStart, k)
      ensures forall k :: Get(m, k) == Spent(store.categories, store.expenses, user, currentMonthStart, k)
    {
      var rows := GetMonthlySpending(store);
      m := BuildSpendingMap(rows);
      forall k ensures Get(m, k) == Spent(store.categories, store.expenses, user, currentMonthStart, k) {
        MapLookupIsSpent(store.categories, store.expenses, user, currentMonthStart, rows, m, k);
      }
    }

    /** `detect_overspending`. */
    method DetectOverspending(store: Store) returns (alerts: seq<Alert>)
      requires Valid() && BudgetRefsValid(store.categories, store.budgets)
      ensures alerts == Overspending(store.categories, store.expenses, store.budgets, user, currentMonthStart)
    {
      var budgets := CurrentBudgets(store.budgets, user, currentMonthStart);
      var spendingMap := SpendingMap(store);
      CurrentBudgetsRefs(store.categories, store.budgets, user, currentMonthStart);
      alerts := CollectAlerts(store.categories, store.expenses, user, currentMonthStart, budgets, spendingMap);
    }

    /**
     * Lines computing `days_in_month`: the Gregorian length of this month,
     * or None in December 9999, where adding four days to the 28th overflows.
     */
    method DaysInCurrentMonth() returns (n: Option<int>)
      requires Valid()
      ensures n == DaysToNextMonth(currentMonthStart)
      ensures n == if today.year == MaxYear && today.month == 12 then None else Some(DaysInMonth(today.year, today.month))
    {
      var nextMonth := AddDays(ReplaceDay(currentMonthStart, 28), 4);
      DaysToNextMonthIsGregorian(currentMonthStart);
      if nextMonth.None? {
        return None;
      }
      n := Some(Ordinal(ReplaceDay(nextMonth.value, 1)) - Ordinal(currentMonthStart));
    }

    /** `predict_overrun`. */
    method PredictOverrun(store: Store) returns (r: Result<seq<Prediction>, EngineError>)
      requires Valid() && BudgetRefsValid(store.categories, store.budgets)
      ensures r == Predictions(store.categories, store.expenses, store.budgets, user, today)
    {
      var budgets := CurrentBudgets(store.budgets, user, currentMonthStart);
      var spendingMap := SpendingMap(store);
      var daysPassed := today.day;
      daysPassed := if daysPassed > 1 then daysPassed else 1;
      var days := DaysInCurrentMonth();
      if days.None? {
        return Failure(DateOverflow);
      }
      var daysInMonth := days.value;
      CurrentBudgetsRefs(store.categories, store.budgets, user, currentMonthStart);
      var predictions := CollectPredictions(store.categories, store.expenses, user, currentMonthStart,
                                            daysPassed, daysInMonth, budgets, spendingMap);
      r := Success(predictions);
    }

    /** `get_insights`: the overspending list and the predictions list, reading the store only. */
    method GetInsights(store: Store) returns (r: Result<Insights, EngineError>)
      requires Valid() && BudgetRefsValid(store.categories, store.budgets)
      ensures r == InsightsFor(store.categories, store.expenses, store.budgets, user, today)
    {
      var overspending := DetectOverspending(store);
      var predictions := PredictOverrun(store);
      match predictions
      case Failure(e) => r := Failure(e);
      case Success(ps) => r := Success(Insights(overspending, ps));
    }
  }
}
