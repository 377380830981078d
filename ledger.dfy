/**
 * The four ledger tables: Category, Income, Expense and Budget. Amounts are
 * integer cents. The store keeps the tables' keys unique and their foreign
 * keys intact. Deleting a category sets the category of incomes and
 * expenses to null and deletes the budgets that use it.
 */
module Ledger {
  import opened Wrappers
  import opened Calendar

  type Id = nat
  type UserId = nat

  /** An amount in cents; `DecimalField(max_digits=10, decimal_places=2)`. */
  type Cents = int

  /** Ten digits, two of them after the point: |cents| < 10^10. */
  const AmountLimit: int := 10_000_000_000

  /** `CharField(max_length=255)` of a category's name. */
  const NameMaxLength: int := 255

  /** The two `CATEGORY_TYPES` choices. */
  datatype CategoryType = INCOME | EXPENSE

  datatype Category = Category(id: Id, user: UserId, name: string, kind: CategoryType)

  /** A row of the Income table or of the Expense table; both have this shape. */
  datatype Transaction = Transaction(
    id: Id, user: UserId, amount: Cents, category: Option<Id>, date: Date, description: string)

  datatype Budget = Budget(id: Id, user: UserId, category: Id, amount: Cents, month: Date)

  datatype StoreError =
    | ValidationError  // a field value the field does not accept
    | IntegrityError   // a unique key taken, or a reference to a missing category

  predicate ValidAmount(a: Cents)
  {
    -AmountLimit < a < AmountLimit
  }

  predicate ValidName(name: string)
  {
    |name| <= NameMaxLength
  }

  function CategoryId(c: Category): Id { c.id }
  function CategoryKey(c: Category): (UserId, string, CategoryType) { (c.user, c.name, c.kind) }
  function TransactionId(t: Transaction): Id { t.id }
  function BudgetId(b: Budget): Id { b.id }
  function BudgetKey(b: Budget): (UserId, Id, Date) { (b.user, b.category, b.month) }

  /** The category with primary key `id`, if there is one. */
  function FindCategory(cats: seq<Category>, id: Id): (r: Option<Category>)
    ensures r.Some? ==> r.value in cats && r.value.id == id
    ensures r.None? <==> forall c :: c in cats ==> c.id != id
  {
    if cats == [] then None
    else if cats[0].id == id then Some(cats[0])
    else FindCategory(cats[1..], id)
  }

  predicate HasCategory(cats: seq<Category>, id: Id)
  {
    FindCategory(cats, id).Some?
  }

  /** `category__name` through a nullable reference: None for a null category. */
  function CategoryName(cats: seq<Category>, ref: Option<Id>): (r: Option<string>)
    ensures r.Some? <==> ref.Some? && HasCategory(cats, ref.value)
    ensures r.Some? ==> r.value == FindCategory(cats, ref.value).value.name
  {
    match ref
    case None => None
    case Some(id) =>
      match FindCategory(cats, id)
      case None => None
      case Some(c) => Some(c.name)
  }

  predicate CategoryKeyTaken(cats: seq<Category>, user: UserId, name: string, kind: CategoryType)
  {
    exists c :: c in cats && CategoryKey(c) == (user, name, kind)
  }

  predicate BudgetKeyTaken(bs: seq<Budget>, user: UserId, category: Id, month: Date)
  {
    exists b :: b in bs && BudgetKey(b) == (user, category, month)
  }

  predicate CategoriesValid(cats: seq<Category>)
  {
    && DistinctBy(cats, CategoryId)
    && DistinctBy(cats, CategoryKey)
    && forall c :: c in cats ==> ValidName(c.name)
  }

  /** Field limits of Income and Expense rows, and their nullable foreign key. */
  predicate TransactionsValid(cats: seq<Category>, ts: seq<Transaction>)
  {
    && DistinctBy(ts, TransactionId)
    && forall t :: t in ts ==>
         ValidAmount(t.amount) && ValidDate(t.date)
         && (t.category.Some? ==> HasCategory(cats, t.category.value))
  }

  predicate BudgetsValid(cats: seq<Category>, bs: seq<Budget>)
  {
    && DistinctBy(bs, BudgetId)
    && DistinctBy(bs, BudgetKey)
    && forall b :: b in bs ==>
         ValidAmount(b.amount) && ValidDate(b.month) && HasCategory(cats, b.category)
  }

  predicate TablesValid(cats: seq<Category>, incs: seq<Transaction>, exps: seq<Transaction>, bs: seq<Budget>)
  {
    CategoriesValid(cats) && TransactionsValid(cats, incs) && TransactionsValid(cats, exps)
    && BudgetsValid(cats, bs)
  }

  /** `ref` is null or names a category of kind `kind`. */
  predicate RefersToKind(cats: seq<Category>, ref: Option<Id>, kind: CategoryType)
  {
    ref.None? || (HasCategory(cats, ref.value) && FindCategory(cats, ref.value).value.kind == kind)
  }

  /**
   * The `limit_choices_to` restrictions: incomes use INCOME categories,
   * expenses and budgets EXPENSE categories. The store does not enforce them.
   */
  predicate ChoicesRespected(cats: seq<Category>, incs: seq<Transaction>, exps: seq<Transaction>, bs: seq<Budget>)
  {
    && (forall t :: t in incs ==> RefersToKind(cats, t.category, INCOME))
    && (forall t :: t in exps ==> RefersToKind(cats, t.category, EXPENSE))
    && (forall b :: b in bs ==> RefersToKind(cats, Some(b.category), EXPENSE))
  }

  /** The Category table once category `id` is deleted. */
  function WithoutCategory(cats: seq<Category>, id: Id): (r: seq<Category>)
    ensures forall c :: c in r <==> c in cats && c.id != id
  {
    Filter(cats, (c: Category) => c.id != id)
  }

  /** `on_delete=SET_NULL`: rows that referred to category `id` now refer to none. */
  function ClearCategory(ts: seq<Transaction>, id: Id): (r: seq<Transaction>)
    ensures |r| == |ts|
    ensures forall i :: 0 <= i < |ts| ==> r[i] == ts[i].(category := r[i].category)
    ensures forall i :: 0 <= i < |ts| ==> ts[i].category == Some(id) ==> r[i].category == None
    ensures forall i :: 0 <= i < |ts| ==> ts[i].category != Some(id) ==> r[i] == ts[i]
  {
    if ts == [] then []
    else
      var t := if ts[0].category == Some(id) then ts[0].(category := None) else ts[0];
      [t] + ClearCategory(ts[1..], id)
  }

  /** `on_delete=CASCADE`: the Budget table without the budgets of category `id`, in order. */
  function RemoveBudgetsOf(bs: seq<Budget>, id: Id): (r: seq<Budget>)
    ensures forall b :: b in r <==> b in bs && b.category != id
  {
    Filter(bs, (b: Budget) => b.category != id)
  }

  function WithoutTransaction(ts: seq<Transaction>, id: Id): (r: seq<Transaction>)
    ensures forall t :: t in r <==> t in ts && t.id != id
  {
    Filter(ts, (t: Transaction) => t.id != id)
  }

  function WithoutBudget(bs: seq<Budget>, id: Id): (r: seq<Budget>)
    ensures forall b :: b in r <==> b in bs && b.id != id
  {
    Filter(bs, (b: Budget) => b.id != id)
  }

  /** The error an Income or Expense insert fails with, if any. */
  function TransactionError(cats: seq<Category>, amount: Cents, category: Option<Id>): (r: Option<StoreError>)
    ensures r.None? <==> ValidAmount(amount) && (category.Some? ==> HasCategory(cats, category.value))
  {
    if !ValidAmount(amount) then Some(ValidationError)
    else if category.Some? && !HasCategory(cats, category.value) then Some(IntegrityError)
    else None
  }

  /** The error a Budget insert fails with, if any. */
  function BudgetError(cats: seq<Category>, bs: seq<Budget>, user: UserId, category: Id, amount: Cents, month: Date)
    : (r: Option<StoreError>)
    ensures r.None? <==> ValidAmount(amount) && HasCategory(cats, category) && !BudgetKeyTaken(bs, user, category, month)
  {
    if !ValidAmount(amount) then Some(ValidationError)
    else if !HasCategory(cats, category) || BudgetKeyTaken(bs, user, category, month) then Some(IntegrityError)
    else None
  }

  /** With unique primary keys, the category found for `id` is the only one with that key. */
  lemma FindUnique(cats: seq<Category>, c: Category)
    requires DistinctBy(cats, CategoryId) && c in cats
    ensures FindCategory(cats, c.id) == Some(c)
  {
    var f := FindCategory(cats, c.id).value;
    var i :| 0 <= i < |cats| && cats[i] == c;
    var j :| 0 <= j < |cats| && cats[j] == f;
    assert CategoryId(cats[i]) == CategoryId(cats[j]);
  }

  /**
   * Because (user, name, type) is unique, two categories of one user with
   * the same type and name are the same category; in particular a user's
   * EXPENSE category names are unique.
   */
  lemma CategoryNamesUnique(cats: seq<Category>, c1: Category, c2: Category)
    requires CategoriesValid(cats) && c1 in cats && c2 in cats
    requires c1.user == c2.user && c1.kind == c2.kind && c1.name == c2.name
    ensures c1 == c2
  {
    var i :| 0 <= i < |cats| && cats[i] == c1;
    var j :| 0 <= j < |cats| && cats[j] == c2;
    assert CategoryKey(cats[i]) == CategoryKey(cats[j]);
  }

  /** Same for budgets: one user has at most one budget per category and month. */
  lemma BudgetKeysUnique(cats: seq<Category>, bs: seq<Budget>, b1: Budget, b2: Budget)
    requires BudgetsValid(cats, bs) && b1 in bs && b2 in bs
    requires b1.user == b2.user && b1.category == b2.category && b1.month == b2.month
    ensures b1 == b2
  {
    var i :| 0 <= i < |bs| && bs[i] == b1;
    var j :| 0 <= j < |bs| && bs[j] == b2;
    assert BudgetKey(bs[i]) == BudgetKey(bs[j]);
  }

  /** Appending a category does not change what an existing key finds. */
  lemma {:induction false} FindAfterAppend(cats: seq<Category>, c: Category, x: Id)
    requires HasCategory(cats, x)
    ensures FindCategory(cats + [c], x) == FindCategory(cats, x)
  {
    if cats[0].id != x {
      assert (cats + [c])[1..] == cats[1..] + [c];
      FindAfterAppend(cats[1..], c, x);
    }
  }

  /** Adding a category keeps the `limit_choices_to` restrictions if they held. */
  lemma AddCategoryKeepsChoices(cats: seq<Category>, incs: seq<Transaction>, exps: seq<Transaction>,
                                bs: seq<Budget>, c: Category)
    ensures ChoicesRespected(cats, incs, exps, bs) ==> ChoicesRespected(cats + [c], incs, exps, bs)
  {
    forall x | HasCategory(cats, x) ensures FindCategory(cats + [c], x) == FindCategory(cats, x) {
      FindAfterAppend(cats, c, x);
    }
  }

  /** Deleting category `id` does not change what any other key finds. */
  lemma FindAfterDelete(cats: seq<Category>, id: Id, x: Id)
    requires DistinctBy(cats, CategoryId) && x != id
    ensures FindCategory(WithoutCategory(cats, id), x) == FindCategory(cats, x)
  {
    var rest := WithoutCategory(cats, id);
    FilterDistinct(cats, (c: Category) => c.id != id, CategoryId);
    if FindCategory(cats, x).Some? {
      var c := FindCategory(cats, x).value;
      FindUnique(rest, c);
    }
  }

  /** The ids and foreign keys left after a transaction row's category is cleared stay valid. */
  lemma ClearKeepsTransactionsValid(cats: seq<Category>, ts: seq<Transaction>, id: Id)
    requires DistinctBy(cats, CategoryId) && TransactionsValid(cats, ts)
    ensures TransactionsValid(WithoutCategory(cats, id), ClearCategory(ts, id))
  {
    var r := ClearCategory(ts, id);
    forall i, j | 0 <= i < |r| && 0 <= j < |r| && TransactionId(r[i]) == TransactionId(r[j])
      ensures i == j
    {
      assert TransactionId(ts[i]) == TransactionId(ts[j]);
    }
    forall t | t in r
      ensures ValidAmount(t.amount) && ValidDate(t.date)
      ensures t.category.Some? ==> HasCategory(WithoutCategory(cats, id), t.category.value)
    {
      var i :| 0 <= i < |r| && r[i] == t;
      assert ts[i] in ts;
      if t.category.Some? {
        FindAfterDelete(cats, id, t.category.value);
      }
    }
  }

  /** Clearing a category reference keeps every row's primary key. */
  lemma ClearKeepsIdsBelow(ts: seq<Transaction>, id: Id, bound: Id)
    requires forall t :: t in ts ==> t.id < bound
    ensures forall t :: t in ClearCategory(ts, id) ==> t.id < bound
  {
    var r := ClearCategory(ts, id);
    forall t | t in r ensures t.id < bound {
      var i :| 0 <= i < |r| && r[i] == t;
      assert ts[i] in ts;
    }
  }

  /** Deleting a category with SET_NULL and CASCADE leaves every table valid. */
  lemma {:induction false} DeleteCategoryKeepsTablesValid(
    cats: seq<Category>, incs: seq<Transaction>, exps: seq<Transaction>, bs: seq<Budget>, id: Id)
    requires TablesValid(cats, incs, exps, bs)
    ensures TablesValid(WithoutCategory(cats, id), ClearCategory(incs, id), ClearCategory(exps, id),
                        RemoveBudgetsOf(bs, id))
  {
    var cats' := WithoutCategory(cats, id);
    FilterDistinct(cats, (c: Category) => c.id != id, CategoryId);
    FilterDistinct(cats, (c: Category) => c.id != id, CategoryKey);
    ClearKeepsTransactionsValid(cats, incs, id);
    ClearKeepsTransactionsValid(cats, exps, id);
    var bs' := RemoveBudgetsOf(bs, id);
    FilterDistinct(bs, (b: Budget) => b.category != id, BudgetId);
    FilterDistinct(bs, (b: Budget) => b.category != id, BudgetKey);
    forall b | b in bs' ensures HasCategory(cats', b.category) {
      FindAfterDelete(cats, id, b.category);
    }
  }

  /** Deleting a category keeps the `limit_choices_to` restrictions if they held. */
  lemma {:induction false} DeleteCategoryKeepsChoices(
    cats: seq<Category>, incs: seq<Transaction>, exps: seq<Transaction>, bs: seq<Budget>, id: Id)
    requires DistinctBy(cats, CategoryId) && ChoicesRespected(cats, incs, exps, bs)
    ensures ChoicesRespected(WithoutCategory(cats, id), ClearCategory(incs, id), ClearCategory(exps, id),
                             RemoveBudgetsOf(bs, id))
  {
    var cats' := WithoutCategory(cats, id);
    forall x | x != id ensures FindCategory(cats', x) == FindCategory(cats, x) {
      FindAfterDelete(cats, id, x);
    }
    var incs', exps' := ClearCategory(incs, id), ClearCategory(exps, id);
    forall t | t in incs' ensures RefersToKind(cats', t.category, INCOME) {
      var i :| 0 <= i < |incs'| && incs'[i] == t;
      assert incs[i] in incs;
    }
    forall t | t in exps' ensures RefersToKind(cats', t.category, EXPENSE) {
      var i :| 0 <= i < |exps'| && exps'[i] == t;
      assert exps[i] in exps;
    }
  }

  /** Valid tables whose primary keys are all below the next value of their counter. */
  predicate StoreInvariant(cats: seq<Category>, incs: seq<Transaction>, exps: seq<Transaction>, bs: seq<Budget>,
                           nextCategoryId: Id, nextIncomeId: Id, nextExpenseId: Id, nextBudgetId: Id)
  {
    && TablesValid(cats, incs, exps, bs)
    && (forall c :: c in cats ==> c.id < nextCategoryId)
    && (forall t :: t in incs ==> t.id < nextIncomeId)
    && (forall t :: t in exps ==> t.id < nextExpenseId)
    && (forall b :: b in bs ==> b.id < nextBudgetId)
  }

  /** Deleting a category keeps the store's invariant, and keeps the type choices when they held. */
  lemma DeleteCategoryKeepsInvariant(cats: seq<Category>, incs: seq<Transaction>, exps: seq<Transaction>,
                                     bs: seq<Budget>, n1: Id, n2: Id, n3: Id, n4: Id, id: Id)
    requires StoreInvariant(cats, incs, exps, bs, n1, n2, n3, n4)
    ensures StoreInvariant(WithoutCategory(cats, id), ClearCategory(incs, id), ClearCategory(exps, id),
                           RemoveBudgetsOf(bs, id), n1, n2, n3, n4)
    ensures ChoicesRespected(cats, incs, exps, bs) ==>
      ChoicesRespected(WithoutCategory(cats, id), ClearCategory(incs, id), ClearCategory(exps, id),
                       RemoveBudgetsOf(bs, id))
  {
    if ChoicesRespected(cats, incs, exps, bs) {
      DeleteCategoryKeepsChoices(cats, incs, exps, bs, id);
    }
    DeleteCategoryKeepsTablesValid(cats, incs, exps, bs, id);
    ClearKeepsIdsBelow(incs, id, n2);
    ClearKeepsIdsBelow(exps, id, n3);
  }

  /** The ledger tables, with the auto-increment counters of their primary keys. */
  class Store {
    var categories: seq<Category>
    var incomes: seq<Transaction>
    var expenses: seq<Transaction>
    var budgets: seq<Budget>
    var nextCategoryId: Id
    var nextIncomeId: Id
    var nextExpenseId: Id
    var nextBudgetId: Id

    ghost predicate Valid()
      reads this
    {
      StoreInvariant(categories, incomes, expenses, budgets,
                     nextCategoryId, nextIncomeId, nextExpenseId, nextBudgetId)
    }

    constructor ()
      ensures Valid()
      ensures categories == [] && incomes == [] && expenses == [] && budgets == []
    {
      categories, incomes, expenses, budgets := [], [], [], [];
      nextCategoryId, nextIncomeId, nextExpenseId, nextBudgetId := 1, 1, 1, 1;
    }

    /** Insert a Category; fails on a name too long or a (user, name, type) already taken. */
    method AddCategory(user: UserId, name: string, kind: CategoryType) returns (r: Result<Id, StoreError>)
      requires Valid()
      modifies this
      ensures Valid()
      ensures r == if !ValidName(name) then Failure(ValidationError)
                   else if CategoryKeyTaken(old(categories), user, name, kind) then Failure(IntegrityError)
                   else Success(old(nextCategoryId))
      ensures categories == if r.Success? then old(categories) + [Category(r.value, user, name, kind)]
                            else old(categories)
      ensures nextCategoryId == if r.Success? then old(nextCategoryId) + 1 else old(nextCategoryId)
      ensures incomes == old(incomes) && expenses == old(expenses) && budgets == old(budgets)
      ensures nextIncomeId == old(nextIncomeId) && nextExpenseId == old(nextExpenseId)
      ensures nextBudgetId == old(nextBudgetId)
      ensures old(ChoicesRespected(categories, incomes, expenses, budgets))
              ==> ChoicesRespected(categories, incomes, expenses, budgets)
    {
      if !ValidName(name) {
        return Failure(ValidationError);
      }
      if CategoryKeyTaken(categories, user, name, kind) {
        return Failure(IntegrityError);
      }
      var c := Category(nextCategoryId, user, name, kind);
      AddCategoryKeepsChoices(categories, incomes, expenses, budgets, c);
      DistinctAppend(categories, c, CategoryId);
      DistinctAppend(categories, c, CategoryKey);
      categories := categories + [c];
      nextCategoryId := nextCategoryId + 1;
      r := Success(c.id);
    }

    /** Insert an Income row; fails on an amount out of range or a missing category. */
    method AddIncome(user: UserId, amount: Cents, category: Option<Id>, date: Date, description: string)
      returns (r: Result<Id, StoreError>)
      requires Valid() && ValidDate(date)
      modifies this
      ensures Valid()
      ensures r == match TransactionError(old(categories), amount, category)
                   case Some(e) => Failure(e)
                   case None => Success(old(nextIncomeId))
      ensures incomes == if r.Success? then old(incomes) + [Transaction(r.value, user, amount, category, date, description)]
                         else old(incomes)
      ensures nextIncomeId == if r.Success? then old(nextIncomeId) + 1 else old(nextIncomeId)
      ensures categories == old(categories) && expenses == old(expenses) && budgets == old(budgets)
      ensures nextCategoryId == old(nextCategoryId) && nextExpenseId == old(nextExpenseId)
      ensures nextBudgetId == old(nextBudgetId)
      ensures old(ChoicesRespected(categories, incomes, expenses, budgets)) && RefersToKind(categories, category, INCOME)
              ==> ChoicesRespected(categories, incomes, expenses, budgets)
    {
      var err := TransactionError(categories, amount, category);
      if err.Some? {
        return Failure(err.value);
      }
      var t := Transaction(nextIncomeId, user, amount, category, date, description);
      DistinctAppend(incomes, t, TransactionId);
      incomes := incomes + [t];
      nextIncomeId := nextIncomeId + 1;
      r := Success(t.id);
    }

    /** Insert an Expense row; fails on an amount out of range or a missing category. */
    method AddExpense(user: UserId, amount: Cents, category: Option<Id>, date: Date, description: string)
      returns (r: Result<Id, StoreError>)
      requires Valid() && ValidDate(date)
      modifies this
      ensures Valid()
      ensures r == match TransactionError(old(categories), amount, category)
                   case Some(e) => Failure(e)
                   case None => Success(old(nextExpenseId))
      ensures expenses == if r.Success? then old(expenses) + [Transaction(r.value, user, amount, category, date, description)]
                          else old(expenses)
      ensures nextExpenseId == if r.Success? then old(nextExpenseId) + 1 else old(nextExpenseId)
      ensures categories == old(categories) && incomes == old(incomes) && budgets == old(budgets)
      ensures nextCategoryId == old(nextCategoryId) && nextIncomeId == old(nextIncomeId)
      ensures nextBudgetId == old(nextBudgetId)
      ensures old(ChoicesRespected(categories, incomes, expenses, budgets)) && RefersToKind(categories, category, EXPENSE)
              ==> ChoicesRespected(categories, incomes, expenses, budgets)
    {
      var err := TransactionError(categories, amount, category);
      if err.Some? {
        return Failure(err.value);
      }
      var t := Transaction(nextExpenseId, user, amount, category, date, description);
      DistinctAppend(expenses, t, TransactionId);
      expenses := expenses + [t];
      nextExpenseId := nextExpenseId + 1;
      r := Success(t.id);
    }

    /**
     * Insert a Budget; fails on an amount out of range, a missing category or
     * a (user, category, month) already taken. The month is stored as given.
     */
    method AddBudget(user: UserId, category: Id, amount: Cents, month: Date) returns (r: Result<Id, StoreError>)
      requires Valid() && ValidDate(month)
      modifies this
      ensures Valid()
      ensures r == match BudgetError(old(categories), old(budgets), user, category, amount, month)
                   case Some(e) => Failure(e)
                   case None => Success(old(nextBudgetId))
      ensures budgets == if r.Success? then old(budgets) + [Budget(r.value, user, category, amount, month)]
                         else old(budgets)
      ensures nextBudgetId == if r.Success? then old(nextBudgetId) + 1 else old(nextBudgetId)
      ensures categories == old(categories) && incomes == old(incomes) && expenses == old(expenses)
      ensures nextCategoryId == old(nextCategoryId) && nextIncomeId == old(nextIncomeId)
      ensures nextExpenseId == old(nextExpenseId)
      ensures old(ChoicesRespected(categories, incomes, expenses, budgets)) && RefersToKind(categories, Some(category), EXPENSE)
              ==> ChoicesRespected(categories, incomes, expenses, budgets)
    {
      var err := BudgetError(categories, budgets, user, category, amount, month);
      if err.Some? {
        return Failure(err.value);
      }
      var b := Budget(nextBudgetId, user, category, amount, month);
      DistinctAppend(budgets, b, BudgetId);
      DistinctAppend(budgets, b, BudgetKey);
      budgets := budgets + [b];
      nextBudgetId := nextBudgetId + 1;
      r := Success(b.id);
    }

    /**
     * Delete category `id`: incomes and expenses that referred to it keep
     * every other field and refer to no category; its budgets are deleted;
     * every other row is kept. Deleting a missing id changes nothing.
     */
    method DeleteCategory(id: Id)
      requires Valid()
      modifies this
      ensures Valid()
      ensures categories == WithoutCategory(old(categories), id)
      ensures incomes == ClearCategory(old(incomes), id)
      ensures expenses == ClearCategory(old(expenses), id)
      ensures budgets == RemoveBudgetsOf(old(budgets), id)
      ensures nextCategoryId == old(nextCategoryId) && nextIncomeId == old(nextIncomeId)
      ensures nextExpenseId == old(nextExpenseId) && nextBudgetId == old(nextBudgetId)
      ensures old(ChoicesRespected(categories, incomes, expenses, budgets))
              ==> ChoicesRespected(categories, incomes, expenses, budgets)
    {
      var cats, incs, exps, bs := categories, incomes, expenses, budgets;
      categories, incomes, expenses, budgets :=
        WithoutCategory(cats, id), ClearCategory(incs, id), ClearCategory(exps, id), RemoveBudgetsOf(bs, id);
      DeleteCategoryKeepsInvariant(cats, incs, exps, bs,
                                   nextCategoryId, nextIncomeId, nextExpenseId, nextBudgetId, id);
    }

    /** Delete Income row `id`; nothing refers to incomes. */
    method DeleteIncome(id: Id)
      requires Valid()
      modifies this
      ensures Valid()
      ensures incomes == WithoutTransaction(old(incomes), id)
      ensures categories == old(categories) && expenses == old(expenses) && budgets == old(budgets)
      ensures nextCategoryId == old(nextCategoryId) && nextIncomeId == old(nextIncomeId)
      ensures nextExpenseId == old(nextExpenseId) && nextBudgetId == old(nextBudgetId)
      ensures old(ChoicesRespected(categories, incomes, expenses, budgets))
              ==> ChoicesRespected(categories, incomes, expenses, budgets)
    {
      FilterDistinct(incomes, (t: Transaction) => t.id != id, TransactionId);
      incomes := WithoutTransaction(incomes, id);
    }

    /** Delete Expense row `id`; nothing refers to expenses. */
    method DeleteExpense(id: Id)
      requires Valid()
      modifies this
      ensures Valid()
      ensures expenses == WithoutTransaction(old(expenses), id)
      ensures categories == old(categories) && incomes == old(incomes) && budgets == old(budgets)
      ensures nextCategoryId == old(nextCategoryId) && nextIncomeId == old(nextIncomeId)
      ensures nextExpenseId == old(nextExpenseId) && nextBudgetId == old(nextBudgetId)
      ensures old(ChoicesRespected(categories, incomes, expenses, budgets))
              ==> ChoicesRespected(categories, incomes, expenses, budgets)
    {
      FilterDistinct(expenses, (t: Transaction) => t.id != id, TransactionId);
      expenses := WithoutTransaction(expenses, id);
    }

    /** Delete Budget row `id`; nothing refers to budgets. */
    method DeleteBudget(id: Id)
      requires Valid()
      modifies this
      ensures Valid()
      ensures budgets == WithoutBudget(old(budgets), id)
      ensures categories == old(categories) && incomes == old(incomes) && expenses == old(expenses)
      ensures nextCategoryId == old(nextCategoryId) && nextIncomeId == old(nextIncomeId)
      ensures nextExpenseId == old(nextExpenseId) && nextBudgetId == old(nextBudgetId)
      ensures old(ChoicesRespected(categories, incomes, expenses, budgets))
              ==> ChoicesRespected(categories, incomes, expenses, budgets)
    {
      FilterDistinct(budgets, (b: Budget) => b.id != id, BudgetId);
      FilterDistinct(budgets, (b: Budget) => b.id != id, BudgetKey);
      budgets := WithoutBudget(budgets, id);
    }
  }
}
