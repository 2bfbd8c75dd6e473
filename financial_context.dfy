/**
 * The financial ledger: four user-managed lists (transactions, goals, spending
 * limits, blocked merchants) and the summary derived from the transactions
 * (income, expense, net balance, expense per category). Every change builds a
 * new list, installs it in memory, then persists it under the list's storage
 * key; a failed write is only logged.
 */
module Ledger {
  import opened Common
  import opened Text

  datatype TransactionType = Income | Expense

  datatype Transaction = Transaction(
    id: string,
    amount: real,
    kind: TransactionType,
    category: string,
    description: string,
    date: Day,
    merchant: Option<string>)

  /** A transaction before `addTransaction` gives it an id. */
  datatype TransactionDraft = TransactionDraft(
    amount: real,
    kind: TransactionType,
    category: string,
    description: string,
    date: Day,
    merchant: Option<string>)
  {
    function WithId(id: string): Transaction
    {
      Transaction(id, amount, kind, category, description, date, merchant)
    }
  }

  datatype Goal = Goal(
    id: string,
    name: string,
    targetAmount: real,
    currentAmount: real,
    deadline: Option<Day>,
    category: string)

  datatype GoalDraft = GoalDraft(
    name: string,
    targetAmount: real,
    currentAmount: real,
    deadline: Option<Day>,
    category: string)
  {
    function WithId(id: string): Goal
    {
      Goal(id, name, targetAmount, currentAmount, deadline, category)
    }
  }

  datatype Period = Daily | Weekly | Monthly

  datatype SpendingLimit = SpendingLimit(
    id: string,
    category: string,
    amount: real,
    period: Period,
    resetDate: Option<Day>)

  datatype SpendingLimitDraft = SpendingLimitDraft(
    category: string,
    amount: real,
    period: Period,
    resetDate: Option<Day>)
  {
    function WithId(id: string): SpendingLimit
    {
      SpendingLimit(id, category, amount, period, resetDate)
    }
  }

  /** Storage keys. */
  const TransactionsKey: string := "mindfulpay_transactions"
  const GoalsKey: string := "mindfulpay_goals"
  const SpendingLimitsKey: string := "mindfulpay_spending_limits"
  const BlockedMerchantsKey: string := "mindfulpay_blocked_merchants"

  /** What is written under a storage key: one of the four lists. */
  datatype Persisted =
    | TransactionList(transactions: seq<Transaction>)
    | GoalList(goals: seq<Goal>)
    | SpendingLimitList(limits: seq<SpendingLimit>)
    | MerchantList(merchants: seq<string>)

  // ---------------------------------------------------------------------------
  // The summary, specified record by record.

  /** Sum of the amounts of the `income` records. */
  function IncomeTotal(ts: seq<Transaction>): real
  {
    if ts == [] then 0.0
    else IncomeTotal(ts[..|ts| - 1]) + (if ts[|ts| - 1].kind == Income then ts[|ts| - 1].amount else 0.0)
  }

  /** Sum of the amounts of every record that is not `income`. */
  function ExpenseTotal(ts: seq<Transaction>): real
  {
    if ts == [] then 0.0
    else ExpenseTotal(ts[..|ts| - 1]) + (if ts[|ts| - 1].kind != Income then ts[|ts| - 1].amount else 0.0)
  }

  /** Sum of the amounts of the expense records of one category. */
  function CategoryExpense(ts: seq<Transaction>, c: string): real
  {
    if ts == [] then 0.0
    else CategoryExpense(ts[..|ts| - 1], c)
         + (if ts[|ts| - 1].kind != Income && ts[|ts| - 1].category == c then ts[|ts| - 1].amount else 0.0)
  }

  /** The categories that occur on some expense record. */
  function ExpenseCategories(ts: seq<Transaction>): set<string>
  {
    set t | t in ts && t.kind != Income :: t.category
  }

  /** `categoryTotals`: one entry per category of an expense record, holding that category's sum. */
  function CategoryTotals(ts: seq<Transaction>): (m: map<string, real>)
    ensures m.Keys == ExpenseCategories(ts)
  {
    map c | c in ExpenseCategories(ts) :: CategoryExpense(ts, c)
  }

  lemma LastOfSnoc(ts: seq<Transaction>, t: Transaction)
    ensures (ts + [t])[..|ts|] == ts && (ts + [t])[|ts|] == t
  {
  }

  /** A category without expense records sums to nothing. */
  lemma {:induction false} CategoryExpenseAbsent(ts: seq<Transaction>, c: string)
    requires c !in ExpenseCategories(ts)
    ensures CategoryExpense(ts, c) == 0.0
  {
    if ts != [] {
      var init := ts[..|ts| - 1];
      assert ts == init + [ts[|ts| - 1]];
      assert ExpenseCategories(init) <= ExpenseCategories(ts);
      CategoryExpenseAbsent(init, c);
    }
  }

  /** Appending one record adds its category to the expense categories when it is an expense. */
  lemma ExpenseCategoriesSnoc(ts: seq<Transaction>, t: Transaction)
    ensures ExpenseCategories(ts + [t]) == ExpenseCategories(ts) + (if t.kind == Income then {} else {t.category})
  {
    assert forall u :: u in ts + [t] <==> u in ts || u == t;
  }

  /** Appending one record changes the category map exactly where `calculateSummaryData` does. */
  lemma CategoryTotalsSnoc(ts: seq<Transaction>, t: Transaction)
    ensures CategoryTotals(ts + [t]) ==
      if t.kind == Income then CategoryTotals(ts)
      else CategoryTotals(ts)[t.category := (if t.category in CategoryTotals(ts) then CategoryTotals(ts)[t.category] else 0.0) + t.amount]
  {
    LastOfSnoc(ts, t);
    ExpenseCategoriesSnoc(ts, t);
    if t.kind != Income && t.category !in ExpenseCategories(ts) {
      CategoryExpenseAbsent(ts, t.category);
    }
  }

  /** The summary of the empty ledger. */
  lemma EmptySummary()
    ensures IncomeTotal([]) == 0.0 && ExpenseTotal([]) == 0.0 && CategoryTotals([]) == map[]
  {
  }

  /** Income and expense split the records: together they are the sum of all amounts. */
  function AllAmounts(ts: seq<Transaction>): real
  {
    if ts == [] then 0.0 else AllAmounts(ts[..|ts| - 1]) + ts[|ts| - 1].amount
  }

  lemma {:induction false} IncomeAndExpenseSplit(ts: seq<Transaction>)
    ensures IncomeTotal(ts) + ExpenseTotal(ts) == AllAmounts(ts)
  {
    if ts != [] {
      IncomeAndExpenseSplit(ts[..|ts| - 1]);
    }
  }

  /** `Σ k in ks. m[k]`, counting a missing key as zero. */
  function SumOver(m: map<string, real>, ks: seq<string>): real
  {
    if ks == [] then 0.0 else (if ks[0] in m then m[ks[0]] else 0.0) + SumOver(m, ks[1..])
  }

  lemma {:induction false} SumOverAdd(m: map<string, real>, ks: seq<string>, c: string, a: real)
    requires NoDuplicates(ks) && c in ks
    ensures SumOver(m[c := (if c in m then m[c] else 0.0) + a], ks) == SumOver(m, ks) + a
  {
    var m' := m[c := (if c in m then m[c] else 0.0) + a];
    if ks[0] == c {
      assert c !in ks[1..];
      SumOverUnchanged(m, m', ks[1..]);
    } else {
      SumOverAdd(m, ks[1..], c, a);
    }
  }

  lemma {:induction false} SumOverUnchanged(m: map<string, real>, m': map<string, real>, ks: seq<string>)
    requires forall k :: k in ks ==> (k in m <==> k in m') && (k in m ==> m[k] == m'[k])
    ensures SumOver(m, ks) == SumOver(m', ks)
  {
    if ks != [] {
      SumOverUnchanged(m, m', ks[1..]);
    }
  }

  /**
   * The category totals add up to the total expense: summing the map over any
   * duplicate-free listing of its keys gives `totalExpense`.
   */
  lemma {:induction false} CategoryTotalsSumToExpense(ts: seq<Transaction>, ks: seq<string>)
    requires NoDuplicates(ks)
    requires forall c :: c in CategoryTotals(ts) ==> c in ks
    ensures SumOver(CategoryTotals(ts), ks) == ExpenseTotal(ts)
  {
    if ts == [] {
      SumOverUnchanged(CategoryTotals(ts), map[], ks);
      SumOverEmpty(ks);
    } else {
      var init, t := ts[..|ts| - 1], ts[|ts| - 1];
      assert ts == init + [t];
      ExpenseCategoriesSnoc(init, t);
      CategoryTotalsSumToExpense(init, ks);
      CategoryTotalsSumStep(init, t, ks);
    }
  }

  /** One record more keeps the category totals summing to the expense total. */
  lemma CategoryTotalsSumStep(init: seq<Transaction>, t: Transaction, ks: seq<string>)
    requires NoDuplicates(ks)
    requires forall c :: c in CategoryTotals(init + [t]) ==> c in ks
    requires SumOver(CategoryTotals(init), ks) == ExpenseTotal(init)
    ensures SumOver(CategoryTotals(init + [t]), ks) == ExpenseTotal(init + [t])
  {
    LastOfSnoc(init, t);
    CategoryTotalsSnoc(init, t);
    if t.kind != Income {
      SumOverAdd(CategoryTotals(init), ks, t.category, t.amount);
    }
  }

  lemma {:induction false} SumOverEmpty(ks: seq<string>)
    ensures SumOver(map[], ks) == 0.0
  {
    if ks != [] {
      SumOverEmpty(ks[1..]);
    }
  }

  /** One record more, in the form the accumulating loop adds it. */
  lemma SummaryStep(ts: seq<Transaction>, t: Transaction)
    ensures IncomeTotal(ts + [t]) == IncomeTotal(ts) + (if t.kind == Income then t.amount else 0.0)
    ensures ExpenseTotal(ts + [t]) == ExpenseTotal(ts) + (if t.kind != Income then t.amount else 0.0)
    ensures t.kind == Income ==> CategoryTotals(ts + [t]) == CategoryTotals(ts)
    ensures t.kind != Income ==> (CategoryTotals(ts + [t]) ==
      var m := CategoryTotals(ts);
      if t.category in m && m[t.category] != 0.0 then m[t.category := m[t.category] + t.amount]
      else m[t.category := t.amount])
  {
    LastOfSnoc(ts, t);
    CategoryTotalsSnoc(ts, t);
  }

  /**
   * The body of `calculateSummaryData`'s loop: one record added to the running
   * income, expense and per-category map (a falsy entry is replaced, a truthy
   * one is added to). Totals of the records seen so far become totals of the
   * records seen and this one.
   */
  method Accumulate(ghost seen: seq<Transaction>, t: Transaction,
                    income: real, expense: real, categoryMap: map<string, real>)
    returns (income': real, expense': real, categoryMap': map<string, real>)
    requires income == IncomeTotal(seen)
    requires expense == ExpenseTotal(seen)
    requires categoryMap == CategoryTotals(seen)
    ensures income' == IncomeTotal(seen + [t])
    ensures expense' == ExpenseTotal(seen + [t])
    ensures categoryMap' == CategoryTotals(seen + [t])
  {
    income', expense', categoryMap' := income, expense, categoryMap;
    if t.kind == Income {
      income' := income + t.amount;
    } else {
      expense' := expense + t.amount;
      if t.category in categoryMap && categoryMap[t.category] != 0.0 {
        categoryMap' := categoryMap[t.category := categoryMap[t.category] + t.amount];
      } else {
        categoryMap' := categoryMap[t.category := t.amount];
      }
    }
    SummaryStep(seen, t);
  }

  /** `calculateSummaryData`: one pass over the transactions. */
  method ComputeSummary(ts: seq<Transaction>) returns (income: real, expense: real, categoryMap: map<string, real>)
    ensures income == IncomeTotal(ts)
    ensures expense == ExpenseTotal(ts)
    ensures categoryMap == CategoryTotals(ts)
  {
    income, expense, categoryMap := 0.0, 0.0, map[];
    var i := 0;
    assert ts[..0] == [];
    assert CategoryTotals([]) == map[] by {
      assert ExpenseCategories([]) == {};
    }
    while i < |ts|
      invariant 0 <= i <= |ts|
      invariant income == IncomeTotal(ts[..i])
      invariant expense == ExpenseTotal(ts[..i])
      invariant categoryMap == CategoryTotals(ts[..i])
    {
      assert ts[..i + 1] == ts[..i] + [ts[i]];
      income, expense, categoryMap := Accumulate(ts[..i], ts[i], income, expense, categoryMap);
      i := i + 1;
    }
    assert ts[..|ts|] == ts;
  }

  // ---------------------------------------------------------------------------
  // The list updates, as the new list each operation installs.

  /** `transactions.filter(t => t.id !== id)`. */
  function RemoveTransaction(ts: seq<Transaction>, id: string): (r: seq<Transaction>)
    ensures forall t :: t in r <==> t in ts && t.id != id
  {
    Filter(ts, (t: Transaction) => t.id != id)
  }

  /** `goals.filter(g => g.id !== id)`. */
  function RemoveGoal(gs: seq<Goal>, id: string): (r: seq<Goal>)
    ensures forall g :: g in r <==> g in gs && g.id != id
  {
    Filter(gs, (g: Goal) => g.id != id)
  }

  /** `spendingLimits.filter(l => l.id !== id)`. */
  function RemoveSpendingLimit(ls: seq<SpendingLimit>, id: string): (r: seq<SpendingLimit>)
    ensures forall l :: l in r <==> l in ls && l.id != id
  {
    Filter(ls, (l: SpendingLimit) => l.id != id)
  }

  /** Removing by id keeps the surviving transactions in their order: it works piece by piece. */
  lemma RemoveTransactionKeepsOrder(a: seq<Transaction>, b: seq<Transaction>, id: string)
    ensures RemoveTransaction(a + b, id) == RemoveTransaction(a, id) + RemoveTransaction(b, id)
  {
    FilterAppend(a, b, (t: Transaction) => t.id != id);
  }

  /** Removing a goal by id keeps the surviving goals in their order, which decides the first three shown. */
  lemma RemoveGoalKeepsOrder(a: seq<Goal>, b: seq<Goal>, id: string)
    ensures RemoveGoal(a + b, id) == RemoveGoal(a, id) + RemoveGoal(b, id)
  {
    FilterAppend(a, b, (g: Goal) => g.id != id);
  }

  /** Removing a limit by id keeps the surviving limits in their order. */
  lemma RemoveSpendingLimitKeepsOrder(a: seq<SpendingLimit>, b: seq<SpendingLimit>, id: string)
    ensures RemoveSpendingLimit(a + b, id) == RemoveSpendingLimit(a, id) + RemoveSpendingLimit(b, id)
  {
    FilterAppend(a, b, (l: SpendingLimit) => l.id != id);
  }

  /** Removing an id that no record carries changes nothing. */
  lemma RemoveAbsentTransaction(ts: seq<Transaction>, id: string)
    requires forall i :: 0 <= i < |ts| ==> ts[i].id != id
    ensures RemoveTransaction(ts, id) == ts
  {
    FilterKeepsAll(ts, (t: Transaction) => t.id != id);
  }

  /** A goal with `amount` added to its saved amount when its id matches. */
  function Contribute(g: Goal, id: string, amount: real): Goal
  {
    if g.id == id then g.(currentAmount := g.currentAmount + amount) else g
  }

  /** `goals.map(...)` of `updateGoal`. */
  function ContributeToGoal(gs: seq<Goal>, id: string, amount: real): (r: seq<Goal>)
    ensures |r| == |gs|
    ensures forall i :: 0 <= i < |gs| ==>
      r[i] == gs[i].(currentAmount := r[i].currentAmount)
      && r[i].currentAmount == gs[i].currentAmount + (if gs[i].id == id then amount else 0.0)
  {
    Map(gs, (g: Goal) => Contribute(g, id, amount))
  }

  /** A limit with its amount replaced when its id matches. */
  function Resize(l: SpendingLimit, id: string, amount: real): SpendingLimit
  {
    if l.id == id then l.(amount := amount) else l
  }

  /** `spendingLimits.map(...)` of `updateSpendingLimit`. */
  function ResizeSpendingLimit(ls: seq<SpendingLimit>, id: string, amount: real): (r: seq<SpendingLimit>)
    ensures |r| == |ls|
    ensures forall i :: 0 <= i < |ls| ==>
      r[i] == ls[i].(amount := r[i].amount)
      && r[i].amount == (if ls[i].id == id then amount else ls[i].amount)
  {
    Map(ls, (l: SpendingLimit) => Resize(l, id, amount))
  }

  /** `addBlockedMerchant`'s list: appended only when the exact string is not there yet. */
  function AddMerchant(ms: seq<string>, m: string): (r: seq<string>)
    ensures m in r
    ensures r == ms || r == ms + [m]
    ensures NoDuplicates(ms) ==> NoDuplicates(r)
  {
    if m in ms then ms else ms + [m]
  }

  /** `removeBlockedMerchant`'s list: every occurrence of the exact string dropped. */
  function RemoveMerchant(ms: seq<string>, m: string): (r: seq<string>)
    ensures forall x :: x in r <==> x in ms && x != m
    ensures NoDuplicates(ms) ==> NoDuplicates(r)
  {
    FilterKeepsNoDuplicates(ms, (x: string) => x != m);
    Filter(ms, (x: string) => x != m)
  }

  lemma {:induction false} FilterKeepsNoDuplicates(s: seq<string>, keep: string -> bool)
    ensures NoDuplicates(s) ==> NoDuplicates(Filter(s, keep))
  {
    if s != [] && NoDuplicates(s) {
      FilterKeepsNoDuplicates(s[1..], keep);
      assert s[0] !in s[1..];
    }
  }

  /** Adding twice is adding once. */
  lemma AddMerchantIdempotent(ms: seq<string>, m: string)
    ensures AddMerchant(AddMerchant(ms, m), m) == AddMerchant(ms, m)
  {
  }

  /** `isBlockedMerchant`: the normalised name is exactly one of the stored entries. */
  function MerchantBlocked(ms: seq<string>, merchant: string): (blocked: bool)
  {
    Normalize(merchant) in ms
  }

  /** Stored entries are not normalised: one holding an upper-case letter never matches. */
  lemma UpperEntryNeverMatches(ms: seq<string>, entry: string, merchant: string)
    requires !NoUpper(entry)
    ensures MerchantBlocked(ms, merchant) ==> Normalize(merchant) != entry
  {
    UpperNeverNormalized(entry, merchant);
  }

  /** After adding `m`, the listed strings are the old ones and `m`. */
  lemma ListedAfterAdd(ms: seq<string>, m: string, n: string)
    ensures n in AddMerchant(ms, m) <==> n in ms || n == m
  {
  }

  /** After adding `m`, a merchant is blocked iff it was before or it normalises to `m`. */
  lemma BlockedAfterAdd(ms: seq<string>, m: string, merchant: string)
    ensures MerchantBlocked(AddMerchant(ms, m), merchant) <==> MerchantBlocked(ms, merchant) || Normalize(merchant) == m
  {
    ListedAfterAdd(ms, m, Normalize(merchant));
  }

  /** After removing `m`, no merchant that normalises to `m` is blocked. */
  lemma NotBlockedAfterRemove(ms: seq<string>, m: string, merchant: string)
    requires Normalize(merchant) == m
    ensures !MerchantBlocked(RemoveMerchant(ms, m), merchant)
  {
  }

  // ---------------------------------------------------------------------------
  // The provider's state.

  /**
   * `FinancialProvider`'s state. Each method installs the new list, lets the
   * summary effect recompute the totals when the transactions changed, and
   * writes the list to `store` unless the write fails (`writeOk` false).
   */
  class FinancialState {
    var transactions: seq<Transaction>
    var goals: seq<Goal>
    var spendingLimits: seq<SpendingLimit>
    var blockedMerchants: seq<string>
    var totalIncome: real
    var totalExpense: real
    var netBalance: real
    var categoryTotals: map<string, real>
    var store: map<string, Persisted>

    /** The summary fields agree with the transactions. */
    ghost predicate Valid()
      reads this
    {
      && totalIncome == IncomeTotal(transactions)
      && totalExpense == ExpenseTotal(transactions)
      && netBalance == totalIncome - totalExpense
      && categoryTotals == CategoryTotals(transactions)
    }

    /** The provider as mounted, before anything is loaded from `persisted`. */
    constructor (persisted: map<string, Persisted>)
      ensures Valid()
      ensures transactions == [] && goals == [] && spendingLimits == [] && blockedMerchants == []
      ensures store == persisted
    {
      transactions, goals, spendingLimits, blockedMerchants := [], [], [], [];
      totalIncome, totalExpense, netBalance, categoryTotals := 0.0, 0.0, 0.0, map[];
      store := persisted;
    }

    /** `calculateSummaryData` and its setter calls. */
    method RecalculateSummary()
      modifies this
      ensures Valid()
      ensures transactions == old(transactions) && goals == old(goals)
      ensures spendingLimits == old(spendingLimits) && blockedMerchants == old(blockedMerchants)
      ensures store == old(store)
    {
      var income, expense, categoryMap := ComputeSummary(transactions);
      totalIncome := income;
      totalExpense := expense;
      netBalance := income - expense;
      categoryTotals := categoryMap;
    }

    /** `addTransaction`. */
    method AddTransaction(draft: TransactionDraft, id: string, writeOk: bool)
      modifies this
      ensures Valid()
      ensures transactions == old(transactions) + [draft.WithId(id)]
      ensures goals == old(goals) && spendingLimits == old(spendingLimits) && blockedMerchants == old(blockedMerchants)
      ensures store == if writeOk then old(store)[TransactionsKey := TransactionList(transactions)] else old(store)
    {
      transactions := transactions + [draft.WithId(id)];
      RecalculateSummary();
      if writeOk {
        store := store[TransactionsKey := TransactionList(transactions)];
      }
    }

    /** `deleteTransaction`. */
    method DeleteTransaction(id: string, writeOk: bool)
      modifies this
      ensures Valid()
      ensures transactions == RemoveTransaction(old(transactions), id)
      ensures goals == old(goals) && spendingLimits == old(spendingLimits) && blockedMerchants == old(blockedMerchants)
      ensures store == if writeOk then old(store)[TransactionsKey := TransactionList(transactions)] else old(store)
    {
      transactions := RemoveTransaction(transactions, id);
      RecalculateSummary();
      if writeOk {
        store := store[TransactionsKey := TransactionList(transactions)];
      }
    }

    /** `addGoal`. */
    method AddGoal(draft: GoalDraft, id: string, writeOk: bool)
      requires Valid()
      modifies this
      ensures Valid()
      ensures goals == old(goals) + [draft.WithId(id)]
      ensures transactions == old(transactions) && spendingLimits == old(spendingLimits) && blockedMerchants == old(blockedMerchants)
      ensures store == if writeOk then old(store)[GoalsKey := GoalList(goals)] else old(store)
    {
      goals := goals + [draft.WithId(id)];
      if writeOk {
        store := store[GoalsKey := GoalList(goals)];
      }
    }

    /** `updateGoal`: adds `amount` to the saved amount of the goals with that id. */
    method UpdateGoal(id: string, amount: real, writeOk: bool)
      requires Valid()
      modifies this
      ensures Valid()
      ensures goals == ContributeToGoal(old(goals), id, amount)
      ensures transactions == old(transactions) && spendingLimits == old(spendingLimits) && blockedMerchants == old(blockedMerchants)
      ensures store == if writeOk then old(store)[GoalsKey := GoalList(goals)] else old(store)
    {
      goals := ContributeToGoal(goals, id, amount);
      if writeOk {
        store := store[GoalsKey := GoalList(goals)];
      }
    }

    /** `deleteGoal`. */
    method DeleteGoal(id: string, writeOk: bool)
      requires Valid()
      modifies this
      ensures Valid()
      ensures goals == RemoveGoal(old(goals), id)
      ensures transactions == old(transactions) && spendingLimits == old(spendingLimits) && blockedMerchants == old(blockedMerchants)
      ensures store == if writeOk then old(store)[GoalsKey := GoalList(goals)] else old(store)
    {
      goals := RemoveGoal(goals, id);
      if writeOk {
        store := store[GoalsKey := GoalList(goals)];
      }
    }

    /** `addSpendingLimit`. */
    method AddSpendingLimit(draft: SpendingLimitDraft, id: string, writeOk: bool)
      requires Valid()
      modifies this
      ensures Valid()
      ensures spendingLimits == old(spendingLimits) + [draft.WithId(id)]
      ensures transactions == old(transactions) && goals == old(goals) && blockedMerchants == old(blockedMerchants)
      ensures store == if writeOk then old(store)[SpendingLimitsKey := SpendingLimitList(spendingLimits)] else old(store)
    {
      spendingLimits := spendingLimits + [draft.WithId(id)];
      if writeOk {
        store := store[SpendingLimitsKey := SpendingLimitList(spendingLimits)];
      }
    }

    /** `updateSpendingLimit`: overwrites the amount of the limits with that id. */
    method UpdateSpendingLimit(id: string, amount: real, writeOk: bool)
      requires Valid()
      modifies this
      ensures Valid()
      ensures spendingLimits == ResizeSpendingLimit(old(spendingLimits), id, amount)
      ensures transactions == old(transactions) && goals == old(goals) && blockedMerchants == old(blockedMerchants)
      ensures store == if writeOk then old(store)[SpendingLimitsKey := SpendingLimitList(spendingLimits)] else old(store)
    {
      spendingLimits := ResizeSpendingLimit(spendingLimits, id, amount);
      if writeOk {
        store := store[SpendingLimitsKey := SpendingLimitList(spendingLimits)];
      }
    }

    /** `deleteSpendingLimit`. */
    method DeleteSpendingLimit(id: string, writeOk: bool)
      requires Valid()
      modifies this
      ensures Valid()
      ensures spendingLimits == RemoveSpendingLimit(old(spendingLimits), id)
      ensures transactions == old(transactions) && goals == old(goals) && blockedMerchants == old(blockedMerchants)
      ensures store == if writeOk then old(store)[SpendingLimitsKey := SpendingLimitList(spendingLimits)] else old(store)
    {
      spendingLimits := RemoveSpendingLimit(spendingLimits, id);
      if writeOk {
        store := store[SpendingLimitsKey := SpendingLimitList(spendingLimits)];
      }
    }

    /** `addBlockedMerchant`: a no-op, without a write, when the exact string is present. */
    method AddBlockedMerchant(merchant: string, writeOk: bool)
      requires Valid()
      modifies this
      ensures Valid()
      ensures blockedMerchants == AddMerchant(old(blockedMerchants), merchant)
      ensures transactions == old(transactions) && goals == old(goals) && spendingLimits == old(spendingLimits)
      ensures store == if merchant !in old(blockedMerchants) && writeOk
                       then old(store)[BlockedMerchantsKey := MerchantList(blockedMerchants)]
                       else old(store)
    {
      if merchant !in blockedMerchants {
        blockedMerchants := blockedMerchants + [merchant];
        if writeOk {
          store := store[BlockedMerchantsKey := MerchantList(blockedMerchants)];
        }
      }
    }

    /** `removeBlockedMerchant`. */
    method RemoveBlockedMerchant(merchant: string, writeOk: bool)
      requires Valid()
      modifies this
      ensures Valid()
      ensures blockedMerchants == RemoveMerchant(old(blockedMerchants), merchant)
      ensures transactions == old(transactions) && goals == old(goals) && spendingLimits == old(spendingLimits)
      ensures store == if writeOk then old(store)[BlockedMerchantsKey := MerchantList(blockedMerchants)] else old(store)
    {
      blockedMerchants := RemoveMerchant(blockedMerchants, merchant);
      if writeOk {
        store := store[BlockedMerchantsKey := MerchantList(blockedMerchants)];
      }
    }

    /** `isBlockedMerchant`. */
    function IsBlockedMerchant(merchant: string): (blocked: bool)
      reads this
      ensures blocked <==> Normalize(merchant) in blockedMerchants
    {
      MerchantBlocked(blockedMerchants, merchant)
    }

    /**
     * `clearAllData`: removes the four keys, then empties the lists and zeroes
     * the summary. When the removal fails nothing changes.
     */
    method ClearAllData(removeOk: bool)
      modifies this
      ensures Valid() <== old(Valid())
      ensures removeOk ==> Valid()
      ensures removeOk ==> transactions == [] && goals == [] && spendingLimits == [] && blockedMerchants == []
      ensures removeOk ==> totalIncome == 0.0 && totalExpense == 0.0 && netBalance == 0.0 && categoryTotals == map[]
      ensures removeOk ==> store == old(store) - {TransactionsKey, GoalsKey, SpendingLimitsKey, BlockedMerchantsKey}
      ensures !removeOk ==> transactions == old(transactions) && goals == old(goals)
      ensures !removeOk ==> spendingLimits == old(spendingLimits) && blockedMerchants == old(blockedMerchants)
      ensures !removeOk ==> totalIncome == old(totalIncome) && totalExpense == old(totalExpense)
      ensures !removeOk ==> netBalance == old(netBalance) && categoryTotals == old(categoryTotals)
      ensures !removeOk ==> store == old(store)
    {
      if removeOk {
        store := store - {TransactionsKey, GoalsKey, SpendingLimitsKey, BlockedMerchantsKey};
        transactions, goals, spendingLimits, blockedMerchants := [], [], [], [];
        totalIncome, totalExpense, netBalance, categoryTotals := 0.0, 0.0, 0.0, map[];
      }
    }
  }
}
