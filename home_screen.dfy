/**
 * The dashboard's derived views over the ledger: the five most recent
 * expenses, the expense total of each of the last seven days, the first three
 * goals, and the demonstration seeding that fills only the lists that are empty.
 */
module Dashboard {
  import opened Common
  import opened Ledger

  // ---------------------------------------------------------------------------
  // Recent expenses.

  /** `transactions.filter(t => t.type === 'expense')`. */
  function ExpensesOf(ts: seq<Transaction>): (r: seq<Transaction>)
    ensures forall t :: t in r <==> t in ts && t.kind == Expense
  {
    Filter(ts, (t: Transaction) => t.kind == Expense)
  }

  /** Newest first: no record is dated after one before it. */
  predicate NewestFirst(s: seq<Transaction>)
  {
    forall i, j :: 0 <= i < j < |s| ==> s[i].date >= s[j].date
  }

  /**
   * One step of a stable sort by date, newest first: `x` goes in front of the
   * first record that is not newer than it.
   */
  function Insert(x: Transaction, s: seq<Transaction>): seq<Transaction>
  {
    if s == [] then [x]
    else if s[0].date <= x.date then [x] + s
    else [s[0]] + Insert(x, s[1..])
  }

  /** Inserting adds `x` and nothing else. */
  lemma {:induction false} InsertAddsOne(x: Transaction, s: seq<Transaction>)
    ensures multiset(Insert(x, s)) == multiset(s) + multiset{x}
  {
    if s != [] && s[0].date > x.date {
      InsertAddsOne(x, s[1..]);
      assert s == [s[0]] + s[1..];
    }
  }

  /** Inserting into a list that is newest first keeps it newest first. */
  lemma {:induction false} InsertKeepsNewestFirst(x: Transaction, s: seq<Transaction>)
    requires NewestFirst(s)
    ensures NewestFirst(Insert(x, s))
  {
    if s != [] && s[0].date > x.date {
      var rest := Insert(x, s[1..]);
      InsertKeepsNewestFirst(x, s[1..]);
      InsertAddsOne(x, s[1..]);
      forall t | t in rest ensures s[0].date >= t.date {
        assert t in multiset(rest);
        if t != x {
          assert t in s[1..];
        }
      }
    }
  }

  /**
   * `.sort((a, b) => new Date(b.date).getTime() - new Date(a.date).getTime())`,
   * as the stable insertion sort that `Array.prototype.sort` behaves like.
   */
  function SortNewestFirst(s: seq<Transaction>): seq<Transaction>
  {
    if s == [] then [] else Insert(s[0], SortNewestFirst(s[1..]))
  }

  /** The sort keeps exactly the records it is given and puts them newest first. */
  lemma {:induction false} SortIsNewestFirstPermutation(s: seq<Transaction>)
    ensures multiset(SortNewestFirst(s)) == multiset(s)
    ensures NewestFirst(SortNewestFirst(s))
  {
    if s != [] {
      SortIsNewestFirstPermutation(s[1..]);
      InsertAddsOne(s[0], SortNewestFirst(s[1..]));
      InsertKeepsNewestFirst(s[0], SortNewestFirst(s[1..]));
      assert s == [s[0]] + s[1..];
    }
  }

  /** The test for records dated `d`. */
  function OnDate(d: Day): Transaction -> bool
  {
    (t: Transaction) => t.date == d
  }

  /** Records of one date, in their order. */
  function DatedOn(s: seq<Transaction>, d: Day): seq<Transaction>
  {
    Filter(s, OnDate(d))
  }

  /** Inserting a record adds it in front of the records of its own date and leaves other dates alone. */
  lemma {:induction false} InsertStable(x: Transaction, s: seq<Transaction>, d: Day)
    ensures DatedOn(Insert(x, s), d) == (if x.date == d then [x] else []) + DatedOn(s, d)
  {
    if s == [] {
    } else if s[0].date <= x.date {
      FilterCons(x, s, OnDate(d));
    } else {
      InsertStable(x, s[1..], d);
      FilterCons(s[0], Insert(x, s[1..]), OnDate(d));
      assert s == [s[0]] + s[1..];
      FilterCons(s[0], s[1..], OnDate(d));
    }
  }

  /** Stability: for each date, the sorted list holds that date's records in their original order. */
  lemma {:induction false} SortIsStable(s: seq<Transaction>, d: Day)
    ensures DatedOn(SortNewestFirst(s), d) == DatedOn(s, d)
  {
    if s != [] {
      SortIsStable(s[1..], d);
      InsertStable(s[0], SortNewestFirst(s[1..]), d);
      assert s == [s[0]] + s[1..];
      FilterAppend([s[0]], s[1..], OnDate(d));
    }
  }

  /** `recentTransactions`: the expenses, newest first, cut to five. */
  function RecentTransactions(ts: seq<Transaction>): (r: seq<Transaction>)
    ensures |r| <= 5
  {
    Take(SortNewestFirst(ExpensesOf(ts)), 5)
  }

  /** A head of a newest-first list is newest first and takes nothing the list does not hold. */
  lemma TakeNewestFirst(s: seq<Transaction>, n: nat)
    requires NewestFirst(s)
    ensures NewestFirst(Take(s, n))
    ensures multiset(Take(s, n)) <= multiset(s)
  {
    var r := Take(s, n);
    assert s == r + s[|r|..];
  }

  /**
   * The recent list holds only expenses taken from the ledger, each at most
   * as often as it occurs there, newest first.
   */
  lemma RecentTransactionsAreNewestExpenses(ts: seq<Transaction>)
    ensures forall t :: t in RecentTransactions(ts) ==> t in ts && t.kind == Expense
    ensures NewestFirst(RecentTransactions(ts))
    ensures multiset(RecentTransactions(ts)) <= multiset(ExpensesOf(ts))
  {
    var es := ExpensesOf(ts);
    SortIsNewestFirstPermutation(es);
    TakeNewestFirst(SortNewestFirst(es), 5);
    var r := RecentTransactions(ts);
    forall t | t in r ensures t in ts && t.kind == Expense {
      assert t in multiset(r);
      assert t in multiset(es);
    }
  }

  /**
   * The recent list is the head of the date-sorted expense list, five long
   * (all of it when there are fewer): nothing left out is newer than
   * anything shown.
   */
  lemma RecentTransactionsAreTheNewestFive(ts: seq<Transaction>)
    ensures |RecentTransactions(ts)| == Min(5, |ExpensesOf(ts)|)
    ensures RecentTransactions(ts) == SortNewestFirst(ExpensesOf(ts))[..|RecentTransactions(ts)|]
    ensures forall i, j :: 0 <= i < |RecentTransactions(ts)| <= j < |SortNewestFirst(ExpensesOf(ts))| ==>
      SortNewestFirst(ExpensesOf(ts))[j].date <= RecentTransactions(ts)[i].date
  {
    SortIsNewestFirstPermutation(ExpensesOf(ts));
    assert |SortNewestFirst(ExpensesOf(ts))| == |ExpensesOf(ts)| by {
      assert |multiset(SortNewestFirst(ExpensesOf(ts)))| == |multiset(ExpensesOf(ts))|;
    }
  }

  // ---------------------------------------------------------------------------
  // The spending trend of the last seven days.

  /** `today, today - 1, …`, `n` days back. */
  function DaysBack(today: Day, n: nat): (r: seq<Day>)
    ensures |r| == n
    ensures forall k :: 0 <= k < n ==> r[k] == today - k
  {
    if n == 0 then [] else DaysBack(today, n - 1) + [today - (n - 1)]
  }

  function Reverse<T>(s: seq<T>): (r: seq<T>)
    ensures |r| == |s|
    ensures forall k :: 0 <= k < |s| ==> r[k] == s[|s| - 1 - k]
  {
    if s == [] then [] else [s[|s| - 1]] + Reverse(s[..|s| - 1])
  }

  /** `last7Days`: the seven dates back from today, reversed. */
  function Last7Days(today: Day): (r: seq<Day>)
    ensures |r| == 7 && r[6] == today
  {
    Reverse(DaysBack(today, 7))
  }

  /** Seven consecutive days in ascending order, the last of them today. */
  lemma Last7DaysAscendingToToday(today: Day)
    ensures |Last7Days(today)| == 7
    ensures Last7Days(today)[6] == today
    ensures forall k :: 0 <= k < 6 ==> Last7Days(today)[k + 1] == Last7Days(today)[k] + 1
    ensures forall k :: 0 <= k < 7 ==> Last7Days(today)[k] == today - 6 + k
  {
  }

  /** `reduce((sum, t) => sum + t.amount, 0)`: a left fold. */
  function SumAmounts(ts: seq<Transaction>): real
  {
    if ts == [] then 0.0 else SumAmounts(ts[..|ts| - 1]) + ts[|ts| - 1].amount
  }

  lemma {:induction false} SumAmountsAppend(a: seq<Transaction>, b: seq<Transaction>)
    ensures SumAmounts(a + b) == SumAmounts(a) + SumAmounts(b)
  {
    if b != [] {
      assert (a + b)[..|a + b| - 1] == a + b[..|b| - 1];
      SumAmountsAppend(a, b[..|b| - 1]);
    } else {
      assert a + b == a;
    }
  }

  /** The test of one day's chart point: an expense dated that day. */
  function ExpenseOn(d: Day): Transaction -> bool
  {
    (t: Transaction) => t.date == d && t.kind == Expense
  }

  /** One point of the trend chart: the sum of the expenses dated `d`. */
  function DayExpense(ts: seq<Transaction>, d: Day): real
  {
    SumAmounts(Filter(ts, ExpenseOn(d)))
  }

  /** Adding a record changes a day's point by its amount when it is an expense of that day, and not at all otherwise. */
  lemma DayExpenseSnoc(ts: seq<Transaction>, t: Transaction, d: Day)
    ensures DayExpense(ts + [t], d) == DayExpense(ts, d) + (if t.date == d && t.kind == Expense then t.amount else 0.0)
  {
    FilterAppend(ts, [t], ExpenseOn(d));
    SumAmountsAppend(Filter(ts, ExpenseOn(d)), Filter([t], ExpenseOn(d)));
  }

  /** Income never moves the chart. */
  lemma IncomeNeverCounts(ts: seq<Transaction>, t: Transaction, d: Day)
    requires t.kind == Income
    ensures DayExpense(ts + [t], d) == DayExpense(ts, d)
  {
    DayExpenseSnoc(ts, t, d);
  }

  /** A day without an expense shows 0. */
  lemma NoExpenseShowsZero(ts: seq<Transaction>, d: Day)
    requires forall t :: t in ts ==> t.date != d || t.kind != Expense
    ensures DayExpense(ts, d) == 0.0
  {
  }

  lemma ExpenseTotalSnoc(ts: seq<Transaction>, t: Transaction)
    ensures ExpenseTotal(ts + [t]) == ExpenseTotal(ts) + (if t.kind != Income then t.amount else 0.0)
  {
    assert (ts + [t])[..|ts|] == ts;
  }

  /** Adding a record adds it to the records of its own date and to no other date's. */
  lemma DatedOnSnoc(ts: seq<Transaction>, t: Transaction, d: Day)
    ensures DatedOn(ts + [t], d) == if t.date == d then DatedOn(ts, d) + [t] else DatedOn(ts, d)
  {
    FilterAppend(ts, [t], OnDate(d));
    FilterCons(t, [], OnDate(d));
    assert [t] + [] == [t];
    assert DatedOn(ts, d) + [] == DatedOn(ts, d);
  }

  /** One more record keeps a day's point equal to the expense total of that day's records. */
  lemma DayExpenseStep(init: seq<Transaction>, t: Transaction, d: Day)
    requires DayExpense(init, d) == ExpenseTotal(DatedOn(init, d))
    ensures DayExpense(init + [t], d) == ExpenseTotal(DatedOn(init + [t], d))
  {
    DayExpenseSnoc(init, t, d);
    DatedOnSnoc(init, t, d);
    if t.date == d {
      ExpenseTotalSnoc(DatedOn(init, d), t);
    }
  }

  /** A day's point is the ledger's expense total of the records dated that day. */
  lemma {:induction false} DayExpenseIsExpenseTotalOfDay(ts: seq<Transaction>, d: Day)
    ensures DayExpense(ts, d) == ExpenseTotal(DatedOn(ts, d))
  {
    if ts != [] {
      var init, t := ts[..|ts| - 1], ts[|ts| - 1];
      assert ts == init + [t];
      DayExpenseIsExpenseTotalOfDay(init, d);
      DayExpenseStep(init, t, d);
    }
  }

  /** The chart's data series: one point per day of `Last7Days`. */
  function WeekSeries(ts: seq<Transaction>, today: Day): (r: seq<real>)
    ensures |r| == 7
  {
    Map(Last7Days(today), (d: Day) => DayExpense(ts, d))
  }

  /** Point `k` of the series is the expense total of the day `6 - k` days before today. */
  lemma WeekSeriesPoints(ts: seq<Transaction>, today: Day)
    ensures |WeekSeries(ts, today)| == 7
    ensures forall k :: 0 <= k < 7 ==> WeekSeries(ts, today)[k] == DayExpense(ts, today - 6 + k)
    ensures WeekSeries(ts, today)[6] == DayExpense(ts, today)
  {
    Last7DaysAscendingToToday(today);
  }

  // ---------------------------------------------------------------------------
  // Goals.

  /** `goals.slice(0, 3)`. */
  function TopGoals(gs: seq<Goal>): (r: seq<Goal>)
    ensures |r| <= 3 && |r| <= |gs|
  {
    Take(gs, 3)
  }

  /** The first three goals, or all of them when there are fewer, in their stored order. */
  lemma TopGoalsAreFirstThree(gs: seq<Goal>)
    ensures |TopGoals(gs)| == Min(3, |gs|)
    ensures forall k :: 0 <= k < |TopGoals(gs)| ==> TopGoals(gs)[k] == gs[k]
    ensures |gs| <= 3 ==> TopGoals(gs) == gs
  {
  }

  // ---------------------------------------------------------------------------
  // Demonstration seeding.

  /** The merchant list after adding each of `ms` in turn, without duplicates. */
  function AddAllMerchants(blocked: seq<string>, ms: seq<string>): (r: seq<string>)
    decreases |ms|
  {
    if ms == [] then blocked else AddAllMerchants(AddMerchant(blocked, ms[0]), ms[1..])
  }

  /** The merchants end up listed, the earlier ones stay, and nothing else is added. */
  lemma {:induction false} AddAllMerchantsContents(blocked: seq<string>, ms: seq<string>)
    decreases |ms|
    ensures forall m :: m in AddAllMerchants(blocked, ms) <==> m in blocked || m in ms
    ensures NoDuplicates(blocked) ==> NoDuplicates(AddAllMerchants(blocked, ms))
  {
    if ms != [] {
      AddAllMerchantsContents(AddMerchant(blocked, ms[0]), ms[1..]);
      assert ms == [ms[0]] + ms[1..];
    }
  }

  /** Adding merchants that are all listed already changes nothing. */
  lemma {:induction false} AddAllMerchantsPresent(blocked: seq<string>, ms: seq<string>)
    decreases |ms|
    requires forall m :: m in ms ==> m in blocked
    ensures AddAllMerchants(blocked, ms) == blocked
  {
    if ms != [] {
      assert ms[0] in ms;
      AddAllMerchantsPresent(blocked, ms[1..]);
    }
  }

  /**
   * Under the sequential seeding this model uses, offering the merchants a
   * second time leaves the list as the first time did.
   */
  lemma ReseedingMerchantsIsNoOp(blocked: seq<string>, ms: seq<string>)
    ensures AddAllMerchants(AddAllMerchants(blocked, ms), ms) == AddAllMerchants(blocked, ms)
  {
    AddAllMerchantsContents(blocked, ms);
    AddAllMerchantsPresent(AddAllMerchants(blocked, ms), ms);
  }

  // ---------------------------------------------------------------------------
  // Seeding as written. `loadMockData` is created once, on the first render,
  // and keeps that render's `addTransaction`, `addGoal`, `addSpendingLimit`
  // and `addBlockedMerchant`. Each of them rebuilds its list from the list of
  // that first render, not from the one the previous add installed.

  /**
   * The list an add loop leaves when every add installs `captured` plus its
   * own item, replacing whatever the previous add installed (`current`).
   */
  function StaleAddAll<T>(captured: seq<T>, items: seq<T>, current: seq<T>): (r: seq<T>)
    decreases |items|
  {
    if items == [] then current else StaleAddAll(captured, items[1..], captured + [items[0]])
  }

  /** Only the last item of the loop survives, after the captured list. */
  lemma {:induction false} StaleAddAllKeepsLast<T>(captured: seq<T>, items: seq<T>, current: seq<T>)
    decreases |items|
    ensures items == [] ==> StaleAddAll(captured, items, current) == current
    ensures items != [] ==> StaleAddAll(captured, items, current) == captured + [items[|items| - 1]]
  {
    if items != [] {
      StaleAddAllKeepsLast(captured, items[1..], captured + [items[0]]);
      if |items| > 1 {
        assert items[1..][|items[1..]| - 1] == items[|items| - 1];
      }
    }
  }

  /**
   * Seeding an empty list as written: of two or more mock records, only the
   * last is kept, where the sequential seeding keeps all of them.
   */
  lemma StaleSeedingLosesRecords<T>(items: seq<T>)
    requires |items| >= 2
    ensures StaleAddAll([], items, []) == [items[|items| - 1]]
    ensures |StaleAddAll([], items, [])| < |items|
  {
    StaleAddAllKeepsLast([], items, []);
  }

  /**
   * `addBlockedMerchant` as the seeding loop calls it: the `includes` test and
   * the rebuilt list both use the captured list; a merchant already in it
   * leaves the current list alone.
   */
  function StaleAddAllMerchants(captured: seq<string>, ms: seq<string>, current: seq<string>): (r: seq<string>)
    decreases |ms|
  {
    if ms == [] then current
    else StaleAddAllMerchants(captured, ms[1..], if ms[0] in captured then current else captured + [ms[0]])
  }

  /**
   * Offered merchants none of which are listed: only the last is added, where
   * the sequential seeding adds each distinct one.
   */
  lemma {:induction false} StaleMerchantsKeepLast(captured: seq<string>, ms: seq<string>, current: seq<string>)
    decreases |ms|
    requires ms != []
    requires forall m :: m in ms ==> m !in captured
    ensures StaleAddAllMerchants(captured, ms, current) == captured + [ms[|ms| - 1]]
  {
    assert ms[0] in ms;
    if |ms| > 1 {
      forall m | m in ms[1..] ensures m !in captured {
        assert m in ms;
      }
      StaleMerchantsKeepLast(captured, ms[1..], captured + [ms[0]]);
      assert ms[1..][|ms[1..]| - 1] == ms[|ms| - 1];
    }
  }

  /** The seeded records: each draft stamped with its generated id. */
  function WithIds<D, R>(drafts: seq<D>, ids: seq<string>, stamp: (D, string) -> R): (r: seq<R>)
    requires |ids| == |drafts|
    ensures |r| == |drafts|
    ensures forall k :: 0 <= k < |drafts| ==> r[k] == stamp(drafts[k], ids[k])
  {
    seq(|drafts|, k requires 0 <= k < |drafts| => stamp(drafts[k], ids[k]))
  }

  /** `{ ...draft, id }` for each of the three record kinds. */
  function StampTransaction(): (TransactionDraft, string) -> Transaction
  {
    (d: TransactionDraft, id: string) => d.WithId(id)
  }

  function StampGoal(): (GoalDraft, string) -> Goal
  {
    (d: GoalDraft, id: string) => d.WithId(id)
  }

  function StampLimit(): (SpendingLimitDraft, string) -> SpendingLimit
  {
    (d: SpendingLimitDraft, id: string) => d.WithId(id)
  }

  /** The first branch of `loadMockData`: the mock transactions, added in turn, when there are none. */
  method SeedTransactions(fs: FinancialState, mock: seq<TransactionDraft>, ids: seq<string>, writeOk: bool)
    requires fs.Valid()
    requires |ids| == |mock|
    modifies fs
    ensures fs.Valid()
    ensures fs.transactions == if old(fs.transactions) == [] then WithIds(mock, ids, StampTransaction()) else old(fs.transactions)
    ensures fs.goals == old(fs.goals) && fs.spendingLimits == old(fs.spendingLimits)
    ensures fs.blockedMerchants == old(fs.blockedMerchants)
    ensures !writeOk ==> fs.store == old(fs.store)
  {
    if fs.transactions == [] {
      var i := 0;
      while i < |mock|
        invariant 0 <= i <= |mock|
        invariant fs.Valid()
        invariant fs.transactions == WithIds(mock[..i], ids[..i], StampTransaction())
        invariant fs.goals == old(fs.goals) && fs.spendingLimits == old(fs.spendingLimits)
        invariant fs.blockedMerchants == old(fs.blockedMerchants)
        invariant !writeOk ==> fs.store == old(fs.store)
      {
        fs.AddTransaction(mock[i], ids[i], writeOk);
        i := i + 1;
      }
      assert mock[..i] == mock && ids[..i] == ids;
    }
  }

  /** The second branch: the mock goals, when there are none. */
  method SeedGoals(fs: FinancialState, mock: seq<GoalDraft>, ids: seq<string>, writeOk: bool)
    requires fs.Valid()
    requires |ids| == |mock|
    modifies fs
    ensures fs.Valid()
    ensures fs.goals == if old(fs.goals) == [] then WithIds(mock, ids, StampGoal()) else old(fs.goals)
    ensures fs.transactions == old(fs.transactions) && fs.spendingLimits == old(fs.spendingLimits)
    ensures fs.blockedMerchants == old(fs.blockedMerchants)
    ensures !writeOk ==> fs.store == old(fs.store)
  {
    if fs.goals == [] {
      var i := 0;
      while i < |mock|
        invariant 0 <= i <= |mock|
        invariant fs.Valid()
        invariant fs.goals == WithIds(mock[..i], ids[..i], StampGoal())
        invariant fs.transactions == old(fs.transactions) && fs.spendingLimits == old(fs.spendingLimits)
        invariant fs.blockedMerchants == old(fs.blockedMerchants)
        invariant !writeOk ==> fs.store == old(fs.store)
      {
        fs.AddGoal(mock[i], ids[i], writeOk);
        i := i + 1;
      }
      assert mock[..i] == mock && ids[..i] == ids;
    }
  }

  /** The third branch: the mock spending limits, when there are none. */
  method SeedSpendingLimits(fs: FinancialState, mock: seq<SpendingLimitDraft>, ids: seq<string>, writeOk: bool)
    requires fs.Valid()
    requires |ids| == |mock|
    modifies fs
    ensures fs.Valid()
    ensures fs.spendingLimits == if old(fs.spendingLimits) == [] then WithIds(mock, ids, StampLimit()) else old(fs.spendingLimits)
    ensures fs.transactions == old(fs.transactions) && fs.goals == old(fs.goals)
    ensures fs.blockedMerchants == old(fs.blockedMerchants)
    ensures !writeOk ==> fs.store == old(fs.store)
  {
    if fs.spendingLimits == [] {
      var i := 0;
      while i < |mock|
        invariant 0 <= i <= |mock|
        invariant fs.Valid()
        invariant fs.spendingLimits == WithIds(mock[..i], ids[..i], StampLimit())
        invariant fs.transactions == old(fs.transactions) && fs.goals == old(fs.goals)
        invariant fs.blockedMerchants == old(fs.blockedMerchants)
        invariant !writeOk ==> fs.store == old(fs.store)
      {
        fs.AddSpendingLimit(mock[i], ids[i], writeOk);
        i := i + 1;
      }
      assert mock[..i] == mock && ids[..i] == ids;
    }
  }

  /** The last step: every mock merchant is offered, with no guard. */
  method SeedMerchants(fs: FinancialState, mock: seq<string>, writeOk: bool)
    requires fs.Valid()
    modifies fs
    ensures fs.Valid()
    ensures fs.blockedMerchants == AddAllMerchants(old(fs.blockedMerchants), mock)
    ensures fs.transactions == old(fs.transactions) && fs.goals == old(fs.goals)
    ensures fs.spendingLimits == old(fs.spendingLimits)
    ensures !writeOk ==> fs.store == old(fs.store)
  {
    var j := 0;
    while j < |mock|
      invariant 0 <= j <= |mock|
      invariant fs.Valid()
      invariant AddAllMerchants(fs.blockedMerchants, mock[j..]) == AddAllMerchants(old(fs.blockedMerchants), mock)
      invariant fs.transactions == old(fs.transactions) && fs.goals == old(fs.goals)
      invariant fs.spendingLimits == old(fs.spendingLimits)
      invariant !writeOk ==> fs.store == old(fs.store)
    {
      assert mock[j..][1..] == mock[j + 1..];
      fs.AddBlockedMerchant(mock[j], writeOk);
      j := j + 1;
    }
  }

  /**
   * `loadMockData`: the mock transactions, goals and limits are added one by
   * one, each list only when it is empty; the mock merchants are always
   * offered, and the duplicate-free add keeps those already listed out.
   * The mock records and their generated ids are parameters; every write
   * succeeds or fails as `writeOk` says.
   */
  method LoadMockData(
    fs: FinancialState,
    mockTransactions: seq<TransactionDraft>, transactionIds: seq<string>,
    mockGoals: seq<GoalDraft>, goalIds: seq<string>,
    mockLimits: seq<SpendingLimitDraft>, limitIds: seq<string>,
    mockMerchants: seq<string>,
    writeOk: bool)
    requires fs.Valid()
    requires |transactionIds| == |mockTransactions|
    requires |goalIds| == |mockGoals|
    requires |limitIds| == |mockLimits|
    modifies fs
    ensures fs.Valid()
    ensures fs.transactions == if old(fs.transactions) == [] then WithIds(mockTransactions, transactionIds, StampTransaction()) else old(fs.transactions)
    ensures fs.goals == if old(fs.goals) == [] then WithIds(mockGoals, goalIds, StampGoal()) else old(fs.goals)
    ensures fs.spendingLimits == if old(fs.spendingLimits) == [] then WithIds(mockLimits, limitIds, StampLimit()) else old(fs.spendingLimits)
    ensures fs.blockedMerchants == AddAllMerchants(old(fs.blockedMerchants), mockMerchants)
    ensures !writeOk ==> fs.store == old(fs.store)
  {
    SeedTransactions(fs, mockTransactions, transactionIds, writeOk);
    SeedGoals(fs, mockGoals, goalIds, writeOk);
    SeedSpendingLimits(fs, mockLimits, limitIds, writeOk);
    SeedMerchants(fs, mockMerchants, writeOk);
  }
}
