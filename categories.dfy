/**
 * The category tables: three constant lists, their order-preserving
 * de-duplicated union, and the icon lookup with its default.
 */
module Categories {
  import opened Common

  /** `EXPENSE_CATEGORIES`. */
  const ExpenseCategories: seq<string> := [
    "Food & Dining",
    "Shopping",
    "Transportation",
    "Entertainment",
    "Bills & Utilities",
    "Health & Medical",
    "Education",
    "Travel",
    "Personal Care",
    "Gifts & Donations",
    "Housing",
    "Investments",
    "Other"
  ]

  /** `INCOME_CATEGORIES`. */
  const IncomeCategories: seq<string> := [
    "Salary",
    "Freelance",
    "Business",
    "Investments",
    "Gifts",
    "Refunds",
    "Other"
  ]

  /** `GOAL_CATEGORIES`. */
  const GoalCategories: seq<string> := [
    "Savings",
    "Emergency Fund",
    "Vacation",
    "Education",
    "Electronics",
    "Vehicle",
    "Home",
    "Debt Repayment",
    "Retirement",
    "Other"
  ]

  /** `CATEGORY_ICONS`. */
  const CategoryIcons: map<string, string> := map[
    "Food & Dining" := "restaurant",
    "Shopping" := "cart",
    "Transportation" := "car",
    "Entertainment" := "film",
    "Bills & Utilities" := "receipt",
    "Health & Medical" := "medical",
    "Education" := "school",
    "Travel" := "airplane",
    "Personal Care" := "person",
    "Gifts & Donations" := "gift",
    "Housing" := "home",
    "Investments" := "trending-up",
    "Salary" := "cash",
    "Freelance" := "briefcase",
    "Business" := "business",
    "Gifts" := "gift",
    "Refunds" := "return-down-back",
    "Savings" := "save",
    "Emergency Fund" := "medkit",
    "Vacation" := "airplane",
    "Electronics" := "laptop",
    "Vehicle" := "car",
    "Home" := "home",
    "Debt Repayment" := "trending-down",
    "Retirement" := "umbrella",
    "Other" := "ellipsis-horizontal"
  ]

  /** The icon `getCategoryIcon` falls back to. */
  const DefaultIcon: string := "ellipsis-horizontal"

  /** The three lists, one after another, as `getAllCategories` spreads them. */
  const All: seq<string> := ExpenseCategories + IncomeCategories + GoalCategories

  /**
   * `[...new Set(s)]`: each element once, at the place it first occurs.
   */
  function Dedup(s: seq<string>): seq<string>
  {
    if s == [] then []
    else
      var d := Dedup(s[..|s| - 1]);
      if s[|s| - 1] in d then d else d + [s[|s| - 1]]
  }

  /** `Dedup` keeps exactly the elements of its input. */
  lemma {:induction false} DedupSameElements(s: seq<string>)
    ensures forall x :: x in Dedup(s) <==> x in s
  {
    if s != [] {
      var init := s[..|s| - 1];
      assert s == init + [s[|s| - 1]];
      DedupSameElements(init);
    }
  }

  /** `Dedup` never lists an element twice. */
  lemma {:induction false} DedupNoDuplicates(s: seq<string>)
    ensures NoDuplicates(Dedup(s))
  {
    if s != [] {
      DedupNoDuplicates(s[..|s| - 1]);
    }
  }

  /** Index of the first occurrence of `x` in `s`; `|s|` when there is none. */
  function FirstIndex(s: seq<string>, x: string): (k: nat)
    ensures k <= |s|
    ensures k < |s| ==> s[k] == x
    ensures forall j :: 0 <= j < k ==> s[j] != x
  {
    if s == [] then 0 else if s[0] == x then 0 else 1 + FirstIndex(s[1..], x)
  }

  /** Looking past a prefix: the index is the prefix's own, or its length plus the rest's. */
  lemma {:induction false} FirstIndexAppend(s: seq<string>, t: seq<string>, x: string)
    ensures FirstIndex(s + t, x) == if x in s then FirstIndex(s, x) else |s| + FirstIndex(t, x)
  {
    if s == [] {
      assert s + t == t;
    } else if s[0] != x {
      assert (s + t)[1..] == s[1..] + t;
      FirstIndexAppend(s[1..], t, x);
    }
  }

  /** `Dedup` lists the elements in the order of their first occurrences. */
  lemma {:induction false} DedupKeepsFirstOccurrenceOrder(s: seq<string>)
    ensures forall i, j :: 0 <= i < j < |Dedup(s)| ==> FirstIndex(s, Dedup(s)[i]) < FirstIndex(s, Dedup(s)[j])
  {
    if s != [] {
      var init, last := s[..|s| - 1], s[|s| - 1];
      assert s == init + [last];
      DedupKeepsFirstOccurrenceOrder(init);
      DedupSameElements(init);
      var d := Dedup(init);
      forall x | x in init ensures FirstIndex(s, x) == FirstIndex(init, x) < |init| {
        FirstIndexAppend(init, [last], x);
      }
      if last !in d {
        FirstIndexAppend(init, [last], last);
        assert FirstIndex(s, last) == |init|;
      }
    }
  }

  /** `getAllCategories`. */
  function AllCategories(): (r: seq<string>)
    ensures NoDuplicates(r)
    ensures forall c :: c in r <==> c in ExpenseCategories || c in IncomeCategories || c in GoalCategories
  {
    DedupNoDuplicates(All);
    DedupSameElements(All);
    Dedup(All)
  }

  /** The union keeps the first-occurrence order of the three lists, one after another. */
  lemma AllCategoriesInOrder()
    ensures forall i, j :: 0 <= i < j < |AllCategories()| ==>
      FirstIndex(All, AllCategories()[i]) < FirstIndex(All, AllCategories()[j])
  {
    DedupKeepsFirstOccurrenceOrder(All);
  }

  /** One more element of `All`, not listed yet: it is appended. */
  lemma DedupPrefixGrows(k: nat, before: seq<string>, x: string)
    requires 0 < k <= |All| && All[k - 1] == x
    requires Dedup(All[..k - 1]) == before
    requires x !in before
    ensures Dedup(All[..k]) == before + [x]
  {
    assert All[..k][..k - 1] == All[..k - 1];
  }

  /** One more element of `All`, already listed: nothing changes. */
  lemma DedupPrefixKeeps(k: nat, before: seq<string>, x: string)
    requires 0 < k <= |All| && All[k - 1] == x
    requires Dedup(All[..k - 1]) == before
    requires x in before
    ensures Dedup(All[..k]) == before
  {
    assert All[..k][..k - 1] == All[..k - 1];
  }

  /**
   * Evaluation steps of `AllCategoriesValue`, not properties of their own:
   * `Dedup` of each prefix of `All`, one element at a time. The computation
   * is split thirty ways only so that each step stays small for the solver;
   * together they state nothing beyond `AllCategoriesValue`.
   */
  lemma DedupPrefix1()
    ensures Dedup(All[..1]) == ["Food & Dining"]
  {
    DedupPrefixGrows(1, [], "Food & Dining");
  }

  lemma DedupPrefix2()
    ensures Dedup(All[..2]) == ["Food & Dining", "Shopping"]
  {
    DedupPrefix1();
    DedupPrefixGrows(2, ["Food & Dining"], "Shopping");
  }

  lemma DedupPrefix3()
    ensures Dedup(All[..3]) == ["Food & Dining", "Shopping", "Transportation"]
  {
    DedupPrefix2();
    DedupPrefixGrows(3, ["Food & Dining", "Shopping"], "Transportation");
  }

  lemma DedupPrefix4()
    ensures Dedup(All[..4]) == ["Food & Dining", "Shopping", "Transportation", "Entertainment"]
  {
    DedupPrefix3();
    DedupPrefixGrows(4, ["Food & Dining", "Shopping", "Transportation"], "Entertainment");
  }

  lemma DedupPrefix5()
    ensures Dedup(All[..5]) == ["Food & Dining", "Shopping", "Transportation", "Entertainment", "Bills & Utilities"]
  {
    DedupPrefix4();
    DedupPrefixGrows(5, ["Food & Dining", "Shopping", "Transportation", "Entertainment"], "Bills & Utilities");
  }

  lemma DedupPrefix6()
    ensures Dedup(All[..6]) == ["Food & Dining", "Shopping", "Transportation", "Entertainment", "Bills & Utilities", "Health & Medical"]
  {
    DedupPrefix5();
    DedupPrefixGrows(6, ["Food & Dining", "Shopping", "Transportation", "Entertainment", "Bills & Utilities"], "Health & Medical");
  }

  lemma DedupPrefix7()
    ensures Dedup(All[..7]) == ["Food & Dining", "Shopping", "Transportation", "Entertainment", "Bills & Utilities", "Health & Medical", "Education"]
  {
    DedupPrefix6();
    DedupPrefixGrows(7, ["Food & Dining", "Shopping", "Transportation", "Entertainment", "Bills & Utilities", "Health & Medical"], "Education");
  }

  lemma DedupPrefix8()
    ensures Dedup(All[..8]) == ["Food & Dining", "Shopping", "Transportation", "Entertainment", "Bills & Utilities", "Health & Medical", "Education", "Travel"]
  {
    DedupPrefix7();
    DedupPrefixGrows(8, ["Food & Dining", "Shopping", "Transportation", "Entertainment", "Bills & Utilities", "Health & Medical", "Education"], "Travel");
  }

  lemma DedupPrefix9()
    ensures Dedup(All[..9]) == ["Food & Dining", "Shopping", "Transportation", "Entertainment", "Bills & Utilities", "Health & Medical", "Education", "Travel", "Personal Care"]
  {
    DedupPrefix8();
    DedupPrefixGrows(9, ["Food & Dining", "Shopping", "Transportation", "Entertainment", "Bills & Utilities", "Health & Medical", "Education", "Travel"], "Personal Care");
  }

  lemma DedupPrefix10()
    ensures Dedup(All[..10]) == ["Food & Dining", "Shopping", "Transportation", "Entertainment", "Bills & Utilities", "Health & Medical", "Education", "Travel", "Personal Care", "Gifts & Donations"]
  {
    DedupPrefix9();
    DedupPrefixGrows(10, ["Food & Dining", "Shopping", "Transportation", "Entertainment", "Bills & Utilities", "Health & Medical", "Education", "Travel", "Personal Care"], "Gifts & Donations");
  }

  lemma DedupPrefix11()
    ensures Dedup(All[..11]) == ["Food & Dining", "Shopping", "Transportation", "Entertainment", "Bills & Utilities", "Health & Medical", "Education", "Travel", "Personal Care", "Gifts & Donations", "Housing"]
  {
    DedupPrefix10();
    DedupPrefixGrows(11, ["Food & Dining", "Shopping", "Transportation", "Entertainment", "Bills & Utilities", "Health & Medical", "Education", "Travel", "Personal Care", "Gifts & Donations"], "Housing");
  }

  lemma DedupPrefix12()
    ensures Dedup(All[..12]) == ["Food & Dining", "Shopping", "Transportation", "Entertainment", "Bills & Utilities", "Health & Medical", "Education", "Travel", "Personal Care", "Gifts & Donations", "Housing", "Investments"]
  {
    DedupPrefix11();
    DedupPrefixGrows(12, ["Food & Dining", "Shopping", "Transportation", "Entertainment", "Bills & Utilities", "Health & Medical", "Education", "Travel", "Personal Care", "Gifts & Donations", "Housing"], "Investments");
  }

  lemma DedupPrefix13()
    ensures Dedup(All[..13]) == ["Food & Dining", "Shopping", "Transportation", "Entertainment", "Bills & Utilities", "Health & Medical", "Education", "Travel", "Personal Care", "Gifts & Donations", "Housing", "Investments", "Other"]
  {
    DedupPrefix12();
    DedupPrefixGrows(13, ["Food & Dining", "Shopping", "Transportation", "Entertainment", "Bills & Utilities", "Health & Medical", "Education", "Travel", "Personal Care", "Gifts & Donations", "Housing", "Investments"], "Other");
  }

  lemma DedupPrefix14()
    ensures Dedup(All[..14]) == ["Food & Dining", "Shopping", "Transportation", "Entertainment", "Bills & Utilities", "Health & Medical", "Education", "Travel", "Personal Care", "Gifts & Donations", "Housing", "Investments", "Other", "Salary"]
  {
    DedupPrefix13();
    DedupPrefixGrows(14, ["Food & Dining", "Shopping", "Transportation", "Entertainment", "Bills & Utilities", "Health & Medical", "Education", "Travel", "Personal Care", "Gifts & Donations", "Housing", "Investments", "Other"], "Salary");
  }

  lemma DedupPrefix15()
    ensures Dedup(All[..15]) == ["Food & Dining", "Shopping", "Transportation", "Entertainment", "Bills & Utilities", "Health & Medical", "Education", "Travel", "Personal Care", "Gifts & Donations", "Housing", "Investments", "Other", "Salary", "Freelance"]
  {
    DedupPrefix14();
    DedupPrefixGrows(15, ["Food & Dining", "Shopping", "Transportation", "Entertainment", "Bills & Utilities", "Health & Medical", "Education", "Travel", "Personal Care", "Gifts & Donations", "Housing", "Investments", "Other", "Salary"], "Freelance");
  }

  lemma DedupPrefix16()
    ensures Dedup(All[..16]) == ["Food & Dining", "Shopping", "Transportation", "Entertainment", "Bills & Utilities", "Health & Medical", "Education", "Travel", "Personal Care", "Gifts & Donations", "Housing", "Investments", "Other", "Salary", "Freelance", "Business"]
  {
    DedupPrefix15();
    DedupPrefixGrows(16, ["Food & Dining", "Shopping", "Transportation", "Entertainment", "Bills & Utilities", "Health & Medical", "Education", "Travel", "Personal Care", "Gifts & Donations", "Housing", "Investments", "Other", "Salary", "Freelance"], "Business");
  }

  lemma DedupPrefix17()
    ensures Dedup(All[..17]) == ["Food & Dining", "Shopping", "Transportation", "Entertainment", "Bills & Utilities", "Health & Medical", "Education", "Travel", "Personal Care", "Gifts & Donations", "Housing", "Investments", "Other", "Salary", "Freelance", "Business"]
  {
    DedupPrefix16();
    DedupPrefixKeeps(17, ["Food & Dining", "Shopping", "Transportation", "Entertainment", "Bills & Utilities", "Health & Medical", "Education", "Travel", "Personal Care", "Gifts & Donations", "Housing", "Investments", "Other", "Salary", "Freelance", "Business"], "Investments");
  }

  lemma DedupPrefix18()
    ensures Dedup(All[..18]) == ["Food & Dining", "Shopping", "Transportation", "Entertainment", "Bills & Utilities", "Health & Medical", "Education", "Travel", "Personal Care", "Gifts & Donations", "Housing", "Investments", "Other", "Salary", "Freelance", "Business", "Gifts"]
  {
    DedupPrefix17();
    DedupPrefixGrows(18, ["Food & Dining", "Shopping", "Transportation", "Entertainment", "Bills & Utilities", "Health & Medical", "Education", "Travel", "Personal Care", "Gifts & Donations", "Housing", "Investments", "Other", "Salary", "Freelance", "Business"], "Gifts");
  }

  lemma DedupPrefix19()
    ensures Dedup(All[..19]) == ["Food & Dining", "Shopping", "Transportation", "Entertainment", "Bills & Utilities", "Health & Medical", "Education", "Travel", "Personal Care", "Gifts & Donations", "Housing", "Investments", "Other", "Salary", "Freelance", "Business", "Gifts", "Refunds"]
  {
    DedupPrefix18();
    DedupPrefixGrows(19, ["Food & Dining", "Shopping", "Transportation", "Entertainment", "Bills & Utilities", "Health & Medical", "Education", "Travel", "Personal Care", "Gifts & Donations", "Housing", "Investments", "Other", "Salary", "Freelance", "Business", "Gifts"], "Refunds");
  }

  lemma DedupPrefix20()
    ensures Dedup(All[..20]) == ["Food & Dining", "Shopping", "Transportation", "Entertainment", "Bills & Utilities", "Health & Medical", "Education", "Travel", "Personal Care", "Gifts & Donations", "Housing", "Investments", "Other", "Salary", "Freelance", "Business", "Gifts", "Refunds"]
  {
    DedupPrefix19();
    DedupPrefixKeeps(20, ["Food & Dining", "Shopping", "Transportation", "Entertainment", "Bills & Utilities", "Health & Medical", "Education", "Travel", "Personal Care", "Gifts & Donations", "Housing", "Investments", "Other", "Salary", "Freelance", "Business", "Gifts", "Refunds"], "Other");
  }

  lemma DedupPrefix21()
    ensures Dedup(All[..21]) == ["Food & Dining", "Shopping", "Transportation", "Entertainment", "Bills & Utilities", "Health & Medical", "Education", "Travel", "Personal Care", "Gifts & Donations", "Housing", "Investments", "Other", "Salary", "Freelance", "Business", "Gifts", "Refunds", "Savings"]
  {
    DedupPrefix20();
    DedupPrefixGrows(21, ["Food & Dining", "Shopping", "Transportation", "Entertainment", "Bills & Utilities", "Health & Medical", "Education", "Travel", "Personal Care", "Gifts & Donations", "Housing", "Investments", "Other", "Salary", "Freelance", "Business", "Gifts", "Refunds"], "Savings");
  }

  lemma DedupPrefix22()
    ensures Dedup(All[..22]) == ["Food & Dining", "Shopping", "Transportation", "Entertainment", "Bills & Utilities", "Health & Medical", "Education", "Travel", "Personal Care", "Gifts & Donations", "Housing", "Investments", "Other", "Salary", "Freelance", "Business", "Gifts", "Refunds", "Savings", "Emergency Fund"]
  {
    DedupPrefix21();
    DedupPrefixGrows(22, ["Food & Dining", "Shopping", "Transportation", "Entertainment", "Bills & Utilities", "Health & Medical", "Education", "Travel", "Personal Care", "Gifts & Donations", "Housing", "Investments", "Other", "Salary", "Freelance", "Business", "Gifts", "Refunds", "Savings"], "Emergency Fund");
  }

  lemma DedupPrefix23()
    ensures Dedup(All[..23]) == ["Food & Dining", "Shopping", "Transportation", "Entertainment", "Bills & Utilities", "Health & Medical", "Education", "Travel", "Personal Care", "Gifts & Donations", "Housing", "Investments", "Other", "Salary", "Freelance", "Business", "Gifts", "Refunds", "Savings", "Emergency Fund", "Vacation"]
  {
    DedupPrefix22();
    DedupPrefixGrows(23, ["Food & Dining", "Shopping", "Transportation", "Entertainment", "Bills & Utilities", "Health & Medical", "Education", "Travel", "Personal Care", "Gifts & Donations", "Housing", "Investments", "Other", "Salary", "Freelance", "Business", "Gifts", "Refunds", "Savings", "Emergency Fund"], "Vacation");
  }

  lemma DedupPrefix24()
    ensures Dedup(All[..24]) == ["Food & Dining", "Shopping", "Transportation", "Entertainment", "Bills & Utilities", "Health & Medical", "Education", "Travel", "Personal Care", "Gifts & Donations", "Housing", "Investments", "Other", "Salary", "Freelance", "Business", "Gifts", "Refunds", "Savings", "Emergency Fund", "Vacation"]
  {
    DedupPrefix23();
    DedupPrefixKeeps(24, ["Food & Dining", "Shopping", "Transportation", "Entertainment", "Bills & Utilities", "Health & Medical", "Education", "Travel", "Personal Care", "Gifts & Donations", "Housing", "Investments", "Other", "Salary", "Freelance", "Business", "Gifts", "Refunds", "Savings", "Emergency Fund", "Vacation"], "Education");
  }

  lemma DedupPrefix25()
    ensures Dedup(All[..25]) == ["Food & Dining", "Shopping", "Transportation", "Entertainment", "Bills & Utilities", "Health & Medical", "Education", "Travel", "Personal Care", "Gifts & Donations", "Housing", "Investments", "Other", "Salary", "Freelance", "Business", "Gifts", "Refunds", "Savings", "Emergency Fund", "Vacation", "Electronics"]
  {
    DedupPrefix24();
    DedupPrefixGrows(25, ["Food & Dining", "Shopping", "Transportation", "Entertainment", "Bills & Utilities", "Health & Medical", "Education", "Travel", "Personal Care", "Gifts & Donations", "Housing", "Investments", "Other", "Salary", "Freelance", "Business", "Gifts", "Refunds", "Savings", "Emergency Fund", "Vacation"], "Electronics");
  }

  lemma DedupPrefix26()
    ensures Dedup(All[..26]) == ["Food & Dining", "Shopping", "Transportation", "Entertainment", "Bills & Utilities", "Health & Medical", "Education", "Travel", "Personal Care", "Gifts & Donations", "Housing", "Investments", "Other", "Salary", "Freelance", "Business", "Gifts", "Refunds", "Savings", "Emergency Fund", "Vacation", "Electronics", "Vehicle"]
  {
    DedupPrefix25();
    DedupPrefixGrows(26, ["Food & Dining", "Shopping", "Transportation", "Entertainment", "Bills & Utilities", "Health & Medical", "Education", "Travel", "Personal Care", "Gifts & Donations", "Housing", "Investments", "Other", "Salary", "Freelance", "Business", "Gifts", "Refunds", "Savings", "Emergency Fund", "Vacation", "Electronics"], "Vehicle");
  }

  lemma DedupPrefix27()
    ensures Dedup(All[..27]) == ["Food & Dining", "Shopping", "Transportation", "Entertainment", "Bills & Utilities", "Health & Medical", "Education", "Travel", "Personal Care", "Gifts & Donations", "Housing", "Investments", "Other", "Salary", "Freelance", "Business", "Gifts", "Refunds", "Savings", "Emergency Fund", "Vacation", "Electronics", "Vehicle", "Home"]
  {
    DedupPrefix26();
    DedupPrefixGrows(27, ["Food & Dining", "Shopping", "Transportation", "Entertainment", "Bills & Utilities", "Health & Medical", "Education", "Travel", "Personal Care", "Gifts & Donations", "Housing", "Investments", "Other", "Salary", "Freelance", "Business", "Gifts", "Refunds", "Savings", "Emergency Fund", "Vacation", "Electronics", "Vehicle"], "Home");
  }

  lemma DedupPrefix28()
    ensures Dedup(All[..28]) == ["Food & Dining", "Shopping", "Transportation", "Entertainment", "Bills & Utilities", "Health & Medical", "Education", "Travel", "Personal Care", "Gifts & Donations", "Housing", "Investments", "Other", "Salary", "Freelance", "Business", "Gifts", "Refunds", "Savings", "Emergency Fund", "Vacation", "Electronics", "Vehicle", "Home", "Debt Repayment"]
  {
    DedupPrefix27();
    DedupPrefixGrows(28, ["Food & Dining", "Shopping", "Transportation", "Entertainment", "Bills & Utilities", "Health & Medical", "Education", "Travel", "Personal Care", "Gifts & Donations", "Housing", "Investments", "Other", "Salary", "Freelance", "Business", "Gifts", "Refunds", "Savings", "Emergency Fund", "Vacation", "Electronics", "Vehicle", "Home"], "Debt Repayment");
  }

  lemma DedupPrefix29()
    ensures Dedup(All[..29]) == ["Food & Dining", "Shopping", "Transportation", "Entertainment", "Bills & Utilities", "Health & Medical", "Education", "Travel", "Personal Care", "Gifts & Donations", "Housing", "Investments", "Other", "Salary", "Freelance", "Business", "Gifts", "Refunds", "Savings", "Emergency Fund", "Vacation", "Electronics", "Vehicle", "Home", "Debt Repayment", "Retirement"]
  {
    DedupPrefix28();
    DedupPrefixGrows(29, ["Food & Dining", "Shopping", "Transportation", "Entertainment", "Bills & Utilities", "Health & Medical", "Education", "Travel", "Personal Care", "Gifts & Donations", "Housing", "Investments", "Other", "Salary", "Freelance", "Business", "Gifts", "Refunds", "Savings", "Emergency Fund", "Vacation", "Electronics", "Vehicle", "Home", "Debt Repayment"], "Retirement");
  }

  lemma DedupPrefix30()
    ensures Dedup(All[..30]) == ["Food & Dining", "Shopping", "Transportation", "Entertainment", "Bills & Utilities", "Health & Medical", "Education", "Travel", "Personal Care", "Gifts & Donations", "Housing", "Investments", "Other", "Salary", "Freelance", "Business", "Gifts", "Refunds", "Savings", "Emergency Fund", "Vacation", "Electronics", "Vehicle", "Home", "Debt Repayment", "Retirement"]
  {
    DedupPrefix29();
    DedupPrefixKeeps(30, ["Food & Dining", "Shopping", "Transportation", "Entertainment", "Bills & Utilities", "Health & Medical", "Education", "Travel", "Personal Care", "Gifts & Donations", "Housing", "Investments", "Other", "Salary", "Freelance", "Business", "Gifts", "Refunds", "Savings", "Emergency Fund", "Vacation", "Electronics", "Vehicle", "Home", "Debt Repayment", "Retirement"], "Other");
  }

  /**
   * The union has 26 entries: Investments, Education and Other each occur in
   * two or three lists and are kept once, where they first occur.
   */
  lemma AllCategoriesValue()
    ensures AllCategories() == ["Food & Dining", "Shopping", "Transportation", "Entertainment", "Bills & Utilities", "Health & Medical", "Education", "Travel", "Personal Care", "Gifts & Donations", "Housing", "Investments", "Other", "Salary", "Freelance", "Business", "Gifts", "Refunds", "Savings", "Emergency Fund", "Vacation", "Electronics", "Vehicle", "Home", "Debt Repayment", "Retirement"]
    ensures |AllCategories()| == 26
  {
    DedupPrefix30();
    assert All[..30] == All;
  }

  /** `getCategoryIcon`: the table entry when there is a non-empty one, else the default. */
  function GetCategoryIcon(category: string): (icon: string)
    ensures category in CategoryIcons ==> icon == CategoryIcons[category]
    ensures category !in CategoryIcons ==> icon == DefaultIcon
  {
    assert forall c :: c in CategoryIcons ==> CategoryIcons[c] != "";
    if category in CategoryIcons && CategoryIcons[category] != "" then CategoryIcons[category] else DefaultIcon
  }

  /** Every category of the three lists has its own entry in the icon table. */
  lemma EveryCategoryHasIcon()
    ensures forall c :: c in AllCategories() ==> c in CategoryIcons
  {
    AllCategoriesValue();
  }

  /** `Other` is given the same icon as a category missing from the table. */
  lemma OtherLooksUnknown(unknown: string)
    requires unknown !in CategoryIcons
    ensures GetCategoryIcon("Other") == GetCategoryIcon(unknown)
  {
  }
}
