/** The analytics service (backend/internal/application/service/analytics_service.go):
    monthly income and expense, the category breakdown and net worth, computed
    from what the account and transaction repositories return. Amounts are exact
    rationals and are shown with two fraction digits. */
module AnalyticsService {
  import opened Wrappers
  import opened Rational
  import opened Calendar
  import opened Entity
  import opened Tables
  import opened Sorting
  import opened TransactionRepository
  import AccountRepository

  // ---------------------------------------------------------------------------
  // Response shapes (dto/analytics_dto.go)
  // ---------------------------------------------------------------------------

  datatype IncomeExpenseData = IncomeExpenseData(period: string, income: string, expense: string, net: string)

  datatype IncomeExpenseResponse = IncomeExpenseResponse(
    data: seq<IncomeExpenseData>,
    totalIncome: string,
    totalExpense: string,
    netTotal: string,
    currencyMnemonic: string)

  datatype CategoryBreakdownItem = CategoryBreakdownItem(category: string, amount: string, count: int)

  datatype CategoryBreakdownResponse = CategoryBreakdownResponse(
    income: seq<CategoryBreakdownItem>,
    expense: seq<CategoryBreakdownItem>,
    currencyMnemonic: string)

  datatype NetWorthItem = NetWorthItem(accountName: string, accountType: string, balance: string)

  datatype NetWorthResponse = NetWorthResponse(
    assets: seq<NetWorthItem>,
    liabilities: seq<NetWorthItem>,
    totalAssets: string,
    totalLiabilities: string,
    netWorth: string,
    currencyMnemonic: string)

  // ---------------------------------------------------------------------------
  // The repositories, as the service sees them
  // ---------------------------------------------------------------------------

  /** Which repository calls fail (a lost connection, a rejected query): the
      account-type lookups for `typeQueryFails`, the transaction search of an
      account for the month starting at a given instant when the pair is in
      `findAllFails`, and the balance queries for `balanceFails`. */
  datatype Failures = Failures(typeQueryFails: set<AccountType>, findAllFails: set<(string, Time)>, balanceFails: set<string>)

  /** The stored ledger and the failures the repositories report on it. */
  datatype Ledger = Ledger(db: Database, fails: Failures)

  /** `a` sorts before `b` by name, comparing character codes. */
  predicate NameFirst(a: Account, b: Account) {
    NotAfterText(a.name, b.name)
  }

  predicate NotAfterText(a: string, b: string) {
    a == [] || (b != [] && (a[0] < b[0] || (a[0] == b[0] && NotAfterText(a[1..], b[1..]))))
  }

  /** The accounts of one type, in table order. */
  function OfType(accounts: seq<Account>, t: AccountType): (r: seq<Account>)
    ensures forall a :: a in r <==> a in accounts && a.accountType == t
  {
    if accounts == [] then []
    else
      var rest := OfType(accounts[..|accounts| - 1], t);
      var last := accounts[|accounts| - 1];
      assert accounts == accounts[..|accounts| - 1] + [last];
      if last.accountType == t then rest + [last] else rest
  }

  /** `accountRepo.FindByType`: `WHERE a.account_type = $1 ORDER BY a.name`. */
  function FindByType(ledger: Ledger, t: AccountType): (r: Result<seq<Account>>)
    ensures r.Err? <==> t in ledger.fails.typeQueryFails
    ensures r.Ok? ==> forall a :: a in r.value <==> a in ledger.db.accounts && a.accountType == t
  {
    if t in ledger.fails.typeQueryFails then Err("failed to query accounts by type")
    else
      var found := OfType(ledger.db.accounts, t);
      var sorted := SortBy(found, NameFirst);
      assert forall a :: a in sorted <==> a in found by {
        forall a ensures a in sorted <==> a in found {
          SortByMembers(found, NameFirst, a);
        }
      }
      Ok(sorted)
  }

  /** `getRootCurrencyMnemonic`: the commodity mnemonic of the first ROOT account,
      or "" when the lookup fails or finds none. */
  function RootCurrencyMnemonic(ledger: Ledger): string {
    match FindByType(ledger, AccountTypeRoot)
    case Err(_) => ""
    case Ok(roots) => if |roots| == 0 then "" else roots[0].commodityMnemonic
  }

  /** The mnemonic is "" when the ROOT lookup fails or there is no ROOT account,
      and otherwise the mnemonic of some ROOT account. */
  lemma RootCurrencyMnemonicMeaning(ledger: Ledger)
    ensures AccountTypeRoot in ledger.fails.typeQueryFails ==> RootCurrencyMnemonic(ledger) == ""
    ensures (forall a :: a in ledger.db.accounts ==> a.accountType != AccountTypeRoot) ==> RootCurrencyMnemonic(ledger) == ""
    ensures AccountTypeRoot !in ledger.fails.typeQueryFails && (exists a :: a in ledger.db.accounts && a.accountType == AccountTypeRoot) ==>
      exists a :: a in ledger.db.accounts && a.accountType == AccountTypeRoot && RootCurrencyMnemonic(ledger) == a.commodityMnemonic
  {
    var r := FindByType(ledger, AccountTypeRoot);
    if r.Ok? && |r.value| > 0 {
      assert r.value[0] in r.value;
    }
    if r.Ok? && exists a :: a in ledger.db.accounts && a.accountType == AccountTypeRoot {
      var a :| a in ledger.db.accounts && a.accountType == AccountTypeRoot;
      assert a in r.value;
    }
  }

  /** Name comparison is total. */
  lemma {:induction false} NotAfterTextTotal(a: string, b: string)
    ensures NotAfterText(a, b) || NotAfterText(b, a)
  {
    if a != [] && b != [] && a[0] == b[0] {
      NotAfterTextTotal(a[1..], b[1..]);
    }
  }

  /** Name comparison is transitive. */
  lemma {:induction false} NotAfterTextTransitive(a: string, b: string, c: string)
    requires NotAfterText(a, b) && NotAfterText(b, c)
    ensures NotAfterText(a, c)
  {
    if a != [] && a[0] == b[0] && b[0] == c[0] {
      NotAfterTextTransitive(a[1..], b[1..], c[1..]);
    }
  }

  /** `ORDER BY a.name` is a total preorder. */
  lemma NameFirstTotal()
    ensures TotalPreorder(NameFirst)
  {
    forall a: Account, b: Account ensures NameFirst(a, b) || NameFirst(b, a) {
      NotAfterTextTotal(a.name, b.name);
    }
    forall a: Account, b: Account, c: Account | NameFirst(a, b) && NameFirst(b, c) ensures NameFirst(a, c) {
      NotAfterTextTransitive(a.name, b.name, c.name);
    }
  }

  /** The accounts `FindByType` returns are in name order. */
  lemma FindByTypeSorted(ledger: Ledger, t: AccountType)
    ensures FindByType(ledger, t).Ok? ==> SortedBy(FindByType(ledger, t).value, NameFirst)
  {
    if t !in ledger.fails.typeQueryFails {
      NameFirstTotal();
      SortBySorted(OfType(ledger.db.accounts, t), NameFirst);
    }
  }

  /** The mnemonic, when there is a ROOT account, is that of a ROOT account whose
      name comes first. */
  lemma RootCurrencyMnemonicFirst(ledger: Ledger)
    requires AccountTypeRoot !in ledger.fails.typeQueryFails
    requires exists a :: a in ledger.db.accounts && a.accountType == AccountTypeRoot
    ensures exists a :: (a in ledger.db.accounts && a.accountType == AccountTypeRoot
      && RootCurrencyMnemonic(ledger) == a.commodityMnemonic
      && forall b :: b in ledger.db.accounts && b.accountType == AccountTypeRoot ==> NameFirst(a, b))
  {
    var roots := FindByType(ledger, AccountTypeRoot).value;
    var a :| a in ledger.db.accounts && a.accountType == AccountTypeRoot;
    assert a in roots;
    FindByTypeSorted(ledger, AccountTypeRoot);
    NameFirstTotal();
    forall b | b in ledger.db.accounts && b.accountType == AccountTypeRoot
      ensures NameFirst(roots[0], b)
    {
      var j :| 0 <= j < |roots| && roots[j] == b;
      if j == 0 {
        NotAfterTextTotal(b.name, b.name);
      }
    }
  }

  // ---------------------------------------------------------------------------
  // Income and expense by month
  // ---------------------------------------------------------------------------

  function AbsReal(x: real): (r: real)
    ensures r >= 0.0 && (r == x || r == -x)
  {
    if x < 0.0 then -x else x
  }

  /** The absolute values of the splits posted to account `guid`. */
  function SplitsTotal(splits: seq<Split>, guid: string): (r: real)
    ensures r >= 0.0
  {
    if splits == [] then 0.0
    else
      var s := splits[|splits| - 1];
      SplitsTotal(splits[..|splits| - 1], guid)
        + (if s.accountGuid == guid then AbsReal(RationalToDecimal(s.valueNum, s.valueDenom)) else 0.0)
  }

  /** `SplitsTotal` over every transaction. */
  function TransactionsTotal(txs: seq<Transaction>, guid: string): (r: real)
    ensures r >= 0.0
  {
    if txs == [] then 0.0
    else TransactionsTotal(txs[..|txs| - 1], guid) + SplitsTotal(txs[|txs| - 1].splits, guid)
  }

  /** The filter of one account's transactions posted in a month. */
  function MonthFilter(guid: string, monthStart: Time, monthEnd: Time): Option<TransactionFilter> {
    Some(TransactionFilter(Some(guid), Some(monthStart), Some(monthEnd), None, None, None, 0, 0))
  }

  /** One account's contribution to a month: nothing when its transaction search
      fails (the loop continues with the next account). */
  function AccountMonthTotal(ledger: Ledger, guid: string, monthStart: Time, monthEnd: Time): (r: real)
    ensures r >= 0.0
    ensures (guid, monthStart) in ledger.fails.findAllFails ==> r == 0.0
  {
    match FindAllResult(ledger.db, MonthFilter(guid, monthStart, monthEnd), (guid, monthStart) in ledger.fails.findAllFails)
    case Err(_) => 0.0
    case Ok(txs) => TransactionsTotal(txs, guid)
  }

  /** The month's total over a list of accounts. */
  function AccountsMonthTotal(ledger: Ledger, accounts: seq<Account>, monthStart: Time, monthEnd: Time): (r: real)
    ensures r >= 0.0
  {
    if accounts == [] then 0.0
    else
      AccountsMonthTotal(ledger, accounts[..|accounts| - 1], monthStart, monthEnd)
        + AccountMonthTotal(ledger, accounts[|accounts| - 1].guid, monthStart, monthEnd)
  }

  /** The inner two loops for one account: add up |value| of its splits. */
  method SumOnAccount(txs: seq<Transaction>, guid: string) returns (total: real)
    ensures total == TransactionsTotal(txs, guid)
  {
    total := 0.0;
    var i := 0;
    while i < |txs|
      invariant 0 <= i <= |txs|
      invariant total == TransactionsTotal(txs[..i], guid)
    {
      var splits := txs[i].splits;
      var j := 0;
      while j < |splits|
        invariant 0 <= j <= |splits|
        invariant total == TransactionsTotal(txs[..i], guid) + SplitsTotal(splits[..j], guid)
      {
        var split := splits[j];
        assert splits[..j + 1][..j] == splits[..j];
        if split.accountGuid == guid {
          total := total + AbsReal(RationalToDecimal(split.valueNum, split.valueDenom));
        }
        j := j + 1;
      }
      assert splits[..j] == splits;
      assert txs[..i + 1][..i] == txs[..i];
      i := i + 1;
    }
    assert txs[..i] == txs;
  }

  /** The loop over the income (or expense) accounts for one month. */
  method SumForAccounts(ledger: Ledger, accounts: seq<Account>, monthStart: Time, monthEnd: Time) returns (total: real)
    ensures total == AccountsMonthTotal(ledger, accounts, monthStart, monthEnd)
  {
    total := 0.0;
    var i := 0;
    while i < |accounts|
      invariant 0 <= i <= |accounts|
      invariant total == AccountsMonthTotal(ledger, accounts[..i], monthStart, monthEnd)
    {
      var acc := accounts[i];
      assert accounts[..i + 1][..i] == accounts[..i];
      var transactions := FindAll(ledger.db, MonthFilter(acc.guid, monthStart, monthEnd), (acc.guid, monthStart) in ledger.fails.findAllFails);
      if transactions.Ok? {
        var amount := SumOnAccount(transactions.value, acc.guid);
        total := total + amount;
      }
      i := i + 1;
    }
    assert accounts[..i] == accounts;
  }

  /** The dates the bucket loop visits: from `current`, one `AddDate(0, 1, 0)` at
      a time, while not after `end`. */
  function Visits(current: Time, end: Time): (r: seq<Time>)
    decreases MonthIndex(end) - MonthIndex(current) + 1
  {
    if NotAfter(current, end) then
      BeforeMonthIndex(current, end);
      [current] + Visits(AddOneMonth(current), end)
    else []
  }

  /** The visited dates start at `start`, none is after `end`, and the step
      after the last one would be. */
  lemma VisitsMeaning(start: Time, end: Time)
    ensures var v := Visits(start, end);
      (v == [] <==> Before(end, start))
      && (v != [] ==> v[0] == start && Before(end, AddOneMonth(v[|v| - 1])))
      && (forall k :: 0 <= k < |v| ==> NotAfter(v[k], end))
  {
    BeforeTrichotomy(start, end);
    VisitsLast(start, end);
    VisitsNotAfter(start, end);
  }

  lemma {:induction false} VisitsLast(start: Time, end: Time)
    ensures var v := Visits(start, end);
      v != [] ==> Before(end, AddOneMonth(v[|v| - 1]))
    decreases MonthIndex(end) - MonthIndex(start) + 1
  {
    if NotAfter(start, end) {
      BeforeMonthIndex(start, end);
      VisitsLast(AddOneMonth(start), end);
      var rest := Visits(AddOneMonth(start), end);
      if rest == [] {
        BeforeTrichotomy(end, AddOneMonth(start));
      } else {
        assert Visits(start, end)[|Visits(start, end)| - 1] == rest[|rest| - 1];
      }
    }
  }

  lemma {:induction false} VisitsNotAfter(start: Time, end: Time)
    ensures forall k :: 0 <= k < |Visits(start, end)| ==> NotAfter(Visits(start, end)[k], end)
    decreases MonthIndex(end) - MonthIndex(start) + 1
  {
    if NotAfter(start, end) {
      BeforeMonthIndex(start, end);
      VisitsNotAfter(AddOneMonth(start), end);
      var v := Visits(start, end);
      var rest := Visits(AddOneMonth(start), end);
      assert v == [start] + rest;
      forall k | 0 <= k < |v| ensures NotAfter(v[k], end) {
        if k > 0 {
          assert v[k] == rest[k - 1];
        }
      }
    }
  }

  /** Each visited date is the previous one plus a month. */
  lemma {:induction false} VisitsSteps(start: Time, end: Time)
    ensures forall k :: 0 <= k < |Visits(start, end)| - 1 ==> Visits(start, end)[k + 1] == AddOneMonth(Visits(start, end)[k])
    decreases MonthIndex(end) - MonthIndex(start) + 1
  {
    if NotAfter(start, end) {
      BeforeMonthIndex(start, end);
      VisitsSteps(AddOneMonth(start), end);
      var v := Visits(start, end);
      var rest := Visits(AddOneMonth(start), end);
      assert v == [start] + rest;
      forall k | 0 <= k < |v| - 1 ensures v[k + 1] == AddOneMonth(v[k]) {
        if k == 0 {
          assert rest[0] == AddOneMonth(start);
        } else {
          assert v[k + 1] == rest[k] && v[k] == rest[k - 1];
        }
      }
    }
  }

  /** The month a visited date stands for: its first day, and the last day at
      midnight (so the rest of the last day is outside the bucket). */
  function BucketStart(d: Time): Time {
    MonthStart(d)
  }

  function BucketEnd(d: Time): Time {
    MonthEnd(MonthStart(d))
  }

  function MonthIncome(ledger: Ledger, incomeAccounts: seq<Account>, d: Time): real {
    AccountsMonthTotal(ledger, incomeAccounts, BucketStart(d), BucketEnd(d))
  }

  /** One `data` entry: the month as "YYYY-MM", income, expense and their difference. */
  function Bucket(ledger: Ledger, incomeAccounts: seq<Account>, expenseAccounts: seq<Account>, d: Time): IncomeExpenseData {
    BucketEntry(BucketStart(d), MonthIncome(ledger, incomeAccounts, d), MonthIncome(ledger, expenseAccounts, d))
  }

  function BucketEntry(monthStart: Time, income: real, expense: real): IncomeExpenseData {
    IncomeExpenseData(Period(monthStart), StringFixed2(income), StringFixed2(expense), StringFixed2(income - expense))
  }

  /** The buckets of the visited months, in visiting order. */
  function Buckets(ledger: Ledger, incomeAccounts: seq<Account>, expenseAccounts: seq<Account>, dates: seq<Time>): (r: seq<IncomeExpenseData>)
    ensures |r| == |dates|
  {
    if dates == [] then []
    else Buckets(ledger, incomeAccounts, expenseAccounts, dates[..|dates| - 1])
         + [Bucket(ledger, incomeAccounts, expenseAccounts, dates[|dates| - 1])]
  }

  /** The `k`-th bucket is the `k`-th visited month's. */
  lemma BucketsAt(ledger: Ledger, incomeAccounts: seq<Account>, expenseAccounts: seq<Account>, dates: seq<Time>)
    ensures forall k :: 0 <= k < |dates| ==>
      Buckets(ledger, incomeAccounts, expenseAccounts, dates)[k] == Bucket(ledger, incomeAccounts, expenseAccounts, dates[k])
  {
    forall k | 0 <= k < |dates|
      ensures Buckets(ledger, incomeAccounts, expenseAccounts, dates)[k] == Bucket(ledger, incomeAccounts, expenseAccounts, dates[k])
    {
      BucketAt(ledger, incomeAccounts, expenseAccounts, dates, k);
    }
  }

  lemma {:induction false} BucketAt(ledger: Ledger, incomeAccounts: seq<Account>, expenseAccounts: seq<Account>, dates: seq<Time>, k: nat)
    requires k < |dates|
    ensures Buckets(ledger, incomeAccounts, expenseAccounts, dates)[k] == Bucket(ledger, incomeAccounts, expenseAccounts, dates[k])
  {
    if k < |dates| - 1 {
      var init := dates[..|dates| - 1];
      BucketAt(ledger, incomeAccounts, expenseAccounts, init, k);
      assert init[k] == dates[k];
    }
  }

  /** The sum over the visited months of one account list's month totals. */
  function PeriodTotal(ledger: Ledger, accounts: seq<Account>, dates: seq<Time>): (r: real)
    ensures r >= 0.0
  {
    if dates == [] then 0.0
    else PeriodTotal(ledger, accounts, dates[..|dates| - 1]) + MonthIncome(ledger, accounts, dates[|dates| - 1])
  }

  /** What `GetIncomeExpense` returns. */
  function IncomeExpense(ledger: Ledger, startDate: Time, endDate: Time): Result<IncomeExpenseResponse> {
    match FindByType(ledger, AccountTypeIncome)
    case Err(_) => Err("failed to get income accounts")
    case Ok(incomeAccounts) =>
      match FindByType(ledger, AccountTypeExpense)
      case Err(_) => Err("failed to get expense accounts")
      case Ok(expenseAccounts) =>
        var dates := Visits(startDate, endDate);
        Ok(Summary(Buckets(ledger, incomeAccounts, expenseAccounts, dates),
                   PeriodTotal(ledger, incomeAccounts, dates), PeriodTotal(ledger, expenseAccounts, dates),
                   RootCurrencyMnemonic(ledger)))
  }

  /** The response around the buckets: both totals and their difference, shown
      with two fraction digits. */
  function Summary(data: seq<IncomeExpenseData>, totalIncome: real, totalExpense: real, mnemonic: string): IncomeExpenseResponse {
    IncomeExpenseResponse(data, StringFixed2(totalIncome), StringFixed2(totalExpense), StringFixed2(totalIncome - totalExpense), mnemonic)
  }

  lemma BucketsSnoc(ledger: Ledger, incomeAccounts: seq<Account>, expenseAccounts: seq<Account>, dates: seq<Time>, d: Time)
    ensures Buckets(ledger, incomeAccounts, expenseAccounts, dates + [d])
      == Buckets(ledger, incomeAccounts, expenseAccounts, dates) + [Bucket(ledger, incomeAccounts, expenseAccounts, d)]
  {
    assert (dates + [d])[..|dates|] == dates;
  }

  lemma PeriodTotalSnoc(ledger: Ledger, accounts: seq<Account>, dates: seq<Time>, d: Time)
    ensures PeriodTotal(ledger, accounts, dates + [d]) == PeriodTotal(ledger, accounts, dates) + MonthIncome(ledger, accounts, d)
  {
    assert (dates + [d])[..|dates|] == dates;
  }

  /** `GetIncomeExpense`: one bucket per visited month, with running totals. */
  method GetIncomeExpense(ledger: Ledger, startDate: Time, endDate: Time) returns (r: Result<IncomeExpenseResponse>)
    ensures r == IncomeExpense(ledger, startDate, endDate)
  {
    var incomeResult := FindByType(ledger, AccountTypeIncome);
    if incomeResult.Err? {
      return Err("failed to get income accounts");
    }
    var expenseResult := FindByType(ledger, AccountTypeExpense);
    if expenseResult.Err? {
      return Err("failed to get expense accounts");
    }
    var data, totalIncome, totalExpense := MonthlyData(ledger, incomeResult.value, expenseResult.value, startDate, endDate);
    r := Ok(Summary(data, totalIncome, totalExpense, RootCurrencyMnemonic(ledger)));
  }

  /** One pass of the month loop's body: the month's bounds, the income and
      expense sums, and the bucket built from them. */
  method MonthStep(ledger: Ledger, incomeAccounts: seq<Account>, expenseAccounts: seq<Account>, currentDate: Time)
    returns (entry: IncomeExpenseData, monthIncome: real, monthExpense: real)
    ensures monthIncome == MonthIncome(ledger, incomeAccounts, currentDate)
    ensures monthExpense == MonthIncome(ledger, expenseAccounts, currentDate)
    ensures entry == Bucket(ledger, incomeAccounts, expenseAccounts, currentDate)
  {
    var monthStart := MonthStart(currentDate);
    var monthEnd := MonthEnd(monthStart);
    monthIncome := SumForAccounts(ledger, incomeAccounts, monthStart, monthEnd);
    monthExpense := SumForAccounts(ledger, expenseAccounts, monthStart, monthEnd);
    entry := BucketEntry(monthStart, monthIncome, monthExpense);
  }

  /** The visits still ahead lose their head when the loop moves on a month. */
  lemma VisitsStep(startDate: Time, endDate: Time, visited: seq<Time>, currentDate: Time)
    requires NotAfter(currentDate, endDate)
    requires visited + Visits(currentDate, endDate) == Visits(startDate, endDate)
    ensures (visited + [currentDate]) + Visits(AddOneMonth(currentDate), endDate) == Visits(startDate, endDate)
  {
    BeforeMonthIndex(currentDate, endDate);
    var rest := Visits(AddOneMonth(currentDate), endDate);
    assert Visits(currentDate, endDate) == [currentDate] + rest;
    assert visited + ([currentDate] + rest) == (visited + [currentDate]) + rest;
  }

  /** The running `data` and totals after one more visited month. */
  lemma MonthlyDataStep(ledger: Ledger, incomeAccounts: seq<Account>, expenseAccounts: seq<Account>, visited: seq<Time>, d: Time,
                        data: seq<IncomeExpenseData>, totalIncome: real, totalExpense: real,
                        entry: IncomeExpenseData, monthIncome: real, monthExpense: real)
    requires data == Buckets(ledger, incomeAccounts, expenseAccounts, visited)
    requires totalIncome == PeriodTotal(ledger, incomeAccounts, visited)
    requires totalExpense == PeriodTotal(ledger, expenseAccounts, visited)
    requires entry == Bucket(ledger, incomeAccounts, expenseAccounts, d)
    requires monthIncome == MonthIncome(ledger, incomeAccounts, d)
    requires monthExpense == MonthIncome(ledger, expenseAccounts, d)
    ensures data + [entry] == Buckets(ledger, incomeAccounts, expenseAccounts, visited + [d])
    ensures totalIncome + monthIncome == PeriodTotal(ledger, incomeAccounts, visited + [d])
    ensures totalExpense + monthExpense == PeriodTotal(ledger, expenseAccounts, visited + [d])
  {
    BucketsSnoc(ledger, incomeAccounts, expenseAccounts, visited, d);
    PeriodTotalSnoc(ledger, incomeAccounts, visited, d);
    PeriodTotalSnoc(ledger, expenseAccounts, visited, d);
  }

  /** The month loop of `GetIncomeExpense`: from `startDate`, one month at a time
      while not after `endDate`, append the month's bucket and add to the totals. */
  method MonthlyData(ledger: Ledger, incomeAccounts: seq<Account>, expenseAccounts: seq<Account>, startDate: Time, endDate: Time)
    returns (data: seq<IncomeExpenseData>, totalIncome: real, totalExpense: real)
    ensures data == Buckets(ledger, incomeAccounts, expenseAccounts, Visits(startDate, endDate))
    ensures totalIncome == PeriodTotal(ledger, incomeAccounts, Visits(startDate, endDate))
    ensures totalExpense == PeriodTotal(ledger, expenseAccounts, Visits(startDate, endDate))
  {
    data := [];
    totalIncome, totalExpense := 0.0, 0.0;
    var currentDate := startDate;
    ghost var visited: seq<Time> := [];
    while NotAfter(currentDate, endDate)
      invariant visited + Visits(currentDate, endDate) == Visits(startDate, endDate)
      invariant data == Buckets(ledger, incomeAccounts, expenseAccounts, visited)
      invariant totalIncome == PeriodTotal(ledger, incomeAccounts, visited)
      invariant totalExpense == PeriodTotal(ledger, expenseAccounts, visited)
      decreases MonthIndex(endDate) - MonthIndex(currentDate) + 1
    {
      BeforeMonthIndex(currentDate, endDate);
      var entry, monthIncome, monthExpense := MonthStep(ledger, incomeAccounts, expenseAccounts, currentDate);
      VisitsStep(startDate, endDate, visited, currentDate);
      MonthlyDataStep(ledger, incomeAccounts, expenseAccounts, visited, currentDate,
                      data, totalIncome, totalExpense, entry, monthIncome, monthExpense);
      data := data + [entry];
      totalIncome := totalIncome + monthIncome;
      totalExpense := totalExpense + monthExpense;
      visited := visited + [currentDate];
      currentDate := AddOneMonth(currentDate);
    }
    assert visited == Visits(startDate, endDate);
  }

  /** Σ over the visited months of income minus expense. */
  function NetSum(ledger: Ledger, incomeAccounts: seq<Account>, expenseAccounts: seq<Account>, dates: seq<Time>): real {
    if dates == [] then 0.0
    else
      var d := dates[|dates| - 1];
      NetSum(ledger, incomeAccounts, expenseAccounts, dates[..|dates| - 1])
        + (MonthIncome(ledger, incomeAccounts, d) - MonthIncome(ledger, expenseAccounts, d))
  }

  /** The months' nets add up to the net total. */
  lemma {:induction false} NetSumIsDifference(ledger: Ledger, incomeAccounts: seq<Account>, expenseAccounts: seq<Account>, dates: seq<Time>)
    ensures NetSum(ledger, incomeAccounts, expenseAccounts, dates)
      == PeriodTotal(ledger, incomeAccounts, dates) - PeriodTotal(ledger, expenseAccounts, dates)
  {
    if dates != [] {
      NetSumIsDifference(ledger, incomeAccounts, expenseAccounts, dates[..|dates| - 1]);
    }
  }

  /** `GetIncomeExpense` fails exactly when an account-type lookup fails, income first. */
  lemma IncomeExpenseErrors(ledger: Ledger, startDate: Time, endDate: Time)
    ensures AccountTypeIncome in ledger.fails.typeQueryFails ==>
      IncomeExpense(ledger, startDate, endDate) == Err("failed to get income accounts")
    ensures AccountTypeIncome !in ledger.fails.typeQueryFails && AccountTypeExpense in ledger.fails.typeQueryFails ==>
      IncomeExpense(ledger, startDate, endDate) == Err("failed to get expense accounts")
    ensures IncomeExpense(ledger, startDate, endDate).Ok? <==>
      AccountTypeIncome !in ledger.fails.typeQueryFails && AccountTypeExpense !in ledger.fails.typeQueryFails
  {
  }

  /** The response of a successful `GetIncomeExpense`, taken apart. */
  lemma IncomeExpenseOk(ledger: Ledger, startDate: Time, endDate: Time, r: IncomeExpenseResponse,
                        incomeAccounts: seq<Account>, expenseAccounts: seq<Account>)
    requires IncomeExpense(ledger, startDate, endDate) == Ok(r)
    requires FindByType(ledger, AccountTypeIncome) == Ok(incomeAccounts)
    requires FindByType(ledger, AccountTypeExpense) == Ok(expenseAccounts)
    ensures r == Summary(Buckets(ledger, incomeAccounts, expenseAccounts, Visits(startDate, endDate)),
                         PeriodTotal(ledger, incomeAccounts, Visits(startDate, endDate)),
                         PeriodTotal(ledger, expenseAccounts, Visits(startDate, endDate)),
                         RootCurrencyMnemonic(ledger))
  {
  }

  /** A summary shows as its net total the difference of its two totals. */
  lemma SummaryNet(r: IncomeExpenseResponse, data: seq<IncomeExpenseData>, totalIncome: real, totalExpense: real, mnemonic: string, net: real)
    requires r == Summary(data, totalIncome, totalExpense, mnemonic)
    requires net == totalIncome - totalExpense
    ensures r.netTotal == StringFixed2(net)
  {
  }

  /** Equal amounts are shown alike. */
  lemma SameShown(x: real, y: real)
    requires x == y
    ensures StringFixed2(x) == StringFixed2(y)
  {
  }

  /** An end date before the start date gives no buckets and zero totals. */
  lemma IncomeExpenseEmptyRange(ledger: Ledger, startDate: Time, endDate: Time, r: IncomeExpenseResponse)
    requires Before(endDate, startDate)
    requires IncomeExpense(ledger, startDate, endDate) == Ok(r)
    ensures r.data == [] && r.totalIncome == "0.00" && r.totalExpense == "0.00" && r.netTotal == "0.00"
  {
    var incomeAccounts := FindByType(ledger, AccountTypeIncome).value;
    var expenseAccounts := FindByType(ledger, AccountTypeExpense).value;
    IncomeExpenseOk(ledger, startDate, endDate, r, incomeAccounts, expenseAccounts);
    VisitsMeaning(startDate, endDate);
    var none := Visits(startDate, endDate);
    assert none == [];
    EmptySummary(r, Buckets(ledger, incomeAccounts, expenseAccounts, none),
                 PeriodTotal(ledger, incomeAccounts, none), PeriodTotal(ledger, expenseAccounts, none),
                 RootCurrencyMnemonic(ledger));
  }

  /** A summary of no months shows zero everywhere. */
  lemma EmptySummary(r: IncomeExpenseResponse, data: seq<IncomeExpenseData>, totalIncome: real, totalExpense: real, mnemonic: string)
    requires r == Summary(data, totalIncome, totalExpense, mnemonic)
    requires data == [] && totalIncome == 0.0 && totalExpense == 0.0
    ensures r.data == [] && r.totalIncome == "0.00" && r.totalExpense == "0.00" && r.netTotal == "0.00"
  {
    StringFixed2Sign(0.0);
    SameShown(totalIncome - totalExpense, 0.0);
  }

  /** Each bucket is its month as "YYYY-MM", with that month's non-negative
      income and expense, shown without a minus sign, and their difference. */
  lemma BucketsMeaning(ledger: Ledger, incomeAccounts: seq<Account>, expenseAccounts: seq<Account>, dates: seq<Time>)
    ensures var r := Buckets(ledger, incomeAccounts, expenseAccounts, dates);
      |r| == |dates|
      && forall k :: 0 <= k < |dates| ==>
           var income := MonthIncome(ledger, incomeAccounts, dates[k]);
           var expense := MonthIncome(ledger, expenseAccounts, dates[k]);
           r[k].period == Period(MonthStart(dates[k]))
           && income >= 0.0 && expense >= 0.0
           && r[k].income == StringFixed2(income) && r[k].income[0] != '-'
           && r[k].expense == StringFixed2(expense) && r[k].expense[0] != '-'
           && r[k].net == StringFixed2(income - expense)
  {
    BucketsAt(ledger, incomeAccounts, expenseAccounts, dates);
    forall k | 0 <= k < |dates|
      ensures StringFixed2(MonthIncome(ledger, incomeAccounts, dates[k]))[0] != '-'
      ensures StringFixed2(MonthIncome(ledger, expenseAccounts, dates[k]))[0] != '-'
    {
      StringFixed2Sign(MonthIncome(ledger, incomeAccounts, dates[k]));
      StringFixed2Sign(MonthIncome(ledger, expenseAccounts, dates[k]));
    }
  }

  /** A successful response has one bucket per visited month (see
      `BucketsMeaning`), and its totals are the sums over those months. */
  lemma IncomeExpenseTotals(ledger: Ledger, startDate: Time, endDate: Time, r: IncomeExpenseResponse,
                            incomeAccounts: seq<Account>, expenseAccounts: seq<Account>)
    requires IncomeExpense(ledger, startDate, endDate) == Ok(r)
    requires FindByType(ledger, AccountTypeIncome) == Ok(incomeAccounts)
    requires FindByType(ledger, AccountTypeExpense) == Ok(expenseAccounts)
    ensures r.data == Buckets(ledger, incomeAccounts, expenseAccounts, Visits(startDate, endDate))
    ensures r.totalIncome == StringFixed2(PeriodTotal(ledger, incomeAccounts, Visits(startDate, endDate)))
    ensures r.totalExpense == StringFixed2(PeriodTotal(ledger, expenseAccounts, Visits(startDate, endDate)))
  {
  }

  /** The net total is the sum of the months' nets, and the currency is the ROOT
      account's. */
  lemma IncomeExpenseNet(ledger: Ledger, startDate: Time, endDate: Time, r: IncomeExpenseResponse,
                         incomeAccounts: seq<Account>, expenseAccounts: seq<Account>)
    requires IncomeExpense(ledger, startDate, endDate) == Ok(r)
    requires FindByType(ledger, AccountTypeIncome) == Ok(incomeAccounts)
    requires FindByType(ledger, AccountTypeExpense) == Ok(expenseAccounts)
    ensures r.netTotal == StringFixed2(NetSum(ledger, incomeAccounts, expenseAccounts, Visits(startDate, endDate)))
    ensures r.currencyMnemonic == RootCurrencyMnemonic(ledger)
  {
    IncomeExpenseOk(ledger, startDate, endDate, r, incomeAccounts, expenseAccounts);
    SummaryNetSum(ledger, r, incomeAccounts, expenseAccounts, Visits(startDate, endDate));
  }

  /** The response built from some months shows as its net total the sum of
      those months' nets. */
  lemma SummaryNetSum(ledger: Ledger, r: IncomeExpenseResponse, incomeAccounts: seq<Account>, expenseAccounts: seq<Account>, dates: seq<Time>)
    requires r == Summary(Buckets(ledger, incomeAccounts, expenseAccounts, dates),
                          PeriodTotal(ledger, incomeAccounts, dates), PeriodTotal(ledger, expenseAccounts, dates),
                          RootCurrencyMnemonic(ledger))
    ensures r.netTotal == StringFixed2(NetSum(ledger, incomeAccounts, expenseAccounts, dates))
  {
    NetSumIsDifference(ledger, incomeAccounts, expenseAccounts, dates);
    SummaryNet(r, Buckets(ledger, incomeAccounts, expenseAccounts, dates),
               PeriodTotal(ledger, incomeAccounts, dates), PeriodTotal(ledger, expenseAccounts, dates),
               RootCurrencyMnemonic(ledger), NetSum(ledger, incomeAccounts, expenseAccounts, dates));
  }

  /** A month bucket asks for transactions posted from the first of the month at
      midnight up to the last day at midnight, both included: anything later on
      the last day falls outside every bucket. */
  lemma MonthBucketBounds(splits: seq<SplitRow>, guid: string, d: Time, t: TransactionRow)
    requires HasSplitOn(splits, t.guid, guid)
    ensures t.postDate.year == d.year && t.postDate.month == d.month
      && (t.postDate.day < DaysIn(d.year, d.month) || t.postDate.nanoOfDay == 0)
      <==> Matches(splits, MonthFilter(guid, BucketStart(d), BucketEnd(d)), t)
  {
    MatchesFields(splits, MonthFilter(guid, BucketStart(d), BucketEnd(d)), t);
  }

  /** From January 15 to March 5 the loop visits January 15 and February 15:
      two buckets, January and February; March 15 is past the end. */
  lemma MidMonthRange()
    ensures var v := Visits(DateTime(2024, 1, 15, 0), DateTime(2024, 3, 5, 0));
      |v| == 2 && v[0].month == 1 && v[1].month == 2
  {
    var start: Time := DateTime(2024, 1, 15, 0);
    var end: Time := DateTime(2024, 3, 5, 0);
    assert AddOneMonth(start) == DateTime(2024, 2, 15, 0);
    assert AddOneMonth(DateTime(2024, 2, 15, 0)) == DateTime(2024, 3, 15, 0);
    assert Visits(DateTime(2024, 3, 15, 0), end) == [];
  }

  /** Starting on January 31, 2024 one month later is March 2 (February has 29
      days), so no bucket is produced for February. */
  lemma MonthOverflowSkipsFebruary()
    ensures var v := Visits(DateTime(2024, 1, 31, 0), DateTime(2024, 3, 31, 0));
      |v| == 2 && v[0].month == 1 && v[1].month == 3
  {
    var start: Time := DateTime(2024, 1, 31, 0);
    var end: Time := DateTime(2024, 3, 31, 0);
    assert DaysIn(2024, 2) == 29;
    assert AddOneMonth(start) == DateTime(2024, 3, 2, 0);
    assert AddOneMonth(DateTime(2024, 3, 2, 0)) == DateTime(2024, 4, 2, 0);
    assert Visits(DateTime(2024, 4, 2, 0), end) == [];
  }

  // ---------------------------------------------------------------------------
  // Category breakdown
  // ---------------------------------------------------------------------------

  /** One category item: the account's name, its aggregate amount
      `totalAmount / denominator` with two fraction digits, and its count. */
  function CategoryItem(agg: AccountAggregate): CategoryBreakdownItem {
    CategoryBreakdownItem(agg.accountName, FormatAmount(agg.totalAmount, agg.denominator), agg.count)
  }

  /** The items for a list of aggregates, one per aggregate and in the same order. */
  function CategoryItems(aggregates: seq<AccountAggregate>): (r: seq<CategoryBreakdownItem>)
    ensures |r| == |aggregates|
    ensures forall k :: 0 <= k < |aggregates| ==> r[k] == CategoryItem(aggregates[k])
  {
    seq(|aggregates|, k requires 0 <= k < |aggregates| => CategoryItem(aggregates[k]))
  }

  /** What `GetCategoryBreakdown` returns, given what `AggregateByAccountType`
      returned for INCOME and for EXPENSE over the period. */
  function CategoryBreakdown(ledger: Ledger, incomeAggregates: Result<seq<AccountAggregate>>,
                             expenseAggregates: Result<seq<AccountAggregate>>): Result<CategoryBreakdownResponse> {
    match incomeAggregates
    case Err(_) => Err("failed to get income aggregates")
    case Ok(income) =>
      match expenseAggregates
      case Err(_) => Err("failed to get expense aggregates")
      case Ok(expense) =>
        Ok(CategoryBreakdownResponse(CategoryItems(income), CategoryItems(expense), RootCurrencyMnemonic(ledger)))
  }

  /** The conversion loop over one list of aggregates. */
  method ConvertAggregates(aggregates: seq<AccountAggregate>) returns (items: seq<CategoryBreakdownItem>)
    ensures items == CategoryItems(aggregates)
  {
    items := [];
    var i := 0;
    while i < |aggregates|
      invariant 0 <= i <= |aggregates|
      invariant items == CategoryItems(aggregates[..i])
    {
      var agg := aggregates[i];
      var amount := RationalToDecimal(agg.totalAmount, agg.denominator);
      items := items + [CategoryBreakdownItem(agg.accountName, StringFixed2(amount), agg.count)];
      i := i + 1;
    }
    assert aggregates[..i] == aggregates;
  }

  /** `GetCategoryBreakdown`. */
  method GetCategoryBreakdown(ledger: Ledger, incomeAggregates: Result<seq<AccountAggregate>>,
                              expenseAggregates: Result<seq<AccountAggregate>>) returns (r: Result<CategoryBreakdownResponse>)
    ensures r == CategoryBreakdown(ledger, incomeAggregates, expenseAggregates)
  {
    if incomeAggregates.Err? {
      return Err("failed to get income aggregates");
    }
    if expenseAggregates.Err? {
      return Err("failed to get expense aggregates");
    }
    var incomeItems := ConvertAggregates(incomeAggregates.value);
    var expenseItems := ConvertAggregates(expenseAggregates.value);
    r := Ok(CategoryBreakdownResponse(incomeItems, expenseItems, RootCurrencyMnemonic(ledger)));
  }

  /** The breakdown fails exactly when an aggregate query fails, income first;
      otherwise it has one item per aggregate, in the order received, naming the
      account, copying the count, and showing `totalAmount / denominator`
      rounded to hundredths ("0.00" for a zero denominator). */
  lemma CategoryBreakdownMeaning(ledger: Ledger, incomeAggregates: Result<seq<AccountAggregate>>,
                                 expenseAggregates: Result<seq<AccountAggregate>>)
    ensures incomeAggregates.Err? ==>
      CategoryBreakdown(ledger, incomeAggregates, expenseAggregates) == Err("failed to get income aggregates")
    ensures incomeAggregates.Ok? && expenseAggregates.Err? ==>
      CategoryBreakdown(ledger, incomeAggregates, expenseAggregates) == Err("failed to get expense aggregates")
    ensures incomeAggregates.Ok? && expenseAggregates.Ok? ==>
      var r := CategoryBreakdown(ledger, incomeAggregates, expenseAggregates);
      r.Ok? && ItemsOf(r.value.income, incomeAggregates.value) && ItemsOf(r.value.expense, expenseAggregates.value)
      && r.value.currencyMnemonic == RootCurrencyMnemonic(ledger)
  {
    if incomeAggregates.Ok? && expenseAggregates.Ok? {
      CategoryItemsOf(incomeAggregates.value);
      CategoryItemsOf(expenseAggregates.value);
    }
  }

  lemma CategoryItemsOf(aggregates: seq<AccountAggregate>)
    ensures ItemsOf(CategoryItems(aggregates), aggregates)
  {
    forall k | 0 <= k < |aggregates|
      ensures ParseCents(CategoryItems(aggregates)[k].amount)
        == Some(RoundHalfAway(RationalToDecimal(aggregates[k].totalAmount, aggregates[k].denominator) * 100.0))
      ensures aggregates[k].denominator == 0 ==> CategoryItems(aggregates)[k].amount == "0.00"
    {
      FormatAmountReads(aggregates[k].totalAmount, aggregates[k].denominator);
    }
  }

  /** `items` lists `aggregates` one for one, as described above. */
  predicate ItemsOf(items: seq<CategoryBreakdownItem>, aggregates: seq<AccountAggregate>) {
    |items| == |aggregates|
    && forall k :: 0 <= k < |aggregates| ==>
         items[k].category == aggregates[k].accountName
         && items[k].count == aggregates[k].count
         && ParseCents(items[k].amount)
            == Some(RoundHalfAway(RationalToDecimal(aggregates[k].totalAmount, aggregates[k].denominator) * 100.0))
         && (aggregates[k].denominator == 0 ==> items[k].amount == "0.00")
  }

  // ---------------------------------------------------------------------------
  // Net worth
  // ---------------------------------------------------------------------------

  const AssetTypes: seq<AccountType> := [AccountTypeBank, AccountTypeCash, AccountTypeAsset, AccountTypeStock, AccountTypeMutual]
  const LiabilityTypes: seq<AccountType> := [AccountTypeLiability, AccountTypeCredit, AccountTypePayable]

  /** The accounts the loop over `types` walks through: for each type in order,
      the accounts `FindByType` returns, or none when it fails. */
  function Scanned(ledger: Ledger, types: seq<AccountType>): seq<Account> {
    if types == [] then []
    else
      var earlier := Scanned(ledger, types[..|types| - 1]);
      match FindByType(ledger, types[|types| - 1])
      case Err(_) => earlier
      case Ok(accounts) => earlier + accounts
  }

  /** The accounts walked through are the stored accounts of the listed types
      whose lookup succeeds. */
  lemma {:induction false} ScannedMembers(ledger: Ledger, types: seq<AccountType>)
    ensures forall a :: a in Scanned(ledger, types) <==>
      a in ledger.db.accounts && a.accountType in types && a.accountType !in ledger.fails.typeQueryFails
  {
    if types != [] {
      var t := types[|types| - 1];
      ScannedMembers(ledger, types[..|types| - 1]);
      assert types == types[..|types| - 1] + [t];
    }
  }

  /** The balance `GetBalance` reports for an account, as a decimal; `None`
      when the query fails. */
  function BalanceOf(ledger: Ledger, acc: Account): Option<real> {
    if acc.guid in ledger.fails.balanceFails then None
    else
      match AccountRepository.GetBalance(ledger.db.splits, acc.guid)
      case Err(_) => None
      case Ok(balance) => Some(RationalToDecimal(balance.0, balance.1))
  }

  /** The accounts that make it into the response, with their balances: not
      placeholders, with a balance, and that balance not zero. */
  function Kept(ledger: Ledger, accounts: seq<Account>): seq<(Account, real)> {
    if accounts == [] then []
    else
      var a := accounts[|accounts| - 1];
      var earlier := Kept(ledger, accounts[..|accounts| - 1]);
      if !a.placeholder && BalanceOf(ledger, a).Some? && BalanceOf(ledger, a).value != 0.0
      then earlier + [(a, BalanceOf(ledger, a).value)]
      else earlier
  }

  /** An account is kept, with balance `b`, exactly when it is walked through,
      is not a placeholder, and its balance query gives the non-zero `b`. */
  lemma {:induction false} KeptMembers(ledger: Ledger, accounts: seq<Account>)
    ensures forall a, b :: (a, b) in Kept(ledger, accounts) <==>
      a in accounts && !a.placeholder && BalanceOf(ledger, a) == Some(b) && b != 0.0
  {
    if accounts != [] {
      var a := accounts[|accounts| - 1];
      KeptMembers(ledger, accounts[..|accounts| - 1]);
      assert accounts == accounts[..|accounts| - 1] + [a];
    }
  }

  /** The amount an account counts for: its balance for an asset, and the
      balance's absolute value for a liability. */
  function Counted(balance: real, liability: bool): (r: real)
    ensures liability ==> r >= 0.0
  {
    if liability then AbsReal(balance) else balance
  }

  function NetWorthEntry(acc: Account, balance: real, liability: bool): NetWorthItem {
    NetWorthItem(acc.name, acc.accountType, StringFixed2(Counted(balance, liability)))
  }

  function Entries(kept: seq<(Account, real)>, liability: bool): (r: seq<NetWorthItem>)
    ensures |r| == |kept|
    ensures forall k :: 0 <= k < |kept| ==> r[k] == NetWorthEntry(kept[k].0, kept[k].1, liability)
  {
    seq(|kept|, k requires 0 <= k < |kept| => NetWorthEntry(kept[k].0, kept[k].1, liability))
  }

  /** The sum of what the kept accounts count for. */
  function KeptTotal(kept: seq<(Account, real)>, liability: bool): (r: real)
    ensures liability ==> r >= 0.0
  {
    if kept == [] then 0.0
    else KeptTotal(kept[..|kept| - 1], liability) + Counted(kept[|kept| - 1].1, liability)
  }

  /** The response around the two lists: both totals and their difference. */
  function Worth(assets: seq<NetWorthItem>, liabilities: seq<NetWorthItem>, totalAssets: real, totalLiabilities: real,
                 mnemonic: string): NetWorthResponse {
    NetWorthResponse(assets, liabilities, StringFixed2(totalAssets), StringFixed2(totalLiabilities),
                     StringFixed2(totalAssets - totalLiabilities), mnemonic)
  }

  /** What `GetNetWorth` returns (it never fails). */
  function NetWorth(ledger: Ledger): NetWorthResponse {
    var assets := Kept(ledger, Scanned(ledger, AssetTypes));
    var liabilities := Kept(ledger, Scanned(ledger, LiabilityTypes));
    Worth(Entries(assets, false), Entries(liabilities, true), KeptTotal(assets, false), KeptTotal(liabilities, true),
          RootCurrencyMnemonic(ledger))
  }

  lemma ScannedStep(ledger: Ledger, types: seq<AccountType>, i: nat)
    requires i < |types|
    ensures FindByType(ledger, types[i]).Err? ==> Scanned(ledger, types[..i + 1]) == Scanned(ledger, types[..i])
    ensures FindByType(ledger, types[i]).Ok? ==>
      Scanned(ledger, types[..i + 1]) == Scanned(ledger, types[..i]) + FindByType(ledger, types[i]).value
  {
    assert types[..i + 1][..i] == types[..i];
  }

  /** Growing a walked prefix by one element. */
  lemma PrefixStep<T>(seen: seq<T>, xs: seq<T>, j: nat)
    requires j < |xs|
    ensures seen + xs[..0] == seen
    ensures seen + xs[..j + 1] == (seen + xs[..j]) + [xs[j]]
  {
    assert xs[..j + 1] == xs[..j] + [xs[j]];
  }

  lemma KeptSnoc(ledger: Ledger, seen: seq<Account>, a: Account)
    ensures Kept(ledger, seen + [a])
      == Kept(ledger, seen)
         + (if !a.placeholder && BalanceOf(ledger, a).Some? && BalanceOf(ledger, a).value != 0.0
            then [(a, BalanceOf(ledger, a).value)] else [])
  {
    assert (seen + [a])[..|seen|] == seen;
  }

  lemma EntriesSnoc(kept: seq<(Account, real)>, a: Account, balance: real, liability: bool)
    ensures Entries(kept + [(a, balance)], liability) == Entries(kept, liability) + [NetWorthEntry(a, balance, liability)]
  {
  }

  lemma KeptTotalSnoc(kept: seq<(Account, real)>, a: Account, balance: real, liability: bool)
    ensures KeptTotal(kept + [(a, balance)], liability) == KeptTotal(kept, liability) + Counted(balance, liability)
  {
    assert (kept + [(a, balance)])[..|kept|] == kept;
  }

  /** One of the two loop nests of `GetNetWorth`: for each type, for each account
      found, skip placeholders, failed balance queries and zero balances, and
      list the rest with the amount they count for. */
  method CollectHoldings(ledger: Ledger, types: seq<AccountType>, liability: bool)
    returns (items: seq<NetWorthItem>, total: real)
    ensures items == Entries(Kept(ledger, Scanned(ledger, types)), liability)
    ensures total == KeptTotal(Kept(ledger, Scanned(ledger, types)), liability)
  {
    items, total := [], 0.0;
    for i := 0 to |types|
      invariant items == Entries(Kept(ledger, Scanned(ledger, types[..i])), liability)
      invariant total == KeptTotal(Kept(ledger, Scanned(ledger, types[..i])), liability)
    {
      ScannedStep(ledger, types, i);
      var found := FindByType(ledger, types[i]);
      if found.Err? {
        continue;
      }
      items, total := CollectAccounts(ledger, found.value, liability, Scanned(ledger, types[..i]), items, total);
    }
    assert types[..|types|] == types;
  }

  /** The inner loop: the accounts of one type, added to the running list and total. */
  method CollectAccounts(ledger: Ledger, accounts: seq<Account>, liability: bool, ghost seen: seq<Account>,
                         items0: seq<NetWorthItem>, total0: real)
    returns (items: seq<NetWorthItem>, total: real)
    requires items0 == Entries(Kept(ledger, seen), liability)
    requires total0 == KeptTotal(Kept(ledger, seen), liability)
    ensures items == Entries(Kept(ledger, seen + accounts), liability)
    ensures total == KeptTotal(Kept(ledger, seen + accounts), liability)
  {
    items, total := items0, total0;
    if accounts == [] {
      assert seen + accounts == seen;
      return;
    }
    PrefixStep(seen, accounts, 0);
    for j := 0 to |accounts|
      invariant items == Entries(Kept(ledger, seen + accounts[..j]), liability)
      invariant total == KeptTotal(Kept(ledger, seen + accounts[..j]), liability)
    {
      PrefixStep(seen, accounts, j);
      items, total := ConsiderAccount(ledger, accounts[j], liability, seen + accounts[..j], items, total);
    }
    assert accounts[..|accounts|] == accounts;
  }

  /** The loop body for one account. */
  method ConsiderAccount(ledger: Ledger, acc: Account, liability: bool, ghost seen: seq<Account>,
                         items0: seq<NetWorthItem>, total0: real)
    returns (items: seq<NetWorthItem>, total: real)
    requires items0 == Entries(Kept(ledger, seen), liability)
    requires total0 == KeptTotal(Kept(ledger, seen), liability)
    ensures items == Entries(Kept(ledger, seen + [acc]), liability)
    ensures total == KeptTotal(Kept(ledger, seen + [acc]), liability)
  {
    items, total := items0, total0;
    KeptSnoc(ledger, seen, acc);
    if acc.placeholder {
      return;
    }
    if acc.guid in ledger.fails.balanceFails {
      return;
    }
    var result := AccountRepository.GetBalance(ledger.db.splits, acc.guid);
    if result.Err? {
      return;
    }
    var balance := RationalToDecimal(result.value.0, result.value.1);
    if balance != 0.0 {
      EntriesSnoc(Kept(ledger, seen), acc, balance, liability);
      KeptTotalSnoc(Kept(ledger, seen), acc, balance, liability);
      var amount := if liability then AbsReal(balance) else balance;
      items := items + [NetWorthItem(acc.name, acc.accountType, StringFixed2(amount))];
      total := total + amount;
    }
  }

  /** `GetNetWorth`. */
  method GetNetWorth(ledger: Ledger) returns (r: NetWorthResponse)
    ensures r == NetWorth(ledger)
  {
    var assets, totalAssets := CollectHoldings(ledger, AssetTypes, false);
    var liabilities, totalLiabilities := CollectHoldings(ledger, LiabilityTypes, true);
    r := Worth(assets, liabilities, totalAssets, totalLiabilities, RootCurrencyMnemonic(ledger));
  }

  /** The listed accounts: an asset (liability) account is listed with balance
      `b` exactly when it is stored, its type is one of the five asset (three
      liability) types and that type's lookup succeeds, it is not a placeholder,
      and its balance query gives the non-zero `b`. */
  lemma NetWorthAccounts(ledger: Ledger, types: seq<AccountType>)
    ensures forall a, b :: (a, b) in Kept(ledger, Scanned(ledger, types)) <==>
      a in ledger.db.accounts && a.accountType in types && a.accountType !in ledger.fails.typeQueryFails
      && !a.placeholder && BalanceOf(ledger, a) == Some(b) && b != 0.0
  {
    ScannedMembers(ledger, types);
    KeptMembers(ledger, Scanned(ledger, types));
  }

  /** The response lists the kept accounts in order: name, type, and the balance
      for an asset or its absolute value for a liability, never shown negative. */
  lemma NetWorthItems(ledger: Ledger)
    ensures var r := NetWorth(ledger);
      var assets := Kept(ledger, Scanned(ledger, AssetTypes));
      |r.assets| == |assets|
      && forall k :: 0 <= k < |assets| ==>
           r.assets[k] == NetWorthItem(assets[k].0.name, assets[k].0.accountType, StringFixed2(assets[k].1))
    ensures var r := NetWorth(ledger);
      var liabilities := Kept(ledger, Scanned(ledger, LiabilityTypes));
      |r.liabilities| == |liabilities|
      && forall k :: 0 <= k < |liabilities| ==>
           r.liabilities[k]
             == NetWorthItem(liabilities[k].0.name, liabilities[k].0.accountType, StringFixed2(AbsReal(liabilities[k].1)))
           && r.liabilities[k].balance[0] != '-'
  {
    var liabilities := Kept(ledger, Scanned(ledger, LiabilityTypes));
    forall k | 0 <= k < |liabilities|
      ensures StringFixed2(AbsReal(liabilities[k].1))[0] != '-'
    {
      StringFixed2Sign(AbsReal(liabilities[k].1));
    }
  }

  /** Only the listed types appear: every asset item is BANK, CASH, ASSET, STOCK
      or MUTUAL (so never RECEIVABLE), every liability item LIABILITY, CREDIT or
      PAYABLE. */
  lemma NetWorthTypes(ledger: Ledger)
    ensures forall k :: 0 <= k < |NetWorth(ledger).assets| ==>
      NetWorth(ledger).assets[k].accountType in AssetTypes
      && NetWorth(ledger).assets[k].accountType != AccountTypeReceivable
    ensures forall k :: 0 <= k < |NetWorth(ledger).liabilities| ==>
      NetWorth(ledger).liabilities[k].accountType in LiabilityTypes
  {
    KeptTypes(ledger, AssetTypes);
    KeptTypes(ledger, LiabilityTypes);
    assert AccountTypeReceivable !in AssetTypes;
  }

  lemma KeptTypes(ledger: Ledger, types: seq<AccountType>)
    ensures forall k :: 0 <= k < |Kept(ledger, Scanned(ledger, types))| ==>
      Kept(ledger, Scanned(ledger, types))[k].0.accountType in types
  {
    var kept := Kept(ledger, Scanned(ledger, types));
    NetWorthAccounts(ledger, types);
    forall k | 0 <= k < |kept|
      ensures kept[k].0.accountType in types
    {
      var (a, b) := kept[k];
      assert kept[k] == (a, b);
      assert (a, b) in kept;
    }
  }

  /** The totals: the assets' balances summed, the liabilities' absolute values
      summed (so never negative), and net worth their difference. */
  lemma NetWorthTotals(ledger: Ledger)
    ensures var r := NetWorth(ledger);
      var assets := Kept(ledger, Scanned(ledger, AssetTypes));
      var liabilities := Kept(ledger, Scanned(ledger, LiabilityTypes));
      r == Worth(Entries(assets, false), Entries(liabilities, true), KeptTotal(assets, false), KeptTotal(liabilities, true),
                 RootCurrencyMnemonic(ledger))
      && KeptTotal(liabilities, true) >= 0.0
      && r.totalLiabilities[0] != '-'
  {
    var liabilities := Kept(ledger, Scanned(ledger, LiabilityTypes));
    StringFixed2Sign(KeptTotal(liabilities, true));
  }

  /** When every listed liability has the usual credit (negative) balance, the
      liabilities' total is minus the sum of their balances, so net worth is the
      plain sum of every listed balance. A liability with a positive balance
      (an overpaid card) is subtracted all the same. */
  lemma {:induction false} CreditBalancesSum(kept: seq<(Account, real)>)
    requires forall k :: 0 <= k < |kept| ==> kept[k].1 < 0.0
    ensures KeptTotal(kept, true) == -KeptTotal(kept, false)
  {
    if kept != [] {
      CreditBalancesSum(kept[..|kept| - 1]);
    }
  }

  lemma OverpaidLiability()
    ensures var a := Account("g", "Card", AccountTypeCredit, None, 100, None, None, None, false, false, 0.0, 0, 100, "");
      KeptTotal([(a, 50.0)], true) == 50.0 && KeptTotal([(a, -50.0)], true) == 50.0
  {
  }
}
