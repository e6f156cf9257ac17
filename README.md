# A verified model of the GnuCash ledger backend's read side

This project is a Dafny model of the Go backend that reads a GnuCash PostgreSQL ledger. The model covers the following parts.

- **Rational amounts** (`Rational`). Amounts are numerator/denominator pairs. The model covers their conversion to decimals and to two-place strings, and the debit/credit sign rule.
- **Account polarity** (`Entity`). Every account-type string is classified as debit or credit.
- **The account repository** (`AccountRepository`):
  - scanning account rows;
  - `FindHierarchy`, an imperative linker over the account list;
  - `GetBalance` and `GetBalanceWithChildren`, as sum/max aggregates over the split table, with the descendant closure for the second.
- **The MCP account formatting** (`McpTools`):
  - `formatAccount`;
  - `formatAccountHierarchy`, whose maps and roots are filled by loops, with a recursive `buildTree`.
- **The transaction repository** (`TransactionRepository`):
  - the filter-to-SQL builder: conditions, `$n` placeholders, LIMIT/OFFSET;
  - the meaning of the query, given as a predicate over stored rows with ordering and paging;
  - split loading and account linking;
  - `FindAll`, `FindByGUID`, `FindByAccount` and `Count`.
- **The analytics service** (`AnalyticsService`):
  - income and expense per month, stepping the date with Go's `AddDate(0, 1, 0)`;
  - the category breakdown;
  - net worth;
  - the root currency mnemonic.
- **Three HTTP middlewares**:
  - the per-client token-bucket rate limiter (`RateLimit`, a class over a map);
  - the CORS origin rule and response headers (`Cors`);
  - the Bearer-header check (`Auth`).

The repositories are modelled as values:
- A `Database` holds the `accounts`, `transactions`, `splits` and `commodities` rows (`Tables`).
- The analytics service reads a `Ledger`, which is a database plus the set of repository calls that fail, so that the service's `continue` paths can be stated.

Money is modelled as exact rationals (`real`). An amount is rendered with two fraction digits: it is rounded half away from zero to a whole number of cents, and printed with an optional "-", at least one integer digit, a "." and two digits.

`ParseCents` reads such a string back. The round-trip lemmas use it to show that the rendering states the value it was given.

Go's `int64` is the subtype `Int64`. The wrap-around of `IntPart` and of negation is written out as `Wrap64` and `Negate64`.

Time is whole nanoseconds for the rate limiter. The analytics use calendar date-times (year, month, day, nanosecond of day in UTC).

These consequences of the code are stated as lemmas:
- **The month bucket's upper bound** is `monthStart.AddDate(0, 1, -1)`. This is midnight at the start of the month's last day, so a transaction posted later on the last day falls in no bucket (`AnalyticsService.MonthBucketBounds`).
- **The month loop steps `startDate` itself**, not the month start:
  - A range from 2024-01-15 to 2024-03-05 yields only January and February (`AnalyticsService.MidMonthRange`).
  - A start on the 31st overflows past February (`AnalyticsService.MonthOverflowSkipsFebruary`).

## Model

| member | source | states |
|---|---|---|
| Rational.RationalToDecimal | backend/pkg/gnucash/rational.go:8-13 | zero for a zero denominator; otherwise the exact quotient, i.e. result × denominator = numerator |
| Rational.EquivalentFractions | backend/pkg/gnucash/rational.go:8-13 | equal rationals (n1·d2 = n2·d1) give the same decimal, e.g. 150/100 and 15/10 |
| Rational.Trunc | backend/pkg/gnucash/rational.go:17 | `IntPart` truncates toward zero: the result is within one of x, on the zero side |
| Rational.Wrap64 | backend/pkg/gnucash/rational.go:17 | the int64 kept by `IntPart` is congruent to the true value modulo 2^64, and equal to it when it fits |
| Rational.DecimalToRational | backend/pkg/gnucash/rational.go:16-19 | the denominator comes back unchanged; the numerator is x·d truncated toward zero (wrapped to 64 bits when it does not fit) |
| Rational.DecimalRoundTrip | backend/pkg/gnucash/rational.go:8-19 | for d ≠ 0, converting n/d to a decimal and back with denominator d gives (n, d) |
| Rational.RoundHalfAwayNearest | backend/pkg/gnucash/rational.go:24 | the cent rounding of `StringFixed(2)` is to the nearest cent, halves away from zero |
| Rational.CentsRoundTrip | backend/pkg/gnucash/rational.go:24 | the two-place rendering of any cent count reads back as that count, so distinct amounts render differently |
| Rational.UnsignedRoundTrip | backend/pkg/gnucash/rational.go:24 | the unsigned two-place rendering of a non-negative cent count reads back as that count |
| Rational.StringFixed2Reads | backend/pkg/gnucash/rational.go:24 | `StringFixed(2)` of x reads back as x·100 rounded half away from zero |
| Rational.StringFixed2Sign | backend/pkg/gnucash/rational.go:24 | a non-negative value is shown without a minus sign; zero is "0.00" |
| Rational.FormatAmountReads | backend/pkg/gnucash/rational.go:22-25 | `FormatAmount(n, d)` is `RationalToDecimal(n, d)` shown with two fraction digits; any (n, 0) is "0.00" |
| Rational.FormatAmountOneFifty | backend/pkg/gnucash/rational.go:22-25 | (150, 100) and (15, 10) both give "1.50" |
| Rational.FormatAmountSigns | backend/pkg/gnucash/rational.go:22-25 | (-150, 100) gives "-1.50", (7, 0) gives "0.00", and (-4, 1000) gives "0.00" (never "-0.00") |
| Rational.Negate64 | backend/pkg/gnucash/rational.go:34 | Go's int64 negation: the additive inverse, except that the minimum int64 maps to itself |
| Rational.NormalizeSign | backend/pkg/gnucash/rational.go:30-35 | a debit account's value is unchanged; a credit account's value is negated (the minimum int64 stays itself) |
| Rational.NormalizeSignInvolution | backend/pkg/gnucash/rational.go:30-35 | applying the sign rule twice with the same flag gives back the original value |
| Rational.NormalizeSignNotIdempotent | backend/pkg/gnucash/rational.go:30-35 | for a credit account, applying the rule twice differs from applying it once |
| Entity.IsDebitType | backend/internal/domain/entity/account.go:47-55 | true exactly for the seven debit types |
| Entity.Polarity | backend/internal/domain/entity/account.go:47-60 | debit exactly for ASSET, BANK, CASH, STOCK, MUTUAL, RECEIVABLE and EXPENSE; ROOT, CREDIT, LIABILITY, CURRENCY, INCOME, EQUITY, PAYABLE and every unrecognised string are credit; `IsCreditAccount` is the negation |
| Entity.NamedAccountTypesDistinct | backend/internal/domain/entity/account.go:10-25 | the fourteen account-type constants are pairwise distinct |
| AccountRepository.ScanAccount | backend/internal/infrastructure/persistence/postgres/account_repository.go:30-52 | every column is copied; `Hidden` and `Placeholder` are true exactly when the stored integer is non-zero; balances stay at zero |
| AccountRepository.GuidIndex | backend/internal/infrastructure/persistence/postgres/account_repository.go:100-104 | `accountMap`'s keys are exactly the listed GUIDs, and each maps to an account with that GUID |
| AccountRepository.GuidIndexIsLast | backend/internal/infrastructure/persistence/postgres/account_repository.go:100-104 | with duplicate GUIDs, the map holds the last account listed |
| AccountRepository.IndexAccounts | backend/internal/infrastructure/persistence/postgres/account_repository.go:100-104 | the first loop fills the map and gives every account an empty `Children` list |
| AccountRepository.RootsBelow | backend/internal/infrastructure/persistence/postgres/account_repository.go:107-110 | the roots are exactly the accounts whose parent is nil or "", in list order |
| AccountRepository.ChildrenBelow | backend/internal/infrastructure/persistence/postgres/account_repository.go:111-115 | the non-roots naming a given parent GUID, in list order |
| AccountRepository.FindHierarchy | backend/internal/infrastructure/persistence/postgres/account_repository.go:93-120 | the roots and children lists built by the loops are the ones the account list alone determines |
| AccountRepository.FindHierarchyRoots | backend/internal/infrastructure/persistence/postgres/account_repository.go:107-110 | an account is a root exactly when its parent is nil or ""; roots keep list order |
| AccountRepository.FindHierarchyLinksChild | backend/internal/infrastructure/persistence/postgres/account_repository.go:111-115 | an account whose parent is listed is not a root, appears under that parent, and appears under no other account |
| AccountRepository.FindHierarchyDropsOrphans | backend/internal/infrastructure/persistence/postgres/account_repository.go:111-116 | an account whose non-empty parent GUID is not listed appears nowhere in the result |
| AccountRepository.Closure | backend/internal/infrastructure/persistence/postgres/account_repository.go:171-177 | the recursive CTE's `account_tree` contains its seed and is closed under taking children |
| AccountRepository.ClosureLeast | backend/internal/infrastructure/persistence/postgres/account_repository.go:171-177 | the tree is the least such set: it lies inside every child-closed superset of the seed |
| AccountRepository.AccountTree | backend/internal/infrastructure/persistence/postgres/account_repository.go:171-177 | a listed account's tree contains it, holds only listed GUIDs, and contains every descendant |
| AccountRepository.MaxDenom | backend/internal/infrastructure/persistence/postgres/account_repository.go:148 | `MAX(quantity_denom)`: none when no split matches; otherwise a matching split's denominator, at least every other matching split's |
| AccountRepository.SumQuantityDisjointUnion | backend/internal/infrastructure/persistence/postgres/account_repository.go:147 | the quantity sum over two disjoint account sets is the sum of the two sums |
| AccountRepository.SumQuantityNone | backend/internal/infrastructure/persistence/postgres/account_repository.go:147 | `COALESCE(SUM(..), 0)`: the sum is 0 when no split matches |
| AccountRepository.Aggregate | backend/internal/infrastructure/persistence/postgres/account_repository.go:146-159 | the query succeeds exactly when the sum fits in int64; the numerator is the quantity sum; the denominator is the largest quantity denominator, or 100 when no split matches |
| AccountRepository.GetBalance | backend/internal/infrastructure/persistence/postgres/account_repository.go:145-160 | succeeds exactly when the sum of `quantity_num` over the account's own splits fits in int64; the numerator is that sum, with no sign rule; the denominator is the largest `quantity_denom` of those splits, or 100 when there are none, so (0, 100) for an account without splits |
| AccountRepository.FindByGuid | backend/internal/infrastructure/persistence/postgres/account_repository.go:81-90 | succeeds exactly for a listed GUID and returns a listed account with that GUID |
| AccountRepository.GetBalanceWithChildren | backend/internal/infrastructure/persistence/postgres/account_repository.go:163-194 | succeeds exactly when the GUID is listed and the quantity sum over the account's tree fits in int64 (an unknown GUID is an error); the numerator is that sum with the sign rule of the requested account's own polarity; the denominator is the tree's largest `quantity_denom`, or 100 when no split is in the tree |
| AccountRepository.RollupSplitsIntoOwnAndDescendants | backend/internal/infrastructure/persistence/postgres/account_repository.go:171-182 | the rolled-up sum is the account's own sum plus the sum over its descendants |
| AccountRepository.LeafRollupIsOwnBalance | backend/internal/infrastructure/persistence/postgres/account_repository.go:163-194 | for an account without children, the rollup is its own `GetBalance` with the sign rule applied |
| McpTools.FormatAccount | backend/internal/infrastructure/mcp/tools.go:8-28 | every field is copied; "parent_guid" is present exactly when the account has a parent, and it holds that GUID |
| McpTools.FormattedBalanceReads | backend/internal/infrastructure/mcp/tools.go:18 | the "balance" string reads back as the balance rounded to cents |
| McpTools.FormattedBalanceDistinguishes | backend/internal/infrastructure/mcp/tools.go:18 | two accounts show the same balance string only when their balances round to the same cent count |
| McpTools.ChildPositions | backend/internal/infrastructure/mcp/tools.go:38-40 | each listed child names the given parent |
| McpTools.ChildPositionsComplete | backend/internal/infrastructure/mcp/tools.go:38-40 | every account naming the parent is listed, in list order |
| McpTools.ChildMapMeaning | backend/internal/infrastructure/mcp/tools.go:36-41 | a GUID is a key of `childMap` exactly when some account names it as parent, and it then maps to all such accounts in order |
| McpTools.ChildMapKeys | backend/internal/infrastructure/mcp/tools.go:36-41 | the keys are exactly the parent GUIDs that some account names |
| McpTools.BuildMaps | backend/internal/infrastructure/mcp/tools.go:32-41 | the loop fills `accountMap` with exactly the listed GUIDs and `childMap` with the children of each parent |
| McpTools.TreeRootsBelow | backend/internal/infrastructure/mcp/tools.go:57-62 | every selected root has a nil parent or a parent that is not listed |
| McpTools.TreeRootsComplete | backend/internal/infrastructure/mcp/tools.go:57-62 | every such account is selected, in list order |
| McpTools.CollectRoots | backend/internal/infrastructure/mcp/tools.go:57-62 | the loop selects exactly the accounts with no parent or an unlisted parent |
| McpTools.OrphanPromotedToRoot | backend/internal/infrastructure/mcp/tools.go:56-62 | an account whose parent is not listed is a root here, while `FindHierarchy` drops it |
| McpTools.BuildTree | backend/internal/infrastructure/mcp/tools.go:45-54 | a node carries its own formatted account |
| McpTools.BuildChildren | backend/internal/infrastructure/mcp/tools.go:47-52 | one child node per child, in order, each carrying that child's formatted account |
| McpTools.NodeChildren | backend/internal/infrastructure/mcp/tools.go:45-54 | a node has "children" exactly when some account names it as parent, and then one entry per child in list order, each the whole subtree built for that child |
| McpTools.BuildChildrenSubtrees | backend/internal/infrastructure/mcp/tools.go:47-52 | each child node is `buildTree` of that child one level further down, so the structure repeats at every depth |
| McpTools.ChainExtend | backend/internal/infrastructure/mcp/tools.go:47-51 | with unique GUIDs, a child of the last node on a root path is not already on the path, so `buildTree` terminates |
| McpTools.AncestorOnChain | backend/internal/infrastructure/mcp/tools.go:44-67 | following parent links up from an emitted node walks its root path back to the root and then stops |
| McpTools.TreeNodeNotOnCycle | backend/internal/infrastructure/mcp/tools.go:44-67 | no emitted node lies on a parent-link cycle, so accounts on a cycle never appear |
| McpTools.Forest | backend/internal/infrastructure/mcp/tools.go:64-67 | one tree per root, in order: the k-th tree carries the k-th root's formatted account |
| McpTools.FormatAccountHierarchy | backend/internal/infrastructure/mcp/tools.go:31-70 | the hierarchy is the forest of the selected roots, and "count" is the number of input accounts, emitted or not |
| TransactionRepository.AddCondition | backend/internal/infrastructure/persistence/postgres/transaction_repository.go:37-41 | one condition is appended, rendered with the next placeholder number; its argument is appended and `argPos` advances by one |
| TransactionRepository.BuildConditions | backend/internal/infrastructure/persistence/postgres/transaction_repository.go:31-61 | the conditions are those of the set filter fields, the arguments are their values, and `argPos` is one past the last argument |
| TransactionRepository.ConditionsSwitched | backend/internal/infrastructure/persistence/postgres/transaction_repository.go:35-61 | a condition is present exactly when there is a filter and its field is set |
| TransactionRepository.ConditionsRanked | backend/internal/infrastructure/persistence/postgres/transaction_repository.go:35-61 | conditions come in the order account, start date, end date, description |
| TransactionRepository.ConditionsPaired | backend/internal/infrastructure/persistence/postgres/transaction_repository.go:36-60 | each argument belongs to its condition: the account GUID, the start date, the end date, and "%" + description + "%" |
| TransactionRepository.ArgIf | backend/internal/infrastructure/persistence/postgres/transaction_repository.go:36-60 | a filter field contributes one argument exactly when it contributes a condition |
| TransactionRepository.FilterArgs | backend/internal/infrastructure/persistence/postgres/transaction_repository.go:31-61 | there is one argument per condition |
| TransactionRepository.AppendWhere | backend/internal/infrastructure/persistence/postgres/transaction_repository.go:63-65 | WHERE is appended only when there is a condition, and the conditions are joined with " AND " |
| TransactionRepository.LimitArgs | backend/internal/infrastructure/persistence/postgres/transaction_repository.go:70-74 | LIMIT takes an argument only when the limit is positive |
| TransactionRepository.OffsetArgs | backend/internal/infrastructure/persistence/postgres/transaction_repository.go:76-79 | OFFSET takes an argument only when the offset is positive |
| TransactionRepository.AppendPage | backend/internal/infrastructure/persistence/postgres/transaction_repository.go:69-80 | LIMIT and OFFSET clauses, numbered from `argPos`, are appended with their arguments |
| TransactionRepository.PagePlaceholders | backend/internal/infrastructure/persistence/postgres/transaction_repository.go:69-80 | the LIMIT/OFFSET placeholders are numbered consecutively after the filter's |
| TransactionRepository.FindAllPlaceholders | backend/internal/infrastructure/persistence/postgres/transaction_repository.go:25-80 | the `$n` placeholders of the query text are exactly $1 … $k in order, where k is the number of arguments |
| TransactionRepository.BuildFindAllQuery | backend/internal/infrastructure/persistence/postgres/transaction_repository.go:25-80 | the built query and arguments; the placeholders are numbered 1 to the number of arguments |
| TransactionRepository.CountPlaceholders | backend/internal/infrastructure/persistence/postgres/transaction_repository.go:162-197 | the count query's placeholders are $1 … $k for its k arguments |
| TransactionRepository.BuildCountQuery | backend/internal/infrastructure/persistence/postgres/transaction_repository.go:162-197 | the same conditions and arguments as `FindAll`, with no LIMIT or OFFSET |
| TransactionRepository.MatchesFields | backend/internal/infrastructure/persistence/postgres/transaction_repository.go:36-60 | a row matches exactly when it has a split on the account, start ≤ post date ≤ end (both inclusive), and the description matches the bound pattern `%d%` under ILIKE (a NULL description never matches) |
| TransactionRepository.LikeLiteralPrefix | backend/internal/infrastructure/persistence/postgres/transaction_repository.go:57-58 | a search text free of `%`, `_` and `\` followed by `%` matches exactly the strings that begin with it |
| TransactionRepository.ContainsPatternIsSubstring | backend/internal/infrastructure/persistence/postgres/transaction_repository.go:57-58 | for such a text d, `%d%` matches exactly the strings containing d |
| TransactionRepository.DescriptionSubstring | backend/internal/infrastructure/persistence/postgres/transaction_repository.go:56-58 | for such a text, the description condition is a case-insensitive substring test |
| TransactionRepository.UnderscoreMatchesAnyChar | backend/internal/infrastructure/persistence/postgres/transaction_repository.go:57-58 | `_` in the search text matches any character: "a_c" finds "ABC" although "a_c" does not occur in it |
| TransactionRepository.PercentMatchesAnyRun | backend/internal/infrastructure/persistence/postgres/transaction_repository.go:57-58 | `%` in the search text matches any run: "50%" finds "50 dollars" although "50%" does not occur in it |
| TransactionRepository.Selected | backend/internal/infrastructure/persistence/postgres/transaction_repository.go:25-65 | the selected rows are exactly the stored rows that match |
| TransactionRepository.SelectedAll | backend/internal/infrastructure/persistence/postgres/transaction_repository.go:35 | without a filter every row is selected |
| TransactionRepository.ComesFirstTotal | backend/internal/infrastructure/persistence/postgres/transaction_repository.go:67 | `ORDER BY post_date DESC, enter_date DESC` is a total preorder |
| TransactionRepository.Page | backend/internal/infrastructure/persistence/postgres/transaction_repository.go:69-80 | the page is a contiguous slice: skip a positive offset, then keep at most a positive limit |
| TransactionRepository.PageMembers | backend/internal/infrastructure/persistence/postgres/transaction_repository.go:69-80 | paging only removes rows |
| TransactionRepository.PageSorted | backend/internal/infrastructure/persistence/postgres/transaction_repository.go:69-80 | paging keeps the order |
| TransactionRepository.QueryRowsMeaning | backend/internal/infrastructure/persistence/postgres/transaction_repository.go:25-82 | every returned row is stored and matches; rows are newest first; a positive limit bounds their number |
| TransactionRepository.QueryRowsUnpaged | backend/internal/infrastructure/persistence/postgres/transaction_repository.go:69-80 | without a positive limit or offset, the rows returned are exactly the matching stored rows, each as often as it is stored (equal multisets) |
| TransactionRepository.SplitsOf | backend/internal/infrastructure/persistence/postgres/transaction_repository.go:217 | the splits of exactly the given transaction |
| TransactionRepository.JoinedAccount | backend/internal/infrastructure/persistence/postgres/transaction_repository.go:216 | the LEFT JOIN finds a listed account with the split's account GUID, or none when there is no such account |
| TransactionRepository.ScanSplitMeaning | backend/internal/infrastructure/persistence/postgres/transaction_repository.go:229-249 | the scan fails exactly when the joined account is missing; a scanned split copies its row, takes the account's name and type, and gets `Account.GUID == AccountGUID` |
| TransactionRepository.ScanSplits | backend/internal/infrastructure/persistence/postgres/transaction_repository.go:227-252 | succeeds exactly when every row scans; one split per row, in order |
| TransactionRepository.LoadSplits | backend/internal/infrastructure/persistence/postgres/transaction_repository.go:220-224 | a split query the database rejects is "failed to query splits"; otherwise the scan of the transaction's split rows |
| TransactionRepository.LoadSplitsForTransaction | backend/internal/infrastructure/persistence/postgres/transaction_repository.go:209-255 | a rejected split query is "failed to query splits"; otherwise the loop yields the scan of the transaction's split rows, ordered by `value_num` descending |
| TransactionRepository.LoadedSplitsLinked | backend/internal/infrastructure/persistence/postgres/transaction_repository.go:209-255 | every loaded split belongs to the transaction and has `Account.GUID == AccountGUID` |
| TransactionRepository.LoadedSplitsOrdered | backend/internal/infrastructure/persistence/postgres/transaction_repository.go:218 | loaded splits are in non-increasing `value_num` order |
| TransactionRepository.LoadedSplitsComplete | backend/internal/infrastructure/persistence/postgres/transaction_repository.go:215-217 | every stored split of the transaction is loaded |
| TransactionRepository.CurrencyMnemonic | backend/internal/infrastructure/persistence/postgres/transaction_repository.go:26-28 | `COALESCE(c.mnemonic, '')`: the currency's mnemonic, or "" when the commodity is missing |
| TransactionRepository.LoadTransactionMeaning | backend/internal/infrastructure/persistence/postgres/transaction_repository.go:89-111 | a row that does not scan is "failed to scan transaction", a rejected split query is "failed to query splits"; a transaction loads exactly when its row scans and its splits load; it copies its row, takes the currency mnemonic, and carries all its splits, linked and ordered |
| TransactionRepository.LoadTransactions | backend/internal/infrastructure/persistence/postgres/transaction_repository.go:88-112 | succeeds exactly when every row loads; one transaction per row, in order; a failure is one of the scan-transaction, query-splits and scan-split errors |
| TransactionRepository.ScanTransactions | backend/internal/infrastructure/persistence/postgres/transaction_repository.go:88-114 | the row loop returns the error of the first row that fails to scan or to load its splits, otherwise loads every row |
| TransactionRepository.FindAll | backend/internal/infrastructure/persistence/postgres/transaction_repository.go:24-115 | a failed query is an error; otherwise the query's rows are loaded |
| TransactionRepository.FindByAccount | backend/internal/infrastructure/persistence/postgres/transaction_repository.go:151-158 | `FindAll` with a filter of only the account, limit and offset |
| TransactionRepository.RowWithGuid | backend/internal/infrastructure/persistence/postgres/transaction_repository.go:119-124 | a stored row with the GUID, or none exactly when no row has it |
| TransactionRepository.FindByGuid | backend/internal/infrastructure/persistence/postgres/transaction_repository.go:118-148 | "failed to find transaction" when the query fails, no row has the GUID or the row does not scan; otherwise that row loaded with its splits, passing on a split-query or split-scan error |
| TransactionRepository.Guids | backend/internal/infrastructure/persistence/postgres/transaction_repository.go:162 | `DISTINCT t.guid`: exactly the GUIDs of the rows |
| TransactionRepository.Count | backend/internal/infrastructure/persistence/postgres/transaction_repository.go:161-206 | a failed query is an error; otherwise the number of distinct GUIDs among the matching rows, ignoring limit and offset |
| TransactionRepository.FindAllMeaning | backend/internal/infrastructure/persistence/postgres/transaction_repository.go:24-115 | every result is a stored, matching transaction; results are newest first; a positive limit bounds their number |
| TransactionRepository.FindAllSplits | backend/internal/infrastructure/persistence/postgres/transaction_repository.go:104-109 | every result's splits are its own, linked to their accounts, and ordered by value descending |
| TransactionRepository.FindAllOnAccount | backend/internal/infrastructure/persistence/postgres/transaction_repository.go:36-42 | with an account filter, every result has a split on that account |
| TransactionRepository.CountCoversFindAll | backend/internal/infrastructure/persistence/postgres/transaction_repository.go:161-197 | with unique GUIDs, `Count` is at least the number of `FindAll` results, and equal when there is no positive limit or offset |
| Calendar.MonthStart | backend/internal/application/service/analytics_service.go:61 | the first day of the date's month at midnight |
| Calendar.MonthEnd | backend/internal/application/service/analytics_service.go:62 | `AddDate(0, 1, -1)` on a month start: the month's last day, at the same time of day (midnight) |
| Calendar.AddOneMonth | backend/internal/application/service/analytics_service.go:122 | `AddDate(0, 1, 0)`: strictly later and at the same time of day; the same day of the next month exactly when that month has the day, otherwise overflowing into the month after by the days the next month lacks |
| Calendar.PeriodLayout | backend/internal/application/service/analytics_service.go:113 | `Format("2006-01")` for years 0 to 9999: seven characters, a "-" at index 4, and digit groups that read back as the year and the month |
| Calendar.PeriodDistinguishesMonths | backend/internal/application/service/analytics_service.go:113 | equal periods mean the same year and month |
| AnalyticsService.FindByType | backend/internal/infrastructure/persistence/postgres/account_repository.go:123-142 | an error exactly when the lookup fails; otherwise exactly the accounts of that type |
| AnalyticsService.FindByTypeSorted | backend/internal/infrastructure/persistence/postgres/account_repository.go:124 | the accounts come in name order |
| AnalyticsService.NameFirstTotal | backend/internal/infrastructure/persistence/postgres/account_repository.go:124 | name order is a total preorder |
| AnalyticsService.RootCurrencyMnemonicMeaning | backend/internal/application/service/analytics_service.go:33-39 | "" when the ROOT lookup fails or finds no ROOT account; otherwise some ROOT account's mnemonic |
| AnalyticsService.RootCurrencyMnemonicFirst | backend/internal/application/service/analytics_service.go:33-39 | the mnemonic is that of a ROOT account whose name comes first |
| AnalyticsService.SplitsTotal | backend/internal/application/service/analytics_service.go:78-83 | the sum of the absolute split values is never negative |
| AnalyticsService.TransactionsTotal | backend/internal/application/service/analytics_service.go:77-84 | the sum over transactions is never negative |
| AnalyticsService.SumOnAccount | backend/internal/application/service/analytics_service.go:77-84 | the nested loop adds \|value\| of exactly the splits on the account |
| AnalyticsService.AccountMonthTotal | backend/internal/application/service/analytics_service.go:67-84 | an account's month total is never negative, and is zero when its transaction query fails |
| AnalyticsService.AccountsMonthTotal | backend/internal/application/service/analytics_service.go:66-85 | a month's income (or expense) is never negative |
| AnalyticsService.SumForAccounts | backend/internal/application/service/analytics_service.go:66-85 | the per-account loop computes the sum of the account month totals |
| AnalyticsService.VisitsMeaning | backend/internal/application/service/analytics_service.go:59-123 | no month is visited exactly when end < start; the first visit is `startDate`; every visit is ≤ end; the next step would pass end |
| AnalyticsService.VisitsSteps | backend/internal/application/service/analytics_service.go:122 | each visit is the previous one plus one month by `AddDate` |
| AnalyticsService.VisitsLast | backend/internal/application/service/analytics_service.go:60 | the loop stops: one more month after the last visit passes the end date |
| AnalyticsService.VisitsNotAfter | backend/internal/application/service/analytics_service.go:60 | every visit is at or before the end date |
| AnalyticsService.MidMonthRange | backend/internal/application/service/analytics_service.go:59-122 | 2024-01-15 to 2024-03-05 visits January and February only |
| AnalyticsService.MonthOverflowSkipsFebruary | backend/internal/application/service/analytics_service.go:122 | 2024-01-31 to 2024-03-31 visits January and March: the step overflows past February |
| AnalyticsService.MonthBucketBounds | backend/internal/application/service/analytics_service.go:61-71 | a transaction with a split on the account is in a month's bucket exactly when it is posted in that month, before the last day or at midnight on it |
| AnalyticsService.MonthStep | backend/internal/application/service/analytics_service.go:61-117 | one iteration computes the month's income, its expense, and its data entry |
| AnalyticsService.Buckets | backend/internal/application/service/analytics_service.go:112-117 | one data entry per visited month |
| AnalyticsService.BucketsAt | backend/internal/application/service/analytics_service.go:112-117 | the k-th entry is the k-th visited month's |
| AnalyticsService.BucketsMeaning | backend/internal/application/service/analytics_service.go:110-117 | each entry's period is its month as "YYYY-MM"; income and expense are non-negative, shown with two digits and no minus; net is income − expense |
| AnalyticsService.PeriodTotal | backend/internal/application/service/analytics_service.go:119-120 | the accumulated total is never negative |
| AnalyticsService.MonthlyData | backend/internal/application/service/analytics_service.go:55-123 | the date loop yields the entries of the visited months and, as totals, the sums of the monthly income and expense |
| AnalyticsService.GetIncomeExpense | backend/internal/application/service/analytics_service.go:42-134 | the method computes the income/expense response |
| AnalyticsService.IncomeExpenseErrors | backend/internal/application/service/analytics_service.go:44-52 | a failed INCOME or EXPENSE lookup fails the whole call, income first; otherwise it succeeds |
| AnalyticsService.IncomeExpenseTotals | backend/internal/application/service/analytics_service.go:119-130 | total income and total expense are the sums of the monthly values |
| AnalyticsService.NetSumIsDifference | backend/internal/application/service/analytics_service.go:110-125 | the sum of the monthly nets is total income − total expense |
| AnalyticsService.IncomeExpenseNet | backend/internal/application/service/analytics_service.go:125-132 | the net total is the sum of the monthly nets; the mnemonic is the ROOT currency |
| AnalyticsService.SummaryNetSum | backend/internal/application/service/analytics_service.go:110-131 | the net total shows the sum of the monthly nets |
| AnalyticsService.IncomeExpenseEmptyRange | backend/internal/application/service/analytics_service.go:55-133 | when end < start, `data` is empty and every total is "0.00" |
| AnalyticsService.EmptySummary | backend/internal/application/service/analytics_service.go:125-131 | zero totals show as "0.00" |
| AnalyticsService.CategoryItems | backend/internal/application/service/analytics_service.go:152-169 | one item per aggregate, in the order received |
| AnalyticsService.ConvertAggregates | backend/internal/application/service/analytics_service.go:151-169 | the conversion loop yields those items |
| AnalyticsService.CategoryItemsOf | backend/internal/application/service/analytics_service.go:152-169 | each item copies the name and count, and its amount reads back as total/denominator rounded to cents |
| AnalyticsService.GetCategoryBreakdown | backend/internal/application/service/analytics_service.go:137-176 | the method computes the category breakdown |
| AnalyticsService.CategoryBreakdownMeaning | backend/internal/application/service/analytics_service.go:137-176 | a failed income (first) or expense aggregate is an error; otherwise the items follow their aggregates, with the ROOT currency |
| AnalyticsService.ScannedMembers | backend/internal/application/service/analytics_service.go:192-197 | the accounts scanned are those of the listed types whose lookup succeeds |
| AnalyticsService.KeptMembers | backend/internal/application/service/analytics_service.go:198-216 | an account is kept exactly when it is not a placeholder, its balance query succeeds, and its balance is non-zero |
| AnalyticsService.Counted | backend/internal/application/service/analytics_service.go:246-253 | a liability's contribution to the total is never negative |
| AnalyticsService.Entries | backend/internal/application/service/analytics_service.go:210-214 | one item per kept account, in order |
| AnalyticsService.KeptTotal | backend/internal/application/service/analytics_service.go:215 | the liability total is never negative |
| AnalyticsService.ConsiderAccount | backend/internal/application/service/analytics_service.go:199-216 | one loop step appends an item and adds to the total exactly for a kept account |
| AnalyticsService.CollectAccounts | backend/internal/application/service/analytics_service.go:198-217 | the inner loop extends the items and total by the kept accounts of one type |
| AnalyticsService.CollectHoldings | backend/internal/application/service/analytics_service.go:189-218 | the outer loop yields the items and total of all kept accounts of the listed types |
| AnalyticsService.GetNetWorth | backend/internal/application/service/analytics_service.go:179-268 | the method computes the net-worth response |
| AnalyticsService.NetWorthAccounts | backend/internal/application/service/analytics_service.go:192-216 | an account is reported exactly when it is of a listed type whose lookup succeeds, is not a placeholder, and has a non-zero balance |
| AnalyticsService.NetWorthItems | backend/internal/application/service/analytics_service.go:208-254 | asset items show the balance; liability items show its absolute value, never with a minus |
| AnalyticsService.NetWorthTypes | backend/internal/application/service/analytics_service.go:181-225 | assets are BANK, CASH, ASSET, STOCK or MUTUAL, never RECEIVABLE; liabilities are LIABILITY, CREDIT or PAYABLE |
| AnalyticsService.KeptTypes | backend/internal/application/service/analytics_service.go:192-197 | every kept account is of a listed type |
| AnalyticsService.NetWorthTotals | backend/internal/application/service/analytics_service.go:258-267 | the totals are the item sums, liabilities summed by absolute value (so never negative), and net worth is assets − liabilities |
| AnalyticsService.CreditBalancesSum | backend/internal/application/service/analytics_service.go:253 | when every liability balance is negative, the liability total is minus their sum |
| AnalyticsService.OverpaidLiability | backend/internal/application/service/analytics_service.go:251-253 | an overpaid credit card (+50) and an owing one (−50) both add 50 to the liabilities |
| RateLimit.AllowStep | backend/internal/interfaces/http/middleware/ratelimit.go:61-83 | a request is allowed exactly when its key is new, its window ended strictly more than `window` ago, or tokens remain; a refusal changes nothing |
| RateLimit.RateLimiter.constructor | backend/internal/interfaces/http/middleware/ratelimit.go:29-45 | the limiter starts with no buckets |
| RateLimit.RateLimiter.Allow | backend/internal/interfaces/http/middleware/ratelimit.go:61-83 | the new map and the answer are those of one step, and tokens stay within 0 … rate − 1 |
| RateLimit.Swept | backend/internal/interfaces/http/middleware/ratelimit.go:52-57 | exactly the buckets with now − lastReset ≤ 3·window remain, unchanged |
| RateLimit.RateLimiter.Cleanup | backend/internal/interfaces/http/middleware/ratelimit.go:48-58 | the deletion loop leaves exactly the non-stale buckets |
| RateLimit.Middleware | backend/internal/interfaces/http/middleware/ratelimit.go:86-103 | the client is charged one step; a refusal is a 429 with the fixed error and message |
| RateLimit.AllowOtherKeys | backend/internal/interfaces/http/middleware/ratelimit.go:61-83 | `Allow` leaves every other key's bucket as it was |
| RateLimit.AllowOwnBucket | backend/internal/interfaces/http/middleware/ratelimit.go:66-82 | the reset, decrement and refuse cases; at exactly `window` after the last reset there is no reset |
| RateLimit.AllowKeepsRange | backend/internal/interfaces/http/middleware/ratelimit.go:70-80 | for rate ≥ 1, token counts stay within 0 … rate − 1 |
| RateLimit.SweptKeepsRange | backend/internal/interfaces/http/middleware/ratelimit.go:52-57 | cleanup keeps token counts in range |
| RateLimit.SweepUnobservable | backend/internal/interfaces/http/middleware/ratelimit.go:48-83 | for a non-negative window, a later request gets the same answer and bucket whether or not cleanup ran |
| RateLimit.WithinWindow | backend/internal/interfaces/http/middleware/ratelimit.go:68-80 | inside one window no reset happens, and at most the remaining tokens' worth of requests pass |
| RateLimit.AtMostRatePerWindow | backend/internal/interfaces/http/middleware/ratelimit.go:61-83 | between resets at most `rate` requests of one key pass (one when rate < 1) |
| RateLimit.RefusedOnceSpent | backend/internal/interfaces/http/middleware/ratelimit.go:77-82 | with no tokens and no reset due, every request is refused |
| Cors.BuildAllowedSet | backend/internal/interfaces/http/middleware/cors.go:16-20 | the loop collects every configured origin with its trailing "/" characters removed |
| Cors.AllowedOriginsMeaning | backend/internal/interfaces/http/middleware/cors.go:17-25 | an origin is allowed exactly when a configured origin trims to it; a request origin ending in "/" is never allowed |
| Cors.TrailingSlashExample | backend/internal/interfaces/http/middleware/cors.go:19-25 | "https://app.example/" configured allows "https://app.example" but not "https://app.example/" |
| Cors.Handle | backend/internal/interfaces/http/middleware/cors.go:22-40 | the headers written, then OPTIONS is answered 204 and stops, and every other method continues |
| Cors.HeaderNamesDistinct | backend/internal/interfaces/http/middleware/cors.go:26-32 | the five header names differ |
| Cors.CorsHeadersMeaning | backend/internal/interfaces/http/middleware/cors.go:25-32 | Allow-Origin (the request's origin) and Allow-Credentials ("true") are set exactly when the origin is allowed; the other three headers are always set; other headers are untouched |
| Auth.Handle | backend/internal/interfaces/http/middleware/auth.go:13-58 | on success `user_id` and `user_email` are set from the claims and the chain continues; on any rejection the context is untouched and the status is 401 |
| Auth.BearerForm | backend/internal/interfaces/http/middleware/auth.go:27-28 | splitting on " " gives ["Bearer", token] exactly when the header is "Bearer " + a token with no space |
| Auth.AuthenticateAccepts | backend/internal/interfaces/http/middleware/auth.go:27-56 | a request passes exactly when the header is "Bearer " + a space-free token that validates, and it then carries that token's claims |
| Auth.AuthenticateRejects | backend/internal/interfaces/http/middleware/auth.go:16-50 | an empty header, a malformed header and a token that fails validation are each rejected with their own message |
| Auth.LowercaseSchemeRejected | backend/internal/interfaces/http/middleware/auth.go:27-36 | the scheme is matched case-sensitively |
| Auth.DoubleSpaceRejected | backend/internal/interfaces/http/middleware/auth.go:27-36 | a doubled space is a malformed header |
| Auth.SchemeAloneRejected | backend/internal/interfaces/http/middleware/auth.go:27-36 | "Bearer" alone is a malformed header |
| Auth.EmptyTokenValidated | backend/internal/interfaces/http/middleware/auth.go:38-50 | "Bearer " hands the empty token to the validator |

## Left out

- **SQL execution, pgx and connection handling.**
  - Queries are modelled by their meaning over the stored rows.
  - A failing query is a boolean parameter (`queryFails`) or a `Failures` set.
  - Failures while reading transactions back are the database's `faults`: the GUIDs of transaction rows that do not scan, and of transactions whose split query is rejected.
- **NULL dates.** A transaction row with a NULL `post_date` or `enter_date` is represented only by its GUID in `faults.unscannable`. The row's dates stay plain values, so how SQL compares NULL dates in `WHERE` or sorts them in `ORDER BY` is not modelled.
  - Row-iteration errors (`rows.Err`) are not modelled.
- **The `%w`-wrapped driver error in error messages.** Only the fixed prefix of each message is kept.
- **The account repository's `FindAll`** (account_repository.go:55-78) is the input list of `FindHierarchy`, `FindByGuid` and the MCP formatting. Its `ORDER BY a.name` is assumed to have been applied by the caller.
- **`SELECT DISTINCT`** (transaction_repository.go:26) is not modelled separately. Each stored transaction row gives one result row: the commodity join matches at most one commodity, and the account condition is an `EXISTS`. So DISTINCT could only merge two identical transaction rows, which the primary key on `transactions.guid` rules out.
- **Go's `nil` versus empty slices** in the responses are both the empty sequence.
- **Pointers and aliasing.** `FindHierarchy` and the MCP tree refer to accounts by their position in the list, not by pointer.
  - `Children` is a separate list of positions, not a mutated field.
  - With duplicate GUIDs, `FindHierarchy` links each account once, under the last listed account with its parent's GUID (`GuidIndexIsLast`), as Go's map does. Only the MCP `buildTree` could render an account under two parents with the same GUID, and `FormatAccountHierarchy` requires unique GUIDs (next line).
- **McpTools.FormatAccountHierarchy**: requires unique account GUIDs. GUIDs are the accounts table's primary key. With duplicates, Go's `buildTree` can recurse forever: an account whose own GUID is also listed as its parent loops.
- **Cycles in the recursive CTE.** Cycles in the parent links are not modelled. The tree is the least child-closed set, which is what the CTE computes on an acyclic table.
- **shopspring's 16-digit decimal division.** Decimals are exact rationals here.
  - `DecimalRoundTrip` holds for every non-zero denominator in the model.
  - In Go it holds only for quotients that terminate within 16 digits.
- **Unicode case folding and SQL collation.**
  - `ILIKE` folds case as ASCII lower-casing only; its `%`, `_` and `\` pattern characters are modelled (`LikeMatch`).
  - `ORDER BY a.name` compares character codes.
  - SQL leaves the order of ties unspecified; the model keeps tied rows in table order.
- **Time zones.** All times are UTC date-times. Nanosecond counts stand in for `time.Time` and `time.Duration`.
  - `window * 3` and `now.Sub` are unbounded integers here. int64 overflow of durations is not modelled.
- **The clock.** `time.Now()` is the `now` parameter of `Allow` and `Cleanup`.
- **Concurrency.** The rate limiter's mutex, its cleanup goroutine and ticker, and `Stop` are not modelled. `Allow` and `Cleanup` are sequential methods.
- **RateLimit.RateLimiter.Allow**: the token-range invariant is stated only for rate ≥ 1. A limiter built with a rate below 1 hands out a negative token count on every reset.
- **`ClientIP()` and the Gin context.**
  - The rate limiter's key is a parameter.
  - The CORS middleware reads the Origin header and method as parameters, and writes a header map.
  - The auth middleware writes a context map.
- **JWT validation.** `ValidateToken` is a function parameter of `Auth`. It returns the claims or nothing; its signature and expiry checks are not modelled.
- **`AggregateByAccountType`.** Its SQL is not part of this model. The category breakdown takes its result (an aggregate list or an error) as an input.
- **The transaction repository's `minAmount`/`maxAmount`-style filter fields.** They do not exist in the code's conditions and are not modelled.
- **`formatTransaction`** (tools.go:73-101) and the MCP tool handlers are not part of this model. They are JSON marshalling; `handleAccountsBalance` also uses floating point.
- **Rational.StringFixed2, Rational.FormatAmount**: these functions carry no `ensures`. Their meaning (the string reads back as the rounded cent count) is in `StringFixed2Reads`, `FormatAmountReads` and `CentsRoundTrip`.
- **McpTools.FormatAccount**: the "balance" string's meaning is in `FormattedBalanceReads`, not in the function's own contract.
- **The analytics response objects** are returned as values. The DTO `Code` and JSON tags are not modelled.
