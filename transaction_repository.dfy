/** The PostgreSQL transaction repository
    (backend/internal/infrastructure/persistence/postgres/transaction_repository.go):
    how `FindAll` and `Count` turn a filter into SQL text and positional arguments,
    what that SQL means over the stored rows (filter, order, offset and limit), and
    how the transactions and their splits are loaded row by row. */
module TransactionRepository {
  import opened Wrappers
  import opened Rational
  import opened Text
  import opened Calendar
  import opened Entity
  import opened Tables
  import opened Sorting

  /** `repository.TransactionFilter`. `minAmount` and `maxAmount` are carried but
      neither `FindAll` nor `Count` reads them. */
  datatype TransactionFilter = TransactionFilter(
    accountGuid: Option<string>,
    startDate: Option<Time>,
    endDate: Option<Time>,
    description: Option<string>,
    minAmount: Option<Int64>,
    maxAmount: Option<Int64>,
    limit: int,
    offset: int)

  /** `repository.AccountAggregate`: an account's summed split values as a fraction. */
  datatype AccountAggregate = AccountAggregate(
    accountGuid: string,
    accountName: string,
    totalAmount: Int64,
    denominator: Int64,
    count: int)

  /** A positional query argument, bound to `$1`, `$2`, ... in order. */
  datatype QueryArg = StrArg(s: string) | TimeArg(t: Time) | IntArg(n: int)

  // ---------------------------------------------------------------------------
  // The SQL text
  // ---------------------------------------------------------------------------

  // The texts are written as concatenated pieces of a few words (the strings are
  // the same); the proofs that they hold no placeholder go piece by piece.
  const SelectKeys: string := "\n\t\tSELECT " + "DISTINCT t.guid, " + "t.currency_guid, "
  const SelectCurrency: string := "COALESCE(c.mnemonic, ''), "
  const SelectDates: string := "t.num, t.post_date, " + "t.enter_date, " + "t.description\n\t\t"
  const FromTransactions: string := "FROM transactions t\n\t\t"
  const JoinCommodities: string := "LEFT JOIN commodities c " + "ON t.currency_guid = " + "c.guid\n\t"
  const FindAllSelect: string := SelectKeys + SelectCurrency + SelectDates + FromTransactions + JoinCommodities
  const CountSelect: string := "SELECT COUNT(" + "DISTINCT t.guid) " + "FROM transactions t"
  const OrderByDates: string := " ORDER BY t." + "post_date DESC, " + "t.enter_date DESC"
  const SplitsSubquery: string := "EXISTS (\n\t\t\t\tSELECT 1 " + "FROM splits s "
  const SplitsOfAccount: string := "WHERE s.tx_guid = t.guid " + "AND s.account_guid = "
  const AccountConditionHead: string := SplitsSubquery + SplitsOfAccount
  const AccountConditionTail: string := "\n\t\t\t)"

  /** The four conditions a filter can switch on. */
  datatype Condition = OnAccount | FromDate | ToDate | DescriptionLike

  /** The text of a condition whose argument is placeholder `$pos`. */
  function ConditionText(c: Condition, pos: nat): string {
    match c
    case OnAccount =>
      AccountConditionHead + "$" + NatToString(pos) + AccountConditionTail
    case FromDate => "t.post_date >= " + "$" + NatToString(pos)
    case ToDate => "t.post_date <= " + "$" + NatToString(pos)
    case DescriptionLike => "t.description ILIKE " + "$" + NatToString(pos)
  }

  /** Whether a filter field switches condition `c` on. */
  predicate Switched(f: TransactionFilter, c: Condition) {
    match c
    case OnAccount => f.accountGuid.Some?
    case FromDate => f.startDate.Some?
    case ToDate => f.endDate.Some?
    case DescriptionLike => f.description.Some?
  }

  /** The argument bound to a switched-on condition; the description is wrapped
      in `%` wildcards. */
  function ConditionArg(f: TransactionFilter, c: Condition): QueryArg
    requires Switched(f, c)
  {
    match c
    case OnAccount => StrArg(f.accountGuid.value)
    case FromDate => TimeArg(f.startDate.value)
    case ToDate => TimeArg(f.endDate.value)
    case DescriptionLike => StrArg(ContainsPattern(f.description.value))
  }

  /** The ILIKE pattern for "contains `d`". */
  function ContainsPattern(d: string): string {
    "%" + d + "%"
  }

  function KindIf(f: TransactionFilter, c: Condition): seq<Condition> {
    if Switched(f, c) then [c] else []
  }

  function ArgIf(f: TransactionFilter, c: Condition): (r: seq<QueryArg>)
    ensures |r| == |KindIf(f, c)|
  {
    if Switched(f, c) then [ConditionArg(f, c)] else []
  }

  /** The conditions a filter switches on, in the order they are added:
      account, start date, end date, description. */
  function FilterConditionKinds(filter: Option<TransactionFilter>): seq<Condition> {
    if filter.None? then []
    else
      var f := filter.value;
      KindIf(f, OnAccount) + KindIf(f, FromDate) + KindIf(f, ToDate) + KindIf(f, DescriptionLike)
  }

  /** The arguments bound to the conditions, one per condition and in the same order. */
  function FilterArgs(filter: Option<TransactionFilter>): (r: seq<QueryArg>)
    ensures |r| == |FilterConditionKinds(filter)|
  {
    if filter.None? then []
    else
      var f := filter.value;
      ArgIf(f, OnAccount) + ArgIf(f, FromDate) + ArgIf(f, ToDate) + ArgIf(f, DescriptionLike)
  }

  /** The condition texts, the k-th (from 0) numbered `$k+1`. */
  function RenderConditions(kinds: seq<Condition>): (r: seq<string>)
    ensures |r| == |kinds|
  {
    seq(|kinds|, k requires 0 <= k < |kinds| => ConditionText(kinds[k], k + 1))
  }

  /** ` WHERE c1 AND c2 ...`, or nothing when the filter has no condition. */
  function WhereClause(filter: Option<TransactionFilter>): string {
    var conditions := RenderConditions(FilterConditionKinds(filter));
    if |conditions| > 0 then " WHERE " + JoinStrings(conditions, " AND ") else ""
  }

  /** ` LIMIT $pos` when the filter's limit is positive. */
  function LimitClause(filter: Option<TransactionFilter>, pos: nat): string {
    if filter.Some? && filter.value.limit > 0 then " LIMIT " + "$" + NatToString(pos) else ""
  }

  /** ` OFFSET $pos` when the filter's offset is positive. */
  function OffsetClause(filter: Option<TransactionFilter>, pos: nat): string {
    if filter.Some? && filter.value.offset > 0 then " OFFSET " + "$" + NatToString(pos) else ""
  }

  function LimitArgs(filter: Option<TransactionFilter>): (r: seq<QueryArg>)
    ensures |r| == (if filter.Some? && filter.value.limit > 0 then 1 else 0)
  {
    if filter.Some? && filter.value.limit > 0 then [IntArg(filter.value.limit)] else []
  }

  function OffsetArgs(filter: Option<TransactionFilter>): (r: seq<QueryArg>)
    ensures |r| == (if filter.Some? && filter.value.offset > 0 then 1 else 0)
  {
    if filter.Some? && filter.value.offset > 0 then [IntArg(filter.value.offset)] else []
  }

  /** The arguments for LIMIT and OFFSET, each present only when positive. */
  function PageArgs(filter: Option<TransactionFilter>): seq<QueryArg> {
    LimitArgs(filter) + OffsetArgs(filter)
  }

  /** ` LIMIT $pos` and ` OFFSET $pos'`, numbered from `pos` on. */
  function PageClause(filter: Option<TransactionFilter>, pos: nat): string {
    LimitClause(filter, pos) + OffsetClause(filter, pos + |LimitArgs(filter)|)
  }

  // ---------------------------------------------------------------------------
  // Placeholders
  // ---------------------------------------------------------------------------

  /** The numbers of the `$n` placeholders in `s`, left to right. */
  function Placeholders(s: string): seq<nat> {
    if s == [] then []
    else if s[0] == '$' then
      var digits := LeadingDigits(s[1..]);
      [DigitsValue(digits)] + Placeholders(s[1..])
    else Placeholders(s[1..])
  }

  /** `[from, from + 1, ..., from + count - 1]`. */
  function Numbered(from: nat, count: nat): (r: seq<nat>)
    ensures |r| == count && forall k :: 0 <= k < count ==> r[k] == from + k
  {
    seq(count, k requires 0 <= k => from + k)
  }

  /** `[1, 2, ..., n]`. */
  function Iota(n: nat): seq<nat> {
    Numbered(1, n)
  }

  lemma NumberedConcat(from: nat, a: nat, b: nat)
    ensures Numbered(from, a) + Numbered(from + a, b) == Numbered(from, a + b)
  {
  }

  /** Splitting text at a point not followed by a digit splits its placeholders. */
  lemma {:induction false} PlaceholdersAppend(a: string, b: string)
    requires b == [] || !IsDigit(b[0])
    ensures Placeholders(a + b) == Placeholders(a) + Placeholders(b)
  {
    if a == [] {
      assert a + b == b;
    } else {
      assert (a + b)[0] == a[0];
      assert (a + b)[1..] == a[1..] + b;
      PlaceholdersAppend(a[1..], b);
      if a[0] == '$' {
        LeadingDigitsAppend(a[1..], b);
      }
    }
  }

  lemma {:induction false} PlaceholdersNone(s: string)
    requires '$' !in s
    ensures Placeholders(s) == []
  {
    if s != [] {
      assert s[0] in s;
      assert forall c :: c in s[1..] ==> c in s;
      PlaceholdersNone(s[1..]);
    }
  }

  /** Dollar-free text in front adds no placeholder. */
  lemma {:induction false} PlaceholdersPrefix(a: string, b: string)
    requires '$' !in a
    ensures Placeholders(a + b) == Placeholders(b)
  {
    if a == [] {
      assert a + b == b;
    } else {
      assert a[0] in a;
      assert forall c :: c in a[1..] ==> c in a;
      assert (a + b)[0] == a[0];
      assert (a + b)[1..] == a[1..] + b;
      PlaceholdersPrefix(a[1..], b);
    }
  }

  lemma DigitsDollarFree(s: string)
    requires AllDigits(s)
    ensures '$' !in s
  {
  }

  /** `$n` is the one placeholder `n`. */
  lemma PlaceholderDigits(n: nat)
    ensures Placeholders("$" + NatToString(n)) == [n]
  {
    var digits := NatToString(n);
    var t := "$" + digits;
    assert t[0] == '$' && t[1..] == digits;
    LeadingDigitsOfDigits(digits);
    DigitsDollarFree(digits);
    PlaceholdersNone(digits);
    NatToStringRoundTrip(n);
  }

  /** A single `$n` between dollar-free text has exactly the placeholder `n`. */
  lemma PlaceholderOne(pre: string, n: nat, post: string)
    requires '$' !in pre && '$' !in post
    requires post == [] || !IsDigit(post[0])
    ensures Placeholders(pre + "$" + NatToString(n) + post) == [n]
    ensures Placeholders(pre + "$" + NatToString(n)) == [n]
  {
    var tail := "$" + NatToString(n);
    PlaceholderDigits(n);
    assert pre + "$" + NatToString(n) == pre + tail;
    PlaceholdersPrefix(pre, tail);
    PlaceholdersAppend(pre + tail, post);
    PlaceholdersNone(post);
  }

  /** The fixed SQL texts hold no placeholder. */
  lemma SelectKeysDollarFree() ensures '$' !in SelectKeys {}
  lemma SelectCurrencyDollarFree() ensures '$' !in SelectCurrency {}
  lemma SelectDatesDollarFree() ensures '$' !in SelectDates {}
  lemma FromTransactionsDollarFree() ensures '$' !in FromTransactions {}
  lemma JoinCommoditiesDollarFree() ensures '$' !in JoinCommodities {}

  lemma FindAllSelectDollarFree()
    ensures '$' !in FindAllSelect
  {
    SelectKeysDollarFree();
    SelectCurrencyDollarFree();
    SelectDatesDollarFree();
    FromTransactionsDollarFree();
    JoinCommoditiesDollarFree();
  }

  lemma CountSelectDollarFree()
    ensures '$' !in CountSelect
  {
  }

  lemma OrderByDollarFree()
    ensures '$' !in OrderByDates && !IsDigit(OrderByDates[0])
  {
  }

  lemma SplitsSubqueryDollarFree() ensures '$' !in SplitsSubquery {}
  lemma SplitsOfAccountDollarFree() ensures '$' !in SplitsOfAccount {}

  lemma AccountConditionDollarFree()
    ensures '$' !in AccountConditionHead && '$' !in AccountConditionTail && !IsDigit(AccountConditionTail[0])
  {
    SplitsSubqueryDollarFree();
    SplitsOfAccountDollarFree();
  }

  lemma ConditionPlaceholder(c: Condition, pos: nat)
    ensures Placeholders(ConditionText(c, pos)) == [pos]
    ensures ConditionText(c, pos) != [] && !IsDigit(ConditionText(c, pos)[0])
  {
    match c
    case OnAccount =>
      AccountConditionDollarFree();
      PlaceholderOne(AccountConditionHead, pos, AccountConditionTail);
      assert ConditionText(c, pos)[0] == AccountConditionHead[0];
    case FromDate => PlaceholderOne("t.post_date >= ", pos, "");
    case ToDate => PlaceholderOne("t.post_date <= ", pos, "");
    case DescriptionLike => PlaceholderOne("t.description ILIKE ", pos, "");
  }

  /** Joining texts whose placeholders are `$1`, `$2`, ... in turn gives `$1` to `$n`. */
  lemma {:induction false} JoinNumbered(parts: seq<string>, sep: string)
    requires '$' !in sep && sep != [] && !IsDigit(sep[0])
    requires forall k :: 0 <= k < |parts| ==> Placeholders(parts[k]) == [k + 1]
    requires forall k :: 0 <= k < |parts| ==> parts[k] != [] && !IsDigit(parts[k][0])
    ensures Placeholders(JoinStrings(parts, sep)) == Iota(|parts|)
  {
    var n := |parts|;
    if n == 1 {
      NumberedConcat(1, 0, 1);
    } else if n > 1 {
      var init := parts[..n - 1];
      JoinNumbered(init, sep);
      var joined := JoinStrings(init, sep);
      PlaceholdersAppend(joined + sep, parts[n - 1]);
      PlaceholdersAppend(joined, sep);
      PlaceholdersNone(sep);
      NumberedConcat(1, n - 1, 1);
    }
  }

  /** Joined with " AND ", the rendered conditions are numbered `$1` to `$k`. */
  lemma RenderedPlaceholders(kinds: seq<Condition>)
    ensures Placeholders(JoinStrings(RenderConditions(kinds), " AND ")) == Iota(|kinds|)
  {
    var rendered := RenderConditions(kinds);
    forall k | 0 <= k < |rendered|
      ensures Placeholders(rendered[k]) == [k + 1]
      ensures rendered[k] != [] && !IsDigit(rendered[k][0])
    {
      ConditionPlaceholder(kinds[k], k + 1);
    }
    JoinNumbered(rendered, " AND ");
  }

  lemma WherePlaceholders(filter: Option<TransactionFilter>)
    ensures Placeholders(WhereClause(filter)) == Iota(|FilterArgs(filter)|)
    ensures WhereClause(filter) == [] || !IsDigit(WhereClause(filter)[0])
  {
    var kinds := FilterConditionKinds(filter);
    RenderedPlaceholders(kinds);
    if |kinds| > 0 {
      PlaceholdersPrefix(" WHERE ", JoinStrings(RenderConditions(kinds), " AND "));
    }
  }

  /** The page clause numbers its placeholders `pos`, `pos+1`, ... */
  lemma PagePlaceholders(filter: Option<TransactionFilter>, pos: nat)
    ensures Placeholders(PageClause(filter, pos)) == Numbered(pos, |PageArgs(filter)|)
  {
    var limit := LimitClause(filter, pos);
    var offsetPos := pos + |LimitArgs(filter)|;
    var offset := OffsetClause(filter, offsetPos);
    if limit == "" {
      PlaceholdersNone(limit);
    } else {
      PlaceholderOne(" LIMIT ", pos, "");
    }
    if offset == "" {
      PlaceholdersNone(offset);
    } else {
      PlaceholderOne(" OFFSET ", offsetPos, "");
      assert offset[0] == ' ';
    }
    PlaceholdersAppend(limit, offset);
  }

  lemma Regroup3<T>(a: seq<T>, b: seq<T>, c: seq<T>)
    ensures a + b + c == a + (b + c)
  {
  }

  lemma Regroup(a: string, b: string, c: string, d: string)
    ensures a + b + c + d == a + (b + (c + d))
  {
  }

  /** The placeholders of a query assembled from dollar-free fixed texts, the WHERE
      clause and the page clause numbered after the filter's arguments are exactly
      `$1` ... `$n` for the `n` filter and page arguments. */
  lemma AssembledPlaceholders(head: string, order: string, filter: Option<TransactionFilter>)
    requires '$' !in head && '$' !in order
    requires order != [] && !IsDigit(order[0])
    ensures
      var k := |FilterArgs(filter)|;
      Placeholders(head + WhereClause(filter) + order + PageClause(filter, k + 1))
      == Iota(k + |PageArgs(filter)|)
  {
    var k := |FilterArgs(filter)|;
    WherePlaceholders(filter);
    PagePlaceholders(filter, k + 1);
    ConcatPlaceholders(head, WhereClause(filter), order, PageClause(filter, k + 1), k, |PageArgs(filter)|);
  }

  /** Four texts in a row: fixed, numbered `$1` ... `$k`, fixed, numbered from `k + 1`. */
  lemma ConcatPlaceholders(head: string, where: string, order: string, page: string, k: nat, m: nat)
    requires '$' !in head && '$' !in order
    requires order != [] && !IsDigit(order[0])
    requires Placeholders(where) == Iota(k) && (where == [] || !IsDigit(where[0]))
    requires Placeholders(page) == Numbered(k + 1, m)
    ensures Placeholders(head + where + order + page) == Iota(k + m)
  {
    Regroup(head, where, order, page);
    PlaceholdersPrefix(head, where + (order + page));
    assert (order + page)[0] == order[0];
    PlaceholdersAppend(where, order + page);
    PlaceholdersPrefix(order, page);
    NumberedConcat(1, k, m);
  }

  /** The `FindAll` query text for a filter. */
  function FindAllQuery(filter: Option<TransactionFilter>): string {
    FindAllSelect + WhereClause(filter) + OrderByDates + PageClause(filter, |FilterArgs(filter)| + 1)
  }

  /** The `Count` query text for a filter: no ORDER BY, LIMIT or OFFSET. */
  function CountQuery(filter: Option<TransactionFilter>): string {
    CountSelect + WhereClause(filter)
  }

  /** The placeholders of the `FindAll` query are exactly `$1` ... `$n` for its `n` arguments. */
  lemma FindAllPlaceholders(filter: Option<TransactionFilter>)
    ensures Placeholders(FindAllQuery(filter)) == Iota(|FilterArgs(filter) + PageArgs(filter)|)
  {
    FindAllSelectDollarFree();
    OrderByDollarFree();
    AssembledPlaceholders(FindAllSelect, OrderByDates, filter);
  }

  /** The placeholders of the `Count` query are exactly `$1` ... `$n` for its `n` arguments. */
  lemma CountPlaceholders(filter: Option<TransactionFilter>)
    ensures Placeholders(CountQuery(filter)) == Iota(|FilterArgs(filter)|)
  {
    WherePlaceholders(filter);
    CountSelectDollarFree();
    PlaceholdersPrefix(CountSelect, WhereClause(filter));
  }

  /** `RenderConditions` grows by one text per added condition. */
  lemma RenderSnoc(kinds: seq<Condition>, c: Condition)
    ensures RenderConditions(kinds + [c]) == RenderConditions(kinds) + [ConditionText(c, |kinds| + 1)]
  {
    assert (kinds + [c])[..|kinds|] == kinds;
  }

  /** One `if filter.X != nil` block: append the condition numbered `argPos` and
      its argument, then advance `argPos`. `kinds` are the conditions so far. */
  method AddCondition(c: Condition, arg: QueryArg, conditions0: seq<string>, args0: seq<QueryArg>, argPos0: nat, ghost kinds: seq<Condition>)
    returns (conditions: seq<string>, args: seq<QueryArg>, argPos: nat)
    requires conditions0 == RenderConditions(kinds) && argPos0 == |kinds| + 1
    ensures conditions == RenderConditions(kinds + [c])
    ensures args == args0 + [arg] && argPos == argPos0 + 1
  {
    RenderSnoc(kinds, c);
    conditions := conditions0 + [ConditionText(c, argPos0)];
    args := args0 + [arg];
    argPos := argPos0 + 1;
  }

  /** The condition-collecting half shared by `FindAll` and `Count`: each set filter
      field appends its condition, numbered with `argPos`, and its argument, and
      advances `argPos`. (`Count` does not advance it after the description; no
      later text uses it there.) */
  method BuildConditions(filter: Option<TransactionFilter>) returns (conditions: seq<string>, args: seq<QueryArg>, argPos: nat)
    ensures conditions == RenderConditions(FilterConditionKinds(filter))
    ensures args == FilterArgs(filter)
    ensures argPos == |args| + 1
  {
    conditions, args, argPos := [], [], 1;
    if filter.Some? {
      var f := filter.value;
      ghost var kinds: seq<Condition> := [];
      if f.accountGuid.Some? {
        conditions, args, argPos := AddCondition(OnAccount, StrArg(f.accountGuid.value), conditions, args, argPos, kinds);
        kinds := kinds + [OnAccount];
      }
      assert kinds == KindIf(f, OnAccount) && args == ArgIf(f, OnAccount);
      if f.startDate.Some? {
        conditions, args, argPos := AddCondition(FromDate, TimeArg(f.startDate.value), conditions, args, argPos, kinds);
        kinds := kinds + [FromDate];
      }
      assert kinds == KindIf(f, OnAccount) + KindIf(f, FromDate);
      assert args == ArgIf(f, OnAccount) + ArgIf(f, FromDate);
      if f.endDate.Some? {
        conditions, args, argPos := AddCondition(ToDate, TimeArg(f.endDate.value), conditions, args, argPos, kinds);
        kinds := kinds + [ToDate];
      }
      assert kinds == KindIf(f, OnAccount) + KindIf(f, FromDate) + KindIf(f, ToDate);
      assert args == ArgIf(f, OnAccount) + ArgIf(f, FromDate) + ArgIf(f, ToDate);
      if f.description.Some? {
        conditions, args, argPos := AddCondition(DescriptionLike, StrArg(ContainsPattern(f.description.value)), conditions, args, argPos, kinds);
        kinds := kinds + [DescriptionLike];
      }
      assert kinds == FilterConditionKinds(filter);
      assert args == FilterArgs(filter);
    }
  }

  /** The query text and arguments `FindAll` sends: every placeholder `$1` ... `$n`
      occurs once, in order, for the `n` arguments. */
  method BuildFindAllQuery(filter: Option<TransactionFilter>) returns (query: string, args: seq<QueryArg>)
    ensures query == FindAllQuery(filter)
    ensures args == FilterArgs(filter) + PageArgs(filter)
    ensures Placeholders(query) == Iota(|args|)
  {
    var argPos;
    query, args, argPos := AppendWhere(filter, FindAllSelect);
    query := query + OrderByDates;
    query, args := AppendPage(filter, query, args, argPos);
    FindAllPlaceholders(filter);
  }

  /** The conditions of `FindAll` and `Count`, joined with ` AND ` behind ` WHERE `
      when there is at least one. */
  method AppendWhere(filter: Option<TransactionFilter>, query0: string)
    returns (query: string, args: seq<QueryArg>, argPos: nat)
    ensures query == query0 + WhereClause(filter)
    ensures args == FilterArgs(filter) && argPos == |args| + 1
  {
    query := query0;
    var conditions;
    conditions, args, argPos := BuildConditions(filter);
    if |conditions| > 0 {
      query := query + " WHERE " + JoinStrings(conditions, " AND ");
    }
    Regroup3(query0, " WHERE ", JoinStrings(conditions, " AND "));
  }

  /** The LIMIT/OFFSET tail of `FindAll`: each clause only when its value is
      positive, numbered from `argPos` on. */
  method AppendPage(filter: Option<TransactionFilter>, query0: string, args0: seq<QueryArg>, argPos0: nat)
    returns (query: string, args: seq<QueryArg>)
    ensures query == query0 + PageClause(filter, argPos0)
    ensures args == args0 + PageArgs(filter)
  {
    query, args := query0, args0;
    var argPos := argPos0;
    if filter.Some? {
      if filter.value.limit > 0 {
        query := query + (" LIMIT " + "$" + NatToString(argPos));
        args := args + [IntArg(filter.value.limit)];
        argPos := argPos + 1;
      }
      assert query == query0 + LimitClause(filter, argPos0);
      assert args == args0 + LimitArgs(filter);
      assert argPos == argPos0 + |LimitArgs(filter)|;
      if filter.value.offset > 0 {
        query := query + (" OFFSET " + "$" + NatToString(argPos));
        args := args + [IntArg(filter.value.offset)];
      }
      assert query == query0 + LimitClause(filter, argPos0) + OffsetClause(filter, argPos);
      assert args == args0 + LimitArgs(filter) + OffsetArgs(filter);
    }
    Regroup3(query0, LimitClause(filter, argPos0), OffsetClause(filter, argPos));
    Regroup3(args0, LimitArgs(filter), OffsetArgs(filter));
  }

  /** The query text and arguments `Count` sends: the same conditions and
      arguments as `FindAll`, with no ORDER BY, LIMIT or OFFSET. */
  method BuildCountQuery(filter: Option<TransactionFilter>) returns (query: string, args: seq<QueryArg>)
    ensures query == CountQuery(filter)
    ensures args == FilterArgs(filter)
    ensures Placeholders(query) == Iota(|args|)
  {
    var argPos;
    query, args, argPos := AppendWhere(filter, CountSelect);
    CountPlaceholders(filter);
  }

  /** Position of a condition in the order the builder tries them. */
  function Rank(c: Condition): nat {
    match c
    case OnAccount => 0
    case FromDate => 1
    case ToDate => 2
    case DescriptionLike => 3
  }

  /** The k-th argument is the argument of the k-th condition, which is switched on. */
  ghost predicate Paired(f: TransactionFilter, kinds: seq<Condition>, args: seq<QueryArg>) {
    |kinds| == |args|
    && forall k :: 0 <= k < |kinds| ==> Switched(f, kinds[k]) && args[k] == ConditionArg(f, kinds[k])
  }

  /** The ranks of `kinds` increase strictly and lie in `[lo, hi)`. */
  ghost predicate RanksWithin(kinds: seq<Condition>, lo: nat, hi: nat) {
    (forall k :: 0 <= k < |kinds| ==> lo <= Rank(kinds[k]) < hi)
    && forall i, j :: 0 <= i < j < |kinds| ==> Rank(kinds[i]) < Rank(kinds[j])
  }

  lemma PairedConcat(f: TransactionFilter, k1: seq<Condition>, a1: seq<QueryArg>, k2: seq<Condition>, a2: seq<QueryArg>)
    requires Paired(f, k1, a1) && Paired(f, k2, a2)
    ensures Paired(f, k1 + k2, a1 + a2)
  {
    forall k | 0 <= k < |k1 + k2|
      ensures Switched(f, (k1 + k2)[k]) && (a1 + a2)[k] == ConditionArg(f, (k1 + k2)[k])
    {
      if k >= |k1| {
        assert (k1 + k2)[k] == k2[k - |k1|] && (a1 + a2)[k] == a2[k - |k1|];
      }
    }
  }

  lemma RanksConcat(k1: seq<Condition>, k2: seq<Condition>, lo: nat, mid: nat, hi: nat)
    requires lo <= mid <= hi
    requires RanksWithin(k1, lo, mid) && RanksWithin(k2, mid, hi)
    ensures RanksWithin(k1 + k2, lo, hi)
  {
    forall k | 0 <= k < |k1 + k2| ensures lo <= Rank((k1 + k2)[k]) < hi {
      if k >= |k1| {
        assert (k1 + k2)[k] == k2[k - |k1|];
      } else {
        assert (k1 + k2)[k] == k1[k];
      }
    }
    forall i, j | 0 <= i < j < |k1 + k2| ensures Rank((k1 + k2)[i]) < Rank((k1 + k2)[j]) {
      if i >= |k1| {
        assert (k1 + k2)[i] == k2[i - |k1|];
      }
      if j >= |k1| {
        assert (k1 + k2)[j] == k2[j - |k1|];
      }
    }
  }

  /** A filter emits exactly the conditions it switches on. */
  lemma ConditionsSwitched(filter: Option<TransactionFilter>)
    ensures forall c :: c in FilterConditionKinds(filter) <==> filter.Some? && Switched(filter.value, c)
  {
    if filter.Some? {
      var f := filter.value;
      var a, b, c, d := KindIf(f, OnAccount), KindIf(f, FromDate), KindIf(f, ToDate), KindIf(f, DescriptionLike);
      assert FilterConditionKinds(filter) == a + b + c + d;
      forall x ensures x in a + b + c + d <==> Switched(f, x) {
        assert x in a + b + c + d <==> x in a || x in b || x in c || x in d;
      }
    }
  }

  /** The conditions come in the order account, start date, end date, description. */
  lemma ConditionsRanked(filter: Option<TransactionFilter>)
    ensures RanksWithin(FilterConditionKinds(filter), 0, 4)
  {
    if filter.Some? {
      var f := filter.value;
      var a, b, c, d := KindIf(f, OnAccount), KindIf(f, FromDate), KindIf(f, ToDate), KindIf(f, DescriptionLike);
      assert FilterConditionKinds(filter) == a + b + c + d;
      RanksConcat(a, b, 0, 1, 2);
      RanksConcat(a + b, c, 0, 2, 3);
      RanksConcat(a + b + c, d, 0, 3, 4);
    }
  }

  /** The k-th argument belongs to the k-th condition. */
  lemma ConditionsPaired(filter: Option<TransactionFilter>)
    requires filter.Some?
    ensures Paired(filter.value, FilterConditionKinds(filter), FilterArgs(filter))
  {
    var f := filter.value;
    var a, b, c, d := KindIf(f, OnAccount), KindIf(f, FromDate), KindIf(f, ToDate), KindIf(f, DescriptionLike);
    var a', b', c', d' := ArgIf(f, OnAccount), ArgIf(f, FromDate), ArgIf(f, ToDate), ArgIf(f, DescriptionLike);
    assert FilterConditionKinds(filter) == a + b + c + d;
    assert FilterArgs(filter) == a' + b' + c' + d';
    PairedConcat(f, a, a', b, b');
    PairedConcat(f, a + b, a' + b', c, c');
    PairedConcat(f, a + b + c, a' + b' + c', d, d');
  }

  // ---------------------------------------------------------------------------
  // What the query selects
  // ---------------------------------------------------------------------------

  /** The EXISTS subquery: some split of transaction `txGuid` is on `accountGuid`. */
  predicate HasSplitOn(splits: seq<SplitRow>, txGuid: string, accountGuid: string) {
    exists s :: s in splits && s.txGuid == txGuid && s.accountGuid == accountGuid
  }

  /** PostgreSQL's LIKE on a whole string: `%` matches any run of characters, `_`
      any one character, and `\` (the default escape) makes the next character
      literal; every other character matches itself. A pattern ending in a lone
      escape matches nothing (PostgreSQL rejects it; `%d%` never ends in one). */
  predicate LikeMatch(pattern: string, s: string)
    decreases |pattern| + |s|
  {
    if pattern == [] then s == []
    else if pattern[0] == '%' then LikeMatch(pattern[1..], s) || (s != [] && LikeMatch(pattern, s[1..]))
    else if pattern[0] == '\\' then |pattern| >= 2 && s != [] && s[0] == pattern[1] && LikeMatch(pattern[2..], s[1..])
    else if pattern[0] == '_' then s != [] && LikeMatch(pattern[1..], s[1..])
    else s != [] && s[0] == pattern[0] && LikeMatch(pattern[1..], s[1..])
  }

  /** ILIKE: LIKE after folding both sides to lower case. */
  predicate ILike(s: string, pattern: string) {
    LikeMatch(Lower(pattern), Lower(s))
  }

  /** The three characters LIKE gives a meaning to. */
  predicate LikeLiteral(d: string) {
    '%' !in d && '_' !in d && '\\' !in d
  }

  /** What condition `c` of `f` demands of a stored transaction (nothing when `f`
      does not switch it on). Both date bounds are inclusive; the description must
      match the bound pattern `%d%` under ILIKE, and a NULL description fails it. */
  predicate Holds(splits: seq<SplitRow>, f: TransactionFilter, c: Condition, t: TransactionRow) {
    match c
    case OnAccount => f.accountGuid.Some? ==> HasSplitOn(splits, t.guid, f.accountGuid.value)
    case FromDate => f.startDate.Some? ==> NotAfter(f.startDate.value, t.postDate)
    case ToDate => f.endDate.Some? ==> NotAfter(t.postDate, f.endDate.value)
    case DescriptionLike =>
      f.description.Some? ==>
        t.description.Some? && ILike(t.description.value, ContainsPattern(f.description.value))
  }

  /** The WHERE clause holds: every condition the builder emits holds for `t`. */
  predicate Matches(splits: seq<SplitRow>, filter: Option<TransactionFilter>, t: TransactionRow) {
    filter.None? || forall c | c in FilterConditionKinds(filter) :: Holds(splits, filter.value, c, t)
  }

  /** The filter's meaning field by field: no filter keeps every transaction; a
      set account needs a split on it, the dates bound `post_date` inclusively on
      both sides, and the description must match `%d%` under ILIKE. */
  lemma MatchesFields(splits: seq<SplitRow>, filter: Option<TransactionFilter>, t: TransactionRow)
    ensures filter.None? ==> Matches(splits, filter, t)
    ensures filter.Some? ==>
      var f := filter.value;
      (Matches(splits, filter, t) <==>
        (f.accountGuid.Some? ==> HasSplitOn(splits, t.guid, f.accountGuid.value))
        && (f.startDate.Some? ==> NotAfter(f.startDate.value, t.postDate))
        && (f.endDate.Some? ==> NotAfter(t.postDate, f.endDate.value))
        && (f.description.Some? ==>
              t.description.Some? && ILike(t.description.value, ContainsPattern(f.description.value))))
  {
    if filter.Some? {
      ConditionsSwitched(filter);
      var f := filter.value;
      assert Matches(splits, filter, t) <==> forall c :: Holds(splits, f, c, t) by {
        forall c ensures c !in FilterConditionKinds(filter) ==> Holds(splits, f, c, t) {
        }
      }
      assert (forall c :: Holds(splits, f, c, t)) <==>
        Holds(splits, f, OnAccount, t) && Holds(splits, f, FromDate, t)
        && Holds(splits, f, ToDate, t) && Holds(splits, f, DescriptionLike, t);
    }
  }

  /** `%` matches every string. */
  lemma {:induction false} LikeAnyAll(s: string)
    ensures LikeMatch("%", s)
  {
    if s != [] { LikeAnyAll(s[1..]); }
  }

  /** A literal text followed by `%` matches exactly the strings it begins. */
  lemma {:induction false} LikeLiteralPrefix(d: string, s: string)
    requires LikeLiteral(d)
    ensures LikeMatch(d + "%", s) <==> |d| <= |s| && s[..|d|] == d
  {
    if d == [] {
      assert d + "%" == "%";
      LikeAnyAll(s);
    } else {
      assert (d + "%")[1..] == d[1..] + "%";
      if s != [] {
        LikeLiteralPrefix(d[1..], s[1..]);
        if |d| <= |s| {
          assert s[..|d|] == [s[0]] + s[1..][..|d| - 1];
          assert d == [d[0]] + d[1..];
        }
      }
    }
  }

  /** For a search text without LIKE metacharacters, `%d%` matches exactly the
      strings that contain `d`. */
  lemma {:induction false} ContainsPatternIsSubstring(d: string, s: string)
    requires LikeLiteral(d)
    ensures LikeMatch(ContainsPattern(d), s) <==> IsSubstring(d, s)
  {
    assert ContainsPattern(d)[1..] == d + "%";
    LikeLiteralPrefix(d, s);
    if s != [] { ContainsPatternIsSubstring(d, s[1..]); }
  }

  /** Folding case keeps the three metacharacters apart from the letters. */
  lemma LowerLiteral(d: string)
    requires LikeLiteral(d)
    ensures LikeLiteral(Lower(d))
    ensures Lower(ContainsPattern(d)) == ContainsPattern(Lower(d))
  {
    assert ContainsPattern(d) == "%" + d + "%";
  }

  /** The description condition for a plain search text is a case-insensitive
      substring test. */
  lemma DescriptionSubstring(d: string, description: string)
    requires LikeLiteral(d)
    ensures ILike(description, ContainsPattern(d)) <==> IsSubstring(Lower(d), Lower(description))
  {
    LowerLiteral(d);
    ContainsPatternIsSubstring(Lower(d), Lower(description));
  }

  /** A text holding a character the string lacks does not occur in it. */
  lemma {:induction false} AbsentCharNotSubstring(needle: string, hay: string, c: char)
    requires c in needle && c !in hay
    ensures !IsSubstring(needle, hay)
  {
    if hay != [] { AbsentCharNotSubstring(needle, hay[1..], c); }
  }

  /** The search text is a pattern, not a literal: "a_c" finds "ABC" although
      "a_c" does not occur in it. */
  lemma UnderscoreMatchesAnyChar()
    ensures ILike("ABC", ContainsPattern("a_c")) && !IsSubstring("a_c", "abc")
  {
    assert Lower("ABC") == "abc";
    assert Lower(ContainsPattern("a_c")) == "%a_c%";
    LikeAnyAll("");
    assert LikeMatch("_c%", "bc");
    assert LikeMatch("a_c%", "abc");
    AbsentCharNotSubstring("a_c", "abc", '_');
  }

  /** Likewise "50%" finds "50 dollars". */
  lemma PercentMatchesAnyRun()
    ensures ILike("50 dollars", ContainsPattern("50%")) && !IsSubstring("50%", "50 dollars")
  {
    var text := "50 dollars";
    assert Lower(text) == text;
    assert Lower(ContainsPattern("50%")) == "%50%%";
    LikeAnyAll(text[2..]);
    assert LikeMatch("%%", text[2..]);
    assert LikeMatch("50%%", text);
    AbsentCharNotSubstring("50%", text, '%');
  }

  /** The stored transactions the WHERE clause keeps, in table order. */
  function Selected(splits: seq<SplitRow>, filter: Option<TransactionFilter>, rows: seq<TransactionRow>): (r: seq<TransactionRow>)
    ensures forall t :: t in r <==> t in rows && Matches(splits, filter, t)
    ensures |r| <= |rows|
  {
    if rows == [] then []
    else
      var rest := Selected(splits, filter, rows[..|rows| - 1]);
      assert rows == rows[..|rows| - 1] + [rows[|rows| - 1]];
      if Matches(splits, filter, rows[|rows| - 1]) then rest + [rows[|rows| - 1]] else rest
  }

  /** Without a filter every stored transaction is selected. */
  lemma {:induction false} SelectedAll(splits: seq<SplitRow>, rows: seq<TransactionRow>)
    ensures Selected(splits, None, rows) == rows
  {
    if rows != [] {
      SelectedAll(splits, rows[..|rows| - 1]);
      assert rows == rows[..|rows| - 1] + [rows[|rows| - 1]];
    }
  }

  /** `ORDER BY t.post_date DESC, t.enter_date DESC`: `a` may come before `b`. */
  predicate ComesFirst(a: TransactionRow, b: TransactionRow) {
    Before(b.postDate, a.postDate) || (a.postDate == b.postDate && NotAfter(b.enterDate, a.enterDate))
  }

  /** The ORDER BY comparison is a total preorder, so the sort is well defined. */
  lemma ComesFirstTotal()
    ensures TotalPreorder(ComesFirst)
  {
    forall a: Time, b: Time ensures Before(a, b) || a == b || Before(b, a) {
      BeforeTrichotomy(a, b);
    }
    forall a: Time, b: Time, c: Time | Before(a, b) && Before(b, c) ensures Before(a, c) {
      BeforeTransitive(a, b, c);
    }
  }

  /** OFFSET then LIMIT, each applied only when positive: skip the first `offset`
      rows (all of them if there are fewer), then keep at most `limit`. */
  function Page<T>(rows: seq<T>, filter: Option<TransactionFilter>): (r: seq<T>)
    ensures var skip := Skipped(|rows|, filter);
      skip + |r| <= |rows| && r == rows[skip..skip + |r|]
      && |r| == (if filter.Some? && filter.value.limit > 0 then Min(filter.value.limit, |rows| - skip) else |rows| - skip)
  {
    var skip := Skipped(|rows|, filter);
    var rest := rows[skip..];
    if filter.Some? && filter.value.limit > 0 && filter.value.limit < |rest| then rest[..filter.value.limit] else rest
  }

  /** How many rows OFFSET skips. */
  function Skipped(count: nat, filter: Option<TransactionFilter>): (skip: nat)
    ensures skip <= count
    ensures filter.None? || filter.value.offset <= 0 ==> skip == 0
  {
    if filter.Some? && filter.value.offset > 0 then Min(filter.value.offset, count) else 0
  }

  function Min(a: int, b: int): int {
    if a <= b then a else b
  }

  /** The rows the FindAll query returns: selected, ordered, then paged. */
  function QueryRows(db: Database, filter: Option<TransactionFilter>): seq<TransactionRow> {
    Page(SortBy(Selected(db.splits, filter, db.transactions), ComesFirst), filter)
  }

  /** A page keeps only rows of its input. */
  lemma PageMembers<T>(rows: seq<T>, filter: Option<TransactionFilter>)
    ensures forall x :: x in Page(rows, filter) ==> x in rows
  {
    var skip := Skipped(|rows|, filter);
    forall x | x in Page(rows, filter) ensures x in rows {
      var i :| 0 <= i < |Page(rows, filter)| && Page(rows, filter)[i] == x;
      assert rows[skip + i] == x;
    }
  }

  /** A page of ordered rows is ordered: it is a run of consecutive rows. */
  lemma PageSorted<T>(rows: seq<T>, filter: Option<TransactionFilter>, first: (T, T) -> bool)
    requires SortedBy(rows, first)
    ensures SortedBy(Page(rows, filter), first)
  {
    var r := Page(rows, filter);
    var skip := Skipped(|rows|, filter);
    forall i, j | 0 <= i < j < |r| ensures first(r[i], r[j]) {
      assert r[i] == rows[skip + i] && r[j] == rows[skip + j];
    }
  }

  /** Every returned row is stored and matches the filter, the rows are in ORDER BY
      order, and there are no more than a positive limit. */
  lemma QueryRowsMeaning(db: Database, filter: Option<TransactionFilter>)
    ensures forall t :: t in QueryRows(db, filter) ==> t in db.transactions && Matches(db.splits, filter, t)
    ensures SortedBy(QueryRows(db, filter), ComesFirst)
    ensures filter.Some? && filter.value.limit > 0 ==> |QueryRows(db, filter)| <= filter.value.limit
    ensures |QueryRows(db, filter)| <= |Selected(db.splits, filter, db.transactions)|
  {
    var selected := Selected(db.splits, filter, db.transactions);
    var sorted := SortBy(selected, ComesFirst);
    PageMembers(sorted, filter);
    forall t | t in sorted ensures t in selected {
      SortByMembers(selected, ComesFirst, t);
    }
    ComesFirstTotal();
    SortBySorted(selected, ComesFirst);
    PageSorted(sorted, filter, ComesFirst);
  }

  /** With neither a positive limit nor a positive offset the query returns every
      selected row. */
  lemma QueryRowsUnpaged(db: Database, filter: Option<TransactionFilter>)
    requires filter.None? || (filter.value.limit <= 0 && filter.value.offset <= 0)
    ensures multiset(QueryRows(db, filter)) == multiset(Selected(db.splits, filter, db.transactions))
    ensures forall t :: t in QueryRows(db, filter) <==> t in db.transactions && Matches(db.splits, filter, t)
  {
    var sorted := SortBy(Selected(db.splits, filter, db.transactions), ComesFirst);
    assert QueryRows(db, filter) == sorted[0..|sorted|];
    assert sorted[0..|sorted|] == sorted;
    forall t ensures t in sorted <==> t in Selected(db.splits, filter, db.transactions) {
      SortByMembers(Selected(db.splits, filter, db.transactions), ComesFirst, t);
    }
  }

  // ---------------------------------------------------------------------------
  // Loading transactions and their splits
  // ---------------------------------------------------------------------------

  const ScanSplitError: string := "failed to scan split"
  const QueryTransactionsError: string := "failed to query transactions"
  const FindTransactionError: string := "failed to find transaction"
  const CountTransactionsError: string := "failed to count transactions"
  const ScanTransactionError: string := "failed to scan transaction"
  const QuerySplitsError: string := "failed to query splits"

  /** The stored splits of transaction `txGuid`, in table order. */
  function SplitsOf(splits: seq<SplitRow>, txGuid: string): (r: seq<SplitRow>)
    ensures forall s :: s in r <==> s in splits && s.txGuid == txGuid
  {
    if splits == [] then []
    else
      var rest := SplitsOf(splits[..|splits| - 1], txGuid);
      assert splits == splits[..|splits| - 1] + [splits[|splits| - 1]];
      if splits[|splits| - 1].txGuid == txGuid then rest + [splits[|splits| - 1]] else rest
  }

  /** `ORDER BY s.value_num DESC`: `a` may come before `b`. */
  predicate LargerValue(a: SplitRow, b: SplitRow) {
    a.valueNum >= b.valueNum
  }

  /** The rows the split query returns, largest value first. */
  function SplitQueryRows(splits: seq<SplitRow>, txGuid: string): seq<SplitRow> {
    SortBy(SplitsOf(splits, txGuid), LargerValue)
  }

  /** `LEFT JOIN accounts a ON s.account_guid = a.guid`: the account with that
      GUID (the primary key), or none. */
  function JoinedAccount(accounts: seq<Account>, guid: string): (r: Option<Account>)
    ensures r.Some? ==> r.value in accounts && r.value.guid == guid
    ensures r.None? <==> forall a :: a in accounts ==> a.guid != guid
  {
    if accounts == [] then None
    else if accounts[0].guid == guid then Some(accounts[0])
    else JoinedAccount(accounts[1..], guid)
  }

  /** Scanning one joined split row. With no joined account the name and type
      are NULL, which cannot be scanned into a string. */
  function ScanSplit(accounts: seq<Account>, row: SplitRow): Result<Split> {
    match JoinedAccount(accounts, row.accountGuid)
    case None => Err(ScanSplitError)
    case Some(a) =>
      Ok(Split(row.guid, row.txGuid, row.accountGuid, row.memo, row.action, row.reconcileState,
               row.valueNum, row.valueDenom, row.quantityNum, row.quantityDenom,
               SplitAccount(row.accountGuid, a.name, a.accountType)))
  }

  /** The stored row a loaded split came from. */
  function RowOfSplit(s: Split): SplitRow {
    SplitRow(s.guid, s.txGuid, s.accountGuid, s.memo, s.action, s.reconcileState,
             s.valueNum, s.valueDenom, s.quantityNum, s.quantityDenom)
  }

  /** A scan succeeds exactly when the account is found; the split then carries
      the row's fields unchanged, and its account is the one it names. */
  lemma ScanSplitMeaning(accounts: seq<Account>, row: SplitRow)
    ensures ScanSplit(accounts, row).Ok? <==> exists a :: a in accounts && a.guid == row.accountGuid
    ensures ScanSplit(accounts, row).Err? ==> ScanSplit(accounts, row).message == ScanSplitError
    ensures ScanSplit(accounts, row).Ok? ==>
      var s := ScanSplit(accounts, row).value;
      RowOfSplit(s) == row && s.account.guid == s.accountGuid
      && s.account.name == JoinedAccount(accounts, row.accountGuid).value.name
      && s.account.accountType == JoinedAccount(accounts, row.accountGuid).value.accountType
  {
  }

  /** The rows scanned in order; the first failing row fails the whole load. */
  function ScanSplits(accounts: seq<Account>, rows: seq<SplitRow>): (r: Result<seq<Split>>)
    ensures r.Ok? <==> forall k :: 0 <= k < |rows| ==> ScanSplit(accounts, rows[k]).Ok?
    ensures r.Err? ==> r.message == ScanSplitError
    ensures r.Ok? ==> |r.value| == |rows|
    ensures r.Ok? ==> forall k :: 0 <= k < |rows| ==> ScanSplit(accounts, rows[k]) == Ok(r.value[k])
  {
    CollectOk(rows, row => ScanSplit(accounts, row))
  }

  /** One more scanned row extends the scanned prefix. */
  lemma ScanSplitsStep(accounts: seq<Account>, rows: seq<SplitRow>, i: nat, prefix: seq<Split>, split: Split)
    requires i < |rows|
    requires ScanSplits(accounts, rows[..i]) == Ok(prefix)
    requires ScanSplit(accounts, rows[i]) == Ok(split)
    ensures ScanSplits(accounts, rows[..i + 1]) == Ok(prefix + [split])
  {
    assert rows[..i + 1][..i] == rows[..i];
    assert rows[..i + 1][i] == rows[i];
  }

  /** What `loadSplitsForTransaction` returns: "failed to query splits" when the
      database rejects the query, otherwise the scan of its rows. */
  function LoadSplits(db: Database, txGuid: string): (r: Result<seq<Split>>)
    ensures txGuid in db.faults.splitQueryFails ==> r == Err(QuerySplitsError)
    ensures txGuid !in db.faults.splitQueryFails ==> r == ScanSplits(db.accounts, SplitQueryRows(db.splits, txGuid))
  {
    if txGuid in db.faults.splitQueryFails then Err(QuerySplitsError)
    else ScanSplits(db.accounts, SplitQueryRows(db.splits, txGuid))
  }

  /** `loadSplitsForTransaction`: query the transaction's splits, largest value
      first, and scan them one by one. */
  method LoadSplitsForTransaction(db: Database, txGuid: string) returns (r: Result<seq<Split>>)
    ensures txGuid in db.faults.splitQueryFails ==> r == Err(QuerySplitsError)
    ensures txGuid !in db.faults.splitQueryFails ==> r == ScanSplits(db.accounts, SplitQueryRows(db.splits, txGuid))
  {
    if txGuid in db.faults.splitQueryFails {
      return Err(QuerySplitsError);
    }
    var rows := SplitQueryRows(db.splits, txGuid);
    var splits: seq<Split> := [];
    var i := 0;
    while i < |rows|
      invariant 0 <= i <= |rows|
      invariant ScanSplits(db.accounts, rows[..i]) == Ok(splits)
    {
      var split := ScanSplit(db.accounts, rows[i]);
      if split.Err? {
        assert !ScanSplit(db.accounts, rows[i]).Ok?;
        return Err(split.message);
      }
      ScanSplitsStep(db.accounts, rows, i, splits, split.value);
      splits := splits + [split.value];
      i := i + 1;
    }
    assert rows[..i] == rows;
    r := Ok(splits);
  }

  /** Each loaded split is its row, scanned: same fields, linked to the account it names. */
  lemma {:induction false} ScannedRows(accounts: seq<Account>, rows: seq<SplitRow>)
    requires ScanSplits(accounts, rows).Ok?
    ensures var splits := ScanSplits(accounts, rows).value;
      forall k :: 0 <= k < |rows| ==> RowOfSplit(splits[k]) == rows[k] && splits[k].account.guid == splits[k].accountGuid
  {
    var splits := ScanSplits(accounts, rows).value;
    forall k | 0 <= k < |rows| ensures RowOfSplit(splits[k]) == rows[k] && splits[k].account.guid == splits[k].accountGuid {
      ScanSplitMeaning(accounts, rows[k]);
    }
  }

  /** Every loaded split belongs to the transaction and is linked to the account it names. */
  lemma LoadedSplitsLinked(db: Database, txGuid: string)
    requires ScanSplits(db.accounts, SplitQueryRows(db.splits, txGuid)).Ok?
    ensures forall s :: s in ScanSplits(db.accounts, SplitQueryRows(db.splits, txGuid)).value ==>
      s.txGuid == txGuid && s.account.guid == s.accountGuid
  {
    var rows := SplitQueryRows(db.splits, txGuid);
    var splits := ScanSplits(db.accounts, rows).value;
    ScannedRows(db.accounts, rows);
    forall s | s in splits ensures s.txGuid == txGuid && s.account.guid == s.accountGuid {
      var k :| 0 <= k < |splits| && splits[k] == s;
      SortByMembers(SplitsOf(db.splits, txGuid), LargerValue, rows[k]);
    }
  }

  /** The loaded splits come largest value first. */
  lemma LoadedSplitsOrdered(db: Database, txGuid: string)
    requires ScanSplits(db.accounts, SplitQueryRows(db.splits, txGuid)).Ok?
    ensures var splits := ScanSplits(db.accounts, SplitQueryRows(db.splits, txGuid)).value;
      forall i, j :: 0 <= i < j < |splits| ==> splits[i].valueNum >= splits[j].valueNum
  {
    var rows := SplitQueryRows(db.splits, txGuid);
    SortBySorted(SplitsOf(db.splits, txGuid), LargerValue);
    ScannedRows(db.accounts, rows);
    assert forall i, j :: 0 <= i < j < |rows| ==> LargerValue(rows[i], rows[j]);
  }

  /** Every stored split of the transaction is loaded. */
  lemma LoadedSplitsComplete(db: Database, txGuid: string, row: SplitRow)
    requires ScanSplits(db.accounts, SplitQueryRows(db.splits, txGuid)).Ok?
    requires row in db.splits && row.txGuid == txGuid
    ensures exists s :: s in ScanSplits(db.accounts, SplitQueryRows(db.splits, txGuid)).value && RowOfSplit(s) == row
  {
    var rows := SplitQueryRows(db.splits, txGuid);
    var splits := ScanSplits(db.accounts, rows).value;
    SortByMembers(SplitsOf(db.splits, txGuid), LargerValue, row);
    var k :| 0 <= k < |rows| && rows[k] == row;
    ScannedRows(db.accounts, rows);
    assert splits[k] in splits;
  }

  /** `COALESCE(c.mnemonic, '')` over `LEFT JOIN commodities c ON t.currency_guid =
      c.guid`: the mnemonic of the commodity with that GUID (the primary key), or "". */
  function CurrencyMnemonic(commodities: seq<Commodity>, guid: string): (r: string)
    ensures (forall c :: c in commodities ==> c.guid != guid) ==> r == ""
    ensures (exists c :: c in commodities && c.guid == guid) ==>
      exists c :: c in commodities && c.guid == guid && r == c.mnemonic
  {
    if commodities == [] then ""
    else if commodities[0].guid == guid then commodities[0].mnemonic
    else CurrencyMnemonic(commodities[1..], guid)
  }

  /** One transaction row scanned, with its splits loaded. */
  function LoadTransaction(db: Database, row: TransactionRow): Result<Transaction> {
    if row.guid in db.faults.unscannable then Err(ScanTransactionError)
    else match LoadSplits(db, row.guid)
    case Err(e) => Err(e)
    case Ok(splits) =>
      Ok(Transaction(row.guid, row.currencyGuid, CurrencyMnemonic(db.commodities, row.currencyGuid),
                     row.num, row.postDate, row.enterDate, row.description, splits))
  }

  /** The stored row a loaded transaction came from. */
  function RowOfTransaction(t: Transaction): TransactionRow {
    TransactionRow(t.guid, t.currencyGuid, t.num, t.postDate, t.enterDate, t.description)
  }

  /** The rows loaded in order; the first failing split load fails the whole call. */
  function LoadTransactions(db: Database, rows: seq<TransactionRow>): (r: Result<seq<Transaction>>)
    ensures r.Ok? <==> forall k :: 0 <= k < |rows| ==> LoadTransaction(db, rows[k]).Ok?
    ensures r.Err? ==> r.message in {ScanTransactionError, QuerySplitsError, ScanSplitError}
    ensures r.Ok? ==> |r.value| == |rows|
    ensures r.Ok? ==> forall k :: 0 <= k < |rows| ==> LoadTransaction(db, rows[k]) == Ok(r.value[k])
  {
    CollectOk(rows, row => LoadTransaction(db, row))
  }

  /** A loaded transaction carries its row's fields, the currency's mnemonic and
      its stored splits, largest value first, each linked to its account. */
  lemma LoadTransactionMeaning(db: Database, row: TransactionRow)
    ensures row.guid in db.faults.unscannable ==> LoadTransaction(db, row) == Err(ScanTransactionError)
    ensures row.guid !in db.faults.unscannable && row.guid in db.faults.splitQueryFails ==>
      LoadTransaction(db, row) == Err(QuerySplitsError)
    ensures LoadTransaction(db, row).Ok? <==>
      row.guid !in db.faults.unscannable && row.guid !in db.faults.splitQueryFails
      && ScanSplits(db.accounts, SplitQueryRows(db.splits, row.guid)).Ok?
    ensures LoadTransaction(db, row).Ok? ==>
      var t := LoadTransaction(db, row).value;
      RowOfTransaction(t) == row
      && t.currencyMnemonic == CurrencyMnemonic(db.commodities, row.currencyGuid)
      && (forall s :: s in t.splits ==> s.txGuid == t.guid && s.account.guid == s.accountGuid)
      && (forall i, j :: 0 <= i < j < |t.splits| ==> t.splits[i].valueNum >= t.splits[j].valueNum)
      && (forall r :: r in db.splits && r.txGuid == t.guid ==> exists s :: s in t.splits && RowOfSplit(s) == r)
  {
    if LoadTransaction(db, row).Ok? {
      LoadedSplitsLinked(db, row.guid);
      LoadedSplitsOrdered(db, row.guid);
      forall r | r in db.splits && r.txGuid == row.guid
        ensures exists s :: s in LoadTransaction(db, row).value.splits && RowOfSplit(s) == r
      {
        LoadedSplitsComplete(db, row.guid, r);
      }
    }
  }

  /** One more loaded row extends the loaded prefix. */
  lemma LoadTransactionsStep(db: Database, rows: seq<TransactionRow>, i: nat, prefix: seq<Transaction>, tx: Transaction)
    requires i < |rows|
    requires LoadTransactions(db, rows[..i]) == Ok(prefix)
    requires LoadTransaction(db, rows[i]) == Ok(tx)
    ensures LoadTransactions(db, rows[..i + 1]) == Ok(prefix + [tx])
  {
    assert rows[..i + 1][..i] == rows[..i];
    assert rows[..i + 1][i] == rows[i];
  }

  /** `FindAll`: build the query, run it (`queryFails` stands for the database
      rejecting it), and load each returned row's splits. */
  method FindAll(db: Database, filter: Option<TransactionFilter>, queryFails: bool) returns (r: Result<seq<Transaction>>)
    ensures queryFails ==> r == Err(QueryTransactionsError)
    ensures !queryFails ==> r == LoadTransactions(db, QueryRows(db, filter))
  {
    var query, args := BuildFindAllQuery(filter);
    if queryFails {
      return Err(QueryTransactionsError);
    }
    r := ScanTransactions(db, QueryRows(db, filter));
  }

  /** The `for rows.Next()` loop of `FindAll`: scan each row, load its splits, and
      return the first error. */
  method ScanTransactions(db: Database, rows: seq<TransactionRow>) returns (r: Result<seq<Transaction>>)
    ensures r == LoadTransactions(db, rows)
  {
    var transactions: seq<Transaction> := [];
    var i := 0;
    while i < |rows|
      invariant 0 <= i <= |rows|
      invariant LoadTransactions(db, rows[..i]) == Ok(transactions)
    {
      var row := rows[i];
      if row.guid in db.faults.unscannable {
        CollectOkFirstErr(rows, row => LoadTransaction(db, row), i, ScanTransactionError);
        return Err(ScanTransactionError);
      }
      var splits := LoadSplitsForTransaction(db, row.guid);
      if splits.Err? {
        CollectOkFirstErr(rows, row => LoadTransaction(db, row), i, splits.message);
        return Err(splits.message);
      }
      var tx := Transaction(row.guid, row.currencyGuid, CurrencyMnemonic(db.commodities, row.currencyGuid),
                            row.num, row.postDate, row.enterDate, row.description, splits.value);
      LoadTransactionsStep(db, rows, i, transactions, tx);
      transactions := transactions + [tx];
      i := i + 1;
    }
    assert rows[..i] == rows;
    r := Ok(transactions);
  }

  /** `FindByAccount`: `FindAll` with only the account, limit and offset set. */
  method FindByAccount(db: Database, accountGuid: string, limit: int, offset: int, queryFails: bool)
    returns (r: Result<seq<Transaction>>)
    ensures r == FindAllResult(db, Some(AccountFilter(accountGuid, limit, offset)), queryFails)
  {
    r := FindAll(db, Some(AccountFilter(accountGuid, limit, offset)), queryFails);
  }

  function AccountFilter(accountGuid: string, limit: int, offset: int): TransactionFilter {
    TransactionFilter(Some(accountGuid), None, None, None, None, None, limit, offset)
  }

  /** What `FindAll` returns. */
  function FindAllResult(db: Database, filter: Option<TransactionFilter>, queryFails: bool): Result<seq<Transaction>> {
    if queryFails then Err(QueryTransactionsError) else LoadTransactions(db, QueryRows(db, filter))
  }

  /** The stored row with this GUID (the primary key), if any. */
  function RowWithGuid(rows: seq<TransactionRow>, guid: string): (r: Option<TransactionRow>)
    ensures r.Some? ==> r.value in rows && r.value.guid == guid
    ensures r.None? <==> forall t :: t in rows ==> t.guid != guid
  {
    if rows == [] then None
    else if rows[0].guid == guid then Some(rows[0])
    else RowWithGuid(rows[1..], guid)
  }

  /** `FindByGUID`: the transaction with that GUID, or "failed to find transaction"
      when the query fails, finds no row, or its row does not scan; a failing
      split load is passed on. */
  method FindByGuid(db: Database, guid: string, queryFails: bool) returns (r: Result<Transaction>)
    ensures queryFails || RowWithGuid(db.transactions, guid).None? || guid in db.faults.unscannable ==>
      r == Err(FindTransactionError)
    ensures !queryFails && RowWithGuid(db.transactions, guid).Some? && guid !in db.faults.unscannable ==>
      r == LoadTransaction(db, RowWithGuid(db.transactions, guid).value)
  {
    var found := RowWithGuid(db.transactions, guid);
    if queryFails || found.None? || guid in db.faults.unscannable {
      return Err(FindTransactionError);
    }
    var row := found.value;
    var splits := LoadSplitsForTransaction(db, guid);
    if splits.Err? {
      return Err(splits.message);
    }
    r := Ok(Transaction(row.guid, row.currencyGuid, CurrencyMnemonic(db.commodities, row.currencyGuid),
                        row.num, row.postDate, row.enterDate, row.description, splits.value));
  }

  /** The GUIDs of some transaction rows. */
  function Guids(rows: seq<TransactionRow>): (r: set<string>)
    ensures forall g :: g in r <==> exists t :: t in rows && t.guid == g
  {
    if rows == [] then {}
    else
      assert rows == rows[..|rows| - 1] + [rows[|rows| - 1]];
      Guids(rows[..|rows| - 1]) + {rows[|rows| - 1].guid}
  }

  /** `Count`: `COUNT(DISTINCT t.guid)` over the rows the WHERE clause keeps. */
  method Count(db: Database, filter: Option<TransactionFilter>, queryFails: bool) returns (r: Result<int>)
    ensures queryFails ==> r == Err(CountTransactionsError)
    ensures !queryFails ==> r == Ok(|Guids(Selected(db.splits, filter, db.transactions))|)
  {
    var query, args := BuildCountQuery(filter);
    if queryFails {
      return Err(CountTransactionsError);
    }
    r := Ok(|Guids(Selected(db.splits, filter, db.transactions))|);
  }

  /** What `FindAll` returns, when it succeeds: stored transactions that match
      the filter, newest first, no more than a positive limit. */
  lemma FindAllMeaning(db: Database, filter: Option<TransactionFilter>)
    requires LoadTransactions(db, QueryRows(db, filter)).Ok?
    ensures var ts := LoadTransactions(db, QueryRows(db, filter)).value;
      (forall t :: t in ts ==> RowOfTransaction(t) in db.transactions && Matches(db.splits, filter, RowOfTransaction(t)))
      && (forall i, j :: 0 <= i < j < |ts| ==> ComesFirst(RowOfTransaction(ts[i]), RowOfTransaction(ts[j])))
      && (filter.Some? && filter.value.limit > 0 ==> |ts| <= filter.value.limit)
  {
    var rows := QueryRows(db, filter);
    var ts := LoadTransactions(db, rows).value;
    QueryRowsMeaning(db, filter);
    forall k | 0 <= k < |rows| ensures RowOfTransaction(ts[k]) == rows[k] {
      LoadTransactionMeaning(db, rows[k]);
    }
    forall t | t in ts
      ensures RowOfTransaction(t) in db.transactions && Matches(db.splits, filter, RowOfTransaction(t))
    {
      var k :| 0 <= k < |ts| && ts[k] == t;
    }
  }

  /** Each transaction `FindAll` returns carries its splits, largest value
      first and linked to their accounts. */
  lemma FindAllSplits(db: Database, filter: Option<TransactionFilter>)
    requires LoadTransactions(db, QueryRows(db, filter)).Ok?
    ensures var ts := LoadTransactions(db, QueryRows(db, filter)).value;
      (forall t :: t in ts ==> forall s :: s in t.splits ==> s.txGuid == t.guid && s.account.guid == s.accountGuid)
      && (forall t :: t in ts ==> forall i, j :: 0 <= i < j < |t.splits| ==> t.splits[i].valueNum >= t.splits[j].valueNum)
  {
    var rows := QueryRows(db, filter);
    var ts := LoadTransactions(db, rows).value;
    forall t | t in ts
      ensures forall s :: s in t.splits ==> s.txGuid == t.guid && s.account.guid == s.accountGuid
      ensures forall i, j :: 0 <= i < j < |t.splits| ==> t.splits[i].valueNum >= t.splits[j].valueNum
    {
      var k :| 0 <= k < |ts| && ts[k] == t;
      LoadTransactionMeaning(db, rows[k]);
    }
  }

  /** With an account filter, every transaction `FindAll` returns has a loaded
      split on that account. */
  lemma FindAllOnAccount(db: Database, filter: Option<TransactionFilter>)
    requires filter.Some? && filter.value.accountGuid.Some?
    requires LoadTransactions(db, QueryRows(db, filter)).Ok?
    ensures forall t :: t in LoadTransactions(db, QueryRows(db, filter)).value ==>
      exists s :: s in t.splits && s.accountGuid == filter.value.accountGuid.value
  {
    var rows := QueryRows(db, filter);
    var ts := LoadTransactions(db, rows).value;
    var g := filter.value.accountGuid.value;
    QueryRowsMeaning(db, filter);
    forall t | t in ts ensures exists s :: s in t.splits && s.accountGuid == g {
      var k :| 0 <= k < |ts| && ts[k] == t;
      LoadTransactionMeaning(db, rows[k]);
      MatchesFields(db.splits, filter, rows[k]);
      var row :| row in db.splits && row.txGuid == rows[k].guid && row.accountGuid == g;
      var s :| s in t.splits && RowOfSplit(s) == row;
    }
  }

  /** No two stored transactions share a GUID (it is the table's primary key). */
  ghost predicate UniqueGuids(rows: seq<TransactionRow>) {
    forall i, j :: 0 <= i < j < |rows| ==> rows[i].guid != rows[j].guid
  }

  lemma {:induction false} SelectedUnique(splits: seq<SplitRow>, filter: Option<TransactionFilter>, rows: seq<TransactionRow>)
    requires UniqueGuids(rows)
    ensures UniqueGuids(Selected(splits, filter, rows))
  {
    if rows != [] {
      var init := rows[..|rows| - 1];
      assert UniqueGuids(init);
      SelectedUnique(splits, filter, init);
      var rest := Selected(splits, filter, init);
      var last := rows[|rows| - 1];
      if Matches(splits, filter, last) {
        forall t | t in rest ensures t.guid != last.guid {
          var m :| 0 <= m < |init| && init[m] == t;
        }
        var r := rest + [last];
        forall i, j | 0 <= i < j < |r| ensures r[i].guid != r[j].guid {
          if j == |rest| {
            assert r[i] in rest;
          }
        }
      }
    }
  }

  /** Distinct GUIDs: as many GUIDs as rows. */
  lemma {:induction false} GuidsCount(rows: seq<TransactionRow>)
    requires UniqueGuids(rows)
    ensures |Guids(rows)| == |rows|
  {
    if rows != [] {
      var init := rows[..|rows| - 1];
      var last := rows[|rows| - 1];
      assert UniqueGuids(init);
      GuidsCount(init);
      forall t | t in init ensures t.guid != last.guid {
        var m :| 0 <= m < |init| && init[m] == t;
      }
    }
  }

  /** `Count` with the same filter counts at least as many transactions as
      `FindAll` returns, and exactly as many when neither limit nor offset is
      positive: it applies the same conditions without paging. */
  lemma CountCoversFindAll(db: Database, filter: Option<TransactionFilter>)
    requires UniqueGuids(db.transactions)
    requires LoadTransactions(db, QueryRows(db, filter)).Ok?
    ensures |LoadTransactions(db, QueryRows(db, filter)).value| <= |Guids(Selected(db.splits, filter, db.transactions))|
    ensures filter.None? || (filter.value.limit <= 0 && filter.value.offset <= 0) ==>
      |LoadTransactions(db, QueryRows(db, filter)).value| == |Guids(Selected(db.splits, filter, db.transactions))|
  {
    SelectedUnique(db.splits, filter, db.transactions);
    GuidsCount(Selected(db.splits, filter, db.transactions));
    QueryRowsMeaning(db, filter);
  }
}
