/** The stored rows that the repositories query: the `transactions` and `splits`
    tables, and the database as a whole (accounts already scanned into entities,
    commodities, transactions, splits). Row order is the table's physical order,
    which SQL leaves unspecified wherever no ORDER BY applies. */
module Tables {
  import opened Wrappers
  import opened Rational
  import opened Calendar
  import opened Entity

  /** A `splits` row. */
  datatype SplitRow = SplitRow(
    guid: string,
    txGuid: string,
    accountGuid: string,
    memo: Option<string>,
    action: Option<string>,
    reconcileState: string,
    valueNum: Int64,
    valueDenom: Int64,
    quantityNum: Int64,
    quantityDenom: Int64)

  /** A `transactions` row. */
  datatype TransactionRow = TransactionRow(
    guid: string,
    currencyGuid: string,
    num: Option<string>,
    postDate: Time,
    enterDate: Time,
    description: Option<string>)

  /** What the stored fields above do not decide about reading transactions back:
      the transactions whose row does not scan into the entity (a NULL
      `post_date` or `enter_date` has no `time.Time` value), and those whose
      split query the database rejects. Both are sets of transaction GUIDs. */
  datatype ReadFaults = ReadFaults(unscannable: set<string>, splitQueryFails: set<string>)

  datatype Database = Database(
    accounts: seq<Account>,
    commodities: seq<Commodity>,
    transactions: seq<TransactionRow>,
    splits: seq<SplitRow>,
    faults: ReadFaults)
}
