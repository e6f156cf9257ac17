/** The ledger's entities (backend/internal/domain/entity): account types and their
    debit/credit polarity, accounts, splits, transactions and commodities. */
module Entity {
  import opened Wrappers
  import opened Rational
  import opened Calendar

  /** Go's `type AccountType string`: any string, of which fourteen are named. */
  type AccountType = string

  const AccountTypeRoot: AccountType := "ROOT"
  const AccountTypeBank: AccountType := "BANK"
  const AccountTypeCash: AccountType := "CASH"
  const AccountTypeCredit: AccountType := "CREDIT"
  const AccountTypeAsset: AccountType := "ASSET"
  const AccountTypeLiability: AccountType := "LIABILITY"
  const AccountTypeStock: AccountType := "STOCK"
  const AccountTypeMutual: AccountType := "MUTUAL"
  const AccountTypeCurrency: AccountType := "CURRENCY"
  const AccountTypeIncome: AccountType := "INCOME"
  const AccountTypeExpense: AccountType := "EXPENSE"
  const AccountTypeEquity: AccountType := "EQUITY"
  const AccountTypeReceivable: AccountType := "RECEIVABLE"
  const AccountTypePayable: AccountType := "PAYABLE"

  /** The named account types, in declaration order. */
  const NamedAccountTypes: seq<AccountType> := [
    AccountTypeRoot, AccountTypeBank, AccountTypeCash, AccountTypeCredit, AccountTypeAsset,
    AccountTypeLiability, AccountTypeStock, AccountTypeMutual, AccountTypeCurrency,
    AccountTypeIncome, AccountTypeExpense, AccountTypeEquity, AccountTypeReceivable, AccountTypePayable]

  /** The types that increase with debits. */
  const DebitAccountTypes: set<AccountType> := {
    AccountTypeAsset, AccountTypeBank, AccountTypeCash, AccountTypeStock,
    AccountTypeMutual, AccountTypeReceivable, AccountTypeExpense}

  /** An account row. The `Children` slice of the Go struct is not a field here:
      the hierarchy builders return it separately (see AccountRepository and
      McpTools). Balance fields are derived values filled in by callers. */
  datatype Account = Account(
    guid: string,
    name: string,
    accountType: AccountType,
    commodityGuid: Option<string>,
    commoditySCU: int,
    parentGuid: Option<string>,
    code: Option<string>,
    description: Option<string>,
    hidden: bool,
    placeholder: bool,
    balance: real,
    balanceNum: Int64,
    balanceDenom: Int64,
    commodityMnemonic: string)

  /** The switch of `IsDebitAccount`: the seven listed types, and `false` in the default branch. */
  function IsDebitType(t: AccountType): (r: bool)
    ensures r <==> t in DebitAccountTypes
  {
    match t
    case "ASSET" => true
    case "BANK" => true
    case "CASH" => true
    case "STOCK" => true
    case "MUTUAL" => true
    case "RECEIVABLE" => true
    case "EXPENSE" => true
    case _ => false
  }

  function IsDebitAccount(a: Account): bool {
    IsDebitType(a.accountType)
  }

  function IsCreditAccount(a: Account): bool {
    !IsDebitAccount(a)
  }

  /** The fourteen named types are pairwise distinct strings. */
  lemma NamedAccountTypesDistinct()
    ensures |NamedAccountTypes| == 14
    ensures forall i, j :: 0 <= i < j < |NamedAccountTypes| ==> NamedAccountTypes[i] != NamedAccountTypes[j]
  {
  }

  /** Polarity of every named type, and of unrecognised strings: exactly
      ASSET, BANK, CASH, STOCK, MUTUAL, RECEIVABLE and EXPENSE are debit
      accounts; every account is a credit account exactly when it is not a
      debit account. */
  lemma Polarity(a: Account)
    ensures IsDebitAccount(a) <==> a.accountType in {"ASSET", "BANK", "CASH", "STOCK", "MUTUAL", "RECEIVABLE", "EXPENSE"}
    ensures a.accountType in {"ROOT", "CREDIT", "LIABILITY", "CURRENCY", "INCOME", "EQUITY", "PAYABLE"} ==> !IsDebitAccount(a)
    ensures a.accountType !in NamedAccountTypes ==> !IsDebitAccount(a) && IsCreditAccount(a)
    ensures IsCreditAccount(a) == !IsDebitAccount(a)
  {
  }

  /** A commodity (currency or security); `fraction` is its smallest unit's denominator. */
  datatype Commodity = Commodity(guid: string, namespace: string, mnemonic: string, fullname: string, fraction: int)

  /** The part of a split's account that the split query joins in. */
  datatype SplitAccount = SplitAccount(guid: string, name: string, accountType: AccountType)

  /** One leg of a transaction. `value` is in the transaction's currency,
      `quantity` in the account's commodity, both as numerator/denominator. */
  datatype Split = Split(
    guid: string,
    txGuid: string,
    accountGuid: string,
    memo: Option<string>,
    action: Option<string>,
    reconcileState: string,
    valueNum: Int64,
    valueDenom: Int64,
    quantityNum: Int64,
    quantityDenom: Int64,
    account: SplitAccount)

  datatype Transaction = Transaction(
    guid: string,
    currencyGuid: string,
    currencyMnemonic: string,
    num: Option<string>,
    postDate: Time,
    enterDate: Time,
    description: Option<string>,
    splits: seq<Split>)
}
