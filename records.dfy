/**
 * The rows the Pluggy sync and the demo seed write, the normalisation rules both routes
 * apply to Pluggy records, and the three tables they write, keyed by the Pluggy id
 * each row carries (`pluggy_account_id`, `pluggy_transaction_id`, `pluggy_investment_id`).
 */
module Records {
  import opened Wrappers
  import opened JsValues
  import opened Schema
  import opened PluggyClient

  /** The columns written into `bank_accounts` for a Pluggy account. */
  datatype BankAccountRecord = BankAccountRecord(
    userId: string,
    pluggyAccountId: string,
    bankName: string,
    accountType: string,
    accountNumber: Option<string>,
    balance: real,
    currency: string)

  /** The columns written into `transactions` for a Pluggy transaction. */
  datatype TransactionRecord = TransactionRecord(
    userId: string,
    bankAccountId: Option<string>,
    pluggyTransactionId: string,
    description: string,
    amount: real,
    transactionType: TransactionType,
    category: Option<string>,
    transactionDate: string)

  /** The columns written into `investments` for a Pluggy investment; `kind` is the `type` column. */
  datatype InvestmentRecord = InvestmentRecord(
    userId: string,
    pluggyInvestmentId: string,
    name: string,
    kind: string,
    institution: Option<string>,
    balance: real,
    initialValue: real,
    currentValue: real,
    profitLoss: real,
    profitLossPercentage: real,
    currency: string,
    dueDate: Option<string>)

  /**
   * The local account type of a Pluggy account: a CREDIT account is a credit card whatever its
   * subtype, a SAVINGS_ACCOUNT subtype is savings, and everything else is checking.
   */
  function AccountTypeOf(kind: string, subtype: string): (r: string)
    ensures r == "credit_card" <==> kind == "CREDIT"
    ensures r == "savings" <==> kind != "CREDIT" && subtype == "SAVINGS_ACCOUNT"
    ensures r == "checking" <==> kind != "CREDIT" && subtype != "SAVINGS_ACCOUNT"
  {
    if kind == "CREDIT" then "credit_card"
    else if subtype == "SAVINGS_ACCOUNT" then "savings"
    else "checking"
  }

  /** `bank_name`: the marketing name when it is set and non-empty, otherwise the account name. */
  function BankNameOf(marketingName: Option<string>, name: string): (r: string)
    ensures Truthy(marketingName) ==> r == marketingName.value
    ensures !Truthy(marketingName) ==> r == name
    ensures r == name || (marketingName.Some? && r == marketingName.value)
  {
    Or(marketingName, name)
  }

  /** `transaction_type`: credit exactly for a Pluggy CREDIT transaction, debit for anything else. */
  function TransactionTypeOf(kind: string): (r: TransactionType)
    ensures r == Credit <==> kind == "CREDIT"
    ensures r == Debit <==> kind != "CREDIT"
  {
    if kind == "CREDIT" then Credit else Debit
  }

  /** Profit or loss of a position worth `current` that started at `initial`. */
  function ProfitLoss(initial: real, current: real): (r: real)
    ensures initial + r == current
  {
    current - initial
  }

  /**
   * The profit as a percentage of the initial value, guarded against a zero or negative initial
   * value: 0 then. Otherwise percentage · initial = profit · 100, so the percentage has the sign of
   * the profit.
   */
  function ProfitLossPercentage(initial: real, current: real): (r: real)
    ensures initial <= 0.0 ==> r == 0.0
    ensures initial > 0.0 ==> r * initial == ProfitLoss(initial, current) * 100.0
    ensures initial > 0.0 ==> (r > 0.0 <==> current > initial) && (r == 0.0 <==> current == initial)
  {
    if initial > 0.0 then (ProfitLoss(initial, current) / initial) * 100.0 else 0.0
  }

  /** With a positive initial value the percentage gives back the current value. */
  lemma PercentageRecoversCurrent(initial: real, current: real)
    requires initial > 0.0
    ensures initial + initial * ProfitLossPercentage(initial, current) / 100.0 == current
  {
    var p := ProfitLossPercentage(initial, current);
    assert p * initial == (current - initial) * 100.0;
  }

  /** The `bank_accounts` row the sync and the seed build from a Pluggy account. */
  function AccountRecordOf(userId: string, account: PluggyAccount): (r: BankAccountRecord)
    ensures r.pluggyAccountId == account.id && r.userId == userId
    ensures r.accountType == AccountTypeOf(account.kind, account.subtype)
    ensures r.bankName == BankNameOf(account.marketingName, account.name)
    ensures r.balance == account.balance && r.accountNumber == account.number
    ensures r.currency == account.currencyCode
  {
    BankAccountRecord(
      userId, account.id, BankNameOf(account.marketingName, account.name),
      AccountTypeOf(account.kind, account.subtype), account.number, account.balance, account.currencyCode)
  }

  /** A snapshot of the three tables. */
  datatype Tables = Tables(
    bankAccounts: map<string, BankAccountRecord>,
    transactions: map<string, TransactionRecord>,
    investments: map<string, InvestmentRecord>)

  /** Every row is stored under the Pluggy id it carries. */
  predicate KeyedById(t: Tables) {
    && (forall k :: k in t.bankAccounts ==> t.bankAccounts[k].pluggyAccountId == k)
    && (forall k :: k in t.transactions ==> t.transactions[k].pluggyTransactionId == k)
    && (forall k :: k in t.investments ==> t.investments[k].pluggyInvestmentId == k)
  }

  /** The database the routes write: each table a map from Pluggy id to row. */
  class Database {
    var bankAccounts: map<string, BankAccountRecord>
    var transactions: map<string, TransactionRecord>
    var investments: map<string, InvestmentRecord>

    constructor (initial: Tables)
      ensures State() == initial
    {
      bankAccounts := initial.bankAccounts;
      transactions := initial.transactions;
      investments := initial.investments;
    }

    /** The current contents of the three tables. */
    function State(): Tables
      reads this
    {
      Tables(bankAccounts, transactions, investments)
    }
  }
}
