/** The rows the dashboard reads back from the database tables (the application's shared record types). */
module Schema {
  import opened Wrappers

  /** `transaction_type`: "credit" (income) or "debit" (expense). */
  datatype TransactionType = Credit | Debit

  /** The column's text value. */
  function TypeName(t: TransactionType): string {
    match t
    case Credit => "credit"
    case Debit => "debit"
  }

  /** A row of `bank_accounts`. `accountType` is free text; the forms offer checking, savings, investment and credit_card. */
  datatype BankAccount = BankAccount(
    id: string,
    userId: string,
    pluggyAccountId: Option<string>,
    bankName: string,
    accountType: string,
    accountNumber: Option<string>,
    agency: Option<string>,
    balance: real,
    currency: string)

  /** A row of `transactions`. */
  datatype Transaction = Transaction(
    id: string,
    userId: string,
    bankAccountId: Option<string>,
    pluggyTransactionId: Option<string>,
    description: string,
    amount: real,
    transactionType: TransactionType,
    category: Option<string>,
    transactionDate: string)

  /** A row of `investments`; `kind` is the `type` column. */
  datatype Investment = Investment(
    id: string,
    userId: string,
    pluggyInvestmentId: Option<string>,
    name: string,
    kind: string,
    institution: Option<string>,
    balance: real,
    initialValue: real,
    currentValue: real,
    profitLoss: real,
    profitLossPercentage: real,
    currency: string,
    dueDate: Option<string>)

  /** A row of `profiles`. */
  datatype Profile = Profile(
    id: string,
    fullName: Option<string>,
    email: string,
    document: Option<string>,
    birthDate: Option<string>,
    creditCard: Option<string>)

  /** The signed-in user. */
  datatype User = User(id: string)
}
