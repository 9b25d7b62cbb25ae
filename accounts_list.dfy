/**
 * The accounts page: the split of the user's accounts into bank accounts and credit cards with
 * their totals, the manual "new account" row, and the display rules for an account's type,
 * icon and number.
 */
module AccountsList {
  import opened Wrappers
  import opened JsValues
  import opened Schema
  import opened Seqs

  /** An entry of the account-type selector. */
  datatype AccountTypeOption = AccountTypeOption(value: string, caption: string)

  const AccountTypes: seq<AccountTypeOption> := [
    AccountTypeOption("checking", "Conta Corrente"),
    AccountTypeOption("savings", "Conta Poupança"),
    AccountTypeOption("investment", "Conta Investimento"),
    AccountTypeOption("credit_card", "Cartão de Crédito")
  ]

  predicate IsCreditCard(a: BankAccount) {
    a.accountType == "credit_card"
  }

  predicate NotCreditCard(a: BankAccount) {
    !IsCreditCard(a)
  }

  function Balance(a: BankAccount): real {
    a.balance
  }

  /** `positiveAccounts`: every account that is not a credit card. */
  function PositiveAccounts(accounts: seq<BankAccount>): seq<BankAccount> {
    Filter(NotCreditCard, accounts)
  }

  /** `creditCards`. */
  function CreditCards(accounts: seq<BankAccount>): seq<BankAccount> {
    Filter(IsCreditCard, accounts)
  }

  /** `totalBalance`: the balances of the accounts that are not credit cards, added up. */
  function TotalBalance(accounts: seq<BankAccount>): real {
    SumOf(PositiveAccounts(accounts), Balance)
  }

  /** `totalCreditDebt`: the magnitude of the credit-card balances' sum. */
  function TotalCreditDebt(accounts: seq<BankAccount>): (r: real)
    ensures r >= 0.0
    ensures r == SumOf(CreditCards(accounts), Balance) || r == -SumOf(CreditCards(accounts), Balance)
  {
    var s := SumOf(CreditCards(accounts), Balance);
    if s < 0.0 then -s else s
  }

  /**
   * The two lists partition the accounts: each account is in exactly one of them, the credit-card
   * test decides which, and the two balance sums add up to the sum over all accounts.
   */
  lemma AccountsPartition(accounts: seq<BankAccount>)
    ensures multiset(PositiveAccounts(accounts)) + multiset(CreditCards(accounts)) == multiset(accounts)
    ensures |PositiveAccounts(accounts)| + |CreditCards(accounts)| == |accounts|
    ensures forall i :: 0 <= i < |PositiveAccounts(accounts)| ==> !IsCreditCard(PositiveAccounts(accounts)[i])
    ensures forall i :: 0 <= i < |CreditCards(accounts)| ==> IsCreditCard(CreditCards(accounts)[i])
    ensures TotalBalance(accounts) + SumOf(CreditCards(accounts), Balance) == SumOf(accounts, Balance)
  {
    FilterPartition(NotCreditCard, IsCreditCard, accounts, Balance);
  }

  /** The "new account" form. */
  datatype AccountForm = AccountForm(
    bankName: string,
    accountType: string,
    accountNumber: string,
    agency: string,
    balance: string)

  /** The form as it starts and as a successful insert resets it. */
  const EmptyAccountForm := AccountForm("", "checking", "", "", "")

  /** The row the form inserts into `bank_accounts`. */
  datatype ManualAccountRow = ManualAccountRow(
    userId: string,
    bankName: string,
    accountType: string,
    accountNumber: Option<string>,
    agency: Option<string>,
    balance: real)

  /**
   * The insert row. `parsedBalance` is `Number.parseFloat` of the balance field, None when it is
   * not a number; `|| 0` turns that into 0.
   */
  function NewAccountRow(userId: string, form: AccountForm, parsedBalance: Option<real>): (r: ManualAccountRow)
    ensures r.userId == userId && r.bankName == form.bankName && r.accountType == form.accountType
    ensures r.balance == parsedBalance.GetOr(0.0)
    ensures r.accountNumber.None? <==> form.accountNumber == ""
    ensures r.agency.None? <==> form.agency == ""
    ensures r.accountNumber.Some? ==> r.accountNumber.value == form.accountNumber
    ensures r.agency.Some? ==> r.agency.value == form.agency
  {
    ManualAccountRow(
      userId, form.bankName, form.accountType,
      OrNull(form.accountNumber), OrNull(form.agency),
      if parsedBalance.Some? then parsedBalance.value else 0.0)
  }

  /** The dialog's state around a submit. */
  datatype AccountsDialog = AccountsDialog(isOpen: bool, isLoading: bool, form: AccountForm)

  /**
   * The state after the insert answered: a successful insert closes the dialog and resets the
   * form to an empty checking account; a failed one keeps both. Loading ends either way.
   */
  function AfterSubmit(state: AccountsDialog, insertFailed: bool): (r: AccountsDialog)
    ensures !r.isLoading
    ensures insertFailed ==> r.isOpen == state.isOpen && r.form == state.form
    ensures !insertFailed ==> !r.isOpen && r.form == EmptyAccountForm
    ensures !insertFailed ==> r.form.accountType == "checking" && r.form.balance == ""
  {
    if insertFailed then state.(isLoading := false)
    else AccountsDialog(false, false, EmptyAccountForm)
  }

  predicate HasValue(value: string, o: AccountTypeOption) {
    o.value == value
  }

  /** `getAccountTypeLabel`: the label of the known type, or the type string itself. */
  function AccountTypeLabel(accountType: string): (r: string)
    ensures accountType == "checking" ==> r == "Conta Corrente"
    ensures accountType == "savings" ==> r == "Conta Poupança"
    ensures accountType == "investment" ==> r == "Conta Investimento"
    ensures accountType == "credit_card" ==> r == "Cartão de Crédito"
    ensures accountType !in {"checking", "savings", "investment", "credit_card"} ==> r == accountType
  {
    var found := FindFirst(AccountTypes, o => HasValue(accountType, o));
    Or(if found.Some? then Some(AccountTypes[found.value].caption) else None, accountType)
  }

  /** The icon shown beside an account. */
  datatype AccountIcon = Wallet | Building2 | CreditCard

  /** `getAccountIcon`. */
  function AccountIconOf(accountType: string): (r: AccountIcon)
    ensures r == CreditCard <==> accountType == "credit_card"
    ensures r == Building2 <==> accountType == "savings"
    ensures r == Wallet <==> accountType != "credit_card" && accountType != "savings"
  {
    match accountType
    case "checking" => Wallet
    case "savings" => Building2
    case "credit_card" => CreditCard
    case _ => Wallet
  }

  /** The number line under an account: agency and number, the number alone, or nothing. */
  function AccountNumberLine(account: BankAccount): (r: Option<string>)
    ensures r.None? <==> !Truthy(account.accountNumber)
    ensures Truthy(account.agency) && Truthy(account.accountNumber) ==>
      r == Some("Ag: " + account.agency.value + " | Cc: " + account.accountNumber.value)
    ensures !Truthy(account.agency) && Truthy(account.accountNumber) ==> r == account.accountNumber
  {
    if Truthy(account.agency) && Truthy(account.accountNumber) then
      Some("Ag: " + account.agency.value + " | Cc: " + account.accountNumber.value)
    else if !Truthy(account.agency) && Truthy(account.accountNumber) then
      account.accountNumber
    else
      None
  }
}
