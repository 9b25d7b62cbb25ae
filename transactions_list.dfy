/**
 * The transactions page: the search-and-type filter over the list, the row a manual transaction
 * inserts, and how an amount is shown.
 */
module TransactionsList {
  import opened Wrappers
  import opened JsValues
  import opened Schema
  import opened Seqs

  /**
   * A transaction is listed when its lower-cased description contains the lower-cased search
   * text, and the type filter is "all" or names its type.
   */
  predicate Matches(t: Transaction, search: string, filter: string) {
    && Includes(ToLower(t.description), ToLower(search))
    && (filter == "all" || TypeName(t.transactionType) == filter)
  }

  /** `filteredTransactions`: the matching transactions, in the order they came. */
  function FilteredTransactions(txns: seq<Transaction>, search: string, filter: string): (r: seq<Transaction>)
    ensures IsSubsequence(r, txns)
    ensures forall i :: 0 <= i < |r| ==> Matches(r[i], search, filter)
    ensures forall i :: 0 <= i < |txns| && Matches(txns[i], search, filter) ==> txns[i] in r
    ensures forall t :: multiset(r)[t] == if Matches(t, search, filter) then multiset(txns)[t] else 0
  {
    var keep := (t: Transaction) => Matches(t, search, filter);
    FilterIsSubsequence(keep, txns);
    FilterCountsAll(keep, txns);
    Filter(keep, txns)
  }

  /** With no search text and the "all" filter every transaction is listed. */
  lemma EmptySearchKeepsAll(txns: seq<Transaction>)
    ensures FilteredTransactions(txns, "", "all") == txns
  {
    var keep := (t: Transaction) => Matches(t, "", "all");
    forall i | 0 <= i < |txns| ensures keep(txns[i]) {
      assert ToLower(txns[i].description)[..0] == [];
    }
    FilterKeepsAll(keep, txns);
  }

  /** Under the "credit" filter only credits are listed, and under "debit" only debits. */
  lemma TypeFilterKeepsType(txns: seq<Transaction>, search: string)
    ensures forall i :: 0 <= i < |FilteredTransactions(txns, search, "credit")| ==>
      FilteredTransactions(txns, search, "credit")[i].transactionType == Credit
    ensures forall i :: 0 <= i < |FilteredTransactions(txns, search, "debit")| ==>
      FilteredTransactions(txns, search, "debit")[i].transactionType == Debit
  {
  }

  /** The "new transaction" form; the type select holds "debit" or "credit". */
  datatype TransactionForm = TransactionForm(
    description: string,
    amount: string,
    transactionType: string,
    category: string,
    transactionDate: string)

  /** The form as a successful insert resets it: an empty debit dated `today`. */
  function EmptyTransactionForm(today: string): TransactionForm {
    TransactionForm("", "", "debit", "", today)
  }

  /** The row the form inserts into `transactions`; `amount` is None when the text is not a number (NaN). */
  datatype ManualTransactionRow = ManualTransactionRow(
    userId: string,
    description: string,
    amount: Option<real>,
    transactionType: string,
    category: Option<string>,
    transactionDate: string)

  /** The insert row: the category is null when empty, every other field is the form's. */
  function NewTransactionRow(userId: string, form: TransactionForm, parsedAmount: Option<real>): (r: ManualTransactionRow)
    ensures r.userId == userId && r.amount == parsedAmount
    ensures r.description == form.description && r.transactionType == form.transactionType
    ensures r.transactionDate == form.transactionDate
    ensures r.category.None? <==> form.category == ""
    ensures r.category.Some? ==> r.category.value == form.category
  {
    ManualTransactionRow(
      userId, form.description, parsedAmount, form.transactionType,
      OrNull(form.category), form.transactionDate)
  }

  /** The dialog's state around a submit. */
  datatype TransactionsDialog = TransactionsDialog(isOpen: bool, isLoading: bool, form: TransactionForm)

  /** After the insert answered: success closes the dialog and resets the form; failure keeps both. */
  function AfterSubmit(state: TransactionsDialog, insertFailed: bool, today: string): (r: TransactionsDialog)
    ensures !r.isLoading
    ensures insertFailed ==> r.isOpen == state.isOpen && r.form == state.form
    ensures !insertFailed ==> !r.isOpen && r.form == EmptyTransactionForm(today)
  {
    if insertFailed then state.(isLoading := false)
    else TransactionsDialog(false, false, EmptyTransactionForm(today))
  }

  /** How an amount is shown: a sign, then a magnitude. */
  datatype AmountText = AmountText(sign: string, magnitude: real)

  /** "+" for a credit and "-" otherwise, followed by `Math.abs(amount)`. */
  function DisplayedAmount(t: Transaction): (r: AmountText)
    ensures r.sign == "+" <==> t.transactionType == Credit
    ensures r.sign == "-" <==> t.transactionType == Debit
    ensures r.magnitude >= 0.0 && (r.magnitude == t.amount || r.magnitude == -t.amount)
  {
    AmountText(if t.transactionType == Credit then "+" else "-", Abs(t.amount))
  }

  function SignedValue(a: AmountText): real {
    if a.sign == "+" then a.magnitude else -a.magnitude
  }

  /**
   * The shown text reads back as the stored amount exactly when the amount's sign agrees with the
   * type (a credit is not negative, a debit is not positive).
   */
  lemma DisplayedAmountReadsBack(t: Transaction)
    ensures SignedValue(DisplayedAmount(t)) == t.amount <==>
      (t.transactionType == Credit && t.amount >= 0.0) || (t.transactionType == Debit && t.amount <= 0.0)
  {
  }
}
