/**
 * The investments page: the summary totals and average return, the row a manual investment
 * inserts with its profit figures, and the type label and icon lookups.
 */
module InvestmentsList {
  import opened Wrappers
  import opened JsValues
  import opened Schema
  import opened Seqs
  import opened Records

  /** The icon shown for an investment type. */
  datatype InvestmentIcon = Landmark | BarChart3 | TrendingUp | Coins | PiggyBank

  /** An entry of `investmentTypes`. */
  datatype InvestmentTypeOption = InvestmentTypeOption(value: string, caption: string, icon: InvestmentIcon)

  const InvestmentTypes: seq<InvestmentTypeOption> := [
    InvestmentTypeOption("FIXED_INCOME", "Renda Fixa", Landmark),
    InvestmentTypeOption("MUTUAL_FUND", "Fundos", BarChart3),
    InvestmentTypeOption("EQUITY", "Ações", TrendingUp),
    InvestmentTypeOption("ETF", "ETF", Coins),
    InvestmentTypeOption("Tesouro Direto", "Tesouro Direto", Landmark),
    InvestmentTypeOption("CDB", "CDB", Landmark),
    InvestmentTypeOption("LCI/LCA", "LCI/LCA", Landmark),
    InvestmentTypeOption("Ações", "Ações", TrendingUp),
    InvestmentTypeOption("Fundos Imobiliários", "FIIs", BarChart3),
    InvestmentTypeOption("Criptomoedas", "Cripto", Coins),
    InvestmentTypeOption("Poupança", "Poupança", PiggyBank),
    InvestmentTypeOption("Outros", "Outros", PiggyBank)
  ]

  function CurrentValue(i: Investment): real {
    i.currentValue
  }

  function InitialValue(i: Investment): real {
    i.initialValue
  }

  function ProfitLossOf(i: Investment): real {
    i.profitLoss
  }

  function PercentageOf(i: Investment): real {
    i.profitLossPercentage
  }

  /** `totalInvested`: the current values added up. */
  function TotalInvested(investments: seq<Investment>): real {
    SumOf(investments, CurrentValue)
  }

  /** `totalProfit`: the stored profits added up. */
  function TotalProfit(investments: seq<Investment>): real {
    SumOf(investments, ProfitLossOf)
  }

  /** `avgProfitPercentage`: 0 for no investments, otherwise the mean of the stored percentages. */
  function AverageProfitPercentage(investments: seq<Investment>): (r: real)
    ensures investments == [] ==> r == 0.0
    ensures investments != [] ==> r * |investments| as real == SumOf(investments, PercentageOf)
  {
    if |investments| > 0 then SumOf(investments, PercentageOf) / |investments| as real else 0.0
  }

  /** The average lies between the smallest and the largest percentage. */
  lemma AverageWithinBounds(investments: seq<Investment>, lo: real, hi: real)
    requires investments != []
    requires forall i :: 0 <= i < |investments| ==> lo <= investments[i].profitLossPercentage <= hi
    ensures lo <= AverageProfitPercentage(investments) <= hi
  {
    var n := |investments| as real;
    var s := SumOf(investments, PercentageOf);
    SumOfBounds(investments, PercentageOf, lo, hi);
    var avg := AverageProfitPercentage(investments);
    assert avg * n == s;
    assert (avg - lo) * n == s - n * lo;
    assert (hi - avg) * n == n * hi - s;
  }

  /**
   * When every stored profit is its current value minus its initial value, as the insert below
   * and the sync store them, the total profit is the total invested minus what was put in.
   */
  lemma {:induction false} TotalProfitIsGain(investments: seq<Investment>)
    requires forall i :: 0 <= i < |investments| ==>
      investments[i].profitLoss == investments[i].currentValue - investments[i].initialValue
    ensures TotalProfit(investments) == TotalInvested(investments) - SumOf(investments, InitialValue)
    decreases |investments|
  {
    if investments != [] {
      TotalProfitIsGain(investments[1..]);
    }
  }

  /** The "new investment" form. */
  datatype InvestmentForm = InvestmentForm(
    name: string,
    kind: string,
    institution: string,
    initialValue: string,
    currentValue: string,
    dueDate: string)

  /** The form as it starts and as a successful insert resets it. */
  const EmptyInvestmentForm := InvestmentForm("", "", "", "", "", "")

  /** The row the form inserts into `investments`. */
  datatype ManualInvestmentRow = ManualInvestmentRow(
    userId: string,
    name: string,
    kind: string,
    institution: Option<string>,
    initialValue: real,
    currentValue: real,
    balance: real,
    profitLoss: real,
    profitLossPercentage: real,
    dueDate: Option<string>)

  /**
   * `handleSubmit`'s row, given the two parsed amounts: the balance is the current value, the
   * profit is the gain over the initial value, the percentage that gain relative to a positive
   * initial value (0 otherwise), and an empty institution or due date is null.
   */
  function NewInvestmentRow(userId: string, form: InvestmentForm, initial: real, current: real): (r: ManualInvestmentRow)
    ensures r.userId == userId && r.name == form.name && r.kind == form.kind
    ensures r.initialValue == initial && r.currentValue == current && r.balance == current
    ensures r.initialValue + r.profitLoss == r.currentValue
    ensures initial > 0.0 ==> r.profitLossPercentage * initial == r.profitLoss * 100.0
    ensures initial <= 0.0 ==> r.profitLossPercentage == 0.0
    ensures r.institution.None? <==> form.institution == ""
    ensures r.institution.Some? ==> r.institution.value == form.institution
    ensures r.dueDate.None? <==> form.dueDate == ""
    ensures r.dueDate.Some? ==> r.dueDate.value == form.dueDate
  {
    ManualInvestmentRow(
      userId, form.name, form.kind, OrNull(form.institution), initial, current, current,
      ProfitLoss(initial, current), ProfitLossPercentage(initial, current), OrNull(form.dueDate))
  }

  /** The dialog's state around a submit. */
  datatype InvestmentsDialog = InvestmentsDialog(isOpen: bool, isLoading: bool, form: InvestmentForm)

  /** After the insert answered: success closes the dialog and empties the form; failure keeps both. */
  function AfterSubmit(state: InvestmentsDialog, insertFailed: bool): (r: InvestmentsDialog)
    ensures !r.isLoading
    ensures insertFailed ==> r.isOpen == state.isOpen && r.form == state.form
    ensures !insertFailed ==> !r.isOpen && r.form == EmptyInvestmentForm
  {
    if insertFailed then state.(isLoading := false)
    else InvestmentsDialog(false, false, EmptyInvestmentForm)
  }

  predicate NamesType(kind: string, o: InvestmentTypeOption) {
    o.value == kind || o.caption == kind
  }

  predicate HasValue(kind: string, o: InvestmentTypeOption) {
    o.value == kind
  }

  /** Entry i is the first whose value or label is the type. */
  predicate FirstNaming(kind: string, i: nat) {
    && i < |InvestmentTypes|
    && NamesType(kind, InvestmentTypes[i])
    && forall j :: 0 <= j < i ==> !NamesType(kind, InvestmentTypes[j])
  }

  /** Entry i is the first whose value is the type. */
  predicate FirstWithValue(kind: string, i: nat) {
    && i < |InvestmentTypes|
    && HasValue(kind, InvestmentTypes[i])
    && forall j :: 0 <= j < i ==> !HasValue(kind, InvestmentTypes[j])
  }

  /** `getInvestmentIcon`: the icon of the first entry whose value or label is the type, else PiggyBank. */
  function InvestmentIconOf(kind: string): (r: InvestmentIcon)
    ensures forall i: nat :: FirstNaming(kind, i) ==> r == InvestmentTypes[i].icon
    ensures (forall i :: 0 <= i < |InvestmentTypes| ==> !NamesType(kind, InvestmentTypes[i])) ==> r == PiggyBank
  {
    var found := FindFirst(InvestmentTypes, o => NamesType(kind, o));
    if found.Some? then InvestmentTypes[found.value].icon else PiggyBank
  }

  lemma CaptionsNotEmpty(i: nat)
    requires i < |InvestmentTypes|
    ensures InvestmentTypes[i].caption != ""
  {
    assert forall o :: o in InvestmentTypes ==> |o.caption| >= 3;
  }

  /** `getTypeLabel`: the label of the first entry whose value is the type, else the type itself. */
  function TypeLabel(kind: string): (r: string)
    ensures forall i: nat :: FirstWithValue(kind, i) ==> r == InvestmentTypes[i].caption
    ensures (forall i :: 0 <= i < |InvestmentTypes| ==> !HasValue(kind, InvestmentTypes[i])) ==> r == kind
  {
    var found := FindFirst(InvestmentTypes, o => HasValue(kind, o));
    if found.Some? then
      CaptionsNotEmpty(found.value);
      Or(Some(InvestmentTypes[found.value].caption), kind)
    else
      Or(None, kind)
  }

  /** A Pluggy type name gets its Portuguese label and icon. */
  lemma PluggyTypeLookup()
    ensures TypeLabel("FIXED_INCOME") == "Renda Fixa" && InvestmentIconOf("FIXED_INCOME") == Landmark
  {
    assert FirstWithValue("FIXED_INCOME", 0);
    assert FirstNaming("FIXED_INCOME", 0);
  }

  /** A type that is neither a value nor a label of any entry is shown as is, with the PiggyBank icon. */
  lemma UnknownTypeLookup(kind: string)
    requires forall i :: 0 <= i < |InvestmentTypes| ==> InvestmentTypes[i].value != kind && InvestmentTypes[i].caption != kind
    ensures TypeLabel(kind) == kind && InvestmentIconOf(kind) == PiggyBank
  {
  }

  /** The type select offers the first eight entries only. */
  function FormTypes(): (r: seq<InvestmentTypeOption>)
    ensures |r| == 8
    ensures forall i :: 0 <= i < |r| ==> r[i] == InvestmentTypes[i]
    ensures forall i :: 0 <= i < |r| ==> r[i].value != "Poupança" && r[i].value != "Outros"
  {
    InvestmentTypes[..8]
  }
}
