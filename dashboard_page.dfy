/**
 * The overview page: the balance, income and expense totals, spending per category for the pie
 * chart, the six-month bar chart and whether the demo loader is offered.
 */
module DashboardPage {
  import opened Wrappers
  import opened JsValues
  import opened Schema
  import opened Seqs
  import AccountsList

  predicate IsCredit(t: Transaction) {
    t.transactionType == Credit
  }

  predicate IsDebit(t: Transaction) {
    t.transactionType == Debit
  }

  function Amount(t: Transaction): real {
    t.amount
  }

  /** `Math.abs(Number(t.amount))`. */
  function AbsAmount(t: Transaction): real {
    Abs(t.amount)
  }

  /** `totalIncome`: the amounts of the credit transactions, added up. */
  function TotalIncome(txns: seq<Transaction>): real {
    SumOf(Filter(IsCredit, txns), Amount)
  }

  /** `totalExpense`: the magnitudes of the debit transactions, added up; never negative. */
  function TotalExpense(txns: seq<Transaction>): (r: real)
    ensures r >= 0.0
  {
    var debits := Filter(IsDebit, txns);
    SumOfNonNegative(debits, AbsAmount);
    SumOf(debits, AbsAmount)
  }

  /**
   * The totals as running sums: one more transaction adds its amount to the income when it is a
   * credit, and its magnitude to the expense when it is a debit, and leaves the other total alone.
   */
  lemma TotalsOneMore(txns: seq<Transaction>, t: Transaction)
    ensures TotalIncome(txns + [t]) == TotalIncome(txns) + (if IsCredit(t) then t.amount else 0.0)
    ensures TotalExpense(txns + [t]) == TotalExpense(txns) + (if IsDebit(t) then AbsAmount(t) else 0.0)
  {
    FilterAppend(IsCredit, txns, [t]);
    SumOfAppend(Filter(IsCredit, txns), Filter(IsCredit, [t]), Amount);
    FilterAppend(IsDebit, txns, [t]);
    SumOfAppend(Filter(IsDebit, txns), Filter(IsDebit, [t]), AbsAmount);
  }

  /** `totalBalance` on the overview leaves credit cards out: adding one changes nothing, any other account adds its balance. */
  lemma TotalBalanceOneMore(accounts: seq<BankAccount>, a: BankAccount)
    ensures AccountsList.TotalBalance(accounts + [a])
      == AccountsList.TotalBalance(accounts) + (if AccountsList.IsCreditCard(a) then 0.0 else a.balance)
  {
    FilterAppend(AccountsList.NotCreditCard, accounts, [a]);
    SumOfAppend(AccountsList.PositiveAccounts(accounts), Filter(AccountsList.NotCreditCard, [a]), AccountsList.Balance);
  }

  /** The bucket a debit is counted in: its category, or "Outros" when that is null or empty. */
  function CategoryOf(t: Transaction): (r: string)
    ensures Truthy(t.category) ==> r == t.category.value
    ensures !Truthy(t.category) ==> r == "Outros"
  {
    Or(t.category, "Outros")
  }

  /** An entry of `spendingByCategory`, in `Object.entries` order. */
  datatype CategoryTotal = CategoryTotal(name: string, value: real)

  function Value(c: CategoryTotal): real {
    c.value
  }

  function NamesOf(totals: seq<CategoryTotal>): set<string> {
    set i | 0 <= i < |totals| :: totals[i].name
  }

  predicate UniqueNames(totals: seq<CategoryTotal>) {
    forall i, j :: 0 <= i < j < |totals| ==> totals[i].name != totals[j].name
  }

  /** The value recorded for a category name, 0 when it has none. */
  function ValueOf(totals: seq<CategoryTotal>, name: string): real
    decreases |totals|
  {
    if totals == [] then 0.0
    else if totals[0].name == name then totals[0].value
    else ValueOf(totals[1..], name)
  }

  /**
   * `acc[category] = (acc[category] || 0) + amount`: an existing entry grows in place, a new
   * category is appended at the end.
   */
  function AddTo(totals: seq<CategoryTotal>, name: string, amount: real): (r: seq<CategoryTotal>)
    ensures |r| == |totals| || |r| == |totals| + 1
    ensures r != []
    decreases |totals|
  {
    if totals == [] then [CategoryTotal(name, amount)]
    else if totals[0].name == name then [totals[0].(value := totals[0].value + amount)] + totals[1..]
    else [totals[0]] + AddTo(totals[1..], name, amount)
  }

  lemma NamesOfCons(c: CategoryTotal, rest: seq<CategoryTotal>)
    ensures NamesOf([c] + rest) == {c.name} + NamesOf(rest)
  {
    var r := [c] + rest;
    assert r[0].name == c.name;
    forall k | k in NamesOf(r) ensures k in {c.name} + NamesOf(rest) {
      var i :| 0 <= i < |r| && r[i].name == k;
      if i > 0 { assert rest[i - 1].name == k; }
    }
    forall k | k in NamesOf(rest) ensures k in NamesOf(r) {
      var i :| 0 <= i < |rest| && rest[i].name == k;
      assert r[i + 1].name == k;
    }
  }

  /** A list of buckets with unique names: its head's name is not among the rest, which are unique too. */
  lemma UniqueTail(totals: seq<CategoryTotal>)
    requires totals != [] && UniqueNames(totals)
    ensures UniqueNames(totals[1..]) && totals[0].name !in NamesOf(totals[1..])
  {
    var rest := totals[1..];
    forall i | 0 <= i < |rest| ensures rest[i].name != totals[0].name {
      assert rest[i] == totals[i + 1];
    }
  }

  /** A bucket whose name is not among unique others keeps the names unique. */
  lemma UniqueCons(c: CategoryTotal, rest: seq<CategoryTotal>)
    requires UniqueNames(rest) && c.name !in NamesOf(rest)
    ensures UniqueNames([c] + rest)
  {
    var r := [c] + rest;
    forall i, j | 0 <= i < j < |r| ensures r[i].name != r[j].name {
      if i == 0 { assert r[j] == rest[j - 1]; assert rest[j - 1].name in NamesOf(rest); }
      else { assert r[i] == rest[i - 1] && r[j] == rest[j - 1]; }
    }
  }

  /** Adding to a bucket adds its name to the names, once. */
  lemma {:induction false} AddToNames(totals: seq<CategoryTotal>, name: string, amount: real)
    ensures NamesOf(AddTo(totals, name, amount)) == NamesOf(totals) + {name}
    ensures UniqueNames(totals) ==> UniqueNames(AddTo(totals, name, amount))
    decreases |totals|
  {
    var r := AddTo(totals, name, amount);
    if totals == [] {
      var c := CategoryTotal(name, amount);
      assert r == [c] + [];
      NamesOfCons(c, []);
    } else {
      var tail := totals[1..];
      assert totals == [totals[0]] + tail;
      NamesOfCons(totals[0], tail);
      if totals[0].name == name {
        assert r == [r[0]] + tail;
        NamesOfCons(r[0], tail);
        if UniqueNames(totals) {
          UniqueTail(totals);
          UniqueCons(r[0], tail);
        }
      } else {
        var rest := AddTo(tail, name, amount);
        assert r == [totals[0]] + rest;
        AddToNames(tail, name, amount);
        NamesOfCons(totals[0], rest);
        if UniqueNames(totals) {
          UniqueTail(totals);
          UniqueCons(totals[0], rest);
        }
      }
    }
  }

  /** Adding to a bucket adds the amount to that bucket's value and to no other. */
  lemma {:induction false} AddToValue(totals: seq<CategoryTotal>, name: string, amount: real, k: string)
    ensures ValueOf(AddTo(totals, name, amount), k) == ValueOf(totals, k) + (if k == name then amount else 0.0)
    decreases |totals|
  {
    if totals != [] && totals[0].name != name {
      AddToValue(totals[1..], name, amount, k);
    }
  }

  /** Adding to a bucket adds the amount to the sum of all values. */
  lemma {:induction false} AddToSum(totals: seq<CategoryTotal>, name: string, amount: real)
    ensures SumOf(AddTo(totals, name, amount), Value) == SumOf(totals, Value) + amount
    decreases |totals|
  {
    if totals != [] {
      var r := AddTo(totals, name, amount);
      if totals[0].name == name {
        assert r[1..] == totals[1..];
      } else {
        AddToSum(totals[1..], name, amount);
        assert r[1..] == AddTo(totals[1..], name, amount);
      }
    }
  }

  /**
   * The accumulator is the object literal `{}`, so `acc[name]` also sees the names it inherits from
   * `Object.prototype`. `__proto__` is an accessor: reading it gives the prototype object, and the
   * assignment of a number to it is ignored, so a debit in that bucket is dropped.
   */
  const ProtoKey := "__proto__"

  /**
   * The inherited methods: reading one gives a function, so `(acc[name] || 0) + amount` is text
   * (the function's source followed by the amount), and the bucket stays text from then on.
   */
  const InheritedMethods: set<string> := {
    "constructor", "hasOwnProperty", "isPrototypeOf", "propertyIsEnumerable", "toString",
    "toLocaleString", "valueOf", "__defineGetter__", "__defineSetter__", "__lookupGetter__",
    "__lookupSetter__"
  }

  /**
   * `spendingByCategory` of a list of debits: the `reduce` over them, first to last. The buckets
   * of inherited method names are kept like any other here; `SpendingData` is where they fail.
   */
  function CategoryTotals(debits: seq<Transaction>): seq<CategoryTotal>
    decreases |debits|
  {
    if debits == [] then []
    else
      var n := |debits| - 1;
      var before := CategoryTotals(debits[..n]);
      if CategoryOf(debits[n]) == ProtoKey then before
      else AddTo(before, CategoryOf(debits[n]), AbsAmount(debits[n]))
  }

  /** The magnitudes of the debits in one bucket, added up: the reference for each pie slice. */
  function CategorySpend(debits: seq<Transaction>, name: string): real
    decreases |debits|
  {
    if debits == [] then 0.0
    else
      var n := |debits| - 1;
      CategorySpend(debits[..n], name) + (if CategoryOf(debits[n]) == name then AbsAmount(debits[n]) else 0.0)
  }

  /** The pie chart's buckets, computed by running the `reduce` accumulator over the debits. */
  method SpendingByCategory(txns: seq<Transaction>) returns (totals: seq<CategoryTotal>)
    ensures totals == CategoryTotals(Filter(IsDebit, txns))
  {
    var debits := Filter(IsDebit, txns);
    totals := [];
    for i := 0 to |debits|
      invariant totals == CategoryTotals(debits[..i])
    {
      assert debits[..i + 1][..i] == debits[..i];
      var category := CategoryOf(debits[i]);
      if category != ProtoKey {
        totals := AddTo(totals, category, AbsAmount(debits[i]));
      }
    }
    assert debits[..|debits|] == debits;
  }

  /** The bucket names of a list of debits. */
  function CategoriesOf(debits: seq<Transaction>): set<string> {
    set i | 0 <= i < |debits| :: CategoryOf(debits[i])
  }

  /** One more debit adds its bucket name to the names. */
  lemma CategoriesOfSnoc(debits: seq<Transaction>)
    requires debits != []
    ensures CategoriesOf(debits) == CategoriesOf(debits[..|debits| - 1]) + {CategoryOf(debits[|debits| - 1])}
  {
    var n := |debits| - 1;
    var init := debits[..n];
    forall k | k in CategoriesOf(debits) ensures k in CategoriesOf(init) + {CategoryOf(debits[n])} {
      var i :| 0 <= i < |debits| && CategoryOf(debits[i]) == k;
      if i < n { assert CategoryOf(init[i]) == k; }
    }
    forall k | k in CategoriesOf(init) ensures k in CategoriesOf(debits) {
      var i :| 0 <= i < |init| && CategoryOf(init[i]) == k;
      assert CategoryOf(debits[i]) == k;
    }
  }

  /** The bucket names: each once, and exactly the debits' names other than `__proto__`. */
  lemma {:induction false} TotalsNames(debits: seq<Transaction>)
    ensures UniqueNames(CategoryTotals(debits))
    ensures NamesOf(CategoryTotals(debits)) == CategoriesOf(debits) - {ProtoKey}
    decreases |debits|
  {
    if debits != [] {
      var n := |debits| - 1;
      TotalsNames(debits[..n]);
      CategoriesOfSnoc(debits);
      if CategoryOf(debits[n]) != ProtoKey {
        AddToNames(CategoryTotals(debits[..n]), CategoryOf(debits[n]), AbsAmount(debits[n]));
      }
    }
  }

  /** The value of each bucket: the spend of its debits, and nothing under `__proto__`. */
  lemma {:induction false} TotalsValue(debits: seq<Transaction>, k: string)
    ensures ValueOf(CategoryTotals(debits), k) == if k == ProtoKey then 0.0 else CategorySpend(debits, k)
    decreases |debits|
  {
    if debits != [] {
      var n := |debits| - 1;
      TotalsValue(debits[..n], k);
      if CategoryOf(debits[n]) != ProtoKey {
        AddToValue(CategoryTotals(debits[..n]), CategoryOf(debits[n]), AbsAmount(debits[n]), k);
      }
    }
  }

  /** All buckets together, plus the dropped `__proto__` debits, make up all the debits' magnitudes. */
  lemma {:induction false} TotalsSum(debits: seq<Transaction>)
    ensures SumOf(CategoryTotals(debits), Value) + CategorySpend(debits, ProtoKey) == SumOf(debits, AbsAmount)
    decreases |debits|
  {
    if debits != [] {
      var n := |debits| - 1;
      TotalsSum(debits[..n]);
      if CategoryOf(debits[n]) != ProtoKey {
        AddToSum(CategoryTotals(debits[..n]), CategoryOf(debits[n]), AbsAmount(debits[n]));
      }
      assert debits == debits[..n] + [debits[n]];
      SumOfAppend(debits[..n], [debits[n]], AbsAmount);
    }
  }

  /** Only the empty list of buckets has no names. */
  lemma NamesOfEmpty(totals: seq<CategoryTotal>)
    ensures NamesOf(totals) == {} <==> totals == []
  {
    if totals != [] {
      assert totals[0].name in NamesOf(totals);
    }
  }

  /**
   * What the buckets hold: one entry per distinct bucket name of the debits other than
   * `__proto__`, each holding the magnitudes of that bucket's debits added up. All entries together
   * add up to the debits' magnitudes less those of the dropped `__proto__` debits.
   */
  lemma CategoryTotalsMeaning(debits: seq<Transaction>)
    ensures UniqueNames(CategoryTotals(debits))
    ensures NamesOf(CategoryTotals(debits)) == CategoriesOf(debits) - {ProtoKey}
    ensures forall k :: ValueOf(CategoryTotals(debits), k) == if k == ProtoKey then 0.0 else CategorySpend(debits, k)
    ensures SumOf(CategoryTotals(debits), Value) + CategorySpend(debits, ProtoKey) == SumOf(debits, AbsAmount)
    ensures CategoryTotals(debits) == [] <==> CategoriesOf(debits) <= {ProtoKey}
  {
    TotalsNames(debits);
    forall k ensures ValueOf(CategoryTotals(debits), k) == if k == ProtoKey then 0.0 else CategorySpend(debits, k) {
      TotalsValue(debits, k);
    }
    TotalsSum(debits);
    NamesOfEmpty(CategoryTotals(debits));
  }

  /** A name is a bucket name of the debits iff some debit transaction is counted under it. */
  lemma DebitCategory(txns: seq<Transaction>, k: string)
    ensures k in CategoriesOf(Filter(IsDebit, txns)) <==>
      exists i :: 0 <= i < |txns| && IsDebit(txns[i]) && CategoryOf(txns[i]) == k
  {
    var debits := Filter(IsDebit, txns);
    if k in CategoriesOf(debits) {
      var j :| 0 <= j < |debits| && CategoryOf(debits[j]) == k;
      assert debits[j] in txns && IsDebit(debits[j]);
      var i :| 0 <= i < |txns| && txns[i] == debits[j];
      assert IsDebit(txns[i]) && CategoryOf(txns[i]) == k;
    }
    if exists i :: 0 <= i < |txns| && IsDebit(txns[i]) && CategoryOf(txns[i]) == k {
      var i :| 0 <= i < |txns| && IsDebit(txns[i]) && CategoryOf(txns[i]) == k;
      assert txns[i] in debits;
      var j :| 0 <= j < |debits| && debits[j] == txns[i];
      assert CategoryOf(debits[j]) == k;
    }
  }

  /** Some bucket is an inherited method name iff some debit transaction is counted under one. */
  lemma InheritedDebit(txns: seq<Transaction>)
    ensures CategoriesOf(Filter(IsDebit, txns)) * InheritedMethods != {} <==>
      exists i :: 0 <= i < |txns| && IsDebit(txns[i]) && CategoryOf(txns[i]) in InheritedMethods
  {
    var names := CategoriesOf(Filter(IsDebit, txns));
    if exists i :: 0 <= i < |txns| && IsDebit(txns[i]) && CategoryOf(txns[i]) in InheritedMethods {
      var i :| 0 <= i < |txns| && IsDebit(txns[i]) && CategoryOf(txns[i]) in InheritedMethods;
      DebitCategory(txns, CategoryOf(txns[i]));
      assert CategoryOf(txns[i]) in names * InheritedMethods;
    }
    if names * InheritedMethods != {} {
      var c :| c in names * InheritedMethods;
      DebitCategory(txns, c);
    }
  }

  /** A name no debit is counted under has spent nothing. */
  lemma {:induction false} CategorySpendAbsent(debits: seq<Transaction>, name: string)
    requires name !in CategoriesOf(debits)
    ensures CategorySpend(debits, name) == 0.0
    decreases |debits|
  {
    if debits != [] {
      var n := |debits| - 1;
      assert CategoriesOf(debits[..n]) <= CategoriesOf(debits) by {
        forall k | k in CategoriesOf(debits[..n]) ensures k in CategoriesOf(debits) {
          var i :| 0 <= i < n && CategoryOf(debits[..n][i]) == k;
          assert CategoryOf(debits[i]) == k;
        }
      }
      CategorySpendAbsent(debits[..n], name);
    }
  }

  /**
   * The spending values add up to `totalExpense` less the debits of a `__proto__` category, which
   * the accumulator drops; without such a debit they add up to `totalExpense` exactly.
   */
  lemma SpendingAddsUpToExpense(txns: seq<Transaction>)
    ensures SumOf(CategoryTotals(Filter(IsDebit, txns)), Value) + CategorySpend(Filter(IsDebit, txns), ProtoKey)
      == TotalExpense(txns)
    ensures (forall i :: 0 <= i < |txns| && IsDebit(txns[i]) ==> CategoryOf(txns[i]) != ProtoKey) ==>
      SumOf(CategoryTotals(Filter(IsDebit, txns)), Value) == TotalExpense(txns)
  {
    var debits := Filter(IsDebit, txns);
    CategoryTotalsMeaning(debits);
    DebitCategory(txns, ProtoKey);
    if ProtoKey !in CategoriesOf(debits) {
      CategorySpendAbsent(debits, ProtoKey);
    }
  }

  /** Removing a credit from anywhere in the list leaves its debits as they were. */
  lemma DebitsSkipCredit(before: seq<Transaction>, t: Transaction, after: seq<Transaction>)
    requires IsCredit(t)
    ensures Filter(IsDebit, before + [t] + after) == Filter(IsDebit, before + after)
  {
    FilterAppend(IsDebit, before + [t], after);
    FilterAppend(IsDebit, before, [t]);
    FilterAppend(IsDebit, before, after);
    assert Filter(IsDebit, [t]) == [] by {
      assert [t][1..] == [];
    }
    assert Filter(IsDebit, before) + [] == Filter(IsDebit, before);
  }

  /** A credit, wherever it sits in the list, does not change the spending buckets. */
  lemma CreditLeavesSpending(before: seq<Transaction>, t: Transaction, after: seq<Transaction>)
    requires IsCredit(t)
    ensures CategoryTotals(Filter(IsDebit, before + [t] + after)) == CategoryTotals(Filter(IsDebit, before + after))
  {
    DebitsSkipCredit(before, t, after);
  }

  /** `spendingData`, or the single "Sem dados" slice the chart gets when it is empty. */
  function ChartData(totals: seq<CategoryTotal>): (r: seq<CategoryTotal>)
    ensures r != []
    ensures totals == [] ==> r == [CategoryTotal("Sem dados", 0.0)]
    ensures totals != [] ==> r == totals
  {
    if totals == [] then [CategoryTotal("Sem dados", 0.0)] else totals
  }

  /**
   * The pie chart shows the "Sem dados" placeholder exactly when no debit is counted: there is
   * none, or every one is in the dropped `__proto__` bucket.
   */
  lemma ChartDataPlaceholder(txns: seq<Transaction>)
    ensures (forall i :: 0 <= i < |txns| && IsDebit(txns[i]) ==> CategoryOf(txns[i]) == ProtoKey) ==>
      ChartData(CategoryTotals(Filter(IsDebit, txns))) == [CategoryTotal("Sem dados", 0.0)]
    ensures (exists i :: 0 <= i < |txns| && IsDebit(txns[i]) && CategoryOf(txns[i]) != ProtoKey) ==>
      ChartData(CategoryTotals(Filter(IsDebit, txns))) == CategoryTotals(Filter(IsDebit, txns)) != []
  {
    var debits := Filter(IsDebit, txns);
    TotalsNames(debits);
    NamesOfEmpty(CategoryTotals(debits));
    if exists i :: 0 <= i < |txns| && IsDebit(txns[i]) && CategoryOf(txns[i]) != ProtoKey {
      var i :| 0 <= i < |txns| && IsDebit(txns[i]) && CategoryOf(txns[i]) != ProtoKey;
      DebitCategory(txns, CategoryOf(txns[i]));
      assert CategoryOf(txns[i]) in NamesOf(CategoryTotals(debits));
    } else {
      forall k | k in CategoriesOf(debits) ensures k == ProtoKey {
        DebitCategory(txns, k);
      }
    }
  }

  /**
   * `spendingData`: `value.toFixed(2)` for every bucket. A debit filed under an inherited method
   * name left a text bucket, so the call throws a TypeError and the page does not render: None.
   * Otherwise every bucket is a number and the entries are the category totals.
   */
  function SpendingData(txns: seq<Transaction>): (r: Option<seq<CategoryTotal>>)
    ensures r.None? <==> exists i :: 0 <= i < |txns| && IsDebit(txns[i]) && CategoryOf(txns[i]) in InheritedMethods
    ensures r.Some? ==> r.value == CategoryTotals(Filter(IsDebit, txns))
  {
    var debits := Filter(IsDebit, txns);
    InheritedDebit(txns);
    if CategoriesOf(debits) * InheritedMethods != {} then None else Some(CategoryTotals(debits))
  }

  /** A bar of the monthly chart. */
  datatype MonthRow = MonthRow(month: string, income: real, expense: real)

  /**
   * `monthlyData`: four fixed months, then "Nov", which falls back to 11000 / 8200 where a total
   * is 0, then "Dez" with the totals as they are.
   */
  function MonthlyData(totalIncome: real, totalExpense: real): (r: seq<MonthRow>)
    ensures |r| == 6
    ensures r[4].month == "Nov" && r[5] == MonthRow("Dez", totalIncome, totalExpense)
    ensures r[4].income == r[5].income <==> totalIncome != 0.0
    ensures r[4].expense == r[5].expense <==> totalExpense != 0.0
    ensures totalIncome == 0.0 ==> r[4].income == 11000.0
    ensures totalExpense == 0.0 ==> r[4].expense == 8200.0
    ensures r[4].income != 0.0 && r[4].expense != 0.0
  {
    [
      MonthRow("Jul", 8500.0, 6200.0),
      MonthRow("Ago", 9200.0, 7100.0),
      MonthRow("Set", 8800.0, 6800.0),
      MonthRow("Out", 9500.0, 7300.0),
      MonthRow("Nov", OrNumber(totalIncome, 11000.0), OrNumber(totalExpense, 8200.0)),
      MonthRow("Dez", totalIncome, totalExpense)
    ]
  }

  /** `hasData`: the demo loader is offered exactly when there is neither an account nor a recent transaction. */
  function HasData(accounts: seq<BankAccount>, recent: seq<Transaction>): (r: bool)
    ensures !r <==> accounts == [] && recent == []
  {
    |accounts| > 0 || |recent| > 0
  }
}
