/**
 * `POST /api/pluggy/sync`: pulls an item's accounts, their transactions and the item's investments
 * from Pluggy and upserts them, one row at a time, into the signed-in user's tables, keyed by
 * the Pluggy ids.
 */
module SyncRoute {
  import opened Wrappers
  import opened JsValues
  import opened Schema
  import opened PluggyClient
  import opened KeyedTable
  import opened Records

  /** The route's JSON answer. */
  datatype SyncResponse =
    | Synced(accounts: nat, investments: nat)
    | SyncError(status: nat, error: string)

  /**
   * What the Pluggy calls returned: the accounts and investments of the item and, for the i-th account,
   * its first page of transactions (`pageSize` 100), or None when that request threw.
   */
  datatype PluggyData = PluggyData(
    accounts: seq<PluggyAccount>,
    transactions: seq<Option<seq<PluggyTransaction>>>,
    investments: seq<PluggyInvestment>)

  /** One list of transactions was fetched per account. */
  predicate WellFormed(data: Option<PluggyData>) {
    data.Some? ==> |data.value.transactions| == |data.value.accounts|
  }

  /** The `transactions` row the sync writes; it is never linked to a local account. */
  function SyncTransactionRecord(userId: string, txn: PluggyTransaction): (r: TransactionRecord)
    ensures r.bankAccountId == None
    ensures r.pluggyTransactionId == txn.id && r.userId == userId
    ensures r.transactionType == TransactionTypeOf(txn.kind)
    ensures r.amount == txn.amount && r.category == txn.category
    ensures r.description == txn.description && r.transactionDate == txn.date
  {
    TransactionRecord(userId, None, txn.id, txn.description, txn.amount, TransactionTypeOf(txn.kind), txn.category, txn.date)
  }

  /**
   * The `investments` row the sync writes: the Pluggy balance is the initial value and the Pluggy
   * value the current one, so the stored profit is their difference. The institution is the name of
   * the institution object when there is one.
   */
  function SyncInvestmentRecord(userId: string, inv: PluggyInvestment): (r: InvestmentRecord)
    ensures r.pluggyInvestmentId == inv.id && r.userId == userId
    ensures r.name == inv.name && r.kind == inv.kind && r.currency == inv.currencyCode
    ensures r.initialValue == r.balance == inv.balance && r.currentValue == inv.value
    ensures r.currentValue - r.initialValue == r.profitLoss
    ensures r.profitLossPercentage == ProfitLossPercentage(inv.balance, inv.value)
    ensures r.institution == (if inv.institution.Some? then inv.institution.value.name else None)
    ensures r.dueDate == inv.dueDate
  {
    var profitLoss := ProfitLoss(inv.balance, inv.value);
    InvestmentRecord(
      userId, inv.id, inv.name, inv.kind,
      if inv.institution.Some? then inv.institution.value.name else None,
      inv.balance, inv.balance, inv.value, profitLoss,
      ProfitLossPercentage(inv.balance, inv.value), inv.currencyCode, inv.dueDate)
  }

  /** The account upserts, in order, as (pluggy_account_id, row). */
  function AccountEntries(userId: string, accounts: seq<PluggyAccount>): (e: seq<(string, BankAccountRecord)>)
    ensures |e| == |accounts|
    ensures forall i :: 0 <= i < |e| ==> e[i] == (accounts[i].id, AccountRecordOf(userId, accounts[i]))
  {
    seq(|accounts|, i requires 0 <= i < |accounts| => (accounts[i].id, AccountRecordOf(userId, accounts[i])))
  }

  /** The transaction upserts of one account, in order, as (pluggy_transaction_id, row). */
  function TransactionEntries(userId: string, txns: seq<PluggyTransaction>): (e: seq<(string, TransactionRecord)>)
    ensures |e| == |txns|
    ensures forall i :: 0 <= i < |e| ==> e[i] == (txns[i].id, SyncTransactionRecord(userId, txns[i]))
  {
    seq(|txns|, i requires 0 <= i < |txns| => (txns[i].id, SyncTransactionRecord(userId, txns[i])))
  }

  /** The investment upserts, in order, as (pluggy_investment_id, row). */
  function InvestmentEntries(userId: string, invs: seq<PluggyInvestment>): (e: seq<(string, InvestmentRecord)>)
    ensures |e| == |invs|
    ensures forall i :: 0 <= i < |e| ==> e[i] == (invs[i].id, SyncInvestmentRecord(userId, invs[i]))
  {
    seq(|invs|, i requires 0 <= i < |invs| => (invs[i].id, SyncInvestmentRecord(userId, invs[i])))
  }

  /** How many transaction fetches succeeded before the first one that threw (all of them if none did). */
  function FetchedCount(fetched: seq<Option<seq<PluggyTransaction>>>): (n: nat)
    ensures n <= |fetched|
    ensures forall j :: 0 <= j < n ==> fetched[j].Some?
    ensures n < |fetched| ==> fetched[n].None?
    decreases |fetched|
  {
    if fetched == [] || fetched[0].None? then 0 else 1 + FetchedCount(fetched[1..])
  }

  /** The transaction upserts of the first n accounts, account after account. */
  function FetchedEntries(userId: string, fetched: seq<Option<seq<PluggyTransaction>>>, n: nat)
    : seq<(string, TransactionRecord)>
    requires n <= |fetched| && forall j :: 0 <= j < n ==> fetched[j].Some?
  {
    if n == 0 then [] else FetchedEntries(userId, fetched, n - 1) + TransactionEntries(userId, fetched[n - 1].value)
  }

  /** The transactions of the first n accounts, account after account, in the order the loop upserts them. */
  function FetchedTransactions(fetched: seq<Option<seq<PluggyTransaction>>>, n: nat): seq<PluggyTransaction>
    requires n <= |fetched| && forall j :: 0 <= j < n ==> fetched[j].Some?
  {
    if n == 0 then [] else FetchedTransactions(fetched, n - 1) + fetched[n - 1].value
  }

  /** The upserts of two lists of transactions are the upserts of the first followed by those of the second. */
  lemma TransactionEntriesAppend(userId: string, a: seq<PluggyTransaction>, b: seq<PluggyTransaction>)
    ensures TransactionEntries(userId, a + b) == TransactionEntries(userId, a) + TransactionEntries(userId, b)
  {
    var l := TransactionEntries(userId, a + b);
    var r := TransactionEntries(userId, a) + TransactionEntries(userId, b);
    forall i | 0 <= i < |l| ensures l[i] == r[i] {
      if i < |a| {
        assert (a + b)[i] == a[i];
      } else {
        assert (a + b)[i] == b[i - |a|];
      }
    }
  }

  /** The transaction upserts of the first n accounts are those of their transactions laid end to end. */
  lemma {:induction false} FetchedEntriesFlat(userId: string, fetched: seq<Option<seq<PluggyTransaction>>>, n: nat)
    requires n <= |fetched| && forall j :: 0 <= j < n ==> fetched[j].Some?
    ensures FetchedEntries(userId, fetched, n) == TransactionEntries(userId, FetchedTransactions(fetched, n))
    decreases n
  {
    if n > 0 {
      FetchedEntriesFlat(userId, fetched, n - 1);
      TransactionEntriesAppend(userId, FetchedTransactions(fetched, n - 1), fetched[n - 1].value);
    }
  }

  /**
   * The tables and the answer after the route ran on `before`. The user and the item id are checked
   * before anything is written; a failed Pluggy list call writes nothing. When the transactions of
   * account n cannot be fetched, accounts 0..n are already upserted, the transactions of accounts
   * before n too, no investment is, and the answer is 500.
   */
  function SyncSpec(before: Tables, user: Option<User>, itemId: Option<string>, data: Option<PluggyData>)
    : (Tables, SyncResponse)
    requires WellFormed(data)
  {
    if user.None? then (before, SyncError(401, "Unauthorized"))
    else if !Truthy(itemId) then (before, SyncError(400, "Item ID is required"))
    else if data.None? then (before, SyncError(500, "Failed to sync data"))
    else
      var d := data.value;
      var uid := user.value.id;
      var n := FetchedCount(d.transactions);
      var accountsDone := if n < |d.accounts| then n + 1 else n;
      var accounts := UpsertAll(before.bankAccounts, AccountEntries(uid, d.accounts)[..accountsDone]);
      var txns := UpsertAll(before.transactions, FetchedEntries(uid, d.transactions, n));
      if n < |d.accounts| then (Tables(accounts, txns, before.investments), SyncError(500, "Failed to sync data"))
      else
        (Tables(accounts, txns, UpsertAll(before.investments, InvestmentEntries(uid, d.investments))),
         Synced(|d.accounts|, |d.investments|))
  }

  /** The one step the upsert loops take: the next upsert is applied on top of the earlier ones. */
  lemma UpsertNext<R>(t: map<string, R>, entries: seq<(string, R)>, j: nat)
    requires j < |entries|
    ensures UpsertAll(t, entries[..j + 1]) == UpsertAll(t, entries[..j])[entries[j].0 := entries[j].1]
  {
    assert entries[..j + 1] == entries[..j] + [entries[j]];
    UpsertAllSnoc(t, entries[..j], entries[j].0, entries[j].1);
  }

  /** The inner loop: upserts one account's transactions, in order, keyed by `pluggy_transaction_id`. */
  method UpsertTransactions(db: Database, userId: string, txns: seq<PluggyTransaction>)
    modifies db
    ensures db.transactions == UpsertAll(old(db.transactions), TransactionEntries(userId, txns))
    ensures db.bankAccounts == old(db.bankAccounts) && db.investments == old(db.investments)
  {
    ghost var entries := TransactionEntries(userId, txns);
    var j := 0;
    while j < |txns|
      invariant 0 <= j <= |txns|
      invariant db.transactions == UpsertAll(old(db.transactions), entries[..j])
      invariant db.bankAccounts == old(db.bankAccounts) && db.investments == old(db.investments)
    {
      UpsertNext(old(db.transactions), entries, j);
      db.transactions := db.transactions[txns[j].id := SyncTransactionRecord(userId, txns[j])];
      j := j + 1;
    }
    assert entries[..j] == entries;
  }

  /** The investment loop: upserts each investment, in order, keyed by `pluggy_investment_id`. */
  method UpsertInvestments(db: Database, userId: string, invs: seq<PluggyInvestment>)
    modifies db
    ensures db.investments == UpsertAll(old(db.investments), InvestmentEntries(userId, invs))
    ensures db.bankAccounts == old(db.bankAccounts) && db.transactions == old(db.transactions)
  {
    ghost var entries := InvestmentEntries(userId, invs);
    var k := 0;
    while k < |invs|
      invariant 0 <= k <= |invs|
      invariant db.investments == UpsertAll(old(db.investments), entries[..k])
      invariant db.bankAccounts == old(db.bankAccounts) && db.transactions == old(db.transactions)
    {
      UpsertNext(old(db.investments), entries, k);
      db.investments := db.investments[invs[k].id := SyncInvestmentRecord(userId, invs[k])];
      k := k + 1;
    }
    assert entries[..k] == entries;
  }

  /** The first statement of the account loop: account i is upserted, keyed by `pluggy_account_id`. */
  method UpsertAccount(db: Database, userId: string, accounts: seq<PluggyAccount>, i: nat, ghost before: map<string, BankAccountRecord>)
    requires i < |accounts|
    requires db.bankAccounts == UpsertAll(before, AccountEntries(userId, accounts)[..i])
    modifies db
    ensures db.bankAccounts == UpsertAll(before, AccountEntries(userId, accounts)[..i + 1])
    ensures db.transactions == old(db.transactions) && db.investments == old(db.investments)
  {
    UpsertNext(before, AccountEntries(userId, accounts), i);
    db.bankAccounts := db.bankAccounts[accounts[i].id := AccountRecordOf(userId, accounts[i])];
  }

  /** The rest of the account loop: the fetched transactions of account i are upserted after those of the earlier accounts. */
  method UpsertFetched(
    db: Database, userId: string, fetched: seq<Option<seq<PluggyTransaction>>>, i: nat,
    ghost before: map<string, TransactionRecord>)
    requires i < |fetched| && forall j :: 0 <= j <= i ==> fetched[j].Some?
    requires db.transactions == UpsertAll(before, FetchedEntries(userId, fetched, i))
    modifies db
    ensures db.transactions == UpsertAll(before, FetchedEntries(userId, fetched, i + 1))
    ensures db.bankAccounts == old(db.bankAccounts) && db.investments == old(db.investments)
  {
    UpsertAllAppend(before, FetchedEntries(userId, fetched, i), TransactionEntries(userId, fetched[i].value));
    UpsertTransactions(db, userId, fetched[i].value);
  }

  /**
   * The route itself, with the Pluggy answers as inputs: the loop upserts each account, then each of
   * its transactions; then each investment is upserted; the tables end as SyncSpec says.
   */
  method Sync(db: Database, user: Option<User>, itemId: Option<string>, data: Option<PluggyData>)
    returns (resp: SyncResponse)
    requires WellFormed(data)
    modifies db
    ensures (db.State(), resp) == SyncSpec(old(db.State()), user, itemId, data)
  {
    if user.None? {
      return SyncError(401, "Unauthorized");
    }
    if !Truthy(itemId) {
      return SyncError(400, "Item ID is required");
    }
    if data.None? {
      return SyncError(500, "Failed to sync data");
    }
    var d := data.value;
    var uid := user.value.id;
    ghost var before := db.State();
    ghost var accountEntries := AccountEntries(uid, d.accounts);
    var i := 0;
    while i < |d.accounts|
      invariant 0 <= i <= |d.accounts|
      invariant i <= FetchedCount(d.transactions)
      invariant db.bankAccounts == UpsertAll(before.bankAccounts, accountEntries[..i])
      invariant db.transactions == UpsertAll(before.transactions, FetchedEntries(uid, d.transactions, i))
      invariant db.investments == before.investments
    {
      UpsertAccount(db, uid, d.accounts, i, before.bankAccounts);
      if d.transactions[i].None? {
        SyncSpecStopsAt(before, user.value, itemId, d, i);
        return SyncError(500, "Failed to sync data");
      }
      UpsertFetched(db, uid, d.transactions, i, before.transactions);
      i := i + 1;
    }
    SyncSpecCompletes(before, user.value, itemId, d);
    assert accountEntries[..i] == accountEntries;
    UpsertInvestments(db, uid, d.investments);
    return Synced(|d.accounts|, |d.investments|);
  }

  /** SyncSpec when the transactions of account i are the first that could not be fetched. */
  lemma SyncSpecStopsAt(before: Tables, user: User, itemId: Option<string>, d: PluggyData, i: nat)
    requires WellFormed(Some(d)) && Truthy(itemId)
    requires i < |d.accounts| && i <= FetchedCount(d.transactions) && d.transactions[i].None?
    ensures FetchedCount(d.transactions) == i
    ensures SyncSpec(before, Some(user), itemId, Some(d)) == (
      Tables(
        UpsertAll(before.bankAccounts, AccountEntries(user.id, d.accounts)[..i + 1]),
        UpsertAll(before.transactions, FetchedEntries(user.id, d.transactions, i)),
        before.investments),
      SyncError(500, "Failed to sync data"))
  {
    assert FetchedCount(d.transactions) == i;
    var accounts := UpsertAll(before.bankAccounts, AccountEntries(user.id, d.accounts)[..i + 1]);
    var txns := UpsertAll(before.transactions, FetchedEntries(user.id, d.transactions, i));
    assert SyncSpec(before, Some(user), itemId, Some(d)) == (Tables(accounts, txns, before.investments), SyncError(500, "Failed to sync data"));
  }

  /** SyncSpec when every transaction list could be fetched. */
  lemma SyncSpecCompletes(before: Tables, user: User, itemId: Option<string>, d: PluggyData)
    requires WellFormed(Some(d)) && Truthy(itemId)
    requires |d.accounts| <= FetchedCount(d.transactions)
    ensures FetchedCount(d.transactions) == |d.accounts|
    ensures SyncSpec(before, Some(user), itemId, Some(d)) == (
      Tables(
        UpsertAll(before.bankAccounts, AccountEntries(user.id, d.accounts)),
        UpsertAll(before.transactions, FetchedEntries(user.id, d.transactions, |d.accounts|)),
        UpsertAll(before.investments, InvestmentEntries(user.id, d.investments))),
      Synced(|d.accounts|, |d.investments|))
  {
    assert AccountEntries(user.id, d.accounts)[..|d.accounts|] == AccountEntries(user.id, d.accounts);
  }

  /** Without a user the answer is 401, and without an item id 400; neither writes anything. */
  lemma SyncGuards(before: Tables, user: Option<User>, itemId: Option<string>, data: Option<PluggyData>)
    requires WellFormed(data)
    ensures user.None? ==> SyncSpec(before, user, itemId, data) == (before, SyncError(401, "Unauthorized"))
    ensures user.Some? && !Truthy(itemId) ==>
      SyncSpec(before, user, itemId, data) == (before, SyncError(400, "Item ID is required"))
  {
  }

  /** Syncing the same Pluggy data a second time leaves the tables as the first sync left them. */
  lemma SyncIdempotent(before: Tables, user: Option<User>, itemId: Option<string>, data: Option<PluggyData>)
    requires WellFormed(data)
    ensures var once := SyncSpec(before, user, itemId, data).0;
      SyncSpec(once, user, itemId, data) == SyncSpec(before, user, itemId, data)
  {
    if user.Some? && Truthy(itemId) && data.Some? {
      var d := data.value;
      var uid := user.value.id;
      var n := FetchedCount(d.transactions);
      var accountsDone := if n < |d.accounts| then n + 1 else n;
      UpsertAllIdempotent(before.bankAccounts, AccountEntries(uid, d.accounts)[..accountsDone]);
      UpsertAllIdempotent(before.transactions, FetchedEntries(uid, d.transactions, n));
      UpsertAllIdempotent(before.investments, InvestmentEntries(uid, d.investments));
    }
  }

  /** The Pluggy ids a sync of `data` may write, per table. */
  function AccountIds(data: PluggyData): set<string> {
    set a | a in data.accounts :: a.id
  }

  function TransactionIds(data: PluggyData): set<string> {
    set i, t | 0 <= i < |data.transactions| && data.transactions[i].Some? && t in data.transactions[i].value :: t.id
  }

  function InvestmentIds(data: PluggyData): set<string> {
    set v | v in data.investments :: v.id
  }

  lemma {:induction false} FetchedEntriesKeys(userId: string, fetched: seq<Option<seq<PluggyTransaction>>>, n: nat, k: string)
    requires n <= |fetched| && forall j :: 0 <= j < n ==> fetched[j].Some?
    requires k in KeysOf(FetchedEntries(userId, fetched, n))
    ensures exists i, t :: 0 <= i < n && t in fetched[i].value && t.id == k
  {
    var prev := FetchedEntries(userId, fetched, n - 1);
    var last := TransactionEntries(userId, fetched[n - 1].value);
    var e := prev + last;
    var p :| 0 <= p < |e| && e[p].0 == k;
    if p < |prev| {
      assert e[p] == prev[p];
      FetchedEntriesKeys(userId, fetched, n - 1, k);
    } else {
      var t := fetched[n - 1].value[p - |prev|];
      assert t.id == k;
    }
  }

  /** A sync rewrites only rows whose key is one of the fetched Pluggy ids; every other row is kept as it was. */
  lemma SyncKeepsOtherRows(before: Tables, user: Option<User>, itemId: Option<string>, data: Option<PluggyData>)
    requires WellFormed(data) && data.Some?
    ensures var after := SyncSpec(before, user, itemId, data).0;
      && (forall k :: k in before.bankAccounts && k !in AccountIds(data.value) ==>
            k in after.bankAccounts && after.bankAccounts[k] == before.bankAccounts[k])
      && (forall k :: k in before.transactions && k !in TransactionIds(data.value) ==>
            k in after.transactions && after.transactions[k] == before.transactions[k])
      && (forall k :: k in before.investments && k !in InvestmentIds(data.value) ==>
            k in after.investments && after.investments[k] == before.investments[k])
  {
    if user.Some? && Truthy(itemId) {
      var d := data.value;
      var uid := user.value.id;
      var n := FetchedCount(d.transactions);
      AccountUpsertsKeepOthers(before.bankAccounts, uid, d, if n < |d.accounts| then n + 1 else n);
      TransactionUpsertsKeepOthers(before.transactions, uid, d, n);
      InvestmentUpsertsKeepOthers(before.investments, uid, d);
    }
  }

  /** The account upserts of a sync write only the ids of the fetched accounts. */
  lemma AccountUpsertsKeepOthers(t: map<string, BankAccountRecord>, userId: string, d: PluggyData, m: nat)
    requires m <= |d.accounts|
    ensures var after := UpsertAll(t, AccountEntries(userId, d.accounts)[..m]);
      forall k :: k in t && k !in AccountIds(d) ==> k in after && after[k] == t[k]
  {
    var ae := AccountEntries(userId, d.accounts)[..m];
    assert KeysOf(ae) <= AccountIds(d) by {
      forall k | k in KeysOf(ae) ensures k in AccountIds(d) {
        var p :| 0 <= p < |ae| && ae[p].0 == k;
        assert d.accounts[p] in d.accounts;
      }
    }
    UpsertAllOutside(t, ae, AccountIds(d));
  }

  /** The transaction upserts of a sync write only the ids of the fetched transactions. */
  lemma TransactionUpsertsKeepOthers(t: map<string, TransactionRecord>, userId: string, d: PluggyData, n: nat)
    requires n <= |d.transactions| && forall j :: 0 <= j < n ==> d.transactions[j].Some?
    ensures var after := UpsertAll(t, FetchedEntries(userId, d.transactions, n));
      forall k :: k in t && k !in TransactionIds(d) ==> k in after && after[k] == t[k]
  {
    var te := FetchedEntries(userId, d.transactions, n);
    assert KeysOf(te) <= TransactionIds(d) by {
      forall k | k in KeysOf(te) ensures k in TransactionIds(d) {
        FetchedEntriesKeys(userId, d.transactions, n, k);
      }
    }
    UpsertAllOutside(t, te, TransactionIds(d));
  }

  /** The investment upserts of a sync write only the ids of the fetched investments. */
  lemma InvestmentUpsertsKeepOthers(t: map<string, InvestmentRecord>, userId: string, d: PluggyData)
    ensures var after := UpsertAll(t, InvestmentEntries(userId, d.investments));
      forall k :: k in t && k !in InvestmentIds(d) ==> k in after && after[k] == t[k]
  {
    var ie := InvestmentEntries(userId, d.investments);
    assert KeysOf(ie) <= InvestmentIds(d) by {
      forall k | k in KeysOf(ie) ensures k in InvestmentIds(d) {
        var p :| 0 <= p < |ie| && ie[p].0 == k;
        assert d.investments[p] in d.investments;
      }
    }
    UpsertAllOutside(t, ie, InvestmentIds(d));
  }

  /** No later account in the list has the id of account i. */
  predicate LastAccountWithId(accounts: seq<PluggyAccount>, i: nat)
    requires i < |accounts|
  {
    forall j :: i < j < |accounts| ==> accounts[j].id != accounts[i].id
  }

  /** No later investment in the list has the id of investment i. */
  predicate LastInvestmentWithId(investments: seq<PluggyInvestment>, i: nat)
    requires i < |investments|
  {
    forall j :: i < j < |investments| ==> investments[j].id != investments[i].id
  }

  /** No later transaction in the list has the id of transaction i. */
  predicate LastTransactionWithId(txns: seq<PluggyTransaction>, i: nat)
    requires i < |txns|
  {
    forall j :: i < j < |txns| ==> txns[j].id != txns[i].id
  }

  /**
   * After a complete sync there is exactly one row per Pluggy account id, transaction id and
   * investment id, and it is built from the last record with that id (for transactions: the last
   * in the order the accounts were visited); the answer counts the accounts and investments
   * (transactions are not counted).
   */
  lemma SyncOneRowPerId(before: Tables, user: Option<User>, itemId: Option<string>, data: Option<PluggyData>)
    requires WellFormed(data) && data.Some? && user.Some? && Truthy(itemId)
    requires FetchedCount(data.value.transactions) == |data.value.accounts|
    ensures var (after, resp) := SyncSpec(before, user, itemId, data);
      && resp == Synced(|data.value.accounts|, |data.value.investments|)
      && (forall i :: 0 <= i < |data.value.accounts| && LastAccountWithId(data.value.accounts, i) ==>
            && data.value.accounts[i].id in after.bankAccounts
            && after.bankAccounts[data.value.accounts[i].id] == AccountRecordOf(user.value.id, data.value.accounts[i]))
      && (var all := FetchedTransactions(data.value.transactions, |data.value.accounts|);
          forall i :: 0 <= i < |all| && LastTransactionWithId(all, i) ==>
            && all[i].id in after.transactions
            && after.transactions[all[i].id] == SyncTransactionRecord(user.value.id, all[i]))
      && (forall i :: 0 <= i < |data.value.investments| && LastInvestmentWithId(data.value.investments, i) ==>
            && data.value.investments[i].id in after.investments
            && after.investments[data.value.investments[i].id] == SyncInvestmentRecord(user.value.id, data.value.investments[i]))
  {
    var d := data.value;
    var uid := user.value.id;
    var ae := AccountEntries(uid, d.accounts);
    var te := FetchedEntries(uid, d.transactions, |d.accounts|);
    var ie := InvestmentEntries(uid, d.investments);
    var all := FetchedTransactions(d.transactions, |d.accounts|);
    SyncSpecCompletes(before, user.value, itemId, d);
    forall i | 0 <= i < |d.accounts| && LastAccountWithId(d.accounts, i)
      ensures d.accounts[i].id in UpsertAll(before.bankAccounts, ae)
      ensures UpsertAll(before.bankAccounts, ae)[d.accounts[i].id] == AccountRecordOf(uid, d.accounts[i])
    {
      UpsertAllLast(before.bankAccounts, ae, i);
    }
    FetchedEntriesFlat(uid, d.transactions, |d.accounts|);
    forall i | 0 <= i < |all| && LastTransactionWithId(all, i)
      ensures all[i].id in UpsertAll(before.transactions, te)
      ensures UpsertAll(before.transactions, te)[all[i].id] == SyncTransactionRecord(uid, all[i])
    {
      UpsertAllLast(before.transactions, te, i);
    }
    forall i | 0 <= i < |d.investments| && LastInvestmentWithId(d.investments, i)
      ensures d.investments[i].id in UpsertAll(before.investments, ie)
      ensures UpsertAll(before.investments, ie)[d.investments[i].id] == SyncInvestmentRecord(uid, d.investments[i])
    {
      UpsertAllLast(before.investments, ie, i);
    }
  }

  /** Upserting the first m accounts keeps every row under its own `pluggy_account_id`. */
  lemma UpsertKeepsAccountKeys(t: map<string, BankAccountRecord>, userId: string, accounts: seq<PluggyAccount>, m: nat)
    requires m <= |accounts|
    requires forall k :: k in t ==> t[k].pluggyAccountId == k
    ensures var after := UpsertAll(t, AccountEntries(userId, accounts)[..m]);
      forall k :: k in after ==> after[k].pluggyAccountId == k
  {
    var e := AccountEntries(userId, accounts)[..m];
    forall k | k in UpsertAll(t, e) ensures UpsertAll(t, e)[k].pluggyAccountId == k {
      UpsertAllAt(t, e, k);
    }
  }

  /** Upserting the investments keeps every row under its own `pluggy_investment_id`. */
  lemma UpsertKeepsInvestmentKeys(t: map<string, InvestmentRecord>, userId: string, invs: seq<PluggyInvestment>)
    requires forall k :: k in t ==> t[k].pluggyInvestmentId == k
    ensures var after := UpsertAll(t, InvestmentEntries(userId, invs));
      forall k :: k in after ==> after[k].pluggyInvestmentId == k
  {
    var e := InvestmentEntries(userId, invs);
    forall k | k in UpsertAll(t, e) ensures UpsertAll(t, e)[k].pluggyInvestmentId == k {
      UpsertAllAt(t, e, k);
    }
  }

  lemma UpsertKeepsTransactionKeys(t: map<string, TransactionRecord>, e: seq<(string, TransactionRecord)>)
    requires forall k :: k in t ==> t[k].pluggyTransactionId == k
    requires forall p :: 0 <= p < |e| ==> e[p].1.pluggyTransactionId == e[p].0 && e[p].1.bankAccountId == None
    ensures forall k :: k in UpsertAll(t, e) ==> UpsertAll(t, e)[k].pluggyTransactionId == k
    ensures forall k :: k in UpsertAll(t, e) && k !in t ==> UpsertAll(t, e)[k].bankAccountId == None
  {
    forall k | k in UpsertAll(t, e)
      ensures UpsertAll(t, e)[k].pluggyTransactionId == k
      ensures k !in t ==> UpsertAll(t, e)[k].bankAccountId == None
    {
      UpsertAllAt(t, e, k);
    }
  }

  /** Every row is still stored under its own Pluggy id after a sync, and every transaction row the sync adds is unlinked. */
  lemma SyncKeepsKeys(before: Tables, user: Option<User>, itemId: Option<string>, data: Option<PluggyData>)
    requires WellFormed(data) && KeyedById(before)
    ensures KeyedById(SyncSpec(before, user, itemId, data).0)
    ensures var after := SyncSpec(before, user, itemId, data).0;
      forall k :: k in after.transactions && k !in before.transactions ==> after.transactions[k].bankAccountId == None
  {
    if user.Some? && Truthy(itemId) && data.Some? {
      SyncWritesKeyedRows(before, user.value, itemId, data.value);
    }
  }

  /** SyncKeepsKeys once the guards pass and the data arrived. */
  lemma SyncWritesKeyedRows(before: Tables, user: User, itemId: Option<string>, d: PluggyData)
    requires WellFormed(Some(d)) && Truthy(itemId) && KeyedById(before)
    ensures var after := SyncSpec(before, Some(user), itemId, Some(d)).0;
      && KeyedById(after)
      && forall k :: k in after.transactions && k !in before.transactions ==> after.transactions[k].bankAccountId == None
  {
    var n := FetchedCount(d.transactions);
    if n < |d.accounts| {
      SyncSpecStopsAt(before, user, itemId, d, n);
      UpsertKeepsAccountKeys(before.bankAccounts, user.id, d.accounts, n + 1);
    } else {
      SyncSpecCompletes(before, user, itemId, d);
      assert AccountEntries(user.id, d.accounts)[..n] == AccountEntries(user.id, d.accounts);
      UpsertKeepsAccountKeys(before.bankAccounts, user.id, d.accounts, n);
      UpsertKeepsInvestmentKeys(before.investments, user.id, d.investments);
    }
    FetchedKeepKeys(before.transactions, user.id, d.transactions, n);
  }

  /** The fetched transaction upserts keep rows under their own id, and the rows they add are unlinked. */
  lemma FetchedKeepKeys(t: map<string, TransactionRecord>, userId: string, fetched: seq<Option<seq<PluggyTransaction>>>, n: nat)
    requires n <= |fetched| && forall j :: 0 <= j < n ==> fetched[j].Some?
    requires forall k :: k in t ==> t[k].pluggyTransactionId == k
    ensures var after := UpsertAll(t, FetchedEntries(userId, fetched, n));
      && (forall k :: k in after ==> after[k].pluggyTransactionId == k)
      && (forall k :: k in after && k !in t ==> after[k].bankAccountId == None)
  {
    var te := FetchedEntries(userId, fetched, n);
    forall p | 0 <= p < |te| ensures te[p].1.pluggyTransactionId == te[p].0 && te[p].1.bankAccountId == None {
      FetchedRowsAreSyncRows(userId, fetched, n, p);
    }
    UpsertKeepsTransactionKeys(t, te);
  }

  /** Every fetched entry is a sync row stored under its own transaction id. */
  lemma {:induction false} FetchedRowsAreSyncRows(userId: string, fetched: seq<Option<seq<PluggyTransaction>>>, n: nat, p: nat)
    requires n <= |fetched| && forall j :: 0 <= j < n ==> fetched[j].Some?
    requires p < |FetchedEntries(userId, fetched, n)|
    ensures var e := FetchedEntries(userId, fetched, n)[p];
      e.1.pluggyTransactionId == e.0 && e.1.bankAccountId == None && e.1.userId == userId
  {
    var prev := FetchedEntries(userId, fetched, n - 1);
    if p < |prev| {
      FetchedRowsAreSyncRows(userId, fetched, n - 1, p);
    }
  }
}
