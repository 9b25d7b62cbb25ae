/**
 * `POST /api/demo/seed`: replaces the signed-in user's data with Pluggy sandbox demo records.
 * It deletes the user's transactions, investments and accounts, inserts the demo accounts,
 * maps each demo account id to the id of the row inserted for it, and inserts the demo
 * transactions (linked through that map) and the demo investments.
 */
module SeedRoute {
  import opened Wrappers
  import opened JsValues
  import opened Schema
  import opened PluggyClient
  import opened KeyedTable
  import opened Records
  import SyncRoute

  /** The route's JSON answer. */
  datatype SeedResponse =
    | Seeded(accounts: nat, transactions: nat, investments: nat)
    | SeedError(status: nat, error: string)

  /** The demo records the route inserts. */
  datatype DemoData = DemoData(
    accounts: seq<PluggyAccount>,
    transactions: seq<PluggyTransaction>,
    investments: seq<PluggyInvestment>)

  /**
   * What the three inserts answered: the ids of the account rows returned by the insert, in
   * order (None when it reported an error), and whether the other two inserts reported an error.
   */
  datatype InsertOutcomes = InsertOutcomes(
    accountIds: Option<seq<string>>,
    transactionsFailed: bool,
    investmentsFailed: bool)

  /** `delete().eq("user_id", userId)` on a table whose rows have `owner` as their `user_id`. */
  function WithoutUser<R>(t: map<string, R>, owner: R -> string, userId: string): (r: map<string, R>)
    ensures forall k :: k in r <==> k in t && owner(t[k]) != userId
    ensures forall k :: k in r ==> r[k] == t[k]
  {
    map k | k in t && owner(t[k]) != userId :: t[k]
  }

  /** The `user_id` column of each table. */
  function AccountOwner(row: BankAccountRecord): string { row.userId }
  function TransactionOwner(row: TransactionRecord): string { row.userId }
  function InvestmentOwner(row: InvestmentRecord): string { row.userId }

  /** The (demo account id, inserted row id) pairs the `forEach` visits, by position. */
  function AccountIdPairs(accounts: seq<PluggyAccount>, ids: seq<string>): (e: seq<(string, string)>)
    requires |ids| <= |accounts|
    ensures |e| == |ids|
    ensures forall i :: 0 <= i < |ids| ==> e[i] == (accounts[i].id, ids[i])
  {
    seq(|ids|, i requires 0 <= i < |ids| => (accounts[i].id, ids[i]))
  }

  /** `accountIdMap` after the `forEach`: a later pair with the same demo id overwrites an earlier one. */
  function AccountIdMap(accounts: seq<PluggyAccount>, ids: seq<string>): map<string, string>
    requires |ids| <= |accounts|
  {
    UpsertAll(map[], AccountIdPairs(accounts, ids))
  }

  /**
   * The `forEach` over the inserted rows: the i-th demo account id is mapped to the i-th row id.
   * When more rows come back than there are demo accounts, reading the missing demo account throws
   * (None), after the map was filled for every demo account.
   */
  method BuildAccountIdMap(accounts: seq<PluggyAccount>, ids: seq<string>) returns (m: Option<map<string, string>>)
    ensures m.None? <==> |ids| > |accounts|
    ensures m.Some? ==> m.value == AccountIdMap(accounts, ids)
  {
    var idMap: map<string, string> := map[];
    ghost var pairs := if |ids| <= |accounts| then AccountIdPairs(accounts, ids) else AccountIdPairs(accounts, ids[..|accounts|]);
    var index := 0;
    while index < |ids|
      invariant 0 <= index <= |ids| && index <= |accounts|
      invariant index <= |pairs|
      invariant idMap == UpsertAll(map[], pairs[..index])
    {
      if index >= |accounts| {
        return None;
      }
      assert pairs[..index + 1] == pairs[..index] + [(accounts[index].id, ids[index])];
      UpsertAllSnoc(map[], pairs[..index], accounts[index].id, ids[index]);
      idMap := idMap[accounts[index].id := ids[index]];
      index := index + 1;
    }
    assert pairs[..index] == pairs;
    return Some(idMap);
  }

  /** `accountIdMap.get(accountId) || null`: the mapped row id, or null when there is none or it is empty. */
  function LinkedAccountId(idMap: map<string, string>, accountId: string): (r: Option<string>)
    ensures r.Some? <==> accountId in idMap && idMap[accountId] != ""
    ensures r.Some? ==> r.value == idMap[accountId]
  {
    if accountId in idMap && idMap[accountId] != "" then Some(idMap[accountId]) else None
  }

  /** The `transactions` row the seed inserts: as the sync's, but linked to the local account row. */
  function SeedTransactionRecord(userId: string, idMap: map<string, string>, txn: PluggyTransaction): (r: TransactionRecord)
    ensures r == SyncRoute.SyncTransactionRecord(userId, txn).(bankAccountId := LinkedAccountId(idMap, txn.accountId))
  {
    TransactionRecord(
      userId, LinkedAccountId(idMap, txn.accountId), txn.id, txn.description, txn.amount,
      TransactionTypeOf(txn.kind), txn.category, txn.date)
  }

  /**
   * The `investments` row the seed inserts: the sync's profit rule, but an absent or empty
   * institution name or due date is stored as null.
   */
  function SeedInvestmentRecord(userId: string, inv: PluggyInvestment): (r: InvestmentRecord)
    ensures r.pluggyInvestmentId == inv.id && r.userId == userId
    ensures r.name == inv.name && r.kind == inv.kind && r.currency == inv.currencyCode
    ensures r.initialValue == r.balance == inv.balance && r.currentValue == inv.value
    ensures r.currentValue - r.initialValue == r.profitLoss
    ensures r.profitLossPercentage == ProfitLossPercentage(inv.balance, inv.value)
    ensures r.institution.None? <==> inv.institution.None? || !Truthy(inv.institution.value.name)
    ensures r.dueDate.None? <==> !Truthy(inv.dueDate)
    ensures r.institution.Some? ==> r.institution.value != "" && r.institution == inv.institution.value.name
    ensures r.dueDate.Some? ==> r.dueDate == inv.dueDate
  {
    var institution := if inv.institution.Some? && Truthy(inv.institution.value.name) then inv.institution.value.name else None;
    var dueDate := if Truthy(inv.dueDate) then inv.dueDate else None;
    InvestmentRecord(
      userId, inv.id, inv.name, inv.kind, institution,
      inv.balance, inv.balance, inv.value, ProfitLoss(inv.balance, inv.value),
      ProfitLossPercentage(inv.balance, inv.value), inv.currencyCode, dueDate)
  }

  function SeedTransactionEntries(userId: string, idMap: map<string, string>, txns: seq<PluggyTransaction>)
    : (e: seq<(string, TransactionRecord)>)
    ensures |e| == |txns|
    ensures forall i :: 0 <= i < |e| ==> e[i] == (txns[i].id, SeedTransactionRecord(userId, idMap, txns[i]))
  {
    seq(|txns|, i requires 0 <= i < |txns| => (txns[i].id, SeedTransactionRecord(userId, idMap, txns[i])))
  }

  function SeedInvestmentEntries(userId: string, invs: seq<PluggyInvestment>): (e: seq<(string, InvestmentRecord)>)
    ensures |e| == |invs|
    ensures forall i :: 0 <= i < |e| ==> e[i] == (invs[i].id, SeedInvestmentRecord(userId, invs[i]))
  {
    seq(|invs|, i requires 0 <= i < |invs| => (invs[i].id, SeedInvestmentRecord(userId, invs[i])))
  }

  /** The three tables with every row of the user removed. */
  function Cleared(t: Tables, userId: string): Tables {
    Tables(
      WithoutUser(t.bankAccounts, AccountOwner, userId),
      WithoutUser(t.transactions, TransactionOwner, userId),
      WithoutUser(t.investments, InvestmentOwner, userId))
  }

  /**
   * The tables and the answer after the route ran on `before`. Without a user nothing is touched.
   * Otherwise the user's rows are deleted first; each insert that fails ends the route with 500 and
   * leaves the later tables as the deletion left them.
   */
  function SeedSpec(before: Tables, user: Option<User>, demo: DemoData, outcomes: InsertOutcomes): (Tables, SeedResponse) {
    if user.None? then (before, SeedError(401, "Unauthorized"))
    else
      var uid := user.value.id;
      var cleared := Cleared(before, uid);
      if outcomes.accountIds.None? then (cleared, SeedError(500, "Failed to insert accounts"))
      else
        var ids := outcomes.accountIds.value;
        var accounts := UpsertAll(cleared.bankAccounts, SyncRoute.AccountEntries(uid, demo.accounts));
        if |ids| > |demo.accounts| then (cleared.(bankAccounts := accounts), SeedError(500, "Failed to seed demo data"))
        else
          var idMap := AccountIdMap(demo.accounts, ids);
          if outcomes.transactionsFailed then
            (cleared.(bankAccounts := accounts), SeedError(500, "Failed to insert transactions"))
          else
            var txns := UpsertAll(cleared.transactions, SeedTransactionEntries(uid, idMap, demo.transactions));
            if outcomes.investmentsFailed then
              (Tables(accounts, txns, cleared.investments), SeedError(500, "Failed to insert investments"))
            else
              (Tables(accounts, txns, UpsertAll(cleared.investments, SeedInvestmentEntries(uid, demo.investments))),
               Seeded(|ids|, |demo.transactions|, |demo.investments|))
  }

  /** The route, with the demo records and the insert answers as inputs; it ends as SeedSpec says. */
  method Seed(db: Database, user: Option<User>, demo: DemoData, outcomes: InsertOutcomes) returns (resp: SeedResponse)
    modifies db
    ensures (db.State(), resp) == SeedSpec(old(db.State()), user, demo, outcomes)
  {
    if user.None? {
      return SeedError(401, "Unauthorized");
    }
    var uid := user.value.id;
    db.transactions := WithoutUser(db.transactions, TransactionOwner, uid);
    db.investments := WithoutUser(db.investments, InvestmentOwner, uid);
    db.bankAccounts := WithoutUser(db.bankAccounts, AccountOwner, uid);
    if outcomes.accountIds.None? {
      return SeedError(500, "Failed to insert accounts");
    }
    var ids := outcomes.accountIds.value;
    db.bankAccounts := UpsertAll(db.bankAccounts, SyncRoute.AccountEntries(uid, demo.accounts));
    var idMap := BuildAccountIdMap(demo.accounts, ids);
    if idMap.None? {
      return SeedError(500, "Failed to seed demo data");
    }
    if outcomes.transactionsFailed {
      return SeedError(500, "Failed to insert transactions");
    }
    db.transactions := UpsertAll(db.transactions, SeedTransactionEntries(uid, idMap.value, demo.transactions));
    if outcomes.investmentsFailed {
      return SeedError(500, "Failed to insert investments");
    }
    db.investments := UpsertAll(db.investments, SeedInvestmentEntries(uid, demo.investments));
    return Seeded(|ids|, |demo.transactions|, |demo.investments|);
  }

  /** The demo account ids visited by the `forEach`, i.e. the first |ids| of them. */
  function VisitedDemoIds(accounts: seq<PluggyAccount>, n: nat): set<string>
    requires n <= |accounts|
  {
    set j | 0 <= j < n :: accounts[j].id
  }

  /** The map has exactly the visited demo ids as keys, and a demo id seen once maps to the row id at its position. */
  lemma AccountIdMapAt(accounts: seq<PluggyAccount>, ids: seq<string>, i: nat)
    requires |ids| <= |accounts| && i < |ids|
    requires forall j :: 0 <= j < |ids| && j != i ==> accounts[j].id != accounts[i].id
    ensures AccountIdMap(accounts, ids).Keys == VisitedDemoIds(accounts, |ids|)
    ensures AccountIdMap(accounts, ids)[accounts[i].id] == ids[i]
  {
    var pairs := AccountIdPairs(accounts, ids);
    assert KeysOf(pairs) == VisitedDemoIds(accounts, |ids|) by {
      forall k | k in VisitedDemoIds(accounts, |ids|) ensures k in KeysOf(pairs) {
        var j :| 0 <= j < |ids| && accounts[j].id == k;
        assert pairs[j].0 == k;
      }
    }
    assert pairs[i].0 == accounts[i].id;
    UpsertAllAt(map[], pairs, accounts[i].id);
    assert LastIndex(pairs, accounts[i].id) == i;
  }

  /**
   * Linking a demo transaction: with distinct demo account ids, a transaction of the i-th visited
   * demo account points at the i-th inserted row; a transaction of an account that was not
   * visited gets a null `bank_account_id`.
   */
  lemma SeedLinksTransaction(userId: string, accounts: seq<PluggyAccount>, ids: seq<string>, txn: PluggyTransaction)
    requires |ids| <= |accounts|
    requires forall i, j :: 0 <= i < j < |ids| ==> accounts[i].id != accounts[j].id
    ensures txn.accountId !in VisitedDemoIds(accounts, |ids|) ==>
      SeedTransactionRecord(userId, AccountIdMap(accounts, ids), txn).bankAccountId.None?
    ensures forall i :: 0 <= i < |ids| && txn.accountId == accounts[i].id && ids[i] != "" ==>
      SeedTransactionRecord(userId, AccountIdMap(accounts, ids), txn).bankAccountId == Some(ids[i])
  {
    var pairs := AccountIdPairs(accounts, ids);
    assert KeysOf(pairs) == VisitedDemoIds(accounts, |ids|) by {
      forall k | k in VisitedDemoIds(accounts, |ids|) ensures k in KeysOf(pairs) {
        var j :| 0 <= j < |ids| && accounts[j].id == k;
        assert pairs[j].0 == k;
      }
    }
    forall i | 0 <= i < |ids| && txn.accountId == accounts[i].id && ids[i] != ""
      ensures SeedTransactionRecord(userId, AccountIdMap(accounts, ids), txn).bankAccountId == Some(ids[i])
    {
      AccountIdMapAt(accounts, ids, i);
    }
  }

  /** Without a signed-in user nothing is deleted or written. */
  lemma SeedUnauthorized(before: Tables, demo: DemoData, outcomes: InsertOutcomes)
    ensures SeedSpec(before, None, demo, outcomes) == (before, SeedError(401, "Unauthorized"))
  {
  }

  /**
   * When the account insert fails the user's old data is already gone: no table keeps a row of
   * the user, and every row of another user is where it was.
   */
  lemma SeedAccountInsertFailure(before: Tables, user: Option<User>, demo: DemoData, outcomes: InsertOutcomes)
    requires user.Some? && outcomes.accountIds.None?
    ensures SeedSpec(before, user, demo, outcomes).1 == SeedError(500, "Failed to insert accounts")
    ensures var after := SeedSpec(before, user, demo, outcomes).0;
      && (forall k :: k in after.bankAccounts ==> after.bankAccounts[k].userId != user.value.id)
      && (forall k :: k in after.transactions ==> after.transactions[k].userId != user.value.id)
      && (forall k :: k in after.investments ==> after.investments[k].userId != user.value.id)
    ensures var after := SeedSpec(before, user, demo, outcomes).0;
      && (forall k :: k in before.bankAccounts && before.bankAccounts[k].userId != user.value.id ==>
            k in after.bankAccounts && after.bankAccounts[k] == before.bankAccounts[k])
      && (forall k :: k in before.transactions && before.transactions[k].userId != user.value.id ==>
            k in after.transactions && after.transactions[k] == before.transactions[k])
      && (forall k :: k in before.investments && before.investments[k].userId != user.value.id ==>
            k in after.investments && after.investments[k] == before.investments[k])
  {
  }

  predicate SeedSucceeded(user: Option<User>, demo: DemoData, outcomes: InsertOutcomes) {
    && user.Some?
    && outcomes.accountIds.Some?
    && |outcomes.accountIds.value| <= |demo.accounts|
    && !outcomes.transactionsFailed
    && !outcomes.investmentsFailed
  }

  /** The answer of a seed whose inserts all succeed counts the returned account rows and the demo records. */
  lemma SeedCounts(before: Tables, user: Option<User>, demo: DemoData, outcomes: InsertOutcomes)
    requires SeedSucceeded(user, demo, outcomes)
    ensures SeedSpec(before, user, demo, outcomes).1
      == Seeded(|outcomes.accountIds.value|, |demo.transactions|, |demo.investments|)
  {
  }

  /**
   * A seed whose inserts all succeed leaves the user exactly the demo records, in every table:
   * the user's rows sit under demo ids, every demo id has a row, and the row under a demo id is
   * the user's record built from the last demo record with that id.
   */
  lemma SeedReplacesUserData(before: Tables, user: Option<User>, demo: DemoData, outcomes: InsertOutcomes)
    requires SeedSucceeded(user, demo, outcomes)
    ensures var after := SeedSpec(before, user, demo, outcomes).0;
      && (forall k :: k in after.bankAccounts && after.bankAccounts[k].userId == user.value.id ==>
            k in (set a | a in demo.accounts :: a.id))
      && (forall k :: k in after.transactions && after.transactions[k].userId == user.value.id ==>
            k in (set t | t in demo.transactions :: t.id))
      && (forall k :: k in after.investments && after.investments[k].userId == user.value.id ==>
            k in (set v | v in demo.investments :: v.id))
    ensures var after := SeedSpec(before, user, demo, outcomes).0;
      && (forall i :: 0 <= i < |demo.accounts| ==> demo.accounts[i].id in after.bankAccounts)
      && (forall i :: 0 <= i < |demo.transactions| ==> demo.transactions[i].id in after.transactions)
      && (forall i :: 0 <= i < |demo.investments| ==> demo.investments[i].id in after.investments)
    ensures var after := SeedSpec(before, user, demo, outcomes).0;
      && (forall i :: 0 <= i < |demo.accounts| && SyncRoute.LastAccountWithId(demo.accounts, i) ==>
            after.bankAccounts[demo.accounts[i].id] == AccountRecordOf(user.value.id, demo.accounts[i]))
      && (forall i :: 0 <= i < |demo.transactions| && SyncRoute.LastTransactionWithId(demo.transactions, i) ==>
            after.transactions[demo.transactions[i].id]
              == SeedTransactionRecord(user.value.id, AccountIdMap(demo.accounts, outcomes.accountIds.value), demo.transactions[i]))
      && (forall i :: 0 <= i < |demo.investments| && SyncRoute.LastInvestmentWithId(demo.investments, i) ==>
            after.investments[demo.investments[i].id] == SeedInvestmentRecord(user.value.id, demo.investments[i]))
  {
    var uid := user.value.id;
    var cleared := Cleared(before, uid);
    SeedSpecSucceeds(before, user, demo, outcomes);
    SeedAccountsReplaced(cleared.bankAccounts, uid, demo.accounts);
    SeedTransactionsReplaced(cleared.transactions, uid, AccountIdMap(demo.accounts, outcomes.accountIds.value), demo.transactions);
    SeedInvestmentsReplaced(cleared.investments, uid, demo.investments);
  }

  /** The tables after a seed whose inserts all succeed: the cleared tables with the three batches upserted. */
  lemma SeedSpecSucceeds(before: Tables, user: Option<User>, demo: DemoData, outcomes: InsertOutcomes)
    requires SeedSucceeded(user, demo, outcomes)
    ensures var uid := user.value.id;
      var cleared := Cleared(before, uid);
      && (forall k :: k in cleared.bankAccounts ==> cleared.bankAccounts[k].userId != uid)
      && (forall k :: k in cleared.transactions ==> cleared.transactions[k].userId != uid)
      && (forall k :: k in cleared.investments ==> cleared.investments[k].userId != uid)
      && SeedSpec(before, user, demo, outcomes).0 == Tables(
           UpsertAll(cleared.bankAccounts, SyncRoute.AccountEntries(uid, demo.accounts)),
           UpsertAll(cleared.transactions,
             SeedTransactionEntries(uid, AccountIdMap(demo.accounts, outcomes.accountIds.value), demo.transactions)),
           UpsertAll(cleared.investments, SeedInvestmentEntries(uid, demo.investments)))
  {
  }

  /** The account table after the demo accounts are upserted into a table without rows of the user. */
  lemma SeedAccountsReplaced(cleared: map<string, BankAccountRecord>, uid: string, accounts: seq<PluggyAccount>)
    requires forall k :: k in cleared ==> cleared[k].userId != uid
    ensures var after := UpsertAll(cleared, SyncRoute.AccountEntries(uid, accounts));
      && (forall k :: k in after && after[k].userId == uid ==> k in (set a | a in accounts :: a.id))
      && (forall i :: 0 <= i < |accounts| ==> accounts[i].id in after)
      && (forall i :: 0 <= i < |accounts| && SyncRoute.LastAccountWithId(accounts, i) ==>
            after[accounts[i].id] == AccountRecordOf(uid, accounts[i]))
  {
    var ae := SyncRoute.AccountEntries(uid, accounts);
    var after := UpsertAll(cleared, ae);
    forall k | k in after && after[k].userId == uid ensures k in (set a | a in accounts :: a.id) {
      if k !in KeysOf(ae) {
        UpsertAllAt(cleared, ae, k);
        assert false;
      }
      var j :| 0 <= j < |ae| && ae[j].0 == k;
    }
    forall i | 0 <= i < |accounts| ensures accounts[i].id in after {
      assert ae[i].0 == accounts[i].id;
    }
    forall i | 0 <= i < |accounts| && SyncRoute.LastAccountWithId(accounts, i)
      ensures after[accounts[i].id] == AccountRecordOf(uid, accounts[i])
    {
      UpsertAllLast(cleared, ae, i);
    }
  }

  /** The transaction table after the demo transactions are upserted into a table without rows of the user. */
  lemma SeedTransactionsReplaced(
    cleared: map<string, TransactionRecord>, uid: string, idMap: map<string, string>, txns: seq<PluggyTransaction>)
    requires forall k :: k in cleared ==> cleared[k].userId != uid
    ensures var after := UpsertAll(cleared, SeedTransactionEntries(uid, idMap, txns));
      && (forall k :: k in after && after[k].userId == uid ==> k in (set t | t in txns :: t.id))
      && (forall i :: 0 <= i < |txns| ==> txns[i].id in after)
      && (forall i :: 0 <= i < |txns| && SyncRoute.LastTransactionWithId(txns, i) ==>
            after[txns[i].id] == SeedTransactionRecord(uid, idMap, txns[i]))
  {
    var te := SeedTransactionEntries(uid, idMap, txns);
    var after := UpsertAll(cleared, te);
    forall k | k in after && after[k].userId == uid ensures k in (set t | t in txns :: t.id) {
      if k !in KeysOf(te) {
        UpsertAllAt(cleared, te, k);
        assert false;
      }
      var j :| 0 <= j < |te| && te[j].0 == k;
    }
    forall i | 0 <= i < |txns| ensures txns[i].id in after {
      assert te[i].0 == txns[i].id;
    }
    forall i | 0 <= i < |txns| && SyncRoute.LastTransactionWithId(txns, i)
      ensures after[txns[i].id] == SeedTransactionRecord(uid, idMap, txns[i])
    {
      UpsertAllLast(cleared, te, i);
    }
  }

  /** The investment table after the demo investments are upserted into a table without rows of the user. */
  lemma SeedInvestmentsReplaced(cleared: map<string, InvestmentRecord>, uid: string, invs: seq<PluggyInvestment>)
    requires forall k :: k in cleared ==> cleared[k].userId != uid
    ensures var after := UpsertAll(cleared, SeedInvestmentEntries(uid, invs));
      && (forall k :: k in after && after[k].userId == uid ==> k in (set v | v in invs :: v.id))
      && (forall i :: 0 <= i < |invs| ==> invs[i].id in after)
      && (forall i :: 0 <= i < |invs| && SyncRoute.LastInvestmentWithId(invs, i) ==>
            after[invs[i].id] == SeedInvestmentRecord(uid, invs[i]))
  {
    var ie := SeedInvestmentEntries(uid, invs);
    var after := UpsertAll(cleared, ie);
    forall k | k in after && after[k].userId == uid ensures k in (set v | v in invs :: v.id) {
      if k !in KeysOf(ie) {
        UpsertAllAt(cleared, ie, k);
        assert false;
      }
      var j :| 0 <= j < |ie| && ie[j].0 == k;
    }
    forall i | 0 <= i < |invs| ensures invs[i].id in after {
      assert ie[i].0 == invs[i].id;
    }
    forall i | 0 <= i < |invs| && SyncRoute.LastInvestmentWithId(invs, i)
      ensures after[invs[i].id] == SeedInvestmentRecord(uid, invs[i])
    {
      UpsertAllLast(cleared, ie, i);
    }
  }
}
