/**
 * The Pluggy API client: the records the API returns, the API-key cache kept by the
 * client object, and how request bodies and query strings are assembled.
 * The HTTP exchanges themselves are inputs: each method receives the response it would have read.
 */
module PluggyClient {
  import opened Wrappers
  import opened JsValues

  /** An account as Pluggy returns it; `kind` is its `type` field ("BANK", "CREDIT", ...). */
  datatype PluggyAccount = PluggyAccount(
    id: string,
    itemId: string,
    kind: string,
    subtype: string,
    name: string,
    balance: real,
    currencyCode: string,
    number: Option<string>,
    marketingName: Option<string>)

  /** A transaction as Pluggy returns it; `kind` is its `type` field ("DEBIT" or "CREDIT"). */
  datatype PluggyTransaction = PluggyTransaction(
    id: string,
    accountId: string,
    description: string,
    currencyCode: string,
    amount: real,
    date: string,
    balance: real,
    category: Option<string>,
    kind: string)

  /** The optional `institution` object of an investment. */
  datatype Institution = Institution(name: Option<string>)

  /** An investment as Pluggy returns it; `kind` is its `type` field. */
  datatype PluggyInvestment = PluggyInvestment(
    id: string,
    itemId: string,
    name: string,
    kind: string,
    balance: real,
    currencyCode: string,
    value: real,
    dueDate: Option<string>,
    institution: Option<Institution>)

  /** The identity (owner data) of an item. */
  datatype PluggyIdentity = PluggyIdentity(
    id: string,
    itemId: string,
    fullName: Option<string>,
    cpf: Option<string>,
    birthDate: Option<string>,
    email: Option<string>)

  /** The outcome of a client call made by a route: the parsed JSON, or an exception. */
  datatype Fetch<T> = Fetched(value: T) | Threw

  /** The password of Pluggy's sandbox test user. */
  const SandboxPassword: string := "password-ok"

  /** An API key is valid for two hours: 2 · 60 · 60 · 1000 milliseconds. */
  const ApiKeyLifetimeMs: nat := 2 * 60 * 60 * 1000

  /** What `POST /auth` answered: its `ok` flag, status text and, when ok, the key. */
  datatype AuthResponse = AuthResponse(ok: bool, statusText: string, apiKey: string)

  /** The cached key may be reused at time `now`: it is set, non-empty, and not yet expired. */
  predicate KeyIsFresh(apiKey: Option<string>, apiKeyExpiry: Option<nat>, now: nat) {
    Truthy(apiKey) && apiKeyExpiry.Some? && now < apiKeyExpiry.value
  }

  /** A key obtained at time `issued` is reused exactly until two hours later, and never when it is empty. */
  lemma FreshKeyWindow(key: string, issued: nat, now: nat)
    ensures KeyIsFresh(Some(key), Some(issued + ApiKeyLifetimeMs), now)
        <==> key != "" && now < issued + 7200000
  {
  }

  /** The client object: it keeps the last API key and when it expires (milliseconds since the epoch). */
  class Client {
    var apiKey: Option<string>
    var apiKeyExpiry: Option<nat>

    constructor ()
      ensures apiKey == None && apiKeyExpiry == None
    {
      apiKey := None;
      apiKeyExpiry := None;
    }

    /** The cache would answer a request made at time `now`. */
    predicate HasFreshKey(now: nat)
      reads this
    {
      KeyIsFresh(apiKey, apiKeyExpiry, now)
    }

    /**
     * `authenticate()` called at time `now` (the clock read of the freshness test). `fetched` tells
     * whether `POST /auth` was sent; `response` is what it would answer, read at time `answeredAt`.
     * A fresh cached key is returned without a request; otherwise the answer's key is cached for two
     * hours from `answeredAt`, and a failed answer is an error that leaves the cache alone.
     */
    method Authenticate(now: nat, answeredAt: nat, response: AuthResponse) returns (r: Result<string, string>, fetched: bool)
      requires now <= answeredAt
      modifies this
      ensures fetched <==> !old(HasFreshKey(now))
      ensures !fetched ==> r == Ok(old(apiKey).value) && apiKey == old(apiKey) && apiKeyExpiry == old(apiKeyExpiry)
      ensures fetched && response.ok ==>
        r == Ok(response.apiKey) && apiKey == Some(response.apiKey) && apiKeyExpiry == Some(answeredAt + ApiKeyLifetimeMs)
      ensures fetched && !response.ok ==>
        r == Err("Pluggy authentication failed: " + response.statusText)
        && apiKey == old(apiKey) && apiKeyExpiry == old(apiKeyExpiry)
    {
      if Truthy(apiKey) && apiKeyExpiry.Some? && now < apiKeyExpiry.value {
        return Ok(apiKey.value), false;
      }
      fetched := true;
      if !response.ok {
        return Err("Pluggy authentication failed: " + response.statusText), fetched;
      }
      apiKey := Some(response.apiKey);
      apiKeyExpiry := Some(answeredAt + ApiKeyLifetimeMs);
      r := Ok(apiKey.value);
    }
  }

  /** The JSON body of `POST /connect_token`: `itemId` is added only when a truthy one is given. */
  method ConnectTokenBody(itemId: Option<string>) returns (body: map<string, string>)
    ensures body.Keys <= {"itemId"}
    ensures "itemId" in body <==> Truthy(itemId)
    ensures "itemId" in body ==> body["itemId"] == itemId.value
  {
    body := map[];
    if Truthy(itemId) {
      body := body["itemId" := itemId.value];
    }
  }

  /** The query of `GET /connectors`; the `sandbox` flag defaults to true. */
  method ConnectorsQuery(sandbox: bool := true) returns (params: seq<(string, string)>)
    ensures sandbox <==> params == [("sandbox", "true")]
    ensures !sandbox <==> params == []
  {
    params := [];
    if sandbox {
      params := params + [("sandbox", "true")];
    }
  }

  /** The optional arguments of `getTransactions`; page numbers are integers here. */
  datatype TransactionOptions = TransactionOptions(
    from: Option<string>,
    to: Option<string>,
    pageSize: Option<int>,
    page: Option<int>)

  /** The place of each parameter name in the order `getTransactions` appends them. */
  function ParamRank(name: string): nat {
    match name
    case "accountId" => 0
    case "from" => 1
    case "to" => 2
    case "pageSize" => 3
    case "page" => 4
    case _ => 5
  }

  /** The query holds parameter `name` with value `value`. */
  predicate HasParam(params: seq<(string, string)>, name: string, value: string) {
    exists i :: 0 <= i < |params| && params[i] == (name, value)
  }

  /** The query holds parameter `name` with some value. */
  predicate HasName(params: seq<(string, string)>, name: string) {
    exists i :: 0 <= i < |params| && params[i].0 == name
  }

  /** Every parameter of the query comes before position `rank` in the append order. */
  predicate RanksBelow(params: seq<(string, string)>, rank: nat) {
    forall i :: 0 <= i < |params| ==> ParamRank(params[i].0) < rank
  }

  /** The parameters appear in the append order, each at most once. */
  predicate Ordered(params: seq<(string, string)>) {
    forall i, j :: 0 <= i < j < |params| ==> ParamRank(params[i].0) < ParamRank(params[j].0)
  }

  /**
   * `if (present) params.append(name, value)` for the parameter of rank `rank`: the query stays
   * ordered, gains the parameter exactly when it is present, and nothing else changes.
   */
  method AppendIf(params: seq<(string, string)>, present: bool, name: string, value: string)
    returns (r: seq<(string, string)>)
    requires Ordered(params) && RanksBelow(params, ParamRank(name))
    ensures Ordered(r) && RanksBelow(r, ParamRank(name) + 1)
    ensures |r| >= |params| && forall i :: 0 <= i < |params| ==> r[i] == params[i]
    ensures HasName(r, name) <==> present
    ensures present ==> HasParam(r, name, value)
    ensures forall n :: n != name ==> (HasName(r, n) <==> HasName(params, n))
    ensures forall n, v :: HasParam(params, n, v) ==> HasParam(r, n, v)
  {
    r := params;
    if present {
      r := r + [(name, value)];
      assert r[|params|] == (name, value);
    }
  }

  /**
   * The query of `GET /transactions`: `accountId` first, then `from`, `to`, `pageSize` and `page`,
   * each present only when its option is truthy, and no other parameter.
   */
  method TransactionsQuery(accountId: string, options: TransactionOptions) returns (params: seq<(string, string)>)
    ensures |params| >= 1 && params[0] == ("accountId", accountId)
    ensures Ordered(params) && RanksBelow(params, 5)
    ensures HasName(params, "from") <==> Truthy(options.from)
    ensures HasName(params, "to") <==> Truthy(options.to)
    ensures HasName(params, "pageSize") <==> TruthyNumber(options.pageSize)
    ensures HasName(params, "page") <==> TruthyNumber(options.page)
    ensures Truthy(options.from) ==> HasParam(params, "from", options.from.value)
    ensures Truthy(options.to) ==> HasParam(params, "to", options.to.value)
    ensures TruthyNumber(options.pageSize) ==> HasParam(params, "pageSize", IntToString(options.pageSize.value))
    ensures TruthyNumber(options.page) ==> HasParam(params, "page", IntToString(options.page.value))
  {
    params := [("accountId", accountId)];
    var p1 := AppendIf(params, Truthy(options.from), "from", options.from.GetOr(""));
    var p2 := AppendIf(p1, Truthy(options.to), "to", options.to.GetOr(""));
    var p3 := AppendIf(p2, TruthyNumber(options.pageSize), "pageSize", IntToString(options.pageSize.GetOr(0)));
    var p4 := AppendIf(p3, TruthyNumber(options.page), "page", IntToString(options.page.GetOr(0)));
    params := p4;
  }
}
