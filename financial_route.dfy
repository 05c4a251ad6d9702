/** The financial route (`GET /api/financial`): with a banking API key it
    reads the first account and its purchases, turning the first three
    purchases into negative transactions; without a key, without an account,
    or when a request fails it answers with the mock record instead. */
module FinancialRoute {
  import opened Http
  import opened Types

  const DEFAULT_CUSTOMER: string := "demo"
  const DEFAULT_NICKNAME: string := "Farm Savings Account"
  const MAX_TRANSACTIONS: nat := 3
  const FAILURE_MESSAGE: string := "Failed to fetch financial data"

  datatype Account = Account(id: string, nickname: Option<string>, balance: real)

  datatype Purchase = Purchase(transactionDate: string, description: string, amount: real)

  /** A purchase as a transaction: the date and description are copied and
      the amount is negated, so a positive purchase becomes a debit. */
  function ToTransaction(p: Purchase): (t: Transaction)
    ensures t.date == p.transactionDate && t.description == p.description
    ensures t.amount + p.amount == 0.0
    ensures p.amount > 0.0 <==> t.amount < 0.0
  {
    Transaction(p.transactionDate, p.description, -p.amount)
  }

  /** `purchases.slice(0, 3).map(...)`. */
  function MapTransactions(purchases: seq<Purchase>): (ts: seq<Transaction>)
    ensures |ts| == if |purchases| < MAX_TRANSACTIONS then |purchases| else MAX_TRANSACTIONS
    ensures forall i :: 0 <= i < |ts| ==>
              (ts[i].date == purchases[i].transactionDate && ts[i].description == purchases[i].description
               && ts[i].amount == -purchases[i].amount)
  {
    var kept := if |purchases| < MAX_TRANSACTIONS then purchases else purchases[..MAX_TRANSACTIONS];
    seq(|kept|, i requires 0 <= i < |kept| => ToTransaction(kept[i]))
  }

  /** `let transactions = []`, replaced by the mapped purchases when that
      request is ok. */
  function LiveTransactions(purchases: Fetch<seq<Purchase>>): (ts: seq<Transaction>)
    requires !purchases.Threw?
    ensures |ts| <= MAX_TRANSACTIONS
    ensures purchases.NotOk? ==> ts == []
    ensures purchases.Ok? ==> |ts| <= |purchases.body|
                              && forall i :: 0 <= i < |ts| ==> ts[i] == ToTransaction(purchases.body[i])
  {
    if purchases.Ok? then MapTransactions(purchases.body) else []
  }

  /** `account.nickname || "Farm Savings Account"`. */
  function Nickname(a: Account): (n: string)
    ensures a.nickname.Some? && a.nickname.value != "" ==> n == a.nickname.value
    ensures a.nickname.None? || a.nickname == Some("") ==> n == DEFAULT_NICKNAME
  {
    if a.nickname.Some? && a.nickname.value != "" then a.nickname.value else DEFAULT_NICKNAME
  }

  /** Whether the live path answers: the key is set, the account request is
      ok, there is a first account, and the purchases request did not throw. */
  predicate UsesLiveData(apiKey: Option<string>, accounts: Fetch<seq<Account>>, purchases: Fetch<seq<Purchase>>)
    ensures !Configured(apiKey) ==> !UsesLiveData(apiKey, accounts, purchases)
    ensures accounts.Threw? || accounts.NotOk? || purchases.Threw? ==> !UsesLiveData(apiKey, accounts, purchases)
    ensures accounts == Ok([]) ==> !UsesLiveData(apiKey, accounts, purchases)
  {
    Configured(apiKey) && accounts.Ok? && |accounts.body| > 0 && !purchases.Threw?
  }

  /** The whole handler. `accounts` and `purchases` are the results of the two
      banking requests; `mock` is the fallback record. */
  function Get(req: Request, apiKey: Option<string>, accounts: Fetch<seq<Account>>,
               purchases: Fetch<seq<Purchase>>, mock: FinancialData): (r: Response<FinancialData>)
    ensures r.success <==> req.url.Some?
    ensures r.success ==> r.status == 200 && r.data.Some?
                          && r.data.value.customerId == ParamOr(req.url.value, "customerId", DEFAULT_CUSTOMER)
    ensures !r.success ==> r == Failure(500, FAILURE_MESSAGE)
    ensures r.success && !UsesLiveData(apiKey, accounts, purchases) ==>
              r.data.value == mock.(customerId := r.data.value.customerId)
  {
    match req.url
    case None => Failure(500, FAILURE_MESSAGE)
    case Some(q) =>
      var customerId := ParamOr(q, "customerId", DEFAULT_CUSTOMER);
      if UsesLiveData(apiKey, accounts, purchases) then
        var account := accounts.body[0];
        Success(FinancialData(customerId, account.id, Nickname(account), account.balance,
                              LiveTransactions(purchases)))
      else
        Success(mock.(customerId := customerId))
  }

  // ---------------------------------------------------------------------
  // Properties of the route

  /** The first three purchases, in order, each amount negated. */
  lemma TransactionsArePrefix(purchases: seq<Purchase>)
    ensures |MapTransactions(purchases)| <= 3
    ensures forall i :: 0 <= i < |MapTransactions(purchases)| ==>
              MapTransactions(purchases)[i] == ToTransaction(purchases[i])
    ensures forall i :: 0 <= i < |MapTransactions(purchases)| && purchases[i].amount > 0.0 ==>
              MapTransactions(purchases)[i].amount < 0.0
  {
  }

  /** Mapping more purchases never changes the first transactions. */
  lemma TransactionsIgnoreTail(purchases: seq<Purchase>, more: seq<Purchase>)
    requires |purchases| >= 3
    ensures MapTransactions(purchases + more) == MapTransactions(purchases)
  {
    assert (purchases + more)[..3] == purchases[..3];
  }

  /** The live record: first account, nickname default, the customer echoed,
      and no transactions when the purchases request was not ok. */
  lemma LiveRecord(q: Query, apiKey: Option<string>, accounts: seq<Account>, purchases: Fetch<seq<Purchase>>,
                   mock: FinancialData)
    requires Configured(apiKey) && |accounts| > 0 && !purchases.Threw?
    ensures var r := Get(Request(Some(q)), apiKey, Ok(accounts), purchases, mock);
            r.data.Some?
            && r.data.value.accountId == accounts[0].id
            && r.data.value.balance == accounts[0].balance
            && r.data.value.nickname == Nickname(accounts[0])
            && r.data.value.customerId == ParamOr(q, "customerId", "demo")
            && (purchases.NotOk? ==> r.data.value.transactions == [])
            && (purchases.Ok? ==> r.data.value.transactions == MapTransactions(purchases.body))
  {
  }

  /** Without a key, without a first account, or when a banking request
      throws, the mock record answers with success, carrying the requested
      customer id. */
  lemma MockFallback(q: Query, apiKey: Option<string>, accounts: Fetch<seq<Account>>,
                     purchases: Fetch<seq<Purchase>>, mock: FinancialData)
    requires !Configured(apiKey) || !accounts.Ok? || accounts.body == [] || purchases.Threw?
    ensures Get(Request(Some(q)), apiKey, accounts, purchases, mock)
            == Success(mock.(customerId := ParamOr(q, "customerId", "demo")))
  {
  }
}
