/** The three read-side endpoints of index.js: the accounts of a customer (94-119), the balances
    of the linked partner accounts (291-327) and the filtered transaction history (329-380). */
module Queries {
  import opened Wrappers
  import opened Models
  import opened OrderedMaps
  import opened LedgerStore
  import opened BankZ
  import opened Requests
  import opened Seqs
  import opened Onboarding

  // ---------------------------------------------------------------------------------------
  // GET /api/customers/:customerId/accounts

  const NoAccountsMessage: string := "No accounts found for customer"

  /** index.js:94-119. The JSON rendering of each account (the ISO date) is not modelled: the
      payload is the accounts themselves. */
  function ListAccountsResult(l: Ledger, customerId: string): Reply<seq<Account>>
    requires l.accounts.Valid()
  {
    if customerId !in l.customers then NotFound(CustomerNotFoundMessage)
    else if |l.AccountsOf(customerId)| == 0 then NotFound(NoAccountsMessage)
    else Okay(l.AccountsOf(customerId))
  }

  /** An unknown customer gets 404 "Customer not found"; a known one with no account gets 404
      "No accounts found for customer"; otherwise the answer lists exactly the stored accounts
      the customer owns, in the store's order. */
  lemma ListAccountsExactly(l: Ledger, customerId: string, a: Account)
    requires l.Valid()
    ensures var r := ListAccountsResult(l, customerId);
      && (customerId !in l.customers <==> r == NotFound(CustomerNotFoundMessage))
      && (r == NotFound(NoAccountsMessage) <==> customerId in l.customers && l.AccountsOf(customerId) == [])
      && (r.Okay? ==> |r.value| > 0 && r.value == l.AccountsOf(customerId))
      && (r.Okay? ==> (a in r.value <==> a.id in l.accounts.entries && l.accounts.entries[a.id] == a
                                         && a.customerId == customerId))
      && (r.Okay? ==> IsSubsequence(r.value, l.accounts.Values()))
      && (r.Okay? || r.NotFound?)
  {
    AccountsOfExactly(l, customerId, a);
  }

  /** A customer just onboarded is answered with the current account and then the savings
      account. */
  lemma OnboardedCustomerIsListed(l: Ledger, req: CustomerRequest, ids: OnboardingIds, now: nat)
    requires l.Valid() && Onboarding.IdsFresh(l, ids)
    ensures OpenAccounts(l, req, ids, now).accounts.Valid()
    ensures ListAccountsResult(OpenAccounts(l, req, ids, now), ids.customer)
            == Okay([NewCurrentAccount(ids, now), NewSavingsAccount(ids, now)])
  {
    NewCustomerAccounts(l, req, ids, now);
    OpenAccountsSteps(l, req, ids, now);
  }

  method HandleListAccounts(store: Store, customerId: string) returns (reply: Reply<seq<Account>>)
    requires store.Valid()
    ensures reply == ListAccountsResult(store.View(), customerId)
  {
    var customer := store.GetCustomerById(customerId);
    if customer.None? {
      return NotFound(CustomerNotFoundMessage);
    }
    var accounts := store.GetAccountsByCustomerId(customerId);
    if |accounts| == 0 {
      return NotFound(NoAccountsMessage);
    }
    reply := Okay(accounts);
  }

  // ---------------------------------------------------------------------------------------
  // GET /api/customers/:customerId/bankz/balances

  /** The partner accounts every customer is shown. */
  const LinkedAccountIds: seq<string> := ["bankz-acc-123", "bankz-acc-456"]

  datatype Balance = Balance(accountId: string, balance: real)

  /** The balances of the accounts `ids` the partner reports, in order; an account whose
      lookup fails is skipped. */
  function BalancesOf(p: Partner, ids: seq<string>, token: string, now: nat): seq<Balance>
  {
    if ids == [] then []
    else
      var id := ids[|ids| - 1];
      BalancesOf(p, ids[..|ids| - 1], token, now)
      + (match p.GetBalance(id, token, now)
         case Ok(b) => [Balance(id, b)]
         case Err(_) => [])
  }

  /** The account ids of `bs`, in order. */
  function AccountIds(bs: seq<Balance>): seq<string>
  {
    if bs == [] then [] else AccountIds(bs[..|bs| - 1]) + [bs[|bs| - 1].accountId]
  }

  lemma AccountIdsSnoc(bs: seq<Balance>, b: Balance)
    ensures AccountIds(bs + [b]) == AccountIds(bs) + [b.accountId]
  {
    assert (bs + [b])[..|bs|] == bs;
  }

  /** The predicate "the partner has this account" as a function value. */
  function IsPartnerAccount(p: Partner): string -> bool
  {
    id => id in p.accounts
  }

  /** With a token the partner accepts, the entries are, in the order of `ids` and once per
      position, the listed accounts the partner has, each with the partner's balance; with a
      token it rejects, nothing is reported. */
  lemma {:induction false} BalancesOfExactly(p: Partner, ids: seq<string>, token: string, now: nat, e: Balance)
    ensures |BalancesOf(p, ids, token, now)| <= |ids|
    ensures p.ValidateToken(token, now).Fail? ==> BalancesOf(p, ids, token, now) == []
    ensures p.ValidateToken(token, now) == Pass ==>
              AccountIds(BalancesOf(p, ids, token, now)) == Filter(ids, IsPartnerAccount(p))
    ensures p.ValidateToken(token, now) == Pass ==>
              (e in BalancesOf(p, ids, token, now)
               <==> e.accountId in ids && e.accountId in p.accounts && e.balance == p.accounts[e.accountId])
  {
    if ids != [] {
      var init := ids[..|ids| - 1];
      var id := ids[|ids| - 1];
      BalancesOfExactly(p, init, token, now, e);
      assert ids == init + [id];
      FilterSnoc(init, id, IsPartnerAccount(p));
      match p.GetBalance(id, token, now)
      case Ok(b) => AccountIdsSnoc(BalancesOf(p, init, token, now), Balance(id, b));
      case Err(_) => assert BalancesOf(p, ids, token, now) == BalancesOf(p, init, token, now);
    }
  }

  /** index.js:291-327, from the ledger `l` and the partner `p` at the instant `now`. */
  function PartnerBalancesResult(l: Ledger, p: Partner, customerId: string, now: nat): (Partner, Reply<seq<Balance>>)
  {
    if customerId !in l.customers then (p, NotFound(CustomerNotFoundMessage))
    else
      var (p1, token) := p.GetToken(now);
      if token.Err? then (p1, ServerError(AuthFailedMessage))
      else (p1, Okay(BalancesOf(p1, LinkedAccountIds, token.value, now)))
  }

  /** The balances answer reports each linked account the partner has, with its balance, and
      nothing else; the only state it changes is the partner's cached token. */
  lemma PartnerBalancesExactly(l: Ledger, p: Partner, customerId: string, now: nat, e: Balance)
    requires p.Valid()
    ensures var (p', r) := PartnerBalancesResult(l, p, customerId, now);
      && p'.Valid() && p'.accounts == p.accounts
      && (p' == p || p' == p.GetToken(now).0)
      && (r.Okay? <==> customerId in l.customers && p.GetToken(now).1.Ok?)
      && (r.Okay? ==> AccountIds(r.value) == Filter(LinkedAccountIds, IsPartnerAccount(p)))
      && (r.Okay? ==> (e in r.value <==> e.accountId in LinkedAccountIds && e.accountId in p.accounts
                                         && e.balance == p.accounts[e.accountId]))
  {
    GetTokenIssuesAcceptedToken(p, now);
    var (p1, token) := p.GetToken(now);
    if token.Ok? {
      BalancesOfExactly(p1, LinkedAccountIds, token.value, now, e);
    }
  }

  /** With the mock's own accounts both linked balances are reported, in order. */
  lemma InitialPartnerBalances(l: Ledger, customerId: string, now: nat)
    requires customerId in l.customers
    ensures PartnerBalancesResult(l, InitialPartner(), customerId, now).1
            == Okay([Balance("bankz-acc-123", 1000.0), Balance("bankz-acc-456", 500.0)])
  {
    var (p1, token) := InitialPartner().GetToken(now);
    var ids := LinkedAccountIds;
    assert p1.ValidateToken(token.value, now) == Pass;
    assert p1.GetBalance(ids[0], token.value, now) == Ok(1000.0);
    assert p1.GetBalance(ids[1], token.value, now) == Ok(500.0);
    assert ids[..1][..0] == [];
    assert BalancesOf(p1, ids[..1], token.value, now) == [Balance(ids[0], 1000.0)];
    assert ids[..|ids| - 1] == ids[..1];
    assert BalancesOf(p1, ids, token.value, now) == [Balance(ids[0], 1000.0), Balance(ids[1], 500.0)];
    assert PartnerBalancesResult(l, InitialPartner(), customerId, now).1 == Okay(BalancesOf(p1, ids, token.value, now));
  }

  method HandlePartnerBalances(store: Store, bank: MockClient, customerId: string, now: nat)
    returns (reply: Reply<seq<Balance>>)
    requires bank.Valid()
    modifies bank
    ensures bank.Valid()
    ensures (bank.State(), reply) == PartnerBalancesResult(store.View(), old(bank.State()), customerId, now)
  {
    var customer := store.GetCustomerById(customerId);
    if customer.None? {
      return NotFound(CustomerNotFoundMessage);
    }
    var token := bank.GetToken(now);
    if token.Err? {
      return ServerError(AuthFailedMessage);
    }
    ghost var partner := bank.State();
    var balances: seq<Balance> := [];
    for i := 0 to |LinkedAccountIds|
      invariant bank.State() == partner
      invariant balances == BalancesOf(partner, LinkedAccountIds[..i], token.value, now)
    {
      assert LinkedAccountIds[..i + 1][..i] == LinkedAccountIds[..i];
      var balance := bank.GetBalance(LinkedAccountIds[i], token.value, now);
      if balance.Ok? {
        balances := balances + [Balance(LinkedAccountIds[i], balance.value)];
      }
    }
    assert LinkedAccountIds[..|LinkedAccountIds|] == LinkedAccountIds;
    reply := Okay(balances);
  }

  // ---------------------------------------------------------------------------------------
  // GET /api/customers/:customerId/transactions

  /** A query parameter filters only when it is truthy: given, and not the empty string. */
  predicate Given(q: Option<string>)
  {
    q.Some? && q.value != ""
  }

  /** The predicate of the `filter` call at index.js:352-360, as a function value. */
  function MatchesQuery(accountId: Option<string>, kind: Option<string>): Transaction -> bool
  {
    (t: Transaction) =>
      && (!Given(accountId) || t.accountId == accountId.value)
      && (!Given(kind) || TypeName(t.kind) == kind.value)
  }

  /** A record as the answer renders it: the type as its string, an absent counterpart as the
      empty string. The ISO rendering of `createdAt` is not modelled. */
  datatype TransactionRow = TransactionRow(
    id: string,
    accountId: string,
    customerId: string,
    kind: string,
    amount: real,
    fromAccountId: string,
    toAccountId: string,
    createdAt: int)

  /** `value || ''` */
  function OrEmpty(v: Option<string>): string
  {
    if v.Some? then v.value else ""
  }

  function Row(t: Transaction): TransactionRow
  {
    TransactionRow(t.id, t.accountId, t.customerId, TypeName(t.kind), t.amount,
                   OrEmpty(t.fromAccountId), OrEmpty(t.toAccountId), t.createdAt)
  }

  /** The `map` call at index.js:363-372. */
  function Rows(ts: seq<Transaction>): seq<TransactionRow>
  {
    seq(|ts|, i requires 0 <= i < |ts| => Row(ts[i]))
  }

  /** The records the answer lists: those of the customer's accounts that pass both filters. */
  function SelectedTransactions(l: Ledger, customerId: string, accountId: Option<string>, kind: Option<string>)
    : seq<Transaction>
    requires l.accounts.Valid() && l.transactions.Valid()
  {
    Filter(l.TransactionsOf(customerId), MatchesQuery(accountId, kind))
  }

  /** index.js:329-380 */
  function ListTransactionsResult(l: Ledger, customerId: string, accountId: Option<string>, kind: Option<string>)
    : Reply<seq<TransactionRow>>
    requires l.accounts.Valid() && l.transactions.Valid()
  {
    if customerId !in l.customers then NotFound(CustomerNotFoundMessage)
    else if |l.TransactionsOf(customerId)| == 0 then Okay([])
    else Okay(Rows(SelectedTransactions(l, customerId, accountId, kind)))
  }

  /** The early answer for a customer without records is the one the filter would give: for a
      known customer the answer is always the rendering of the selected records. */
  lemma ListTransactionsShortcut(l: Ledger, customerId: string, accountId: Option<string>, kind: Option<string>)
    requires l.Valid()
    ensures ListTransactionsResult(l, customerId, accountId, kind)
            == if customerId in l.customers then Okay(Rows(SelectedTransactions(l, customerId, accountId, kind)))
               else NotFound(CustomerNotFoundMessage)
  {
    if |l.TransactionsOf(customerId)| == 0 {
      assert SelectedTransactions(l, customerId, accountId, kind) == [];
      assert Rows([]) == [];
    }
  }

  /** A record is listed exactly when it is stored, it is on an account the customer owns, and
      it passes each filter that is given; the listing keeps the store's order. */
  lemma SelectedExactly(l: Ledger, customerId: string, accountId: Option<string>, kind: Option<string>, t: Transaction)
    requires l.Valid()
    ensures t in SelectedTransactions(l, customerId, accountId, kind)
            <==> && t in l.transactions.Values()
                 && t.accountId in l.accounts.entries
                 && l.accounts.entries[t.accountId].customerId == customerId
                 && (Given(accountId) ==> t.accountId == accountId.value)
                 && (Given(kind) ==> TypeName(t.kind) == kind.value)
    ensures IsSubsequence(SelectedTransactions(l, customerId, accountId, kind), l.transactions.Values())
  {
    var ts := l.TransactionsOf(customerId);
    var matches := MatchesQuery(accountId, kind);
    TransactionsOfExactly(l, customerId, t);
    FilterMembership(ts, matches, t);
    FilterIsSubsequence(ts, matches);
    SubsequenceTransitive(Filter(ts, matches), ts, l.transactions.Values());
  }

  /** Without filters (absent or empty parameters) every record of the customer is listed. */
  lemma UnfilteredListsAll(l: Ledger, customerId: string, accountId: Option<string>, kind: Option<string>)
    requires l.Valid() && !Given(accountId) && !Given(kind)
    ensures SelectedTransactions(l, customerId, accountId, kind) == l.TransactionsOf(customerId)
  {
    FilterAll(l.TransactionsOf(customerId), MatchesQuery(accountId, kind));
  }

  /** A type filter naming no type the handlers write, such as "payment", lists nothing. */
  lemma UnknownTypeListsNothing(l: Ledger, customerId: string, accountId: Option<string>, kind: Option<string>)
    requires l.Valid() && Given(kind) && kind.value !in TypeNames
    ensures SelectedTransactions(l, customerId, accountId, kind) == []
  {
    var s := SelectedTransactions(l, customerId, accountId, kind);
    if s != [] {
      var t := s[0];
      FilterMembership(l.TransactionsOf(customerId), MatchesQuery(accountId, kind), t);
      TypeNamesListed(t.kind);
      assert false;
    }
  }

  /** Each row renders its record: the same id, account, amount and type name, and the empty
      string exactly where a counterpart is absent or empty. */
  lemma RowsRender(ts: seq<Transaction>, i: nat)
    requires i < |ts|
    ensures |Rows(ts)| == |ts|
    ensures var (row, t) := (Rows(ts)[i], ts[i]);
      && row.id == t.id && row.accountId == t.accountId && row.customerId == t.customerId
      && row.amount == t.amount && row.createdAt == t.createdAt
      && row.kind == TypeName(t.kind)
      && (row.fromAccountId == "" <==> t.fromAccountId.None? || t.fromAccountId.value == "")
      && (row.toAccountId == "" <==> t.toAccountId.None? || t.toAccountId.value == "")
  {
  }

  method HandleListTransactions(store: Store, customerId: string, accountId: Option<string>, kind: Option<string>)
    returns (reply: Reply<seq<TransactionRow>>)
    requires store.Valid()
    ensures reply == ListTransactionsResult(store.View(), customerId, accountId, kind)
  {
    var customer := store.GetCustomerById(customerId);
    if customer.None? {
      return NotFound(CustomerNotFoundMessage);
    }
    var transactions := store.GetTransactionsByCustomerId(customerId);
    if |transactions| == 0 {
      return Okay([]);
    }
    transactions := Filter(transactions, MatchesQuery(accountId, kind));
    reply := Okay(Rows(transactions));
  }
}
