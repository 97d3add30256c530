/** index.js:21-92, POST /api/customers: onboarding. A valid request creates the customer, an
    empty current account, a savings account holding the sign-up bonus, and the record of that
    bonus. `CreateCustomerResult` says what one request does; `HandleCreateCustomer` is the
    handler, changing the shared `Store` call by call, and is proved to do exactly that. */
module Onboarding {
  import opened Wrappers
  import opened Models
  import opened OrderedMaps
  import opened LedgerStore
  import opened Requests
  import opened Seqs

  /** The sign-up bonus credited to every new savings account. */
  const SignUpBonus: real := 500.0

  /** The ids `uuidv4()` hands out for one onboarding. */
  datatype OnboardingIds = OnboardingIds(customer: string, current: string, savings: string, bonus: string)

  /** The generated ids are new: no stored customer, account or record uses them, the two
      account ids differ, and no stored account names the new customer as its owner. */
  ghost predicate IdsFresh(l: Ledger, ids: OnboardingIds)
  {
    && ids.current != ids.savings
    && ids.customer !in l.customers
    && ids.current !in l.accounts.entries
    && ids.savings !in l.accounts.entries
    && ids.bonus !in l.transactions.entries
    && l.accounts.Valid() && l.AccountsOf(ids.customer) == []
  }

  /** The body of the 201 answer. */
  datatype Onboarded = Onboarded(customerId: string, currentAccountId: string, savingsAccountId: string)

  function NewCustomer(req: CustomerRequest, ids: OnboardingIds): Customer
  {
    Customer(ids.customer, req.name, req.email)
  }

  function NewCurrentAccount(ids: OnboardingIds, now: nat): Account
  {
    Account(ids.current, ids.customer, Current, 0.0, now)
  }

  function NewSavingsAccount(ids: OnboardingIds, now: nat): Account
  {
    Account(ids.savings, ids.customer, Savings, SignUpBonus, now)
  }

  /** The bonus record: on the savings account, with no counterpart accounts. */
  function BonusRecord(ids: OnboardingIds, now: nat): Transaction
  {
    Transaction(ids.bonus, ids.savings, ids.customer, Bonus, SignUpBonus, None, None, now)
  }

  /** index.js:46-82: the four store calls, in order. */
  function OpenAccounts(l: Ledger, req: CustomerRequest, ids: OnboardingIds, now: nat): Ledger
  {
    l.PutCustomer(NewCustomer(req, ids))
     .PutAccount(NewCurrentAccount(ids, now))
     .PutAccount(NewSavingsAccount(ids, now))
     .PutTransaction(BonusRecord(ids, now))
  }

  /** index.js:21-92: one onboarding request, from the ledger `l`, at the instant `now`, with the
      fresh ids `ids`. */
  function CreateCustomerResult(l: Ledger, name: Json, email: Json, now: nat, ids: OnboardingIds)
    : (Ledger, Reply<Onboarded>)
  {
    match CheckCustomerBody(name, email)
    case Thrown => (l, Uncaught)
    case Rejected(errors) => (l, InvalidBody(errors))
    case Accepted(req) =>
      (OpenAccounts(l, req, ids, now), Created(Onboarded(ids.customer, ids.current, ids.savings)))
  }

  /** A request is answered 201 exactly when its body passes the checks; otherwise nothing is
      stored. */
  lemma CreateCustomerOutcome(l: Ledger, name: Json, email: Json, now: nat, ids: OnboardingIds)
    ensures var (l', reply) := CreateCustomerResult(l, name, email, now, ids);
      && (reply.Created? <==> CheckCustomerBody(name, email).Accepted?)
      && (reply.Created? ==> reply.value == Onboarded(ids.customer, ids.current, ids.savings))
      && (!reply.Created? ==> l' == l && (reply.InvalidBody? || reply.Uncaught?))
  {
  }

  /** The four store calls of a successful onboarding each keep the ledger well formed and
      append to the iteration of the map they write. */
  lemma OpenAccountsSteps(l: Ledger, req: CustomerRequest, ids: OnboardingIds, now: nat)
    requires l.Valid() && IdsFresh(l, ids)
    ensures OpenAccounts(l, req, ids, now).Valid()
    ensures OpenAccounts(l, req, ids, now).customers == l.customers[ids.customer := NewCustomer(req, ids)]
    ensures OpenAccounts(l, req, ids, now).accounts.entries
            == l.accounts.entries[ids.current := NewCurrentAccount(ids, now)][ids.savings := NewSavingsAccount(ids, now)]
    ensures OpenAccounts(l, req, ids, now).accounts.Values()
            == l.accounts.Values() + [NewCurrentAccount(ids, now)] + [NewSavingsAccount(ids, now)]
    ensures OpenAccounts(l, req, ids, now).transactions.Values()
            == l.transactions.Values() + [BonusRecord(ids, now)]
  {
    var cur := NewCurrentAccount(ids, now);
    var sav := NewSavingsAccount(ids, now);
    var l1 := l.PutCustomer(NewCustomer(req, ids));
    PutKeepsValid(l, NewCustomer(req, ids), cur, BonusRecord(ids, now));
    var l2 := l1.PutAccount(cur);
    PutNewValues(l1.accounts, cur.id, cur);
    PutKeepsValid(l1, NewCustomer(req, ids), cur, BonusRecord(ids, now));
    var l3 := l2.PutAccount(sav);
    PutNewValues(l2.accounts, sav.id, sav);
    PutKeepsValid(l2, NewCustomer(req, ids), sav, BonusRecord(ids, now));
    AppendTransaction(l3, BonusRecord(ids, now));
  }

  /** The stores after a successful onboarding: the customer is added under its new id, the two
      new accounts are appended to the iteration, the bonus record is appended to the records,
      and the total held grows by exactly the bonus. */
  lemma OpenAccountsEffect(l: Ledger, req: CustomerRequest, ids: OnboardingIds, now: nat)
    requires l.Valid() && IdsFresh(l, ids)
    ensures OpenAccounts(l, req, ids, now).Valid()
    ensures OpenAccounts(l, req, ids, now).customers == l.customers[ids.customer := NewCustomer(req, ids)]
    ensures OpenAccounts(l, req, ids, now).accounts.Values()
            == l.accounts.Values() + [NewCurrentAccount(ids, now), NewSavingsAccount(ids, now)]
    ensures OpenAccounts(l, req, ids, now).transactions.Values()
            == l.transactions.Values() + [BonusRecord(ids, now)]
    ensures OpenAccounts(l, req, ids, now).Total() == l.Total() + SignUpBonus
  {
    var cur := NewCurrentAccount(ids, now);
    var sav := NewSavingsAccount(ids, now);
    OpenAccountsSteps(l, req, ids, now);
    TotalAfterAppend(l.accounts.Values(), cur, sav);
    AppendAssociative(l.accounts.Values(), [cur], [sav]);
  }

  lemma TotalAfterAppend(vs: seq<Account>, a: Account, b: Account)
    ensures TotalBalance(vs + [a] + [b]) == TotalBalance(vs) + a.balance + b.balance
  {
    assert (vs + [a] + [b])[..|vs| + 1] == vs + [a];
    assert (vs + [a])[..|vs|] == vs;
  }

  /** The new customer owns exactly the two new accounts, current first. */
  lemma NewCustomerAccounts(l: Ledger, req: CustomerRequest, ids: OnboardingIds, now: nat)
    requires l.Valid() && IdsFresh(l, ids)
    ensures OpenAccounts(l, req, ids, now).accounts.Valid()
    ensures OpenAccounts(l, req, ids, now).AccountsOf(ids.customer)
            == [NewCurrentAccount(ids, now), NewSavingsAccount(ids, now)]
  {
    OpenAccountsSteps(l, req, ids, now);
    OwnedAfterAppend(l.accounts.Values(), NewCurrentAccount(ids, now), NewSavingsAccount(ids, now), ids.customer);
  }

  lemma OwnedAfterAppend(vs: seq<Account>, a: Account, b: Account, customerId: string)
    requires OwnedBy(vs, customerId) == [] && a.customerId == customerId && b.customerId == customerId
    ensures OwnedBy(vs + [a] + [b], customerId) == [a, b]
  {
    var owned := IsOwnedBy(customerId);
    assert owned(a) && owned(b);
    FilterSnoc(vs, a, owned);
    FilterSnoc(vs + [a], b, owned);
  }

  lemma OpenAccountsKeepsNonNegative(l: Ledger, req: CustomerRequest, ids: OnboardingIds, now: nat)
    requires l.Valid() && l.NoNegativeBalance() && IdsFresh(l, ids)
    ensures OpenAccounts(l, req, ids, now).Valid()
    ensures OpenAccounts(l, req, ids, now).NoNegativeBalance()
  {
    OpenAccountsSteps(l, req, ids, now);
  }

  /** Onboarding keeps the ledger well formed and free of negative balances. */
  lemma CreateCustomerKeepsInvariants(l: Ledger, name: Json, email: Json, now: nat, ids: OnboardingIds)
    requires l.Valid() && l.NoNegativeBalance() && IdsFresh(l, ids)
    ensures CreateCustomerResult(l, name, email, now, ids).0.Valid()
    ensures CreateCustomerResult(l, name, email, now, ids).0.NoNegativeBalance()
  {
    match CheckCustomerBody(name, email)
    case Thrown =>
    case Rejected(_) =>
    case Accepted(req) =>
      OpenAccountsKeepsNonNegative(l, req, ids, now);
  }

  /** index.js:21-92 */
  method HandleCreateCustomer(store: Store, name: Json, email: Json, now: nat, ids: OnboardingIds)
    returns (reply: Reply<Onboarded>)
    requires store.Valid()
    modifies store
    ensures store.Valid()
    ensures (store.View(), reply) == CreateCustomerResult(old(store.View()), name, email, now, ids)
  {
    var checked := CheckCustomerBody(name, email);
    if checked.Thrown? {
      return Uncaught;
    }
    if checked.Rejected? {
      return InvalidBody(checked.errors);
    }
    var req := checked.value;
    store.AddCustomer(NewCustomer(req, ids));
    store.AddAccount(NewCurrentAccount(ids, now));
    store.AddAccount(NewSavingsAccount(ids, now));
    store.AddTransaction(BonusRecord(ids, now));
    reply := Created(Onboarded(ids.customer, ids.current, ids.savings));
  }
}
