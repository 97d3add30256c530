/** store.js: the in-memory ledger. `Ledger` is the value the three maps hold at one instant,
    with the read-side queries as functions; `Store` is the mutable object the handlers share. */
module LedgerStore {
  import opened Wrappers
  import opened Models
  import opened Seqs
  import opened OrderedMaps

  /** The predicate `account.customerId === customerId` as a function value. */
  function IsOwnedBy(customerId: string): Account -> bool
  {
    (a: Account) => a.customerId == customerId
  }

  /** The predicate `accountIds.has(transaction.accountId)` as a function value. */
  function IsOnAccounts(ids: set<string>): Transaction -> bool
  {
    (t: Transaction) => t.accountId in ids
  }

  /** The accounts of `s` owned by `customerId`, in order. */
  function OwnedBy(s: seq<Account>, customerId: string): seq<Account>
  {
    Filter(s, IsOwnedBy(customerId))
  }

  /** The ids of the accounts of `s` owned by `customerId`. */
  function OwnedIds(s: seq<Account>, customerId: string): set<string>
  {
    if s == [] then {}
    else OwnedIds(s[..|s| - 1], customerId)
         + (if s[|s| - 1].customerId == customerId then {s[|s| - 1].id} else {})
  }

  /** The transactions of `s` whose `accountId` is in `ids`, in order. */
  function OnAccounts(s: seq<Transaction>, ids: set<string>): seq<Transaction>
  {
    Filter(s, IsOnAccounts(ids))
  }

  /** The sum of the balances of `s`. */
  function TotalBalance(s: seq<Account>): real
  {
    if s == [] then 0.0 else TotalBalance(s[..|s| - 1]) + s[|s| - 1].balance
  }

  lemma {:induction false} OwnedIdsMembership(s: seq<Account>, customerId: string, id: string)
    ensures id in OwnedIds(s, customerId) <==> exists a :: a in s && a.customerId == customerId && a.id == id
  {
    if s != [] {
      var init := s[..|s| - 1];
      OwnedIdsMembership(init, customerId, id);
      assert s == init + [s[|s| - 1]];
    }
  }

  /** Replacing one account changes the total by the difference of the two balances. */
  lemma {:induction false} TotalBalanceUpdate(s: seq<Account>, i: nat, a: Account)
    requires i < |s|
    ensures TotalBalance(s[i := a]) == TotalBalance(s) - s[i].balance + a.balance
  {
    var n := |s| - 1;
    if i == n {
      assert s[i := a][..n] == s[..n];
    } else {
      assert s[i := a][..n] == s[..n][i := a];
      TotalBalanceUpdate(s[..n], i, a);
    }
  }

  /** The contents of the three maps of store.js. */
  datatype Ledger = Ledger(
    customers: map<string, Customer>,
    accounts: OrderedMap<Account>,
    transactions: OrderedMap<Transaction>)
  {
    /** Every entry is stored under its own id, as each `add…`/`update…` method does. */
    ghost predicate Valid()
    {
      && accounts.Valid()
      && transactions.Valid()
      && (forall k | k in customers :: customers[k].id == k)
      && (forall k | k in accounts.entries :: accounts.entries[k].id == k)
      && (forall k | k in transactions.entries :: transactions.entries[k].id == k)
    }

    /** No stored account has a negative balance. */
    ghost predicate NoNegativeBalance()
    {
      forall k | k in accounts.entries :: accounts.entries[k].balance >= 0.0
    }

    /** `getAccountsByCustomerId(customerId)` */
    function AccountsOf(customerId: string): seq<Account>
      requires accounts.Valid()
    {
      OwnedBy(accounts.Values(), customerId)
    }

    /** `getTransactionsByCustomerId(customerId)` */
    function TransactionsOf(customerId: string): seq<Transaction>
      requires accounts.Valid() && transactions.Valid()
    {
      OnAccounts(transactions.Values(), OwnedIds(accounts.Values(), customerId))
    }

    /** The sum of all stored balances. */
    function Total(): real
      requires accounts.Valid()
    {
      TotalBalance(accounts.Values())
    }

    /** `addCustomer(customer)` */
    function PutCustomer(customer: Customer): (l: Ledger)
    {
      this.(customers := customers[customer.id := customer])
    }

    /** `addAccount(account)` and `updateAccount(account)`: the same upsert. */
    function PutAccount(account: Account): (l: Ledger)
    {
      this.(accounts := accounts.Put(account.id, account))
    }

    /** `addTransaction(transaction)`: an upsert, so a second record with the same id replaces
        the first. */
    function PutTransaction(transaction: Transaction): (l: Ledger)
    {
      this.(transactions := transactions.Put(transaction.id, transaction))
    }
  }

  /** Each upsert stores its entry under the entry's own id, so the ledger stays well formed. */
  lemma PutKeepsValid(l: Ledger, c: Customer, a: Account, t: Transaction)
    requires l.Valid()
    ensures l.PutCustomer(c).Valid() && l.PutAccount(a).Valid() && l.PutTransaction(t).Valid()
  {
  }

  /** Updating a stored account changes the total by the difference of its two balances. */
  lemma TotalAfterUpdate(l: Ledger, a: Account)
    requires l.Valid() && a.id in l.accounts.entries
    ensures l.PutAccount(a).Valid()
    ensures l.PutAccount(a).Total() == l.Total() - l.accounts.entries[a.id].balance + a.balance
  {
    var i := l.accounts.IndexOf(a.id);
    PutExistingValues(l.accounts, a.id, a);
    ValuesAt(l.accounts, i);
    TotalBalanceUpdate(l.accounts.Values(), i, a);
  }

  /** Adding a record under a new id appends it to the iteration and changes nothing else. */
  lemma AppendTransaction(l: Ledger, t: Transaction)
    requires l.Valid() && t.id !in l.transactions.entries
    ensures l.PutTransaction(t).Valid()
    ensures l.PutTransaction(t).customers == l.customers && l.PutTransaction(t).accounts == l.accounts
    ensures l.PutTransaction(t).transactions.Values() == l.transactions.Values() + [t]
  {
    PutNewValues(l.transactions, t.id, t);
  }

  function EmptyLedger(): (l: Ledger)
    ensures l.Valid() && l.NoNegativeBalance()
  {
    Ledger(map[], Empty(), Empty())
  }

  /** An account is listed for a customer exactly when it is stored and the customer owns it;
      the listing keeps the map's iteration order. */
  lemma AccountsOfExactly(l: Ledger, customerId: string, a: Account)
    requires l.Valid()
    ensures a in l.AccountsOf(customerId)
            <==> a.id in l.accounts.entries && l.accounts.entries[a.id] == a && a.customerId == customerId
    ensures IsSubsequence(l.AccountsOf(customerId), l.accounts.Values())
  {
    FilterMembership(l.accounts.Values(), IsOwnedBy(customerId), a);
    ValuesMembership(l.accounts, a);
    FilterIsSubsequence(l.accounts.Values(), IsOwnedBy(customerId));
  }

  /** A transaction is listed for a customer exactly when it is stored and its `accountId`
      names an account the customer owns. The transaction's own `customerId` plays no part. */
  lemma TransactionsOfExactly(l: Ledger, customerId: string, t: Transaction)
    requires l.Valid()
    ensures t in l.TransactionsOf(customerId)
            <==> && t in l.transactions.Values()
                 && t.accountId in l.accounts.entries
                 && l.accounts.entries[t.accountId].customerId == customerId
    ensures IsSubsequence(l.TransactionsOf(customerId), l.transactions.Values())
  {
    var ids := OwnedIds(l.accounts.Values(), customerId);
    FilterMembership(l.transactions.Values(), IsOnAccounts(ids), t);
    FilterIsSubsequence(l.transactions.Values(), IsOnAccounts(ids));
    OwnedIdsMembership(l.accounts.Values(), customerId, t.accountId);
    if t.accountId in l.accounts.entries {
      ValuesMembership(l.accounts, l.accounts.entries[t.accountId]);
    }
    if exists a :: a in l.accounts.Values() && a.customerId == customerId && a.id == t.accountId {
      var a :| a in l.accounts.Values() && a.customerId == customerId && a.id == t.accountId;
      ValuesMembership(l.accounts, a);
    }
  }

  /** The object exported by store.js. */
  class Store {
    var customers: map<string, Customer>
    var accounts: OrderedMap<Account>
    var transactions: OrderedMap<Transaction>

    /** The current contents of the three maps. */
    function View(): Ledger
      reads this
    {
      Ledger(customers, accounts, transactions)
    }

    ghost predicate Valid()
      reads this
    {
      View().Valid()
    }

    constructor ()
      ensures Valid() && View() == EmptyLedger()
    {
      customers := map[];
      accounts := Empty();
      transactions := Empty();
    }

    method AddCustomer(customer: Customer)
      requires Valid()
      modifies this
      ensures Valid() && View() == old(View()).PutCustomer(customer)
    {
      customers := customers[customer.id := customer];
    }

    method GetCustomerById(customerId: string) returns (r: Option<Customer>)
      ensures r.Some? <==> customerId in customers
      ensures r.Some? ==> r.value == customers[customerId]
    {
      r := if customerId in customers then Some(customers[customerId]) else None;
    }

    method AddAccount(account: Account)
      requires Valid()
      modifies this
      ensures Valid() && View() == old(View()).PutAccount(account)
    {
      accounts := accounts.Put(account.id, account);
    }

    method GetAccountById(accountId: string) returns (r: Option<Account>)
      ensures r.Some? <==> accountId in accounts.entries
      ensures r.Some? ==> r.value == accounts.entries[accountId]
    {
      r := accounts.Get(accountId);
    }

    /** The same upsert as AddAccount. */
    method UpdateAccount(account: Account)
      requires Valid()
      modifies this
      ensures Valid() && View() == old(View()).PutAccount(account)
    {
      accounts := accounts.Put(account.id, account);
    }

    method GetAccountsByCustomerId(customerId: string) returns (r: seq<Account>)
      requires Valid()
      ensures r == View().AccountsOf(customerId)
    {
      var values := accounts.Values();
      r := [];
      for i := 0 to |values|
        invariant r == OwnedBy(values[..i], customerId)
      {
        assert values[..i + 1][..i] == values[..i];
        if values[i].customerId == customerId {
          r := r + [values[i]];
        }
      }
      assert values[..|values|] == values;
    }

    /** An upsert keyed by `transaction.id`: a second record with the same id replaces the first. */
    method AddTransaction(transaction: Transaction)
      requires Valid()
      modifies this
      ensures Valid() && View() == old(View()).PutTransaction(transaction)
    {
      transactions := transactions.Put(transaction.id, transaction);
    }

    method GetTransactionsByCustomerId(customerId: string) returns (r: seq<Transaction>)
      requires Valid()
      ensures r == View().TransactionsOf(customerId)
    {
      var accountValues := accounts.Values();
      var accountIds: set<string> := {};
      for i := 0 to |accountValues|
        invariant accountIds == OwnedIds(accountValues[..i], customerId)
      {
        assert accountValues[..i + 1][..i] == accountValues[..i];
        if accountValues[i].customerId == customerId {
          accountIds := accountIds + {accountValues[i].id};
        }
      }
      assert accountValues[..|accountValues|] == accountValues;
      var values := transactions.Values();
      r := [];
      for j := 0 to |values|
        invariant r == OnAccounts(values[..j], accountIds)
      {
        assert values[..j + 1][..j] == values[..j];
        if values[j].accountId in accountIds {
          r := r + [values[j]];
        }
      }
      assert values[..|values|] == values;
    }
  }
}
