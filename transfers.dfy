/** index.js:121-289, POST /api/customers/:customerId/transfers: the transfer engine.

    `TransferResult` says what one request does to the ledger and to the partner and what it
    answers; `HandleTransfer` is the handler itself, changing the shared `Store` and
    `MockClient` step by step, and is proved to do exactly that. The lemmas state the
    engine's promises about `TransferResult`. */
module Transfers {
  import opened Wrappers
  import opened Models
  import opened OrderedMaps
  import opened LedgerStore
  import opened BankZ
  import opened Requests
  import opened Seqs

  /** The ids `uuidv4()` hands out for the records of an internal transfer. */
  datatype TransferIds = TransferIds(transfer: string, fee: string, interest: string)

  /** The generated ids are pairwise distinct and not used by any stored transaction. */
  ghost predicate IdsFresh(l: Ledger, ids: TransferIds)
  {
    && ids.transfer != ids.fee && ids.transfer != ids.interest && ids.fee != ids.interest
    && ids.transfer !in l.transactions.entries
    && ids.fee !in l.transactions.entries
    && ids.interest !in l.transactions.entries
  }

  /** The state after a request and the answer to it. */
  datatype Handled<T> = Handled(ledger: Ledger, partner: Partner, reply: Reply<T>)

  const SourceNotOwnedMessage: string := "Source account does not belong to the customer"
  const DestinationNotOwnedMessage: string := "Destination account does not belong to the customer"
  const InsufficientFundsMessage: string := "Insufficient funds"

  /** The fee charged on an internal transfer out of an account of kind `kind`. */
  function FeeFor(kind: AccountType, amount: real): real
  {
    if kind == Current then amount * 0.0005 else 0.0
  }

  /** The interest credited on an internal transfer into an account of kind `kind`. */
  function InterestFor(kind: AccountType, amount: real): real
  {
    if kind == Savings then amount * 0.005 else 0.0
  }

  /** For a positive amount a fee is due exactly out of current accounts and interest exactly
      into savings accounts, at 0.05% and 0.5%. */
  lemma FeeAndInterestRates(kind: AccountType, amount: real)
    requires amount > 0.0
    ensures FeeFor(kind, amount) > 0.0 <==> kind == Current
    ensures InterestFor(kind, amount) > 0.0 <==> kind == Savings
    ensures FeeFor(kind, amount) * 2000.0 == (if kind == Current then amount else 0.0)
    ensures InterestFor(kind, amount) * 200.0 == (if kind == Savings then amount else 0.0)
  {
  }

  /** The principal record of an internal transfer. */
  function TransferRecord(id: string, customerId: string, req: TransferRequest, now: nat): Transaction
  {
    Transaction(id, req.fromAccountId, customerId, Transfer, req.amount,
                Some(req.fromAccountId), Some(req.toAccountId), now)
  }

  /** The fee record: on the source, with no counterpart accounts. */
  function FeeRecord(id: string, customerId: string, req: TransferRequest, fee: real, now: nat): Transaction
  {
    Transaction(id, req.fromAccountId, customerId, Fee, fee, None, None, now)
  }

  /** The interest record: on the destination, with no counterpart accounts. */
  function InterestRecord(id: string, customerId: string, req: TransferRequest, interest: real, now: nat): Transaction
  {
    Transaction(id, req.toAccountId, customerId, Interest, interest, None, None, now)
  }

  /** The record of a transfer to the partner, keyed by the id the partner returned. */
  function PartnerRecord(id: string, customerId: string, req: TransferRequest, now: nat): Transaction
  {
    Transaction(id, req.fromAccountId, customerId, BankzTransfer, req.amount,
                Some(req.fromAccountId), Some(req.toAccountId), now)
  }

  /** The records an internal transfer appends, one per leg: the principal, then the fee if
      any, then the interest if any. */
  function InternalLegs(customerId: string, req: TransferRequest, fee: real, interest: real, now: nat, ids: TransferIds)
    : seq<Transaction>
  {
    [TransferRecord(ids.transfer, customerId, req, now)]
    + (if fee > 0.0 then [FeeRecord(ids.fee, customerId, req, fee, now)] else [])
    + (if interest > 0.0 then [InterestRecord(ids.interest, customerId, req, interest, now)] else [])
  }

  /** index.js:242-281: the records of an internal transfer, added to the ledger in order. */
  function RecordLegs(l: Ledger, customerId: string, req: TransferRequest, fee: real, interest: real, now: nat, ids: TransferIds)
    : (l': Ledger)
  {
    var l1 := l.PutTransaction(TransferRecord(ids.transfer, customerId, req, now));
    var l2 := if fee > 0.0 then l1.PutTransaction(FeeRecord(ids.fee, customerId, req, fee, now)) else l1;
    if interest > 0.0 then l2.PutTransaction(InterestRecord(ids.interest, customerId, req, interest, now)) else l2
  }

  /** index.js:221-281: the ledger after an internal transfer that passed the funds check:
      both balances updated, then the records of the legs added. */
  function ApplyInternal(
    l: Ledger, customerId: string, req: TransferRequest,
    source: Account, dest: Account, now: nat, ids: TransferIds): (l': Ledger)
  {
    var fee := FeeFor(source.kind, req.amount);
    var interest := InterestFor(dest.kind, req.amount);
    var moved := l.PutAccount(source.(balance := source.balance - (req.amount + fee)))
                  .PutAccount(dest.(balance := dest.balance + (req.amount + interest)));
    RecordLegs(moved, customerId, req, fee, interest, now, ids)
  }

  /** ApplyInternal as the sequence of store calls the handler makes, given the fee and the
      interest it computed. */
  lemma ApplyInternalSteps(
    l: Ledger, customerId: string, req: TransferRequest,
    source: Account, dest: Account, now: nat, ids: TransferIds, fee: real, interest: real)
    requires fee == FeeFor(source.kind, req.amount) && interest == InterestFor(dest.kind, req.amount)
    ensures ApplyInternal(l, customerId, req, source, dest, now, ids)
      == RecordLegs(l.PutAccount(source.(balance := source.balance - (req.amount + fee)))
                     .PutAccount(dest.(balance := dest.balance + (req.amount + interest))),
                    customerId, req, fee, interest, now, ids)
  {
  }

  /** index.js:221-288: both accounts are local and owned by the customer. */
  function InternalTransfer(
    l: Ledger, p: Partner, customerId: string, req: TransferRequest,
    source: Account, dest: Account, now: nat, ids: TransferIds): Handled<string>
  {
    if source.balance < req.amount + FeeFor(source.kind, req.amount)
    then Handled(l, p, BadRequest(InsufficientFundsMessage))
    else Handled(ApplyInternal(l, customerId, req, source, dest, now, ids), p, Created(ids.transfer))
  }

  /** index.js:184-218: the destination is known only to the partner. No fee is charged. */
  function ExternalTransfer(
    l: Ledger, p: Partner, customerId: string, req: TransferRequest,
    source: Account, token: string, now: nat): Handled<string>
  {
    if source.balance < req.amount then Handled(l, p, BadRequest(InsufficientFundsMessage))
    else
      var (p1, r) := p.InitiateTransfer(req.fromAccountId, req.toAccountId, token, req.amount, now);
      if r.Err? then Handled(l, p1, BadRequest(r.message))
      else
        var l1 := l.PutAccount(source.(balance := source.balance - req.amount))
                   .PutTransaction(PartnerRecord(r.value, customerId, req, now));
        Handled(l1, p1, Created(r.value))
  }

  /** index.js:159-182 and the dispatch at 184: resolve both accounts and route. */
  function Route(
    l: Ledger, p: Partner, customerId: string, req: TransferRequest,
    token: string, now: nat, ids: TransferIds): Handled<string>
  {
    match l.accounts.Get(req.fromAccountId)
    case None => Handled(l, p, BadRequest("Source account " + req.fromAccountId + " not found"))
    case Some(source) =>
      if source.customerId != customerId then Handled(l, p, BadRequest(SourceNotOwnedMessage))
      else
        match l.accounts.Get(req.toAccountId)
        case None =>
          if p.GetBalance(req.toAccountId, token, now).Err?
          then Handled(l, p, BadRequest("Destination account " + req.toAccountId + " not found"))
          else ExternalTransfer(l, p, customerId, req, source, token, now)
        case Some(dest) =>
          if dest.customerId != customerId then Handled(l, p, BadRequest(DestinationNotOwnedMessage))
          else InternalTransfer(l, p, customerId, req, source, dest, now, ids)
  }

  /** index.js:121-289: one transfer request, from the ledger `l` and the partner `p`, at the
      instant `now`, with the fresh ids `ids`. */
  function TransferResult(
    l: Ledger, p: Partner, customerId: string,
    fromAccountId: Json, toAccountId: Json, amount: Json,
    now: nat, ids: TransferIds): Handled<string>
  {
    match CheckTransferBody(fromAccountId, toAccountId, amount)
    case Thrown => Handled(l, p, Uncaught)
    case Rejected(errors) => Handled(l, p, InvalidBody(errors))
    case Accepted(req) =>
      if customerId !in l.customers then Handled(l, p, NotFound(CustomerNotFoundMessage))
      else
        var (p1, token) := p.GetToken(now);
        if token.Err? then Handled(l, p1, ServerError(AuthFailedMessage))
        else Route(l, p1, customerId, req, token.value, now, ids)
  }

  // ---------------------------------------------------------------------------------------
  // Effects of each route

  /** Two balance updates of distinct stored accounts replace exactly those two entries, in
      place, and change the total by the two differences. */
  lemma {:induction false} UpdateTwoAccounts(l: Ledger, a: Account, b: Account)
    requires l.Valid() && a.id in l.accounts.entries && b.id in l.accounts.entries && a.id != b.id
    ensures var l' := l.PutAccount(a).PutAccount(b);
      && l'.Valid() && l'.customers == l.customers && l'.transactions == l.transactions
      && l'.accounts.keys == l.accounts.keys
      && l'.accounts.entries == l.accounts.entries[a.id := a][b.id := b]
      && l'.Total() == l.Total() - l.accounts.entries[a.id].balance + a.balance
                                 - l.accounts.entries[b.id].balance + b.balance
  {
    TotalAfterUpdate(l, a);
    TotalAfterUpdate(l.PutAccount(a), b);
  }

  /** With fresh ids, the records of the legs are appended after the existing ones. */
  lemma {:induction false} RecordLegsAppends(l: Ledger, customerId: string, req: TransferRequest, fee: real, interest: real, now: nat, ids: TransferIds)
    requires l.Valid() && IdsFresh(l, ids)
    ensures var l' := RecordLegs(l, customerId, req, fee, interest, now, ids);
      && l'.Valid() && l'.customers == l.customers && l'.accounts == l.accounts
      && l'.transactions.Values() == l.transactions.Values() + InternalLegs(customerId, req, fee, interest, now, ids)
  {
    var t1 := TransferRecord(ids.transfer, customerId, req, now);
    var feeLeg := if fee > 0.0 then [FeeRecord(ids.fee, customerId, req, fee, now)] else [];
    var interestLeg := if interest > 0.0 then [InterestRecord(ids.interest, customerId, req, interest, now)] else [];
    var l1 := l.PutTransaction(t1);
    AppendTransaction(l, t1);
    var l2 := if fee > 0.0 then l1.PutTransaction(FeeRecord(ids.fee, customerId, req, fee, now)) else l1;
    if fee > 0.0 {
      AppendTransaction(l1, FeeRecord(ids.fee, customerId, req, fee, now));
    }
    assert l2.Valid() && l2.transactions.Values() == l.transactions.Values() + [t1] + feeLeg;
    if interest > 0.0 {
      AppendTransaction(l2, InterestRecord(ids.interest, customerId, req, interest, now));
    }
    assert InternalLegs(customerId, req, fee, interest, now, ids) == [t1] + feeLeg + interestLeg;
    AppendAssociative(l.transactions.Values(), [t1], feeLeg);
    AppendAssociative(l.transactions.Values(), [t1] + feeLeg, interestLeg);
  }

  /** An internal transfer is refused with "Insufficient funds" exactly when the source holds
      less than amount plus fee, and then changes nothing. */
  lemma InternalTransferFundsCheck(
    l: Ledger, p: Partner, customerId: string, req: TransferRequest,
    source: Account, dest: Account, now: nat, ids: TransferIds)
    ensures var h := InternalTransfer(l, p, customerId, req, source, dest, now, ids);
      && h.partner == p
      && (h.reply.Created? <==> source.balance >= req.amount + FeeFor(source.kind, req.amount))
      && (h.reply.Created? ==> h.reply.value == ids.transfer
                               && h.ledger == ApplyInternal(l, customerId, req, source, dest, now, ids))
      && (!h.reply.Created? ==> h.reply == BadRequest(InsufficientFundsMessage) && h.ledger == l)
  {
  }

  /** The fee counts towards the funds check: out of a current account holding 1000.00, 999.50
      may be moved (999.50 + 0.49975 <= 1000.00) but 999.60 may not (999.60 + 0.4998 > 1000.00). */
  lemma FundsCheckBoundary(
    l: Ledger, p: Partner, customerId: string, req: TransferRequest,
    source: Account, dest: Account, now: nat, ids: TransferIds)
    requires source.kind == Current && source.balance == 1000.0
    ensures req.amount == 999.5 ==> InternalTransfer(l, p, customerId, req, source, dest, now, ids).reply.Created?
    ensures req.amount == 999.6 ==>
              InternalTransfer(l, p, customerId, req, source, dest, now, ids).reply == BadRequest(InsufficientFundsMessage)
  {
    InternalTransferFundsCheck(l, p, customerId, req, source, dest, now, ids);
  }

  /** The balances after an internal transfer: the source loses exactly amount + fee, the
      destination gains exactly amount + interest, no other account changes, and the total
      held changes by interest - fee. Customers are untouched. */
  lemma ApplyInternalBalances(
    l: Ledger, customerId: string, req: TransferRequest,
    source: Account, dest: Account, now: nat, ids: TransferIds)
    requires l.Valid() && IdsFresh(l, ids)
    requires req.fromAccountId in l.accounts.entries && l.accounts.entries[req.fromAccountId] == source
    requires req.toAccountId in l.accounts.entries && l.accounts.entries[req.toAccountId] == dest
    requires req.fromAccountId != req.toAccountId
    ensures ApplyInternal(l, customerId, req, source, dest, now, ids).Valid()
    ensures ApplyInternal(l, customerId, req, source, dest, now, ids).customers == l.customers
    ensures ApplyInternal(l, customerId, req, source, dest, now, ids).accounts.keys == l.accounts.keys
    ensures ApplyInternal(l, customerId, req, source, dest, now, ids).accounts.entries
            == l.accounts.entries
                 [req.fromAccountId := source.(balance := source.balance - (req.amount + FeeFor(source.kind, req.amount)))]
                 [req.toAccountId := dest.(balance := dest.balance + (req.amount + InterestFor(dest.kind, req.amount)))]
    ensures ApplyInternal(l, customerId, req, source, dest, now, ids).Total()
            == l.Total() - FeeFor(source.kind, req.amount) + InterestFor(dest.kind, req.amount)
  {
    var fee := FeeFor(source.kind, req.amount);
    var interest := InterestFor(dest.kind, req.amount);
    var src := source.(balance := source.balance - (req.amount + fee));
    var dst := dest.(balance := dest.balance + (req.amount + interest));
    var moved := l.PutAccount(src).PutAccount(dst);
    UpdateTwoAccounts(l, src, dst);
    RecordLegsAppends(moved, customerId, req, fee, interest, now, ids);
    var after := RecordLegs(moved, customerId, req, fee, interest, now, ids);
    assert after.Total() == moved.Total();
    ApplyInternalSteps(l, customerId, req, source, dest, now, ids, fee, interest);
  }

  /** The records after an internal transfer: one per leg, appended after the existing ones. */
  lemma ApplyInternalRecords(
    l: Ledger, customerId: string, req: TransferRequest,
    source: Account, dest: Account, now: nat, ids: TransferIds)
    requires l.Valid() && IdsFresh(l, ids)
    ensures var l' := ApplyInternal(l, customerId, req, source, dest, now, ids);
      l'.transactions.Values()
      == l.transactions.Values()
         + InternalLegs(customerId, req, FeeFor(source.kind, req.amount), InterestFor(dest.kind, req.amount), now, ids)
  {
    var fee := FeeFor(source.kind, req.amount);
    var interest := InterestFor(dest.kind, req.amount);
    var moved := l.PutAccount(source.(balance := source.balance - (req.amount + fee)))
                  .PutAccount(dest.(balance := dest.balance + (req.amount + interest)));
    assert moved.transactions == l.transactions;
    RecordLegsAppends(moved, customerId, req, fee, interest, now, ids);
  }

  /** After an internal transfer no stored balance is negative, provided none was before. */
  lemma ApplyInternalKeepsNonNegative(
    l: Ledger, customerId: string, req: TransferRequest,
    source: Account, dest: Account, now: nat, ids: TransferIds)
    requires l.Valid() && IdsFresh(l, ids) && l.NoNegativeBalance() && req.amount > 0.0
    requires req.fromAccountId in l.accounts.entries && l.accounts.entries[req.fromAccountId] == source
    requires req.toAccountId in l.accounts.entries && l.accounts.entries[req.toAccountId] == dest
    requires req.fromAccountId != req.toAccountId
    requires source.balance >= req.amount + FeeFor(source.kind, req.amount)
    ensures ApplyInternal(l, customerId, req, source, dest, now, ids).Valid()
    ensures ApplyInternal(l, customerId, req, source, dest, now, ids).NoNegativeBalance()
  {
    ApplyInternalBalances(l, customerId, req, source, dest, now, ids);
  }

  /** An external transfer needs only `balance >= amount` locally. When the balance is short or
      the partner refuses, nothing changes and the partner's message is passed on. */
  lemma ExternalTransferRefused(
    l: Ledger, p: Partner, customerId: string, req: TransferRequest,
    source: Account, token: string, now: nat)
    requires l.Valid()
    requires p.ValidateToken(token, now) == Pass && req.amount > 0.0
    ensures var h := ExternalTransfer(l, p, customerId, req, source, token, now);
      && (h.reply.Created? <==> source.balance >= req.amount && req.toAccountId in p.accounts)
      && (!h.reply.Created? ==> h.ledger == l && h.partner == p && h.reply.BadRequest?)
      && (source.balance < req.amount ==> h.reply == BadRequest(InsufficientFundsMessage))
      && (source.balance >= req.amount && req.toAccountId !in p.accounts ==>
            h.reply == BadRequest("Destination Bank Z account " + req.toAccountId + " not found"))
  {
  }

  /** A successful external transfer: the source loses exactly the amount and no fee, one
      `bankz_transfer` record is stored under the id the partner returned (replacing a record
      already stored under that id), the partner credits the destination by the amount, and
      the money held locally and at that partner account together is unchanged. */
  lemma ExternalTransferApplied(
    l: Ledger, p: Partner, customerId: string, req: TransferRequest,
    source: Account, token: string, now: nat)
    requires l.Valid()
    requires req.fromAccountId in l.accounts.entries && l.accounts.entries[req.fromAccountId] == source
    requires p.ValidateToken(token, now) == Pass && req.amount > 0.0
    requires source.balance >= req.amount && req.toAccountId in p.accounts
    ensures var h := ExternalTransfer(l, p, customerId, req, source, token, now);
      && h.reply == Created(TransferName(now))
      && h.ledger.customers == l.customers
      && h.ledger.accounts.keys == l.accounts.keys
      && h.ledger.accounts.entries
         == l.accounts.entries[req.fromAccountId := source.(balance := source.balance - req.amount)]
      && h.ledger.transactions
         == l.transactions.Put(TransferName(now), PartnerRecord(TransferName(now), customerId, req, now))
      && h.partner == p.(accounts := p.accounts[req.toAccountId := p.accounts[req.toAccountId] + req.amount])
      && h.ledger.Total() + h.partner.accounts[req.toAccountId] == l.Total() + p.accounts[req.toAccountId]
  {
    TotalAfterUpdate(l, source.(balance := source.balance - req.amount));
  }

  /** A partner transfer keeps the ledger well formed and free of negative balances, and
      keeps the partner's cached token well formed. */
  lemma ExternalKeepsInvariants(
    l: Ledger, p: Partner, customerId: string, req: TransferRequest,
    source: Account, token: string, now: nat)
    requires l.Valid() && l.NoNegativeBalance() && p.Valid()
    requires req.fromAccountId in l.accounts.entries && l.accounts.entries[req.fromAccountId] == source
    requires p.ValidateToken(token, now) == Pass && req.amount > 0.0
    ensures var h := ExternalTransfer(l, p, customerId, req, source, token, now);
      h.ledger.Valid() && h.ledger.NoNegativeBalance() && h.partner.Valid()
  {
    ExternalTransferRefused(l, p, customerId, req, source, token, now);
    if source.balance >= req.amount && req.toAccountId in p.accounts {
      ExternalTransferApplied(l, p, customerId, req, source, token, now);
    }
  }

  /** index.js:184-218 with the partner's lookup as written (`InitiateTransferAsWritten`). */
  function ExternalTransferAsWritten(
    l: Ledger, p: Partner, customerId: string, req: TransferRequest,
    source: Account, token: string, now: nat): Handled<string>
  {
    if source.balance < req.amount then Handled(l, p, BadRequest(InsufficientFundsMessage))
    else
      var (p1, r) := InitiateTransferAsWritten(p, req.fromAccountId, req.toAccountId, token, req.amount, now);
      if r.Err? then Handled(l, p1, BadRequest(r.message))
      else
        var l1 := l.PutAccount(source.(balance := source.balance - req.amount))
                   .PutTransaction(PartnerRecord(r.value, customerId, req, now));
        Handled(l1, p1, Created(r.value))
  }

  /** A transfer to an inherited name such as "constructor": as written, the probe at
      index.js:175 does not throw, so the transfer is routed to the partner, answered 201, and
      the amount leaves the ledger while no partner balance grows. `Route` refuses it with
      "Destination account … not found" and changes nothing. */
  lemma InheritedDestinationLosesMoney(
    l: Ledger, p: Partner, customerId: string, req: TransferRequest,
    source: Account, token: string, now: nat, ids: TransferIds)
    requires l.Valid()
    requires req.fromAccountId in l.accounts.entries && l.accounts.entries[req.fromAccountId] == source
    requires source.customerId == customerId && source.balance >= req.amount
    requires p.ValidateToken(token, now) == Pass && req.amount > 0.0
    requires req.toAccountId in InheritedNames && req.toAccountId !in p.accounts
    requires req.toAccountId !in l.accounts.entries
    ensures GetBalanceAsWritten(p, req.toAccountId, token, now).Ok?
    ensures var h := ExternalTransferAsWritten(l, p, customerId, req, source, token, now);
      && h.reply == Created(TransferName(now))
      && h.partner.accounts == p.accounts
      && h.ledger.Total() == l.Total() - req.amount
    ensures Route(l, p, customerId, req, token, now, ids)
            == Handled(l, p, BadRequest("Destination account " + req.toAccountId + " not found"))
  {
    InheritedDestinationAsWritten(p, req.fromAccountId, req.toAccountId, token, req.amount, now);
    TotalAfterUpdate(l, source.(balance := source.balance - req.amount));
  }

  // ---------------------------------------------------------------------------------------
  // Promises of the whole handler

  lemma RouteFailureChangesNothing(
    l: Ledger, p: Partner, customerId: string, req: TransferRequest,
    token: string, now: nat, ids: TransferIds)
    ensures var h := Route(l, p, customerId, req, token, now, ids);
      !h.reply.Created? ==> h.ledger == l && h.partner == p && h.reply.BadRequest?
  {
    match l.accounts.Get(req.fromAccountId)
    case None =>
    case Some(source) =>
      if source.customerId == customerId {
        match l.accounts.Get(req.toAccountId)
        case None =>
          if p.GetBalance(req.toAccountId, token, now).Ok? {
            var (p1, r) := p.InitiateTransfer(req.fromAccountId, req.toAccountId, token, req.amount, now);
            assert r.Err? ==> p1 == p;
          }
        case Some(dest) =>
      }
  }

  /** A request that is not answered 201 leaves the ledger exactly as it was and the partner's
      balances untouched; the only change it can make is the token refresh of getToken. One
      refused before the token is requested (a bad body, an unknown customer) changes nothing. */
  lemma RejectedTransferChangesNothing(
    l: Ledger, p: Partner, customerId: string,
    fromAccountId: Json, toAccountId: Json, amount: Json, now: nat, ids: TransferIds)
    ensures var h := TransferResult(l, p, customerId, fromAccountId, toAccountId, amount, now, ids);
      && (!h.reply.Created? ==> h.ledger == l && (h.partner == p || h.partner == p.GetToken(now).0))
      && (h.reply.Uncaught? || h.reply.InvalidBody? || h.reply.NotFound? ==> h.partner == p)
      && (!CheckTransferBody(fromAccountId, toAccountId, amount).Accepted? ==> h.ledger == l && h.partner == p)
  {
    match CheckTransferBody(fromAccountId, toAccountId, amount)
    case Thrown =>
    case Rejected(_) =>
    case Accepted(req) =>
      if customerId in l.customers {
        var (p1, token) := p.GetToken(now);
        if token.Ok? {
          RouteFailureChangesNothing(l, p1, customerId, req, token.value, now, ids);
        }
      }
  }

  /** After routing, the ledger is still well formed and free of negative balances, and the
      partner's cached token is still well formed. */
  lemma RouteKeepsInvariants(
    l: Ledger, p: Partner, customerId: string, req: TransferRequest,
    token: string, now: nat, ids: TransferIds)
    requires l.Valid() && l.NoNegativeBalance() && IdsFresh(l, ids) && p.Valid()
    requires req.fromAccountId != req.toAccountId && req.amount > 0.0
    ensures var h := Route(l, p, customerId, req, token, now, ids);
      h.ledger.Valid() && h.ledger.NoNegativeBalance() && h.partner.Valid()
  {
    match l.accounts.Get(req.fromAccountId)
    case None =>
    case Some(source) =>
      if source.customerId == customerId {
        match l.accounts.Get(req.toAccountId)
        case None =>
          if p.GetBalance(req.toAccountId, token, now).Ok? {
            ExternalKeepsInvariants(l, p, customerId, req, source, token, now);
          }
        case Some(dest) =>
          if dest.customerId == customerId {
            InternalTransferFundsCheck(l, p, customerId, req, source, dest, now, ids);
            if source.balance >= req.amount + FeeFor(source.kind, req.amount) {
              ApplyInternalKeepsNonNegative(l, customerId, req, source, dest, now, ids);
            }
          }
      }
  }

  /** Every request keeps the ledger well formed and free of negative balances, and keeps the
      partner's cached token well formed. */
  lemma TransferKeepsInvariants(
    l: Ledger, p: Partner, customerId: string,
    fromAccountId: Json, toAccountId: Json, amount: Json, now: nat, ids: TransferIds)
    requires l.Valid() && l.NoNegativeBalance() && IdsFresh(l, ids) && p.Valid()
    ensures var h := TransferResult(l, p, customerId, fromAccountId, toAccountId, amount, now, ids);
      h.ledger.Valid() && h.ledger.NoNegativeBalance() && h.partner.Valid()
  {
    match CheckTransferBody(fromAccountId, toAccountId, amount)
    case Thrown =>
    case Rejected(_) =>
    case Accepted(req) =>
      if customerId in l.customers {
        GetTokenIssuesAcceptedToken(p, now);
        var (p1, token) := p.GetToken(now);
        if token.Ok? {
          RouteKeepsInvariants(l, p1, customerId, req, token.value, now, ids);
        }
      }
  }

  /** A successful transfer moves money only out of an account of the requesting customer and
      only to another account of that customer or to an account the partner knows. Locally the
      total changes by interest minus fee; for a partner transfer what leaves the ledger
      arrives at the partner account. */
  lemma SuccessfulRoute(
    l: Ledger, p: Partner, customerId: string, req: TransferRequest,
    token: string, now: nat, ids: TransferIds)
    requires l.Valid() && IdsFresh(l, ids)
    requires req.fromAccountId != req.toAccountId && req.amount > 0.0
    requires p.ValidateToken(token, now) == Pass
    ensures var h := Route(l, p, customerId, req, token, now, ids);
      h.reply.Created? ==>
        && req.fromAccountId in l.accounts.entries
        && l.accounts.entries[req.fromAccountId].customerId == customerId
        && (req.toAccountId in l.accounts.entries ==>
              && l.accounts.entries[req.toAccountId].customerId == customerId
              && h.ledger.Total()
                 == l.Total() - FeeFor(l.accounts.entries[req.fromAccountId].kind, req.amount)
                    + InterestFor(l.accounts.entries[req.toAccountId].kind, req.amount))
        && (req.toAccountId !in l.accounts.entries ==>
              && req.toAccountId in p.accounts
              && h.ledger.Total() + h.partner.accounts[req.toAccountId]
                 == l.Total() + p.accounts[req.toAccountId])
  {
    var h := Route(l, p, customerId, req, token, now, ids);
    if h.reply.Created? {
      var source := l.accounts.entries[req.fromAccountId];
      if req.toAccountId in l.accounts.entries {
        var dest := l.accounts.entries[req.toAccountId];
        InternalTransferFundsCheck(l, p, customerId, req, source, dest, now, ids);
        ApplyInternalBalances(l, customerId, req, source, dest, now, ids);
      } else {
        ExternalTransferRefused(l, p, customerId, req, source, token, now);
        ExternalTransferApplied(l, p, customerId, req, source, token, now);
      }
    }
  }

  /** The answers of a whole request whose body was accepted. An unknown customer gets 404
      "Customer not found" and nothing changes; a token failure gets 500 and nothing changes.
      A 201 implies a known customer and a token, and then moves money only out of an account
      of that customer, to another of its accounts (the total changing by interest - fee) or to
      an account the partner knows (what leaves the ledger arriving there). */
  lemma TransferOutcome(
    l: Ledger, p: Partner, customerId: string,
    fromAccountId: Json, toAccountId: Json, amount: Json, now: nat, ids: TransferIds)
    requires l.Valid() && IdsFresh(l, ids) && p.Valid()
    ensures var (h, checked) := (TransferResult(l, p, customerId, fromAccountId, toAccountId, amount, now, ids),
                                 CheckTransferBody(fromAccountId, toAccountId, amount));
      && (checked.Accepted? && customerId !in l.customers ==> h == Handled(l, p, NotFound(CustomerNotFoundMessage)))
      && (checked.Accepted? && customerId in l.customers && p.GetToken(now).1.Err? ==>
            h == Handled(l, p, ServerError(AuthFailedMessage)))
      && (h.reply.Created? ==>
            && checked.Accepted? && customerId in l.customers && p.GetToken(now).1.Ok?
            && var (req, p1) := (checked.value, p.GetToken(now).0);
               && req.fromAccountId in l.accounts.entries
               && l.accounts.entries[req.fromAccountId].customerId == customerId
               && (req.toAccountId in l.accounts.entries ==>
                     && l.accounts.entries[req.toAccountId].customerId == customerId
                     && h.ledger.Total()
                        == l.Total() - FeeFor(l.accounts.entries[req.fromAccountId].kind, req.amount)
                           + InterestFor(l.accounts.entries[req.toAccountId].kind, req.amount))
               && (req.toAccountId !in l.accounts.entries ==>
                     && req.toAccountId in p.accounts
                     && h.ledger.Total() + h.partner.accounts[req.toAccountId]
                        == l.Total() + p.accounts[req.toAccountId]))
  {
    GetTokenIssuesAcceptedToken(p, now);
    match CheckTransferBody(fromAccountId, toAccountId, amount)
    case Thrown =>
    case Rejected(_) =>
    case Accepted(req) =>
      if customerId in l.customers {
        var (p1, token) := p.GetToken(now);
        if token.Ok? {
          SuccessfulRoute(l, p1, customerId, req, token.value, now, ids);
        }
      }
  }

  // ---------------------------------------------------------------------------------------
  // The handler

  /** index.js:121-157: check the body, find the customer, obtain a partner token, then route. */
  method HandleTransfer(
    store: Store, bank: MockClient, customerId: string,
    fromAccountId: Json, toAccountId: Json, amount: Json,
    now: nat, ids: TransferIds)
    returns (reply: Reply<string>)
    requires store.Valid() && bank.Valid()
    modifies store, bank
    ensures store.Valid() && bank.Valid()
    ensures Handled(store.View(), bank.State(), reply)
            == TransferResult(old(store.View()), old(bank.State()), customerId, fromAccountId, toAccountId, amount, now, ids)
  {
    var checked := CheckTransferBody(fromAccountId, toAccountId, amount);
    if checked.Thrown? {
      return Uncaught;
    }
    if checked.Rejected? {
      return InvalidBody(checked.errors);
    }
    var req := checked.value;

    var customer := store.GetCustomerById(customerId);
    if customer.None? {
      return NotFound(CustomerNotFoundMessage);
    }

    var token := bank.GetToken(now);
    if token.Err? {
      return ServerError(AuthFailedMessage);
    }
    reply := RouteTransfer(store, bank, customerId, req, token.value, now, ids);
  }

  /** index.js:159-184: resolve the source, then the destination locally or at the partner. */
  method RouteTransfer(
    store: Store, bank: MockClient, customerId: string, req: TransferRequest,
    token: string, now: nat, ids: TransferIds)
    returns (reply: Reply<string>)
    requires store.Valid() && bank.Valid()
    modifies store, bank
    ensures store.Valid() && bank.Valid()
    ensures Handled(store.View(), bank.State(), reply)
            == Route(old(store.View()), old(bank.State()), customerId, req, token, now, ids)
  {
    var fromAccount := store.GetAccountById(req.fromAccountId);
    if fromAccount.None? {
      return BadRequest("Source account " + req.fromAccountId + " not found");
    }
    var source := fromAccount.value;
    if source.customerId != customerId {
      return BadRequest(SourceNotOwnedMessage);
    }

    var isExternalTransfer := false;
    var toAccount := store.GetAccountById(req.toAccountId);
    if toAccount.None? {
      var probe := bank.GetBalance(req.toAccountId, token, now);
      if probe.Err? {
        return BadRequest("Destination account " + req.toAccountId + " not found");
      }
      isExternalTransfer := true;
    } else if toAccount.value.customerId != customerId {
      return BadRequest(DestinationNotOwnedMessage);
    }

    if isExternalTransfer {
      reply := ExecuteExternal(store, bank, customerId, req, source, token, now);
    } else {
      reply := ExecuteInternal(store, bank, customerId, req, source, toAccount.value, now, ids);
    }
  }

  /** index.js:184-218: a transfer to an account known only to the partner. */
  method ExecuteExternal(
    store: Store, bank: MockClient, customerId: string, req: TransferRequest,
    source: Account, token: string, now: nat)
    returns (reply: Reply<string>)
    requires store.Valid() && bank.Valid()
    modifies store, bank
    ensures store.Valid() && bank.Valid()
    ensures Handled(store.View(), bank.State(), reply)
            == ExternalTransfer(old(store.View()), old(bank.State()), customerId, req, source, token, now)
  {
    if source.balance < req.amount {
      return BadRequest(InsufficientFundsMessage);
    }
    var transactionId := bank.InitiateTransfer(req.fromAccountId, req.toAccountId, token, req.amount, now);
    if transactionId.Err? {
      return BadRequest(transactionId.message);
    }
    store.UpdateAccount(source.(balance := source.balance - req.amount));
    store.AddTransaction(PartnerRecord(transactionId.value, customerId, req, now));
    reply := Created(transactionId.value);
  }

  /** index.js:221-288: a transfer between two local accounts of the customer. */
  method ExecuteInternal(
    store: Store, bank: MockClient, customerId: string, req: TransferRequest,
    source: Account, dest: Account, now: nat, ids: TransferIds)
    returns (reply: Reply<string>)
    requires store.Valid()
    modifies store
    ensures store.Valid()
    ensures Handled(store.View(), bank.State(), reply)
            == InternalTransfer(old(store.View()), bank.State(), customerId, req, source, dest, now, ids)
  {
    ghost var before := store.View();
    ghost var p := bank.State();
    InternalTransferFundsCheck(before, p, customerId, req, source, dest, now, ids);
    var fee := 0.0;
    if source.kind == Current {
      fee := req.amount * 0.0005;
    }
    var totalDeduction := req.amount + fee;
    if source.balance < totalDeduction {
      return BadRequest(InsufficientFundsMessage);
    }
    var interest := 0.0;
    if dest.kind == Savings {
      interest := req.amount * 0.005;
    }
    var src := source.(balance := source.balance - totalDeduction);
    var dst := dest.(balance := dest.balance + (req.amount + interest));
    ApplyInternalSteps(before, customerId, req, source, dest, now, ids, fee, interest);
    store.UpdateAccount(src);
    store.UpdateAccount(dst);
    RecordInternalLegs(store, customerId, req, fee, interest, now, ids);
    reply := Created(ids.transfer);
  }

  /** index.js:242-281: add the principal record, then the fee record if a fee was charged,
      then the interest record if interest was paid. */
  method RecordInternalLegs(
    store: Store, customerId: string, req: TransferRequest,
    fee: real, interest: real, now: nat, ids: TransferIds)
    requires store.Valid()
    modifies store
    ensures store.Valid()
    ensures store.View() == RecordLegs(old(store.View()), customerId, req, fee, interest, now, ids)
  {
    store.AddTransaction(TransferRecord(ids.transfer, customerId, req, now));
    if fee > 0.0 {
      store.AddTransaction(FeeRecord(ids.fee, customerId, req, fee, now));
    }
    if interest > 0.0 {
      store.AddTransaction(InterestRecord(ids.interest, customerId, req, interest, now));
    }
  }
}
