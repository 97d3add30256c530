/** bankz.js: the mock of the partner bank "Bank Z". `Partner` is the value of the client's
    fields at one instant, with each operation as a function from it; `MockClient` is the
    mutable object the handlers call. The clock (`Date.now()`, `new Date()`) is the parameter
    `now`, in milliseconds since the epoch. */
module BankZ {
  import opened Wrappers
  import opened Decimal

  /** A token is valid for one hour. */
  const TokenLifetime: nat := 3600 * 1000

  const MockClientId: string := "mock-client-id"
  const MockClientSecret: string := "mock-client-secret"

  /** The token record of bankz.js: an opaque id and the instant it stops being valid. */
  datatype Token = Token(accessToken: string, expiresAt: nat)

  /** `token-${Date.now()}` */
  function TokenName(issuedAt: nat): string
  {
    "token-" + NatToString(issuedAt)
  }

  /** `bankz-tx-${Date.now()}` */
  function TransferName(at: nat): string
  {
    "bankz-tx-" + NatToString(at)
  }

  datatype Partner = Partner(
    accounts: map<string, real>,
    clientId: string,
    clientSecret: string,
    token: Option<Token>)
  {
    /** A cached token is one that getToken issued: its id names its issue instant, which lies
        one lifetime before its expiry. */
    ghost predicate Valid()
    {
      token.Some? ==>
        && token.value.expiresAt >= TokenLifetime
        && token.value.accessToken == TokenName(token.value.expiresAt - TokenLifetime)
    }

    /** `this.token && this.token.expiresAt > new Date()` */
    predicate HasLiveToken(now: nat)
    {
      token.Some? && token.value.expiresAt > now
    }

    predicate CredentialsAccepted()
    {
      clientId == MockClientId && clientSecret == MockClientSecret
    }

    /** `getToken()`: the cached token while it is live, otherwise a new one (or an error when
        the configured credentials are not the mock's). */
    function GetToken(now: nat): (Partner, Result<string>)
    {
      if HasLiveToken(now) then (this, Ok(token.value.accessToken))
      else if !CredentialsAccepted() then (this, Err("Invalid client credentials"))
      else
        var issued := Token(TokenName(now), now + TokenLifetime);
        (this.(token := Some(issued)), Ok(issued.accessToken))
    }

    /** `validateToken(t)` */
    function ValidateToken(t: string, now: nat): Outcome
    {
      if token.None? || token.value.accessToken != t || token.value.expiresAt <= now
      then Fail("Invalid or expired token")
      else Pass
    }

    /** `getBalance(accountId, t)`; it changes nothing. */
    function GetBalance(accountId: string, t: string, now: nat): Result<real>
    {
      match ValidateToken(t, now)
      case Fail(m) => Err(m)
      case Pass =>
        if accountId !in accounts then Err("Bank Z account " + accountId + " not found")
        else Ok(accounts[accountId])
    }

    /** `initiateTransfer(fromAccountId, toAccountId, t, amount)`: credits the destination and
        names the transfer after the clock. The source id is neither checked nor debited. */
    function InitiateTransfer(fromAccountId: string, toAccountId: string, t: string, amount: real, now: nat)
      : (Partner, Result<string>)
    {
      match ValidateToken(t, now)
      case Fail(m) => (this, Err(m))
      case Pass =>
        if amount <= 0.0 then (this, Err("Amount must be positive"))
        else if toAccountId !in accounts then
          (this, Err("Destination Bank Z account " + toAccountId + " not found"))
        else
          (this.(accounts := accounts[toAccountId := accounts[toAccountId] + amount]), Ok(TransferName(now)))
    }
  }

  /** The state the constructor of MockClient sets up. */
  function InitialPartner(): (p: Partner)
    ensures p.Valid() && p.CredentialsAccepted() && p.token.None?
  {
    Partner(
      map["bankz-acc-123" := 1000.0, "bankz-acc-456" := 500.0],
      MockClientId, MockClientSecret, None)
  }

  /** getToken only ever replaces the cached token, keeps the client valid, and the token it
      returns is accepted by validateToken at the same instant. */
  lemma GetTokenIssuesAcceptedToken(p: Partner, now: nat)
    requires p.Valid()
    ensures var (p', r) := p.GetToken(now);
      && p'.Valid()
      && p'.accounts == p.accounts && p'.clientId == p.clientId && p'.clientSecret == p.clientSecret
      && (r.Ok? ==> p'.ValidateToken(r.value, now) == Pass)
      && (r.Err? ==> p' == p)
  {
  }

  /** getToken fails exactly when no live token is cached and the credentials differ from the
      mock's; with the constructor's credentials it never fails. */
  lemma GetTokenFailsIff(p: Partner, now: nat)
    ensures p.GetToken(now).1.Err? <==> !p.HasLiveToken(now) && !p.CredentialsAccepted()
    ensures p.GetToken(now).1.Err? ==> p.GetToken(now).1.message == "Invalid client credentials"
  {
  }

  /** Two calls within the validity window of the token obtained by the first return the same
      token, and the second changes nothing. */
  lemma {:induction false} TokenReusedWhileLive(p: Partner, now1: nat, now2: nat)
    requires p.GetToken(now1).1.Ok?
    requires var p1 := p.GetToken(now1).0; now2 < p1.token.value.expiresAt
    ensures var (p1, r1) := p.GetToken(now1);
      p1.GetToken(now2) == (p1, r1)
  {
    var (p1, r1) := p.GetToken(now1);
    assert p1.HasLiveToken(now2);
    if p.HasLiveToken(now1) {
      assert p1 == p;
    } else {
      assert p1.token.value.accessToken == TokenName(now1);
    }
  }

  /** A refresh (the cached token has expired and the credentials are the mock's) replaces the
      cached token by one with a different id: a token is refreshed only once the clock has
      reached its expiry, hence after the instant its id was named after. */
  lemma RefreshedTokenIsNew(p: Partner, now: nat)
    requires p.Valid() && p.token.Some?
    requires !p.HasLiveToken(now) && p.CredentialsAccepted()
    ensures p.GetToken(now).0 != p
    ensures p.GetToken(now).1.Ok?
    ensures p.GetToken(now).1.value != p.token.value.accessToken
  {
    var issued := p.token.value.expiresAt - TokenLifetime;
    assert issued < now;
    TaggedInjective("token-", issued, now);
  }

  /** getBalance reports the stored balance exactly for the accounts the partner has, given a
      token it accepts. */
  lemma GetBalanceIff(p: Partner, accountId: string, t: string, now: nat)
    requires p.ValidateToken(t, now) == Pass
    ensures p.GetBalance(accountId, t, now).Ok? <==> accountId in p.accounts
    ensures p.GetBalance(accountId, t, now).Ok? ==> p.GetBalance(accountId, t, now).value == p.accounts[accountId]
  {
  }

  /** initiateTransfer fails, in this order, on a rejected token, a non-positive amount and an
      unknown destination, and then changes nothing; on success it only credits the
      destination, by exactly the amount. */
  lemma InitiateTransferEffect(p: Partner, from: string, to: string, t: string, amount: real, now: nat)
    ensures var (p', r) := p.InitiateTransfer(from, to, t, amount, now);
      && (r.Err? ==> p' == p)
      && (p.ValidateToken(t, now).Fail? ==> r == Err("Invalid or expired token"))
      && (p.ValidateToken(t, now).Pass? && amount <= 0.0 ==> r == Err("Amount must be positive"))
      && (r.Ok? <==> p.ValidateToken(t, now).Pass? && amount > 0.0 && to in p.accounts)
      && (r.Ok? ==> && r.value == TransferName(now)
                    && p' == p.(accounts := p.accounts[to := p.accounts[to] + amount]))
  {
  }

  /** The source account id plays no part in a partner transfer. */
  lemma InitiateTransferIgnoresSource(p: Partner, from1: string, from2: string, to: string, t: string, amount: real, now: nat)
    ensures p.InitiateTransfer(from1, to, t, amount, now) == p.InitiateTransfer(from2, to, t, amount, now)
  {
  }

  /** Two successful partner transfers at different instants get different ids. */
  lemma TransferNamesDiffer(a: nat, b: nat)
    ensures TransferName(a) == TransferName(b) <==> a == b
  {
    TaggedInjective("bankz-tx-", a, b);
  }

  // ---------------------------------------------------------------------------------------
  // The account lookup as written

  /** The names every plain object inherits from `Object.prototype`. The partner's account table
      is a plain object, so `this.accounts[id]` finds these too, and what it finds is truthy. */
  const InheritedNames: set<string> := {
    "constructor", "__proto__", "hasOwnProperty", "isPrototypeOf", "propertyIsEnumerable",
    "toLocaleString", "toString", "valueOf",
    "__defineGetter__", "__defineSetter__", "__lookupGetter__", "__lookupSetter__"}

  /** `getBalance(accountId, t)` as written: an inherited name is "found", and the `balance` of
      the built-in found there is `undefined` (None) instead of an error. */
  function GetBalanceAsWritten(p: Partner, accountId: string, t: string, now: nat): Result<Option<real>>
  {
    match p.ValidateToken(t, now)
    case Fail(m) => Err(m)
    case Pass =>
      if accountId in p.accounts then Ok(Some(p.accounts[accountId]))
      else if accountId in InheritedNames then Ok(None)
      else Err("Bank Z account " + accountId + " not found")
  }

  /** `initiateTransfer(...)` as written: for an inherited name the `+=` lands on a built-in
      object (its `balance` becomes NaN), no partner account is credited, and an id is
      returned. */
  function InitiateTransferAsWritten(p: Partner, fromAccountId: string, toAccountId: string, t: string, amount: real, now: nat)
    : (Partner, Result<string>)
  {
    if p.ValidateToken(t, now).Pass? && amount > 0.0 && toAccountId !in p.accounts && toAccountId in InheritedNames
    then (p, Ok(TransferName(now)))
    else p.InitiateTransfer(fromAccountId, toAccountId, t, amount, now)
  }

  /** An inherited name as destination: as written, the balance probe does not throw and the
      transfer returns an id while crediting no partner account; `Partner.GetBalance` and
      `Partner.InitiateTransfer`, which look up own accounts only, refuse it. */
  lemma InheritedDestinationAsWritten(p: Partner, from: string, to: string, t: string, amount: real, now: nat)
    requires p.ValidateToken(t, now) == Pass && amount > 0.0
    requires to in InheritedNames && to !in p.accounts
    ensures GetBalanceAsWritten(p, to, t, now) == Ok(None)
    ensures InitiateTransferAsWritten(p, from, to, t, amount, now) == (p, Ok(TransferName(now)))
    ensures p.GetBalance(to, t, now) == Err("Bank Z account " + to + " not found")
    ensures p.InitiateTransfer(from, to, t, amount, now) == (p, Err("Destination Bank Z account " + to + " not found"))
  {
  }

  /** Away from inherited names the lookup as written and the own-account lookup agree. */
  lemma AsWrittenAgreesOnOwnNames(p: Partner, from: string, to: string, t: string, amount: real, now: nat)
    requires to !in InheritedNames || to in p.accounts
    ensures GetBalanceAsWritten(p, to, t, now).Ok? <==> p.GetBalance(to, t, now).Ok?
    ensures GetBalanceAsWritten(p, to, t, now).Ok? ==> GetBalanceAsWritten(p, to, t, now).value == Some(p.GetBalance(to, t, now).value)
    ensures InitiateTransferAsWritten(p, from, to, t, amount, now) == p.InitiateTransfer(from, to, t, amount, now)
  {
  }

  /** The MockClient object of bankz.js. */
  class MockClient {
    var accounts: map<string, real>
    var clientId: string
    var clientSecret: string
    var token: Option<Token>

    function State(): Partner
      reads this
    {
      Partner(accounts, clientId, clientSecret, token)
    }

    ghost predicate Valid()
      reads this
    {
      State().Valid()
    }

    constructor ()
      ensures Valid() && State() == InitialPartner()
    {
      accounts := map["bankz-acc-123" := 1000.0, "bankz-acc-456" := 500.0];
      clientId := MockClientId;
      clientSecret := MockClientSecret;
      token := None;
    }

    method GetToken(now: nat) returns (r: Result<string>)
      requires Valid()
      modifies this
      ensures Valid()
      ensures (State(), r) == old(State()).GetToken(now)
    {
      if token.Some? && token.value.expiresAt > now {
        return Ok(token.value.accessToken);
      }
      if clientId != MockClientId || clientSecret != MockClientSecret {
        return Err("Invalid client credentials");
      }
      var tokenId := TokenName(now);
      token := Some(Token(tokenId, now + TokenLifetime));
      r := Ok(tokenId);
    }

    method ValidateToken(t: string, now: nat) returns (r: Outcome)
      ensures r.Pass? <==> token.Some? && token.value.accessToken == t && now < token.value.expiresAt
      ensures r.Fail? ==> r.message == "Invalid or expired token"
    {
      if token.None? || token.value.accessToken != t || token.value.expiresAt <= now {
        return Fail("Invalid or expired token");
      }
      r := Pass;
    }

    method GetBalance(accountId: string, t: string, now: nat) returns (r: Result<real>)
      ensures r == State().GetBalance(accountId, t, now)
    {
      var valid := ValidateToken(t, now);
      if valid.Fail? {
        return Err(valid.message);
      }
      if accountId !in accounts {
        return Err("Bank Z account " + accountId + " not found");
      }
      r := Ok(accounts[accountId]);
    }

    method InitiateTransfer(fromAccountId: string, toAccountId: string, t: string, amount: real, now: nat)
      returns (r: Result<string>)
      requires Valid()
      modifies this
      ensures Valid()
      ensures (State(), r) == old(State()).InitiateTransfer(fromAccountId, toAccountId, t, amount, now)
    {
      var valid := ValidateToken(t, now);
      if valid.Fail? {
        return Err(valid.message);
      }
      if amount <= 0.0 {
        return Err("Amount must be positive");
      }
      if toAccountId !in accounts {
        return Err("Destination Bank Z account " + toAccountId + " not found");
      }
      accounts := accounts[toAccountId := accounts[toAccountId] + amount];
      r := Ok(TransferName(now));
    }
  }
}
