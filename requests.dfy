/** The request-body checks of index.js and the answers the handlers give. */
module Requests {
  import opened Text
  import opened Seqs

  /** A field of a parsed JSON request body. `Absent` is `undefined` (the key is missing);
      `Structured` is an object or an array. */
  datatype Json = Absent | Null | Bool(b: bool) | Number(n: real) | Str(s: string) | Structured

  /** The values `!v` holds of. */
  predicate Falsy(v: Json)
  {
    v.Absent? || v.Null? || v == Bool(false) || v == Number(0.0) || v == Str("")
  }

  /** What a handler answers: 201 and 200 with a payload, 400 with a list of errors or one
      error, 404, 500, or an exception that escapes the handler (Express then answers 500). */
  datatype Reply<T> =
    | Created(value: T)
    | Okay(value: T)
    | InvalidBody(errors: seq<string>)
    | BadRequest(error: string)
    | NotFound(error: string)
    | ServerError(error: string)
    | Uncaught
  {
    function Status(): nat
    {
      match this
      case Created(_) => 201
      case Okay(_) => 200
      case InvalidBody(_) => 400
      case BadRequest(_) => 400
      case NotFound(_) => 404
      case ServerError(_) => 500
      case Uncaught => 500
    }
  }

  /** The result of checking a request body: its fields, the errors to answer with, or the
      `TypeError` that calling `trim` on a value that is not a string raises. */
  datatype Checked<T> = Accepted(value: T) | Rejected(errors: seq<string>) | Thrown

  const InvalidBodyMessage: string := "Invalid request body"
  const CustomerNotFoundMessage: string := "Customer not found"
  const AuthFailedMessage: string := "Failed to authenticate with Bank Z"

  /** Filtering a four-element list, one element at a time. */
  lemma FilterPrefixes(ms: seq<string>, p: string -> bool)
    requires |ms| == 4
    ensures Filter(ms, p)
            == (if p(ms[0]) then [ms[0]] else []) + (if p(ms[1]) then [ms[1]] else [])
               + (if p(ms[2]) then [ms[2]] else []) + (if p(ms[3]) then [ms[3]] else [])
  {
    assert ms[..0] == [];
    FilterSnoc(ms[..0], ms[0], p);
    assert ms[..0] + [ms[0]] == ms[..1];
    FilterSnoc(ms[..1], ms[1], p);
    assert ms[..1] + [ms[1]] == ms[..2];
    FilterSnoc(ms[..2], ms[2], p);
    assert ms[..2] + [ms[2]] == ms[..3];
    FilterSnoc(ms[..3], ms[3], p);
    assert ms[..3] + [ms[3]] == ms;
  }

  // ---------------------------------------------------------------------------------------
  // POST /api/customers/:customerId/transfers

  const EmptyFromMessage: string := "From account ID cannot be empty"
  const EmptyToMessage: string := "To account ID cannot be empty"
  const AmountMessage: string := "Amount must be positive"
  const SameAccountMessage: string := "Cannot transfer to the same account"

  /** The order in which the transfer checks report. */
  const TransferMessages: seq<string> := [EmptyFromMessage, EmptyToMessage, AmountMessage, SameAccountMessage]

  /** A transfer request that passed every check. */
  datatype TransferRequest = TransferRequest(fromAccountId: string, toAccountId: string, amount: real)

  predicate IsPositiveNumber(v: Json)
  {
    v.Number? && v.n > 0.0
  }

  /** The errors collected for a body whose two ids are strings. */
  function TransferErrors(fromAccountId: string, toAccountId: string, amount: Json): (errors: seq<string>)
    ensures EmptyFromMessage in errors <==> IsBlank(fromAccountId)
    ensures EmptyToMessage in errors <==> IsBlank(toAccountId)
    ensures AmountMessage in errors <==> !IsPositiveNumber(amount)
    ensures SameAccountMessage in errors <==> fromAccountId == toAccountId
    ensures forall e | e in errors :: e in TransferMessages
  {
    (if IsBlank(fromAccountId) then [EmptyFromMessage] else [])
    + (if IsBlank(toAccountId) then [EmptyToMessage] else [])
    + (if !IsPositiveNumber(amount) then [AmountMessage] else [])
    + (if fromAccountId == toAccountId then [SameAccountMessage] else [])
  }

  /** Which of the transfer checks fail, as a predicate on their messages. */
  function TransferCheckFails(fromAccountId: string, toAccountId: string, amount: Json): string -> bool
  {
    m => || (m == EmptyFromMessage && IsBlank(fromAccountId))
         || (m == EmptyToMessage && IsBlank(toAccountId))
         || (m == AmountMessage && !IsPositiveNumber(amount))
         || (m == SameAccountMessage && fromAccountId == toAccountId)
  }

  /** The errors are the failing checks in their fixed order, each once. */
  lemma TransferErrorsInOrder(fromAccountId: string, toAccountId: string, amount: Json)
    ensures TransferErrors(fromAccountId, toAccountId, amount)
            == Filter(TransferMessages, TransferCheckFails(fromAccountId, toAccountId, amount))
    ensures IsSubsequence(TransferErrors(fromAccountId, toAccountId, amount), TransferMessages)
  {
    var p := TransferCheckFails(fromAccountId, toAccountId, amount);
    var ms := TransferMessages;
    FilterPrefixes(ms, p);
    assert p(ms[0]) == IsBlank(fromAccountId);
    assert p(ms[1]) == IsBlank(toAccountId);
    assert p(ms[2]) == !IsPositiveNumber(amount);
    assert p(ms[3]) == (fromAccountId == toAccountId);
    FilterIsSubsequence(ms, p);
  }

  /** index.js:125-144: the body of a transfer request. */
  function CheckTransferBody(fromAccountId: Json, toAccountId: Json, amount: Json): (r: Checked<TransferRequest>)
    ensures r.Rejected? && r.errors == [InvalidBodyMessage]
            <==> Falsy(fromAccountId) || Falsy(toAccountId) || Falsy(amount)
    ensures r.Thrown?
            <==> !Falsy(fromAccountId) && !Falsy(toAccountId) && !Falsy(amount)
                 && !(fromAccountId.Str? && toAccountId.Str?)
    ensures r.Accepted?
            <==> && fromAccountId.Str? && toAccountId.Str? && IsPositiveNumber(amount)
                 && !IsBlank(fromAccountId.s) && !IsBlank(toAccountId.s)
                 && fromAccountId.s != toAccountId.s
    ensures r.Accepted? ==> r.value == TransferRequest(fromAccountId.s, toAccountId.s, amount.n)
  {
    if Falsy(fromAccountId) || Falsy(toAccountId) || Falsy(amount) then Rejected([InvalidBodyMessage])
    else if !fromAccountId.Str? || !toAccountId.Str? then Thrown
    else
      var errors := TransferErrors(fromAccountId.s, toAccountId.s, amount);
      if |errors| > 0 then Rejected(errors)
      else Accepted(TransferRequest(fromAccountId.s, toAccountId.s, amount.n))
  }

  // ---------------------------------------------------------------------------------------
  // POST /api/customers

  const EmptyNameMessage: string := "Name cannot be empty"
  const NameCharsMessage: string := "Name must contain only letters and spaces"
  const EmptyEmailMessage: string := "Email cannot be empty"
  const EmailFormatMessage: string := "Invalid email format"

  /** The order in which the onboarding checks report. */
  const CustomerMessages: seq<string> := [EmptyNameMessage, NameCharsMessage, EmptyEmailMessage, EmailFormatMessage]

  /** A customer request that passed every check. */
  datatype CustomerRequest = CustomerRequest(name: string, email: string)

  /** The errors collected for a body whose name and email are strings. */
  function CustomerErrors(name: string, email: string): (errors: seq<string>)
    ensures EmptyNameMessage in errors <==> IsBlank(name)
    ensures NameCharsMessage in errors <==> !IsBlank(name) && !IsPersonName(name)
    ensures EmptyEmailMessage in errors <==> IsBlank(email)
    ensures EmailFormatMessage in errors <==> !IsBlank(email) && !IsEmailAddress(email)
    ensures forall e | e in errors :: e in CustomerMessages
  {
    (if IsBlank(name) then [EmptyNameMessage] else [])
    + (if !IsBlank(name) && !IsPersonName(name) then [NameCharsMessage] else [])
    + (if IsBlank(email) then [EmptyEmailMessage] else [])
    + (if !IsBlank(email) && !IsEmailAddress(email) then [EmailFormatMessage] else [])
  }

  /** Which of the onboarding checks fail, as a predicate on their messages. */
  function CustomerCheckFails(name: string, email: string): string -> bool
  {
    m => || (m == EmptyNameMessage && IsBlank(name))
         || (m == NameCharsMessage && !IsBlank(name) && !IsPersonName(name))
         || (m == EmptyEmailMessage && IsBlank(email))
         || (m == EmailFormatMessage && !IsBlank(email) && !IsEmailAddress(email))
  }

  /** The errors are the failing checks in their fixed order, each once; a name and an email
      yield at most one error each. */
  lemma CustomerErrorsInOrder(name: string, email: string)
    ensures CustomerErrors(name, email) == Filter(CustomerMessages, CustomerCheckFails(name, email))
    ensures IsSubsequence(CustomerErrors(name, email), CustomerMessages)
    ensures |CustomerErrors(name, email)| <= 2
  {
    var p := CustomerCheckFails(name, email);
    var ms := CustomerMessages;
    FilterPrefixes(ms, p);
    assert p(ms[0]) == IsBlank(name);
    assert p(ms[1]) == (!IsBlank(name) && !IsPersonName(name));
    assert p(ms[2]) == IsBlank(email);
    assert p(ms[3]) == (!IsBlank(email) && !IsEmailAddress(email));
    FilterIsSubsequence(ms, p);
  }

  /** index.js:22-44: the body of an onboarding request. */
  function CheckCustomerBody(name: Json, email: Json): (r: Checked<CustomerRequest>)
    ensures r.Rejected? && r.errors == [InvalidBodyMessage] <==> Falsy(name) || Falsy(email)
    ensures r.Thrown? <==> !Falsy(name) && !Falsy(email) && !(name.Str? && email.Str?)
    ensures r.Accepted?
            <==> && name.Str? && email.Str?
                 && IsPersonName(name.s) && !IsBlank(name.s)
                 && IsEmailAddress(email.s) && !IsBlank(email.s)
    ensures r.Accepted? ==> r.value == CustomerRequest(name.s, email.s)
  {
    if Falsy(name) || Falsy(email) then Rejected([InvalidBodyMessage])
    else if !name.Str? || !email.Str? then Thrown
    else
      var errors := CustomerErrors(name.s, email.s);
      if |errors| > 0 then Rejected(errors)
      else Accepted(CustomerRequest(name.s, email.s))
  }
}
