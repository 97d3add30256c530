/** The three record kinds of models.js. Their JavaScript constructors only copy their arguments
    into fields, which is what a datatype constructor does. */
module Models {
  import opened Wrappers

  datatype Customer = Customer(id: string, name: string, email: string)

  /** The `type` field of an account: only "current" and "savings" are ever created. */
  datatype AccountType = Current | Savings

  /** `createdAt` is the creation instant in milliseconds since the epoch. */
  datatype Account = Account(id: string, customerId: string, kind: AccountType, balance: real, createdAt: int)

  /** The `type` field of a transaction. The comment in models.js lists "transfer", "payment",
      "bonus", "interest" and "fee"; the handlers write "bankz_transfer" as well and never write
      "payment". */
  datatype TransactionType = Transfer | BankzTransfer | Fee | Interest | Bonus

  /** The string the source stores in `type` and compares against the `type` query filter. */
  function TypeName(t: TransactionType): (name: string)
    ensures |name| > 0
  {
    match t
    case Transfer => "transfer"
    case BankzTransfer => "bankz_transfer"
    case Fee => "fee"
    case Interest => "interest"
    case Bonus => "bonus"
  }

  /** Every value `type` can take. */
  const TypeNames: set<string> := {"transfer", "bankz_transfer", "fee", "interest", "bonus"}

  lemma TypeNamesListed(t: TransactionType)
    ensures TypeName(t) in TypeNames
  {
  }

  lemma TypeNameInjective(a: TransactionType, b: TransactionType)
    ensures TypeName(a) == TypeName(b) <==> a == b
  {
  }

  /** `fromAccountId` and `toAccountId` default to null; `None` is that null. */
  datatype Transaction = Transaction(
    id: string,
    accountId: string,
    customerId: string,
    kind: TransactionType,
    amount: real,
    fromAccountId: Option<string>,
    toAccountId: Option<string>,
    createdAt: int)
}
