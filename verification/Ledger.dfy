/** The cashier's tables and its transactions (cashier/internal/postgres_cashier.go), each
    transaction one atomic step.  Amounts are unbounded. */
module Ledger {

  datatype Account = Account(gross: int, escrowed: int)

  // The row constraints of the accounts table.
  predicate RowOk(a: Account) { 0 <= a.gross && 0 <= a.escrowed <= a.gross }

  // An amount held for a user.
  datatype Posting = Posting(user: string, amount: int)

  datatype Tables = Tables(accounts: map<string, Account>, entries: map<nat, Posting>, keys: set<string>)

  const EMPTY_TABLES := Tables(map[], map[], {})

  datatype Error =
    | InvalidArgument
    | UnknownUser
    | InsufficientFunds
    | UnknownEscrow
    | ConstraintViolated
    | NoSuchRow

  datatype Reply = Ok(gross: int, escrowed: int, isReplay: bool) | Err(error: Error)

  datatype Outcome = Outcome(tables: Tables, reply: Reply)

  // What the body of a keyed transaction does to the account rows.
  datatype Change = Done(accounts: map<string, Account>) | Failed(error: Error)

  // Writes an account row; a violated constraint aborts the transaction.
  function WriteRow(accounts: map<string, Account>, user: string, a: Account): Change {
    if RowOk(a) then Done(accounts[user := a]) else Failed(ConstraintViolated)
  }

  function Refuse(t: Tables, e: Error): Outcome { Outcome(t, Err(e)) }

  // Runs a change once per key: a repeated key changes nothing and reports the current row.
  function WithIdempotency(t: Tables, user: string, key: string, change: Change): Outcome {
    if key in t.keys then
      if user in t.accounts then Outcome(t, Ok(t.accounts[user].gross, t.accounts[user].escrowed, true))
      else Refuse(t, NoSuchRow)
    else
      match change
      case Failed(e) => Refuse(t, e)
      case Done(accounts) =>
        if user in accounts then
          Outcome(t.(accounts := accounts, keys := t.keys + {key}),
                  Ok(accounts[user].gross, accounts[user].escrowed, false))
        else Refuse(t, NoSuchRow)
  }

  function RowOf(t: Tables, user: string): Account { if user in t.accounts then t.accounts[user] else Account(0, 0) }

  function Deposit(t: Tables, user: string, key: string, amount: int): Outcome {
    if amount <= 0 || key == "" then Refuse(t, InvalidArgument)
    else
      var a := RowOf(t, user);
      WithIdempotency(t, user, key, WriteRow(t.accounts, user, a.(gross := a.gross + amount)))
  }

  function Withdraw(t: Tables, user: string, key: string, amount: int): Outcome {
    if amount <= 0 || key == "" then Refuse(t, InvalidArgument)
    else
      WithIdempotency(t, user, key,
        if user !in t.accounts then Failed(UnknownUser)
        else
          var a := t.accounts[user];
          if a.gross - a.escrowed < amount then Failed(InsufficientFunds)
          else WriteRow(t.accounts, user, a.(gross := a.gross - amount)))
  }

  // Holds part of a user's balance for an order.  The funds check comes before the check for a
  // repeated order id, and a repeated id changes nothing.
  function Escrow(t: Tables, user: string, order: nat, amount: int): Outcome {
    if amount <= 0 then Refuse(t, InvalidArgument)
    else if user !in t.accounts then Refuse(t, UnknownUser)
    else
      var a := t.accounts[user];
      if a.gross - a.escrowed < amount then Refuse(t, InsufficientFunds)
      else
        match WriteRow(t.accounts, user, a.(escrowed := a.escrowed + amount))
        case Failed(e) => Refuse(t, e)
        case Done(accounts) =>
          if order in t.entries then Outcome(t, Ok(a.gross, a.escrowed, false))
          else
            Outcome(t.(accounts := accounts, entries := t.entries[order := Posting(user, amount)]),
                    Ok(a.gross, a.escrowed + amount, false))
  }

  // The unlocked read that starts a release.
  datatype Read = Found(posting: Posting) | Missing

  function ReleaseRead(t: Tables, order: nat): Read {
    if order in t.entries then Found(t.entries[order]) else Missing
  }

  // The transaction that ends a release, with the posting read earlier.
  function ReleaseCommit(t: Tables, order: nat, read: Posting): Outcome {
    if order !in t.entries then Refuse(t, UnknownEscrow)
    else if read.user !in t.accounts then Refuse(t, NoSuchRow)
    else
      var a := t.accounts[read.user];
      match WriteRow(t.accounts, read.user, a.(escrowed := a.escrowed - read.amount))
      case Failed(e) => Refuse(t, e)
      case Done(accounts) =>
        Outcome(t.(accounts := accounts, entries := t.entries - {order}), Ok(a.gross, a.escrowed - read.amount, false))
  }

  function DepositEscrowed(t: Tables, user: string, ref: string, amount: int): Outcome {
    if amount <= 0 || ref == "" then Refuse(t, InvalidArgument)
    else
      var a := RowOf(t, user);
      WithIdempotency(t, user, ref, WriteRow(t.accounts, user, Account(a.gross + amount, a.escrowed + amount)))
  }

  function ConfirmKey(ref: string): string { "confirm:" + ref }

  function CancelKey(ref: string): string { "cancel:" + ref }

  function ConfirmDeposit(t: Tables, user: string, ref: string, amount: int): Outcome {
    if amount <= 0 || ref == "" then Refuse(t, InvalidArgument)
    else
      WithIdempotency(t, user, ConfirmKey(ref),
        if user !in t.accounts then Failed(UnknownUser)
        else
          var a := t.accounts[user];
          WriteRow(t.accounts, user, a.(escrowed := a.escrowed - amount)))
  }

  function CancelDeposit(t: Tables, user: string, ref: string, amount: int): Outcome {
    if amount <= 0 || ref == "" then Refuse(t, InvalidArgument)
    else
      WithIdempotency(t, user, CancelKey(ref),
        if user !in t.accounts || t.accounts[user].escrowed < amount then Failed(InsufficientFunds)
        else
          var a := t.accounts[user];
          WriteRow(t.accounts, user, Account(a.gross - amount, a.escrowed - amount)))
  }

  function CheckAvailable(t: Tables, user: string): Reply {
    if user in t.accounts then Ok(t.accounts[user].gross, t.accounts[user].escrowed, false) else Ok(0, 0, false)
  }
}
