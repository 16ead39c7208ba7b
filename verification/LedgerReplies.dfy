/** What the cashier's answers tell. */
module LedgerReplies {
  import opened Ledger
  import opened LedgerHistory

  // An accepted request is answered with its user's row as it is afterwards, and is called a replay
  // if and only if its key had been used before.
  lemma ReplyTellsRow(t: Tables, r: Request)
    requires Transact(t, r).reply.Ok? && !r.ReadReq?
    ensures var t', reply := Transact(t, r).tables, Transact(t, r).reply;
      && UserOf(r) in t'.accounts && t'.accounts[UserOf(r)] == Account(reply.gross, reply.escrowed)
      && (reply.isReplay <==> Keyed(r) && KeyOf(r) in t.keys)
  {
  }

  // Asking for the balance answers the row, and zeros for an unknown user.
  lemma BalanceTellsRow(t: Tables, user: string)
    ensures CheckAvailable(t, user).Ok? && !CheckAvailable(t, user).isReplay
    ensures Account(CheckAvailable(t, user).gross, CheckAvailable(t, user).escrowed) ==
      if user in t.accounts then t.accounts[user] else Account(0, 0)
  {
  }

  predicate BadArguments(r: Request) {
    match r
    case DepositReq(_, key, amount) => amount <= 0 || key == ""
    case WithdrawReq(_, key, amount) => amount <= 0 || key == ""
    case CreditReq(_, ref, amount) => amount <= 0 || ref == ""
    case ConfirmReq(_, ref, amount) => amount <= 0 || ref == ""
    case CancelReq(_, ref, amount) => amount <= 0 || ref == ""
    case EscrowReq(_, _, amount) => amount <= 0
    case _ => false
  }

  function Free(a: Account): int { a.gross - a.escrowed }

  datatype Verdict = Accepted | Refused(why: Error)

  // Whether the cashier accepts a request, in terms of the balances a user sees.
  function Judge(t: Tables, r: Request): Verdict
    requires !r.ReadReq?
  {
    var known, a := UserOf(r) in t.accounts, RowOf(t, UserOf(r));
    if BadArguments(r) then Refused(InvalidArgument)
    else if Keyed(r) && KeyOf(r) in t.keys then (if known then Accepted else Refused(NoSuchRow))
    else
      match r
      case DepositReq(_, _, _) => Accepted
      case CreditReq(_, _, _) => Accepted
      case WithdrawReq(_, _, amount) => Pays(known, Free(a), amount, UnknownUser, InsufficientFunds)
      case EscrowReq(_, _, amount) => Pays(known, Free(a), amount, UnknownUser, InsufficientFunds)
      case ConfirmReq(_, _, amount) => Pays(known, a.escrowed, amount, UnknownUser, ConstraintViolated)
      case CancelReq(_, _, amount) => Pays(known, a.escrowed, amount, InsufficientFunds, InsufficientFunds)
      case CommitReq(order, read) =>
        if order !in t.entries then Refused(UnknownEscrow)
        else Pays(known, a.escrowed, read.amount, NoSuchRow, ConstraintViolated)
  }

  function Pays(known: bool, held: int, amount: int, unknown: Error, short: Error): Verdict {
    if !known then Refused(unknown) else if held < amount then Refused(short) else Accepted
  }

  predicate Judged(t: Tables, r: Request)
    requires !r.ReadReq?
  {
    var reply := Transact(t, r).reply;
    Judge(t, r) == if reply.Ok? then Accepted else Refused(reply.error)
  }

  lemma CreditsJudged(t: Tables, r: Request)
    requires !r.ReadReq? && RowOk(RowOf(t, UserOf(r))) && (r.DepositReq? || r.CreditReq?)
    ensures Judged(t, r)
  {
  }

  lemma WithdrawJudged(t: Tables, r: Request)
    requires r.WithdrawReq? && RowOk(RowOf(t, r.user))
    ensures Judged(t, r)
  {
  }

  lemma EscrowJudged(t: Tables, r: Request)
    requires r.EscrowReq? && RowOk(RowOf(t, r.user))
    ensures Judged(t, r)
  {
    var reply := Transact(t, r).reply;
    assert reply == Escrow(t, r.user, r.order, r.amount).reply;
  }

  lemma ResolvesJudged(t: Tables, r: Request)
    requires !r.ReadReq? && RowOk(RowOf(t, UserOf(r))) && (r.ConfirmReq? || r.CancelReq?)
    ensures Judged(t, r)
  {
  }

  lemma CommitJudged(t: Tables, r: Request)
    requires r.CommitReq? && RowOk(RowOf(t, UserOf(r))) && 0 <= r.read.amount
    ensures Judged(t, r)
  {
  }

  // The verdict and its reason, for every request.  In particular the row constraints refuse nothing
  // but a confirm or a release beyond what is escrowed.
  lemma VerdictIsJudged(t: Tables, r: Request)
    requires RowsOk(t) && !r.ReadReq? && (r.CommitReq? ==> 0 <= r.read.amount)
    ensures var reply := Transact(t, r).reply;
      Judge(t, r) == if reply.Ok? then Accepted else Refused(reply.error)
  {
    assert RowOk(RowOf(t, UserOf(r)));
    if r.DepositReq? || r.CreditReq? {
      CreditsJudged(t, r);
    } else if r.WithdrawReq? {
      WithdrawJudged(t, r);
    } else if r.EscrowReq? {
      EscrowJudged(t, r);
    } else if r.CommitReq? {
      CommitJudged(t, r);
    } else {
      ResolvesJudged(t, r);
    }
    assert Judged(t, r);
  }
}
