/** Safety of the deposit protocol with one watcher. */
module DepositSafety {
  import opened Ledger
  import opened Postings
  import opened LedgerHistory
  import opened DepositKeys
  import opened DepositProtocol

  // ---------------------------------------------------------------- further assumptions

  predicate TouchesRows(step: Step) {
    || step.Seen? || step.DisconnectSoft? || step.DisconnectHard?
    || step.ListNotEscrowed? || step.ListReady? || step.ListReorged?
  }

  // One watcher handles one event at a time: nothing it listed before is still under way.
  predicate OneWatcher(s: System, step: Step) { TouchesRows(step) ==> s.tasks == {} }

  // No output is seen again after its cancel was applied.
  predicate SeenOnce(s: System, step: Step) { step.Seen? ==> !Cancelled(s.bank.history, step.op) }

  // No disconnect reaches an unconfirmed row that was already listed as deep enough.
  predicate DeepIsFinal(s: System, step: Step) {
    step.DisconnectSoft? ==>
      forall op :: op in s.deep && op in s.rows && !s.rows[op].confirmed ==> s.rows[op].height < step.height
  }

  // Which of the three are assumed.
  datatype Assumptions = Assumptions(oneWatcher: bool, seenOnce: bool, deepIsFinal: bool)

  const CALM := Assumptions(true, true, true)

  ghost predicate Allowed(a: Assumptions, s: System, step: Step) {
    && EnvOk(s, step)
    && (a.oneWatcher ==> OneWatcher(s, step))
    && (a.seenOnce ==> SeenOnce(s, step))
    && (a.deepIsFinal ==> DeepIsFinal(s, step))
  }

  ghost predicate AllowedRun(w: World, a: Assumptions, steps: seq<Step>) {
    steps == [] ||
    (AllowedRun(w, a, steps[..|steps| - 1])
      && Allowed(a, DepositProtocol.Run(w, steps[..|steps| - 1]), steps[|steps| - 1]))
  }

  ghost predicate Reachable(w: World, a: Assumptions, s: System) {
    exists steps :: AllowedRun(w, a, steps) && DepositProtocol.Run(w, steps) == s
  }

  lemma ReachStep(w: World, a: Assumptions, s: System, step: Step)
    requires Reachable(w, a, s) && Allowed(a, s, step)
    ensures Reachable(w, a, Next(w, s, step))
  {
    var steps :| AllowedRun(w, a, steps) && DepositProtocol.Run(w, steps) == s;
    var more := steps + [step];
    assert more[..|more| - 1] == steps && more[|more| - 1] == step;
    assert AllowedRun(w, a, more) && DepositProtocol.Run(w, more) == Next(w, s, step);
  }

  // ---------------------------------------------------------------- confirm and cancel exclude each other

  // A deposit that was deep enough once stays on the chain.
  predicate DeepStays(s: System, op: Outpoint) {
    ValidTxid(op.txid) && op in s.rows && s.rows[op].escrowed && !s.rows[op].reorged && !Cancelled(s.bank.history, op)
  }

  predicate Gone(s: System, op: Outpoint) { op !in s.deep && (op in s.rows ==> s.rows[op].reorged) }

  predicate TaskPlaced(s: System, t: Task) {
    && (t.ConfirmCall? || t.ConfirmMark? ==> t.op in s.deep)
    && (t.CancelCall? || t.CancelMark? ==> Gone(s, t.op))
  }

  ghost predicate Placed(s: System) {
    && (forall op :: op in s.deep ==> DeepStays(s, op))
    && (forall t :: t in s.tasks ==> TaskPlaced(s, t))
    && (forall op: Outpoint :: ValidTxid(op.txid) && Confirmed(s.bank.history, op) ==> op in s.deep)
    && (forall op: Outpoint :: ValidTxid(op.txid) && Cancelled(s.bank.history, op) ==> Gone(s, op))
  }

  lemma SeenPlaced(w: World, s: System, op: Outpoint, height: int)
    requires Placed(s) && s.tasks == {} && SeenOnce(s, Seen(op, height)) && ValidTxid(op.txid)
    ensures Placed(Next(w, s, Seen(op, height)))
  {
    var s' := Next(w, s, Seen(op, height));
    forall o | o in s'.deep ensures DeepStays(s', o) {
      assert DeepStays(s, o);
    }
    forall o: Outpoint | ValidTxid(o.txid) && Cancelled(s'.bank.history, o) ensures Gone(s', o) {
      assert Gone(s, o);
    }
  }

  lemma DisconnectPlaced(w: World, s: System, step: Step)
    requires Placed(s) && s.tasks == {} && DeepIsFinal(s, step)
    requires step.DisconnectSoft? || step.DisconnectHard?
    ensures Placed(Next(w, s, step))
  {
    var s' := Next(w, s, step);
    forall o | o in s'.deep ensures DeepStays(s', o) {
      assert DeepStays(s, o);
    }
    forall o: Outpoint | ValidTxid(o.txid) && Cancelled(s'.bank.history, o) ensures Gone(s', o) {
      assert Gone(s, o);
    }
  }

  lemma ListPlaced(w: World, s: System, step: Step)
    requires Backed(w, s) && Placed(s) && s.tasks == {}
    requires step.ListNotEscrowed? || step.ListReady? || step.ListReorged?
    ensures Placed(Next(w, s, step))
  {
    var s' := Next(w, s, step);
    forall o | o in s'.deep ensures DeepStays(s', o) {
      if o in s.deep {
        assert DeepStays(s, o);
      } else {
        assert RowBacked(w, s.bank.history, o, s.rows[o]);
        assert Cancelled(s.bank.history, o) ==> Gone(s, o);
      }
    }
    forall o: Outpoint | ValidTxid(o.txid) && Cancelled(s'.bank.history, o) ensures Gone(s', o) {
      assert Gone(s, o);
    }
    forall t | t in s'.tasks ensures TaskPlaced(s', t) {
      assert t.op in s.deep ==> DeepStays(s, t.op);
    }
  }

  lemma MarkPlaced(w: World, s: System, t: Task)
    requires Placed(s)
    ensures Placed(Next(w, s, Mark(t)))
  {
    var s' := Next(w, s, Mark(t));
    if t in s.tasks && !IsCall(t) {
      assert TaskPlaced(s, t);
      forall o | o in s'.deep ensures DeepStays(s', o) {
        assert DeepStays(s, o);
      }
      forall o: Outpoint | ValidTxid(o.txid) && Cancelled(s'.bank.history, o) ensures Gone(s', o) {
        assert Gone(s, o);
      }
      forall u | u in s'.tasks ensures TaskPlaced(s', u) {
        assert TaskPlaced(s, u);
      }
    }
  }

  // Only a confirm call confirms, and only a cancel call cancels.
  lemma NewEffects(b: Bank, r: Request)
    ensures var h, h' := b.history, Apply(b, r).history;
      && h'.confirmed.Keys <= h.confirmed.Keys + (if r.ConfirmReq? then {r.ref} else {})
      && h'.cancelled.Keys <= h.cancelled.Keys + (if r.CancelReq? then {r.ref} else {})
  {
  }

  // A bank that gains effects only for deposits in the right place.
  lemma BankPlaced(s: System, b: Bank, t: Task)
    requires Placed(s) && TaskPlaced(s, t) && ValidTxid(t.op.txid)
    requires b.history.confirmed.Keys <=
      s.bank.history.confirmed.Keys + (if t.ConfirmCall? then {DepositRef(t.op)} else {})
    requires b.history.cancelled.Keys <=
      s.bank.history.cancelled.Keys + (if t.CancelCall? then {DepositRef(t.op)} else {})
    ensures Placed(s.(bank := b))
  {
    var s' := s.(bank := b);
    forall o: Outpoint | ValidTxid(o.txid) && Confirmed(b.history, o) ensures o in s.deep {
      if !Confirmed(s.bank.history, o) {
        RefInjective(o, t.op);
      }
    }
    forall o: Outpoint | ValidTxid(o.txid) && Cancelled(b.history, o) ensures Gone(s', o) {
      if Cancelled(s.bank.history, o) {
        assert Gone(s, o);
      } else {
        RefInjective(o, t.op);
      }
    }
    forall o | o in s.deep ensures DeepStays(s', o) {
      assert DeepStays(s, o);
      if Cancelled(b.history, o) {
        RefInjective(o, t.op);
      }
    }
    forall u | u in s.tasks ensures TaskPlaced(s', u) {
      assert TaskPlaced(s, u);
    }
  }

  lemma TaskNoted(s: System, t: Task)
    requires Placed(s) && t in s.tasks && IsCall(t)
    ensures Placed(s.(tasks := s.tasks + {MarkOf(t)}))
  {
    var s' := s.(tasks := s.tasks + {MarkOf(t)});
    assert TaskPlaced(s, t);
    forall o | o in s.deep ensures DeepStays(s', o) {
      assert DeepStays(s, o);
    }
    forall u | u in s'.tasks ensures TaskPlaced(s', u) {
      assert u in s.tasks ==> TaskPlaced(s, u);
    }
    forall o: Outpoint | ValidTxid(o.txid) && Cancelled(s.bank.history, o) ensures Gone(s', o) {
      assert Gone(s, o);
    }
  }

  lemma CallPlaced(w: World, s: System, t: Task, reported: bool)
    requires Backed(w, s) && Placed(s) && t in s.tasks && IsCall(t)
    ensures Placed(Next(w, s, Call(t, reported)))
  {
    var r := RequestOf(t);
    var s1 := s.(bank := Apply(s.bank, r));
    assert TaskBacked(w, s.bank.history, t);
    NewEffects(s.bank, r);
    BankPlaced(s, s1.bank, t);
    TaskNoted(s1, t);
    CallValue(w, s, t, reported);
  }

  lemma SameEffectsPlaced(s: System, b: Bank)
    requires Placed(s) && b.history.confirmed.Keys <= s.bank.history.confirmed.Keys
    requires b.history.cancelled.Keys <= s.bank.history.cancelled.Keys
    ensures Placed(s.(bank := b))
  {
    var s' := s.(bank := b);
    forall o | o in s.deep ensures DeepStays(s', o) {
      assert DeepStays(s, o);
    }
    forall o: Outpoint | ValidTxid(o.txid) && Cancelled(b.history, o) ensures Gone(s', o) {
      assert Cancelled(s.bank.history, o) && Gone(s, o);
    }
    forall o: Outpoint | ValidTxid(o.txid) && Confirmed(b.history, o) ensures o in s.deep {
      assert Confirmed(s.bank.history, o);
    }
    forall u | u in s.tasks ensures TaskPlaced(s', u) {
      assert TaskPlaced(s, u);
    }
  }

  lemma FinishPlaced(w: World, s: System)
    requires Placed(s)
    ensures Placed(Next(w, s, Finish))
  {
    var s' := Next(w, s, Finish);
    forall o | o in s'.deep ensures DeepStays(s', o) {
      assert DeepStays(s, o);
    }
    forall o: Outpoint | ValidTxid(o.txid) && Cancelled(s.bank.history, o) ensures Gone(s', o) {
      assert Gone(s, o);
    }
  }

  lemma {:induction false} StepPlaced(w: World, s: System, step: Step)
    requires Backed(w, s) && Placed(s) && Allowed(CALM, s, step)
    ensures Placed(Next(w, s, step))
  {
    match step
    case Seen(op, height) => SeenPlaced(w, s, op, height);
    case DisconnectSoft(_) => DisconnectPlaced(w, s, step);
    case DisconnectHard(_) => DisconnectPlaced(w, s, step);
    case ListNotEscrowed => ListPlaced(w, s, step);
    case ListReady(_) => ListPlaced(w, s, step);
    case ListReorged(_) => ListPlaced(w, s, step);
    case Call(t, reported) =>
      if t in s.tasks && IsCall(t) {
        CallPlaced(w, s, t, reported);
      }
    case Mark(t) => MarkPlaced(w, s, t);
    case Finish => FinishPlaced(w, s);
    case UserStep(r) =>
      if UserRequest(r) {
        NewEffects(s.bank, r);
        SameEffectsPlaced(s, Apply(s.bank, r));
      }
  }

  lemma {:induction false} CalmRunPlaced(w: World, steps: seq<Step>)
    requires AllowedRun(w, CALM, steps)
    ensures Backed(w, DepositProtocol.Run(w, steps)) && Placed(DepositProtocol.Run(w, steps))
  {
    if steps == [] {
      IdleBacked(w);
    } else {
      var s, step := DepositProtocol.Run(w, steps[..|steps| - 1]), steps[|steps| - 1];
      CalmRunPlaced(w, steps[..|steps| - 1]);
      StepBacked(w, s, step);
      StepPlaced(w, s, step);
    }
  }

  // ---------------------------------------------------------------- what the balances hold

  // Escrowed deposits that are neither confirmed nor cancelled.
  function Unresolved(h: History): map<string, Posting> { h.credited - h.confirmed.Keys - h.cancelled.Keys }

  ghost predicate Exclusive(h: History) { h.confirmed.Keys !! h.cancelled.Keys }

  // A posting in any of the three tables is the chain's.
  lemma CreditedPosting(w: World, m: map<string, Posting>, op: Outpoint)
    requires AllFromChain(w, m) && ValidTxid(op.txid) && DepositRef(op) in m
    ensures m[DepositRef(op)] == w.chain(op)
  {
    var op' := FromChainRef(w, DepositRef(op), m[DepositRef(op)]);
    RefInjective(op, op');
  }

  lemma NeverBoth(w: World, s: System)
    requires Backed(w, s) && Placed(s)
    ensures Exclusive(s.bank.history)
  {
    var h := s.bank.history;
    forall ref | ref in h.confirmed ensures ref !in h.cancelled {
      var op := FromChainRef(w, ref, h.confirmed[ref]);
      assert Confirmed(h, op);
    }
  }

  lemma SameAmounts(w: World, m: map<string, Posting>, credited: map<string, Posting>, ref: string)
    requires AllFromChain(w, m) && AllFromChain(w, credited) && ref in m && ref in credited
    ensures m[ref] == credited[ref]
  {
    var op := FromChainRef(w, ref, m[ref]);
    CreditedPosting(w, credited, op);
  }

  lemma UnresolvedSum(w: World, h: History, user: string)
    requires HistoryBacked(w, h) && Exclusive(h)
    ensures Sum(Unresolved(h), user) == Sum(h.credited, user) - Sum(h.confirmed, user) - Sum(h.cancelled, user)
  {
    forall ref | ref in h.confirmed ensures ref in h.credited && h.credited[ref] == h.confirmed[ref] {
      SameAmounts(w, h.confirmed, h.credited, ref);
    }
    SumMinus(h.credited, h.confirmed, user);
    var rest := h.credited - h.confirmed.Keys;
    forall ref | ref in h.cancelled ensures ref in rest && rest[ref] == h.cancelled[ref] {
      SameAmounts(w, h.cancelled, h.credited, ref);
    }
    SumMinus(rest, h.cancelled, user);
  }

  // ---------------------------------------------------------------- no call of the watcher is refused

  lemma CreditAccepted(w: World, b: Bank, op: Outpoint)
    requires BankBacked(w, b) && ValidTxid(op.txid) && 0 < w.chain(op).amount
    ensures DepositEscrowed(b.tables, w.chain(op).user, DepositRef(op), w.chain(op).amount).reply.Ok?
  {
    if DepositRef(op) in b.tables.keys {
      RefTaken(w, b, op);
      CreditedPosting(w, b.history.credited, op);
    }
  }

  // The escrow balance covers every unresolved deposit.
  lemma EscrowCovers(w: World, b: Bank, op: Outpoint)
    requires BankBacked(w, b) && Exclusive(b.history) && ValidTxid(op.txid)
    requires DepositRef(op) in Unresolved(b.history)
    ensures w.chain(op).user in b.tables.accounts
    ensures 0 < w.chain(op).amount <= b.tables.accounts[w.chain(op).user].escrowed
  {
    var p, open := w.chain(op), Unresolved(b.history);
    CreditedPosting(w, b.history.credited, op);
    assert ExactFor(b, p.user);
    UnresolvedSum(w, b.history, p.user);
    SumAtLeast(open, DepositRef(op), p.user);
    SumNonNegative(b.tables.entries, p.user);
  }

  lemma ConfirmAccepted(w: World, b: Bank, op: Outpoint)
    requires BankBacked(w, b) && Exclusive(b.history) && ValidTxid(op.txid)
    requires Credited(b.history, op) && !Cancelled(b.history, op)
    ensures ConfirmDeposit(b.tables, w.chain(op).user, DepositRef(op), w.chain(op).amount).reply.Ok?
  {
    CreditedPosting(w, b.history.credited, op);
    if ConfirmKey(DepositRef(op)) !in b.tables.keys {
      assert !Confirmed(b.history, op);
      EscrowCovers(w, b, op);
    }
  }

  lemma CancelAccepted(w: World, b: Bank, op: Outpoint)
    requires BankBacked(w, b) && Exclusive(b.history) && ValidTxid(op.txid)
    requires Credited(b.history, op) && !Confirmed(b.history, op)
    ensures CancelDeposit(b.tables, w.chain(op).user, DepositRef(op), w.chain(op).amount).reply.Ok?
  {
    CreditedPosting(w, b.history.credited, op);
    if CancelKey(DepositRef(op)) !in b.tables.keys {
      assert !Cancelled(b.history, op);
      EscrowCovers(w, b, op);
    }
  }

  // Where a task's deposit stands.
  lemma TaskStands(w: World, s: System, t: Task)
    requires Backed(w, s) && Placed(s) && t in s.tasks && IsCall(t)
    ensures ValidTxid(t.op.txid) && t.posting == w.chain(t.op) && 0 < t.posting.amount
    ensures t.ConfirmCall? ==> Credited(s.bank.history, t.op) && !Cancelled(s.bank.history, t.op)
    ensures t.CancelCall? ==> Credited(s.bank.history, t.op) && !Confirmed(s.bank.history, t.op)
  {
    assert TaskBacked(w, s.bank.history, t) && TaskPlaced(s, t);
    assert t.op in s.deep ==> DeepStays(s, t.op);
  }

  lemma {:induction false} CallAccepted(w: World, s: System, t: Task)
    requires Backed(w, s) && Placed(s) && t in s.tasks && IsCall(t)
    ensures Transact(s.bank.tables, RequestOf(t)).reply.Ok?
  {
    var b := s.bank;
    assert BankBacked(w, b);
    TaskStands(w, s, t);
    NeverBoth(w, s);
    RequestAccepted(w, b, t);
    AskedByCall(b.tables, t);
  }

  // What a task asks the cashier.
  function Asked(tables: Tables, t: Task): Outcome
    requires IsCall(t)
  {
    var ref := DepositRef(t.op);
    match t
    case EscrowCall(_, p) => DepositEscrowed(tables, p.user, ref, p.amount)
    case ConfirmCall(_, p) => ConfirmDeposit(tables, p.user, ref, p.amount)
    case CancelCall(_, p) => CancelDeposit(tables, p.user, ref, p.amount)
  }

  lemma AskedByCall(tables: Tables, t: Task)
    requires IsCall(t)
    ensures Transact(tables, RequestOf(t)) == Asked(tables, t)
  {
  }

  lemma RequestAccepted(w: World, b: Bank, t: Task)
    requires BankBacked(w, b) && Exclusive(b.history) && IsCall(t)
    requires ValidTxid(t.op.txid) && t.posting == w.chain(t.op) && 0 < t.posting.amount
    requires t.ConfirmCall? ==> Credited(b.history, t.op) && !Cancelled(b.history, t.op)
    requires t.CancelCall? ==> Credited(b.history, t.op) && !Confirmed(b.history, t.op)
    ensures Asked(b.tables, t).reply.Ok?
  {
    match t
    case EscrowCall(op, _) => CreditAccepted(w, b, op);
    case ConfirmCall(op, _) => ConfirmAccepted(w, b, op);
    case CancelCall(op, _) => CancelAccepted(w, b, op);
  }

  // ---------------------------------------------------------------- nor is a release

  // The escrow balance covers every open order.
  lemma OrderCovered(w: World, b: Bank, order: nat)
    requires BankBacked(w, b) && Exclusive(b.history) && order in b.tables.entries
    ensures var p := b.tables.entries[order];
      p.user in b.tables.accounts && 0 < p.amount <= b.tables.accounts[p.user].escrowed
  {
    var p := b.tables.entries[order];
    assert ExactFor(b, p.user);
    UnresolvedSum(w, b.history, p.user);
    SumAtLeast(b.tables.entries, order, p.user);
    SumNonNegative(Unresolved(b.history), p.user);
  }

  // A release that has read its entry is accepted if and only if the entry is still there; otherwise
  // another release has ended first, and this one is told so.
  lemma ReleaseAcceptedIff(w: World, b: Bank, order: nat, read: Posting)
    requires BankBacked(w, b) && Exclusive(b.history) && (order, read) in b.pending
    ensures var done := ReleaseCommit(b.tables, order, read);
      && (done.reply.Ok? <==> order in b.tables.entries)
      && (order !in b.tables.entries ==> order in b.history.released && done == Refuse(b.tables, UnknownEscrow))
      && (order in b.tables.entries ==> ReleaseRead(b.tables, order) == Found(read))
  {
    if order in b.tables.entries {
      OrderCovered(w, b, order);
      assert RowOk(b.tables.accounts[read.user]);
    }
  }

  // ---------------------------------------------------------------- the main result

  // What a user may spend: own deposits and confirmed ones, less withdrawals and open orders.
  ghost function Spendable(b: Bank, user: string): int {
    Sum(b.history.deposits, user) - Sum(b.history.withdrawals, user) + Sum(b.history.confirmed, user)
    - Sum(b.tables.entries, user)
  }

  lemma BalancesOf(w: World, b: Bank, user: string)
    requires BankBacked(w, b) && Exclusive(b.history)
    ensures var a := RowOf(b.tables, user);
      && a.escrowed == Sum(b.tables.entries, user) + Sum(Unresolved(b.history), user)
      && a.gross - a.escrowed == Spendable(b, user)
  {
    assert ExactFor(b, user);
    UnresolvedSum(w, b.history, user);
  }

  // With one watcher, whatever marks are lost and calls fail: no deposit is both confirmed and
  // cancelled; a user's escrow is the open orders plus the unresolved deposits, so that what can
  // be spent contains no unconfirmed deposit; and the cashier refuses no call of the
  // watcher and no release of an order that is still open.
  lemma {:induction false} DepositsAreSafe(w: World, steps: seq<Step>)
    requires AllowedRun(w, CALM, steps)
    ensures var s := DepositProtocol.Run(w, steps);
      && Exclusive(s.bank.history)
      && (forall user :: var a := RowOf(s.bank.tables, user);
            && a.escrowed == Sum(s.bank.tables.entries, user) + Sum(Unresolved(s.bank.history), user)
            && a.gross - a.escrowed == Spendable(s.bank, user))
      && (forall t :: t in s.tasks && IsCall(t) ==> Transact(s.bank.tables, RequestOf(t)).reply.Ok?)
      && (forall read :: read in s.bank.pending && read.0 in s.bank.tables.entries ==>
            ReleaseCommit(s.bank.tables, read.0, read.1).reply.Ok?)
  {
    var s := DepositProtocol.Run(w, steps);
    CalmRunPlaced(w, steps);
    NeverBoth(w, s);
    forall user
      ensures var a := RowOf(s.bank.tables, user);
        && a.escrowed == Sum(s.bank.tables.entries, user) + Sum(Unresolved(s.bank.history), user)
        && a.gross - a.escrowed == Spendable(s.bank, user)
    {
      BalancesOf(w, s.bank, user);
    }
    forall t | t in s.tasks && IsCall(t) ensures Transact(s.bank.tables, RequestOf(t)).reply.Ok? {
      CallAccepted(w, s, t);
    }
    forall read | read in s.bank.pending && read.0 in s.bank.tables.entries
      ensures ReleaseCommit(s.bank.tables, read.0, read.1).reply.Ok?
    {
      ReleaseAcceptedIff(w, s.bank, read.0, read.1);
    }
  }
}
