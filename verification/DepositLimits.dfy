/** Each assumption behind the safety of deposits is needed. */
module DepositLimits {
  import opened Ledger
  import opened LedgerHistory
  import opened DepositKeys
  import opened DepositTable
  import opened DepositProtocol
  import opened DepositSafety

  // ---------------------------------------------------------------- one deposit at the cashier

  // The account of a deposit's user, and which effects of the deposit are applied.
  datatype Funds = Funds(gross: int, escrowed: int, credited: bool, confirmed: bool, cancelled: bool)

  predicate Shows(w: World, b: Bank, op: Outpoint, f: Funds) {
    var t, h, ref := b.tables, b.history, DepositRef(op);
    && w.chain(op).user in t.accounts && t.accounts[w.chain(op).user] == Account(f.gross, f.escrowed)
    && (ref in t.keys <==> f.credited) && (ref in h.credited <==> f.credited)
    && (ConfirmKey(ref) in t.keys <==> f.confirmed) && (ref in h.confirmed <==> f.confirmed)
    && (CancelKey(ref) in t.keys <==> f.cancelled) && (ref in h.cancelled <==> f.cancelled)
  }

  predicate Real(w: World, op: Outpoint) { ValidTxid(op.txid) && 0 < w.chain(op).amount }

  // The funds once the deposit is credited.
  function WithCredit(f: Funds, n: int): Funds {
    if f.credited then f else f.(gross := f.gross + n, escrowed := f.escrowed + n, credited := true)
  }

  lemma CreditShows(w: World, b: Bank, op: Outpoint, f: Funds)
    requires Real(w, op) && Shows(w, b, op, f) && RowOk(Account(f.gross, f.escrowed))
    ensures var p := w.chain(op);
      && Transact(b.tables, CreditReq(p.user, DepositRef(op), p.amount)).reply.Ok?
      && Shows(w, Apply(b, CreditReq(p.user, DepositRef(op), p.amount)), op,
               WithCredit(f, p.amount))
  {
    FamiliesAreDisjoint(op, op);
  }

  lemma ConfirmShows(w: World, b: Bank, op: Outpoint, f: Funds)
    requires Real(w, op) && Shows(w, b, op, f) && !f.confirmed && w.chain(op).amount <= f.escrowed <= f.gross
    ensures var p := w.chain(op);
      && Transact(b.tables, ConfirmReq(p.user, DepositRef(op), p.amount)).reply.Ok?
      && Shows(w, Apply(b, ConfirmReq(p.user, DepositRef(op), p.amount)), op,
        f.(escrowed := f.escrowed - p.amount, confirmed := true))
  {
    FamiliesAreDisjoint(op, op);
  }

  lemma CancelShows(w: World, b: Bank, op: Outpoint, f: Funds)
    requires Real(w, op) && Shows(w, b, op, f) && !f.cancelled && w.chain(op).amount <= f.escrowed <= f.gross
    ensures var p := w.chain(op);
      && Transact(b.tables, CancelReq(p.user, DepositRef(op), p.amount)).reply.Ok?
      && Shows(w, Apply(b, CancelReq(p.user, DepositRef(op), p.amount)), op,
               f.(gross := f.gross - p.amount, escrowed := f.escrowed - p.amount, cancelled := true))
  {
    FamiliesAreDisjoint(op, op);
  }

  // ---------------------------------------------------------------- one deposit in the protocol

  // A reachable state with no row but this deposit's.
  ghost predicate Stands(w: World, a: Assumptions, s: System, op: Outpoint, f: Funds, rows: Rows, tasks: set<Task>,
                         deep: set<Outpoint>) {
    Reachable(w, a, s) && Shows(w, s.bank, op, f) && s.rows == rows && s.tasks == tasks && s.deep == deep
  }

  function RowFor(w: World, op: Outpoint, escrowed: bool, reorged: bool): Row {
    Row(w.chain(op).user, w.chain(op).amount, 0, escrowed, false, reorged)
  }

  lemma ShortKey(op: Outpoint)
    requires ValidTxid(op.txid)
    ensures "k" != DepositRef(op) && "k" != ConfirmKey(DepositRef(op)) && "k" != CancelKey(DepositRef(op))
  {
  }

  lemma OwnKey()
    ensures !DepositKey("k")
  {
    forall o: Outpoint | ValidTxid(o.txid)
      ensures "k" != DepositRef(o) && "k" != ConfirmKey(DepositRef(o)) && "k" != CancelKey(DepositRef(o))
    {
      ShortKey(o);
    }
  }

  // A user deposits an amount and holds it for an order.
  lemma Funded(w: World, op: Outpoint) returns (b: Bank, b': Bank)
    requires Real(w, op)
    ensures b == Apply(NEW_BANK, DepositReq(w.chain(op).user, "k", w.chain(op).amount)) && b.history.released == {}
    ensures b' == Apply(b, EscrowReq(w.chain(op).user, 7, w.chain(op).amount))
    ensures Shows(w, b', op, Funds(w.chain(op).amount, w.chain(op).amount, false, false, false))
  {
    ShortKey(op);
    var p := w.chain(op);
    b := Apply(NEW_BANK, DepositReq(p.user, "k", p.amount));
    assert Shows(w, b, op, Funds(p.amount, 0, false, false, false));
    b' := Apply(b, EscrowReq(p.user, 7, p.amount));
  }

  lemma IdleReachable(w: World, a: Assumptions)
    ensures Reachable(w, a, IDLE)
  {
    assert AllowedRun(w, a, []) && DepositProtocol.Run(w, []) == IDLE;
  }

  lemma UserReaches(w: World, a: Assumptions, s: System, r: Request)
    requires Reachable(w, a, s) && UserRequest(r) && EnvOk(s, UserStep(r))
    ensures Reachable(w, a, s.(bank := Apply(s.bank, r)))
  {
    ReachStep(w, a, s, UserStep(r));
  }

  lemma Start(w: World, a: Assumptions, op: Outpoint) returns (s: System)
    requires Real(w, op)
    ensures var n := w.chain(op).amount;
      Stands(w, a, s, op, Funds(n, n, false, false, false), map[], {}, {})
  {
    var p := w.chain(op);
    OwnKey();
    var b, b' := Funded(w, op);
    IdleReachable(w, a);
    UserReaches(w, a, IDLE, DepositReq(p.user, "k", p.amount));
    UserReaches(w, a, IDLE.(bank := b), EscrowReq(p.user, 7, p.amount));
    s := IDLE.(bank := b');
  }

  lemma Sighting(w: World, a: Assumptions, s: System, op: Outpoint, f: Funds, rows: Rows, tasks: set<Task>)
    returns (s': System)
    requires Real(w, op) && Stands(w, a, s, op, f, rows, tasks, {})
    requires rows == map[] || rows == map[op := RowFor(w, op, true, true)]
    requires (a.oneWatcher ==> tasks == {}) && (a.seenOnce ==> !f.cancelled)
    ensures Stands(w, a, s', op, f, map[op := RowFor(w, op, rows != map[], false)], tasks, {})
  {
    ReachStep(w, a, s, Seen(op, 0));
    s' := Next(w, s, Seen(op, 0));
  }

  lemma ListingNew(w: World, a: Assumptions, s: System, op: Outpoint, f: Funds) returns (s': System)
    requires Stands(w, a, s, op, f, map[op := RowFor(w, op, false, false)], {}, {})
    ensures Stands(w, a, s', op, f, map[op := RowFor(w, op, false, false)], {EscrowCall(op, w.chain(op))}, {})
  {
    ReachStep(w, a, s, ListNotEscrowed);
    s' := Next(w, s, ListNotEscrowed);
    assert NotEscrowed(s.rows) == {op};
    assert s'.tasks == {EscrowCall(op, w.chain(op))};
  }

  lemma Crediting(w: World, a: Assumptions, s: System, op: Outpoint, f: Funds, rows: Rows, tasks: set<Task>)
    returns (s': System)
    requires Real(w, op) && Stands(w, a, s, op, f, rows, tasks, {}) && EscrowCall(op, w.chain(op)) in tasks
    requires RowOk(Account(f.gross, f.escrowed))
    ensures var n := w.chain(op).amount;
      Stands(w, a, s', op, WithCredit(f, n),
             rows, tasks + {EscrowMark(op)}, {})
  {
    var t := EscrowCall(op, w.chain(op));
    CreditShows(w, s.bank, op, f);
    CallValue(w, s, t, true);
    ReachStep(w, a, s, Call(t, true));
    s' := s.(bank := Apply(s.bank, RequestOf(t)), tasks := tasks + {EscrowMark(op)});
  }

  lemma Finishing(w: World, a: Assumptions, s: System, op: Outpoint, f: Funds, rows: Rows, tasks: set<Task>,
                  deep: set<Outpoint>)
    returns (s': System)
    requires Stands(w, a, s, op, f, rows, tasks, deep)
    ensures Stands(w, a, s', op, f, rows, {}, deep)
  {
    ReachStep(w, a, s, Finish);
    s' := s.(tasks := {});
  }

  lemma Marking(w: World, a: Assumptions, s: System, op: Outpoint, f: Funds, rows: Rows, tasks: set<Task>)
    returns (s': System)
    requires Stands(w, a, s, op, f, rows, tasks, {}) && EscrowMark(op) in tasks
    ensures Stands(w, a, s', op, f, MarkEscrowed(rows, op), {}, {})
  {
    ReachStep(w, a, s, Mark(EscrowMark(op)));
    s' := Next(w, s, Mark(EscrowMark(op)));
    s' := Finishing(w, a, s', op, f, MarkEscrowed(rows, op), tasks, {});
  }

  // The watcher escrows the deposit and marks its row.
  lemma Escrowing(w: World, a: Assumptions, s: System, op: Outpoint, f: Funds) returns (s': System)
    requires Real(w, op) && Stands(w, a, s, op, f, map[op := RowFor(w, op, false, false)], {}, {})
    requires RowOk(Account(f.gross, f.escrowed))
    ensures var n := w.chain(op).amount;
      Stands(w, a, s', op, WithCredit(f, n),
             map[op := RowFor(w, op, true, false)], {}, {})
  {
    var n, rows, call := w.chain(op).amount, map[op := RowFor(w, op, false, false)], EscrowCall(op, w.chain(op));
    var f' := WithCredit(f, n);
    s' := ListingNew(w, a, s, op, f);
    s' := Crediting(w, a, s', op, f, rows, {call});
    s' := Marking(w, a, s', op, f', rows, {call} + {EscrowMark(op)});
    assert MarkEscrowed(rows, op) == map[op := RowFor(w, op, true, false)];
  }

  lemma Disconnecting(w: World, a: Assumptions, s: System, op: Outpoint, f: Funds, deep: set<Outpoint>)
    returns (s': System)
    requires Stands(w, a, s, op, f, map[op := RowFor(w, op, true, false)], {}, deep)
    requires a.deepIsFinal ==> op !in deep
    ensures Stands(w, a, s', op, f, map[op := RowFor(w, op, true, true)], {}, deep)
  {
    ReachStep(w, a, s, DisconnectSoft(0));
    s' := Next(w, s, DisconnectSoft(0));
  }

  lemma ListingReorged(w: World, a: Assumptions, s: System, op: Outpoint, f: Funds, deep: set<Outpoint>)
    returns (s': System)
    requires Stands(w, a, s, op, f, map[op := RowFor(w, op, true, true)], {}, deep)
    ensures Stands(w, a, s', op, f, map[op := RowFor(w, op, true, true)], {CancelCall(op, w.chain(op))}, deep)
  {
    ReachStep(w, a, s, ListReorged({op}));
    s' := Next(w, s, ListReorged({op}));
    assert s'.tasks == {CancelCall(op, w.chain(op))};
  }

  lemma ListingReady(w: World, a: Assumptions, s: System, op: Outpoint, f: Funds, tasks: set<Task>) returns (s': System)
    requires Stands(w, a, s, op, f, map[op := RowFor(w, op, true, false)], tasks, {})
    requires a.oneWatcher ==> tasks == {}
    ensures Stands(w, a, s', op, f, map[op := RowFor(w, op, true, false)], tasks + {ConfirmCall(op, w.chain(op))}, {op})
  {
    ReachStep(w, a, s, ListReady(w.confirmations));
    s' := Next(w, s, ListReady(w.confirmations));
    assert ReadyToConfirm(s.rows, w.confirmations, w.confirmations) == {op};
    assert s'.tasks == tasks + {ConfirmCall(op, w.chain(op))};
  }

  // A confirm call whose answer is lost, so that the row stays unmarked.
  lemma Confirming(w: World, a: Assumptions, s: System, op: Outpoint, f: Funds, rows: Rows, tasks: set<Task>,
                   deep: set<Outpoint>)
    returns (s': System)
    requires Real(w, op) && Stands(w, a, s, op, f, rows, tasks, deep) && ConfirmCall(op, w.chain(op)) in tasks
    requires !f.confirmed && w.chain(op).amount <= f.escrowed <= f.gross
    ensures Stands(w, a, s', op, f.(escrowed := f.escrowed - w.chain(op).amount, confirmed := true), rows, tasks, deep)
  {
    var t := ConfirmCall(op, w.chain(op));
    ConfirmShows(w, s.bank, op, f);
    CallValue(w, s, t, false);
    ReachStep(w, a, s, Call(t, false));
    s' := s.(bank := Apply(s.bank, RequestOf(t)));
  }

  lemma Cancelling(w: World, a: Assumptions, s: System, op: Outpoint, f: Funds, rows: Rows, tasks: set<Task>,
                   deep: set<Outpoint>)
    returns (s': System)
    requires Real(w, op) && Stands(w, a, s, op, f, rows, tasks, deep) && CancelCall(op, w.chain(op)) in tasks
    requires !f.cancelled && w.chain(op).amount <= f.escrowed <= f.gross
    ensures var n := w.chain(op).amount;
      Stands(w, a, s', op, f.(gross := f.gross - n, escrowed := f.escrowed - n, cancelled := true), rows,
             tasks + {CancelMark(op)}, deep)
  {
    var t := CancelCall(op, w.chain(op));
    CancelShows(w, s.bank, op, f);
    CallValue(w, s, t, true);
    ReachStep(w, a, s, Call(t, true));
    s' := s.(bank := Apply(s.bank, RequestOf(t)), tasks := tasks + {CancelMark(op)});
  }

  lemma Forgetting(w: World, a: Assumptions, s: System, op: Outpoint, f: Funds, rows: Rows, tasks: set<Task>,
                   deep: set<Outpoint>)
    returns (s': System)
    requires Stands(w, a, s, op, f, rows, tasks, deep)
    ensures Stands(w, a, s', op, f, if CancelMark(op) in tasks then rows - {op} else rows, {}, deep)
  {
    ReachStep(w, a, s, Mark(CancelMark(op)));
    s' := Next(w, s, Mark(CancelMark(op)));
    s' := Finishing(w, a, s', op, f, if CancelMark(op) in tasks then rows - {op} else rows, tasks, deep);
  }

  // ---------------------------------------------------------------- three ways to apply both

  // Escrowed and on the chain, beside an order that holds as much again.
  lemma Ready(w: World, a: Assumptions, op: Outpoint) returns (s: System)
    requires Real(w, op)
    ensures var n := w.chain(op).amount;
      Stands(w, a, s, op, Funds(2 * n, 2 * n, true, false, false), map[op := RowFor(w, op, true, false)], {}, {})
  {
    var n := w.chain(op).amount;
    s := Start(w, a, op);
    s := Sighting(w, a, s, op, Funds(n, n, false, false, false), map[], {});
    s := Escrowing(w, a, s, op, Funds(n, n, false, false, false));
  }

  // The output is cancelled, comes back, and is confirmed.
  lemma SeenAgain(w: World, a: Assumptions, op: Outpoint) returns (s: System)
    requires Real(w, op) && !a.seenOnce
    ensures Reachable(w, a, s) && Confirmed(s.bank.history, op) && Cancelled(s.bank.history, op)
  {
    var n, row := w.chain(op).amount, RowFor(w, op, true, true);
    var f, f' := Funds(2 * n, 2 * n, true, false, false), Funds(n, n, true, false, true);
    var call := CancelCall(op, w.chain(op));
    s := Ready(w, a, op);
    s := Disconnecting(w, a, s, op, f, {});
    s := ListingReorged(w, a, s, op, f, {});
    s := Cancelling(w, a, s, op, f, map[op := row], {call}, {});
    s := Forgetting(w, a, s, op, f', map[op := row], {call} + {CancelMark(op)}, {});
    assert map[op := row] - {op} == map[];
    s := Sighting(w, a, s, op, f', map[], {});
    s := Escrowing(w, a, s, op, f');
    s := ListingReady(w, a, s, op, f', {});
    s := Confirming(w, a, s, op, f', map[op := RowFor(w, op, true, false)], {} + {ConfirmCall(op, w.chain(op))}, {op});
  }

  // The mark of a confirm is lost, and a disconnect reaches the row.
  lemma DeepReorg(w: World, a: Assumptions, op: Outpoint) returns (s: System)
    requires Real(w, op) && !a.deepIsFinal
    ensures Reachable(w, a, s) && Confirmed(s.bank.history, op) && Cancelled(s.bank.history, op)
  {
    var n, row := w.chain(op).amount, RowFor(w, op, true, false);
    var f, f' := Funds(2 * n, 2 * n, true, false, false), Funds(2 * n, n, true, true, false);
    var call := ConfirmCall(op, w.chain(op));
    s := Ready(w, a, op);
    s := ListingReady(w, a, s, op, f, {});
    s := Confirming(w, a, s, op, f, map[op := row], {} + {call}, {op});
    s := Forgetting(w, a, s, op, f', map[op := row], {} + {call}, {op});
    s := Disconnecting(w, a, s, op, f', {op});
    s := ListingReorged(w, a, s, op, f', {op});
    s := Cancelling(w, a, s, op, f', map[op := row.(reorged := true)], {CancelCall(op, w.chain(op))}, {op});
  }

  // One watcher is about to cancel while the output comes back and another one confirms it.
  lemma TwoWatchers(w: World, a: Assumptions, op: Outpoint) returns (s: System)
    requires Real(w, op) && !a.oneWatcher
    ensures Reachable(w, a, s) && Confirmed(s.bank.history, op) && Cancelled(s.bank.history, op)
  {
    var n, rows := w.chain(op).amount, map[op := RowFor(w, op, true, false)];
    var f, f' := Funds(2 * n, 2 * n, true, false, false), Funds(2 * n, n, true, true, false);
    var stale, call := CancelCall(op, w.chain(op)), ConfirmCall(op, w.chain(op));
    assert f.(escrowed := f.escrowed - n, confirmed := true) == f';
    s := Ready(w, a, op);
    s := Disconnecting(w, a, s, op, f, {});
    s := ListingReorged(w, a, s, op, f, {});
    s := Sighting(w, a, s, op, f, map[op := RowFor(w, op, true, true)], {stale});
    s := ListingReady(w, a, s, op, f, {stale});
    s := Confirming(w, a, s, op, f, rows, {stale} + {call}, {op});
    s := Cancelling(w, a, s, op, f', rows, {stale} + {call}, {op});
  }

  // Confirm and cancel exclude each other in every reachable state if and only if all three
  // assumptions are made, whatever the world, as long as it has one output that pays a user.
  lemma ExclusionIff(w: World, a: Assumptions, op: Outpoint)
    requires Real(w, op)
    ensures (forall s :: Reachable(w, a, s) ==> Exclusive(s.bank.history)) <==> a == CALM
  {
    if a == CALM {
      forall s | Reachable(w, a, s) ensures Exclusive(s.bank.history) {
        var steps :| AllowedRun(w, a, steps) && DepositProtocol.Run(w, steps) == s;
        DepositsAreSafe(w, steps);
      }
    } else {
      var s;
      if !a.seenOnce {
        s := SeenAgain(w, a, op);
      } else if !a.deepIsFinal {
        s := DeepReorg(w, a, op);
      } else {
        s := TwoWatchers(w, a, op);
      }
      assert DepositRef(op) in s.bank.history.confirmed.Keys * s.bank.history.cancelled.Keys;
    }
  }
}
