/** When an escrowed deposit can lose its row before it is resolved. */
module DepositTracking {
  import opened LedgerHistory
  import opened DepositKeys
  import opened DepositTable
  import opened DepositProtocol
  import opened DepositSafety
  import opened DepositLimits

  // Every unresolved deposit still has its row, so the watcher will come back to it.
  ghost predicate Tracked(s: System) {
    forall op: Outpoint :: ValidTxid(op.txid) && DepositRef(op) in Unresolved(s.bank.history) ==> op in s.rows
  }

  predicate CallsTracked(s: System) {
    forall t :: t in s.tasks && t.EscrowCall? ==> t.op in s.rows || Cancelled(s.bank.history, t.op)
  }

  // A disconnect that deletes the row of a deposit whose escrow was applied but never marked.
  ghost predicate Orphans(s: System, step: Step) {
    && step.DisconnectHard?
    && exists op :: op in s.rows && HardDeleted(s.rows[op], step.height) && Credited(s.bank.history, op)
  }

  // Such a deposit is unresolved.
  lemma UnmarkedIsUnresolved(w: World, s: System, op: Outpoint)
    requires Backed(w, s) && Placed(s) && op in s.rows && !s.rows[op].escrowed && Credited(s.bank.history, op)
    ensures ValidTxid(op.txid) && DepositRef(op) in Unresolved(s.bank.history)
  {
    assert RowBacked(w, s.bank.history, op, s.rows[op]);
    assert Confirmed(s.bank.history, op) ==> DeepStays(s, op);
    assert Cancelled(s.bank.history, op) ==> Gone(s, op);
  }

  lemma DeletionTracked(w: World, s: System, height: int)
    requires Backed(w, s) && Placed(s) && Tracked(s)
    ensures Tracked(Next(w, s, DisconnectHard(height))) <==> !Orphans(s, DisconnectHard(height))
  {
    var s' := Next(w, s, DisconnectHard(height));
    if op :| op in s.rows && HardDeleted(s.rows[op], height) && Credited(s.bank.history, op) {
      UnmarkedIsUnresolved(w, s, op);
      assert op !in s'.rows;
    } else {
      forall op: Outpoint | ValidTxid(op.txid) && DepositRef(op) in Unresolved(s'.bank.history) ensures op in s'.rows {
        assert op in s.rows;
      }
    }
  }

  lemma NewCredits(b: Bank, r: Request)
    ensures var h, h' := b.history, Apply(b, r).history;
      Unresolved(h').Keys <= Unresolved(h).Keys + if r.CreditReq? && r.ref !in h.credited then {r.ref} else {}
  {
  }

  lemma BankTracked(s: System, b: Bank)
    requires Tracked(s) && CallsTracked(s) && s.bank.history.cancelled.Keys <= b.history.cancelled.Keys
    requires Unresolved(b.history).Keys <= Unresolved(s.bank.history).Keys
    ensures Tracked(s.(bank := b)) && CallsTracked(s.(bank := b))
  {
  }

  lemma CreditTracked(w: World, s: System, b: Bank, t: Task)
    requires HistoryBacked(w, s.bank.history)
    requires Tracked(s) && CallsTracked(s) && s.bank.history.cancelled.Keys <= b.history.cancelled.Keys
    requires t in s.tasks && t.EscrowCall? && ValidTxid(t.op.txid) && !Credited(s.bank.history, t.op)
    requires Unresolved(b.history).Keys <= Unresolved(s.bank.history).Keys + {DepositRef(t.op)}
    ensures Tracked(s.(bank := b)) && CallsTracked(s.(bank := b))
  {
    forall op: Outpoint | ValidTxid(op.txid) && DepositRef(op) in Unresolved(b.history) ensures op in s.rows {
      if DepositRef(op) == DepositRef(t.op) {
        RefInjective(op, t.op);
      }
    }
  }

  lemma CallTracked(w: World, s: System, t: Task, reported: bool)
    requires Backed(w, s) && Tracked(s) && CallsTracked(s) && t in s.tasks && IsCall(t)
    ensures Tracked(Next(w, s, Call(t, reported))) && CallsTracked(Next(w, s, Call(t, reported)))
  {
    var r := RequestOf(t);
    var b := Apply(s.bank, r);
    assert TaskBacked(w, s.bank.history, t);
    NewCredits(s.bank, r);
    AppliedExtends(s.bank, r);
    if t.EscrowCall? && !Credited(s.bank.history, t.op) {
      CreditTracked(w, s, b, t);
    } else {
      BankTracked(s, b);
    }
    NotedTracked(s.(bank := b), t);
    CallValue(w, s, t, reported);
  }

  lemma NotedTracked(s: System, t: Task)
    requires Tracked(s) && CallsTracked(s) && IsCall(t)
    ensures var s' := s.(tasks := s.tasks + {MarkOf(t)});
      Tracked(s') && CallsTracked(s')
  {
  }

  // Only a cancelled deposit's row may go.
  lemma RowsLost(s: System, rows: Rows)
    requires Tracked(s) && CallsTracked(s)
    requires forall op :: op in s.rows && op !in rows ==> Cancelled(s.bank.history, op)
    ensures Tracked(s.(rows := rows)) && CallsTracked(s.(rows := rows))
  {
  }

  lemma MarkTracked(w: World, s: System, t: Task)
    requires Tracked(s) && CallsTracked(s) && TaskBacked(w, s.bank.history, t) && !IsCall(t)
    ensures Tracked(s.(rows := Marked(s.rows, t))) && CallsTracked(s.(rows := Marked(s.rows, t)))
  {
    RowsLost(s, Marked(s.rows, t));
  }

  // The other steps on rows delete none.
  lemma RowsTracked(w: World, s: System, step: Step)
    requires Tracked(s) && CallsTracked(s)
    requires TouchesRows(step) && !step.DisconnectHard?
    ensures Tracked(Next(w, s, step)) && CallsTracked(Next(w, s, step))
  {
    assert s.rows.Keys <= Next(w, s, step).rows.Keys;
  }

  lemma UserTracked(w: World, s: System, r: Request)
    requires Tracked(s) && CallsTracked(s) && UserRequest(r)
    ensures Tracked(Next(w, s, UserStep(r))) && CallsTracked(Next(w, s, UserStep(r)))
  {
    NewCredits(s.bank, r);
    AppliedExtends(s.bank, r);
    BankTracked(s, Apply(s.bank, r));
  }

  // A step keeps every unresolved deposit's row if and only if it is not a disconnect that finds
  // one of them unmarked.
  lemma {:induction false} TrackedIff(w: World, s: System, step: Step)
    requires Backed(w, s) && Placed(s) && Tracked(s) && CallsTracked(s) && Allowed(CALM, s, step)
    ensures Tracked(Next(w, s, step)) <==> !Orphans(s, step)
    ensures CallsTracked(Next(w, s, step))
  {
    match step
    case DisconnectHard(height) => DeletionTracked(w, s, height);
    case Call(t, reported) =>
      if t in s.tasks && IsCall(t) {
        CallTracked(w, s, t, reported);
      }
    case Mark(t) =>
      if t in s.tasks && !IsCall(t) {
        MarkTracked(w, s, t);
      }
    case Finish =>
    case UserStep(r) =>
      if UserRequest(r) {
        UserTracked(w, s, r);
      }
    case _ => RowsTracked(w, s, step);
  }

  // ---------------------------------------------------------------- such a disconnect can happen

  // The escrow is applied and its answer is lost, so that the row stays unmarked.
  lemma AnswerLost(w: World, op: Outpoint) returns (s: System, f: Funds)
    requires Real(w, op)
    ensures f.credited && !f.confirmed && !f.cancelled
    ensures Stands(w, CALM, s, op, f, map[op := RowFor(w, op, false, false)], {}, {})
  {
    var n, rows, call := w.chain(op).amount, map[op := RowFor(w, op, false, false)], EscrowCall(op, w.chain(op));
    f := Funds(n, n, false, false, false);
    s := Start(w, CALM, op);
    s := Sighting(w, CALM, s, op, f, map[], {});
    s := ListingNew(w, CALM, s, op, f);
    CreditShows(w, s.bank, op, f);
    ReachStep(w, CALM, s, Call(call, false));
    s := Next(w, s, Call(call, false));
    f := Funds(n + n, n + n, true, false, false);
    s := Forgetting(w, CALM, s, op, f, rows, {call}, {});
  }

  // A disconnect that reaches an unmarked row deletes it.
  lemma RowDeleted(w: World, s: System, op: Outpoint, f: Funds) returns (s': System)
    requires Stands(w, CALM, s, op, f, map[op := RowFor(w, op, false, false)], {}, {})
    ensures Stands(w, CALM, s', op, f, map[], {}, {})
  {
    ReachStep(w, CALM, s, DisconnectSoft(0));
    var s1 := Next(w, s, DisconnectSoft(0));
    assert s1 == s;
    ReachStep(w, CALM, s1, DisconnectHard(0));
    s' := Next(w, s1, DisconnectHard(0));
    assert s'.rows == map[];
  }

  // Under all assumptions, for every world and every output that pays a user: one lost answer and
  // one disconnect leave the deposit escrowed and unresolved, without a row.
  lemma OrphanIsReachable(w: World, op: Outpoint) returns (s: System)
    requires Real(w, op)
    ensures Reachable(w, CALM, s) && !Tracked(s)
    ensures DepositRef(op) in Unresolved(s.bank.history) && op !in s.rows
  {
    var before, f := AnswerLost(w, op);
    s := RowDeleted(w, before, op, f);
  }

  // ---------------------------------------------------------------- otherwise rows stay

  ghost predicate NoOrphans(w: World, steps: seq<Step>) {
    steps == [] ||
    (NoOrphans(w, steps[..|steps| - 1]) && !Orphans(DepositProtocol.Run(w, steps[..|steps| - 1]), steps[|steps| - 1]))
  }

  lemma {:induction false} UnresolvedKeepRows(w: World, steps: seq<Step>)
    requires AllowedRun(w, CALM, steps) && NoOrphans(w, steps)
    ensures Tracked(DepositProtocol.Run(w, steps)) && CallsTracked(DepositProtocol.Run(w, steps))
  {
    if steps != [] {
      UnresolvedKeepRows(w, steps[..|steps| - 1]);
      CalmRunPlaced(w, steps[..|steps| - 1]);
      TrackedIff(w, DepositProtocol.Run(w, steps[..|steps| - 1]), steps[|steps| - 1]);
    }
  }
}
