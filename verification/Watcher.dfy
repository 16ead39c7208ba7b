/** The watcher's event handlers (btcwatcher/internal/watcher.go) over the deposit rows and the cashier. */
module BtcWatcher {
  import opened Ledger
  import opened LedgerHistory
  import opened DepositKeys
  import opened DepositTable
  import opened DepositProtocol
  import opened DepositSafety
  import opened Cashier

  // What can go wrong with one row: the cashier is not reached, its answer is lost, or the mark is.
  datatype Fault = NoFault | NotReached | AnswerLost | MarkLost

  type Faults = map<Outpoint, Fault>

  function FaultOf(faults: Faults, op: Outpoint): Fault { if op in faults then faults[op] else NoFault }

  function Faulty(faults: Faults): set<Outpoint> { set op | op in faults && faults[op] != NoFault }

  // The rows after each round of calls, whatever the order of the calls.
  function EscrowedRows(rows: Rows, ops: set<Outpoint>): Rows {
    map op | op in rows :: if op in ops then rows[op].(escrowed := true) else rows[op]
  }

  function ConfirmedRows(rows: Rows, ops: set<Outpoint>): Rows {
    map op | op in rows :: if op in ops then rows[op].(confirmed := true) else rows[op]
  }

  // An output of a connected block.
  datatype Output = Output(op: Outpoint, address: string, sats: int)

  // The node's best height, if it answers.
  datatype Height = Known(height: int) | Unknown

  // The rows after a block: its outputs to known addresses, in order, less the failed inserts.
  function InsertedRows(rows: Rows, outs: seq<Output>, addrIndex: map<string, string>, lost: set<Outpoint>,
                        height: int): Rows {
    if outs == [] then rows
    else
      var o := outs[|outs| - 1];
      var before := InsertedRows(rows, outs[..|outs| - 1], addrIndex, lost, height);
      if o.address in addrIndex && o.op !in lost then Insert(before, o.op, addrIndex[o.address], o.sats, height)
      else before
  }

  // The output pays the user its address belongs to and, where that is assumed, is not one that was
  // cancelled.
  predicate Fits(w: World, a: Assumptions, h: History, addrIndex: map<string, string>, o: Output) {
    o.address in addrIndex ==>
      && ValidTxid(o.op.txid) && w.chain(o.op) == Posting(addrIndex[o.address], o.sats)
      && (a.seenOnce ==> !Cancelled(h, o.op))
  }

  // An output that is to be inserted.
  predicate Taken(o: Output, addrIndex: map<string, string>, lost: set<Outpoint>) {
    o.address in addrIndex && o.op !in lost && 0 < o.sats
  }

  // Afterwards every output to be inserted has an active row, and no other row was touched.
  lemma {:induction false} InsertedAreActive(rows: Rows, outs: seq<Output>, addrIndex: map<string, string>,
                                             lost: set<Outpoint>, height: int, op: Outpoint)
    ensures var rows' := InsertedRows(rows, outs, addrIndex, lost, height);
      if exists o :: o in outs && Taken(o, addrIndex, lost) && o.op == op then
        op in rows' && !rows'[op].reorged && (op in rows && !rows[op].reorged ==> rows'[op] == rows[op])
      else
        (op in rows' <==> op in rows) && (op in rows ==> rows'[op] == rows[op])
  {
    if outs != [] {
      var n := |outs| - 1;
      assert outs == outs[..n] + [outs[n]];
      InsertedAreActive(rows, outs[..n], addrIndex, lost, height, op);
      if Taken(outs[n], addrIndex, lost) && outs[n].op == op {
        assert outs[n] in outs;
      }
    }
  }

  // ---------------------------------------------------------------- sub-steps of a handler

  lemma {:induction false} AllowedInEnv(w: World, a: Assumptions, steps: seq<Step>)
    requires AllowedRun(w, a, steps)
    ensures EnvRun(w, steps)
  {
    if steps != [] {
      AllowedInEnv(w, a, steps[..|steps| - 1]);
    }
  }

  // Every reachable state is backed, and under all assumptions confirmed deposits are on the chain.
  lemma ReachableSafe(w: World, a: Assumptions, s: System)
    requires Reachable(w, a, s)
    ensures Backed(w, s) && (a == CALM ==> Placed(s))
  {
    var steps :| AllowedRun(w, a, steps) && DepositProtocol.Run(w, steps) == s;
    AllowedInEnv(w, a, steps);
    EffectsAreOrdered(w, steps);
    if a == CALM {
      CalmRunPlaced(w, steps);
    }
  }

  lemma CallNext(w: World, s: System, t: Task, answered: bool)
    requires t in s.tasks && IsCall(t)
    ensures var s' := Next(w, s, Call(t, answered));
      && s'.bank.tables == Asked(s.bank.tables, t).tables && s'.rows == s.rows
      && s'.tasks == s.tasks + if Asked(s.bank.tables, t).reply.Ok? && answered then {MarkOf(t)} else {}
  {
    AskedByCall(s.bank.tables, t);
  }

  // The cashier accepts a listed escrow, and under all assumptions every listed call.
  lemma ListedCallAccepted(w: World, a: Assumptions, s: System, t: Task)
    requires Reachable(w, a, s) && t in s.tasks && IsCall(t) && (a == CALM || t.EscrowCall?)
    ensures Asked(s.bank.tables, t).reply.Ok?
  {
    ReachableSafe(w, a, s);
    if a == CALM {
      CallAccepted(w, s, t);
      AskedByCall(s.bank.tables, t);
    } else {
      assert TaskBacked(w, s.bank.history, t);
      CreditAccepted(w, s.bank, t.op);
    }
  }

  lemma CallPerformed(w: World, a: Assumptions, s: System, t: Task, answered: bool)
    requires Reachable(w, a, s) && t in s.tasks && IsCall(t)
    ensures a == CALM || t.EscrowCall? ==> Asked(s.bank.tables, t).reply.Ok?
    ensures var s' := Next(w, s, Call(t, answered));
      && Reachable(w, a, s') && s'.bank.tables == Asked(s.bank.tables, t).tables && s'.rows == s.rows
      && s'.tasks == s.tasks + if Asked(s.bank.tables, t).reply.Ok? && answered then {MarkOf(t)} else {}
  {
    if a == CALM || t.EscrowCall? {
      ListedCallAccepted(w, a, s, t);
    }
    CallNext(w, s, t, answered);
    ReachStep(w, a, s, Call(t, answered));
  }

  lemma MarkPerformed(w: World, a: Assumptions, s: System, t: Task)
    requires Reachable(w, a, s) && t in s.tasks && !IsCall(t)
    ensures var s' := Next(w, s, Mark(t));
      Reachable(w, a, s') && s' == s.(rows := Marked(s.rows, t))
  {
    ReachStep(w, a, s, Mark(t));
  }

  // Listing with nothing else under way.
  lemma ListPerformed(w: World, a: Assumptions, s: System, step: Step)
    requires Reachable(w, a, s) && s.tasks == {} && (step.ListNotEscrowed? || step.ListReady? || step.ListReorged?)
    ensures Reachable(w, a, Next(w, s, step)) && Next(w, s, step).bank == s.bank && Next(w, s, step).rows == s.rows
  {
    ReachStep(w, a, s, step);
  }

  lemma FinishPerformed(w: World, a: Assumptions, s: System)
    requires Reachable(w, a, s)
    ensures Reachable(w, a, s.(tasks := {}))
  {
    ReachStep(w, a, s, Finish);
  }

  lemma ListedTasks(w: World, s: System, step: Step)
    ensures step.ListNotEscrowed? ==>
      forall op :: op in NotEscrowed(s.rows) ==> EscrowCall(op, PostingOf(s.rows[op])) in Next(w, s, step).tasks
    ensures step.ListReady? ==>
      forall op :: op in ReadyToConfirm(s.rows, w.confirmations, step.current) ==>
        ConfirmCall(op, PostingOf(s.rows[op])) in Next(w, s, step).tasks
    ensures step.ListReorged? ==>
      forall op :: op in ReorgedEscrowed(s.rows) * step.which ==>
        CancelCall(op, PostingOf(s.rows[op])) in Next(w, s, step).tasks
  {
  }

  // ---------------------------------------------------------------- rows marked so far

  lemma MarkedSoFar(all: set<Outpoint>, todo: set<Outpoint>, faults: Faults, op: Outpoint)
    requires op in todo && todo <= all
    ensures all - (todo - {op}) - Faulty(faults) ==
      var marked := all - todo - Faulty(faults);
      if FaultOf(faults, op) == NoFault then marked + {op} else marked
  {
  }

  lemma EscrowedSoFar(rows: Rows, ops: set<Outpoint>, op: Outpoint)
    requires op in rows
    ensures EscrowedRows(rows, ops + {op}) == MarkEscrowed(EscrowedRows(rows, ops), op)
  {
  }

  lemma NothingMarked(rows: Rows)
    ensures EscrowedRows(rows, {}) == rows && ConfirmedRows(rows, {}) == rows
  {
  }

  lemma StillNotEscrowed(rows: Rows, faults: Faults)
    ensures NotEscrowed(EscrowedRows(rows, NotEscrowed(rows) - Faulty(faults))) == NotEscrowed(rows) * Faulty(faults)
  {
  }

  lemma ConfirmedSoFar(rows: Rows, ops: set<Outpoint>, op: Outpoint)
    requires op in rows
    ensures ConfirmedRows(rows, ops + {op}) == MarkConfirmed(ConfirmedRows(rows, ops), op)
  {
  }

  lemma StillReady(rows: Rows, minDepth: int, height: int, done: set<Outpoint>)
    ensures var ready := ReadyToConfirm(rows, minDepth, height);
      ReadyToConfirm(ConfirmedRows(rows, done), minDepth, height) == ready - done
  {
  }

  lemma CancelledSoFar(rows: Rows, ops: set<Outpoint>, op: Outpoint)
    ensures rows - (ops + {op}) == MarkCancelled(rows - ops, op)
  {
  }

  lemma StillReorged(rows: Rows, done: set<Outpoint>)
    ensures ReorgedEscrowed(rows - done) == ReorgedEscrowed(rows) - done
  {
  }

  class Watcher {
    ghost const w: World
    ghost const a: Assumptions
    const txs: TxStore
    const cashier: PostgresCashier
    const confirmations: int
    const addrIndex: map<string, string>
    ghost var state: System

    // The tables are those of a state that one watcher can reach under the assumptions made.
    ghost predicate Valid()
      reads this, txs, cashier
    {
      txs.rows == state.rows && cashier.View() == state.bank.tables && Reachable(w, a, state) && a.oneWatcher
      && w.confirmations == confirmations
    }

    ghost predicate Idle()
      reads this, txs, cashier
    {
      Valid() && state.tasks == {}
    }

    constructor (ghost w: World, ghost a: Assumptions, confirmations: int, addrIndex: map<string, string>)
      requires w.confirmations == confirmations && a.oneWatcher
      ensures Idle() && this.w == w && this.a == a && this.addrIndex == addrIndex && fresh(txs) && fresh(cashier)
      ensures txs.rows == map[] && cashier.View() == EMPTY_TABLES
    {
      this.w, this.a, this.confirmations, this.addrIndex := w, a, confirmations, addrIndex;
      txs := new TxStore();
      cashier := new PostgresCashier();
      state := IDLE;
      new;
      assert AllowedRun(w, a, []) && DepositProtocol.Run(w, []) == IDLE;
    }

    // Escrows one listed row and marks it.
    method EscrowRow(op: Outpoint, row: Row, fault: Fault)
      requires Valid() && EscrowCall(op, PostingOf(row)) in state.tasks
      modifies `state, txs, cashier
      ensures Valid() && old(state.tasks) <= state.tasks
      ensures txs.rows == if fault == NoFault then MarkEscrowed(old(txs.rows), op) else old(txs.rows)
    {
      if fault == NotReached {
        return;
      }
      ghost var t := EscrowCall(op, PostingOf(row));
      CallPerformed(w, a, state, t, fault != AnswerLost);
      var reply := cashier.DepositEscrowed(row.user, DepositRef(op), row.sats);
      state := Next(w, state, Call(t, fault != AnswerLost));
      if reply.Err? || fault == AnswerLost {
        return;
      }
      if fault == NoFault {
        MarkPerformed(w, a, state, EscrowMark(op));
        state := Next(w, state, Mark(EscrowMark(op)));
        txs.Escrowed(op);
      }
    }

    // Confirms one listed row and marks it.
    method ConfirmRow(op: Outpoint, row: Row, fault: Fault) returns (done: bool)
      requires Valid() && ConfirmCall(op, PostingOf(row)) in state.tasks
      modifies `state, txs, cashier
      ensures Valid() && old(state.tasks) <= state.tasks
      ensures (done ==> fault == NoFault) && (a == CALM && fault == NoFault ==> done)
      ensures txs.rows == if done then MarkConfirmed(old(txs.rows), op) else old(txs.rows)
    {
      if fault == NotReached {
        return false;
      }
      ghost var t := ConfirmCall(op, PostingOf(row));
      CallPerformed(w, a, state, t, fault != AnswerLost);
      var reply := cashier.ConfirmDeposit(row.user, DepositRef(op), row.sats);
      state := Next(w, state, Call(t, fault != AnswerLost));
      if reply.Err? || fault == AnswerLost {
        return false;
      }
      done := fault == NoFault;
      if done {
        MarkPerformed(w, a, state, ConfirmMark(op));
        state := Next(w, state, Mark(ConfirmMark(op)));
        txs.Confirmed(op);
      }
    }

    // Cancels one listed row and deletes it.
    method CancelRow(op: Outpoint, row: Row, fault: Fault) returns (done: bool)
      requires Valid() && CancelCall(op, PostingOf(row)) in state.tasks
      modifies `state, txs, cashier
      ensures Valid() && old(state.tasks) <= state.tasks
      ensures (done ==> fault == NoFault) && (a == CALM && fault == NoFault ==> done)
      ensures txs.rows == if done then MarkCancelled(old(txs.rows), op) else old(txs.rows)
    {
      if fault == NotReached {
        return false;
      }
      ghost var t := CancelCall(op, PostingOf(row));
      CallPerformed(w, a, state, t, fault != AnswerLost);
      var reply := cashier.CancelDeposit(row.user, DepositRef(op), row.sats);
      state := Next(w, state, Call(t, fault != AnswerLost));
      if reply.Err? || fault == AnswerLost {
        return false;
      }
      done := fault == NoFault;
      if done {
        MarkPerformed(w, a, state, CancelMark(op));
        state := Next(w, state, Mark(CancelMark(op)));
        txs.Cancelled(op);
      }
    }

    method ListNew() returns (all: set<Outpoint>)
      requires Idle()
      modifies `state
      ensures Valid() && all == NotEscrowed(txs.rows)
      ensures forall op :: op in all ==> EscrowCall(op, PostingOf(txs.rows[op])) in state.tasks
    {
      all := NotEscrowed(txs.rows);
      ListPerformed(w, a, state, ListNotEscrowed);
      ListedTasks(w, state, ListNotEscrowed);
      state := Next(w, state, ListNotEscrowed);
    }

    method ListDeep(height: int) returns (all: set<Outpoint>)
      requires Idle()
      modifies `state
      ensures Valid() && all == ReadyToConfirm(txs.rows, confirmations, height)
      ensures forall op :: op in all ==> ConfirmCall(op, PostingOf(txs.rows[op])) in state.tasks
    {
      all := ReadyToConfirm(txs.rows, confirmations, height);
      ListPerformed(w, a, state, ListReady(height));
      ListedTasks(w, state, ListReady(height));
      state := Next(w, state, ListReady(height));
    }

    method ListAged(aged: set<Outpoint>) returns (all: set<Outpoint>)
      requires Idle()
      modifies `state
      ensures Valid() && all == ReorgedEscrowed(txs.rows) * aged
      ensures forall op :: op in all ==> CancelCall(op, PostingOf(txs.rows[op])) in state.tasks
    {
      all := ReorgedEscrowed(txs.rows) * aged;
      ListPerformed(w, a, state, ListReorged(aged));
      ListedTasks(w, state, ListReorged(aged));
      state := Next(w, state, ListReorged(aged));
    }

    method EscrowRows(rows: Rows, all: set<Outpoint>, faults: Faults)
      requires Valid() && txs.rows == rows && all <= rows.Keys
      requires forall op :: op in all ==> EscrowCall(op, PostingOf(rows[op])) in state.tasks
      modifies `state, txs, cashier
      ensures Valid() && txs.rows == EscrowedRows(rows, all - Faulty(faults))
    {
      var todo := all;
      ghost var marked := {};
      NothingMarked(rows);
      while todo != {}
        invariant Valid() && todo <= all && marked == all - todo - Faulty(faults)
        invariant forall op :: op in todo ==> EscrowCall(op, PostingOf(rows[op])) in state.tasks
        invariant txs.rows == EscrowedRows(rows, marked)
        decreases todo
      {
        var op :| op in todo;
        MarkedSoFar(all, todo, faults, op);
        EscrowedSoFar(rows, marked, op);
        EscrowRow(op, rows[op], FaultOf(faults, op));
        marked := if FaultOf(faults, op) == NoFault then marked + {op} else marked;
        todo := todo - {op};
      }
      assert marked == all - Faulty(faults);
    }

    method ConfirmRows(rows: Rows, all: set<Outpoint>, faults: Faults) returns (ghost done: set<Outpoint>)
      requires Valid() && txs.rows == rows && all <= rows.Keys
      requires forall op :: op in all ==> ConfirmCall(op, PostingOf(rows[op])) in state.tasks
      modifies `state, txs, cashier
      ensures Valid() && txs.rows == ConfirmedRows(rows, done)
      ensures done <= all - Faulty(faults) && (a == CALM ==> done == all - Faulty(faults))
    {
      var todo := all;
      done := {};
      NothingMarked(rows);
      while todo != {}
        invariant Valid() && todo <= all
        invariant done <= all - todo - Faulty(faults) && (a == CALM ==> done == all - todo - Faulty(faults))
        invariant forall op :: op in todo ==> ConfirmCall(op, PostingOf(rows[op])) in state.tasks
        invariant txs.rows == ConfirmedRows(rows, done)
        decreases todo
      {
        var op :| op in todo;
        MarkedSoFar(all, todo, faults, op);
        ConfirmedSoFar(rows, done, op);
        var marked := ConfirmRow(op, rows[op], FaultOf(faults, op));
        done := if marked then done + {op} else done;
        todo := todo - {op};
      }
      assert all - todo - Faulty(faults) == all - Faulty(faults);
    }

    method CancelRows(rows: Rows, all: set<Outpoint>, faults: Faults) returns (ghost done: set<Outpoint>)
      requires Valid() && txs.rows == rows && all <= rows.Keys
      requires forall op :: op in all ==> CancelCall(op, PostingOf(rows[op])) in state.tasks
      modifies `state, txs, cashier
      ensures Valid() && txs.rows == rows - done
      ensures done <= all - Faulty(faults) && (a == CALM ==> done == all - Faulty(faults))
    {
      var todo := all;
      done := {};
      assert rows - done == rows;
      while todo != {}
        invariant Valid() && todo <= all
        invariant done <= all - todo - Faulty(faults) && (a == CALM ==> done == all - todo - Faulty(faults))
        invariant forall op :: op in todo ==> CancelCall(op, PostingOf(rows[op])) in state.tasks
        invariant txs.rows == rows - done
        decreases todo
      {
        var op :| op in todo;
        MarkedSoFar(all, todo, faults, op);
        CancelledSoFar(rows, done, op);
        var marked := CancelRow(op, rows[op], FaultOf(faults, op));
        done := if marked then done + {op} else done;
        todo := todo - {op};
      }
      assert all - todo - Faulty(faults) == all - Faulty(faults);
    }

    ghost method Rest()
      requires Valid()
      modifies `state
      ensures Idle() && state.bank == old(state.bank)
    {
      FinishPerformed(w, a, state);
      state := state.(tasks := {});
    }

    // Afterwards exactly the rows that met a fault are still to be escrowed.
    method RetryEscrows(faults: Faults)
      requires Idle()
      modifies `state, txs, cashier
      ensures Idle()
      ensures txs.rows == EscrowedRows(old(txs.rows), NotEscrowed(old(txs.rows)) - Faulty(faults))
      ensures NotEscrowed(txs.rows) == NotEscrowed(old(txs.rows)) * Faulty(faults)
    {
      var rows := txs.rows;
      var all := ListNew();
      EscrowRows(rows, all, faults);
      Rest();
      StillNotEscrowed(rows, faults);
    }

    // Afterwards exactly the ready rows not marked are still to be confirmed: under all assumptions
    // those that met a fault.
    method CheckConfirmations(height: int, faults: Faults) returns (ghost done: set<Outpoint>)
      requires Idle()
      modifies `state, txs, cashier
      ensures Idle() && txs.rows == ConfirmedRows(old(txs.rows), done)
      ensures var ready := ReadyToConfirm(old(txs.rows), confirmations, height);
        && done <= ready - Faulty(faults) && (a == CALM ==> done == ready - Faulty(faults))
        && ReadyToConfirm(txs.rows, confirmations, height) == ready - done
    {
      var rows := txs.rows;
      var all := ListDeep(height);
      done := ConfirmRows(rows, all, faults);
      Rest();
      StillReady(rows, confirmations, height, done);
    }

    // `aged` are the rows whose reorganisation is old enough.
    method CancelReorgedEscrows(aged: set<Outpoint>, faults: Faults) returns (ghost done: set<Outpoint>)
      requires Idle()
      modifies `state, txs, cashier
      ensures Idle() && txs.rows == old(txs.rows) - done
      ensures var gone := ReorgedEscrowed(old(txs.rows));
        && done <= gone * aged - Faulty(faults) && (a == CALM ==> done == gone * aged - Faulty(faults))
        && ReorgedEscrowed(txs.rows) == gone - done
    {
      var rows := txs.rows;
      var all := ListAged(aged);
      done := CancelRows(rows, all, faults);
      Rest();
      StillReorged(rows, done);
    }

    // Adds one output to a known address; `lost` says that the insert failed.
    method InsertOutput(o: Output, height: int, lost: bool)
      requires Idle() && Fits(w, a, state.bank.history, addrIndex, o)
      modifies `state, txs
      ensures Idle() && state.bank == old(state.bank)
      ensures txs.rows ==
        if o.address in addrIndex && !lost then Insert(old(txs.rows), o.op, addrIndex[o.address], o.sats, height)
        else old(txs.rows)
    {
      if o.address !in addrIndex || lost {
        return;
      }
      ReachStep(w, a, state, Seen(o.op, height));
      state := Next(w, state, Seen(o.op, height));
      txs.InsertDeposit(o.op, addrIndex[o.address], o.sats, height);
    }

    method InsertOutputs(outs: seq<Output>, height: int, lost: set<Outpoint>)
      requires Idle() && forall o :: o in outs ==> Fits(w, a, state.bank.history, addrIndex, o)
      modifies `state, txs
      ensures Idle() && txs.rows == InsertedRows(old(txs.rows), outs, addrIndex, lost, height)
    {
      ghost var rows := txs.rows;
      var i := 0;
      assert outs[..0] == [];
      while i < |outs|
        invariant i <= |outs| && Idle() && state.bank == old(state.bank)
        invariant txs.rows == InsertedRows(rows, outs[..i], addrIndex, lost, height)
      {
        assert outs[..i + 1][..i] == outs[..i] && outs[..i + 1][i] == outs[i];
        InsertOutput(outs[i], height, outs[i].op in lost);
        i := i + 1;
      }
      assert outs[..i] == outs;
    }

    // A connected block: its outputs, then, for the leader, escrows and confirmations.
    method BlockConnected(outs: seq<Output>, height: int, lost: set<Outpoint>, leader: bool, escrowing: Faults,
                          confirming: Faults) returns (ghost done: set<Outpoint>)
      requires Idle() && forall o :: o in outs ==> Fits(w, a, state.bank.history, addrIndex, o)
      modifies `state, txs, cashier
      ensures Idle()
      ensures var seen := InsertedRows(old(txs.rows), outs, addrIndex, lost, height);
        var held := EscrowedRows(seen, NotEscrowed(seen) - Faulty(escrowing));
        var ready := ReadyToConfirm(held, confirmations, height);
        && txs.rows == (if leader then ConfirmedRows(held, done) else seen)
        && done <= ready - Faulty(confirming) && (leader && a == CALM ==> done == ready - Faulty(confirming))
    {
      InsertOutputs(outs, height, lost);
      done := {};
      if leader {
        RetryEscrows(escrowing);
        done := CheckConfirmations(height, confirming);
      }
    }

    // A disconnected block; the second statement may be lost.
    method BlockDisconnected(height: int, lost: bool)
      requires Idle() && (a.deepIsFinal ==> DeepIsFinal(state, DisconnectSoft(height)))
      modifies `state, txs
      ensures Idle()
      ensures txs.rows ==
        if lost then SoftDelete(old(txs.rows), height) else HardDelete(SoftDelete(old(txs.rows), height), height)
    {
      ReachStep(w, a, state, DisconnectSoft(height));
      state := Next(w, state, DisconnectSoft(height));
      if !lost {
        ReachStep(w, a, state, DisconnectHard(height));
        state := Next(w, state, DisconnectHard(height));
      }
      txs.DeleteFromHeight(height, lost);
    }

    // The periodic round of a leader.
    method CashierTick(leader: bool, best: Height, aged: set<Outpoint>, escrowing: Faults, cancelling: Faults,
                       confirming: Faults) returns (ghost dropped: set<Outpoint>, ghost done: set<Outpoint>)
      requires Idle()
      modifies `state, txs, cashier
      ensures Idle()
      ensures !leader ==> txs.rows == old(txs.rows)
      ensures leader ==>
        var held := EscrowedRows(old(txs.rows), NotEscrowed(old(txs.rows)) - Faulty(escrowing));
        var gone := ReorgedEscrowed(held) * aged;
        && dropped <= gone - Faulty(cancelling) && (a == CALM ==> dropped == gone - Faulty(cancelling))
        && if best.Unknown? then txs.rows == held - dropped
           else
             var ready := ReadyToConfirm(held - dropped, confirmations, best.height);
             && txs.rows == ConfirmedRows(held - dropped, done)
             && done <= ready - Faulty(confirming) && (a == CALM ==> done == ready - Faulty(confirming))
    {
      dropped, done := {}, {};
      if leader {
        RetryEscrows(escrowing);
        dropped := CancelReorgedEscrows(aged, cancelling);
        if best.Known? {
          done := CheckConfirmations(best.height, confirming);
        }
      }
    }
  }
}
