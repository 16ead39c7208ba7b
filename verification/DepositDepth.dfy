/** How deep a deposit is when it is confirmed, and which list a row is in. */
module DepositDepth {
  import opened LedgerHistory
  import opened DepositKeys
  import opened DepositTable
  import opened DepositProtocol
  import opened DepositSafety

  // ---------------------------------------------------------------- the lists

  // The block that showed a deposit has `depth` blocks on it at the given height.
  predicate DeepAt(row: Row, depth: int, height: int) { row.height + depth <= height }

  // Where a row stands, from the chain's point of view and the cashier's.
  datatype Standing = ToEscrow | TooShallow | ToConfirm | ToCancel | Finished

  function StandingOf(row: Row, depth: int, height: int): Standing {
    if !row.escrowed then ToEscrow
    else if row.confirmed then Finished
    else if row.reorged then ToCancel
    else if DeepAt(row, depth, height) then ToConfirm
    else TooShallow
  }

  // At every height the three lists are disjoint, and each holds exactly the rows that stand there;
  // confirmed rows and active ones that are not deep enough are in none.
  lemma ListsByStanding(w: World, h: History, rows: Rows, op: Outpoint, depth: int, height: int)
    requires RowsBacked(w, h, rows) && op in rows
    ensures var standing := StandingOf(rows[op], depth, height);
      && (op in NotEscrowed(rows) <==> standing == ToEscrow)
      && (op in ReadyToConfirm(rows, depth, height) <==> standing == ToConfirm)
      && (op in ReorgedEscrowed(rows) <==> standing == ToCancel)
  {
    assert RowBacked(w, h, op, rows[op]);
  }

  // A row that is escrowed, unconfirmed, active and deep is listed, and its confirm is under way.
  lemma DeepIsListed(w: World, s: System, op: Outpoint, height: int)
    requires op in s.rows && s.rows[op].escrowed && !s.rows[op].confirmed && !s.rows[op].reorged
    requires DeepAt(s.rows[op], w.confirmations, height)
    ensures ConfirmCall(op, PostingOf(s.rows[op])) in Next(w, s, ListReady(height)).tasks
    ensures op in Next(w, s, ListReady(height)).deep
  {
  }

  // ---------------------------------------------------------------- heights come from the chain

  ghost predicate SeenAt(steps: seq<Step>, op: Outpoint, height: int) {
    exists j :: 0 <= j < |steps| && steps[j] == Seen(op, height)
  }

  lemma HeightFrom(w: World, s: System, step: Step, op: Outpoint)
    requires op in Next(w, s, step).rows
    ensures var height := Next(w, s, step).rows[op].height;
      step == Seen(op, height) || (op in s.rows && s.rows[op].height == height)
  {
  }

  // Every row has the height of a block that showed its output.
  lemma {:induction false} RowsWereSeen(w: World, steps: seq<Step>, op: Outpoint)
    requires op in DepositProtocol.Run(w, steps).rows
    ensures SeenAt(steps, op, DepositProtocol.Run(w, steps).rows[op].height)
  {
    var n := |steps| - 1;
    var s, s' := DepositProtocol.Run(w, steps[..n]), DepositProtocol.Run(w, steps);
    HeightFrom(w, s, steps[n], op);
    if steps[n] == Seen(op, s'.rows[op].height) {
      assert steps[n] == Seen(op, s'.rows[op].height);
    } else {
      RowsWereSeen(w, steps[..n], op);
      var j :| 0 <= j < n && steps[..n][j] == Seen(op, s.rows[op].height);
      assert steps[j] == Seen(op, s'.rows[op].height);
    }
  }

  // ---------------------------------------------------------------- confirmed deposits were deep

  // At step `k` the watcher looked for deep rows, and this deposit's was one: active, escrowed, and
  // with the required number of blocks on the block that showed it.
  ghost predicate FoundDeepAt(w: World, steps: seq<Step>, op: Outpoint, k: int) {
    && 0 <= k < |steps| && steps[k].ListReady?
    && var s := DepositProtocol.Run(w, steps[..k]);
       && op in s.rows && s.rows[op].escrowed && !s.rows[op].reorged
       && DeepAt(s.rows[op], w.confirmations, steps[k].current)
       && SeenAt(steps[..k], op, s.rows[op].height)
  }

  ghost predicate FoundDeep(w: World, steps: seq<Step>, op: Outpoint) { exists k :: FoundDeepAt(w, steps, op, k) }

  lemma FoundDeepStays(w: World, steps: seq<Step>, n: int, op: Outpoint)
    requires 0 <= n <= |steps| && FoundDeep(w, steps[..n], op)
    ensures FoundDeep(w, steps, op)
  {
    var k :| FoundDeepAt(w, steps[..n], op, k);
    assert steps[..n][..k] == steps[..k];
    assert FoundDeepAt(w, steps, op, k);
  }

  lemma {:induction false} DeepWasFound(w: World, steps: seq<Step>, op: Outpoint)
    requires op in DepositProtocol.Run(w, steps).deep
    ensures FoundDeep(w, steps, op)
  {
    var n := |steps| - 1;
    var s := DepositProtocol.Run(w, steps[..n]);
    if op in s.deep {
      DeepWasFound(w, steps[..n], op);
      FoundDeepStays(w, steps, n, op);
    } else {
      RowsWereSeen(w, steps[..n], op);
      assert FoundDeepAt(w, steps, op, n);
    }
  }

  // Confirms under way and applied are those of deposits found deep.
  ghost predicate ConfirmsListed(s: System) {
    && (forall t :: t in s.tasks && (t.ConfirmCall? || t.ConfirmMark?) ==> t.op in s.deep)
    && (forall op: Outpoint :: ValidTxid(op.txid) && Confirmed(s.bank.history, op) ==> op in s.deep)
  }

  // The bank moves on, and confirms at most one listed deposit.
  lemma BankListed(s: System, b: Bank, refs: set<string>)
    requires ConfirmsListed(s) && b.history.confirmed.Keys <= s.bank.history.confirmed.Keys + refs
    requires forall op: Outpoint :: ValidTxid(op.txid) && DepositRef(op) in refs ==> op in s.deep
    ensures ConfirmsListed(s.(bank := b))
  {
  }

  lemma OnlyItsOutput(t: Task, op: Outpoint)
    requires ValidTxid(t.op.txid) && ValidTxid(op.txid) && DepositRef(op) in {DepositRef(t.op)}
    ensures op == t.op
  {
    RefInjective(op, t.op);
  }

  lemma CallMovesBank(w: World, s: System, t: Task)
    requires TaskBacked(w, s.bank.history, t) && ConfirmsListed(s) && t in s.tasks && IsCall(t)
    ensures ConfirmsListed(s.(bank := Apply(s.bank, RequestOf(t))))
  {
    var r := RequestOf(t);
    NewEffects(s.bank, r);
    if t.ConfirmCall? {
      forall op: Outpoint | ValidTxid(op.txid) && DepositRef(op) in {DepositRef(t.op)} ensures op in s.deep {
        OnlyItsOutput(t, op);
      }
      BankListed(s, Apply(s.bank, r), {DepositRef(t.op)});
    } else {
      BankListed(s, Apply(s.bank, r), {});
    }
  }

  lemma CallListed(w: World, s: System, t: Task, reported: bool)
    requires TaskBacked(w, s.bank.history, t) && ConfirmsListed(s) && t in s.tasks && IsCall(t)
    ensures ConfirmsListed(Next(w, s, Call(t, reported)))
  {
    CallMovesBank(w, s, t);
    CallValue(w, s, t, reported);
  }

  lemma ListsListed(w: World, s: System, step: Step)
    requires ConfirmsListed(s) && !step.Call? && !step.UserStep?
    ensures ConfirmsListed(Next(w, s, step))
  {
  }

  lemma StepListed(w: World, s: System, step: Step)
    requires TasksBacked(w, s.bank.history, s.tasks) && ConfirmsListed(s)
    ensures ConfirmsListed(Next(w, s, step))
  {
    match step
    case Call(t, reported) =>
      if t in s.tasks && IsCall(t) {
        CallListed(w, s, t, reported);
      }
    case UserStep(r) =>
      if UserRequest(r) {
        NewEffects(s.bank, r);
        BankListed(s, Apply(s.bank, r), {});
      }
    case _ => ListsListed(w, s, step);
  }

  lemma {:induction false} RunListed(w: World, steps: seq<Step>)
    requires EnvRun(w, steps)
    ensures ConfirmsListed(DepositProtocol.Run(w, steps))
  {
    if steps != [] {
      RunListed(w, steps[..|steps| - 1]);
      EffectsAreOrdered(w, steps[..|steps| - 1]);
      StepListed(w, DepositProtocol.Run(w, steps[..|steps| - 1]), steps[|steps| - 1]);
    }
  }

  // With any number of watchers and any lost marks: nothing is confirmed that was not found, active
  // and escrowed, under the required number of blocks.
  lemma ConfirmedWasDeep(w: World, steps: seq<Step>, op: Outpoint)
    requires EnvRun(w, steps) && ValidTxid(op.txid)
    requires Confirmed(DepositProtocol.Run(w, steps).bank.history, op)
    ensures FoundDeep(w, steps, op)
  {
    RunListed(w, steps);
    DeepWasFound(w, steps, op);
  }

  // ---------------------------------------------------------------- cancelled deposits were disconnected

  // A disconnect reached the given height.
  ghost predicate DroppedAt(steps: seq<Step>, height: int) {
    exists j :: 0 <= j < |steps| && steps[j].DisconnectSoft? && steps[j].height <= height
  }

  lemma DroppedStays(steps: seq<Step>, n: int, height: int)
    requires 0 <= n <= |steps| && DroppedAt(steps[..n], height)
    ensures DroppedAt(steps, height)
  {
    var j :| 0 <= j < n && steps[..n][j].DisconnectSoft? && steps[..n][j].height <= height;
    assert steps[j].DisconnectSoft? && steps[j].height <= height;
  }

  lemma ReorgedFrom(w: World, s: System, step: Step, op: Outpoint)
    requires op in Next(w, s, step).rows && Next(w, s, step).rows[op].reorged
    ensures var height := Next(w, s, step).rows[op].height;
      || (step.DisconnectSoft? && step.height <= height)
      || (op in s.rows && s.rows[op].reorged && s.rows[op].height == height)
  {
  }

  // A row counts as reorganised away only after a disconnect of its block.
  lemma {:induction false} ReorgedWasDropped(w: World, steps: seq<Step>, op: Outpoint)
    requires op in DepositProtocol.Run(w, steps).rows && DepositProtocol.Run(w, steps).rows[op].reorged
    ensures DroppedAt(steps, DepositProtocol.Run(w, steps).rows[op].height)
  {
    var n := |steps| - 1;
    var s, s' := DepositProtocol.Run(w, steps[..n]), DepositProtocol.Run(w, steps);
    ReorgedFrom(w, s, steps[n], op);
    if !(steps[n].DisconnectSoft? && steps[n].height <= s'.rows[op].height) {
      ReorgedWasDropped(w, steps[..n], op);
      DroppedStays(steps, n, s'.rows[op].height);
    }
  }

  // At step `k` the watcher looked for escrowed rows off the chain, and this deposit's was one.
  ghost predicate FoundGoneAt(w: World, steps: seq<Step>, op: Outpoint, k: int) {
    && 0 <= k < |steps| && steps[k].ListReorged? && op in steps[k].which
    && var s := DepositProtocol.Run(w, steps[..k]);
       && op in s.rows && s.rows[op].reorged && s.rows[op].escrowed && !s.rows[op].confirmed
       && SeenAt(steps[..k], op, s.rows[op].height) && DroppedAt(steps[..k], s.rows[op].height)
  }

  ghost predicate FoundGone(w: World, steps: seq<Step>, op: Outpoint) { exists k :: FoundGoneAt(w, steps, op, k) }

  lemma FoundGoneStays(w: World, steps: seq<Step>, n: int, op: Outpoint)
    requires 0 <= n <= |steps| && FoundGone(w, steps[..n], op)
    ensures FoundGone(w, steps, op)
  {
    var k :| FoundGoneAt(w, steps[..n], op, k);
    assert steps[..n][..k] == steps[..k];
    assert FoundGoneAt(w, steps, op, k);
  }

  // Everything found off the chain so far.
  function GoneSoFar(w: World, steps: seq<Step>): set<Outpoint> {
    if steps == [] then {}
    else
      var s, step := DepositProtocol.Run(w, steps[..|steps| - 1]), steps[|steps| - 1];
      GoneSoFar(w, steps[..|steps| - 1]) + if step.ListReorged? then ReorgedEscrowed(s.rows) * step.which else {}
  }

  lemma {:induction false} GoneWasFound(w: World, steps: seq<Step>, op: Outpoint)
    requires op in GoneSoFar(w, steps)
    ensures FoundGone(w, steps, op)
  {
    var n := |steps| - 1;
    if op in GoneSoFar(w, steps[..n]) {
      GoneWasFound(w, steps[..n], op);
      FoundGoneStays(w, steps, n, op);
    } else {
      RowsWereSeen(w, steps[..n], op);
      ReorgedWasDropped(w, steps[..n], op);
      assert FoundGoneAt(w, steps, op, n);
    }
  }

  ghost predicate CancelsListed(s: System, gone: set<Outpoint>) {
    && (forall t :: t in s.tasks && (t.CancelCall? || t.CancelMark?) ==> t.op in gone)
    && (forall op: Outpoint :: ValidTxid(op.txid) && Cancelled(s.bank.history, op) ==> op in gone)
  }

  lemma BankCancels(s: System, b: Bank, refs: set<string>, gone: set<Outpoint>)
    requires CancelsListed(s, gone) && b.history.cancelled.Keys <= s.bank.history.cancelled.Keys + refs
    requires forall op: Outpoint :: ValidTxid(op.txid) && DepositRef(op) in refs ==> op in gone
    ensures CancelsListed(s.(bank := b), gone)
  {
  }

  lemma CallMovesCancels(w: World, s: System, t: Task, gone: set<Outpoint>)
    requires TaskBacked(w, s.bank.history, t) && CancelsListed(s, gone) && t in s.tasks && IsCall(t)
    ensures CancelsListed(s.(bank := Apply(s.bank, RequestOf(t))), gone)
  {
    var r := RequestOf(t);
    NewEffects(s.bank, r);
    if t.CancelCall? {
      forall op: Outpoint | ValidTxid(op.txid) && DepositRef(op) in {DepositRef(t.op)} ensures op in gone {
        OnlyItsOutput(t, op);
      }
      BankCancels(s, Apply(s.bank, r), {DepositRef(t.op)}, gone);
    } else {
      BankCancels(s, Apply(s.bank, r), {}, gone);
    }
  }

  lemma CallCancels(w: World, s: System, t: Task, reported: bool, gone: set<Outpoint>)
    requires TaskBacked(w, s.bank.history, t) && CancelsListed(s, gone) && t in s.tasks && IsCall(t)
    ensures CancelsListed(Next(w, s, Call(t, reported)), gone)
  {
    CallMovesCancels(w, s, t, gone);
    CallValue(w, s, t, reported);
  }

  lemma StepCancels(w: World, s: System, step: Step, gone: set<Outpoint>)
    requires TasksBacked(w, s.bank.history, s.tasks) && CancelsListed(s, gone)
    ensures CancelsListed(Next(w, s, step), gone + if step.ListReorged? then ReorgedEscrowed(s.rows) * step.which
      else {})
  {
    match step
    case Call(t, reported) =>
      assert gone + {} == gone;
      if t in s.tasks && IsCall(t) {
        CallCancels(w, s, t, reported, gone);
      }
    case UserStep(r) =>
      assert gone + {} == gone;
      if UserRequest(r) {
        NewEffects(s.bank, r);
        BankCancels(s, Apply(s.bank, r), {}, gone);
      }
    case _ =>
  }

  lemma {:induction false} RunCancels(w: World, steps: seq<Step>)
    requires EnvRun(w, steps)
    ensures CancelsListed(DepositProtocol.Run(w, steps), GoneSoFar(w, steps))
  {
    if steps != [] {
      RunCancels(w, steps[..|steps| - 1]);
      EffectsAreOrdered(w, steps[..|steps| - 1]);
      StepCancels(w, DepositProtocol.Run(w, steps[..|steps| - 1]), steps[|steps| - 1],
          GoneSoFar(w, steps[..|steps| - 1]));
    }
  }

  // ... and nothing is cancelled that was not found escrowed, unconfirmed and off the chain, after a
  // disconnect of the block that had shown it.
  lemma CancelledWasGone(w: World, steps: seq<Step>, op: Outpoint)
    requires EnvRun(w, steps) && ValidTxid(op.txid)
    requires Cancelled(DepositProtocol.Run(w, steps).bank.history, op)
    ensures FoundGone(w, steps, op)
  {
    RunCancels(w, steps);
    GoneWasFound(w, steps, op);
  }
}
