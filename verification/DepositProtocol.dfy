/** The deposit protocol: watcher, deposit rows and cashier as one transition system. */
module DepositProtocol {
  import opened Ledger
  import opened LedgerHistory
  import opened DepositKeys
  import opened DepositTable

  // What a watcher has still to do for a row it has listed: call the cashier, then mark the row.
  datatype Task =
    | EscrowCall(op: Outpoint, posting: Posting)
    | EscrowMark(op: Outpoint)
    | ConfirmCall(op: Outpoint, posting: Posting)
    | ConfirmMark(op: Outpoint)
    | CancelCall(op: Outpoint, posting: Posting)
    | CancelMark(op: Outpoint)

  // `deep` remembers the outputs that were ever listed as ready to confirm.
  datatype System = System(bank: Bank, rows: Rows, tasks: set<Task>, deep: set<Outpoint>)

  const IDLE := System(NEW_BANK, map[], {}, {})

  // Any number of watchers may have tasks under way.  A task that is never performed is a failed
  // call or a lost mark; `reported` says whether a successful call's answer arrived.
  datatype Step =
    | Seen(op: Outpoint, height: int)
    | DisconnectSoft(height: int)
    | DisconnectHard(height: int)
    | ListNotEscrowed
    | ListReady(current: int)
    | ListReorged(which: set<Outpoint>)
    | Call(task: Task, reported: bool)
    | Mark(task: Task)
    | Finish
    | UserStep(request: Request)

  // The chain fixes the user and the amount of every output.
  datatype World = World(chain: Outpoint -> Posting, confirmations: int)

  function PostingOf(row: Row): Posting { Posting(row.user, row.sats) }

  predicate IsCall(t: Task) { t.EscrowCall? || t.ConfirmCall? || t.CancelCall? }

  function RequestOf(t: Task): Request
    requires IsCall(t)
  {
    var ref := DepositRef(t.op);
    match t
    case EscrowCall(_, p) => CreditReq(p.user, ref, p.amount)
    case ConfirmCall(_, p) => ConfirmReq(p.user, ref, p.amount)
    case CancelCall(_, p) => CancelReq(p.user, ref, p.amount)
  }

  function MarkOf(t: Task): Task
    requires IsCall(t)
  {
    match t
    case EscrowCall(op, _) => EscrowMark(op)
    case ConfirmCall(op, _) => ConfirmMark(op)
    case CancelCall(op, _) => CancelMark(op)
  }

  function Marked(rows: Rows, t: Task): Rows
    requires !IsCall(t)
  {
    match t
    case EscrowMark(op) => MarkEscrowed(rows, op)
    case ConfirmMark(op) => MarkConfirmed(rows, op)
    case CancelMark(op) => MarkCancelled(rows, op)
  }

  predicate UserRequest(r: Request) { r.DepositReq? || r.WithdrawReq? || r.EscrowReq? || r.ReadReq? || r.CommitReq? }

  function Next(w: World, s: System, step: Step): System {
    match step
    case Seen(op, height) => s.(rows := Insert(s.rows, op, w.chain(op).user, w.chain(op).amount, height))
    case DisconnectSoft(height) => s.(rows := SoftDelete(s.rows, height))
    case DisconnectHard(height) => s.(rows := HardDelete(s.rows, height))
    case ListNotEscrowed =>
      s.(tasks := s.tasks + set op | op in NotEscrowed(s.rows) :: EscrowCall(op, PostingOf(s.rows[op])))
    case ListReady(current) =>
      var ready := ReadyToConfirm(s.rows, w.confirmations, current);
      s.(tasks := s.tasks + (set op | op in ready :: ConfirmCall(op, PostingOf(s.rows[op]))), deep := s.deep + ready)
    case ListReorged(which) =>
      var gone := ReorgedEscrowed(s.rows);
      s.(tasks := s.tasks + set op | op in which && op in gone :: CancelCall(op, PostingOf(s.rows[op])))
    case Call(task, reported) =>
      if task !in s.tasks || !IsCall(task) then s
      else
        var ok := Transact(s.bank.tables, RequestOf(task)).reply.Ok?;
        s.(bank := Apply(s.bank, RequestOf(task)),
           tasks := if ok && reported then s.tasks + {MarkOf(task)} else s.tasks)
    case Mark(task) => if task !in s.tasks || IsCall(task) then s else s.(rows := Marked(s.rows, task))
    case Finish => s.(tasks := {})
    case UserStep(r) => if UserRequest(r) then s.(bank := Apply(s.bank, r)) else s
  }

  function Run(w: World, steps: seq<Step>): System {
    if steps == [] then IDLE else Next(w, Run(w, steps[..|steps| - 1]), steps[|steps| - 1])
  }

  // ---------------------------------------------------------------- assumptions on the environment

  // Outputs carry real transaction ids, users' own keys are not deposit keys, and a released
  // order id is not escrowed again.
  ghost predicate EnvOk(s: System, step: Step) {
    match step
    case Seen(op, _) => ValidTxid(op.txid)
    case UserStep(r) =>
      && (r.DepositReq? || r.WithdrawReq? ==> !DepositKey(r.key))
      && NotReused(s.bank, r)
    case _ => true
  }

  ghost predicate EnvRun(w: World, steps: seq<Step>) {
    steps == [] || (EnvRun(w, steps[..|steps| - 1]) && EnvOk(Run(w, steps[..|steps| - 1]), steps[|steps| - 1]))
  }

  // ---------------------------------------------------------------- effects happen in order

  predicate Credited(h: History, op: Outpoint) { DepositRef(op) in h.credited }

  predicate Confirmed(h: History, op: Outpoint) { DepositRef(op) in h.confirmed }

  predicate Cancelled(h: History, op: Outpoint) { DepositRef(op) in h.cancelled }

  // A row is the chain's output, and its marks are backed by applied effects.
  predicate RowBacked(w: World, h: History, op: Outpoint, row: Row) {
    && ValidTxid(op.txid) && PostingOf(row) == w.chain(op) && 0 < row.sats
    && (row.escrowed ==> Credited(h, op))
    && (row.confirmed ==> Confirmed(h, op))
    && (row.reorged ==> row.escrowed)
  }

  predicate TaskBacked(w: World, h: History, t: Task) {
    && ValidTxid(t.op.txid)
    && (IsCall(t) ==> t.posting == w.chain(t.op) && 0 < t.posting.amount)
    && (!t.EscrowCall? ==> Credited(h, t.op))
    && (t.ConfirmMark? ==> Confirmed(h, t.op))
    && (t.CancelMark? ==> Cancelled(h, t.op))
  }

  // A reference in a history table is a deposit of the chain.
  ghost predicate FromChain(w: World, ref: string, p: Posting) {
    exists op: Outpoint :: ValidTxid(op.txid) && ref == DepositRef(op) && p == w.chain(op)
  }

  ghost predicate AllFromChain(w: World, m: map<string, Posting>) {
    forall ref :: ref in m ==> FromChain(w, ref, m[ref])
  }

  ghost predicate OwnKeys(m: map<string, Posting>) { forall key :: key in m ==> !DepositKey(key) }

  ghost predicate HistoryBacked(w: World, h: History) {
    && OwnKeys(h.deposits) && OwnKeys(h.withdrawals)
    && AllFromChain(w, h.credited) && AllFromChain(w, h.confirmed) && AllFromChain(w, h.cancelled)
    && h.confirmed.Keys <= h.credited.Keys && h.cancelled.Keys <= h.credited.Keys
  }

  predicate HaveAccounts(b: Bank) {
    forall ref :: ref in b.history.credited ==> b.history.credited[ref].user in b.tables.accounts
  }

  predicate RowsBacked(w: World, h: History, rows: Rows) { forall op :: op in rows ==> RowBacked(w, h, op, rows[op]) }

  predicate TasksBacked(w: World, h: History, tasks: set<Task>) { forall t :: t in tasks ==> TaskBacked(w, h, t) }

  ghost predicate BankBacked(w: World, b: Bank) { Sound(b) && HistoryBacked(w, b.history) && HaveAccounts(b) }

  ghost predicate Backed(w: World, s: System) {
    && BankBacked(w, s.bank)
    && RowsBacked(w, s.bank.history, s.rows)
    && TasksBacked(w, s.bank.history, s.tasks)
  }

  // ---------------------------------------------------------------- keys tell effects

  lemma FromChainRef(w: World, ref: string, p: Posting) returns (op: Outpoint)
    requires FromChain(w, ref, p)
    ensures ValidTxid(op.txid) && ref == DepositRef(op) && p == w.chain(op)
  {
    op :| ValidTxid(op.txid) && ref == DepositRef(op) && p == w.chain(op);
  }

  lemma NotCredited(w: World, m: map<string, Posting>, op: Outpoint)
    requires AllFromChain(w, m) && ValidTxid(op.txid)
    ensures ConfirmKey(DepositRef(op)) !in m && CancelKey(DepositRef(op)) !in m
  {
    forall ref | ref in m ensures ref != ConfirmKey(DepositRef(op)) && ref != CancelKey(DepositRef(op)) {
      var op' := FromChainRef(w, ref, m[ref]);
      FamiliesAreDisjoint(op', op);
    }
  }

  lemma NotConfirmed(w: World, m: map<string, Posting>, op: Outpoint, ref: string)
    requires AllFromChain(w, m) && ValidTxid(op.txid) && ref in m
    ensures ConfirmKey(ref) != DepositRef(op) && ConfirmKey(ref) != CancelKey(DepositRef(op))
  {
    var op' := FromChainRef(w, ref, m[ref]);
    FamiliesAreDisjoint(op, op');
    FamiliesAreDisjoint(op', op);
  }

  lemma NotCancelled(w: World, m: map<string, Posting>, op: Outpoint, ref: string)
    requires AllFromChain(w, m) && ValidTxid(op.txid) && ref in m
    ensures CancelKey(ref) != DepositRef(op) && CancelKey(ref) != ConfirmKey(DepositRef(op))
  {
    var op' := FromChainRef(w, ref, m[ref]);
    FamiliesAreDisjoint(op, op');
  }

  lemma RefTaken(w: World, b: Bank, op: Outpoint)
    requires KeysOk(b) && HistoryBacked(w, b.history) && ValidTxid(op.txid) && DepositRef(op) in b.tables.keys
    ensures Credited(b.history, op)
  {
    var h, key := b.history, DepositRef(op);
    assert DepositKey(key);
    forall ref | ref in h.confirmed ensures key != ConfirmKey(ref) {
      NotConfirmed(w, h.confirmed, op, ref);
    }
    forall ref | ref in h.cancelled ensures key != CancelKey(ref) {
      NotCancelled(w, h.cancelled, op, ref);
    }
  }

  lemma ConfirmTaken(w: World, b: Bank, op: Outpoint)
    requires KeysOk(b) && HistoryBacked(w, b.history) && ValidTxid(op.txid)
      && ConfirmKey(DepositRef(op)) in b.tables.keys
    ensures Confirmed(b.history, op)
  {
    var h, key := b.history, ConfirmKey(DepositRef(op));
    assert DepositKey(key);
    NotCredited(w, h.credited, op);
    forall ref | ref in h.cancelled ensures key != CancelKey(ref) {
      NotCancelled(w, h.cancelled, op, ref);
    }
    forall ref | ref in h.confirmed && key == ConfirmKey(ref) ensures ref == DepositRef(op) {
      PrefixInjective("confirm:", ref, DepositRef(op));
    }
  }

  lemma CancelTaken(w: World, b: Bank, op: Outpoint)
    requires KeysOk(b) && HistoryBacked(w, b.history) && ValidTxid(op.txid)
      && CancelKey(DepositRef(op)) in b.tables.keys
    ensures Cancelled(b.history, op)
  {
    var h, key := b.history, CancelKey(DepositRef(op));
    assert DepositKey(key);
    NotCredited(w, h.credited, op);
    forall ref | ref in h.confirmed ensures key != ConfirmKey(ref) {
      NotConfirmed(w, h.confirmed, op, ref);
    }
    forall ref | ref in h.cancelled && key == CancelKey(ref) ensures ref == DepositRef(op) {
      PrefixInjective("cancel:", ref, DepositRef(op));
    }
  }

  // ---------------------------------------------------------------- rows

  lemma InsertBacked(w: World, h: History, rows: Rows, op: Outpoint, height: int)
    requires RowsBacked(w, h, rows) && ValidTxid(op.txid)
    ensures RowsBacked(w, h, Insert(rows, op, w.chain(op).user, w.chain(op).amount, height))
  {
  }

  lemma SoftBacked(w: World, h: History, rows: Rows, height: int)
    requires RowsBacked(w, h, rows)
    ensures RowsBacked(w, h, SoftDelete(rows, height)) && RowsBacked(w, h, HardDelete(rows, height))
  {
  }

  lemma MarkedBacked(w: World, h: History, rows: Rows, t: Task)
    requires RowsBacked(w, h, rows) && TaskBacked(w, h, t) && !IsCall(t)
    ensures RowsBacked(w, h, Marked(rows, t))
  {
  }

  lemma ListedBacked(w: World, s: System, step: Step)
    requires RowsBacked(w, s.bank.history, s.rows) && TasksBacked(w, s.bank.history, s.tasks)
    requires step.ListNotEscrowed? || step.ListReady? || step.ListReorged?
    ensures TasksBacked(w, s.bank.history, Next(w, s, step).tasks)
  {
    var s' := Next(w, s, step);
    forall t | t in s'.tasks ensures TaskBacked(w, s.bank.history, t) {
      if t !in s.tasks {
        assert RowBacked(w, s.bank.history, t.op, s.rows[t.op]);
      }
    }
  }

  // ---------------------------------------------------------------- the bank

  // The later history has everything the earlier one has.
  predicate Extends(h: History, h': History) {
    && h.credited.Keys <= h'.credited.Keys
    && h.confirmed.Keys <= h'.confirmed.Keys
    && h.cancelled.Keys <= h'.cancelled.Keys
  }

  lemma AppliedExtends(b: Bank, r: Request)
    ensures Extends(b.history, Apply(b, r).history)
  {
  }

  lemma ExtendedBacked(w: World, h: History, h': History, rows: Rows, tasks: set<Task>)
    requires Extends(h, h') && RowsBacked(w, h, rows) && TasksBacked(w, h, tasks)
    ensures RowsBacked(w, h', rows) && TasksBacked(w, h', tasks)
  {
    forall op | op in rows ensures RowBacked(w, h', op, rows[op]) {
      assert RowBacked(w, h, op, rows[op]);
    }
    forall t | t in tasks ensures TaskBacked(w, h', t) {
      assert TaskBacked(w, h, t);
    }
  }

  lemma AccountsStay(t: Tables, r: Request)
    ensures t.accounts.Keys <= Transact(t, r).tables.accounts.Keys
    ensures Applied(t, r) && r.CreditReq? ==> r.user in Transact(t, r).tables.accounts
  {
  }

  // A request of a backed task, or a user's own request.
  ghost predicate FairRequest(w: World, b: Bank, r: Request) {
    || (exists t :: TaskBacked(w, b.history, t) && IsCall(t) && r == RequestOf(t))
    || (UserRequest(r) && (r.DepositReq? || r.WithdrawReq? ==> !DepositKey(r.key)) && NotReused(b, r))
  }

  lemma OneMoreFromChain(w: World, m: map<string, Posting>, ref: string, p: Posting)
    requires AllFromChain(w, m) && FromChain(w, ref, p)
    ensures AllFromChain(w, m[ref := p])
  {
  }

  lemma CreditRecorded(w: World, h: History, ref: string, p: Posting)
    requires HistoryBacked(w, h) && FromChain(w, ref, p)
    ensures HistoryBacked(w, h.(credited := h.credited[ref := p]))
  {
    OneMoreFromChain(w, h.credited, ref, p);
  }

  lemma ConfirmRecorded(w: World, h: History, ref: string, p: Posting)
    requires HistoryBacked(w, h) && FromChain(w, ref, p) && ref in h.credited
    ensures HistoryBacked(w, h.(confirmed := h.confirmed[ref := p]))
  {
    OneMoreFromChain(w, h.confirmed, ref, p);
  }

  lemma CancelRecorded(w: World, h: History, ref: string, p: Posting)
    requires HistoryBacked(w, h) && FromChain(w, ref, p) && ref in h.credited
    ensures HistoryBacked(w, h.(cancelled := h.cancelled[ref := p]))
  {
    OneMoreFromChain(w, h.cancelled, ref, p);
  }

  lemma RecordOfCall(h: History, t: Task)
    requires IsCall(t)
    ensures var ref, p := DepositRef(t.op), t.posting;
      Record(h, RequestOf(t)) ==
        match t
        case EscrowCall(_, _) => h.(credited := h.credited[ref := p])
        case ConfirmCall(_, _) => h.(confirmed := h.confirmed[ref := p])
        case CancelCall(_, _) => h.(cancelled := h.cancelled[ref := p])
  {
  }

  lemma CallRecorded(w: World, h: History, t: Task)
    requires HistoryBacked(w, h) && TaskBacked(w, h, t) && IsCall(t)
    ensures HistoryBacked(w, Record(h, RequestOf(t)))
  {
    var ref, p := DepositRef(t.op), t.posting;
    assert FromChain(w, ref, p);
    RecordOfCall(h, t);
    match t
    case EscrowCall(_, _) => CreditRecorded(w, h, ref, p);
    case ConfirmCall(_, _) => ConfirmRecorded(w, h, ref, p);
    case CancelCall(_, _) => CancelRecorded(w, h, ref, p);
  }

  lemma UserRecorded(w: World, h: History, r: Request)
    requires HistoryBacked(w, h) && UserRequest(r) && (r.DepositReq? || r.WithdrawReq? ==> !DepositKey(r.key))
    ensures HistoryBacked(w, Record(h, r))
  {
  }

  lemma RecordBacked(w: World, b: Bank, r: Request)
    requires HistoryBacked(w, b.history) && FairRequest(w, b, r)
    ensures HistoryBacked(w, Record(b.history, r))
  {
    if t :| TaskBacked(w, b.history, t) && IsCall(t) && r == RequestOf(t) {
      CallRecorded(w, b.history, t);
    } else {
      UserRecorded(w, b.history, r);
    }
  }

  lemma AccountsKept(b: Bank, r: Request)
    requires HaveAccounts(b)
    ensures HaveAccounts(Apply(b, r))
  {
    AccountsStay(b.tables, r);
  }

  lemma FairIsDisciplined(w: World, b: Bank, r: Request)
    requires FairRequest(w, b, r)
    ensures NotReused(b, r)
  {
  }

  lemma HistoryStep(w: World, b: Bank, r: Request)
    requires HistoryBacked(w, b.history) && FairRequest(w, b, r)
    ensures HistoryBacked(w, Apply(b, r).history)
  {
    RecordBacked(w, b, r);
  }

  lemma BankStep(w: World, b: Bank, r: Request)
    requires BankBacked(w, b) && FairRequest(w, b, r)
    ensures BankBacked(w, Apply(b, r))
  {
    FairIsDisciplined(w, b, r);
    SoundKept(b, r);
    HistoryStep(w, b, r);
    AccountsKept(b, r);
  }

  // A successful call leaves its effect applied, whether now or by an earlier attempt.
  lemma CreditTakesEffect(w: World, b: Bank, op: Outpoint, r: Request)
    requires KeysOk(b) && HistoryBacked(w, b.history) && ValidTxid(op.txid)
    requires r.CreditReq? && r.ref == DepositRef(op) && Transact(b.tables, r).reply.Ok?
    ensures Credited(Apply(b, r).history, op)
  {
    if r.ref in b.tables.keys {
      RefTaken(w, b, op);
    }
  }

  lemma ConfirmTakesEffect(w: World, b: Bank, op: Outpoint, r: Request)
    requires KeysOk(b) && HistoryBacked(w, b.history) && ValidTxid(op.txid)
    requires r.ConfirmReq? && r.ref == DepositRef(op) && Transact(b.tables, r).reply.Ok?
    ensures Confirmed(Apply(b, r).history, op)
  {
    if ConfirmKey(r.ref) in b.tables.keys {
      ConfirmTaken(w, b, op);
    }
  }

  lemma CancelTakesEffect(w: World, b: Bank, op: Outpoint, r: Request)
    requires KeysOk(b) && HistoryBacked(w, b.history) && ValidTxid(op.txid)
    requires r.CancelReq? && r.ref == DepositRef(op) && Transact(b.tables, r).reply.Ok?
    ensures Cancelled(Apply(b, r).history, op)
  {
    if CancelKey(r.ref) in b.tables.keys {
      CancelTaken(w, b, op);
    }
  }

  lemma {:induction false} CallTakesEffect(w: World, b: Bank, t: Task)
    requires KeysOk(b) && HistoryBacked(w, b.history) && TaskBacked(w, b.history, t) && IsCall(t)
    requires Transact(b.tables, RequestOf(t)).reply.Ok?
    ensures TaskBacked(w, Apply(b, RequestOf(t)).history, MarkOf(t))
  {
    var r := RequestOf(t);
    AppliedExtends(b, r);
    match t
    case EscrowCall(op, _) => CreditTakesEffect(w, b, op, r);
    case ConfirmCall(op, _) => ConfirmTakesEffect(w, b, op, r);
    case CancelCall(op, _) => CancelTakesEffect(w, b, op, r);
  }

  lemma TaskIsFair(w: World, b: Bank, t: Task)
    requires TaskBacked(w, b.history, t) && IsCall(t)
    ensures FairRequest(w, b, RequestOf(t))
  {
  }

  // The rows and tasks stay backed when the bank moves on.
  lemma BankMoves(w: World, s: System, r: Request)
    requires Backed(w, s) && FairRequest(w, s.bank, r)
    ensures Backed(w, s.(bank := Apply(s.bank, r)))
  {
    BankStep(w, s.bank, r);
    AppliedExtends(s.bank, r);
    ExtendedBacked(w, s.bank.history, Apply(s.bank, r).history, s.rows, s.tasks);
  }

  lemma TaskAdded(w: World, s: System, t: Task)
    requires Backed(w, s) && TaskBacked(w, s.bank.history, t)
    ensures Backed(w, s.(tasks := s.tasks + {t}))
  {
  }

  lemma CallValue(w: World, s: System, t: Task, reported: bool)
    requires t in s.tasks && IsCall(t)
    ensures var s1 := s.(bank := Apply(s.bank, RequestOf(t)));
      Next(w, s, Call(t, reported)) ==
        if Transact(s.bank.tables, RequestOf(t)).reply.Ok? && reported then s1.(tasks := s1.tasks + {MarkOf(t)}) else s1
  {
  }

  lemma CallBacked(w: World, s: System, t: Task, reported: bool)
    requires Backed(w, s) && t in s.tasks && IsCall(t)
    ensures Backed(w, Next(w, s, Call(t, reported)))
  {
    var r := RequestOf(t);
    var s1 := s.(bank := Apply(s.bank, r));
    assert TaskBacked(w, s.bank.history, t);
    TaskIsFair(w, s.bank, t);
    BankMoves(w, s, r);
    if Transact(s.bank.tables, r).reply.Ok? && reported {
      CallTakesEffect(w, s.bank, t);
      TaskAdded(w, s1, MarkOf(t));
    }
    CallValue(w, s, t, reported);
  }

  lemma UserBacked(w: World, s: System, r: Request)
    requires Backed(w, s) && UserRequest(r) && EnvOk(s, UserStep(r))
    ensures Backed(w, Next(w, s, UserStep(r)))
  {
    BankMoves(w, s, r);
  }

  lemma {:induction false} StepBacked(w: World, s: System, step: Step)
    requires Backed(w, s) && EnvOk(s, step)
    ensures Backed(w, Next(w, s, step))
  {
    match step
    case Seen(op, height) => InsertBacked(w, s.bank.history, s.rows, op, height);
    case DisconnectSoft(height) => SoftBacked(w, s.bank.history, s.rows, height);
    case DisconnectHard(height) => SoftBacked(w, s.bank.history, s.rows, height);
    case ListNotEscrowed => ListedBacked(w, s, step);
    case ListReady(_) => ListedBacked(w, s, step);
    case ListReorged(_) => ListedBacked(w, s, step);
    case Call(t, reported) =>
      if t in s.tasks && IsCall(t) {
        CallBacked(w, s, t, reported);
      }
    case Mark(t) =>
      if t in s.tasks && !IsCall(t) {
        MarkedBacked(w, s.bank.history, s.rows, t);
      }
    case Finish =>
    case UserStep(r) =>
      if UserRequest(r) {
        UserBacked(w, s, r);
      }
  }

  lemma IdleBacked(w: World)
    ensures Backed(w, IDLE)
  {
    LedgerIsExact([]);
  }

  // With any number of watchers, any interleaving of listing, calling and marking, and any lost
  // marks: a row marked escrowed (confirmed) had its escrow (confirm) applied, and nothing is
  // confirmed or cancelled that was not escrowed before.
  lemma {:induction false} EffectsAreOrdered(w: World, steps: seq<Step>)
    requires EnvRun(w, steps)
    ensures Backed(w, Run(w, steps))
  {
    if steps == [] {
      IdleBacked(w);
    } else {
      EffectsAreOrdered(w, steps[..|steps| - 1]);
      StepBacked(w, Run(w, steps[..|steps| - 1]), steps[|steps| - 1]);
    }
  }
}
