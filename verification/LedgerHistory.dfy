/** Runs of cashier transactions, and the equations that tie every balance to what was applied. */
module LedgerHistory {
  import opened Ledger
  import opened Postings

  // Everything that was applied, each effect under its own key.
  datatype History = History(
    deposits: map<string, Posting>,
    withdrawals: map<string, Posting>,
    credited: map<string, Posting>,    // escrowed deposits, by reference
    confirmed: map<string, Posting>,
    cancelled: map<string, Posting>,
    released: set<nat>)

  const NO_HISTORY := History(map[], map[], map[], map[], map[], {})

  // The tables, the history, and what the releases under way have read, once for each release.
  datatype Bank = Bank(tables: Tables, history: History, pending: multiset<(nat, Posting)>)

  const NEW_BANK := Bank(EMPTY_TABLES, NO_HISTORY, multiset{})

  datatype Request =
    | DepositReq(user: string, key: string, amount: int)
    | WithdrawReq(user: string, key: string, amount: int)
    | EscrowReq(user: string, order: nat, amount: int)
    | ReadReq(order: nat)                    // the unlocked read of a release
    | CommitReq(order: nat, read: Posting)   // ... and its transaction
    | CreditReq(user: string, ref: string, amount: int)
    | ConfirmReq(user: string, ref: string, amount: int)
    | CancelReq(user: string, ref: string, amount: int)

  // The idempotency key of a keyed request.
  function KeyOf(r: Request): string
    requires !r.EscrowReq? && !r.ReadReq? && !r.CommitReq?
  {
    match r
    case DepositReq(_, key, _) => key
    case WithdrawReq(_, key, _) => key
    case CreditReq(_, ref, _) => ref
    case ConfirmReq(_, ref, _) => ConfirmKey(ref)
    case CancelReq(_, ref, _) => CancelKey(ref)
  }

  predicate Keyed(r: Request) { !r.EscrowReq? && !r.ReadReq? && !r.CommitReq? }

  function Transact(t: Tables, r: Request): Outcome {
    match r
    case DepositReq(user, key, amount) => Deposit(t, user, key, amount)
    case WithdrawReq(user, key, amount) => Withdraw(t, user, key, amount)
    case EscrowReq(user, order, amount) => Escrow(t, user, order, amount)
    case ReadReq(order) => Outcome(t, if order in t.entries then Ok(0, 0, false) else Err(UnknownEscrow))
    case CommitReq(order, read) => ReleaseCommit(t, order, read)
    case CreditReq(user, ref, amount) => DepositEscrowed(t, user, ref, amount)
    case ConfirmReq(user, ref, amount) => ConfirmDeposit(t, user, ref, amount)
    case CancelReq(user, ref, amount) => CancelDeposit(t, user, ref, amount)
  }

  // The request took effect.
  predicate Applied(t: Tables, r: Request) {
    && Transact(t, r).reply.Ok?
    && (Keyed(r) ==> KeyOf(r) !in t.keys)
    && (r.EscrowReq? ==> r.order !in t.entries)
  }

  function Record(h: History, r: Request): History {
    match r
    case DepositReq(user, key, amount) => h.(deposits := h.deposits[key := Posting(user, amount)])
    case WithdrawReq(user, key, amount) => h.(withdrawals := h.withdrawals[key := Posting(user, amount)])
    case CreditReq(user, ref, amount) => h.(credited := h.credited[ref := Posting(user, amount)])
    case ConfirmReq(user, ref, amount) => h.(confirmed := h.confirmed[ref := Posting(user, amount)])
    case CancelReq(user, ref, amount) => h.(cancelled := h.cancelled[ref := Posting(user, amount)])
    case CommitReq(order, _) => h.(released := h.released + {order})
    case _ => h
  }

  // A release commits only what it has read before.
  predicate Possible(b: Bank, r: Request) { r.CommitReq? ==> (r.order, r.read) in b.pending }

  // A read that finds its entry starts a release, and its commit ends it, whether it succeeds or not.
  function Pending(b: Bank, r: Request): multiset<(nat, Posting)> {
    match r
    case ReadReq(order) =>
      if order in b.tables.entries then b.pending + multiset{(order, b.tables.entries[order])} else b.pending
    case CommitReq(order, read) => b.pending - multiset{(order, read)}
    case _ => b.pending
  }

  function Apply(b: Bank, r: Request): Bank {
    if !Possible(b, r) then b
    else
      var history := if Applied(b.tables, r) then Record(b.history, r) else b.history;
      Bank(Transact(b.tables, r).tables, history, Pending(b, r))
  }

  function Run(b: Bank, rs: seq<Request>): Bank {
    if rs == [] then b else Apply(Run(b, rs[..|rs| - 1]), rs[|rs| - 1])
  }

  // ---------------------------------------------------------------- the equations

  ghost function GrossDue(h: History, user: string): int {
    Sum(h.deposits, user) - Sum(h.withdrawals, user) + Sum(h.credited, user) - Sum(h.cancelled, user)
  }

  ghost function EscrowDue(b: Bank, user: string): int {
    Sum(b.tables.entries, user) + Sum(b.history.credited, user) - Sum(b.history.confirmed, user)
    - Sum(b.history.cancelled, user)
  }

  // Every balance is exactly what the applied effects add up to.
  ghost predicate ExactFor(b: Bank, user: string) {
    RowOf(b.tables, user) == Account(GrossDue(b.history, user), EscrowDue(b, user))
  }

  ghost predicate Exact(b: Bank) { forall user :: ExactFor(b, user) }

  ghost predicate RowsOk(t: Tables) { forall user :: user in t.accounts ==> RowOk(t.accounts[user]) }

  function ConfirmKeys(refs: set<string>): set<string> { set ref | ref in refs :: ConfirmKey(ref) }

  function CancelKeys(refs: set<string>): set<string> { set ref | ref in refs :: CancelKey(ref) }

  // The keys of the effects in a history.
  function TakenKeys(h: History): set<string> {
    h.deposits.Keys + h.withdrawals.Keys + h.credited.Keys
    + ConfirmKeys(h.confirmed.Keys) + CancelKeys(h.cancelled.Keys)
  }

  // A key is taken exactly when its effect is in the history.
  predicate KeysOk(b: Bank) { b.tables.keys == TakenKeys(b.history) }

  ghost predicate RecordsPositive(h: History) {
    && Positive(h.deposits) && Positive(h.withdrawals)
    && Positive(h.credited) && Positive(h.confirmed) && Positive(h.cancelled)
  }

  ghost predicate AmountsOk(b: Bank) { Positive(b.tables.entries) && RecordsPositive(b.history) }

  // A release under way has read the entry that is still there, or the entry is gone for good.
  ghost predicate ReadsFit(entries: map<nat, Posting>, released: set<nat>, pending: multiset<(nat, Posting)>) {
    && (forall read :: read in pending ==>
          if read.0 in entries then entries[read.0] == read.1 else read.0 in released)
    && (forall order :: order in entries ==> order !in released)
  }

  ghost predicate ReadsOk(b: Bank) { ReadsFit(b.tables.entries, b.history.released, b.pending) }

  ghost predicate Sound(b: Bank) { RowsOk(b.tables) && KeysOk(b) && AmountsOk(b) && ReadsOk(b) && Exact(b) }

  // ---------------------------------------------------------------- keyed effects

  lemma FreshKey(b: Bank, r: Request)
    requires KeysOk(b) && Keyed(r) && KeyOf(r) !in b.tables.keys
    ensures match r
      case DepositReq(_, key, _) => key !in b.history.deposits
      case WithdrawReq(_, key, _) => key !in b.history.withdrawals
      case CreditReq(_, ref, _) => ref !in b.history.credited
      case ConfirmReq(_, ref, _) => ref !in b.history.confirmed
      case CancelReq(_, ref, _) => ref !in b.history.cancelled
      case _ => true
  {
  }

  lemma OneMoreKey(refs: set<string>, ref: string)
    ensures ConfirmKeys(refs + {ref}) == ConfirmKeys(refs) + {ConfirmKey(ref)}
    ensures CancelKeys(refs + {ref}) == CancelKeys(refs) + {CancelKey(ref)}
  {
  }

  lemma DepositedKey(h: History, key: string, p: Posting)
    ensures TakenKeys(h.(deposits := h.deposits[key := p])) == TakenKeys(h) + {key}
  {
    assert h.deposits[key := p].Keys == h.deposits.Keys + {key};
  }

  lemma WithdrawnKey(h: History, key: string, p: Posting)
    ensures TakenKeys(h.(withdrawals := h.withdrawals[key := p])) == TakenKeys(h) + {key}
  {
    assert h.withdrawals[key := p].Keys == h.withdrawals.Keys + {key};
  }

  lemma CreditedKey(h: History, key: string, p: Posting)
    ensures TakenKeys(h.(credited := h.credited[key := p])) == TakenKeys(h) + {key}
  {
    assert h.credited[key := p].Keys == h.credited.Keys + {key};
  }

  lemma ConfirmedKey(h: History, ref: string, p: Posting)
    ensures TakenKeys(h.(confirmed := h.confirmed[ref := p])) == TakenKeys(h) + {ConfirmKey(ref)}
  {
    OneMoreKey(h.confirmed.Keys, ref);
    assert h.confirmed[ref := p].Keys == h.confirmed.Keys + {ref};
  }

  lemma CancelledKey(h: History, ref: string, p: Posting)
    ensures TakenKeys(h.(cancelled := h.cancelled[ref := p])) == TakenKeys(h) + {CancelKey(ref)}
  {
    OneMoreKey(h.cancelled.Keys, ref);
    assert h.cancelled[ref := p].Keys == h.cancelled.Keys + {ref};
  }

  lemma RecordedKeys(h: History, r: Request)
    ensures TakenKeys(Record(h, r)) == if Keyed(r) then TakenKeys(h) + {KeyOf(r)} else TakenKeys(h)
  {
    match r
    case DepositReq(user, key, amount) => DepositedKey(h, key, Posting(user, amount));
    case WithdrawReq(user, key, amount) => WithdrawnKey(h, key, Posting(user, amount));
    case CreditReq(user, ref, amount) => CreditedKey(h, ref, Posting(user, amount));
    case ConfirmReq(user, ref, amount) => ConfirmedKey(h, ref, Posting(user, amount));
    case CancelReq(user, ref, amount) => CancelledKey(h, ref, Posting(user, amount));
    case _ =>
  }

  lemma TransactedKeys(t: Tables, r: Request)
    ensures Transact(t, r).tables.keys == t.keys + if Keyed(r) && Applied(t, r) then {KeyOf(r)} else {}
  {
  }

  lemma KeysKept(b: Bank, r: Request)
    requires KeysOk(b)
    ensures KeysOk(Apply(b, r))
  {
    TransactedKeys(b.tables, r);
    RecordedKeys(b.history, r);
  }

  // ---------------------------------------------------------------- what an applied request adds

  function UserOf(r: Request): string
    requires !r.ReadReq?
  {
    if r.CommitReq? then r.read.user else r.user
  }

  // What an applied request adds to its user's gross balance.
  function GrossDelta(r: Request): int {
    match r
    case DepositReq(_, _, amount) => amount
    case WithdrawReq(_, _, amount) => -amount
    case CreditReq(_, _, amount) => amount
    case CancelReq(_, _, amount) => -amount
    case _ => 0
  }

  // ... and to what is escrowed of it.
  function EscrowDelta(r: Request): int {
    match r
    case EscrowReq(_, _, amount) => amount
    case CommitReq(_, read) => -read.amount
    case CreditReq(_, _, amount) => amount
    case ConfirmReq(_, _, amount) => -amount
    case CancelReq(_, _, amount) => -amount
    case _ => 0
  }

  predicate Touches(r: Request, user: string) { !r.ReadReq? && user == UserOf(r) }

  // `t'` differs from `t` in one account row, by the given amounts.
  predicate Wrote(t: Tables, t': Tables, user: string, gross: int, escrowed: int) {
    t'.accounts == t.accounts[user := Account(RowOf(t, user).gross + gross, RowOf(t, user).escrowed + escrowed)]
  }

  lemma DepositWrites(t: Tables, user: string, key: string, amount: int)
    requires key !in t.keys && Deposit(t, user, key, amount).reply.Ok?
    ensures Wrote(t, Deposit(t, user, key, amount).tables, user, amount, 0)
  {
  }

  lemma WithdrawWrites(t: Tables, user: string, key: string, amount: int)
    requires key !in t.keys && Withdraw(t, user, key, amount).reply.Ok?
    ensures Wrote(t, Withdraw(t, user, key, amount).tables, user, -amount, 0)
  {
  }

  lemma CreditWrites(t: Tables, user: string, ref: string, amount: int)
    requires ref !in t.keys && DepositEscrowed(t, user, ref, amount).reply.Ok?
    ensures Wrote(t, DepositEscrowed(t, user, ref, amount).tables, user, amount, amount)
  {
  }

  lemma ConfirmWrites(t: Tables, user: string, ref: string, amount: int)
    requires ConfirmKey(ref) !in t.keys && ConfirmDeposit(t, user, ref, amount).reply.Ok?
    ensures Wrote(t, ConfirmDeposit(t, user, ref, amount).tables, user, 0, -amount)
  {
  }

  lemma CancelWrites(t: Tables, user: string, ref: string, amount: int)
    requires CancelKey(ref) !in t.keys && CancelDeposit(t, user, ref, amount).reply.Ok?
    ensures Wrote(t, CancelDeposit(t, user, ref, amount).tables, user, -amount, -amount)
  {
  }

  lemma EscrowWrites(t: Tables, user: string, order: nat, amount: int)
    requires order !in t.entries && Escrow(t, user, order, amount).reply.Ok?
    ensures Wrote(t, Escrow(t, user, order, amount).tables, user, 0, amount)
  {
  }

  lemma CommitWrites(t: Tables, order: nat, read: Posting)
    requires ReleaseCommit(t, order, read).reply.Ok?
    ensures Wrote(t, ReleaseCommit(t, order, read).tables, read.user, 0, -read.amount)
  {
  }

  // An applied request writes exactly its user's row, by its delta.
  lemma RowWritten(t: Tables, r: Request)
    requires Applied(t, r) && !r.ReadReq?
    ensures Wrote(t, Transact(t, r).tables, UserOf(r), GrossDelta(r), EscrowDelta(r))
  {
    match r
    case DepositReq(user, key, amount) => DepositWrites(t, user, key, amount);
    case WithdrawReq(user, key, amount) => WithdrawWrites(t, user, key, amount);
    case CreditReq(user, ref, amount) => CreditWrites(t, user, ref, amount);
    case ConfirmReq(user, ref, amount) => ConfirmWrites(t, user, ref, amount);
    case CancelReq(user, ref, amount) => CancelWrites(t, user, ref, amount);
    case EscrowReq(user, order, amount) => EscrowWrites(t, user, order, amount);
    case CommitReq(order, read) => CommitWrites(t, order, read);
  }

  lemma NothingHappens(t: Tables, r: Request)
    requires !Applied(t, r)
    ensures Transact(t, r).tables == t
  {
  }

  lemma GrossShift(b: Bank, r: Request, user: string)
    requires KeysOk(b) && Applied(b.tables, r)
    ensures GrossDue(Record(b.history, r), user) ==
      GrossDue(b.history, user) + if Touches(r, user) then GrossDelta(r) else 0
  {
    var h := b.history;
    if Keyed(r) {
      FreshKey(b, r);
      var p := Posting(r.user, r.amount);
      match r
      case DepositReq(_, key, _) => SumAdd(h.deposits, key, p, user);
      case WithdrawReq(_, key, _) => SumAdd(h.withdrawals, key, p, user);
      case CreditReq(_, ref, _) => SumAdd(h.credited, ref, p, user);
      case ConfirmReq(_, ref, _) => SumAdd(h.confirmed, ref, p, user);
      case CancelReq(_, ref, _) => SumAdd(h.cancelled, ref, p, user);
    }
  }

  // What the open entries hold for a user.
  lemma EntriesShift(t: Tables, r: Request, user: string)
    requires Applied(t, r) && (r.CommitReq? ==> t.entries[r.order] == r.read)
    ensures Sum(Transact(t, r).tables.entries, user) ==
      Sum(t.entries, user) + if (r.EscrowReq? || r.CommitReq?) && Touches(r, user) then EscrowDelta(r) else 0
  {
    match r
    case EscrowReq(who, order, amount) => SumAdd(t.entries, order, Posting(who, amount), user);
    case CommitReq(order, read) => SumPick(t.entries, order, user);
    case _ =>
  }

  // What the recorded deposits leave in escrow.
  ghost function HeldBy(h: History, user: string): int {
    Sum(h.credited, user) - Sum(h.confirmed, user) - Sum(h.cancelled, user)
  }

  lemma HeldShift(b: Bank, r: Request, user: string)
    requires KeysOk(b) && Applied(b.tables, r)
    ensures HeldBy(Record(b.history, r), user) ==
      HeldBy(b.history, user) + if Keyed(r) && Touches(r, user) then EscrowDelta(r) else 0
  {
    var h := b.history;
    if r.CreditReq? || r.ConfirmReq? || r.CancelReq? {
      FreshKey(b, r);
      var p := Posting(r.user, r.amount);
      match r
      case CreditReq(_, ref, _) => SumAdd(h.credited, ref, p, user);
      case ConfirmReq(_, ref, _) => SumAdd(h.confirmed, ref, p, user);
      case CancelReq(_, ref, _) => SumAdd(h.cancelled, ref, p, user);
    }
  }

  lemma EscrowShift(b: Bank, r: Request, user: string)
    requires KeysOk(b) && Applied(b.tables, r) && Possible(b, r)
    requires r.CommitReq? ==> b.tables.entries[r.order] == r.read
    ensures EscrowDue(Apply(b, r), user) == EscrowDue(b, user) + if Touches(r, user) then EscrowDelta(r) else 0
  {
    EntriesShift(b.tables, r, user);
    HeldShift(b, r, user);
  }

  lemma RowAfter(b: Bank, r: Request, user: string)
    requires Possible(b, r) && Applied(b.tables, r)
    ensures var a, a' := RowOf(b.tables, user), RowOf(Apply(b, r).tables, user);
      && a'.gross == a.gross + (if Touches(r, user) then GrossDelta(r) else 0)
      && a'.escrowed == a.escrowed + (if Touches(r, user) then EscrowDelta(r) else 0)
  {
    if !r.ReadReq? {
      RowWritten(b.tables, r);
    }
  }

  lemma AppliedExactFor(b: Bank, r: Request, user: string)
    requires ExactFor(b, user) && KeysOk(b) && Possible(b, r) && Applied(b.tables, r)
    requires r.CommitReq? ==> b.tables.entries[r.order] == r.read
    ensures ExactFor(Apply(b, r), user)
  {
    RowAfter(b, r, user);
    GrossShift(b, r, user);
    EscrowShift(b, r, user);
  }

  lemma ExactKept(b: Bank, r: Request)
    requires Exact(b) && KeysOk(b) && ReadsOk(b)
    ensures Exact(Apply(b, r))
  {
    forall user ensures ExactFor(Apply(b, r), user) {
      assert ExactFor(b, user);
      if Possible(b, r) {
        if Applied(b.tables, r) {
          AppliedExactFor(b, r, user);
        } else {
          NothingHappens(b.tables, r);
        }
      }
    }
  }

  lemma RowsKept(t: Tables, r: Request)
    requires RowsOk(t)
    ensures RowsOk(Transact(t, r).tables)
  {
  }

  lemma AppliedIsPositive(t: Tables, r: Request)
    requires Applied(t, r) && !r.ReadReq? && !r.CommitReq?
    ensures 0 < r.amount
  {
  }

  lemma EntriesPositive(t: Tables, r: Request)
    requires Positive(t.entries)
    ensures Positive(Transact(t, r).tables.entries)
  {
  }

  lemma RecordPositive(h: History, r: Request)
    requires RecordsPositive(h) && (Keyed(r) ==> 0 < r.amount)
    ensures RecordsPositive(Record(h, r))
  {
  }

  lemma AmountsKept(b: Bank, r: Request)
    requires AmountsOk(b)
    ensures AmountsOk(Apply(b, r))
  {
    EntriesPositive(b.tables, r);
    if Applied(b.tables, r) {
      if Keyed(r) {
        AppliedIsPositive(b.tables, r);
      }
      RecordPositive(b.history, r);
    }
  }

  // An order id is not escrowed again after its release.
  predicate NotReused(b: Bank, r: Request) { r.EscrowReq? ==> r.order !in b.history.released }

  // What a request does to the entries.
  lemma EntriesAfter(t: Tables, r: Request)
    ensures Transact(t, r).tables.entries ==
      if !Applied(t, r) then t.entries
      else if r.EscrowReq? then t.entries[r.order := Posting(r.user, r.amount)]
      else if r.CommitReq? then t.entries - {r.order}
      else t.entries
  {
  }

  lemma EntryAddedFits(entries: map<nat, Posting>, released: set<nat>, pending: multiset<(nat, Posting)>, order: nat,
                       p: Posting)
    requires ReadsFit(entries, released, pending) && order !in entries && order !in released
    ensures ReadsFit(entries[order := p], released, pending)
  {
  }

  lemma EntryReleasedFits(entries: map<nat, Posting>, released: set<nat>, pending: multiset<(nat, Posting)>, order: nat)
    requires ReadsFit(entries, released, pending)
    ensures ReadsFit(entries - {order}, released + {order}, pending)
  {
  }

  lemma FewerReadsFit(entries: map<nat, Posting>, released: set<nat>, pending: multiset<(nat, Posting)>,
                      pending': multiset<(nat, Posting)>)
    requires ReadsFit(entries, released, pending) && forall read :: read in pending' ==> read in pending
    ensures ReadsFit(entries, released, pending')
  {
  }

  // A release that ends, with its entry or without.
  lemma EndedFits(entries: map<nat, Posting>, released: set<nat>, pending: multiset<(nat, Posting)>, order: nat,
                  read: Posting)
    requires ReadsFit(entries, released, pending)
    ensures ReadsFit(entries - {order}, released + {order}, pending - multiset{(order, read)})
    ensures ReadsFit(entries, released, pending - multiset{(order, read)})
  {
    EntryReleasedFits(entries, released, pending, order);
    FewerReadsFit(entries - {order}, released + {order}, pending, pending - multiset{(order, read)});
    FewerReadsFit(entries, released, pending, pending - multiset{(order, read)});
  }

  lemma ReadsKept(b: Bank, r: Request)
    requires ReadsOk(b) && NotReused(b, r)
    ensures ReadsOk(Apply(b, r))
  {
    var entries, released := b.tables.entries, b.history.released;
    EntriesAfter(b.tables, r);
    match r
    case EscrowReq(user, order, amount) =>
      if Applied(b.tables, r) {
        EntryAddedFits(entries, released, b.pending, order, Posting(user, amount));
      }
    case CommitReq(order, read) => EndedFits(entries, released, b.pending, order, read);
    case _ =>
  }

  lemma SoundKept(b: Bank, r: Request)
    requires Sound(b) && NotReused(b, r)
    ensures Sound(Apply(b, r))
  {
    RowsKept(b.tables, r);
    KeysKept(b, r);
    AmountsKept(b, r);
    ReadsKept(b, r);
    ExactKept(b, r);
  }

  // A run in which no released order id is escrowed again.
  predicate Disciplined(b: Bank, rs: seq<Request>) {
    rs == [] || (Disciplined(b, rs[..|rs| - 1]) && NotReused(Run(b, rs[..|rs| - 1]), rs[|rs| - 1]))
  }

  // In every run, with any interleaving of release reads and commits, any retries and any
  // refused requests, each balance is the sum of the effects applied, each counted once.
  lemma {:induction false} LedgerIsExact(rs: seq<Request>)
    requires Disciplined(NEW_BANK, rs)
    ensures Sound(Run(NEW_BANK, rs))
  {
    if rs != [] {
      LedgerIsExact(rs[..|rs| - 1]);
      SoundKept(Run(NEW_BANK, rs[..|rs| - 1]), rs[|rs| - 1]);
    }
  }

  // ---------------------------------------------------------------- a release that read too early

  lemma CommitRow(b: Bank, order: nat, read: Posting, user: string)
    requires Exact(b) && KeysOk(b) && (order, read) in b.pending && Applied(b.tables, CommitReq(order, read))
    ensures var b' := Apply(b, CommitReq(order, read));
      && RowOf(b'.tables, user).gross == GrossDue(b'.history, user)
      && RowOf(b'.tables, user).escrowed - EscrowDue(b', user) == Part(b.tables.entries[order], user) - Part(read, user)
  {
    assert ExactFor(b, user);
    RowAfter(b, CommitReq(order, read), user);
    SumPick(b.tables.entries, order, user);
  }

  // A release keeps the ledger exact if and only if the entry it deletes is the one it read.
  lemma ReleaseIsExactIff(b: Bank, order: nat, read: Posting)
    requires Exact(b) && KeysOk(b) && (order, read) in b.pending && Applied(b.tables, CommitReq(order, read))
    requires 0 < read.amount
    ensures Exact(Apply(b, CommitReq(order, read))) <==> b.tables.entries[order] == read
  {
    var b' := Apply(b, CommitReq(order, read));
    if b.tables.entries[order] == read {
      forall user ensures ExactFor(b', user) {
        CommitRow(b, order, read, user);
      }
    } else {
      CommitRow(b, order, read, read.user);
      CommitRow(b, order, read, b.tables.entries[order].user);
      assert !ExactFor(b', read.user);
    }
  }

  lemma RunSnoc(b: Bank, rs: seq<Request>, r: Request)
    ensures Run(b, rs + [r]) == Apply(Run(b, rs), r)
    ensures Disciplined(b, rs + [r]) <==> Disciplined(b, rs) && NotReused(Run(b, rs), r)
  {
    assert (rs + [r])[..|rs|] == rs;
  }

  // Reusing a released order id: two releases have read the first entry, one of them ends, the id
  // is escrowed again, and the other commits against the second entry.  Part of the escrow stays
  // without an entry.
  const OPENED := [DepositReq("u", "k", 100)] + [EscrowReq("u", 7, 10)] + [ReadReq(7)] + [ReadReq(7)]
  const FIRST_READ := CommitReq(7, Posting("u", 10))
  const REUSE := OPENED + [FIRST_READ] + [EscrowReq("u", 7, 30)] + [FIRST_READ]

  lemma Opened()
    ensures var b := Run(NEW_BANK, OPENED);
      && b.tables == Tables(map["u" := Account(100, 10)], map[7 := Posting("u", 10)], {"k"})
      && b.history == NO_HISTORY.(deposits := map["k" := Posting("u", 100)])
      && b.pending == multiset{(7, Posting("u", 10)), (7, Posting("u", 10))}
  {
    var a, e := DepositReq("u", "k", 100), EscrowReq("u", 7, 10);
    RunSnoc(NEW_BANK, [], a);
    assert [] + [a] == [a];
    var b1 := Run(NEW_BANK, [a]);
    assert b1.tables == Tables(map["u" := Account(100, 0)], map[], {"k"});
    RunSnoc(NEW_BANK, [a], e);
    var b2 := Run(NEW_BANK, [a] + [e]);
    assert b2.tables == Tables(map["u" := Account(100, 10)], map[7 := Posting("u", 10)], {"k"});
    RunSnoc(NEW_BANK, [a] + [e], ReadReq(7));
    RunSnoc(NEW_BANK, [a] + [e] + [ReadReq(7)], ReadReq(7));
  }

  lemma Released()
    ensures var b := Run(NEW_BANK, OPENED + [FIRST_READ]);
      && b.tables == Tables(map["u" := Account(100, 0)], map[], {"k"})
      && b.history == NO_HISTORY.(deposits := map["k" := Posting("u", 100)], released := {7})
      && b.pending == multiset{(7, Posting("u", 10))}
  {
    Opened();
    RunSnoc(NEW_BANK, OPENED, FIRST_READ);
  }

  lemma HeldAgain()
    ensures var b := Run(NEW_BANK, OPENED + [FIRST_READ] + [EscrowReq("u", 7, 30)]);
      && !Disciplined(NEW_BANK, OPENED + [FIRST_READ] + [EscrowReq("u", 7, 30)])
      && b.tables == Tables(map["u" := Account(100, 30)], map[7 := Posting("u", 30)], {"k"})
      && b.history == NO_HISTORY.(deposits := map["k" := Posting("u", 100)], released := {7})
      && b.pending == multiset{(7, Posting("u", 10))}
  {
    Released();
    RunSnoc(NEW_BANK, OPENED + [FIRST_READ], EscrowReq("u", 7, 30));
  }

  lemma Reused()
    ensures !Disciplined(NEW_BANK, REUSE)
    ensures var b := Run(NEW_BANK, REUSE);
      && b.tables == Tables(map["u" := Account(100, 20)], map[], {"k"})
      && b.history == NO_HISTORY.(deposits := map["k" := Posting("u", 100)], released := {7})
      && b.pending == multiset{}
  {
    HeldAgain();
    RunSnoc(NEW_BANK, OPENED + [FIRST_READ] + [EscrowReq("u", 7, 30)], FIRST_READ);
  }

  lemma ReusedOrderBreaksLedger()
    ensures !Disciplined(NEW_BANK, REUSE) && !Exact(Run(NEW_BANK, REUSE))
    ensures Run(NEW_BANK, REUSE).tables.accounts == map["u" := Account(100, 20)]
    ensures Run(NEW_BANK, REUSE).tables.entries == map[] && Run(NEW_BANK, REUSE).pending == multiset{}
  {
    Reused();
    assert !ExactFor(Run(NEW_BANK, REUSE), "u");
  }

  // ---------------------------------------------------------------- what a caller may rely on

  // The balance a user sees is what can be withdrawn or held for a new order, to the unit.
  lemma AvailableIsSpendable(t: Tables, user: string, key: string, order: nat, amount: int)
    requires RowsOk(t) && 0 < amount && key != "" && key !in t.keys && order !in t.entries
    ensures var seen := CheckAvailable(t, user);
      && seen.Ok? && 0 <= seen.escrowed <= seen.gross
      && (Withdraw(t, user, key, amount).reply.Ok? <==> amount <= seen.gross - seen.escrowed)
      && (Escrow(t, user, order, amount).reply.Ok? <==> amount <= seen.gross - seen.escrowed)
  {
  }

  // Escrowing for an order that already has its entry changes nothing, and is accepted if and only
  // if the free balance would pay for it once more.
  lemma EscrowAgainIff(t: Tables, user: string, order: nat, amount: int)
    requires RowsOk(t) && 0 < amount && order in t.entries && user in t.accounts
    ensures var again := Escrow(t, user, order, amount);
      && again.tables == t
      && (again.reply.Ok? <==> amount <= t.accounts[user].gross - t.accounts[user].escrowed)
      && (again.reply.Err? ==> again.reply.error == InsufficientFunds)
  {
  }

  // So a retry can be refused although the first attempt succeeded.
  lemma RetriedEscrowRefused()
    ensures var hold := EscrowReq("u", 7, 60);
      var b := Run(NEW_BANK, [DepositReq("u", "k", 100)]);
      var b' := Run(NEW_BANK, [DepositReq("u", "k", 100)] + [hold]);
      && Applied(b.tables, hold) && b'.tables.entries == map[7 := Posting("u", 60)]
      && Transact(b'.tables, hold).reply == Err(InsufficientFunds) && Apply(b', hold) == b'
  {
    var deposit, hold := DepositReq("u", "k", 100), EscrowReq("u", 7, 60);
    RunSnoc(NEW_BANK, [], deposit);
    assert [] + [deposit] == [deposit];
    assert Run(NEW_BANK, [deposit]).tables == Tables(map["u" := Account(100, 0)], map[], {"k"});
    RunSnoc(NEW_BANK, [deposit], hold);
    assert Run(NEW_BANK, [deposit] + [hold]).tables ==
      Tables(map["u" := Account(100, 60)], map[7 := Posting("u", 60)], {"k"});
  }

  // ---------------------------------------------------------------- retries

  // A request under a key that was already used, whatever its amount or kind.
  predicate Retry(b: Bank, r: Request) { Keyed(r) && KeyOf(r) in b.tables.keys }

  lemma RetryChangesNothing(b: Bank, r: Request)
    requires Retry(b, r)
    ensures Apply(b, r) == b
  {
  }

  // A first attempt that fails leaves everything, its key included, as it was.
  lemma FailureLeavesKeyFree(b: Bank, r: Request)
    requires Keyed(r) && Transact(b.tables, r).reply.Err?
    ensures Apply(b, r) == b
  {
  }

  // `padded` is `base` with retries inserted anywhere.
  ghost predicate Pads(b: Bank, base: seq<Request>, padded: seq<Request>)
    decreases |padded|
  {
    if padded == [] then base == []
    else
      var n := |padded| - 1;
      || (base != [] && padded[n] == base[|base| - 1] && Pads(b, base[..|base| - 1], padded[..n]))
      || (Retry(Run(b, padded[..n]), padded[n]) && Pads(b, base, padded[..n]))
  }

  // Inserting any number of retries anywhere changes no later state.
  lemma {:induction false} RetriesAreAbsorbed(b: Bank, base: seq<Request>, padded: seq<Request>)
    requires Pads(b, base, padded)
    ensures Run(b, padded) == Run(b, base)
    decreases |padded|
  {
    if padded != [] {
      var n := |padded| - 1;
      if base != [] && padded[n] == base[|base| - 1] && Pads(b, base[..|base| - 1], padded[..n]) {
        RetriesAreAbsorbed(b, base[..|base| - 1], padded[..n]);
      } else {
        RetriesAreAbsorbed(b, base, padded[..n]);
        RetryChangesNothing(Run(b, padded[..n]), padded[n]);
      }
    }
  }

  // Once a keyed request has succeeded, its repetition is a retry for good.
  lemma {:induction false} RetryForever(b: Bank, r: Request, rs: seq<Request>)
    requires Retry(b, r)
    ensures Retry(Run(b, rs), r)
  {
    if rs != [] {
      RetryForever(b, r, rs[..|rs| - 1]);
      TransactedKeys(Run(b, rs[..|rs| - 1]).tables, rs[|rs| - 1]);
    }
  }
}
