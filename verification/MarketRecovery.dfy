/** Snapshots, restarts and replay of the market service (market/internal/service/service.go) as
    a transition system over a log that only grows. */
module MarketRecovery {
  import opened EngineTypes
  import opened PriceTime
  import opened BookImport
  import opened BookWire
  import opened MarketLog

  // ---------------------------------------------------------------- saving and loading

  datatype Disk = NoSnapshot | Saved(offset: int, books: map<string, BookSnapshot>)

  function Save(offset: int, books: Books): Disk {
    Saved(offset, map s | s in books :: Pack(Export(books[s])))
  }

  function SideOf(es: seq<Entry>, side: Side): seq<Entry> {
    if es == [] then []
    else SideOf(es[..|es| - 1], side) + if es[|es| - 1].side == side then [es[|es| - 1]] else []
  }

  // The book an import rebuilds.
  function ImportedBook(state: BookState): Book {
    Book(SideOf(Kept(state.orders), Buy), SideOf(Kept(state.orders), Sell),
         if state.poolTop < 1 then 1 else state.poolTop)
  }

  function LoadedOffset(d: Disk): int { if d.NoSnapshot? then -1 else d.offset }

  function LoadedBooks(d: Disk): Books {
    if d.NoSnapshot? then map[] else map s | s in d.books :: ImportedBook(Unpack(d.books[s]))
  }

  predicate AllOn(es: seq<Entry>, own: Side) { forall i :: 0 <= i < |es| ==> es[i].side == own }

  lemma {:induction false} SideOfUniform(es: seq<Entry>, own: Side, side: Side)
    requires AllOn(es, own)
    ensures SideOf(es, side) == if side == own then es else []
  {
    if es != [] {
      var front, last := es[..|es| - 1], es[|es| - 1];
      assert es == front + [last];
      SideOfUniform(front, own, side);
    }
  }

  lemma {:induction false} SideOfConcat(a: seq<Entry>, b: seq<Entry>, side: Side)
    ensures SideOf(a + b, side) == SideOf(a, side) + SideOf(b, side)
  {
    if b == [] {
      assert a + b == a;
    } else {
      assert (a + b)[..|a + b| - 1] == a + b[..|b| - 1];
      SideOfConcat(a, b[..|b| - 1], side);
    }
  }

  lemma SideOfSides(bids: seq<Entry>, asks: seq<Entry>, side: Side)
    requires forall i :: 0 <= i < |bids| ==> bids[i].side == Buy
    requires forall i :: 0 <= i < |asks| ==> asks[i].side == Sell
    ensures SideOf(bids + asks, side) == if side.Buy? then bids else asks
  {
    SideOfConcat(bids, asks, side);
    SideOfUniform(bids, Buy, side);
    SideOfUniform(asks, Sell, side);
  }

  // A state that stands for a book is imported as that book.
  lemma ImportedIs(state: BookState, b: Book)
    requires Encodes(state, b)
    ensures ImportedBook(state) == b
  {
    assert forall i :: 0 <= i < |b.bids| ==> EntryOk(b.bids[i], Buy, b.top);
    assert forall i :: 0 <= i < |b.asks| ==> EntryOk(b.asks[i], Sell, b.top);
    SideOfSides(b.bids, b.asks, Buy);
    SideOfSides(b.bids, b.asks, Sell);
  }

  lemma BookSurvives(b: Book)
    requires BookSound(b)
    ensures Encodes(Unpack(Pack(Export(b))), b)
    ensures ImportedBook(Unpack(Pack(Export(b)))) == b
  {
    ExportRoundTrip(b);
    ExportEncodes(b);
    ImportedIs(Export(b), b);
  }

  function Reloaded(b: Book): Book { ImportedBook(Unpack(Pack(Export(b)))) }

  lemma BookReturns(b: Book)
    requires BookSound(b)
    ensures Reloaded(b) == b
  {
    BookSurvives(b);
  }

  lemma LoadedSave(offset: int, books: Books)
    ensures LoadedBooks(Save(offset, books)) == map s | s in books :: Reloaded(books[s])
  {
  }

  // Loading what was saved gives the offset and every book back.
  lemma {:induction false} SaveLoad(offset: int, books: Books)
    requires Sound(books)
    ensures LoadedOffset(Save(offset, books)) == offset
    ensures LoadedBooks(Save(offset, books)) == books
  {
    LoadedSave(offset, books);
    forall s | s in books ensures Reloaded(books[s]) == books[s] {
      BookReturns(books[s]);
    }
  }

  // ---------------------------------------------------------------- the service

  datatype Service = Down | Up(offset: int, books: Books, hwm: nat, live: bool, msgCount: nat)

  // Events put out for one log offset by one incarnation of the service.
  datatype Published = Published(incarnation: nat, offset: nat, events: seq<Event>)

  datatype State = State(log: seq<Message>, disk: Disk, service: Service, incarnation: nat, published: seq<Published>)

  const INITIAL := State([], NoSnapshot, Down, 0, [])

  datatype Step =
    | Append(m: Message)      // the gateway writes to the log
    | Start                   // load the snapshot, note the log's end
    | ReplayNext              // process silently up to the noted end
    | GoLive
    | LiveNext(flushed: bool) // process and publish; a due snapshot may fail to be written
    | LiveCrash(sent: nat)    // crash after publishing some of a message's events
    | Stop(saved: bool)       // orderly stop
    | Crash

  predicate Enabled(s: State, step: Step) {
    match step
    case Append(_) => true
    case Start => s.service.Down?
    case ReplayNext =>
      && s.service.Up? && !s.service.live
      && s.service.offset + 1 < s.service.hwm && -1 <= s.service.offset < |s.log| - 1
    case GoLive => s.service.Up? && !s.service.live && s.service.offset + 1 >= s.service.hwm
    case LiveNext(_) => s.service.Up? && s.service.live && -1 <= s.service.offset < |s.log| - 1
    case LiveCrash(_) => s.service.Up? && s.service.live && -1 <= s.service.offset < |s.log| - 1
    case Stop(_) => s.service.Up? && s.service.live
    case Crash => s.service.Up?
  }

  // A step that is not enabled changes nothing.
  function Next(s: State, step: Step, flushEvery: nat): State {
    if !Enabled(s, step) then s
    else
      match step
      case Append(m) => s.(log := s.log + [m])
      case Start =>
        s.(service := Up(LoadedOffset(s.disk), LoadedBooks(s.disk), |s.log|, false, 0),
           incarnation := s.incarnation + 1)
      case ReplayNext =>
        var n := s.service.offset + 1;
        s.(service := s.service.(offset := n, books := Process(s.service.books, s.log[n]).books))
      case GoLive => s.(service := s.service.(live := true, msgCount := 0))
      case LiveNext(flushed) =>
        var n := s.service.offset + 1;
        var out := Process(s.service.books, s.log[n]);
        var due := s.service.msgCount + 1 >= flushEvery;
        var count := if due then 0 else s.service.msgCount + 1;
        s.(service := s.service.(offset := n, books := out.books, msgCount := count),
           disk := if due && flushed then Save(n, out.books) else s.disk,
           published := s.published + [Published(s.incarnation, n, out.events)])
      case LiveCrash(sent) =>
        var n := s.service.offset + 1;
        var events := Process(s.service.books, s.log[n]).events;
        s.(service := Down,
           published := s.published + [Published(s.incarnation, n, if sent < |events| then events[..sent] else events)])
      case Stop(saved) => s.(service := Down, disk := if saved then Save(s.service.offset, s.service.books) else s.disk)
      case Crash => s.(service := Down)
  }

  function Run(s: State, steps: seq<Step>, flushEvery: nat): State {
    if steps == [] then s else Next(Run(s, steps[..|steps| - 1], flushEvery), steps[|steps| - 1], flushEvery)
  }

  // ---------------------------------------------------------------- the invariant

  // `books` are what the log up to `offset` makes of nothing.
  ghost predicate CaughtUp(log: seq<Message>, offset: int, books: Books) {
    -1 <= offset < |log| && books == BooksAfter(log[..offset + 1])
  }

  // The disk holds nothing, or what the service saved at some earlier offset of the log.
  ghost predicate SnapshotOf(log: seq<Message>, disk: Disk) {
    disk == NoSnapshot ||
    (-1 <= disk.offset < |log| && disk == Save(disk.offset, BooksAfter(log[..disk.offset + 1])))
  }

  // Loading such a disk is a way to catch up with the log.
  lemma LoadCatchesUp(log: seq<Message>, disk: Disk)
    requires SnapshotOf(log, disk)
    ensures CaughtUp(log, LoadedOffset(disk), LoadedBooks(disk))
  {
    if disk.Saved? {
      LogSound(log[..disk.offset + 1]);
      SaveLoad(disk.offset, BooksAfter(log[..disk.offset + 1]));
    } else {
      assert log[..0] == [];
    }
  }

  // No published offset is ahead of what this incarnation may still publish.
  ghost predicate ServiceOk(s: State) {
    s.service.Up? ==>
      && CaughtUp(s.log, s.service.offset, s.service.books)
      && s.service.hwm <= |s.log|
      && (if s.service.live then s.service.hwm <= s.service.offset + 1 else s.service.offset + 1 <= s.service.hwm)
      && (forall i :: 0 <= i < |s.published| ==>
            s.published[i].offset < if s.service.live then s.service.offset + 1 else s.service.hwm)
  }

  // A report is what processing the whole log in one go would have reported, possibly cut short
  // by a crash.
  ghost predicate Faithful(log: seq<Message>, p: Published) {
    p.offset < |log| && p.events <= EventsAt(log, p.offset)
  }

  ghost predicate PublishedOk(s: State) {
    && (forall i :: 0 <= i < |s.published| ==> Faithful(s.log, s.published[i]))
    && (forall i, j :: 0 <= i < j < |s.published| ==> s.published[i].offset < s.published[j].offset)
  }

  ghost predicate Inv(s: State) { SnapshotOf(s.log, s.disk) && ServiceOk(s) && PublishedOk(s) }

  // ---------------------------------------------------------------- every step keeps it

  lemma AppendKeeps(s: State, m: Message)
    requires Inv(s)
    ensures Inv(s.(log := s.log + [m]))
  {
    var log' := s.log + [m];
    assert forall n :: 0 <= n <= |s.log| ==> log'[..n] == s.log[..n];
    forall i | 0 <= i < |s.published| ensures Faithful(log', s.published[i]) {
      assert Faithful(s.log, s.published[i]);
    }
  }

  lemma StartKeeps(s: State)
    requires Inv(s) && s.service.Down?
    ensures Inv(Next(s, Start, 0))
  {
    assert forall i :: 0 <= i < |s.published| ==> Faithful(s.log, s.published[i]);
    LoadCatchesUp(s.log, s.disk);
  }

  lemma AdvanceBooks(log: seq<Message>, offset: int, books: Books)
    requires CaughtUp(log, offset, books) && offset < |log| - 1
    ensures CaughtUp(log, offset + 1, Process(books, log[offset + 1]).books)
    ensures Process(books, log[offset + 1]).events == EventsAt(log, offset + 1)
  {
    NextBooks(log, offset + 1);
  }

  lemma PublishKeeps(s: State, p: Published)
    requires PublishedOk(s) && Faithful(s.log, p)
    requires forall i :: 0 <= i < |s.published| ==> s.published[i].offset < p.offset
    ensures PublishedOk(s.(published := s.published + [p]))
  {
  }

  lemma SavedIsSnapshot(log: seq<Message>, offset: int, books: Books)
    requires CaughtUp(log, offset, books)
    ensures SnapshotOf(log, Save(offset, books))
  {
  }

  // The live service moves on to `n`, having published its report.
  lemma MovedOn(s: State, s': State, n: int)
    requires ServiceOk(s) && s.service.Up? && s.service.live && n == s.service.offset + 1
    requires s'.service.Up? && s'.service.live && s'.log == s.log && s'.service.hwm == s.service.hwm
    requires CaughtUp(s.log, n, s'.service.books) && s'.service.offset == n
    requires |s'.published| == |s.published| + 1 && s'.published[..|s.published|] == s.published
    requires s'.published[|s.published|].offset == n
    ensures ServiceOk(s')
  {
    forall i | 0 <= i < |s'.published| ensures s'.published[i].offset < n + 1 {
      if i < |s.published| {
        assert s'.published[i] == s'.published[..|s.published|][i];
      }
    }
  }

  lemma LiveNextKeeps(s: State, flushed: bool, flushEvery: nat)
    requires Inv(s) && Enabled(s, LiveNext(flushed))
    ensures Inv(Next(s, LiveNext(flushed), flushEvery))
  {
    var n := s.service.offset + 1;
    var out := Process(s.service.books, s.log[n]);
    var s' := Next(s, LiveNext(flushed), flushEvery);
    AdvanceBooks(s.log, s.service.offset, s.service.books);
    PublishKeeps(s, Published(s.incarnation, n, out.events));
    SavedIsSnapshot(s.log, n, out.books);
    MovedOn(s, s', n);
  }

  lemma LiveCrashKeeps(s: State, sent: nat, flushEvery: nat)
    requires Inv(s) && Enabled(s, LiveCrash(sent))
    ensures Inv(Next(s, LiveCrash(sent), flushEvery))
  {
    var n := s.service.offset + 1;
    var events := Process(s.service.books, s.log[n]).events;
    AdvanceBooks(s.log, s.service.offset, s.service.books);
    PublishKeeps(s, Published(s.incarnation, n, if sent < |events| then events[..sent] else events));
  }

  lemma StepKeeps(s: State, step: Step, flushEvery: nat)
    requires Inv(s)
    ensures Inv(Next(s, step, flushEvery))
  {
    if Enabled(s, step) {
      match step
      case Append(m) => AppendKeeps(s, m);
      case Start => StartKeeps(s);
      case ReplayNext => AdvanceBooks(s.log, s.service.offset, s.service.books);
      case GoLive =>
      case LiveNext(flushed) => LiveNextKeeps(s, flushed, flushEvery);
      case LiveCrash(sent) => LiveCrashKeeps(s, sent, flushEvery);
      case Stop(_) =>
      case Crash =>
    }
  }

  // ---------------------------------------------------------------- whole runs

  // Whatever is appended, saved, lost and restarted, in any order: the running books are exactly
  // those of the whole log so far, every published report is the one an uninterrupted service
  // would have made, and reports appear in log order without any offset repeated.
  lemma {:induction false} RecoveryIsExact(steps: seq<Step>, flushEvery: nat)
    ensures Inv(Run(INITIAL, steps, flushEvery))
  {
    if steps != [] {
      RecoveryIsExact(steps[..|steps| - 1], flushEvery);
      StepKeeps(Run(INITIAL, steps[..|steps| - 1], flushEvery), steps[|steps| - 1], flushEvery);
    }
  }

  // No offset is published by two incarnations (nor twice by one).
  lemma {:induction false} PublishedAtMostOnce(steps: seq<Step>, flushEvery: nat, i: int, j: int)
    requires var s := Run(INITIAL, steps, flushEvery); 0 <= i < j < |s.published|
    ensures var s := Run(INITIAL, steps, flushEvery); s.published[i].offset != s.published[j].offset
  {
    RecoveryIsExact(steps, flushEvery);
  }

  // ---------------------------------------------------------------- what is never published

  predicate Unpublished(s: State, n: nat) { forall i :: 0 <= i < |s.published| ==> s.published[i].offset != n }

  // A message the service has passed, or will pass, silently.
  predicate Missed(s: State, n: nat) {
    && n < |s.log| && Unpublished(s, n)
    && (s.service.Up? ==> n < if s.service.live then s.service.offset + 1 else s.service.hwm)
  }

  lemma {:induction false} MissedStep(s: State, step: Step, flushEvery: nat, n: nat)
    requires Inv(s) && Missed(s, n)
    ensures Missed(Next(s, step, flushEvery), n)
  {
  }

  // A message that is not published when the service goes down is never published: replay is
  // silent, so publication is at most once and not at least once.
  lemma {:induction false} MissedForever(s: State, steps: seq<Step>, flushEvery: nat, n: nat)
    requires Inv(s) && Missed(s, n)
    ensures Inv(Run(s, steps, flushEvery)) && Missed(Run(s, steps, flushEvery), n)
  {
    if steps != [] {
      MissedForever(s, steps[..|steps| - 1], flushEvery, n);
      StepKeeps(Run(s, steps[..|steps| - 1], flushEvery), steps[|steps| - 1], flushEvery);
      MissedStep(Run(s, steps[..|steps| - 1], flushEvery), steps[|steps| - 1], flushEvery, n);
    }
  }

  lemma {:induction false} RunCons(s: State, step: Step, steps: seq<Step>, flushEvery: nat)
    ensures Run(s, [step] + steps, flushEvery) == Run(Next(s, step, flushEvery), steps, flushEvery)
  {
    var all := [step] + steps;
    if steps == [] {
      assert all[..0] == [];
      assert Run(s, all[..0], flushEvery) == s;
    } else {
      assert all[..|all| - 1] == [step] + steps[..|steps| - 1];
      RunCons(s, step, steps[..|steps| - 1], flushEvery);
    }
  }

  // A running service that has not passed a message can still publish it.
  lemma {:induction false} CatchesUp(s: State, flushEvery: nat, n: nat) returns (steps: seq<Step>)
    requires Inv(s) && n < |s.log| && s.service.Up? && !Missed(s, n) && Unpublished(s, n)
    ensures !Unpublished(Run(s, steps, flushEvery), n)
    decreases n - s.service.offset, !s.service.live
  {
    var step :=
      if s.service.live then LiveNext(true) else if s.service.offset + 1 < s.service.hwm then ReplayNext else GoLive;
    var s' := Next(s, step, flushEvery);
    StepKeeps(s, step, flushEvery);
    if s.service.live && s.service.offset + 1 == n {
      assert s'.published[|s.published|].offset == n;
      steps := [step];
      RunCons(s, step, [], flushEvery);
    } else {
      var rest := CatchesUp(s', flushEvery, n);
      steps := [step] + rest;
      RunCons(s, step, rest, flushEvery);
    }
  }

  // Exactly when an unpublished message can still be published.
  lemma {:induction false} PublishableIff(s: State, flushEvery: nat, n: nat)
    requires Inv(s) && n < |s.log| && Unpublished(s, n)
    ensures (exists steps :: !Unpublished(Run(s, steps, flushEvery), n)) <==>
      s.service.Up? && (if s.service.live then s.service.offset < n else s.service.hwm <= n)
  {
    if s.service.Up? && (if s.service.live then s.service.offset < n else s.service.hwm <= n) {
      var steps := CatchesUp(s, flushEvery, n);
    } else {
      forall steps ensures Unpublished(Run(s, steps, flushEvery), n) {
        MissedForever(s, steps, flushEvery, n);
      }
    }
  }

  lemma FourSteps(s: State, a: Step, b: Step, c: Step, d: Step, flushEvery: nat) returns (steps: seq<Step>)
    ensures Run(s, steps, flushEvery) ==
      Next(Next(Next(Next(s, a, flushEvery), b, flushEvery), c, flushEvery), d, flushEvery)
  {
    var s1 := Next(s, a, flushEvery);
    var s2 := Next(s1, b, flushEvery);
    var s3 := Next(s2, c, flushEvery);
    steps := [a] + ([b] + ([c] + ([d] + [])));
    RunCons(s, a, [b] + ([c] + ([d] + [])), flushEvery);
    RunCons(s1, b, [c] + ([d] + []), flushEvery);
    RunCons(s2, c, [d] + [], flushEvery);
    RunCons(s3, d, [], flushEvery);
  }

  // Starting on a log of one message: it is processed silently.
  lemma StartedBehind(m: Message, flushEvery: nat)
    ensures var s1 := Next(INITIAL, Append(m), flushEvery);
      var s2 := Next(s1, Start, flushEvery);
      var s3 := Next(s2, ReplayNext, flushEvery);
      var s4 := Next(s3, GoLive, flushEvery);
      s4.log == [m] && s4.service.Up? && s4.service.live && s4.service.offset == 0 && s4.published == []
  {
    var s1 := Next(INITIAL, Append(m), flushEvery);
    assert s1 == INITIAL.(log := [m]);
    var s2 := Next(s1, Start, flushEvery);
    assert s2.service == Up(-1, map[], 1, false, 0);
  }

  // Any message that arrives while the service is down is processed and never published.
  lemma ArrivedWhileDown(m: Message, flushEvery: nat) returns (steps: seq<Step>)
    ensures var s := Run(INITIAL, steps, flushEvery);
      && s.log == [m] && s.service.Up? && s.service.live && s.service.books == BooksAfter([m])
      && forall more :: Unpublished(Run(s, more, flushEvery), 0)
  {
    steps := FourSteps(INITIAL, Append(m), Start, ReplayNext, GoLive, flushEvery);
    StartedBehind(m, flushEvery);
    RecoveryIsExact(steps, flushEvery);
    var s := Run(INITIAL, steps, flushEvery);
    assert [m][..1] == [m];
    NeverPublished(s, flushEvery);
  }

  lemma NeverPublished(s: State, flushEvery: nat)
    requires Inv(s) && Missed(s, 0)
    ensures forall more :: Unpublished(Run(s, more, flushEvery), 0)
  {
    forall more ensures Unpublished(Run(s, more, flushEvery), 0) {
      MissedForever(s, more, flushEvery, 0);
    }
  }

  // ---------------------------------------------------------------- reports are complete

  // Only the last report of an incarnation can be cut short, and only once that incarnation is over.
  ghost predicate OnlyLastCut(s: State) {
    && (forall i :: 0 <= i < |s.published| ==>
          s.published[i].offset < |s.log| && s.published[i].incarnation <= s.incarnation)
    && (forall i :: 0 <= i < |s.published| && s.service.Up? && s.published[i].incarnation == s.incarnation ==>
          s.published[i].events == EventsAt(s.log, s.published[i].offset))
    && (forall i :: 0 <= i < |s.published| - 1 && s.published[i].incarnation == s.published[i + 1].incarnation ==>
          s.published[i].events == EventsAt(s.log, s.published[i].offset))
  }

  lemma AppendCuts(s: State, m: Message)
    requires OnlyLastCut(s)
    ensures OnlyLastCut(s.(log := s.log + [m]))
  {
    var log' := s.log + [m];
    assert forall n :: 0 <= n <= |s.log| ==> log'[..n] == s.log[..n];
  }

  // A report is added by the running incarnation, complete or as its last.
  lemma PublishedCuts(s: State, s': State, p: Published)
    requires OnlyLastCut(s) && s.service.Up? && s'.log == s.log && s'.incarnation == s.incarnation
    requires s'.published == s.published + [p] && p.incarnation == s.incarnation && p.offset < |s.log|
    requires s'.service.Up? ==> p.events == EventsAt(s.log, p.offset)
    ensures OnlyLastCut(s')
  {
  }

  lemma StepCuts(s: State, step: Step, flushEvery: nat)
    requires Inv(s) && OnlyLastCut(s)
    ensures OnlyLastCut(Next(s, step, flushEvery))
  {
    if Enabled(s, step) {
      match step
      case Append(m) => AppendCuts(s, m);
      case LiveNext(_) =>
        AdvanceBooks(s.log, s.service.offset, s.service.books);
        var s' := Next(s, step, flushEvery);
        PublishedCuts(s, s', s'.published[|s.published|]);
      case LiveCrash(_) =>
        var s' := Next(s, step, flushEvery);
        PublishedCuts(s, s', s'.published[|s.published|]);
      case _ =>
    }
  }

  // In every run each report is complete, except for the last one of an incarnation that crashed.
  lemma {:induction false} ReportsAreComplete(steps: seq<Step>, flushEvery: nat)
    ensures OnlyLastCut(Run(INITIAL, steps, flushEvery))
  {
    if steps != [] {
      ReportsAreComplete(steps[..|steps| - 1], flushEvery);
      RecoveryIsExact(steps[..|steps| - 1], flushEvery);
      StepCuts(Run(INITIAL, steps[..|steps| - 1], flushEvery), steps[|steps| - 1], flushEvery);
    }
  }

  // ---------------------------------------------------------------- snapshots keep up

  function Period(flushEvery: nat): nat { if flushEvery == 0 then 1 else flushEvery }

  function Lives(n: nat): seq<Step> { if n == 0 then [] else Lives(n - 1) + [LiveNext(true)] }

  // A live service that has `count` messages since its last snapshot.
  ghost predicate LiveAt(s: State, offset: int, count: nat) {
    s.service.Up? && s.service.live && s.service.offset == offset && s.service.msgCount == count
  }

  lemma LivesLast(s: State, n: nat, flushEvery: nat)
    requires 0 < n
    ensures Run(s, Lives(n), flushEvery) == Next(Run(s, Lives(n - 1), flushEvery), LiveNext(true), flushEvery)
  {
    assert Lives(n)[..|Lives(n)| - 1] == Lives(n - 1);
  }

  // The message that completes a period is followed by a snapshot.
  lemma FlushIsDue(s: State, flushEvery: nat)
    requires s.service.Up? && s.service.live && -1 <= s.service.offset < |s.log| - 1
    requires s.service.msgCount + 1 == Period(flushEvery)
    ensures var s' := Next(s, LiveNext(true), flushEvery);
      LiveAt(s', s.service.offset + 1, 0) && s'.disk == Save(s'.service.offset, s'.service.books)
  {
  }

  lemma {:induction false} CountsUp(s: State, n: nat, flushEvery: nat)
    requires Inv(s) && s.service.Up? && LiveAt(s, s.service.offset, s.service.msgCount)
    requires s.service.msgCount + n < Period(flushEvery) && s.service.offset + n < |s.log|
    ensures var s' := Run(s, Lives(n), flushEvery);
      Inv(s') && s'.log == s.log && LiveAt(s', s.service.offset + n, s.service.msgCount + n)
  {
    if n > 0 {
      CountsUp(s, n - 1, flushEvery);
      LivesLast(s, n, flushEvery);
      StepKeeps(Run(s, Lives(n - 1), flushEvery), LiveNext(true), flushEvery);
    }
  }

  // Whatever it holds now, a live service has everything on disk after the next full period of
  // messages whose snapshot is written.
  lemma SnapshotKeepsUp(s: State, n: nat, flushEvery: nat)
    requires Inv(s) && s.service.Up? && s.service.live && s.service.msgCount < Period(flushEvery)
    requires n == Period(flushEvery) - s.service.msgCount && s.service.offset + n < |s.log|
    ensures var s' := Run(s, Lives(n), flushEvery);
      LiveAt(s', s.service.offset + n, 0) && s'.disk == Save(s'.service.offset, s'.service.books)
  {
    CountsUp(s, n - 1, flushEvery);
    LivesLast(s, n, flushEvery);
    FlushIsDue(Run(s, Lives(n - 1), flushEvery), flushEvery);
  }

  // The count never reaches the period, so the next snapshot is always that close.
  lemma {:induction false} CountIsShort(steps: seq<Step>, flushEvery: nat)
    ensures var s := Run(INITIAL, steps, flushEvery);
      s.service.Up? ==> s.service.msgCount < Period(flushEvery)
  {
    if steps != [] {
      CountIsShort(steps[..|steps| - 1], flushEvery);
    }
  }

  // After an orderly stop and a restart there is nothing to replay.
  lemma StopLosesNothing(s: State, flushEvery: nat)
    requires Inv(s) && s.service.Up? && s.service.live && s.service.offset == |s.log| - 1
    ensures var s' := Next(Next(s, Stop(true), flushEvery), Start, flushEvery);
      && s'.service.Up? && s'.service.offset == s.service.offset && s'.service.books == s.service.books
      && Enabled(s', GoLive) && !Enabled(s', ReplayNext)
  {
    LogSound(s.log[..s.service.offset + 1]);
    SaveLoad(s.service.offset, s.service.books);
  }
}
