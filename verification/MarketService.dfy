/** The market service's own loops (market/internal/service/service.go).  Each engine is
    represented by the book it denotes. */
module MarketServer {
  import opened EngineTypes
  import opened PriceTime
  import opened BookWire
  import opened MarketLog
  import opened MarketRecovery

  class MarketService {
    var engines: Books
    var offset: int
    var live: bool

    constructor ()
      ensures engines == map[] && offset == -1 && !live
    {
      engines := map[];
      offset := -1;
      live := false;
    }

    // The engine of a symbol, created on first use.
    method BookFor(symbol: string) returns (book: Book)
      modifies `engines
      ensures book == BookOf(old(engines), symbol) && engines == old(engines)[symbol := book]
    {
      if symbol in engines {
        book := engines[symbol];
        assert engines[symbol := book] == engines;
        return;
      }
      book := EMPTY;
      engines := engines[symbol := book];
    }

    // Processes one message; its events are put out only when live.
    method DispatchMessage(m: Message) returns (out: seq<Event>)
      modifies `engines
      ensures engines == Process(old(engines), m).books
      ensures out == if live then Process(old(engines), m).events else []
    {
      if m.body.Malformed? {
        return [];
      }
      var book := BookFor(m.symbol);
      var events := [];
      if m.body.SubmitOrder? || m.body.CancelRequest? {
        var result := Execute(book, CommandOf(m.body));
        engines := engines[m.symbol := result.book];
        events := result.events;
      }
      out := if live then events else [];
    }

    // Writes every book and the offset.
    method Persist() returns (disk: Disk)
      ensures disk == Save(offset, engines)
    {
      var saved: map<string, BookSnapshot> := map[];
      var todo := engines.Keys;
      while todo != {}
        invariant todo <= engines.Keys && saved.Keys == engines.Keys - todo
        invariant forall s :: s in saved ==> saved[s] == Pack(Export(engines[s]))
      {
        var s :| s in todo;
        var snap := MarshalBookState(Export(engines[s]));
        saved := saved[s := snap];
        todo := todo - {s};
      }
      disk := Saved(offset, saved);
    }

    // Restores the books of a snapshot into a new service.
    method Load(disk: Disk)
      requires engines == map[]
      modifies `engines, `offset
      ensures engines == LoadedBooks(disk) && offset == LoadedOffset(disk)
    {
      if disk.NoSnapshot? {
        offset := -1;
        return;
      }
      offset := disk.offset;
      var todo := disk.books.Keys;
      while todo != {}
        invariant todo <= disk.books.Keys && engines.Keys == disk.books.Keys - todo && offset == disk.offset
        invariant forall s :: s in engines ==> engines[s] == LoadedBooks(disk)[s]
      {
        var s :| s in todo;
        var state := UnmarshalBookState(disk.books[s]);
        engines := engines[s := ImportedBook(state)];
        todo := todo - {s};
      }
    }

    // Replays the log up to the mark noted at start.  Nothing is put out, and the books become
    // those of the whole log up to the mark.
    method ReplayTo(log: seq<Message>, hwm: nat)
      requires CaughtUp(log, offset, engines) && offset + 1 <= hwm <= |log| && !live
      modifies `engines, `offset
      ensures CaughtUp(log, offset, engines) && offset == hwm - 1
    {
      while offset + 1 < hwm
        invariant CaughtUp(log, offset, engines) && offset + 1 <= hwm
      {
        AdvanceBooks(log, offset, engines);
        var out := DispatchMessage(log[offset + 1]);
        offset := offset + 1;
      }
    }

    // Processes the next message live.
    method ConsumeNext(log: seq<Message>, incarnation: nat) returns (report: Published)
      requires CaughtUp(log, offset, engines) && offset < |log| - 1 && live
      modifies `engines, `offset
      ensures CaughtUp(log, offset, engines) && offset == old(offset) + 1
      ensures report == Published(incarnation, offset, EventsAt(log, offset))
    {
      AdvanceBooks(log, offset, engines);
      var out := DispatchMessage(log[offset + 1]);
      offset := offset + 1;
      report := Published(incarnation, offset, out);
    }

    // Replaces the snapshot, unless writing it fails.
    method Flush(log: seq<Message>, disk: Disk, fails: bool) returns (disk': Disk)
      requires CaughtUp(log, offset, engines) && SnapshotOf(log, disk)
      ensures SnapshotOf(log, disk') && disk' == if fails then disk else Save(offset, engines)
    {
      disk' := disk;
      if !fails {
        disk' := Persist();
      }
    }

    // The flush after a message: `start` is where the loop began and `last` where a snapshot was last
    // due.
    method FlushIfDue(log: seq<Message>, disk: Disk, msgCount: nat, flushEvery: nat, flushFails: int -> bool,
                      ghost disk0: Disk, ghost start: int, ghost last: int)
      returns (disk': Disk, msgCount': nat, ghost last': int)
      requires CaughtUp(log, offset, engines) && SnapshotOf(log, disk)
      requires 0 < msgCount <= Period(flushEvery) && offset == last + msgCount
      requires LastDue(start, last, Period(flushEvery))
      requires FlushedUpTo(start, offset - 1, Period(flushEvery), flushFails, disk0, disk)
      ensures SnapshotOf(log, disk') && FlushedUpTo(start, offset, Period(flushEvery), flushFails, disk0, disk')
      ensures msgCount' < Period(flushEvery) && offset == last' + msgCount' && LastDue(start, last', Period(flushEvery))
    {
      disk', msgCount', last' := disk, msgCount, last;
      if msgCount >= flushEvery {
        disk' := Flush(log, disk, flushFails(offset));
        DueNow(start, last, Period(flushEvery), flushFails, disk0, disk, disk', offset);
        msgCount', last' := 0, offset;
      } else {
        NotDueNow(start, last, Period(flushEvery), flushFails, disk0, disk, offset);
      }
    }

    // The loop so far: caught up, everything reported, and flushed whenever that was due.
    ghost predicate Looping(log: seq<Message>, start: int, last: int, msgCount: nat, period: nat, fails: int -> bool,
                            disk0: Disk, disk: Disk, published: seq<Published>, incarnation: nat)
      reads this
    {
      && live && CaughtUp(log, offset, engines) && -1 <= start <= offset
      && published == Reports(log, start + 1, offset + 1, incarnation)
      && SnapshotOf(log, disk) && FlushedUpTo(start, offset, period, fails, disk0, disk)
      && msgCount < period && offset == last + msgCount && LastDue(start, last, period)
    }

    // One message of the loop.
    method ConsumeOne(log: seq<Message>, disk: Disk, msgCount: nat, flushEvery: nat, flushFails: int -> bool,
                      published: seq<Published>, incarnation: nat, ghost disk0: Disk, ghost start: int, ghost last: int)
      returns (disk': Disk, msgCount': nat, published': seq<Published>, ghost last': int)
      requires Looping(log, start, last, msgCount, Period(flushEvery), flushFails, disk0, disk, published, incarnation)
      requires offset < |log| - 1
      modifies `engines, `offset
      ensures offset == old(offset) + 1
      ensures Looping(log, start, last', msgCount', Period(flushEvery), flushFails, disk0, disk', published',
        incarnation)
    {
      ReportsNext(log, start + 1, offset + 1, incarnation);
      var report := ConsumeNext(log, incarnation);
      published' := published + [report];
      disk', msgCount', last' := FlushIfDue(log, disk, msgCount + 1, flushEvery, flushFails, disk0, start, last);
    }

    // The live loop over the messages that are in the log, with a snapshot after every full period of
    // messages unless writing it fails.  The disk ends with the last one written.
    method Consume(log: seq<Message>, flushEvery: nat, flushFails: int -> bool, disk0: Disk, incarnation: nat)
      returns (disk: Disk, published: seq<Published>)
      requires CaughtUp(log, offset, engines) && live && SnapshotOf(log, disk0)
      modifies `engines, `offset
      ensures CaughtUp(log, offset, engines) && offset == |log| - 1
      ensures published == Reports(log, old(offset) + 1, |log|, incarnation)
      ensures SnapshotOf(log, disk) && FlushedUpTo(old(offset), |log| - 1, Period(flushEvery), flushFails, disk0, disk)
    {
      var msgCount := 0;
      ghost var start, last := offset, offset;
      disk, published := disk0, [];
      NothingDue(start, Period(flushEvery), flushFails, disk0);
      while offset < |log| - 1
        invariant Looping(log, start, last, msgCount, Period(flushEvery), flushFails, disk0, disk, published,
          incarnation)
        decreases |log| - offset
      {
        disk, msgCount, published, last :=
          ConsumeOne(log, disk, msgCount, flushEvery, flushFails, published, incarnation, disk0, start, last);
      }
    }
  }

  // ---------------------------------------------------------------- when a snapshot is due

  // `k` completes a period of messages after `start`.
  predicate Due(start: int, k: int, period: nat)
    decreases k - start
  {
    0 < period && start < k && (k == start + period || Due(start, k - period, period))
  }

  // Every snapshot that was due by `offset` and could be written has been, the disk has none older,
  // and it has no other than those and the one there was.
  ghost predicate FlushedUpTo(start: int, offset: int, period: nat, fails: int -> bool, disk0: Disk, disk: Disk) {
    && (disk == disk0 || (disk.Saved? && disk.offset <= offset && Due(start, disk.offset, period)))
    && (forall k :: Due(start, k, period) && k <= offset && !fails(k) ==> disk.Saved? && k <= disk.offset)
  }

  // The last point at which a snapshot was due, or the start.
  predicate LastDue(start: int, last: int, period: nat) { last == start || Due(start, last, period) }

  lemma NothingDue(start: int, period: nat, fails: int -> bool, disk0: Disk)
    ensures FlushedUpTo(start, start, period, fails, disk0, disk0)
  {
  }

  // Nothing is due within a period.
  lemma {:induction false} NotDue(start: int, last: int, k: int, period: nat)
    requires LastDue(start, last, period) && last < k < last + period
    ensures !Due(start, k, period)
    decreases last - start
  {
    if last != start && Due(start, k, period) {
      if last != start + period {
        NotDue(start, last - period, k - period, period);
      } else {
        NotDue(start, start, k - period, period);
      }
    }
  }

  lemma NotDueNow(start: int, last: int, period: nat, fails: int -> bool, disk0: Disk, disk: Disk, offset: int)
    requires LastDue(start, last, period) && last < offset < last + period
    requires FlushedUpTo(start, offset - 1, period, fails, disk0, disk)
    ensures FlushedUpTo(start, offset, period, fails, disk0, disk)
  {
    NotDue(start, last, offset, period);
  }

  lemma {:induction false} DueAfter(start: int, last: int, period: nat)
    requires LastDue(start, last, period) && 0 < period
    ensures start <= last && Due(start, last + period, period)
  {
  }

  lemma DueNow(start: int, last: int, period: nat, fails: int -> bool, disk0: Disk, before: Disk, disk: Disk,
               offset: int)
    requires LastDue(start, last, period) && 0 < period && offset == last + period
    requires FlushedUpTo(start, offset - 1, period, fails, disk0, before)
    requires if fails(offset) then disk == before else disk.Saved? && disk.offset == offset
    ensures FlushedUpTo(start, offset, period, fails, disk0, disk) && Due(start, offset, period)
  {
    DueAfter(start, last, period);
  }

  // The complete reports of the offsets from `lo` up to `hi`, in order.
  function Reports(log: seq<Message>, lo: int, hi: int, incarnation: nat): seq<Published>
    requires 0 <= lo && hi <= |log|
    decreases hi - lo, |log|
  {
    if hi <= lo then []
    else Reports(log, lo, hi - 1, incarnation) + [Published(incarnation, hi - 1, EventsAt(log, hi - 1))]
  }

  lemma ReportsNext(log: seq<Message>, lo: int, hi: int, incarnation: nat)
    requires 0 <= lo <= hi < |log|
    ensures Reports(log, lo, hi + 1, incarnation) ==
      Reports(log, lo, hi, incarnation) + [Published(incarnation, hi, EventsAt(log, hi))]
  {
  }

  // One incarnation that is started from a snapshot of the log and catches up with it: whatever
  // the snapshot's age, the books are those of the whole log.
  method Recover(log: seq<Message>, disk: Disk) returns (service: MarketService)
    requires SnapshotOf(log, disk)
    ensures service.engines == BooksAfter(log) && service.offset == |log| - 1
  {
    service := new MarketService();
    service.Load(disk);
    LoadCatchesUp(log, disk);
    service.ReplayTo(log, |log|);
    assert log[..|log|] == log;
  }
}
