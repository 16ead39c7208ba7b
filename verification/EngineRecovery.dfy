/** One symbol's engine brought back from a snapshot and the rest of the log. */
module EngineRecovery {
  import opened PriceTime
  import opened BookImport
  import opened BookWire
  import opened MarketLog
  import opened MarketRecovery
  import opened MatchEngine
  import opened EngineReplay

  // What one message does to one symbol's book.
  lemma BookAfterMessage(books: Books, m: Message, symbol: string)
    ensures BookOf(Process(books, m).books, symbol) ==
      if m.symbol == symbol && (m.body.SubmitOrder? || m.body.CancelRequest?)
      then Execute(BookOf(books, symbol), CommandOf(m.body)).book else BookOf(books, symbol)
  {
  }

  lemma SavedSymbol(log: seq<Message>, disk: Disk, symbol: string)
    requires SnapshotOf(log, disk) && disk.Saved? && symbol in disk.books
    ensures Encodes(Unpack(disk.books[symbol]), BookOf(BooksAfter(log[..disk.offset + 1]), symbol))
  {
    var books := BooksAfter(log[..disk.offset + 1]);
    LogSound(log[..disk.offset + 1]);
    BookSurvives(books[symbol]);
  }

  lemma UnsavedSymbol(log: seq<Message>, disk: Disk, symbol: string)
    requires SnapshotOf(log, disk) && (disk.Saved? ==> symbol !in disk.books)
    ensures BookOf(BooksAfter(log[..LoadedOffset(disk) + 1]), symbol) == EMPTY
  {
    assert log[..0] == [];
  }

  method RestoreNew(snap: BookSnapshot, ghost book: Book) returns (b: OrderBook)
    requires Encodes(Unpack(snap), book)
    ensures fresh(b) && fresh(b.pool) && fresh(b.buys) && fresh(b.sells) && b.Valid() && b.Abs() == book
  {
    b := new OrderBook();
    var state := UnmarshalBookState(snap);
    EncodesInRange(state, book);
    b.Restore(state);
  }

  // The engine as it was at the snapshot.
  method RestoreSymbol(log: seq<Message>, disk: Disk, symbol: string) returns (b: OrderBook)
    requires SnapshotOf(log, disk)
    ensures fresh(b) && fresh(b.pool) && fresh(b.buys) && fresh(b.sells)
    ensures b.Valid() && b.Abs() == BookOf(BooksAfter(log[..LoadedOffset(disk) + 1]), symbol)
  {
    if disk.Saved? && symbol in disk.books {
      SavedSymbol(log, disk, symbol);
      b := RestoreNew(disk.books[symbol], BookOf(BooksAfter(log[..disk.offset + 1]), symbol));
    } else {
      UnsavedSymbol(log, disk, symbol);
      b := new OrderBook();
    }
  }

  // Replays the rest of the log: whatever the age of the snapshot, the engine ends with the book
  // that the whole log makes of nothing.
  method RecoverSymbol(log: seq<Message>, disk: Disk, symbol: string) returns (b: OrderBook)
    requires SnapshotOf(log, disk)
    ensures b.Valid() && b.Abs() == BookOf(BooksAfter(log), symbol)
  {
    b := RestoreSymbol(log, disk, symbol);
    var n := LoadedOffset(disk) + 1;
    while n < |log|
      invariant 0 <= n <= |log| && b.Valid() && b.Abs() == BookOf(BooksAfter(log[..n]), symbol)
      invariant fresh(b) && fresh(b.pool) && fresh(b.buys) && fresh(b.sells)
    {
      NextBooks(log, n);
      BookAfterMessage(BooksAfter(log[..n]), log[n], symbol);
      if log[n].symbol == symbol && (log[n].body.SubmitOrder? || log[n].body.CancelRequest?) {
        var events := Submit(b, CommandOf(log[n].body));
      }
      n := n + 1;
    }
    assert log[..n] == log;
  }
}
