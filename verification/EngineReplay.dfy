/** Running whole command sequences on engines, and on engines rebuilt from a snapshot. */
module EngineReplay {
  import opened EngineTypes
  import opened PriceTime
  import opened BookImport
  import opened MatchEngine

  // The book and the reports of a command sequence on the reference matcher.
  function After(b: Book, cmds: seq<Command>): Book {
    if cmds == [] then b else Execute(After(b, cmds[..|cmds| - 1]), cmds[|cmds| - 1]).book
  }

  function Outputs(b: Book, cmds: seq<Command>): seq<seq<Event>> {
    if cmds == [] then []
    else Outputs(b, cmds[..|cmds| - 1]) + [Execute(After(b, cmds[..|cmds| - 1]), cmds[|cmds| - 1]).events]
  }

  method Submit(b: OrderBook, c: Command) returns (events: seq<Event>)
    requires b.Valid()
    modifies b, b.pool, b.buys, b.sells
    ensures b.Valid()
    ensures b.Abs() == Execute(old(b.Abs()), c).book && events == Execute(old(b.Abs()), c).events
  {
    match c {
      case NewOrder(o) =>
        var id;
        id, events := b.Limit(o);
      case CancelOrder(id) =>
        events := b.Cancel(id);
    }
  }

  lemma OneMoreCommand(b: Book, cmds: seq<Command>, i: nat)
    requires i < |cmds|
    ensures After(b, cmds[..i + 1]) == Execute(After(b, cmds[..i]), cmds[i]).book
    ensures Outputs(b, cmds[..i + 1]) == Outputs(b, cmds[..i]) + [Execute(After(b, cmds[..i]), cmds[i]).events]
  {
    assert cmds[..i + 1][..i] == cmds[..i];
  }

  // An engine answers any command sequence as the reference matcher does from its book.
  method Replay(b: OrderBook, cmds: seq<Command>) returns (out: seq<seq<Event>>)
    requires b.Valid()
    modifies b, b.pool, b.buys, b.sells
    ensures b.Valid() && b.Abs() == After(old(b.Abs()), cmds) && out == Outputs(old(b.Abs()), cmds)
  {
    ghost var start := b.Abs();
    out := [];
    for i := 0 to |cmds|
      invariant b.Valid() && b.Abs() == After(start, cmds[..i]) && out == Outputs(start, cmds[..i])
    {
      OneMoreCommand(start, cmds, i);
      var events := Submit(b, cmds[i]);
      out := out + [events];
    }
    assert cmds[..|cmds|] == cmds;
  }

  // A new engine restored from a state that stands for a book answers from that book.
  method ReplayRestored(state: BookState, ghost book: Book, cmds: seq<Command>)
    returns (r: OrderBook, out: seq<seq<Event>>)
    requires Encodes(state, book)
    ensures fresh(r) && fresh(r.pool) && fresh(r.buys) && fresh(r.sells)
    ensures r.Valid() && r.Abs() == After(book, cmds) && out == Outputs(book, cmds)
  {
    r := new OrderBook();
    EncodesInRange(state, book);
    r.Restore(state);
    out := Replay(r, cmds);
  }

  // Restoring a snapshot into another engine gives one that answers every later command
  // sequence identically, whatever cancelled orders and slack cursors the original carries: both
  // answer as the reference matcher does from the original's book, and both end with its book.
  method RestoredIsIndistinguishable(b: OrderBook, cmds: seq<Command>)
    returns (r: OrderBook, ours: seq<seq<Event>>, theirs: seq<seq<Event>>)
    requires b.Valid()
    modifies b, b.pool, b.buys, b.sells
    ensures fresh(r) && fresh(r.pool) && fresh(r.buys) && fresh(r.sells)
    ensures ours == Outputs(old(b.Abs()), cmds) && theirs == Outputs(old(b.Abs()), cmds)
    ensures b.Valid() && r.Valid() && b.Abs() == r.Abs() == After(old(b.Abs()), cmds)
  {
    ghost var book := b.Abs();
    ExportEncodes(book);
    var state := b.Snapshot();
    ours := Replay(b, cmds);
    r, theirs := ReplayRestored(state, book, cmds);
  }
}
