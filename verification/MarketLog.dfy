/** Processing a log of market messages from its beginning. */
module MarketLog {
  import opened EngineTypes
  import opened PriceTime
  import opened BookFacts
  import opened BookWire

  // The body of a message: not decodable, without a command, a new order, or a cancel request.
  // Numbers are 32-bit on the wire.
  datatype Body =
    | Malformed
    | NoCommand
    | SubmitOrder(trader: seq<Byte>, price: Size, size: Size, side: Side)
    | CancelRequest(orderId: Size)

  // A log message, keyed by symbol.
  datatype Message = Message(symbol: string, body: Body)

  type Books = map<string, Book>

  datatype Processed = Processed(books: Books, events: seq<Event>)

  function BookOf(books: Books, symbol: string): Book { if symbol in books then books[symbol] else EMPTY }

  // The engine command of a message body; prices are cut to 16 bits.
  function CommandOf(body: Body): Command
    requires body.SubmitOrder? || body.CancelRequest?
  {
    match body
    case SubmitOrder(trader, price, size, side) => NewOrder(Order(Pad8(trader), ToPrice(price), size, side))
    case CancelRequest(id) => CancelOrder(id)
  }

  function Process(books: Books, m: Message): Processed {
    match m.body
    case Malformed => Processed(books, [])
    case NoCommand => Processed(books[m.symbol := BookOf(books, m.symbol)], [])
    case _ =>
      var out := Execute(BookOf(books, m.symbol), CommandOf(m.body));
      Processed(books[m.symbol := out.book], out.events)
  }

  // The books after a whole log, processed in order from nothing.
  function BooksAfter(log: seq<Message>): Books {
    if log == [] then map[] else Process(BooksAfter(log[..|log| - 1]), log[|log| - 1]).books
  }

  // What processing the `n`-th message reports.
  function EventsAt(log: seq<Message>, n: nat): seq<Event>
    requires n < |log|
  {
    Process(BooksAfter(log[..n]), log[n]).events
  }

  // ---------------------------------------------------------------- sound books

  predicate BookSound(b: Book) { WellFormed(b) && BookStorable(b) }

  ghost predicate Sound(books: Books) { forall s :: s in books ==> BookSound(books[s]) }

  lemma ProcessSound(books: Books, m: Message)
    requires Sound(books)
    ensures Sound(Process(books, m).books)
  {
    var b := BookOf(books, m.symbol);
    assert BookSound(b);
    if m.body.SubmitOrder? || m.body.CancelRequest? {
      ExecuteKeepsWellFormed(b, CommandOf(m.body));
      ExecuteStorable(b, CommandOf(m.body));
    }
  }

  lemma {:induction false} LogSound(log: seq<Message>)
    ensures Sound(BooksAfter(log))
  {
    if log != [] {
      LogSound(log[..|log| - 1]);
      ProcessSound(BooksAfter(log[..|log| - 1]), log[|log| - 1]);
    }
  }

  lemma NextBooks(log: seq<Message>, n: nat)
    requires n < |log|
    ensures BooksAfter(log[..n + 1]) == Process(BooksAfter(log[..n]), log[n]).books
  {
    assert log[..n + 1][..n] == log[..n];
  }

  // ---------------------------------------------------------------- symbols are independent

  // The messages of one symbol.
  function OnlyFor(log: seq<Message>, symbol: string): seq<Message> {
    if log == [] then []
    else
      OnlyFor(log[..|log| - 1], symbol)
      + if log[|log| - 1].symbol == symbol then [log[|log| - 1]] else []
  }

  // Two sets of books that agree on one symbol.
  predicate Agree(books: Books, books': Books, symbol: string) {
    (symbol in books <==> symbol in books') && BookOf(books, symbol) == BookOf(books', symbol)
  }

  lemma ProcessOther(books: Books, m: Message, symbol: string)
    requires m.symbol != symbol
    ensures Agree(Process(books, m).books, books, symbol)
  {
  }

  lemma ProcessOwn(books: Books, books': Books, m: Message)
    requires Agree(books, books', m.symbol)
    ensures Agree(Process(books, m).books, Process(books', m).books, m.symbol)
    ensures Process(books, m).events == Process(books', m).events
  {
  }

  lemma OneMore(log: seq<Message>, m: Message)
    ensures BooksAfter(log + [m]) == Process(BooksAfter(log), m).books
  {
    assert (log + [m])[..|log|] == log;
  }

  // A symbol's book is a function of that symbol's messages alone.
  lemma {:induction false} SymbolsAreIndependent(log: seq<Message>, symbol: string)
    ensures Agree(BooksAfter(log), BooksAfter(OnlyFor(log, symbol)), symbol)
  {
    if log != [] {
      var n := |log| - 1;
      var own := OnlyFor(log[..n], symbol);
      SymbolsAreIndependent(log[..n], symbol);
      if log[n].symbol == symbol {
        OneMore(own, log[n]);
        ProcessOwn(BooksAfter(log[..n]), BooksAfter(own), log[n]);
      } else {
        assert OnlyFor(log, symbol) == own;
        ProcessOther(BooksAfter(log[..n]), log[n], symbol);
      }
    }
  }

  // So are the reports of its messages.
  lemma ReportsAreIndependent(log: seq<Message>, n: nat)
    requires n < |log|
    ensures var own := OnlyFor(log[..n + 1], log[n].symbol);
      own != [] && EventsAt(log, n) == EventsAt(own, |own| - 1)
  {
    var before := OnlyFor(log[..n], log[n].symbol);
    assert log[..n + 1][..n] == log[..n];
    assert OnlyFor(log[..n + 1], log[n].symbol) == before + [log[n]];
    assert (before + [log[n]])[..|before|] == before;
    SymbolsAreIndependent(log[..n], log[n].symbol);
    ProcessOwn(BooksAfter(log[..n]), BooksAfter(before), log[n]);
  }
}
