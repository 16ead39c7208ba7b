/** Values exchanged with the matching engine (matchengine/types.go). */
module EngineTypes {

  const MAX_PRICE: nat := 65536
  const MAX_ORDERS: nat := 1048576
  const NONE: nat := 0
  // Quantities are unsigned 32-bit words.
  const WORD: nat := 0x1_0000_0000

  newtype Byte = b: int | 0 <= b < 256
  // Eight bytes, zero padded.
  type Trader = seq<Byte>
  type Price = p: nat | p < MAX_PRICE
  type Size = s: nat | s < WORD

  datatype Side = Buy | Sell {
    function Opposite(): Side { if Buy? then Sell else Buy }
  }

  datatype ExecType = OrderAccepted | OrderFilled | OrderCancelled | OrderRejected

  datatype RejectReason = Unspecified | PoolExhausted | AlreadyFilled | NotFound

  datatype Order = Order(trader: Trader, price: Price, size: Size, side: Side)

  // One fill leg: the counterparty order, the trade price and the traded quantity.
  datatype Match = Match(orderId: nat, trader: seq<Byte>, price: nat, qty: nat)

  datatype Event =
    | OrderEvent(orderId: nat, trader: seq<Byte>, kind: ExecType, qtyFilled: nat, qtyRemaining: nat,
                 fills: seq<Match>, reason: RejectReason)
    | BBOEvent(bid: nat, bidQty: nat, ask: nat, askQty: nat)

  // A resting order with its fill history; also the element of an exported book.
  datatype Entry = Entry(id: nat, trader: Trader, price: nat, size: nat, side: Side, qtyFilled: nat,
                         fills: seq<Match>)

  datatype BookState = BookState(orders: seq<Entry>, bestBid: nat, bestAsk: nat, poolTop: nat)

  function TraderStr(t: seq<Byte>): (s: seq<Byte>)
    ensures s <= t
    ensures s != [] ==> s[|s| - 1] != 0
    ensures forall i :: |s| <= i < |t| ==> t[i] == 0
  {
    if t != [] && t[|t| - 1] == 0 then TraderStr(t[..|t| - 1]) else t
  }
}
