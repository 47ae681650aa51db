/**
 * The record shapes of the exchange's JSON-RPC messages and of the order-book
 * snapshot, transcribed field by field (models/orderbook.go and
 * models/deribit.go), plus the window's data slot.
 */
module Models {
  import opened Wrappers

  /** The `params` object of a `public/get_order_book` request. */
  datatype OrderBookParams = OrderBookParams(instrumentName: string)

  datatype OrderBookStats = OrderBookStats(
    high: real,
    low: real,
    priceChange: real,
    volume: real,
    volumeUsd: real,
    volumeNotional: real)

  /**
   * One price level as the exchange sends it: `[price, amount]`. Nothing
   * guarantees the length, so the renderer checks it.
   */
  type Level = seq<real>

  /** An order-book snapshot; timestamps and change ids are 64-bit in the source. */
  datatype OrderBookResult = OrderBookResult(
    timestamp: int,
    state: string,
    stats: OrderBookStats,
    changeId: int,
    indexPrice: real,
    instrumentName: string,
    bids: seq<Level>,
    asks: seq<Level>,
    lastPrice: real,
    settlementPrice: real,
    minPrice: real,
    maxPrice: real,
    openInterest: real,
    markPrice: real,
    interestValue: real,
    bestAskPrice: real,
    bestBidPrice: real,
    estDeliveryPrice: real,
    bestAskAmount: real,
    bestBidAmount: real,
    currentFunding: real,
    funding8h: real)

  /** A JSON-RPC 2.0 request object (section 4 of the JSON-RPC 2.0 Specification). */
  datatype DeribitRequest = DeribitRequest(
    jsonRpc: string,
    rpcMethod: string,
    params: OrderBookParams,
    id: int)

  /** The error object of a JSON-RPC 2.0 response (section 5.1). */
  datatype DeribitError = DeribitError(code: int, message: string)

  /**
   * A JSON-RPC 2.0 response object (section 5); `result` and `error` are
   * absent when the JSON has no such member.
   */
  datatype DeribitResponse = DeribitResponse(
    jsonRpc: string,
    id: int,
    result: Option<OrderBookResult>,
    error: Option<DeribitError>,
    usIn: int,
    usOut: int,
    usDiff: int,
    testnet: bool)

  /**
   * What a window's data slot holds: nothing, an order-book snapshot, or a
   * value of some other type (the trades window's list), which the
   * order-book renderer's type test rejects.
   */
  datatype Payload = NoData | OrderBookData(book: OrderBookResult) | OtherData

  /**
   * The data slot of a window: written by the market-data client, read by the
   * content renderer.
   */
  class Slot {
    var data: Payload

    constructor ()
      ensures data == NoData
    {
      data := NoData;
    }
  }
}
