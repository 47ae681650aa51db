/**
 * The Deribit websocket client of client/deribit.go (main.go carries a copy of
 * the same client). The connection is not modelled: what the reader loop
 * receives is a sequence of frames, each already classified by the JSON
 * decoder, and what the fetcher sends is the request value it builds.
 */
module Client {
  import opened Wrappers
  import opened Models

  const JsonRpcVersion: string := "2.0"
  const OrderBookMethod: string := "public/get_order_book"

  /** One read from the connection, as the reader loop sees it. */
  datatype Frame =
    | ReadFailed
    | Undecodable
    | Decoded(response: DeribitResponse)

  /** The order-book request with id `id` for `instrument`. */
  function OrderBookRequest(id: int, instrument: string): DeribitRequest
  {
    DeribitRequest(JsonRpcVersion, OrderBookMethod, OrderBookParams(instrument), id)
  }

  /** `sent` are the requests for `instrument` numbered 1, 2, 3, ... in order. */
  ghost predicate Numbered(sent: seq<DeribitRequest>, instrument: string)
  {
    forall k :: 0 <= k < |sent| ==> sent[k] == OrderBookRequest(k + 1, instrument)
  }

  /**
   * Numbered requests all ask for the order book of the same instrument
   * under JSON-RPC 2.0, and no two share an id: later ones have larger ids.
   */
  lemma NumberedIdsIncrease(sent: seq<DeribitRequest>, instrument: string)
    requires Numbered(sent, instrument)
    ensures forall i, j :: 0 <= i < j < |sent| ==> sent[i].id < sent[j].id
    ensures forall k :: 0 <= k < |sent| ==>
      sent[k].jsonRpc == "2.0" && sent[k].rpcMethod == "public/get_order_book"
      && sent[k].params.instrumentName == instrument
  {
  }

  /**
   * The slot after one decoded response: an error leaves it alone even when
   * a result came with it; otherwise a result replaces it; otherwise nothing
   * changes.
   */
  function Absorb(data: Payload, response: DeribitResponse): Payload
  {
    if response.error.Some? then data
    else if response.result.Some? then OrderBookData(response.result.value)
    else data
  }

  /** The slot after the reader loop has consumed `frames`, stopping at the first read error. */
  function Deliver(data: Payload, frames: seq<Frame>): Payload
    decreases |frames|
  {
    if frames == [] then data
    else match frames[0]
      case ReadFailed => data
      case Undecodable => Deliver(data, frames[1..])
      case Decoded(response) => Deliver(Absorb(data, response), frames[1..])
  }

  /** How many frames the reader loop reads: up to and including the first read error. */
  function Consumed(frames: seq<Frame>): (n: nat)
    ensures n <= |frames|
    ensures forall k :: 0 <= k < n - 1 ==> frames[k] != ReadFailed
    ensures n < |frames| ==> n > 0 && frames[n - 1] == ReadFailed
    decreases |frames|
  {
    if frames == [] then 0
    else if frames[0] == ReadFailed then 1
    else 1 + Consumed(frames[1..])
  }

  /** The frames before the first read error. */
  function BeforeReadError(frames: seq<Frame>): (p: seq<Frame>)
    ensures p <= frames
    ensures ReadFailed !in p
    ensures |p| < |frames| ==> frames[|p|] == ReadFailed
    decreases |frames|
  {
    if frames == [] || frames[0] == ReadFailed then []
    else [frames[0]] + BeforeReadError(frames[1..])
  }

  /** The snapshot a frame carries into the slot, if it carries one. */
  function BookIn(f: Frame): Option<OrderBookResult>
  {
    if f.Decoded? && f.response.error.None? && f.response.result.Some? then Some(f.response.result.value)
    else None
  }

  /** The snapshot of the last frame of `frames` that carries one. */
  function LastBook(frames: seq<Frame>): Option<OrderBookResult>
    decreases |frames|
  {
    if frames == [] then None
    else if BookIn(frames[|frames| - 1]).Some? then BookIn(frames[|frames| - 1])
    else LastBook(frames[..|frames| - 1])
  }

  /** Putting a frame in front changes the last snapshot only when the others carry none. */
  lemma {:induction false} LastBookCons(f: Frame, rest: seq<Frame>)
    ensures LastBook([f] + rest) == if LastBook(rest).Some? then LastBook(rest) else BookIn(f)
    decreases |rest|
  {
    var fs := [f] + rest;
    if rest == [] {
      assert fs[..|fs| - 1] == [];
    } else {
      assert fs[|fs| - 1] == rest[|rest| - 1];
      assert fs[..|fs| - 1] == [f] + rest[..|rest| - 1];
      LastBookCons(f, rest[..|rest| - 1]);
    }
  }

  /**
   * Last writer wins: after the reader loop the slot holds the snapshot of
   * the last well-formed, error-free result read before the first read
   * error, or what it held before if there was none.
   */
  lemma {:induction false} DeliverKeepsLastBook(data: Payload, frames: seq<Frame>)
    ensures Deliver(data, frames) ==
      match LastBook(BeforeReadError(frames))
      case Some(book) => OrderBookData(book)
      case None => data
    decreases |frames|
  {
    if frames != [] && frames[0] != ReadFailed {
      var f, rest := frames[0], frames[1..];
      assert BeforeReadError(frames) == [f] + BeforeReadError(rest);
      LastBookCons(f, BeforeReadError(rest));
      match f
      case Undecodable =>
        DeliverKeepsLastBook(data, rest);
      case Decoded(response) =>
        DeliverKeepsLastBook(Absorb(data, response), rest);
    }
  }

  /** Frames after a read error are never read. */
  lemma ReadErrorStops(data: Payload, before: seq<Frame>, after: seq<Frame>)
    requires ReadFailed !in before
    ensures Deliver(data, before + [ReadFailed] + after) == Deliver(data, before)
    ensures Consumed(before + [ReadFailed] + after) == |before| + 1
  {
    DeliverKeepsLastBook(data, before + [ReadFailed] + after);
    DeliverKeepsLastBook(data, before);
    BeforeReadErrorOf(before, after);
  }

  /** The frames before the read error that follows `before` are `before`. */
  lemma {:induction false} BeforeReadErrorOf(before: seq<Frame>, after: seq<Frame>)
    requires ReadFailed !in before
    ensures BeforeReadError(before + [ReadFailed] + after) == before
    ensures BeforeReadError(before) == before
    ensures Consumed(before + [ReadFailed] + after) == |before| + 1
    decreases |before|
  {
    if before != [] {
      assert (before + [ReadFailed] + after)[1..] == before[1..] + [ReadFailed] + after;
      BeforeReadErrorOf(before[1..], after);
    }
  }

  /** A response carrying an error leaves the slot alone, whatever result came with it. */
  lemma ErrorWins(data: Payload, response: DeribitResponse, rest: seq<Frame>)
    requires response.error.Some?
    ensures Deliver(data, [Decoded(response)] + rest) == Deliver(data, rest)
  {
    assert ([Decoded(response)] + rest)[1..] == rest;
  }

  /** An undecodable frame is skipped and reading goes on. */
  lemma UndecodableSkipped(data: Payload, rest: seq<Frame>)
    ensures Deliver(data, [Undecodable] + rest) == Deliver(data, rest)
  {
    assert ([Undecodable] + rest)[1..] == rest;
  }

  /** The Deribit client (client/deribit.go `DeribitClient`). */
  class DeribitClient {
    /** Whether `Conn` is set, i.e. whether `Connect` has succeeded. */
    var hasConn: bool
    /** Whether the connection is still open. */
    var connOpen: bool
    /** The data slot of the order-book window this client feeds. */
    const sink: Slot
    const instrument: string
    var requestId: int
    /** The requests built so far, in order. */
    ghost var sent: seq<DeribitRequest>

    /** The next id is one past the number of requests built, which are numbered from 1. */
    ghost predicate Valid()
      reads this
    {
      requestId == |sent| + 1 && Numbered(sent, instrument)
    }

    /** A client without a connection whose first request will have id 1. */
    constructor NewDeribitClient(instrument: string, sink: Slot)
      ensures this.instrument == instrument && this.sink == sink
      ensures requestId == 1 && !hasConn && !connOpen && sent == []
      ensures Valid()
    {
      this.instrument := instrument;
      this.sink := sink;
      requestId := 1;
      hasConn := false;
      connOpen := false;
      sent := [];
    }

    /**
     * Dials the exchange; `dialOk` is whether the dial succeeds. Returns
     * whether an error is reported. Starting the reader and fetcher
     * goroutines is not modelled: they are `HandleMessages` and
     * `FetchOrderBook`.
     */
    method Connect(dialOk: bool) returns (failed: bool)
      modifies this`hasConn, this`connOpen
      ensures failed == !dialOk
      ensures dialOk ==> hasConn && connOpen
      ensures !dialOk ==> hasConn == old(hasConn) && connOpen == old(connOpen)
    {
      if !dialOk {
        return true;
      }
      hasConn := true;
      connOpen := true;
      failed := false;
    }

    /**
     * Builds the next order-book request and sends it; `writeOk` is whether
     * the write succeeds. The id is used up whether or not the request goes
     * out. Returns the request that went out, if any.
     */
    method FetchOrderBook(writeOk: bool) returns (wire: Option<DeribitRequest>)
      requires hasConn
      modifies this`requestId, this`sent
      ensures requestId == old(requestId) + 1
      ensures sent == old(sent) + [OrderBookRequest(old(requestId), instrument)]
      ensures wire == if writeOk then Some(OrderBookRequest(old(requestId), instrument)) else None
      ensures old(Valid()) ==> Valid()
    {
      var request := DeribitRequest(JsonRpcVersion, OrderBookMethod, OrderBookParams(instrument), requestId);
      requestId := requestId + 1;
      sent := sent + [request];
      if !writeOk {
        return None;
      }
      wire := Some(request);
    }

    /**
     * The reader loop over the frames `frames`: stops at the first read
     * error, skips undecodable frames and error responses, and stores every
     * result in the slot. Returns how many frames it read.
     */
    method HandleMessages(frames: seq<Frame>) returns (read: nat)
      modifies sink`data
      ensures sink.data == Deliver(old(sink.data), frames)
      ensures read == Consumed(frames)
    {
      read := 0;
      while read < |frames|
        invariant 0 <= read <= |frames|
        invariant Deliver(old(sink.data), frames) == Deliver(sink.data, frames[read..])
        invariant Consumed(frames) == read + Consumed(frames[read..])
      {
        var frame := frames[read];
        assert frames[read..][1..] == frames[read + 1..];
        read := read + 1;
        if frame.ReadFailed? {
          return;
        }
        if frame.Undecodable? {
          continue;
        }
        var response := frame.response;
        if response.error.Some? {
          continue;
        }
        if response.result.Some? {
          sink.data := OrderBookData(response.result.value);
        }
      }
    }

    /** Closes the connection if there is one; without one it does nothing. */
    method Close()
      modifies this`connOpen
      ensures hasConn ==> !connOpen
      ensures !hasConn ==> connOpen == old(connOpen)
    {
      if hasConn {
        connOpen := false;
      }
    }
  }
}
