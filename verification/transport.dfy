/**
 * vraft.trans: the Raft peer transport. A `RaftServer` keeps the newest
 * inbound connection per peer address, a `RaftClient` owns one outbound
 * connection, and `MessageControl` routes outgoing messages and keeps the
 * pending and working clients per peer.
 *
 * Connections are referred to by `ConnRef` values; what is written to or
 * closed on them is recorded in ghost logs. The byte-level RESP parser is
 * an oracle: for one chunk of received bytes it yields the successive
 * outcomes of `RESPParser.feed`.
 */
module Transport {
  import opened Wrappers
  import opened Resp
  import opened RaftMessages
  import opened RaftTransUtils

  /** One connection object, told apart by `id`, from or to `remote`. */
  datatype ConnRef = ConnRef(id: nat, remote: Ip)

  /** One call of `parser.feed` on the received bytes. */
  datatype ParseOutcome = Complete(resp: RESP) | NeedMore | ParseFailed

  /** The handler calls made for one chunk, and whether the connection is to be closed. */
  datatype ChunkResult = ChunkResult(delivered: seq<Delivery>, failed: bool)

  /** Whether the data loop stops at this outcome. */
  predicate Stops(o: ParseOutcome)
  {
    !o.Complete? || Receive(o.resp).Err?
  }

  /**
   * The `onData` loop: each complete value goes through `parse`; an error
   * from the parser or from `parse` ends the loop and closes the
   * connection; a need for more input ends the loop quietly.
   */
  function HandleChunk(ip: Ip, outcomes: seq<ParseOutcome>, handlers: set<MessageType>): ChunkResult
  {
    if |outcomes| == 0 then ChunkResult([], false)
    else match outcomes[0]
      case NeedMore => ChunkResult([], false)
      case ParseFailed => ChunkResult([], true)
      case Complete(resp) =>
        match Receive(resp)
        case Err(_) => ChunkResult([], true)
        case Ok(m) =>
          var rest := HandleChunk(ip, outcomes[1..], handlers);
          ChunkResult((if TypeOf(m) in handlers then [Delivery(ip, m)] else []) + rest.delivered, rest.failed)
  }

  /** The loop itself, calling `parse` on each complete value. */
  method DrainParser(ip: Ip, outcomes: seq<ParseOutcome>, handlers: set<MessageType>)
    returns (delivered: seq<Delivery>, failed: bool)
    ensures ChunkResult(delivered, failed) == HandleChunk(ip, outcomes, handlers)
  {
    delivered, failed := [], false;
    var i := 0;
    while i < |outcomes|
      invariant 0 <= i <= |outcomes|
      invariant HandleChunk(ip, outcomes, handlers)
             == ChunkResult(delivered + HandleChunk(ip, outcomes[i..], handlers).delivered,
                            HandleChunk(ip, outcomes[i..], handlers).failed)
    {
      match outcomes[i]
      case NeedMore =>
        return;
      case ParseFailed =>
        failed := true;
        return;
      case Complete(resp) =>
        var err, d := Parse(ip, resp, handlers);
        if err.Some? {
          failed := true;
          return;
        }
        assert outcomes[i..][1..] == outcomes[i + 1..];
        if d.Some? {
          delivered := delivered + [d.value];
        }
      i := i + 1;
    }
  }

  /** Every handler call carries the connection's peer and a type whose handler is registered. */
  lemma {:induction false} ChunkDeliversToHandlers(ip: Ip, outcomes: seq<ParseOutcome>, handlers: set<MessageType>)
    ensures forall d :: d in HandleChunk(ip, outcomes, handlers).delivered ==> d.from == ip && TypeOf(d.msg) in handlers
  {
    if |outcomes| > 0 && outcomes[0].Complete? && Receive(outcomes[0].resp).Ok? {
      ChunkDeliversToHandlers(ip, outcomes[1..], handlers);
    }
  }

  /** Nothing after the first stopping outcome is looked at. */
  lemma {:induction false} ChunkIgnoresAfterStop(ip: Ip, before: seq<ParseOutcome>, x: ParseOutcome,
                                                rest: seq<ParseOutcome>, handlers: set<MessageType>)
    requires Stops(x)
    ensures HandleChunk(ip, before + [x] + rest, handlers) == HandleChunk(ip, before + [x], handlers)
  {
    if |before| == 0 {
      assert (before + [x] + rest)[0] == x && (before + [x])[0] == x;
    } else {
      assert (before + [x] + rest)[1..] == before[1..] + [x] + rest;
      assert (before + [x])[1..] == before[1..] + [x];
      ChunkIgnoresAfterStop(ip, before[1..], x, rest, handlers);
    }
  }

  /** A stream of decodable messages with nothing pending is delivered in order, filtered by registered handler. */
  lemma {:induction false} ChunkDeliversInOrder(ip: Ip, msgs: seq<RaftMessage>, handlers: set<MessageType>)
    requires forall i :: 0 <= i < |msgs| ==> Sendable(msgs[i])
    ensures HandleChunk(ip, seq(|msgs|, i requires 0 <= i < |msgs| => Complete(Serialize(msgs[i]))), handlers)
         == ChunkResult(Deliveries(ip, msgs, handlers), false)
  {
    var o := seq(|msgs|, i requires 0 <= i < |msgs| => Complete(Serialize(msgs[i])));
    if |msgs| > 0 {
      RoundTrip(msgs[0]);
      assert o[1..] == seq(|msgs[1..]|, i requires 0 <= i < |msgs[1..]| => Complete(Serialize(msgs[1..][i])));
      ChunkDeliversInOrder(ip, msgs[1..], handlers);
    }
  }

  /** The handler calls for `msgs`, in order, skipping types without a handler. */
  function Deliveries(ip: Ip, msgs: seq<RaftMessage>, handlers: set<MessageType>): seq<Delivery>
  {
    if |msgs| == 0 then []
    else (if TypeOf(msgs[0]) in handlers then [Delivery(ip, msgs[0])] else []) + Deliveries(ip, msgs[1..], handlers)
  }
}
