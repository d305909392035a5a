/**
 * vraft.trans.RaftServer: the accepted (inbound) peer connections, at most
 * one per remote address, the newest one winning.
 */
module Server {
  import opened Wrappers
  import opened Resp
  import opened RaftMessages
  import opened RaftTransUtils
  import opened Transport

  class RaftServer {
    /** The recorded connection per remote address. */
    var connections: map<Ip, ConnRef>
    /** The message types whose handler has been registered. */
    var handlers: set<MessageType>
    /** Every `conn.write`, in order: the connection and the serialized message. */
    ghost var written: seq<(ConnRef, RESP)>
    /** Every `conn.close`, in order. */
    ghost var closed: seq<ConnRef>

    /** Each recorded connection is filed under its own remote address. */
    predicate Valid()
      reads this
    {
      forall ip :: ip in connections ==> connections[ip].remote == ip
    }

    constructor()
      ensures Valid()
      ensures connections == map[] && handlers == {} && written == [] && closed == []
    {
      connections, handlers, written, closed := map[], {}, [], [];
    }

    /** The accept handler: the old connection from the same address is closed and replaced. */
    method Accept(c: ConnRef)
      requires Valid()
      modifies this
      ensures Valid()
      ensures connections == old(connections)[c.remote := c]
      ensures closed == old(closed) + (if c.remote in old(connections) then [old(connections)[c.remote]] else [])
      ensures handlers == old(handlers) && written == old(written)
    {
      if c.remote in connections {
        closed := closed + [connections[c.remote]];
      }
      connections := connections[c.remote := c];
    }

    /**
     * Forgets `c` unless another connection is recorded for its address,
     * and always closes `c`. Also the connection's `onClosed` handler.
     */
    method RemoveAndCloseConnection(c: ConnRef)
      requires Valid()
      modifies this
      ensures Valid()
      ensures connections == if c.remote in old(connections) && old(connections)[c.remote] != c
                             then old(connections) else old(connections) - {c.remote}
      ensures closed == old(closed) + [c]
      ensures handlers == old(handlers) && written == old(written)
    {
      var ip := c.remote;
      var tmp := if ip in connections then Some(connections[ip]) else None;
      connections := connections - {ip};
      if tmp.Some? && tmp.value != c {
        connections := connections[ip := tmp.value];
      }
      closed := closed + [c];
    }

    method HasConnectionFrom(ip: Ip) returns (r: bool)
      ensures r <==> ip in connections
    {
      r := ip in connections;
    }

    /** Writes the message on the address's connection; false when there is none. */
    method SendTo(ip: Ip, msg: RaftMessage) returns (ok: bool)
      modifies this
      ensures ok <==> ip in old(connections)
      ensures written == old(written) + (if ip in connections then [(connections[ip], Serialize(msg))] else [])
      ensures connections == old(connections) && handlers == old(handlers) && closed == old(closed)
    {
      if ip !in connections {
        return false;
      }
      written := written + [(connections[ip], Serialize(msg))];
      ok := true;
    }

    /** The four `on...` setters: each handler can be set once. */
    method SetHandler(t: MessageType) returns (ok: bool)
      modifies this
      ensures ok <==> t !in old(handlers)
      ensures handlers == old(handlers) + {t}
      ensures connections == old(connections) && written == old(written) && closed == old(closed)
    {
      if t in handlers {
        return false;
      }
      handlers := handlers + {t};
      ok := true;
    }

    /**
     * The `onData` handler of the accepted connection `c`: returns the
     * handler calls made, and on a parse or decode error removes and
     * closes `c` and nothing else.
     */
    method HandleData(c: ConnRef, outcomes: seq<ParseOutcome>) returns (delivered: seq<Delivery>)
      requires Valid()
      modifies this
      ensures Valid()
      ensures delivered == HandleChunk(c.remote, outcomes, handlers).delivered
      ensures var failed := HandleChunk(c.remote, outcomes, handlers).failed;
              && connections == (if !failed || (c.remote in old(connections) && old(connections)[c.remote] != c)
                                 then old(connections) else old(connections) - {c.remote})
              && closed == old(closed) + (if failed then [c] else [])
      ensures handlers == old(handlers) && written == old(written)
    {
      var failed;
      delivered, failed := DrainParser(c.remote, outcomes, handlers);
      if failed {
        RemoveAndCloseConnection(c);
      }
    }
  }
}
