/**
 * vraft.trans.RaftClient: one outbound connection to a peer, with the
 * `started`/`connected` flags and set-once callbacks.
 */
module Client {
  import opened Wrappers
  import opened Resp
  import opened RaftMessages
  import opened RaftTransUtils
  import opened Transport

  /** The three lifecycle callbacks a client must have before `start`. */
  datatype Callback = ErrorCallback | ClosedCallback | ConnectedCallback

  const AllCallbacks: set<Callback> := {ErrorCallback, ClosedCallback, ConnectedCallback}

  class RaftClient {
    /** The peer address (the `IPPort` minus the port). */
    const ip: Ip
    var handlers: set<MessageType>
    var callbacks: set<Callback>
    var started: bool
    var connected: bool
    var conn: Option<ConnRef>
    /** How many connects issued by `start` have not completed yet. */
    ghost var connecting: nat
    /** Every `conn.write`, in order. */
    ghost var written: seq<(ConnRef, RESP)>
    /** Every `conn.close`, in order. */
    ghost var closed: seq<ConnRef>

    /**
     * `connected` and a recorded `conn` go together, only while started;
     * a started client has all three callbacks.
     */
    ghost predicate Valid()
      reads this
    {
      && (connected <==> conn.Some?)
      && (connected ==> started)
      && (started ==> callbacks == AllCallbacks)
    }

    constructor(ip: Ip)
      ensures Valid() && this.ip == ip
      ensures handlers == {} && callbacks == {} && !started && !connected && conn == None
      ensures connecting == 0 && written == [] && closed == []
    {
      this.ip := ip;
      handlers, callbacks, started, connected, conn := {}, {}, false, false, None;
      connecting, written, closed := 0, [], [];
    }

    /** `onAppendEntriesReq` and its three siblings: each handler can be set once. */
    method SetHandler(t: MessageType) returns (ok: bool)
      requires Valid()
      modifies this
      ensures Valid()
      ensures ok <==> t !in old(handlers)
      ensures handlers == old(handlers) + {t}
      ensures callbacks == old(callbacks) && started == old(started) && connected == old(connected)
      ensures conn == old(conn) && connecting == old(connecting) && written == old(written) && closed == old(closed)
    {
      if t in handlers {
        return false;
      }
      handlers := handlers + {t};
      ok := true;
    }

    /** `onError`, `onClosed` and `onConnected`: each callback can be set once. */
    method SetCallback(cb: Callback) returns (ok: bool)
      requires Valid()
      modifies this
      ensures Valid()
      ensures ok <==> cb !in old(callbacks)
      ensures callbacks == old(callbacks) + {cb}
      ensures handlers == old(handlers) && started == old(started) && connected == old(connected)
      ensures conn == old(conn) && connecting == old(connecting) && written == old(written) && closed == old(closed)
    {
      if cb in callbacks {
        return false;
      }
      callbacks := callbacks + {cb};
      ok := true;
    }

    /**
     * Fails (the source throws) unless all three callbacks are set;
     * otherwise marks the client started and, when no connection is
     * recorded, issues one more connect, even while an earlier one is
     * still in flight.
     */
    method Start() returns (ok: bool)
      requires Valid()
      modifies this
      ensures Valid()
      ensures ok <==> old(callbacks) == AllCallbacks
      ensures started == (ok || old(started))
      ensures connecting == old(connecting) + (if ok && old(conn).None? then 1 else 0)
      ensures handlers == old(handlers) && callbacks == old(callbacks) && connected == old(connected)
      ensures conn == old(conn) && written == old(written) && closed == old(closed)
    {
      if ErrorCallback !in callbacks || ClosedCallback !in callbacks || ConnectedCallback !in callbacks {
        return false;
      }
      forall cb | cb in callbacks
        ensures cb in AllCallbacks
      {
        match cb
        case ErrorCallback =>
        case ClosedCallback =>
        case ConnectedCallback =>
      }
      started := true;
      ok := true;
      if conn.Some? {
        return;
      }
      connecting := connecting + 1;
    }

    /**
     * The connect handler of one in-flight connect. When the client was
     * stopped meanwhile, nothing is recorded and no callback runs (`c` is
     * not closed here either); otherwise `c` is recorded, the client
     * becomes connected and the connected callback runs. A connection
     * recorded by an earlier connect is replaced without being closed.
     */
    method OnConnect(c: ConnRef) returns (callbackRan: bool)
      requires Valid() && connecting > 0
      modifies this
      ensures Valid() && connecting == old(connecting) - 1
      ensures callbackRan == old(started)
      ensures conn == (if callbackRan then Some(c) else None)
      ensures connected == callbackRan
      ensures handlers == old(handlers) && callbacks == old(callbacks) && started == old(started)
      ensures written == old(written) && closed == old(closed)
    {
      connecting := connecting - 1;
      if !started {
        callbackRan := CloseConnection(true);
        return;
      }
      conn := Some(c);
      connected := true;
      callbackRan := true;
    }

    /** The connect failed: the connector runs the error callback itself, the client is unchanged. */
    method OnConnectFailed()
      requires Valid() && connecting > 0
      modifies this
      ensures Valid() && connecting == old(connecting) - 1
      ensures handlers == old(handlers) && callbacks == old(callbacks) && started == old(started)
      ensures connected == old(connected) && conn == old(conn) && written == old(written) && closed == old(closed)
    {
      connecting := connecting - 1;
    }

    /**
     * A no-op unless started; otherwise clears `started` and `connected`,
     * closes and forgets the connection, and reports whether the closed
     * callback ran (only when `runCallback`). Also the handler of the
     * connection's `onClosed` and `onError` (with `runCallback`).
     */
    method CloseConnection(runCallback: bool) returns (callbackRan: bool)
      requires Valid()
      modifies this
      ensures Valid()
      ensures callbackRan <==> old(started) && runCallback
      ensures !started && !connected && conn.None?
      ensures closed == old(closed) + (if old(started) && old(conn).Some? then [old(conn).value] else [])
      ensures handlers == old(handlers) && callbacks == old(callbacks) && connecting == old(connecting)
      ensures written == old(written)
    {
      if !started {
        return false;
      }
      started := false;
      connected := false;
      if conn.Some? {
        closed := closed + [conn.value];
        conn := None;
      }
      callbackRan := runCallback && ClosedCallback in callbacks;
    }

    /** Closes without running the closed callback. */
    method Stop()
      requires Valid()
      modifies this
      ensures Valid()
      ensures !started && !connected && conn.None?
      ensures closed == old(closed) + (if old(started) && old(conn).Some? then [old(conn).value] else [])
      ensures handlers == old(handlers) && callbacks == old(callbacks) && connecting == old(connecting)
      ensures written == old(written)
    {
      var ran := CloseConnection(false);
      assert !ran;
    }

    /** Writes the message when connected; false and nothing written otherwise. */
    method Send(msg: RaftMessage) returns (ok: bool)
      requires Valid()
      modifies this
      ensures Valid()
      ensures ok == connected
      ensures written == old(written) + (if connected then [(conn.value, Serialize(msg))] else [])
      ensures handlers == old(handlers) && callbacks == old(callbacks) && started == old(started)
      ensures connected == old(connected) && conn == old(conn) && connecting == old(connecting)
      ensures closed == old(closed)
    {
      if !connected {
        return false;
      }
      written := written + [(conn.value, Serialize(msg))];
      ok := true;
    }

    /**
     * The `onData` handler of the recorded connection: the handler calls
     * made, and on a parse or decode error `closeConnection(true)`.
     */
    method HandleData(outcomes: seq<ParseOutcome>) returns (delivered: seq<Delivery>, callbackRan: bool)
      requires Valid()
      modifies this
      ensures Valid()
      ensures delivered == HandleChunk(ip, outcomes, handlers).delivered
      ensures callbackRan <==> HandleChunk(ip, outcomes, handlers).failed && old(started)
      ensures if HandleChunk(ip, outcomes, handlers).failed
              then !started && !connected && conn.None?
                   && closed == old(closed) + (if old(started) && old(conn).Some? then [old(conn).value] else [])
              else started == old(started) && connected == old(connected) && conn == old(conn) && closed == old(closed)
      ensures handlers == old(handlers) && callbacks == old(callbacks) && connecting == old(connecting)
      ensures written == old(written)
    {
      var failed;
      delivered, failed := DrainParser(ip, outcomes, handlers);
      callbackRan := false;
      if failed {
        callbackRan := CloseConnection(true);
      }
    }
  }
}
