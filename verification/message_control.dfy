/**
 * vraft.trans.MessageControl: routes outgoing Raft messages over the
 * inbound connection or an outbound client, and keeps at most one pending
 * and one working client per peer address. The closures the source hands
 * to each client (`onConnected`, the error/closed callback, the message
 * handlers) are the `OnClient...` methods; socket events reach them
 * through the `Client...` and `Server...` methods. Scheduling onto the
 * event loop is a plain sequential call.
 */
module Control {
  import opened Wrappers
  import opened Resp
  import opened RaftMessages
  import opened RaftTransUtils
  import opened Transport
  import opened Server
  import opened Client

  const AllTypes: set<MessageType> := {AppendEntriesReqType, AppendEntriesRespType, RequestVoteReqType, RequestVoteRespType}

  /** The deliveries whose type has a handler in `hs`, in order: the `if (handler != null)` forwarding closures. */
  function Forwarded(dels: seq<Delivery>, hs: set<MessageType>): (r: seq<Delivery>)
    ensures forall d :: d in r <==> d in dels && TypeOf(d.msg) in hs
    ensures |r| <= |dels|
  {
    if |dels| == 0 then []
    else (if TypeOf(dels[0].msg) in hs then [dels[0]] else []) + Forwarded(dels[1..], hs)
  }

  /** Registering every type one level down and forwarding to `hs` is the same as registering `hs` there. */
  lemma {:induction false} ForwardedChunk(ip: Ip, outcomes: seq<ParseOutcome>, hs: set<MessageType>)
    ensures Forwarded(HandleChunk(ip, outcomes, AllTypes).delivered, hs) == HandleChunk(ip, outcomes, hs).delivered
    ensures HandleChunk(ip, outcomes, AllTypes).failed == HandleChunk(ip, outcomes, hs).failed
  {
    if |outcomes| > 0 && outcomes[0].Complete? && Receive(outcomes[0].resp).Ok? {
      var m := Receive(outcomes[0].resp).value;
      var all := HandleChunk(ip, outcomes, AllTypes).delivered;
      assert all == [Delivery(ip, m)] + HandleChunk(ip, outcomes[1..], AllTypes).delivered by {
        match m
        case AppendEntriesReq(_) =>
        case AppendEntriesResp(_) =>
        case RequestVoteReq(_) =>
        case RequestVoteResp(_) =>
      }
      assert all[1..] == HandleChunk(ip, outcomes[1..], AllTypes).delivered;
      ForwardedChunk(ip, outcomes[1..], hs);
    }
  }

  /** The client filed under `ip` in `m`, as a frame. */
  function Slot(m: map<Ip, RaftClient>, ip: Ip): set<RaftClient>
  {
    if ip in m then {m[ip]} else {}
  }

  /** The pending map once `cli`'s error callback ran: its address's entry is dropped unless it holds another client. */
  function PendingAfterGone(m: map<Ip, Option<RaftClient>>, cli: RaftClient): (r: map<Ip, Option<RaftClient>>)
    ensures cli.ip !in r || r[cli.ip] != Some(cli)
    ensures forall ip :: ip != cli.ip ==> (ip in r <==> ip in m) && (ip in r ==> r[ip] == m[ip])
    ensures cli.ip in m && m[cli.ip].Some? && m[cli.ip] != Some(cli) <==> cli.ip in r && r == m
  {
    if cli.ip in m && m[cli.ip].Some? && m[cli.ip] != Some(cli) then m else m - {cli.ip}
  }

  /** The working map once `cli`'s error callback ran: its address's entry is dropped unless it holds another client. */
  function WorkingAfterGone(m: map<Ip, RaftClient>, cli: RaftClient): (r: map<Ip, RaftClient>)
    ensures cli.ip !in r || r[cli.ip] != cli
    ensures forall ip :: ip != cli.ip ==> (ip in r <==> ip in m) && (ip in r ==> r[ip] == m[ip])
    ensures cli.ip in m && m[cli.ip] != cli <==> cli.ip in r && r == m
  {
    if cli.ip in m && m[cli.ip] != cli then m else m - {cli.ip}
  }

  /** The client half of `initClient` and `newRaftClient`: every callback and handler set, then `start`. */
  method StartClient(cli: RaftClient)
    requires cli.Valid() && cli.handlers == {} && cli.callbacks == {} && !cli.started && cli.conn == None && cli.connecting == 0
    modifies cli
    ensures cli.Valid() && cli.handlers == AllTypes && cli.started && cli.connecting == 1 && !cli.connected
  {
    var ok := cli.SetCallback(ConnectedCallback);
    ok := cli.SetCallback(ErrorCallback);
    ok := cli.SetCallback(ClosedCallback);
    ok := cli.SetHandler(AppendEntriesReqType);
    ok := cli.SetHandler(AppendEntriesRespType);
    ok := cli.SetHandler(RequestVoteReqType);
    ok := cli.SetHandler(RequestVoteRespType);
    ok := cli.Start();
  }

  class MessageControl {
    const server: RaftServer
    var workingClients: map<Ip, RaftClient>
    /** `None` stands for a key mapped to null. */
    var pendingClients: map<Ip, Option<RaftClient>>
    /** The message types whose handler has been registered. */
    var handlers: set<MessageType>
    /** Every client made by `NewRaftClient`. */
    ghost var clients: set<RaftClient>
    /** Every call of a registered handler, in order. */
    ghost var delivered: seq<Delivery>

    /**
     * The object graph: the server forwards every type, and every client is
     * a valid client made here. Each client is started once, so at most one
     * connect of it is in flight.
     */
    ghost predicate Wired()
      reads this, server, clients
    {
      && server.Valid() && server.handlers == AllTypes
      && (forall ip :: ip in workingClients ==> workingClients[ip] in clients)
      && (forall ip :: ip in pendingClients && pendingClients[ip].Some? ==> pendingClients[ip].value in clients)
      && (forall c :: c in clients ==> c.Valid() && c.handlers == AllTypes && c.connecting <= 1)
    }

    /**
     * At most one client per peer: an address is never both pending and
     * working, each entry is filed under its client's own address, a
     * pending entry is never null and is exactly a started client whose
     * connect is in flight.
     */
    ghost predicate Valid()
      reads this, server, clients
    {
      && Wired()
      && (forall ip :: ip in workingClients ==> workingClients[ip].ip == ip && ip !in pendingClients)
      && (forall ip :: ip in pendingClients ==>
            pendingClients[ip].Some? && pendingClients[ip].value.ip == ip
            && pendingClients[ip].value.connecting == 1 && pendingClients[ip].value.started)
      && (forall c :: c in clients && c.connecting == 1 && c.started ==> c.ip in pendingClients && pendingClients[c.ip] == Some(c))
    }

    /** `initServer`: the server forwards each message type to this object's handlers. */
    constructor()
      ensures Valid() && fresh(server)
      ensures server.connections == map[] && server.written == [] && server.closed == []
      ensures workingClients == map[] && pendingClients == map[] && handlers == {} && clients == {} && delivered == []
    {
      server := new RaftServer();
      workingClients, pendingClients, handlers := map[], map[], {};
      clients, delivered := {}, [];
      new;
      var ok := server.SetHandler(AppendEntriesReqType);
      ok := server.SetHandler(AppendEntriesRespType);
      ok := server.SetHandler(RequestVoteReqType);
      ok := server.SetHandler(RequestVoteRespType);
    }

    /** The four `on...` setters: each handler can be set once. */
    method SetHandler(t: MessageType) returns (ok: bool)
      requires Valid()
      modifies this
      ensures Valid()
      ensures ok <==> t !in old(handlers)
      ensures handlers == old(handlers) + {t}
      ensures workingClients == old(workingClients) && pendingClients == old(pendingClients)
      ensures clients == old(clients) && delivered == old(delivered)
    {
      if t in handlers {
        return false;
      }
      handlers := handlers + {t};
      ok := true;
    }

    /** `newRaftClient` and `initClient`: a fresh started client, pending for `ip`. */
    method NewRaftClient(ip: Ip) returns (cli: RaftClient)
      requires Valid() && ip !in workingClients && ip !in pendingClients
      modifies this
      ensures Valid()
      ensures fresh(cli) && cli.ip == ip && cli.started && cli.connecting == 1 && !cli.connected
      ensures pendingClients == old(pendingClients)[ip := Some(cli)] && workingClients == old(workingClients)
      ensures clients == old(clients) + {cli} && handlers == old(handlers) && delivered == old(delivered)
    {
      cli := new RaftClient(ip);
      StartClient(cli);
      assert cli !in clients;
      pendingClients := pendingClients[ip := Some(cli)];
      clients := clients + {cli};
      assert forall c :: c in clients && c != cli ==> c in old(clients) && c.connecting == old(c.connecting) && c.started == old(c.started);
    }

    /**
     * Makes a client for `ip` unless the server has a connection from it
     * or a working or pending client exists.
     */
    method EnsureConnection(ip: Ip)
      requires Valid()
      modifies this
      ensures Valid()
      ensures workingClients == old(workingClients) && handlers == old(handlers) && delivered == old(delivered)
      ensures if ip in server.connections || ip in old(workingClients) || ip in old(pendingClients)
              then pendingClients == old(pendingClients) && clients == old(clients)
              else ip in pendingClients && pendingClients[ip].Some? && fresh(pendingClients[ip].value)
                   && pendingClients == old(pendingClients)[ip := pendingClients[ip]]
                   && clients == old(clients) + {pendingClients[ip].value}
    {
      var has := server.HasConnectionFrom(ip);
      if has {
        return;
      }
      if ip in workingClients {
        return;
      }
      if ip in pendingClients {
        return;
      }
      var cli := NewRaftClient(ip);
    }

    /**
     * The working-client branch of `sendTo`: sends over the working client
     * for `ip` when it is connected; otherwise that client is dropped and
     * stopped, which closes nothing since it holds no connection.
     */
    method SendViaWorkingClient(ip: Ip, msg: RaftMessage) returns (success: bool)
      requires Valid()
      modifies this, Slot(workingClients, ip)
      ensures Valid()
      ensures handlers == old(handlers) && delivered == old(delivered)
      ensures pendingClients == old(pendingClients) && clients == old(clients)
      ensures success <==> ip in old(workingClients) && old(workingClients[ip].connected)
      ensures workingClients == if success then old(workingClients) else old(workingClients) - {ip}
      ensures ip in old(workingClients) ==>
                var c := old(workingClients)[ip];
                && c.closed == old(c.closed) && c.conn == old(c.conn) && c.connected == old(c.connected)
                && c.written == old(c.written) + (if success then [(old(c.conn).value, Serialize(msg))] else [])
                && (!success ==> !c.started)
    {
      success := false;
      if ip in workingClients {
        var cli := workingClients[ip];
        success := cli.Send(msg);
        if !success {
          workingClients := workingClients - {ip};
          cli.Stop();
        }
      }
    }

    /**
     * Sends over the inbound connection if there is one, else over the
     * working client; a working client that cannot send is dropped and
     * stopped. An undelivered message is lost, and a client is made
     * unless one is pending.
     */
    method SendTo(ip: Ip, msg: RaftMessage)
      requires Valid()
      modifies this, server, Slot(workingClients, ip)
      ensures Valid()
      ensures handlers == old(handlers) && delivered == old(delivered)
      ensures server.connections == old(server.connections) && server.closed == old(server.closed)
      ensures var inbound := ip in old(server.connections);
              var viaClient := !inbound && ip in old(workingClients) && old(workingClients[ip].connected);
              && server.written == old(server.written) + (if inbound then [(old(server.connections)[ip], Serialize(msg))] else [])
              && (inbound || viaClient ==> workingClients == old(workingClients) && pendingClients == old(pendingClients)
                                           && clients == old(clients))
              && (viaClient ==> old(workingClients)[ip].written
                                == old(workingClients[ip].written) + [(old(workingClients[ip].conn).value, Serialize(msg))])
              && (!inbound && !viaClient ==>
                    && workingClients == old(workingClients) - {ip}
                    && (ip in old(workingClients) ==> !old(workingClients)[ip].started)
                    && (if ip in old(pendingClients) then pendingClients == old(pendingClients) && clients == old(clients)
                        else ip in pendingClients && pendingClients[ip].Some? && fresh(pendingClients[ip].value)
                             && pendingClients == old(pendingClients)[ip := pendingClients[ip]]
                             && clients == old(clients) + {pendingClients[ip].value}))
      ensures ip in old(server.connections) ==> unchanged(Slot(old(workingClients), ip))
      ensures ip !in old(server.connections) && ip in old(workingClients) ==>
                var c := old(workingClients)[ip];
                c.closed == old(c.closed) && c.conn == old(c.conn) && c.connected == old(c.connected)
                && (!old(c.connected) ==> c.written == old(c.written))
    {
      var success := server.SendTo(ip, msg);
      if success {
        return;
      }
      success := SendViaWorkingClient(ip, msg);
      if success {
        return;
      }
      var p := if ip in pendingClients then pendingClients[ip] else None;
      if p.Some? {
        return;
      }
      var cli := NewRaftClient(ip);
    }

    /**
     * The `onConnected` closure of `cli`: the client moves from pending to
     * working and a client it displaces is stopped; if the pending slot
     * held something else, `cli` is stopped and that value put back (a
     * null one included).
     */
    method OnClientConnected(cli: RaftClient)
      requires Wired() && cli in clients
      modifies this, cli, Slot(workingClients, cli.ip)
      ensures Wired()
      ensures clients == old(clients) && handlers == old(handlers) && delivered == old(delivered)
      ensures var x := if cli.ip in old(pendingClients) then old(pendingClients)[cli.ip] else None;
              if x != Some(cli) then
                && pendingClients == old(pendingClients)[cli.ip := x] && workingClients == old(workingClients)
                && !cli.started && !cli.connected && cli.conn == None
                && cli.closed == old(cli.closed) + (if old(cli.started) && old(cli.conn).Some? then [old(cli.conn).value] else [])
              else
                && pendingClients == old(pendingClients) - {cli.ip}
                && workingClients == old(workingClients)[cli.ip := cli]
                && (cli.ip in old(workingClients) ==> !old(workingClients)[cli.ip].started)
                && (cli.ip !in old(workingClients) ==> unchanged(cli))
      ensures cli.written == old(cli.written)
    {
      var ip := cli.ip;
      var x := if ip in pendingClients then pendingClients[ip] else None;
      pendingClients := pendingClients - {ip};
      if x != Some(cli) {
        cli.Stop();
        pendingClients := pendingClients[ip := x];
        return;
      }
      PromoteToWorking(cli);
    }

    /** The matching branch of `onConnected`: `cli` becomes the working client and one it displaces is stopped. */
    method PromoteToWorking(cli: RaftClient)
      requires Wired() && cli in clients
      modifies this, Slot(workingClients, cli.ip)
      ensures Wired()
      ensures clients == old(clients) && handlers == old(handlers) && delivered == old(delivered)
      ensures pendingClients == old(pendingClients) && workingClients == old(workingClients)[cli.ip := cli]
      ensures cli.ip in old(workingClients) ==>
                var y := old(workingClients)[cli.ip];
                !y.started && y.written == old(y.written)
    {
      var ip := cli.ip;
      var y := if ip in workingClients then Some(workingClients[ip]) else None;
      workingClients := workingClients[ip := cli];
      if y.Some? {
        y.value.Stop();
      }
    }

    /**
     * The error callback of `cli` (its closed callback runs it too): the
     * address's pending and working entries are removed, each one put back
     * if it held another client.
     */
    method OnClientGone(cli: RaftClient)
      modifies this
      ensures clients == old(clients) && handlers == old(handlers) && delivered == old(delivered)
      ensures pendingClients == PendingAfterGone(old(pendingClients), cli)
      ensures workingClients == WorkingAfterGone(old(workingClients), cli)
    {
      var ip := cli.ip;
      var x := if ip in pendingClients then pendingClients[ip] else None;
      pendingClients := pendingClients - {ip};
      if x.Some? && x != Some(cli) {
        pendingClients := pendingClients[ip := x];
      }
      var y := if ip in workingClients then Some(workingClients[ip]) else None;
      workingClients := workingClients - {ip};
      if y.Some? && y != Some(cli) {
        workingClients := workingClients[ip := y.value];
      }
    }

    /**
     * The connect issued by `cli` completed with `c`. A client still
     * started moves from pending to working and nothing is stopped: the
     * mismatch and displacement branches of the closure never run.
     */
    method ClientConnectionEstablished(cli: RaftClient, c: ConnRef)
      requires Valid() && cli in clients && cli.connecting > 0
      modifies this, cli, Slot(workingClients, cli.ip)
      ensures Valid()
      ensures clients == old(clients) && handlers == old(handlers) && delivered == old(delivered)
      ensures if old(cli.started)
              then pendingClients == old(pendingClients) - {cli.ip} && workingClients == old(workingClients)[cli.ip := cli]
                   && cli.connected && cli.conn == Some(c)
              else pendingClients == old(pendingClients) && workingClients == old(workingClients) && cli.conn == None
      ensures cli.connecting == old(cli.connecting) - 1 && cli.started == old(cli.started)
      ensures cli.closed == old(cli.closed) && cli.written == old(cli.written)
    {
      var ran := cli.OnConnect(c);
      if ran {
        OnClientConnected(cli);
      }
    }

    /** The connect issued by `cli` failed; the connector runs its error callback. */
    method ClientConnectFailed(cli: RaftClient)
      requires Valid() && cli in clients && cli.connecting > 0
      modifies this, cli
      ensures Valid()
      ensures clients == old(clients) && handlers == old(handlers) && delivered == old(delivered)
      ensures pendingClients == PendingAfterGone(old(pendingClients), cli)
      ensures workingClients == WorkingAfterGone(old(workingClients), cli)
      ensures old(cli.started) ==> pendingClients == old(pendingClients) - {cli.ip} && workingClients == old(workingClients) - {cli.ip}
      ensures cli.connecting == old(cli.connecting) - 1 && cli.started == old(cli.started) && cli.conn == old(cli.conn) && cli.closed == old(cli.closed)
      ensures cli.written == old(cli.written)
    {
      cli.OnConnectFailed();
      OnClientGone(cli);
    }

    /** The client's connection closed or raised an error: `closeConnection(true)`. */
    method ClientConnectionLost(cli: RaftClient)
      requires Valid() && cli in clients
      modifies this, cli
      ensures Valid()
      ensures clients == old(clients) && handlers == old(handlers) && delivered == old(delivered)
      ensures !cli.started && !cli.connected && cli.conn == None
      ensures cli.closed == old(cli.closed) + (if old(cli.started) && old(cli.conn).Some? then [old(cli.conn).value] else [])
      ensures pendingClients == if old(cli.started) then PendingAfterGone(old(pendingClients), cli) else old(pendingClients)
      ensures workingClients == if old(cli.started) then WorkingAfterGone(old(workingClients), cli) else old(workingClients)
      ensures cli.written == old(cli.written)
    {
      var ran := cli.CloseConnection(true);
      if ran {
        OnClientGone(cli);
      }
    }

    /** The forwarding closures: what a peer object delivered for `outcomes` reaches this object's handlers. */
    method Forward(ip: Ip, outcomes: seq<ParseOutcome>, dels: seq<Delivery>)
      requires dels == HandleChunk(ip, outcomes, AllTypes).delivered
      modifies this
      ensures delivered == old(delivered) + HandleChunk(ip, outcomes, handlers).delivered
      ensures HandleChunk(ip, outcomes, handlers).failed == HandleChunk(ip, outcomes, AllTypes).failed
      ensures workingClients == old(workingClients) && pendingClients == old(pendingClients)
      ensures clients == old(clients) && handlers == old(handlers)
    {
      ForwardedChunk(ip, outcomes, handlers);
      delivered := delivered + Forwarded(dels, handlers);
    }

    /** Data arrived on the client's connection. */
    method ClientData(cli: RaftClient, outcomes: seq<ParseOutcome>)
      requires Valid() && cli in clients
      modifies this, cli
      ensures Valid()
      ensures clients == old(clients) && handlers == old(handlers)
      ensures delivered == old(delivered) + HandleChunk(cli.ip, outcomes, handlers).delivered
      ensures var failed := HandleChunk(cli.ip, outcomes, handlers).failed;
              if failed then !cli.started && !cli.connected && cli.conn == None
              else cli.started == old(cli.started) && cli.connected == old(cli.connected) && cli.conn == old(cli.conn)
      ensures var gone := HandleChunk(cli.ip, outcomes, handlers).failed && old(cli.started);
              && cli.closed == old(cli.closed) + (if gone && old(cli.conn).Some? then [old(cli.conn).value] else [])
              && pendingClients == (if gone then PendingAfterGone(old(pendingClients), cli) else old(pendingClients))
              && workingClients == (if gone then WorkingAfterGone(old(workingClients), cli) else old(workingClients))
      ensures cli.written == old(cli.written)
    {
      assert cli.handlers == AllTypes;
      var dels, ran := cli.HandleData(outcomes);
      Forward(cli.ip, outcomes, dels);
      if ran {
        OnClientGone(cli);
      }
    }

    /** The server accepted `c`. */
    method ServerAccepted(c: ConnRef)
      requires Valid()
      modifies this, server
      ensures Valid()
      ensures server.connections == old(server.connections)[c.remote := c]
      ensures server.closed == old(server.closed) + (if c.remote in old(server.connections) then [old(server.connections)[c.remote]] else [])
      ensures server.written == old(server.written)
      ensures workingClients == old(workingClients) && pendingClients == old(pendingClients)
      ensures clients == old(clients) && handlers == old(handlers) && delivered == old(delivered)
    {
      server.Accept(c);
    }

    /** The accepted connection `c` was closed. */
    method ServerConnectionClosed(c: ConnRef)
      requires Valid()
      modifies this, server
      ensures Valid()
      ensures server.connections == if c.remote in old(server.connections) && old(server.connections)[c.remote] != c
                                    then old(server.connections) else old(server.connections) - {c.remote}
      ensures server.closed == old(server.closed) + [c] && server.written == old(server.written)
      ensures workingClients == old(workingClients) && pendingClients == old(pendingClients)
      ensures clients == old(clients) && handlers == old(handlers) && delivered == old(delivered)
    {
      server.RemoveAndCloseConnection(c);
    }

    /** Data arrived on the accepted connection `c`. */
    method ServerData(c: ConnRef, outcomes: seq<ParseOutcome>)
      requires Valid()
      modifies this, server
      ensures Valid()
      ensures delivered == old(delivered) + HandleChunk(c.remote, outcomes, handlers).delivered
      ensures var failed := HandleChunk(c.remote, outcomes, handlers).failed;
              && server.connections == (if !failed || (c.remote in old(server.connections) && old(server.connections)[c.remote] != c)
                                        then old(server.connections) else old(server.connections) - {c.remote})
              && server.closed == old(server.closed) + (if failed then [c] else [])
      ensures server.written == old(server.written)
      ensures workingClients == old(workingClients) && pendingClients == old(pendingClients)
      ensures clients == old(clients) && handlers == old(handlers)
    {
      var dels := server.HandleData(c, outcomes);
      ForwardedChunk(c.remote, outcomes, handlers);
      delivered := delivered + Forwarded(dels, handlers);
    }
  }
}
