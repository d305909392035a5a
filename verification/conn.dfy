/**
 * vproxybase.util.net.Conn: a connection wrapper with a FIFO queue of
 * pending writes drained into the connection's bounded out buffer, and
 * set-once data/error/closed callbacks of which the closed one runs at
 * most once.
 */
module NetConn {
  import opened Utf8

  datatype ConnCallback = DataCallback | ErrorCallback | ClosedCallback

  /** What the connection did that is visible outside: callbacks run and `close` calls. */
  datatype ConnEvent = ErrorCallbackRan | ClosedCallbackRan | ConnClosed

  /** The queued chunks' remaining bytes, head first. */
  function Flatten(q: seq<seq<byte>>): seq<byte>
  {
    if |q| == 0 then [] else q[0] + Flatten(q[1..])
  }

  lemma {:induction false} FlattenAppend(q: seq<seq<byte>>, d: seq<byte>)
    ensures Flatten(q + [d]) == Flatten(q) + d
  {
    if |q| == 0 {
      assert Flatten([d]) == d + Flatten([]);
    } else {
      assert (q + [d])[1..] == q[1..] + [d];
      FlattenAppend(q[1..], d);
    }
  }

  /** How many times the closed callback ran. */
  function ClosedRuns(events: seq<ConnEvent>): (n: nat)
    ensures n <= |events|
  {
    if |events| == 0 then 0
    else ClosedRuns(events[..|events| - 1]) + (if events[|events| - 1] == ClosedCallbackRan then 1 else 0)
  }

  lemma ClosedRunsAppend(events: seq<ConnEvent>, e: ConnEvent)
    ensures ClosedRuns(events + [e]) == ClosedRuns(events) + (if e == ClosedCallbackRan then 1 else 0)
  {
    assert (events + [e])[..|events|] == events;
  }

  class Conn {
    /** The pending writes (`bytes`): appended at the tail, drained from the head. */
    var queue: seq<seq<byte>>
    /** The connection's out buffer and its capacity. */
    var out: seq<byte>
    const capacity: nat
    var callbacks: set<ConnCallback>
    var closedCallbackCalled: bool
    /** Everything passed to `write`, in order. */
    ghost var written: seq<byte>
    /** The bytes the network has taken from the out buffer, in order. */
    ghost var flushed: seq<byte>
    ghost var events: seq<ConnEvent>

    /**
     * The byte stream is kept in order and nothing is lost: what left,
     * what sits in the out buffer and what is queued are exactly what was
     * written. The closed callback has run at most once, and only after
     * the flag was set.
     */
    ghost predicate Valid()
      reads this
    {
      && |out| <= capacity
      && flushed + out + Flatten(queue) == written
      && ClosedRuns(events) <= (if closedCallbackCalled then 1 else 0)
    }

    constructor(capacity: nat)
      ensures Valid() && this.capacity == capacity
      ensures queue == [] && out == [] && callbacks == {} && !closedCallbackCalled
      ensures written == [] && flushed == [] && events == []
    {
      this.capacity := capacity;
      queue, out, callbacks, closedCallbackCalled := [], [], {}, false;
      written, flushed, events := [], [], [];
    }

    /** `onData`, `onError` and `onClosed`: each callback can be set once. */
    method SetCallback(cb: ConnCallback) returns (ok: bool)
      requires Valid()
      modifies this
      ensures Valid()
      ensures ok <==> cb !in old(callbacks)
      ensures callbacks == old(callbacks) + {cb}
      ensures queue == old(queue) && out == old(out) && closedCallbackCalled == old(closedCallbackCalled)
      ensures written == old(written) && flushed == old(flushed) && events == old(events)
    {
      if cb in callbacks {
        return false;
      }
      callbacks := callbacks + {cb};
      ok := true;
    }

    /**
     * Moves queued bytes into the out buffer, head chunk first, until the
     * buffer is full or the queue is empty; used-up head chunks are dropped.
     */
    method Writable()
      requires Valid()
      modifies this
      ensures Valid()
      ensures old(out) <= out && out + Flatten(queue) == old(out) + Flatten(old(queue))
      ensures |out| == capacity || queue == []
      ensures callbacks == old(callbacks) && closedCallbackCalled == old(closedCallbackCalled)
      ensures written == old(written) && flushed == old(flushed) && events == old(events)
    {
      while true
        invariant Valid()
        invariant old(out) <= out && out + Flatten(queue) == old(out) + Flatten(old(queue))
        invariant callbacks == old(callbacks) && closedCallbackCalled == old(closedCallbackCalled)
        invariant written == old(written) && flushed == old(flushed) && events == old(events)
        decreases |Flatten(queue)|, |queue|
      {
        if capacity - |out| <= 0 {
          return;
        }
        if queue == [] {
          return;
        }
        var data := queue[0];
        if |data| <= 0 {
          queue := queue[1..];
          continue;
        }
        var n := if capacity - |out| < |data| then capacity - |out| else |data|;
        ghost var rest := Flatten(queue[1..]);
        ghost var before := out;
        out := out + data[..n];
        queue := [data[n..]] + queue[1..];
        assert Flatten(queue) == data[n..] + rest;
        assert data[..n] + data[n..] == data;
        assert out + Flatten(queue) == before + data + rest by {
          assert out + Flatten(queue) == before + data[..n] + (data[n..] + rest);
        }
      }
    }

    /** Appends `data` to the tail of the queue and drains what fits. */
    method Write(data: seq<byte>)
      requires Valid()
      modifies this
      ensures Valid()
      ensures written == old(written) + data
      ensures old(out) <= out && out + Flatten(queue) == old(out) + Flatten(old(queue)) + data
      ensures |out| == capacity || queue == []
      ensures callbacks == old(callbacks) && closedCallbackCalled == old(closedCallbackCalled)
      ensures flushed == old(flushed) && events == old(events)
    {
      FlattenAppend(queue, data);
      queue := queue + [data];
      written := written + data;
      Writable();
    }

    /** The network took the first `n` bytes of the out buffer. */
    method Flushed(n: nat)
      requires Valid() && n <= |out|
      modifies this
      ensures Valid()
      ensures flushed == old(flushed) + old(out)[..n] && out == old(out)[n..]
      ensures queue == old(queue) && callbacks == old(callbacks) && closedCallbackCalled == old(closedCallbackCalled)
      ensures written == old(written) && events == old(events)
    {
      assert out[..n] + out[n..] == out;
      flushed := flushed + out[..n];
      out := out[n..];
    }

    /** Runs the closed callback (when set) unless it was already called; the flag is set either way. */
    method CallClosedCallback()
      requires Valid()
      modifies this
      ensures Valid() && closedCallbackCalled
      ensures events == old(events) + (if !old(closedCallbackCalled) && ClosedCallback in callbacks then [ClosedCallbackRan] else [])
      ensures queue == old(queue) && out == old(out) && callbacks == old(callbacks)
      ensures written == old(written) && flushed == old(flushed)
    {
      if closedCallbackCalled {
        return;
      }
      if ClosedCallback in callbacks {
        ClosedRunsAppend(events, ClosedCallbackRan);
        events := events + [ClosedCallbackRan];
      }
      closedCallbackCalled := true;
    }

    /** An I/O error: the error callback (when set) runs before the closed callback. */
    method Exception()
      requires Valid()
      modifies this
      ensures Valid() && closedCallbackCalled
      ensures events == old(events) + (if ErrorCallback in callbacks then [ErrorCallbackRan] else [])
                                    + (if !old(closedCallbackCalled) && ClosedCallback in callbacks then [ClosedCallbackRan] else [])
      ensures queue == old(queue) && out == old(out) && callbacks == old(callbacks)
      ensures written == old(written) && flushed == old(flushed)
    {
      if ErrorCallback in callbacks {
        ClosedRunsAppend(events, ErrorCallbackRan);
        events := events + [ErrorCallbackRan];
      }
      CallClosedCallback();
    }

    /** The peer closed: the closed callback, then `close`. */
    method RemoteClosed()
      requires Valid()
      modifies this
      ensures Valid() && closedCallbackCalled
      ensures events == old(events) + (if !old(closedCallbackCalled) && ClosedCallback in callbacks then [ClosedCallbackRan] else [])
                                    + [ConnClosed]
      ensures queue == old(queue) && out == old(out) && callbacks == old(callbacks)
      ensures written == old(written) && flushed == old(flushed)
    {
      CallClosedCallback();
      Close();
    }

    /** The connection was closed locally. */
    method Closed()
      requires Valid()
      modifies this
      ensures Valid() && closedCallbackCalled
      ensures events == old(events) + (if !old(closedCallbackCalled) && ClosedCallback in callbacks then [ClosedCallbackRan] else [])
      ensures queue == old(queue) && out == old(out) && callbacks == old(callbacks)
      ensures written == old(written) && flushed == old(flushed)
    {
      CallClosedCallback();
    }

    /** Removed from its event loop: nothing once the closed callback was called, otherwise it and `close`. */
    method Removed()
      requires Valid()
      modifies this
      ensures Valid() && closedCallbackCalled
      ensures events == old(events) + (if old(closedCallbackCalled) then []
                                       else (if ClosedCallback in callbacks then [ClosedCallbackRan] else []) + [ConnClosed])
      ensures queue == old(queue) && out == old(out) && callbacks == old(callbacks)
      ensures written == old(written) && flushed == old(flushed)
    {
      if closedCallbackCalled {
        return;
      }
      CallClosedCallback();
      Close();
    }

    method Close()
      requires Valid()
      modifies this
      ensures Valid()
      ensures events == old(events) + [ConnClosed]
      ensures queue == old(queue) && out == old(out) && callbacks == old(callbacks)
      ensures closedCallbackCalled == old(closedCallbackCalled) && written == old(written) && flushed == old(flushed)
    {
      ClosedRunsAppend(events, ConnClosed);
      events := events + [ConnClosed];
    }
  }
}
