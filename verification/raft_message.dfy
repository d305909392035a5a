/**
 * The four Raft messages (the implementations of vraft.msg.RaftMessage)
 * and the wire tag under which each is serialized.
 */
module RaftMessages {
  import opened Wrappers
  import opened Resp
  import AEReq = AppendEntriesReqCodec
  import AEResp = AppendEntriesRespCodec
  import RVReq = RequestVoteReqCodec
  import RVResp = RequestVoteRespCodec

  datatype MessageType = AppendEntriesReqType | AppendEntriesRespType | RequestVoteReqType | RequestVoteRespType

  datatype RaftMessage =
    | AppendEntriesReq(aeReq: AEReq.AppendEntriesReq)
    | AppendEntriesResp(aeResp: AEResp.AppendEntriesResp)
    | RequestVoteReq(rvReq: RVReq.RequestVoteReq)
    | RequestVoteResp(rvResp: RVResp.RequestVoteResp)

  function TypeOf(m: RaftMessage): MessageType
  {
    match m
    case AppendEntriesReq(_) => AppendEntriesReqType
    case AppendEntriesResp(_) => AppendEntriesRespType
    case RequestVoteReq(_) => RequestVoteReqType
    case RequestVoteResp(_) => RequestVoteRespType
  }

  /** The value of the envelope's `type` key. */
  function TypeName(t: MessageType): string
  {
    match t
    case AppendEntriesReqType => "AppendEntriesReq"
    case AppendEntriesRespType => "AppendEntriesResp"
    case RequestVoteReqType => "RequestVoteReq"
    case RequestVoteRespType => "RequestVoteResp"
  }

  /** The tags the receiving switch recognises. */
  function TypeFromName(s: string): Option<MessageType>
  {
    match s
    case "AppendEntriesReq" => Some(AppendEntriesReqType)
    case "AppendEntriesResp" => Some(AppendEntriesRespType)
    case "RequestVoteReq" => Some(RequestVoteReqType)
    case "RequestVoteResp" => Some(RequestVoteRespType)
    case _ => None
  }

  /** Sender and receiver agree on the tags: a name is recognised exactly when it is some type's tag. */
  lemma TypeNames(s: string, t: MessageType)
    ensures TypeFromName(s) == Some(t) <==> s == TypeName(t)
  {
  }

  /** `serialize()` of each message. */
  function Serialize(m: RaftMessage): RESP
  {
    match m
    case AppendEntriesReq(r) => AEReq.Encode(r)
    case AppendEntriesResp(r) => AEResp.Serialize(r)
    case RequestVoteReq(r) => RVReq.Serialize(r)
    case RequestVoteResp(r) => RVResp.Serialize(r)
  }

  /** The message's `msg` body, as its decoder reads it. */
  function Decode(t: MessageType, body: RESP): Result<RaftMessage, DecodeError>
  {
    match t
    case AppendEntriesReqType =>
      (match AEReq.Decode(body) case Ok(r) => Ok(AppendEntriesReq(r)) case Err(e) => Err(e))
    case AppendEntriesRespType =>
      (match AEResp.Decode(body) case Ok(r) => Ok(AppendEntriesResp(r)) case Err(e) => Err(e))
    case RequestVoteReqType =>
      (match RVReq.Decode(body) case Ok(r) => Ok(RequestVoteReq(r)) case Err(e) => Err(e))
    case RequestVoteRespType =>
      (match RVResp.Decode(body) case Ok(r) => Ok(RequestVoteResp(r)) case Err(e) => Err(e))
  }

  /** The message holds no integer equal to the decoders' "absent" sentinel (and text entries hold text). */
  predicate Sendable(m: RaftMessage)
  {
    match m
    case AppendEntriesReq(r) => AEReq.Sendable(r)
    case AppendEntriesResp(r) => r.term != MinInt
    case RequestVoteReq(r) => RVReq.Sendable(r)
    case RequestVoteResp(r) => r.term != MinInt
  }

  /** A decoded message is of the type that was asked for. */
  lemma DecodeKeepsType(t: MessageType, body: RESP)
    ensures Decode(t, body).Ok? ==> TypeOf(Decode(t, body).value) == t
  {
  }
}

/**
 * vraft.trans.RaftTransUtils.parse: reads the envelope
 * `["type", <tag>, "msg", <body>]`, decodes the body by its tag and hands
 * the message to the handler registered for that type, if any.
 */
module RaftTransUtils {
  import opened Wrappers
  import opened Resp
  import opened KeyValue
  import opened RaftMessages
  import AEReq = AppendEntriesReqCodec
  import AEResp = AppendEntriesRespCodec
  import RVReq = RequestVoteReqCodec
  import RVResp = RequestVoteRespCodec

  /** A peer's address; only compared and passed along here. */
  type Ip = string

  /** What a handler receives: the sender's address and the message. */
  datatype Delivery = Delivery(from: Ip, msg: RaftMessage)

  /** `parse`'s locals for the envelope; `msg` takes any value. */
  datatype EnvFields = EnvFields(typ: Option<string>, msg: Option<RESP>)

  const NoEnvFields := EnvFields(None, None)

  function EnvStep(f: EnvFields, key: string, v: RESP): Result<EnvFields, DecodeError>
  {
    match key
    case "type" =>
      if f.typ.Some? then Err(Duplicated("type"))
      else if !v.Bulk? then Err(WrongKind("type"))
      else Ok(f.(typ := Some(v.str)))
    case "msg" =>
      if f.msg.Some? then Err(Duplicated("msg"))
      else Ok(f.(msg := Some(v)))
    case _ => Err(UnknownKey(key))
  }

  /** The message `parse` decodes from `resp`, or the reason it returns instead of a null. */
  function Receive(resp: RESP): Result<RaftMessage, DecodeError>
  {
    if !resp.Arr? then Err(NotArray)
    else match Walk(resp.elems, 0, NoEnvFields, "", EnvStep)
      case Err(e) => Err(e)
      case Ok(f) =>
        if f.typ.None? then Err(Missing("type"))
        else if f.msg.None? then Err(Missing("msg"))
        else match TypeFromName(f.typ.value)
          case None => Err(UnknownType(f.typ.value))
          case Some(t) => RaftMessages.Decode(t, f.msg.value)
  }

  /**
   * `parse`: `err` is the returned error text (None for null); a decoded
   * message reaches the handler of its type only when one is registered in
   * `handlers`, and is otherwise dropped without an error.
   */
  method Parse(remoteIp: Ip, resp: RESP, handlers: set<MessageType>)
    returns (err: Option<DecodeError>, delivered: Option<Delivery>)
    ensures Receive(resp).Err? ==> err == Some(Receive(resp).error) && delivered == None
    ensures Receive(resp).Ok? ==> err == None
    ensures Receive(resp).Ok? && TypeOf(Receive(resp).value) in handlers ==>
              delivered == Some(Delivery(remoteIp, Receive(resp).value))
    ensures Receive(resp).Ok? && TypeOf(Receive(resp).value) !in handlers ==> delivered == None
  {
    err, delivered := None, None;
    if !resp.Arr? {
      return Some(NotArray), None;
    }
    var meta := resp.elems;
    var index := 0;
    var lastKey := "";
    var typ: Option<string> := None;
    var msg: Option<RESP> := None;
    while index < |meta|
      invariant 0 <= index <= |meta|
      invariant Walk(meta, 0, NoEnvFields, "", EnvStep) == Walk(meta, index, EnvFields(typ, msg), lastKey, EnvStep)
    {
      var e := meta[index];
      if index % 2 == 0 {
        if !e.Bulk? {
          return Some(KeyNotString(index)), None;
        }
        lastKey := e.str;
      } else {
        match lastKey
        case "type" =>
          if typ.Some? {
            return Some(Duplicated("type")), None;
          }
          if !e.Bulk? {
            return Some(WrongKind("type")), None;
          }
          typ := Some(e.str);
        case "msg" =>
          if msg.Some? {
            return Some(Duplicated("msg")), None;
          }
          msg := Some(e);
        case _ =>
          return Some(UnknownKey(lastKey)), None;
      }
      index := index + 1;
    }
    if typ.None? {
      return Some(Missing("type")), None;
    }
    if msg.None? {
      return Some(Missing("msg")), None;
    }
    match typ.value
    case "AppendEntriesReq" =>
      var r := AEReq.FromResp(msg.value);
      if r.Err? {
        return Some(r.error), None;
      }
      if AppendEntriesReqType in handlers {
        delivered := Some(Delivery(remoteIp, AppendEntriesReq(r.value)));
      }
    case "AppendEntriesResp" =>
      var r := AEResp.FromResp(msg.value);
      if r.Err? {
        return Some(r.error), None;
      }
      if AppendEntriesRespType in handlers {
        delivered := Some(Delivery(remoteIp, AppendEntriesResp(r.value)));
      }
    case "RequestVoteReq" =>
      var r := RVReq.FromResp(msg.value);
      if r.Err? {
        return Some(r.error), None;
      }
      if RequestVoteReqType in handlers {
        delivered := Some(Delivery(remoteIp, RequestVoteReq(r.value)));
      }
    case "RequestVoteResp" =>
      var r := RVResp.FromResp(msg.value);
      if r.Err? {
        return Some(r.error), None;
      }
      if RequestVoteRespType in handlers {
        delivered := Some(Delivery(remoteIp, RequestVoteResp(r.value)));
      }
    case _ =>
      return Some(UnknownType(typ.value)), None;
  }

  /** The envelope walks to its tag and body. */
  lemma WalkEnvelope(typ: string, body: RESP)
    ensures Walk(Envelope(typ, body).elems, 0, NoEnvFields, "", EnvStep) == Ok(EnvFields(Some(typ), Some(body)))
  {
    var a := Envelope(typ, body).elems;
    WalkPair(a, 0, NoEnvFields, "", EnvStep);
    WalkPair(a, 2, EnvFields(Some(typ), None), "type", EnvStep);
  }

  /** End to end: every sendable message, serialized, is received as itself. */
  lemma RoundTrip(m: RaftMessage)
    requires Sendable(m)
    ensures Receive(Serialize(m)) == Ok(m)
  {
    match m
    case AppendEntriesReq(r) =>
      WalkEnvelope("AppendEntriesReq", AEReq.Body(r));
    case AppendEntriesResp(r) =>
      WalkEnvelope("AppendEntriesResp", AEResp.Body(r));
    case RequestVoteReq(r) =>
      WalkEnvelope("RequestVoteReq", RVReq.Body(r));
    case RequestVoteResp(r) =>
      WalkEnvelope("RequestVoteResp", RVResp.Body(r));
  }

  /** A tag outside the four is rejected as an unknown type, whatever the body. */
  lemma UnknownTypeRejected(typ: string, body: RESP)
    requires TypeFromName(typ).None?
    ensures Receive(Envelope(typ, body)) == Err(UnknownType(typ))
  {
    WalkEnvelope(typ, body);
  }

  /** The body is decoded by the decoder its tag names, and only by that one. */
  lemma DecodedByTag(t: MessageType, body: RESP)
    ensures Receive(Envelope(TypeName(t), body)) == RaftMessages.Decode(t, body)
  {
    WalkEnvelope(TypeName(t), body);
  }

  /** An envelope with a second `type` or `msg` is rejected. */
  lemma DuplicateRejected(a: seq<RESP>, key: string, j: nat, k: nat)
    requires key == "type" || key == "msg"
    requires j < k && k + 1 < |a| && j % 2 == 0 && k % 2 == 0
    requires a[j] == Bulk(key) && a[k] == Bulk(key) && (key == "type" ==> a[j + 1].Bulk?)
    ensures Receive(Arr(a)).Err?
  {
    var isSet := (f: EnvFields) => if key == "type" then f.typ.Some? else f.msg.Some?;
    DuplicateKeyRejected(a, 0, NoEnvFields, "", EnvStep, isSet, key, a[j + 1], j, k);
  }

  /** A key other than `type` and `msg`, followed by a value, is rejected. */
  lemma UnknownKeyRejected(a: seq<RESP>, k: nat, key: string)
    requires k + 1 < |a| && k % 2 == 0 && a[k] == Bulk(key) && key != "type" && key != "msg"
    ensures Receive(Arr(a)).Err?
  {
    RejectedPairRejected(a, 0, NoEnvFields, "", EnvStep, k, key, a[k + 1]);
  }

  /** An envelope whose key position holds anything but a bulk string is rejected. */
  lemma EnvelopeKeyMustBeString(a: seq<RESP>, k: nat)
    requires k < |a| && k % 2 == 0 && !a[k].Bulk?
    ensures Receive(Arr(a)).Err?
  {
    NonStringKeyRejected(a, 0, NoEnvFields, "", EnvStep, k);
  }

  /** A `type` value that is not a bulk string is rejected. */
  lemma TypeMustBeString(a: seq<RESP>, k: nat)
    requires k + 1 < |a| && k % 2 == 0 && a[k] == Bulk("type") && !a[k + 1].Bulk?
    ensures Receive(Arr(a)).Err?
  {
    RejectedPairRejected(a, 0, NoEnvFields, "", EnvStep, k, "type", a[k + 1]);
  }

  /** An envelope without a `type` key, or without a `msg` key, is rejected. */
  lemma EnvelopeMissingRejected(a: seq<RESP>, key: string)
    requires key == "type" || key == "msg"
    requires forall j :: 0 <= j && j + 1 < |a| && j % 2 == 0 ==> a[j] != Bulk(key)
    ensures Receive(Arr(a)).Err?
  {
    var isSet := (f: EnvFields) => if key == "type" then f.typ.Some? else f.msg.Some?;
    AbsentKeyUnset(a, 0, NoEnvFields, "", EnvStep, isSet, key);
  }
}
