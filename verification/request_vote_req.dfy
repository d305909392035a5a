/**
 * vraft.msg.RequestVoteRPCReq: the candidate's vote request, its strict
 * key/value decoder and its serializer.
 */
module RequestVoteReqCodec {
  import opened Wrappers
  import opened Resp
  import opened KeyValue

  datatype RequestVoteReq = RequestVoteReq(term: Int32, candidateId: string, lastLogIndex: Int32, lastLogTerm: Int32)

  /** The decoder's locals; `MinInt` and `None` mean "not seen yet". */
  datatype Fields = Fields(term: Int32, candidateId: Option<string>, lastLogIndex: Int32, lastLogTerm: Int32)

  const NoFields := Fields(MinInt, None, MinInt, MinInt)

  /** Whether the local for `key` holds a value (an `int` local holding `MinInt` does not). */
  predicate IsSet(f: Fields, key: string)
  {
    match key
    case "term" => f.term != MinInt
    case "candidateId" => f.candidateId.Some?
    case "lastLogIndex" => f.lastLogIndex != MinInt
    case "lastLogTerm" => f.lastLogTerm != MinInt
    case _ => false
  }

  predicate IsKey(key: string)
  {
    key == "term" || key == "candidateId" || key == "lastLogIndex" || key == "lastLogTerm"
  }

  /** One value of the switch: duplicate check first, then the value's kind. */
  function Step(f: Fields, key: string, v: RESP): (r: Result<Fields, DecodeError>)
    ensures r.Ok? ==> IsKey(key) && !IsSet(f, key)
  {
    match key
    case "term" =>
      if f.term != MinInt then Err(Duplicated("term"))
      else if !v.Int? then Err(WrongKind("term"))
      else Ok(f.(term := v.n))
    case "candidateId" =>
      if f.candidateId.Some? then Err(Duplicated("candidateId"))
      else if !v.Bulk? then Err(WrongKind("candidateId"))
      else Ok(f.(candidateId := Some(v.str)))
    case "lastLogIndex" =>
      if f.lastLogIndex != MinInt then Err(Duplicated("lastLogIndex"))
      else if !v.Int? then Err(WrongKind("lastLogIndex"))
      else Ok(f.(lastLogIndex := v.n))
    case "lastLogTerm" =>
      if f.lastLogTerm != MinInt then Err(Duplicated("lastLogTerm"))
      else if !v.Int? then Err(WrongKind("lastLogTerm"))
      else Ok(f.(lastLogTerm := v.n))
    case _ => Err(UnknownKey(key))
  }

  /** The checks after the loop: the first missing field, in declaration order, is reported. */
  function Finish(f: Fields): (r: Result<RequestVoteReq, DecodeError>)
    ensures r.Ok? <==> IsSet(f, "term") && IsSet(f, "candidateId") && IsSet(f, "lastLogIndex") && IsSet(f, "lastLogTerm")
    ensures r.Ok? ==> Fields(r.value.term, Some(r.value.candidateId), r.value.lastLogIndex, r.value.lastLogTerm) == f
  {
    if f.term == MinInt then Err(Missing("term"))
    else if f.candidateId.None? then Err(Missing("candidateId"))
    else if f.lastLogIndex == MinInt then Err(Missing("lastLogIndex"))
    else if f.lastLogTerm == MinInt then Err(Missing("lastLogTerm"))
    else Ok(RequestVoteReq(f.term, f.candidateId.value, f.lastLogIndex, f.lastLogTerm))
  }

  /** What the decoding constructor accepts and builds. */
  function Decode(data: RESP): Result<RequestVoteReq, DecodeError>
  {
    if !data.Arr? then Err(NotArray)
    else match Walk(data.elems, 0, NoFields, "", Step)
      case Err(e) => Err(e)
      case Ok(f) => Finish(f)
  }

  /** The decoding constructor `RequestVoteRPCReq(RESP data)`. */
  method FromResp(data: RESP) returns (r: Result<RequestVoteReq, DecodeError>)
    ensures r == Decode(data)
  {
    if !data.Arr? {
      return Err(NotArray);
    }
    var msg := data.elems;
    var index := 0;
    var lastKey := "";
    var term: Int32 := MinInt;
    var candidateId: Option<string> := None;
    var lastLogIndex: Int32 := MinInt;
    var lastLogTerm: Int32 := MinInt;
    while index < |msg|
      invariant 0 <= index <= |msg|
      invariant Walk(msg, 0, NoFields, "", Step)
             == Walk(msg, index, Fields(term, candidateId, lastLogIndex, lastLogTerm), lastKey, Step)
    {
      var e := msg[index];
      if index % 2 == 0 {
        if !e.Bulk? {
          return Err(KeyNotString(index));
        }
        lastKey := e.str;
      } else {
        match lastKey
        case "term" =>
          if term != MinInt {
            return Err(Duplicated("term"));
          }
          if !e.Int? {
            return Err(WrongKind("term"));
          }
          term := e.n;
        case "candidateId" =>
          if candidateId.Some? {
            return Err(Duplicated("candidateId"));
          }
          if !e.Bulk? {
            return Err(WrongKind("candidateId"));
          }
          candidateId := Some(e.str);
        case "lastLogIndex" =>
          if lastLogIndex != MinInt {
            return Err(Duplicated("lastLogIndex"));
          }
          if !e.Int? {
            return Err(WrongKind("lastLogIndex"));
          }
          lastLogIndex := e.n;
        case "lastLogTerm" =>
          if lastLogTerm != MinInt {
            return Err(Duplicated("lastLogTerm"));
          }
          if !e.Int? {
            return Err(WrongKind("lastLogTerm"));
          }
          lastLogTerm := e.n;
        case _ =>
          return Err(UnknownKey(lastKey));
      }
      index := index + 1;
    }
    if term == MinInt {
      return Err(Missing("term"));
    }
    if candidateId.None? {
      return Err(Missing("candidateId"));
    }
    if lastLogIndex == MinInt {
      return Err(Missing("lastLogIndex"));
    }
    if lastLogTerm == MinInt {
      return Err(Missing("lastLogTerm"));
    }
    r := Ok(RequestVoteReq(term, candidateId.value, lastLogIndex, lastLogTerm));
  }

  /** The `msg` part of `serialize()`. */
  function Body(m: RequestVoteReq): RESP
  {
    Arr([Bulk("term"), Int(m.term), Bulk("candidateId"), Bulk(m.candidateId),
         Bulk("lastLogIndex"), Int(m.lastLogIndex), Bulk("lastLogTerm"), Int(m.lastLogTerm)])
  }

  /** `serialize()`: the envelope tagged "RequestVoteReq". */
  function Serialize(m: RequestVoteReq): (r: RESP)
    ensures r.Arr? && |r.elems| == 4 && r.elems[..3] == [Bulk("type"), Bulk("RequestVoteReq"), Bulk("msg")]
    ensures Sendable(m) ==> Decode(r.elems[3]) == Ok(m)
  {
    if Sendable(m) then RoundTrip(m); Envelope("RequestVoteReq", Body(m))
    else Envelope("RequestVoteReq", Body(m))
  }

  /** `equals`: field-by-field comparison. */
  function Equals(a: RequestVoteReq, b: RequestVoteReq): (r: bool)
    ensures r <==> a == b
  {
    a.term == b.term && a.lastLogIndex == b.lastLogIndex && a.lastLogTerm == b.lastLogTerm && a.candidateId == b.candidateId
  }

  /** No integer field holds the sentinel, so the decoder can tell it was sent. */
  predicate Sendable(m: RequestVoteReq)
  {
    m.term != MinInt && m.lastLogIndex != MinInt && m.lastLogTerm != MinInt
  }

  /** The serializer's body walks to locals holding exactly the message's fields. */
  lemma WalkBody(m: RequestVoteReq)
    ensures Walk(Body(m).elems, 0, NoFields, "", Step)
         == Ok(Fields(m.term, Some(m.candidateId), m.lastLogIndex, m.lastLogTerm))
  {
    var a := Body(m).elems;
    var f1 := NoFields.(term := m.term);
    var f2 := f1.(candidateId := Some(m.candidateId));
    var f3 := f2.(lastLogIndex := m.lastLogIndex);
    WalkPair(a, 0, NoFields, "", Step);
    WalkPair(a, 2, f1, "term", Step);
    WalkPair(a, 4, f2, "candidateId", Step);
    WalkPair(a, 6, f3, "lastLogIndex", Step);
  }

  /** Round trip: decoding the serialized body gives back every sendable request. */
  lemma RoundTrip(m: RequestVoteReq)
    requires Sendable(m)
    ensures Decode(Body(m)) == Ok(m)
  {
    WalkBody(m);
  }

  /** A key position holding anything but a bulk string is rejected. */
  lemma KeyMustBeString(a: seq<RESP>, k: nat)
    requires k < |a| && k % 2 == 0 && !a[k].Bulk?
    ensures Decode(Arr(a)).Err?
  {
    NonStringKeyRejected(a, 0, NoFields, "", Step, k);
  }

  /** A key other than the four fields, followed by a value, is rejected. */
  lemma UnknownKeyRejected(a: seq<RESP>, k: nat, key: string)
    requires k + 1 < |a| && k % 2 == 0 && a[k] == Bulk(key) && !IsKey(key)
    ensures Decode(Arr(a)).Err?
  {
    RejectedPairRejected(a, 0, NoFields, "", Step, k, key, a[k + 1]);
  }

  /** A value of the wrong kind is rejected, wherever it appears. */
  lemma WrongKindRejected(a: seq<RESP>, k: nat, key: string)
    requires k + 1 < |a| && k % 2 == 0 && a[k] == Bulk(key) && IsKey(key)
    requires if key == "candidateId" then !a[k + 1].Bulk? else !a[k + 1].Int?
    ensures Decode(Arr(a)).Err?
  {
    RejectedPairRejected(a, 0, NoFields, "", Step, k, key, a[k + 1]);
  }

  /**
   * A field given twice is rejected, unless its first value was the
   * integer `MinInt`, which the decoder cannot tell from "not seen".
   */
  lemma DuplicateRejected(a: seq<RESP>, key: string, j: nat, k: nat)
    requires IsKey(key) && j < k && k + 1 < |a| && j % 2 == 0 && k % 2 == 0
    requires a[j] == Bulk(key) && a[k] == Bulk(key) && a[j + 1] != Int(MinInt)
    ensures Decode(Arr(a)).Err?
  {
    DuplicateKeyRejected(a, 0, NoFields, "", Step, f => IsSet(f, key), key, a[j + 1], j, k);
  }

  /** A field whose key never appears is reported missing. */
  lemma MissingRejected(a: seq<RESP>, key: string)
    requires IsKey(key)
    requires forall j :: 0 <= j && j + 1 < |a| && j % 2 == 0 ==> a[j] != Bulk(key)
    ensures Decode(Arr(a)).Err?
  {
    AbsentKeyUnset(a, 0, NoFields, "", Step, f => IsSet(f, key), key);
  }

  /** A key left without a value at the end of the array is ignored. */
  lemma TrailingKeyDropped(a: seq<RESP>, key: string)
    requires |a| % 2 == 0
    ensures Decode(Arr(a + [Bulk(key)])) == Decode(Arr(a))
  {
    TrailingKeyIgnored(a, 0, NoFields, "", Step, key);
  }

  /** Sending the sentinel as the term makes the request undecodable: it reads as missing. */
  lemma SentinelTermMissing(m: RequestVoteReq)
    requires m.term == MinInt
    ensures Decode(Body(m)) == Err(Missing("term"))
  {
    WalkBody(m);
  }

  /** A leading `term` of `MinInt` does not count as given, so a second `term` is accepted. */
  lemma SentinelTermRepeatable(m: RequestVoteReq)
    requires Sendable(m)
    ensures Decode(Arr([Bulk("term"), Int(MinInt)] + Body(m).elems)) == Ok(m)
  {
    var p := [Bulk("term"), Int(MinInt)];
    WalkBody(m);
    WalkPair(p + Body(m).elems, 0, NoFields, "", Step);
    WalkShift(p, Body(m).elems, 0, NoFields, "term", Step);
    WalkBodyFromAnyKey(m, "term");
  }

  /** The body's walk does not depend on the key left over from before it. */
  lemma WalkBodyFromAnyKey(m: RequestVoteReq, lastKey: string)
    ensures Walk(Body(m).elems, 0, NoFields, lastKey, Step) == Walk(Body(m).elems, 0, NoFields, "", Step)
  {
  }
}
