/**
 * vraft.msg.RequestVoteRPCResp: the reply to RequestVoteRPCReq, its strict key/value decoder and
 * its serializer. The flag travels as the integer 1 or 0.
 */
module RequestVoteRespCodec {
  import opened Wrappers
  import opened Resp
  import opened KeyValue

  datatype RequestVoteResp = RequestVoteResp(term: Int32, voteGranted: bool)

  /** The decoder's locals; `MinInt` means "not seen yet". */
  datatype Fields = Fields(term: Int32, voteGranted: Int32)

  const NoFields := Fields(MinInt, MinInt)

  predicate IsKey(key: string)
  {
    key == "term" || key == "voteGranted"
  }

  /** Whether the local for `key` holds a value other than the sentinel. */
  predicate IsSet(f: Fields, key: string)
  {
    match key
    case "term" => f.term != MinInt
    case "voteGranted" => f.voteGranted != MinInt
    case _ => false
  }

  /** One value of the switch: duplicate check first, then the value's kind. */
  function Step(f: Fields, key: string, v: RESP): (r: Result<Fields, DecodeError>)
    ensures r.Ok? ==> IsKey(key) && !IsSet(f, key)
  {
    match key
    case "term" =>
      if f.term != MinInt then Err(Duplicated("term"))
      else if !v.Int? then Err(WrongKind("term"))
      else Ok(f.(term := v.n))
    case "voteGranted" =>
      if f.voteGranted != MinInt then Err(Duplicated("voteGranted"))
      else if !v.Int? then Err(WrongKind("voteGranted"))
      else Ok(f.(voteGranted := v.n))
    case _ => Err(UnknownKey(key))
  }

  /** The checks after the loop: both fields present, then the flag is 0 or 1. */
  function Finish(f: Fields): (r: Result<RequestVoteResp, DecodeError>)
    ensures r.Ok? <==> f.term != MinInt && (f.voteGranted == 0 || f.voteGranted == 1)
    ensures r.Ok? ==> r.value.term == f.term && (r.value.voteGranted <==> f.voteGranted == 1)
    ensures f.term != MinInt && f.voteGranted != MinInt && f.voteGranted != 0 && f.voteGranted != 1 ==> r == Err(InvalidFlag("voteGranted", f.voteGranted))
  {
    if f.term == MinInt then Err(Missing("term"))
    else if f.voteGranted == MinInt then Err(Missing("voteGranted"))
    else if f.voteGranted != 1 && f.voteGranted != 0 then Err(InvalidFlag("voteGranted", f.voteGranted))
    else Ok(RequestVoteResp(f.term, f.voteGranted == 1))
  }

  /** What the decoding constructor accepts and builds. */
  function Decode(data: RESP): Result<RequestVoteResp, DecodeError>
  {
    if !data.Arr? then Err(NotArray)
    else match Walk(data.elems, 0, NoFields, "", Step)
      case Err(e) => Err(e)
      case Ok(f) => Finish(f)
  }

  /** The decoding constructor `RequestVoteRPCResp(RESP data)`. */
  method FromResp(data: RESP) returns (r: Result<RequestVoteResp, DecodeError>)
    ensures r == Decode(data)
  {
    if !data.Arr? {
      return Err(NotArray);
    }
    var msg := data.elems;
    var index := 0;
    var lastKey := "";
    var term: Int32 := MinInt;
    var voteGranted: Int32 := MinInt;
    while index < |msg|
      invariant 0 <= index <= |msg|
      invariant Walk(msg, 0, NoFields, "", Step) == Walk(msg, index, Fields(term, voteGranted), lastKey, Step)
    {
      var e := msg[index];
      if index % 2 == 0 {
        if !e.Bulk? {
          return Err(KeyNotString(index));
        }
        lastKey := e.str;
      } else {
        match lastKey
        case "term" =>
          if term != MinInt {
            return Err(Duplicated("term"));
          }
          if !e.Int? {
            return Err(WrongKind("term"));
          }
          term := e.n;
        case "voteGranted" =>
          if voteGranted != MinInt {
            return Err(Duplicated("voteGranted"));
          }
          if !e.Int? {
            return Err(WrongKind("voteGranted"));
          }
          voteGranted := e.n;
        case _ =>
          return Err(UnknownKey(lastKey));
      }
      index := index + 1;
    }
    if term == MinInt {
      return Err(Missing("term"));
    }
    if voteGranted == MinInt {
      return Err(Missing("voteGranted"));
    }
    if voteGranted != 1 && voteGranted != 0 {
      return Err(InvalidFlag("voteGranted", voteGranted));
    }
    r := Ok(RequestVoteResp(term, voteGranted == 1));
  }

  /** The `msg` part of `serialize()`. */
  function Body(m: RequestVoteResp): RESP
  {
    Arr([Bulk("term"), Int(m.term), Bulk("voteGranted"), Int(if m.voteGranted then 1 else 0)])
  }

  /** `serialize()`: the envelope tagged "RequestVoteResp". */
  function Serialize(m: RequestVoteResp): (r: RESP)
    ensures r.Arr? && |r.elems| == 4 && r.elems[..3] == [Bulk("type"), Bulk("RequestVoteResp"), Bulk("msg")]
    ensures m.term != MinInt ==> Decode(r.elems[3]) == Ok(m)
  {
    if m.term != MinInt then RoundTrip(m); Envelope("RequestVoteResp", Body(m))
    else Envelope("RequestVoteResp", Body(m))
  }

  /** `equals`: field-by-field comparison. */
  function Equals(a: RequestVoteResp, b: RequestVoteResp): (r: bool)
    ensures r <==> a == b
  {
    a.term == b.term && a.voteGranted == b.voteGranted
  }

  /** The serializer's body walks to locals holding the term and the flag as 1 or 0. */
  lemma WalkBody(m: RequestVoteResp)
    ensures Walk(Body(m).elems, 0, NoFields, "", Step) == Ok(Fields(m.term, if m.voteGranted then 1 else 0))
  {
    var a := Body(m).elems;
    WalkPair(a, 0, NoFields, "", Step);
    WalkPair(a, 2, NoFields.(term := m.term), "term", Step);
  }

  /** Round trip: decoding the serialized body gives back every reply whose term is not the sentinel. */
  lemma RoundTrip(m: RequestVoteResp)
    requires m.term != MinInt
    ensures Decode(Body(m)) == Ok(m)
  {
    WalkBody(m);
  }

  /** A term of `MinInt` reads as missing, so such a reply cannot be decoded. */
  lemma SentinelTermMissing(m: RequestVoteResp)
    requires m.term == MinInt
    ensures Decode(Body(m)) == Err(Missing("term"))
  {
    WalkBody(m);
  }

  /** Any flag value other than 0 and 1 (and the sentinel) is rejected after the missing checks. */
  lemma FlagMustBeBit(t: Int32, x: Int32)
    requires t != MinInt && x != MinInt && x != 0 && x != 1
    ensures Decode(Arr([Bulk("term"), Int(t), Bulk("voteGranted"), Int(x)])) == Err(InvalidFlag("voteGranted", x))
  {
    var a := [Bulk("term"), Int(t), Bulk("voteGranted"), Int(x)];
    WalkPair(a, 0, NoFields, "", Step);
    WalkPair(a, 2, NoFields.(term := t), "term", Step);
  }

  // The rejection lemmas below match those of `AppendEntriesRespCodec` member for member:
  // the two response classes share one decoding loop shape (an int `term`
  // and a 0/1 int flag), so they reject the same malformed bodies.

  /** A key position holding anything but a bulk string is rejected. */
  lemma KeyMustBeString(a: seq<RESP>, k: nat)
    requires k < |a| && k % 2 == 0 && !a[k].Bulk?
    ensures Decode(Arr(a)).Err?
  {
    NonStringKeyRejected(a, 0, NoFields, "", Step, k);
  }

  /** A key other than the two fields, followed by a value, is rejected. */
  lemma UnknownKeyRejected(a: seq<RESP>, k: nat, key: string)
    requires k + 1 < |a| && k % 2 == 0 && a[k] == Bulk(key) && !IsKey(key)
    ensures Decode(Arr(a)).Err?
  {
    RejectedPairRejected(a, 0, NoFields, "", Step, k, key, a[k + 1]);
  }

  /** A non-integer value for either field is rejected. */
  lemma WrongKindRejected(a: seq<RESP>, k: nat, key: string)
    requires k + 1 < |a| && k % 2 == 0 && a[k] == Bulk(key) && IsKey(key) && !a[k + 1].Int?
    ensures Decode(Arr(a)).Err?
  {
    RejectedPairRejected(a, 0, NoFields, "", Step, k, key, a[k + 1]);
  }

  /** A field given twice is rejected, unless its first value was the sentinel `MinInt`. */
  lemma DuplicateRejected(a: seq<RESP>, key: string, j: nat, k: nat)
    requires IsKey(key) && j < k && k + 1 < |a| && j % 2 == 0 && k % 2 == 0
    requires a[j] == Bulk(key) && a[k] == Bulk(key) && a[j + 1] != Int(MinInt)
    ensures Decode(Arr(a)).Err?
  {
    DuplicateKeyRejected(a, 0, NoFields, "", Step, f => IsSet(f, key), key, a[j + 1], j, k);
  }

  /** A field whose key never appears is reported missing. */
  lemma MissingRejected(a: seq<RESP>, key: string)
    requires IsKey(key)
    requires forall j :: 0 <= j && j + 1 < |a| && j % 2 == 0 ==> a[j] != Bulk(key)
    ensures Decode(Arr(a)).Err?
  {
    AbsentKeyUnset(a, 0, NoFields, "", Step, f => IsSet(f, key), key);
  }

  /** A key left without a value at the end of the array is ignored. */
  lemma TrailingKeyDropped(a: seq<RESP>, key: string)
    requires |a| % 2 == 0
    ensures Decode(Arr(a + [Bulk(key)])) == Decode(Arr(a))
  {
    TrailingKeyIgnored(a, 0, NoFields, "", Step, key);
  }
}
