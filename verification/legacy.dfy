/**
 * The older copies of the Raft messages in package `vraft`: serializers
 * that produce the same layout as the `vraft.msg` ones, two positional
 * decoders, the three `Log` constructors and `ServerRef`.
 */
module LegacyRaft {
  import opened Wrappers
  import opened Resp
  import opened KeyValue
  import opened RaftLog
  import Utf8
  import Base64
  import JavaHash
  import AEReq = AppendEntriesReqCodec
  import AEResp = AppendEntriesRespCodec
  import RVReq = RequestVoteReqCodec
  import RVResp = RequestVoteRespCodec

  // ---------------------------------------------------------------- vraft.Log

  /** `new Log(term, index, ByteArray data)`. */
  function BinaryLog(term: Int32, index: Int32, data: seq<Utf8.byte>): (l: Log)
    ensures l.binary && l.term == term && l.index == index && l.data == data
  {
    FromBytes(term, index, data)
  }

  /** `new Log(term, index, String data)`: the bytes are the string's, decoding back to it. */
  function TextLog(term: Int32, index: Int32, text: string): (l: Log)
    ensures !l.binary && l.term == term && l.index == index && Utf8.Decode(l.data) == text
  {
    FromText(term, index, text)
  }

  /** `new Log(term, index, binary, data)`: stores all four verbatim, so it can build a text entry whose bytes are not text. */
  function LogOf(term: Int32, index: Int32, binary: bool, data: seq<Utf8.byte>): (l: Log)
    ensures l.term == term && l.index == index && l.binary == binary && l.data == data
  {
    Log(term, index, binary, data)
  }

  /** The four-argument constructor subsumes the other two. */
  lemma LogConstructorsAgree(term: Int32, index: Int32, data: seq<Utf8.byte>, text: string)
    ensures BinaryLog(term, index, data) == LogOf(term, index, true, data)
    ensures TextLog(term, index, text) == LogOf(term, index, false, Utf8.Encode(text))
  {
  }

  // ---------------------------------------------------------------- serializers

  /** vraft.AppendEntriesRPCReq.serialize: the entry list built in a loop, then the envelope. */
  method SerializeAppendEntriesReq(m: AEReq.AppendEntriesReq) returns (r: RESP)
    ensures r == AEReq.Encode(m)
    ensures AEReq.Sendable(m) ==> AEReq.Decode(r.elems[3]) == Ok(m)
  {
    var entries: seq<RESP> := [];
    for i := 0 to |m.entries|
      invariant |entries| == i
      invariant forall k :: 0 <= k < i ==> entries[k] == AEReq.EncodeEntry(m.entries[k])
    {
      var log := m.entries[i];
      var data := if log.binary then Base64.Encode(log.data) else Utf8.Decode(log.data);
      entries := entries + [Arr([Bulk("term"), Int(log.term), Bulk("index"), Int(log.index),
                                 Bulk("binary"), Int(if log.binary then 1 else 0), Bulk("data"), Bulk(data)])];
    }
    assert entries == AEReq.EncodeEntries(m.entries);
    r := Arr([Bulk("type"), Bulk("AppendEntriesReq"), Bulk("msg"),
              Arr([Bulk("leaderId"), Bulk(m.leaderId), Bulk("prevLogIndex"), Int(m.prevLogIndex),
                   Bulk("prevLogTerm"), Int(m.prevLogTerm), Bulk("leaderCommit"), Int(m.leaderCommit),
                   Bulk("entries"), Arr(entries)])]);
  }

  /** vraft.RequestVoteRPCReq.serialize: the same layout as the current request, so its decoder accepts the body. */
  function SerializeRequestVoteReq(m: RVReq.RequestVoteReq): (r: RESP)
    ensures r == RVReq.Serialize(m)
    ensures RVReq.Sendable(m) ==> RVReq.Decode(r.elems[3]) == Ok(m)
  {
    Arr([Bulk("type"), Bulk("RequestVoteReq"), Bulk("msg"),
         Arr([Bulk("term"), Int(m.term), Bulk("candidateId"), Bulk(m.candidateId),
              Bulk("lastLogIndex"), Int(m.lastLogIndex), Bulk("lastLogTerm"), Int(m.lastLogTerm)])])
  }

  /** vraft.AppendEntriesRPCResp.serialize: the same layout as the current reply, success as 1 or 0. */
  function SerializeAppendEntriesResp(m: AEResp.AppendEntriesResp): (r: RESP)
    ensures r == AEResp.Serialize(m)
    ensures m.term != MinInt ==> AEResp.Decode(r.elems[3]) == Ok(m)
  {
    Arr([Bulk("type"), Bulk("AppendEntriesResp"), Bulk("msg"),
         Arr([Bulk("term"), Int(m.term), Bulk("success"), Int(if m.success then 1 else 0)])])
  }

  /** vraft.RequestVoteRPCResp.serialize: the same layout as the current reply, voteGranted as 1 or 0. */
  function SerializeRequestVoteResp(m: RVResp.RequestVoteResp): (r: RESP)
    ensures r == RVResp.Serialize(m)
    ensures m.term != MinInt ==> RVResp.Decode(r.elems[3]) == Ok(m)
  {
    Arr([Bulk("type"), Bulk("RequestVoteResp"), Bulk("msg"),
         Arr([Bulk("term"), Int(m.term), Bulk("voteGranted"), Int(if m.voteGranted then 1 else 0)])])
  }

  // ---------------------------------------------------------------- vraft.RequestVoteRPCResp(RESP)

  /**
   * The positional decoder as written: exactly four elements, "type", an
   * integer term, "voteGranted", then 0 or 1.
   */
  function DecodeRequestVoteResp(msg: RESP): (r: Result<RVResp.RequestVoteResp, DecodeError>)
    ensures r.Ok? <==> msg.Arr? && |msg.elems| == 4 && msg.elems[0] == Bulk("type") && msg.elems[1].Int? &&
                       msg.elems[2] == Bulk("voteGranted") && msg.elems[3] in {Int(0), Int(1)}
    ensures r.Ok? ==> r.value.term == msg.elems[1].n && (r.value.voteGranted <==> msg.elems[3] == Int(1))
  {
    if !msg.Arr? then Err(NotArray)
    else if |msg.elems| != 4 then Err(WrongLength)
    else if msg.elems[0] != Bulk("type") then Err(WrongElement(0))
    else if !msg.elems[1].Int? then Err(WrongElement(1))
    else if msg.elems[2] != Bulk("voteGranted") then Err(WrongElement(2))
    else if !msg.elems[3].Int? then Err(WrongElement(3))
    else if msg.elems[3].n != 0 && msg.elems[3].n != 1 then Err(InvalidFlag("voteGranted", msg.elems[3].n))
    else Ok(RVResp.RequestVoteResp(msg.elems[1].n, msg.elems[3].n == 1))
  }

  /** The decoder rejects the whole message its own class serializes: position 1 holds the type tag, a string. */
  lemma RequestVoteRespRejectsOwnMessage(m: RVResp.RequestVoteResp)
    ensures DecodeRequestVoteResp(SerializeRequestVoteResp(m)) == Err(WrongElement(1))
  {
  }

  /** It also rejects the body alone: position 0 holds "term", not "type". */
  lemma RequestVoteRespRejectsOwnBody(m: RVResp.RequestVoteResp)
    ensures DecodeRequestVoteResp(SerializeRequestVoteResp(m).elems[3]) == Err(WrongElement(0))
  {
  }

  /** The decoder with "term" expected at position 0, matching the serializer's body. */
  function DecodeRequestVoteRespCorrected(msg: RESP): (r: Result<RVResp.RequestVoteResp, DecodeError>)
    ensures r.Ok? <==> msg.Arr? && |msg.elems| == 4 && msg.elems[0] == Bulk("term") && msg.elems[1].Int? &&
                       msg.elems[2] == Bulk("voteGranted") && msg.elems[3] in {Int(0), Int(1)}
    ensures r.Ok? ==> r.value.term == msg.elems[1].n && (r.value.voteGranted <==> msg.elems[3] == Int(1))
  {
    if !msg.Arr? then Err(NotArray)
    else if |msg.elems| != 4 then Err(WrongLength)
    else if msg.elems[0] != Bulk("term") then Err(WrongElement(0))
    else if !msg.elems[1].Int? then Err(WrongElement(1))
    else if msg.elems[2] != Bulk("voteGranted") then Err(WrongElement(2))
    else if !msg.elems[3].Int? then Err(WrongElement(3))
    else if msg.elems[3].n != 0 && msg.elems[3].n != 1 then Err(InvalidFlag("voteGranted", msg.elems[3].n))
    else Ok(RVResp.RequestVoteResp(msg.elems[1].n, msg.elems[3].n == 1))
  }

  /** The corrected decoder reads back every serialized reply, any term included. */
  lemma RequestVoteRespCorrectedRoundTrip(m: RVResp.RequestVoteResp)
    ensures DecodeRequestVoteRespCorrected(SerializeRequestVoteResp(m).elems[3]) == Ok(m)
  {
  }

  // ---------------------------------------------------------------- vraft.IdentityRPCReq

  datatype IdentityReq = IdentityReq(id: string)

  /** The positional decoder: exactly `["id", <bulk string>]`. */
  function DecodeIdentityReq(msg: RESP): (r: Result<IdentityReq, DecodeError>)
    ensures r.Ok? <==> msg.Arr? && |msg.elems| == 2 && msg.elems[0] == Bulk("id") && msg.elems[1].Bulk?
    ensures r.Ok? ==> r.value.id == msg.elems[1].str
  {
    if !msg.Arr? then Err(NotArray)
    else if |msg.elems| != 2 then Err(WrongLength)
    else if msg.elems[0] != Bulk("id") then Err(WrongElement(0))
    else if !msg.elems[1].Bulk? then Err(WrongElement(1))
    else Ok(IdentityReq(msg.elems[1].str))
  }

  /** `serialize()`: the envelope tagged "IdentityReq" around `["id", id]`. */
  function SerializeIdentityReq(m: IdentityReq): (r: RESP)
    ensures r.Arr? && |r.elems| == 4 && r.elems[..3] == [Bulk("type"), Bulk("IdentityReq"), Bulk("msg")]
  {
    Envelope("IdentityReq", Arr([Bulk("id"), Bulk(m.id)]))
  }

  /** The body round-trips; the whole envelope, of length 4, is rejected. */
  lemma IdentityReqRoundTrip(m: IdentityReq)
    ensures DecodeIdentityReq(SerializeIdentityReq(m).elems[3]) == Ok(m)
    ensures DecodeIdentityReq(SerializeIdentityReq(m)) == Err(WrongLength)
  {
  }

  // ---------------------------------------------------------------- vraft.ServerRef

  datatype ServerRef = ServerRef(isThisServer: bool, id: string)

  /** `equals`: both fields agree. */
  function ServerRefEquals(a: ServerRef, b: ServerRef): (r: bool)
    ensures r <==> a == b
  {
    a.isThisServer == b.isThisServer && a.id == b.id
  }

  /** `hashCode`: `Objects.hash(isThisServer, id)`. */
  function ServerRefHash(r: ServerRef): Int32
  {
    JavaHash.ObjectsHash([JavaHash.BooleanHash(r.isThisServer), JavaHash.StringHash(r.id)])
  }

  /** Equal refs hash equally, and two refs for the same id that differ in `isThisServer` never collide. */
  lemma ServerRefHashConsistent(a: ServerRef, b: ServerRef)
    ensures ServerRefEquals(a, b) ==> ServerRefHash(a) == ServerRefHash(b)
    ensures a.id == b.id && a.isThisServer != b.isThisServer ==> ServerRefHash(a) != ServerRefHash(b)
  {
    var s := JavaHash.StringHash(a.id) as int;
    var ha := JavaHash.BooleanHash(a.isThisServer) as int;
    var hb := JavaHash.BooleanHash(b.isThisServer) as int;
    PairHash(ha as Int32, s as Int32);
    PairHash(hb as Int32, s as Int32);
    if a.id == b.id && a.isThisServer != b.isThisServer {
      assert ServerRefHash(b) == JavaHash.Wrap(31 * (31 + hb) + s);
      JavaHash.WrapEqual(31 * (31 + ha) + s, 31 * (31 + hb) + s);
    }
  }

  /** `Objects.hash` of two small first hashes: no wrap-around in the first step. */
  lemma PairHash(h: Int32, s: Int32)
    requires 0 <= h < 0x1_0000
    ensures JavaHash.ObjectsHash([h, s]) == JavaHash.Wrap(31 * (31 + h as int) + s as int)
  {
    var l := [h, s];
    assert l[..1] == [h] && l[..1][..0] == [];
    JavaHash.WrapInRange(31 + h as int);
    assert JavaHash.ObjectsHash(l[..1]) == 31 + h as int;
  }
}
