/**
 * vraft.msg.AppendEntriesRPCReq: the leader's replication request. Its
 * body is a key/value array whose `entries` value is an array of log
 * entries, each itself a key/value array; binary payloads travel as
 * Base64 text, text payloads as the string they encode.
 */
module AppendEntriesReqCodec {
  import opened Wrappers
  import opened Resp
  import opened KeyValue
  import opened RaftLog
  import Utf8
  import Base64

  datatype AppendEntriesReq = AppendEntriesReq(leaderId: string, prevLogIndex: Int32, prevLogTerm: Int32,
                                               leaderCommit: Int32, entries: seq<Log>)

  // ---------------------------------------------------------------- one entry

  /** `parseEntry`'s locals; `MinInt` and `None` mean "not seen yet". */
  datatype EntryFields = EntryFields(term: Int32, index: Int32, binary: Int32, data: Option<string>)

  const NoEntryFields := EntryFields(MinInt, MinInt, MinInt, None)

  function EntryStep(f: EntryFields, key: string, v: RESP): Result<EntryFields, DecodeError>
  {
    match key
    case "term" =>
      if f.term != MinInt then Err(Duplicated("term"))
      else if !v.Int? then Err(WrongKind("term"))
      else Ok(f.(term := v.n))
    case "index" =>
      if f.index != MinInt then Err(Duplicated("index"))
      else if !v.Int? then Err(WrongKind("index"))
      else Ok(f.(index := v.n))
    case "binary" =>
      if f.binary != MinInt then Err(Duplicated("binary"))
      else if !v.Int? then Err(WrongKind("binary"))
      else Ok(f.(binary := v.n))
    case "data" =>
      if f.data.Some? then Err(Duplicated("data"))
      else if !v.Bulk? then Err(WrongKind("data"))
      else Ok(f.(data := Some(v.str)))
    case _ => Err(UnknownKey(key))
  }

  /** The checks after `parseEntry`'s loop and the choice between a text and a binary entry. */
  function EntryOf(f: EntryFields): (r: Result<Log, DecodeError>)
    ensures r.Ok? ==> r.value.term == f.term != MinInt && r.value.index == f.index != MinInt
    ensures r.Ok? ==> f.data.Some? && (f.binary == 0 || f.binary == 1) && (r.value.binary <==> f.binary == 1)
    ensures r.Ok? && f.binary == 0 ==> Utf8.Decode(r.value.data) == f.data.value
    ensures r.Ok? && f.binary == 1 ==> Base64.Decode(f.data.value) == Some(r.value.data)
  {
    if f.term == MinInt then Err(Missing("term"))
    else if f.index == MinInt then Err(Missing("index"))
    else if f.binary == MinInt then Err(Missing("binary"))
    else if f.data.None? then Err(Missing("data"))
    else if f.binary != 1 && f.binary != 0 then Err(InvalidFlag("binary", f.binary))
    else if f.binary == 0 then Ok(FromText(f.term, f.index, f.data.value))
    else match Base64.Decode(f.data.value)
      case None => Err(NotBase64)
      case Some(bytes) => Ok(FromBytes(f.term, f.index, bytes))
  }

  /** What `parseEntry` accepts and builds. */
  function DecodeEntry(entry: seq<RESP>): Result<Log, DecodeError>
  {
    match Walk(entry, 0, NoEntryFields, "", EntryStep)
    case Err(e) => Err(e)
    case Ok(f) => EntryOf(f)
  }

  /** `parseEntry`. */
  method ParseEntry(entry: seq<RESP>) returns (r: Result<Log, DecodeError>)
    ensures r == DecodeEntry(entry)
  {
    var index := 0;
    var lastKey := "";
    var term: Int32 := MinInt;
    var vIndex: Int32 := MinInt;
    var binary: Int32 := MinInt;
    var data: Option<string> := None;
    while index < |entry|
      invariant 0 <= index <= |entry|
      invariant Walk(entry, 0, NoEntryFields, "", EntryStep)
             == Walk(entry, index, EntryFields(term, vIndex, binary, data), lastKey, EntryStep)
    {
      var e := entry[index];
      if index % 2 == 0 {
        if !e.Bulk? {
          return Err(KeyNotString(index));
        }
        lastKey := e.str;
      } else {
        match lastKey
        case "term" =>
          if term != MinInt {
            return Err(Duplicated("term"));
          }
          if !e.Int? {
            return Err(WrongKind("term"));
          }
          term := e.n;
        case "index" =>
          if vIndex != MinInt {
            return Err(Duplicated("index"));
          }
          if !e.Int? {
            return Err(WrongKind("index"));
          }
          vIndex := e.n;
        case "binary" =>
          if binary != MinInt {
            return Err(Duplicated("binary"));
          }
          if !e.Int? {
            return Err(WrongKind("binary"));
          }
          binary := e.n;
        case "data" =>
          if data.Some? {
            return Err(Duplicated("data"));
          }
          if !e.Bulk? {
            return Err(WrongKind("data"));
          }
          data := Some(e.str);
        case _ =>
          return Err(UnknownKey(lastKey));
      }
      index := index + 1;
    }
    if term == MinInt {
      return Err(Missing("term"));
    }
    if vIndex == MinInt {
      return Err(Missing("index"));
    }
    if binary == MinInt {
      return Err(Missing("binary"));
    }
    if data.None? {
      return Err(Missing("data"));
    }
    if binary != 1 && binary != 0 {
      return Err(InvalidFlag("binary", binary));
    }
    if binary == 0 {
      return Ok(FromText(term, vIndex, data.value));
    }
    var bData := Base64.Decode(data.value);
    if bData.None? {
      return Err(NotBase64);
    }
    r := Ok(FromBytes(term, vIndex, bData.value));
  }

  // ---------------------------------------------------------------- the entry list

  /** `parseEntries` over the first `n` elements: each must be an array holding a valid entry. */
  function DecodeEntriesUpTo(es: seq<RESP>, n: nat): Result<seq<Log>, DecodeError>
    requires n <= |es|
  {
    if n == 0 then Ok([])
    else match DecodeEntriesUpTo(es, n - 1)
      case Err(e) => Err(e)
      case Ok(ls) =>
        if !es[n - 1].Arr? then Err(EntryNotArray(n - 1))
        else match DecodeEntry(es[n - 1].elems)
          case Err(e) => Err(e)
          case Ok(l) => Ok(ls + [l])
  }

  function DecodeEntries(es: seq<RESP>): Result<seq<Log>, DecodeError>
  {
    DecodeEntriesUpTo(es, |es|)
  }

  /** The first rejected element decides the outcome. */
  lemma {:induction false} EntriesErrorSticks(es: seq<RESP>, n: nat, m: nat)
    requires n <= m <= |es| && DecodeEntriesUpTo(es, n).Err?
    ensures DecodeEntriesUpTo(es, m) == DecodeEntriesUpTo(es, n)
    decreases m - n
  {
    if n < m {
      EntriesErrorSticks(es, n, m - 1);
    }
  }

  /** `parseEntries`. */
  method ParseEntries(es: seq<RESP>) returns (r: Result<seq<Log>, DecodeError>)
    ensures r == DecodeEntries(es)
  {
    var ls: seq<Log> := [];
    var index := 0;
    while index < |es|
      invariant 0 <= index <= |es|
      invariant DecodeEntriesUpTo(es, index) == Ok(ls)
    {
      var e := es[index];
      if !e.Arr? {
        EntriesErrorSticks(es, index + 1, |es|);
        return Err(EntryNotArray(index));
      }
      var l := ParseEntry(e.elems);
      if l.Err? {
        EntriesErrorSticks(es, index + 1, |es|);
        return Err(l.error);
      }
      ls := ls + [l.value];
      index := index + 1;
    }
    r := Ok(ls);
  }

  /** The entry list is accepted exactly when every element is an array holding a valid entry, and order is kept. */
  lemma {:induction false} EntriesInOrder(es: seq<RESP>, n: nat)
    requires n <= |es|
    ensures DecodeEntriesUpTo(es, n).Ok? <==> forall i :: 0 <= i < n ==> es[i].Arr? && DecodeEntry(es[i].elems).Ok?
    ensures DecodeEntriesUpTo(es, n).Ok? ==>
              |DecodeEntriesUpTo(es, n).value| == n &&
              forall i :: 0 <= i < n ==> DecodeEntry(es[i].elems) == Ok(DecodeEntriesUpTo(es, n).value[i])
  {
    if n > 0 {
      EntriesInOrder(es, n - 1);
    }
  }

  // ---------------------------------------------------------------- the request

  /** The decoding constructor's locals. */
  datatype Fields = Fields(leaderId: Option<string>, prevLogIndex: Int32, prevLogTerm: Int32,
                           leaderCommit: Int32, entries: Option<seq<Log>>)

  const NoFields := Fields(None, MinInt, MinInt, MinInt, None)

  predicate IsKey(key: string)
  {
    key == "leaderId" || key == "prevLogIndex" || key == "prevLogTerm" || key == "leaderCommit" || key == "entries"
  }

  /** Whether the local for `key` holds a value (an `int` local holding `MinInt` does not). */
  predicate IsSet(f: Fields, key: string)
  {
    match key
    case "leaderId" => f.leaderId.Some?
    case "prevLogIndex" => f.prevLogIndex != MinInt
    case "prevLogTerm" => f.prevLogTerm != MinInt
    case "leaderCommit" => f.leaderCommit != MinInt
    case "entries" => f.entries.Some?
    case _ => false
  }

  function Step(f: Fields, key: string, v: RESP): (r: Result<Fields, DecodeError>)
    ensures r.Ok? ==> IsKey(key) && !IsSet(f, key)
  {
    match key
    case "leaderId" =>
      if f.leaderId.Some? then Err(Duplicated("leaderId"))
      else if !v.Bulk? then Err(WrongKind("leaderId"))
      else Ok(f.(leaderId := Some(v.str)))
    case "prevLogIndex" =>
      if f.prevLogIndex != MinInt then Err(Duplicated("prevLogIndex"))
      else if !v.Int? then Err(WrongKind("prevLogIndex"))
      else Ok(f.(prevLogIndex := v.n))
    case "prevLogTerm" =>
      if f.prevLogTerm != MinInt then Err(Duplicated("prevLogTerm"))
      else if !v.Int? then Err(WrongKind("prevLogTerm"))
      else Ok(f.(prevLogTerm := v.n))
    case "leaderCommit" =>
      if f.leaderCommit != MinInt then Err(Duplicated("leaderCommit"))
      else if !v.Int? then Err(WrongKind("leaderCommit"))
      else Ok(f.(leaderCommit := v.n))
    case "entries" =>
      if f.entries.Some? then Err(Duplicated("entries"))
      else if !v.Arr? then Err(WrongKind("entries"))
      else (match DecodeEntries(v.elems)
        case Err(e) => Err(e)
        case Ok(ls) => Ok(f.(entries := Some(ls))))
    case _ => Err(UnknownKey(key))
  }

  /** The checks after the loop: the first missing field, in declaration order, is reported. */
  function Finish(f: Fields): (r: Result<AppendEntriesReq, DecodeError>)
    ensures r.Ok? <==> IsSet(f, "leaderId") && IsSet(f, "prevLogIndex") && IsSet(f, "prevLogTerm") &&
                       IsSet(f, "leaderCommit") && IsSet(f, "entries")
    ensures r.Ok? ==> f == Fields(Some(r.value.leaderId), r.value.prevLogIndex, r.value.prevLogTerm,
                                  r.value.leaderCommit, Some(r.value.entries))
  {
    if f.leaderId.None? then Err(Missing("leaderId"))
    else if f.prevLogIndex == MinInt then Err(Missing("prevLogIndex"))
    else if f.prevLogTerm == MinInt then Err(Missing("prevLogTerm"))
    else if f.leaderCommit == MinInt then Err(Missing("leaderCommit"))
    else if f.entries.None? then Err(Missing("entries"))
    else Ok(AppendEntriesReq(f.leaderId.value, f.prevLogIndex, f.prevLogTerm, f.leaderCommit, f.entries.value))
  }

  /** What the decoding constructor accepts and builds. */
  function Decode(data: RESP): Result<AppendEntriesReq, DecodeError>
  {
    if !data.Arr? then Err(NotArray)
    else match Walk(data.elems, 0, NoFields, "", Step)
      case Err(e) => Err(e)
      case Ok(f) => Finish(f)
  }

  /** The decoding constructor `AppendEntriesRPCReq(RESP data)`. */
  method FromResp(data: RESP) returns (r: Result<AppendEntriesReq, DecodeError>)
    ensures r == Decode(data)
  {
    if !data.Arr? {
      return Err(NotArray);
    }
    var msg := data.elems;
    var index := 0;
    var lastKey := "";
    var leaderId: Option<string> := None;
    var prevLogIndex: Int32 := MinInt;
    var prevLogTerm: Int32 := MinInt;
    var leaderCommit: Int32 := MinInt;
    var entries: Option<seq<Log>> := None;
    while index < |msg|
      invariant 0 <= index <= |msg|
      invariant Walk(msg, 0, NoFields, "", Step)
             == Walk(msg, index, Fields(leaderId, prevLogIndex, prevLogTerm, leaderCommit, entries), lastKey, Step)
    {
      var e := msg[index];
      if index % 2 == 0 {
        if !e.Bulk? {
          return Err(KeyNotString(index));
        }
        lastKey := e.str;
      } else {
        match lastKey
        case "leaderId" =>
          if leaderId.Some? {
            return Err(Duplicated("leaderId"));
          }
          if !e.Bulk? {
            return Err(WrongKind("leaderId"));
          }
          leaderId := Some(e.str);
        case "prevLogIndex" =>
          if prevLogIndex != MinInt {
            return Err(Duplicated("prevLogIndex"));
          }
          if !e.Int? {
            return Err(WrongKind("prevLogIndex"));
          }
          prevLogIndex := e.n;
        case "prevLogTerm" =>
          if prevLogTerm != MinInt {
            return Err(Duplicated("prevLogTerm"));
          }
          if !e.Int? {
            return Err(WrongKind("prevLogTerm"));
          }
          prevLogTerm := e.n;
        case "leaderCommit" =>
          if leaderCommit != MinInt {
            return Err(Duplicated("leaderCommit"));
          }
          if !e.Int? {
            return Err(WrongKind("leaderCommit"));
          }
          leaderCommit := e.n;
        case "entries" =>
          if entries.Some? {
            return Err(Duplicated("entries"));
          }
          if !e.Arr? {
            return Err(WrongKind("entries"));
          }
          var parsed := ParseEntries(e.elems);
          if parsed.Err? {
            return Err(parsed.error);
          }
          entries := Some(parsed.value);
        case _ =>
          return Err(UnknownKey(lastKey));
      }
      index := index + 1;
    }
    if leaderId.None? {
      return Err(Missing("leaderId"));
    }
    if prevLogIndex == MinInt {
      return Err(Missing("prevLogIndex"));
    }
    if prevLogTerm == MinInt {
      return Err(Missing("prevLogTerm"));
    }
    if leaderCommit == MinInt {
      return Err(Missing("leaderCommit"));
    }
    if entries.None? {
      return Err(Missing("entries"));
    }
    r := Ok(AppendEntriesReq(leaderId.value, prevLogIndex, prevLogTerm, leaderCommit, entries.value));
  }

  // ---------------------------------------------------------------- serialization

  /** One element of `serialize()`'s entry list. */
  function EncodeEntry(l: Log): RESP
  {
    Arr([Bulk("term"), Int(l.term), Bulk("index"), Int(l.index), Bulk("binary"), Int(if l.binary then 1 else 0),
         Bulk("data"), Bulk(if l.binary then Base64.Encode(l.data) else Utf8.Decode(l.data))])
  }

  function EncodeEntries(ls: seq<Log>): seq<RESP>
  {
    seq(|ls|, i requires 0 <= i < |ls| => EncodeEntry(ls[i]))
  }

  /** The `msg` part of `serialize()`. */
  function Body(m: AppendEntriesReq): RESP
  {
    Arr([Bulk("leaderId"), Bulk(m.leaderId), Bulk("prevLogIndex"), Int(m.prevLogIndex),
         Bulk("prevLogTerm"), Int(m.prevLogTerm), Bulk("leaderCommit"), Int(m.leaderCommit),
         Bulk("entries"), Arr(EncodeEntries(m.entries))])
  }

  /** An entry the decoder gives back unchanged: no sentinel, and a text entry's bytes are text. */
  predicate SendableEntry(l: Log)
  {
    l.term != MinInt && l.index != MinInt && WellFormed(l)
  }

  /** A request the decoder gives back unchanged. */
  predicate Sendable(m: AppendEntriesReq)
  {
    m.prevLogIndex != MinInt && m.prevLogTerm != MinInt && m.leaderCommit != MinInt &&
    forall i :: 0 <= i < |m.entries| ==> SendableEntry(m.entries[i])
  }

  /** The wire form: the envelope tagged "AppendEntriesReq"; every sendable request decodes back from its body. */
  function Encode(m: AppendEntriesReq): (r: RESP)
    ensures r.Arr? && |r.elems| == 4 && r.elems[..3] == [Bulk("type"), Bulk("AppendEntriesReq"), Bulk("msg")]
    ensures Sendable(m) ==> Decode(r.elems[3]) == Ok(m)
  {
    if Sendable(m) then RoundTrip(m); Envelope("AppendEntriesReq", Body(m))
    else Envelope("AppendEntriesReq", Body(m))
  }

  /** `serialize()`: builds the entry list one log at a time, then the envelope. */
  method Serialize(m: AppendEntriesReq) returns (r: RESP)
    ensures r == Encode(m)
  {
    var entries: seq<RESP> := [];
    for i := 0 to |m.entries|
      invariant |entries| == i
      invariant forall k :: 0 <= k < i ==> entries[k] == EncodeEntry(m.entries[k])
    {
      var log := m.entries[i];
      entries := entries + [EncodeEntry(log)];
    }
    assert entries == EncodeEntries(m.entries);
    r := Arr([Bulk("type"), Bulk("AppendEntriesReq"), Bulk("msg"),
              Arr([Bulk("leaderId"), Bulk(m.leaderId), Bulk("prevLogIndex"), Int(m.prevLogIndex),
                   Bulk("prevLogTerm"), Int(m.prevLogTerm), Bulk("leaderCommit"), Int(m.leaderCommit),
                   Bulk("entries"), Arr(entries)])]);
  }

  /** `equals`: the scalar fields and the entry lists (element-wise `Log.equals`) agree. */
  function Equals(a: AppendEntriesReq, b: AppendEntriesReq): (r: bool)
    ensures r <==> a == b
  {
    a.prevLogIndex == b.prevLogIndex && a.prevLogTerm == b.prevLogTerm && a.leaderCommit == b.leaderCommit &&
    a.leaderId == b.leaderId &&
    |a.entries| == |b.entries| && (forall i :: 0 <= i < |a.entries| ==> RaftLog.Equals(a.entries[i], b.entries[i]))
  }

  // ---------------------------------------------------------------- properties

  /** Every sendable entry decodes back from its encoding, text or binary. */
  lemma EntryRoundTrip(l: Log)
    requires SendableEntry(l)
    ensures DecodeEntry(EncodeEntry(l).elems) == Ok(l)
  {
    var a := EncodeEntry(l).elems;
    var f1 := NoEntryFields.(term := l.term);
    var f2 := f1.(index := l.index);
    var f3 := f2.(binary := if l.binary then 1 else 0);
    WalkPair(a, 0, NoEntryFields, "", EntryStep);
    WalkPair(a, 2, f1, "term", EntryStep);
    WalkPair(a, 4, f2, "index", EntryStep);
    WalkPair(a, 6, f3, "binary", EntryStep);
    if l.binary {
      Base64.DecodeEncode(l.data);
    }
  }

  /** The encoded entry list decodes back, prefix by prefix. */
  lemma {:induction false} EntriesRoundTrip(ls: seq<Log>, n: nat)
    requires n <= |ls| && forall i :: 0 <= i < |ls| ==> SendableEntry(ls[i])
    ensures DecodeEntriesUpTo(EncodeEntries(ls), n) == Ok(ls[..n])
  {
    if n > 0 {
      EntriesRoundTrip(ls, n - 1);
      EntryRoundTrip(ls[n - 1]);
      assert ls[..n] == ls[..n - 1] + [ls[n - 1]];
    }
  }

  /** The encoded entry list is accepted as the `entries` value by a decoder that has not seen one yet. */
  lemma EntriesStep(f: Fields, ls: seq<Log>)
    requires f.entries.None? && forall i :: 0 <= i < |ls| ==> SendableEntry(ls[i])
    ensures Step(f, "entries", Arr(EncodeEntries(ls))) == Ok(f.(entries := Some(ls)))
  {
    EntriesRoundTrip(ls, |ls|);
    assert ls[..|ls|] == ls;
  }

  /** The last three pairs of the serializer's body: `prevLogTerm`, `leaderCommit`, then the entry list. */
  lemma WalkBodyTail(m: AppendEntriesReq, f: Fields)
    requires forall i :: 0 <= i < |m.entries| ==> SendableEntry(m.entries[i])
    requires f.prevLogTerm == MinInt && f.leaderCommit == MinInt && f.entries.None?
    ensures Walk(Body(m).elems, 4, f, "prevLogIndex", Step)
         == Ok(f.(prevLogTerm := m.prevLogTerm, leaderCommit := m.leaderCommit, entries := Some(m.entries)))
  {
    var a := Body(m).elems;
    var f3 := f.(prevLogTerm := m.prevLogTerm);
    var f4 := f3.(leaderCommit := m.leaderCommit);
    WalkBodyEntries(m, f4, "leaderCommit");
    WalkPair(a, 6, f3, "prevLogTerm", Step);
    WalkPair(a, 4, f, "prevLogIndex", Step);
  }

  /** The last pair of the serializer's body: the entry list. */
  lemma WalkBodyEntries(m: AppendEntriesReq, f: Fields, lastKey: string)
    requires forall i :: 0 <= i < |m.entries| ==> SendableEntry(m.entries[i])
    requires f.entries.None?
    ensures Walk(Body(m).elems, 8, f, lastKey, Step) == Ok(f.(entries := Some(m.entries)))
  {
    var a := Body(m).elems;
    var f5 := f.(entries := Some(m.entries));
    assert Walk(a, 10, f5, "entries", Step) == Ok(f5);
    EntriesStep(f, m.entries);
    WalkPair(a, 8, f, lastKey, Step);
  }

  /** The serializer's body walks to locals holding exactly the request's fields. */
  lemma WalkBody(m: AppendEntriesReq)
    requires forall i :: 0 <= i < |m.entries| ==> SendableEntry(m.entries[i])
    ensures Walk(Body(m).elems, 0, NoFields, "", Step)
         == Ok(Fields(Some(m.leaderId), m.prevLogIndex, m.prevLogTerm, m.leaderCommit, Some(m.entries)))
  {
    var a := Body(m).elems;
    var f1 := NoFields.(leaderId := Some(m.leaderId));
    var f2 := f1.(prevLogIndex := m.prevLogIndex);
    WalkBodyTail(m, f2);
    WalkPair(a, 2, f1, "leaderId", Step);
    WalkPair(a, 0, NoFields, "", Step);
  }

  /** Round trip: decoding the serialized body gives back every sendable request. */
  lemma RoundTrip(m: AppendEntriesReq)
    requires Sendable(m)
    ensures Decode(Body(m)) == Ok(m)
  {
    WalkBody(m);
  }

  /** Sending the sentinel as `prevLogIndex` makes the request undecodable: it reads as missing. */
  lemma SentinelIndexMissing(m: AppendEntriesReq)
    requires forall i :: 0 <= i < |m.entries| ==> SendableEntry(m.entries[i])
    requires m.prevLogIndex == MinInt
    ensures Decode(Body(m)) == Err(Missing("prevLogIndex"))
  {
    WalkBody(m);
  }

  /** A leading `prevLogIndex` of `MinInt` does not count as given, so a second `prevLogIndex` is accepted. */
  lemma SentinelIndexRepeatable(m: AppendEntriesReq)
    requires Sendable(m)
    ensures Decode(Arr([Bulk("prevLogIndex"), Int(MinInt)] + Body(m).elems)) == Ok(m)
  {
    var p := [Bulk("prevLogIndex"), Int(MinInt)];
    var a := Body(m).elems;
    WalkBody(m);
    assert Step(NoFields, "prevLogIndex", Int(MinInt)) == Ok(NoFields);
    WalkPair(p + a, 0, NoFields, "", Step);
    WalkPair(a, 0, NoFields, "prevLogIndex", Step);
    WalkPair(a, 0, NoFields, "", Step);
    WalkShift(p, a, 0, NoFields, "prevLogIndex", Step);
  }

  // The three lemmas below are stated for the canonical layout that `serialize` writes
  // (term, index, binary, data, in that order); for any other order or layout the same
  // checks follow from the ensures of `EntryOf`, which sees only the collected fields.

  /** An entry whose `binary` is neither 0 nor 1 is rejected once all four fields are present. */
  lemma BinaryFlagMustBeBit(t: Int32, i: Int32, x: Int32, s: string)
    requires t != MinInt && i != MinInt && x != MinInt && x != 0 && x != 1
    ensures DecodeEntry([Bulk("term"), Int(t), Bulk("index"), Int(i), Bulk("binary"), Int(x), Bulk("data"), Bulk(s)])
         == Err(InvalidFlag("binary", x))
  {
    WalkEntry(t, i, x, s);
  }

  /** A binary entry whose data is not Base64 is rejected; a valid one carries the decoded bytes. */
  lemma BinaryDataIsBase64(t: Int32, i: Int32, s: string)
    requires t != MinInt && i != MinInt
    ensures Base64.Decode(s).None? ==>
      DecodeEntry([Bulk("term"), Int(t), Bulk("index"), Int(i), Bulk("binary"), Int(1), Bulk("data"), Bulk(s)])
        == Err(NotBase64)
    ensures Base64.Decode(s).Some? ==>
      DecodeEntry([Bulk("term"), Int(t), Bulk("index"), Int(i), Bulk("binary"), Int(1), Bulk("data"), Bulk(s)])
        == Ok(FromBytes(t, i, Base64.Decode(s).value))
  {
    WalkEntry(t, i, 1, s);
  }

  /** A text entry carries the bytes of its string. */
  lemma TextDataIsString(t: Int32, i: Int32, s: string)
    requires t != MinInt && i != MinInt
    ensures DecodeEntry([Bulk("term"), Int(t), Bulk("index"), Int(i), Bulk("binary"), Int(0), Bulk("data"), Bulk(s)])
         == Ok(FromText(t, i, s))
  {
    WalkEntry(t, i, 0, s);
  }

  lemma WalkEntry(t: Int32, i: Int32, x: Int32, s: string)
    ensures Walk([Bulk("term"), Int(t), Bulk("index"), Int(i), Bulk("binary"), Int(x), Bulk("data"), Bulk(s)],
                 0, NoEntryFields, "", EntryStep)
         == Ok(EntryFields(t, i, x, Some(s)))
  {
    var a := [Bulk("term"), Int(t), Bulk("index"), Int(i), Bulk("binary"), Int(x), Bulk("data"), Bulk(s)];
    var f1 := NoEntryFields.(term := t);
    var f2 := f1.(index := i);
    WalkPair(a, 0, NoEntryFields, "", EntryStep);
    WalkPair(a, 2, f1, "term", EntryStep);
    WalkPair(a, 4, f2, "index", EntryStep);
    WalkPair(a, 6, f2.(binary := x), "binary", EntryStep);
  }

  /** A key position holding anything but a bulk string is rejected. */
  lemma KeyMustBeString(a: seq<RESP>, k: nat)
    requires k < |a| && k % 2 == 0 && !a[k].Bulk?
    ensures Decode(Arr(a)).Err?
  {
    NonStringKeyRejected(a, 0, NoFields, "", Step, k);
  }

  /** A key other than the five fields, followed by a value, is rejected. */
  lemma UnknownKeyRejected(a: seq<RESP>, k: nat, key: string)
    requires k + 1 < |a| && k % 2 == 0 && a[k] == Bulk(key) && !IsKey(key)
    ensures Decode(Arr(a)).Err?
  {
    RejectedPairRejected(a, 0, NoFields, "", Step, k, key, a[k + 1]);
  }

  /** An `entries` value holding a rejected entry rejects the whole request. */
  lemma BadEntryRejected(a: seq<RESP>, k: nat)
    requires k + 1 < |a| && k % 2 == 0 && a[k] == Bulk("entries") && a[k + 1].Arr? && DecodeEntries(a[k + 1].elems).Err?
    ensures Decode(Arr(a)).Err?
  {
    RejectedPairRejected(a, 0, NoFields, "", Step, k, "entries", a[k + 1]);
  }

  /** A field given twice is rejected, unless its first value was the integer `MinInt`. */
  lemma DuplicateRejected(a: seq<RESP>, key: string, j: nat, k: nat)
    requires IsKey(key) && j < k && k + 1 < |a| && j % 2 == 0 && k % 2 == 0
    requires a[j] == Bulk(key) && a[k] == Bulk(key) && a[j + 1] != Int(MinInt)
    ensures Decode(Arr(a)).Err?
  {
    DuplicateKeyRejected(a, 0, NoFields, "", Step, f => IsSet(f, key), key, a[j + 1], j, k);
  }

  /** A field whose key never appears is reported missing. */
  lemma MissingRejected(a: seq<RESP>, key: string)
    requires IsKey(key)
    requires forall j :: 0 <= j && j + 1 < |a| && j % 2 == 0 ==> a[j] != Bulk(key)
    ensures Decode(Arr(a)).Err?
  {
    AbsentKeyUnset(a, 0, NoFields, "", Step, f => IsSet(f, key), key);
  }

  /** A key left without a value at the end of the array is ignored. */
  lemma TrailingKeyDropped(a: seq<RESP>, key: string)
    requires |a| % 2 == 0
    ensures Decode(Arr(a + [Bulk(key)])) == Decode(Arr(a))
  {
    TrailingKeyIgnored(a, 0, NoFields, "", Step, key);
  }

  /** A known key whose value has the wrong kind is rejected: `leaderId` wants a string, `entries` an array, the rest integers. */
  lemma WrongKindRejected(a: seq<RESP>, k: nat, key: string)
    requires k + 1 < |a| && k % 2 == 0 && a[k] == Bulk(key) && IsKey(key)
    requires if key == "leaderId" then !a[k + 1].Bulk? else if key == "entries" then !a[k + 1].Arr? else !a[k + 1].Int?
    ensures Decode(Arr(a)).Err?
  {
    RejectedPairRejected(a, 0, NoFields, "", Step, k, key, a[k + 1]);
  }

  // -------------------------------------------------- one entry, any layout

  /** The four keys `parseEntry` knows. */
  predicate IsEntryKey(key: string)
  {
    key == "term" || key == "index" || key == "binary" || key == "data"
  }

  /** Whether `key`'s local in `parseEntry` has left its "not seen yet" value. */
  predicate EntryIsSet(f: EntryFields, key: string)
  {
    match key
    case "term" => f.term != MinInt
    case "index" => f.index != MinInt
    case "binary" => f.binary != MinInt
    case "data" => f.data.Some?
    case _ => false
  }

  /** In an entry, a key position holding anything but a bulk string is rejected. */
  lemma EntryKeyMustBeString(entry: seq<RESP>, k: nat)
    requires k < |entry| && k % 2 == 0 && !entry[k].Bulk?
    ensures DecodeEntry(entry).Err?
  {
    NonStringKeyRejected(entry, 0, NoEntryFields, "", EntryStep, k);
  }

  /** In an entry, a key other than the four, followed by a value, is rejected. */
  lemma EntryUnknownKeyRejected(entry: seq<RESP>, k: nat, key: string)
    requires k + 1 < |entry| && k % 2 == 0 && entry[k] == Bulk(key) && !IsEntryKey(key)
    ensures DecodeEntry(entry).Err?
  {
    RejectedPairRejected(entry, 0, NoEntryFields, "", EntryStep, k, key, entry[k + 1]);
  }

  /** In an entry, `data` must be a string and `term`, `index` and `binary` integers. */
  lemma EntryWrongKindRejected(entry: seq<RESP>, k: nat, key: string)
    requires k + 1 < |entry| && k % 2 == 0 && entry[k] == Bulk(key) && IsEntryKey(key)
    requires if key == "data" then !entry[k + 1].Bulk? else !entry[k + 1].Int?
    ensures DecodeEntry(entry).Err?
  {
    RejectedPairRejected(entry, 0, NoEntryFields, "", EntryStep, k, key, entry[k + 1]);
  }

  /** In an entry, a key given twice is rejected, unless its first value was the integer `MinInt`. */
  lemma EntryDuplicateRejected(entry: seq<RESP>, key: string, j: nat, k: nat)
    requires IsEntryKey(key) && j < k && k + 1 < |entry| && j % 2 == 0 && k % 2 == 0
    requires entry[j] == Bulk(key) && entry[k] == Bulk(key) && entry[j + 1] != Int(MinInt)
    ensures DecodeEntry(entry).Err?
  {
    DuplicateKeyRejected(entry, 0, NoEntryFields, "", EntryStep, f => EntryIsSet(f, key), key, entry[j + 1], j, k);
  }
}
