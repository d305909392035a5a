# vraft messaging, peer transport and websocks5 configuration in Dafny

This project models three sequential parts of the vproxy code base and proves what they promise.

1. **The vraft message codec.** The four Raft RPCs are AppendEntries request and response, and RequestVote request and response.
   - Each is serialised as a RESP value tree `["type", <kind>, "msg", <flat key/value array>]`.
   - Each is decoded by a strict key/value parser that rejects non-string keys, unknown keys, duplicate keys, missing fields, wrong value kinds, booleans other than 0/1, and log payloads that are not Base64.
   - `Integer.MIN_VALUE` doubles as the "absent" marker; the model keeps this.
   - `RaftTransUtils.parse` validates the envelope and hands the decoded body to exactly one handler.
   - The legacy classes in the `vraft` package, `ServerRef`, and the Java hash arithmetic behind `hashCode` are modelled too.
2. **The peer transport.** This covers:
   - `RaftServer`: inbound connections per IP, newest wins;
   - `RaftClient`: the started/connected/conn life cycle;
   - `MessageControl`: pending and working clients per IP, and routing of outgoing messages;
   - `Conn`: the FIFO write queue and the at-most-once closed callback.

   Socket events (accept, connect, connect failure, close, data) are method calls. Every connection is a value `ConnRef(id, remote)`. Writes and closes are appended to ghost logs. The incremental RESP byte parser is a sequence of outcomes: a complete value, "need more", or a failure.
3. **Small application pieces.** These are:
   - the websocks5 line-oriented configuration parser, a state machine over `step` 0/1/2;
   - the suffix and port `DomainChecker`s;
   - the `EventLoopGroupHolder` alias registry.

Java `int` is the subtype `Int32` of `int`; hash codes wrap explicitly modulo 2^32. Text is modelled as UTF-8 bytes and Base64 as the basic alphabet of section 4 of RFC 4648 (the behaviour of `java.util.Base64`'s basic decoder: padding optional, trailing bits ignored). Each decoding constructor is a method with a loop, proved equal to a specification function; the properties are proved about that function.

Module layout:

| file | module |
|---|---|
| wrappers.dfy, resp.dfy | `Wrappers` (Option, Result), `Resp` (RESP tree, `Int32`, decode errors) |
| utf8.dfy, base64.dfy, java_hash.dfy | `Utf8`, `Base64`, `JavaHash` |
| keyvalue.dfy | `KeyValue`: the generic key/value walk every decoder shares |
| log.dfy, append_entries_req.dfy, append_entries_resp.dfy, request_vote_req.dfy, request_vote_resp.dfy | `RaftLog` and the four codecs |
| raft_message.dfy | `RaftMessages`, `RaftTransUtils` |
| legacy.dfy | `LegacyRaft` |
| transport.dfy, raft_server.dfy, raft_client.dfy, message_control.dfy, conn.dfy | `Transport`, `Server`, `Client`, `Control`, `NetConn` |
| config_processor.dfy, domain_checker.dfy, event_loop_group_holder.dfy | `ConfigProcessor`, `DomainChecker`, `EventLoopGroups` |

## Model

| member | source | states |
|---|---|---|
| RaftLog.FromBytes | base/src/main/java/vraft/msg/Log.java:14-19 | the byte-array constructor sets binary and keeps term, index and data unchanged |
| RaftLog.FromText | base/src/main/java/vraft/msg/Log.java:21-26 | the String constructor clears binary and stores bytes that are valid text and decode back to the string |
| RaftLog.ConstructorsWellFormed | base/src/main/java/vraft/msg/Log.java:14-26 | both constructors give well-formed logs; a text log never equals a binary log built from the same arguments |
| RaftLog.Equals | base/src/main/java/vraft/msg/Log.java:29-37 | two logs are equal iff term, index, binary flag and data are all equal |
| Utf8.DecodeEncode | base/src/main/java/vraft/msg/Log.java:21-26 | decoding the bytes `getBytes` produces returns the original string |
| Utf8.EncodeIsText | base/src/main/java/vraft/msg/Log.java:21-26 | the bytes of any string are valid text |
| Utf8.EncodeInjective | base/src/main/java/vraft/msg/Log.java:21-26 | distinct strings have distinct bytes |
| Base64.Encode | base/src/main/java/vraft/msg/AppendEntriesRPCReq.java:252 | the padded encoding has 4 characters per started group of 3 bytes |
| Base64.DecodeEncode | base/src/main/java/vraft/msg/AppendEntriesRPCReq.java:230-236 | decoding the encoding of any byte string returns those bytes |
| Base64.ForeignCharRejected | base/src/main/java/vraft/msg/AppendEntriesRPCReq.java:231-235 | a character outside the alphabet makes decoding fail |
| Base64.DanglingCharRejected | base/src/main/java/vraft/msg/AppendEntriesRPCReq.java:231-235 | a lone final sextet (length 1 mod 4) makes decoding fail |
| KeyValue.NonStringKeyRejected | base/src/main/java/vraft/msg/AppendEntriesRPCReq.java:50-56 | any key/value walk fails if an even position holds a non-string |
| KeyValue.RejectedPairRejected | base/src/main/java/vraft/msg/AppendEntriesRPCReq.java:59-107 | a pair that the step rejects in every state makes the whole walk fail |
| KeyValue.DuplicateKeyRejected | base/src/main/java/vraft/msg/AppendEntriesRPCReq.java:59-107 | a key that is set by its first occurrence and may not be set twice makes a walk with a second occurrence fail |
| KeyValue.AbsentKeyUnset | base/src/main/java/vraft/msg/AppendEntriesRPCReq.java:111-125 | a key that never occurs stays unset in a successful walk |
| KeyValue.TrailingKeyIgnored | base/src/main/java/vraft/msg/AppendEntriesRPCReq.java:50-110 | an unpaired key at the end of an even-length array changes nothing |
| AppendEntriesReqCodec.EntryOf | base/src/main/java/vraft/msg/AppendEntriesRPCReq.java:210-238 | an entry is built only when term, index, binary and data are present and binary is 0 or 1; binary=1 data is the Base64 decoding, binary=0 data decodes to the text |
| AppendEntriesReqCodec.ParseEntry | base/src/main/java/vraft/msg/AppendEntriesRPCReq.java:148-238 | the entry loop returns exactly the specified entry decoding |
| AppendEntriesReqCodec.ParseEntries | base/src/main/java/vraft/msg/AppendEntriesRPCReq.java:134-146 | the entries loop returns exactly the specified list decoding |
| AppendEntriesReqCodec.EntriesInOrder | base/src/main/java/vraft/msg/AppendEntriesRPCReq.java:134-146 | the list decodes iff every element is an array holding a valid entry; the i-th log is the decoding of the i-th element |
| AppendEntriesReqCodec.EntriesErrorSticks | base/src/main/java/vraft/msg/AppendEntriesRPCReq.java:137-140 | once an element fails, decoding further elements keeps that first error |
| AppendEntriesReqCodec.Step | base/src/main/java/vraft/msg/AppendEntriesRPCReq.java:59-107 | a pair is accepted only for a known key that is not yet set |
| AppendEntriesReqCodec.Finish | base/src/main/java/vraft/msg/AppendEntriesRPCReq.java:111-131 | decoding succeeds iff all five fields are set, and the request holds exactly those values |
| AppendEntriesReqCodec.FromResp | base/src/main/java/vraft/msg/AppendEntriesRPCReq.java:36-132 | the decoding constructor's loop returns exactly the specified decoding |
| AppendEntriesReqCodec.Encode | base/src/main/java/vraft/msg/AppendEntriesRPCReq.java:241-273 | the output is the `type`/`AppendEntriesReq`/`msg` envelope, and its body decodes back to the request for non-sentinel ints |
| AppendEntriesReqCodec.Serialize | base/src/main/java/vraft/msg/AppendEntriesRPCReq.java:241-273 | the entries loop builds exactly the specified encoding |
| AppendEntriesReqCodec.Equals | base/src/main/java/vraft/msg/AppendEntriesRPCReq.java:287-296 | equality holds iff all five fields are equal |
| AppendEntriesReqCodec.EntryRoundTrip | base/src/main/java/vraft/msg/AppendEntriesRPCReq.java:243-253 | a serialised entry decodes back to the same log (text logs must hold valid text) |
| AppendEntriesReqCodec.EntriesRoundTrip | base/src/main/java/vraft/msg/AppendEntriesRPCReq.java:242-254 | serialised entries decode back to the same list, in order |
| AppendEntriesReqCodec.RoundTrip | base/src/main/java/vraft/msg/AppendEntriesRPCReq.java:240-273 | decoding the serialised body yields an equal request when no int field is `Integer.MIN_VALUE` |
| AppendEntriesReqCodec.SentinelIndexMissing | base/src/main/java/vraft/msg/AppendEntriesRPCReq.java:114-116 | a prevLogIndex of `Integer.MIN_VALUE` is reported missing |
| AppendEntriesReqCodec.SentinelIndexRepeatable | base/src/main/java/vraft/msg/AppendEntriesRPCReq.java:69-77 | a prevLogIndex first given as `Integer.MIN_VALUE` may be given again without a duplicate error |
| AppendEntriesReqCodec.BinaryFlagMustBeBit | base/src/main/java/vraft/msg/AppendEntriesRPCReq.java:223-225 | a binary flag other than 0 or 1 is rejected |
| AppendEntriesReqCodec.BinaryDataIsBase64 | base/src/main/java/vraft/msg/AppendEntriesRPCReq.java:230-236 | with binary=1, data that is not Base64 is rejected, and otherwise the log holds the decoded bytes |
| AppendEntriesReqCodec.TextDataIsString | base/src/main/java/vraft/msg/AppendEntriesRPCReq.java:227-228 | with binary=0 the log is the text log of the data string |
| AppendEntriesReqCodec.KeyMustBeString | base/src/main/java/vraft/msg/AppendEntriesRPCReq.java:50-56 | a non-string at a key position is rejected |
| AppendEntriesReqCodec.UnknownKeyRejected | base/src/main/java/vraft/msg/AppendEntriesRPCReq.java:105-106 | an unknown key is rejected |
| AppendEntriesReqCodec.BadEntryRejected | base/src/main/java/vraft/msg/AppendEntriesRPCReq.java:96-103 | an entries list with a bad element is rejected |
| AppendEntriesReqCodec.WrongKindRejected | base/src/main/java/vraft/msg/AppendEntriesRPCReq.java:59-104 | a known key whose value has the wrong kind is rejected: leaderId needs a string, entries an array, the rest integers |
| AppendEntriesReqCodec.EntryKeyMustBeString | base/src/main/java/vraft/msg/AppendEntriesRPCReq.java:158-163 | in an entry, a non-string at a key position is rejected |
| AppendEntriesReqCodec.EntryUnknownKeyRejected | base/src/main/java/vraft/msg/AppendEntriesRPCReq.java:203-204 | in an entry, an unknown key is rejected |
| AppendEntriesReqCodec.EntryWrongKindRejected | base/src/main/java/vraft/msg/AppendEntriesRPCReq.java:166-202 | in an entry, data needs a string and term, index and binary need integers |
| AppendEntriesReqCodec.EntryDuplicateRejected | base/src/main/java/vraft/msg/AppendEntriesRPCReq.java:166-202 | in an entry, a second occurrence of a key whose first value is not the sentinel is rejected |
| AppendEntriesReqCodec.DuplicateRejected | base/src/main/java/vraft/msg/AppendEntriesRPCReq.java:59-104 | a second occurrence of a key whose first value is not the sentinel is rejected |
| AppendEntriesReqCodec.MissingRejected | base/src/main/java/vraft/msg/AppendEntriesRPCReq.java:111-125 | a body lacking any of the five keys is rejected |
| AppendEntriesReqCodec.TrailingKeyDropped | base/src/main/java/vraft/msg/AppendEntriesRPCReq.java:50-110 | a trailing unpaired key does not change the decoding |
| AppendEntriesRespCodec.Step | base/src/main/java/vraft/msg/AppendEntriesRPCResp.java:41-62 | a pair is accepted only for a known key that is not yet set |
| AppendEntriesRespCodec.Finish | base/src/main/java/vraft/msg/AppendEntriesRPCResp.java:66-79 | decoding succeeds iff term is set and success is 0 or 1; success is `value == 1`; any other success value is an invalid-flag error |
| AppendEntriesRespCodec.FromResp | base/src/main/java/vraft/msg/AppendEntriesRPCResp.java:21-80 | the decoding constructor's loop returns exactly the specified decoding |
| AppendEntriesRespCodec.Serialize | base/src/main/java/vraft/msg/AppendEntriesRPCResp.java:82-95 | the output is the `AppendEntriesResp` envelope, and its body decodes back to the response for a non-sentinel term |
| AppendEntriesRespCodec.Equals | base/src/main/java/vraft/msg/AppendEntriesRPCResp.java:105-112 | equality holds iff term and success are equal |
| AppendEntriesRespCodec.RoundTrip | base/src/main/java/vraft/msg/AppendEntriesRPCResp.java:81-94 | the serialised body decodes to an equal response, for both success values |
| AppendEntriesRespCodec.SentinelTermMissing | base/src/main/java/vraft/msg/AppendEntriesRPCResp.java:66-68 | a term of `Integer.MIN_VALUE` is reported missing |
| AppendEntriesRespCodec.FlagMustBeBit | base/src/main/java/vraft/msg/AppendEntriesRPCResp.java:73-75 | a success value other than 0 or 1 is rejected |
| AppendEntriesRespCodec.KeyMustBeString | base/src/main/java/vraft/msg/AppendEntriesRPCResp.java:32-38 | a non-string at a key position is rejected |
| AppendEntriesRespCodec.UnknownKeyRejected | base/src/main/java/vraft/msg/AppendEntriesRPCResp.java:60-61 | an unknown key is rejected |
| AppendEntriesRespCodec.WrongKindRejected | base/src/main/java/vraft/msg/AppendEntriesRPCResp.java:41-59 | a non-integer value for term or success is rejected |
| AppendEntriesRespCodec.DuplicateRejected | base/src/main/java/vraft/msg/AppendEntriesRPCResp.java:41-59 | a second occurrence of a key whose first value is not the sentinel is rejected |
| AppendEntriesRespCodec.MissingRejected | base/src/main/java/vraft/msg/AppendEntriesRPCResp.java:66-71 | a body lacking term or success is rejected |
| AppendEntriesRespCodec.TrailingKeyDropped | base/src/main/java/vraft/msg/AppendEntriesRPCResp.java:32-65 | a trailing unpaired key does not change the decoding |
| RequestVoteReqCodec.Step | base/src/main/java/vraft/msg/RequestVoteRPCReq.java:53-92 | a pair is accepted only for a known key that is not yet set |
| RequestVoteReqCodec.Finish | base/src/main/java/vraft/msg/RequestVoteRPCReq.java:96-113 | decoding succeeds iff all four fields are set, and the request holds exactly those values |
| RequestVoteReqCodec.FromResp | base/src/main/java/vraft/msg/RequestVoteRPCReq.java:31-114 | the decoding constructor's loop returns exactly the specified decoding |
| RequestVoteReqCodec.Serialize | base/src/main/java/vraft/msg/RequestVoteRPCReq.java:116-133 | the output is the `RequestVoteReq` envelope, and its body decodes back to the request for non-sentinel ints |
| RequestVoteReqCodec.Equals | base/src/main/java/vraft/msg/RequestVoteRPCReq.java:145-153 | equality holds iff all four fields are equal |
| RequestVoteReqCodec.RoundTrip | base/src/main/java/vraft/msg/RequestVoteRPCReq.java:115-132 | the serialised body decodes to an equal request when no int field is `Integer.MIN_VALUE` |
| RequestVoteReqCodec.KeyMustBeString | base/src/main/java/vraft/msg/RequestVoteRPCReq.java:44-50 | a non-string at a key position is rejected |
| RequestVoteReqCodec.UnknownKeyRejected | base/src/main/java/vraft/msg/RequestVoteRPCReq.java:90-91 | an unknown key is rejected |
| RequestVoteReqCodec.WrongKindRejected | base/src/main/java/vraft/msg/RequestVoteRPCReq.java:53-88 | candidateId must be a bulk string and the other fields integers |
| RequestVoteReqCodec.DuplicateRejected | base/src/main/java/vraft/msg/RequestVoteRPCReq.java:53-88 | a second occurrence of a key whose first value is not the sentinel is rejected |
| RequestVoteReqCodec.MissingRejected | base/src/main/java/vraft/msg/RequestVoteRPCReq.java:96-107 | a body lacking any of the four keys is rejected |
| RequestVoteReqCodec.TrailingKeyDropped | base/src/main/java/vraft/msg/RequestVoteRPCReq.java:36-94 | a trailing unpaired key does not change the decoding |
| RequestVoteReqCodec.SentinelTermMissing | base/src/main/java/vraft/msg/RequestVoteRPCReq.java:96-98 | a term of `Integer.MIN_VALUE` is reported missing |
| RequestVoteReqCodec.SentinelTermRepeatable | base/src/main/java/vraft/msg/RequestVoteRPCReq.java:53-62 | a term first given as `Integer.MIN_VALUE` may be given again without a duplicate error |
| RequestVoteRespCodec.Step | base/src/main/java/vraft/msg/RequestVoteRPCResp.java:41-62 | a pair is accepted only for a known key that is not yet set |
| RequestVoteRespCodec.Finish | base/src/main/java/vraft/msg/RequestVoteRPCResp.java:66-79 | decoding succeeds iff term is set and voteGranted is 0 or 1; voteGranted is `value == 1`; any other value is an invalid-flag error |
| RequestVoteRespCodec.FromResp | base/src/main/java/vraft/msg/RequestVoteRPCResp.java:21-80 | the decoding constructor's loop returns exactly the specified decoding |
| RequestVoteRespCodec.Serialize | base/src/main/java/vraft/msg/RequestVoteRPCResp.java:82-95 | the output is the `RequestVoteResp` envelope, and its body decodes back to the response for a non-sentinel term |
| RequestVoteRespCodec.Equals | base/src/main/java/vraft/msg/RequestVoteRPCResp.java:105-112 | equality holds iff term and voteGranted are equal |
| RequestVoteRespCodec.RoundTrip | base/src/main/java/vraft/msg/RequestVoteRPCResp.java:81-94 | the serialised body decodes to an equal response, for both voteGranted values |
| RequestVoteRespCodec.SentinelTermMissing | base/src/main/java/vraft/msg/RequestVoteRPCResp.java:66-68 | a term of `Integer.MIN_VALUE` is reported missing |
| RequestVoteRespCodec.FlagMustBeBit | base/src/main/java/vraft/msg/RequestVoteRPCResp.java:73-75 | a voteGranted value other than 0 or 1 is rejected |
| RequestVoteRespCodec.KeyMustBeString | base/src/main/java/vraft/msg/RequestVoteRPCResp.java:32-38 | a non-string at a key position is rejected |
| RequestVoteRespCodec.UnknownKeyRejected | base/src/main/java/vraft/msg/RequestVoteRPCResp.java:60-61 | an unknown key is rejected |
| RequestVoteRespCodec.WrongKindRejected | base/src/main/java/vraft/msg/RequestVoteRPCResp.java:41-59 | a non-integer value for term or voteGranted is rejected |
| RequestVoteRespCodec.DuplicateRejected | base/src/main/java/vraft/msg/RequestVoteRPCResp.java:41-59 | a second occurrence of a key whose first value is not the sentinel is rejected |
| RequestVoteRespCodec.MissingRejected | base/src/main/java/vraft/msg/RequestVoteRPCResp.java:66-71 | a body lacking term or voteGranted is rejected |
| RequestVoteRespCodec.TrailingKeyDropped | base/src/main/java/vraft/msg/RequestVoteRPCResp.java:32-65 | a trailing unpaired key does not change the decoding |
| RaftMessages.TypeNames | base/src/main/java/vraft/trans/RaftTransUtils.java:68-94 | a type name maps to a message kind iff it is that kind's name |
| RaftMessages.DecodeKeepsType | base/src/main/java/vraft/trans/RaftTransUtils.java:68-92 | a body decoded under a kind yields a message of that kind |
| RaftTransUtils.Parse | base/src/main/java/vraft/trans/RaftTransUtils.java:13-100 | an invalid envelope or body returns its error and delivers nothing; a valid one returns no error and delivers the decoded message to its kind's handler if one is set, otherwise drops it |
| RaftTransUtils.RoundTrip | base/src/main/java/vraft/trans/RaftTransUtils.java:13-100 | every serialised message with non-sentinel ints is received as itself |
| RaftTransUtils.UnknownTypeRejected | base/src/main/java/vraft/trans/RaftTransUtils.java:93-94 | a type outside the four kinds is an unknown-type error |
| RaftTransUtils.DecodedByTag | base/src/main/java/vraft/trans/RaftTransUtils.java:67-98 | an envelope with a known type yields exactly that kind's body decoding, error included |
| RaftTransUtils.DuplicateRejected | base/src/main/java/vraft/trans/RaftTransUtils.java:36-51 | a second `type` or `msg` key is rejected |
| RaftTransUtils.UnknownKeyRejected | base/src/main/java/vraft/trans/RaftTransUtils.java:53-54 | an envelope key other than `type` and `msg` is rejected |
| RaftTransUtils.EnvelopeKeyMustBeString | base/src/main/java/vraft/trans/RaftTransUtils.java:29-34 | a non-string at an envelope key position is rejected |
| RaftTransUtils.TypeMustBeString | base/src/main/java/vraft/trans/RaftTransUtils.java:38-46 | a `type` value that is not a bulk string is rejected |
| RaftTransUtils.EnvelopeMissingRejected | base/src/main/java/vraft/trans/RaftTransUtils.java:60-65 | an envelope without a `type` key, or without a `msg` key, is rejected |
| LegacyRaft.BinaryLog | base/src/main/java/vraft/Log.java:12-17 | the byte-array constructor sets binary and keeps term, index and data |
| LegacyRaft.TextLog | base/src/main/java/vraft/Log.java:19-24 | the String constructor clears binary and its bytes decode to the string |
| LegacyRaft.LogOf | base/src/main/java/vraft/Log.java:26-31 | the four-argument constructor stores its arguments verbatim |
| LegacyRaft.LogConstructorsAgree | base/src/main/java/vraft/Log.java:12-31 | both convenience constructors equal the four-argument one with the matching flag and bytes |
| LegacyRaft.SerializeAppendEntriesReq | base/src/main/java/vraft/AppendEntriesRPCReq.java:32-65 | the entries loop emits the same layout as the current class, so its body is accepted by the current decoder |
| LegacyRaft.SerializeRequestVoteReq | base/src/main/java/vraft/RequestVoteRPCReq.java:26-43 | the layout equals the current class's, so its body is accepted by the current decoder |
| LegacyRaft.SerializeAppendEntriesResp | base/src/main/java/vraft/AppendEntriesRPCResp.java:16-29 | the layout equals the current class's, so its body is accepted by the current decoder |
| LegacyRaft.SerializeRequestVoteResp | base/src/main/java/vraft/RequestVoteRPCResp.java:41-54 | the layout equals the current class's, so its body is accepted by the current decoder |
| LegacyRaft.DecodeRequestVoteResp | base/src/main/java/vraft/RequestVoteRPCResp.java:19-39 | accepts exactly 4-element arrays `["type", int, "voteGranted", 0 or 1]`; term is element 1 and voteGranted is `element 3 == 1` |
| LegacyRaft.RequestVoteRespRejectsOwnMessage | base/src/main/java/vraft/RequestVoteRPCResp.java:25-28 | the positional decoder rejects its own serializer's envelope at element 1 |
| LegacyRaft.RequestVoteRespRejectsOwnBody | base/src/main/java/vraft/RequestVoteRPCResp.java:25-28 | the positional decoder rejects its own serializer's body at element 0 |
| LegacyRaft.DecodeIdentityReq | base/src/main/java/vraft/IdentityRPCReq.java:17-29 | accepts exactly 2-element arrays `["id", string]`, and the id is that string |
| LegacyRaft.SerializeIdentityReq | base/src/main/java/vraft/IdentityRPCReq.java:31-42 | the output is the `IdentityReq` envelope |
| LegacyRaft.IdentityReqRoundTrip | base/src/main/java/vraft/IdentityRPCReq.java:17-42 | the serialised body decodes to the same id; the whole 4-element envelope is rejected |
| LegacyRaft.ServerRefEquals | base/src/main/java/vraft/ServerRef.java:23-29 | two refs are equal iff isThisServer and id are equal |
| LegacyRaft.ServerRefHashConsistent | base/src/main/java/vraft/ServerRef.java:22-34 | equal refs have equal hash codes; refs that differ only in isThisServer have different hash codes |
| JavaHash.WrapEqual | base/src/main/java/vraft/ServerRef.java:32-34 | two integers wrap to the same Java int iff they agree modulo 2^32 |
| JavaHash.WrapInRange | base/src/main/java/vraft/ServerRef.java:32-34 | wrapping leaves a value already in the Java int range unchanged |
| Transport.DrainParser | base/src/main/java/vraft/trans/RaftServer.java:58-86 | the data loop delivers and fails exactly as the chunk specification says |
| Transport.ChunkDeliversToHandlers | base/src/main/java/vraft/trans/RaftServer.java:58-86 | every delivery comes from the connection's ip and goes to a registered handler |
| Transport.ChunkIgnoresAfterStop | base/src/main/java/vraft/trans/RaftServer.java:66-83 | once a value fails to decode, the parser fails or more input is needed, the rest of the chunk is ignored |
| Transport.ChunkDeliversInOrder | base/src/main/java/vraft/trans/RaftServer.java:58-86 | a chunk of serialised messages delivers them in order, each to its handler if set, without failing |
| Server.RaftServer.Accept | base/src/main/java/vraft/trans/RaftServer.java:38-47 | the new connection replaces the ip's entry (newest wins) and the old one is closed |
| Server.RaftServer.RemoveAndCloseConnection | base/src/main/java/vraft/trans/RaftServer.java:94-103 | the ip's entry is removed unless it held a different connection, and the given connection is always closed |
| Server.RaftServer.HasConnectionFrom | base/src/main/java/vraft/trans/RaftServer.java:105-107 | true iff a connection from the ip is recorded |
| Server.RaftServer.SendTo | base/src/main/java/vraft/trans/RaftServer.java:117-124 | returns true iff a connection exists; then exactly the serialised message is written to it, and otherwise nothing is written |
| Server.RaftServer.SetHandler | base/src/main/java/vraft/trans/RaftServer.java:126-152 | a handler kind can be set only once |
| Server.RaftServer.HandleData | base/src/main/java/vraft/trans/RaftServer.java:51-86 | delivers as the chunk specification says; a failure removes and closes only this connection |
| Client.RaftClient.SetHandler | base/src/main/java/vraft/trans/RaftClient.java:145-176 | a handler kind can be set only once |
| Client.RaftClient.SetCallback | base/src/main/java/vraft/trans/RaftClient.java:177-199 | a callback can be set only once |
| Client.RaftClient.Start | base/src/main/java/vraft/trans/RaftClient.java:39-53 | succeeds iff the error, closed and connected callbacks are all set; then started is true and, unless a connection is recorded, one more connect is in flight, even when an earlier one has not completed |
| Client.RaftClient.OnConnect | base/src/main/java/vraft/trans/RaftClient.java:54-102 | one in-flight connect completes; a started client records the connection, replacing any recorded one without closing it, becomes connected and runs the connected callback; a stopped one records nothing and runs no callback |
| Client.RaftClient.CloseConnection | base/src/main/java/vraft/trans/RaftClient.java:118-131 | no-op unless started; otherwise it clears started, connected and conn, closes the connection, and runs the closed callback iff asked |
| Client.RaftClient.Stop | base/src/main/java/vraft/trans/RaftClient.java:114-116 | like closing the connection without the closed callback |
| Client.RaftClient.Send | base/src/main/java/vraft/trans/RaftClient.java:133-139 | returns whether connected; only then is the serialised message written |
| Client.RaftClient.HandleData | base/src/main/java/vraft/trans/RaftClient.java:64-98 | delivers as the chunk specification says; a failure closes the connection and runs the closed callback if started |
| Control.Forwarded | base/src/main/java/vraft/trans/MessageControl.java:33-44 | a delivery reaches the application iff its kind has a registered handler |
| Control.ForwardedChunk | base/src/main/java/vraft/trans/MessageControl.java:33-44 | forwarding what the transport delivers equals delivering straight to the registered handlers |
| Control.MessageControl.Forward | base/src/main/java/vraft/trans/MessageControl.java:138-149 | what the client delivered for a chunk reaches exactly the registered handlers, with the same failure verdict, and nothing else changes |
| Control.MessageControl.SetHandler | base/src/main/java/vraft/trans/MessageControl.java:152-190 | a handler kind can be set only once |
| Control.MessageControl.NewRaftClient | base/src/main/java/vraft/trans/MessageControl.java:92-99 | a fresh started client for the ip is put into the pending map |
| Control.MessageControl.EnsureConnection | base/src/main/java/vraft/trans/MessageControl.java:47-61 | nothing happens if an inbound connection, a working client or a pending client exists; otherwise a new pending client is created |
| Control.MessageControl.SendTo | base/src/main/java/vraft/trans/MessageControl.java:63-90 | the inbound connection is preferred, and then the working client is untouched; otherwise a connected working client sends; an unconnected one is removed and stopped, closing nothing and writing nothing; with no route a new pending client is created unless one exists |
| Control.MessageControl.SendViaWorkingClient | base/src/main/java/vraft/trans/MessageControl.java:70-77 | succeeds iff a working client for the ip is connected, and then writes exactly the message on its connection; otherwise that client is removed and stopped with no close and no write; the pending map is unchanged |
| Control.MessageControl.OnClientConnected | base/src/main/java/vraft/trans/MessageControl.java:100-115 | a client that is the pending one moves to working and any previous working client is stopped; otherwise it is stopped, its connection is closed, and the pending slot keeps its old value (null included); nothing is written |
| Control.MessageControl.PromoteToWorking | base/src/main/java/vraft/trans/MessageControl.java:109-113 | the client becomes the ip's working entry, and a client it displaces is stopped with its write log unchanged; the pending map is unchanged |
| Control.PendingAfterGone | base/src/main/java/vraft/trans/MessageControl.java:120-125 | afterwards the ip's pending entry never holds the client; other ips are untouched; the map is unchanged exactly when the entry held another client |
| Control.WorkingAfterGone | base/src/main/java/vraft/trans/MessageControl.java:126-131 | afterwards the ip's working entry never holds the client; other ips are untouched; the map is unchanged exactly when the entry held another client |
| Control.MessageControl.OnClientGone | base/src/main/java/vraft/trans/MessageControl.java:116-137 | the ip's pending and working entries are removed, each restored if it held a different client |
| Control.MessageControl.ClientConnectionEstablished | base/src/main/java/vraft/trans/MessageControl.java:100-115 | for sequential events a started client is always the pending one, so it moves from pending to working; the connect is no longer in flight, and the started flag, close log and write log are unchanged |
| Control.MessageControl.ClientConnectFailed | base/src/main/java/vraft/trans/MessageControl.java:116-136 | the error callback always runs: each map loses the ip's entry unless it holds another client, and for a started client both entries are removed; the client stops connecting, keeps its started flag, and nothing is closed; the client's write log is unchanged |
| Control.MessageControl.ClientConnectionLost | base/src/main/java/vraft/trans/MessageControl.java:116-137 | the client is stopped with no connection; for a started client its connection is appended to the close log and each map loses the ip's entry unless it holds another client; a stopped client changes nothing else; the client's write log is unchanged |
| Control.MessageControl.ClientData | base/src/main/java/vraft/trans/MessageControl.java:138-149 | messages from a client reach the registered handlers; on a decode failure the client is stopped, and if it was started its connection is closed and each map loses the ip's entry unless it holds another client; otherwise the client and the maps are unchanged; the client's write log is unchanged |
| Control.MessageControl.ServerAccepted | base/src/main/java/vraft/trans/RaftServer.java:38-47 | an accepted connection becomes the ip's inbound entry, and a connection it replaces is closed; nothing is written and the client maps are unchanged |
| Control.MessageControl.ServerConnectionClosed | base/src/main/java/vraft/trans/RaftServer.java:51-54 | a closed inbound connection is removed unless the entry holds a different one, and is appended to the close log; nothing is written and the client maps are unchanged |
| Control.MessageControl.ServerData | base/src/main/java/vraft/trans/MessageControl.java:33-44 | inbound messages reach the registered handlers; a decode failure closes the connection and removes it from the server's map unless the ip holds a different connection; otherwise the connections are unchanged; nothing is written and the client maps are unchanged |
| NetConn.Conn.SetCallback | base/src/main/java/vproxybase/util/net/Conn.java:28-50 | each callback can be set only once |
| NetConn.Conn.Writable | base/src/main/java/vproxybase/util/net/Conn.java:57-75 | moves queued bytes to the out buffer in FIFO order until the buffer is full or the queue is empty |
| NetConn.Conn.Write | base/src/main/java/vproxybase/util/net/Conn.java:52-55 | appends the bytes to the queue tail and drains; what is flushed, buffered and queued is always a prefix of everything written |
| NetConn.ClosedRunsAppend | base/src/main/java/vproxybase/util/net/Conn.java:86-94 | the closed-callback count grows only by a closed-callback event |
| NetConn.Conn.CallClosedCallback | base/src/main/java/vproxybase/util/net/Conn.java:86-94 | the closed callback runs only the first time; in total it runs at most once |
| NetConn.Conn.Exception | base/src/main/java/vproxybase/util/net/Conn.java:96-102 | the error callback, if set, runs before the closed callback |
| NetConn.Conn.RemoteClosed | base/src/main/java/vproxybase/util/net/Conn.java:104-107 | runs the closed callback once, then closes |
| NetConn.Conn.Closed | base/src/main/java/vproxybase/util/net/Conn.java:109-111 | runs the closed callback once |
| NetConn.Conn.Removed | base/src/main/java/vproxybase/util/net/Conn.java:113-119 | does nothing once the closed callback has been called, otherwise calls it and closes |
| NetConn.Conn.Close | base/src/main/java/vproxybase/util/net/Conn.java:121-123 | closes without running any callback |
| ConfigProcessor.TrimTrimmed | src/main/java/net/cassite/vproxyx/websocks5/ConfigProcessor.java:46 | a trimmed line has no surrounding blanks, and trimming is idempotent |
| ConfigProcessor.LastIndexOf | src/main/java/net/cassite/vproxyx/websocks5/ConfigProcessor.java:73 | -1 iff the character is absent, otherwise its last position |
| ConfigProcessor.ParseDecimal | src/main/java/net/cassite/vproxyx/websocks5/ConfigProcessor.java:54 | `Integer.parseInt` reads back every decimal in the int range, with or without a minus sign |
| ConfigProcessor.DomainRegex | src/main/java/net/cassite/vproxyx/websocks5/ConfigProcessor.java:108-113 | `/re/` gives `re`, a lone `/` gives none, any other line gives `.*` + the line with dots escaped + `$` |
| ConfigProcessor.EscapeDotsRoundTrip | src/main/java/net/cassite/vproxyx/websocks5/ConfigProcessor.java:112 | escaping each dot as `\.` is reversible |
| ConfigProcessor.ConfigProcessor.constructor | src/main/java/net/cassite/vproxyx/websocks5/ConfigProcessor.java:21 | the listen port defaults to 1080 |
| ConfigProcessor.ConfigProcessor.Parse | src/main/java/net/cassite/vproxyx/websocks5/ConfigProcessor.java:37-118 | the line loop ends in exactly the state and error the line-by-line specification reaches |
| ConfigProcessor.SkippedLine | src/main/java/net/cassite/vproxyx/websocks5/ConfigProcessor.java:46-48 | blank and `#` lines are skipped in every step |
| ConfigProcessor.ListenSetsPort | src/main/java/net/cassite/vproxyx/websocks5/ConfigProcessor.java:51-60 | `agent.listen N` with N in 1..65535 sets the listen port |
| ConfigProcessor.ListenOutOfRangeAssigned | src/main/java/net/cassite/vproxyx/websocks5/ConfigProcessor.java:54-60 | an out-of-range port is an error, but the field already holds it |
| ConfigProcessor.ListenNotIntRejected | src/main/java/net/cassite/vproxyx/websocks5/ConfigProcessor.java:53-57 | a non-integer listen value is an error and leaves the port unchanged |
| ConfigProcessor.UnknownLineRejected | src/main/java/net/cassite/vproxyx/websocks5/ConfigProcessor.java:61-67 | in step 0 any line other than the list starts and `agent.listen` is an error |
| ConfigProcessor.ServerAdded | src/main/java/net/cassite/vproxyx/websocks5/ConfigProcessor.java:73-91 | `host:port` with a valid port appends that server |
| ConfigProcessor.ServerWithoutColonRejected | src/main/java/net/cassite/vproxyx/websocks5/ConfigProcessor.java:73-75 | a server line without a colon is an error |
| ConfigProcessor.EmptyHostRejected | src/main/java/net/cassite/vproxyx/websocks5/ConfigProcessor.java:76-79 | a server line with an empty host is an error |
| ConfigProcessor.BadPortRejected | src/main/java/net/cassite/vproxyx/websocks5/ConfigProcessor.java:80-88 | a server entry whose port after the last colon is not an int, or is outside 1..65535, is an error and adds no server |
| ConfigProcessor.SlashOnlyRejected | src/main/java/net/cassite/vproxyx/websocks5/ConfigProcessor.java:109-110 | a domain line that is exactly `/` fails |
| ConfigProcessor.EndMarkers | src/main/java/net/cassite/vproxyx/websocks5/ConfigProcessor.java:69-72 | the `*.end` markers return to step 0 |
| ConfigProcessor.UnclosedListAccepted | src/main/java/net/cassite/vproxyx/websocks5/ConfigProcessor.java:45 | input ending inside a list is not an error |
| ConfigProcessor.RunAppends | src/main/java/net/cassite/vproxyx/websocks5/ConfigProcessor.java:89-115 | the server and domain lists only grow |
| ConfigProcessor.DomainsInOrder | src/main/java/net/cassite/vproxyx/websocks5/ConfigProcessor.java:108-115 | domain patterns are appended in input order |
| DomainChecker.SuffixChecker | extended/src/main/java/vproxyx/websocks/DomainChecker.java:16-18 | true iff the domain ends with the suffix, whatever the port |
| DomainChecker.PortChecks | extended/src/main/java/vproxyx/websocks/DomainChecker.java:54-57 | true iff the port equals the configured one, whatever the domain |
| EventLoopGroups.EventLoopGroupHolder.Names | app/src/main/java/vproxyapp/app/EventLoopGroupHolder.java:15-17 | exactly the registered aliases, each once |
| EventLoopGroups.EventLoopGroupHolder.Add | app/src/main/java/vproxyapp/app/EventLoopGroupHolder.java:19-24 | fails with AlreadyExist iff the alias is present, leaving the map unchanged; otherwise inserts only that alias with a new group |
| EventLoopGroups.EventLoopGroupHolder.Get | app/src/main/java/vproxyapp/app/EventLoopGroupHolder.java:26-31 | returns the alias's group iff present, otherwise NotFound |
| EventLoopGroups.EventLoopGroupHolder.RemoveAndClose | app/src/main/java/vproxyapp/app/EventLoopGroupHolder.java:33-38 | fails with NotFound iff the alias is absent, leaving the map unchanged; otherwise removes only that alias and closes its group, and no other group |
| LegacyRaft.DecodeRequestVoteRespCorrected | base/src/main/java/vraft/RequestVoteRPCResp.java:19-39 | positional decoding that expects `"term"` at element 0 |
| LegacyRaft.RequestVoteRespCorrectedRoundTrip | base/src/main/java/vraft/RequestVoteRPCResp.java:19-54 | the corrected decoder accepts the serialised body and returns the same response |

## Left out

- Byte-level RESP framing: `Serializer.fromArray` and `RESPParser.feed` are not part of this model. Messages are RESP value trees, and the parser is a sequence of outcomes (a value, need more, or failure).
- Event-loop and socket plumbing: `NetServer`, `NetClient`, `RaftServer.start`/`stop`, `Conn.readable`, and the `RingBuffer`/`Connection` internals. `runOnLoop` is modelled as a sequential call. The out buffer of `Conn` is a byte sequence bounded by a fixed capacity.
- Conn.Close: the callbacks of the underlying `Connection` that `close` triggers are not modelled; only the close event is recorded.
- Logging and `assert` debug statements.
- The error handlers `RaftServer` installs on the server and its connections do nothing and are not modelled.
- Client.RaftClient.OnConnect: when a stopped client's connect completes, the source installs no data callback, so `NetClient` (base/src/main/java/vproxybase/util/net/NetClient.java:36-41) closes the new connection. `NetClient` is not part of this model, so that close is not recorded in the client's close log.
- Control.MessageControl.OnClientConnected: in its mismatch branch, a pending slot with no entry is restored as a null entry, and the model writes `None`. `Valid()` forbids `None` entries, and `EnsureConnection` and `SendTo` require `Valid()`. `ClientConnectionEstablished` proves that the mismatch branch never runs from a `Valid()` state, so how a `None` entry would later be read is not modelled.
- Control.MessageControl.SendTo: a client that is in the working map but not connected fails its send and is removed. Connection state is not required of working clients, so that branch stays reachable.
- ConfigProcessor.ParseInt: only ASCII digits are read. Java's `Integer.parseInt` also accepts other Unicode decimal digits.
- ConfigProcessor external effects: file reading, IPv4/IPv6 classification, DNS resolution, `ServerGroup.add` and `Pattern.compile`. Servers and domain patterns are recorded as values. A regex that `Pattern.compile` would refuse is not detected.
- ConfigProcessor.ServerAdded: the host's first character must be printable and not `#`, because such a line is trimmed or skipped before it reaches the server step.
- The `PatternDomainChecker` and `ABPDomainChecker` delegate to `java.util.regex` and the ABP engine, which are not part of this model.
- `EventLoopGroup` construction and `close` are opaque. A group is an object with an alias and a closed flag.
- Utf8: the platform default charset is taken to be UTF-8. A Java string can hold an unpaired surrogate, which `getBytes` writes as `?`; a Dafny `char` is a Unicode scalar value, so such strings cannot be expressed here.
- Utf8: malformed byte sequences decode to U+FFFD one byte at a time. This is simpler than Java's replacement rule, and only valid text matters for the properties.
- The Raft consensus engine: `vraft/Storage.java` only declares fields, so there is no behaviour to model.
- `toString` of the messages, and `hashCode` of the current message classes. `hashCode` is modelled for `ServerRef` only.

## Findings

| source | as written | input that shows it | evidently intended | confidence | as-written member | corrected member |
|---|---|---|---|---|---|---|
| base/src/main/java/vraft/RequestVoteRPCResp.java:25-28 | the positional decoder expects `"type"` at element 0 and an integer at element 1 | the serializer's own output for any response, e.g. term 1, voteGranted true: the envelope has `"RequestVoteResp"` at element 1, and the body `["term",1,"voteGranted",1]` has `"term"` at element 0 | decode the body `["term", t, "voteGranted", 0/1]` that `serialize` produces | not executed | LegacyRaft.RequestVoteRespRejectsOwnBody | LegacyRaft.RequestVoteRespCorrectedRoundTrip |
