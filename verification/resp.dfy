/**
 * The RESP value tree that the Raft messages are encoded into
 * (vproxybase.redis.entity.RESPArray / RESPBulkString / RESPInteger),
 * Java's 32-bit `int`, and the reasons a decoder rejects a value.
 */
module Resp {

  const MinInt: int := -0x8000_0000
  const MaxInt: int := 0x7fff_ffff

  /** Java `int`. `MinInt` doubles as the decoders' "absent" sentinel. */
  type Int32 = x: int | MinInt <= x <= MaxInt

  datatype RESP =
    | Arr(elems: seq<RESP>)
    | Bulk(str: string)
    | Int(n: Int32)

  /** Why a message is rejected; the source throws InvalidMessageException with a text. */
  datatype DecodeError =
    | NotArray
    | KeyNotString(index: nat)
    | Duplicated(key: string)
    | WrongKind(key: string)
    | UnknownKey(key: string)
    | Missing(key: string)
    | InvalidFlag(key: string, value: int)
    | EntryNotArray(index: nat)
    | NotBase64
    | UnknownType(typ: string)
    | WrongLength
    | WrongElement(index: nat)
}
