/**
 * vraft.msg.Log: one replicated log entry. Its payload is a byte array;
 * `binary` records whether it was built from bytes or from a Java string
 * (whose bytes are then the string's encoding).
 */
module RaftLog {
  import opened Resp
  import Utf8

  datatype Log = Log(term: Int32, index: Int32, binary: bool, data: seq<Utf8.byte>)

  /** `new Log(term, index, ByteArray data)`: a binary entry holding `data` as given. */
  function FromBytes(term: Int32, index: Int32, data: seq<Utf8.byte>): (l: Log)
    ensures l.binary && l.term == term && l.index == index && l.data == data
  {
    Log(term, index, true, data)
  }

  /** `new Log(term, index, String data)`: a text entry whose bytes decode back to `text`. */
  function FromText(term: Int32, index: Int32, text: string): (l: Log)
    ensures !l.binary && l.term == term && l.index == index
    ensures Utf8.Decode(l.data) == text && Utf8.IsText(l.data)
  {
    Utf8.DecodeEncode(text);
    Utf8.EncodeIsText(text);
    Log(term, index, false, Utf8.Encode(text))
  }

  /** A text entry's bytes are the encoding of some string. */
  predicate WellFormed(l: Log)
  {
    l.binary || Utf8.IsText(l.data)
  }

  /** Both constructors build well-formed entries, and the two kinds never coincide. */
  lemma ConstructorsWellFormed(term: Int32, index: Int32, data: seq<Utf8.byte>, text: string)
    ensures WellFormed(FromBytes(term, index, data)) && WellFormed(FromText(term, index, text))
    ensures FromBytes(term, index, data) != FromText(term, index, text)
  {
  }

  /** `equals`: term, index, kind and bytes all agree. */
  function Equals(a: Log, b: Log): (r: bool)
    ensures r <==> a == b
  {
    a.term == b.term && a.index == b.index && a.binary == b.binary && a.data == b.data
  }
}
