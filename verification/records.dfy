/** The 48-byte header in front of every record of the shared block and its byte image
    (shm_header.h): what a writer lays down and what the consumer reads back. */
module Records {
  import opened Bytes

  const MAGIC_NUM: uint32 := 0x4C4F5245
  const HEADER_SIZE := 48

  // RecordState: a zeroed block reads as WRITING everywhere
  const WRITING: uint32 := 0
  const COMMITTED: uint32 := 1
  const WRAP: uint32 := 2

  datatype RecordHeader = RecordHeader(
    state: nat, magic: nat, flags: nat, userSeq: uint32,
    totalSize: nat, payloadSize: nat, epoch: nat, labelId: int32, sourceId: int32)

  /** Every field fits the width the struct gives it. */
  predicate FitsWidths(h: RecordHeader) {
    && h.state < TWO_TO_THE_32 && h.magic < TWO_TO_THE_32
    && h.flags < TWO_TO_THE_32
    && h.totalSize < TWO_TO_THE_64 && h.payloadSize < TWO_TO_THE_64 && h.epoch < TWO_TO_THE_64
  }

  /** Everything after the state word, in declaration order. */
  function HeaderFields(h: RecordHeader): (s: seq<byte>)
    ensures |s| == HEADER_SIZE - 4
  {
    LittleEndian(h.magic, 4) + LittleEndian(h.flags, 4) + LittleEndian(h.userSeq, 4)
    + LittleEndian(h.totalSize, 8) + LittleEndian(h.payloadSize, 8) + LittleEndian(h.epoch, 8)
    + LittleEndian(ToUnsigned(h.labelId), 4) + LittleEndian(ToUnsigned(h.sourceId), 4)
  }

  function EncodeHeader(h: RecordHeader): (s: seq<byte>)
    ensures |s| == HEADER_SIZE
  {
    LittleEndian(h.state, 4) + HeaderFields(h)
  }

  function DecodeHeader(s: seq<byte>): RecordHeader
    requires |s| == HEADER_SIZE
  {
    Widths();
    RecordHeader(
      FromLittleEndian(s[0..4]), FromLittleEndian(s[4..8]),
      FromLittleEndian(s[8..12]), FromLittleEndian(s[12..16]),
      FromLittleEndian(s[16..24]), FromLittleEndian(s[24..32]), FromLittleEndian(s[32..40]),
      ToSigned(FromLittleEndian(s[40..44])), ToSigned(FromLittleEndian(s[44..48])))
  }

  /** Where the fields lie. */
  lemma HeaderLayout(h: RecordHeader)
    ensures var s := EncodeHeader(h);
            && FieldAt(s, 0, 4, h.state) && FieldAt(s, 4, 4, h.magic) && FieldAt(s, 8, 4, h.flags)
            && FieldAt(s, 12, 4, h.userSeq) && FieldAt(s, 16, 8, h.totalSize) && FieldAt(s, 24, 8, h.payloadSize)
            && FieldAt(s, 32, 8, h.epoch) && FieldAt(s, 40, 4, ToUnsigned(h.labelId))
            && FieldAt(s, 44, 4, ToUnsigned(h.sourceId))
  {
    hide LittleEndian;
    var s := EncodeHeader(h);
    assert s[0..4] == LittleEndian(h.state, 4);
    assert s[4..8] == LittleEndian(h.magic, 4);
    assert s[8..12] == LittleEndian(h.flags, 4);
    assert s[12..16] == LittleEndian(h.userSeq, 4);
    assert s[16..24] == LittleEndian(h.totalSize, 8);
    assert s[24..32] == LittleEndian(h.payloadSize, 8);
    assert s[32..40] == LittleEndian(h.epoch, 8);
    assert s[40..44] == LittleEndian(ToUnsigned(h.labelId), 4);
    assert s[44..48] == LittleEndian(ToUnsigned(h.sourceId), 4);
  }

  lemma HeaderRoundTrip(h: RecordHeader)
    requires FitsWidths(h)
    ensures DecodeHeader(EncodeHeader(h)) == h
  {
    Widths();
    HeaderLayout(h);
    LittleEndianInverse(h.state, 4);
    LittleEndianInverse(h.magic, 4);
    LittleEndianInverse(h.flags, 4);
    LittleEndianInverse(h.userSeq, 4);
    LittleEndianInverse(h.totalSize, 8);
    LittleEndianInverse(h.payloadSize, 8);
    LittleEndianInverse(h.epoch, 8);
    LittleEndianInverse(ToUnsigned(h.labelId), 4);
    LittleEndianInverse(ToUnsigned(h.sourceId), 4);
  }

  /** What one send carries. */
  datatype Msg = Msg(source: int32, labelId: int32, userSeq: uint32, payload: seq<byte>)

  /** A reserved stretch of the ring: a message, or the filler that skips to the block start.
      pos counts bytes since the block was (re)initialised; total is the whole reservation. */
  datatype Rec =
    | Data(pos: nat, total: nat, msg: Msg)
    | Wrap(pos: nat, total: nat)
  {
    function End(): nat { pos + total }

    function Payload(): seq<byte> {
      if Data? then msg.payload else []
    }

    function FinalState(): uint32 {
      if Data? then COMMITTED else WRAP
    }

    function Header(epoch: nat): RecordHeader {
      match this
      case Data(_, total, m) =>
        RecordHeader(COMMITTED, MAGIC_NUM, 0, m.userSeq, total, |m.payload|, epoch, m.labelId, m.source)
      case Wrap(_, total) =>
        RecordHeader(WRAP, MAGIC_NUM, 0, 0, total, 0, epoch, 0, 0)
    }

    /** All the bytes a writer lays down except the state word. */
    function Body(epoch: nat): (s: seq<byte>)
      ensures |s| == HEADER_SIZE - 4 + |Payload()|
    {
      HeaderFields(Header(epoch)) + Payload()
    }

    function Image(epoch: nat): (s: seq<byte>)
      ensures |s| == HEADER_SIZE + |Payload()|
    {
      LittleEndian(FinalState(), 4) + Body(epoch)
    }
  }

  /** The first 48 bytes of a record's image decode to the header it was made from. */
  lemma ImageDecodes(r: Rec, epoch: nat)
    requires r.total < TWO_TO_THE_64 && epoch < TWO_TO_THE_64 && |r.Payload()| < TWO_TO_THE_64
    ensures DecodeHeader(r.Image(epoch)[..HEADER_SIZE]) == r.Header(epoch)
    ensures FromLittleEndian(r.Image(epoch)[..4]) == r.FinalState()
    ensures r.Image(epoch)[HEADER_SIZE..] == r.Payload()
  {
    ImageParts(r, epoch);
    HeaderRoundTrip(r.Header(epoch));
    Widths();
    LittleEndianInverse(r.FinalState(), 4);
  }

  /** What a writer lays down, field by field. */
  lemma ImageLayout(r: Rec, epoch: nat)
    ensures var s := r.Image(epoch);
            && FieldAt(s, 0, 4, if r.Data? then 1 else 2) && FieldAt(s, 4, 4, 0x4C4F5245) && FieldAt(s, 8, 4, 0)
            && FieldAt(s, 12, 4, if r.Data? then r.msg.userSeq else 0)
            && FieldAt(s, 16, 8, r.total) && FieldAt(s, 24, 8, |r.Payload()|) && FieldAt(s, 32, 8, epoch)
            && FieldAt(s, 40, 4, if r.Data? then ToUnsigned(r.msg.labelId) else 0)
            && FieldAt(s, 44, 4, if r.Data? then ToUnsigned(r.msg.source) else 0)
            && s[48..] == r.Payload()
  {
    ImageParts(r, epoch);
    HeaderLayout(r.Header(epoch));
    var s, h := r.Image(epoch), EncodeHeader(r.Header(epoch));
    assert s[..48] == h;
    forall a, b | 0 <= a <= b <= 48
      ensures s[a..b] == h[a..b]
    {
      assert s[..48][a..b] == s[a..b];
    }
  }

  lemma ImageParts(r: Rec, epoch: nat)
    ensures r.Image(epoch)[..4] == LittleEndian(r.FinalState(), 4)
    ensures r.Image(epoch)[4..] == r.Body(epoch)
    ensures r.Image(epoch)[..HEADER_SIZE] == EncodeHeader(r.Header(epoch))
    ensures r.Image(epoch)[HEADER_SIZE..] == r.Payload()
  {
    var word, fields := LittleEndian(r.FinalState(), 4), HeaderFields(r.Header(epoch));
    assert r.Image(epoch) == (word + fields) + r.Payload();
  }

  /** The messages among the records, in order. */
  function Messages(rs: seq<Rec>): (ms: seq<Msg>) {
    if rs == [] then []
    else (if rs[0].Data? then [rs[0].msg] else []) + Messages(rs[1..])
  }

  lemma {:induction false} MessagesAppend(a: seq<Rec>, b: seq<Rec>)
    ensures Messages(a + b) == Messages(a) + Messages(b)
  {
    if a == [] {
      assert a + b == b;
    } else {
      assert (a + b)[1..] == a[1..] + b && (a + b)[0] == a[0];
      MessagesAppend(a[1..], b);
      var first := if a[0].Data? then [a[0].msg] else [];
      assert first + (Messages(a[1..]) + Messages(b)) == first + Messages(a[1..]) + Messages(b);
    }
  }

  lemma MessagesPush(rs: seq<Rec>, r: Rec)
    ensures Messages(rs + [r]) == Messages(rs) + (if r.Data? then [r.msg] else [])
  {
    MessagesAppend(rs, [r]);
    assert [r][1..] == [];
  }
}
