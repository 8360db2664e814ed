/** The 28-byte header in front of every label on the wire and in the ring (label_io_types.h), and
    the frame that Manager::send_label builds around a label's data. */
module LabelFrame {
  import opened Bytes
  import opened Records

  const LABEL_HEADER_SIZE := 28
  const FRAME_VERSION: uint16 := 1
  const MAX_LABEL_SIZE := 1024 * 1024
  const INVALID_LABEL: int32 := -1

  // LabelFlag
  const DATA: uint16 := 1
  const PING: uint16 := 8

  predicate HasFlag(flags: uint16, flag: uint16)
    requires flag > 0
  {
    flags / flag % 2 == 1
  }

  datatype LabelHeader = LabelHeader(
    magic: uint32, version: uint16, sourceId: int32, flags: uint16,
    labelId: int32, labelSize: uint32, recvOffset: uint32)

  /** The struct has two bytes of padding behind version and two behind flags; a sender copies
      whatever they hold. */
  type Padding = s: seq<byte> | |s| == 4 witness [0, 0, 0, 0]

  function Encode(h: LabelHeader, pad: Padding): (s: seq<byte>)
    ensures |s| == LABEL_HEADER_SIZE
  {
    LittleEndian(h.magic, 4) + LittleEndian(h.version, 2) + pad[..2]
    + LittleEndian(ToUnsigned(h.sourceId), 4) + LittleEndian(h.flags, 2) + pad[2..]
    + LittleEndian(ToUnsigned(h.labelId), 4) + LittleEndian(h.labelSize, 4) + LittleEndian(h.recvOffset, 4)
  }

  function Decode(s: seq<byte>): LabelHeader
    requires |s| == LABEL_HEADER_SIZE
  {
    Widths();
    LabelHeader(
      FromLittleEndian(s[0..4]), FromLittleEndian(s[4..6]), ToSigned(FromLittleEndian(s[8..12])),
      FromLittleEndian(s[12..14]), ToSigned(FromLittleEndian(s[16..20])),
      FromLittleEndian(s[20..24]), FromLittleEndian(s[24..28]))
  }

  /** Where the fields lie. */
  lemma HeaderLayout(h: LabelHeader, pad: Padding)
    ensures var s := Encode(h, pad);
            && FieldAt(s, 0, 4, h.magic) && FieldAt(s, 4, 2, h.version) && FieldAt(s, 8, 4, ToUnsigned(h.sourceId))
            && FieldAt(s, 12, 2, h.flags) && FieldAt(s, 16, 4, ToUnsigned(h.labelId))
            && FieldAt(s, 20, 4, h.labelSize) && FieldAt(s, 24, 4, h.recvOffset)
  {
    hide LittleEndian;
    var s := Encode(h, pad);
    assert s[0..4] == LittleEndian(h.magic, 4);
    assert s[4..6] == LittleEndian(h.version, 2);
    assert s[8..12] == LittleEndian(ToUnsigned(h.sourceId), 4);
    assert s[12..14] == LittleEndian(h.flags, 2);
    assert s[16..20] == LittleEndian(ToUnsigned(h.labelId), 4);
    assert s[20..24] == LittleEndian(h.labelSize, 4);
    assert s[24..28] == LittleEndian(h.recvOffset, 4);
  }

  /** Whatever the padding holds, the receiver reads back what the sender filled in. */
  lemma LabelHeaderRoundTrip(h: LabelHeader, pad: Padding)
    ensures Decode(Encode(h, pad)) == h
  {
    Widths();
    HeaderLayout(h, pad);
    LittleEndianInverse(h.magic, 4);
    LittleEndianInverse(h.version, 2);
    LittleEndianInverse(ToUnsigned(h.sourceId), 4);
    LittleEndianInverse(h.flags, 2);
    LittleEndianInverse(ToUnsigned(h.labelId), 4);
    LittleEndianInverse(h.labelSize, 4);
    LittleEndianInverse(h.recvOffset, 4);
  }

  /** The message begins with a sound header that declares a label larger than the maximum. */
  predicate DeclaresTooMuch(payload: seq<byte>) {
    && |payload| >= LABEL_HEADER_SIZE
    && var h := Decode(payload[..LABEL_HEADER_SIZE]);
       h.magic == MAGIC_NUM && h.version == FRAME_VERSION && h.labelSize > MAX_LABEL_SIZE
  }

  /** What a receiving node hands to its subscribers. */
  datatype Delivery = Delivery(source: int32, labelId: int32, data: seq<byte>, recvOffset: uint32)

  /** The data that may be sent under a label. */
  predicate Sendable(data: seq<byte>) {
    0 < |data| <= MAX_LABEL_SIZE
  }

  function DataHeader(d: Delivery): LabelHeader
    requires Sendable(d.data)
  {
    LabelHeader(MAGIC_NUM, FRAME_VERSION, d.source, DATA, d.labelId, |d.data|, d.recvOffset)
  }

  /** The buffer Manager::send_label hands to the senders. */
  function DataFrame(d: Delivery, pad: Padding): (s: seq<byte>)
    requires Sendable(d.data)
    ensures |s| == LABEL_HEADER_SIZE + |d.data|
  {
    Encode(DataHeader(d), pad) + d.data
  }

  /** What send_label puts into the buffer, field by field. */
  lemma FrameLayout(d: Delivery, pad: Padding)
    requires Sendable(d.data)
    ensures var s := DataFrame(d, pad);
            && FieldAt(s, 0, 4, 0x4C4F5245) && FieldAt(s, 4, 2, 1) && FieldAt(s, 8, 4, ToUnsigned(d.source))
            && FieldAt(s, 12, 2, 1) && FieldAt(s, 16, 4, ToUnsigned(d.labelId)) && FieldAt(s, 20, 4, |d.data|)
            && FieldAt(s, 24, 4, d.recvOffset) && s[28..] == d.data
  {
    HeaderLayout(DataHeader(d), pad);
    var s, h := DataFrame(d, pad), Encode(DataHeader(d), pad);
    assert s[..28] == h;
    forall a, b | 0 <= a <= b <= 28
      ensures s[a..b] == h[a..b]
    {
      assert s[..28][a..b] == s[a..b];
    }
  }

  /** What send_label builds never declares more than the maximum. */
  lemma FramesAreHonest(d: Delivery, pad: Padding)
    requires Sendable(d.data)
    ensures !DeclaresTooMuch(DataFrame(d, pad))
  {
    DataFrameParts(d, pad);
  }

  /** The debug assertion of build_send_job on the size of a frame. */
  predicate DebugAssertion(total: nat) {
    total <= MAX_LABEL_SIZE
  }

  /** Of the data sizes that open_send accepts, the assertion fails for the largest 28. */
  lemma AssertionFailsFor(d: Delivery, pad: Padding)
    requires Sendable(d.data)
    ensures !DebugAssertion(|DataFrame(d, pad)|) <==> MAX_LABEL_SIZE - LABEL_HEADER_SIZE < |d.data| <= MAX_LABEL_SIZE
  {
  }

  /** Header and data of a frame. */
  lemma DataFrameParts(d: Delivery, pad: Padding)
    requires Sendable(d.data)
    ensures Decode(DataFrame(d, pad)[..LABEL_HEADER_SIZE]) == DataHeader(d)
    ensures DataFrame(d, pad)[LABEL_HEADER_SIZE..] == d.data
  {
    LabelHeaderRoundTrip(DataHeader(d), pad);
    assert DataFrame(d, pad)[..LABEL_HEADER_SIZE] == Encode(DataHeader(d), pad);
  }
}
