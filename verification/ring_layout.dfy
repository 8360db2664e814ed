/** Where records may lie in the data block (shm_header.h, and the arithmetic of
    ShmSend::send), for any block size B that is a multiple of 8. */
module RingLayout {
  import opened Bytes
  import opened Records

  const SHM_HEADER_SIZE := 24
  const SHM_META_SIZE := 320  // five 64-byte lines
  const SHM_BLOCK_SIZE := 128 * 1024 * 1024
  const META_DATA_OFFSET := 64    // see DeployedGeometry
  const DATA_BLOCK_OFFSET := 384
  const DATA_BLOCK_SIZE := SHM_BLOCK_SIZE - DATA_BLOCK_OFFSET

  function AlignUp(n: nat, a: nat): (r: nat)
    requires a > 0
  {
    (n + a - 1) / a * a
  }

  /** AlignUp is the least multiple of a that is at least n. */
  lemma AlignUpIsLeast(n: nat, a: nat)
    requires a > 0
    ensures n <= AlignUp(n, a) < n + a
    ensures AlignUp(n, a) % a == 0
    ensures forall m: nat :: m % a == 0 && n <= m ==> AlignUp(n, a) <= m
  {
    var q := (n + a - 1) / a;
    assert n + a - 1 == q * a + (n + a - 1) % a;
    MultipleMod(q, a);
    forall m: nat | m % a == 0 && n <= m
      ensures AlignUp(n, a) <= m
    {
      var d := m / a;
      assert m == d * a && (d + 1) * a == d * a + a;
      if d < q {
        MulMono(d + 1, q, a);
      } else {
        MulMono(q, d, a);
      }
    }
  }

  lemma MultipleMod(q: nat, a: nat)
    requires a > 0
    ensures (q * a) % a == 0
  {
    if q > 0 {
      MultipleMod(q - 1, a);
      assert q * a == (q - 1) * a + a;
      assert (q * a) % a == ((q - 1) * a) % a by { DropLap((q - 1) * a, a); }
    }
  }

  lemma MulMono(x: nat, y: nat, a: nat)
    requires x <= y
    ensures x * a <= y * a
  {
  }

  /** A multiple of 8, counted down in eights (see AlignedIsMultiple). */
  predicate Aligned(n: nat) {
    n == 0 || (n >= 8 && Aligned(n - 8))
  }

  lemma {:induction false} AlignedIsMultiple(n: nat)
    ensures Aligned(n) <==> n % 8 == 0
  {
    if n >= 8 {
      AlignedIsMultiple(n - 8);
    }
  }

  lemma {:induction false} AlignedSum(a: nat, b: nat)
    requires Aligned(a) && Aligned(b)
    ensures Aligned(a + b)
  {
    if a != 0 {
      AlignedSum(a - 8, b);
    }
  }

  lemma {:induction false} AlignedDifference(a: nat, b: nat)
    requires Aligned(a) && Aligned(b) && b <= a
    ensures Aligned(a - b)
  {
    if b != 0 {
      AlignedDifference(a - 8, b - 8);
    }
  }

  predicate Geometry(B: nat) {
    Aligned(B) && HEADER_SIZE <= B < TWO_TO_THE_64
  }

  /** pos_bytes % DATA_BLOCK_SIZE, by whole laps (see OffsetIsRemainder). */
  function Offset(B: nat, pos: nat): (o: nat)
    requires B > 0
    ensures o < B
  {
    if pos < B then pos else Offset(B, pos - B)
  }

  lemma {:induction false} OffsetIsRemainder(B: nat, pos: nat)
    requires B > 0
    ensures Offset(B, pos) == pos % B
  {
    if pos >= B {
      OffsetIsRemainder(B, pos - B);
      DropLap(pos - B, B);
    }
  }

  lemma DropLap(p: nat, m: nat)
    requires m > 0
    ensures (p + m) % m == p % m
  {
    var q, q' := p / m, (p + m) / m;
    assert p == q * m + p % m && p + m == q' * m + (p + m) % m;
    assert (q + 1) * m == q * m + m && (q + 2) * m == q * m + m + m && (q' + 1) * m == q' * m + m;
    if q + 1 < q' {
      MulMono(q + 2, q', m);
    } else if q' < q + 1 {
      MulMono(q' + 1, q + 1, m);
    }
  }

  /** Adding d to a position moves its block offset by d, or by d - B past the block end. */
  lemma {:induction false} OffsetStep(B: nat, p: nat, d: nat)
    requires 0 < B && d <= B
    ensures Offset(B, p + d) == if Offset(B, p) + d < B then Offset(B, p) + d else Offset(B, p) + d - B
  {
    if p >= B {
      OffsetStep(B, p - B, d);
    }
  }

  lemma {:induction false} OffsetAligned(B: nat, p: nat)
    requires 0 < B && Aligned(B) && Aligned(p)
    ensures Aligned(Offset(B, p))
  {
    if p >= B {
      AlignedDifference(p, B);
      OffsetAligned(B, p - B);
    }
  }

  /** The largest block offset at which a payload may end: a wrap header still fits after it. */
  function UsableLimit(B: nat): nat
    requires Geometry(B)
  {
    B - HEADER_SIZE
  }

  function HeaderOffset(B: nat, pos: nat): nat
    requires Geometry(B)
  {
    DATA_BLOCK_OFFSET + Offset(B, pos)
  }

  function DataOffset(B: nat, pos: nat): nat
    requires Geometry(B)
  {
    HeaderOffset(B, pos) + HEADER_SIZE
  }

  /** Where a position's header and payload lie in the mapping, and how far payloads may reach. */
  lemma Places(B: nat, pos: nat)
    requires Geometry(B)
    ensures HeaderOffset(B, pos) == 384 + pos % B && DataOffset(B, pos) == 384 + pos % B + 48
    ensures UsableLimit(B) == B - 48
  {
    OffsetIsRemainder(B, pos);
  }

  /** Shm::map_to_type on a block of the given total size succeeds. */
  predicate Maps(offset: nat, size: nat, total: nat) {
    offset <= total && size <= total - offset
  }

  /** Space a payload of n bytes takes in the ring. */
  function Reserve(n: nat): (r: nat)
    ensures Aligned(r) && n + HEADER_SIZE <= r < n + HEADER_SIZE + 8
  {
    AlignUpIsLeast(n + HEADER_SIZE, 8);
    AlignedIsMultiple(AlignUp(n + HEADER_SIZE, 8));
    AlignUp(n + HEADER_SIZE, 8)
  }

  /** A position at which a record may begin. */
  predicate Boundary(B: nat, pos: nat)
    requires Geometry(B)
  {
    Aligned(pos) && Offset(B, pos) <= UsableLimit(B)
  }

  predicate WellPlaced(B: nat, r: Rec)
    requires Geometry(B)
  {
    && Boundary(B, r.pos)
    && Aligned(r.total)
    && match r
       case Data(pos, total, m) => total == Reserve(|m.payload|) && Offset(B, pos) + total <= UsableLimit(B)
       case Wrap(pos, total) => Offset(B, pos) + total == B
  }

  /** A well-placed record lies inside the block, holds its whole image, and ends at a boundary. */
  lemma PlacedFits(B: nat, r: Rec)
    requires Geometry(B) && WellPlaced(B, r)
    ensures HEADER_SIZE + |r.Payload()| <= r.total <= B
    ensures Offset(B, r.pos) + r.total <= B
    ensures Boundary(B, r.End())
    ensures Maps(HeaderOffset(B, r.pos), HEADER_SIZE, DATA_BLOCK_OFFSET + B)
    ensures DataOffset(B, r.pos) + |r.Payload()| <= DATA_BLOCK_OFFSET + B
  {
    AlignedSum(r.pos, r.total);
    OffsetStep(B, r.pos, r.total);
  }

  /** Two records that both lie within B bytes of the ring never share a byte of the block. */
  lemma SlotsDisjoint(B: nat, a: Rec, b: Rec)
    requires Geometry(B) && WellPlaced(B, a) && WellPlaced(B, b)
    requires a.End() <= b.pos && b.End() <= a.pos + B
    ensures Offset(B, a.pos) + a.total <= Offset(B, b.pos) || Offset(B, b.pos) + b.total <= Offset(B, a.pos)
  {
    PlacedFits(B, a);
    PlacedFits(B, b);
    OffsetStep(B, a.pos, b.pos - a.pos);
  }

  /** The wrap reservation is never checked against free space; it is safe all the same.
      If h + (B - Offset(B, h)) overran t + B, then t itself would lie in the last 48 bytes of the block. */
  lemma WrapNeverOverruns(B: nat, h: nat, t: nat, reserved: nat)
    requires Geometry(B) && Boundary(B, h) && Boundary(B, t)
    requires t <= h && h - t + reserved <= B
    requires Offset(B, h) + reserved > UsableLimit(B)
    ensures h + (B - Offset(B, h)) - t <= B
    ensures WellPlaced(B, Wrap(h, B - Offset(B, h)))
  {
    OffsetStep(B, t, h - t);
    OffsetAligned(B, h);
    AlignedDifference(B, Offset(B, h));
  }

  /** Record r is complete in memory: its image stands where its position says. */
  predicate Intact(mem: seq<byte>, B: nat, epoch: nat, r: Rec)
    requires Geometry(B) && |mem| == DATA_BLOCK_OFFSET + B && WellPlaced(B, r)
  {
    PlacedFits(B, r);
    var o := HeaderOffset(B, r.pos);
    mem[o..o + HEADER_SIZE + |r.Payload()|] == r.Image(epoch)
  }

  lemma IntactHeader(mem: seq<byte>, B: nat, epoch: nat, r: Rec)
    requires Geometry(B) && |mem| == DATA_BLOCK_OFFSET + B && epoch < TWO_TO_THE_64
    requires WellPlaced(B, r) && Intact(mem, B, epoch, r)
    ensures var o := HeaderOffset(B, r.pos);
            o + HEADER_SIZE <= |mem| && DecodeHeader(mem[o..o + HEADER_SIZE]) == r.Header(epoch)
  {
    hide WellPlaced, Offset, Rec.Image, Rec.Header;
    PlacedFits(B, r);
    ImageDecodes(r, epoch);
    var o, n := HeaderOffset(B, r.pos), HEADER_SIZE + |r.Payload()|;
    PrefixOfSlice(mem, o, o + n, HEADER_SIZE);
  }

  lemma IntactPayload(mem: seq<byte>, B: nat, epoch: nat, r: Rec)
    requires Geometry(B) && |mem| == DATA_BLOCK_OFFSET + B
    requires WellPlaced(B, r) && Intact(mem, B, epoch, r)
    ensures var o := DataOffset(B, r.pos);
            o + |r.Payload()| <= |mem| && mem[o..o + |r.Payload()|] == r.Payload()
  {
    PlacedFits(B, r);
    ImageParts(r, epoch);
    var o, n := HeaderOffset(B, r.pos), HEADER_SIZE + |r.Payload()|;
    SuffixOfSlice(mem, o, o + n, HEADER_SIZE);
  }

  /** How the consumer reads the header at the tail. */
  datatype Sight = Unpublished | Corrupt | OtherEpoch | Unknown | Filler(total: nat) | Ripe(header: RecordHeader)

  function Inspect(bs: seq<byte>, B: nat, epoch: nat): Sight
    requires |bs| == HEADER_SIZE
  {
    var h := DecodeHeader(bs);
    var sane := HEADER_SIZE <= h.totalSize <= B && Aligned(h.totalSize);
    if h.state == WRITING then Unpublished
    else if h.magic != MAGIC_NUM then Corrupt
    else if h.epoch != epoch then OtherEpoch
    else if h.state == COMMITTED then (if sane && h.payloadSize != 0 then Ripe(h) else Corrupt)
    else if h.state == WRAP then (if sane && h.payloadSize == 0 then Filler(h.totalSize) else Corrupt)
    else Unknown
  }

  /** What the bytes behind the complete records are: the state word at the position's block offset
      decides first, then the magic number 4 bytes behind it, the epoch 32 bytes behind it, and total
      and payload size 16 and 24 bytes behind it. Alien stands for a record of this generation in a
      state that does not exist. */
  datatype Beyond = AtHead | InFlight | Garbled | Foreign | Alien | Plausible

  function BeyondAt(mem: seq<byte>, at: nat, B: nat, epoch: nat): (b: Beyond)
    requires at + HEADER_SIZE <= |mem|
    ensures b != AtHead
  {
    var word := mem[at..at + 4];
    var total, payload := FromLittleEndian(mem[at + 16..at + 24]), FromLittleEndian(mem[at + 24..at + 32]);
    if word == [0, 0, 0, 0] then InFlight
    else if mem[at + 4..at + 8] != [0x45, 0x52, 0x4F, 0x4C] then Garbled
    else if FromLittleEndian(mem[at + 32..at + 40]) != epoch then Foreign
    else if word != [1, 0, 0, 0] && word != [2, 0, 0, 0] then Alien
    else if total < 48 || total > B || total % 8 != 0 then Garbled
    else if (word == [1, 0, 0, 0]) == (payload == 0) then Garbled
    else Plausible
  }

  /** The consumer tells these cases apart. */
  lemma InspectBeyond(mem: seq<byte>, B: nat, at: nat, epoch: nat)
    requires at + HEADER_SIZE <= |mem|
    ensures var sight := Inspect(mem[at..at + HEADER_SIZE], B, epoch);
            match BeyondAt(mem, at, B, epoch)
            case InFlight => sight == Unpublished
            case Garbled => sight == Corrupt
            case Foreign => sight == OtherEpoch
            case Alien => sight == Unknown
            case _ =>
              if mem[at..at + 4] == [1, 0, 0, 0] then sight == Ripe(DecodeHeader(mem[at..at + HEADER_SIZE]))
              else sight == Filler(FromLittleEndian(mem[at + 16..at + 24]))
  {
    var bs := mem[at..at + HEADER_SIZE];
    PrefixOfSlice(mem, at, at + HEADER_SIZE, 4);
    assert bs[4..8] == mem[at + 4..at + 8];
    assert bs[16..24] == mem[at + 16..at + 24];
    assert bs[24..32] == mem[at + 24..at + 32];
    assert bs[32..40] == mem[at + 32..at + 40];
    AlignedIsMultiple(FromLittleEndian(bs[16..24]));
    StateBytes(bs[0..4]);
    MagicBytes(bs[4..8]);
  }

  lemma StateBytes(s: seq<byte>)
    requires |s| == 4
    ensures FromLittleEndian(s) == WRITING <==> s == [0, 0, 0, 0]
    ensures FromLittleEndian(s) == COMMITTED <==> s == [1, 0, 0, 0]
    ensures FromLittleEndian(s) == WRAP <==> s == [2, 0, 0, 0]
  {
    FromLittleEndianInverse(s);
    LittleEndianInverse(0, 4);
    LittleEndianInverse(1, 4);
    LittleEndianInverse(2, 4);
    FourBytes(0);
    FourBytes(1);
    FourBytes(2);
  }

  lemma MagicBytes(s: seq<byte>)
    requires |s| == 4
    ensures FromLittleEndian(s) == MAGIC_NUM <==> s == [0x45, 0x52, 0x4F, 0x4C]
  {
    FourBytes(MAGIC_NUM);
    FromLittleEndianInverse(s);
    LittleEndianInverse(MAGIC_NUM, 4);
  }

  /** What the consumer makes of a complete record. */
  function Judge(r: Rec, epoch: nat): Sight {
    if r.Wrap? then Filler(r.total) else if r.msg.payload == [] then Corrupt else Ripe(r.Header(epoch))
  }

  lemma InspectDecoded(bs: seq<byte>, B: nat, epoch: nat, r: Rec)
    requires Geometry(B) && WellPlaced(B, r)
    requires |bs| == HEADER_SIZE && DecodeHeader(bs) == r.Header(epoch)
    ensures Inspect(bs, B, epoch) == Judge(r, epoch)
  {
    PlacedFits(B, r);
  }

  /** The consumer accepts everything a sender publishes, except a message without payload. */
  lemma InspectIntact(mem: seq<byte>, B: nat, epoch: nat, r: Rec)
    requires Geometry(B) && |mem| == DATA_BLOCK_OFFSET + B && epoch < TWO_TO_THE_64
    requires WellPlaced(B, r) && Intact(mem, B, epoch, r)
    ensures var o := HeaderOffset(B, r.pos);
            o + HEADER_SIZE <= |mem| && Inspect(mem[o..o + HEADER_SIZE], B, epoch) == Judge(r, epoch)
  {
    hide WellPlaced, Intact, Inspect, Judge, Offset;
    IntactHeader(mem, B, epoch, r);
    var o := HeaderOffset(B, r.pos);
    InspectDecoded(mem[o..o + HEADER_SIZE], B, epoch, r);
  }

  /** Only bytes of the slot of r have changed. */
  ghost predicate OnlyIn(mem: seq<byte>, mem': seq<byte>, B: nat, r: Rec)
    requires Geometry(B)
  {
    SameOutside(mem, mem', HeaderOffset(B, r.pos), HeaderOffset(B, r.pos) + r.total)
  }

  /** The two records lie within B bytes of each other, one wholly before the other. */
  predicate Apart(B: nat, a: Rec, b: Rec) {
    (a.End() <= b.pos && b.End() <= a.pos + B) || (b.End() <= a.pos && a.End() <= b.pos + B)
  }

  /** Changes inside the slot of b leave every byte of the slot of a as it was. */
  lemma OtherSlotKept(mem: seq<byte>, mem': seq<byte>, B: nat, a: Rec, b: Rec)
    requires Geometry(B) && |mem| == DATA_BLOCK_OFFSET + B && WellPlaced(B, a) && WellPlaced(B, b)
    requires OnlyIn(mem, mem', B, b)
    requires Apart(B, a, b)
    ensures var o := HeaderOffset(B, a.pos);
            o + a.total <= |mem| == |mem'| && mem'[o..o + a.total] == mem[o..o + a.total]
  {
    PlacedFits(B, a);
    if a.End() <= b.pos {
      SlotsDisjoint(B, a, b);
    } else {
      SlotsDisjoint(B, b, a);
    }
  }

  lemma OtherStaysIntact(mem: seq<byte>, mem': seq<byte>, B: nat, epoch: nat, a: Rec, b: Rec)
    requires Geometry(B) && |mem| == DATA_BLOCK_OFFSET + B && WellPlaced(B, a) && WellPlaced(B, b)
    requires OnlyIn(mem, mem', B, b)
    requires Apart(B, a, b)
    requires Intact(mem, B, epoch, a)
    ensures Intact(mem', B, epoch, a)
  {
    PlacedFits(B, a);
    OtherSlotKept(mem, mem', B, a, b);
    var o, n := HeaderOffset(B, a.pos), HEADER_SIZE + |a.Payload()|;
    PrefixOfSlice(mem, o, o + a.total, n);
    PrefixOfSlice(mem', o, o + a.total, n);
  }

  lemma DeployedSize()
    ensures DATA_BLOCK_SIZE == 134217344 && HEADER_SIZE == 48
  {
  }

  /** The constants of shm_header.h give a legal geometry. */
  lemma DeployedGeometry()
    ensures META_DATA_OFFSET == AlignUp(SHM_HEADER_SIZE, 64)
    ensures DATA_BLOCK_OFFSET == AlignUp(META_DATA_OFFSET + SHM_META_SIZE, 64)
    ensures Geometry(DATA_BLOCK_SIZE)
  {
    AlignedIsMultiple(DATA_BLOCK_SIZE);
    assert (SHM_HEADER_SIZE + 64 - 1) / 64 == 1;
    assert (META_DATA_OFFSET + SHM_META_SIZE + 64 - 1) / 64 == 6;
  }
}
