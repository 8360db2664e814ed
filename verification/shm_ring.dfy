/** One node's shared block with the calls of ShmSend and ShmRecv taken one at a time: a byte
    ring of variable-size records that refines a FIFO of messages. */
module ShmRing {
  import opened Bytes
  import opened Records
  import opened RingLayout
  import opened ShmResults

  /** Whether an unhindered send of reserved bytes finds room with the ring at head h, tail t. */
  predicate HasRoom(B: nat, h: nat, t: nat, reserved: nat)
    requires Geometry(B) && t <= h
  {
    var skipped := if Offset(B, h) + reserved > UsableLimit(B) then B - Offset(B, h) else 0;
    reserved <= UsableLimit(B) && h - t + skipped + reserved <= B
  }

  /** A send refused for want of space has left a filler behind if the space up to the tail alone
      would have been enough. */
  function HeadAfterRefusal(B: nat, h: nat, t: nat, reserved: nat): nat
    requires Geometry(B)
  {
    if h - t + reserved > B then h else h + (B - Offset(B, h))
  }

  /** Where the next record goes: at the head, or at the next block start if it would reach into the
      last 48 bytes of the block. */
  function NextPlace(B: nat, h: nat, reserved: nat): nat
    requires Geometry(B)
  {
    if Offset(B, h) + reserved <= UsableLimit(B) then h else h + (B - Offset(B, h))
  }

  /** What an unhindered send answers. */
  function SendOutcome(B: nat, state: BlockState, h: nat, t: nat, size: nat): SendErr
    requires Geometry(B) && t <= h
  {
    if state != Ready then SendNotInitialized
    else if Reserve(size) > B then SizeTooLarge
    else if HasRoom(B, h, t, Reserve(size)) then SendOk
    else NotEnoughSpace
  }

  /** How many of the first n tries are not in casFails. */
  function Chances(casFails: set<nat>, n: nat): nat {
    if n == 0 then 0 else Chances(casFails, n - 1) + if n - 1 in casFails then 0 else 1
  }

  /** The reservation loop ends without a decision: it needs one compare-exchange to succeed, two when
      a filler comes first, or one for the filler and another try to see that the space behind it is
      not enough. */
  predicate GivesUp(B: nat, h: nat, t: nat, reserved: nat, casFails: set<nat>)
    requires Geometry(B) && t <= h
  {
    && h - t + reserved <= B
    && if Offset(B, h) + reserved <= UsableLimit(B) then Chances(casFails, MAX_TRIES) == 0
       else if HasRoom(B, h, t, reserved) then Chances(casFails, MAX_TRIES) <= 1
       else Chances(casFails, MAX_TRIES - 1) == 0
  }

  lemma {:induction false} ChancesGrow(casFails: set<nat>, n: nat, m: nat)
    requires n <= m
    ensures Chances(casFails, n) <= Chances(casFails, m)
  {
    if n < m { ChancesGrow(casFails, n, m - 1); }
  }

  /** What recv answers when the unread messages are q. */
  function RecvOutcome(state: BlockState, q: seq<Msg>, beyond: Beyond, maxSize: nat): RecvErr {
    if state != Ready then RecvNotInitialized
    else if q == [] then (
      match beyond
      case InFlight => NotYetPublished
      case Garbled => BlockCorrupted
      case Alien => UnknownError
      case _ => NoRecords)
    else if q[0].payload == [] then BlockCorrupted
    else if |q[0].payload| > maxSize then LabelTooLarge
    else RecvOk
  }

  /** How the consumer takes what is not a published record of this generation. */
  function SightOf(beyond: Beyond): Sight {
    match beyond
    case Garbled => Corrupt
    case Foreign => OtherEpoch
    case Alien => Unknown
    case _ => Unpublished
  }

  /** What recv hands back besides the bytes it copied out. */
  datatype Received = Nothing | Received(source: int32, labelId: int32, userSeq: uint32, size: nat)

  datatype Verdict = Reserved | Failed(err: SendErr) | Again

  /** What one pass of the reservation loop decides when nobody else moves the head. */
  function ReserveVerdict(B: nat, h: nat, t: nat, reserved: nat, casOk: bool): Verdict
    requires Geometry(B)
  {
    if h - t + reserved > B then Failed(NotEnoughSpace)
    else if casOk && Offset(B, h) + reserved <= UsableLimit(B) then Reserved
    else Again
  }

  /** The records fill [from, end) without gaps, each where a record may lie and complete in memory. */
  ghost predicate Ring(mem: seq<byte>, B: nat, epoch: nat, rs: seq<Rec>, from: nat, end: nat)
    requires Geometry(B) && |mem| == DATA_BLOCK_OFFSET + B
    ensures Ring(mem, B, epoch, rs, from, end) ==> from <= end
  {
    if rs == [] then from == end
    else WellPlaced(B, rs[0]) && rs[0].pos == from && Intact(mem, B, epoch, rs[0])
         && Ring(mem, B, epoch, rs[1..], rs[0].End(), end)
  }

  /** Writing one more record into its slot behind the others disturbs none of them. */
  lemma {:induction false} RingPush(mem: seq<byte>, mem': seq<byte>, B: nat, epoch: nat, rs: seq<Rec>,
      from: nat, r: Rec)
    requires Geometry(B) && |mem| == DATA_BLOCK_OFFSET + B
    requires Ring(mem, B, epoch, rs, from, r.pos)
    requires WellPlaced(B, r) && r.End() - from <= B
    requires OnlyIn(mem, mem', B, r) && Intact(mem', B, epoch, r)
    ensures Ring(mem', B, epoch, rs + [r], from, r.End())
  {
    if rs == [] {
      assert [r][1..] == [];
    } else {
      OtherStaysIntact(mem, mem', B, epoch, rs[0], r);
      RingPush(mem, mem', B, epoch, rs[1..], rs[0].End(), r);
      assert (rs + [r])[1..] == rs[1..] + [r];
    }
  }

  lemma {:induction false} RingEndsAtBoundary(mem: seq<byte>, B: nat, epoch: nat, rs: seq<Rec>, from: nat, end: nat)
    requires Geometry(B) && |mem| == DATA_BLOCK_OFFSET + B
    requires Ring(mem, B, epoch, rs, from, end) && Boundary(B, from)
    ensures Boundary(B, end)
  {
    if rs != [] {
      PlacedFits(B, rs[0]);
      RingEndsAtBoundary(mem, B, epoch, rs[1..], rs[0].End(), end);
    }
  }

  class ShmBlock {
    const B: nat             // DATA_BLOCK_SIZE
    const mem: array<byte>   // the whole mapping; header and metadata live in the fields below

    // ShmHeader
    var state: BlockState
    var magic: uint32
    var version: nat
    var totalSize: nat
    // ShmMetaData
    var nodeId: int32
    var dataBlockSize: nat
    var generation: nat
    var head: nat
    var tail: nat

    ghost var recs: seq<Rec> // the records between tail and head

    ghost predicate Mapped()
    {
      Geometry(B) && mem.Length == DATA_BLOCK_OFFSET + B
    }

    /** The records between tail and end are all there and fit the block. */
    ghost predicate Consistent(end: nat)
      reads this`tail, this`recs, this`generation, mem
    {
      && Mapped()
      && generation < TWO_TO_THE_64
      && Boundary(B, tail)
      && end - tail <= B
      && Ring(mem[..], B, generation, recs, tail, end)
    }

    ghost predicate Valid()
      reads this`head, this`tail, this`recs, this`generation, mem
    {
      Consistent(head)
    }

    /** What stands at position p, nothing if that is the head. */
    ghost function WhatIsBeyond(p: nat): Beyond
      requires Mapped() && Boundary(B, p)
      reads this`head, this`generation, mem
    {
      if p == head then AtHead else BeyondAt(mem[..], HeaderOffset(B, p), B, generation)
    }

    /** The records up to p are complete, and what stands behind them is not a published record of
        this generation. */
    ghost predicate Interrupted(p: nat)
      reads this`head, this`tail, this`recs, this`generation, mem
    {
      && Consistent(p) && p <= head && Boundary(B, p) && Boundary(B, head)
      && WhatIsBeyond(p) != Plausible
    }

    /** The unread messages, oldest first. */
    ghost function Contents(): seq<Msg>
      reads this`recs
    {
      Messages(recs)
    }

    constructor (B: nat, id: int32)
      requires Geometry(B)
      ensures fresh(mem) && this.B == B && Mapped()
      ensures Valid() && Contents() == [] && head == tail == 0 && state == Ready
      ensures forall i :: DATA_BLOCK_OFFSET <= i < mem.Length ==> mem[i] == 0
    {
      this.B := B;
      this.mem := new byte[DATA_BLOCK_OFFSET + B];
      this.generation := 0;
      new;
      InitAsNew(id);
    }

    method InitAsNew(id: int32)
      requires Mapped()
      modifies this, mem
      ensures Valid() && Contents() == [] && head == tail == 0
      ensures state == Ready && generation == 1
      ensures magic == MAGIC_NUM && version == VERSION && totalSize == mem.Length
      ensures nodeId == id && dataBlockSize == B
      ensures forall i :: SHM_HEADER_SIZE <= i < mem.Length ==> mem[i] == 0
    {
      state := Initing;
      magic, version, totalSize := MAGIC_NUM, VERSION, mem.Length;
      for i := SHM_HEADER_SIZE to mem.Length
        modifies mem
        invariant forall j :: SHM_HEADER_SIZE <= j < i ==> mem[j] == 0
      {
        mem[i] := 0;
      }
      nodeId, dataBlockSize := id, B;
      generation, head, tail := 1, 0, 0;
      recs := [];
      state := Ready;
    }

    /** Forget everything and move to a new generation; trusts nothing it finds in the block. */
    method Reinit(id: int32)
      requires Mapped()
      modifies this, mem
      ensures Valid() && Contents() == [] && head == tail == 0 && state == Ready
      ensures magic == MAGIC_NUM && version == VERSION && totalSize == mem.Length
      ensures nodeId == id && dataBlockSize == B
      ensures if old(magic) == MAGIC_NUM && old(version) == VERSION && old(totalSize) == mem.Length
              then generation == (old(generation) + 1) % TWO_TO_THE_64 && mem[..] == old(mem[..])
              else generation == 1 && forall i :: SHM_HEADER_SIZE <= i < mem.Length ==> mem[i] == 0
    {
      state := Initing;
      if magic != MAGIC_NUM || version != VERSION || totalSize != mem.Length {
        InitAsNew(id);
        return;
      }
      nodeId, dataBlockSize := id, B;
      generation := (generation + 1) % TWO_TO_THE_64;
      head, tail := 0, 0;
      recs := [];
      state := Ready;
    }

    /** Drop everything up to the head, complete or not and of whatever generation, by moving the tail. */
    method FlushBacklog()
      requires Mapped() && generation < TWO_TO_THE_64 && Boundary(B, head)
      modifies this`tail, this`recs
      ensures Valid() && recs == [] && Contents() == [] && tail == head
    {
      tail := head;
      recs := [];
    }

    /** Shm::write */
    method Write(bs: seq<byte>, offset: nat) returns (ok: bool)
      modifies mem
      ensures ok <==> offset + |bs| <= mem.Length
      ensures ok ==> mem[..] == Splice(old(mem[..]), offset, bs)
      ensures !ok ==> mem[..] == old(mem[..])
    {
      if |bs| > mem.Length || offset + |bs| > mem.Length {
        return false;
      }
      for i := 0 to |bs|
        invariant forall j :: 0 <= j < mem.Length ==>
          mem[j] == if offset <= j < offset + i then bs[j - offset] else old(mem[j])
      {
        mem[offset + i] := bs[i];
      }
      SpliceIsLocal(old(mem[..]), offset, bs);
      assert mem[..] == Splice(old(mem[..]), offset, bs) by {
        forall i: nat | i < mem.Length
          ensures mem[i] == Splice(old(mem[..]), offset, bs)[i]
        {
          SpliceAt(old(mem[..]), offset, bs, i);
        }
      }
      ok := true;
    }

    /** The stores of a writer at block offset at: a first state word, header fields and payload,
        and last the final state word. */
    method Store(at: nat, first: seq<byte>, fields: seq<byte>, payload: seq<byte>, last: seq<byte>)
      requires |first| == |last| && at + |last| + |fields| + |payload| <= mem.Length
      modifies mem
      ensures mem[..] == Stored(old(mem[..]), at, first, fields, payload, last)
    {
      var ok := Write(first, at);
      ok := Write(fields, at + |last|);
      ok := Write(payload, at + |last| + |fields|);
      ok := Write(last, at);
    }

    /** A record goes into the slot at position r.pos. */
    method Publish(r: Rec)
      requires Consistent(r.pos) && WellPlaced(B, r) && r.End() - tail <= B
      modifies mem, this`recs
      ensures Consistent(r.End())
      ensures recs == old(recs) + [r]
    {
      ghost var before := mem[..];
      PlacedFits(B, r);
      var at, fields := HeaderOffset(B, r.pos), HeaderFields(r.Header(generation));
      var first, last := LittleEndian(WRITING, 4), LittleEndian(r.FinalState(), 4);
      StoredBytes(before, at, first, fields, r.Payload(), last);
      Store(at, first, fields, r.Payload(), last);
      RingPush(before, mem[..], B, generation, recs, tail, r);
      recs := recs + [r];
    }

    /** The head moves to the next block start and a WRAP record fills the gap. */
    method PublishWrap()
      requires Valid() && Boundary(B, head)
      requires WellPlaced(B, Wrap(head, B - Offset(B, head))) && head + (B - Offset(B, head)) - tail <= B
      modifies mem, this`head, this`recs
      ensures Valid() && Messages(recs) == old(Messages(recs))
      ensures head == old(head) + (B - Offset(B, old(head))) && Offset(B, head) == 0
    {
      var h, space := head, B - Offset(B, head);
      var filler := Wrap(h, space);
      OffsetStep(B, h, space);
      PlacedFits(B, filler);
      MessagesPush(recs, filler);
      head := h + space;
      if Maps(HeaderOffset(B, h), HEADER_SIZE, mem.Length) {
        Publish(filler);
      }
    }

    /** A data record of the given total may be placed at position at. */
    ghost predicate CanHold(at: nat, total: nat)
      requires Mapped()
      reads this`tail
    {
      Boundary(B, at) && at + total - tail <= B && Offset(B, at) + total <= UsableLimit(B)
    }

    /** One pass of the reservation loop from a loaded head h: Reserved at h, Failed for good, or
        Again after a wrap record or a lost compare-exchange. */
    method TryReserve(h: nat, reserved: nat, casOk: bool) returns (verdict: Verdict)
      requires Valid() && h == head && HEADER_SIZE <= reserved <= B && Aligned(reserved)
      modifies this`head, this`recs, mem
      ensures verdict == ReserveVerdict(B, h, tail, reserved, casOk)
      ensures Messages(recs) == old(Messages(recs)) && tail <= h
      ensures if verdict == Reserved then Consistent(h) && head == h + reserved && CanHold(h, reserved) else Valid()
      ensures verdict == Again && casOk ==> head == h + (B - Offset(B, h)) && Offset(B, head) == 0
      ensures verdict == Again && !casOk ==> head == h
      ensures verdict.Failed? ==> head == h
    {
      EndIsBoundary(head);
      var t := tail;
      if h < t {
        return Again;
      }
      var used := h - t;
      if used + reserved > B {
        return Failed(NotEnoughSpace);
      }
      var offset := Offset(B, h);
      if offset > UsableLimit(B) {
        return Failed(AllocatorCorrupted);
      }
      if !casOk || head != h {
        return Again;
      }
      if offset + reserved > UsableLimit(B) {
        WrapNeverOverruns(B, h, t, reserved);
        PublishWrap();
        return Again;
      }
      head := h + reserved;
      return Reserved;
    }

    /** The reservation loop of ShmSend::send. casFails holds the tries whose weak compare-exchange
        fails although nobody moved the head. */
    method ReserveSpace(reserved: nat, casFails: set<nat>) returns (err: SendErr, at: nat, ghost tries: nat)
      requires Valid() && HEADER_SIZE <= reserved <= B && Aligned(reserved)
      modifies this`head, this`recs, mem
      ensures Messages(recs) == old(Messages(recs)) && tail <= old(head)
      ensures if err == SendOk
              then Consistent(at) && head == at + reserved && CanHold(at, reserved)
              else Valid()
      ensures err == if GivesUp(B, old(head), tail, reserved, casFails) then CouldNotAllocate
                     else if HasRoom(B, old(head), tail, reserved) then SendOk else NotEnoughSpace
      ensures casFails == {} ==> err != CouldNotAllocate && tries <= 2
      ensures err == SendOk ==> at == NextPlace(B, old(head), reserved)
      ensures err == NotEnoughSpace ==> head == HeadAfterRefusal(B, old(head), tail, reserved)
      ensures err == CouldNotAllocate ==>
                head == if Chances(casFails, MAX_TRIES) == 0 then old(head) else NextPlace(B, old(head), reserved)
    {
      hide Ring, Messages, Boundary;
      ghost var h0, wrapped := head, false;
      err, at, tries := CouldNotAllocate, head, 0;
      EndIsBoundary(head);
      for n := 0 to MAX_TRIES
        invariant Valid() && tail <= h0 <= head && tries == n
        invariant Messages(recs) == old(Messages(recs))
        invariant if wrapped then head == h0 + (B - Offset(B, h0)) && Offset(B, head) == 0
                                  && Offset(B, h0) + reserved > UsableLimit(B) && h0 - tail + reserved <= B
                  else head == h0
        invariant Chances(casFails, n) == if wrapped then 1 else 0
        invariant n > 0 ==> Chances(casFails, n - 1) == if wrapped && n - 1 in casFails then 1 else 0
        invariant n > 0 && wrapped && n - 1 in casFails ==> HasRoom(B, h0, tail, reserved)
        invariant n > 0 ==> h0 - tail + reserved <= B
        invariant casFails == {} ==> n == if wrapped then 1 else 0
      {
        at := head;
        var verdict := TryReserve(at, reserved, n !in casFails);
        tries := n + 1;
        if verdict != Again {
          ChancesGrow(casFails, n, MAX_TRIES - 1);
          ChancesGrow(casFails, n + 1, MAX_TRIES);
          err := if verdict == Reserved then SendOk else verdict.err;
          return;
        }
        wrapped := wrapped || n !in casFails;
      }
    }

    lemma EndIsBoundary(end: nat)
      requires Consistent(end)
      ensures Boundary(B, end) && tail <= end
    {
      RingEndsAtBoundary(mem[..], B, generation, recs, tail, end);
    }

    /** ShmSend::send */
    method Send(id: int32, labelId: int32, userSeq: uint32, buf: seq<byte>, casFails: set<nat>)
      returns (err: SendErr, ghost tries: nat)
      requires Valid()
      modifies this`head, this`recs, mem
      ensures Valid() && tail <= old(head)
      ensures Contents() == if err == SendOk then old(Contents()) + [Msg(id, labelId, userSeq, buf)]
          else old(Contents())
      ensures err == if state == Ready && Reserve(|buf|) <= B
                        && GivesUp(B, old(head), tail, Reserve(|buf|), casFails) then CouldNotAllocate
                     else SendOutcome(B, state, old(head), tail, |buf|)
      ensures casFails == {} ==> err != CouldNotAllocate && tries <= 2
      ensures err == SendOk ==> head == NextPlace(B, old(head), Reserve(|buf|)) + Reserve(|buf|)
      ensures err == NotEnoughSpace ==> head == HeadAfterRefusal(B, old(head), tail, Reserve(|buf|))
    {
      tries := 0;
      EndIsBoundary(head);
      if state != Ready {
        return SendNotInitialized, tries;
      }
      var gen := generation;
      var reserved := Reserve(|buf|);
      if reserved > B {
        return SizeTooLarge, tries;
      }
      var at;
      err, at, tries := ReserveSpace(reserved, casFails);
      if err == SendOk {
        err := Commit(at, reserved, gen, Msg(id, labelId, userSeq, buf));
      }
    }

    /** The rest of send once the space at position at is reserved; gen is the generation at the start
        of the call. If the block has been re-initialised since, nothing is written. */
    method Commit(at: nat, reserved: nat, gen: nat, m: Msg) returns (err: SendErr)
      requires Consistent(at) && head == at + reserved && CanHold(at, reserved)
      requires reserved == Reserve(|m.payload|)
      modifies this`recs, mem
      ensures err == if state == Ready && generation == gen then SendOk else SendReinitialized
      ensures if err == SendOk then Valid() && Contents() == old(Contents()) + [m]
              else recs == old(recs) && mem[..] == old(mem[..])
    {
      if state != Ready || generation != gen {
        return SendReinitialized;
      }
      var r := Data(at, reserved, m);
      PlacedFits(B, r);
      if !Maps(HeaderOffset(B, at), HEADER_SIZE, mem.Length) {
        return SendBadOffset;
      }
      MessagesPush(recs, r);
      Publish(r);
      err := SendOk;
    }

    /** Consume the oldest record. */
    method AdvanceTail(total: nat, ghost p: nat)
      requires Consistent(p) && recs != [] && total == recs[0].total
      modifies this`tail, this`recs
      ensures Consistent(p) && recs == old(recs)[1..]
    {
      ghost var m := mem[..];
      PlacedFits(B, recs[0]);
      tail := tail + total;
      recs := recs[1..];
      assert mem[..] == m;
    }

    /** Read the header at the tail. */
    method LookAt(t: nat, ghost p: nat) returns (sight: Sight)
      requires Interrupted(p) && t == tail && t < head
      ensures if recs == [] then t == p && sight == SightOf(WhatIsBeyond(p)) else sight == Judge(recs[0], generation)
    {
      hide Inspect, Judge, BeyondAt, Intact, Messages;
      ghost var m := mem[..];
      if recs != [] {
        PlacedFits(B, recs[0]);
        InspectIntact(m, B, generation, recs[0]);
      } else {
        InspectBeyond(m, B, HeaderOffset(B, t), generation);
      }
      var at := HeaderOffset(B, t);
      assert mem[at..at + HEADER_SIZE] == m[at..at + HEADER_SIZE];
      sight := Inspect(mem[at..at + HEADER_SIZE], B, generation);
    }

    /** The first half of recv: move past wrap records up to a committed data record. */
    method NextCommitted(ghost p: nat) returns (err: RecvErr, sight: Sight)
      requires Interrupted(p)
      modifies this`tail, this`recs
      ensures var q, beyond := old(Messages(recs)), old(WhatIsBeyond(p));
              && err == (if q == [] then RecvOutcome(Ready, q, beyond, 0)
                         else if q[0].payload == [] then BlockCorrupted else RecvOk)
              && if q == [] && beyond == Foreign then Valid() && recs == [] && tail == head
                 else Interrupted(p) && Messages(recs) == q && (q == [] ==> recs == [] && tail == p)
      ensures err == RecvOk ==> recs != [] && recs[0].Data? && sight == Ripe(recs[0].Header(generation))
    {
      hide Ring, Inspect, Boundary, BeyondAt;
      sight := Unpublished;
      var t, h := tail, head;
      TailBelow(p);
      if h == t {
        return NoRecords, sight;
      }
      if h < t {
        return TailCorruption, sight;
      }
      while h > t
        invariant Interrupted(p) && t == tail && h == head && WhatIsBeyond(p) == old(WhatIsBeyond(p))
        invariant Messages(recs) == old(Messages(recs))
        invariant t <= h && (recs != [] ==> t < p) && (recs == [] ==> t == p)
        decreases |recs|
      {
        sight := LookAt(t, p);
        if sight.Filler? {
          AdvanceTail(sight.total, p);
          t, h := tail, head;
          TailBelow(p);
        } else if sight.Ripe? {
          return RecvOk, sight;
        } else {
          err := Refuse(sight, p);
          return;
        }
      }
      return NoRecords, sight;
    }

    lemma TailBelow(p: nat)
      requires Interrupted(p)
      ensures tail <= p <= head && (recs != [] ==> tail < p) && (recs == [] ==> tail == p)
    {
      if recs != [] { PlacedFits(B, recs[0]); }
    }

    /** What recv answers to a record it does not take; a foreign epoch costs the whole backlog. */
    method Refuse(sight: Sight, ghost p: nat) returns (err: RecvErr)
      requires Interrupted(p) && !sight.Filler? && !sight.Ripe?
      modifies this`tail, this`recs
      ensures if sight == OtherEpoch then Valid() && recs == [] && tail == head
              else Interrupted(p) && recs == old(recs) && tail == old(tail)
      ensures err == if sight == Unpublished then NotYetPublished else if sight == Corrupt then BlockCorrupted
                     else if sight == OtherEpoch then NoRecords else UnknownError
    {
      match sight
      case Unpublished => err := NotYetPublished;
      case Corrupt => err := BlockCorrupted;
      case OtherEpoch =>
        FlushBacklog();
        err := NoRecords;
      case Unknown => err := UnknownError;
    }

    /** Shm::read */
    method Read(dst: array<byte>, size: nat, offset: nat) returns (ok: bool)
      requires dst != mem && size <= dst.Length
      modifies dst
      ensures ok <==> offset + size <= mem.Length
      ensures ok ==> dst[..] == mem[..][offset..offset + size] + old(dst[..])[size..]
      ensures !ok ==> dst[..] == old(dst[..])
    {
      if size > mem.Length || offset + size > mem.Length {
        return false;
      }
      for i := 0 to size
        invariant forall j :: 0 <= j < dst.Length ==> dst[j] == if j < i then mem[offset + j] else old(dst[j])
      {
        dst[i] := mem[offset + i];
      }
      ok := true;
    }

    /** ShmRecv::recv, on a block whose records up to p are complete. Messages before p are received
        whatever lies behind them. With none left, a record whose state bytes are zero is reported and
        stays, a header of another generation costs everything up to the head, and garbage stays for
        the caller to deal with. */
    method Recv(recvBuf: array<byte>, maxSize: nat, ghost p: nat) returns (err: RecvErr, out: Received)
      requires Interrupted(p) && maxSize <= recvBuf.Length && recvBuf != mem
      modifies this`tail, this`recs, recvBuf
      ensures err == RecvOutcome(state, old(Contents()), old(WhatIsBeyond(p)), maxSize)
      ensures if state == Ready && old(Contents()) == [] && old(WhatIsBeyond(p)) == Foreign
              then Valid() && recs == [] && tail == head
              else Interrupted(p) && (state == Ready && old(Contents()) == [] ==> recs == [] && tail == p)
                   && Contents() == if err == RecvOk then old(Contents())[1..] else old(Contents())
      ensures err != RecvOk ==> recvBuf[..] == old(recvBuf[..])
      ensures err == RecvOk ==>
                var m := old(Contents())[0];
                && out == Received(m.source, m.labelId, m.userSeq, |m.payload|)
                && recvBuf[..] == m.payload + old(recvBuf[..])[|m.payload|..]
    {
      hide Ring, Inspect, Boundary, BeyondAt;
      out := Nothing;
      if state != Ready {
        return RecvNotInitialized, out;
      }
      var sight;
      err, sight := NextCommitted(p);
      if err != RecvOk {
        return;
      }
      if sight.header.payloadSize > maxSize {
        return LabelTooLarge, out;
      }
      out := TakeOldest(sight.header, recvBuf, p);
    }

    /** The second half of recv: copy the committed record at the tail out and consume it. */
    method TakeOldest(h: RecordHeader, recvBuf: array<byte>, ghost p: nat) returns (out: Received)
      requires Interrupted(p) && recvBuf != mem
      requires recs != [] && recs[0].Data? && h == recs[0].Header(generation) && h.payloadSize <= recvBuf.Length
      modifies this`tail, this`recs, recvBuf
      ensures Interrupted(p) && recs == old(recs)[1..]
      ensures var m := old(recs)[0].msg;
              && out == Received(m.source, m.labelId, m.userSeq, |m.payload|)
              && recvBuf[..] == m.payload + old(recvBuf[..])[|m.payload|..]
    {
      hide Inspect, BeyondAt, Judge;
      ghost var r, before := recs[0], mem[..];
      PlacedFits(B, r);
      IntactPayload(mem[..], B, generation, r);
      var ok := Read(recvBuf, h.payloadSize, DataOffset(B, tail));
      out := Received(h.sourceId, h.labelId, h.userSeq, h.payloadSize);
      assert mem[..] == before;
      AdvanceTail(h.totalSize, p);
    }
  }
}
