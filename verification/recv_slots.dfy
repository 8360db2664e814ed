/** A subscriber's message slots and IOSB ring: delivery in the four signal modes
    (Router::distribute_recvd_label, write_recv_iosb) and the calls that change them (root.cpp). */
module RecvSlots {
  import opened Bytes
  import opened RingLayout
  import opened SlotRings

  datatype SignalMode = Overwrite | BufferFull | EveryMessage | SignalAllWriteAll

  /** What a receive IOSB says about a message. */
  datatype RecvIosb = RecvIosb(words: nat, slot: nat, labelId: int32, dst: nat, source: int32)

  predicate Bounded(mode: SignalMode) {
    mode.BufferFull? || mode.EveryMessage?
  }

  /** The buffer cut into slots. */
  function Cut(buf: seq<byte>, slots: nat, size: nat): (cells: seq<seq<byte>>)
    requires slots * size <= |buf|
    ensures |cells| == slots
  {
    seq(slots, i requires 0 <= i < slots => SlotBytes(buf, slots, size, i))
  }

  function SlotBytes(buf: seq<byte>, slots: nat, size: nat, i: nat): seq<byte>
    requires i < slots && slots * size <= |buf|
  {
    SlotFits(slots, size, i);
    buf[i * size..i * size + size]
  }

  lemma SlotFits(slots: nat, size: nat, i: nat)
    requires i < slots
    ensures i * size + size <= slots * size
  {
    assert i * size + size == (i + 1) * size;
    MulMono(i + 1, slots, size);
  }

  /** Copying a message into slot i changes that slot and no other. */
  lemma CutWrite(buf: seq<byte>, buf': seq<byte>, slots: nat, size: nat, i: nat, data: seq<byte>)
    requires slots * size <= |buf| && i < slots && |data| == size
    requires i * size + size <= |buf| && buf' == Splice(buf, i * size, data)
    ensures Cut(buf', slots, size) == Cut(buf, slots, size)[i := data]
  {
    SpliceIsLocal(buf, i * size, data);
    forall k: nat | k < slots && k != i
      ensures SlotBytes(buf', slots, size, k) == SlotBytes(buf, slots, size, k)
    {
      SlotFits(slots, size, k);
      if k < i {
        assert k * size + size == (k + 1) * size;
        MulMono(k + 1, i, size);
      } else {
        assert i * size + size == (i + 1) * size;
        MulMono(i + 1, k, size);
      }
    }
  }

  /** What can happen to the unread messages of a subscriber in a bounded mode. */
  datatype Event = Offer(m: seq<byte>) | Drop(n: nat) | Clear

  /** A bounded queue refuses what it has no room for and drops from the front. */
  function After(q: seq<seq<byte>>, slots: nat, e: Event): seq<seq<byte>> {
    match e
    case Offer(m) => if |q| < slots then q + [m] else q
    case Drop(n) => q[Min(n, |q|)..]
    case Clear => []
  }

  function Queue(slots: nat, es: seq<Event>): seq<seq<byte>> {
    if es == [] then [] else After(Queue(slots, es[..|es| - 1]), slots, es[|es| - 1])
  }

  /** The messages taken in since the last time the subscriber started over. */
  function Accepted(slots: nat, es: seq<Event>): seq<seq<byte>> {
    if es == [] then []
    else
      var before, e := es[..|es| - 1], es[|es| - 1];
      match e
      case Offer(m) => Accepted(slots, before) + (if |Queue(slots, before)| < slots then [m] else [])
      case Drop(_) => Accepted(slots, before)
      case Clear => []
  }

  /** Over any run of deliveries, dismissals and restarts the unread messages are the latest of those
      taken in, in order and without gaps, and never more than there are slots. */
  lemma {:induction false} QueueIsSuffix(slots: nat, es: seq<Event>)
    ensures var q, all := Queue(slots, es), Accepted(slots, es);
            |q| <= slots && |q| <= |all| && q == all[|all| - |q|..]
  {
    hide After;
    if es != [] {
      var n := |es| - 1;
      QueueIsSuffix(slots, es[..n]);
      SuffixKept(Queue(slots, es[..n]), Accepted(slots, es[..n]), slots, es[n]);
    }
  }

  lemma SuffixKept(q: seq<seq<byte>>, all: seq<seq<byte>>, slots: nat, e: Event)
    requires |q| <= slots && |q| <= |all| && q == all[|all| - |q|..]
    ensures var q' := After(q, slots, e);
            var all' := if e.Clear? then [] else if e.Offer? && |q| < slots then all + [e.m] else all;
            |q'| <= slots && |q'| <= |all'| && q' == all'[|all'| - |q'|..]
  {
    match e
    case Offer(m) =>
      if |q| < slots { assert (all + [m])[|all| - |q|..] == all[|all| - |q|..] + [m]; }
    case Drop(k) =>
      var d := Min(k, |q|);
      assert all[|all| - |q|..][d..] == all[|all| - |q| + d..];
    case Clear =>
  }

  class RecvHandle {
    const labelId: int32
    const size: nat          // buf_size
    const slots: uint32      // buf_slots
    const mode: SignalMode
    const iosb: array<RecvIosb>   // empty when the subscriber gave none
    var buf: array<byte>
    var aux: array?<byte>
    var bufIndex: nat
    var recvCount: uint32
    var iosbIndex: nat
    var idle: bool
    var signals: nat         // posts of the subscriber's semaphore

    ghost var since: seq<seq<byte>>      // messages stored since open, reset or redirect
    ghost var records: seq<RecvIosb>     // every IOSB record written

    ghost predicate Valid()
      reads this`buf, this`aux, this`bufIndex, this`recvCount, this`iosbIndex, this`since, this`records, buf, iosb
    {
      && 0 < slots && 0 < size
      && slots * size <= buf.Length && (aux != null ==> slots * size <= aux.Length)
      && bufIndex == Offset(slots, |since|)
      && Holds(Cut(buf[..], slots, size), since)
      && recvCount <= |since| && (Bounded(mode) ==> recvCount <= slots)
      && (iosb.Length > 0 ==> iosbIndex == Offset(iosb.Length, |records|))
      && Holds(iosb[..], records)
    }

    /** The messages stored and not dismissed, oldest first. */
    ghost function Unread(): seq<seq<byte>>
      requires recvCount <= |since|
      reads this`recvCount, this`since
    {
      since[|since| - recvCount..]
    }

    constructor (labelId: int32, buf: array<byte>, size: nat, slots: uint32, aux: array?<byte>,
        iosb: array<RecvIosb>, mode: SignalMode)
      requires 0 < slots && 0 < size && slots * size <= buf.Length && (aux != null ==> slots * size <= aux.Length)
      ensures Valid() && since == [] && records == [] && recvCount == 0 && bufIndex == 0 && !idle && signals == 0
      ensures this.buf == buf && this.aux == aux && this.iosb == iosb && this.labelId == labelId
      ensures this.size == size && this.slots == slots && this.mode == mode
    {
      this.labelId, this.size, this.slots, this.mode, this.iosb := labelId, size, slots, mode, iosb;
      this.buf, this.aux := buf, aux;
      bufIndex, recvCount, iosbIndex, idle, signals := 0, 0, 0, false, 0;
      since, records := [], [];
    }

    /** Copy a message into the slot at the write index and count it. */
    method StoreMessage(data: seq<byte>)
      requires Valid() && |data| == size && (Bounded(mode) ==> recvCount < slots)
      modifies buf, this`bufIndex, this`recvCount, this`since
      ensures Valid() && since == old(since) + [data]
      ensures recvCount == (old(recvCount) + 1) % TWO_TO_THE_32
      ensures Bounded(mode) ==> recvCount == old(recvCount) + 1 && Unread() == old(Unread()) + [data]
      ensures old(bufIndex) < slots && SlotBytes(buf[..], slots, size, old(bufIndex)) == data
    {
      hide Holds, SlotBytes, Offset;
      AtSlot();
      ghost var cells := Cut(buf[..], slots, size);
      CopyInto(bufIndex, data);
      HoldsPush(cells, since, data);
      NextSlot(slots, |since|);
      recvCount := (recvCount + 1) % TWO_TO_THE_32;
      bufIndex := (bufIndex + 1) % slots;
      since := since + [data];
      assert Cut(buf[..], slots, size)[old(bufIndex)] == data;
    }

    lemma AtSlot()
      requires Valid()
      ensures bufIndex < slots
    {
    }

    /** memcpy into slot i */
    method CopyInto(i: nat, data: seq<byte>)
      requires i < slots && |data| == size && slots * size <= buf.Length
      modifies buf
      ensures Cut(buf[..], slots, size) == Cut(old(buf[..]), slots, size)[i := data]
    {
      SlotFits(slots, size, i);
      ghost var before := buf[..];
      var at := i * size;
      for k := 0 to |data|
        invariant forall j :: 0 <= j < buf.Length ==> buf[j] == if at <= j < at + k then data[j - at] else before[j]
      {
        buf[at + k] := data[k];
      }
      assert buf[..] == Splice(before, at, data) by {
        forall j: nat | j < buf.Length
          ensures buf[j] == Splice(before, at, data)[j]
        {
          SpliceAt(before, at, data, j);
        }
      }
      CutWrite(before, buf[..], slots, size, i, data);
    }

    /** write_recv_iosb */
    method WriteIosb(r: RecvIosb)
      requires Valid()
      modifies iosb, this`iosbIndex, this`records
      ensures Valid() && records == if iosb.Length > 0 then old(records) + [r] else old(records)
    {
      if iosb.Length == 0 {
        return;
      }
      HoldsPush(iosb[..], records, r);
      NextSlot(iosb.Length, |records|);
      iosb[iosbIndex] := r;
      iosbIndex := (iosbIndex + 1) % iosb.Length;
      records := records + [r];
    }

    /** What an IOSB written now says about the message. */
    function Report(data: seq<byte>, source: int32): RecvIosb
      reads this`bufIndex
    {
      RecvIosb(|data| / 4, bufIndex, labelId, bufIndex * size, source)
    }

    /** The record says where the bytes of m start, how many words they are, and whence they came. */
    ghost predicate Describes(r: RecvIosb, m: seq<byte>, source: int32)
      reads this`buf, buf
    {
      && r.labelId == labelId && r.source == source && r.words == size / 4
      && r.slot < slots && r.dst == r.slot * size
      && r.dst + size <= buf.Length && buf[r.dst..r.dst + size] == m
    }

    /** distribute_recvd_label, for this subscriber */
    method Deliver(source: int32, data: seq<byte>)
      requires Valid() && |data| == size
      modifies buf, iosb, this`bufIndex, this`recvCount, this`iosbIndex, this`signals, this`since, this`records
      ensures Valid()
      ensures idle ==>
                && since == old(since) && recvCount == old(recvCount)
                && records == old(records) && signals == old(signals)
                && Cut(buf[..], slots, size) == old(Cut(buf[..], slots, size))
      // the last record written describes the message, or the oldest unread one if all slots were taken
      ensures |records| > |old(records)| && |since| > |old(since)| ==>
                Describes(records[|records| - 1], data, source)
      ensures |records| > |old(records)| && |since| == |old(since)| ==>
                |Unread()| == slots && Describes(records[|records| - 1], Unread()[0], source)
      // the bounded modes
      ensures !idle && Bounded(mode) ==> Unread() == After(old(Unread()), slots, Offer(data))
      ensures !idle && mode.EveryMessage? ==>
                signals == old(signals) + 1 && records == old(records) + Written(old(Report(data, source)))
      ensures !idle && mode.BufferFull? ==>
                && signals == old(signals) + (if |Unread()| == slots then 1 else 0)
                && records == old(records) + (if |Unread()| == slots != |old(Unread())|
                   then Written(old(Report(data, source))) else [])
      // the overwriting modes
      ensures !idle && !Bounded(mode) ==>
                && since == old(since) + [data] && recvCount == (old(recvCount) + 1) % TWO_TO_THE_32
                && records == old(records) + Written(old(Report(data, source)))
                && signals == old(signals) + (if mode.SignalAllWriteAll? then 1 else 0)
    {
      hide Holds, Cut, Offset;
      if idle {
        return;
      }
      var report := Report(data, source);
      match mode
      case Overwrite => DeliverAlways(data, source, report);
      case BufferFull => DeliverUntilFull(data, source, report);
      case EveryMessage =>
        DeliverWhileRoom(data, source, report);
        signals := signals + 1;
      case SignalAllWriteAll =>
        DeliverAlways(data, source, report);
        signals := signals + 1;
    }

    /** Delivery in the modes that overwrite */
    method DeliverAlways(data: seq<byte>, source: int32, report: RecvIosb)
      requires Valid() && |data| == size && !Bounded(mode) && report == Report(data, source)
      modifies buf, iosb, this`bufIndex, this`recvCount, this`iosbIndex, this`since, this`records
      ensures Valid() && since == old(since) + [data] && recvCount == (old(recvCount) + 1) % TWO_TO_THE_32
      ensures records == old(records) + Written(report) && Describes(report, data, source)
    {
      hide Holds, Cut, Offset, SlotBytes;
      AtSlot();
      StoreMessage(data);
      ReportDescribes(report, data, source);
      WriteIosb(report);
    }

    /** Delivery in mode EVERY_MESSAGE */
    method DeliverWhileRoom(data: seq<byte>, source: int32, report: RecvIosb)
      requires Valid() && |data| == size && mode.EveryMessage? && report == Report(data, source)
      modifies buf, iosb, this`bufIndex, this`recvCount, this`iosbIndex, this`since, this`records
      ensures Valid() && Unread() == After(old(Unread()), slots, Offer(data))
      ensures records == old(records) + Written(report)
      ensures if old(recvCount) < slots then |since| == |old(since)| + 1 && Describes(report, data, source)
              else since == old(since) && |Unread()| == slots && Describes(report, Unread()[0], source)
    {
      hide Holds, Cut, Offset, SlotBytes;
      AtSlot();
      if recvCount < slots {
        StoreMessage(data);
        ReportDescribes(report, data, source);
      } else {
        FullReportsOldest(data, source);
        ReportDescribes(report, Unread()[0], source);
      }
      WriteIosb(report);
    }

    /** The record of the slot that holds m describes it. */
    lemma ReportDescribes(r: RecvIosb, m: seq<byte>, source: int32)
      requires Valid() && r.slot < slots
      requires r == RecvIosb(size / 4, r.slot, labelId, r.slot * size, source)
      requires SlotBytes(buf[..], slots, size, r.slot) == m
      ensures Describes(r, m, source)
    {
      SlotFits(slots, size, r.slot);
    }

    /** Delivery in mode BUFFER_FULL */
    method DeliverUntilFull(data: seq<byte>, source: int32, report: RecvIosb)
      requires Valid() && |data| == size && mode.BufferFull? && report == Report(data, source)
      modifies buf, iosb, this`bufIndex, this`recvCount, this`iosbIndex, this`signals, this`since, this`records
      ensures Valid() && Unread() == After(old(Unread()), slots, Offer(data))
      ensures signals == old(signals) + (if |Unread()| == slots then 1 else 0)
      ensures records == old(records) + (if |Unread()| == slots != |old(Unread())| then Written(report) else [])
      ensures if old(recvCount) < slots then |since| == |old(since)| + 1 && Describes(report, data, source)
              else since == old(since)
    {
      hide Holds, Cut, Offset, SlotBytes;
      AtSlot();
      if recvCount == slots {
        signals := signals + 1;
      } else {
        StoreMessage(data);
        ReportDescribes(report, data, source);
        if recvCount == slots {
          WriteIosb(report);
          signals := signals + 1;
        }
      }
    }

    /** The record that reaches the IOSB ring, if there is one. */
    ghost function Written(r: RecvIosb): seq<RecvIosb> {
      if iosb.Length > 0 then [r] else []
    }

    /** recv_count */
    method Count() returns (n: uint32)
      requires Valid()
      ensures n == |Unread()| && (Bounded(mode) ==> n <= slots)
    {
      n := recvCount;
    }

    /** recv_dismiss drops the oldest messages. */
    method Dismiss(count: uint32)
      requires Valid()
      modifies this`recvCount
      ensures Valid()
      ensures Unread() == After(old(Unread()), slots, Drop(count))
    {
      if count > recvCount {
        recvCount := 0;
      } else {
        recvCount := recvCount - count;
      }
    }

    method Idle()
      modifies this`idle
      ensures idle
    {
      idle := true;
    }

    method Resume()
      modifies this`idle
      ensures !idle
    {
      idle := false;
    }

    /** recv_reset */
    method Reset()
      requires Valid()
      modifies this`recvCount, this`bufIndex, this`since
      ensures Valid() && since == [] && recvCount == 0 && Unread() == After(old(Unread()), slots, Clear)
    {
      recvCount, bufIndex := 0, 0;
      since := [];
    }

    /** recv_redirect swaps the two buffers and starts over; without a second buffer it does nothing. */
    method Redirect()
      requires Valid()
      modifies this`buf, this`aux, this`recvCount, this`bufIndex, this`since
      ensures Valid()
      ensures if old(aux) == null
              then aux == null && buf == old(buf) && since == old(since) && recvCount == old(recvCount)
              else buf == old(aux) && aux == old(buf) && since == [] && recvCount == 0
                   && Unread() == After(old(Unread()), slots, Clear)
    {
      if aux == null {
        return;
      }
      var other: array<byte> := aux;
      buf, aux := other, buf;
      recvCount, bufIndex := 0, 0;
      since := [];
    }

    /** Where the i-th oldest unread message is found. */
    lemma UnreadInSlots(i: nat)
      requires Valid() && Bounded(mode) && i < recvCount
      ensures var at := Offset(slots, bufIndex + slots - recvCount + i);
              SlotBytes(buf[..], slots, size, at) == Unread()[i]
    {
      CountedBack(slots, |since|, recvCount, i);
      assert Cut(buf[..], slots, size)[Offset(slots, |since| - recvCount + i)] == since[|since| - recvCount + i];
    }

    /** In every mode, whatever was dismissed, the slots behind the write index hold the latest messages. */
    lemma LatestInSlots(i: nat)
      requires Valid() && i < slots && i < |since|
      ensures var at := Offset(slots, bufIndex + slots - 1 - i);
              SlotBytes(buf[..], slots, size, at) == since[|since| - 1 - i]
    {
      CountedBack(slots, |since|, i + 1, 0);
      assert Cut(buf[..], slots, size)[Offset(slots, |since| - 1 - i)] == since[|since| - 1 - i];
    }

    /** The IOSB written for a message that found the ring full points at the oldest unread message. */
    lemma FullReportsOldest(data: seq<byte>, source: int32)
      requires Valid() && Bounded(mode) && recvCount == slots
      ensures SlotBytes(buf[..], slots, size, Report(data, source).slot) == Unread()[0]
    {
      UnreadInSlots(0);
      OffsetOfOffset(slots, |since|, 0);
    }

    /** The IOSB ring holds the latest records. */
    lemma LatestRecords(i: nat)
      requires Valid() && i < iosb.Length && i < |records|
      ensures iosb[Offset(iosb.Length, iosbIndex + iosb.Length - 1 - i)] == records[|records| - 1 - i]
    {
      CountedBack(iosb.Length, |records|, i + 1, 0);
      assert iosb[..][Offset(iosb.Length, |records| - 1 - i)] == records[|records| - 1 - i];
    }
  }
}
