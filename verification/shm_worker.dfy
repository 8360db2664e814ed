/** The receive worker of the shared-memory block (shm_recv_worker.cpp): what one wakeup of the
    worker hands to the subscribers and what it leaves in the ring. */
module ShmWorker {
  import opened Bytes
  import opened Records
  import RingLayout
  import opened ShmResults
  import opened ShmRing
  import opened LabelFrame

  const RECV_BUFFER_SIZE := MAX_LABEL_SIZE + LABEL_HEADER_SIZE

  /** What a wakeup delivers, what stays in the ring, and what the receive buffer holds at the end. */
  datatype Outcome = Outcome(delivered: seq<Delivery>, left: seq<Msg>, buf: seq<byte>) {
    function Before(d: Delivery): Outcome {
      this.(delivered := [d] + delivered)
    }
  }

  /** What the worker does with a record it has received into its buffer. */
  datatype Handling = Ignore | GiveUp | Distribute(d: Delivery)

  function Handle(size: nat, buf: seq<byte>): (r: Handling)
    requires size <= |buf| == RECV_BUFFER_SIZE
  {
    var h := Decode(buf[..LABEL_HEADER_SIZE]);
    if size < LABEL_HEADER_SIZE || h.magic != MAGIC_NUM || h.version != FRAME_VERSION then Ignore
    else if h.labelSize > MAX_LABEL_SIZE then GiveUp
    else Distribute(Delivery(h.sourceId, h.labelId, buf[LABEL_HEADER_SIZE..LABEL_HEADER_SIZE + h.labelSize],
        h.recvOffset))
  }

  /** The receive buffer after a message has been copied into it. */
  function Filled(buf: seq<byte>, m: Msg): seq<byte>
    requires |m.payload| <= |buf|
  {
    m.payload + buf[|m.payload|..]
  }

  /** One wakeup with the messages q in the ring and buf in the receive buffer. */
  function Drained(q: seq<Msg>, buf: seq<byte>): Outcome
    requires |buf| == RECV_BUFFER_SIZE
    decreases |q|
  {
    if q == [] || q[0].payload == [] then Outcome([], [], buf)
    else if |q[0].payload| > RECV_BUFFER_SIZE then Outcome([], q, buf)
    else
      var buf' := Filled(buf, q[0]);
      match Handle(|q[0].payload|, buf')
      case Ignore => Drained(q[1..], buf')
      case GiveUp => Outcome([], q[1..], buf')
      case Distribute(d) => Drained(q[1..], buf').Before(d)
  }

  class RecvWorker {
    const recvBuf: array<byte>
    var stop: bool

    constructor ()
      ensures fresh(recvBuf) && recvBuf.Length == RECV_BUFFER_SIZE && !stop
    {
      recvBuf := new byte[RECV_BUFFER_SIZE];
      stop := false;
    }

    /** The worker's reaction to every answer of recv but a record and NoRecords. It waits out
        NotYetPublished first and flushes when the publisher takes too long. */
    method React(shm: ShmBlock, id: int32, err: RecvErr, ghost p: nat)
      requires shm.Interrupted(p)
      modifies shm, shm.mem, this`stop
      ensures if err in {NotYetPublished, TailCorruption, BlockCorrupted, UnknownError}
              then shm.Valid() && shm.Contents() == []
              else shm.Interrupted(p) && shm.head == old(shm.head) && shm.Contents() == old(shm.Contents())
      ensures shm.state == if err in {TailCorruption, BlockCorrupted, UnknownError} then Ready else old(shm.state)
      ensures stop <==> old(stop) || err == RecvNotInitialized
    {
      match err
      case NotYetPublished => shm.FlushBacklog();
      case RecvNotInitialized => stop := true;
      case TailCorruption => shm.Reinit(id);
      case BlockCorrupted => shm.Reinit(id);
      case UnknownError => shm.Reinit(id);
      case _ =>
    }

    /** ShmRecvWorker::get_next_record, on a block whose records up to p are complete: the oldest
        message if it can be received; on a block that is not ready the worker stops; and unless the
        oldest message is too large for the buffer, nothing is left in the ring otherwise. */
    method GetNextRecord(shm: ShmBlock, id: int32, ghost p: nat) returns (hasData: bool, out: Received)
      requires shm.Interrupted(p) && recvBuf != shm.mem && recvBuf.Length == RECV_BUFFER_SIZE
      modifies shm, shm.mem, recvBuf, this`stop
      ensures shm.state == old(shm.state) && (stop <==> old(stop) || shm.state != Ready)
      ensures var q := old(shm.Contents());
              if shm.state == Ready && q != [] && 0 < |q[0].payload| <= RECV_BUFFER_SIZE
              then hasData && shm.Contents() == q[1..] && recvBuf[..] == Filled(old(recvBuf[..]), q[0])
                   && out == Received(q[0].source, q[0].labelId, q[0].userSeq, |q[0].payload|)
              else !hasData && recvBuf[..] == old(recvBuf[..])
                   && shm.Contents() == if shm.state == Ready && (q == [] || q[0].payload == []) then [] else q
      ensures if shm.state == Ready && !hasData && shm.Contents() == [] then shm.Valid()
              else shm.Interrupted(p) && shm.head == old(shm.head)
    {
      hide Ring;
      var err;
      err, out := shm.Recv(recvBuf, recvBuf.Length, p);
      if err == RecvOk {
        return true, out;
      }
      hasData := false;
      if err != NoRecords {
        React(shm, id, err, p);
      }
    }

    /** The drain loop of ShmRecvWorker::run after one wakeup. */
    method Drain(shm: ShmBlock, id: int32) returns (delivered: seq<Delivery>)
      requires shm.Valid() && shm.state == Ready && recvBuf != shm.mem && recvBuf.Length == RECV_BUFFER_SIZE
      modifies shm, shm.mem, recvBuf, this`stop
      ensures shm.Valid() && shm.state == Ready && stop == old(stop)
      ensures Outcome(delivered, shm.Contents(), recvBuf[..]) == Drained(old(shm.Contents()), old(recvBuf[..]))
    {
      delivered := [];
      ghost var all := Drained(shm.Contents(), recvBuf[..]);
      var more := true;
      while more
        invariant shm.Valid() && shm.state == Ready && stop == old(stop)
        invariant all == if more then Then(delivered, Drained(shm.Contents(), recvBuf[..]))
                         else Outcome(delivered, shm.Contents(), recvBuf[..])
        decreases |shm.Contents()|, more
      {
        ghost var rest := Drained(shm.Contents(), recvBuf[..]);
        var out;
        shm.EndIsBoundary(shm.head);
        more, out := GetNextRecord(shm, id, shm.head);
        if !more {
          break;
        }
        match Handle(out.size, recvBuf[..])
        case Ignore =>
        case GiveUp => more := false;
        case Distribute(d) =>
          ThenBefore(delivered, d, Drained(shm.Contents(), recvBuf[..]));
          delivered := delivered + [d];
      }
    }
  }

  /** Deliveries made before those of o. */
  function Then(ds: seq<Delivery>, o: Outcome): Outcome {
    o.(delivered := ds + o.delivered)
  }

  lemma ThenBefore(ds: seq<Delivery>, d: Delivery, o: Outcome)
    ensures Then(ds, o.Before(d)) == Then(ds + [d], o)
  {
    assert ds + ([d] + o.delivered) == (ds + [d]) + o.delivered;
  }

  // ---- What a wakeup achieves ----

  /** What is distributed of a message that has been received: the label that its header names, with
      as many bytes as the header says, whatever stands there in the buffer; nothing of a message that
      is too short for a header or does not begin with the magic number and the version. */
  lemma WhatIsDistributed(m: Msg, buf: seq<byte>)
    requires |buf| == RECV_BUFFER_SIZE && 0 < |m.payload| <= RECV_BUFFER_SIZE
    ensures var out := Drained([m], buf).delivered;
            if |m.payload| < 28 then out == []
            else
              var h := Decode(m.payload[..28]);
              if m.payload[..4] == [0x45, 0x52, 0x4F, 0x4C] && m.payload[4..6] == [1, 0] && h.labelSize <= 1048576
              then out == [Delivery(h.sourceId, h.labelId, (m.payload + buf[|m.payload|..])[28..28 + h.labelSize],
                  h.recvOffset)]
              else out == []
  {
    hide LittleEndian;
    var buf' := Filled(buf, m);
    assert [m][1..] == [];
    if |m.payload| >= 28 {
      assert buf'[..28] == m.payload[..28];
      var hs := m.payload[..28];
      assert hs[0..4] == m.payload[..4] && hs[4..6] == m.payload[4..6];
      RingLayout.MagicBytes(hs[0..4]);
      VersionBytes(hs[4..6]);
    }
  }

  lemma VersionBytes(s: seq<byte>)
    requires |s| == 2
    ensures FromLittleEndian(s) == FRAME_VERSION <==> s == [1, 0]
  {
    FromLittleEndianInverse(s);
    LittleEndianInverse(1, 2);
    assert LittleEndian(1, 2) == [1, 0] by {
      assert ByteOf(1, 1) == ByteOf(0, 0);
      assert LittleEndian(1, 2) == [ByteOf(1, 0), ByteOf(1, 1)];
    }
  }

  /** The message does not fit the receive buffer: recv answers LabelTooLarge and leaves it there. */
  predicate Unreceivable(m: Msg) {
    |m.payload| > RECV_BUFFER_SIZE
  }

  /** The message can be received but declares a label larger than the maximum. */
  predicate Oversized(m: Msg) {
    |m.payload| <= RECV_BUFFER_SIZE && DeclaresTooMuch(m.payload)
  }

  /** Message k keeps a wakeup from reaching the end of the ring. */
  predicate Blocks(q: seq<Msg>, k: nat) {
    && k < |q| && (Unreceivable(q[k]) || (Oversized(q[k]) && k + 1 < |q|))
    && forall j :: 0 <= j < k ==> q[j].payload != []
  }

  /** The worker goes back to sleep with messages left in the ring exactly if one of them blocks it. */
  lemma {:induction false} LeftBehind(q: seq<Msg>, buf: seq<byte>)
    requires |buf| == RECV_BUFFER_SIZE
    ensures Drained(q, buf).left != [] <==> exists k: nat :: Blocks(q, k)
    decreases |q|
  {
    if q != [] && q[0].payload != [] && !Unreceivable(q[0]) {
      var buf' := Filled(buf, q[0]);
      if |q[0].payload| >= LABEL_HEADER_SIZE {
        assert buf'[..LABEL_HEADER_SIZE] == q[0].payload[..LABEL_HEADER_SIZE];
      }
      if Oversized(q[0]) {
        assert |q| > 1 ==> Blocks(q, 0);
      } else {
        LeftBehind(q[1..], buf');
        BlocksShift(q);
      }
    } else if q != [] && q[0].payload != [] {
      assert Blocks(q, 0);
    }
  }

  lemma BlocksShift(q: seq<Msg>)
    requires q != [] && q[0].payload != [] && !Unreceivable(q[0]) && !Oversized(q[0])
    ensures (exists k: nat :: Blocks(q, k)) <==> exists k: nat :: Blocks(q[1..], k)
  {
    if k: nat :| Blocks(q, k) {
      assert forall j :: 0 <= j < k - 1 ==> q[1..][j] == q[j + 1];
      assert Blocks(q[1..], k - 1);
    }
    if k: nat :| Blocks(q[1..], k) {
      assert forall j :: 0 < j < k + 1 ==> q[j] == q[1..][j - 1];
      assert Blocks(q, k + 1);
    }
  }

  /** A header that declares an oversized label makes the worker stop draining: what is behind it
      stays in the ring until the next wakeup. */
  lemma OversizedStops(m: Msg, rest: seq<Msg>, buf: seq<byte>)
    requires |buf| == RECV_BUFFER_SIZE && Oversized(m)
    ensures Drained([m] + rest, buf).left == rest && Drained([m] + rest, buf).delivered == []
  {
    assert Filled(buf, m)[..LABEL_HEADER_SIZE] == m.payload[..LABEL_HEADER_SIZE];
    assert ([m] + rest)[1..] == rest;
  }

  /** q holds the frames of ds, as senders built them. */
  ghost predicate Carries(q: seq<Msg>, ds: seq<Delivery>, pads: seq<Padding>) {
    && |q| == |ds| == |pads|
    && forall i :: 0 <= i < |q| ==> Sendable(ds[i].data) && q[i].payload == DataFrame(ds[i], pads[i])
  }

  /** Labels sent through the ring reach the subscribers as they were sent, once each and in order,
      whatever the receive buffer held before. */
  lemma {:induction false} LabelsArrive(q: seq<Msg>, ds: seq<Delivery>, pads: seq<Padding>, buf: seq<byte>)
    requires |buf| == RECV_BUFFER_SIZE && Carries(q, ds, pads)
    ensures Drained(q, buf).delivered == ds && Drained(q, buf).left == []
    decreases |q|
  {
    if q != [] {
      FrameHandled(ds[0], pads[0], q[0], buf);
      LabelsArrive(q[1..], ds[1..], pads[1..], Filled(buf, q[0]));
      assert [ds[0]] + ds[1..] == ds;
    }
  }

  lemma FrameHandled(d: Delivery, pad: Padding, m: Msg, buf: seq<byte>)
    requires |buf| == RECV_BUFFER_SIZE && Sendable(d.data) && m.payload == DataFrame(d, pad)
    ensures Handle(|m.payload|, Filled(buf, m)) == Distribute(d)
  {
    DataFrameParts(d, pad);
    var buf' := Filled(buf, m);
    assert buf'[..LABEL_HEADER_SIZE] == m.payload[..LABEL_HEADER_SIZE];
    assert buf'[LABEL_HEADER_SIZE..LABEL_HEADER_SIZE + |d.data|] == m.payload[LABEL_HEADER_SIZE..];
  }
}
