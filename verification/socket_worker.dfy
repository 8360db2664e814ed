/** The receive worker of a stream socket (socket_recv_worker.cpp): cutting a byte stream back into
    frames. */
module SocketWorker {
  import opened Bytes
  import opened Records
  import opened LabelFrame
  import opened TcpClients

  /** What the worker makes of a header. */
  datatype Reading = Bad | Skip | Expect(size: nat)

  function Read(h: LabelHeader): (r: Reading)
    ensures r.Expect? ==> 0 < r.size <= MAX_LABEL_SIZE && r.size == h.labelSize
  {
    if h.magic != MAGIC_NUM || h.version != FRAME_VERSION || h.labelSize > MAX_LABEL_SIZE then Bad
    else if h.labelSize == 0 && HasFlag(h.flags, DATA) then Bad
    else if HasFlag(h.flags, DATA) then Expect(h.labelSize)
    else if HasFlag(h.flags, PING) then Skip
    else Bad
  }

  /** Which headers carry data, which are pings, and which end the connection. */
  lemma WhatIsRead(h: LabelHeader)
    ensures Read(h).Expect? <==>
              h.magic == 0x4C4F5245 && h.version == 1 && h.flags % 2 == 1 && 1 <= h.labelSize <= 1048576
    ensures Read(h).Skip? <==>
              h.magic == 0x4C4F5245 && h.version == 1 && h.flags % 2 == 0 && h.flags / 8 % 2 == 1
              && h.labelSize <= 1048576
  {
  }

  function Of(h: LabelHeader, data: seq<byte>): Delivery {
    Delivery(h.sourceId, h.labelId, data, h.recvOffset)
  }

  /** The labels in a stream, up to the first bad header or the last complete frame. */
  function Parse(s: seq<byte>): seq<Delivery>
    decreases |s|
  {
    if |s| < LABEL_HEADER_SIZE then []
    else
      var h, rest := Decode(s[..LABEL_HEADER_SIZE]), s[LABEL_HEADER_SIZE..];
      match Read(h)
      case Bad => []
      case Skip => Parse(rest)
      case Expect(n) => if |rest| < n then [] else [Of(h, rest[..n])] + Parse(rest[n..])
  }

  /** The worker comes to a bad header. */
  predicate Rejected(s: seq<byte>)
    decreases |s|
  {
    |s| >= LABEL_HEADER_SIZE &&
    var h, rest := Decode(s[..LABEL_HEADER_SIZE]), s[LABEL_HEADER_SIZE..];
    match Read(h)
    case Bad => true
    case Skip => Rejected(rest)
    case Expect(n) => |rest| >= n && Rejected(rest[n..])
  }

  class SocketRecvWorker {
    const sock: TcpClient
    const hdr: array<byte>
    var stop: bool
    var delivered: seq<Delivery>   // calls of distribute_recvd_label

    constructor (sock: TcpClient)
      ensures this.sock == sock && fresh(hdr) && hdr.Length == LABEL_HEADER_SIZE && !stop && delivered == []
    {
      this.sock := sock;
      hdr := new byte[LABEL_HEADER_SIZE];
      stop, delivered := false, [];
    }

    /** recv_exact lets WouldBlock pass for success, although bytes are missing then; on a blocking
        socket it does not occur. */
    method RecvExact(dst: array<byte>, size: nat) returns (ok: bool)
      requires NonEmptyChunks(sock.incoming) && size == dst.Length && 0 < size <= INT32_MAX
      modifies sock`connected, sock`incoming, dst
      ensures NonEmptyChunks(sock.incoming) && (old(Blocking(sock.incoming)) ==> Blocking(sock.incoming))
      ensures var s := Stream(old(sock.incoming));
              && (ok <==> !stop && old(sock.connected) && (|s| >= size || EndsWaiting(old(sock.incoming))))
              && (ok ==> sock.connected)
              && (ok && |s| >= size ==> dst[..] == s[..size] && Stream(sock.incoming) == s[size..])
    {
      if stop {
        return false;
      }
      ghost var s := Stream(sock.incoming);
      var r, total := sock.RecvAll(dst, size);
      match r
      case NoError => return total > 0;
      case WouldBlock => return true;
      case _ => return false;
    }

    /** disconnect_and_stop */
    method DisconnectAndStop()
      modifies this`stop, sock`connected
      ensures stop && (old(stop) || !sock.connected)
    {
      if !stop {
        stop := true;
        sock.Disconnect();
      }
    }

    /** One frame: false when the worker leaves its loop. */
    method TakeFrame() returns (more: bool)
      requires NonEmptyChunks(sock.incoming) && Blocking(sock.incoming) && hdr.Length == LABEL_HEADER_SIZE && !stop
      modifies sock`connected, sock`incoming, hdr, this`stop, this`delivered
      ensures NonEmptyChunks(sock.incoming) && Blocking(sock.incoming)
      ensures var s := if old(sock.connected) then Stream(old(sock.incoming)) else [];
              && old(delivered) + Parse(s) == delivered + (if more then Parse(Stream(sock.incoming)) else [])
              && Rejected(s) == if more then Rejected(Stream(sock.incoming)) else stop
      ensures more ==> !stop && sock.connected && |Stream(sock.incoming)| < |Stream(old(sock.incoming))|
      ensures stop ==> !sock.connected
    {
      hide Decode, Stream, Blocking, NonEmptyChunks;
      if !sock.connected {
        return false;
      }
      ghost var s := Stream(sock.incoming);
      BlockingNeverWaits(sock.incoming);
      var ok := RecvExact(hdr, LABEL_HEADER_SIZE);
      if !ok {
        return false;
      }
      var h := Decode(hdr[..]);
      match Read(h)
      case Bad =>
        DisconnectAndStop();
        return false;
      case Skip =>
        return true;
      case Expect(n) =>
        var payload := new byte[n];
        BlockingNeverWaits(sock.incoming);
        ok := RecvExact(payload, n);
        if !ok {
          return false;
        }
        delivered := delivered + [Of(h, payload[..])];
        return true;
    }

    /** run: everything that arrives in complete frames before the first bad header is distributed, in
        order; a bad header ends the connection. */
    method Run()
      requires NonEmptyChunks(sock.incoming) && Blocking(sock.incoming) && hdr.Length == LABEL_HEADER_SIZE && !stop
      modifies sock`connected, sock`incoming, hdr, this`stop, this`delivered
      ensures var s := if old(sock.connected) then Stream(old(sock.incoming)) else [];
              && delivered == old(delivered) + Parse(s)
              && (stop <==> Rejected(s)) && (stop ==> !sock.connected)
    {
      ghost var all, bad := delivered + Parse(if sock.connected then Stream(sock.incoming) else []),
                            Rejected(if sock.connected then Stream(sock.incoming) else []);
      var more := true;
      while more
        invariant NonEmptyChunks(sock.incoming) && Blocking(sock.incoming)
        invariant more ==> !stop
        invariant var s := if more && sock.connected then Stream(sock.incoming) else [];
                  all == delivered + Parse(s) && bad == if more then Rejected(s) else stop
        invariant stop ==> !sock.connected
        decreases more, |Stream(sock.incoming)|
      {
        more := TakeFrame();
      }
    }
  }

  // ---- What the framing achieves ----

  /** Frames as the two kinds of senders put them on the wire. */
  datatype Frame = Ping(h: LabelHeader, pad: Padding) | Data(d: Delivery, pad: Padding) {
    predicate Valid() {
      if Ping? then Read(h) == Skip else Sendable(d.data)
    }

    function Bytes(): seq<byte>
      requires Valid()
    {
      if Ping? then Encode(h, pad) else DataFrame(d, pad)
    }
  }

  predicate ValidFrames(fs: seq<Frame>) {
    forall i :: 0 <= i < |fs| ==> fs[i].Valid()
  }

  function OnTheWire(fs: seq<Frame>): seq<byte>
    requires ValidFrames(fs)
  {
    if fs == [] then [] else fs[0].Bytes() + OnTheWire(fs[1..])
  }

  function Labels(fs: seq<Frame>): seq<Delivery> {
    if fs == [] then [] else (if fs[0].Data? then [fs[0].d] else []) + Labels(fs[1..])
  }

  /** The header the connection monitor sends to probe a socket is a valid ping. */
  lemma PingIsSkipped(source: int32)
    ensures Read(LabelHeader(MAGIC_NUM, FRAME_VERSION, source, PING, 0, 0, 0)) == Skip
  {
  }

  lemma OneFrame(f: Frame, rest: seq<byte>)
    requires f.Valid()
    ensures Parse(f.Bytes() + rest) == (if f.Data? then [f.d] else []) + Parse(rest)
    ensures Rejected(f.Bytes() + rest) == Rejected(rest)
  {
    hide Encode, Decode, DataFrame;
    var s := f.Bytes() + rest;
    if f.Ping? {
      LabelHeaderRoundTrip(f.h, f.pad);
      assert s[..LABEL_HEADER_SIZE] == f.Bytes() && s[LABEL_HEADER_SIZE..] == rest;
    } else {
      DataFrameParts(f.d, f.pad);
      var n := |f.d.data|;
      assert s[..LABEL_HEADER_SIZE] == f.Bytes()[..LABEL_HEADER_SIZE];
      assert s[LABEL_HEADER_SIZE..] == f.d.data + rest;
      assert (f.d.data + rest)[..n] == f.d.data && (f.d.data + rest)[n..] == rest;
      assert Read(DataHeader(f.d)) == Expect(n);
    }
  }

  /** Whatever follows them, valid frames give exactly their labels, in order. */
  lemma {:induction false} FramesArrive(fs: seq<Frame>, rest: seq<byte>)
    requires ValidFrames(fs)
    ensures Parse(OnTheWire(fs) + rest) == Labels(fs) + Parse(rest)
    ensures Rejected(OnTheWire(fs) + rest) == Rejected(rest)
  {
    hide Parse, Rejected, Frame.Bytes;
    if fs == [] {
      assert [] + rest == rest;
    } else {
      assert OnTheWire(fs) + rest == fs[0].Bytes() + (OnTheWire(fs[1..]) + rest);
      OneFrame(fs[0], OnTheWire(fs[1..]) + rest);
      FramesArrive(fs[1..], rest);
    }
  }

  /** A stream that breaks off inside a frame gives the labels of the complete frames. */
  lemma BrokenOff(fs: seq<Frame>, last: Frame, n: nat)
    requires ValidFrames(fs) && last.Valid() && n < |last.Bytes()|
    ensures Parse(OnTheWire(fs) + last.Bytes()[..n]) == Labels(fs)
    ensures !Rejected(OnTheWire(fs) + last.Bytes()[..n])
  {
    hide Encode, Decode, DataFrame, OnTheWire, Labels;
    FramesArrive(fs, last.Bytes()[..n]);
    if n >= LABEL_HEADER_SIZE {
      DataFrameParts(last.d, last.pad);
      assert last.Bytes()[..n][..LABEL_HEADER_SIZE] == last.Bytes()[..LABEL_HEADER_SIZE];
      assert Read(DataHeader(last.d)) == Expect(|last.d.data|);
    }
  }

  /** What has been distributed does not depend on what arrives later. */
  lemma {:induction false} LaterBytes(s: seq<byte>, t: seq<byte>)
    ensures Parse(s) <= Parse(s + t)
    decreases |s|
  {
    if |s| >= LABEL_HEADER_SIZE {
      var h, rest := Decode(s[..LABEL_HEADER_SIZE]), s[LABEL_HEADER_SIZE..];
      assert (s + t)[..LABEL_HEADER_SIZE] == s[..LABEL_HEADER_SIZE];
      assert (s + t)[LABEL_HEADER_SIZE..] == rest + t;
      match Read(h)
      case Bad =>
      case Skip => LaterBytes(rest, t);
      case Expect(n) =>
        if |rest| >= n {
          assert (rest + t)[..n] == rest[..n] && (rest + t)[n..] == rest[n..] + t;
          LaterBytes(rest[n..], t);
        }
    }
  }
}
