/** The send and receive loops over a connected stream socket (linux_tcp_client.cpp). What the
    operating system does is a script: bytes arrive in chunks of any size, calls are interrupted or
    fail, sends are taken up in part. */
module TcpClients {
  import opened Bytes

  const INT32_MAX := 0x7FFF_FFFF

  datatype Errno = Interrupted | WouldBlockNow | OtherFault(fatal: bool)

  /** What recv finds next; an exhausted script means that the peer has closed. */
  datatype Arrival = Chunk(bytes: seq<byte>) | Fault(e: Errno)

  /** What send meets next; an exhausted script means that everything offered is taken. */
  datatype Uptake = Takes(n: nat) | Refuses(e: Errno)

  datatype SockErr = NoError | NotConnected | SizeZero | SizeTooLarge | Closed | WouldBlock | OsError

  datatype OsResult = Got(bytes: seq<byte>) | Eof | Failed(e: Errno)

  function MapErr(e: Errno): SockErr {
    if e.WouldBlockNow? then WouldBlock else OsError
  }

  /** The bytes that arrive before the connection ends or a call fails for another reason than an
      interrupt, whatever chunks they come in. */
  function Stream(es: seq<Arrival>): seq<byte> {
    if es == [] then []
    else match es[0]
      case Chunk(bs) => bs + Stream(es[1..])
      case Fault(e) => if e.Interrupted? then Stream(es[1..]) else []
  }

  /** The first call to fail for another reason than an interrupt would have to wait. */
  predicate EndsWaiting(es: seq<Arrival>) {
    && es != []
    && match es[0]
       case Chunk(_) => EndsWaiting(es[1..])
       case Fault(e) => e.WouldBlockNow? || (e.Interrupted? && EndsWaiting(es[1..]))
  }

  /** How a loop that goes on after every partial and every interrupted send ends when n bytes are to
      be taken: when all are, when none of them is, or with the first refusal that is not an interrupt. */
  datatype SendEnd = AllTaken | NoneTaken(left: nat) | Refused(e: Errno, left: nat) {
    function Left(): nat {
      if AllTaken? then 0 else left
    }
  }

  function Uptaken(us: seq<Uptake>, n: nat): (end: SendEnd)
    ensures end.Left() <= n && (end.AllTaken? || end.Left() > 0)
  {
    if n == 0 || us == [] then AllTaken
    else match us[0]
      case Takes(k) => if k == 0 then NoneTaken(n) else Uptaken(us[1..], n - Min(k, n))
      case Refuses(e) => if e.Interrupted? then Uptaken(us[1..], n) else Refused(e, n)
  }

  /** The operating system never refuses for good and never takes nothing. */
  predicate Obliging(us: seq<Uptake>) {
    forall i :: 0 <= i < |us| ==> us[i] == Refuses(Interrupted) || (us[i].Takes? && us[i].n > 0)
  }

  lemma {:induction false} ObligingTakesAll(us: seq<Uptake>, n: nat)
    requires Obliging(us)
    ensures Uptaken(us, n) == AllTaken
  {
    if n > 0 && us != [] {
      assert us[0] == Refuses(Interrupted) || (us[0].Takes? && us[0].n > 0);
      if us[0].Takes? { ObligingTakesAll(us[1..], n - Min(us[0].n, n)); } else { ObligingTakesAll(us[1..], n); }
    }
  }

  function Work(es: seq<Arrival>): nat {
    if es == [] then 0 else 1 + (if es[0].Chunk? then |es[0].bytes| else 0) + Work(es[1..])
  }

  predicate NonEmptyChunks(es: seq<Arrival>) {
    forall i :: 0 <= i < |es| && es[i].Chunk? ==> es[i].bytes != []
  }

  /** The sockets are blocking ones. */
  predicate Blocking(es: seq<Arrival>) {
    forall i :: 0 <= i < |es| ==> es[i] != Fault(WouldBlockNow)
  }

  lemma {:induction false} BlockingNeverWaits(es: seq<Arrival>)
    requires Blocking(es)
    ensures !EndsWaiting(es)
  {
    if es != [] {
      assert es[0] != Fault(WouldBlockNow);
      BlockingNeverWaits(es[1..]);
    }
  }

  class TcpClient {
    var connected: bool
    var incoming: seq<Arrival>
    var uptake: seq<Uptake>
    var sent: seq<byte>     // everything the operating system has taken

    constructor (incoming: seq<Arrival>, uptake: seq<Uptake>)
      ensures connected && this.incoming == incoming && this.uptake == uptake && sent == []
    {
      connected, this.incoming, this.uptake, sent := true, incoming, uptake, [];
    }

    method Disconnect()
      modifies this`connected
      ensures !connected
    {
      connected := false;
    }

    /** ::recv */
    method OsRecv(size: nat) returns (r: OsResult)
      requires size > 0 && NonEmptyChunks(incoming)
      modifies this`incoming
      ensures NonEmptyChunks(incoming) && (old(Blocking(incoming)) ==> Blocking(incoming))
      ensures !r.Eof? ==> Work(incoming) < Work(old(incoming))
      ensures r.Got? ==> 0 < |r.bytes| <= size && Stream(old(incoming)) == r.bytes + Stream(incoming)
      ensures r == Failed(Interrupted) ==> Stream(incoming) == Stream(old(incoming))
      ensures r.Eof? || (r.Failed? && !r.e.Interrupted?) ==> Stream(old(incoming)) == []
      ensures r.Got? || r == Failed(Interrupted) ==> EndsWaiting(incoming) == EndsWaiting(old(incoming))
      ensures r.Eof? || (r.Failed? && !r.e.Interrupted?) ==>
                (EndsWaiting(old(incoming)) <==> r == Failed(WouldBlockNow))
    {
      if incoming == [] {
        return Eof;
      }
      ghost var before := incoming;
      match incoming[0]
      case Fault(e) =>
        incoming := incoming[1..];
        return Failed(e);
      case Chunk(bs) =>
        if |bs| <= size {
          incoming := incoming[1..];
          return Got(bs);
        }
        incoming := [Chunk(bs[size..])] + incoming[1..];
        assert incoming[1..] == before[1..];
        assert bs[..size] + (bs[size..] + Stream(before[1..])) == bs + Stream(before[1..]);
        return Got(bs[..size]);
    }

    /** recv_all succeeds exactly if enough bytes arrive, and then delivers exactly those, however
        they were cut up and however often a call was interrupted. */
    method RecvAll(dst: array<byte>, size: nat) returns (r: SockErr, total: nat)
      requires NonEmptyChunks(incoming) && size <= dst.Length
      modifies this`connected, this`incoming, dst
      ensures NonEmptyChunks(incoming) && (old(Blocking(incoming)) ==> Blocking(incoming))
      ensures !old(connected) || size == 0 || size > INT32_MAX ==>
                r in {NotConnected, SizeZero, SizeTooLarge} && total == 0 && incoming == old(incoming)
                && connected == old(connected) && dst[..] == old(dst[..])
      ensures old(connected) && 0 < size <= INT32_MAX ==>
                var s := Stream(old(incoming));
                if |s| >= size
                then r == NoError && total == size && connected
                     && dst[..] == s[..size] + old(dst[..])[size..] && Stream(incoming) == s[size..]
                else r in {Closed, WouldBlock, OsError} && total == |s| && (r == Closed <==> !connected)
                     && dst[..] == s + old(dst[..])[|s|..]
                     && (r == WouldBlock <==> EndsWaiting(old(incoming)))
    {
      hide Stream, EndsWaiting, Blocking, NonEmptyChunks, Work, Filled;
      if !connected {
        return NotConnected, 0;
      }
      if size == 0 {
        return SizeZero, 0;
      }
      if size > INT32_MAX {
        return SizeTooLarge, 0;
      }
      ghost var s, before := Stream(incoming), dst[..];
      total := 0;
      AtStart(dst[..], s);
      while total < size
        invariant total <= size && NonEmptyChunks(incoming) && (old(Blocking(incoming)) ==> Blocking(incoming))
        invariant total <= |s| && s[total..] == Stream(incoming) && connected
        invariant EndsWaiting(incoming) == old(EndsWaiting(incoming))
        invariant Filled(dst[..], s, total, before)
        decreases Work(incoming)
      {
        ghost var now := Stream(incoming);
        var got := OsRecv(size - total);
        match got
        case Eof =>
          connected := false;
          AllOf(dst[..], s, total, before);
          return Closed, total;
        case Failed(e) =>
          if !e.Interrupted? {
            AllOf(dst[..], s, total, before);
            return MapErr(e), total;
          }
        case Got(bs) =>
          Arrived(s, total, bs, Stream(incoming));
          ghost var was := dst[..];
          CopyAt(dst, total, bs);
          Extended(s, total, bs, before, was, dst[..]);
          total := total + |bs|;
      }
      AllOf(dst[..], s, total, before);
      r := NoError;
    }

    /** recv has written bs at index at of the caller's buffer. */
    method CopyAt(dst: array<byte>, at: nat, bs: seq<byte>)
      requires at + |bs| <= dst.Length
      modifies dst
      ensures dst[..] == old(dst[..])[..at] + bs + old(dst[..])[at + |bs|..]
    {
      ghost var before := dst[..];
      for k := 0 to |bs|
        invariant forall j :: 0 <= j < dst.Length ==> dst[j] == if at <= j < at + k then bs[j - at] else before[j]
      {
        dst[at + k] := bs[k];
      }
    }

    /** ::send takes the first r.n bytes of data, or none. */
    method OsSend(data: seq<byte>) returns (r: Uptake)
      requires data != []
      modifies this`uptake, this`sent
      ensures r.Takes? ==> r.n <= |data| && sent == old(sent) + data[..r.n]
      ensures r.Refuses? ==> sent == old(sent)
      ensures uptake == if old(uptake) == [] then [] else old(uptake)[1..]
      ensures if old(uptake) == [] then r == Takes(|data|)
              else if old(uptake)[0].Takes? then r == Takes(Min(old(uptake)[0].n, |data|)) else r == old(uptake)[0]
    {
      r := Takes(|data|);
      if uptake != [] {
        r := uptake[0];
        uptake := uptake[1..];
      }
      if r.Takes? {
        r := Takes(Min(r.n, |data|));
        sent := sent + data[..r.n];
      }
    }

    /** send: one attempt. NoError does not mean that everything was taken. */
    method Send(data: seq<byte>) returns (r: SockErr, total: nat)
      modifies this`connected, this`uptake, this`sent
      ensures total <= |data| && sent == old(sent) + data[..total]
      ensures r == NoError <==> total > 0
      ensures old(connected) && 0 < |data| <= INT32_MAX ==>
                if old(uptake) == [] then total == |data|
                else match old(uptake)[0]
                  case Takes(n) => total == Min(n, |data|) && (n == 0 ==> r == Closed)
                  case Refuses(e) => r == MapErr(e) && (connected <==> e != OtherFault(true))
      ensures r == Closed ==> !connected
      ensures r == NoError ==> old(connected) && connected
    {
      if !connected {
        return NotConnected, 0;
      }
      if |data| == 0 {
        return SizeZero, 0;
      }
      if |data| > INT32_MAX {
        return SizeTooLarge, 0;
      }
      var took := OsSend(data);
      match took
      case Takes(n) =>
        if n == 0 {
          connected := false;
          return Closed, 0;
        }
        return NoError, n;
      case Refuses(e) =>
        if e == OtherFault(true) {
          connected := false;
        }
        return MapErr(e), 0;
    }

    /** send_all goes on after partial and interrupted sends. NoError means that every byte was taken;
        otherwise the first refusal that is not an interrupt ended it. */
    method SendAll(data: seq<byte>) returns (r: SockErr, total: nat)
      modifies this`connected, this`uptake, this`sent
      ensures total <= |data| && sent == old(sent) + data[..total]
      ensures old(connected) && 0 < |data| <= INT32_MAX ==> (r == NoError <==> total == |data|)
      ensures old(connected) && 0 < |data| <= INT32_MAX ==>
                match Uptaken(old(uptake), |data|)
                case AllTaken => r == NoError && connected
                case NoneTaken(left) => r == Closed && !connected && total == |data| - left
                case Refused(e, left) =>
                  r == MapErr(e) && (connected <==> e != OtherFault(true)) && total == |data| - left
      ensures old(connected) && 0 < |data| <= INT32_MAX && Obliging(old(uptake)) ==> r == NoError
      ensures r == NoError ==> old(connected) && connected && total == |data|
      ensures r == Closed ==> !connected
    {
      if !connected {
        return NotConnected, 0;
      }
      if |data| == 0 {
        return SizeZero, 0;
      }
      if |data| > INT32_MAX {
        return SizeTooLarge, 0;
      }
      if Obliging(uptake) { ObligingTakesAll(uptake, |data|); }
      total := 0;
      while total < |data|
        invariant total <= |data| && sent == old(sent) + data[..total] && connected
        invariant Uptaken(uptake, |data| - total) == Uptaken(old(uptake), |data|)
        decreases |data| - total, |uptake|
      {
        var took := OsSend(data[total..]);
        match took
        case Takes(n) =>
          if n == 0 {
            connected := false;
            return Closed, total;
          }
          assert data[..total] + data[total..][..n] == data[..total + n];
          total := total + n;
        case Refuses(e) =>
          if e != Interrupted {
            if e == OtherFault(true) {
              connected := false;
            }
            return MapErr(e), total;
          }
      }
      r := NoError;
    }
  }

  /** The first total bytes of s have come into a buffer that held before. */
  ghost predicate Filled(now: seq<byte>, s: seq<byte>, total: nat, before: seq<byte>) {
    total <= |s| && total <= |before| && now == s[..total] + before[total..]
  }

  lemma AtStart(now: seq<byte>, s: seq<byte>)
    ensures Filled(now, s, 0, now)
  {
  }

  lemma AllOf(now: seq<byte>, s: seq<byte>, total: nat, before: seq<byte>)
    requires Filled(now, s, total, before)
    ensures total <= |s| && total <= |before| && now == s[..total] + before[total..]
    ensures total == |s| ==> s[..total] == s
  {
  }

  lemma Extended(s: seq<byte>, total: nat, bs: seq<byte>, before: seq<byte>, was: seq<byte>, now: seq<byte>)
    requires Filled(was, s, total, before) && total + |bs| <= |s| && total + |bs| <= |before|
    requires s[..total] + bs == s[..total + |bs|]
    requires now == was[..total] + bs + was[total + |bs|..]
    ensures Filled(now, s, total + |bs|, before)
  {
  }

  /** The next piece of the stream extends what has been received. */
  lemma Arrived(s: seq<byte>, total: nat, bs: seq<byte>, rest: seq<byte>)
    requires total <= |s| && s[total..] == bs + rest
    ensures total + |bs| <= |s| && s[total + |bs|..] == rest && s[..total] + bs == s[..total + |bs|]
  {
    assert s == s[..total] + s[total..];
    assert s[total..][|bs|..] == rest && s[total..][..|bs|] == bs;
  }
}
