/** The transports a node can send over (transport_registry.cpp). */
module Transports {
  import opened Bytes

  datatype Option<T> = None | Some(value: T)

  class Socket {
    const peer: int32
    var connected: bool

    constructor (peer: int32)
      ensures this.peer == peer && connected
    {
      this.peer := peer;
      connected := true;
    }

    method Disconnect()
      modifies this
      ensures !connected
    {
      connected := false;
    }
  }

  /** The sending end of another node's shared block. */
  datatype ShmSend = ShmSend(dst: int32)

  class TransportRegistry {
    var sockets: map<int32, Socket>
    var sendShm: map<int32, ShmSend>

    constructor ()
      ensures sockets == map[] && sendShm == map[]
    {
      sockets, sendShm := map[], map[];
    }

    /** A socket that is replaced is disconnected first. */
    method UpsertSocket(id: int32, sock: Socket?) returns (ok: bool)
      modifies this`sockets, if id in sockets then {sockets[id]} else {}
      ensures ok <==> sock != null
      ensures sockets == if sock == null then old(sockets) else old(sockets)[id := sock]
      ensures ok && id in old(sockets) ==> !old(sockets)[id].connected
      ensures !ok && id in old(sockets) ==> old(sockets)[id].connected == old(sockets[id].connected)
    {
      if sock == null {
        return false;
      }
      if id in sockets {
        sockets[id].Disconnect();
      }
      sockets := sockets[id := sock];
      return true;
    }

    /** opens is whether the shared block of dst exists by now. */
    method OpenSendShm(dst: int32, opens: bool) returns (ok: bool)
      modifies this`sendShm
      ensures ok <==> dst in old(sendShm) || opens
      ensures sendShm == if dst !in old(sendShm) && opens then old(sendShm)[dst := ShmSend(dst)] else old(sendShm)
    {
      if dst in sendShm {
        return true;
      }
      if !opens {
        return false;
      }
      sendShm := sendShm[dst := ShmSend(dst)];
      return true;
    }

    function GetSocket(id: int32): Socket?
      reads this
    {
      if id in sockets then sockets[id] else null
    }

    function GetSendShm(id: int32): Option<ShmSend>
      reads this
    {
      if id in sendShm then Some(sendShm[id]) else None
    }
  }
}
