/** The router (router.cpp): handles, routes and transports kept consistent with one another, and
    the send jobs built from them. */
module Routers {
  import opened Bytes
  import opened Lists
  import opened LabelFrame
  import opened RouteTables
  import opened Transports

  class SendHandle {
    const uid: nat
    const labelId: int32
    const size: nat      // buf_size

    constructor (uid: nat, labelId: int32, size: nat)
      ensures this.uid == uid && this.labelId == labelId && this.size == size
    {
      this.uid, this.labelId, this.size := uid, labelId, size;
    }
  }

  /** A receive handle as far as routing is concerned; its message slots are in RecvSlots. */
  class Receiver {
    const uid: nat
    const labelId: int32
    const size: nat      // buf_size

    constructor (uid: nat, labelId: int32, size: nat)
      ensures this.uid == uid && this.labelId == labelId && this.size == size
    {
      this.uid, this.labelId, this.size := uid, labelId, size;
    }
  }

  type SendHandles = map<nat, SendHandle>
  type Receivers = map<nat, Receiver>

  ghost predicate RouteOk(l: int32, r: SendRoute, handles: SendHandles) {
    && r.publishers != [] && NoDup(r.publishers)
    && forall u :: u in r.publishers ==> u in handles && handles[u].labelId == l && handles[u].size == r.size
  }

  /** Every route has publishers, none twice, and they are exactly the registered handles with that
      label, all of the route's size. */
  ghost predicate SendSide(routes: SendRoutes, handles: SendHandles) {
    && (forall l :: l in routes ==> RouteOk(l, routes[l], handles))
    && (forall u :: u in handles ==> handles[u].uid == u && IsPublisher(routes, handles[u].labelId, u))
  }

  ghost predicate RecvRouteOk(l: int32, r: RecvRoute, handles: Receivers) {
    && r.subscribers != [] && NoDup(r.subscribers)
    && forall u :: u in r.subscribers ==> u in handles && handles[u].labelId == l && handles[u].size == r.size
  }

  ghost predicate RecvSide(routes: RecvRoutes, handles: Receivers) {
    && (forall l :: l in routes ==> RecvRouteOk(l, routes[l], handles))
    && (forall u :: u in handles ==>
          handles[u].uid == u && handles[u].labelId in routes && u in routes[handles[u].labelId].subscribers)
  }

  ghost predicate SubscribersOk(r: SendRoute, shm: set<int32>, socks: set<int32>) {
    && NoDup(r.locals) && NoDup(r.remotes)
    && (forall n :: n in r.locals ==> n in shm) && (forall n :: n in r.remotes ==> n in socks)
  }

  /** Every subscriber is listed once and has a transport. */
  ghost predicate Reachable(routes: SendRoutes, shm: set<int32>, socks: set<int32>) {
    forall l :: l in routes ==> SubscribersOk(routes[l], shm, socks)
  }

  // ---- What registering and unregistering keep ----

  lemma RegisterKeeps(routes: SendRoutes, handles: SendHandles, h: SendHandle)
    requires SendSide(routes, handles) && h.uid !in handles
    ensures MayPublish(routes, h.labelId, h.uid, h.size) <==> (h.labelId in routes ==> routes[h.labelId].size == h.size)
    ensures MayPublish(routes, h.labelId, h.uid, h.size) ==>
              SendSide(WithPublisher(routes, h.labelId, h.uid, h.size), handles[h.uid := h])
  {
    var l := h.labelId;
    if l in routes { assert RouteOk(l, routes[l], handles); }
    if MayPublish(routes, l, h.uid, h.size) {
      var routes', handles' := WithPublisher(routes, l, h.uid, h.size), handles[h.uid := h];
      forall k | k in routes'
        ensures RouteOk(k, routes'[k], handles')
      {
        if k in routes { assert RouteOk(k, routes[k], handles); }
      }
    }
  }

  lemma UnregisterKeeps(routes: SendRoutes, handles: SendHandles, u: nat)
    requires SendSide(routes, handles) && u in handles
    ensures IsPublisher(routes, handles[u].labelId, u)
    ensures SendSide(WithoutPublisher(routes, handles[u].labelId, u), handles - {u})
  {
    var l := handles[u].labelId;
    assert RouteOk(l, routes[l], handles);
    WithoutMembers(routes[l].publishers, u);
    var routes', handles' := WithoutPublisher(routes, l, u), handles - {u};
    forall k | k in routes'
      ensures RouteOk(k, routes'[k], handles')
    {
      assert RouteOk(k, routes[k], handles);
    }
    forall v | v in handles'
      ensures IsPublisher(routes', handles'[v].labelId, v)
    {
      assert IsPublisher(routes, handles[v].labelId, v);
    }
  }

  lemma RegisterRecvKeeps(routes: RecvRoutes, handles: Receivers, h: Receiver)
    requires RecvSide(routes, handles) && h.uid !in handles
    ensures MayReceive(routes, h.labelId, h.uid, h.size) <==> (h.labelId in routes ==> routes[h.labelId].size == h.size)
    ensures MayReceive(routes, h.labelId, h.uid, h.size) ==>
              RecvSide(WithReceiver(routes, h.labelId, h.uid, h.size), handles[h.uid := h])
  {
    var l := h.labelId;
    if l in routes { assert RecvRouteOk(l, routes[l], handles); }
    if MayReceive(routes, l, h.uid, h.size) {
      var routes', handles' := WithReceiver(routes, l, h.uid, h.size), handles[h.uid := h];
      forall k | k in routes'
        ensures RecvRouteOk(k, routes'[k], handles')
      {
        if k in routes { assert RecvRouteOk(k, routes[k], handles); }
      }
    }
  }

  lemma UnregisterRecvKeeps(routes: RecvRoutes, handles: Receivers, u: nat)
    requires RecvSide(routes, handles) && u in handles
    ensures handles[u].labelId in routes && u in routes[handles[u].labelId].subscribers
    ensures RecvSide(WithoutReceiver(routes, handles[u].labelId, u), handles - {u})
  {
    var l := handles[u].labelId;
    assert RecvRouteOk(l, routes[l], handles);
    WithoutMembers(routes[l].subscribers, u);
    var routes', handles' := WithoutReceiver(routes, l, u), handles - {u};
    forall k | k in routes'
      ensures RecvRouteOk(k, routes'[k], handles')
    {
      assert RecvRouteOk(k, routes[k], handles);
    }
    forall v | v in handles'
      ensures handles'[v].labelId in routes' && v in routes'[handles'[v].labelId].subscribers
    {
      assert handles[v].labelId in routes && v in routes[handles[v].labelId].subscribers;
    }
  }

  /** Edits of the subscriber lists do not concern the publishers. */
  lemma SubscriberEdit(routes: SendRoutes, routes': SendRoutes, handles: SendHandles)
    requires SendSide(routes, handles) && routes'.Keys == routes.Keys
    requires forall l :: l in routes ==>
               routes'[l].publishers == routes[l].publishers && routes'[l].size == routes[l].size
    ensures SendSide(routes', handles)
  {
    forall l | l in routes'
      ensures RouteOk(l, routes'[l], handles)
    {
      assert RouteOk(l, routes[l], handles);
    }
  }

  lemma PublishersDoNotMatter(routes: SendRoutes, l: int32, uid: nat, size: nat, shm: set<int32>, socks: set<int32>)
    requires Reachable(routes, shm, socks)
    ensures Reachable(WithPublisher(routes, l, uid, size), shm, socks)
    ensures l in routes ==> Reachable(WithoutPublisher(routes, l, uid), shm, socks)
  {
  }

  lemma SubscriberAdded(routes: SendRoutes, l: int32, node: int32, shm: set<int32>, socks: set<int32>)
    requires Reachable(routes, shm, socks) && l in routes
    ensures node in shm && node !in routes[l].locals ==> Reachable(WithLocal(routes, l, node), shm, socks)
    ensures node in socks && node !in routes[l].remotes ==> Reachable(WithRemote(routes, l, node), shm, socks)
  {
    assert SubscribersOk(routes[l], shm, socks);
  }

  lemma SubscriberRemoved(routes: SendRoutes, l: int32, node: int32, shm: set<int32>, socks: set<int32>)
    requires Reachable(routes, shm, socks) && l in routes
    ensures var r := routes[l];
            && Reachable(routes[l := r.(locals := Without(r.locals, node))], shm, socks)
            && Reachable(routes[l := r.(remotes := Without(r.remotes, node))], shm, socks)
  {
    assert SubscribersOk(routes[l], shm, socks);
    WithoutMembers(routes[l].locals, node);
    WithoutMembers(routes[l].remotes, node);
  }

  // ---- Send jobs ----

  /** A missing transport would be None or null. */
  datatype SendJob = SendJob(source: int32, labelId: int32, seqNo: uint32, publisher: SendHandle?,
                             locals: seq<Option<ShmSend>>, remotes: seq<Socket?>, pending: nat)


  datatype JobErr = JobOk | RouteNotFound | SizeMismatch | UnknownHandle | NoPublishers | IncorrectPublisher

  /** The answer of build_send_job for total bytes, label header included. */
  function JobVerdict(routes: SendRoutes, known: set<nat>, l: int32, uid: nat, total: nat): JobErr {
    if l !in routes then RouteNotFound
    else if routes[l].size + LABEL_HEADER_SIZE != total then SizeMismatch
    else if uid !in known then UnknownHandle
    else if routes[l].publishers == [] then NoPublishers
    else if uid !in routes[l].publishers then IncorrectPublisher
    else JobOk
  }

  /** Among sound tables a job is refused only for what the caller got wrong: a label that is not
      the handle's own, a size that is not the route's, or a handle that is not registered. */
  lemma VerdictMeans(routes: SendRoutes, handles: SendHandles, l: int32, uid: nat, total: nat)
    requires SendSide(routes, handles)
    ensures JobVerdict(routes, handles.Keys, l, uid, total) == JobOk <==>
              uid in handles && handles[uid].labelId == l && handles[uid].size + LABEL_HEADER_SIZE == total
    ensures JobVerdict(routes, handles.Keys, l, uid, total) != NoPublishers
    ensures JobVerdict(routes, handles.Keys, l, uid, total) == RouteNotFound <==>
              forall u :: u in handles ==> handles[u].labelId != l
    ensures JobVerdict(routes, handles.Keys, l, uid, total) == SizeMismatch <==>
              exists u :: u in handles && handles[u].labelId == l && handles[u].size + LABEL_HEADER_SIZE != total
    ensures JobVerdict(routes, handles.Keys, l, uid, total) == UnknownHandle <==>
              uid !in handles
              && exists u :: u in handles && handles[u].labelId == l && handles[u].size + LABEL_HEADER_SIZE == total
    ensures JobVerdict(routes, handles.Keys, l, uid, total) == IncorrectPublisher <==>
              uid in handles && handles[uid].labelId != l
              && exists u :: u in handles && handles[u].labelId == l && handles[u].size + LABEL_HEADER_SIZE == total
  {
    forall u | u in handles && handles[u].labelId == l
      ensures l in routes && routes[l].size == handles[u].size
    {
      assert IsPublisher(routes, handles[u].labelId, u);
      assert RouteOk(l, routes[l], handles);
    }
    if l in routes {
      assert RouteOk(l, routes[l], handles);
      var u := routes[l].publishers[0];
      assert u in handles && handles[u].labelId == l && handles[u].size == routes[l].size;
    }
    if uid in handles {
      assert IsPublisher(routes, handles[uid].labelId, uid);
      assert RouteOk(handles[uid].labelId, routes[handles[uid].labelId], handles);
    }
  }

  class Router {
    const routes: RouteTable
    const transports: TransportRegistry
    var sendHandles: SendHandles
    var recvHandles: Receivers
    var seqNo: uint32

    ghost predicate Valid()
      reads this, routes, transports
    {
      && routes.Valid()
      && SendSide(routes.sendRoutes, sendHandles) && RecvSide(routes.recvRoutes, recvHandles)
      && Reachable(routes.sendRoutes, transports.sendShm.Keys, transports.sockets.Keys)
    }

    constructor ()
      ensures Valid() && fresh(routes) && fresh(transports) && sendHandles == map[] && recvHandles == map[]
      ensures routes.sendRoutes == map[] && routes.recvRoutes == map[]
    {
      routes := new RouteTable();
      transports := new TransportRegistry();
      sendHandles, recvHandles, seqNo := map[], map[], 0;
    }

    /** A duplicate uid or a size that differs from the route's leaves everything as it was. */
    method RegisterSendPublisher(h: SendHandle?)
      requires Valid()
      modifies this`sendHandles, routes
      ensures Valid() && old(routes.sendPast) <= routes.sendPast
      ensures routes.recvRoutes == old(routes.recvRoutes) && routes.recvPast == old(routes.recvPast)
      ensures if h == null || h.uid in old(sendHandles)
                 || (h.labelId in old(routes.sendRoutes) && old(routes.sendRoutes)[h.labelId].size != h.size)
              then sendHandles == old(sendHandles) && routes.sendRoutes == old(routes.sendRoutes)
              else sendHandles == old(sendHandles)[h.uid := h]
                   && routes.sendRoutes == WithPublisher(old(routes.sendRoutes), h.labelId, h.uid, h.size)
    {
      hide SendSide, RecvSide, Reachable, WithPublisher, WithoutPublisher, WithReceiver, WithoutReceiver;
      hide MayPublish, MayReceive, RouteTable.Valid;
      if h == null || h.uid in sendHandles {
        return;
      }
      RegisterKeeps(routes.sendRoutes, sendHandles, h);
      PublishersDoNotMatter(routes.sendRoutes, h.labelId, h.uid, h.size, transports.sendShm.Keys,
        transports.sockets.Keys);
      ghost var before := sendHandles;
      sendHandles := sendHandles[h.uid := h];
      var ok := routes.AddSendPublisher(h.labelId, h.uid, h.size);
      if !ok {
        sendHandles := sendHandles - {h.uid};
        assert sendHandles == before;
      }
    }

    /** Only the very handle that was registered can be unregistered. */
    method UnregisterSendPublisher(h: SendHandle?)
      requires Valid()
      modifies this`sendHandles, routes
      ensures Valid() && old(routes.sendPast) <= routes.sendPast
      ensures routes.recvRoutes == old(routes.recvRoutes) && routes.recvPast == old(routes.recvPast)
      ensures if h == null || h.uid !in old(sendHandles) || old(sendHandles)[h.uid] != h
              then sendHandles == old(sendHandles) && routes.sendRoutes == old(routes.sendRoutes)
              else sendHandles == old(sendHandles) - {h.uid} && h.labelId in old(routes.sendRoutes)
                   && routes.sendRoutes == WithoutPublisher(old(routes.sendRoutes), h.labelId, h.uid)
    {
      hide SendSide, RecvSide, Reachable, WithPublisher, WithoutPublisher, WithReceiver, WithoutReceiver;
      hide MayPublish, MayReceive, RouteTable.Valid;
      if h == null || h.uid !in sendHandles || sendHandles[h.uid] != h {
        return;
      }
      UnregisterKeeps(routes.sendRoutes, sendHandles, h.uid);
      PublishersDoNotMatter(routes.sendRoutes, h.labelId, h.uid, h.size, transports.sendShm.Keys,
        transports.sockets.Keys);
      sendHandles := sendHandles - {h.uid};
      var ok := routes.RemoveSendPublisher(h.labelId, h.uid);
    }

    method RegisterRecvSubscriber(h: Receiver?)
      requires Valid()
      modifies this`recvHandles, routes
      ensures Valid() && old(routes.recvPast) <= routes.recvPast
      ensures routes.sendRoutes == old(routes.sendRoutes) && routes.sendPast == old(routes.sendPast)
      ensures if h == null || h.uid in old(recvHandles)
                 || (h.labelId in old(routes.recvRoutes) && old(routes.recvRoutes)[h.labelId].size != h.size)
              then recvHandles == old(recvHandles) && routes.recvRoutes == old(routes.recvRoutes)
              else recvHandles == old(recvHandles)[h.uid := h]
                   && routes.recvRoutes == WithReceiver(old(routes.recvRoutes), h.labelId, h.uid, h.size)
    {
      hide SendSide, RecvSide, Reachable, WithPublisher, WithoutPublisher, WithReceiver, WithoutReceiver;
      hide MayPublish, MayReceive, RouteTable.Valid;
      if h == null || h.uid in recvHandles {
        return;
      }
      RegisterRecvKeeps(routes.recvRoutes, recvHandles, h);
      ghost var before := recvHandles;
      recvHandles := recvHandles[h.uid := h];
      var ok := routes.AddRecvSubscriber(h.labelId, h.uid, h.size);
      if !ok {
        recvHandles := recvHandles - {h.uid};
        assert recvHandles == before;
      }
    }

    method UnregisterRecvSubscriber(h: Receiver?)
      requires Valid()
      modifies this`recvHandles, routes
      ensures Valid() && old(routes.recvPast) <= routes.recvPast
      ensures routes.sendRoutes == old(routes.sendRoutes) && routes.sendPast == old(routes.sendPast)
      ensures if h == null || h.uid !in old(recvHandles) || old(recvHandles)[h.uid] != h
              then recvHandles == old(recvHandles) && routes.recvRoutes == old(routes.recvRoutes)
              else recvHandles == old(recvHandles) - {h.uid} && h.labelId in old(routes.recvRoutes)
                   && routes.recvRoutes == WithoutReceiver(old(routes.recvRoutes), h.labelId, h.uid)
    {
      hide SendSide, RecvSide, Reachable, WithPublisher, WithoutPublisher, WithReceiver, WithoutReceiver;
      hide MayPublish, MayReceive, RouteTable.Valid;
      if h == null || h.uid !in recvHandles || recvHandles[h.uid] != h {
        return;
      }
      UnregisterRecvKeeps(routes.recvRoutes, recvHandles, h.uid);
      recvHandles := recvHandles - {h.uid};
      var ok := routes.RemoveRecvSubscriber(h.labelId, h.uid);
    }

    method AddLocalSendSubscriber(l: int32, size: nat, node: int32)
      requires Valid()
      modifies routes`sendRoutes
      ensures Valid()
      ensures routes.sendRoutes == if node in transports.sendShm && l in old(routes.sendRoutes)
                                      && old(routes.sendRoutes)[l].size == size
                                         && !IsLocal(old(routes.sendRoutes), l, node)
                                   then WithLocal(old(routes.sendRoutes), l, node) else old(routes.sendRoutes)
    {
      hide SendSide, RecvSide, Reachable, RouteTable.Valid;
      if node !in transports.sendShm {
        return;
      }
      ghost var before := routes.sendRoutes;
      var ok := routes.AddLocalSendSubscriber(l, size, node);
      if ok {
        SubscriberAdded(before, l, node, transports.sendShm.Keys, transports.sockets.Keys);
        SubscriberEdit(before, routes.sendRoutes, sendHandles);
      }
    }

    method AddRemoteSendSubscriber(l: int32, size: nat, node: int32)
      requires Valid()
      modifies routes`sendRoutes
      ensures Valid()
      ensures routes.sendRoutes == if node in transports.sockets && l in old(routes.sendRoutes)
                                      && old(routes.sendRoutes)[l].size == size
                                         && !IsRemote(old(routes.sendRoutes), l, node)
                                   then WithRemote(old(routes.sendRoutes), l, node) else old(routes.sendRoutes)
    {
      hide SendSide, RecvSide, Reachable, RouteTable.Valid;
      if node !in transports.sockets {
        return;
      }
      ghost var before := routes.sendRoutes;
      var ok := routes.AddRemoteSendSubscriber(l, size, node);
      if ok {
        SubscriberAdded(before, l, node, transports.sendShm.Keys, transports.sockets.Keys);
        SubscriberEdit(before, routes.sendRoutes, sendHandles);
      }
    }

    method RemoveLocalSendSubscriber(l: int32, node: int32)
      requires Valid()
      modifies routes`sendRoutes
      ensures Valid()
      ensures routes.sendRoutes == if l in old(routes.sendRoutes)
                                   then old(routes.sendRoutes)[l := old(routes.sendRoutes)[l].(locals :=
                                       Without(old(routes.sendRoutes)[l].locals, node))]
                                   else old(routes.sendRoutes)
    {
      hide SendSide, RecvSide, Reachable, RouteTable.Valid;
      ghost var before := routes.sendRoutes;
      var ok := routes.RemoveLocalSendSubscriber(l, node);
      if l in before {
        SubscriberRemoved(before, l, node, transports.sendShm.Keys, transports.sockets.Keys);
        SubscriberEdit(before, routes.sendRoutes, sendHandles);
      }
    }

    method RemoveRemoteSendSubscriber(l: int32, node: int32)
      requires Valid()
      modifies routes`sendRoutes
      ensures Valid()
      ensures routes.sendRoutes == if l in old(routes.sendRoutes)
                                   then old(routes.sendRoutes)[l := old(routes.sendRoutes)[l].(remotes :=
                                       Without(old(routes.sendRoutes)[l].remotes, node))]
                                   else old(routes.sendRoutes)
    {
      hide SendSide, RecvSide, Reachable, RouteTable.Valid;
      ghost var before := routes.sendRoutes;
      var ok := routes.RemoveRemoteSendSubscriber(l, node);
      if l in before {
        SubscriberRemoved(before, l, node, transports.sendShm.Keys, transports.sockets.Keys);
        SubscriberEdit(before, routes.sendRoutes, sendHandles);
      }
    }

    /** is_send_subscriber */
    predicate IsSendSubscriber(l: int32, node: int32)
      reads this, routes
    {
      IsRemote(routes.sendRoutes, l, node) || IsLocal(routes.sendRoutes, l, node)
    }

    method UpsertSocket(id: int32, sock: Socket?) returns (ok: bool)
      requires Valid()
      modifies transports`sockets, if id in transports.sockets then {transports.sockets[id]} else {}
      ensures Valid() && (ok <==> sock != null)
      ensures transports.sockets == if sock == null then old(transports.sockets)
          else old(transports.sockets)[id := sock]
      ensures ok && id in old(transports.sockets) ==> !old(transports.sockets)[id].connected
    {
      hide SendSide, RecvSide, RouteTable.Valid;
      ok := transports.UpsertSocket(id, sock);
    }

    method OpenSendShm(dst: int32, opens: bool) returns (ok: bool)
      requires Valid()
      modifies transports`sendShm
      ensures Valid() && (ok <==> dst in old(transports.sendShm) || opens)
      ensures transports.sendShm == if dst !in old(transports.sendShm) && opens
                                    then old(transports.sendShm)[dst := ShmSend(dst)] else old(transports.sendShm)
    {
      hide SendSide, RecvSide, RouteTable.Valid;
      ok := transports.OpenSendShm(dst, opens);
    }

    /** One open shared block for every local subscriber, in order. */
    ghost predicate AllLocal(nodes: seq<int32>, found: seq<Option<ShmSend>>)
      reads this, transports
    {
      && |found| == |nodes|
      && forall i :: 0 <= i < |nodes| ==>
           nodes[i] in transports.sendShm && found[i] == Some(transports.sendShm[nodes[i]])
    }

    /** One socket for every remote subscriber, in order. */
    ghost predicate AllRemote(nodes: seq<int32>, found: seq<Socket?>)
      reads this, transports
    {
      && |found| == |nodes|
      && forall i :: 0 <= i < |nodes| ==> nodes[i] in transports.sockets && found[i] == transports.sockets[nodes[i]]
    }

    /** build_send_job for total bytes, label header included. */
    method BuildSendJob(me: int32, l: int32, uid: nat, total: nat) returns (err: JobErr, job: SendJob)
      requires Valid()
      modifies this`seqNo
      ensures Valid() && job.source == me && job.labelId == l
      ensures job.seqNo == old(seqNo) && seqNo == (old(seqNo) + 1) % TWO_TO_THE_32
      ensures err == JobVerdict(routes.sendRoutes, sendHandles.Keys, l, uid, total)
      ensures err == JobOk ==>
                var r := routes.sendRoutes[l];
                && job.publisher == sendHandles[uid]
                && AllLocal(r.locals, job.locals) && AllRemote(r.remotes, job.remotes)
                && job.pending == |r.locals| + |r.remotes|
    {
      job := SendJob(me, l, seqNo, null, [], [], 0);
      seqNo := (seqNo + 1) % TWO_TO_THE_32;
      err := JobOk;
      if l !in routes.sendRoutes {
        return RouteNotFound, job;
      }
      var r := routes.sendRoutes[l];
      if r.size + LABEL_HEADER_SIZE != total {
        return SizeMismatch, job;
      }
      if uid !in sendHandles {
        return UnknownHandle, job;
      }
      if r.publishers == [] {
        return NoPublishers, job;
      }
      if uid !in r.publishers {
        return IncorrectPublisher, job;
      }
      assert SubscribersOk(r, transports.sendShm.Keys, transports.sockets.Keys);
      var locals := SnapshotLocals(r.locals);
      var remotes := SnapshotRemotes(r.remotes);
      job := job.(publisher := sendHandles[uid], locals := locals, remotes := remotes, pending := |locals| + |remotes|);
    }

    method SnapshotLocals(nodes: seq<int32>) returns (found: seq<Option<ShmSend>>)
      ensures |found| == |nodes| && forall i :: 0 <= i < |nodes| ==> found[i] == transports.GetSendShm(nodes[i])
    {
      found := [];
      for k := 0 to |nodes|
        invariant |found| == k && forall i :: 0 <= i < k ==> found[i] == transports.GetSendShm(nodes[i])
      {
        found := found + [transports.GetSendShm(nodes[k])];
      }
    }

    method SnapshotRemotes(nodes: seq<int32>) returns (found: seq<Socket?>)
      ensures |found| == |nodes| && forall i :: 0 <= i < |nodes| ==> found[i] == transports.GetSocket(nodes[i])
    {
      found := [];
      for k := 0 to |nodes|
        invariant |found| == k && forall i :: 0 <= i < k ==> found[i] == transports.GetSocket(nodes[i])
      {
        found := found + [transports.GetSocket(nodes[k])];
      }
    }

    /** The first half of distribute_recvd_label: whom a label of size bytes goes to. */
    method FindRecipients(l: int32, size: nat) returns (found: seq<Receiver>)
      requires Valid()
      ensures if size == 0 || l !in routes.recvRoutes || routes.recvRoutes[l].size != size then found == []
              else var uids := routes.recvRoutes[l].subscribers;
                   && |found| == |uids| > 0
                   && forall i :: 0 <= i < |uids| ==>
                        uids[i] in recvHandles && found[i] == recvHandles[uids[i]]
                        && found[i].uid == uids[i] && found[i].labelId == l && found[i].size == size
    {
      found := [];
      if size == 0 || l !in routes.recvRoutes || routes.recvRoutes[l].size != size {
        return;
      }
      var uids := routes.recvRoutes[l].subscribers;
      assert RecvRouteOk(l, routes.recvRoutes[l], recvHandles);
      for k := 0 to |uids|
        invariant |found| == k
        invariant forall i :: 0 <= i < k ==> uids[i] in recvHandles && found[i] == recvHandles[uids[i]]
      {
        if uids[k] in recvHandles {
          found := found + [recvHandles[uids[k]]];
        }
      }
    }
  }
}
