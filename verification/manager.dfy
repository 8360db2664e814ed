/** The manager (manager.cpp): opening and closing handles, sending a label, and taking in other
    nodes' broadcasts. */
module Managers {
  import opened Bytes
  import opened Lists
  import opened LabelFrame
  import opened LabelSnapshots
  import opened RouteTables
  import opened Transports
  import opened Routers
  import opened Reconciliation

  /** A buffer of a caller with the size it declares. */
  datatype Given = Given(data: seq<byte>, size: nat)

  /** The job and the buffer handed to the send workers. */
  datatype Handover = Handover(err: JobErr, job: SendJob, frame: seq<byte>)

  /** The routes after the add pass has come by the labels in done. */
  function AddedSoFar(routes: SendRoutes, node: int32, kind: RouteKind, reach: bool, wanted: Wanted,
      done: set<int32>): SendRoutes {
    map l | l in routes :: if l in done && l in wanted then Added(routes[l], node, kind, reach, wanted[l])
        else routes[l]
  }

  /** The routes after the remove pass has come by the labels in done. */
  function RemovedSoFar(routes: SendRoutes, node: int32, kind: RouteKind, wanted: Wanted,
      done: set<int32>): SendRoutes {
    map l | l in routes ::
      if l in done && l !in wanted && Subscribed(routes[l], node) then Removed(routes[l], node, kind) else routes[l]
  }

  lemma AddOne(routes: SendRoutes, node: int32, kind: RouteKind, reach: bool, wanted: Wanted, done: set<int32>,
      l: int32)
    requires l !in done && l in wanted
    ensures var now := AddedSoFar(routes, node, kind, reach, wanted, done);
            var then' := AddedSoFar(routes, node, kind, reach, wanted, done + {l});
            then' == if l in routes then now[l := Added(now[l], node, kind, reach, wanted[l])] else now
  {
  }

  lemma RemoveOne(routes: SendRoutes, node: int32, kind: RouteKind, wanted: Wanted, done: set<int32>, l: int32)
    requires forall k :: k in routes ==> NoDup(routes[k].locals) && NoDup(routes[k].remotes)
    ensures var now := RemovedSoFar(routes, node, kind, wanted, done);
            var then' := RemovedSoFar(routes, node, kind, wanted, done + {l});
            then' == if l in routes && l !in wanted && Subscribed(now[l], node)
                     then now[l := Removed(now[l], node, kind)] else now
  {
    if l in routes {
      RemovedTwice(routes[l], node, kind);
    }
  }

  /** The routes with those reconciled that the node asks for or the remove pass has come by. */
  function ReconciledIn(routes: SendRoutes, node: int32, kind: RouteKind, reach: bool, wanted: Wanted,
      done: set<int32>): SendRoutes {
    map l | l in routes ::
      if l in wanted || l in done then ReconciledRoute(routes[l], l, node, kind, reach, wanted) else routes[l]
  }

  /** Both passes together are the reconciliation, of the whole table if the remove pass comes by every
      route. */
  lemma BothPasses(routes: SendRoutes, node: int32, kind: RouteKind, reach: bool, wanted: Wanted, done: set<int32>)
    ensures RemovedSoFar(AddedSoFar(routes, node, kind, reach, wanted, wanted.Keys), node, kind, wanted, done)
            == ReconciledIn(routes, node, kind, reach, wanted, done)
    ensures routes.Keys <= done ==>
              ReconciledIn(routes, node, kind, reach, wanted, done) == Reconciled(routes, node, kind, reach, wanted)
  {
  }

  lemma NothingSoFar(routes: SendRoutes, node: int32, kind: RouteKind, reach: bool, wanted: Wanted)
    ensures AddedSoFar(routes, node, kind, reach, wanted, {}) == routes
    ensures RemovedSoFar(routes, node, kind, wanted, {}) == routes
  {
  }

  /** What a message from node means for the routes: a node of the address book is subscribed to a
      label afterwards exactly if it asks for it and was subscribed before, or asks with the route's
      size and has a transport of the kind the address book gives it; everybody else, publishers and
      sizes stay as they were; and a node that is not in the address book changes nothing. Routes that
      the node does not ask for are reached only in done. */
  ghost predicate TakenIn(before: SendRoutes, after: SendRoutes, node: int32, kinds: map<int32, RouteKind>,
      shm: set<int32>, socks: set<int32>, wanted: Wanted, done: set<int32>) {
    && after.Keys == before.Keys
    && (node !in kinds ==> after == before)
    && forall l :: l in before ==>
         && after[l].size == before[l].size && after[l].publishers == before[l].publishers
         && (forall n :: n != node ==>
               (n in after[l].locals <==> n in before[l].locals) && (n in after[l].remotes <==> n in before[l].remotes))
         && (l !in wanted && l !in done ==> after[l] == before[l])
         && (node in kinds && !kinds[node].Nowhere? && (l in wanted || l in done) ==>
               (node in after[l].locals || node in after[l].remotes <==>
                l in wanted && (node in before[l].locals || node in before[l].remotes
                                || (before[l].size == wanted[l]
                                    && node in if kinds[node] == OverSocket then socks else shm))))
  }

  lemma ReconciledTakenIn(before: SendRoutes, node: int32, kinds: map<int32, RouteKind>, kind: RouteKind, reach: bool,
      shm: set<int32>, socks: set<int32>, wanted: Wanted, done: set<int32>)
    requires forall l :: l in before ==> OneSided(before[l], kinds)
    requires kind == if node in kinds then kinds[node] else Nowhere
    requires reach == (node in if kind == OverSocket then socks else shm)
    ensures var after := ReconciledIn(before, node, kind, reach, wanted, done);
            TakenIn(before, after, node, kinds, shm, socks, wanted, done)
  {
    hide ReconciledRoute, OneSided;
    var after := ReconciledIn(before, node, kind, reach, wanted, done);
    if node !in kinds { StrangerChangesNothing(before, node, reach, wanted); }
    if node !in kinds {
      forall l | l in before
        ensures after[l] == before[l]
      {
        assert Reconciled(before, node, kind, reach, wanted)[l] == before[l];
      }
    }
    forall l | l in before
      ensures OneSided(before[l], kinds) && NoDup(before[l].locals) && NoDup(before[l].remotes)
    {
      ListsOnce(before[l], kinds);
    }
    forall l | l in before
      ensures after[l].size == before[l].size && after[l].publishers == before[l].publishers
      ensures forall n :: n != node ==>
               (n in after[l].locals <==> n in before[l].locals) && (n in after[l].remotes <==> n in before[l].remotes)
    {
      OthersUntouched(before[l], l, node, kind, reach, wanted);
    }
    if node in kinds && !kind.Nowhere? {
      forall l | l in before && (l in wanted || l in done)
        ensures Subscribed(after[l], node) <==>
              l in wanted && (Subscribed(before[l], node) || (before[l].size == wanted[l] && reach))
      {
        SubscribedIff(before[l], l, node, kinds, reach, wanted);
      }
    }
  }

  lemma ListsOnce(r: SendRoute, kinds: map<int32, RouteKind>)
    requires OneSided(r, kinds)
    ensures NoDup(r.locals) && NoDup(r.remotes)
  {
  }

  /** What open_send and open_recv accept. */
  predicate Acceptable(l: int32, hasBuf: bool, size: nat) {
    l > NO_LABEL && hasBuf && 0 < size <= MAX_LABEL_SIZE
  }

  /** The number that the n-th draw hands out, counted from 0. */
  function Number(n: nat): uint32 {
    (1 + n) % TWO_TO_THE_64 % TWO_TO_THE_32
  }

  /** Two draws give the same number exactly if a multiple of 2^32 draws lies between them. */
  lemma NumbersRepeat(i: nat, j: nat)
    requires i <= j
    ensures Number(i) == Number(j) <==> (j - i) % TWO_TO_THE_32 == 0
  {
    Narrowed(1 + i);
    Narrowed(1 + j);
    var m := TWO_TO_THE_32;
    var qi, qj, q := (1 + i) / m, (1 + j) / m, (j - i) / m;
    assert 1 + i == qi * m + Number(i) && 1 + j == qj * m + Number(j) && j - i == q * m + (j - i) % m;
    assert j - i == (qj - qi) * m + (Number(j) - Number(i));
  }

  lemma NumberIs(n: nat)
    requires n < TWO_TO_THE_32
    ensures Number(n) == if n == TWO_TO_THE_32 - 1 then 0 else n + 1
  {
  }

  lemma Narrowed(x: nat)
    ensures x % TWO_TO_THE_64 % TWO_TO_THE_32 == x % TWO_TO_THE_32
  {
    var q, r := x / TWO_TO_THE_64, x % TWO_TO_THE_64;
    assert x == q * TWO_TO_THE_64 + r;
    assert x == (q * TWO_TO_THE_32 + r / TWO_TO_THE_32) * TWO_TO_THE_32 + r % TWO_TO_THE_32;
  }

  class Manager {
    const id: int32
    const kinds: map<int32, RouteKind>   // the address book
    const router: Router
    var nextUid: nat                     // 64-bit counter

    ghost var drawn: nat                 // handle numbers drawn so far
    ghost var given: seq<nat>            // the numbers of all handles that callers have got

    /** Labels are valid and every subscriber is on the list that its kind calls for. */
    ghost predicate Valid()
      reads this, router, router.routes, router.transports
    {
      && router.Valid()
      && (forall l :: l in router.routes.sendRoutes ==> l > NO_LABEL && OneSided(router.routes.sendRoutes[l], kinds))
      && (forall l :: l in router.routes.recvRoutes ==> l > NO_LABEL)
      && nextUid == (1 + drawn) % TWO_TO_THE_64
      && (forall u :: u in router.sendHandles || u in router.recvHandles ==> u in given)
      && GivenOnce()
    }

    /** Until all 2^32 numbers have been drawn, no two callers have got handles of the same number. */
    ghost predicate GivenOnce()
      reads this`drawn, this`given
    {
      drawn <= TWO_TO_THE_32 ==>
        NoDup(given) && forall u :: u in given ==> if u == 0 then drawn == TWO_TO_THE_32 else u <= drawn
    }

    /** Nobody has got a handle of the number just drawn. */
    ghost predicate FreshlyDrawn()
      reads this`drawn, this`given
    {
      drawn <= TWO_TO_THE_32 ==> NoDup(given) && forall u :: u in given ==> u != 0 && u < drawn
    }

    /** A caller gets a handle with the number just drawn. */
    ghost method Give(uid: uint32)
      requires drawn > 0 && uid == Number(drawn - 1) && FreshlyDrawn()
      modifies this`given
      ensures given == old(given) + [uid] && GivenOnce()
      ensures drawn <= TWO_TO_THE_32 ==> uid !in old(given)
    {
      if drawn <= TWO_TO_THE_32 {
        NumberIs(drawn - 1);
        NoDupPush(given, uid);
      }
      given := given + [uid];
    }

    constructor (id: int32, kinds: map<int32, RouteKind>)
      ensures Valid() && fresh(router) && fresh(router.routes) && fresh(router.transports)
      ensures this.id == id && this.kinds == kinds && drawn == 0 && given == [] && nextUid == 1
      ensures router.sendHandles == map[] && router.recvHandles == map[]
      ensures router.routes.sendRoutes == map[] && router.routes.recvRoutes == map[]
    {
      this.id, this.kinds := id, kinds;
      router := new Router();
      nextUid, drawn, given := 1, 0, [];
    }

    function Kind(node: int32): RouteKind {
      if node in kinds then kinds[node] else Nowhere
    }

    /** Whether the node's own transport exists. */
    function Reach(node: int32): bool
      reads router, router.transports
    {
      if Kind(node).OverSocket? then node in router.transports.sockets else node in router.transports.sendShm
    }

    /** std::unordered_map::emplace over the labels of a message: the first entry for a label wins. */
    method CollectWanted(labels: seq<LabelInfo>) returns (wanted: Wanted)
      ensures IsWanted(labels, wanted)
    {
      wanted := map[];
      for k := 0 to |labels|
        invariant forall l :: l in wanted ==> l > NO_LABEL
        invariant forall i :: 0 <= i < k && labels[i].labelId > NO_LABEL ==> labels[i].labelId in wanted
        invariant forall l :: l in wanted ==>
                    exists i :: 0 <= i < k && FirstOf(labels, i, l) && wanted[l] == labels[i].size
      {
        var info := labels[k];
        if info.labelId > NO_LABEL && info.labelId !in wanted {
          assert FirstOf(labels, k, info.labelId);
          wanted := wanted[info.labelId := info.size];
        }
      }
    }

    lemma ListedOnce()
      requires Valid()
      ensures forall l :: l in router.routes.sendRoutes ==>
                l > NO_LABEL && NoDup(router.routes.sendRoutes[l].locals) && NoDup(router.routes.sendRoutes[l].remotes)
    {
    }

    lemma RoutesOneSided()
      requires Valid()
      ensures forall l :: l in router.routes.sendRoutes ==> OneSided(router.routes.sendRoutes[l], kinds)
    {
    }

    /** recv_broadcast, once a message from node has arrived. */
    method TakeBroadcast(node: int32, labels: seq<LabelInfo>) returns (ghost wanted: Wanted, ghost done: set<int32>)
      requires Valid()
      modifies router.routes`sendRoutes
      ensures Valid()
      ensures IsWanted(labels, wanted)
      ensures done <= old(router.routes.sendRoutes).Keys && |done| == Min(|old(router.routes.sendRoutes)|, 200)
      ensures TakenIn(old(router.routes.sendRoutes), router.routes.sendRoutes, node, kinds,
                router.transports.sendShm.Keys, router.transports.sockets.Keys, wanted, done)
      ensures |old(router.routes.sendRoutes)| <= 200 ==>
                && done == old(router.routes.sendRoutes).Keys
                && router.routes.sendRoutes == Reconciled(old(router.routes.sendRoutes), node, Kind(node),
                   Reach(node), wanted)
    {
      hide Valid, Reconciled, AddedSoFar, RemovedSoFar, IsWanted, TakenIn, OneSided;
      RoutesOneSided();
      var asked := CollectWanted(labels);
      wanted := asked;
      ghost var before := router.routes.sendRoutes;
      WantedLabels(labels, asked);
      AddSubscriber(node, asked);
      ghost var between := router.routes.sendRoutes;
      SoFarKeys(before, node, Kind(node), Reach(node), asked, asked.Keys);
      done := RemoveSubscriber(node, asked);
      SameSize(before, between);
      BothPasses(before, node, Kind(node), Reach(node), asked, done);
      ReconciledTakenIn(before, node, kinds, Kind(node), Reach(node), router.transports.sendShm.Keys,
        router.transports.sockets.Keys, asked, done);
      if |before| <= 200 {
        SubsetOfSize(done, before.Keys);
      }
    }

    /** add_subscriber; the map is walked in any order. */
    method AddSubscriber(node: int32, wanted: Wanted)
      requires Valid() && ValidLabels(wanted)
      modifies router.routes`sendRoutes
      ensures Valid()
      ensures router.routes.sendRoutes == AddedSoFar(old(router.routes.sendRoutes), node, Kind(node),
          Reach(node), wanted, wanted.Keys)
    {
      hide Valid, AddedSoFar, Added;
      ghost var before, kind, reach := router.routes.sendRoutes, Kind(node), Reach(node);
      NothingSoFar(before, node, kind, reach, wanted);
      var todo := wanted.Keys;
      assert wanted.Keys - todo == {};
      while todo != {}
        invariant Valid() && todo <= wanted.Keys
        invariant router.routes.sendRoutes == AddedSoFar(before, node, kind, reach, wanted, wanted.Keys - todo)
        decreases |todo|
      {
        var l :| l in todo;
        ghost var done := wanted.Keys - todo;
        AddOne(before, node, kind, reach, wanted, done, l);
        assert done + {l} == wanted.Keys - (todo - {l});
        SoFarKeys(before, node, kind, reach, wanted, done);
        AddAt(node, l, wanted[l]);
        todo := todo - {l};
      }
      assert wanted.Keys - {} == wanted.Keys;
    }

    /** The add pass at one label. */
    method AddAt(node: int32, l: int32, size: nat)
      requires Valid() && l > NO_LABEL
      modifies router.routes`sendRoutes
      ensures Valid()
      ensures router.routes.sendRoutes ==
                if l in old(router.routes.sendRoutes)
                then old(router.routes.sendRoutes)[l := Added(old(router.routes.sendRoutes)[l], node,
                    Kind(node), Reach(node), size)]
                else old(router.routes.sendRoutes)
    {
      hide Router.Valid;
      if l !in router.routes.sendRoutes || router.IsSendSubscriber(l, node) {
        return;
      }
      match Kind(node)
      case Oneself => router.AddLocalSendSubscriber(l, size, node);
      case OverShm => router.AddLocalSendSubscriber(l, size, node);
      case OverSocket => router.AddRemoteSendSubscriber(l, size, node);
      case Nowhere =>
    }

    /** remove_subscriber; done are the labels it has come by. */
    method RemoveSubscriber(node: int32, wanted: Wanted) returns (ghost done: set<int32>)
      requires Valid()
      modifies router.routes`sendRoutes
      ensures Valid()
      ensures router.routes.sendRoutes == RemovedSoFar(old(router.routes.sendRoutes), node, Kind(node), wanted, done)
      ensures done <= old(router.routes.sendRoutes).Keys && |done| == Min(|old(router.routes.sendRoutes)|, 200)
    {
      hide Valid, RemovedSoFar, Removed, Padded, Listed;
      ListedOnce();
      ghost var before, kind := router.routes.sendRoutes, Kind(node);
      NothingSoFar(before, node, kind, false, wanted);
      done := {};
      var labels := CollectLabels(SendSizes(router.routes.sendRoutes));
      ghost var sizes := SendSizes(before);
      for i := 0 to |labels|
        invariant Valid()
        invariant router.routes.sendRoutes == RemovedSoFar(before, node, kind, wanted, done)
        invariant done == InUse(labels[..i])
      {
        var l := labels[i].labelId;
        if l > NO_LABEL {
          RemoveOne(before, node, kind, wanted, done, l);
          RemovedKeys(before, node, kind, wanted, done);
          RemoveAt(node, l, wanted);
          done := done + {l};
        }
        InUseNext(labels, i);
      }
      assert labels[..|labels|] == labels;
      ListedLabels(labels, sizes);
    }

    /** The remove pass at one label. */
    method RemoveAt(node: int32, l: int32, wanted: Wanted)
      requires Valid()
      modifies router.routes`sendRoutes
      ensures Valid()
      ensures router.routes.sendRoutes ==
                if l in old(router.routes.sendRoutes) && l !in wanted
                    && Subscribed(old(router.routes.sendRoutes)[l], node)
                then old(router.routes.sendRoutes)[l := Removed(old(router.routes.sendRoutes)[l], node, Kind(node))]
                else old(router.routes.sendRoutes)
    {
      hide Router.Valid;
      if !router.IsSendSubscriber(l, node) || l in wanted {
        return;
      }
      WithoutMembers(router.routes.sendRoutes[l].locals, node);
      WithoutMembers(router.routes.sendRoutes[l].remotes, node);
      match Kind(node)
      case Oneself => router.RemoveLocalSendSubscriber(l, node);
      case OverShm => router.RemoveLocalSendSubscriber(l, node);
      case OverSocket => router.RemoveRemoteSendSubscriber(l, node);
      case Nowhere =>
    }

    /** The next handle number, narrowed to the 32 bits that the handle constructors keep. */
    method NextUid() returns (uid: uint32)
      requires nextUid == (1 + drawn) % TWO_TO_THE_64 && GivenOnce()
      modifies this`nextUid, this`drawn
      ensures FreshlyDrawn() && GivenOnce()
      ensures drawn <= TWO_TO_THE_32 ==> uid !in given
      ensures uid == old(nextUid) % TWO_TO_THE_32 && nextUid == (old(nextUid) + 1) % TWO_TO_THE_64
      ensures drawn == old(drawn) + 1 && nextUid == (1 + drawn) % TWO_TO_THE_64
      ensures uid == Number(old(drawn))
      ensures old(drawn) < TWO_TO_THE_32 - 1 ==> uid == drawn
      ensures old(drawn) == TWO_TO_THE_32 - 1 ==> uid == 0
    {
      uid := nextUid % TWO_TO_THE_32;
      nextUid := (nextUid + 1) % TWO_TO_THE_64;
      drawn := drawn + 1;
      if drawn <= TWO_TO_THE_32 { NumberIs(drawn - 1); }
    }

    /** open_send. While handle numbers are not reused, the caller gets a handle of its own exactly if
        the request is acceptable and agrees in size with a route of that label; a number still in
        use gets the caller the handle that has it. */
    method OpenSend(l: int32, hasBuf: bool, size: nat) returns (h: SendHandle?)
      requires Valid()
      modifies this`nextUid, this`drawn, this`given, router`sendHandles, router.routes
      ensures Valid() && old(router.routes.sendPast) <= router.routes.sendPast
      ensures router.routes.recvPast == old(router.routes.recvPast)
          && router.routes.recvRoutes == old(router.routes.recvRoutes)
      ensures var uid := old(nextUid) % TWO_TO_THE_32;
              if !Acceptable(l, hasBuf, size) then h == null && router.sendHandles == old(router.sendHandles)
              else if uid in old(router.sendHandles)
              then h == old(router.sendHandles)[uid] && router.sendHandles == old(router.sendHandles)
              else if l in old(router.routes.sendRoutes) && old(router.routes.sendRoutes)[l].size != size
              then h == null && router.sendHandles == old(router.sendHandles)
              else h != null && fresh(h) && h.uid == uid && h.labelId == l && h.size == size
                   && router.sendHandles == old(router.sendHandles)[uid := h]
      ensures given == if h != null && fresh(h) then old(given) + [h.uid] else old(given)
      ensures h != null && fresh(h) && old(drawn) < TWO_TO_THE_32 ==> h.uid !in old(given)
      ensures router.routes.sendRoutes ==
                if h != null && fresh(h) then WithPublisher(old(router.routes.sendRoutes), l, h.uid, size)
                else old(router.routes.sendRoutes)
      ensures drawn == old(drawn) + (if l >= 0 && hasBuf && 1 <= size <= 1048576 then 1 else 0)
      ensures nextUid == (old(nextUid) + (if Acceptable(l, hasBuf, size) then 1 else 0)) % TWO_TO_THE_64
      ensures old(drawn) < TWO_TO_THE_32 && Acceptable(l, hasBuf, size)
              && (l in old(router.routes.sendRoutes) ==> old(router.routes.sendRoutes)[l].size == size) ==>
                h != null && fresh(h) && h.labelId == l && h.size == size
    {
      hide Router.Valid, OneSided, Number, GivenOnce, FreshlyDrawn;
      if !Acceptable(l, hasBuf, size) {
        return null;
      }
      var uid := NextUid();
      var mine := new SendHandle(uid, l, size);
      ghost var before := router.routes.sendRoutes;
      NewRouteOneSided(before, l, uid, size, kinds);
      router.RegisterSendPublisher(mine);
      h := if uid in router.sendHandles then router.sendHandles[uid] else null;
      if h == mine { Give(uid); }
    }

    /** close_send */
    method CloseSend(h: SendHandle?)
      requires Valid()
      modifies router`sendHandles, router.routes
      ensures Valid() && old(router.routes.sendPast) <= router.routes.sendPast
      ensures router.routes.recvPast == old(router.routes.recvPast)
          && router.routes.recvRoutes == old(router.routes.recvRoutes)
      ensures router.sendHandles == if h != null && h.uid in old(router.sendHandles)
          && old(router.sendHandles)[h.uid] == h
                                    then old(router.sendHandles) - {h.uid} else old(router.sendHandles)
      ensures router.routes.sendRoutes ==
                if h != null && h.uid in old(router.sendHandles) && old(router.sendHandles)[h.uid] == h
                   && h.labelId in old(router.routes.sendRoutes)
                then WithoutPublisher(old(router.routes.sendRoutes), h.labelId, h.uid)
                else old(router.routes.sendRoutes)
    {
      hide Router.Valid, OneSided;
      ghost var before := router.routes.sendRoutes;
      if h != null && h.labelId in before {
        NewRouteOneSided(before, h.labelId, h.uid, h.size, kinds);
      }
      router.UnregisterSendPublisher(h);
    }

    /** open_recv */
    method OpenRecv(l: int32, hasBuf: bool, size: nat, slots: uint32) returns (h: Receiver?)
      requires Valid()
      modifies this`nextUid, this`drawn, this`given, router`recvHandles, router.routes
      ensures Valid() && old(router.routes.recvPast) <= router.routes.recvPast
      ensures router.routes.sendPast == old(router.routes.sendPast)
          && router.routes.sendRoutes == old(router.routes.sendRoutes)
      ensures var uid := old(nextUid) % TWO_TO_THE_32;
              if !Acceptable(l, hasBuf, size) || slots == 0 then h == null
                  && router.recvHandles == old(router.recvHandles)
              else if uid in old(router.recvHandles)
              then h == old(router.recvHandles)[uid] && router.recvHandles == old(router.recvHandles)
              else if l in old(router.routes.recvRoutes) && old(router.routes.recvRoutes)[l].size != size
              then h == null && router.recvHandles == old(router.recvHandles)
              else h != null && fresh(h) && h.uid == uid && h.labelId == l && h.size == size
                   && router.recvHandles == old(router.recvHandles)[uid := h]
      ensures given == if h != null && fresh(h) then old(given) + [h.uid] else old(given)
      ensures h != null && fresh(h) && old(drawn) < TWO_TO_THE_32 ==> h.uid !in old(given)
      ensures router.routes.recvRoutes ==
                if h != null && fresh(h) then WithReceiver(old(router.routes.recvRoutes), l, h.uid, size)
                else old(router.routes.recvRoutes)
      ensures drawn == old(drawn) + (if l >= 0 && hasBuf && 1 <= size <= 1048576 && slots > 0 then 1 else 0)
      ensures nextUid == (old(nextUid) + (if Acceptable(l, hasBuf, size) && slots != 0 then 1 else 0)) % TWO_TO_THE_64
      ensures old(drawn) < TWO_TO_THE_32 && Acceptable(l, hasBuf, size) && slots != 0
              && (l in old(router.routes.recvRoutes) ==> old(router.routes.recvRoutes)[l].size == size) ==>
                h != null && fresh(h) && h.labelId == l && h.size == size
    {
      hide Router.Valid, OneSided, Number, GivenOnce, FreshlyDrawn;
      if !Acceptable(l, hasBuf, size) || slots == 0 {
        return null;
      }
      var uid := NextUid();
      var mine := new Receiver(uid, l, size);
      router.RegisterRecvSubscriber(mine);
      h := if uid in router.recvHandles then router.recvHandles[uid] else null;
      if h == mine { Give(uid); }
    }

    /** close_recv */
    method CloseRecv(h: Receiver?)
      requires Valid()
      modifies router`recvHandles, router.routes
      ensures Valid() && old(router.routes.recvPast) <= router.routes.recvPast
      ensures router.routes.sendPast == old(router.routes.sendPast)
          && router.routes.sendRoutes == old(router.routes.sendRoutes)
      ensures router.recvHandles == if h != null && h.uid in old(router.recvHandles)
          && old(router.recvHandles)[h.uid] == h
                                    then old(router.recvHandles) - {h.uid} else old(router.recvHandles)
      ensures router.routes.recvRoutes ==
                if h != null && h.uid in old(router.recvHandles) && old(router.recvHandles)[h.uid] == h
                   && h.labelId in old(router.routes.recvRoutes)
                then WithoutReceiver(old(router.routes.recvRoutes), h.labelId, h.uid)
                else old(router.routes.recvRoutes)
    {
      hide Router.Valid, OneSided;
      router.UnregisterRecvSubscriber(h);
    }

    /** send_label. own is the handle's own buffer, given what the caller passes instead, if anything;
        the data starts send offset bytes into it. A registered handle always gets its job, with
        exactly its subscribers and the frame of its data. */
    method SendLabel(h: SendHandle?, isOffset: bool, own: seq<byte>, given: Option<Given>,
                     sendOffset: nat, recvOffset: uint32, pad: Padding) returns (out: Option<Handover>)
      requires Valid()
      requires h != null ==> 0 < h.size <= MAX_LABEL_SIZE
      requires h != null ==> var data := if given.Some? then given.value.data else own;
                             (if isOffset then sendOffset else 0) + h.size <= |data|
      modifies router`seqNo
      ensures Valid()
      ensures out.Some? <==> h != null && (given.Some? ==> given.value.size == h.size)
      ensures out.Some? ==>
                var from := if isOffset then sendOffset else 0;
                var data := (if given.Some? then given.value.data else own)[from..from + h.size];
                && out.value.frame == DataFrame(Delivery(id, h.labelId, data, if isOffset then recvOffset else 0), pad)
                && out.value.err == JobVerdict(router.routes.sendRoutes, router.sendHandles.Keys, h.labelId,
                   h.uid, |out.value.frame|)
                && (h.uid in router.sendHandles && router.sendHandles[h.uid] == h ==> out.value.err == JobErr.JobOk)
      ensures out.Some? && out.value.err == JobErr.JobOk ==>
                var r := router.routes.sendRoutes[h.labelId];
                && router.AllLocal(r.locals, out.value.job.locals) && router.AllRemote(r.remotes, out.value.job.remotes)
                && out.value.job.pending == |r.locals| + |r.remotes|
                && out.value.job.source == id && out.value.job.labelId == h.labelId
                && h.uid in router.sendHandles && out.value.job.publisher == router.sendHandles[h.uid]
      ensures out.Some? ==> out.value.job.seqNo == old(router.seqNo)
      ensures router.seqNo == if out.Some? then (old(router.seqNo) + 1) % TWO_TO_THE_32 else old(router.seqNo)
    {
      hide OneSided, SendSide, RecvSide, Reachable, RouteTable.Valid, JobVerdict, Router.AllLocal, Router.AllRemote;
      if h == null {
        return None;
      }
      var from, offset := if isOffset then sendOffset else 0, if isOffset then recvOffset else 0;
      var buf, size := if given.Some? then given.value.data else own, if given.Some? then given.value.size else h.size;
      if size == 0 || size != h.size {
        return None;
      }
      var frame := DataFrame(Delivery(id, h.labelId, buf[from..from + size], offset), pad);
      VerdictMeans(router.routes.sendRoutes, router.sendHandles, h.labelId, h.uid, |frame|);
      var err, job := router.BuildSendJob(id, h.labelId, h.uid, |frame|);
      out := Some(Handover(err, job, frame));
    }
  }

  /** The labels above NO_LABEL, each with the size of its first entry. */
  ghost predicate IsWanted(labels: seq<LabelInfo>, wanted: Wanted) {
    && ValidLabels(wanted)
    && (forall i :: 0 <= i < |labels| && labels[i].labelId > NO_LABEL ==> labels[i].labelId in wanted)
    && (forall l :: l in wanted ==>
          exists i :: 0 <= i < |labels| && FirstOf(labels, i, l) && wanted[l] == labels[i].size)
  }

  predicate ValidLabels(wanted: Wanted) {
    forall l :: l in wanted ==> l > NO_LABEL
  }

  lemma WantedLabels(labels: seq<LabelInfo>, wanted: Wanted)
    requires IsWanted(labels, wanted)
    ensures ValidLabels(wanted)
  {
  }

  /** Entry i is the first one for label l. */
  predicate FirstOf(labels: seq<LabelInfo>, i: nat, l: int32)
    requires i < |labels|
  {
    labels[i].labelId == l && forall j :: 0 <= j < i ==> labels[j].labelId != l
  }

  /** Publishers come and go without touching the subscribers; a new route has none. */
  lemma NewRouteOneSided(routes: SendRoutes, l: int32, uid: nat, size: nat, kinds: map<int32, RouteKind>)
    requires forall k :: k in routes ==> k > NO_LABEL && OneSided(routes[k], kinds)
    ensures forall k :: k in WithPublisher(routes, l, uid, size) ==>
              (l > NO_LABEL ==> k > NO_LABEL) && OneSided(WithPublisher(routes, l, uid, size)[k], kinds)
    ensures l in routes ==> forall k :: k in WithoutPublisher(routes, l, uid) ==>
              k > NO_LABEL && OneSided(WithoutPublisher(routes, l, uid)[k], kinds)
  {
  }

  lemma SameSize(a: SendRoutes, b: SendRoutes)
    requires a.Keys == b.Keys
    ensures |a| == |b|
  {
    assert |a| == |a.Keys| && |b| == |b.Keys|;
  }

  lemma SoFarKeys(routes: SendRoutes, node: int32, kind: RouteKind, reach: bool, wanted: Wanted, done: set<int32>)
    ensures AddedSoFar(routes, node, kind, reach, wanted, done).Keys == routes.Keys
  {
  }

  lemma RemovedKeys(routes: SendRoutes, node: int32, kind: RouteKind, wanted: Wanted, done: set<int32>)
    ensures RemovedSoFar(routes, node, kind, wanted, done).Keys == routes.Keys
  {
  }
}
