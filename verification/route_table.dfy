/** Routes by label, who publishes and who subscribes, and a generation number for each side
    (route_table.cpp). */
module RouteTables {
  import opened Bytes
  import opened Lists
  import opened LabelSnapshots

  datatype SendRoute = SendRoute(size: nat, publishers: seq<nat>, locals: seq<int32>, remotes: seq<int32>)
  datatype RecvRoute = RecvRoute(size: nat, subscribers: seq<nat>)

  type SendRoutes = map<int32, SendRoute>
  type RecvRoutes = map<int32, RecvRoute>

  /** The label set of a generation: labels with their sizes. */
  function SendSizes(routes: SendRoutes): (m: Sizes)
    ensures |m| == |routes|
  {
    var m := map l | l in routes :: routes[l].size;
    assert m.Keys == routes.Keys;
    m
  }

  function RecvSizes(routes: RecvRoutes): (m: Sizes)
    ensures |m| == |routes|
  {
    var m := map l | l in routes :: routes[l].size;
    assert m.Keys == routes.Keys;
    m
  }

  lemma SendSizesAre(routes: SendRoutes)
    ensures SendSizes(routes).Keys == routes.Keys && forall l :: l in routes ==> SendSizes(routes)[l] == routes[l].size
  {
  }

  /** Editing a route's lists does not change the label set. */
  lemma SendSizesKept(routes: SendRoutes, l: int32, r: SendRoute)
    requires l in routes && r.size == routes[l].size
    ensures SendSizes(routes[l := r]) == SendSizes(routes)
  {
  }

  lemma RecvSizesAre(routes: RecvRoutes)
    ensures RecvSizes(routes).Keys == routes.Keys && forall l :: l in routes ==> RecvSizes(routes)[l] == routes[l].size
  {
  }

  lemma RecvSizesKept(routes: RecvRoutes, l: int32, r: RecvRoute)
    requires l in routes && r.size == routes[l].size
    ensures RecvSizes(routes[l := r]) == RecvSizes(routes)
  {
  }

  /** A new route without subscribers, or the old one. */
  function RouteFor(routes: SendRoutes, l: int32, size: nat): SendRoute {
    if l in routes then routes[l] else SendRoute(size, [], [], [])
  }

  function RecvRouteFor(routes: RecvRoutes, l: int32, size: nat): RecvRoute {
    if l in routes then routes[l] else RecvRoute(size, [])
  }

  /** A publisher of l with the given size may join. */
  predicate MayPublish(routes: SendRoutes, l: int32, uid: nat, size: nat) {
    l in routes ==> routes[l].size == size && uid !in routes[l].publishers
  }

  function WithPublisher(routes: SendRoutes, l: int32, uid: nat, size: nat): SendRoutes {
    var r := RouteFor(routes, l, size);
    routes[l := r.(publishers := r.publishers + [uid])]
  }

  predicate IsPublisher(routes: SendRoutes, l: int32, uid: nat) {
    l in routes && uid in routes[l].publishers
  }

  /** The route goes with its last publisher. */
  function WithoutPublisher(routes: SendRoutes, l: int32, uid: nat): SendRoutes
    requires l in routes
  {
    var rest := Without(routes[l].publishers, uid);
    if rest == [] then routes - {l} else routes[l := routes[l].(publishers := rest)]
  }

  predicate MayReceive(routes: RecvRoutes, l: int32, uid: nat, size: nat) {
    l in routes ==> routes[l].size == size && uid !in routes[l].subscribers
  }

  function WithReceiver(routes: RecvRoutes, l: int32, uid: nat, size: nat): RecvRoutes {
    var r := RecvRouteFor(routes, l, size);
    routes[l := r.(subscribers := r.subscribers + [uid])]
  }

  function WithoutReceiver(routes: RecvRoutes, l: int32, uid: nat): RecvRoutes
    requires l in routes
  {
    var rest := Without(routes[l].subscribers, uid);
    if rest == [] then routes - {l} else routes[l := routes[l].(subscribers := rest)]
  }

  function WithLocal(routes: SendRoutes, l: int32, node: int32): SendRoutes
    requires l in routes
  {
    routes[l := routes[l].(locals := routes[l].locals + [node])]
  }

  function WithRemote(routes: SendRoutes, l: int32, node: int32): SendRoutes
    requires l in routes
  {
    routes[l := routes[l].(remotes := routes[l].remotes + [node])]
  }

  /** is_local_send_subscriber, is_remote_send_subscriber */
  predicate IsLocal(routes: SendRoutes, l: int32, node: int32) {
    l in routes && node in routes[l].locals
  }

  predicate IsRemote(routes: SendRoutes, l: int32, node: int32) {
    l in routes && node in routes[l].remotes
  }

  class RouteTable {
    var sendRoutes: SendRoutes
    var recvRoutes: RecvRoutes
    var sendGen: nat
    var recvGen: nat

    // the label set of every generation so far, generation g at index g - 1
    ghost var sendPast: seq<Sizes>
    ghost var recvPast: seq<Sizes>

    ghost predicate Valid()
      reads this
    {
      && |sendPast| == sendGen > 0 && sendPast[sendGen - 1] == SendSizes(sendRoutes)
      && |recvPast| == recvGen > 0 && recvPast[recvGen - 1] == RecvSizes(recvRoutes)
    }

    constructor ()
      ensures Valid() && sendRoutes == map[] && recvRoutes == map[]
    {
      sendRoutes, recvRoutes := map[], map[];
      sendGen, recvGen := 1, 1;
      sendPast, recvPast := [map[]], [map[]];
      new;
      assert SendSizes(sendRoutes) == map[] && RecvSizes(recvRoutes) == map[];
    }

    method CreateSendRoute(l: int32, size: nat)
      requires Valid() && l !in sendRoutes
      modifies this`sendRoutes, this`sendGen, this`sendPast
      ensures Valid() && old(sendPast) <= sendPast && sendGen == old(sendGen) + 1
      ensures sendRoutes == old(sendRoutes)[l := SendRoute(size, [], [], [])]
    {
      hide SendSizes, RecvSizes;
      sendRoutes := sendRoutes[l := SendRoute(size, [], [], [])];
      sendGen := sendGen + 1;
      sendPast := sendPast + [SendSizes(sendRoutes)];
    }

    method CreateRecvRoute(l: int32, size: nat)
      requires Valid() && l !in recvRoutes
      modifies this`recvRoutes, this`recvGen, this`recvPast
      ensures Valid() && old(recvPast) <= recvPast && recvGen == old(recvGen) + 1
      ensures recvRoutes == old(recvRoutes)[l := RecvRoute(size, [])]
    {
      hide SendSizes, RecvSizes;
      recvRoutes := recvRoutes[l := RecvRoute(size, [])];
      recvGen := recvGen + 1;
      recvPast := recvPast + [RecvSizes(recvRoutes)];
    }

    method AddSendPublisher(l: int32, uid: nat, size: nat) returns (ok: bool)
      requires Valid()
      modifies this`sendRoutes, this`sendGen, this`sendPast
      ensures Valid() && old(sendPast) <= sendPast
      ensures ok <==> MayPublish(old(sendRoutes), l, uid, size)
      ensures sendRoutes == if ok then WithPublisher(old(sendRoutes), l, uid, size) else old(sendRoutes)
      ensures sendGen == old(sendGen) + (if l in old(sendRoutes) then 0 else 1)
    {
      hide SendSizes, RecvSizes;
      if l !in sendRoutes {
        CreateSendRoute(l, size);
      }
      var r := sendRoutes[l];
      if r.size != size || uid in r.publishers {
        return false;
      }
      SendSizesKept(sendRoutes, l, r.(publishers := r.publishers + [uid]));
      sendRoutes := sendRoutes[l := r.(publishers := r.publishers + [uid])];
      return true;
    }

    method RemoveSendPublisher(l: int32, uid: nat) returns (ok: bool)
      requires Valid()
      modifies this`sendRoutes, this`sendGen, this`sendPast
      ensures Valid() && old(sendPast) <= sendPast
      ensures ok <==> IsPublisher(old(sendRoutes), l, uid)
      ensures sendRoutes == if ok then WithoutPublisher(old(sendRoutes), l, uid) else old(sendRoutes)
      ensures sendGen == old(sendGen) + (if ok && l !in sendRoutes then 1 else 0)
    {
      hide SendSizes, RecvSizes;
      if l !in sendRoutes {
        return false;
      }
      var r := sendRoutes[l];
      var found, rest := Erase(r.publishers, uid);
      if !found {
        return false;
      }
      SendSizesKept(sendRoutes, l, r.(publishers := rest));
      sendRoutes := sendRoutes[l := r.(publishers := rest)];
      if rest == [] {
        sendRoutes := sendRoutes - {l};
        sendGen := sendGen + 1;
        sendPast := sendPast + [SendSizes(sendRoutes)];
      }
      return true;
    }

    method AddLocalSendSubscriber(l: int32, size: nat, node: int32) returns (ok: bool)
      requires Valid()
      modifies this`sendRoutes
      ensures Valid()
      ensures ok <==> l in old(sendRoutes) && old(sendRoutes)[l].size == size && !IsLocal(old(sendRoutes), l, node)
      ensures sendRoutes == if ok then WithLocal(old(sendRoutes), l, node) else old(sendRoutes)
    {
      hide SendSizes, RecvSizes;
      if l !in sendRoutes || sendRoutes[l].size != size || IsLocal(sendRoutes, l, node) {
        return false;
      }
      SendSizesKept(sendRoutes, l, sendRoutes[l].(locals := sendRoutes[l].locals + [node]));
      sendRoutes := sendRoutes[l := sendRoutes[l].(locals := sendRoutes[l].locals + [node])];
      return true;
    }

    method AddRemoteSendSubscriber(l: int32, size: nat, node: int32) returns (ok: bool)
      requires Valid()
      modifies this`sendRoutes
      ensures Valid()
      ensures ok <==> l in old(sendRoutes) && old(sendRoutes)[l].size == size && !IsRemote(old(sendRoutes), l, node)
      ensures sendRoutes == if ok then WithRemote(old(sendRoutes), l, node) else old(sendRoutes)
    {
      hide SendSizes, RecvSizes;
      if l !in sendRoutes || sendRoutes[l].size != size || IsRemote(sendRoutes, l, node) {
        return false;
      }
      SendSizesKept(sendRoutes, l, sendRoutes[l].(remotes := sendRoutes[l].remotes + [node]));
      sendRoutes := sendRoutes[l := sendRoutes[l].(remotes := sendRoutes[l].remotes + [node])];
      return true;
    }

    method RemoveLocalSendSubscriber(l: int32, node: int32) returns (ok: bool)
      requires Valid()
      modifies this`sendRoutes
      ensures Valid() && (ok <==> IsLocal(old(sendRoutes), l, node))
      ensures sendRoutes == if l in old(sendRoutes)
                            then old(sendRoutes)[l := old(sendRoutes)[l].(locals :=
                                Without(old(sendRoutes)[l].locals, node))]
                            else old(sendRoutes)
    {
      hide SendSizes, RecvSizes;
      if l !in sendRoutes {
        return false;
      }
      var found, rest := Erase(sendRoutes[l].locals, node);
      if !found {
        WithoutAbsent(sendRoutes[l].locals, node);
        return false;
      }
      SendSizesKept(sendRoutes, l, sendRoutes[l].(locals := rest));
      sendRoutes := sendRoutes[l := sendRoutes[l].(locals := rest)];
      return true;
    }

    method RemoveRemoteSendSubscriber(l: int32, node: int32) returns (ok: bool)
      requires Valid()
      modifies this`sendRoutes
      ensures Valid() && (ok <==> IsRemote(old(sendRoutes), l, node))
      ensures sendRoutes == if l in old(sendRoutes)
                            then old(sendRoutes)[l := old(sendRoutes)[l].(remotes :=
                                Without(old(sendRoutes)[l].remotes, node))]
                            else old(sendRoutes)
    {
      hide SendSizes, RecvSizes;
      if l !in sendRoutes {
        return false;
      }
      var found, rest := Erase(sendRoutes[l].remotes, node);
      if !found {
        WithoutAbsent(sendRoutes[l].remotes, node);
        return false;
      }
      SendSizesKept(sendRoutes, l, sendRoutes[l].(remotes := rest));
      sendRoutes := sendRoutes[l := sendRoutes[l].(remotes := rest)];
      return true;
    }

    method AddRecvSubscriber(l: int32, uid: nat, size: nat) returns (ok: bool)
      requires Valid()
      modifies this`recvRoutes, this`recvGen, this`recvPast
      ensures Valid() && old(recvPast) <= recvPast
      ensures ok <==> MayReceive(old(recvRoutes), l, uid, size)
      ensures recvRoutes == if ok then WithReceiver(old(recvRoutes), l, uid, size) else old(recvRoutes)
      ensures recvGen == old(recvGen) + (if l in old(recvRoutes) then 0 else 1)
    {
      hide SendSizes, RecvSizes;
      if l !in recvRoutes {
        CreateRecvRoute(l, size);
      }
      var r := recvRoutes[l];
      if r.size != size || uid in r.subscribers {
        return false;
      }
      RecvSizesKept(recvRoutes, l, r.(subscribers := r.subscribers + [uid]));
      recvRoutes := recvRoutes[l := r.(subscribers := r.subscribers + [uid])];
      return true;
    }

    method RemoveRecvSubscriber(l: int32, uid: nat) returns (ok: bool)
      requires Valid()
      modifies this`recvRoutes, this`recvGen, this`recvPast
      ensures Valid() && old(recvPast) <= recvPast
      ensures ok <==> l in old(recvRoutes) && uid in old(recvRoutes)[l].subscribers
      ensures recvRoutes == if ok then WithoutReceiver(old(recvRoutes), l, uid) else old(recvRoutes)
      ensures recvGen == old(recvGen) + (if ok && l !in recvRoutes then 1 else 0)
    {
      hide SendSizes, RecvSizes;
      if l !in recvRoutes {
        return false;
      }
      var r := recvRoutes[l];
      var found, rest := Erase(r.subscribers, uid);
      if !found {
        return false;
      }
      RecvSizesKept(recvRoutes, l, r.(subscribers := rest));
      recvRoutes := recvRoutes[l := r.(subscribers := rest)];
      if rest == [] {
        recvRoutes := recvRoutes - {l};
        recvGen := recvGen + 1;
        recvPast := recvPast + [RecvSizes(recvRoutes)];
      }
      return true;
    }

    /** get_send_labels_snapshot: the generation and its labels, which are the same at every time the
        table has that generation. */
    method GetSendLabelsSnapshot() returns (gen: nat, labels: seq<LabelInfo>)
      requires Valid()
      ensures 0 < gen == |sendPast| && |labels| == MAX_LABELS == 200 && Ascending(labels)
      ensures Listed(labels, sendPast[gen - 1])
      ensures |sendPast[gen - 1]| <= MAX_LABELS ==> multiset(labels) == Padded(sendPast[gen - 1])
      ensures forall e :: e in labels && e != UNUSED ==>
                e.labelId in sendRoutes && e.size == sendRoutes[e.labelId].size % TWO_TO_THE_32
      ensures |sendRoutes| <= MAX_LABELS ==>
                forall l :: l in sendRoutes ==> LabelInfo(l, sendRoutes[l].size % TWO_TO_THE_32) in labels
    {
      hide Listed, Padded, Ascending, SendSizes;
      gen := sendGen;
      labels := SortedLabels(SendSizes(sendRoutes));
      SendSizesAre(sendRoutes);
    }

    method GetRecvLabelsSnapshot() returns (gen: nat, labels: seq<LabelInfo>)
      requires Valid()
      ensures 0 < gen == |recvPast| && |labels| == MAX_LABELS == 200 && Ascending(labels)
      ensures Listed(labels, recvPast[gen - 1])
      ensures |recvPast[gen - 1]| <= MAX_LABELS ==> multiset(labels) == Padded(recvPast[gen - 1])
      ensures forall e :: e in labels && e != UNUSED ==>
                e.labelId in recvRoutes && e.size == recvRoutes[e.labelId].size % TWO_TO_THE_32
      ensures |recvRoutes| <= MAX_LABELS ==>
                forall l :: l in recvRoutes ==> LabelInfo(l, recvRoutes[l].size % TWO_TO_THE_32) in labels
    {
      hide Listed, Padded, Ascending, RecvSizes;
      gen := recvGen;
      labels := SortedLabels(RecvSizes(recvRoutes));
      RecvSizesAre(recvRoutes);
    }
  }

  /** Two snapshots of the same side of the table, taken at any two times: equal generations carry equal
      arrays. past and now are the label sets of the generations so far, at either time. */
  lemma GenerationMeansLabels(past: seq<Sizes>, now: seq<Sizes>, gen: nat, a: seq<LabelInfo>, b: seq<LabelInfo>)
    requires past <= now && 0 < gen <= |past|
    requires Ascending(a) && Ascending(b) && NO_LABEL !in past[gen - 1]
    requires multiset(a) == Padded(past[gen - 1]) && multiset(b) == Padded(now[gen - 1])
    ensures a == b
  {
    SnapshotsAgree(past[gen - 1], a, b);
  }

  function EntriesBut(m: Sizes, todo: set<int32>): set<LabelInfo> {
    set l | l in m && l !in todo :: Entry(m, l)
  }

  /** The first index entries list the labels walked so far, each once. */
  ghost predicate Collected(m: Sizes, labels: seq<LabelInfo>, index: nat, todo: set<int32>) {
    && |labels| == MAX_LABELS && index <= MAX_LABELS
    && todo <= m.Keys && index + |todo| == |m|
    && multiset(labels[..index]) == multiset(EntriesBut(m, todo))
    && (forall i :: index <= i < MAX_LABELS ==> labels[i] == UNUSED)
    && (forall i :: 0 <= i < index ==> labels[i].labelId in m && labels[i] == Entry(m, labels[i].labelId))
  }

  lemma CollectStep(m: Sizes, labels: seq<LabelInfo>, index: nat, todo: set<int32>, l: int32)
    requires Collected(m, labels, index, todo) && l in todo && index < MAX_LABELS
    ensures Collected(m, labels[index := Entry(m, l)], index + 1, todo - {l})
  {
    var done := EntriesBut(m, todo);
    assert Entry(m, l) !in done;
    assert EntriesBut(m, todo - {l}) == done + {Entry(m, l)};
    assert labels[index := Entry(m, l)][..index + 1] == labels[..index] + [Entry(m, l)];
  }

  /** The collected labels, sorted. */
  method SortedLabels(m: Sizes) returns (labels: seq<LabelInfo>)
    ensures |labels| == MAX_LABELS && Ascending(labels) && Listed(labels, m)
    ensures |m| <= MAX_LABELS ==> multiset(labels) == Padded(m)
    ensures forall e :: e in labels && e != UNUSED ==> e.labelId in m && e == Entry(m, e.labelId)
    ensures |m| <= MAX_LABELS ==> forall l :: l in m ==> Entry(m, l) in labels
  {
    hide Padded, Ascending, Entry;
    labels := CollectLabels(m);
    SortSorts(labels);
    labels := Sort(labels);
    ListedEntries(labels, m);
  }

  lemma CollectStart(m: Sizes)
    ensures Collected(m, seq(MAX_LABELS, _ => UNUSED), 0, m.Keys)
  {
    assert EntriesBut(m, m.Keys) == {};
  }

  /** get_send_labels, get_recv_labels: the first MAX_LABELS labels in hash-map order. With more
      labels than that, which ones is up to the map. */
  method CollectLabels(m: Sizes) returns (labels: seq<LabelInfo>)
    ensures |labels| == MAX_LABELS
    ensures Listed(labels, m)
    ensures |m| <= MAX_LABELS ==> multiset(labels) == Padded(m)
  {
    hide Collected, Padded, Listed;
    labels := seq(MAX_LABELS, _ => UNUSED);
    var todo, index := m.Keys, 0;
    CollectStart(m);
    while todo != {}
      invariant index <= MAX_LABELS && Collected(m, labels, index, todo) && |labels| == MAX_LABELS
      invariant todo <= m.Keys
      decreases |todo|
    {
      var l :| l in todo;
      if index >= MAX_LABELS {
        CollectedPart(m, labels, index, todo);
        return;
      }
      CollectStep(m, labels, index, todo, l);
      labels := labels[index := Entry(m, l)];
      todo, index := todo - {l}, index + 1;
    }
    CollectedPart(m, labels, index, todo);
    if |m| <= MAX_LABELS { ListedCompletely(labels, m); }
  }

  /** The walk ends with the labels used up or the array full. */
  lemma CollectedPart(m: Sizes, labels: seq<LabelInfo>, index: nat, todo: set<int32>)
    requires Collected(m, labels, index, todo) && (todo == {} || index == MAX_LABELS)
    ensures Listed(labels, m)
    ensures todo != {} ==> |m| > MAX_LABELS
  {
    hide Entries, Padding, EntriesBut, Walked;
    var part := Walked(m, todo);
    WalkedSize(m, todo);
    CollectedSoFar(m, labels, index, todo);
    assert Excerpt(part, m);
  }

  lemma CollectedSoFar(m: Sizes, labels: seq<LabelInfo>, index: nat, todo: set<int32>)
    requires Collected(m, labels, index, todo)
    ensures multiset(labels) == multiset(EntriesBut(m, todo)) + Padding(MAX_LABELS - index)
  {
    hide EntriesBut, Padding;
    PaddingIs(labels[index..]);
    assert labels == labels[..index] + labels[index..];
  }

  function Walked(m: Sizes, todo: set<int32>): Sizes {
    map l | l in m && l !in todo :: m[l]
  }

  lemma WalkedSize(m: Sizes, todo: set<int32>)
    requires todo <= m.Keys
    ensures Walked(m, todo).Keys == m.Keys - todo && |Walked(m, todo)| == |m| - |todo|
    ensures Entries(Walked(m, todo)) == EntriesBut(m, todo)
    ensures forall l :: l in Walked(m, todo) ==> Walked(m, todo)[l] == m[l]
  {
    var part := Walked(m, todo);
    assert part.Keys == m.Keys - todo;
    assert |part| == |part.Keys| && |m| == |m.Keys|;
    assert forall l :: l in part ==> Entry(part, l) == Entry(m, l);
  }

  lemma {:induction false} PaddingIs(s: seq<LabelInfo>)
    requires forall i :: 0 <= i < |s| ==> s[i] == UNUSED
    ensures multiset(s) == Padding(|s|)
  {
    if s != [] {
      PaddingIs(s[1..]);
      assert s == [s[0]] + s[1..];
    }
  }
}
