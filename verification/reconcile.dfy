/** What one broadcast message does to the routes (Manager::recv_broadcast, add_subscriber,
    remove_subscriber), route by route. */
module Reconciliation {
  import opened Bytes
  import opened Lists
  import opened RouteTables

  /** How a node is reached (address.h); Nowhere stands for a node that is not in the address book. */
  datatype RouteKind = Nowhere | OverShm | OverSocket | Oneself {
    predicate Local() { OverShm? || Oneself? }
  }

  /** Labels a node wants, with sizes; from what it broadcasts. */
  type Wanted = map<int32, uint32>

  predicate Subscribed(r: SendRoute, node: int32) {
    node in r.remotes || node in r.locals
  }

  /** The add pass at one route; reach is whether the node's transport exists. */
  function Added(r: SendRoute, node: int32, kind: RouteKind, reach: bool, size: nat): SendRoute {
    if Subscribed(r, node) || !reach || r.size != size then r
    else if kind.Local() then r.(locals := r.locals + [node])
    else if kind.OverSocket? then r.(remotes := r.remotes + [node])
    else r
  }

  /** The remove pass at one route. */
  function Removed(r: SendRoute, node: int32, kind: RouteKind): SendRoute {
    if kind.Local() then r.(locals := Without(r.locals, node))
    else if kind.OverSocket? then r.(remotes := Without(r.remotes, node))
    else r
  }

  function ReconciledRoute(r: SendRoute, l: int32, node: int32, kind: RouteKind, reach: bool,
      wanted: Wanted): SendRoute {
    if l in wanted then Added(r, node, kind, reach, wanted[l])
    else if Subscribed(r, node) then Removed(r, node, kind)
    else r
  }

  /** The routes after one message from node. */
  function Reconciled(routes: SendRoutes, node: int32, kind: RouteKind, reach: bool, wanted: Wanted): SendRoutes {
    map l | l in routes :: ReconciledRoute(routes[l], l, node, kind, reach, wanted)
  }

  /** Local nodes are subscribed over shared memory, remote ones over a socket. */
  ghost predicate OneSided(r: SendRoute, kinds: map<int32, RouteKind>) {
    && NoDup(r.locals) && NoDup(r.remotes)
    && (forall n :: n in r.locals ==> n in kinds && kinds[n].Local())
    && (forall n :: n in r.remotes ==> n in kinds && kinds[n].OverSocket?)
  }

  lemma NeverBoth(r: SendRoute, kinds: map<int32, RouteKind>, node: int32)
    requires OneSided(r, kinds)
    ensures !(node in r.locals && node in r.remotes)
  {
  }

  lemma OneSidedKept(r: SendRoute, l: int32, node: int32, kinds: map<int32, RouteKind>, reach: bool, wanted: Wanted)
    requires OneSided(r, kinds) && node in kinds
    ensures OneSided(ReconciledRoute(r, l, node, kinds[node], reach, wanted), kinds)
  {
    WithoutMembers(r.locals, node);
    WithoutMembers(r.remotes, node);
  }

  /** A node with a known kind ends up subscribed exactly if it asks for the label and either was
      subscribed before or asks with the right size and can be reached. */
  lemma SubscribedIff(r: SendRoute, l: int32, node: int32, kinds: map<int32, RouteKind>, reach: bool, wanted: Wanted)
    requires OneSided(r, kinds) && node in kinds && !kinds[node].Nowhere?
    ensures Subscribed(ReconciledRoute(r, l, node, kinds[node], reach, wanted), node) <==>
              l in wanted && (Subscribed(r, node) || (r.size == wanted[l] && reach))
  {
    WithoutMembers(r.locals, node);
    WithoutMembers(r.remotes, node);
  }

  /** Publishers, size and every other node's subscription stay as they were, in the same order. */
  lemma OthersUntouched(r: SendRoute, l: int32, node: int32, kind: RouteKind, reach: bool, wanted: Wanted)
    requires NoDup(r.locals) && NoDup(r.remotes)
    ensures var r' := ReconciledRoute(r, l, node, kind, reach, wanted);
            && r'.size == r.size && r'.publishers == r.publishers
            && Without(r'.locals, node) == Without(r.locals, node)
            && Without(r'.remotes, node) == Without(r.remotes, node)
            && forall n :: n != node ==> (n in r'.locals <==> n in r.locals) && (n in r'.remotes <==> n in r.remotes)
  {
    ListUntouched(r.locals, node);
    ListUntouched(r.remotes, node);
  }

  lemma ListUntouched(s: seq<int32>, node: int32)
    requires NoDup(s)
    ensures Without(Without(s, node), node) == Without(s, node)
    ensures forall n :: n != node ==> (n in Without(s, node) <==> n in s)
    ensures node !in s ==> Without(s + [node], node) == Without(s, node)
  {
    WithoutMembers(s, node);
    WithoutAbsent(Without(s, node), node);
    if node !in s { WithoutPushed(s, node); }
  }

  lemma {:induction false} WithoutPushed(s: seq<int32>, x: int32)
    requires x !in s
    ensures Without(s + [x], x) == s && Without(s, x) == s
  {
    if s != [] {
      assert (s + [x])[1..] == s[1..] + [x];
      WithoutPushed(s[1..], x);
    }
  }

  lemma RemovedTwice(r: SendRoute, node: int32, kind: RouteKind)
    requires NoDup(r.locals) && NoDup(r.remotes)
    ensures Removed(Removed(r, node, kind), node, kind) == Removed(r, node, kind)
  {
    ListUntouched(r.locals, node);
    ListUntouched(r.remotes, node);
  }

  /** The same message again changes nothing. */
  lemma Idempotent(routes: SendRoutes, node: int32, kind: RouteKind, reach: bool, wanted: Wanted)
    requires forall l :: l in routes ==> NoDup(routes[l].locals) && NoDup(routes[l].remotes)
    ensures var once := Reconciled(routes, node, kind, reach, wanted);
            Reconciled(once, node, kind, reach, wanted) == once
  {
    var once := Reconciled(routes, node, kind, reach, wanted);
    forall l | l in routes
      ensures ReconciledRoute(once[l], l, node, kind, reach, wanted) == once[l]
    {
      RemovedTwice(routes[l], node, kind);
    }
  }

  /** A node that is not in the address book changes nothing. */
  lemma StrangerChangesNothing(routes: SendRoutes, node: int32, reach: bool, wanted: Wanted)
    ensures Reconciled(routes, node, Nowhere, reach, wanted) == routes
  {
  }

  /** Messages from different nodes commute as far as who is subscribed goes. */
  lemma NodesCommute(r: SendRoute, l: int32, a: int32, b: int32, kinds: map<int32, RouteKind>,
                     reachA: bool, reachB: bool, wantedA: Wanted, wantedB: Wanted, n: int32)
    requires OneSided(r, kinds) && a in kinds && b in kinds && a != b
    ensures var ab := ReconciledRoute(ReconciledRoute(r, l, a, kinds[a], reachA, wantedA), l, b, kinds[b],
        reachB, wantedB);
            var ba := ReconciledRoute(ReconciledRoute(r, l, b, kinds[b], reachB, wantedB), l, a, kinds[a],
                reachA, wantedA);
            (n in ab.locals <==> n in ba.locals) && (n in ab.remotes <==> n in ba.remotes)
  {
    var ra := ReconciledRoute(r, l, a, kinds[a], reachA, wantedA);
    var rb := ReconciledRoute(r, l, b, kinds[b], reachB, wantedB);
    OneSidedKept(r, l, a, kinds, reachA, wantedA);
    OneSidedKept(r, l, b, kinds, reachB, wantedB);
    Membership(r, l, a, kinds[a], reachA, wantedA, n);
    Membership(ra, l, b, kinds[b], reachB, wantedB, n);
    Membership(r, l, b, kinds[b], reachB, wantedB, n);
    Membership(rb, l, a, kinds[a], reachA, wantedA, n);
    OthersUntouched(r, l, a, kinds[a], reachA, wantedA);
    OthersUntouched(r, l, b, kinds[b], reachB, wantedB);
  }

  /** Who is on which list afterwards. */
  lemma Membership(r: SendRoute, l: int32, node: int32, kind: RouteKind, reach: bool, wanted: Wanted, n: int32)
    requires NoDup(r.locals) && NoDup(r.remotes)
    ensures var r' := ReconciledRoute(r, l, node, kind, reach, wanted);
            var joins := l in wanted && !Subscribed(r, node) && reach && r.size == wanted[l];
            var leaves := l !in wanted && Subscribed(r, node);
            && (n in r'.locals <==> if n != node || !kind.Local()
               then n in r.locals else joins || (n in r.locals && !leaves))
            && (n in r'.remotes <==> if n != node || !kind.OverSocket?
               then n in r.remotes else joins || (n in r.remotes && !leaves))
  {
    WithoutMembers(r.locals, node);
    WithoutMembers(r.remotes, node);
  }
}
