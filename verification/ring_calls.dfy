/** What the books of a run say, counted over its actions: which thread made which call of send, and
    how often the semaphore was posted and used up. */
module RingCalls {
  import opened Bytes
  import opened Records
  import opened RingLayout
  import opened ShmResults
  import opened RingMachine
  import opened RingInvariant
  import opened RingRuns
  import opened RingTickets

  /** One call of send: the thread and the message given. */
  datatype Call = Call(w: nat, msg: Msg)

  /** The calls of send that a run holds, in order; a call's ticket is its index. */
  function Calls(acts: seq<Action>): seq<Call> {
    if acts == [] then []
    else
      var n := |acts| - 1;
      Calls(acts[..n]) + if acts[n].Begin? then [Call(acts[n].w, acts[n].msg)] else []
  }

  /** Tickets count the calls, every call's message is on record, and thread and message of a send
      under way, or of a reservation, are those of its call. */
  ghost predicate Recorded(s: State, calls: seq<Call>) {
    && s.nextTicket == |calls| && |s.own| == |s.log|
    && (forall t: nat :: t in s.asked <==> t < |calls|)
    && (forall t: nat :: t < |calls| ==> s.asked[t] == calls[t].msg)
    && (forall w: nat :: w < |s.writers| && !s.writers[w].Idle? ==>
          s.writers[w].ticket < |calls| && calls[s.writers[w].ticket] == Call(w, s.writers[w].msg))
    && (forall k: nat :: k < |s.log| ==> s.own[k].ticket < |calls| && calls[s.own[k].ticket].w == s.own[k].writer)
    && (forall k: nat :: k < |s.log| && s.log[k].Data? ==> calls[s.own[k].ticket].msg == s.log[k].msg)
  }

  lemma BeginRecorded(c: Config, s: State, w: nat, m: Msg, calls: seq<Call>)
    requires Recorded(s, calls) && w < |s.writers| && s.writers[w].Idle?
    ensures Recorded(StepBegin(c, s, w, m), calls + [Call(w, m)])
  {
    hide Reserve;
  }

  lemma StepRecorded(c: Config, s: State, a: Action, calls: seq<Call>)
    requires Geometry(c.B) && Recorded(s, calls) && Enabled(c, s, a)
    ensures Recorded(Step(c, s, a), calls + if a.Begin? then [Call(a.w, a.msg)] else [])
  {
    if a.Begin? {
      BeginRecorded(c, s, a.w, a.msg, calls);
    } else {
      assert calls + [] == calls;
      hide Step, Enabled, Offset, Reserve;
      OwnLength(c, s, a);
      StepShape(c, s, a);
      StepSends(c, s, a);
    }
  }

  lemma RestartedRecorded(mem: seq<byte>, writers: nat)
    ensures Recorded(Restarted(mem, writers), [])
  {
  }

  lemma {:induction false} RunRecorded(c: Config, mem: seq<byte>, writers: nat, acts: seq<Action>)
    requires Geometry(c.B) && ValidRun(c, Restarted(mem, writers), acts)
    ensures Recorded(Run(c, Restarted(mem, writers), acts), Calls(acts))
    decreases |acts|
  {
    hide Recorded, Step, Enabled;
    if acts == [] {
      RestartedRecorded(mem, writers);
    } else {
      var n := |acts| - 1;
      RunRecorded(c, mem, writers, acts[..n]);
      StepRecorded(c, Run(c, Restarted(mem, writers), acts[..n]), acts[n], Calls(acts[..n]));
    }
  }

  /** The messages of one thread lie in the log in the order of its calls of send, in every run that
      has no stale load: what a send worker puts into a ring is reserved, and so delivered, in the
      order in which it attempts it. */
  lemma OneSenderInOrder(c: Config, mem: seq<byte>, writers: nat, acts: seq<Action>, t: nat, u: nat, j: nat, k: nat)
    requires Legal(c) && |mem| == DATA_BLOCK_OFFSET + c.B
    requires ValidRun(c, Restarted(mem, writers), acts) && NeverStale(c, Restarted(mem, writers), acts)
    requires t < u < |Calls(acts)| && Calls(acts)[t].w == Calls(acts)[u].w
    requires var s := Run(c, Restarted(mem, writers), acts);
             |s.own| == |s.log| && Carries(s.log, s.own, j, t) && Carries(s.log, s.own, k, u)
    ensures var s := Run(c, Restarted(mem, writers), acts);
            j < k < |s.log| && s.log[j].msg == Calls(acts)[t].msg && s.log[k].msg == Calls(acts)[u].msg
  {
    hide Inv, Stale, Step, Enabled;
    RestartedSenders(mem, writers);
    RunRecorded(c, mem, writers, acts);
    RunSenders(c, Restarted(mem, writers), acts);
  }

  /** What a send has answered, in every run that has no stale load: success, that exactly one record
      is the call's, and it holds the very message that was given; anything else, that no record is. */
  lemma ReturnMeans(c: Config, mem: seq<byte>, writers: nat, acts: seq<Action>, t: nat)
    requires Legal(c) && |mem| == DATA_BLOCK_OFFSET + c.B
    requires ValidRun(c, Restarted(mem, writers), acts) && NeverStale(c, Restarted(mem, writers), acts)
    requires t in Run(c, Restarted(mem, writers), acts).returned
    ensures var s := Run(c, Restarted(mem, writers), acts);
            && t < |Calls(acts)| && |s.own| == |s.log|
            && s.returned[t] in {SendOk, NotEnoughSpace, SizeTooLarge, CouldNotAllocate}
            && (s.returned[t] == SendOk ==>
                  exists k: nat :: Carries(s.log, s.own, k, t) && s.log[k].msg == Calls(acts)[t].msg
                                   && forall j: nat :: Carries(s.log, s.own, j, t) ==> j == k)
            && (s.returned[t] != SendOk ==> forall j: nat :: !Carries(s.log, s.own, j, t))
  {
    hide Inv, Stale, Step, Enabled, Calls;
    RestartedInv(c, mem, writers);
    RestartedAsked(mem, writers);
    RunTickets(c, Restarted(mem, writers), acts);
    RunRecorded(c, mem, writers, acts);
    var s := Run(c, Restarted(mem, writers), acts);
    assert Verdict(s.log, s.own, s.nextTicket, t, s.returned[t]);
    if s.returned[t] == SendOk {
      var k: nat :| Carries(s.log, s.own, k, t);
      assert forall j: nat :: Carries(s.log, s.own, j, t) ==> j == k;
    }
  }

  // ---- The semaphore ----

  function Posts(acts: seq<Action>): nat {
    if acts == [] then 0 else Posts(acts[..|acts| - 1]) + if acts[|acts| - 1].Post? then 1 else 0
  }

  function Wakes(acts: seq<Action>): nat {
    if acts == [] then 0 else Wakes(acts[..|acts| - 1]) + if acts[|acts| - 1].Wake? then 1 else 0
  }

  lemma SemaphoreStep(c: Config, s: State, a: Action)
    requires Geometry(c.B) && Enabled(c, s, a)
    ensures Step(c, s, a).sem == s.sem + (if a.Post? then 1 else 0) - (if a.Wake? then 1 else 0)
  {
    hide WellPlaced, Reserve, Splice, Rec.Body, Offset, Word, Inspect, Aligned, Wanted, Judged;
  }

  /** Every wakeup of the consumer uses up one post. */
  lemma {:induction false} WakeupsArePosts(c: Config, mem: seq<byte>, writers: nat, acts: seq<Action>)
    requires Geometry(c.B) && ValidRun(c, Restarted(mem, writers), acts)
    ensures Run(c, Restarted(mem, writers), acts).sem + Wakes(acts) == Posts(acts)
  {
    hide Step, Enabled;
    if acts != [] {
      var n := |acts| - 1;
      WakeupsArePosts(c, mem, writers, acts[..n]);
      SemaphoreStep(c, Run(c, Restarted(mem, writers), acts[..n]), acts[n]);
    }
  }
}
