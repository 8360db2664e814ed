/** Every send takes a ticket. A send that reports success is in the log exactly once, a send that
    reports failure is not in it at all, and a send that begins after another has returned comes
    later in the log. */
module RingTickets {
  import opened Bytes
  import opened Records
  import opened RingLayout
  import opened ShmResults
  import opened RingMachine
  import opened RingInvariant
  import opened RingRuns

  predicate Carries(log: seq<Rec>, own: seq<Own>, k: nat, t: nat)
    requires |own| == |log|
  {
    k < |log| && log[k].Data? && own[k].ticket == t
  }

  /** Some data reservation was made for the send with ticket t. */
  ghost predicate Reserved(log: seq<Rec>, own: seq<Own>, t: nat)
    requires |own| == |log|
  {
    exists k: nat :: Carries(log, own, k, t)
  }

  ghost predicate Busy(writers: seq<Writer>, returned: map<nat, SendErr>, next: nat, w: nat)
    requires w < |writers|
  {
    writers[w].Idle? || (writers[w].ticket < next && writers[w].ticket !in returned)
  }

  /** send number t has answered err. */
  ghost predicate Verdict(log: seq<Rec>, own: seq<Own>, next: nat, t: nat, err: SendErr)
    requires |own| == |log|
  {
    && t < next && err in {SendOk, NotEnoughSpace, SizeTooLarge, CouldNotAllocate}
    && (err == SendOk <==> Reserved(log, own, t))
  }

  ghost predicate Tickets(writers: seq<Writer>, log: seq<Rec>, own: seq<Own>, next: nat, returned: map<nat, SendErr>)
    requires |own| == |log|
  {
    && (forall w: nat :: w < |writers| ==> Busy(writers, returned, next, w))
    && (forall v: nat, w: nat :: v < w < |writers| && !writers[v].Idle? && !writers[w].Idle? ==>
          writers[v].ticket != writers[w].ticket)
    && (forall k: nat :: k < |log| && log[k].Data? ==> own[k].ticket < next)
    && (forall j: nat, k: nat :: j < k < |log| && log[j].Data? && log[k].Data? ==> own[j].ticket != own[k].ticket)
    && (forall w: nat, k: nat | w < |writers| && k < |log| && !writers[w].Idle?
       && Carries(log, own, k, writers[w].ticket) ::
          writers[w].Owner? && writers[w].k == k)
    && (forall t <- returned :: Verdict(log, own, next, t, returned[t]))
  }

  ghost predicate TicketInv(s: State) {
    |s.own| == |s.log| && Tickets(s.writers, s.log, s.own, s.nextTicket, s.returned)
  }

  /** A writer moves on with its ticket, or returns a failure without having reserved data. */
  lemma KeepTicket(s: State, w: nat, pc: Writer, s': State)
    requires TicketInv(s) && w < |s.writers| && !s.writers[w].Idle? && !pc.Idle?
    requires pc.ticket == s.writers[w].ticket
    requires s.writers[w].Owner? && s.writers[w].k < |s.log| && s.log[s.writers[w].k].Data? ==> pc == s.writers[w]
    requires s'.writers == s.writers[w := pc] && s'.log == s.log && s'.nextTicket == s.nextTicket
        && s'.returned == s.returned
    requires |s'.own| == |s.own| && forall k :: 0 <= k < |s.own| ==> s'.own[k].ticket == s.own[k].ticket
    ensures TicketInv(s')
  {
    SameReservations(s.log, s.own, s'.own);
    forall v: nat, k: nat | v < |s'.writers| && k < |s'.log| && !s'.writers[v].Idle?
                            && Carries(s'.log, s'.own, k, s'.writers[v].ticket)
      ensures s'.writers[v].Owner? && s'.writers[v].k == k
    {
      assert Carries(s.log, s.own, k, s.writers[v].ticket);
    }
    forall v: nat | v < |s'.writers|
      ensures Busy(s'.writers, s'.returned, s'.nextTicket, v)
    {
      assert Busy(s.writers, s.returned, s.nextTicket, v) && Busy(s.writers, s.returned, s.nextTicket, w);
    }
    forall t | t in s'.returned
      ensures Verdict(s'.log, s'.own, s'.nextTicket, t, s'.returned[t])
    {
      assert Verdict(s.log, s.own, s.nextTicket, t, s.returned[t]);
    }
  }

  lemma SameReservations(log: seq<Rec>, own: seq<Own>, own': seq<Own>)
    requires |own| == |own'| == |log| && forall k :: 0 <= k < |own| ==> own'[k].ticket == own[k].ticket
    ensures forall t: nat :: Reserved(log, own', t) == Reserved(log, own, t)
  {
    forall t: nat
      ensures Reserved(log, own', t) == Reserved(log, own, t)
    {
      if Reserved(log, own, t) {
        var k: nat :| Carries(log, own, k, t);
        assert Carries(log, own', k, t);
      }
      if Reserved(log, own', t) {
        var k: nat :| Carries(log, own', k, t);
        assert Carries(log, own, k, t);
      }
    }
  }

  lemma ReturnTicket(s: State, w: nat, err: SendErr, s': State)
    requires TicketInv(s) && w < |s.writers| && !s.writers[w].Idle?
    requires err in {SendOk, NotEnoughSpace, SizeTooLarge, CouldNotAllocate}
    requires err == SendOk <==> s.writers[w].Owner? && Carries(s.log, s.own, s.writers[w].k, s.writers[w].ticket)
    requires s'.writers == s.writers[w := Idle] && s'.log == s.log && s'.nextTicket == s.nextTicket
    requires s'.returned == s.returned[s.writers[w].ticket := err]
    requires |s'.own| == |s.own| && forall k :: 0 <= k < |s.own| ==> s'.own[k].ticket == s.own[k].ticket
    ensures TicketInv(s')
  {
    SameReservations(s.log, s.own, s'.own);
    forall v: nat, k: nat | v < |s'.writers| && k < |s'.log| && !s'.writers[v].Idle?
                            && Carries(s'.log, s'.own, k, s'.writers[v].ticket)
      ensures s'.writers[v].Owner? && s'.writers[v].k == k
    {
      assert Carries(s.log, s.own, k, s.writers[v].ticket);
    }
    var t := s.writers[w].ticket;
    assert Busy(s.writers, s.returned, s.nextTicket, w);
    assert err == SendOk <==> Reserved(s.log, s.own, t);
    forall v: nat | v < |s'.writers|
      ensures Busy(s'.writers, s'.returned, s'.nextTicket, v)
    {
      assert Busy(s.writers, s.returned, s.nextTicket, v);
    }
    forall u | u in s'.returned
      ensures Verdict(s'.log, s'.own, s'.nextTicket, u, s'.returned[u])
    {
      if u != t { assert Verdict(s.log, s.own, s.nextTicket, u, s.returned[u]); }
    }
  }

  lemma NewTicket(s: State, w: nat, pc: Writer, s': State)
    requires TicketInv(s) && w < |s.writers| && s.writers[w].Idle?
    requires pc.HeadNeeded? && pc.ticket == s.nextTicket
    requires s'.writers == s.writers[w := pc] && s'.log == s.log && s'.own == s.own
    requires s'.nextTicket == s.nextTicket + 1 && s'.returned == s.returned
    ensures TicketInv(s')
  {
    forall v: nat | v < |s'.writers|
      ensures Busy(s'.writers, s'.returned, s'.nextTicket, v)
    {
      assert Busy(s.writers, s.returned, s.nextTicket, v);
    }
    forall u: nat, v: nat | u < v < |s'.writers| && !s'.writers[u].Idle? && !s'.writers[v].Idle?
      ensures s'.writers[u].ticket != s'.writers[v].ticket
    {
      assert Busy(s.writers, s.returned, s.nextTicket, u) && Busy(s.writers, s.returned, s.nextTicket, v);
    }
    forall t | t in s'.returned
      ensures Verdict(s'.log, s'.own, s'.nextTicket, t, s'.returned[t])
    {
      assert Verdict(s.log, s.own, s.nextTicket, t, s.returned[t]);
    }
  }

  lemma ReserveTicket(s: State, w: nat, r: Rec, s': State)
    requires TicketInv(s) && w < |s.writers| && s.writers[w].Swapping?
    requires var p := s.writers[w];
             s'.writers == s.writers[w := Owner(p.ticket, p.msg, |s.log|, p.tries)]
             && s'.log == s.log + [r] && s'.own == s.own + [Own(w, p.ticket, Unmarked)]
             && s'.nextTicket == s.nextTicket && s'.returned == s.returned
    ensures TicketInv(s')
  {
    var t := s.writers[w].ticket;
    assert Busy(s.writers, s.returned, s.nextTicket, w);
    forall v: nat, k: nat | v < |s'.writers| && k < |s'.log| && !s'.writers[v].Idle?
                            && Carries(s'.log, s'.own, k, s'.writers[v].ticket)
      ensures s'.writers[v].Owner? && s'.writers[v].k == k
    {
      if k < |s.log| { assert Carries(s.log, s.own, k, s.writers[v].ticket); }
    }
    forall k: nat | k < |s.log| && s.log[k].Data?
      ensures s.own[k].ticket != t
    {
      if s.own[k].ticket == t { assert Carries(s.log, s.own, k, t); }
    }
    forall v: nat | v < |s'.writers|
      ensures Busy(s'.writers, s'.returned, s'.nextTicket, v)
    {
      assert Busy(s.writers, s.returned, s.nextTicket, v);
    }
    forall u | u in s.returned
      ensures Verdict(s'.log, s'.own, s'.nextTicket, u, s'.returned[u])
    {
      assert Verdict(s.log, s.own, s.nextTicket, u, s.returned[u]);
      if Reserved(s.log, s.own, u) {
        var k: nat :| Carries(s.log, s.own, k, u);
        assert Carries(s'.log, s'.own, k, u);
      }
      if Reserved(s'.log, s'.own, u) {
        var k: nat :| Carries(s'.log, s'.own, k, u);
        assert k < |s.log| ==> Carries(s.log, s.own, k, u);
      }
    }
  }

  lemma StepTickets(c: Config, s: State, a: Action)
    requires Inv(c, s) && TicketInv(s) && Enabled(c, s, a)
    ensures TicketInv(Step(c, s, a))
  {
    hide Memory, Stages, Writers, Reader, Awake, Chain, Span, Laid, WellPlaced, Tickets, Reserve, Rec.Body;
    hide StepMark, StepFill, StepPublish, StepSwap, Judged, Word;
    var s' := Step(c, s, a);
    match a
    case Begin(w, m) => BeginTickets(c, s, w, m);
    case LoadHead(w) => Settle(s, w, s');
    case LoadTail(w) =>
      WriterAt(c, s, w);
      Settle(s, w, s');
    case Swap(w, spurious) =>
      SwapTickets(c, s, w, spurious);
    case Mark(_) => StoreTickets(c, s, a);
    case Fill(_, _) => StoreTickets(c, s, a);
    case Publish(_) => StoreTickets(c, s, a);
    case Post(w) => PostTickets(c, s, w);
    case _ =>
  }

  lemma SwapTickets(c: Config, s: State, w: nat, spurious: bool)
    requires Geometry(c.B) && TicketInv(s) && w < |s.writers| && s.writers[w].Swapping?
    ensures TicketInv(StepSwap(c, s, w, spurious))
  {
    hide Tickets, Wanted, Offset, Reserve;
    var s' := StepSwap(c, s, w, spurious);
    if s.head != s.writers[w].head || spurious {
      Settle(s, w, s');
    } else {
      ReserveTicket(s, w, Wanted(c, s.writers[w]), s');
    }
  }

  lemma PostTickets(c: Config, s: State, w: nat)
    requires Inv(c, s) && TicketInv(s) && Enabled(c, s, Post(w))
    ensures TicketInv(Step(c, s, Post(w)))
  {
    hide Memory, Stages, Writers, Reader, Awake, Chain, Span, WellPlaced, Tickets;
    WriterAt(c, s, w);
    NoPostedWrap(c, s, w);
    ReturnTicket(s, w, SendOk, Step(c, s, Post(w)));
  }

  lemma StoreTickets(c: Config, s: State, a: Action)
    requires Inv(c, s) && TicketInv(s) && Enabled(c, s, a) && (a.Mark? || a.Fill? || a.Publish?)
    ensures TicketInv(Step(c, s, a))
  {
    hide Memory, Stages, Writers, Reader, Awake, Chain, Span, Laid, WellPlaced, Tickets, Reserve, Splice, Rec.Body;
    var s' := Step(c, s, a);
    if a.Publish? && s.log[s.writers[a.w].k].Wrap? {
      Settle(s, a.w, s');
    } else {
      KeepTicket(s, a.w, s.writers[a.w], s');
    }
  }

  lemma NoPostedWrap(c: Config, s: State, w: nat)
    requires Inv(c, s) && Enabled(c, s, Post(w))
    ensures s.log[s.writers[w].k].Data?
  {
    WriterAt(c, s, w);
  }

  lemma BeginTickets(c: Config, s: State, w: nat, m: Msg)
    requires TicketInv(s) && w < |s.writers| && s.writers[w].Idle?
    ensures TicketInv(StepBegin(c, s, w, m))
  {
    hide Tickets, Reserve;
    var pc, s' := HeadNeeded(s.nextTicket, m, 0), StepBegin(c, s, w, m);
    var t := Put(s, w, pc).(nextTicket := s.nextTicket + 1);
    NewTicket(s, w, pc, t);
    if Reserve(|m.payload|) > c.B {
      assert t.writers[w := Idle] == s'.writers;
      ReturnTicket(t, w, SizeTooLarge, s');
    }
  }

  /** A writer that holds no data reservation goes on or gives up. */
  lemma Settle(s: State, w: nat, s': State)
    requires TicketInv(s) && w < |s.writers| && !s.writers[w].Idle?
    requires s.writers[w].Owner? ==> s.writers[w].k < |s.log| && s.log[s.writers[w].k].Wrap?
    requires |s'.writers| == |s.writers|
    requires s'.writers == s.writers[w := s'.writers[w]] && s'.log == s.log && s'.nextTicket == s.nextTicket
    requires |s'.own| == |s.own| && forall k :: 0 <= k < |s.own| ==> s'.own[k].ticket == s.own[k].ticket
    requires if s'.writers[w].Idle?
             then s.writers[w].ticket in s'.returned
                  && s'.returned[s.writers[w].ticket] in {NotEnoughSpace, CouldNotAllocate}
                  && s'.returned == s.returned[s.writers[w].ticket := s'.returned[s.writers[w].ticket]]
             else s'.returned == s.returned && s'.writers[w].ticket == s.writers[w].ticket
    ensures TicketInv(s')
  {
    if s'.writers[w].Idle? {
      ReturnTicket(s, w, s'.returned[s.writers[w].ticket], s');
    } else {
      KeepTicket(s, w, s'.writers[w], s');
    }
  }

  lemma {:induction false} RunTickets(c: Config, s: State, acts: seq<Action>)
    requires Inv(c, s) && TicketInv(s) && ValidRun(c, s, acts) && NeverStale(c, s, acts)
    ensures TicketInv(Run(c, s, acts))
  {
    hide TicketInv, Stale, Step, Enabled;
    if acts != [] {
      var n := |acts| - 1;
      RunInv(c, s, acts[..n]);
      RunTickets(c, s, acts[..n]);
      StepTickets(c, Run(c, s, acts[..n]), acts[n]);
    }
  }

  // ---- Messages stay what they were ----

  /** Whoever holds a ticket holds the message that the send was given: the thread inside send, and
      every data record. */
  ghost predicate AskedInv(s: State) {
    && |s.own| == |s.log|
    && (forall t <- s.asked :: t < s.nextTicket)
    && (forall w :: 0 <= w < |s.writers| && !s.writers[w].Idle? ==>
       Given(s.asked, s.writers[w].ticket, s.writers[w].msg))
    && (forall k :: 0 <= k < |s.log| && s.log[k].Data? ==> Given(s.asked, s.own[k].ticket, s.log[k].msg))
  }

  predicate Given(asked: map<nat, Msg>, t: nat, m: Msg) {
    t in asked && asked[t] == m
  }

  lemma RestartedAsked(mem: seq<byte>, writers: nat)
    ensures AskedInv(Restarted(mem, writers)) && TicketInv(Restarted(mem, writers))
  {
  }

  lemma StepAsked(c: Config, s: State, a: Action)
    requires Geometry(c.B) && AskedInv(s) && Enabled(c, s, a)
    ensures AskedInv(Step(c, s, a))
  {
    var s' := Step(c, s, a);
    if a.Begin? {
      BeginAsked(c, s, a.w, a.msg);
    } else {
      hide Step, Enabled, WellPlaced, Reserve, Offset;
      StepShape(c, s, a);
      StepSends(c, s, a);
    }
  }

  lemma BeginAsked(c: Config, s: State, w: nat, m: Msg)
    requires AskedInv(s) && w < |s.writers| && s.writers[w].Idle?
    ensures AskedInv(StepBegin(c, s, w, m))
  {
    hide Reserve;
  }

  lemma {:induction false} RunAsked(c: Config, s: State, acts: seq<Action>)
    requires Geometry(c.B) && AskedInv(s) && ValidRun(c, s, acts)
    ensures AskedInv(Run(c, s, acts))
    decreases |acts|
  {
    hide AskedInv, Step, Enabled;
    if acts != [] {
      var n := |acts| - 1;
      RunAsked(c, s, acts[..n]);
      StepAsked(c, Run(c, s, acts[..n]), acts[n]);
    }
  }

  // ---- One thread's sends, in order ----

  /** A thread's reservations carry its tickets in the order it took them. */
  ghost predicate SenderInv(s: State) {
    && |s.own| == |s.log|
    && (forall k :: 0 <= k < |s.own| ==> s.own[k].ticket < s.nextTicket)
    && (forall w :: 0 <= w < |s.writers| && !s.writers[w].Idle? ==> s.writers[w].ticket < s.nextTicket)
    && (forall w, k :: 0 <= w < |s.writers| && 0 <= k < |s.own| && !s.writers[w].Idle? && s.own[k].writer == w ==>
          s.own[k].ticket <= s.writers[w].ticket)
    && (forall j, k :: 0 <= j < k < |s.own| && s.own[j].writer == s.own[k].writer ==>
       s.own[j].ticket <= s.own[k].ticket)
  }

  lemma RestartedSenders(mem: seq<byte>, writers: nat)
    ensures SenderInv(Restarted(mem, writers))
  {
  }

  lemma StepSenders(c: Config, s: State, a: Action)
    requires Geometry(c.B) && SenderInv(s) && Enabled(c, s, a)
    ensures SenderInv(Step(c, s, a))
  {
    if a.Begin? {
      BeginSenders(c, s, a.w, a.msg);
    } else {
      hide Step, Enabled, Wanted, Offset, Reserve;
      StepShape(c, s, a);
      StepSends(c, s, a);
      Logged(c, s, a);
    }
  }

  lemma BeginSenders(c: Config, s: State, w: nat, m: Msg)
    requires SenderInv(s) && w < |s.writers| && s.writers[w].Idle?
    ensures SenderInv(StepBegin(c, s, w, m))
  {
    hide Reserve;
  }

  /** A record added in a step is that of a thread that is still inside send afterwards. */
  lemma Logged(c: Config, s: State, a: Action)
    requires Geometry(c.B) && Enabled(c, s, a) && |s.own| == |s.log|
    ensures |Step(c, s, a).own| == |Step(c, s, a).log|
    ensures Wins(s, a) ==> !Step(c, s, a).writers[a.w].Idle?
  {
    if Wins(s, a) {
      hide WellPlaced, Reserve, Splice, Rec.Body, Offset, Word, Inspect, Aligned, Wanted, Judged, Enabled;
    } else {
      hide WellPlaced, Reserve, Splice, Rec.Body, Offset, Word, Inspect, Aligned, Wanted, Judged, Step, Enabled;
      StepShape(c, s, a);
    }
  }

  lemma {:induction false} RunSenders(c: Config, s: State, acts: seq<Action>)
    requires Geometry(c.B) && SenderInv(s) && ValidRun(c, s, acts)
    ensures SenderInv(Run(c, s, acts))
  {
    hide SenderInv, Step, Enabled;
    if acts != [] {
      var n := |acts| - 1;
      RunSenders(c, s, acts[..n]);
      StepSenders(c, Run(c, s, acts[..n]), acts[n]);
    }
  }

  // ---- Reservations are never undone ----

  ghost predicate Extends(s: State, t: State) {
    && |s.own| == |s.log| && |t.own| == |t.log| && s.log <= t.log
    && forall k :: 0 <= k < |s.log| ==> t.own[k].ticket == s.own[k].ticket
  }

  lemma StepExtends(c: Config, s: State, a: Action)
    requires Geometry(c.B) && Enabled(c, s, a)
    ensures Extends(s, Step(c, s, a))
  {
    hide Step, Enabled, Wanted, Offset, Reserve;
    OwnLength(c, s, a);
    StepShape(c, s, a);
  }

  lemma OwnLength(c: Config, s: State, a: Action)
    requires Geometry(c.B) && Enabled(c, s, a)
    ensures |s.own| == |s.log|
  {
  }

  lemma {:induction false} RunExtends(c: Config, s: State, acts: seq<Action>)
    requires Geometry(c.B) && |s.own| == |s.log| && ValidRun(c, s, acts)
    ensures Extends(s, Run(c, s, acts))
  {
    hide Step, Enabled;
    if acts != [] {
      var n := |acts| - 1;
      RunExtends(c, s, acts[..n]);
      StepExtends(c, Run(c, s, acts[..n]), acts[n]);
    }
  }

  /** Real-time order: whatever had been reserved when a send began lies before that send in the
      log, so a send that returned before another started is delivered first. */
  lemma RealTimeOrder(c: Config, s: State, acts: seq<Action>, i: nat, j: nat)
    requires Geometry(c.B) && TicketInv(s) && ValidRun(c, s, acts)
    requires i < |s.log|
    requires var t := Run(c, s, acts);
             |t.own| == |t.log| && j < |t.log| && t.log[j].Data? && t.own[j].ticket >= s.nextTicket
    ensures var t := Run(c, s, acts); i < j && t.log[i] == s.log[i] && t.own[i].ticket == s.own[i].ticket
  {
    RunExtends(c, s, acts);
    var t := Run(c, s, acts);
    assert t.log[..|s.log|] == s.log;
    assert forall k: nat :: k < |s.log| && s.log[k].Data? ==> s.own[k].ticket < s.nextTicket;
    assert forall k: nat :: k < |s.log| ==> t.log[k] == s.log[k];
  }
}
