/** Two more families of runs that never read anything stale or stall: marking right after the
    compare-exchange, and messages that fit the usable part of the block. */
module RingOrder {
  import opened Bytes
  import opened Records
  import opened RingLayout
  import opened RingMachine
  import opened RingInvariant
  import opened RingRuns
  import opened RingTickets
  import opened RingCalls

  predicate AllMarked(own: seq<Own>) {
    forall k :: 0 <= k < |own| ==> !own[k].stage.Unmarked?
  }

  /** Every successful compare-exchange is followed at once by its writer's WRITING store: while
      some record is unmarked, the next action is to mark it. */
  ghost predicate Fused(c: Config, s: State, acts: seq<Action>)
    requires Geometry(c.B) && ValidRun(c, s, acts)
  {
    acts == [] ||
    (var n := |acts| - 1;
     Fused(c, s, acts[..n]) && (!AllMarked(Run(c, s, acts[..n]).own) ==> acts[n].Mark?))
  }

  predicate OnlyNewestUnmarked(own: seq<Own>) {
    forall k :: 0 <= k < |own| - 1 ==> !own[k].stage.Unmarked?
  }

  lemma MarkedStep(c: Config, s: State, a: Action)
    requires Inv(c, s) && OnlyNewestUnmarked(s.own) && Enabled(c, s, a)
    requires !AllMarked(s.own) ==> a.Mark?
    ensures OnlyNewestUnmarked(Step(c, s, a).own)
  {
    hide Memory, Stages, Writers, Reader, Awake, Chain, Span, Step, Offset, Reserve, WellPlaced, Rec.Body;
    StepShape(c, s, a);
  }

  lemma MarkedNotStale(c: Config, s: State)
    requires Inv(c, s) && AllMarked(s.own)
    ensures !Stale(c, s)
  {
  }

  /** With the compare-exchange and the WRITING store in one piece, no look is ever stale. */
  lemma {:induction false} FusedRun(c: Config, s: State, acts: seq<Action>)
    requires Inv(c, s) && OnlyNewestUnmarked(s.own) && ValidRun(c, s, acts) && Fused(c, s, acts)
    ensures NeverStale(c, s, acts) && Inv(c, Run(c, s, acts)) && OnlyNewestUnmarked(Run(c, s, acts).own)
    decreases |acts|
  {
    if acts != [] {
      var n := |acts| - 1;
      var t := Run(c, s, acts[..n]);
      FusedRun(c, s, acts[..n]);
      hide Step, Stale, AllMarked, OnlyNewestUnmarked;
      if AllMarked(t.own) { MarkedNotStale(c, t); }
      StepInv(c, t, acts[n]);
      MarkedStep(c, t, acts[n]);
    }
  }

  /** Everything at once, for every run from a fresh block that stays on its first lap or keeps
      reservation and marking together: messages arrive once each, in reservation order and
      unaltered; nothing is corrupted; every answer of send is true. */
  lemma SafeRun(c: Config, writers: nat, acts: seq<Action>)
    requires Legal(c) && ValidRun(c, Fresh(c, writers), acts)
    requires Run(c, Fresh(c, writers), acts).head <= c.B || Fused(c, Fresh(c, writers), acts)
    ensures var s := Run(c, Fresh(c, writers), acts);
            && s.read <= |s.log| && s.delivered == Messages(s.log[..s.read]) && s.delivered <= Messages(s.log)
            && !s.consumer.Halted?
            && s.head - s.tail <= c.B
            && TicketInv(s) && AskedInv(s) && Inv(c, s) && Recorded(s, Calls(acts))
  {
    hide Inv, TicketInv, AskedInv, Recorded, Calls;
    var mem := seq(DATA_BLOCK_OFFSET + c.B, _ => 0);
    FreshInv(c, writers);
    RestartedAsked(mem, writers);
    RunRecorded(c, mem, writers, acts);
    if Run(c, Fresh(c, writers), acts).head <= c.B {
      FirstLapRun(c, writers, acts);
      RunTickets(c, Fresh(c, writers), acts);
      RunAsked(c, Fresh(c, writers), acts);
      SafeState(c, Run(c, Fresh(c, writers), acts));
    } else {
      SafeAfterRestart(c, mem, writers, acts);
    }
  }

  /** With reservation and marking together the same holds over any memory, in particular after
      reinit. */
  lemma SafeAfterRestart(c: Config, mem: seq<byte>, writers: nat, acts: seq<Action>)
    requires Legal(c) && |mem| == DATA_BLOCK_OFFSET + c.B
    requires ValidRun(c, Restarted(mem, writers), acts) && Fused(c, Restarted(mem, writers), acts)
    ensures var s := Run(c, Restarted(mem, writers), acts);
            && s.read <= |s.log| && s.delivered == Messages(s.log[..s.read]) && s.delivered <= Messages(s.log)
            && !s.consumer.Halted?
            && s.head - s.tail <= c.B
            && TicketInv(s) && AskedInv(s) && Inv(c, s) && Recorded(s, Calls(acts))
  {
    hide Inv, TicketInv, AskedInv, Recorded, Calls;
    var s0 := Restarted(mem, writers);
    RestartedInv(c, mem, writers);
    RestartedAsked(mem, writers);
    RunRecorded(c, mem, writers, acts);
    FusedRun(c, s0, acts);
    RunTickets(c, s0, acts);
    RunAsked(c, s0, acts);
    SafeState(c, Run(c, s0, acts));
  }

  lemma SafeState(c: Config, s: State)
    requires Inv(c, s)
    ensures s.read <= |s.log| && s.delivered == Messages(s.log[..s.read]) && s.delivered <= Messages(s.log)
    ensures !s.consumer.Halted? && s.head - s.tail <= c.B
  {
    hide Memory, Stages, Writers, Reader, Awake, Chain;
    DeliveredInOrder(c, s);
  }

  // ---- Fillers do not pile up ----

  predicate Fits(c: Config, m: Msg)
    requires Geometry(c.B)
  {
    Reserve(|m.payload|) <= UsableLimit(c.B)
  }

  predicate Busy(pc: Writer) {
    pc.HeadNeeded? || pc.TailNeeded? || pc.Swapping? || pc.Owner?
  }

  ghost predicate LoneFillers(c: Config, writers: seq<Writer>, log: seq<Rec>)
    requires Geometry(c.B)
  {
    && (forall w :: 0 <= w < |writers| && Busy(writers[w]) ==> Fits(c, writers[w].msg))
    && (forall k :: 0 < k < |log| && log[k].Wrap? ==> log[k - 1].Data?)
    && (log != [] && log[0].Wrap? ==> Offset(c.B, log[0].pos) > 0)
  }

  /** Behind a filler the head is at a block start, where a message that fits needs no filler. */
  lemma AfterFiller(c: Config, log: seq<Rec>, head: nat)
    requires Legal(c) && Chain(c, log) && head == At(log, |log|)
    ensures log != [] && log[|log| - 1].Wrap? ==> Offset(c.B, head) == 0
    ensures log == [] ==> Offset(c.B, head) == 0
  {
    if log != [] && log[|log| - 1].Wrap? {
      var last := log[|log| - 1];
      ChainAt(c, log, |log| - 1);
      OffsetStep(c.B, last.pos, last.total);
    }
  }

  lemma FillersStep(c: Config, s: State, a: Action)
    requires Inv(c, s) && LoneFillers(c, s.writers, s.log) && Enabled(c, s, a) && (a.Begin? ==> Fits(c, a.msg))
    ensures var s' := Step(c, s, a); LoneFillers(c, s'.writers, s'.log)
  {
    hide Memory, Stages, Writers, Reader, Awake, Chain, Step, Enabled, Offset, Reserve;
    var s' := Step(c, s, a);
    StepShape(c, s, a);
    AfterFiller(c, s.log, s.head);
    FitsKept(c, s, a);
    if Wins(s, a) {
      assert Fits(c, s.writers[a.w].msg);
    }
  }

  lemma FitsKept(c: Config, s: State, a: Action)
    requires Geometry(c.B) && Enabled(c, s, a) && (a.Begin? ==> Fits(c, a.msg))
    requires forall w :: 0 <= w < |s.writers| && Busy(s.writers[w]) ==> Fits(c, s.writers[w].msg)
    ensures var s' := Step(c, s, a);
            forall w :: 0 <= w < |s'.writers| && Busy(s'.writers[w]) ==> Fits(c, s'.writers[w].msg)
  {
    hide Fits, Offset, Reserve, WellPlaced;
    if !a.Begin? { StepSends(c, s, a); }
  }

  /** When every message fits the usable part of the block, no two fillers are adjacent: a call of
      recv skips at most one. */
  lemma {:induction false} NoAdjacentFillers(c: Config, writers: nat, acts: seq<Action>, k: nat)
    requires Legal(c)
    requires ValidRun(c, Fresh(c, writers), acts) && NeverStale(c, Fresh(c, writers), acts)
    requires forall i :: 0 <= i < |acts| && acts[i].Begin? ==> Fits(c, acts[i].msg)
    ensures var s := Run(c, Fresh(c, writers), acts);
            && LoneFillers(c, s.writers, s.log)
            && (k + 1 < |s.log| && s.log[k].Wrap? ==> s.log[k + 1].Data?)
    decreases |acts|
  {
    FreshInv(c, writers);
    if acts != [] {
      var n := |acts| - 1;
      NoAdjacentFillers(c, writers, acts[..n], k);
      RunInv(c, Fresh(c, writers), acts[..n]);
      hide Inv, Step, Enabled, Stale;
      FillersStep(c, Run(c, Fresh(c, writers), acts[..n]), acts[n]);
    }
  }
}
