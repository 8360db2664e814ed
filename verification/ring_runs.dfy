/** Safety of whole runs of the ring: what the consumer delivers, when it may trust what it sees,
    and that it never oversleeps. */
module RingRuns {
  import opened Bytes
  import opened Records
  import opened RingLayout
  import opened RingMachine
  import opened RingInvariant

  /** The actions can be taken one after the other, starting in s. */
  ghost predicate ValidRun(c: Config, s: State, acts: seq<Action>)
    requires Geometry(c.B)
    decreases |acts|, 0
  {
    acts == [] ||
    (var n := |acts| - 1; ValidRun(c, s, acts[..n]) && Enabled(c, Run(c, s, acts[..n]), acts[n]))
  }

  ghost function Run(c: Config, s: State, acts: seq<Action>): State
    requires Geometry(c.B) && ValidRun(c, s, acts)
    decreases |acts|, 1
  {
    if acts == [] then s
    else var n := |acts| - 1; Step(c, Run(c, s, acts[..n]), acts[n])
  }

  /** No look of the run is stale. */
  ghost predicate NeverStale(c: Config, s: State, acts: seq<Action>)
    requires Geometry(c.B) && ValidRun(c, s, acts)
  {
    acts == [] ||
    (var n := |acts| - 1;
     NeverStale(c, s, acts[..n]) && (acts[n].Look? ==> !Stale(c, Run(c, s, acts[..n]))))
  }

  lemma {:induction false} RunInv(c: Config, s: State, acts: seq<Action>)
    requires Inv(c, s) && ValidRun(c, s, acts) && NeverStale(c, s, acts)
    ensures Inv(c, Run(c, s, acts))
  {
    hide Stale, Step, Enabled;
    if acts != [] {
      var n := |acts| - 1;
      RunInv(c, s, acts[..n]);
      StepInv(c, Run(c, s, acts[..n]), acts[n]);
    }
  }

  // ---- What the invariant says to a reader of the code ----

  /** Deliveries are the data reservations in the order of their compare-exchanges, intact,
      and none is skipped or repeated; the receive worker never has cause to re-initialise. */
  lemma DeliveredInOrder(c: Config, s: State)
    requires Inv(c, s)
    ensures s.delivered == Messages(s.log[..s.read])
    ensures s.delivered <= Messages(s.log)
    ensures !s.consumer.Halted?
  {
    hide Memory, Stages, Writers, Chain, Awake;
    MessagesAppend(s.log[..s.read], s.log[s.read..]);
    assert s.log == s.log[..s.read] + s.log[s.read..];
  }

  /** Unconsumed records cover at most one block and no two of them share a byte. */
  lemma UnreadDisjoint(c: Config, s: State, j: nat, k: nat)
    requires Inv(c, s) && s.read <= j < k < |s.log|
    ensures s.head - s.tail <= c.B
    ensures var oj, ok := HeaderOffset(c.B, s.log[j].pos), HeaderOffset(c.B, s.log[k].pos);
            oj + s.log[j].total <= ok || ok + s.log[k].total <= oj
  {
    hide Memory, Stages, Writers, Reader, Awake, WellPlaced, Offset;
    UnreadApart(c, s.log, s.read, s.head, s.tail, j, k);
    ChainAt(c, s.log, j);
    ChainAt(c, s.log, k);
    PlacedFits(c.B, s.log[k]);
    ChainOrder(c, s.log, j + 1, k);
    PlacedFits(c.B, s.log[j]);
    SlotsDisjoint(c.B, s.log[j], s.log[k]);
  }

  /** The allocator never finds the head in the last 48 bytes of the block, and every record lies
      inside the block with its header and payload. */
  lemma HeadStaysUsable(c: Config, s: State, k: nat)
    requires Inv(c, s)
    ensures Offset(c.B, s.head) <= UsableLimit(c.B) && Aligned(s.head)
    ensures Offset(c.B, s.tail) <= UsableLimit(c.B) && Aligned(s.tail)
    ensures k < |s.log| ==>
              && Offset(c.B, s.log[k].pos) + s.log[k].total <= c.B
              && Maps(HeaderOffset(c.B, s.log[k].pos), HEADER_SIZE, |s.mem|)
              && DataOffset(c.B, s.log[k].pos) + |s.log[k].Payload()| <= |s.mem|
  {
    Ends(c, s.log, s.read, s.head, s.tail);
    if k < |s.log| {
      ChainAt(c, s.log, k);
      PlacedFits(c.B, s.log[k]);
    }
  }

  /** While the consumer sleeps with no wakeup pending, every unread message belongs to a thread
      that is still inside send and has its post ahead of it; provided that no message declares an
      oversized label (see RingOversized). */
  lemma NoLostWakeup(c: Config, s: State, k: nat)
    requires Inv(c, s) && s.consumer.Waiting? && s.sem == 0 && Calm(s.log)
    requires s.read <= k < |s.log| && s.log[k].Data?
    ensures var w := s.own[k].writer;
            && OwnedBy(s.writers, w, k) && s.writers[w].msg == s.log[k].msg
            && !s.own[k].stage.Posted?
  {
    hide Memory, Stages, Reader, Chain, Span, Calm;
    var w := s.own[k].writer;
    assert !Settled(s.log[k], s.own[k]);
    assert OwnedBy(s.writers, w, k);
    WriterAt(c, s, w);
  }

  /** When nobody is inside send and the consumer sleeps with no wakeup pending, everything that was
      reserved has been delivered. */
  lemma RestMeansDelivered(c: Config, s: State)
    requires Inv(c, s) && s.consumer.Waiting? && s.sem == 0 && Calm(s.log)
    requires forall w :: 0 <= w < |s.writers| ==> s.writers[w].Idle?
    ensures s.delivered == Messages(s.log)
  {
    hide Memory, Stages, Chain, Calm, Messages, Writers;
    AllSettled(c, s.writers, s.log, s.own, s.head, s.tail);
    assert forall k :: s.read <= k < |s.log| ==> Settled(s.log[k], s.own[k]) && !s.own[k].stage.Posted?;
    OnlyFillers(s.log[s.read..]);
    MessagesAppend(s.log[..s.read], s.log[s.read..]);
    assert s.log == s.log[..s.read] + s.log[s.read..];
  }

  lemma AllSettled(c: Config, writers: seq<Writer>, log: seq<Rec>, own: seq<Own>, head: nat, tail: nat)
    requires Legal(c) && |own| == |log| && Writers(c, writers, log, own, head, tail)
    requires forall w :: 0 <= w < |writers| ==> writers[w].Idle?
    ensures forall k :: 0 <= k < |log| ==> Settled(log[k], own[k])
  {
    hide WriterOk, Settled;
  }

  lemma {:induction false} OnlyFillers(rs: seq<Rec>)
    requires forall k :: 0 <= k < |rs| ==> rs[k].Wrap?
    ensures Messages(rs) == []
  {
    if rs != [] {
      OnlyFillers(rs[1..]);
    }
  }

  // ---- No run is ever stuck ----

  /** Nobody is inside send, and the consumer sleeps with no wakeup pending. */
  predicate AtRest(s: State) {
    (forall w :: 0 <= w < |s.writers| ==> s.writers[w].Idle?) && s.consumer.Waiting? && s.sem == 0
  }

  /** Short of rest somebody can move without a new send: none of the checks on a record or on a
      position that a step presupposes ever fails. */
  lemma NoDeadlock(c: Config, s: State) returns (a: Action)
    requires Inv(c, s) && !AtRest(s)
    ensures !a.Begin? && Enabled(c, s, a)
  {
    hide Inv, Enabled;
    if w :| 0 <= w < |s.writers| && !s.writers[w].Idle? {
      a := WriterMoves(c, s, w);
    } else {
      a := ConsumerMoves(c, s);
    }
  }

  lemma WriterMoves(c: Config, s: State, w: nat) returns (a: Action)
    requires Inv(c, s) && w < |s.writers| && !s.writers[w].Idle?
    ensures !a.Begin? && Enabled(c, s, a)
  {
    hide Memory, Stages, Writers, Reader, Awake, Chain, Span, Laid, Reserve, WellPlaced;
    match s.writers[w]
    case HeadNeeded(_, _, _) => a := LoadHead(w);
    case TailNeeded(_, _, _, _) => a := LoadTail(w);
    case Swapping(_, _, _, _, _) => a := Swap(w, false);
    case Owner(_, _, _, _) => a := OwnerMoves(c, s, w);
  }

  lemma OwnerMoves(c: Config, s: State, w: nat) returns (a: Action)
    requires Inv(c, s) && w < |s.writers| && s.writers[w].Owner?
    ensures !a.Begin? && Enabled(c, s, a)
  {
    hide Memory, Writers, Reader, Awake, Chain, Span, Laid, Reserve, WellPlaced, Rec.Body;
    WriterAt(c, s, w);
    var k := s.writers[w].k;
    ChainAt(c, s.log, k);
    match s.own[k].stage
    case Unmarked => a := Mark(w);
    case Filling(n) =>
      FilledSoFar(c, s, w);
      var size := |s.log[k].Body(c.epoch)|;
      a := if n < size then Fill(w, size - n) else Publish(w);
    case Published => a := Post(w);
    case Posted => a := Post(w);
  }

  lemma FilledSoFar(c: Config, s: State, w: nat)
    requires Inv(c, s) && Owns(c, s, w) && s.own[s.writers[w].k].stage.Filling?
    ensures s.own[s.writers[w].k].stage.n <= |s.log[s.writers[w].k].Body(c.epoch)|
  {
    hide Stages, Writers, Reader, Awake, Chain, Rec.Body, WellPlaced;
    UnpublishedIsUnread(c, s, w);
    assert Laid(c, s.mem, s.log[s.writers[w].k], s.own[s.writers[w].k].stage);
  }

  lemma ConsumerMoves(c: Config, s: State) returns (a: Action)
    requires Inv(c, s) && (s.consumer.Waiting? ==> s.sem > 0)
    ensures Enabled(c, s, a)
    ensures match s.consumer
            case Waiting => a == Wake
            case Polling(_) => a == PollHead
            case Looking(_) => a == Look
            case Reading(_) => a == ReadHeader
            case Skipping(_) => a == Skip
            case Copying(h, buf) => a == if |buf| < h.payloadSize then Copy(h.payloadSize - |buf|) else Advance
            case Halted(_) => false
  {
    hide Memory, Stages, Writers, Awake, Chain, Span, Laid, Reserve;
    Ends(c, s.log, s.read, s.head, s.tail);
    match s.consumer
    case Waiting => a := Wake;
    case Polling(_) => a := PollHead;
    case Looking(_) => a := Look;
    case Reading(_) => a := ReadHeader;
    case Skipping(_) => a := Skip;
    case Copying(h, buf) =>
      SpanRead(c, s.log, s.read, s.head, s.tail);
      AtTail(c, s);
      PlacedFits(c.B, s.log[s.read]);
      a := if |buf| < h.payloadSize then Copy(h.payloadSize - |buf|) else Advance;
    case Halted(_) => a := Wake;
  }

  // ---- The first lap after init_as_new ----

  predicate Zero(mem: seq<byte>, lo: nat, hi: nat) {
    forall i :: lo <= i < hi && i < |mem| ==> mem[i] == 0
  }

  /** Until the head has passed the block end once, everything not yet marked is still zero. */
  ghost predicate FirstLap(c: Config, s: State)
    requires Geometry(c.B)
  {
    s.head <= c.B ==>
      && Zero(s.mem, DATA_BLOCK_OFFSET + s.head, DATA_BLOCK_OFFSET + c.B)
      && |s.own| == |s.log|
      && forall k :: 0 <= k < |s.log| && s.own[k].stage.Unmarked? ==>
           Zero(s.mem, DATA_BLOCK_OFFSET + s.log[k].pos, DATA_BLOCK_OFFSET + s.log[k].End())
  }

  lemma ZeroKept(mem: seq<byte>, mem': seq<byte>, lo: nat, hi: nat, a: nat, b: nat)
    requires Zero(mem, lo, hi) && SameOutside(mem, mem', a, b) && (hi <= a || b <= lo)
    ensures Zero(mem', lo, hi)
  {
  }

  /** Stores inside the slot of record k leave the untouched part of a first lap zero. */
  lemma FirstLapStore(c: Config, s: State, k: nat, mem': seq<byte>, stage: Stage)
    requires Inv(c, s) && FirstLap(c, s) && s.head <= c.B
    requires s.read <= k < |s.log| && !stage.Unmarked? && OnlyIn(s.mem, mem', c.B, s.log[k])
    ensures FirstLap(c, WithStage(s, k, stage).(mem := mem'))
  {
    hide Memory, Writers, Reader, Awake, Chain, Span, WellPlaced, Zero;
    Within(c, s.log, s.read, s.head, s.tail, k);
    ChainAt(c, s.log, k);
    PlacedFits(c.B, s.log[k]);
    var a, b := HeaderOffset(c.B, s.log[k].pos), HeaderOffset(c.B, s.log[k].pos) + s.log[k].total;
    ZeroKept(s.mem, mem', DATA_BLOCK_OFFSET + s.head, DATA_BLOCK_OFFSET + c.B, a, b);
    forall j | 0 <= j < |s.log| && j != k && s.own[j].stage.Unmarked?
      ensures Zero(mem', DATA_BLOCK_OFFSET + s.log[j].pos, DATA_BLOCK_OFFSET + s.log[j].End())
    {
      assert s.read <= j;
      EitherBefore(c, s.log, j, k);
      ZeroKept(s.mem, mem', DATA_BLOCK_OFFSET + s.log[j].pos, DATA_BLOCK_OFFSET + s.log[j].End(), a, b);
    }
  }

  lemma EitherBefore(c: Config, log: seq<Rec>, j: nat, k: nat)
    requires Legal(c) && Chain(c, log) && j < |log| && k < |log| && j != k
    ensures log[j].End() <= log[k].pos || log[k].End() <= log[j].pos
  {
    ChainAt(c, log, j);
    ChainAt(c, log, k);
    if j < k { ChainOrder(c, log, j + 1, k); } else { ChainOrder(c, log, k + 1, j); }
  }

  lemma FirstLapReserve(c: Config, s: State, w: nat)
    requires Inv(c, s) && FirstLap(c, s) && Enabled(c, s, Swap(w, false)) && s.head == s.writers[w].head
    ensures FirstLap(c, StepSwap(c, s, w, false))
  {
    hide Memory, Stages, Writers, Reader, Awake, Chain, Span, WellPlaced, Wanted, Reserve, Boundary;
    var s', r := StepSwap(c, s, w, false), Wanted(c, s.writers[w]);
    WriterAt(c, s, w);
    WantedFits(c, s.writers[w], s.tail);
    PlacedFits(c.B, r);
    if s'.head <= c.B {
      forall k | 0 <= k < |s'.log| && s'.own[k].stage.Unmarked?
        ensures Zero(s'.mem, DATA_BLOCK_OFFSET + s'.log[k].pos, DATA_BLOCK_OFFSET + s'.log[k].End())
      {
        if k < |s.log| { assert s.own[k].stage.Unmarked?; }
      }
    }
  }

  lemma FirstLapStep(c: Config, s: State, a: Action)
    requires Inv(c, s) && FirstLap(c, s) && Enabled(c, s, a)
    ensures FirstLap(c, Step(c, s, a))
  {
    hide Memory, Stages, Writers, Reader, Awake, Chain, Laid, WellPlaced, Reserve, Rec.Body, FirstLap;
    hide StepMark, StepFill, StepPublish, Judged, Word, Wanted;
    match a
    case Swap(w, spurious) =>
      if s.head == s.writers[w].head && !spurious {
        FirstLapReserve(c, s, w);
      } else {
        FirstLapSame(c, s, Step(c, s, a));
      }
    case Mark(w) => FirstLapMark(c, s, w);
    case Fill(w, n) => FirstLapFill(c, s, w, n);
    case Publish(w) => FirstLapPublish(c, s, w);
    case Post(w) => FirstLapPosted(c, s, s.writers[w].k, Step(c, s, a));
    case _ => FirstLapSame(c, s, Step(c, s, a));
  }

  lemma FirstLapMark(c: Config, s: State, w: nat)
    requires Inv(c, s) && FirstLap(c, s) && Enabled(c, s, Mark(w))
    ensures FirstLap(c, StepMark(c, s, w))
  {
    hide Memory, Stages, Writers, Reader, Awake, Chain, Laid, WellPlaced, Reserve, Splice, Rec.Body, FirstLap;
    UnpublishedIsUnread(c, s, w);
    MarkLaid(c, s.mem, StepMark(c, s, w).mem, s.log[s.writers[w].k]);
    FirstLapStored(c, s, s.writers[w].k, Filling(0), StepMark(c, s, w));
  }

  lemma FirstLapFill(c: Config, s: State, w: nat, n: nat)
    requires Inv(c, s) && FirstLap(c, s) && Enabled(c, s, Fill(w, n))
    ensures FirstLap(c, StepFill(c, s, w, n))
  {
    hide Memory, Stages, Writers, Reader, Awake, Chain, Laid, WellPlaced, Reserve, Splice, Rec.Body, FirstLap;
    UnpublishedIsUnread(c, s, w);
    var k, s' := s.writers[w].k, StepFill(c, s, w, n);
    FillLaid(c, s.mem, s'.mem, s.log[k], s.own[k].stage.n, n);
    FirstLapStored(c, s, k, s'.own[k].stage, s');
  }

  lemma FirstLapPublish(c: Config, s: State, w: nat)
    requires Inv(c, s) && FirstLap(c, s) && Enabled(c, s, Publish(w))
    ensures FirstLap(c, StepPublish(c, s, w))
  {
    hide Memory, Stages, Writers, Reader, Awake, Chain, Laid, WellPlaced, Reserve, Splice, Rec.Body, FirstLap;
    UnpublishedIsUnread(c, s, w);
    PublishLaid(c, s.mem, StepPublish(c, s, w).mem, s.log[s.writers[w].k]);
    FirstLapStored(c, s, s.writers[w].k, Stage.Published, StepPublish(c, s, w));
  }

  lemma FirstLapSame(c: Config, s: State, s': State)
    requires Geometry(c.B) && FirstLap(c, s) && s'.mem == s.mem && s'.head == s.head && s'.log == s.log
        && s'.own == s.own
    ensures FirstLap(c, s')
  {
  }

  lemma FirstLapPosted(c: Config, s: State, k: nat, s': State)
    requires Geometry(c.B) && FirstLap(c, s) && k < |s.log| == |s.own|
    requires s'.mem == s.mem && s'.head == s.head && s'.log == s.log && s'.own == Staged(s.own, k, Posted)
    ensures FirstLap(c, s')
  {
  }

  lemma FirstLapStored(c: Config, s: State, k: nat, stage: Stage, s': State)
    requires Inv(c, s) && FirstLap(c, s) && s.read <= k < |s.log| && !stage.Unmarked?
    requires OnlyIn(s.mem, s'.mem, c.B, s.log[k])
    requires s'.head == s.head && s'.log == s.log && s'.own == Staged(s.own, k, stage)
    ensures FirstLap(c, s')
  {
    if s.head <= c.B {
      FirstLapStore(c, s, k, s'.mem, stage);
      FirstLapSame(c, WithStage(s, k, stage).(mem := s'.mem), s');
    }
  }

  lemma {:induction false} ZeroWord(bs: seq<byte>)
    requires forall i :: 0 <= i < |bs| ==> bs[i] == 0
    ensures FromLittleEndian(bs) == 0
  {
    if bs != [] {
      ZeroWord(bs[1..]);
    }
  }

  /** On the first lap an unmarked record reads as WRITING. */
  lemma FirstLapNotStale(c: Config, s: State)
    requires Inv(c, s) && FirstLap(c, s) && s.head <= c.B
    ensures !Stale(c, s)
  {
    hide Memory, Stages, Writers, Reader, Awake, Chain, Span, WellPlaced, Laid;
    if Stale(c, s) {
      AtTail(c, s);
      Within(c, s.log, s.read, s.head, s.tail, s.read);
      PlacedFits(c.B, s.log[s.read]);
      var o := HeaderOffset(c.B, s.tail);
      assert Zero(s.mem, DATA_BLOCK_OFFSET + s.log[s.read].pos, DATA_BLOCK_OFFSET + s.log[s.read].End());
      ZeroWord(s.mem[o..o + 4]);
    }
  }

  lemma HeadGrows(c: Config, s: State, a: Action)
    requires Geometry(c.B) && Enabled(c, s, a)
    ensures s.head <= Step(c, s, a).head
  {
    hide Step, Enabled, Offset, Reserve;
    StepShape(c, s, a);
  }

  /** From a freshly initialised block, nothing stale is ever read until the head has passed the
      block end, however the threads interleave. */
  lemma {:induction false} FirstLapRun(c: Config, writers: nat, acts: seq<Action>)
    requires Legal(c) && ValidRun(c, Fresh(c, writers), acts)
    requires Run(c, Fresh(c, writers), acts).head <= c.B
    ensures NeverStale(c, Fresh(c, writers), acts)
    ensures Inv(c, Run(c, Fresh(c, writers), acts)) && FirstLap(c, Run(c, Fresh(c, writers), acts))
    decreases |acts|
  {
    FreshInv(c, writers);
    if acts != [] {
      var n := |acts| - 1;
      hide Inv, FirstLap, Stale, Enabled, Step;
      var s := Run(c, Fresh(c, writers), acts[..n]);
      HeadGrows(c, s, acts[n]);
      FirstLapRun(c, writers, acts[..n]);
      FirstLapNotStale(c, s);
      StepInv(c, s, acts[n]);
      FirstLapStep(c, s, acts[n]);
    }
  }
}
