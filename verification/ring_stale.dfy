/** The compare-exchange on the head and the WRITING store behind it are two steps, and the consumer
    does not clear headers. A consumer that looks in between takes the record of the lap before for
    the new one. How far the head may go before that can happen, exactly, for every block. */
module RingStale {
  import opened Records
  import opened RingLayout
  import opened RingMachine
  import opened RingInvariant
  import opened RingRuns
  import opened RingScripts

  const FIRST := Msg(1, 7, 0, [42])
  const SECOND := Msg(1, 7, 1, [43])
  const D1 := Data(0, 56, FIRST)

  /** The block can hold a message, and messages may have a payload at all. */
  ghost predicate Usable(c: Config) {
    Legal(c) && 56 <= UsableLimit(c.B) && c.maxPayload >= 1
  }

  /** Every run from a fresh block whose head ends up no further than L delivers a prefix of what was
      reserved. */
  ghost predicate SafeUpTo(c: Config, L: nat)
    requires Legal(c)
  {
    forall writers: nat, acts: seq<Action> ::
      ValidRun(c, Fresh(c, writers), acts) && Run(c, Fresh(c, writers), acts).head <= L ==>
        Run(c, Fresh(c, writers), acts).delivered <= Messages(Run(c, Fresh(c, writers), acts).log)
  }

  // ---- No record ends between the block end and 56 bytes beyond ----

  lemma OneByte(c: Config)
    requires Legal(c)
    ensures Reserve(1) == 56 && Aligned(56) && Aligned(0) && Aligned(8)
  {
    AlignedIsMultiple(56);
    assert (1 + HEADER_SIZE + 8 - 1) / 8 == 7;
  }

  lemma LeastReserve(n: nat)
    requires n > 0
    ensures Reserve(n) >= 56
  {
    var r := Reserve(n);
    AlignedIsMultiple(r);
  }

  /** A reservation that takes the head past the block end takes it at least 56 bytes further. */
  lemma PastTheEnd(c: Config, r: Rec)
    requires Legal(c) && c.B >= 56 && WellPlaced(c.B, r) && r.pos <= c.B && r.End() > c.B
    requires r.Data? ==> r.msg.payload != []
    ensures r.End() >= c.B + 56
  {
    PlacedFits(c.B, r);
    if r.Data? { LeastReserve(|r.msg.payload|); }
  }

  lemma {:induction false} HeadJumps(c: Config, writers: nat, acts: seq<Action>)
    requires Usable(c) && ValidRun(c, Fresh(c, writers), acts)
    ensures var h := Run(c, Fresh(c, writers), acts).head; h <= c.B || h >= c.B + 56
    decreases |acts|
  {
    if acts != [] {
      var n := |acts| - 1;
      hide Inv, FirstLap, Step, Enabled, Fresh;
      var s := Run(c, Fresh(c, writers), acts[..n]);
      HeadJumps(c, writers, acts[..n]);
      HeadGrows(c, s, acts[n]);
      if s.head <= c.B {
        FirstLapRun(c, writers, acts[..n]);
        JumpStep(c, s, acts[n]);
      }
    }
  }

  lemma JumpStep(c: Config, s: State, a: Action)
    requires Usable(c) && Inv(c, s) && Enabled(c, s, a) && s.head <= c.B
    ensures var h := Step(c, s, a).head; h <= c.B || h >= c.B + 56
  {
    hide Memory, Stages, Writers, Reader, Awake, Chain, Span, Step, WellPlaced, Wanted, Reserve, Boundary;
    StepShape(c, s, a);
    if Wins(s, a) {
      var p := s.writers[a.w];
      WriterAt(c, s, a.w);
      WantedFits(c, p, s.tail);
      WantedSends(c, p);
      if Wanted(c, p).End() > c.B { PastTheEnd(c, Wanted(c, p)); }
    }
  }

  lemma WantedSends(c: Config, p: Writer)
    requires Legal(c) && p.Swapping?
    ensures Wanted(c, p).Data? ==> Wanted(c, p).msg == p.msg
  {
  }

  // ---- A run to the brink ----

  /** A block drained up to position p, on its first lap; behind p = 0 the first message is at the
      block start. */
  ghost predicate Level(c: Config, s: State, p: nat) {
    && Legal(c) && |s.mem| == DATA_BLOCK_OFFSET + c.B && |s.own| == |s.log| == s.read
    && s.writers == [Idle] && s.consumer == (if p == 0 then Waiting else Polling(true))
    && s.head == s.tail == p <= UsableLimit(c.B) && Aligned(p)
    && s.delivered == Messages(s.log)
    && (p > 0 ==> p >= 56 && Laid(c, s.mem, D1, Stage.Published))
  }

  /** One more message is sent and delivered. */
  lemma Round(c: Config, s0: State, acts: seq<Action>, s: State, p: nat) returns (acts': seq<Action>, s': State)
    requires Usable(c) && ValidRun(c, s0, acts) && Run(c, s0, acts) == s
    requires Level(c, s, p) && p + 56 <= UsableLimit(c.B)
    ensures ValidRun(c, s0, acts') && Run(c, s0, acts') == s' && Level(c, s', p + 56)
  {
    hide ValidRun, Run, Laid, OnlyIn, Reserve, Aligned, Messages;
    OneByte(c);
    AlignedSum(p, 56);
    var r, before := Data(p, 56, FIRST), s.mem;
    MessagesPush(s.log, r);
    acts', s' := Sending(c, s0, acts, s, 0, FIRST);
    if p > 0 {
      LaidElsewhere(c, before, s'.mem, D1, Stage.Published, r);
    } else {
      acts', s' := Go(c, s0, acts', s', Wake);
    }
    acts', s' := Go(c, s0, acts', s', PollHead);
    acts', s' := Take(c, s0, acts', s', r);
  }

  lemma {:induction false} Rounds(c: Config, s0: State, acts: seq<Action>, s: State, p: nat)
    returns (acts': seq<Action>, s': State, p': nat)
    requires Usable(c) && ValidRun(c, s0, acts) && Run(c, s0, acts) == s && Level(c, s, p)
    ensures ValidRun(c, s0, acts') && Run(c, s0, acts') == s' && Level(c, s', p') && p' + 56 > UsableLimit(c.B)
    decreases UsableLimit(c.B) - p
  {
    hide ValidRun, Run, Level;
    acts', s', p' := acts, s, p;
    if p + 56 <= UsableLimit(c.B) {
      acts', s' := Round(c, s0, acts, s, p);
      acts', s', p' := Rounds(c, s0, acts', s', p + 56);
    }
  }

  /** The second lap has been reserved and not marked, and the consumer is about to look there. */
  ghost predicate Brink(c: Config, s: State, k: nat) {
    && Legal(c) && |s.mem| == DATA_BLOCK_OFFSET + c.B && |s.own| == |s.log| == k + 1 && s.read == k
    && s.log[k] == Data(c.B, 56, SECOND) && s.own[k].stage.Unmarked?
    && |s.writers| == 1 && s.writers[0].Owner? && s.writers[0].k == k
    && s.head == c.B + 56 && s.tail == c.B && s.consumer.Looking?
    && s.delivered == Messages(s.log[..k]) && Laid(c, s.mem, D1, Stage.Published)
  }

  /** The send that finds no room before the block end: filler first, then the block start. */
  lemma Overtake(c: Config, s0: State, acts: seq<Action>, s: State, p: nat) returns (acts': seq<Action>, s': State)
    requires Usable(c) && ValidRun(c, s0, acts) && Run(c, s0, acts) == s
    requires Level(c, s, p) && p + 56 > UsableLimit(c.B)
    ensures ValidRun(c, s0, acts') && Run(c, s0, acts') == s' && |s'.mem| == |s.mem|
    ensures var filler, second, t := Wrap(p, c.B - p), Data(c.B, 56, SECOND), s.nextTicket;
            && WellPlaced(c.B, filler) && Laid(c, s'.mem, filler, Stage.Published)
               && Laid(c, s'.mem, D1, Stage.Published)
            && s' == s.(mem := s'.mem, head := c.B + 56, log := s.log + [filler] + [second], nextTicket := t + 1,
                        asked := s.asked[t := SECOND], writers := [Owner(t, SECOND, |s.log| + 1, 1)],
                        own := s.own + [Own(0, t, Stage.Published)] + [Own(0, t, Unmarked)])
  {
    hide ValidRun, Run, Laid, OnlyIn, Reserve, Aligned, Offset;
    OneByte(c);
    BlockStart(c, p);
    AlignedDifference(c.B, p);
    var filler, k, before := Wrap(p, c.B - p), |s.log|, s.mem;
    acts', s' := Beginning(c, s0, acts, s, 0, SECOND);
    acts', s' := Reserving(c, s0, acts', s', 0);
    assert s'.log[k] == filler;
    ghost var own := s.own + [Own(0, s.nextTicket, Stage.Published)];
    acts', s' := Write(c, s0, acts', s', 0, k);
    assert s'.own == own && s'.writers == [TailNeeded(s.nextTicket, SECOND, c.B, 1)];
    LaidElsewhere(c, before, s'.mem, D1, Stage.Published, filler);
    acts', s' := Reserving(c, s0, acts', s', 0);
  }

  lemma BlockStart(c: Config, p: nat)
    requires Legal(c) && p < c.B
    ensures Offset(c.B, p) == p && Offset(c.B, c.B) == 0 && Boundary(c.B, c.B)
  {
    assert Offset(c.B, c.B - c.B) == 0;
  }

  lemma ToTheBrink(c: Config) returns (acts: seq<Action>, s: State, k: nat)
    requires Usable(c)
    ensures ValidRun(c, Fresh(c, 1), acts) && Run(c, Fresh(c, 1), acts) == s && Brink(c, s, k)
  {
    hide Laid, Reserve, Aligned, Messages;
    OneByte(c);
    var s0, p := Fresh(c, 1), 0;
    acts, s := [], s0;
    assert ValidRun(c, s0, acts) && Run(c, s0, acts) == s && Level(c, s, 0) by { NoMessages(); }
    acts, s, p := Rounds(c, s0, acts, s, p);
    acts, s, k := LastSteps(c, s0, acts, s, p);
  }

  lemma NoMessages()
    ensures Messages([]) == []
  {
  }

  lemma LastSteps(c: Config, s0: State, acts: seq<Action>, s: State, p: nat)
    returns (acts': seq<Action>, s': State, k: nat)
    requires Usable(c) && ValidRun(c, s0, acts) && Run(c, s0, acts) == s
    requires Level(c, s, p) && p + 56 > UsableLimit(c.B)
    ensures ValidRun(c, s0, acts') && Run(c, s0, acts') == s' && Brink(c, s', k)
  {
    hide ValidRun, Run, Laid, Reserve, Aligned, Messages;
    k := |s.log| + 1;
    var filler := Wrap(p, c.B - p);
    acts', s' := Overtake(c, s0, acts, s, p);
    MessagesPush(s.log, filler);
    assert s'.log[..k] == s.log + [filler];
    acts', s' := Go(c, s0, acts', s', PollHead);
    acts', s' := Take(c, s0, acts', s', filler);
    acts', s' := Go(c, s0, acts', s', PollHead);
  }

  // ---- Over the brink ----

  /** In every usable block some run delivers the first message again, out of a record that is
      reserved for another one and not yet marked, with the head 56 bytes past the block end. */
  lemma DeliveredTwice(c: Config) returns (acts: seq<Action>)
    requires Usable(c)
    ensures ValidRun(c, Fresh(c, 1), acts)
    ensures var s := Run(c, Fresh(c, 1), acts);
            && s.head == c.B + 56 && |s.own| == |s.log| > 0 && s.own[|s.log| - 1].stage.Unmarked?
            && s.log[|s.log| - 1] == Data(c.B, 56, SECOND)
            && s.delivered == Messages(s.log[..|s.log| - 1]) + [FIRST]
            && Messages(s.log) == Messages(s.log[..|s.log| - 1]) + [SECOND]
            && !(s.delivered <= Messages(s.log))
  {
    hide ValidRun, Run, Laid, Messages, Fresh;
    var s, k;
    acts, s, k := ToTheBrink(c);
    acts, s := OnceMore(c, Fresh(c, 1), acts, s, k);
  }

  lemma OnceMore(c: Config, s0: State, acts: seq<Action>, s: State, k: nat) returns (acts': seq<Action>, s': State)
    requires Usable(c) && ValidRun(c, s0, acts) && Run(c, s0, acts) == s && Brink(c, s, k)
    ensures ValidRun(c, s0, acts') && Run(c, s0, acts') == s'
    ensures s'.log == s.log && s'.own == s.own && s'.head == s.head && s'.delivered == Messages(s.log[..k]) + [FIRST]
    ensures Messages(s.log) == Messages(s.log[..k]) + [SECOND] && !(s'.delivered <= Messages(s.log))
  {
    hide ValidRun, Run, Laid, Messages;
    MessagesPush(s.log[..k], s.log[k]);
    assert s.log == s.log[..k] + [s.log[k]];
    acts', s' := Take(c, s0, acts, s, D1);
    assert s'.delivered[|s'.delivered| - 1] == FIRST && Messages(s.log)[|s'.delivered| - 1] == SECOND;
  }

  /** A stale load need not do harm: if the writer catches up before the consumer reads the rest of
      the header, the right message is delivered. */
  lemma StaleYetHarmless(c: Config) returns (acts: seq<Action>)
    requires Usable(c)
    ensures ValidRun(c, Fresh(c, 1), acts) && !NeverStale(c, Fresh(c, 1), acts)
    ensures var s := Run(c, Fresh(c, 1), acts); s.delivered == Messages(s.log)
  {
    hide ValidRun, Run, NeverStale, Brink, Fresh;
    var s, k;
    acts, s, k := ToTheBrink(c);
    acts, s := CatchUp(c, Fresh(c, 1), acts, s, k);
  }

  lemma CatchUp(c: Config, s0: State, acts: seq<Action>, s: State, k: nat) returns (acts': seq<Action>, s': State)
    requires Usable(c) && ValidRun(c, s0, acts) && Run(c, s0, acts) == s && Brink(c, s, k)
    ensures ValidRun(c, s0, acts') && Run(c, s0, acts') == s' && !NeverStale(c, s0, acts')
    ensures s'.delivered == Messages(s'.log)
  {
    hide ValidRun, Run, NeverStale, Laid, Messages, Reserve, Stale;
    var second := Data(c.B, 56, SECOND);
    MessagesPush(s.log[..k], second);
    assert s.log == s.log[..k] + [second];
    BrinkIsStale(c, s, k);
    SecondPlaced(c);
    SeeWord(c, s, D1);
    acts', s' := Go(c, s0, acts, s, Look);
    StaleLook(c, s0, acts);
    ghost var looked := acts';
    acts', s' := Write(c, s0, acts', s', 0, k);
    SeeHeader(c, s', second);
    acts', s' := Go(c, s0, acts', s', ReadHeader);
    acts', s' := TakeRest(c, s0, acts', s', second);
    StaleForever(c, s0, looked, acts');
  }

  lemma StaleLook(c: Config, s0: State, acts: seq<Action>)
    requires Geometry(c.B) && ValidRun(c, s0, acts) && ValidRun(c, s0, acts + [Look])
    requires |Run(c, s0, acts).mem| == DATA_BLOCK_OFFSET + c.B && |Run(c, s0, acts).own| == |Run(c, s0, acts).log|
    requires Stale(c, Run(c, s0, acts))
    ensures !NeverStale(c, s0, acts + [Look])
  {
    hide Stale, Enabled, Step;
    assert (acts + [Look])[..|acts|] == acts;
  }

  lemma {:induction false} StaleForever(c: Config, s0: State, acts: seq<Action>, acts': seq<Action>)
    requires Geometry(c.B) && acts <= acts' && ValidRun(c, s0, acts') && ValidRun(c, s0, acts)
    requires !NeverStale(c, s0, acts)
    ensures !NeverStale(c, s0, acts')
    decreases |acts'|
  {
    hide Stale, Enabled, Step;
    if |acts| < |acts'| {
      StaleForever(c, s0, acts, acts'[..|acts'| - 1]);
    } else {
      assert acts == acts';
    }
  }

  lemma SecondPlaced(c: Config)
    requires Usable(c)
    ensures WellPlaced(c.B, Data(c.B, 56, SECOND)) && Offset(c.B, c.B) == 0
  {
    OneByte(c);
    BlockStart(c, 0);
  }

  lemma BrinkIsStale(c: Config, s: State, k: nat)
    requires Usable(c) && Brink(c, s, k)
    ensures Stale(c, s)
  {
    hide Laid, Word;
    MarkedWord(c, s.mem, D1, Stage.Published);
  }

  /** How far the head may go: every run delivers a prefix of what was reserved exactly as long as
      the head stays below 56 bytes past the block end. */
  lemma SafeExactlyBelow(c: Config, L: nat)
    requires Usable(c)
    ensures SafeUpTo(c, L) <==> L < c.B + 56
  {
    if L < c.B + 56 {
      forall writers: nat, acts: seq<Action> |
        ValidRun(c, Fresh(c, writers), acts) && Run(c, Fresh(c, writers), acts).head <= L
        ensures Run(c, Fresh(c, writers), acts).delivered <= Messages(Run(c, Fresh(c, writers), acts).log)
      {
        HeadJumps(c, writers, acts);
        FirstLapRun(c, writers, acts);
        DeliveredInOrder(c, Run(c, Fresh(c, writers), acts));
      }
    } else {
      var acts := DeliveredTwice(c);
      assert ValidRun(c, Fresh(c, 1), acts);
    }
  }
}
