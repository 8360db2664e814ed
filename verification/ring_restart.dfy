/** After reinit the block is empty but its memory is not: old headers stay where they are. How far
    the head may go then before the consumer can stumble over one of them, exactly. */
module RingRestart {
  import opened Bytes
  import opened Records
  import opened RingLayout
  import opened ShmResults
  import opened RingMachine
  import opened RingInvariant
  import opened RingRuns
  import opened RingScripts
  import opened RingStale

  /** Where two records of one lap can stand side by side, the end of two least ones; elsewhere the
      block end. */
  function RestartLimit(c: Config): nat {
    if c.B >= 160 then 112 else c.B
  }

  /** Whatever the memory holds, every run from an empty block whose head ends up no further than L
      delivers a prefix of what was reserved, and the consumer never has cause to flush, to
      re-initialise or to give up. */
  ghost predicate UndisturbedUpTo(c: Config, L: nat)
    requires Legal(c)
  {
    forall mem: seq<byte>, writers: nat, acts: seq<Action> ::
      (&& |mem| == DATA_BLOCK_OFFSET + c.B && ValidRun(c, Restarted(mem, writers), acts)
       && Run(c, Restarted(mem, writers), acts).head <= L) ==>
        Undisturbed(Run(c, Restarted(mem, writers), acts))
  }

  predicate Undisturbed(s: State) {
    !s.consumer.Halted? && s.delivered <= Messages(s.log)
  }

  // ---- Short runs are undisturbed ----

  /** As long as nothing has been posted, the consumer sleeps. */
  ghost predicate Dormant(s: State) {
    (forall k :: 0 <= k < |s.own| ==> !s.own[k].stage.Posted?) ==> s.consumer.Waiting? && s.sem == 0
  }

  lemma DormantStep(c: Config, s: State, a: Action)
    requires Geometry(c.B) && Dormant(s) && Enabled(c, s, a)
    ensures Dormant(Step(c, s, a))
  {
    hide WellPlaced, Reserve, Splice, Rec.Body, Offset, Word, Inspect, Aligned, Wanted, Judged, LittleEndian;
    var own, own' := s.own, Step(c, s, a).own;
    assert forall k :: 0 <= k < |own| && own[k].stage.Posted? ==> k < |own'| && own'[k].stage.Posted?;
    if a.Post? { assert own'[s.writers[a.w].k].stage.Posted?; }
  }

  /** Two reservations take the head to the limit at least. */
  lemma TwoRecords(c: Config, s: State)
    requires Usable(c) && Inv(c, s) && |s.log| >= 2
    ensures s.head >= RestartLimit(c)
  {
    hide Memory, Stages, Writers, Reader, Awake, Chain, WellPlaced;
    var log := s.log;
    ChainAt(c, log, 0);
    ChainAt(c, log, 1);
    ChainOrder(c, log, 2, |log|);
    FirstTwo(c, log[0], log[1]);
  }

  lemma FirstTwo(c: Config, a: Rec, b: Rec)
    requires Usable(c) && WellPlaced(c.B, a) && WellPlaced(c.B, b) && a.pos == 0 && b.pos == a.End()
    requires (a.Data? ==> a.msg.payload != []) && (b.Data? ==> b.msg.payload != [])
    ensures b.End() >= RestartLimit(c)
  {
    PlacedFits(c.B, a);
    PlacedFits(c.B, b);
    if a.Data? { LeastReserve(|a.msg.payload|); }
    if b.Data? { LeastReserve(|b.msg.payload|); }
  }

  lemma DormantNotStale(c: Config, s: State)
    requires Usable(c) && Inv(c, s) && Dormant(s) && s.head < RestartLimit(c)
    ensures !Stale(c, s)
  {
    hide Memory, Stages, Writers, Reader, Awake, Chain, Word;
    if |s.log| >= 2 { TwoRecords(c, s); }
  }

  lemma {:induction false} ShortRun(c: Config, mem: seq<byte>, writers: nat, acts: seq<Action>)
    requires Usable(c) && |mem| == DATA_BLOCK_OFFSET + c.B && ValidRun(c, Restarted(mem, writers), acts)
    requires Run(c, Restarted(mem, writers), acts).head < RestartLimit(c)
    ensures Inv(c, Run(c, Restarted(mem, writers), acts)) && Dormant(Run(c, Restarted(mem, writers), acts))
    decreases |acts|
  {
    hide Inv, Dormant, Stale, Step, Enabled;
    if acts == [] {
      RestartedInv(c, mem, writers);
      RestartedDormant(mem, writers);
    } else {
      var n := |acts| - 1;
      var s := Run(c, Restarted(mem, writers), acts[..n]);
      HeadGrows(c, s, acts[n]);
      ShortRun(c, mem, writers, acts[..n]);
      DormantNotStale(c, s);
      StepInv(c, s, acts[n]);
      DormantStep(c, s, acts[n]);
    }
  }

  lemma RestartedDormant(mem: seq<byte>, writers: nat)
    ensures Dormant(Restarted(mem, writers))
  {
  }

  // ---- Old headers ----

  /** The generation before. */
  function Before(c: Config): Config
    requires c.epoch > 0
  {
    c.(epoch := c.epoch - 1)
  }

  /** Some run of the generation before has left this memory behind. */
  ghost predicate LeftBehind(c: Config, mem: seq<byte>)
    requires Legal(c) && c.epoch > 0
  {
    exists writers: nat, acts: seq<Action> ::
      ValidRun(Before(c), Fresh(Before(c), writers), acts) && Run(Before(c), Fresh(Before(c), writers), acts).mem == mem
  }

  /** A record of the generation before lies at the tail's block offset. */
  ghost predicate Relic(c: Config, s: State, r: Rec) {
    && Legal(c) && c.epoch > 0 && |s.mem| == DATA_BLOCK_OFFSET + c.B && |s.own| == |s.log|
    && Laid(Before(c), s.mem, r, Stage.Published)
    && Offset(c.B, s.tail) == Offset(c.B, r.pos) <= UsableLimit(c.B)
  }

  lemma RelicJudged(c: Config, mem: seq<byte>, r: Rec)
    requires Legal(c) && c.epoch > 0 && |mem| == DATA_BLOCK_OFFSET + c.B && Laid(Before(c), mem, r, Stage.Published)
    ensures var o := HeaderOffset(c.B, r.pos);
            && o + HEADER_SIZE <= |mem| && Word(mem, o) == r.FinalState()
            && Inspect(LittleEndian(r.FinalState(), 4) + mem[o + 4..o + HEADER_SIZE], c.B, c.epoch) == OtherEpoch
  {
    hide Laid, Intact, WellPlaced, Rec.Image, LittleEndian, Word, DecodeHeader, Offset;
    LaidIntact(Before(c), mem, r, Stage.Published);
    MarkedWord(Before(c), mem, r, Stage.Published);
    IntactHeader(mem, c.B, Before(c).epoch, r);
    var o := HeaderOffset(c.B, r.pos);
    assert mem[o..o + HEADER_SIZE] == mem[o..o + 4] + mem[o + 4..o + HEADER_SIZE];
  }

  /** The consumer takes the relic for the record that is reserved there, and flushes. */
  lemma Stumble(c: Config, s0: State, acts: seq<Action>, s: State, r: Rec) returns (acts': seq<Action>, s': State)
    requires Geometry(c.B) && ValidRun(c, s0, acts) && Run(c, s0, acts) == s && Relic(c, s, r) && s.consumer.Looking?
    ensures ValidRun(c, s0, acts') && Run(c, s0, acts') == s' && s' == s.(consumer := Halted(NoRecords))
  {
    hide ValidRun, Run, Laid, Inspect, LittleEndian, Word, Offset;
    RelicJudged(c, s.mem, r);
    acts', s' := Go(c, s0, acts, s, Look);
    acts', s' := Go(c, s0, acts', s', ReadHeader);
  }

  lemma NoActions(c: Config, s0: State)
    requires Geometry(c.B)
    ensures ValidRun(c, s0, []) && Run(c, s0, []) == s0
  {
  }

  lemma FreshIsLevel(c: Config)
    requires Usable(c)
    ensures Level(c, Fresh(c, 1), 0)
  {
    hide Aligned;
    OneByte(c);
    NoMessages();
  }

  lemma LeftBy(c: Config, acts: seq<Action>)
    requires Legal(c) && c.epoch > 0 && ValidRun(Before(c), Fresh(Before(c), 1), acts)
    ensures LeftBehind(c, Run(Before(c), Fresh(Before(c), 1), acts).mem)
  {
  }

  /** A run of the generation before that leaves a message at the block start. */
  lemma OldMessage(c: Config) returns (mem: seq<byte>)
    requires Usable(c) && c.epoch > 0
    ensures |mem| == DATA_BLOCK_OFFSET + c.B && LeftBehind(c, mem) && Laid(Before(c), mem, D1, Stage.Published)
  {
    hide Laid, Messages, ValidRun, Run, Fresh, LeftBehind;
    var b, s0 := Before(c), Fresh(Before(c), 1);
    NoActions(b, s0);
    FreshIsLevel(b);
    var acts, s := Round(b, s0, [], s0, 0);
    LeftBy(c, acts);
    mem := s.mem;
  }

  /** And, in a small block, one that also leaves a filler behind it. */
  lemma OldFiller(c: Config) returns (mem: seq<byte>)
    requires Usable(c) && c.epoch > 0 && c.B < 160
    ensures |mem| == DATA_BLOCK_OFFSET + c.B && LeftBehind(c, mem)
    ensures Laid(Before(c), mem, Wrap(56, c.B - 56), Stage.Published)
  {
    hide Laid, Messages, ValidRun, Run, Fresh, LeftBehind;
    var b, s0 := Before(c), Fresh(Before(c), 1);
    NoActions(b, s0);
    FreshIsLevel(b);
    var acts, s := Round(b, s0, [], s0, 0);
    acts, s := Overtake(b, s0, acts, s, 56);
    LeftBy(c, acts);
    mem := s.mem;
  }

  // ---- Losing a message ----

  /** Where two records can stand side by side: the first is reserved and not yet marked, the second
      is sent, its send succeeds, and the flush over the old header loses it. */
  lemma FlushLoses(c: Config) returns (mem: seq<byte>, acts: seq<Action>)
    requires Usable(c) && c.epoch > 0 && c.B >= 160
    ensures |mem| == DATA_BLOCK_OFFSET + c.B && LeftBehind(c, mem) && ValidRun(c, Restarted(mem, 2), acts)
    ensures var s := Run(c, Restarted(mem, 2), acts);
            && s.head == 112 && s.consumer == Halted(NoRecords) && s.delivered == []
            && |s.log| == 2 && s.log[1] == Data(56, 56, SECOND) && s.returned == map[1 := SendOk]
            && 1 in s.asked && s.asked[1] == SECOND
  {
    hide Laid, LeftBehind, ValidRun, Run, Relic, OnlyIn;
    mem := OldMessage(c);
    var s0 := Restarted(mem, 2);
    NoActions(c, s0);
    var s;
    acts, s := Losing(c, s0);
  }

  lemma Losing(c: Config, s0: State) returns (acts: seq<Action>, s: State)
    requires Usable(c) && c.epoch > 0 && c.B >= 160 && |s0.mem| == DATA_BLOCK_OFFSET + c.B
    requires s0 == Restarted(s0.mem, 2) && Laid(Before(c), s0.mem, D1, Stage.Published)
    requires ValidRun(c, s0, []) && Run(c, s0, []) == s0
    ensures ValidRun(c, s0, acts) && Run(c, s0, acts) == s
    ensures s.head == 112 && s.consumer == Halted(NoRecords) && s.delivered == []
    ensures |s.log| == 2 && s.log[1] == Data(56, 56, SECOND) && s.returned == map[1 := SendOk]
    ensures 1 in s.asked && s.asked[1] == SECOND
  {
    hide ValidRun, Run, Laid, OnlyIn, Reserve, Aligned;
    OneByte(c);
    acts, s := Beginning(c, s0, [], s0, 0, FIRST);
    acts, s := Reserving(c, s0, acts, s, 0);
    ghost var before := s.mem;
    acts, s := Sending(c, s0, acts, s, 1, SECOND);
    LaidElsewhere(Before(c), before, s.mem, D1, Stage.Published, Data(56, 56, SECOND));
    acts, s := Go(c, s0, acts, s, Wake);
    acts, s := Go(c, s0, acts, s, PollHead);
    acts, s := Stumble(c, s0, acts, s, D1);
  }

  /** In a small block: one message is delivered, and behind it a filler is reserved and not yet
      marked when the consumer looks. */
  lemma SmallBlockStumbles(c: Config) returns (mem: seq<byte>, acts: seq<Action>)
    requires Usable(c) && c.epoch > 0 && c.B < 160
    ensures |mem| == DATA_BLOCK_OFFSET + c.B && LeftBehind(c, mem) && ValidRun(c, Restarted(mem, 1), acts)
    ensures var s := Run(c, Restarted(mem, 1), acts); s.head == c.B && s.consumer == Halted(NoRecords)
  {
    hide Laid, LeftBehind, ValidRun, Run, Relic, OnlyIn;
    mem := OldFiller(c);
    var s0 := Restarted(mem, 1);
    NoActions(c, s0);
    var s;
    acts, s := Stumbling(c, s0);
  }

  lemma Stumbling(c: Config, s0: State) returns (acts: seq<Action>, s: State)
    requires Usable(c) && c.epoch > 0 && c.B < 160 && |s0.mem| == DATA_BLOCK_OFFSET + c.B
    requires s0 == Restarted(s0.mem, 1) && Laid(Before(c), s0.mem, Wrap(56, c.B - 56), Stage.Published)
    requires ValidRun(c, s0, []) && Run(c, s0, []) == s0
    ensures ValidRun(c, s0, acts) && Run(c, s0, acts) == s && s.head == c.B && s.consumer == Halted(NoRecords)
  {
    hide ValidRun, Run, Laid, OnlyIn, Reserve, Aligned;
    OneByte(c);
    var filler, first := Wrap(56, c.B - 56), Data(0, 56, FIRST);
    acts, s := Sending(c, s0, [], s0, 0, FIRST);
    LaidElsewhere(Before(c), s0.mem, s.mem, filler, Stage.Published, first);
    acts, s := Go(c, s0, acts, s, Wake);
    acts, s := Go(c, s0, acts, s, PollHead);
    acts, s := Take(c, s0, acts, s, first);
    acts, s := Beginning(c, s0, acts, s, 0, SECOND);
    acts, s := Reserving(c, s0, acts, s, 0);
    acts, s := Go(c, s0, acts, s, PollHead);
    acts, s := Stumble(c, s0, acts, s, filler);
  }

  /** How far the head may go after reinit. */
  lemma UndisturbedExactlyBelow(c: Config, L: nat)
    requires Usable(c) && c.epoch > 0
    ensures UndisturbedUpTo(c, L) <==> L < RestartLimit(c)
  {
    hide Inv, Dormant, LeftBehind;
    if L < RestartLimit(c) {
      forall mem: seq<byte>, writers: nat, acts: seq<Action> |
        |mem| == DATA_BLOCK_OFFSET + c.B && ValidRun(c, Restarted(mem, writers), acts)
        && Run(c, Restarted(mem, writers), acts).head <= L
        ensures Undisturbed(Run(c, Restarted(mem, writers), acts))
      {
        ShortRun(c, mem, writers, acts);
        DeliveredInOrder(c, Run(c, Restarted(mem, writers), acts));
      }
    } else if c.B >= 160 {
      var mem, acts := FlushLoses(c);
      assert !Undisturbed(Run(c, Restarted(mem, 2), acts));
    } else {
      var mem, acts := SmallBlockStumbles(c);
      assert !Undisturbed(Run(c, Restarted(mem, 1), acts));
    }
  }
}
