/** A message that declares an oversized label makes the receive worker stop draining. What that
    does to the promise that a sleeping worker has nothing to read. */
module RingOversized {
  import opened Bytes
  import opened Records
  import opened RingLayout
  import opened RingMachine
  import opened RingInvariant
  import opened RingRuns
  import opened RingScripts
  import opened RingTickets
  import LabelFrame

  const TOO_MUCH := LabelFrame.LabelHeader(MAGIC_NUM, LabelFrame.FRAME_VERSION, 1, LabelFrame.DATA, 7,
      LabelFrame.MAX_LABEL_SIZE + 1, 0)
  const BIG := Msg(1, 7, 0, LabelFrame.Encode(TOO_MUCH, [0, 0, 0, 0]))
  const SMALL := Msg(1, 7, 1, [42])

  /** A posted message waits to be read although the consumer sleeps and no wakeup is pending. */
  predicate Overslept(s: State, k: nat) {
    && s.consumer.Waiting? && s.sem == 0
    && s.read <= k < |s.own| && s.own[k].stage.Posted?
  }

  /** In no run without stale loads does the consumer oversleep. */
  ghost predicate AlwaysAwake(c: Config)
    requires Legal(c)
  {
    forall writers: nat, acts: seq<Action>, k: nat ::
      ValidRun(c, Fresh(c, writers), acts) && NeverStale(c, Fresh(c, writers), acts) ==>
        !Overslept(Run(c, Fresh(c, writers), acts), k)
  }

  lemma Sizes()
    ensures |BIG.payload| == 28 && LabelFrame.DeclaresTooMuch(BIG.payload)
    ensures Reserve(28) == 80 && Reserve(1) == 56 && Aligned(80) && Aligned(0)
  {
    LabelFrame.LabelHeaderRoundTrip(TOO_MUCH, [0, 0, 0, 0]);
    assert BIG.payload[..LabelFrame.LABEL_HEADER_SIZE] == BIG.payload;
    AlignedIsMultiple(80);
    assert (28 + HEADER_SIZE + 8 - 1) / 8 == 10 && (1 + HEADER_SIZE + 8 - 1) / 8 == 7;
  }

  /** An oversized message m is published and not yet posted, a later message n is posted, and its
      wakeup is spent on the first. */
  lemma Oversleeps(c: Config, m: Msg, n: Msg) returns (acts: seq<Action>)
    requires Legal(c) && Sendable(c, m) && Sendable(c, n) && LabelFrame.DeclaresTooMuch(m.payload)
    requires Reserve(|m.payload|) + Reserve(|n.payload|) <= UsableLimit(c.B)
    ensures ValidRun(c, Fresh(c, 2), acts)
    ensures var s := Run(c, Fresh(c, 2), acts);
            s.head <= c.B && Overslept(s, 1) && s.asked == map[0 := m, 1 := n]
  {
    hide Laid, OnlyIn, Reserve, Aligned, LabelFrame.DeclaresTooMuch, Overslept;
    var s0 := Fresh(c, 2);
    assert ValidRun(c, s0, []) && Run(c, s0, []) == s0;
    var s;
    acts, s := Nap(c, s0, m, n);
  }

  lemma Nap(c: Config, s0: State, m: Msg, n: Msg) returns (acts: seq<Action>, s: State)
    requires Legal(c) && Sendable(c, m) && Sendable(c, n) && LabelFrame.DeclaresTooMuch(m.payload)
    requires Reserve(|m.payload|) + Reserve(|n.payload|) <= UsableLimit(c.B)
    requires s0 == Fresh(c, 2) && ValidRun(c, s0, []) && Run(c, s0, []) == s0
    ensures ValidRun(c, s0, acts) && Run(c, s0, acts) == s && s.head <= c.B && Overslept(s, 1)
    ensures s.asked == map[0 := m, 1 := n]
  {
    hide ValidRun, Run, Laid, OnlyIn, Reserve, LabelFrame.DeclaresTooMuch;
    var x, y := Reserve(|m.payload|), Reserve(|n.payload|);
    var first, second := Data(0, x, m), Data(x, y, n);
    PlaceBehind(c, x, y);
    acts, s := Depositing(c, s0, [], s0, 0, m);
    ghost var before := s.mem;
    acts, s := Sending(c, s0, acts, s, 1, n);
    LaidElsewhere(c, before, s.mem, first, Stage.Published, second);
    acts, s := Go(c, s0, acts, s, Wake);
    acts, s := Go(c, s0, acts, s, PollHead);
    acts, s := Take(c, s0, acts, s, first);
  }

  lemma PlaceBehind(c: Config, x: nat, y: nat)
    requires Legal(c) && Aligned(x) && x + y <= UsableLimit(c.B)
    ensures Boundary(c.B, 0) && Boundary(c.B, x) && Offset(c.B, 0) == 0 && Offset(c.B, x) == x
  {
  }

  /** Every message that was ever given to a send is honest about the size of its label. */
  predicate Honest(s: State) {
    forall t <- s.asked :: !LabelFrame.DeclaresTooMuch(s.asked[t].payload)
  }

  lemma HonestIsCalm(s: State)
    requires AskedInv(s) && Honest(s)
    ensures Calm(s.log)
  {
    hide LabelFrame.DeclaresTooMuch;
    assert forall k :: 0 <= k < |s.log| && s.log[k].Data? ==> Given(s.asked, s.own[k].ticket, s.log[k].msg);
  }

  /** Honest traffic never oversleeps. */
  lemma HonestIsAwake(c: Config, writers: nat, acts: seq<Action>, k: nat)
    requires Legal(c) && ValidRun(c, Fresh(c, writers), acts) && NeverStale(c, Fresh(c, writers), acts)
    requires Honest(Run(c, Fresh(c, writers), acts))
    ensures !Overslept(Run(c, Fresh(c, writers), acts), k)
  {
    hide Inv, AskedInv, Honest, Overslept, Stale, Step, Enabled;
    FreshInv(c, writers);
    RestartedAsked(seq(DATA_BLOCK_OFFSET + c.B, _ => 0), writers);
    RunInv(c, Fresh(c, writers), acts);
    RunAsked(c, Fresh(c, writers), acts);
    HonestIsCalm(Run(c, Fresh(c, writers), acts));
    CalmIsAwake(c, Run(c, Fresh(c, writers), acts), k);
  }

  /** Every message is a frame that send_label has built. */
  ghost predicate LabelTraffic(s: State) {
    forall t <- s.asked :: IsFrame(s.asked[t].payload)
  }

  ghost predicate IsFrame(payload: seq<byte>) {
    exists d: LabelFrame.Delivery, pad: LabelFrame.Padding ::
      LabelFrame.Sendable(d.data) && payload == LabelFrame.DataFrame(d, pad)
  }

  lemma LabelTrafficIsHonest(s: State)
    requires LabelTraffic(s)
    ensures Honest(s)
  {
    hide LabelFrame.DeclaresTooMuch;
    forall t | t in s.asked
      ensures !LabelFrame.DeclaresTooMuch(s.asked[t].payload)
    {
      assert IsFrame(s.asked[t].payload);
      var d: LabelFrame.Delivery, pad: LabelFrame.Padding :|
        LabelFrame.Sendable(d.data) && s.asked[t].payload == LabelFrame.DataFrame(d, pad);
      LabelFrame.FramesAreHonest(d, pad);
    }
  }

  /** No run that sends nothing but m and has no stale load oversleeps. */
  ghost predicate AwakeSending(c: Config, m: Msg)
    requires Legal(c)
  {
    forall writers: nat, acts: seq<Action>, k: nat ::
      (&& ValidRun(c, Fresh(c, writers), acts) && NeverStale(c, Fresh(c, writers), acts)
       && OnlySends(Run(c, Fresh(c, writers), acts), m)) ==>
        !Overslept(Run(c, Fresh(c, writers), acts), k)
  }

  predicate OnlySends(s: State, m: Msg) {
    forall t <- s.asked :: s.asked[t] == m
  }

  /** For a message of which two fit the block: sending it oversleeps exactly if it declares an
      oversized label. */
  lemma AwakeSendingExactlyIf(c: Config, m: Msg)
    requires Legal(c) && Sendable(c, m) && 2 * Reserve(|m.payload|) <= UsableLimit(c.B)
    ensures AwakeSending(c, m) <==> !LabelFrame.DeclaresTooMuch(m.payload)
  {
    hide Inv, Stale, Step, Enabled, Overslept, LabelFrame.DeclaresTooMuch, Reserve;
    if LabelFrame.DeclaresTooMuch(m.payload) {
      var acts := Oversleeps(c, m, m);
      FirstLapRun(c, 2, acts);
      assert Overslept(Run(c, Fresh(c, 2), acts), 1);
    } else {
      forall writers: nat, acts: seq<Action>, k: nat |
        && ValidRun(c, Fresh(c, writers), acts) && NeverStale(c, Fresh(c, writers), acts)
        && OnlySends(Run(c, Fresh(c, writers), acts), m)
        ensures !Overslept(Run(c, Fresh(c, writers), acts), k)
      {
        HonestIsAwake(c, writers, acts, k);
      }
    }
  }

  /** In a block that holds two messages, oversleeping is out of the question exactly if messages are
      too short to contain a label header. */
  lemma AwakeExactlyIf(c: Config)
    requires Legal(c) && c.B >= 184
    ensures AlwaysAwake(c) <==> c.maxPayload < LabelFrame.LABEL_HEADER_SIZE
  {
    hide Inv, Stale, Step, Enabled, Overslept;
    if c.maxPayload < LabelFrame.LABEL_HEADER_SIZE {
      forall writers: nat, acts: seq<Action>, k: nat |
        ValidRun(c, Fresh(c, writers), acts) && NeverStale(c, Fresh(c, writers), acts)
        ensures !Overslept(Run(c, Fresh(c, writers), acts), k)
      {
        FreshInv(c, writers);
        RunInv(c, Fresh(c, writers), acts);
        ShortIsCalm(c, Run(c, Fresh(c, writers), acts));
        CalmIsAwake(c, Run(c, Fresh(c, writers), acts), k);
      }
    } else {
      Sizes();
      var acts := Oversleeps(c, BIG, SMALL);
      FirstLapRun(c, 2, acts);
      assert Overslept(Run(c, Fresh(c, 2), acts), 1);
    }
  }

  lemma ShortIsCalm(c: Config, s: State)
    requires Inv(c, s) && c.maxPayload < LabelFrame.LABEL_HEADER_SIZE
    ensures Calm(s.log)
  {
    hide Memory, Stages, Writers, Reader, Awake, Span, Chain;
    forall k | 0 <= k < |s.log| && s.log[k].Data?
      ensures !LabelFrame.DeclaresTooMuch(s.log[k].msg.payload)
    {
      ChainAt(c, s.log, k);
    }
  }

  /** In particular, wakeups are never lost as long as no message declares an oversized label. */
  lemma CalmIsAwake(c: Config, s: State, k: nat)
    requires Inv(c, s) && Calm(s.log)
    ensures !Overslept(s, k)
  {
    hide Memory, Stages, Writers, Reader, Span, Chain, Calm;
  }
}
