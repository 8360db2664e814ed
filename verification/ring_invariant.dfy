/** What every interleaving keeps. */
module RingInvariant {
  import opened Bytes
  import opened Records
  import opened RingLayout
  import opened RingMachine
  import LabelFrame

  /** Where record k begins, or would begin. */
  function At(log: seq<Rec>, k: nat): nat
    requires k <= |log|
  {
    if k == 0 then 0 else log[k - 1].End()
  }

  predicate IsPublished(o: Own) {
    o.stage.Published? || o.stage.Posted?
  }

  /** The writer has nothing left to do for the record. */
  predicate Settled(r: Rec, o: Own) {
    if r.Data? then o.stage.Posted? else o.stage.Published?
  }

  predicate Sendable(c: Config, m: Msg) {
    m.payload != [] && |m.payload| <= c.maxPayload
  }

  /** Reservations follow one another without gaps, each where a record may lie. */
  ghost predicate Chain(c: Config, log: seq<Rec>)
    requires Legal(c)
  {
    log == [] ||
    (var n := |log| - 1;
     && Chain(c, log[..n])
     && log[n].pos == At(log, n) && WellPlaced(c.B, log[n])
     && (log[n].Data? ==> Sendable(c, log[n].msg)))
  }

  lemma {:induction false} ChainAt(c: Config, log: seq<Rec>, k: nat)
    requires Legal(c) && Chain(c, log) && k < |log|
    ensures log[k].pos == At(log, k) && WellPlaced(c.B, log[k])
    ensures log[k].Data? ==> Sendable(c, log[k].msg)
  {
    var n := |log| - 1;
    if k < n {
      ChainAt(c, log[..n], k);
    }
  }

  lemma {:induction false} ChainOrder(c: Config, log: seq<Rec>, j: nat, k: nat)
    requires Legal(c) && Chain(c, log) && j <= k <= |log|
    ensures At(log, j) <= At(log, k)
  {
    if j < k {
      ChainOrder(c, log, j, k - 1);
      ChainAt(c, log, k - 1);
    }
  }

  /** The head is behind the last reservation, the tail behind the last one consumed, and they
      are at most one block apart. */
  ghost predicate Span(c: Config, log: seq<Rec>, read: nat, head: nat, tail: nat) {
    read <= |log| && head == At(log, |log|) && tail == At(log, read) && tail <= head <= tail + c.B
  }

  /** What must stand at the start of a record's slot when it has reached the given stage. */
  function Target(c: Config, r: Rec, stage: Stage): seq<byte> {
    match stage
    case Unmarked => []
    case Filling(n) => LittleEndian(WRITING, 4) + r.Body(c.epoch)[..Min(n, |r.Body(c.epoch)|)]
    case _ => r.Image(c.epoch)
  }

  /** The bytes of record r match its stage. */
  ghost predicate Laid(c: Config, mem: seq<byte>, r: Rec, stage: Stage)
    requires Legal(c) && |mem| == DATA_BLOCK_OFFSET + c.B
  {
    && WellPlaced(c.B, r)
    && (stage.Filling? ==> stage.n <= |r.Body(c.epoch)|)
    && var o, t := HeaderOffset(c.B, r.pos), Target(c, r, stage);
       o + |t| <= |mem| && mem[o..o + |t|] == t
  }

  ghost predicate Memory(c: Config, mem: seq<byte>, log: seq<Rec>, own: seq<Own>, read: nat)
    requires Legal(c) && |mem| == DATA_BLOCK_OFFSET + c.B && |own| == |log|
  {
    forall k :: read <= k < |log| ==> Laid(c, mem, log[k], own[k].stage)
  }

  ghost predicate Stages(log: seq<Rec>, own: seq<Own>, read: nat)
    requires |own| == |log|
  {
    && (forall k :: 0 <= k < |log| && k < read ==> IsPublished(own[k]))
    && (forall k :: 0 <= k < |log| && log[k].Wrap? ==> !own[k].stage.Posted?)
  }

  ghost predicate WriterOk(c: Config, pc: Writer, w: nat, log: seq<Rec>, own: seq<Own>, head: nat, tail: nat)
    requires Legal(c) && |own| == |log|
  {
    match pc
    case Idle => true
    case HeadNeeded(_, m, _) => Sendable(c, m)
    case TailNeeded(_, m, h, _) => Sendable(c, m) && Boundary(c.B, h) && h <= head
    case Swapping(_, m, h, seen, _) =>
      && Sendable(c, m) && Boundary(c.B, h) && h <= head
      && Boundary(c.B, seen) && seen <= tail && seen <= h && h - seen + Reserve(|m.payload|) <= c.B
    case Owner(t, m, k, _) =>
      && Sendable(c, m) && k < |log|
      && own[k].writer == w && own[k].ticket == t && !Settled(log[k], own[k])
      && (log[k].Data? ==> log[k].msg == m)
  }

  predicate OwnedBy(writers: seq<Writer>, w: nat, k: nat) {
    w < |writers| && writers[w].Owner? && writers[w].k == k
  }

  ghost predicate Writers(c: Config, writers: seq<Writer>, log: seq<Rec>, own: seq<Own>, head: nat, tail: nat)
    requires Legal(c) && |own| == |log|
  {
    && (forall w: nat :: w < |writers| ==> WriterOk(c, writers[w], w, log, own, head, tail))
    && (forall k: nat :: k < |log| && !Settled(log[k], own[k]) ==> OwnedBy(writers, own[k].writer, k))
  }

  ghost predicate Reader(c: Config, consumer: Consumer, log: seq<Rec>, own: seq<Own>, read: nat, delivered: seq<Msg>)
    requires |own| == |log| && read <= |log|
  {
    && delivered == Messages(log[..read])
    && (!consumer.Waiting? && !consumer.Polling? ==> read < |log|)
    && match consumer
       case Waiting => true
       case Polling(_) => true
       case Looking(h) => true
       case Reading(word) => IsPublished(own[read]) && word == log[read].FinalState()
       case Skipping(total) => IsPublished(own[read]) && log[read].Wrap? && total == log[read].total
       case Copying(h, buf) =>
         && IsPublished(own[read]) && log[read].Data? && h == log[read].Header(c.epoch)
         && buf <= log[read].msg.payload
       case Halted(_) => false
  }

  /** No message makes the receive worker stop draining. */
  predicate Calm(log: seq<Rec>) {
    forall k :: 0 <= k < |log| && log[k].Data? ==> !LabelFrame.DeclaresTooMuch(log[k].msg.payload)
  }

  /** A consumer asleep with no wakeup pending has no posted record left to read, unless some message
      made it stop draining. */
  ghost predicate Awake(consumer: Consumer, sem: nat, log: seq<Rec>, own: seq<Own>, read: nat) {
    consumer.Waiting? && sem == 0 && Calm(log) ==> forall k :: read <= k < |own| ==> !own[k].stage.Posted?
  }

  ghost predicate Inv(c: Config, s: State) {
    && Legal(c)
    && |s.mem| == DATA_BLOCK_OFFSET + c.B && |s.own| == |s.log|
    && Chain(c, s.log)
    && Span(c, s.log, s.read, s.head, s.tail)
    && Memory(c, s.mem, s.log, s.own, s.read)
    && Stages(s.log, s.own, s.read)
    && Writers(c, s.writers, s.log, s.own, s.head, s.tail)
    && Reader(c, s.consumer, s.log, s.own, s.read, s.delivered)
    && Awake(s.consumer, s.sem, s.log, s.own, s.read)
  }

  lemma FreshInv(c: Config, writers: nat)
    requires Legal(c)
    ensures Inv(c, Fresh(c, writers))
  {
    RestartedInv(c, seq(DATA_BLOCK_OFFSET + c.B, _ => 0), writers);
  }

  /** The invariant asks nothing of the memory of an empty block. */
  lemma RestartedInv(c: Config, mem: seq<byte>, writers: nat)
    requires Legal(c) && |mem| == DATA_BLOCK_OFFSET + c.B
    ensures Inv(c, Restarted(mem, writers))
  {
  }

  /** The head and the tail are places where a record may begin. */
  lemma Ends(c: Config, log: seq<Rec>, read: nat, head: nat, tail: nat)
    requires Legal(c) && Chain(c, log) && Span(c, log, read, head, tail)
    ensures Boundary(c.B, head) && Boundary(c.B, tail)
    ensures read < |log| ==> tail == log[read].pos && tail < head
  {
    AtIsBoundary(c, log, |log|);
    AtIsBoundary(c, log, read);
    if read < |log| {
      ChainAt(c, log, read);
      ChainOrder(c, log, read + 1, |log|);
      PlacedFits(c.B, log[read]);
    }
  }

  lemma AtIsBoundary(c: Config, log: seq<Rec>, k: nat)
    requires Legal(c) && Chain(c, log) && k <= |log|
    ensures Boundary(c.B, At(log, k))
  {
    if k > 0 {
      ChainAt(c, log, k - 1);
      PlacedFits(c.B, log[k - 1]);
    }
  }

  /** One writer moves on without touching anything shared. */
  lemma PrivateMove(c: Config, writers: seq<Writer>, w: nat, pc: Writer, log: seq<Rec>, own: seq<Own>,
      head: nat, tail: nat)
    requires Legal(c) && |own| == |log| && Writers(c, writers, log, own, head, tail)
    requires w < |writers| && !writers[w].Owner? && WriterOk(c, pc, w, log, own, head, tail)
    ensures Writers(c, writers[w := pc], log, own, head, tail)
  {
    forall k: nat | k < |log| && !Settled(log[k], own[k])
      ensures OwnedBy(writers[w := pc], own[k].writer, k)
    {
      assert OwnedBy(writers, own[k].writer, k);
    }
  }

  lemma PrivateInv(c: Config, s: State, w: nat, pc: Writer, s': State)
    requires Inv(c, s) && w < |s.writers| && !s.writers[w].Owner?
    requires WriterOk(c, pc, w, s.log, s.own, s.head, s.tail)
    requires s' == Put(s, w, pc).(nextTicket := s'.nextTicket, returned := s'.returned, asked := s'.asked)
    ensures Inv(c, s')
  {
    hide Memory, Stages, Writers, Reader, Awake, Chain, Span, WriterOk;
    PrivateMove(c, s.writers, w, pc, s.log, s.own, s.head, s.tail);
  }

  lemma BeginInv(c: Config, s: State, w: nat, m: Msg)
    requires Inv(c, s) && Enabled(c, s, Begin(w, m))
    ensures Inv(c, StepBegin(c, s, w, m))
  {
    hide Memory, Stages, Writers, Reader, Awake, Chain, Span, Reserve;
    var s' := StepBegin(c, s, w, m);
    PrivateInv(c, s, w, s'.writers[w], s');
  }

  lemma AgainInv(c: Config, s: State, w: nat, head: nat, tries: nat)
    requires Inv(c, s) && w < |s.writers| && !s.writers[w].Owner? && !s.writers[w].Idle?
    requires Boundary(c.B, head) && head <= s.head
    ensures Inv(c, Again(s, w, s.writers[w].ticket, s.writers[w].msg, head, tries))
  {
    hide Memory, Stages, Writers, Reader, Awake, Chain, Span, Reserve;
    WriterAt(c, s, w);
    var s' := Again(s, w, s.writers[w].ticket, s.writers[w].msg, head, tries);
    PrivateInv(c, s, w, s'.writers[w], s');
  }

  lemma LoadTailInv(c: Config, s: State, w: nat)
    requires Inv(c, s) && w < |s.writers| && s.writers[w].TailNeeded?
    ensures Inv(c, StepLoadTail(c, s, w))
  {
    hide Memory, Stages, Writers, Reader, Awake, Chain, Span, Reserve;
    Ends(c, s.log, s.read, s.head, s.tail);
    WriterAt(c, s, w);
    var s' := StepLoadTail(c, s, w);
    PrivateInv(c, s, w, s'.writers[w], s');
  }

  /** What a winning compare-exchange reserves lies where a record may lie and overruns nothing,
      although the tail it was checked against may be out of date. */
  lemma WantedFits(c: Config, p: Writer, tail: nat)
    requires Legal(c) && p.Swapping? && Boundary(c.B, p.head) && Boundary(c.B, p.seen)
    requires p.seen <= tail && p.seen <= p.head && p.head - p.seen + Reserve(|p.msg.payload|) <= c.B
    ensures var r := Wanted(c, p); WellPlaced(c.B, r) && r.pos == p.head && r.End() <= tail + c.B
  {
    var reserved := Reserve(|p.msg.payload|);
    if Offset(c.B, p.head) + reserved > UsableLimit(c.B) {
      WrapNeverOverruns(c.B, p.head, p.seen, reserved);
    }
  }

  lemma ChainPush(c: Config, log: seq<Rec>, r: Rec)
    requires Legal(c) && Chain(c, log) && WellPlaced(c.B, r) && r.pos == At(log, |log|)
    requires r.Data? ==> Sendable(c, r.msg)
    ensures Chain(c, log + [r])
  {
    assert (log + [r])[..|log|] == log;
  }

  lemma ReserveMove(c: Config, writers: seq<Writer>, w: nat, log: seq<Rec>, own: seq<Own>, head: nat, tail: nat, r: Rec)
    requires Legal(c) && |own| == |log| && Writers(c, writers, log, own, head, tail)
    requires w < |writers| && writers[w].Swapping? && head <= r.End() && (r.Data? ==> r.msg == writers[w].msg)
    ensures var p := writers[w];
            Writers(c, writers[w := Owner(p.ticket, p.msg, |log|, p.tries)], log + [r],
                    own + [Own(w, p.ticket, Unmarked)], r.End(), tail)
  {
    var p := writers[w];
    var writers', log' := writers[w := Owner(p.ticket, p.msg, |log|, p.tries)], log + [r];
    var own' := own + [Own(w, p.ticket, Unmarked)];
    forall v: nat | v < |writers'|
      ensures WriterOk(c, writers'[v], v, log', own', r.End(), tail)
    {
      assert WriterOk(c, writers[v], v, log, own, head, tail);
    }
    forall k: nat | k < |log'| && !Settled(log'[k], own'[k])
      ensures OwnedBy(writers', own'[k].writer, k)
    {
      if k < |log| { assert OwnedBy(writers, own[k].writer, k); }
    }
  }

  /** An unmarked reservation at the end promises nothing about memory and is nobody's to read. */
  lemma MemoryPush(c: Config, mem: seq<byte>, log: seq<Rec>, own: seq<Own>, read: nat, r: Rec, o: Own)
    requires Legal(c) && |mem| == DATA_BLOCK_OFFSET + c.B && |own| == |log|
    requires Memory(c, mem, log, own, read) && Stages(log, own, read) && read <= |log|
    requires WellPlaced(c.B, r) && o.stage.Unmarked?
    ensures Memory(c, mem, log + [r], own + [o], read) && Stages(log + [r], own + [o], read)
  {
    forall k | read <= k < |log + [r]|
      ensures Laid(c, mem, (log + [r])[k], (own + [o])[k].stage)
    {
      if k < |log| { assert Laid(c, mem, log[k], own[k].stage); }
    }
  }

  lemma ReaderPush(c: Config, consumer: Consumer, log: seq<Rec>, own: seq<Own>, read: nat, delivered: seq<Msg>,
      r: Rec, o: Own)
    requires |own| == |log| && read <= |log| && Reader(c, consumer, log, own, read, delivered)
    ensures Reader(c, consumer, log + [r], own + [o], read, delivered)
  {
    assert (log + [r])[..read] == log[..read];
  }

  lemma AwakePush(consumer: Consumer, sem: nat, log: seq<Rec>, own: seq<Own>, read: nat, r: Rec, o: Own)
    requires |own| == |log| && Awake(consumer, sem, log, own, read) && !o.stage.Posted?
    ensures Awake(consumer, sem, log + [r], own + [o], read)
  {
    assert forall k :: 0 <= k < |log| ==> (log + [r])[k] == log[k];
  }

  lemma WriterAt(c: Config, s: State, w: nat)
    requires Inv(c, s) && w < |s.writers|
    ensures WriterOk(c, s.writers[w], w, s.log, s.own, s.head, s.tail)
  {
    hide Memory, Stages, Reader, Awake, Chain, Span, WriterOk;
  }

  lemma ReserveInv(c: Config, s: State, w: nat, r: Rec, s': State)
    requires Inv(c, s) && w < |s.writers| && s.writers[w].Swapping?
    requires WellPlaced(c.B, r) && r.pos == s.head && r.End() <= s.tail + c.B
    requires r.Data? ==> r.msg == s.writers[w].msg
    requires var p := s.writers[w];
             s' == Put(s, w, Owner(p.ticket, p.msg, |s.log|, p.tries))
                   .(head := r.End(), log := s.log + [r], own := s.own + [Own(w, p.ticket, Unmarked)])
    ensures Inv(c, s')
  {
    hide Memory, Stages, Writers, Reader, Awake, Chain, WellPlaced, Laid, Reserve, Boundary;
    WriterAt(c, s, w);
    ChainPush(c, s.log, r);
    ReserveMove(c, s.writers, w, s.log, s.own, s.head, s.tail, r);
    var o := Own(w, s.writers[w].ticket, Unmarked);
    MemoryPush(c, s.mem, s.log, s.own, s.read, r, o);
    ReaderPush(c, s.consumer, s.log, s.own, s.read, s.delivered, r, o);
    AwakePush(s.consumer, s.sem, s.log, s.own, s.read, r, o);
  }

  lemma SwapInv(c: Config, s: State, w: nat, spurious: bool)
    requires Inv(c, s) && w < |s.writers| && s.writers[w].Swapping?
    ensures Inv(c, StepSwap(c, s, w, spurious))
  {
    hide Memory, Stages, Writers, Reader, Awake, Chain, Span, WellPlaced, Laid, Reserve, Boundary;
    Ends(c, s.log, s.read, s.head, s.tail);
    WriterAt(c, s, w);
    var p := s.writers[w];
    if s.head != p.head || spurious {
      AgainInv(c, s, w, s.head, p.tries + 1);
    } else {
      WantedFits(c, p, s.tail);
      ReserveInv(c, s, w, Wanted(c, p), StepSwap(c, s, w, spurious));
    }
  }

  lemma LaidElsewhere(c: Config, mem: seq<byte>, mem': seq<byte>, a: Rec, stage: Stage, b: Rec)
    requires Legal(c) && |mem| == DATA_BLOCK_OFFSET + c.B
    requires WellPlaced(c.B, b) && OnlyIn(mem, mem', c.B, b)
    requires Laid(c, mem, a, stage) && Apart(c.B, a, b)
    ensures Laid(c, mem', a, stage)
  {
    hide WellPlaced, Offset, OnlyIn, Apart, Rec.Body, LittleEndian;
    PlacedFits(c.B, a);
    OtherSlotKept(mem, mem', c.B, a, b);
    var o, n := HeaderOffset(c.B, a.pos), |Target(c, a, stage)|;
    PrefixOfSlice(mem, o, o + a.total, n);
    PrefixOfSlice(mem', o, o + a.total, n);
  }

  function Staged(own: seq<Own>, k: nat, stage: Stage): seq<Own>
    requires k < |own|
  {
    own[k := own[k].(stage := stage)]
  }

  /** A store of the owner of record k inside its slot disturbs no other unconsumed record. */
  lemma MemoryStore(c: Config, mem: seq<byte>, mem': seq<byte>, log: seq<Rec>, own: seq<Own>, read: nat,
      head: nat, tail: nat,
                    k: nat, stage: Stage)
    requires Legal(c) && |mem| == DATA_BLOCK_OFFSET + c.B && |own| == |log|
    requires Chain(c, log) && Span(c, log, read, head, tail) && Memory(c, mem, log, own, read)
    requires read <= k < |log| && OnlyIn(mem, mem', c.B, log[k]) && Laid(c, mem', log[k], stage)
    ensures Memory(c, mem', log, Staged(own, k, stage), read)
  {
    forall j | read <= j < |log|
      ensures Laid(c, mem', log[j], Staged(own, k, stage)[j].stage)
    {
      if j != k {
        assert Laid(c, mem, log[j], own[j].stage);
        UnreadApart(c, log, read, head, tail, j, k);
        LaidElsewhere(c, mem, mem', log[j], own[j].stage, log[k]);
      }
    }
  }

  lemma UnreadApart(c: Config, log: seq<Rec>, read: nat, head: nat, tail: nat, j: nat, k: nat)
    requires Legal(c) && Chain(c, log) && Span(c, log, read, head, tail)
    requires read <= j < |log| && read <= k < |log| && j != k
    ensures WellPlaced(c.B, log[k]) && Apart(c.B, log[j], log[k])
  {
    Within(c, log, read, head, tail, j);
    Within(c, log, read, head, tail, k);
    ChainAt(c, log, k);
    ChainAt(c, log, j);
    if j < k { ChainOrder(c, log, j + 1, k); } else { ChainOrder(c, log, k + 1, j); }
  }

  lemma Within(c: Config, log: seq<Rec>, read: nat, head: nat, tail: nat, j: nat)
    requires Legal(c) && Chain(c, log) && Span(c, log, read, head, tail) && read <= j < |log|
    ensures tail <= log[j].pos && log[j].End() <= head <= tail + c.B
  {
    ChainAt(c, log, j);
    ChainOrder(c, log, read, j);
    ChainOrder(c, log, j + 1, |log|);
  }

  /** The owner of record k advances its stage; it stays the owner until the record is settled. */
  lemma StageMove(c: Config, writers: seq<Writer>, w: nat, pc: Writer, log: seq<Rec>, own: seq<Own>, k: nat,
      stage: Stage,
                  head: nat, tail: nat)
    requires Legal(c) && |own| == |log| && Writers(c, writers, log, own, head, tail)
    requires k < |log| && OwnedBy(writers, w, k)
    requires if Settled(log[k], own[k].(stage := stage))
             then !pc.Owner? && WriterOk(c, pc, w, log, own, head, tail)
             else pc == writers[w]
    ensures Writers(c, writers[w := pc], log, Staged(own, k, stage), head, tail)
  {
    var writers', own' := writers[w := pc], Staged(own, k, stage);
    assert WriterOk(c, writers[w], w, log, own, head, tail);
    forall v: nat | v < |writers'|
      ensures WriterOk(c, writers'[v], v, log, own', head, tail)
    {
      assert WriterOk(c, writers[v], v, log, own, head, tail);
    }
    forall j: nat | j < |log| && !Settled(log[j], own'[j])
      ensures OwnedBy(writers', own'[j].writer, j)
    {
      if j != k { assert OwnedBy(writers, own[j].writer, j); }
    }
  }

  lemma StagesMove(log: seq<Rec>, own: seq<Own>, read: nat, k: nat, stage: Stage)
    requires |own| == |log| && k < |log| && Stages(log, own, read)
    requires IsPublished(own[k]) ==> stage.Published? || stage.Posted?
    requires log[k].Wrap? ==> !stage.Posted?
    ensures Stages(log, Staged(own, k, stage), read)
  {
  }

  lemma ReaderMove(c: Config, consumer: Consumer, log: seq<Rec>, own: seq<Own>, read: nat, delivered: seq<Msg>,
      k: nat, stage: Stage)
    requires |own| == |log| && read <= |log| && k < |log| && Reader(c, consumer, log, own, read, delivered)
    requires IsPublished(own[k]) ==> stage.Published? || stage.Posted?
    ensures Reader(c, consumer, log, Staged(own, k, stage), read, delivered)
  {
  }

  lemma AwakeMove(consumer: Consumer, sem: nat, log: seq<Rec>, own: seq<Own>, read: nat, k: nat, stage: Stage)
    requires k < |own| && !stage.Posted? && Awake(consumer, sem, log, own, read)
    ensures Awake(consumer, sem, log, Staged(own, k, stage), read)
  {
  }

  lemma StoreInv(c: Config, s: State, w: nat, pc: Writer, mem': seq<byte>, stage: Stage, s': State)
    requires Inv(c, s) && Owns(c, s, w)
    requires var k := s.writers[w].k;
             && !IsPublished(s.own[k]) && !stage.Unmarked? && !stage.Posted?
             && OnlyIn(s.mem, mem', c.B, s.log[k]) && Laid(c, mem', s.log[k], stage)
             && (if stage.Published? && s.log[k].Wrap?
                 then !pc.Owner? && WriterOk(c, pc, w, s.log, s.own, s.head, s.tail)
                 else pc == s.writers[w])
             && s' == Put(WithStage(s, k, stage), w, pc).(mem := mem', returned := s'.returned)
    ensures Inv(c, s')
  {
    var k := s.writers[w].k;
    assert k >= s.read;
    hide Memory, Stages, Writers, Reader, Awake, Chain, Laid, OnlyIn, WellPlaced, Reserve;
    MemoryStore(c, s.mem, mem', s.log, s.own, s.read, s.head, s.tail, k, stage);
    StageMove(c, s.writers, w, pc, s.log, s.own, k, stage, s.head, s.tail);
    StagesMove(s.log, s.own, s.read, k, stage);
    ReaderMove(c, s.consumer, s.log, s.own, s.read, s.delivered, k, stage);
    AwakeMove(s.consumer, s.sem, s.log, s.own, s.read, k, stage);
  }

  lemma MarkLaid(c: Config, mem: seq<byte>, mem': seq<byte>, r: Rec)
    requires Legal(c) && |mem| == DATA_BLOCK_OFFSET + c.B && WellPlaced(c.B, r)
    requires HeaderOffset(c.B, r.pos) + 4 <= |mem|
    requires mem' == Splice(mem, HeaderOffset(c.B, r.pos), LittleEndian(WRITING, 4))
    ensures Laid(c, mem', r, Filling(0)) && OnlyIn(mem, mem', c.B, r)
  {
    hide Rec.Body, Rec.Image, LittleEndian, Offset, Splice, WellPlaced;
    PlacedFits(c.B, r);
    assert Target(c, r, Filling(0)) == LittleEndian(WRITING, 4);
    SpliceIsLocal(mem, HeaderOffset(c.B, r.pos), LittleEndian(WRITING, 4));
  }

  lemma FillLaid(c: Config, mem: seq<byte>, mem': seq<byte>, r: Rec, i: nat, n: nat)
    requires Legal(c) && |mem| == DATA_BLOCK_OFFSET + c.B
    requires Laid(c, mem, r, Filling(i)) && i + n <= |r.Body(c.epoch)|
    requires HeaderOffset(c.B, r.pos) + 4 + i + n <= |mem|
    requires mem' == Splice(mem, HeaderOffset(c.B, r.pos) + 4 + i, r.Body(c.epoch)[i..i + n])
    ensures Laid(c, mem', r, Filling(i + n)) && OnlyIn(mem, mem', c.B, r)
  {
    hide Rec.Body, Rec.Image, LittleEndian, WellPlaced, Offset, Splice;
    PlacedFits(c.B, r);
    var piece, t := r.Body(c.epoch)[i..i + n], Target(c, r, Filling(i));
    assert Target(c, r, Filling(i + n)) == t + piece;
    assert |t| == 4 + i;
    StretchExtended(mem, HeaderOffset(c.B, r.pos), t, piece);
  }

  lemma PublishLaid(c: Config, mem: seq<byte>, mem': seq<byte>, r: Rec)
    requires Legal(c) && |mem| == DATA_BLOCK_OFFSET + c.B
    requires Laid(c, mem, r, Filling(|r.Body(c.epoch)|))
    requires HeaderOffset(c.B, r.pos) + 4 <= |mem|
    requires mem' == Splice(mem, HeaderOffset(c.B, r.pos), LittleEndian(r.FinalState(), 4))
    ensures Laid(c, mem', r, Stage.Published) && OnlyIn(mem, mem', c.B, r)
  {
    hide Rec.Body, LittleEndian, WellPlaced, Offset, Splice;
    PlacedFits(c.B, r);
    var body, word := r.Body(c.epoch), LittleEndian(r.FinalState(), 4);
    assert Target(c, r, Filling(|body|)) == LittleEndian(WRITING, 4) + body;
    assert Target(c, r, Stage.Published) == word + body;
    WordReplaced(mem, HeaderOffset(c.B, r.pos), LittleEndian(WRITING, 4), word, body);
  }

  /** A record that its owner has not published is still ahead of the consumer. */
  lemma UnpublishedIsUnread(c: Config, s: State, w: nat)
    requires Inv(c, s) && Owns(c, s, w) && !IsPublished(s.own[s.writers[w].k])
    ensures var k := s.writers[w].k;
            && s.read <= k && Laid(c, s.mem, s.log[k], s.own[k].stage)
            && HeaderOffset(c.B, s.log[k].pos) + s.log[k].total <= |s.mem|
            && HEADER_SIZE + |s.log[k].Payload()| <= s.log[k].total
            && s.log[k].End() <= s.head && Boundary(c.B, s.log[k].End())
            && WriterOk(c, s.writers[w], w, s.log, s.own, s.head, s.tail)
  {
    var k := s.writers[w].k;
    assert s.read <= k;
    Within(c, s.log, s.read, s.head, s.tail, k);
    PlacedFits(c.B, s.log[k]);
  }

  lemma MarkInv(c: Config, s: State, w: nat)
    requires Inv(c, s) && Enabled(c, s, Mark(w))
    ensures Inv(c, StepMark(c, s, w))
  {
    hide Memory, Stages, Writers, Reader, Awake, Chain, Laid, OnlyIn, WellPlaced, Reserve, Splice, Rec.Body;
    UnpublishedIsUnread(c, s, w);
    var s' := StepMark(c, s, w);
    MarkLaid(c, s.mem, s'.mem, s.log[s.writers[w].k]);
    StoreInv(c, s, w, s.writers[w], s'.mem, Filling(0), s');
  }

  lemma FillInv(c: Config, s: State, w: nat, n: nat)
    requires Inv(c, s) && Enabled(c, s, Fill(w, n))
    ensures Inv(c, StepFill(c, s, w, n))
  {
    hide Memory, Stages, Writers, Reader, Awake, Chain, Laid, OnlyIn, WellPlaced, Reserve, Splice, Rec.Body;
    UnpublishedIsUnread(c, s, w);
    var s' := StepFill(c, s, w, n);
    var k := s.writers[w].k;
    FillLaid(c, s.mem, s'.mem, s.log[k], s.own[k].stage.n, n);
    StoreInv(c, s, w, s.writers[w], s'.mem, s'.own[k].stage, s');
  }

  lemma PublishInv(c: Config, s: State, w: nat)
    requires Inv(c, s) && Enabled(c, s, Publish(w))
    ensures Inv(c, StepPublish(c, s, w))
  {
    hide Memory, Stages, Writers, Reader, Awake, Chain, Laid, OnlyIn, WellPlaced, Reserve, Splice, Rec.Body;
    UnpublishedIsUnread(c, s, w);
    var s' := StepPublish(c, s, w);
    PublishLaid(c, s.mem, s'.mem, s.log[s.writers[w].k]);
    StoreInv(c, s, w, s'.writers[w], s'.mem, Stage.Published, s');
  }

  lemma PostInv(c: Config, s: State, w: nat)
    requires Inv(c, s) && Enabled(c, s, Post(w))
    ensures Inv(c, Step(c, s, Post(w)))
  {
    hide Memory, Stages, Writers, Reader, Chain, Calm, Laid, WellPlaced, Reserve;
    WriterAt(c, s, w);
    var p := s.writers[w];
    StageMove(c, s.writers, w, Idle, s.log, s.own, p.k, Posted, s.head, s.tail);
    MemoryPosted(c, s.mem, s.log, s.own, s.read, p.k);
    StagesMove(s.log, s.own, s.read, p.k, Posted);
    ReaderMove(c, s.consumer, s.log, s.own, s.read, s.delivered, p.k, Posted);
  }

  lemma MemoryPosted(c: Config, mem: seq<byte>, log: seq<Rec>, own: seq<Own>, read: nat, k: nat)
    requires Legal(c) && |mem| == DATA_BLOCK_OFFSET + c.B && |own| == |log| && Memory(c, mem, log, own, read)
    requires k < |log| && own[k].stage.Published?
    ensures Memory(c, mem, log, Staged(own, k, Posted), read)
  {
    forall j | read <= j < |log|
      ensures Laid(c, mem, log[j], Staged(own, k, Posted)[j].stage)
    {
      assert Laid(c, mem, log[j], own[j].stage);
    }
  }

  lemma LoadHeadInv(c: Config, s: State, w: nat)
    requires Inv(c, s) && Enabled(c, s, LoadHead(w))
    ensures Inv(c, Step(c, s, LoadHead(w)))
  {
    hide Memory, Stages, Writers, Reader, Awake, Chain, Span, Laid, Boundary;
    WriterAt(c, s, w);
    Ends(c, s.log, s.read, s.head, s.tail);
    AgainInv(c, s, w, s.head, s.writers[w].tries);
  }

  /** The consumer goes to sleep only when it has read everything there was. */
  lemma PollHeadInv(c: Config, s: State)
    requires Inv(c, s) && s.consumer.Polling?
    ensures Inv(c, StepPollHead(s))
  {
    hide Memory, Stages, Writers, Reader, Awake, Chain, Calm;
    Ends(c, s.log, s.read, s.head, s.tail);
    Polled(c, s, StepPollHead(s));
  }

  lemma Polled(c: Config, s: State, s': State)
    requires |s.own| == |s.log| && s.read <= |s.log| && s.consumer.Polling? && s' == StepPollHead(s)
    requires s.tail <= s.head && (s.read == |s.log| <==> s.tail == s.head)
    requires Reader(c, s.consumer, s.log, s.own, s.read, s.delivered)
    ensures Reader(c, s'.consumer, s.log, s.own, s.read, s.delivered) && Awake(s'.consumer, s.sem, s.log, s.own, s.read)
  {
  }

  lemma WakeInv(c: Config, s: State)
    requires Inv(c, s) && Enabled(c, s, Wake)
    ensures Inv(c, Step(c, s, Wake))
  {
    hide Memory, Stages, Writers, Reader, Chain, Calm;
    Woken(c, s.log, s.own, s.read, s.delivered);
  }

  lemma Woken(c: Config, log: seq<Rec>, own: seq<Own>, read: nat, delivered: seq<Msg>)
    requires |own| == |log| && read <= |log| && Reader(c, Waiting, log, own, read, delivered)
    ensures Reader(c, Polling(true), log, own, read, delivered)
  {
  }

  /** A marked record shows WRITING until it is published, and its final state from then on. */
  lemma MarkedWord(c: Config, mem: seq<byte>, r: Rec, stage: Stage)
    requires Legal(c) && |mem| == DATA_BLOCK_OFFSET + c.B && Laid(c, mem, r, stage) && !stage.Unmarked?
    ensures HeaderOffset(c.B, r.pos) + 4 <= |mem|
    ensures mem[HeaderOffset(c.B, r.pos)..HeaderOffset(c.B, r.pos) + 4]
            == LittleEndian(if stage.Filling? then WRITING else r.FinalState(), 4)
    ensures Word(mem, HeaderOffset(c.B, r.pos)) == if stage.Filling? then WRITING else r.FinalState()
  {
    hide WellPlaced, Offset, LittleEndian;
    PlacedFits(c.B, r);
    var o, t := HeaderOffset(c.B, r.pos), Target(c, r, stage);
    var first := if stage.Filling? then WRITING else r.FinalState();
    ImageParts(r, c.epoch);
    assert t[..4] == LittleEndian(first, 4);
    PrefixOfSlice(mem, o, o + |t|, 4);
    Widths();
    LittleEndianInverse(first, 4);
  }

  /** The consumer changes only its own variables. */
  lemma ConsumerMove(c: Config, s: State, consumer: Consumer)
    requires Inv(c, s) && !consumer.Waiting? && Reader(c, consumer, s.log, s.own, s.read, s.delivered)
    ensures Inv(c, s.(consumer := consumer))
  {
    hide Memory, Stages, Writers, Reader, Chain, Span;
  }

  /** The record at the tail. */
  lemma AtTail(c: Config, s: State)
    requires Inv(c, s) && s.read < |s.log|
    ensures WellPlaced(c.B, s.log[s.read]) && s.log[s.read].pos == s.tail
    ensures s.log[s.read].Data? ==> Sendable(c, s.log[s.read].msg)
    ensures Laid(c, s.mem, s.log[s.read], s.own[s.read].stage)
  {
    assert Laid(c, s.mem, s.log[s.read], s.own[s.read].stage);
    hide Memory, Stages, Writers, Reader;
    Ends(c, s.log, s.read, s.head, s.tail);
    ChainAt(c, s.log, s.read);
  }

  /** The consumer's load of a state word is sound exactly when it is not stale. */
  lemma LookInv(c: Config, s: State)
    requires Inv(c, s) && Enabled(c, s, Look)
    ensures Inv(c, Step(c, s, Look)) <==> !Stale(c, s)
  {
    hide Memory, Stages, Writers, Chain, Laid, Awake;
    AtTail(c, s);
    var s', stage := Step(c, s, Look), s.own[s.read].stage;
    if !stage.Unmarked? { MarkedWord(c, s.mem, s.log[s.read], stage); }
    if !Stale(c, s) { ConsumerMove(c, s, s'.consumer); }
  }

  lemma LaidIntact(c: Config, mem: seq<byte>, r: Rec, stage: Stage)
    requires Legal(c) && |mem| == DATA_BLOCK_OFFSET + c.B && Laid(c, mem, r, stage)
        && (stage.Published? || stage.Posted?)
    ensures WellPlaced(c.B, r) && Intact(mem, c.B, c.epoch, r)
  {
    hide WellPlaced, Rec.Body, Rec.Image;
  }

  lemma ReadHeaderJudges(c: Config, mem: seq<byte>, r: Rec, stage: Stage)
    requires Legal(c) && |mem| == DATA_BLOCK_OFFSET + c.B && Laid(c, mem, r, stage)
        && (stage.Published? || stage.Posted?)
    ensures var o := HeaderOffset(c.B, r.pos);
            o + HEADER_SIZE <= |mem| &&
            Inspect(LittleEndian(r.FinalState(), 4) + mem[o + 4..o + HEADER_SIZE], c.B, c.epoch) == Judge(r, c.epoch)
  {
    hide Inspect, Judge, Laid, Intact, WellPlaced, Rec.Image;
    LaidIntact(c, mem, r, stage);
    PlacedFits(c.B, r);
    MarkedWord(c, mem, r, stage);
    InspectIntact(mem, c.B, c.epoch, r);
    var o := HeaderOffset(c.B, r.pos);
    assert mem[o..o + HEADER_SIZE] == mem[o..o + 4] + mem[o + 4..o + HEADER_SIZE];
  }

  lemma ReadHeaderInv(c: Config, s: State)
    requires Inv(c, s) && Enabled(c, s, ReadHeader)
    ensures Inv(c, Step(c, s, ReadHeader))
  {
    hide Memory, Stages, Writers, Chain, Laid, Awake, Inspect;
    AtTail(c, s);
    ReadHeaderJudges(c, s.mem, s.log[s.read], s.own[s.read].stage);
    ConsumerMove(c, s, Judged(c, s));
  }

  lemma CopiedPiece(c: Config, mem: seq<byte>, r: Rec, stage: Stage, i: nat, n: nat)
    requires Legal(c) && |mem| == DATA_BLOCK_OFFSET + c.B && Laid(c, mem, r, stage)
        && (stage.Published? || stage.Posted?)
    requires i + n <= |r.Payload()| && DataOffset(c.B, r.pos) + i + n <= |mem|
    ensures mem[DataOffset(c.B, r.pos) + i..DataOffset(c.B, r.pos) + i + n] == r.Payload()[i..i + n]
  {
    hide Laid, Intact, Rec.Image, WellPlaced;
    LaidIntact(c, mem, r, stage);
    IntactPayload(mem, c.B, c.epoch, r);
    var o, payload := DataOffset(c.B, r.pos), r.Payload();
    assert payload[i..i + n] == mem[o..o + |payload|][i..i + n];
  }

  lemma CopyInv(c: Config, s: State, n: nat)
    requires Inv(c, s) && Enabled(c, s, Copy(n))
    ensures Inv(c, Step(c, s, Copy(n)))
  {
    hide Memory, Stages, Writers, Chain, Laid, Awake, Span, WellPlaced, Offset;
    SpanRead(c, s.log, s.read, s.head, s.tail);
    AtTail(c, s);
    var r, buf := s.log[s.read], s.consumer.buf;
    CopiedPiece(c, s.mem, r, s.own[s.read].stage, |buf|, n);
    NextPiece(r.msg.payload, buf, n);
    ConsumerMove(c, s, Step(c, s, Copy(n)).consumer);
  }

  lemma SpanRead(c: Config, log: seq<Rec>, read: nat, head: nat, tail: nat)
    requires Span(c, log, read, head, tail)
    ensures read <= |log|
  {
  }

  lemma NextPiece(payload: seq<byte>, buf: seq<byte>, n: nat)
    requires buf <= payload && |buf| + n <= |payload|
    ensures buf + payload[|buf|..|buf| + n] <= payload
  {
    assert payload[..|buf| + n] == payload[..|buf|] + payload[|buf|..|buf| + n];
  }

  /** The consumer moves past the published record at the tail. */
  lemma ConsumeInv(c: Config, s: State, s': State)
    requires Inv(c, s) && s.read < |s.log| && IsPublished(s.own[s.read])
    requires s'.consumer.Polling? || (s'.consumer.Waiting? && !Calm(s.log))
    requires s' == s.(tail := s.tail + s.log[s.read].total, read := s.read + 1, consumer := s'.consumer,
        delivered := s'.delivered)
    requires s'.delivered == Messages(s.log[..s.read + 1])
    ensures Inv(c, s')
  {
    hide Memory, Stages, Writers, Reader, Chain, Span, Calm;
    SpanNext(c, s.log, s.read, s.head, s.tail);
    MemoryNext(c, s.mem, s.log, s.own, s.read);
    StagesNext(s.log, s.own, s.read);
    ReaderNext(c, s'.consumer, s.log, s.own, s'.read, s'.delivered);
    TailMove(c, s.writers, s.log, s.own, s.head, s.tail, s'.tail);
  }

  lemma SpanNext(c: Config, log: seq<Rec>, read: nat, head: nat, tail: nat)
    requires Legal(c) && Chain(c, log) && Span(c, log, read, head, tail) && read < |log|
    ensures Span(c, log, read + 1, head, tail + log[read].total)
  {
    hide WellPlaced;
    ChainAt(c, log, read);
    ChainOrder(c, log, read + 1, |log|);
  }

  lemma MemoryNext(c: Config, mem: seq<byte>, log: seq<Rec>, own: seq<Own>, read: nat)
    requires Legal(c) && |mem| == DATA_BLOCK_OFFSET + c.B && |own| == |log| && Memory(c, mem, log, own, read)
    ensures Memory(c, mem, log, own, read + 1)
  {
    hide Laid;
  }

  lemma StagesNext(log: seq<Rec>, own: seq<Own>, read: nat)
    requires |own| == |log| && Stages(log, own, read) && read < |log| && IsPublished(own[read])
    ensures Stages(log, own, read + 1)
  {
  }

  lemma ReaderNext(c: Config, consumer: Consumer, log: seq<Rec>, own: seq<Own>, read: nat, delivered: seq<Msg>)
    requires |own| == |log| && read <= |log| && (consumer.Polling? || consumer.Waiting?)
    requires delivered == Messages(log[..read])
    ensures Reader(c, consumer, log, own, read, delivered)
  {
  }

  lemma TailMove(c: Config, writers: seq<Writer>, log: seq<Rec>, own: seq<Own>, head: nat, tail: nat, tail': nat)
    requires Legal(c) && |own| == |log| && Writers(c, writers, log, own, head, tail) && tail <= tail'
    ensures Writers(c, writers, log, own, head, tail')
  {
    forall w: nat | w < |writers|
      ensures WriterOk(c, writers[w], w, log, own, head, tail')
    {
      assert WriterOk(c, writers[w], w, log, own, head, tail);
    }
  }

  lemma MessagesUpTo(log: seq<Rec>, read: nat)
    requires read < |log|
    ensures Messages(log[..read + 1]) == Messages(log[..read]) + (if log[read].Data? then [log[read].msg] else [])
  {
    MessagesPush(log[..read], log[read]);
    assert log[..read + 1] == log[..read] + [log[read]];
  }

  lemma SkipInv(c: Config, s: State)
    requires Inv(c, s) && Enabled(c, s, Skip)
    ensures Inv(c, Step(c, s, Skip))
  {
    hide Memory, Stages, Writers, Chain, Span, Awake, Messages;
    MessagesUpTo(s.log, s.read);
    var s' := Step(c, s, Skip);
    ConsumeInv(c, s, s');
  }

  lemma AdvanceInv(c: Config, s: State)
    requires Inv(c, s) && Enabled(c, s, Advance)
    ensures Inv(c, Step(c, s, Advance))
  {
    hide Memory, Stages, Writers, Chain, Span, Awake, Messages;
    MessagesUpTo(s.log, s.read);
    var s', m := Step(c, s, Advance), s.log[s.read].msg;
    assert s.consumer.buf == m.payload;
    ConsumeInv(c, s, s');
  }

  /** Every step keeps the invariant unless it is a stale look. */
  lemma StepInv(c: Config, s: State, a: Action)
    requires Inv(c, s) && Enabled(c, s, a) && (a.Look? ==> !Stale(c, s))
    ensures Inv(c, Step(c, s, a))
  {
    hide Inv;
    match a
    case Begin(w, m) => BeginInv(c, s, w, m);
    case LoadHead(w) => LoadHeadInv(c, s, w);
    case LoadTail(w) => LoadTailInv(c, s, w);
    case Swap(w, spurious) => SwapInv(c, s, w, spurious);
    case Mark(w) => MarkInv(c, s, w);
    case Fill(w, n) => FillInv(c, s, w, n);
    case Publish(w) => PublishInv(c, s, w);
    case Post(w) => PostInv(c, s, w);
    case Wake => WakeInv(c, s);
    case PollHead => PollHeadInv(c, s);
    case Look => LookInv(c, s);
    case ReadHeader => ReadHeaderInv(c, s);
    case Skip => SkipInv(c, s);
    case Copy(n) => CopyInv(c, s, n);
    case Advance => AdvanceInv(c, s);
  }
}
