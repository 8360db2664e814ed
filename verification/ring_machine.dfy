/** The shared block under concurrency: any number of writers inside ShmSend::send and one
    consumer inside the drain loop of the receive worker, interleaved one access to shared memory at a
    time, where reading the fields of a record header is one access. A run is a list of actions; a
    compare-exchange may fail for no reason. */
module RingMachine {
  import opened Bytes
  import opened Records
  import opened RingLayout
  import opened ShmResults
  import LabelFrame

  /** Block size, the generation in force, and the size of the consumer's buffer. */
  datatype Config = Config(B: nat, epoch: nat, maxPayload: nat)

  ghost predicate Legal(c: Config) {
    Geometry(c.B) && c.epoch < TWO_TO_THE_64
  }

  /** How far the writer that reserved a record has come with it. */
  datatype Stage =
    | Unmarked          // head moved, nothing stored in the record yet
    | Filling(n: nat)   // state word is WRITING and n bytes behind it are in place
    | Published         // final state word stored
    | Posted            // data only: semaphore posted, send has returned

  /** Who reserved a record, for which send, and its stage. */
  datatype Own = Own(writer: nat, ticket: nat, stage: Stage)

  /** Where a thread stands in send: the local head, the tail it saw, passes of the loop so far. */
  datatype Writer =
    | Idle
    | HeadNeeded(ticket: nat, msg: Msg, tries: nat)
    | TailNeeded(ticket: nat, msg: Msg, head: nat, tries: nat)
    | Swapping(ticket: nat, msg: Msg, head: nat, seen: nat, tries: nat)
    | Owner(ticket: nat, msg: Msg, k: nat, tries: nat)

  /** Where the consumer stands between two accesses to shared memory. */
  datatype Consumer =
    | Waiting
    | Polling(entering: bool)                       // about to load the head, at the start of recv or after a filler
    | Looking(head: nat)                            // about to load the state word at the tail
    | Reading(word: nat)                            // about to read the rest of that header
    | Skipping(total: nat)                          // about to move the tail past a filler
    | Copying(header: RecordHeader, buf: seq<byte>) // copying the payload out; moves the tail when done
    | Halted(err: RecvErr)                          // about to re-initialise, flush or give up

  /** log[k] and own[k] stand for what the thread that reserved record k holds in its local variables:
      the record it is writing and how far it has come. Once it has returned they only record history,
      as do read, delivered, nextTicket, returned and asked, which holds what each send was given. */
  datatype State = State(
    mem: seq<byte>, head: nat, tail: nat, sem: nat,
    writers: seq<Writer>, consumer: Consumer,
    log: seq<Rec>, own: seq<Own>, read: nat, delivered: seq<Msg>,
    nextTicket: nat, returned: map<nat, SendErr>, asked: map<nat, Msg>)

  datatype Action =
    | Begin(w: nat, msg: Msg)
    | LoadHead(w: nat)
    | LoadTail(w: nat)
    | Swap(w: nat, spurious: bool)
    | Mark(w: nat)
    | Fill(w: nat, n: nat)
    | Publish(w: nat)
    | Post(w: nat)
    | Wake
    | PollHead
    | Look
    | ReadHeader
    | Skip
    | Copy(n: nat)
    | Advance

  function Word(mem: seq<byte>, at: nat): nat
    requires at + 4 <= |mem|
  {
    FromLittleEndian(mem[at..at + 4])
  }

  /** The consumer loads a state word other than WRITING from a record that was reserved but not
      marked yet: what it sees is left over from an earlier lap. */
  predicate Stale(c: Config, s: State)
    requires Geometry(c.B) && |s.mem| == DATA_BLOCK_OFFSET + c.B && |s.own| == |s.log|
  {
    && s.consumer.Looking? && s.read < |s.log| && s.own[s.read].stage.Unmarked?
    && HeaderOffset(c.B, s.tail) + 4 <= |s.mem| && Word(s.mem, HeaderOffset(c.B, s.tail)) != WRITING
  }

  predicate Enabled(c: Config, s: State, a: Action)
    requires Geometry(c.B)
  {
    && |s.mem| == DATA_BLOCK_OFFSET + c.B && |s.own| == |s.log|
    && match a
       case Begin(w, m) => w < |s.writers| && s.writers[w].Idle? && m.payload != [] && |m.payload| <= c.maxPayload
       case LoadHead(w) => w < |s.writers| && s.writers[w].HeadNeeded?
       case LoadTail(w) => w < |s.writers| && s.writers[w].TailNeeded?
       case Swap(w, _) => w < |s.writers| && s.writers[w].Swapping?
       case Mark(w) => Owns(c, s, w) && s.own[s.writers[w].k].stage.Unmarked?
       case Fill(w, n) =>
         && Owns(c, s, w) && s.own[s.writers[w].k].stage.Filling?
         && 0 < n <= |s.log[s.writers[w].k].Body(c.epoch)| - s.own[s.writers[w].k].stage.n
       case Publish(w) =>
         && Owns(c, s, w) && s.own[s.writers[w].k].stage.Filling?
         && s.own[s.writers[w].k].stage.n == |s.log[s.writers[w].k].Body(c.epoch)|
       case Post(w) => Owns(c, s, w) && s.own[s.writers[w].k].stage.Published?
       case Wake => s.consumer.Waiting? && s.sem > 0
       case PollHead => s.consumer.Polling?
       case Look => s.consumer.Looking? && Offset(c.B, s.tail) <= UsableLimit(c.B)
       case ReadHeader => s.consumer.Reading? && Offset(c.B, s.tail) <= UsableLimit(c.B)
       case Skip => s.consumer.Skipping?
       case Copy(n) =>
         && s.consumer.Copying?
         && 0 < n <= s.consumer.header.payloadSize - |s.consumer.buf|
         && DataOffset(c.B, s.tail) + |s.consumer.buf| + n <= |s.mem|
       case Advance => s.consumer.Copying? && |s.consumer.buf| == s.consumer.header.payloadSize
  }

  predicate Owns(c: Config, s: State, w: nat)
    requires Geometry(c.B) && |s.own| == |s.log|
  {
    w < |s.writers| && s.writers[w].Owner? && s.writers[w].k < |s.log| && WellPlaced(c.B, s.log[s.writers[w].k])
  }

  function Put(s: State, w: nat, pc: Writer): State
    requires w < |s.writers|
  {
    s.(writers := s.writers[w := pc])
  }

  /** send returns. */
  function Return(s: State, w: nat, ticket: nat, err: SendErr): State
    requires w < |s.writers|
  {
    Put(s, w, Idle).(returned := s.returned[ticket := err])
  }

  /** Another pass of the loop with the given local head, if there is one left. */
  function Again(s: State, w: nat, ticket: nat, msg: Msg, head: nat, tries: nat): State
    requires w < |s.writers|
  {
    if tries < MAX_TRIES then Put(s, w, TailNeeded(ticket, msg, head, tries))
    else Return(s, w, ticket, CouldNotAllocate)
  }

  function WithStage(s: State, k: nat, stage: Stage): State
    requires k < |s.own|
  {
    s.(own := s.own[k := s.own[k].(stage := stage)])
  }

  function Step(c: Config, s: State, a: Action): State
    requires Geometry(c.B) && Enabled(c, s, a)
  {
    match a
    case Begin(w, m) => StepBegin(c, s, w, m)
    case LoadHead(w) =>
      var p := s.writers[w];
      Again(s, w, p.ticket, p.msg, s.head, p.tries)
    case LoadTail(w) => StepLoadTail(c, s, w)
    case Swap(w, spurious) => StepSwap(c, s, w, spurious)
    case Mark(w) => StepMark(c, s, w)
    case Fill(w, n) => StepFill(c, s, w, n)
    case Publish(w) => StepPublish(c, s, w)
    case Post(w) =>
      var p := s.writers[w];
      Return(WithStage(s, p.k, Posted).(sem := s.sem + 1), w, p.ticket, SendOk)
    case Wake => s.(sem := s.sem - 1, consumer := Polling(true))
    case PollHead => StepPollHead(s)
    case Look =>
      var word := Word(s.mem, HeaderOffset(c.B, s.tail));
      s.(consumer := if word == WRITING then Polling(true) else Reading(word))
    case ReadHeader => s.(consumer := Judged(c, s))
    case Skip => s.(tail := s.tail + s.consumer.total, read := s.read + 1, consumer := Polling(false))
    case Copy(n) =>
      var buf := s.consumer.buf;
      var from := DataOffset(c.B, s.tail) + |buf|;
      s.(consumer := Copying(s.consumer.header, buf + s.mem[from..from + n]))
    case Advance =>
      var h := s.consumer.header;
      s.(tail := s.tail + h.totalSize, read := s.read + 1, consumer := AfterMessage(s.consumer.buf),
         delivered := s.delivered + [Msg(h.sourceId, h.labelId, h.userSeq, s.consumer.buf)])
  }

  /** The receive worker goes on draining unless the message declares an oversized label. */
  function AfterMessage(payload: seq<byte>): Consumer {
    if LabelFrame.DeclaresTooMuch(payload) then Waiting else Polling(true)
  }

  function StepBegin(c: Config, s: State, w: nat, m: Msg): State
    requires w < |s.writers|
  {
    var t := s.(nextTicket := s.nextTicket + 1, asked := s.asked[s.nextTicket := m]);
    if Reserve(|m.payload|) > c.B then Return(t, w, s.nextTicket, SizeTooLarge)
    else Put(t, w, HeadNeeded(s.nextTicket, m, 0))
  }

  function StepLoadTail(c: Config, s: State, w: nat): State
    requires Geometry(c.B) && w < |s.writers| && s.writers[w].TailNeeded?
  {
    var p := s.writers[w];
    if p.head < s.tail then Put(s, w, HeadNeeded(p.ticket, p.msg, p.tries + 1))
    else if p.head - s.tail + Reserve(|p.msg.payload|) > c.B then Return(s, w, p.ticket, NotEnoughSpace)
    else if Offset(c.B, p.head) > UsableLimit(c.B) then Return(s, w, p.ticket, AllocatorCorrupted)
    else Put(s, w, Swapping(p.ticket, p.msg, p.head, s.tail, p.tries))
  }

  /** What the writer reserves if its compare-exchange succeeds. */
  function Wanted(c: Config, p: Writer): Rec
    requires Geometry(c.B) && p.Swapping?
  {
    var reserved := Reserve(|p.msg.payload|);
    if Offset(c.B, p.head) + reserved > UsableLimit(c.B) then Wrap(p.head, c.B - Offset(c.B, p.head))
    else Data(p.head, reserved, p.msg)
  }

  function StepSwap(c: Config, s: State, w: nat, spurious: bool): State
    requires Geometry(c.B) && w < |s.writers| && s.writers[w].Swapping?
  {
    var p := s.writers[w];
    if s.head != p.head || spurious then Again(s, w, p.ticket, p.msg, s.head, p.tries + 1)
    else
      var r := Wanted(c, p);
      Put(s, w, Owner(p.ticket, p.msg, |s.log|, p.tries))
      .(head := r.End(), log := s.log + [r], own := s.own + [Own(w, p.ticket, Unmarked)])
  }

  function StepMark(c: Config, s: State, w: nat): State
    requires Geometry(c.B) && |s.mem| == DATA_BLOCK_OFFSET + c.B && |s.own| == |s.log| && Owns(c, s, w)
  {
    var k := s.writers[w].k;
    PlacedFits(c.B, s.log[k]);
    WithStage(s, k, Filling(0)).(mem := Splice(s.mem, HeaderOffset(c.B, s.log[k].pos), LittleEndian(WRITING, 4)))
  }

  function StepFill(c: Config, s: State, w: nat, n: nat): State
    requires Geometry(c.B) && Enabled(c, s, Fill(w, n))
  {
    var k := s.writers[w].k;
    var r, i := s.log[k], s.own[k].stage.n;
    PlacedFits(c.B, r);
    WithStage(s, k, Filling(i + n))
    .(mem := Splice(s.mem, HeaderOffset(c.B, r.pos) + 4 + i, r.Body(c.epoch)[i..i + n]))
  }

  function StepPublish(c: Config, s: State, w: nat): State
    requires Geometry(c.B) && |s.mem| == DATA_BLOCK_OFFSET + c.B && |s.own| == |s.log| && Owns(c, s, w)
  {
    var p := s.writers[w];
    var r := s.log[p.k];
    PlacedFits(c.B, r);
    var t := WithStage(s, p.k, Published)
             .(mem := Splice(s.mem, HeaderOffset(c.B, r.pos), LittleEndian(r.FinalState(), 4)));
    if r.Wrap? then Again(t, w, p.ticket, p.msg, r.End(), p.tries + 1) else t
  }

  function StepPollHead(s: State): State
    requires s.consumer.Polling?
  {
    s.(consumer := if s.head > s.tail then Looking(s.head)
                   else if s.head < s.tail && s.consumer.entering then Halted(TailCorruption)
                   else Waiting)
  }

  /** The consumer's reaction to the header at the tail, given the state word it loaded before. */
  function Judged(c: Config, s: State): Consumer
    requires Geometry(c.B) && |s.mem| == DATA_BLOCK_OFFSET + c.B
    requires s.consumer.Reading? && Offset(c.B, s.tail) <= UsableLimit(c.B)
  {
    var at := HeaderOffset(c.B, s.tail);
    var bytes := LittleEndian(s.consumer.word, 4) + s.mem[at + 4..at + HEADER_SIZE];
    match Inspect(bytes, c.B, c.epoch)
    case Unpublished => Halted(NotYetPublished)
    case Corrupt => Halted(BlockCorrupted)
    case OtherEpoch => Halted(NoRecords)
    case Unknown => Halted(UnknownError)
    case Filler(total) => Skipping(total)
    case Ripe(h) => if h.payloadSize > c.maxPayload then Halted(LabelTooLarge) else Copying(h, [])
  }

  /** The action is a compare-exchange that succeeds. */
  predicate Wins(s: State, a: Action) {
    a.Swap? && a.w < |s.writers| && s.writers[a.w].Swapping? && s.head == s.writers[a.w].head && !a.spurious
  }

  /** Only a successful compare-exchange moves the head and makes a reservation; nothing undoes one. */
  lemma StepShape(c: Config, s: State, a: Action)
    requires Geometry(c.B) && Enabled(c, s, a)
    ensures var s' := Step(c, s, a);
            if Wins(s, a)
            then var r := Wanted(c, s.writers[a.w]);
                 && s'.head == r.End() && r.pos == s.head && s'.log == s.log + [r]
                 && s'.own == s.own + [Own(a.w, s.writers[a.w].ticket, Unmarked)]
            else s'.head == s.head && s'.log == s.log && SameOwners(s.own, s'.own)
    ensures Step(c, s, a).own != s.own ==> a.Swap? || a.Mark? || a.Fill? || a.Publish? || a.Post?
  {
    hide WellPlaced, Reserve, Splice, Rec.Body, Offset, Word, Inspect, Aligned;
  }

  /** A thread is inside the same send as before, or outside. */
  predicate Continues(pc: Writer, pc': Writer) {
    !pc'.Idle? ==> !pc.Idle? && pc'.ticket == pc.ticket && pc'.msg == pc.msg
  }

  /** A thread inside send keeps its ticket and its message until it returns. */
  ghost predicate SameSends(s: State, s': State) {
    && s'.nextTicket == s.nextTicket && s'.asked == s.asked && |s'.writers| == |s.writers|
    && forall v :: 0 <= v < |s.writers| ==> Continues(s.writers[v], s'.writers[v])
  }

  lemma OneMoves(s: State, s': State, w: nat)
    requires w < |s.writers| == |s'.writers| && s'.writers == s.writers[w := s'.writers[w]]
    requires Continues(s.writers[w], s'.writers[w]) && s'.nextTicket == s.nextTicket && s'.asked == s.asked
    ensures SameSends(s, s')
  {
  }

  lemma StepSends(c: Config, s: State, a: Action)
    requires Geometry(c.B) && Enabled(c, s, a) && !a.Begin?
    ensures SameSends(s, Step(c, s, a))
  {
    hide WellPlaced, Reserve, Splice, Rec.Body, Offset, Word, Inspect, Aligned, SameSends, Judged;
    hide StepLoadTail, StepSwap, StepMark, StepFill, StepPublish;
    var s' := Step(c, s, a);
    match a
    case LoadHead(w) => OneMoves(s, s', w);
    case LoadTail(w) => LoadTailSends(c, s, w);
    case Swap(w, spurious) => SwapSends(c, s, w, spurious);
    case Mark(w) => StoreSends(c, s, a);
    case Fill(w, _) => StoreSends(c, s, a);
    case Publish(w) => StoreSends(c, s, a);
    case Post(w) => OneMoves(s, s', w);
    case _ => NoneMoves(s, s');
  }

  lemma LoadTailSends(c: Config, s: State, w: nat)
    requires Geometry(c.B) && w < |s.writers| && s.writers[w].TailNeeded?
    ensures SameSends(s, StepLoadTail(c, s, w))
  {
    hide Reserve, Offset, SameSends;
    OneMoves(s, StepLoadTail(c, s, w), w);
  }

  lemma SwapSends(c: Config, s: State, w: nat, spurious: bool)
    requires Geometry(c.B) && w < |s.writers| && s.writers[w].Swapping?
    ensures SameSends(s, StepSwap(c, s, w, spurious))
  {
    hide Wanted, SameSends;
    OneMoves(s, StepSwap(c, s, w, spurious), w);
  }

  lemma StoreSends(c: Config, s: State, a: Action)
    requires Geometry(c.B) && Enabled(c, s, a) && (a.Mark? || a.Fill? || a.Publish?)
    ensures SameSends(s, Step(c, s, a))
  {
    hide WellPlaced, Splice, Rec.Body, Offset, SameSends, LittleEndian;
    OneMoves(s, Step(c, s, a), a.w);
  }

  lemma NoneMoves(s: State, s': State)
    requires s'.writers == s.writers && s'.nextTicket == s.nextTicket && s'.asked == s.asked
    ensures SameSends(s, s')
  {
  }

  /** Records stay whose they were, and none becomes unmarked again. */
  predicate SameOwners(own: seq<Own>, own': seq<Own>) {
    && |own'| == |own|
    && forall k :: 0 <= k < |own| ==>
         own'[k].ticket == own[k].ticket && own'[k].writer == own[k].writer
         && (own'[k].stage.Unmarked? ==> own[k].stage.Unmarked?)
  }

  /** The block just after init_as_new, nobody inside send. */
  function Fresh(c: Config, writers: nat): State
    requires Geometry(c.B)
  {
    Restarted(seq(DATA_BLOCK_OFFSET + c.B, _ => 0), writers)
  }

  /** An empty block over whatever the memory holds: with old records in it, the block just after
      reinit. Nobody is inside send, and no wakeup is pending. */
  function Restarted(mem: seq<byte>, writers: nat): State {
    State(mem, 0, 0, 0,
          seq(writers, _ => Idle), Waiting, [], [], 0, [], 0, map[], map[])
  }
}
