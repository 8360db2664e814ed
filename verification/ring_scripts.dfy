/** Pieces from which particular runs of the ring are put together: a writer reserves and writes a
    record undisturbed, the consumer takes the record at the tail undisturbed. */
module RingScripts {
  import opened Bytes
  import opened Records
  import opened RingLayout
  import opened ShmResults
  import opened RingMachine
  import opened RingInvariant
  import opened RingRuns

  /** One more action at the end of a run. */
  lemma Go(c: Config, s0: State, acts: seq<Action>, s: State, a: Action) returns (acts': seq<Action>, s': State)
    requires Geometry(c.B) && ValidRun(c, s0, acts) && Run(c, s0, acts) == s && Enabled(c, s, a)
    ensures ValidRun(c, s0, acts') && Run(c, s0, acts') == s' && s' == Step(c, s, a)
    ensures acts' == acts + [a]
  {
    acts', s' := acts + [a], Step(c, s, a);
    assert acts'[..|acts|] == acts;
  }

  /** Nothing stands in the way of a reservation for m at the head. */
  predicate Room(c: Config, s: State, m: Msg)
    requires Legal(c)
  {
    && |s.mem| == DATA_BLOCK_OFFSET + c.B && |s.own| == |s.log|
    && s.tail <= s.head && Boundary(c.B, s.head)
    && s.head - s.tail + Reserve(|m.payload|) <= c.B
  }

  /** The state after thread w, inside the send with this ticket, has reserved at the head. */
  ghost function Reserved(c: Config, s: State, w: nat, ticket: nat, m: Msg, tries: nat): State
    requires Legal(c) && w < |s.writers|
  {
    var r := Wanted(c, Swapping(ticket, m, s.head, s.tail, tries));
    s.(writers := s.writers[w := Owner(ticket, m, |s.log|, tries)], head := r.End(),
       log := s.log + [r], own := s.own + [Own(w, ticket, Unmarked)])
  }

  /** The rest of a pass of the reservation loop. */
  lemma Reserving(c: Config, s0: State, acts: seq<Action>, s: State, w: nat)
    returns (acts': seq<Action>, s': State)
    requires Legal(c) && ValidRun(c, s0, acts) && Run(c, s0, acts) == s
    requires w < |s.writers| && s.writers[w].TailNeeded? && s.writers[w].head == s.head && Room(c, s, s.writers[w].msg)
    ensures ValidRun(c, s0, acts') && Run(c, s0, acts') == s'
    ensures s' == Reserved(c, s, w, s.writers[w].ticket, s.writers[w].msg, s.writers[w].tries)
  {
    hide ValidRun, Run, Wanted, Offset, Reserve;
    var p := s.writers[w];
    acts', s' := Go(c, s0, acts, s, LoadTail(w));
    assert s' == Put(s, w, Swapping(p.ticket, p.msg, s.head, s.tail, p.tries));
    acts', s' := Go(c, s0, acts', s', Swap(w, false));
    assert s.writers[w := Swapping(p.ticket, p.msg, s.head, s.tail, p.tries)][w := s'.writers[w]]
           == s.writers[w := s'.writers[w]];
  }

  /** The state after thread w has begun to send m. */
  ghost function Began(s: State, w: nat, m: Msg): State
    requires w < |s.writers|
  {
    s.(nextTicket := s.nextTicket + 1, asked := s.asked[s.nextTicket := m],
       writers := s.writers[w := TailNeeded(s.nextTicket, m, s.head, 0)])
  }

  lemma Beginning(c: Config, s0: State, acts: seq<Action>, s: State, w: nat, m: Msg)
    returns (acts': seq<Action>, s': State)
    requires Legal(c) && ValidRun(c, s0, acts) && Run(c, s0, acts) == s && Room(c, s, m)
    requires w < |s.writers| && s.writers[w].Idle? && 0 < |m.payload| <= c.maxPayload
    ensures ValidRun(c, s0, acts') && Run(c, s0, acts') == s' && s' == Began(s, w, m)
  {
    hide ValidRun, Run, Offset, Reserve;
    acts', s' := Go(c, s0, acts, s, Begin(w, m));
    acts', s' := Go(c, s0, acts', s', LoadHead(w));
    assert s.writers[w := HeadNeeded(s.nextTicket, m, 0)][w := s'.writers[w]] == s.writers[w := s'.writers[w]];
  }

  /** Writer w owns record k. */
  predicate Writing(c: Config, s: State, w: nat, k: nat)
    requires Geometry(c.B)
  {
    && |s.mem| == DATA_BLOCK_OFFSET + c.B && w < |s.writers| && s.writers[w].Owner? && s.writers[w].k == k
    && |s.own| == |s.log| && k < |s.log| && WellPlaced(c.B, s.log[k])
  }

  lemma DoMark(c: Config, s0: State, acts: seq<Action>, s: State, w: nat, k: nat)
    returns (acts': seq<Action>, s': State)
    requires Legal(c) && ValidRun(c, s0, acts) && Run(c, s0, acts) == s
    requires Writing(c, s, w, k) && s.own[k].stage.Unmarked?
    ensures acts <= acts'
    ensures ValidRun(c, s0, acts') && Run(c, s0, acts') == s'
    ensures s' == WithStage(s, k, Filling(0)).(mem := s'.mem) && |s'.mem| == |s.mem|
    ensures OnlyIn(s.mem, s'.mem, c.B, s.log[k]) && Laid(c, s'.mem, s.log[k], Filling(0))
  {
    hide ValidRun, Run, WellPlaced, Laid, Rec.Body, Rec.Image, OnlyIn, Splice, LittleEndian;
    PlacedFits(c.B, s.log[k]);
    acts', s' := Go(c, s0, acts, s, Mark(w));
    MarkLaid(c, s.mem, s'.mem, s.log[k]);
  }

  lemma DoFill(c: Config, s0: State, acts: seq<Action>, s: State, w: nat, k: nat)
    returns (acts': seq<Action>, s': State)
    requires Legal(c) && ValidRun(c, s0, acts) && Run(c, s0, acts) == s
    requires Writing(c, s, w, k) && s.own[k].stage == Filling(0) && Laid(c, s.mem, s.log[k], Filling(0))
    ensures acts <= acts'
    ensures ValidRun(c, s0, acts') && Run(c, s0, acts') == s'
    ensures var stage := Filling(|s.log[k].Body(c.epoch)|);
            && s' == WithStage(s, k, stage).(mem := s'.mem) && |s'.mem| == |s.mem|
            && OnlyIn(s.mem, s'.mem, c.B, s.log[k]) && Laid(c, s'.mem, s.log[k], stage)
  {
    hide ValidRun, Run, WellPlaced, Laid, Rec.Body, Rec.Image, OnlyIn, Splice, LittleEndian;
    PlacedFits(c.B, s.log[k]);
    var n := |s.log[k].Body(c.epoch)|;
    acts', s' := Go(c, s0, acts, s, Fill(w, n));
    FillLaid(c, s.mem, s'.mem, s.log[k], 0, n);
  }

  lemma DoPublish(c: Config, s0: State, acts: seq<Action>, s: State, w: nat, k: nat)
    returns (acts': seq<Action>, s': State)
    requires Legal(c) && ValidRun(c, s0, acts) && Run(c, s0, acts) == s
    requires Writing(c, s, w, k)
    requires s.own[k].stage == Filling(|s.log[k].Body(c.epoch)|) && Laid(c, s.mem, s.log[k], s.own[k].stage)
    ensures acts <= acts'
    ensures ValidRun(c, s0, acts') && Run(c, s0, acts') == s' && |s'.mem| == |s.mem|
    ensures OnlyIn(s.mem, s'.mem, c.B, s.log[k]) && Laid(c, s'.mem, s.log[k], Stage.Published)
    ensures var t, p := WithStage(s, k, Stage.Published).(mem := s'.mem), s.writers[w];
            s' == if s.log[k].Wrap? then Again(t, w, p.ticket, p.msg, s.log[k].End(), p.tries + 1) else t
  {
    hide ValidRun, Run, WellPlaced, Laid, Rec.Body, Rec.Image, OnlyIn, Splice, LittleEndian;
    PlacedFits(c.B, s.log[k]);
    acts', s' := Go(c, s0, acts, s, Publish(w));
    PublishLaid(c, s.mem, s'.mem, s.log[k]);
  }

  /** The owner of record k marks, fills and publishes it without being disturbed. */
  lemma Write(c: Config, s0: State, acts: seq<Action>, s: State, w: nat, k: nat)
    returns (acts': seq<Action>, s': State)
    requires Legal(c) && ValidRun(c, s0, acts) && Run(c, s0, acts) == s
    requires Writing(c, s, w, k) && s.own[k].stage.Unmarked?
    ensures acts <= acts'
    ensures ValidRun(c, s0, acts') && Run(c, s0, acts') == s' && |s'.mem| == |s.mem|
    ensures OnlyIn(s.mem, s'.mem, c.B, s.log[k]) && Laid(c, s'.mem, s.log[k], Stage.Published)
    ensures var t, p := WithStage(s, k, Stage.Published).(mem := s'.mem), s.writers[w];
            s' == if s.log[k].Wrap? then Again(t, w, p.ticket, p.msg, s.log[k].End(), p.tries + 1) else t
  {
    hide ValidRun, Run, WellPlaced, Laid, Rec.Body, Rec.Image, OnlyIn, Splice, LittleEndian;
    var m0, r := s.mem, s.log[k];
    acts', s' := DoMark(c, s0, acts, s, w, k);
    var m1 := s'.mem;
    acts', s' := DoFill(c, s0, acts', s', w, k);
    var m2 := s'.mem;
    acts', s' := DoPublish(c, s0, acts', s', w, k);
    Local(c, m0, m1, m2, r);
    Local(c, m0, m2, s'.mem, r);
  }

  lemma Local(c: Config, m: seq<byte>, m1: seq<byte>, m2: seq<byte>, r: Rec)
    requires Geometry(c.B) && OnlyIn(m, m1, c.B, r) && OnlyIn(m1, m2, c.B, r)
    ensures OnlyIn(m, m2, c.B, r)
  {
  }

  /** The state after thread w has sent m into the record r. */
  ghost function SentTo(s: State, w: nat, m: Msg, r: Rec, mem: seq<byte>): State {
    s.(mem := mem, head := r.End(), sem := s.sem + 1, log := s.log + [r],
       own := s.own + [Own(w, s.nextTicket, Posted)], nextTicket := s.nextTicket + 1,
       asked := s.asked[s.nextTicket := m], returned := s.returned[s.nextTicket := SendOk])
  }

  /** Thread w sends m undisturbed, without a filler, up to its post. */
  lemma Depositing(c: Config, s0: State, acts: seq<Action>, s: State, w: nat, m: Msg)
    returns (acts': seq<Action>, s': State)
    requires Legal(c) && ValidRun(c, s0, acts) && Run(c, s0, acts) == s && Room(c, s, m)
    requires w < |s.writers| && s.writers[w].Idle? && 0 < |m.payload| <= c.maxPayload
    requires Offset(c.B, s.head) + Reserve(|m.payload|) <= UsableLimit(c.B)
    ensures ValidRun(c, s0, acts') && Run(c, s0, acts') == s' && |s'.mem| == |s.mem|
    ensures var r, k := Data(s.head, Reserve(|m.payload|), m), |s.log|;
            && WellPlaced(c.B, r) && OnlyIn(s.mem, s'.mem, c.B, r) && Laid(c, s'.mem, r, Stage.Published)
            && s' == s.(mem := s'.mem, head := r.End(), log := s.log + [r],
                        own := s.own + [Own(w, s.nextTicket, Stage.Published)], nextTicket := s.nextTicket + 1,
                        asked := s.asked[s.nextTicket := m], writers := s.writers[w := Owner(s.nextTicket, m, k, 0)])
  {
    hide ValidRun, Run, Offset, Reserve, Laid, OnlyIn;
    var k := |s.log|;
    acts', s' := Beginning(c, s0, acts, s, w, m);
    acts', s' := Reserving(c, s0, acts', s', w);
    assert s'.writers == s.writers[w := Owner(s.nextTicket, m, k, 0)];
    ghost var own := s.own + [Own(w, s.nextTicket, Stage.Published)];
    acts', s' := Write(c, s0, acts', s', w, k);
    assert s'.own == own;
  }

  lemma Sending(c: Config, s0: State, acts: seq<Action>, s: State, w: nat, m: Msg)
    returns (acts': seq<Action>, s': State)
    requires Legal(c) && ValidRun(c, s0, acts) && Run(c, s0, acts) == s && Room(c, s, m)
    requires w < |s.writers| && s.writers[w].Idle? && 0 < |m.payload| <= c.maxPayload
    requires Offset(c.B, s.head) + Reserve(|m.payload|) <= UsableLimit(c.B)
    ensures ValidRun(c, s0, acts') && Run(c, s0, acts') == s' && |s'.mem| == |s.mem|
    ensures var r := Data(s.head, Reserve(|m.payload|), m);
            && WellPlaced(c.B, r) && OnlyIn(s.mem, s'.mem, c.B, r) && Laid(c, s'.mem, r, Stage.Published)
            && s' == SentTo(s, w, m, r, s'.mem)
  {
    hide ValidRun, Run, Offset, Reserve, Laid, OnlyIn;
    acts', s' := Depositing(c, s0, acts, s, w, m);
    ghost var own := s.own + [Own(w, s.nextTicket, Posted)];
    acts', s' := Go(c, s0, acts', s', Post(w));
    assert s'.own == own;
    assert s'.writers == s.writers;
  }

  // ---- The consumer ----

  /** A complete record r lies at the tail's block offset, if not at the tail itself. */
  ghost predicate Found(c: Config, s: State, r: Rec) {
    && Legal(c) && |s.mem| == DATA_BLOCK_OFFSET + c.B && |s.own| == |s.log| && Laid(c, s.mem, r, Stage.Published)
    && Offset(c.B, s.tail) == Offset(c.B, r.pos) <= UsableLimit(c.B)
    && (r.Data? ==> 0 < |r.msg.payload| <= c.maxPayload)
  }

  lemma SeeWord(c: Config, s: State, r: Rec)
    requires Found(c, s, r) && s.consumer.Looking?
    ensures Enabled(c, s, Look) && Step(c, s, Look) == s.(consumer := Reading(r.FinalState()))
  {
    hide Laid, Rec.Body, Rec.Image, LittleEndian, Word, WellPlaced;
    MarkedWord(c, s.mem, r, Stage.Published);
  }

  lemma SeeHeader(c: Config, s: State, r: Rec)
    requires Found(c, s, r) && s.consumer == Reading(r.FinalState())
    ensures Enabled(c, s, ReadHeader)
    ensures Step(c, s, ReadHeader)
            == s.(consumer := if r.Wrap? then Skipping(r.total) else Copying(r.Header(c.epoch), []))
  {
    hide Laid, Rec.Body, Rec.Image, Inspect, LittleEndian, WellPlaced;
    ReadHeaderJudges(c, s.mem, r, Stage.Published);
  }

  lemma SeePayload(c: Config, s: State, r: Rec)
    requires Found(c, s, r) && r.Data? && s.consumer == Copying(r.Header(c.epoch), [])
    ensures Enabled(c, s, Copy(|r.msg.payload|))
    ensures Step(c, s, Copy(|r.msg.payload|)) == s.(consumer := Copying(r.Header(c.epoch), r.msg.payload))
  {
    hide Laid, Rec.Body, Rec.Image, LittleEndian, WellPlaced;
    LaidIntact(c, s.mem, r, Stage.Published);
    PlacedFits(c.B, r);
    CopiedPiece(c, s.mem, r, Stage.Published, 0, |r.msg.payload|);
    assert [] + r.msg.payload[0..|r.msg.payload|] == r.msg.payload;
  }

  /** The consumer, having loaded a state word of r, reads its header. */
  lemma See(c: Config, s0: State, acts: seq<Action>, s: State, r: Rec) returns (acts': seq<Action>, s': State)
    requires Geometry(c.B) && ValidRun(c, s0, acts) && Run(c, s0, acts) == s && Found(c, s, r) && s.consumer.Looking?
    ensures ValidRun(c, s0, acts') && Run(c, s0, acts') == s'
    ensures s' == s.(consumer := if r.Wrap? then Skipping(r.total) else Copying(r.Header(c.epoch), []))
  {
    hide ValidRun, Run, Laid, Step, Enabled, Rec.Header;
    SeeWord(c, s, r);
    SeeHeader(c, s.(consumer := Reading(r.FinalState())), r);
    acts', s' := Go(c, s0, acts, s, Look);
    acts', s' := Go(c, s0, acts', s', ReadHeader);
  }

  /** The state after the consumer has taken r for the record at the tail. */
  ghost function Took(s: State, r: Rec): State {
    if r.Wrap? then s.(tail := s.tail + r.total, read := s.read + 1, consumer := Polling(false))
    else s.(tail := s.tail + r.total, read := s.read + 1, consumer := AfterMessage(r.msg.payload),
            delivered := s.delivered + [r.msg])
  }

  /** The consumer has judged the header of r and takes the rest. */
  lemma TakeRest(c: Config, s0: State, acts: seq<Action>, s: State, r: Rec) returns (acts': seq<Action>, s': State)
    requires Geometry(c.B) && ValidRun(c, s0, acts) && Run(c, s0, acts) == s && Found(c, s, r)
    requires s.consumer == if r.Wrap? then Skipping(r.total) else Copying(r.Header(c.epoch), [])
    ensures acts <= acts'
    ensures ValidRun(c, s0, acts') && Run(c, s0, acts') == s'
    ensures s' == Took(s, r)
  {
    hide ValidRun, Run, Laid, AfterMessage;
    if r.Wrap? {
      acts', s' := Go(c, s0, acts, s, Skip);
    } else {
      SeePayload(c, s, r);
      acts', s' := Go(c, s0, acts, s, Copy(|r.msg.payload|));
      acts', s' := Go(c, s0, acts', s', Advance);
    }
  }

  lemma Take(c: Config, s0: State, acts: seq<Action>, s: State, r: Rec) returns (acts': seq<Action>, s': State)
    requires Geometry(c.B) && ValidRun(c, s0, acts) && Run(c, s0, acts) == s && Found(c, s, r) && s.consumer.Looking?
    ensures ValidRun(c, s0, acts') && Run(c, s0, acts') == s'
    ensures s' == Took(s, r)
  {
    hide ValidRun, Run, Laid, AfterMessage;
    acts', s' := See(c, s0, acts, s, r);
    acts', s' := TakeRest(c, s0, acts', s', r);
  }
}
