/** What a thread gets done by itself. From any state that the invariant allows, a thread inside send
    that goes on alone, without spurious failures, answers what the free space says. */
module RingSolo {
  import opened Bytes
  import opened Records
  import opened RingLayout
  import opened ShmResults
  import opened ShmRing
  import opened RingMachine
  import opened RingInvariant
  import opened RingRuns

  /** The action is one of thread w and no spurious failure. */
  predicate Alone(a: Action, w: nat) {
    match a
    case LoadHead(v) => v == w
    case LoadTail(v) => v == w
    case Swap(v, spurious) => v == w && !spurious
    case Mark(v) => v == w
    case Fill(v, _) => v == w
    case Publish(v) => v == w
    case Post(v) => v == w
    case _ => false
  }

  /** The actions, all of them thread w's, lead from s0 to s. */
  ghost predicate Leads(c: Config, s0: State, acts: seq<Action>, s: State, w: nat) {
    && Geometry(c.B) && ValidRun(c, s0, acts) && Run(c, s0, acts) == s && Inv(c, s)
    && (forall i :: 0 <= i < |acts| ==> Alone(acts[i], w)) && s.tail == s0.tail
  }

  lemma Act(c: Config, s0: State, acts: seq<Action>, s: State, w: nat, a: Action)
    returns (acts': seq<Action>, s': State)
    requires Leads(c, s0, acts, s, w) && Enabled(c, s, a) && Alone(a, w)
    ensures Leads(c, s0, acts', s', w) && s' == Step(c, s, a)
  {
    hide Inv;
    acts', s' := acts + [a], Step(c, s, a);
    assert acts'[..|acts|] == acts;
    StepInv(c, s, a);
    TailStays(c, s, a, w);
  }

  lemma TailStays(c: Config, s: State, a: Action, w: nat)
    requires Geometry(c.B) && Enabled(c, s, a) && Alone(a, w)
    ensures Step(c, s, a).tail == s.tail
  {
    hide WellPlaced, Reserve, Splice, Rec.Body, Offset, Word, Inspect, Aligned, Wanted, Judged;
  }

  /** Thread w is inside the send with ticket t and message m. */
  predicate Sends(s: State, w: nat, t: nat, m: Msg) {
    w < |s.writers| && !s.writers[w].Idle? && s.writers[w].ticket == t && s.writers[w].msg == m
  }

  predicate Answered(s: State, t: nat, err: SendErr) {
    t in s.returned && s.returned[t] == err
  }

  // ---- Writing a record to its end ----

  /** Thread w owns record k and has come to this stage with it. */
  predicate Owning(s: State, w: nat, k: nat, stage: Stage) {
    && |s.own| == |s.log| && w < |s.writers| && s.writers[w].Owner? && s.writers[w].k == k < |s.log|
    && s.own[k].stage == stage
  }

  predicate SameButStage(s: State, s': State) {
    s'.writers == s.writers && s'.log == s.log && s'.head == s.head && s'.returned == s.returned
  }

  /** An owner's record is in its place and not finished. */
  lemma Placed(c: Config, s: State, w: nat, k: nat, stage: Stage)
    requires Inv(c, s) && Owning(s, w, k, stage)
    ensures Owns(c, s, w) && !stage.Posted? && (s.log[k].Wrap? ==> !stage.Published?)
    ensures stage.Filling? ==> stage.n <= |s.log[k].Body(c.epoch)|
    ensures |s.mem| == DATA_BLOCK_OFFSET + c.B && s.log[k].End() <= s.head
  {
    hide Memory, Writers, Reader, Awake, Chain, Span, Laid, Reserve, WellPlaced, Rec.Body;
    WriterAt(c, s, w);
    ChainAt(c, s.log, k);
    SpanEnds(c, s, k);
    if stage.Filling? { FilledSoFar(c, s, w); }
  }

  lemma SpanEnds(c: Config, s: State, k: nat)
    requires Inv(c, s) && k < |s.log|
    ensures s.log[k].End() <= s.head
  {
    hide Memory, Writers, Reader, Awake, Laid, Reserve, WellPlaced, Rec.Body;
    if k + 1 < |s.log| { ChainOrder(c, s.log, k + 1, |s.log| - 1); }
    ChainAt(c, s.log, k);
    ChainAt(c, s.log, |s.log| - 1);
  }

  lemma Marking(c: Config, s0: State, acts: seq<Action>, s: State, w: nat, k: nat)
    returns (acts': seq<Action>, s': State)
    requires Leads(c, s0, acts, s, w) && Owning(s, w, k, Unmarked)
    ensures Leads(c, s0, acts', s', w) && Owning(s', w, k, Filling(0)) && SameButStage(s, s')
  {
    hide Inv, WellPlaced, Splice, LittleEndian;
    Placed(c, s, w, k, Unmarked);
    acts', s' := Act(c, s0, acts, s, w, Mark(w));
  }

  lemma FillingUp(c: Config, s0: State, acts: seq<Action>, s: State, w: nat, k: nat, n: nat)
    returns (acts': seq<Action>, s': State)
    requires Leads(c, s0, acts, s, w) && Owning(s, w, k, Filling(n)) && n < |s.log[k].Body(c.epoch)|
    ensures Leads(c, s0, acts', s', w) && Owning(s', w, k, Filling(|s.log[k].Body(c.epoch)|)) && SameButStage(s, s')
  {
    hide Inv, WellPlaced, Splice, Rec.Body;
    Placed(c, s, w, k, Filling(n));
    acts', s' := Act(c, s0, acts, s, w, Fill(w, |s.log[k].Body(c.epoch)| - n));
  }

  lemma Publishing(c: Config, s0: State, acts: seq<Action>, s: State, w: nat, k: nat)
    returns (acts': seq<Action>, s': State)
    requires Leads(c, s0, acts, s, w) && k < |s.log| && Owning(s, w, k, Filling(|s.log[k].Body(c.epoch)|))
    requires s.writers[w].tries + 1 < MAX_TRIES
    ensures Leads(c, s0, acts', s', w) && s'.head == s.head
    ensures var p, r := s.writers[w], s.log[k];
            if r.Data? then Owning(s', w, k, Published) && SameButStage(s, s')
            else s'.writers == s.writers[w := TailNeeded(p.ticket, p.msg, r.End(), p.tries + 1)]
  {
    hide Inv, WellPlaced, Splice, Rec.Body, LittleEndian;
    Placed(c, s, w, k, Filling(|s.log[k].Body(c.epoch)|));
    acts', s' := Act(c, s0, acts, s, w, Publish(w));
  }

  /** The owner of a record finishes it: a message is published and posted, and after a filler the
      loop goes on from behind it. */
  lemma Finish(c: Config, s0: State, acts: seq<Action>, s: State, w: nat) returns (acts': seq<Action>, s': State)
    requires Leads(c, s0, acts, s, w) && |s.own| == |s.log|
    requires w < |s.writers| && s.writers[w].Owner? && s.writers[w].k < |s.log| && s.writers[w].tries + 1 < MAX_TRIES
    ensures Leads(c, s0, acts', s', w) && s'.head == s.head
    ensures var p, r := s.writers[w], s.log[s.writers[w].k];
            if r.Data? then Answered(s', p.ticket, SendOk)
            else s'.writers == s.writers[w := TailNeeded(p.ticket, p.msg, r.End(), p.tries + 1)]
  {
    hide Leads, Rec.Body;
    acts', s' := acts, s;
    var k := s.writers[w].k;
    var size := |s.log[k].Body(c.epoch)|;
    KnownStage(c, s0, acts, s, w, k);
    if s'.own[k].stage.Unmarked? {
      acts', s' := Marking(c, s0, acts', s', w, k);
    }
    if s'.own[k].stage.Filling? && s'.own[k].stage.n < size {
      acts', s' := FillingUp(c, s0, acts', s', w, k, s'.own[k].stage.n);
    }
    if s'.own[k].stage.Filling? {
      acts', s' := Publishing(c, s0, acts', s', w, k);
    }
    if s.log[k].Data? {
      acts', s' := Posting(c, s0, acts', s', w, k);
    }
  }

  lemma KnownStage(c: Config, s0: State, acts: seq<Action>, s: State, w: nat, k: nat)
    requires Leads(c, s0, acts, s, w) && |s.own| == |s.log| && k < |s.log| && Owning(s, w, k, s.own[k].stage)
    ensures !s.own[k].stage.Posted? && (s.log[k].Wrap? ==> !s.own[k].stage.Published?)
    ensures s.own[k].stage.Filling? ==> s.own[k].stage.n <= |s.log[k].Body(c.epoch)|
  {
    hide Inv, Rec.Body;
    Placed(c, s, w, k, s.own[k].stage);
  }

  lemma Posting(c: Config, s0: State, acts: seq<Action>, s: State, w: nat, k: nat)
    returns (acts': seq<Action>, s': State)
    requires Leads(c, s0, acts, s, w) && Owning(s, w, k, Published)
    ensures Leads(c, s0, acts', s', w) && s'.head == s.head && Answered(s', s.writers[w].ticket, SendOk)
  {
    hide Inv, WellPlaced;
    Placed(c, s, w, k, Published);
    acts', s' := Act(c, s0, acts, s, w, Post(w));
  }

  // ---- Passes of the reservation loop ----

  /** What the free space says to a message of this size. */
  function Fit(c: Config, s: State, m: Msg): SendErr
    requires Geometry(c.B) && s.tail <= s.head
  {
    if HasRoom(c.B, s.head, s.tail, Reserve(|m.payload|)) then SendOk else NotEnoughSpace
  }

  lemma InOrder(c: Config, s: State)
    requires Inv(c, s)
    ensures Geometry(c.B) && s.tail <= s.head && Boundary(c.B, s.head) && |s.own| == |s.log|
    ensures |s.mem| == DATA_BLOCK_OFFSET + c.B
  {
    hide Memory, Stages, Writers, Reader, Awake, Laid, WellPlaced;
    Ends(c, s.log, s.read, s.head, s.tail);
  }

  lemma Sound(c: Config, s0: State, acts: seq<Action>, s: State, w: nat)
    requires Leads(c, s0, acts, s, w)
    ensures Geometry(c.B) && s.tail <= s.head && Boundary(c.B, s.head) && |s.own| == |s.log|
    ensures |s.mem| == DATA_BLOCK_OFFSET + c.B
  {
    InOrder(c, s);
  }

  /** A compare-exchange from the current head succeeds, and the record is written. */
  lemma Winning(c: Config, s0: State, acts: seq<Action>, s: State, w: nat) returns (acts': seq<Action>, s': State)
    requires Leads(c, s0, acts, s, w) && w < |s.writers| && s.writers[w].Swapping?
    requires s.writers[w].head == s.head && s.writers[w].tries + 1 < MAX_TRIES
    ensures Leads(c, s0, acts', s', w)
    ensures var p := s.writers[w];
            if Offset(c.B, s.head) + Reserve(|p.msg.payload|) <= UsableLimit(c.B) then Answered(s', p.ticket, SendOk)
            else s'.head == s.head + (c.B - Offset(c.B, s.head))
                 && s'.writers == s.writers[w := TailNeeded(p.ticket, p.msg, s'.head, p.tries + 1)]
  {
    hide Leads, Reserve, Offset, StepBegin, StepMark, StepFill, StepPublish, Judged, Word;
    var p := s.writers[w];
    Sound(c, s0, acts, s, w);
    acts', s' := Act(c, s0, acts, s, w, Swap(w, false));
    assert s'.writers == s.writers[w := Owner(p.ticket, p.msg, |s.log|, p.tries)];
    acts', s' := Finish(c, s0, acts', s', w);
  }

  /** One pass with the current head. */
  lemma Pass(c: Config, s0: State, acts: seq<Action>, s: State, w: nat) returns (acts': seq<Action>, s': State)
    requires Leads(c, s0, acts, s, w) && w < |s.writers| && s.writers[w].TailNeeded?
    requires s.writers[w].head == s.head && s.writers[w].tries + 1 < MAX_TRIES
    ensures Leads(c, s0, acts', s', w)
    ensures var p := s.writers[w];
            if s.head - s.tail + Reserve(|p.msg.payload|) > c.B then Answered(s', p.ticket, NotEnoughSpace)
            else if Offset(c.B, s.head) + Reserve(|p.msg.payload|) <= UsableLimit(c.B)
            then Answered(s', p.ticket, SendOk)
            else s'.head == s.head + (c.B - Offset(c.B, s.head))
                 && s'.writers == s.writers[w := TailNeeded(p.ticket, p.msg, s'.head, p.tries + 1)]
  {
    hide Leads, Reserve, Offset, StepBegin, StepSwap, StepMark, StepFill, StepPublish, Judged, Word;
    Sound(c, s0, acts, s, w);
    acts', s' := Act(c, s0, acts, s, w, LoadTail(w));
    if s.head - s.tail + Reserve(|s.writers[w].msg.payload|) <= c.B {
      acts', s' := Winning(c, s0, acts', s', w);
    }
  }

  /** At most two passes with the current head decide. */
  lemma Passes(c: Config, s0: State, acts: seq<Action>, s: State, w: nat) returns (acts': seq<Action>, s': State)
    requires Leads(c, s0, acts, s, w) && w < |s.writers| && s.writers[w].TailNeeded?
    requires s.writers[w].head == s.head && s.writers[w].tries + 2 < MAX_TRIES
    ensures Leads(c, s0, acts', s', w) && s.tail <= s.head
    ensures Answered(s', s.writers[w].ticket, Fit(c, s, s.writers[w].msg))
  {
    hide Leads, Reserve, Offset;
    Sound(c, s0, acts, s, w);
    TailsEqual(c, s0, acts, s, w);
    var p := s.writers[w];
    var r := Reserve(|p.msg.payload|);
    acts', s' := Pass(c, s0, acts, s, w);
    if s.head - s.tail + r <= c.B && Offset(c.B, s.head) + r > UsableLimit(c.B) {
      BlockStart(c, s.head);
      TailsEqual(c, s0, acts', s', w);
      acts', s' := Pass(c, s0, acts', s', w);
    }
  }

  lemma TailsEqual(c: Config, s0: State, acts: seq<Action>, s: State, w: nat)
    requires Leads(c, s0, acts, s, w)
    ensures s.tail == s0.tail
  {
  }

  lemma BlockStart(c: Config, h: nat)
    requires Geometry(c.B) && Boundary(c.B, h)
    ensures Offset(c.B, h) <= UsableLimit(c.B) && Offset(c.B, h + (c.B - Offset(c.B, h))) == 0
  {
    OffsetStep(c.B, h, c.B - Offset(c.B, h));
  }

  lemma LoadingHead(c: Config, s0: State, acts: seq<Action>, s: State, w: nat) returns (acts': seq<Action>, s': State)
    requires Leads(c, s0, acts, s, w) && w < |s.writers| && s.writers[w].HeadNeeded? && s.writers[w].tries < MAX_TRIES
    ensures Leads(c, s0, acts', s', w) && s'.head == s.head && s'.tail == s.tail
    ensures s'.writers
            == s.writers[w := TailNeeded(s.writers[w].ticket, s.writers[w].msg, s.head, s.writers[w].tries)]
  {
    hide Inv, Reserve, Offset;
    InOrder(c, s);
    acts', s' := Act(c, s0, acts, s, w, LoadHead(w));
  }

  lemma Losing(c: Config, s0: State, acts: seq<Action>, s: State, w: nat) returns (acts': seq<Action>, s': State)
    requires Leads(c, s0, acts, s, w) && w < |s.writers| && s.writers[w].Swapping? && s.writers[w].head != s.head
    requires s.writers[w].tries + 1 < MAX_TRIES
    ensures Leads(c, s0, acts', s', w) && s'.head == s.head && s'.tail == s.tail
    ensures s'.writers
            == s.writers[w := TailNeeded(s.writers[w].ticket, s.writers[w].msg, s.head, s.writers[w].tries + 1)]
  {
    hide Inv, Reserve, Offset, Wanted;
    InOrder(c, s);
    acts', s' := Act(c, s0, acts, s, w, Swap(w, false));
  }

  /** Loading the tail after an older head: refused for want of space, sent back to load the head, or
      on to a compare-exchange. */
  lemma LoadingTail(c: Config, s0: State, acts: seq<Action>, s: State, w: nat) returns (acts': seq<Action>, s': State)
    requires Leads(c, s0, acts, s, w) && w < |s.writers| && s.writers[w].TailNeeded?
    ensures Leads(c, s0, acts', s', w) && s'.head == s.head && s'.tail == s.tail && |s'.writers| == |s.writers|
    ensures var p, p' := s.writers[w], s'.writers[w];
            if p'.Idle?
            then Answered(s', p.ticket, NotEnoughSpace) && s.head - s.tail + Reserve(|p.msg.payload|) > c.B
            else p'.ticket == p.ticket && p'.msg == p.msg && p'.tries <= p.tries + 1
                 && (p'.HeadNeeded? || (p'.Swapping? && p'.tries == p.tries && p'.head == p.head))
  {
    hide Inv, Reserve, Offset;
    InOrder(c, s);
    Behind(c, s, w);
    acts', s' := Act(c, s0, acts, s, w, LoadTail(w));
  }

  /** Whatever head a thread in the loop holds, it ends with the answer for the current one. */
  lemma CatchUp(c: Config, s0: State, acts: seq<Action>, s: State, w: nat) returns (acts': seq<Action>, s': State)
    requires Leads(c, s0, acts, s, w) && w < |s.writers| && !s.writers[w].Idle? && !s.writers[w].Owner?
    requires s.writers[w].tries + 3 < MAX_TRIES
    ensures Leads(c, s0, acts', s', w) && s.tail <= s.head && Geometry(c.B)
    ensures Answered(s', s.writers[w].ticket, Fit(c, s, s.writers[w].msg))
  {
    hide Leads, Reserve, Offset;
    Sound(c, s0, acts, s, w);
    acts', s' := acts, s;
    if s'.writers[w].TailNeeded? && s'.writers[w].head != s.head {
      acts', s' := LoadingTail(c, s0, acts', s', w);
      if s'.writers[w].Idle? {
        return;
      }
    }
    if s'.writers[w].HeadNeeded? {
      acts', s' := LoadingHead(c, s0, acts', s', w);
    } else if s'.writers[w].Swapping? && s'.writers[w].head != s.head {
      acts', s' := Losing(c, s0, acts', s', w);
    }
    if s'.writers[w].TailNeeded? {
      acts', s' := Passes(c, s0, acts', s', w);
    } else {
      acts', s' := WinningOrNot(c, s0, acts', s', w);
    }
  }

  /** The head that a thread has loaded is not ahead of the head, and a place for a record. */
  lemma Behind(c: Config, s: State, w: nat)
    requires Inv(c, s) && w < |s.writers| && s.writers[w].TailNeeded?
    ensures s.writers[w].head <= s.head && Boundary(c.B, s.writers[w].head)
  {
    WriterAt(c, s, w);
  }

  /** A thread about to compare and exchange from the current head. */
  lemma WinningOrNot(c: Config, s0: State, acts: seq<Action>, s: State, w: nat)
    returns (acts': seq<Action>, s': State)
    requires Leads(c, s0, acts, s, w) && w < |s.writers| && s.writers[w].Swapping?
    requires s.writers[w].head == s.head && s.writers[w].tries + 3 < MAX_TRIES
    ensures Leads(c, s0, acts', s', w) && s.tail <= s.head
    ensures Answered(s', s.writers[w].ticket, Fit(c, s, s.writers[w].msg))
  {
    hide Inv, Reserve, Offset, Step, Enabled, ValidRun, Run;
    InOrder(c, s);
    Checked(c, s, w);
    var r := Reserve(|s.writers[w].msg.payload|);
    acts', s' := Winning(c, s0, acts, s, w);
    if Offset(c.B, s.head) + r > UsableLimit(c.B) {
      BlockStart(c, s.head);
      acts', s' := Pass(c, s0, acts', s', w);
    }
  }

  /** What has passed the check against an older tail passes it against the current one. */
  lemma Checked(c: Config, s: State, w: nat)
    requires Inv(c, s) && w < |s.writers| && s.writers[w].Swapping?
    ensures s.writers[w].head - s.tail + Reserve(|s.writers[w].msg.payload|) <= c.B
  {
    hide Reserve;
    WriterAt(c, s, w);
  }

  /** A thread inside send that goes on alone, with a few passes left, gets its answer. Once it owns a
      record of its message the send succeeds; otherwise it succeeds exactly if there is room now. */
  lemma AloneGetsAnswer(c: Config, s: State, w: nat) returns (acts: seq<Action>, s': State)
    requires Inv(c, s) && w < |s.writers| && !s.writers[w].Idle? && s.writers[w].tries + 4 < MAX_TRIES
    ensures Leads(c, s, acts, s', w) && s.tail <= s.head && |s.own| == |s.log|
    ensures var p := s.writers[w];
            Answered(s', p.ticket,
              if p.Owner? && p.k < |s.log| && s.log[p.k].Data? then SendOk else Fit(c, s, p.msg))
  {
    hide Inv, Reserve, Offset;
    InOrder(c, s);
    acts, s' := [], s;
    if s.writers[w].Owner? {
      OwnsSomething(c, s, w);
      acts, s' := Finish(c, s, acts, s', w);
      if s.log[s.writers[w].k].Data? {
        return;
      }
    }
    acts, s' := CatchUp(c, s, acts, s', w);
  }

  lemma OwnsSomething(c: Config, s: State, w: nat)
    requires Inv(c, s) && w < |s.writers| && s.writers[w].Owner?
    ensures s.writers[w].k < |s.log|
  {
    WriterAt(c, s, w);
  }

  /** A call of send that is made in any state that the invariant allows and goes on alone answers
      what the call-at-a-time model says. */
  lemma AloneSends(c: Config, s: State, w: nat, m: Msg) returns (acts: seq<Action>, s': State)
    requires Inv(c, s) && w < |s.writers| && s.writers[w].Idle? && 0 < |m.payload| <= c.maxPayload
    ensures s.tail <= s.head && Geometry(c.B) && ValidRun(c, s, [Begin(w, m)] + acts)
    ensures Run(c, s, [Begin(w, m)] + acts) == s' && s'.tail == s.tail
    ensures forall i :: 0 <= i < |acts| ==> Alone(acts[i], w)
    ensures Answered(s', s.nextTicket, SendOutcome(c.B, Ready, s.head, s.tail, |m.payload|))
  {
    hide Inv, Reserve, Offset;
    InOrder(c, s);
    MayBegin(c, s, w, m);
    StepInv(c, s, Begin(w, m));
    var s1 := StepBegin(c, s, w, m);
    acts, s' := [], s1;
    if !s1.writers[w].Idle? {
      acts, s' := AloneGetsAnswer(c, s1, w);
    }
    Joined(c, s, Begin(w, m), acts);
  }

  lemma MayBegin(c: Config, s: State, w: nat, m: Msg)
    requires Inv(c, s) && w < |s.writers| && s.writers[w].Idle? && 0 < |m.payload| <= c.maxPayload
    ensures Enabled(c, s, Begin(w, m))
  {
  }

  lemma {:induction false} Joined(c: Config, s: State, a: Action, acts: seq<Action>)
    requires Geometry(c.B) && Enabled(c, s, a) && ValidRun(c, Step(c, s, a), acts)
    ensures ValidRun(c, s, [a] + acts) && Run(c, s, [a] + acts) == Run(c, Step(c, s, a), acts)
    ensures NeverStale(c, Step(c, s, a), acts) && !Stale(c, s) ==> NeverStale(c, s, [a] + acts)
    decreases |acts|
  {
    hide Step, Enabled, Stale;
    if acts == [] {
      assert [a] + acts == [a] && [a][..0] == [];
    } else {
      var n := |acts| - 1;
      Joined(c, s, a, acts[..n]);
      assert ([a] + acts)[..n + 1] == [a] + acts[..n];
    }
  }

  // ---- The consumer ----

  /** How far the consumer is from being done with the record at the tail, or from sleep. */
  function Distance(pc: Consumer): nat {
    match pc
    case Waiting => 0
    case Polling(_) => 6
    case Looking(_) => 5
    case Reading(_) => 4
    case Skipping(_) => 3
    case Copying(h, buf) => if |buf| < h.payloadSize then 2 else 1
    case Halted(_) => 0
  }

  predicate Consumes(a: Action) {
    a.Wake? || a.PollHead? || a.Look? || a.ReadHeader? || a.Skip? || a.Copy? || a.Advance?
  }

  /** The consumer is awake or about to be woken, and the record at the tail, if any, is published. */
  predicate MayGoOn(s: State) {
    && |s.own| == |s.log| && s.read <= |s.log| && (s.read < |s.log| ==> IsPublished(s.own[s.read]))
    && !(s.consumer.Waiting? && s.sem == 0)
  }

  /** Every step the consumer takes alone brings it nearer to having done with the next record, or to
      sleep. */
  lemma Nearer(c: Config, s: State) returns (a: Action)
    requires Inv(c, s) && MayGoOn(s)
    ensures Enabled(c, s, a) && Consumes(a) && !Stale(c, s)
    ensures Inv(c, Step(c, s, a)) && Step(c, s, a).log == s.log && Step(c, s, a).own == s.own
    ensures Step(c, s, a).sem <= s.sem && Step(c, s, a).writers == s.writers
    ensures if Step(c, s, a).read == s.read
            then (Step(c, s, a).sem < s.sem || Distance(Step(c, s, a).consumer) < Distance(s.consumer))
                 && (s.read < |s.log| ==> !Step(c, s, a).consumer.Waiting?)
            else s.read < |s.log| && Step(c, s, a).read == s.read + 1
  {
    hide Inv, Laid, Word, Inspect, WellPlaced, Offset, Splice, Rec.Body;
    a := ConsumerMoves(c, s);
    StepInv(c, s, a);
    AtSomething(c, s);
    match s.consumer
    case Looking(_) => SeesIt(c, s);
    case Reading(_) => Accepts(c, s);
    case _ =>
  }

  /** Past polling there is a record at the tail, and the head is ahead of the tail exactly then. */
  lemma AtSomething(c: Config, s: State)
    requires Inv(c, s)
    ensures s.tail < s.head <==> s.read < |s.log|
    ensures s.tail <= s.head && (!s.consumer.Waiting? && !s.consumer.Polling? ==> s.read < |s.log|)
  {
    hide Memory, Stages, Writers, Awake, Laid, Reserve, WellPlaced;
    Ends(c, s.log, s.read, s.head, s.tail);
  }

  lemma SeesIt(c: Config, s: State)
    requires Inv(c, s) && MayGoOn(s) && Enabled(c, s, Look)
    ensures Step(c, s, Look).consumer.Reading?
  {
    hide Stages, Writers, Awake, Laid, Reserve, WellPlaced, Word;
    AtSomething(c, s);
    AtTail(c, s);
    MarkedWord(c, s.mem, s.log[s.read], s.own[s.read].stage);
  }

  lemma Accepts(c: Config, s: State)
    requires Inv(c, s) && Enabled(c, s, ReadHeader)
    ensures Step(c, s, ReadHeader).consumer.Skipping? || Step(c, s, ReadHeader).consumer.Copying?
  {
    hide Memory, Stages, Writers, Chain, Laid, Awake, Inspect;
    ReadHeaderInv(c, s);
    assert !Step(c, s, ReadHeader).consumer.Halted?;
  }

  /** A consumer that goes on alone has done with the record at its tail, once that is published and
      it is awake or about to be woken. */
  lemma TakesNext(c: Config, s: State) returns (acts: seq<Action>, s': State)
    requires Inv(c, s) && MayGoOn(s) && s.read < |s.log|
    ensures ValidRun(c, s, acts) && Run(c, s, acts) == s' && Inv(c, s') && NeverStale(c, s, acts)
    ensures forall i :: 0 <= i < |acts| ==> Consumes(acts[i])
    ensures s'.log == s.log && s'.own == s.own && s'.read == s.read + 1
    decreases s.sem, Distance(s.consumer)
  {
    hide Inv, Step, Enabled, Stale;
    InOrder(c, s);
    var a := Nearer(c, s);
    var s1 := Step(c, s, a);
    acts, s' := [], s1;
    if s1.read == s.read {
      acts, s' := TakesNext(c, s1);
    }
    Joined(c, s, a, acts);
    acts := [a] + acts;
  }

  /** When nobody is inside send, a consumer that goes on alone delivers everything that has been
      reserved, provided that no message declares an oversized label, and falls asleep. */
  lemma DeliversAll(c: Config, s: State) returns (acts: seq<Action>, s': State)
    requires Inv(c, s) && Calm(s.log) && forall w :: 0 <= w < |s.writers| ==> s.writers[w].Idle?
    ensures ValidRun(c, s, acts) && Run(c, s, acts) == s' && NeverStale(c, s, acts)
    ensures forall i :: 0 <= i < |acts| ==> Consumes(acts[i])
    ensures s'.delivered == Messages(s.log) && s'.consumer.Waiting? && s'.sem == 0
  {
    hide Inv, Step, Enabled, Stale, Calm;
    AllPublished(c, s);
    acts, s' := FallsAsleep(c, s);
    RestMeansDelivered(c, s');
  }

  lemma AllPublished(c: Config, s: State)
    requires Inv(c, s) && forall w :: 0 <= w < |s.writers| ==> s.writers[w].Idle?
    ensures |s.own| == |s.log| && forall k :: 0 <= k < |s.log| ==> IsPublished(s.own[k])
  {
    hide Memory, Stages, Chain, Messages, Writers;
    AllSettled(c, s.writers, s.log, s.own, s.head, s.tail);
  }

  /** A consumer that goes on alone, with everything reserved published, falls asleep with no wakeup
      left over. */
  lemma FallsAsleep(c: Config, s: State) returns (acts: seq<Action>, s': State)
    requires Inv(c, s) && |s.own| == |s.log| && forall k :: s.read <= k < |s.log| ==> IsPublished(s.own[k])
    ensures ValidRun(c, s, acts) && Run(c, s, acts) == s' && Inv(c, s') && NeverStale(c, s, acts)
    ensures forall i :: 0 <= i < |acts| ==> Consumes(acts[i])
    ensures s'.consumer.Waiting? && s'.sem == 0 && s'.log == s.log && s'.own == s.own && s'.writers == s.writers
    decreases |s.log| - s.read, s.sem, Distance(s.consumer)
  {
    hide Inv, Step, Enabled, Stale;
    InOrder(c, s);
    AtSomething(c, s);
    acts, s' := [], s;
    if !(s.consumer.Waiting? && s.sem == 0) {
      ReadBound(c, s);
      var a := Nearer(c, s);
      acts, s' := FallsAsleep(c, Step(c, s, a));
      Joined(c, s, a, acts);
      acts := [a] + acts;
    }
  }

  lemma ReadBound(c: Config, s: State)
    requires Inv(c, s)
    ensures s.read <= |s.log|
  {
    hide Memory, Stages, Writers, Awake, Reader, Laid, Reserve, WellPlaced;
  }
}
