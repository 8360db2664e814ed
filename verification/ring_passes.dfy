/** Why a send fails, counted over the actions of a run: too large for the block, no room as of the
    head it had loaded, or a hundred passes of the reservation loop used up. */
module RingPasses {
  import opened Bytes
  import opened Records
  import opened RingLayout
  import opened ShmResults
  import opened RingMachine
  import opened RingInvariant
  import opened RingRuns
  import opened RingCalls

  /** Thread w is inside the send with ticket t. */
  predicate Inside(s: State, w: nat, t: nat) {
    w < |s.writers| && !s.writers[w].Idle? && s.writers[w].ticket == t
  }

  /** In state s the action a ends a pass of the loop for the send with ticket t without a decision:
      the tail has overtaken the loaded head, the compare-exchange fails, or a filler is published. */
  predicate EndsPass(c: Config, s: State, a: Action, t: nat)
    requires Geometry(c.B) && Enabled(c, s, a)
  {
    match a
    case LoadTail(w) => Inside(s, w, t) && s.writers[w].head < s.tail
    case Swap(w, spurious) => Inside(s, w, t) && (s.head != s.writers[w].head || spurious)
    case Publish(w) => Inside(s, w, t) && s.log[s.writers[w].k].Wrap?
    case _ => false
  }

  /** In state s the action a loads a tail that leaves no room behind the head loaded before. */
  predicate FindsFull(c: Config, s: State, a: Action, t: nat)
    requires Geometry(c.B) && Enabled(c, s, a)
  {
    && a.LoadTail? && Inside(s, a.w, t)
    && s.tail <= s.writers[a.w].head && s.writers[a.w].head - s.tail + Reserve(|s.writers[a.w].msg.payload|) > c.B
  }

  /** The passes that the send with ticket t has used up in the run. */
  ghost function Passes(c: Config, s: State, acts: seq<Action>, t: nat): nat
    requires Geometry(c.B) && ValidRun(c, s, acts)
  {
    if acts == [] then 0
    else
      var n := |acts| - 1;
      Passes(c, s, acts[..n], t) + (if EndsPass(c, Run(c, s, acts[..n]), acts[n], t) then 1 else 0)
  }

  /** Some action of the run finds no room for the send with ticket t. */
  ghost predicate FoundFull(c: Config, s: State, acts: seq<Action>, t: nat)
    requires Geometry(c.B) && ValidRun(c, s, acts)
  {
    acts != [] &&
    var n := |acts| - 1;
    FoundFull(c, s, acts[..n], t) || FindsFull(c, Run(c, s, acts[..n]), acts[n], t)
  }

  // ---- Tickets are one thread's at a time ----

  /** A thread inside send has passes left, or is about to find that it has none. */
  predicate Going(c: Config, p: Writer) {
    !p.Idle? ==>
      p.tries <= MAX_TRIES && (p.tries == MAX_TRIES ==> p.HeadNeeded?) && Reserve(|p.msg.payload|) <= c.B
  }

  ghost predicate OwnTickets(c: Config, s: State) {
    && (forall w :: 0 <= w < |s.writers| ==> Going(c, s.writers[w]))
    && (forall w :: 0 <= w < |s.writers| && !s.writers[w].Idle? ==>
          s.writers[w].ticket < s.nextTicket && s.writers[w].ticket !in s.returned && s.writers[w].ticket in s.asked
          && s.asked[s.writers[w].ticket] == s.writers[w].msg)
    && (forall v, w :: 0 <= v < w < |s.writers| && !s.writers[v].Idle? && !s.writers[w].Idle? ==>
          s.writers[v].ticket != s.writers[w].ticket)
    && (forall t <- s.returned :: t < s.nextTicket && t in s.asked)
    && (forall t <- s.asked :: t < s.nextTicket)
  }

  /** What the send with ticket t has used up and found so far, and what it answered. */
  ghost predicate Accounted(c: Config, s: State, t: nat, passes: nat, full: bool) {
    && (t >= s.nextTicket ==> passes == 0 && !full)
    && (forall w: nat :: Inside(s, w, t) ==>
          !full && passes == s.writers[w].tries)
    && (t in s.returned && t in s.asked ==>
          && (s.returned[t] == SizeTooLarge <==> Reserve(|s.asked[t].payload|) > c.B)
          && (s.returned[t] == NotEnoughSpace <==> full)
          && (s.returned[t] == CouldNotAllocate <==> passes == MAX_TRIES)
          && passes <= MAX_TRIES)
  }

  /** Thread w goes on with its send. */
  predicate Proceeds(s: State, s': State, w: nat) {
    && w < |s.writers| == |s'.writers| && s'.nextTicket == s.nextTicket
    && s'.asked == s.asked && s'.returned == s.returned
    && s'.writers == s.writers[w := s'.writers[w]] && !s.writers[w].Idle? && !s'.writers[w].Idle?
    && s'.writers[w].ticket == s.writers[w].ticket && s'.writers[w].msg == s.writers[w].msg
  }

  /** The send of thread w answers err. */
  predicate Answers(s: State, s': State, w: nat, err: SendErr) {
    && w < |s.writers| && s'.nextTicket == s.nextTicket && s'.asked == s.asked && !s.writers[w].Idle?
    && s'.writers == s.writers[w := Idle] && s'.returned == s.returned[s.writers[w].ticket := err]
  }

  lemma ProceedsAccount(c: Config, s: State, s': State, w: nat, t: nat, passes: nat, full: bool, more: nat)
    requires OwnTickets(c, s) && Accounted(c, s, t, passes, full) && Proceeds(s, s', w)
    requires s'.writers[w].tries == s.writers[w].tries + more <= MAX_TRIES
    requires s'.writers[w].tries == MAX_TRIES ==> s'.writers[w].HeadNeeded?
    ensures OwnTickets(c, s') && Accounted(c, s', t, passes + (if Inside(s, w, t) then more else 0), full)
  {
    assert forall v: nat :: Inside(s', v, t) ==> Inside(s, v, t);
  }

  lemma AnswersAccount(c: Config, s: State, s': State, w: nat, t: nat, passes: nat, full: bool, err: SendErr,
      more: nat, found: bool)
    requires OwnTickets(c, s) && Accounted(c, s, t, passes, full) && Answers(s, s', w, err) && err != SizeTooLarge
    requires err == NotEnoughSpace <==> found
    requires err == CouldNotAllocate <==> s.writers[w].tries + more == MAX_TRIES
    requires s.writers[w].tries + more <= MAX_TRIES
    ensures OwnTickets(c, s')
    ensures Accounted(c, s', t, passes + (if Inside(s, w, t) then more else 0), full || (Inside(s, w, t) && found))
  {
    assert forall v: nat :: Inside(s', v, t) ==> Inside(s, v, t);
  }

  lemma BeginAccount(c: Config, s: State, w: nat, m: Msg, t: nat, passes: nat, full: bool)
    requires OwnTickets(c, s) && Accounted(c, s, t, passes, full) && w < |s.writers| && s.writers[w].Idle?
    ensures OwnTickets(c, StepBegin(c, s, w, m)) && Accounted(c, StepBegin(c, s, w, m), t, passes, full)
  {
    hide Reserve;
    var s' := StepBegin(c, s, w, m);
    assert forall v: nat :: Inside(s', v, t) && v != w ==> Inside(s, v, t);
  }

  lemma SwapAccount(c: Config, s: State, w: nat, spurious: bool, t: nat, passes: nat, full: bool)
    requires Geometry(c.B) && OwnTickets(c, s) && Accounted(c, s, t, passes, full)
    requires w < |s.writers| && s.writers[w].Swapping?
    ensures var more := if Inside(s, w, t) && (s.head != s.writers[w].head || spurious) then 1 else 0;
            var s' := StepSwap(c, s, w, spurious);
            OwnTickets(c, s') && Accounted(c, s', t, passes + more, full)
  {
    hide Reserve, Wanted, Accounted;
    assert Going(c, s.writers[w]);
    var s' := StepSwap(c, s, w, spurious);
    if s.head == s.writers[w].head && !spurious {
      ProceedsAccount(c, s, s', w, t, passes, full, 0);
    } else if s'.writers[w].Idle? {
      AnswersAccount(c, s, s', w, t, passes, full, CouldNotAllocate, 1, false);
    } else {
      ProceedsAccount(c, s, s', w, t, passes, full, 1);
    }
  }

  lemma LoadTailAccount(c: Config, s: State, w: nat, t: nat, passes: nat, full: bool)
    requires OwnTickets(c, s) && Accounted(c, s, t, passes, full) && Geometry(c.B) && Enabled(c, s, LoadTail(w))
    ensures var more := if EndsPass(c, s, LoadTail(w), t) then 1 else 0;
            && OwnTickets(c, StepLoadTail(c, s, w))
            && Accounted(c, StepLoadTail(c, s, w), t, passes + more, full || FindsFull(c, s, LoadTail(w), t))
  {
    hide Reserve, Offset, Accounted;
    assert Going(c, s.writers[w]);
    var s', p := StepLoadTail(c, s, w), s.writers[w];
    if s'.writers[w].Idle? {
      var found := p.head - s.tail + Reserve(|p.msg.payload|) > c.B;
      AnswersAccount(c, s, s', w, t, passes, full, if found then NotEnoughSpace else AllocatorCorrupted, 0, found);
    } else {
      ProceedsAccount(c, s, s', w, t, passes, full, if p.head < s.tail then 1 else 0);
    }
  }

  lemma PublishAccount(c: Config, s: State, w: nat, t: nat, passes: nat, full: bool)
    requires OwnTickets(c, s) && Accounted(c, s, t, passes, full) && Geometry(c.B) && Enabled(c, s, Publish(w))
    ensures var more := if EndsPass(c, s, Publish(w), t) then 1 else 0;
            OwnTickets(c, StepPublish(c, s, w)) && Accounted(c, StepPublish(c, s, w), t, passes + more, full)
  {
    hide Reserve, Offset, Accounted, WellPlaced, Rec.Body, Splice;
    assert Going(c, s.writers[w]);
    var s' := StepPublish(c, s, w);
    var more := if s.log[s.writers[w].k].Wrap? then 1 else 0;
    if s'.writers[w].Idle? {
      AnswersAccount(c, s, s', w, t, passes, full, CouldNotAllocate, 1, false);
    } else {
      ProceedsAccount(c, s, s', w, t, passes, full, more);
    }
  }

  lemma StoreAccount(c: Config, s: State, a: Action, t: nat, passes: nat, full: bool)
    requires OwnTickets(c, s) && Accounted(c, s, t, passes, full) && Geometry(c.B) && Enabled(c, s, a)
    requires a.LoadHead? || a.Mark? || a.Fill? || a.Post?
    ensures OwnTickets(c, Step(c, s, a)) && Accounted(c, Step(c, s, a), t, passes, full)
  {
    hide Reserve, Offset, Accounted, WellPlaced, Rec.Body, Splice, Inspect, Judged, Aligned, LittleEndian;
    var s', w := Step(c, s, a), a.w;
    assert Going(c, s.writers[w]);
    if s'.writers[w].Idle? {
      AnswersAccount(c, s, s', w, t, passes, full, if a.Post? then SendOk else CouldNotAllocate, 0, false);
    } else {
      ProceedsAccount(c, s, s', w, t, passes, full, 0);
    }
  }

  lemma StepAccount(c: Config, s: State, a: Action, t: nat, passes: nat, full: bool)
    requires OwnTickets(c, s) && Accounted(c, s, t, passes, full) && Geometry(c.B) && Enabled(c, s, a)
    ensures var more := if EndsPass(c, s, a, t) then 1 else 0;
            && OwnTickets(c, Step(c, s, a))
            && Accounted(c, Step(c, s, a), t, passes + more, full || FindsFull(c, s, a, t))
  {
    hide Reserve, Offset, OwnTickets, Accounted, WellPlaced, Rec.Body, Splice, Word, Inspect, Judged, Aligned;
    hide LittleEndian, StepBegin, StepLoadTail, StepSwap, StepPublish, StepMark, StepFill, Inside;
    match a
    case Begin(w, m) => BeginAccount(c, s, w, m, t, passes, full);
    case LoadTail(w) => LoadTailAccount(c, s, w, t, passes, full);
    case Swap(w, spurious) => SwapAccount(c, s, w, spurious, t, passes, full);
    case Publish(w) => PublishAccount(c, s, w, t, passes, full);
    case LoadHead(_) => StoreAccount(c, s, a, t, passes, full);
    case Mark(_) => StoreAccount(c, s, a, t, passes, full);
    case Fill(_, _) => StoreAccount(c, s, a, t, passes, full);
    case Post(_) => StoreAccount(c, s, a, t, passes, full);
    case _ => Untouched(c, s, Step(c, s, a), t, passes, full);
  }

  lemma Untouched(c: Config, s: State, s': State, t: nat, passes: nat, full: bool)
    requires OwnTickets(c, s) && Accounted(c, s, t, passes, full)
    requires s'.writers == s.writers && s'.nextTicket == s.nextTicket
    requires s'.asked == s.asked && s'.returned == s.returned
    ensures OwnTickets(c, s') && Accounted(c, s', t, passes, full)
  {
    assert forall v: nat :: Inside(s', v, t) ==> Inside(s, v, t);
  }

  lemma {:induction false} RunAccount(c: Config, mem: seq<byte>, writers: nat, acts: seq<Action>, t: nat)
    requires Geometry(c.B) && ValidRun(c, Restarted(mem, writers), acts)
    ensures var s0 := Restarted(mem, writers);
            && OwnTickets(c, Run(c, s0, acts))
            && Accounted(c, Run(c, s0, acts), t, Passes(c, s0, acts, t), FoundFull(c, s0, acts, t))
    decreases |acts|
  {
    hide OwnTickets, Accounted, Step, Enabled, EndsPass, FindsFull;
    var s0 := Restarted(mem, writers);
    if acts == [] {
      AtFirst(c, mem, writers, t);
    } else {
      var n := |acts| - 1;
      RunAccount(c, mem, writers, acts[..n], t);
      StepAccount(c, Run(c, s0, acts[..n]), acts[n], t, Passes(c, s0, acts[..n], t), FoundFull(c, s0, acts[..n], t));
    }
  }

  lemma AtFirst(c: Config, mem: seq<byte>, writers: nat, t: nat)
    ensures OwnTickets(c, Restarted(mem, writers)) && Accounted(c, Restarted(mem, writers), t, 0, false)
  {
  }

  /** Why a send fails, in every run over any memory, with stale loads or without: too large, exactly
      if its reservation exceeds the block; no space, exactly if a tail it loaded left no room behind
      the head it had loaded; could not allocate, exactly if it used up a hundred passes, which no
      send exceeds. */
  lemma FailsExactlyIf(c: Config, mem: seq<byte>, writers: nat, acts: seq<Action>, t: nat)
    requires Geometry(c.B) && ValidRun(c, Restarted(mem, writers), acts)
    requires t in Run(c, Restarted(mem, writers), acts).returned
    ensures var s0 := Restarted(mem, writers);
            var s := Run(c, s0, acts);
            && t < |Calls(acts)|
            && (s.returned[t] == SizeTooLarge <==> Reserve(|Calls(acts)[t].msg.payload|) > c.B)
            && (s.returned[t] == NotEnoughSpace <==> FoundFull(c, s0, acts, t))
            && (s.returned[t] == CouldNotAllocate <==> Passes(c, s0, acts, t) == 100)
            && Passes(c, s0, acts, t) <= 100
  {
    hide Step, Enabled, EndsPass, FindsFull, Reserve, Calls;
    RunAccount(c, mem, writers, acts, t);
    RunRecorded(c, mem, writers, acts);
  }

  /** The loaded head is never ahead of the head, so a send that finds no room has found the ring
      itself too full for its message. */
  lemma FullIsFull(c: Config, s: State, a: Action, t: nat)
    requires Inv(c, s) && Enabled(c, s, a) && FindsFull(c, s, a, t)
    ensures s.head - s.tail + Reserve(|s.writers[a.w].msg.payload|) > c.B
  {
    hide Reserve, Chain, Memory, Stages, Reader, Awake;
  }
}
