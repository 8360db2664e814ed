/** What threads and send workers get done by themselves: from every state that the invariant allows
    a worker that goes on alone works its queue off, a thread that goes on alone returns, and so
    everything under way can be brought to its end. */
module SendSolo {
  import opened SendMachine
  import opened SendInvariant
  import opened SendRuns

  /** The action is one of lane l's worker, without a spurious failure. */
  predicate Works(a: Action, l: Lane) {
    match a
    case Wake(k) => k == l
    case Pop(k) => k == l
    case Attempt(k, _) => k == l
    case Load(k) => k == l
    case Swap(k, spurious) => k == l && !spurious
    case Finalize(k) => k == l
    case _ => false
  }

  predicate Asleep(q: Queue) {
    q.pc.Waiting? && q.sem == 0
  }

  /** How many receivers of its job a worker still has before it. */
  function Ahead(s: State, l: Lane): int {
    var pc := s.In(l).pc;
    if Busy(pc) && pc.j < |s.jobs| then |s.jobs[pc.j].In(l).recvrs| - pc.i else 0
  }

  /** How far a worker is from its next look at the queue. */
  function Distance(s: State, l: Lane): int {
    match s.In(l).pc
    case Waiting => 0
    case Popping => 1
    case Sending(_, _) => 6 * Ahead(s, l) + 7
    case Loading(_, _) => 6 * Ahead(s, l) + 6
    case Swapping(j, _, seen) =>
      6 * Ahead(s, l) + if j < |s.jobs| && s.jobs[j].pending == seen then 4 else 5
    case Finalizing(_, _) => 6 * Ahead(s, l) + 3
  }

  ghost predicate Progress(s: State, s': State, l: Lane) {
    && s'.In(l).sem <= s.In(l).sem && |s'.In(l).queue| <= |s.In(l).queue|
    && (s'.In(l).sem < s.In(l).sem || |s'.In(l).queue| < |s.In(l).queue|
        || 0 <= Distance(s', l) < Distance(s, l))
  }

  /** The next action of a worker. */
  function NextOf(pc: Pc, l: Lane): Action {
    match pc
    case Waiting => Wake(l)
    case Popping => Pop(l)
    case Sending(_, _) => Attempt(l, true)
    case Loading(_, _) => Load(l)
    case Swapping(_, _, _) => Swap(l, false)
    case Finalizing(_, _) => Finalize(l)
  }

  /** Where a worker stands in its job. */
  lemma InJob(s: State, l: Lane)
    requires Inv(s) && Busy(s.In(l).pc)
    ensures s.In(l).pc.j < |s.jobs|
    ensures s.In(l).pc.i <= |s.jobs[s.In(l).pc.j].In(l).recvrs|
    ensures !s.In(l).pc.Sending? ==> s.In(l).pc.i < |s.jobs[s.In(l).pc.j].In(l).recvrs|
    ensures s.In(l).pc.Loading? || s.In(l).pc.Swapping? ==> s.jobs[s.In(l).pc.j].pending > 0
    ensures s.In(l).pc.Swapping? ==> s.In(l).pc.seen > 0
  {
    hide LogOk, Awake, CloserOk, OwnerOk, Fails;
    var q := s.In(l);
    assert q.pushed[q.taken - 1] == q.pc.j;
    assert JobOk(s.jobs[q.pc.j], q.pc.j, s.local, s.remote, s.senders);
  }

  lemma WorkerGoesOn(s: State, l: Lane)
    requires Inv(s) && !Asleep(s.In(l))
    ensures Enabled(s, NextOf(s.In(l).pc, l))
    ensures Progress(s, Step(s, NextOf(s.In(l).pc, l)), l)
    ensures Step(s, NextOf(s.In(l).pc, l)).senders == s.senders
    ensures Step(s, NextOf(s.In(l).pc, l)).In(Other(l)) == s.In(Other(l))
  {
    hide Inv;
    if Busy(s.In(l).pc) { InJob(s, l); }
  }

  function Other(l: Lane): Lane {
    if l.Local? then Remote else Local
  }

  /** The actions, none of them a new call of enqueue_send, lead from s0 to s. */
  ghost predicate Leads(s0: State, acts: seq<Action>, s: State) {
    && ValidRun(s0, acts) && Run(s0, acts) == s && Inv(s)
    && forall i :: 0 <= i < |acts| ==> !acts[i].Build?
  }

  lemma Act(s0: State, acts: seq<Action>, s: State, a: Action) returns (acts': seq<Action>, s': State)
    requires Leads(s0, acts, s) && Enabled(s, a) && !a.Build?
    ensures Leads(s0, acts', s') && s' == Step(s, a) && acts' == acts + [a]
  {
    hide Inv, Step, Enabled;
    acts', s' := acts + [a], Step(s, a);
    assert acts'[..|acts|] == acts;
    StepInv(s, a);
  }

  /** A worker that goes on alone goes through all that is posted and falls asleep. */
  lemma WorkerFinishes(s0: State, acts: seq<Action>, s: State, l: Lane) returns (acts': seq<Action>, s': State)
    requires Leads(s0, acts, s)
    ensures Leads(s0, acts', s') && acts <= acts' && Asleep(s'.In(l))
    ensures forall i :: |acts| <= i < |acts'| ==> Works(acts'[i], l)
    ensures s'.senders == s.senders && s'.In(Other(l)) == s.In(Other(l))
    decreases s.In(l).sem, |s.In(l).queue|, Distance(s, l)
  {
    hide Inv, Step, Enabled;
    acts', s' := acts, s;
    if !Asleep(s.In(l)) {
      WorkerGoesOn(s, l);
      var a := NextOf(s.In(l).pc, l);
      acts', s' := Act(s0, acts, s, a);
      acts', s' := WorkerFinishes(s0, acts', s', l);
    }
  }

  /** A thread inside enqueue_send that goes on alone returns. */
  lemma SenderFinishes(s0: State, acts: seq<Action>, s: State, c: nat) returns (acts': seq<Action>, s': State)
    requires Leads(s0, acts, s) && c < |s.senders|
    ensures Leads(s0, acts', s') && s'.senders == s.senders[c := Idle]
    decreases if s.senders[c].Idle? then 0 else if s.senders[c].AtFinalize? then 1
              else (if s.senders[c].lane.Local? then 4 else 2) + (if s.senders[c].AtPush? then 1 else 0)
  {
    hide Inv;
    acts', s' := acts, s;
    if !s.senders[c].Idle? {
      KnownJob(s, c);
      var a := if s.senders[c].AtPush? then Push(c) else if s.senders[c].AtPost? then Post(c) else CallerFinalize(c);
      acts', s' := Act(s0, acts, s, a);
      acts', s' := SenderFinishes(s0, acts', s', c);
    }
  }

  lemma KnownJob(s: State, c: nat)
    requires Inv(s) && c < |s.senders| && !s.senders[c].Idle?
    ensures s.senders[c].j < |s.jobs|
  {
    hide LaneOk, JobsOk;
  }

  lemma SendersFinish(s0: State, acts: seq<Action>, s: State, n: nat) returns (acts': seq<Action>, s': State)
    requires Leads(s0, acts, s) && n <= |s.senders| && forall c :: n <= c < |s.senders| ==> s.senders[c].Idle?
    ensures Leads(s0, acts', s') && forall c :: 0 <= c < |s'.senders| ==> s'.senders[c].Idle?
    decreases n
  {
    hide Inv;
    acts', s' := acts, s;
    if n > 0 {
      acts', s' := SenderFinishes(s0, acts', s', n - 1);
      acts', s' := SendersFinish(s0, acts', s', n - 1);
    }
  }

  /** Whatever has happened, everything under way can be brought to its end without a new call: the
      threads return and the workers go through their queues. In that state every job has its record. */
  lemma EverythingFinishes(senders: nat, acts: seq<Action>) returns (more: seq<Action>)
    requires ValidRun(Started(senders), acts)
    ensures ValidRun(Started(senders), acts + more) && forall i :: 0 <= i < |more| ==> !more[i].Build?
    ensures AtRest(Run(Started(senders), acts + more))
  {
    hide Inv, Step, Enabled;
    var s := Run(Started(senders), acts);
    RunInv(senders, acts);
    var s1, s2, s3;
    more, s1 := SendersFinish(s, [], s, |s.senders|);
    more, s2 := WorkerFinishes(s, more, s1, Local);
    more, s3 := WorkerFinishes(s, more, s2, Remote);
    Joined(Started(senders), acts, more);
  }

  lemma {:induction false} Joined(s0: State, acts: seq<Action>, more: seq<Action>)
    requires ValidRun(s0, acts) && ValidRun(Run(s0, acts), more)
    ensures ValidRun(s0, acts + more) && Run(s0, acts + more) == Run(Run(s0, acts), more)
    decreases |more|
  {
    hide Step, Enabled;
    if more == [] {
      assert acts + more == acts;
    } else {
      var n := |more| - 1;
      Joined(s0, acts, more[..n]);
      assert (acts + more)[..|acts| + n] == acts + more[..n];
    }
  }
}
