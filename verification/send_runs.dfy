/** Every run of senders and send workers: the accounts are right, nobody is stuck, no wakeup and no
    job gets lost. What is counted over the actions of a run is in SendCounts. */
module SendRuns {
  import opened SendMachine
  import opened SendInvariant

  /** The actions can be taken one after the other from s. */
  predicate ValidRun(s: State, acts: seq<Action>)
    decreases |acts|, 0
  {
    acts == [] || (var n := |acts| - 1; ValidRun(s, acts[..n]) && Enabled(Run(s, acts[..n]), acts[n]))
  }

  function Run(s: State, acts: seq<Action>): State
    requires ValidRun(s, acts)
    decreases |acts|, 1
  {
    if acts == [] then s
    else var n := |acts| - 1; Step(Run(s, acts[..n]), acts[n])
  }

  lemma {:induction false} RunInv(senders: nat, acts: seq<Action>)
    requires ValidRun(Started(senders), acts)
    ensures Inv(Run(Started(senders), acts))
    decreases |acts|
  {
    hide Inv, Step, Enabled;
    if acts == [] {
      StartedInv(senders);
    } else {
      var n := |acts| - 1;
      RunInv(senders, acts[..n]);
      StepInv(Run(Started(senders), acts[..n]), acts[n]);
    }
  }

  function FailedSends(job: Job): nat {
    Fails(job.local.outcomes) + Fails(job.remote.outcomes)
  }

  predicate AllAttempted(job: Job) {
    |job.local.outcomes| == |job.local.recvrs| && |job.remote.outcomes| == |job.remote.recvrs|
  }

  lemma JobAt(s: State, j: nat)
    requires Inv(s) && j < |s.jobs|
    ensures JobOk(s.jobs[j], j, s.local, s.remote, s.senders)
  {
    hide LaneOk, JobOk;
  }

  /** What the job's records say. */
  predicate TrueRecord(job: Job) {
    && job.signals == |job.records| <= 1
    && (job.records != [] ==> job.pending == 0 && AllAttempted(job) && job.records == [FailedSends(job)])
  }

  lemma JobRecord(job: Job, j: nat, local: Queue, remote: Queue, senders: seq<Sender>)
    requires JobOk(job, j, local, remote, senders)
    ensures TrueRecord(job)
  {
    hide OwnerOk;
  }

  /** Nobody is inside enqueue_send and both workers sleep with no wakeup pending. */
  predicate AtRest(s: State) {
    && (forall c :: 0 <= c < |s.senders| ==> s.senders[c].Idle?)
    && s.local.pc.Waiting? && s.local.sem == 0 && s.remote.pc.Waiting? && s.remote.sem == 0
  }

  lemma NothingQueued(q: Queue, jobs: seq<Job>, l: Lane, j: nat)
    requires LaneOk(q, jobs, l) && j < |jobs| && PartOk(jobs[j].In(l), j, q) && HandedOver(jobs[j].In(l))
    requires q.pc.Waiting? && q.sem == 0
    ensures jobs[j].In(l).done == |jobs[j].In(l).recvrs| == |jobs[j].In(l).outcomes|
  {
    hide LogOk;
    var p := jobs[j].In(l);
    if p.pos >= 0 {
      assert q.pushed[p.pos] == j;
    }
  }

  /** Short of rest, somebody can move without a new call to send. */
  lemma NoDeadlock(senders: nat, acts: seq<Action>) returns (a: Action)
    requires ValidRun(Started(senders), acts) && !AtRest(Run(Started(senders), acts))
    ensures !a.Build? && Enabled(Run(Started(senders), acts), a)
  {
    hide LaneOk, JobsOk, Step;
    RunInv(senders, acts);
    var s := Run(Started(senders), acts);
    if c :| 0 <= c < |s.senders| && !s.senders[c].Idle? {
      return if s.senders[c].AtPush? then Push(c) else if s.senders[c].AtPost? then Post(c) else CallerFinalize(c);
    }
    var l := if s.local.pc.Waiting? && s.local.sem == 0 then Remote else Local;
    LaneMoves(s, l);
    return match s.In(l).pc
      case Waiting => Wake(l)
      case Popping => Pop(l)
      case Sending(_, _) => Attempt(l, true)
      case Loading(_, _) => Load(l)
      case Swapping(_, _, _) => Swap(l, false)
      case Finalizing(_, _) => Finalize(l);
  }

  lemma LaneMoves(s: State, l: Lane)
    requires Inv(s)
    ensures Busy(s.In(l).pc) ==> s.In(l).pc.j < |s.jobs|
    ensures s.In(l).pc.Swapping? ==> s.In(l).pc.seen > 0
  {
    hide LogOk, Awake, Balanced, CloserOk, OwnerOk;
    var q := s.In(l);
    if Busy(q.pc) {
      assert q.pushed[q.taken - 1] == q.pc.j;
      assert JobOk(s.jobs[q.pc.j], q.pc.j, s.local, s.remote, s.senders);
    }
  }

  /** While a worker sleeps with no wakeup pending, every job in its queue belongs to a thread that
      has pushed it and not yet posted. */
  lemma NoLostWakeup(senders: nat, acts: seq<Action>, l: Lane, i: nat)
    requires ValidRun(Started(senders), acts)
    requires var q := Run(Started(senders), acts).In(l); q.pc.Waiting? && q.sem == 0 && i < |q.queue|
    ensures var s := Run(Started(senders), acts);
            var j := s.In(l).queue[i];
            j < |s.jobs| && s.jobs[j].owner < |s.senders| && s.senders[s.jobs[j].owner] == AtPost(j, l)
  {
    hide LaneOk, JobsOk, JobOk, Step, Enabled;
    RunInv(senders, acts);
    var s := Run(Started(senders), acts);
    SleeperQueue(s.In(l), s.jobs, l, i);
    JobAt(s, s.In(l).queue[i]);
    UnpostedOwner(s.jobs[s.In(l).queue[i]], s.In(l).queue[i], s.local, s.remote, s.senders, l);
  }

  lemma SleeperQueue(q: Queue, jobs: seq<Job>, l: Lane, i: nat)
    requires LaneOk(q, jobs, l) && q.pc.Waiting? && q.sem == 0 && i < |q.queue|
    ensures q.queue[i] < |jobs| && jobs[q.queue[i]].In(l).pos >= 0 && !jobs[q.queue[i]].In(l).posted
  {
    hide LogOk;
    assert q.queue[i] == q.pushed[q.taken + i];
  }

  lemma UnpostedOwner(job: Job, j: nat, local: Queue, remote: Queue, senders: seq<Sender>, l: Lane)
    requires JobOk(job, j, local, remote, senders) && job.In(l).pos >= 0 && !job.In(l).posted
    ensures job.owner < |senders| && senders[job.owner] == AtPost(j, l)
  {
    hide Balanced, CloserOk;
  }

  // ---- Push order ----

  /** Attempt x comes before attempt y in the lane's work order. */
  predicate Earlier(jobs: seq<Job>, l: Lane, x: Tried, y: Tried)
    requires x.j < |jobs| && y.j < |jobs|
  {
    var a, b := jobs[x.j].In(l).pos, jobs[y.j].In(l).pos;
    a < b || (a == b && x.j == y.j && x.i < y.i)
  }

  lemma {:induction false} TrailEntry(js: seq<nat>, jobs: seq<Job>, l: Lane, x: nat)
    requires Known(js, jobs) && forall i :: 0 <= i < |js| ==> jobs[js[i]].In(l).pos == i
    requires x < |Trail(js, jobs, l)|
    ensures var t := Trail(js, jobs, l)[x];
            && t.j < |jobs| && 0 <= jobs[t.j].In(l).pos < |js| && js[jobs[t.j].In(l).pos] == t.j
            && t.i < |jobs[t.j].In(l).outcomes| && t.outcome == jobs[t.j].In(l).outcomes[t.i]
  {
    var n := |js| - 1;
    if x < |Trail(js[..n], jobs, l)| {
      TrailEntry(js[..n], jobs, l, x);
    }
  }

  lemma {:induction false} TrailOrder(js: seq<nat>, jobs: seq<Job>, l: Lane, x: nat, y: nat)
    requires Known(js, jobs) && forall i :: 0 <= i < |js| ==> jobs[js[i]].In(l).pos == i
    requires x < y < |Trail(js, jobs, l)|
    ensures Trail(js, jobs, l)[x].j < |jobs| && Trail(js, jobs, l)[y].j < |jobs|
    ensures Earlier(jobs, l, Trail(js, jobs, l)[x], Trail(js, jobs, l)[y])
  {
    var n := |js| - 1;
    TrailEntry(js, jobs, l, y);
    if y < |Trail(js[..n], jobs, l)| {
      TrailOrder(js[..n], jobs, l, x, y);
    } else if x < |Trail(js[..n], jobs, l)| {
      TrailEntry(js[..n], jobs, l, x);
    }
  }

  lemma LogInOrder(q: Queue, jobs: seq<Job>, l: Lane, x: nat, y: nat)
    requires LaneOk(q, jobs, l) && x < y < |q.log|
    ensures q.log[x].j < |jobs| && q.log[y].j < |jobs| && Earlier(jobs, l, q.log[x], q.log[y])
    ensures 0 <= jobs[q.log[x].j].In(l).pos <= jobs[q.log[y].j].In(l).pos < q.taken <= |q.pushed|
    ensures q.pushed[jobs[q.log[x].j].In(l).pos] == q.log[x].j && q.pushed[jobs[q.log[y].j].In(l).pos] == q.log[y].j
    ensures jobs[q.log[x].j].In(l).pos == jobs[q.log[y].j].In(l).pos ==> q.log[x].j == q.log[y].j
  {
    var js := q.pushed[..q.taken];
    assert forall i :: 0 <= i < |js| ==> js[i] == q.pushed[i] && jobs[q.pushed[i]].In(l).pos == i;
    TrailOrder(js, jobs, l, x, y);
    TrailEntry(js, jobs, l, x);
    TrailEntry(js, jobs, l, y);
  }

  lemma LeftBehindDone(job: Job, j: nat, s: State, l: Lane)
    requires JobOk(job, j, s.local, s.remote, s.senders) && 0 <= job.In(l).pos < s.In(l).taken - 1
    ensures |job.In(l).outcomes| == |job.In(l).recvrs|
  {
    hide Balanced, CloserOk, OwnerOk;
  }

  /** Every job pushed is in the queue or has been popped, in push order. */
  lemma NothingLost(senders: nat, acts: seq<Action>, l: Lane, j: nat)
    requires ValidRun(Started(senders), acts) && j < |Run(Started(senders), acts).jobs|
    requires Run(Started(senders), acts).jobs[j].In(l).posted
    ensures var s := Run(Started(senders), acts);
            var q, p := s.In(l), s.jobs[j].In(l);
            || j in q.queue
            || Current(q, j)
            || |p.outcomes| == |p.recvrs|
  {
    hide LaneOk, JobsOk, JobOk, Step, Enabled;
    RunInv(senders, acts);
    var s := Run(Started(senders), acts);
    JobAt(s, j);
    JobParts(s.jobs[j], j, s, l);
    PostedPart(s.In(l), s.jobs, l, j, s.jobs[j].In(l));
  }

  lemma JobParts(job: Job, j: nat, s: State, l: Lane)
    requires JobOk(job, j, s.local, s.remote, s.senders)
    ensures PartOk(job.In(l), j, s.In(l))
  {
    hide PartOk, Balanced, CloserOk, OwnerOk;
  }

  lemma PostedPart(q: Queue, jobs: seq<Job>, l: Lane, j: nat, p: Part)
    requires LaneOk(q, jobs, l) && PartOk(p, j, q) && p.posted
    ensures j in q.queue || Current(q, j) || |p.outcomes| == |p.recvrs|
  {
    hide LogOk, Awake;
    if p.pos >= q.taken {
      assert q.queue[p.pos - q.taken] == j;
    }
  }
}
