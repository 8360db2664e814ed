/** What the IOSBs say, counted over the actions of a run: how often a transport refused a send, how
    often each receiver was attempted, and what each job was built for. */
module SendCounts {
  import opened SendMachine
  import opened SendInvariant
  import opened SendRuns

  /** In state s the action a attempts receiver i of lane l of job j. */
  predicate Attempts(s: State, a: Action, j: nat, l: Lane, i: nat) {
    a.Attempt? && a.lane == l && s.In(l).pc == Sending(j, i) && j < |s.jobs| && i < |s.jobs[j].In(l).recvrs|
  }

  /** In state s the action a is a send for job j that the transport refuses. */
  predicate Refuses(s: State, a: Action, j: nat) {
    && a.Attempt? && !a.ok && s.In(a.lane).pc.Sending?
    && Attempts(s, a, j, a.lane, s.In(a.lane).pc.i)
    && s.jobs[j].In(a.lane).recvrs[s.In(a.lane).pc.i].Present?
  }

  /** How many sends for job j were refused in the run. */
  function Refusals(s: State, acts: seq<Action>, j: nat): nat
    requires ValidRun(s, acts)
  {
    if acts == [] then 0
    else
      var n := |acts| - 1;
      Refusals(s, acts[..n], j) + (if Refuses(Run(s, acts[..n]), acts[n], j) then 1 else 0)
  }

  /** How many times receiver i of lane l of job j was attempted in the run. */
  function Visits(s: State, acts: seq<Action>, j: nat, l: Lane, i: nat): nat
    requires ValidRun(s, acts)
  {
    if acts == [] then 0
    else
      var n := |acts| - 1;
      Visits(s, acts[..n], j, l, i) + (if Attempts(Run(s, acts[..n]), acts[n], j, l, i) then 1 else 0)
  }

  /** The receivers that the calls of enqueue_send were made for, lane by lane, in order. */
  function Orders(acts: seq<Action>, l: Lane): seq<seq<Recvr>> {
    if acts == [] then []
    else
      var n := |acts| - 1;
      Orders(acts[..n], l) + if acts[n].Build? then [if l.Local? then acts[n].locals else acts[n].remotes] else []
  }

  function Counted(s: State, j: nat): nat {
    if j < |s.jobs| then s.jobs[j].local.fails + s.jobs[j].remote.fails else 0
  }

  function Visited(s: State, j: nat, l: Lane): nat {
    if j < |s.jobs| then |s.jobs[j].In(l).outcomes| else 0
  }

  /** Everything but an attempt leaves failure counts and outcomes alone. */
  lemma OthersCountNothing(s: State, a: Action, j: nat)
    requires Enabled(s, a) && !a.Attempt?
    ensures Counted(Step(s, a), j) == Counted(s, j)
  {
  }

  lemma OthersVisitNobody(s: State, a: Action, j: nat, l: Lane)
    requires Enabled(s, a) && !a.Attempt?
    ensures Visited(Step(s, a), j, l) == Visited(s, j, l)
  {
  }

  /** The failure count goes up exactly with a refusal. */
  lemma StepCounts(s: State, a: Action, j: nat)
    requires Enabled(s, a)
    ensures Counted(Step(s, a), j) == Counted(s, j) + (if Refuses(s, a, j) then 1 else 0)
  {
    if !a.Attempt? {
      hide Step, Enabled;
      OthersCountNothing(s, a, j);
    }
  }

  /** A lane goes through the receivers of a job one by one. */
  lemma StepVisits(s: State, a: Action, j: nat, l: Lane, i: nat)
    requires Inv(s) && Enabled(s, a)
    ensures (i < Visited(Step(s, a), j, l)) <==> (i < Visited(s, j, l) || Attempts(s, a, j, l, i))
    ensures Attempts(s, a, j, l, i) ==> i >= Visited(s, j, l)
  {
    if !a.Attempt? {
      hide Step, Enabled, Inv;
      OthersVisitNobody(s, a, j, l);
    } else {
      hide Inv;
      OneMore(s, a, j, l);
      if j < |s.jobs| && s.In(l).pc.Sending? && s.In(l).pc.j == j { AtNext(s, j, l); }
    }
  }

  lemma OneMore(s: State, a: Action, j: nat, l: Lane)
    requires Enabled(s, a) && a.Attempt?
    ensures Visited(Step(s, a), j, l) ==
              Visited(s, j, l) + if s.In(l).pc.Sending? && Attempts(s, a, j, l, s.In(l).pc.i) then 1 else 0
  {
  }

  lemma AtNext(s: State, j: nat, l: Lane)
    requires Inv(s) && j < |s.jobs| && s.In(l).pc.Sending? && s.In(l).pc.j == j
    ensures s.In(l).pc.i == |s.jobs[j].In(l).outcomes|
  {
    hide LogOk, Awake, Balanced, CloserOk, OwnerOk, Fails;
    assert s.In(l).pushed[s.In(l).taken - 1] == j;
    assert JobOk(s.jobs[j], j, s.local, s.remote, s.senders);
  }

  /** The jobs' receivers in a lane are those in os. */
  predicate Ordered(s: State, os: seq<seq<Recvr>>, l: Lane) {
    |s.jobs| == |os| && forall j :: 0 <= j < |os| ==> s.jobs[j].In(l).recvrs == os[j]
  }

  lemma StepOrders(s: State, a: Action, l: Lane, os: seq<seq<Recvr>>)
    requires Enabled(s, a) && Ordered(s, os, l)
    ensures Ordered(Step(s, a), os + if a.Build? then [if l.Local? then a.locals else a.remotes] else [], l)
  {
    hide Ordered, Step;
    if a.Build? {
      BuildOrders(s, a.c, a.locals, a.remotes, l, os);
      BuildIs(s, a);
    } else {
      assert os + [] == os;
      OthersKeepOrders(s, a, l, os);
    }
  }

  lemma BuildIs(s: State, a: Action)
    requires a.Build? && Enabled(s, a)
    ensures Step(s, a) == StepBuild(s, a.c, a.locals, a.remotes)
  {
  }

  lemma BuildOrders(s: State, c: nat, locals: seq<Recvr>, remotes: seq<Recvr>, l: Lane, os: seq<seq<Recvr>>)
    requires c < |s.senders| && Ordered(s, os, l)
    ensures Ordered(StepBuild(s, c, locals, remotes), os + [if l.Local? then locals else remotes], l)
  {
  }

  lemma OthersKeepOrders(s: State, a: Action, l: Lane, os: seq<seq<Recvr>>)
    requires Enabled(s, a) && !a.Build? && Ordered(s, os, l)
    ensures Ordered(Step(s, a), os, l)
  {
  }

  lemma {:induction false} RunCounts(senders: nat, acts: seq<Action>, j: nat)
    requires ValidRun(Started(senders), acts)
    ensures Counted(Run(Started(senders), acts), j) == Refusals(Started(senders), acts, j)
  {
    hide Step, Enabled, Refuses, Counted;
    if acts == [] {
      StartedCounts(senders, j);
    } else {
      var n := |acts| - 1;
      RunCounts(senders, acts[..n], j);
      StepCounts(Run(Started(senders), acts[..n]), acts[n], j);
    }
  }

  lemma StartedCounts(senders: nat, j: nat)
    ensures Counted(Started(senders), j) == 0
  {
  }

  lemma {:induction false} RunVisits(senders: nat, acts: seq<Action>, j: nat, l: Lane, i: nat)
    requires ValidRun(Started(senders), acts)
    ensures Visits(Started(senders), acts, j, l, i) ==
              if i < Visited(Run(Started(senders), acts), j, l) then 1 else 0
  {
    hide Inv, Step, Enabled, Attempts;
    if acts != [] {
      var n := |acts| - 1;
      RunInv(senders, acts[..n]);
      RunVisits(senders, acts[..n], j, l, i);
      StepVisits(Run(Started(senders), acts[..n]), acts[n], j, l, i);
    }
  }

  /** Every job has the receivers it was built for. */
  lemma {:induction false} AsOrdered(senders: nat, acts: seq<Action>, l: Lane)
    requires ValidRun(Started(senders), acts)
    ensures Ordered(Run(Started(senders), acts), Orders(acts, l), l)
  {
    if acts != [] {
      hide Step, Enabled, Ordered;
      var n := |acts| - 1;
      AsOrdered(senders, acts[..n], l);
      StepOrders(Run(Started(senders), acts[..n]), acts[n], l, Orders(acts[..n], l));
    }
  }

  /** Every receiver that job j was built for has been attempted exactly once in the run. */
  ghost predicate AllVisited(senders: nat, acts: seq<Action>, j: nat)
    requires ValidRun(Started(senders), acts)
  {
    forall l: Lane, i: nat :: j < |Orders(acts, l)| && i < |Orders(acts, l)[j]| ==>
      Visits(Started(senders), acts, j, l, i) == 1
  }

  lemma AttemptedIsVisited(senders: nat, acts: seq<Action>, j: nat)
    requires ValidRun(Started(senders), acts) && j < |Run(Started(senders), acts).jobs|
    requires AllAttempted(Run(Started(senders), acts).jobs[j])
    ensures AllVisited(senders, acts, j)
  {
    hide Step, Enabled;
    forall l: Lane, i: nat | j < |Orders(acts, l)| && i < |Orders(acts, l)[j]|
      ensures Visits(Started(senders), acts, j, l, i) == 1
    {
      AsOrdered(senders, acts, l);
      RunVisits(senders, acts, j, l, i);
    }
  }

  lemma RecordIsSum(job: Job, j: nat, s: State)
    requires JobOk(job, j, s.local, s.remote, s.senders)
    ensures TrueRecord(job)
    ensures job.records != [] ==> job.records == [job.local.fails + job.remote.fails]
  {
    hide Fails;
    JobRecord(job, j, s.local, s.remote, s.senders);
  }

  /** No job's IOSB is written twice. When it is written every receiver has been attempted exactly
      once, and the record is the number of sends that the transports refused during the run: a
      missing receiver and an accepted send never count. The semaphore is signalled as often as a
      record is written, and no completion ever finds the job already completed. */
  lemma WrittenOnce(senders: nat, acts: seq<Action>, j: nat)
    requires ValidRun(Started(senders), acts)
    ensures var s := Run(Started(senders), acts);
            && s.strays == 0
            && (j < |s.jobs| ==> s.jobs[j].signals == |s.jobs[j].records| <= 1)
            && (j < |s.jobs| && s.jobs[j].records != [] ==>
                  s.jobs[j].records == [Refusals(Started(senders), acts, j)] && AllVisited(senders, acts, j))
  {
    hide LaneOk, JobsOk, JobOk, PartOk, Step, Enabled, Refusals, AllVisited, Fails;
    RunInv(senders, acts);
    var s := Run(Started(senders), acts);
    if j < |s.jobs| {
      JobAt(s, j);
      RecordIsSum(s.jobs[j], j, s);
      RunCounts(senders, acts, j);
      if s.jobs[j].records != [] { AttemptedIsVisited(senders, acts, j); }
    }
  }

  /** A system at rest has completed every job. */
  lemma RestMeansDone(senders: nat, acts: seq<Action>, j: nat)
    requires ValidRun(Started(senders), acts) && AtRest(Run(Started(senders), acts))
    requires j < |Run(Started(senders), acts).jobs|
    ensures var job := Run(Started(senders), acts).jobs[j];
            && job.records == [Refusals(Started(senders), acts, j)] && job.signals == 1
            && AllVisited(senders, acts, j)
  {
    hide LaneOk, JobsOk, PartOk, Step, Enabled, Fails, Refusals, AllVisited;
    RunInv(senders, acts);
    var s := Run(Started(senders), acts);
    JobAt(s, j);
    NothingQueued(s.local, s.jobs, Local, j);
    NothingQueued(s.remote, s.jobs, Remote, j);
    RecordIsSum(s.jobs[j], j, s);
    WrittenOnce(senders, acts, j);
  }

  /** No receiver is ever attempted twice. */
  lemma NeverTwice(senders: nat, acts: seq<Action>, j: nat, l: Lane, i: nat)
    requires ValidRun(Started(senders), acts)
    ensures Visits(Started(senders), acts, j, l, i) <= 1
  {
    RunVisits(senders, acts, j, l, i);
  }

  // ---- Order ----

  /** The jobs pushed to a lane in the run, in order. */
  function PushedJobs(s: State, acts: seq<Action>, l: Lane): seq<nat>
    requires ValidRun(s, acts)
  {
    if acts == [] then []
    else
      var n := |acts| - 1;
      var t, a := Run(s, acts[..n]), acts[n];
      PushedJobs(s, acts[..n], l) +
      if a.Push? && t.senders[a.c].lane == l then [t.senders[a.c].j] else []
  }

  /** What an attempt comes to. */
  function ComesTo(r: Recvr, ok: bool): Outcome {
    if r.Missing? then Skipped else if ok then Sent else Failed
  }

  /** The attempts of a lane in the run, in order. */
  function AttemptTrail(s: State, acts: seq<Action>, l: Lane): seq<Tried>
    requires ValidRun(s, acts)
  {
    if acts == [] then []
    else
      var n := |acts| - 1;
      var t, a := Run(s, acts[..n]), acts[n];
      AttemptTrail(s, acts[..n], l) +
      if t.In(l).pc.Sending? && Attempts(t, a, t.In(l).pc.j, l, t.In(l).pc.i)
      then [Tried(t.In(l).pc.j, t.In(l).pc.i, ComesTo(t.jobs[t.In(l).pc.j].In(l).recvrs[t.In(l).pc.i], a.ok))]
      else []
  }

  lemma StepHistory(s: State, a: Action, l: Lane)
    requires Enabled(s, a)
    ensures Step(s, a).In(l).pushed ==
              s.In(l).pushed + if a.Push? && s.senders[a.c].lane == l then [s.senders[a.c].j] else []
    ensures Step(s, a).In(l).log == s.In(l).log +
              if s.In(l).pc.Sending? && Attempts(s, a, s.In(l).pc.j, l, s.In(l).pc.i)
              then [Tried(s.In(l).pc.j, s.In(l).pc.i,
                ComesTo(s.jobs[s.In(l).pc.j].In(l).recvrs[s.In(l).pc.i], a.ok))]
              else []
  {
  }

  lemma {:induction false} RunHistory(senders: nat, acts: seq<Action>, l: Lane)
    requires ValidRun(Started(senders), acts)
    ensures Run(Started(senders), acts).In(l).pushed == PushedJobs(Started(senders), acts, l)
    ensures Run(Started(senders), acts).In(l).log == AttemptTrail(Started(senders), acts, l)
  {
    hide Step, Enabled, Attempts;
    if acts != [] {
      var n := |acts| - 1;
      RunHistory(senders, acts[..n], l);
      StepHistory(Run(Started(senders), acts[..n]), acts[n], l);
    }
  }

  /** A lane attempts the receivers of its jobs in the order in which the jobs were pushed, those of
      one job in list order, and has attempted all of a job's when it comes to the next job. */
  lemma WorkedInOrder(senders: nat, acts: seq<Action>, l: Lane, x: nat, y: nat) returns (p: nat, q: nat)
    requires ValidRun(Started(senders), acts) && x < y < |AttemptTrail(Started(senders), acts, l)|
    ensures var a, b := AttemptTrail(Started(senders), acts, l)[x], AttemptTrail(Started(senders), acts, l)[y];
            var pushed := PushedJobs(Started(senders), acts, l);
            && p < |pushed| && q < |pushed| && pushed[p] == a.j && pushed[q] == b.j
            && (p < q || (p == q && a.i < b.i))
            && (a.j != b.j ==> forall i: nat :: a.j < |Orders(acts, l)| && i < |Orders(acts, l)[a.j]| ==>
                  Visits(Started(senders), acts, a.j, l, i) == 1)
  {
    hide LaneOk, JobsOk, JobOk, Step, Enabled, Trail, PushedJobs, AttemptTrail, Visits;
    RunInv(senders, acts);
    RunHistory(senders, acts, l);
    var s := Run(Started(senders), acts);
    var a, b := s.In(l).log[x], s.In(l).log[y];
    LogInOrder(s.In(l), s.jobs, l, x, y);
    p, q := s.jobs[a.j].In(l).pos, s.jobs[b.j].In(l).pos;
    if a.j != b.j {
      JobAt(s, a.j);
      LeftBehindDone(s.jobs[a.j], a.j, s, l);
      AsOrdered(senders, acts, l);
      forall i: nat | i < |Orders(acts, l)[a.j]|
        ensures Visits(Started(senders), acts, a.j, l, i) == 1
      {
        RunVisits(senders, acts, a.j, l, i);
      }
    }
  }

  // ---- Semaphores ----

  /** How many posts of the lane's semaphore the run holds. */
  function Posts(s: State, acts: seq<Action>, l: Lane): nat
    requires ValidRun(s, acts)
  {
    if acts == [] then 0
    else
      var n := |acts| - 1;
      var t, a := Run(s, acts[..n]), acts[n];
      Posts(s, acts[..n], l) + (if a.Post? && a.c < |t.senders| && t.senders[a.c].AtPost? && t.senders[a.c].lane == l
                                then 1 else 0)
  }

  function Wakes(acts: seq<Action>, l: Lane): nat {
    if acts == [] then 0
    else Wakes(acts[..|acts| - 1], l) + (if acts[|acts| - 1] == Wake(l) then 1 else 0)
  }

  /** Every wakeup of a send worker uses up one post. */
  lemma {:induction false} WakeupsArePosts(senders: nat, acts: seq<Action>, l: Lane)
    requires ValidRun(Started(senders), acts)
    ensures Run(Started(senders), acts).In(l).sem + Wakes(acts, l) == Posts(Started(senders), acts, l)
  {
    if acts != [] {
      hide Decide, StepSwap, StepAttempt;
      var n := |acts| - 1;
      WakeupsArePosts(senders, acts[..n], l);
      SemaphoreStep(Run(Started(senders), acts[..n]), acts[n], l);
    }
  }

  lemma SemaphoreStep(s: State, a: Action, l: Lane)
    requires Enabled(s, a)
    ensures Step(s, a).In(l).sem == s.In(l).sem
              + (if a.Post? && s.senders[a.c].lane == l then 1 else 0) - (if a == Wake(l) then 1 else 0)
  {
  }
}
