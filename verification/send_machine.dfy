/** Send jobs shared by two send workers: callers of ConnectionManager::enqueue_send, the local and
    the remote SendWorker, and the counter SendJob::pending_sends between them, interleaved one
    shared access at a time. */
module SendMachine {

  datatype Lane = Local | Remote

  /** An entry of a receiver list; a transport can be missing. */
  datatype Recvr = Missing | Present

  /** What became of one receiver. */
  datatype Outcome = Skipped | Sent | Failed

  /** One lane's share of a job. pos, posted, done and outcomes record history: the place in the
      lane's push order (-1 before the push), whether the post followed, how many receivers have been
      counted down, and what happened to those attempted. */
  datatype Part = Part(recvrs: seq<Recvr>, fails: nat, pos: int, posted: bool, done: nat, outcomes: seq<Outcome>)

  /** Who writes the job's IOSB. */
  datatype Closer = Nobody | Worker(lane: Lane) | Caller | Closed

  /** records holds the fail counts written to the publisher's IOSB for this job, signals counts the
      semaphore posts; owner and closer record history. */
  datatype Job = Job(local: Part, remote: Part, pending: nat, records: seq<nat>, signals: nat, owner: nat,
      closer: Closer) {
    function In(lane: Lane): Part {
      if lane.Local? then local else remote
    }

    function With(lane: Lane, p: Part): Job {
      if lane.Local? then this.(local := p) else this.(remote := p)
    }
  }

  /** Where a send worker stands; i is the receiver it is at. */
  datatype Pc =
    | Waiting
    | Popping
    | Sending(j: nat, i: nat)
    | Loading(j: nat, i: nat)               // complete_one, about to load pending_sends
    | Swapping(j: nat, i: nat, seen: nat)   // about to compare and exchange
    | Finalizing(j: nat, i: nat)

  /** pushed and taken record history: every job pushed so far, and how many were popped. log is
      what the worker has done, in order. */
  datatype Tried = Tried(j: nat, i: nat, outcome: Outcome)
  datatype Queue = Queue(queue: seq<nat>, sem: nat, pc: Pc, pushed: seq<nat>, taken: nat, log: seq<Tried>)

  /** Where a thread stands in enqueue_send. */
  datatype Sender = Idle | AtPush(j: nat, lane: Lane) | AtPost(j: nat, lane: Lane) | AtFinalize(j: nat)

  datatype State = State(jobs: seq<Job>, local: Queue, remote: Queue, senders: seq<Sender>, strays: nat) {
    function In(lane: Lane): Queue {
      if lane.Local? then local else remote
    }

    function With(lane: Lane, q: Queue): State {
      if lane.Local? then this.(local := q) else this.(remote := q)
    }

    function WithJob(j: nat, job: Job): State
      requires j < |jobs|
    {
      this.(jobs := jobs[j := job])
    }
  }

  datatype Action =
    | Build(c: nat, locals: seq<Recvr>, remotes: seq<Recvr>)
    | Push(c: nat)
    | Post(c: nat)
    | CallerFinalize(c: nat)
    | Wake(lane: Lane)
    | Pop(lane: Lane)
    | Attempt(lane: Lane, ok: bool)
    | Load(lane: Lane)
    | Swap(lane: Lane, spurious: bool)
    | Finalize(lane: Lane)

  predicate Enabled(s: State, a: Action) {
    match a
    case Build(c, _, _) => c < |s.senders| && s.senders[c].Idle?
    case Push(c) => c < |s.senders| && s.senders[c].AtPush? && s.senders[c].j < |s.jobs|
    case Post(c) => c < |s.senders| && s.senders[c].AtPost? && s.senders[c].j < |s.jobs|
    case CallerFinalize(c) => c < |s.senders| && s.senders[c].AtFinalize? && s.senders[c].j < |s.jobs|
    case Wake(l) => s.In(l).pc.Waiting? && s.In(l).sem > 0
    case Pop(l) => s.In(l).pc.Popping?
    case Attempt(l, _) => s.In(l).pc.Sending? && s.In(l).pc.j < |s.jobs|
    case Load(l) => s.In(l).pc.Loading? && s.In(l).pc.j < |s.jobs|
    case Swap(l, _) => s.In(l).pc.Swapping? && s.In(l).pc.j < |s.jobs| && s.In(l).pc.seen > 0
    case Finalize(l) => s.In(l).pc.Finalizing? && s.In(l).pc.j < |s.jobs|
  }

  function Fresh(recvrs: seq<Recvr>): Part {
    Part(recvrs, 0, -1, false, 0, [])
  }

  /** What a thread with job j does next, once it is done with the local lane. */
  function AfterLocal(j: nat, remotes: seq<Recvr>): Sender {
    if remotes != [] then AtPush(j, Remote) else Idle
  }

  /** finalize_send_iosb: one record with the failures of both lanes, one signal. */
  function Closing(job: Job): Job {
    job.(records := job.records + [job.local.fails + job.remote.fails], signals := job.signals + 1, closer := Closed)
  }

  /** The worker is done with receiver i. */
  function Next(q: Queue, j: nat, i: nat): Queue {
    q.(pc := Sending(j, i + 1))
  }

  /** complete_one with the value of pending_sends at hand. */
  function Decide(s: State, lane: Lane, j: nat, i: nat, pending: nat): State {
    if pending == 0 then s.With(lane, Next(s.In(lane), j, i)).(strays := s.strays + 1)
    else s.With(lane, s.In(lane).(pc := Swapping(j, i, pending)))
  }

  function StepBuild(s: State, c: nat, locals: seq<Recvr>, remotes: seq<Recvr>): State
    requires c < |s.senders|
  {
    var j := |s.jobs|;
    var none := locals == [] && remotes == [];
    var job := Job(Fresh(locals), Fresh(remotes), |locals| + |remotes|, [], 0, c, if none then Caller else Nobody);
    var next := if none then AtFinalize(j) else if locals != [] then AtPush(j, Local) else AtPush(j, Remote);
    s.(jobs := s.jobs + [job], senders := s.senders[c := next])
  }

  function StepPush(s: State, c: nat): State
    requires Enabled(s, Push(c))
  {
    var AtPush(j, l) := s.senders[c];
    var q, job := s.In(l), s.jobs[j];
    s.With(l, q.(queue := q.queue + [j], pushed := q.pushed + [j]))
    .WithJob(j, job.With(l, job.In(l).(pos := |q.pushed|)))
    .(senders := s.senders[c := AtPost(j, l)])
  }

  function StepPost(s: State, c: nat): State
    requires Enabled(s, Post(c))
  {
    var AtPost(j, l) := s.senders[c];
    var q, job := s.In(l), s.jobs[j];
    s.With(l, q.(sem := q.sem + 1))
    .WithJob(j, job.With(l, job.In(l).(posted := true)))
    .(senders := s.senders[c := if l.Local? then AfterLocal(j, job.remote.recvrs) else Idle])
  }

  function StepPop(s: State, l: Lane): State {
    var q := s.In(l);
    if q.queue == [] then s.With(l, q.(pc := Waiting))
    else s.With(l, q.(queue := q.queue[1..], taken := q.taken + 1, pc := Sending(q.queue[0], 0)))
  }

  function StepAttempt(s: State, l: Lane, ok: bool): State
    requires Enabled(s, Attempt(l, ok))
  {
    var q := s.In(l);
    var Sending(j, i) := q.pc;
    var job := s.jobs[j];
    var p := job.In(l);
    if i >= |p.recvrs| then s.With(l, q.(pc := Popping))
    else
      var outcome := if p.recvrs[i].Missing? then Skipped else if ok then Sent else Failed;
      var fails := if outcome.Failed? then p.fails + 1 else p.fails;
      s.With(l, q.(pc := Loading(j, i), log := q.log + [Tried(j, i, outcome)]))
      .WithJob(j, job.With(l, p.(fails := fails, outcomes := p.outcomes + [outcome])))
  }

  function StepSwap(s: State, l: Lane, spurious: bool): State
    requires Enabled(s, Swap(l, spurious))
  {
    var q := s.In(l);
    var Swapping(j, i, seen) := q.pc;
    var job := s.jobs[j];
    if job.pending != seen || spurious then Decide(s, l, j, i, job.pending)
    else
      var left := seen - 1;
      var p := job.In(l);
      s.With(l, if left == 0 then q.(pc := Finalizing(j, i)) else Next(q, j, i))
      .WithJob(j, job.With(l, p.(done := p.done + 1))
                  .(pending := left, closer := if left == 0 then Worker(l) else job.closer))
  }

  function Step(s: State, a: Action): State
    requires Enabled(s, a)
  {
    match a
    case Build(c, locals, remotes) => StepBuild(s, c, locals, remotes)
    case Push(c) => StepPush(s, c)
    case Post(c) => StepPost(s, c)
    case CallerFinalize(c) =>
      var j := s.senders[c].j;
      s.WithJob(j, Closing(s.jobs[j])).(senders := s.senders[c := Idle])
    case Wake(l) => s.With(l, s.In(l).(pc := Popping, sem := s.In(l).sem - 1))
    case Pop(l) => StepPop(s, l)
    case Attempt(l, ok) => StepAttempt(s, l, ok)
    case Load(l) => Decide(s, l, s.In(l).pc.j, s.In(l).pc.i, s.jobs[s.In(l).pc.j].pending)
    case Swap(l, spurious) => StepSwap(s, l, spurious)
    case Finalize(l) =>
      var Finalizing(j, i) := s.In(l).pc;
      s.With(l, Next(s.In(l), j, i)).WithJob(j, Closing(s.jobs[j]))
  }

  /** No jobs yet, both workers started, nobody sending. */
  function Started(senders: nat): State {
    var q := Queue([], 0, Waiting, [], 0, []);
    State([], q, q, seq(senders, _ => Idle), 0)
  }
}
