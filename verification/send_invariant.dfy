/** What every interleaving of senders and send workers keeps. */
module SendInvariant {
  import opened SendMachine

  function Fails(os: seq<Outcome>): nat {
    if os == [] then 0
    else Fails(os[..|os| - 1]) + (if os[|os| - 1].Failed? then 1 else 0)
  }

  lemma FailsPush(os: seq<Outcome>, o: Outcome)
    ensures Fails(os + [o]) == Fails(os) + (if o.Failed? then 1 else 0)
  {
    assert (os + [o])[..|os|] == os;
  }

  predicate Busy(pc: Pc) {
    !pc.Waiting? && !pc.Popping?
  }

  predicate Current(q: Queue, j: nat) {
    Busy(q.pc) && q.pc.j == j
  }

  /** The lane's counts agree with where its worker stands in the job. */
  predicate AtReceiver(p: Part, pc: Pc)
    requires Busy(pc)
  {
    match pc
    case Sending(_, i) => p.done == i == |p.outcomes|
    case Loading(_, i) => p.done == i && |p.outcomes| == i + 1
    case Swapping(_, i, seen) => p.done == i && |p.outcomes| == i + 1 && seen > 0
    case Finalizing(_, i) => p.done == i + 1 == |p.outcomes|
  }

  predicate PartOk(p: Part, j: nat, q: Queue) {
    && p.fails == Fails(p.outcomes)
    && p.done <= |p.outcomes| <= |p.recvrs|
    && -1 <= p.pos
    && (if p.pos >= 0 then p.recvrs != [] && p.pos < |q.pushed| && q.pushed[p.pos] == j else !p.posted)
    && (p.pos < 0 || p.pos >= q.taken ==> p.outcomes == [] && !Current(q, j))
    && (0 <= p.pos < q.taken ==> if Current(q, j) then p.pos == q.taken - 1 && AtReceiver(p, q.pc)
       else p.done == |p.recvrs|)
  }

  predicate QueueOk(q: Queue, jobs: seq<Job>, l: Lane) {
    && q.taken <= |q.pushed| && q.queue == q.pushed[q.taken..]
    && (forall i :: 0 <= i < |q.pushed| ==> q.pushed[i] < |jobs| && jobs[q.pushed[i]].In(l).pos == i)
    && (Busy(q.pc) ==> q.taken > 0 && q.pc.j == q.pushed[q.taken - 1])
  }

  function Tries(j: nat, os: seq<Outcome>): seq<Tried> {
    seq(|os|, i requires 0 <= i < |os| => Tried(j, i, os[i]))
  }

  predicate Known(js: seq<nat>, jobs: seq<Job>) {
    forall i :: 0 <= i < |js| ==> js[i] < |jobs|
  }

  /** The outcomes of the jobs js one after the other. */
  function Trail(js: seq<nat>, jobs: seq<Job>, l: Lane): seq<Tried>
    requires Known(js, jobs)
  {
    if js == [] then []
    else var n := |js| - 1; Trail(js[..n], jobs, l) + Tries(js[n], jobs[js[n]].In(l).outcomes)
  }

  predicate LogOk(q: Queue, jobs: seq<Job>, l: Lane) {
    q.taken <= |q.pushed| && Known(q.pushed[..q.taken], jobs) && q.log == Trail(q.pushed[..q.taken], jobs, l)
  }

  /** A worker asleep with no wakeup pending has no posted job in its queue. */
  predicate Awake(q: Queue, jobs: seq<Job>, l: Lane) {
    q.pc.Waiting? && q.sem == 0 ==>
      forall i :: q.taken <= i < |q.pushed| && q.pushed[i] < |jobs| ==> !jobs[q.pushed[i]].In(l).posted
  }

  predicate LaneOk(q: Queue, jobs: seq<Job>, l: Lane) {
    QueueOk(q, jobs, l) && LogOk(q, jobs, l) && Awake(q, jobs, l)
  }

  /** pending_sends counts the receivers that nobody has counted down yet. */
  predicate Balanced(job: Job) {
    && job.local.done <= |job.local.recvrs| && job.remote.done <= |job.remote.recvrs|
    && job.pending == |job.local.recvrs| - job.local.done + |job.remote.recvrs| - job.remote.done
  }

  predicate FinalizingAt(q: Queue, j: nat) {
    q.pc.Finalizing? && q.pc.j == j
  }

  /** Exactly one party closes the job, once nothing is pending. */
  predicate CloserOk(job: Job, j: nat, local: Queue, remote: Queue) {
    && (job.closer == Nobody <==> job.pending > 0)
    && job.signals == |job.records|
    && (if job.closer == Closed then job.records == [job.local.fails + job.remote.fails] else job.records == [])
    && (job.closer == Worker(Local) <==> FinalizingAt(local, j))
    && (job.closer == Worker(Remote) <==> FinalizingAt(remote, j))
  }

  predicate HandedOver(p: Part) {
    p.recvrs == [] || p.posted
  }

  /** What is left to do for the thread that built the job. */
  predicate OwnerOk(job: Job, j: nat, pc: Sender) {
    var mine := !pc.Idle? && pc.j == j;
    && (job.closer == Caller <==> mine && pc.AtFinalize?)
    && if !mine then HandedOver(job.local) && HandedOver(job.remote)
       else match pc
         case AtPush(_, l) =>
           && job.In(l).recvrs != [] && job.In(l).pos < 0
           && if l.Local? then job.remote.pos < 0 else HandedOver(job.local)
         case AtPost(_, l) =>
           && job.In(l).pos >= 0 && !job.In(l).posted
           && if l.Local? then job.remote.pos < 0 else HandedOver(job.local)
         case AtFinalize(_) => job.local.recvrs == [] && job.remote.recvrs == []
         case Idle => true
  }

  predicate JobOk(job: Job, j: nat, local: Queue, remote: Queue, senders: seq<Sender>) {
    && PartOk(job.local, j, local) && PartOk(job.remote, j, remote)
    && Balanced(job) && CloserOk(job, j, local, remote)
    && job.owner < |senders| && OwnerOk(job, j, senders[job.owner])
  }

  predicate SendersOk(senders: seq<Sender>, jobs: seq<Job>) {
    forall c :: 0 <= c < |senders| && !senders[c].Idle? ==> senders[c].j < |jobs| && jobs[senders[c].j].owner == c
  }

  predicate JobsOk(jobs: seq<Job>, local: Queue, remote: Queue, senders: seq<Sender>) {
    forall j :: 0 <= j < |jobs| ==> JobOk(jobs[j], j, local, remote, senders)
  }

  predicate Inv(s: State) {
    && LaneOk(s.local, s.jobs, Local) && LaneOk(s.remote, s.jobs, Remote)
    && JobsOk(s.jobs, s.local, s.remote, s.senders) && SendersOk(s.senders, s.jobs)
    && s.strays == 0
  }

  lemma StartedInv(senders: nat)
    ensures Inv(Started(senders))
  {
  }

  // ---- What the log says when jobs change ----

  lemma {:induction false} TrailKept(js: seq<nat>, jobs: seq<Job>, jobs': seq<Job>, l: Lane)
    requires Known(js, jobs) && |jobs| <= |jobs'|
    requires forall i :: 0 <= i < |js| ==> jobs'[js[i]].In(l).outcomes == jobs[js[i]].In(l).outcomes
    ensures Known(js, jobs') && Trail(js, jobs', l) == Trail(js, jobs, l)
  {
    if js != [] {
      TrailKept(js[..|js| - 1], jobs, jobs', l);
    }
  }

  lemma TriesPush(j: nat, os: seq<Outcome>, o: Outcome)
    ensures Tries(j, os + [o]) == Tries(j, os) + [Tried(j, |os|, o)]
  {
  }

  // ---- Lanes ----

  /** The jobs have changed, but not in what the lane depends on. */
  lemma LaneKept(q: Queue, jobs: seq<Job>, jobs': seq<Job>, l: Lane)
    requires LaneOk(q, jobs, l) && |jobs| <= |jobs'|
    requires forall j :: 0 <= j < |jobs| ==>
               var p, p' := jobs[j].In(l), jobs'[j].In(l);
               p'.pos == p.pos && p'.outcomes == p.outcomes && p'.posted == p.posted
    ensures LaneOk(q, jobs', l)
  {
    TrailKept(q.pushed[..q.taken], jobs, jobs', l);
  }

  /** Nothing the lane's worker or queue has done concerns job k. */
  predicate Unmoved(q: Queue, q': Queue, k: nat) {
    && q.pushed <= q'.pushed && q.taken <= q'.taken
    && (forall i :: q.taken <= i < q'.taken && i < |q.pushed| ==> q.pushed[i] != k)
    && (Current(q, k) <==> Current(q', k)) && (Current(q, k) ==> q'.pc == q.pc && q'.taken == q.taken)
  }

  predicate About(pc: Sender, k: nat) {
    !pc.Idle? && pc.j == k
  }

  /** The thread that owns job k has not changed its mind about it. */
  predicate SameOwner(senders: seq<Sender>, senders': seq<Sender>, owner: nat, k: nat)
    requires owner < |senders|
  {
    owner < |senders'| && (senders'[owner] == senders[owner] || (!About(senders[owner], k)
      && !About(senders'[owner], k)))
  }

  lemma PartKept(p: Part, k: nat, q: Queue, q': Queue)
    requires PartOk(p, k, q) && Unmoved(q, q', k)
    ensures PartOk(p, k, q')
  {
  }

  lemma JobKept(job: Job, k: nat, local: Queue, remote: Queue, senders: seq<Sender>,
                local': Queue, remote': Queue, senders': seq<Sender>)
    requires JobOk(job, k, local, remote, senders)
    requires Unmoved(local, local', k) && Unmoved(remote, remote', k) && SameOwner(senders, senders', job.owner, k)
    ensures JobOk(job, k, local', remote', senders')
  {
    hide PartOk, Balanced;
    PartKept(job.local, k, local, local');
    PartKept(job.remote, k, remote, remote');
  }

  /** Only job j and what concerns it have changed. */
  lemma JobsKept(s: State, s': State, j: nat)
    requires JobsOk(s.jobs, s.local, s.remote, s.senders) && SendersOk(s.senders, s.jobs)
    requires |s'.jobs| == |s.jobs| && |s'.senders| == |s.senders|
    requires forall k :: 0 <= k < |s.jobs| && k != j ==> s'.jobs[k] == s.jobs[k]
    requires forall k: nat :: k != j ==> Unmoved(s.local, s'.local, k) && Unmoved(s.remote, s'.remote, k)
    requires forall c :: 0 <= c < |s.senders| ==>
               s'.senders[c] == s.senders[c] || forall k: nat :: k != j ==>
                 !About(s.senders[c], k) && !About(s'.senders[c], k)
    requires j < |s.jobs| ==> JobOk(s'.jobs[j], j, s'.local, s'.remote, s'.senders)
    ensures JobsOk(s'.jobs, s'.local, s'.remote, s'.senders)
  {
    hide PartOk, Balanced, CloserOk, OwnerOk, Unmoved;
    forall k | 0 <= k < |s'.jobs|
      ensures JobOk(s'.jobs[k], k, s'.local, s'.remote, s'.senders)
    {
      if k != j {
        assert JobOk(s.jobs[k], k, s.local, s.remote, s.senders);
        JobKept(s.jobs[k], k, s.local, s.remote, s.senders, s'.local, s'.remote, s'.senders);
      }
    }
  }

  // ---- One step of a thread or worker ----

  lemma BuildInv(s: State, c: nat, locals: seq<Recvr>, remotes: seq<Recvr>)
    requires Inv(s) && c < |s.senders| && s.senders[c].Idle?
    ensures Inv(StepBuild(s, c, locals, remotes))
  {
    hide PartOk, QueueOk, LogOk, Awake, Balanced, CloserOk;
    var s', j := StepBuild(s, c, locals, remotes), |s.jobs|;
    LaneKept(s.local, s.jobs, s'.jobs, Local);
    LaneKept(s.remote, s.jobs, s'.jobs, Remote);
    NotYetThere(s.local, s.jobs, Local);
    NotYetThere(s.remote, s.jobs, Remote);
    BuiltJob(s, c, locals, remotes);
    forall k | 0 <= k < j
      ensures JobOk(s'.jobs[k], k, s'.local, s'.remote, s'.senders)
    {
      JobKept(s.jobs[k], k, s.local, s.remote, s.senders, s'.local, s'.remote, s'.senders);
    }
  }

  lemma BuiltJob(s: State, c: nat, locals: seq<Recvr>, remotes: seq<Recvr>)
    requires c < |s.senders| && !Current(s.local, |s.jobs|) && !Current(s.remote, |s.jobs|)
    ensures var s', j := StepBuild(s, c, locals, remotes), |s.jobs|;
            JobOk(s'.jobs[j], j, s'.local, s'.remote, s'.senders)
  {
  }

  lemma NotYetThere(q: Queue, jobs: seq<Job>, l: Lane)
    requires QueueOk(q, jobs, l)
    ensures !Current(q, |jobs|)
  {
  }

  lemma PushLane(q: Queue, q': Queue, jobs: seq<Job>, jobs': seq<Job>, l: Lane, j: nat)
    requires LaneOk(q, jobs, l) && j < |jobs| == |jobs'| && jobs[j].In(l).pos < 0 && !jobs[j].In(l).posted
    requires q' == q.(queue := q.queue + [j], pushed := q.pushed + [j])
    requires jobs' == jobs[j := jobs[j].With(l, jobs[j].In(l).(pos := |q.pushed|))]
    ensures LaneOk(q', jobs', l)
  {
    assert q'.pushed[..q'.taken] == q.pushed[..q.taken];
    TrailKept(q.pushed[..q.taken], jobs, jobs', l);
  }

  lemma PushJob(s: State, c: nat)
    requires Enabled(s, Push(c)) && JobOk(s.jobs[s.senders[c].j], s.senders[c].j, s.local, s.remote, s.senders)
    requires s.jobs[s.senders[c].j].owner == c && s.In(s.senders[c].lane).taken <= |s.In(s.senders[c].lane).pushed|
    ensures var s', j := StepPush(s, c), s.senders[c].j;
            JobOk(s'.jobs[j], j, s'.local, s'.remote, s'.senders)
  {
  }

  lemma PushInv(s: State, c: nat)
    requires Inv(s) && Enabled(s, Push(c))
    ensures Inv(StepPush(s, c))
  {
    hide PartOk, QueueOk, LogOk, Awake, Balanced, CloserOk;
    var s', j, l := StepPush(s, c), s.senders[c].j, s.senders[c].lane;
    assert JobOk(s.jobs[j], j, s.local, s.remote, s.senders);
    TakenBound(s, l);
    NotPushed(s, c);
    PushJob(s, c);
    PushLane(s.In(l), s'.In(l), s.jobs, s'.jobs, l, j);
    if l.Local? { LaneKept(s.remote, s.jobs, s'.jobs, Remote); } else { LaneKept(s.local, s.jobs, s'.jobs, Local); }
    JobsKept(s, s', j);
  }

  lemma TakenBound(s: State, l: Lane)
    requires LaneOk(s.In(l), s.jobs, l)
    ensures s.In(l).taken <= |s.In(l).pushed|
  {
  }

  lemma NotPushed(s: State, c: nat)
    requires Enabled(s, Push(c)) && JobOk(s.jobs[s.senders[c].j], s.senders[c].j, s.local, s.remote, s.senders)
    requires s.jobs[s.senders[c].j].owner == c
    ensures var p := s.jobs[s.senders[c].j].In(s.senders[c].lane); p.pos < 0 && !p.posted
  {
  }

  lemma PostLane(q: Queue, q': Queue, jobs: seq<Job>, jobs': seq<Job>, l: Lane, j: nat)
    requires LaneOk(q, jobs, l) && j < |jobs| && q' == q.(sem := q.sem + 1)
    requires jobs' == jobs[j := jobs[j].With(l, jobs[j].In(l).(posted := true))]
    ensures LaneOk(q', jobs', l)
  {
    TrailKept(q.pushed[..q.taken], jobs, jobs', l);
  }

  lemma PostJob(s: State, c: nat)
    requires Enabled(s, Post(c)) && JobOk(s.jobs[s.senders[c].j], s.senders[c].j, s.local, s.remote, s.senders)
    requires s.jobs[s.senders[c].j].owner == c
    ensures var s', j := StepPost(s, c), s.senders[c].j;
            JobOk(s'.jobs[j], j, s'.local, s'.remote, s'.senders)
  {
  }

  lemma PostInv(s: State, c: nat)
    requires Inv(s) && Enabled(s, Post(c))
    ensures Inv(StepPost(s, c))
  {
    hide PartOk, QueueOk, LogOk, Awake, Balanced, CloserOk, OwnerOk;
    var s', j, l := StepPost(s, c), s.senders[c].j, s.senders[c].lane;
    assert JobOk(s.jobs[j], j, s.local, s.remote, s.senders);
    PostJob(s, c);
    PostLane(s.In(l), s'.In(l), s.jobs, s'.jobs, l, j);
    if l.Local? { LaneKept(s.remote, s.jobs, s'.jobs, Remote); } else { LaneKept(s.local, s.jobs, s'.jobs, Local); }
    JobsKept(s, s', j);
  }

  /** A job whose closer has come to write the record. */
  lemma CloseJob(job: Job, j: nat, s: State, local': Queue, remote': Queue, senders': seq<Sender>)
    requires JobOk(job, j, s.local, s.remote, s.senders) && !FinalizingAt(local', j) && !FinalizingAt(remote', j)
    requires job.closer != Nobody && job.closer != Closed
    requires PartOk(job.local, j, local') && PartOk(job.remote, j, remote')
    requires job.owner < |senders'| && OwnerOk(Closing(job), j, senders'[job.owner])
    ensures JobOk(Closing(job), j, local', remote', senders')
  {
    hide PartOk, OwnerOk;
  }

  lemma CallerFinalizeInv(s: State, c: nat)
    requires Inv(s) && Enabled(s, CallerFinalize(c))
    ensures Inv(Step(s, CallerFinalize(c)))
  {
    hide PartOk, QueueOk, LogOk, Awake, Balanced;
    var s', j := Step(s, CallerFinalize(c)), s.senders[c].j;
    assert JobOk(s.jobs[j], j, s.local, s.remote, s.senders);
    CloseJob(s.jobs[j], j, s, s'.local, s'.remote, s'.senders);
    LaneKept(s.local, s.jobs, s'.jobs, Local);
    LaneKept(s.remote, s.jobs, s'.jobs, Remote);
    JobsKept(s, s', j);
  }

  lemma WakeInv(s: State, l: Lane)
    requires Inv(s) && Enabled(s, Wake(l))
    ensures Inv(Step(s, Wake(l)))
  {
    hide PartOk, LogOk, Balanced, CloserOk, OwnerOk;
    var s' := Step(s, Wake(l));
    SameLog(s.In(l), s'.In(l), s.jobs, l);
    JobsKept(s, s', |s.jobs|);
  }

  lemma SameLog(q: Queue, q': Queue, jobs: seq<Job>, l: Lane)
    requires LogOk(q, jobs, l) && q'.pushed == q.pushed && q'.taken == q.taken && q'.log == q.log
    ensures LogOk(q', jobs, l)
  {
  }

  lemma PopLane(q: Queue, q': Queue, jobs: seq<Job>, l: Lane)
    requires LaneOk(q, jobs, l) && q.pc.Popping? && q.queue != []
    requires q' == q.(queue := q.queue[1..], taken := q.taken + 1, pc := Sending(q.queue[0], 0))
    requires q.queue[0] < |jobs| ==> jobs[q.queue[0]].In(l).outcomes == []
    ensures LaneOk(q', jobs, l) && q.queue[0] == q.pushed[q.taken] && q.queue[0] < |jobs|
    ensures jobs[q.queue[0]].In(l).pos == q.taken
  {
    var j := q.pushed[q.taken];
    assert q.queue[0] == j;
    assert q'.pushed[..q'.taken] == q.pushed[..q.taken] + [j];
    assert (q.pushed[..q.taken] + [j])[..q.taken] == q.pushed[..q.taken];
    assert Tries(j, []) == [];
    assert forall i :: 0 <= i < |q.pushed| ==> jobs[q.pushed[i]].In(l).pos == i;
  }

  lemma QueueHead(q: Queue, jobs: seq<Job>, l: Lane)
    requires QueueOk(q, jobs, l) && q.queue != []
    ensures q.queue[0] < |jobs| && q.taken < |q.pushed| && q.queue[0] == q.pushed[q.taken]
    ensures jobs[q.queue[0]].In(l).pos == q.taken
  {
  }

  lemma PoppedPart(p: Part, j: nat, q: Queue, q': Queue)
    requires PartOk(p, j, q) && q.pc.Popping? && p.pos == q.taken
    requires q'.pushed == q.pushed && q'.taken == q.taken + 1 && q'.pc == Sending(j, 0)
    ensures PartOk(p, j, q')
  {
  }

  lemma Untouched(p: Part, j: nat, q: Queue)
    requires PartOk(p, j, q) && p.pos == q.taken
    ensures p.outcomes == []
  {
  }

  lemma PopNothing(s: State, l: Lane)
    requires Inv(s) && s.In(l).pc.Popping? && s.In(l).queue == []
    ensures Inv(StepPop(s, l))
  {
    hide PartOk, LogOk, Balanced, OwnerOk;
    var s' := StepPop(s, l);
    SameLog(s.In(l), s'.In(l), s.jobs, l);
    JobsKept(s, s', |s.jobs|);
  }

  lemma PopInv(s: State, l: Lane)
    requires Inv(s) && s.In(l).pc.Popping? && s.In(l).queue != []
    ensures Inv(StepPop(s, l))
  {
    hide PartOk, QueueOk, LogOk, Awake, Balanced, OwnerOk;
    var s' := StepPop(s, l);
    var q, q' := s.In(l), s'.In(l);
    QueueHead(q, s.jobs, l);
    var j := q.queue[0];
    assert JobOk(s.jobs[j], j, s.local, s.remote, s.senders);
    Untouched(s.jobs[j].In(l), j, q);
    PopLane(q, q', s.jobs, l);
    PoppedPart(s.jobs[j].In(l), j, q, q');
    JobsKept(s, s', j);
  }

  lemma AttemptLane(q: Queue, q': Queue, jobs: seq<Job>, jobs': seq<Job>, l: Lane, o: Outcome, p': Part)
    requires LaneOk(q, jobs, l) && q.pc.Sending? && q.pc.j < |jobs|
    requires var p := jobs[q.pc.j].In(l);
             && q.pc.i == |p.outcomes| && p'.pos == p.pos && p'.posted == p.posted && p'.outcomes == p.outcomes + [o]
    requires q' == q.(pc := Loading(q.pc.j, q.pc.i), log := q.log + [Tried(q.pc.j, q.pc.i, o)])
    requires jobs' == jobs[q.pc.j := jobs[q.pc.j].With(l, p')]
    ensures LaneOk(q', jobs', l)
  {
    var n, j := q.taken - 1, q.pc.j;
    TriesPush(j, jobs[j].In(l).outcomes, o);
    assert q.pushed[..q.taken][..n] == q.pushed[..n];
    assert forall i :: 0 <= i < |q.pushed| ==> jobs[q.pushed[i]].In(l).pos == i;
    TrailKept(q.pushed[..n], jobs, jobs', l);
  }

  lemma AttemptPart(p: Part, p': Part, j: nat, q: Queue, q': Queue, o: Outcome)
    requires PartOk(p, j, q) && q.pc.Sending? && q.pc.j == j && q.pc.i < |p.recvrs|
    requires p' == p.(outcomes := p.outcomes + [o], fails := if o.Failed? then p.fails + 1 else p.fails)
    requires q'.pushed == q.pushed && q'.taken == q.taken && q'.pc == Loading(j, q.pc.i)
    ensures PartOk(p', j, q') && q.pc.i == |p.outcomes| && p.done < |p.recvrs|
  {
    FailsPush(p.outcomes, o);
  }

  lemma LeavePart(p: Part, j: nat, q: Queue, q': Queue)
    requires PartOk(p, j, q) && q.pc.Sending? && q.pc.j == j && q.pc.i >= |p.recvrs|
    requires q'.pushed == q.pushed && q'.taken == q.taken && q'.pc == Popping
    ensures PartOk(p, j, q')
  {
  }

  /** A job with receivers to go still has its record to be written. */
  lemma StillOpen(job: Job, j: nat, local: Queue, remote: Queue, l: Lane)
    requires Balanced(job) && CloserOk(job, j, local, remote) && job.In(l).done < |job.In(l).recvrs|
    ensures job.closer == Nobody && job.pending > 0
  {
  }

  lemma AttemptInv(s: State, l: Lane, ok: bool)
    requires Inv(s) && Enabled(s, Attempt(l, ok))
    ensures Inv(StepAttempt(s, l, ok))
  {
    hide PartOk, QueueOk, LogOk, Awake, Balanced, CloserOk, OwnerOk;
    var s', q, j := StepAttempt(s, l, ok), s.In(l), s.In(l).pc.j;
    var q', job := s'.In(l), s.jobs[j];
    assert JobOk(job, j, s.local, s.remote, s.senders);
    if q.pc.i < |job.In(l).recvrs| {
      var p, p' := job.In(l), s'.jobs[j].In(l);
      var o := if p.recvrs[q.pc.i].Missing? then Skipped else if ok then Sent else Failed;
      AttemptPart(p, p', j, q, q', o);
      AttemptJob(s, l, s', p');
      AttemptLane(q, q', s.jobs, s'.jobs, l, o, p');
      if l.Local? { LaneKept(s.remote, s.jobs, s'.jobs, Remote); } else { LaneKept(s.local, s.jobs, s'.jobs, Local); }
    } else {
      LeavePart(job.In(l), j, q, q');
      LeaveJob(s, l, s');
      LaneAt(q, q', s.jobs, l);
    }
    JobsKept(s, s', j);
  }

  lemma AttemptJob(s: State, l: Lane, s': State, p': Part)
    requires s.In(l).pc.Sending? && s.In(l).pc.j < |s.jobs| && s'.senders == s.senders
    requires var j := s.In(l).pc.j;
             && JobOk(s.jobs[j], j, s.local, s.remote, s.senders)
             && s.jobs[j].In(l).done < |s.jobs[j].In(l).recvrs|
             && s' == s.With(l, s'.In(l)).WithJob(j, s.jobs[j].With(l, p')) && s'.In(l).pc == Loading(j, s.In(l).pc.i)
             && p' == s.jobs[j].In(l).(outcomes := p'.outcomes, fails := p'.fails) && PartOk(p', j, s'.In(l))
    ensures JobOk(s'.jobs[s.In(l).pc.j], s.In(l).pc.j, s'.local, s'.remote, s'.senders)
  {
    hide PartOk;
    StillOpen(s.jobs[s.In(l).pc.j], s.In(l).pc.j, s.local, s.remote, l);
  }

  lemma LeaveJob(s: State, l: Lane, s': State)
    requires s.In(l).pc.Sending? && s.In(l).pc.j < |s.jobs| && s' == s.With(l, s'.In(l)) && s'.In(l).pc == Popping
    requires JobOk(s.jobs[s.In(l).pc.j], s.In(l).pc.j, s.local, s.remote, s.senders)
    requires PartOk(s.jobs[s.In(l).pc.j].In(l), s.In(l).pc.j, s'.In(l))
    ensures JobOk(s'.jobs[s.In(l).pc.j], s.In(l).pc.j, s'.local, s'.remote, s'.senders)
  {
    hide PartOk;
  }

  /** The worker has moved on within its job, or left it. */
  lemma LaneAt(q: Queue, q': Queue, jobs: seq<Job>, l: Lane)
    requires LaneOk(q, jobs, l) && Busy(q.pc) && q' == q.(pc := q'.pc) && !q'.pc.Waiting?
    requires Busy(q'.pc) ==> q'.pc.j == q.pc.j
    ensures LaneOk(q', jobs, l)
  {
  }

  /** A worker that has attempted a receiver and not counted it down finds the count above zero. */
  lemma Uncounted(p: Part, j: nat, q: Queue)
    requires PartOk(p, j, q) && (q.pc.Loading? || q.pc.Swapping?) && q.pc.j == j
    ensures p.done < |p.recvrs| && p.done == q.pc.i
  {
  }

  lemma SeenPart(p: Part, j: nat, q: Queue, q': Queue, seen: nat)
    requires PartOk(p, j, q) && (q.pc.Loading? || q.pc.Swapping?) && q.pc.j == j && seen > 0
    requires q'.pushed == q.pushed && q'.taken == q.taken && q'.pc == Swapping(j, q.pc.i, seen)
    ensures PartOk(p, j, q')
  {
  }

  lemma DecideInv(s: State, l: Lane)
    requires Inv(s) && (s.In(l).pc.Loading? || s.In(l).pc.Swapping?) && s.In(l).pc.j < |s.jobs|
    ensures Inv(Decide(s, l, s.In(l).pc.j, s.In(l).pc.i, s.jobs[s.In(l).pc.j].pending))
  {
    hide PartOk, QueueOk, LogOk, Awake, OwnerOk;
    var q, j := s.In(l), s.In(l).pc.j;
    var job := s.jobs[j];
    var s' := Decide(s, l, j, q.pc.i, job.pending);
    assert JobOk(job, j, s.local, s.remote, s.senders);
    Uncounted(job.In(l), j, q);
    StillOpen(job, j, s.local, s.remote, l);
    SeenPart(job.In(l), j, q, s'.In(l), job.pending);
    LaneAt(q, s'.In(l), s.jobs, l);
    JobsKept(s, s', j);
  }

  lemma CountedPart(p: Part, j: nat, q: Queue, q': Queue)
    requires PartOk(p, j, q) && q.pc.Swapping? && q.pc.j == j
    requires q'.pushed == q.pushed && q'.taken == q.taken
    requires q'.pc == Sending(j, q.pc.i + 1) || q'.pc == Finalizing(j, q.pc.i)
    ensures PartOk(p.(done := p.done + 1), j, q')
  {
  }

  lemma CountInv(s: State, l: Lane)
    requires Inv(s) && Enabled(s, Swap(l, false)) && s.jobs[s.In(l).pc.j].pending == s.In(l).pc.seen
    ensures Inv(StepSwap(s, l, false))
  {
    hide PartOk, QueueOk, LogOk, Awake, Balanced, CloserOk, OwnerOk;
    var s', q, j := StepSwap(s, l, false), s.In(l), s.In(l).pc.j;
    assert JobOk(s.jobs[j], j, s.local, s.remote, s.senders);
    Uncounted(s.jobs[j].In(l), j, q);
    CountedPart(s.jobs[j].In(l), j, q, s'.In(l));
    CountedJob(s, l);
    LaneAt(q, s'.In(l), s.jobs, l);
    LaneKept(s'.local, s.jobs, s'.jobs, Local);
    LaneKept(s'.remote, s.jobs, s'.jobs, Remote);
    JobsKept(s, s', j);
  }

  lemma CountedJob(s: State, l: Lane)
    requires Enabled(s, Swap(l, false)) && s.jobs[s.In(l).pc.j].pending == s.In(l).pc.seen
    requires var j := s.In(l).pc.j;
             && JobOk(s.jobs[j], j, s.local, s.remote, s.senders)
             && s.jobs[j].In(l).done < |s.jobs[j].In(l).recvrs|
             && PartOk(StepSwap(s, l, false).jobs[j].In(l), j, StepSwap(s, l, false).In(l))
    ensures var s', j := StepSwap(s, l, false), s.In(l).pc.j;
            JobOk(s'.jobs[j], j, s'.local, s'.remote, s'.senders)
  {
    hide PartOk;
    StillOpen(s.jobs[s.In(l).pc.j], s.In(l).pc.j, s.local, s.remote, l);
  }

  lemma FinalizedPart(p: Part, j: nat, q: Queue, q': Queue)
    requires PartOk(p, j, q) && q.pc.Finalizing? && q.pc.j == j
    requires q'.pushed == q.pushed && q'.taken == q.taken && q'.pc == Sending(j, q.pc.i + 1)
    ensures PartOk(p, j, q')
  {
  }

  lemma FinalizeInv(s: State, l: Lane)
    requires Inv(s) && Enabled(s, Finalize(l))
    ensures Inv(Step(s, Finalize(l)))
  {
    hide PartOk, QueueOk, LogOk, Awake, Balanced;
    var s', q, j := Step(s, Finalize(l)), s.In(l), s.In(l).pc.j;
    var job := s.jobs[j];
    assert JobOk(job, j, s.local, s.remote, s.senders);
    FinalizedPart(job.In(l), j, q, s'.In(l));
    CloseJob(job, j, s, s'.local, s'.remote, s'.senders);
    LaneAt(q, s'.In(l), s.jobs, l);
    LaneKept(s'.local, s.jobs, s'.jobs, Local);
    LaneKept(s'.remote, s.jobs, s'.jobs, Remote);
    JobsKept(s, s', j);
  }

  lemma StepInv(s: State, a: Action)
    requires Inv(s) && Enabled(s, a)
    ensures Inv(Step(s, a))
  {
    hide Inv;
    match a
    case Build(c, locals, remotes) => BuildInv(s, c, locals, remotes);
    case Push(c) => PushInv(s, c);
    case Post(c) => PostInv(s, c);
    case CallerFinalize(c) => CallerFinalizeInv(s, c);
    case Wake(l) => WakeInv(s, l);
    case Pop(l) => if s.In(l).queue == [] { PopNothing(s, l); } else { PopInv(s, l); }
    case Attempt(l, ok) => AttemptInv(s, l, ok);
    case Load(l) => DecideInv(s, l);
    case Swap(l, spurious) =>
      if s.jobs[s.In(l).pc.j].pending != s.In(l).pc.seen || spurious { DecideInv(s, l); } else { CountInv(s, l); }
    case Finalize(l) => FinalizeInv(s, l);
  }
}
