/** The inductive invariant of the step system of JobSteps, in five parts, and the proof that every step keeps it. */
module JobInvariant {
  import opened Options
  import opened JobStreams
  import opened JobSteps

  ghost predicate Sized(c: Config, s: State) {
    && Shape(c, s)
    && JobsValid(s.x.jobs, c.nPools)
    && forall k :: 0 <= k < |s.x.jobs| ==> s.x.jobs[k].jobId in s.hist
  }

  // ----- Control: the gate has one owner, threads keep to their parts -----

  predicate Role(t: nat, pc: Pc, nPools: nat) {
    match pc
    case Receiving => t == 0
    case Dispatching(m) => t == 0
    case Looking(m) => t == 0 && m.jobId != DISCRETE_JOB_ID && PoolOf(nPools, m.poolId).Some?
    case Posting(p) => t == 0 && p < nPools
    case Returning(m) => t == 0
    case Pending => t != 0
    case Getting => t != 0
    case Finished(j) => t != 0 && j != DISCRETE_JOB_ID
    case Requeuing(j) => t != 0 && j != DISCRETE_JOB_ID
    case LookupFailed(m) => false
    case GatePosting(p) => p < nPools
    case Releasing(m) => m.kind.ReleaseJob? && (t == 0 ==> m.jobId == DISCRETE_JOB_ID)
    case _ => t == 0 ==> Held(pc).value.jobId == DISCRETE_JOB_ID
  }

  ghost predicate Control(c: Config, s: State) {
    && (forall t :: 0 <= t < |s.pcs| ==> Role(t, s.pcs[t], c.nPools))
    && (forall t :: 0 <= t < |s.pcs| ==> (InGate(s.pcs[t]) <==> s.gate == Some(t)))
    && (s.gate.Some? ==> s.gate.value < |s.pcs|)
  }

  // ----- Semaphores: one unit per message a worker may take -----

  // This thread has taken a unit of the pool's semaphore and not yet a message, or put a message and not yet a unit.
  function Debt(c: Config, pc: Pc, t: nat, p: nat): nat {
    if pc.Getting? && t < |c.worker| && c.worker[t] == p then 1
    else if (pc.Posting? || pc.GatePosting?) && pc.p == p then 1
    else 0
  }

  function Debts(c: Config, pcs: seq<Pc>, p: nat, n: nat): nat
    requires n <= |pcs|
  {
    if n == 0 then 0 else Debts(c, pcs, p, n - 1) + Debt(c, pcs[n - 1], n - 1, p)
  }

  ghost predicate Semaphores(c: Config, s: State) {
    |s.x.ready| == |s.sem| == c.nPools
    && forall p :: 0 <= p < c.nPools ==> |s.x.ready[p]| == s.sem[p] + Debts(c, s.pcs, p, |s.pcs|)
  }

  lemma {:induction false} DebtsUpdate(c: Config, pcs: seq<Pc>, p: nat, n: nat, t: nat, pc: Pc)
    requires n <= |pcs| && t < |pcs|
    ensures Debts(c, pcs[t := pc], p, n) == Debts(c, pcs, p, n) +
      (if t < n then Debt(c, pc, t, p) as int - Debt(c, pcs[t], t, p) as int else 0)
  {
    if n != 0 { DebtsUpdate(c, pcs, p, n - 1, t, pc); }
  }

  lemma {:induction false} DebtsAtLeast(c: Config, pcs: seq<Pc>, p: nat, n: nat, t: nat)
    requires t < n <= |pcs|
    ensures Debts(c, pcs, p, n) >= Debt(c, pcs[t], t, p)
  {
    if t != n - 1 { DebtsAtLeast(c, pcs, p, n - 1, t); }
  }

  // ----- Messages: each is in exactly one place -----

  ghost predicate NoDup(q: seq<Msg>) {
    forall i, j :: 0 <= i < j < |q| ==> q[i] != q[j]
  }

  predicate Holds(s: State, m: Msg, loc: Loc) {
    match loc
    case InReady(p) => p < |s.x.ready| && m in s.x.ready[p]
    case InJob(j) => var k := FindJob(s.x.jobs, j); k < |s.x.jobs| && m in s.x.jobs[k].msgQue
    case At(t) => t < |s.pcs| && Held(s.pcs[t]) == Some(m)
    case InDrain(t) => t < |s.pcs| && m in Drained(s.pcs[t])
    case WasReturned => m in s.returned
    case WasFreed => m in s.freed
    case WasDropped => m in s.dropped
  }

  ghost predicate Placed(s: State) {
    && (forall m, loc :: Holds(s, m, loc) <==> m in s.loc && s.loc[m] == loc)
    && (forall p :: 0 <= p < |s.x.ready| ==> NoDup(s.x.ready[p]))
    && (forall k :: 0 <= k < |s.x.jobs| ==> NoDup(s.x.jobs[k].msgQue))
    && (forall t :: 0 <= t < |s.pcs| ==> NoDup(Drained(s.pcs[t])))
    && NoDup(s.returned) && NoDup(s.freed) && NoDup(s.dropped)
  }

  // ----- Jobs: the token of a job, and its messages in order -----

  function Current(token: Token): seq<Msg> {
    match token
    case Ready(m, _) => [m]
    case Exec(m, _) => [m]
    case _ => []
  }

  ghost predicate JobTracked(s: State, job: Job) {
    var h := HistoryOf(s.hist, job.jobId);
    && (job.empty <==> h.token == NoToken)
    && h.accepted == h.finished + Current(h.token) + job.msgQue
    && (forall m :: m in job.msgQue ==> m.jobId == job.jobId)
    && (forall token :: TokenAt(s, job.jobId, token) <==> token == h.token && token != NoToken)
  }

  ghost predicate Tracked(s: State) {
    forall k :: 0 <= k < |s.x.jobs| ==> JobTracked(s, s.x.jobs[k])
  }

  ghost predicate Inv(c: Config, s: State) {
    Sized(c, s) && Control(c, s) && Semaphores(c, s) && Placed(s) && Tracked(s)
  }

  // ----- What one step changes -----

  function Mover(a: Action): nat {
    match a
    case EnterGate(t) => t
    case Post(t) => t
    case Acquire(t, _) => t
    case Release(t) => t
    case Drain(t) => t
    case Finish(t, _) => t
    case Pend(t) => t
    case Get(t) => t
    case RequeueJob(t) => t
    case _ => 0
  }

  // The thread that moves plays its part, and owns the gate just when it is in it.
  ghost predicate MoverReady(c: Config, s: State, a: Action)
    requires Shape(c, s)
  {
    && Enabled(c, s, a)
    && Role(Mover(a), s.pcs[Mover(a)], c.nPools)
    && (InGate(s.pcs[Mover(a)]) <==> s.gate == Some(Mover(a)))
    && (a.RequeueJob? ==> !Requeue(s.x, s.pcs[a.t].job).1.PoolGone?)
  }

  predicate ServerStep(a: Action) {
    a.Receive? || a.DispatchDiscrete? || a.DispatchRefused? || a.LookUp? || a.Return?
  }

  predicate JobStep(a: Action) {
    a.EnterGate? || a.Acquire? || a.Release? || a.Drain? || a.RequeueJob?
  }

  ghost predicate OneThreadMoved(c: Config, s: State, s': State, t: nat)
    requires Shape(c, s) && t < |s.pcs|
  {
    && Shape(c, s') && s'.pcs == s.pcs[t := s'.pcs[t]]
    && Role(t, s'.pcs[t], c.nPools)
    && (InGate(s'.pcs[t]) <==> s'.gate == Some(t))
    && (s'.gate != s.gate ==> s.gate in {None, Some(t)} && s'.gate in {None, Some(t)})
  }

  lemma ServerStepMovesServer(c: Config, s: State, a: Action)
    requires Shape(c, s) && MoverReady(c, s, a) && ServerStep(a)
    ensures OneThreadMoved(c, s, Next(c, s, a), 0)
  {
    hide InFlight, FindJob, WellAddressed, Debts;
  }

  lemma JobStepMovesItsThread(c: Config, s: State, a: Action)
    requires Shape(c, s) && MoverReady(c, s, a) && JobStep(a)
    ensures OneThreadMoved(c, s, Next(c, s, a), Mover(a))
  {
    hide InFlight, FindJob, WellAddressed, Debts;
  }

  lemma OtherStepMovesItsThread(c: Config, s: State, a: Action)
    requires Shape(c, s) && MoverReady(c, s, a) && !ServerStep(a) && !JobStep(a)
    ensures OneThreadMoved(c, s, Next(c, s, a), Mover(a))
  {
    hide InFlight, FindJob, WellAddressed, Debts;
  }

  /** A step changes the control state of one thread only, and the gate only between free and that thread. */
  lemma StepMovesOneThread(c: Config, s: State, a: Action)
    requires Shape(c, s) && MoverReady(c, s, a)
    ensures OneThreadMoved(c, s, Next(c, s, a), Mover(a))
  {
    hide Next, Enabled, OneThreadMoved;
    if ServerStep(a) {
      ServerStepMovesServer(c, s, a);
    } else if JobStep(a) {
      JobStepMovesItsThread(c, s, a);
    } else {
      OtherStepMovesItsThread(c, s, a);
    }
  }

  ghost predicate Balanced(c: Config, s: State, s': State, t: nat, p: nat)
    requires Shape(c, s) && t < |s.pcs| && p < c.nPools
  {
    && Shape(c, s') && t < |s'.pcs|
    && |s'.x.ready[p]| - s'.sem[p] - Debt(c, s'.pcs[t], t, p) == |s.x.ready[p]| - s.sem[p] - Debt(c, s.pcs[t], t, p)
  }

  lemma ServerStepBalances(c: Config, s: State, a: Action, p: nat)
    requires Shape(c, s) && MoverReady(c, s, a) && p < c.nPools && ServerStep(a)
    ensures Balanced(c, s, Next(c, s, a), 0, p)
  {
    hide InFlight, FindJob, WellAddressed;
  }

  lemma JobStepBalances(c: Config, s: State, a: Action, p: nat)
    requires Shape(c, s) && MoverReady(c, s, a) && p < c.nPools && JobStep(a)
    ensures Balanced(c, s, Next(c, s, a), Mover(a), p)
  {
    hide InFlight, FindJob, WellAddressed;
  }

  lemma OtherStepBalances(c: Config, s: State, a: Action, p: nat)
    requires Shape(c, s) && MoverReady(c, s, a) && p < c.nPools && !ServerStep(a) && !JobStep(a)
    requires a.Get? ==> s.x.ready[c.worker[a.t]] != []
    ensures Balanced(c, s, Next(c, s, a), Mover(a), p)
  {
    hide InFlight, FindJob, WellAddressed;
  }

  /** No step changes, for any pool, the number of ready messages less the semaphore's value less the mover's debt. */
  lemma StepBalances(c: Config, s: State, a: Action, p: nat)
    requires Shape(c, s) && MoverReady(c, s, a) && p < c.nPools
    requires a.Get? ==> s.x.ready[c.worker[a.t]] != []
    ensures Balanced(c, s, Next(c, s, a), Mover(a), p)
  {
    hide Next, Enabled, Balanced;
    if ServerStep(a) {
      ServerStepBalances(c, s, a, p);
    } else if JobStep(a) {
      JobStepBalances(c, s, a, p);
    } else {
      OtherStepBalances(c, s, a, p);
    }
  }

  // ----- Control and semaphores -----

  lemma MoverIsReady(c: Config, s: State, a: Action)
    requires Sized(c, s) && Control(c, s) && Enabled(c, s, a)
    ensures Shape(c, s) && MoverReady(c, s, a)
  {
    if a.RequeueJob? { RequeueKeepsJobs(s.x, s.pcs[a.t].job); }
    hide JobsValid, Role, InFlight;
  }

  lemma ControlKept(c: Config, s: State, a: Action)
    requires Sized(c, s) && Control(c, s) && Enabled(c, s, a)
    ensures Shape(c, Next(c, s, a)) && Control(c, Next(c, s, a))
  {
    MoverIsReady(c, s, a);
    StepMovesOneThread(c, s, a);
    hide Next, Enabled, Role, InGate;
  }

  /** A worker that has come past its semaphore finds a message: the branch for an empty ready queue is never taken. */
  lemma GetFindsAMessage(c: Config, s: State, t: nat)
    requires Shape(c, s) && Semaphores(c, s) && 1 <= t < |s.pcs| && s.pcs[t].Getting?
    ensures s.x.ready[c.worker[t]] != []
  {
    DebtsAtLeast(c, s.pcs, c.worker[t], |s.pcs|, t);
  }

  lemma SemaphoresKept(c: Config, s: State, a: Action)
    requires Sized(c, s) && Control(c, s) && Semaphores(c, s) && Enabled(c, s, a)
    ensures Semaphores(c, Next(c, s, a))
  {
    MoverIsReady(c, s, a);
    StepMovesOneThread(c, s, a);
    if a.Get? { GetFindsAMessage(c, s, a.t); }
    var s', t := Next(c, s, a), Mover(a);
    forall p | 0 <= p < c.nPools ensures |s'.x.ready[p]| == s'.sem[p] + Debts(c, s'.pcs, p, |s'.pcs|) {
      StepBalances(c, s, a, p);
      hide Next, Enabled, Debts, Debt;
      DebtsUpdate(c, s.pcs, p, |s.pcs|, t, s'.pcs[t]);
    }
  }

  // ----- The job list -----

  predicate ChangesJobs(a: Action) {
    a.LookUp? || a.Acquire? || a.Release? || a.RequeueJob?
  }

  lemma OtherStepsKeepJobs(c: Config, s: State, a: Action)
    requires Shape(c, s) && Enabled(c, s, a) && !ChangesJobs(a)
    ensures Next(c, s, a).x.jobs == s.x.jobs && s.hist.Keys <= Next(c, s, a).hist.Keys
  {
    hide InFlight, FindJob, WellAddressed, Entered, Done;
  }

  lemma LookUpKeepsJobs(c: Config, s: State)
    requires Sized(c, s) && Control(c, s) && Enabled(c, s, LookUp)
    ensures var s' := Next(c, s, LookUp);
      && JobsValid(s'.x.jobs, c.nPools)
      && forall k :: 0 <= k < |s'.x.jobs| ==> s'.x.jobs[k].jobId in s'.hist
  {
    var m := s.pcs[0].m;
    AcceptKeepsJobs(s.x, m, PoolOf(c.nPools, m.poolId).value);
    hide JobsValid, Role;
  }

  lemma AcquireReleaseKeepJobs(c: Config, s: State, a: Action)
    requires Sized(c, s) && Enabled(c, s, a) && (a.Acquire? || a.Release?)
    ensures var s' := Next(c, s, a);
      && JobsValid(s'.x.jobs, c.nPools)
      && forall k :: 0 <= k < |s'.x.jobs| ==> s'.x.jobs[k].jobId in s'.hist
  {
    match a
    case Acquire(t, id) => if id.Some? { AcquireKeepsJobs(s.x.jobs, c.nPools, id.value); }
    case Release(t) =>
      var k := FindJob(s.x.jobs, s.pcs[t].m.kind.job);
      if k < |s.x.jobs| {
        ReleaseKeepsJobs(s.x.jobs, c.nPools, k);
        WithoutAt(s.x.jobs, k);
      }
  }

  lemma WithoutAt(jobs: seq<Job>, k: nat)
    requires k < |jobs|
    ensures forall i :: 0 <= i < |Without(jobs, k)| ==> Without(jobs, k)[i] == jobs[if i < k then i else i + 1]
  {
  }

  lemma RequeueStepKeepsJobs(c: Config, s: State, t: nat)
    requires Sized(c, s) && Enabled(c, s, RequeueJob(t))
    ensures var s' := Next(c, s, RequeueJob(t));
      && JobsValid(s'.x.jobs, c.nPools)
      && forall k :: 0 <= k < |s'.x.jobs| ==> s'.x.jobs[k].jobId in s'.hist
  {
    RequeueKeepsJobs(s.x, s.pcs[t].job);
    hide JobsValid;
  }

  lemma SizedKept(c: Config, s: State, a: Action)
    requires Sized(c, s) && Control(c, s) && Enabled(c, s, a)
    ensures Sized(c, Next(c, s, a))
  {
    ControlKept(c, s, a);
    hide Control, JobsValid, Next, Enabled;
    if a.LookUp? {
      LookUpKeepsJobs(c, s);
    } else if a.RequeueJob? {
      RequeueStepKeepsJobs(c, s, a.t);
    } else if a.Acquire? || a.Release? {
      AcquireReleaseKeepJobs(c, s, a);
    } else {
      OtherStepsKeepJobs(c, s, a);
    }
  }
}
