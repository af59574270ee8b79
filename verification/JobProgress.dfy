/** The server and its workers get all their work done. Every step but the receipt of a new message uses up a part of
    a measure of what is left to do; and as long as anything is left, in pools that have a worker, some thread can
    take such a step. So once no new messages come in, every message received has been answered after at most that
    many steps. */
module JobProgress {
  import opened Options
  import opened JobStreams
  import opened JobSteps
  import opened JobInvariant
  import opened JobPlaces
  import opened JobTokens
  import opened JobSafety

  // ----- What is left to do -----

  function Sum<T>(f: T -> nat, q: seq<T>): nat {
    if q == [] then 0 else f(q[0]) + Sum(f, q[1..])
  }

  lemma {:induction false} SumUpdate<T>(f: T -> nat, q: seq<T>, i: nat, x: T)
    requires i < |q|
    ensures Sum(f, q[i := x]) + f(q[i]) == Sum(f, q) + f(x)
  {
    var q' := q[i := x];
    if i == 0 {
      assert q'[1..] == q[1..];
    } else {
      assert q'[1..] == q[1..][i - 1 := x];
      SumUpdate(f, q[1..], i - 1, x);
    }
  }

  lemma {:induction false} SumAppend<T>(f: T -> nat, q: seq<T>, x: T)
    ensures Sum(f, q + [x]) == Sum(f, q) + f(x)
  {
    if q == [] {
      assert q + [x] == [x];
    } else {
      assert (q + [x])[1..] == q[1..] + [x];
      SumAppend(f, q[1..], x);
    }
  }

  lemma {:induction false} SumRemove<T>(f: T -> nat, q: seq<T>, i: nat)
    requires i < |q|
    ensures Sum(f, q[..i] + q[i+1..]) + f(q[i]) == Sum(f, q)
  {
    var q' := q[..i] + q[i+1..];
    if i == 0 {
      assert q' == q[1..];
    } else {
      assert q'[1..] == q[1..][..i-1] + q[1..][i..] && q'[0] == q[0];
      SumRemove(f, q[1..], i - 1);
    }
  }

  // The steps a thread has to take before it is idle again, counting what it may put on a queue meanwhile.
  function ThreadWork(pc: Pc): nat {
    match pc
    case Receiving => 0
    case Pending => 0
    case LookupFailed(_) => 0
    case Getting => 1
    case Requeuing(_) => 1
    case Returning(_) => 1
    case Finished(_) => 2
    case Posting(_) => 3
    case GatePosting(_) => 3
    case Replying(_) => 3
    case Draining(_, q) => 3 + |q|
    case Acquiring(_) => 4
    case Releasing(_) => 4
    case Processing(_) => 5
    case Looking(_) => 9
    case Dispatching(_) => 10
  }

  function ReadyWork(q: seq<Msg>): nat {
    5 * |q|
  }

  function JobWork(job: Job): nat {
    8 * |job.msgQue|
  }

  function UnitWork(n: nat): nat {
    2 * n
  }

  function Work(s: State): nat {
    Sum(ThreadWork, s.pcs) + Sum(ReadyWork, s.x.ready) + Sum(JobWork, s.x.jobs) + Sum(UnitWork, s.sem)
  }

  // ----- Every step but a receipt does some of it -----

  lemma ThreadMoves(s: State, s': State, t: nat)
    requires t < |s.pcs| == |s'.pcs| && s'.pcs == s.pcs[t := s'.pcs[t]]
    ensures Sum(ThreadWork, s'.pcs) + ThreadWork(s.pcs[t]) == Sum(ThreadWork, s.pcs) + ThreadWork(s'.pcs[t])
  {
    SumUpdate(ThreadWork, s.pcs, t, s'.pcs[t]);
  }

  lemma PutWorks(ready: seq<seq<Msg>>, p: nat, m: Msg)
    requires p < |ready|
    ensures Sum(ReadyWork, Put(ready, p, m)) == Sum(ReadyWork, ready) + 5
  {
    SumUpdate(ReadyWork, ready, p, ready[p] + [m]);
  }

  lemma QuietStepWorks(c: Config, s: State, a: Action)
    requires Shape(c, s) && Enabled(c, s, a)
    requires a.DispatchRefused? || a.EnterGate? || a.Return? || a.Drain?
    ensures Work(Next(c, s, a)) < Work(s)
  {
    hide FindJob, InFlight, InUse, Sum;
    var s' := Next(c, s, a);
    ThreadMoves(s, s', Mover(a));
  }

  lemma FinishWorks(c: Config, s: State, t: nat, free: bool)
    requires Shape(c, s) && Enabled(c, s, Finish(t, free))
    ensures Work(Next(c, s, Finish(t, free))) < Work(s)
  {
    hide FindJob, InFlight, InUse, Sum;
    ThreadMoves(s, Next(c, s, Finish(t, free)), t);
  }

  lemma SemaphoreStepWorks(c: Config, s: State, a: Action)
    requires Shape(c, s) && Enabled(c, s, a) && (a.Post? || a.Pend?)
    ensures Work(Next(c, s, a)) < Work(s)
  {
    hide FindJob, InFlight, InUse, Sum;
    var s' := Next(c, s, a);
    var p := if a.Post? then s.pcs[a.t].p else c.worker[a.t];
    ThreadMoves(s, s', a.t);
    SumUpdate(UnitWork, s.sem, p, s'.sem[p]);
  }

  lemma DispatchWorks(c: Config, s: State)
    requires Shape(c, s) && Enabled(c, s, DispatchDiscrete)
    ensures Work(Next(c, s, DispatchDiscrete)) < Work(s)
  {
    hide FindJob, InFlight, InUse, Sum, Put;
    ThreadMoves(s, Next(c, s, DispatchDiscrete), 0);
    PutWorks(s.x.ready, PoolOf(c.nPools, s.pcs[0].m.poolId).value, s.pcs[0].m);
  }

  lemma GetWorks(c: Config, s: State, t: nat)
    requires Shape(c, s) && Enabled(c, s, Get(t))
    ensures Work(Next(c, s, Get(t))) < Work(s)
  {
    hide FindJob, InFlight, InUse, Sum;
    var s' := Next(c, s, Get(t));
    var p := c.worker[t];
    ThreadMoves(s, s', t);
    if s.x.ready[p] != [] { SumUpdate(ReadyWork, s.x.ready, p, s.x.ready[p][1..]); }
  }

  lemma AcquireWorks(c: Config, s: State, t: nat, id: Option<nat>)
    requires Shape(c, s) && Enabled(c, s, Acquire(t, id))
    ensures Work(Next(c, s, Acquire(t, id))) < Work(s)
  {
    hide FindJob, InFlight, InUse, Sum;
    ThreadMoves(s, Next(c, s, Acquire(t, id)), t);
    if id.Some? { SumAppend(JobWork, s.x.jobs, Job(id.value, true, [])); }
  }

  lemma ReleaseWorks(c: Config, s: State, t: nat)
    requires Shape(c, s) && Enabled(c, s, Release(t))
    ensures Work(Next(c, s, Release(t))) < Work(s)
  {
    hide FindJob, InFlight, InUse, Sum;
    ThreadMoves(s, Next(c, s, Release(t)), t);
    var k := FindJob(s.x.jobs, s.pcs[t].m.kind.job);
    if k < |s.x.jobs| { SumRemove(JobWork, s.x.jobs, k); }
  }

  lemma LookUpWorks(c: Config, s: State)
    requires Shape(c, s) && Enabled(c, s, LookUp)
    ensures Work(Next(c, s, LookUp)) < Work(s)
  {
    hide FindJob, InFlight, InUse, Sum, Put;
    var s' := Next(c, s, LookUp);
    var m := s.pcs[0].m;
    ThreadMoves(s, s', 0);
    PutWorks(s.x.ready, PoolOf(c.nPools, m.poolId).value, m);
    var k := FindJob(s.x.jobs, m.jobId);
    if k < |s.x.jobs| { SumUpdate(JobWork, s.x.jobs, k, s'.x.jobs[k]); }
  }

  lemma RequeueWorks(c: Config, s: State, t: nat)
    requires Shape(c, s) && Enabled(c, s, RequeueJob(t))
    ensures Work(Next(c, s, RequeueJob(t))) < Work(s)
  {
    hide FindJob, InFlight, InUse, Sum, Put;
    var s' := Next(c, s, RequeueJob(t));
    ThreadMoves(s, s', t);
    var k := FindJob(s.x.jobs, s.pcs[t].job);
    if k < |s.x.jobs| {
      SumUpdate(JobWork, s.x.jobs, k, s'.x.jobs[k]);
      if s.x.jobs[k].msgQue != [] {
        var m := s.x.jobs[k].msgQue[0];
        var pool := PoolOf(|s.x.ready|, m.poolId);
        if pool.Some? { PutWorks(s.x.ready, pool.value, m); }
      }
    }
  }

  /** Every step but the receipt of a message leaves less to do. */
  lemma EveryStepWorks(c: Config, s: State, a: Action)
    requires Shape(c, s) && Enabled(c, s, a) && !a.Receive?
    ensures Work(Next(c, s, a)) < Work(s)
  {
    hide Work, Next, Enabled, Shape;
    match a {
      case DispatchDiscrete => DispatchWorks(c, s);
      case LookUp => LookUpWorks(c, s);
      case Post(_) => SemaphoreStepWorks(c, s, a);
      case Pend(_) => SemaphoreStepWorks(c, s, a);
      case Acquire(t, id) => AcquireWorks(c, s, t, id);
      case Release(t) => ReleaseWorks(c, s, t);
      case Get(t) => GetWorks(c, s, t);
      case RequeueJob(t) => RequeueWorks(c, s, t);
      case Finish(t, free) => FinishWorks(c, s, t, free);
      case _ => QuietStepWorks(c, s, a);
    }
  }

  // ----- As long as something is left, some thread can step -----

  // No thread can take a step, unless it is to receive a new message.
  ghost predicate Stuck(c: Config, s: State)
    requires Shape(c, s)
  {
    forall a :: Enabled(c, s, a) ==> a.Receive?
  }

  predicate IdlePc(pc: Pc) {
    pc.Receiving? || pc.Pending?
  }

  predicate WaitsForGate(c: Config, pc: Pc) {
    Entered(c, pc).Some?
  }

  // What the thread does next.
  function Turn(c: Config, pc: Pc, t: nat): Action {
    match pc
    case Dispatching(m) =>
      if PoolOf(c.nPools, m.poolId).None? then DispatchRefused
      else if m.jobId == DISCRETE_JOB_ID then DispatchDiscrete
      else EnterGate(t)
    case Looking(_) => LookUp
    case Posting(_) => Post(t)
    case GatePosting(_) => Post(t)
    case Returning(_) => Return
    case Processing(m) => if m.kind.AcquireJob? || m.kind.ReleaseJob? then EnterGate(t) else Finish(t, false)
    case Acquiring(_) => Acquire(t, None)
    case Releasing(_) => Release(t)
    case Draining(_, q) => if q == [] then Finish(t, false) else Drain(t)
    case Replying(_) => Finish(t, false)
    case Getting => Get(t)
    case Finished(_) => EnterGate(t)
    case _ => RequeueJob(t)
  }

  lemma TurnIsEnabled(c: Config, s: State, t: nat)
    requires Shape(c, s) && t < |s.pcs| && Role(t, s.pcs[t], c.nPools) && !IdlePc(s.pcs[t])
    requires s.gate == None || !WaitsForGate(c, s.pcs[t])
    ensures Enabled(c, s, Turn(c, s.pcs[t], t))
  {
    hide FindJob, InFlight, InUse, PoolOf;
  }

  // A thread that is neither idle nor waiting for the gate can step; one that waits can enter a free gate.
  lemma BusyThreadCanStep(c: Config, s: State, t: nat)
    requires Inv(c, s) && t < |s.pcs| && !IdlePc(s.pcs[t]) && (s.gate == None || !WaitsForGate(c, s.pcs[t]))
    ensures exists a :: Enabled(c, s, a) && !a.Receive?
  {
    assert Role(t, s.pcs[t], c.nPools) && Shape(c, s);
    TurnIsEnabled(c, s, t);
    assert !Turn(c, s.pcs[t], t).Receive?;
    hide Inv, Enabled, Turn;
  }

  lemma StuckMeansIdle(c: Config, s: State, t: nat)
    requires Inv(c, s) && Stuck(c, s) && t < |s.pcs|
    ensures IdlePc(s.pcs[t])
  {
    if !IdlePc(s.pcs[t]) {
      if s.gate == None || !WaitsForGate(c, s.pcs[t]) {
        BusyThreadCanStep(c, s, t);
      } else {
        var u := s.gate.value;
        assert InGate(s.pcs[u]);
        hide Inv;
        BusyThreadCanStep(c, s, u);
      }
    }
  }

  predicate Staffed(c: Config, p: nat) {
    exists w :: 1 <= w < |c.worker| && c.worker[w] == p
  }

  lemma {:induction false} IdleThreadsOweNothing(c: Config, pcs: seq<Pc>, p: nat, n: nat)
    requires n <= |pcs| && forall t :: 0 <= t < |pcs| ==> IdlePc(pcs[t])
    ensures Debts(c, pcs, p, n) == 0
  {
    if n != 0 { IdleThreadsOweNothing(c, pcs, p, n - 1); }
  }

  lemma StuckPoolIsEmpty(c: Config, s: State, p: nat)
    requires Inv(c, s) && Stuck(c, s) && p < c.nPools && Staffed(c, p)
    ensures s.x.ready[p] == []
  {
    assert |s.pcs| == |c.worker|;
    forall t | 0 <= t < |s.pcs| ensures IdlePc(s.pcs[t]) { StuckMeansIdle(c, s, t); }
    IdleThreadsOweNothing(c, s.pcs, p, |s.pcs|);
    assert |s.x.ready[p]| == s.sem[p];
    var w :| 1 <= w < |c.worker| && c.worker[w] == p;
    assert Role(w, s.pcs[w], c.nPools);
    hide Inv, FindJob, InFlight, InUse;
    assert Enabled(c, s, Pend(w)) <==> s.sem[p] > 0;
  }

  // Messages are ready only in pools that have a worker.
  ghost predicate ReadyPoolsStaffed(c: Config, s: State)
    requires Shape(c, s)
  {
    forall p :: 0 <= p < c.nPools && s.x.ready[p] != [] ==> Staffed(c, p)
  }

  lemma StuckJobIsEmpty(c: Config, s: State, j: nat)
    requires Inv(c, s) && Stuck(c, s) && ReadyPoolsStaffed(c, s) && InUse(s.x.jobs, j)
    ensures s.x.jobs[FindJob(s.x.jobs, j)].msgQue == []
  {
    IdleExactlyWhenNothingInFlight(c, s, j);
    if InFlight(s, j) {
      var token :| TokenAt(s, j, token);
      assert Shape(c, s);
      hide Inv, Stuck;
      match token {
        case Ready(m, p) => StuckPoolIsEmpty(c, s, p);
        case Exec(m, t) => StuckMeansIdle(c, s, t);
        case After(t) => StuckMeansIdle(c, s, t);
      }
    }
  }

  /** Whenever a message that was received is not answered yet, some thread can take a step that leaves less to do,
      provided that messages are ready only in pools that have a worker. */
  lemma UnansweredMessageMovesOn(c: Config, s: State, m: Msg)
    requires Inv(c, s) && ReadyPoolsStaffed(c, s) && m in s.loc
    requires !s.loc[m].WasReturned? && !s.loc[m].WasFreed? && !s.loc[m].WasDropped?
    ensures exists a :: Enabled(c, s, a) && !a.Receive? && Work(Next(c, s, a)) < Work(s)
  {
    if Stuck(c, s) {
      assert Holds(s, m, s.loc[m]);
      assert Shape(c, s);
      hide Inv, Stuck;
      match s.loc[m] {
        case InReady(p) => StuckPoolIsEmpty(c, s, p);
        case InJob(j) => StuckJobIsEmpty(c, s, j);
        case At(t) => StuckMeansIdle(c, s, t);
        case InDrain(t) => StuckMeansIdle(c, s, t);
        case _ =>
      }
      assert false;
    }
    assert Shape(c, s);
    hide Inv, Enabled, Next, Work;
    var a :| Enabled(c, s, a) && !a.Receive?;
    EveryStepWorks(c, s, a);
  }

  ghost predicate IsQuietRun(c: Config, states: seq<State>, actions: seq<Action>) {
    && |states| == |actions| + 1
    && forall i :: 0 <= i < |actions| ==>
      Shape(c, states[i]) && Enabled(c, states[i], actions[i]) && !actions[i].Receive? &&
      states[i + 1] == Next(c, states[i], actions[i])
  }

  /** And such steps come to an end: a run without new messages is no longer than the work there was at its start. */
  lemma {:induction false} QuietRunsEnd(c: Config, states: seq<State>, actions: seq<Action>, i: nat)
    requires IsQuietRun(c, states, actions) && i < |states|
    ensures Work(states[i]) + i <= Work(states[0])
  {
    hide Work, Enabled, Next, Shape;
    if i > 0 {
      QuietRunsEnd(c, states, actions, i - 1);
      assert Shape(c, states[i - 1]) && Enabled(c, states[i - 1], actions[i - 1]);
      EveryStepWorks(c, states[i - 1], actions[i - 1]);
    }
  }
}
