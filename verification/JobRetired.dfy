/** The last case of reusing a job id: the server thread has just taken the packet that releases it again. Then nothing
    can be sent to the new job, and the messages of its id run one at a time as long as they do so already. With this
    the condition on reusing an id is complete. */
module JobRetired {
  import opened Options
  import opened JobStreams
  import opened JobSteps
  import opened JobInvariant
  import opened JobPlaces
  import opened JobSafety
  import opened JobNumbers
  import opened JobReuse

  // The state without the job of this id, which is there.
  ghost function Minus(s: State, id: nat): State
    requires InUse(s.x.jobs, id)
  {
    s.(x := s.x.(jobs := Without(s.x.jobs, FindJob(s.x.jobs, id))), hist := s.hist - {id})
  }

  predicate Retiring(pc: Pc, id: nat) {
    (pc.Processing? || pc.Releasing?) && pc.m.kind == ReleaseJob(id)
  }

  // The job is new, and the server is about to release it; apart from that job everything is as it should be.
  ghost predicate Doomed(c: Config, s: State, id: nat) {
    && Sized(c, s) && id != DISCRETE_JOB_ID && Retiring(s.pcs[0], id)
    && InUse(s.x.jobs, id) && s.x.jobs[FindJob(s.x.jobs, id)].msgQue == []
    && Inv(c, Minus(s, id))
  }

  // ----- Job lists without the job -----

  // The same job is found in both lists, if it is another one.
  ghost predicate SameElsewhere(jobs: seq<Job>, k: nat, j: nat)
    requires k < |jobs|
  {
    var f, g := FindJob(jobs, j), FindJob(Without(jobs, k), j);
    if f == |jobs| then g == |jobs| - 1
    else f != k && g == (if f < k then f else f - 1) && Without(jobs, k)[g] == jobs[f]
  }

  lemma FindsTheSame(jobs: seq<Job>, nPools: nat, id: nat, j: nat)
    requires JobsValid(jobs, nPools) && InUse(jobs, id)
    ensures !InUse(Without(jobs, FindJob(jobs, id)), id)
    ensures j != id ==> SameElsewhere(jobs, FindJob(jobs, id), j)
  {
    var k := FindJob(jobs, id);
    var jobs' := Without(jobs, k);
    ReleaseKeepsJobs(jobs, nPools, k);
    FindJobWithout(jobs, nPools, k, j);
    WithoutAt(jobs, k);
    var f, g := FindJob(jobs, j), FindJob(jobs', j);
    assert |jobs'| == |jobs| - 1;
    hide Without;
    if j != id && f < |jobs| {
      SameIdSameJob(jobs, nPools, f, if g < k then g else g + 1);
    }
    hide JobsValid, FindJob;
  }

  lemma SameIdSameJob(jobs: seq<Job>, nPools: nat, i: nat, k: nat)
    requires JobsValid(jobs, nPools) && i < |jobs| && k < |jobs| && jobs[i].jobId == jobs[k].jobId
    ensures i == k
  {
  }

  lemma WithoutShorter(jobs: seq<Job>, k: nat)
    requires k < |jobs|
    ensures |Without(jobs, k)| == |jobs| - 1
  {
  }

  lemma UpdateElsewhere(jobs: seq<Job>, k: nat, f: nat, job: Job)
    requires k < |jobs| && f < |jobs| && f != k
    ensures Without(jobs[f := job], k) == Without(jobs, k)[if f < k then f else f - 1 := job]
  {
  }

  lemma UpdateHere(jobs: seq<Job>, k: nat, job: Job)
    requires k < |jobs|
    ensures Without(jobs[k := job], k) == Without(jobs, k)
  {
  }

  lemma AppendBehind(jobs: seq<Job>, k: nat, job: Job)
    requires k < |jobs|
    ensures Without(jobs + [job], k) == Without(jobs, k) + [job]
  {
  }

  lemma TwoWithout(jobs: seq<Job>, k: nat, f: nat)
    requires k < |jobs| && f < |jobs| && f != k
    ensures Without(Without(jobs, f), if k < f then k else k - 1) ==
      Without(Without(jobs, k), if f < k then f else f - 1)
  {
  }

  // What becomes of the lists when the job is left out.
  function Less(x: Streams, id: nat): Streams
    requires InUse(x.jobs, id)
  {
    x.(jobs := Without(x.jobs, FindJob(x.jobs, id)))
  }

  // The job is still there, and has nothing waiting.
  predicate Bare(jobs: seq<Job>, id: nat) {
    InUse(jobs, id) && jobs[FindJob(jobs, id)].msgQue == []
  }

  lemma RequeueElsewhere(x: Streams, id: nat, j: nat)
    requires JobsValid(x.jobs, |x.ready|) && Bare(x.jobs, id) && j != id
    ensures var (x', r) := Requeue(x, j); Bare(x'.jobs, id) && Requeue(Less(x, id), j) == (Less(x', id), r)
  {
    FindsTheSame(x.jobs, |x.ready|, id, j);
    var f, k := FindJob(x.jobs, j), FindJob(x.jobs, id);
    var x' := Requeue(x, j).0;
    if f < |x.jobs| {
      JobReplaced(x.jobs, x'.jobs, f);
      UpdateElsewhere(x.jobs, k, f, x'.jobs[f]);
    }
    hide JobsValid, FindJob, Without, PoolOf;
  }

  lemma RequeueOwn(x: Streams, id: nat)
    requires JobsValid(x.jobs, |x.ready|) && Bare(x.jobs, id)
    ensures var (x', r) := Requeue(x, id);
      r == NowEmpty && Bare(x'.jobs, id) && Requeue(Less(x, id), id) == (Less(x', id), JobGone) &&
      Less(x', id) == Less(x, id)
  {
    FindsTheSame(x.jobs, |x.ready|, id, id);
    var k, x' := FindJob(x.jobs, id), Requeue(x, id).0;
    JobReplaced(x.jobs, x'.jobs, k);
    UpdateHere(x.jobs, k, x'.jobs[k]);
    hide JobsValid, FindJob, Without;
  }

  // ----- A step of another thread does the same without the job -----

  lemma HistoryElsewhere(hist: map<nat, History>, id: nat, j: nat, h: History)
    ensures j != id ==> hist[j := h] - {id} == (hist - {id})[j := h]
    ensures j == id ==> hist[j := h] - {id} == hist - {id}
  {
  }

  lemma TokenElsewhere(jobs: seq<Job>, nPools: nat, hist: map<nat, History>, id: nat, j: nat, token: Token)
    requires JobsValid(jobs, nPools) && InUse(jobs, id)
    ensures SetToken(jobs, hist, j, token) - {id} ==
      SetToken(Without(jobs, FindJob(jobs, id)), hist - {id}, j, token)
  {
    FindsTheSame(jobs, nPools, id, j);
    HistoryElsewhere(hist, id, j, HistoryOf(hist, j).(token := token));
    hide JobsValid, FindJob, Without;
  }

  lemma TokenOwn(jobs: seq<Job>, hist: map<nat, History>, id: nat, token: Token)
    ensures SetToken(jobs, hist, id, token) - {id} == hist - {id}
  {
    hide FindJob;
  }

  // The step does the same without the job.
  ghost predicate Commutes(c: Config, s: State, a: Action, id: nat)
    requires Shape(c, s) && Enabled(c, s, a) && InUse(s.x.jobs, id)
  {
    var s' := Next(c, s, a);
    && Shape(c, Minus(s, id)) && Enabled(c, Minus(s, id), a)
    && Bare(s'.x.jobs, id) && Next(c, Minus(s, id), a) == Minus(s', id)
  }

  lemma DoomedParts(c: Config, s: State, id: nat)
    requires Doomed(c, s, id)
    ensures Shape(c, s) && JobsValid(s.x.jobs, c.nPools) && Bare(s.x.jobs, id) && id != DISCRETE_JOB_ID
    ensures Shape(c, Minus(s, id))
  {
    hide Inv, JobsValid, FindJob, Without;
  }

  lemma RequeueCommutes(c: Config, s: State, t: nat, id: nat)
    requires Doomed(c, s, id) && Enabled(c, s, RequeueJob(t))
    ensures Commutes(c, s, RequeueJob(t), id)
  {
    DoomedParts(c, s, id);
    hide Doomed, Inv, JobsValid, Commutes;
    if s.pcs[t].job == id {
      RequeueOwnCommutes(c, s, t, id);
    } else {
      RequeueElseCommutes(c, s, t, id);
    }
  }

  lemma RequeueOwnCommutes(c: Config, s: State, t: nat, id: nat)
    requires Shape(c, s) && JobsValid(s.x.jobs, c.nPools) && Bare(s.x.jobs, id)
    requires Enabled(c, s, RequeueJob(t)) && s.pcs[t].job == id
    ensures Commutes(c, s, RequeueJob(t), id)
  {
    hide JobsValid, FindJob, Without, Requeue, SetToken;
    RequeueOwn(s.x, id);
    TokenOwn(s.x.jobs, s.hist, id, NoToken);
  }

  lemma RequeueElseCommutes(c: Config, s: State, t: nat, id: nat)
    requires Shape(c, s) && JobsValid(s.x.jobs, c.nPools) && Bare(s.x.jobs, id)
    requires Enabled(c, s, RequeueJob(t)) && s.pcs[t].job != id
    ensures Commutes(c, s, RequeueJob(t), id)
  {
    hide JobsValid, FindJob, Without, SetToken;
    var j := s.pcs[t].job;
    var r := Requeue(s.x, j).1;
    RequeueElsewhere(s.x, id, j);
    TokenElsewhere(s.x.jobs, c.nPools, s.hist, id, j, NoToken);
    if r.Queued? {
      QueuedHead(s.x, id, j);
      TokenElsewhere(s.x.jobs, c.nPools, s.hist, id, j, Ready(s.x.jobs[FindJob(s.x.jobs, j)].msgQue[0], r.pool));
    }
    hide Requeue;
  }

  lemma QueuedHead(x: Streams, id: nat, j: nat)
    requires JobsValid(x.jobs, |x.ready|) && Bare(x.jobs, id) && Requeue(x, j).1.Queued?
    ensures j != id && FindJob(x.jobs, j) < |x.jobs| && x.jobs[FindJob(x.jobs, j)].msgQue != []
    ensures var jobs' := Less(x, id).jobs;
      FindJob(jobs', j) < |jobs'| && jobs'[FindJob(jobs', j)] == x.jobs[FindJob(x.jobs, j)]
  {
    if j == id { RequeueOwn(x, id); }
    FindsTheSame(x.jobs, |x.ready|, id, j);
    hide JobsValid, FindJob, Without;
  }

  lemma GetCommutes(c: Config, s: State, t: nat, id: nat)
    requires Doomed(c, s, id) && Enabled(c, s, Get(t))
    ensures Commutes(c, s, Get(t), id)
  {
    hide Doomed, Inv, JobsValid, FindJob, Without, SetToken;
    DoomedParts(c, s, id);
    var p := c.worker[t];
    if s.x.ready[p] != [] {
      var m := s.x.ready[p][0];
      TokenElsewhere(s.x.jobs, c.nPools, s.hist, id, m.jobId, Exec(m, t));
    }
  }

  // The history of a job after one of its messages is finished.
  function FinishedHistory(hist: map<nat, History>, m: Msg, t: nat): History {
    var h := HistoryOf(hist, m.jobId);
    History(h.accepted, h.finished + [m], After(t))
  }

  lemma FinishElsewhere(jobs: seq<Job>, nPools: nat, hist: map<nat, History>, id: nat, m: Msg, t: nat)
    requires JobsValid(jobs, nPools) && InUse(jobs, id)
    ensures (if InUse(jobs, m.jobId) then hist[m.jobId := FinishedHistory(hist, m, t)] else hist) - {id} ==
      if InUse(Without(jobs, FindJob(jobs, id)), m.jobId)
      then (hist - {id})[m.jobId := FinishedHistory(hist - {id}, m, t)] else hist - {id}
  {
    FindsTheSame(jobs, nPools, id, m.jobId);
    HistoryElsewhere(hist, id, m.jobId, FinishedHistory(hist, m, t));
    hide JobsValid, FindJob, Without;
  }

  lemma FinishCommutes(c: Config, s: State, t: nat, free: bool, id: nat)
    requires Doomed(c, s, id) && Enabled(c, s, Finish(t, free))
    ensures Commutes(c, s, Finish(t, free), id)
  {
    hide Doomed, Inv, JobsValid, FindJob, Without, HistoryOf;
    DoomedParts(c, s, id);
    FinishElsewhere(s.x.jobs, c.nPools, s.hist, id, Executing(s.pcs[t]).value, t);
  }

  lemma SameInFlight(s: State, id: nat, j: nat)
    requires InUse(s.x.jobs, id)
    ensures InFlight(Minus(s, id), j) <==> InFlight(s, j)
    ensures forall m :: InWork(Minus(s, id), j, m) <==> InWork(s, j, m)
  {
    assert forall token :: TokenAt(Minus(s, id), j, token) <==> TokenAt(s, j, token);
    hide TokenAt;
  }

  lemma AcquireElsewhere(jobs: seq<Job>, nPools: nat, id: nat, job: Job)
    requires JobsValid(jobs, nPools) && Bare(jobs, id) && !InUse(jobs, job.jobId)
    ensures Bare(jobs + [job], id)
    ensures Without(jobs + [job], FindJob(jobs + [job], id)) == Without(jobs, FindJob(jobs, id)) + [job]
    ensures !InUse(Without(jobs, FindJob(jobs, id)), job.jobId)
  {
    FindsTheSame(jobs, nPools, id, job.jobId);
    AppendBehind(jobs, FindJob(jobs, id), job);
    FoundBefore(jobs, job, id);
    hide JobsValid, FindJob, Without;
  }

  lemma AcquireCommutes(c: Config, s: State, t: nat, next: Option<nat>, id: nat)
    requires Doomed(c, s, id) && Enabled(c, s, Acquire(t, next))
    ensures Commutes(c, s, Acquire(t, next), id)
  {
    hide Doomed, Inv, JobsValid, FindJob, Without, InFlight;
    DoomedParts(c, s, id);
    if next.Some? {
      SameInFlight(s, id, next.value);
      AcquireElsewhere(s.x.jobs, c.nPools, id, Job(next.value, true, []));
      HistoryElsewhere(s.hist, id, next.value, History([], [], NoToken));
    }
  }

  lemma FoundBefore(jobs: seq<Job>, job: Job, j: nat)
    requires InUse(jobs, j)
    ensures FindJob(jobs + [job], j) == FindJob(jobs, j)
  {
    var k := FindJob(jobs + [job], j);
    assert forall i :: 0 <= i < |jobs| ==> (jobs + [job])[i] == jobs[i];
  }

  lemma ReleaseElsewhere(jobs: seq<Job>, nPools: nat, id: nat, j: nat)
    requires JobsValid(jobs, nPools) && Bare(jobs, id) && InUse(jobs, j) && j != id
    ensures var k, f := FindJob(jobs, id), FindJob(jobs, j);
      && f != k && SameElsewhere(jobs, k, j) && SameElsewhere(jobs, f, id) && Bare(Without(jobs, f), id)
      && Without(Without(jobs, f), if k < f then k else k - 1) == Without(Without(jobs, k), if f < k then f else f - 1)
  {
    hide JobsValid, FindJob, Without;
    FindsTheSame(jobs, nPools, id, j);
    FindsTheSame(jobs, nPools, j, id);
    assert FindJob(jobs, id) != FindJob(jobs, j);
    WithoutShorter(jobs, FindJob(jobs, j));
    TwoWithout(jobs, FindJob(jobs, id), FindJob(jobs, j));
  }

  // Where messages are when those of a released job are with the thread that drains it.
  function DrainLoc(loc: map<Msg, Loc>, q: seq<Msg>, t: nat): map<Msg, Loc> {
    map n | n in loc :: if n in q then InDrain(t) else loc[n]
  }

  function Released(s: State, t: nat, j: nat): State
    requires t < |s.pcs| && s.pcs[t].Releasing?
  {
    var k, m := FindJob(s.x.jobs, j), s.pcs[t].m;
    if k == |s.x.jobs| then s.(gate := None, pcs := s.pcs[t := Replying(m)])
    else
      s.(x := s.x.(jobs := Without(s.x.jobs, k)), gate := None,
        pcs := s.pcs[t := Draining(m, s.x.jobs[k].msgQue)], loc := DrainLoc(s.loc, s.x.jobs[k].msgQue, t))
  }

  lemma ReleaseIs(c: Config, s: State, t: nat)
    requires Shape(c, s) && Enabled(c, s, Release(t))
    ensures Next(c, s, Release(t)) == Released(s, t, s.pcs[t].m.kind.job)
  {
    hide FindJob, Without, InFlight;
  }

  lemma ReleasedLess(s: State, nPools: nat, t: nat, id: nat, j: nat)
    requires JobsValid(s.x.jobs, nPools) && Bare(s.x.jobs, id) && j != id && t < |s.pcs| && s.pcs[t].Releasing?
    ensures Bare(Released(s, t, j).x.jobs, id) && Released(Minus(s, id), t, j) == Minus(Released(s, t, j), id)
  {
    hide JobsValid, FindJob, Without, DrainLoc;
    WithoutShorter(s.x.jobs, FindJob(s.x.jobs, id));
    if InUse(s.x.jobs, j) {
      ReleaseElsewhere(s.x.jobs, nPools, id, j);
    } else {
      FindsTheSame(s.x.jobs, nPools, id, j);
    }
  }

  lemma ReleaseCommutes(c: Config, s: State, t: nat, id: nat)
    requires Doomed(c, s, id) && Enabled(c, s, Release(t)) && s.pcs[t].m.kind.job != id
    ensures Commutes(c, s, Release(t), id)
  {
    hide Doomed, Inv, JobsValid, FindJob, Without, Next, Released;
    DoomedParts(c, s, id);
    assert Enabled(c, Minus(s, id), Release(t));
    ReleaseIs(c, s, t);
    ReleaseIs(c, Minus(s, id), t);
    ReleasedLess(s, c.nPools, t, id, s.pcs[t].m.kind.job);
  }

  lemma OtherCommutes(c: Config, s: State, a: Action, id: nat)
    requires Doomed(c, s, id) && Enabled(c, s, a) && (a.EnterGate? || a.Post? || a.Drain? || a.Pend?)
    ensures Commutes(c, s, a, id)
  {
    hide Doomed, Inv, JobsValid, FindJob, Without;
    DoomedParts(c, s, id);
  }

  // ----- Until the release -----

  lemma StepCommutes(c: Config, s: State, a: Action, id: nat)
    requires Doomed(c, s, id) && Enabled(c, s, a) && !(a.Release? && s.pcs[a.t].m.kind.job == id)
    ensures Commutes(c, s, a, id)
  {
    assert !a.Receive? && !a.DispatchDiscrete? && !a.DispatchRefused? && !a.LookUp? && !a.Return?;
    hide Doomed, Commutes, Enabled, Next;
    match a
    case Acquire(t, next) => AcquireCommutes(c, s, t, next, id);
    case Release(t) => ReleaseCommutes(c, s, t, id);
    case Finish(t, free) => FinishCommutes(c, s, t, free, id);
    case Get(t) => GetCommutes(c, s, t, id);
    case RequeueJob(t) => RequeueCommutes(c, s, t, id);
    case _ => OtherCommutes(c, s, a, id);
  }

  // The server stays where it is, or enters the gate.
  lemma ServerRetires(c: Config, s: State, a: Action, id: nat)
    requires Shape(c, s) && Enabled(c, s, a) && Retiring(s.pcs[0], id)
    requires !(a.Release? && s.pcs[a.t].m.kind.job == id)
    ensures Retiring(Next(c, s, a).pcs[0], id)
  {
    hide FindJob, InFlight, Requeue;
  }

  lemma ControlIsOfAll(c: Config, s: State, id: nat)
    requires Sized(c, s) && InUse(s.x.jobs, id) && Control(c, Minus(s, id))
    ensures Control(c, s)
  {
    hide JobsValid;
  }

  lemma DoomedKept(c: Config, s: State, a: Action, id: nat)
    requires Doomed(c, s, id) && Enabled(c, s, a) && !(a.Release? && s.pcs[a.t].m.kind.job == id)
    ensures Doomed(c, Next(c, s, a), id)
    ensures Commutes(c, s, a, id)
  {
    StepCommutes(c, s, a, id);
    ServerRetires(c, s, a, id);
    ControlIsOfAll(c, s, id);
    SizedKept(c, s, a);
    InvKept(c, Minus(s, id), a);
    hide Inv, Control, Sized, Next, Enabled, Minus;
  }

  // Nothing is added to the work of an id that no job has.
  lemma DeadWorkShrinks(c: Config, s: State, a: Action, id: nat, m: Msg)
    requires Inv(c, s) && Enabled(c, s, a) && id != DISCRETE_JOB_ID && !InUse(s.x.jobs, id)
    requires InWork(Next(c, s, a), id, m)
    ensures InWork(s, id, m)
  {
    assert Shape(c, s);
    hide Inv, FindJob, Next, Enabled, Shape;
    var token :| TokenAt(Next(c, s, a), id, token) && Current(token) == [m];
    hide InWork;
    if token.Ready? {
      DeadReady(c, s, a, m, token.p);
    } else {
      DeadExec(c, s, a, m, token.t);
    }
  }

  lemma DeadReady(c: Config, s: State, a: Action, m: Msg, p: nat)
    requires Inv(c, s) && Enabled(c, s, a) && m.jobId != DISCRETE_JOB_ID && !InUse(s.x.jobs, m.jobId)
    requires TokenAt(Next(c, s, a), m.jobId, Ready(m, p))
    ensures InWork(s, m.jobId, m)
  {
    hide Inv, FindJob, Next, Enabled, InWork, InUse, TokenAt;
    if p < |s.x.ready| && m in s.x.ready[p] {
      ReadyIsInWork(s, p, m);
    } else {
      PutIsKnown(c, s, a, m, p);
    }
  }

  lemma DeadExec(c: Config, s: State, a: Action, m: Msg, t: nat)
    requires Inv(c, s) && Enabled(c, s, a) && m.jobId != DISCRETE_JOB_ID
    requires TokenAt(Next(c, s, a), m.jobId, Exec(m, t))
    ensures InWork(s, m.jobId, m)
  {
    assert Shape(c, s);
    assert |Next(c, s, a).pcs| == |s.pcs| by { StepKeepsThreads(c, s, a); }
    assert Executing(Next(c, s, a).pcs[t]) == Some(m);
    hide Inv, FindJob, Next, Enabled, InWork, Shape, TokenAt;
    if Executing(s.pcs[t]) == Some(m) {
      ExecIsInWork(s, m, t);
    } else {
      ExecutionStartsWithGet(c, s, a, m, t);
      ReadyIsInWork(s, c.worker[t], m);
    }
  }

  lemma ExecIsInWork(s: State, m: Msg, t: nat)
    requires t < |s.pcs| && Executing(s.pcs[t]) == Some(m)
    ensures InWork(s, m.jobId, m)
  {
    assert TokenAt(s, m.jobId, Exec(m, t)) && Current(Exec(m, t)) == [m];
  }

  // ----- The release -----

  // When the job is gone everything is as it should be.
  lemma ReleaseCleansUp(c: Config, s: State, t: nat, id: nat)
    requires Doomed(c, s, id) && Enabled(c, s, Release(t)) && s.pcs[t].m.kind.job == id
    ensures Inv(c, Next(c, s, Release(t)))
  {
    hide Inv, JobsValid, FindJob, Without, Next, Sized;
    DoomedParts(c, s, id);
    assert Enabled(c, Minus(s, id), Release(t));
    var u, s' := Next(c, Minus(s, id), Release(t)), Next(c, s, Release(t));
    FindsTheSame(s.x.jobs, c.nPools, id, id);
    InvKept(c, Minus(s, id), Release(t));
    ReleaseIs(c, s, t);
    ReleaseIs(c, Minus(s, id), t);
    hide Enabled, Shape;
    assert DrainLoc(s.loc, [], t) == s.loc;
    SameButDraining(c, u, s', t);
  }

  lemma SameButDraining(c: Config, u: State, s: State, t: nat)
    requires Inv(c, u) && t < |u.pcs| && u.pcs[t].Replying?
    requires s == u.(pcs := u.pcs[t := Draining(u.pcs[t].m, [])], hist := s.hist)
    requires forall j :: j in u.hist ==> j in s.hist && s.hist[j] == u.hist[j]
    ensures Inv(c, s)
  {
    assert Semaphores(c, s) by {
      forall p | 0 <= p < c.nPools ensures Debts(c, s.pcs, p, |s.pcs|) == Debts(c, u.pcs, p, |u.pcs|) {
        DebtsUpdate(c, u.pcs, p, |u.pcs|, t, s.pcs[t]);
      }
    }
    assert Placed(s) by { DrainingHoldsTheSame(u, s, t); }
    assert Tracked(s) by { DrainingTracksTheSame(c, u, s, t); }
    hide Placed, Tracked, Semaphores;
  }

  lemma DrainingHoldsTheSame(u: State, s: State, t: nat)
    requires Placed(u) && t < |u.pcs| && u.pcs[t].Replying?
    requires s == u.(pcs := u.pcs[t := Draining(u.pcs[t].m, [])], hist := s.hist)
    ensures Placed(s)
  {
    assert forall m, loc :: Holds(s, m, loc) <==> Holds(u, m, loc);
    hide Holds, NoDup;
    assert forall n :: 0 <= n < |s.pcs| ==> Drained(s.pcs[n]) == Drained(u.pcs[n]);
  }

  lemma DrainingTracksTheSame(c: Config, u: State, s: State, t: nat)
    requires Sized(c, u) && Tracked(u) && t < |u.pcs| && u.pcs[t].Replying?
    requires s == u.(pcs := u.pcs[t := Draining(u.pcs[t].m, [])], hist := s.hist)
    requires forall j :: j in u.hist ==> j in s.hist && s.hist[j] == u.hist[j]
    ensures Tracked(s)
  {
    forall k | 0 <= k < |s.x.jobs| ensures JobTracked(s, s.x.jobs[k]) {
      assert JobTracked(u, s.x.jobs[k]);
      assert forall token :: TokenAt(s, s.x.jobs[k].jobId, token) <==> TokenAt(u, s.x.jobs[k].jobId, token);
    }
  }

  // ----- The condition -----

  // At most one message that carries the id is ready or executing.
  ghost predicate OneLeft(s: State, id: nat) {
    forall m, m' :: InWork(s, id, m) && InWork(s, id, m') ==> m == m'
  }

  lemma OneLeftKept(c: Config, s: State, a: Action, id: nat)
    requires Doomed(c, s, id) && Enabled(c, s, a) && Commutes(c, s, a, id) && OneLeft(s, id)
    ensures OneLeft(Next(c, s, a), id)
  {
    var s' := Next(c, s, a);
    FindsTheSame(s.x.jobs, c.nPools, id, id);
    SameInFlight(s, id, id);
    SameInFlight(s', id, id);
    hide Inv, Next, Enabled, InWork, JobsValid, FindJob, Without, Sized;
    forall m | InWork(s', id, m) ensures InWork(s, id, m) { DeadWorkShrinks(c, Minus(s, id), a, id, m); }
  }

  lemma {:induction false} DoomedStaysInSequence(c: Config, s: State, id: nat, actions: seq<Action>)
    requires Doomed(c, s, id) && OneLeft(s, id) && CanDo(c, s, actions)
    ensures InSequence(Do(c, s, actions), id)
    decreases |actions|
  {
    if actions != [] {
      var a := actions[0];
      hide Doomed, OneLeft, Enabled, Next, Shape, InSequence, Commutes;
      if a.Release? && ReleasesId(c, s, a, id) {
        ReleaseCleansUp(c, s, a.t, id);
        InvStaysInSequence(c, Next(c, s, a), id, actions[1..]);
      } else {
        DoomedKept(c, s, a, id);
        OneLeftKept(c, s, a, id);
        DoomedStaysInSequence(c, Next(c, s, a), id, actions[1..]);
      }
    }
  }

  ghost predicate ReleasesId(c: Config, s: State, a: Action, id: nat)
    requires a.Release? && Shape(c, s) && Enabled(c, s, a)
  {
    s.pcs[a.t].m.kind.job == id
  }

  lemma DeadHistoryIsIdle(c: Config, s: State, id: nat)
    requires Inv(c, s) && !InUse(s.x.jobs, id)
    ensures Inv(c, s.(hist := s.hist - {id}))
  {
    var s' := s.(hist := s.hist - {id});
    assert Tracked(s') && Sized(c, s') by { DeadHistoryTracksNothing(c, s, id); }
    assert Placed(s') by { PlacedWithoutHistory(s, s'); }
    hide Tracked, Sized, Placed;
  }

  lemma PlacedWithoutHistory(s: State, s': State)
    requires Placed(s) && s' == s.(hist := s'.hist)
    ensures Placed(s')
  {
    assert forall m, loc :: Holds(s', m, loc) <==> Holds(s, m, loc);
    hide Holds, NoDup;
  }

  lemma DeadHistoryTracksNothing(c: Config, s: State, id: nat)
    requires Sized(c, s) && Tracked(s) && !InUse(s.x.jobs, id)
    ensures Sized(c, s.(hist := s.hist - {id})) && Tracked(s.(hist := s.hist - {id}))
  {
    var s' := s.(hist := s.hist - {id});
    assert forall k :: 0 <= k < |s.x.jobs| ==> s.x.jobs[k].jobId != id;
    hide JobsValid;
    forall k | 0 <= k < |s.x.jobs| ensures JobTracked(s', s.x.jobs[k]) {
      assert JobTracked(s, s.x.jobs[k]);
      assert forall token :: TokenAt(s', s.x.jobs[k].jobId, token) <==> TokenAt(s, s.x.jobs[k].jobId, token);
    }
  }

  lemma AppendKeepsJobs(jobs: seq<Job>, nPools: nat, id: nat)
    requires JobsValid(jobs, nPools) && 1 <= id <= MAX_ID && !InUse(jobs, id)
    ensures JobsValid(jobs + [Job(id, true, [])], nPools)
    ensures Without(jobs + [Job(id, true, [])], |jobs|) == jobs
  {
    assert forall i :: 0 <= i < |jobs| ==> jobs[i].jobId != id;
    hide FindJob;
  }

  lemma AcquiredIsSized(c: Config, s: State, t: nat, id: nat)
    requires Sized(c, s) && t < |s.pcs| && s.pcs[t].Acquiring? && 1 <= id <= MAX_ID && !InUse(s.x.jobs, id)
    ensures var s' := AcquireAnyway(s, t, id);
      Sized(c, s') && FindJob(s'.x.jobs, id) == |s.x.jobs| && Minus(s', id).x.jobs == s.x.jobs
  {
    hide FindJob, JobsValid, Without;
    NewJobIsFound(s.x.jobs, Job(id, true, []));
    AppendKeepsJobs(s.x.jobs, c.nPools, id);
  }

  lemma AcquireNothing(c: Config, s: State, t: nat) returns (s': State)
    requires Inv(c, s) && t < |s.pcs| && s.pcs[t].Acquiring?
    ensures s' == s.(gate := None, pcs := s.pcs[t := Replying(s.pcs[t].m)]) && Inv(c, s') && Sized(c, s)
  {
    assert Sized(c, s) && Enabled(c, s, Acquire(t, None));
    hide Inv, Sized, InFlight, FindJob;
    s' := Next(c, s, Acquire(t, None));
    InvKept(c, s, Acquire(t, None));
  }

  lemma AcquiredIsDoomed(c: Config, s: State, t: nat, id: nat)
    requires Inv(c, s) && t < |s.pcs| && s.pcs[t].Acquiring? && s.pcs != [] && ReleasesNext(s.pcs[0], id)
    requires 1 <= id <= MAX_ID && !InUse(s.x.jobs, id)
    ensures Doomed(c, AcquireAnyway(s, t, id), id)
  {
    hide Inv, Sized, FindJob, Without, InUse;
    var s' := AcquireAnyway(s, t, id);
    var u := AcquireNothing(c, s, t);
    AcquiredIsSized(c, s, t, id);
    DeadHistoryIsIdle(c, u, id);
    HistoryElsewhere(s.hist, id, id, History([], [], NoToken));
    AcquiredIsFound(s, t, id);
    assert Minus(s', id) == u.(hist := u.hist - {id});
  }

  lemma AcquiredIsFound(s: State, t: nat, id: nat)
    requires t < |s.pcs| && s.pcs[t].Acquiring? && !InUse(s.x.jobs, id)
    ensures var jobs := AcquireAnyway(s, t, id).x.jobs;
      InUse(jobs, id) && FindJob(jobs, id) < |jobs| && jobs[FindJob(jobs, id)].msgQue == []
  {
    NewJobIsFound(s.x.jobs, Job(id, true, []));
    hide FindJob;
  }

  lemma AcquiredWork(s: State, t: nat, id: nat)
    requires t < |s.pcs| && s.pcs[t].Acquiring?
    ensures OneLeft(AcquireAnyway(s, t, id), id) <==> OneLeft(s, id)
  {
    var s' := AcquireAnyway(s, t, id);
    forall m ensures InWork(s', id, m) <==> InWork(s, id, m) {
      assert forall token :: Current(token) == [m] ==> (TokenAt(s, id, token) <==> TokenAt(s', id, token));
    }
    hide InWork;
  }

  /** Handing out a free id keeps the messages of its job one at a time, whatever happens next, if and only if no
      message in flight still carries the id, or the server has just taken the packet that releases the id again and at
      most one message that carries it is ready or executing. */
  lemma ReuseSafeIff(c: Config, s: State, t: nat, id: nat)
    requires Inv(c, s) && t < |s.pcs| && s.pcs[t].Acquiring?
    requires 1 <= id <= MAX_ID && !InUse(s.x.jobs, id)
    ensures StaysInSequence(c, AcquireAnyway(s, t, id), id) <==>
      !InFlight(s, id) || (ReleasesNext(s.pcs[0], id) && OneLeft(s, id))
  {
    var s' := AcquireAnyway(s, t, id);
    ReuseSafeIffNotInFlight(c, s, t, id);
    NewJobIsFound(s.x.jobs, Job(id, true, []));
    AcquiredWork(s, t, id);
    if InFlight(s, id) && ReleasesNext(s.pcs[0], id) {
      AcquiredIsDoomed(c, s, t, id);
      hide Inv, Doomed, AcquireAnyway, InFlight, FindJob, InSequence;
      if OneLeft(s, id) {
        forall actions | CanDo(c, s', actions) ensures InSequence(Do(c, s', actions), id) {
          DoomedStaysInSequence(c, s', id, actions);
        }
      } else {
        NotInSequence(c, s', id);
      }
    }
  }

  lemma NotInSequence(c: Config, s: State, id: nat)
    requires InUse(s.x.jobs, id) && !OneLeft(s, id)
    ensures !StaysInSequence(c, s, id)
  {
    hide InWork;
    assert CanDo(c, s, []) && Do(c, s, []) == s;
    assert !InSequence(s, id);
  }
}
