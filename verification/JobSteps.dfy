/** The server thread and any number of worker threads of RcmServer as a step system. Thread 0 is the server. A step
    does at most one thing that a thread outside the gate can see: it puts or takes one message, or moves a semaphore.

    Three of the components are history: `hist` records, per job, what was accepted and finished and where the one
    message of the job is that is ready or being executed; `loc` records where every message is; nothing reads them to
    decide what to do next. */
module JobSteps {
  import opened Options
  import opened JobStreams

  // nPools is poolMap0Len; worker[t] is the pool of thread t; inBand says that the default pool has no threads.
  datatype Config = Config(nPools: nat, worker: seq<nat>, inBand: bool)

  datatype Pc =
    // the server thread
    | Receiving                        // blocked on the server queue
    | Dispatching(m: Msg)              // in dispatch, before its first effect
    | Looking(m: Msg)                  // in the gate, searching the job list
    | Posting(p: nat)                  // has put a discrete message on a ready queue, has yet to post
    | Returning(m: Msg)                // dispatch failed; the message goes back to the client
    // any thread that processes a message
    | Processing(m: Msg)               // executing it
    | Acquiring(m: Msg)                // in the gate, for JOB_ACQ
    | Releasing(m: Msg)                // in the gate, for JOB_REL
    | Draining(m: Msg, q: seq<Msg>)    // out of the gate, returning what the released job still held
    | Replying(m: Msg)                 // the work is done, the reply is not sent
    // a worker thread
    | Pending                          // waiting on its pool's semaphore
    | Getting                          // past the wait, before it takes from the ready queue
    | Finished(job: nat)               // has processed a message of this job
    | Requeuing(job: nat)              // in the gate, queuing up the next message of the job
    | LookupFailed(m: Msg)             // found no pool for that message
    // in the gate, has put a message on a ready queue, has yet to post
    | GatePosting(p: nat)

  datatype Token = NoToken | Ready(m: Msg, p: nat) | Exec(m: Msg, t: nat) | After(t: nat)

  datatype History = History(accepted: seq<Msg>, finished: seq<Msg>, token: Token)

  datatype Loc = InReady(p: nat) | InJob(job: nat) | At(t: nat) | InDrain(t: nat) | WasReturned | WasFreed | WasDropped

  datatype State = State(x: Streams, sem: seq<nat>, gate: Option<nat>, pcs: seq<Pc>, hist: map<nat, History>,
                         loc: map<Msg, Loc>, returned: seq<Msg>, freed: seq<Msg>, dropped: seq<Msg>)

  datatype Action =
    | Receive(m: Msg)
    | DispatchDiscrete
    | DispatchRefused
    | EnterGate(t: nat)
    | LookUp
    | Post(t: nat)
    | Return
    | Acquire(t: nat, id: Option<nat>)
    | Release(t: nat)
    | Drain(t: nat)
    | Finish(t: nat, free: bool)
    | Pend(t: nat)
    | Get(t: nat)
    | RequeueJob(t: nat)

  predicate WellFormedConfig(c: Config) {
    1 <= |c.worker| && 1 <= c.nPools && forall t :: 1 <= t < |c.worker| ==> c.worker[t] < c.nPools
  }

  function Home(t: nat): Pc {
    if t == 0 then Receiving else Pending
  }

  function AfterMessage(t: nat, m: Msg): Pc {
    if t == 0 || m.jobId == DISCRETE_JOB_ID then Home(t) else Finished(m.jobId)
  }

  predicate InGate(pc: Pc) {
    pc.Looking? || pc.Acquiring? || pc.Releasing? || pc.Requeuing? || pc.GatePosting? || pc.LookupFailed?
  }

  // The message a thread holds.
  function Held(pc: Pc): Option<Msg> {
    match pc
    case Dispatching(m) => Some(m)
    case Looking(m) => Some(m)
    case Returning(m) => Some(m)
    case Processing(m) => Some(m)
    case Acquiring(m) => Some(m)
    case Releasing(m) => Some(m)
    case Draining(m, _) => Some(m)
    case Replying(m) => Some(m)
    case LookupFailed(m) => Some(m)
    case _ => None
  }

  // The message a thread is executing.
  function Executing(pc: Pc): Option<Msg> {
    match pc
    case Processing(m) => Some(m)
    case Acquiring(m) => Some(m)
    case Releasing(m) => Some(m)
    case Draining(m, _) => Some(m)
    case Replying(m) => Some(m)
    case _ => None
  }

  function Drained(pc: Pc): seq<Msg> {
    if pc.Draining? then pc.q else []
  }

  // The job a worker has yet to queue the next message of.
  function Owes(pc: Pc): nat {
    match pc
    case Finished(j) => j
    case Requeuing(j) => j
    case _ => DISCRETE_JOB_ID
  }

  function HistoryOf(hist: map<nat, History>, j: nat): History {
    if j in hist then hist[j] else History([], [], NoToken)
  }

  // History follows live jobs only.
  function SetToken(jobs: seq<Job>, hist: map<nat, History>, j: nat, token: Token): map<nat, History> {
    if InUse(jobs, j) then hist[j := HistoryOf(hist, j).(token := token)] else hist
  }

  function InBand(c: Config, m: Msg): bool {
    m.poolId == DEFAULT_POOL_ID && c.inBand
  }

  // Is a message of this job ready or executing, or does a worker still owe its next one?
  predicate TokenAt(s: State, j: nat, token: Token) {
    match token
    case NoToken => false
    case Ready(m, p) => p < |s.x.ready| && m in s.x.ready[p] && m.jobId == j
    case Exec(m, t) => t < |s.pcs| && Executing(s.pcs[t]) == Some(m) && m.jobId == j
    case After(t) => t < |s.pcs| && j != DISCRETE_JOB_ID && Owes(s.pcs[t]) == j
  }

  ghost predicate InFlight(s: State, j: nat) {
    exists token :: TokenAt(s, j, token)
  }

  // ----- The steps -----

  // One control state per thread, one ready queue and one semaphore per pool.
  ghost predicate Shape(c: Config, s: State) {
    WellFormedConfig(c) && |s.pcs| == |c.worker| && |s.x.ready| == |s.sem| == c.nPools
  }

  ghost predicate Enabled(c: Config, s: State, a: Action)
    requires Shape(c, s)
  {
    match a
    // Every packet is an object of its own, addresses a static pool, and a job message is not processed in band.
    case Receive(m) =>
      s.pcs[0] == Receiving && m !in s.loc && WellAddressed(m) && (InBand(c, m) ==> m.jobId == DISCRETE_JOB_ID)
    case DispatchDiscrete =>
      s.pcs[0].Dispatching? && s.pcs[0].m.jobId == DISCRETE_JOB_ID && PoolOf(c.nPools, s.pcs[0].m.poolId).Some?
    case DispatchRefused => s.pcs[0].Dispatching? && PoolOf(c.nPools, s.pcs[0].m.poolId).None?
    case EnterGate(t) => t < |s.pcs| && s.gate == None && Entered(c, s.pcs[t]).Some?
    case LookUp => s.pcs[0].Looking? && PoolOf(c.nPools, s.pcs[0].m.poolId).Some?
    case Post(t) => t < |s.pcs| && (s.pcs[t].Posting? || s.pcs[t].GatePosting?) && s.pcs[t].p < |s.sem|
    case Return => s.pcs[0].Returning?
    // An id that a message still in flight carries is not handed out again.
    case Acquire(t, id) =>
      && t < |s.pcs| && s.pcs[t].Acquiring?
      && (id.Some? ==> 1 <= id.value <= MAX_ID && !InUse(s.x.jobs, id.value) && !InFlight(s, id.value))
    case Release(t) => t < |s.pcs| && s.pcs[t].Releasing? && s.pcs[t].m.kind.ReleaseJob?
    case Drain(t) => t < |s.pcs| && s.pcs[t].Draining? && s.pcs[t].q != []
    case Finish(t, free) => t < |s.pcs| && Done(s.pcs[t]) && (free ==> Executing(s.pcs[t]).value.kind.Command?)
    case Pend(t) => 1 <= t < |s.pcs| && s.pcs[t] == Pending && s.sem[c.worker[t]] > 0
    case Get(t) => 1 <= t < |s.pcs| && s.pcs[t] == Getting
    case RequeueJob(t) => 1 <= t < |s.pcs| && s.pcs[t].Requeuing?
  }

  function Entered(c: Config, pc: Pc): Option<Pc> {
    match pc
    case Dispatching(m) =>
      if m.jobId != DISCRETE_JOB_ID && PoolOf(c.nPools, m.poolId).Some? then Some(Looking(m)) else None
    case Processing(m) =>
      if m.kind.AcquireJob? then Some(Acquiring(m)) else if m.kind.ReleaseJob? then Some(Releasing(m)) else None
    case Finished(j) => Some(Requeuing(j))
    case _ => None
  }

  // Nothing is left to do for the message but to answer it.
  predicate Done(pc: Pc) {
    || (pc.Processing? && !pc.m.kind.AcquireJob? && !pc.m.kind.ReleaseJob?)
    || (pc.Draining? && pc.q == [])
    || pc.Replying?
  }

  ghost function Next(c: Config, s: State, a: Action): State
    requires Shape(c, s) && Enabled(c, s, a)
  {
    match a
    case Receive(m) =>
      s.(pcs := s.pcs[0 := if InBand(c, m) then Processing(m) else Dispatching(m)], loc := s.loc[m := At(0)])
    case DispatchDiscrete =>
      var m := s.pcs[0].m;
      var p := PoolOf(c.nPools, m.poolId).value;
      s.(x := s.x.(ready := Put(s.x.ready, p, m)), pcs := s.pcs[0 := Posting(p)], loc := s.loc[m := InReady(p)])
    case DispatchRefused => s.(pcs := s.pcs[0 := Returning(s.pcs[0].m)])
    case EnterGate(t) => s.(gate := Some(t), pcs := s.pcs[t := Entered(c, s.pcs[t]).value])
    case LookUp => NextLookUp(c, s)
    case Post(t) =>
      var p := s.pcs[t].p;
      s.(sem := s.sem[p := s.sem[p] + 1],
         gate := if s.pcs[t].GatePosting? then None else s.gate,
         pcs := s.pcs[t := Home(t)])
    case Return =>
      var m := s.pcs[0].m;
      s.(pcs := s.pcs[0 := Receiving], returned := s.returned + [m], loc := s.loc[m := WasReturned])
    case Acquire(t, id) =>
      var s' := s.(gate := None, pcs := s.pcs[t := Replying(s.pcs[t].m)]);
      if id.None? then s' else
        s'.(x := s.x.(jobs := s.x.jobs + [Job(id.value, true, [])]),
           hist := s.hist[id.value := History([], [], NoToken)])
    case Release(t) => NextRelease(c, s, t)
    case Drain(t) =>
      var q := s.pcs[t].q;
      s.(pcs := s.pcs[t := Draining(s.pcs[t].m, q[1..])],
        returned := s.returned + [q[0]], loc := s.loc[q[0] := WasReturned])
    case Finish(t, free) => NextFinish(c, s, t, free)
    case Pend(t) =>
      var p := c.worker[t];
      s.(sem := s.sem[p := s.sem[p] - 1], pcs := s.pcs[t := Getting])
    case Get(t) => NextGet(c, s, t)
    case RequeueJob(t) => NextRequeue(c, s, t)
  }

  // The server has the gate and looks for the job of its message.
  ghost function NextLookUp(c: Config, s: State): State
    requires |s.pcs| >= 1 && s.pcs[0].Looking? && |s.x.ready| == c.nPools && PoolOf(c.nPools, s.pcs[0].m.poolId).Some?
  {
    var m := s.pcs[0].m;
    var p := PoolOf(c.nPools, m.poolId).value;
    var (x, accepted) := Accept(s.x, m, p);
    var h := HistoryOf(s.hist, m.jobId);
    match accepted
    case NoSuchJob => s.(gate := None, pcs := s.pcs[0 := Returning(m)])
    case OnReady =>
      s.(x := x, pcs := s.pcs[0 := GatePosting(p)], loc := s.loc[m := InReady(p)],
         hist := s.hist[m.jobId := History(h.accepted + [m], h.finished, Ready(m, p))])
    case OnJob =>
      s.(x := x, gate := None, pcs := s.pcs[0 := Receiving], loc := s.loc[m := InJob(m.jobId)],
         hist := s.hist[m.jobId := h.(accepted := h.accepted + [m])])
  }

  ghost function NextRelease(c: Config, s: State, t: nat): State
    requires t < |s.pcs| && s.pcs[t].Releasing? && s.pcs[t].m.kind.ReleaseJob?
  {
    var m := s.pcs[t].m;
    var k := FindJob(s.x.jobs, m.kind.job);
    if k == |s.x.jobs| then s.(gate := None, pcs := s.pcs[t := Replying(m)])
    else
      var q := s.x.jobs[k].msgQue;
      s.(x := s.x.(jobs := Without(s.x.jobs, k)), gate := None, pcs := s.pcs[t := Draining(m, q)],
         loc := map n | n in s.loc :: if n in q then InDrain(t) else s.loc[n])
  }

  // The message is answered: returned, freed (a successful command), or, for a type the server does nothing with,
  // neither.
  ghost function NextFinish(c: Config, s: State, t: nat, free: bool): State
    requires t < |s.pcs| && Executing(s.pcs[t]).Some?
  {
    var m := Executing(s.pcs[t]).value;
    var h := HistoryOf(s.hist, m.jobId);
    var s' := s.(pcs := s.pcs[t := AfterMessage(t, m)],
                 hist := if InUse(s.x.jobs, m.jobId)
                         then s.hist[m.jobId := History(h.accepted, h.finished + [m], After(t))] else s.hist);
    if m.kind.Other? then s'.(dropped := s.dropped + [m], loc := s.loc[m := WasDropped])
    else if free then s'.(freed := s.freed + [m], loc := s.loc[m := WasFreed])
    else s'.(returned := s.returned + [m], loc := s.loc[m := WasReturned])
  }

  // An empty ready queue sends the worker back to the semaphore.
  ghost function NextGet(c: Config, s: State, t: nat): State
    requires 1 <= t < |s.pcs| && |c.worker| == |s.pcs| && c.worker[t] < |s.x.ready|
  {
    var p := c.worker[t];
    if s.x.ready[p] == [] then s.(pcs := s.pcs[t := Pending])
    else
      var m := s.x.ready[p][0];
      s.(x := s.x.(ready := s.x.ready[p := s.x.ready[p][1..]]), pcs := s.pcs[t := Processing(m)],
        loc := s.loc[m := At(t)],
         hist := SetToken(s.x.jobs, s.hist, m.jobId, Exec(m, t)))
  }

  ghost function NextRequeue(c: Config, s: State, t: nat): State
    requires t < |s.pcs| && s.pcs[t].Requeuing?
  {
    var j := s.pcs[t].job;
    var (x, r) := Requeue(s.x, j);
    match r
    case JobGone => s.(gate := None, pcs := s.pcs[t := Pending])
    case NowEmpty =>
      s.(x := x, gate := None, pcs := s.pcs[t := Pending], hist := SetToken(s.x.jobs, s.hist, j, NoToken))
    case Queued(p) =>
      var m := s.x.jobs[FindJob(s.x.jobs, j)].msgQue[0];
      s.(x := x, pcs := s.pcs[t := GatePosting(p)], loc := s.loc[m := InReady(p)],
         hist := SetToken(s.x.jobs, s.hist, j, Ready(m, p)))
    case PoolGone(m) => s.(x := x, pcs := s.pcs[t := LookupFailed(m)], loc := s.loc[m := At(t)])
  }

  ghost predicate Init(c: Config, s: State) {
    && WellFormedConfig(c)
    && s == State(Streams([], seq(c.nPools, _ => [])), seq(c.nPools, _ => 0), None,
                  seq(|c.worker|, t requires 0 <= t => Home(t)), map[], map[], [], [], [])
  }
}
