/** When a job id may be handed out again. A free id that a message in flight still carries breaks the promise to
    process the messages of a job one after the other, and nothing else does; and an id comes back only after 65535
    steps of the tracker, so a server that is done with a released job within that many steps never meets the case. */
module JobReuse {
  import opened Options
  import opened JobStreams
  import opened JobSteps
  import opened JobInvariant
  import opened JobPlaces
  import opened JobTokens
  import opened JobSafety

  // ----- What can happen from a state -----

  ghost predicate CanDo(c: Config, s: State, actions: seq<Action>)
    decreases |actions|
  {
    actions == [] || (Shape(c, s) && Enabled(c, s, actions[0]) && CanDo(c, Next(c, s, actions[0]), actions[1..]))
  }

  ghost function Do(c: Config, s: State, actions: seq<Action>): State
    requires CanDo(c, s, actions)
    decreases |actions|
  {
    if actions == [] then s else Do(c, Next(c, s, actions[0]), actions[1..])
  }

  // Message m of job j is ready or executing.
  ghost predicate InWork(s: State, j: nat, m: Msg) {
    exists token :: TokenAt(s, j, token) && Current(token) == [m]
  }

  // A live job has at most one message ready or executing.
  ghost predicate InSequence(s: State, j: nat) {
    InUse(s.x.jobs, j) ==> forall m, m' :: InWork(s, j, m) && InWork(s, j, m') ==> m == m'
  }

  // And it stays so, whatever happens.
  ghost predicate StaysInSequence(c: Config, s: State, j: nat) {
    forall actions :: CanDo(c, s, actions) ==> InSequence(Do(c, s, actions), j)
  }

  lemma InvInSequence(c: Config, s: State, j: nat)
    requires Inv(c, s)
    ensures InSequence(s, j)
  {
    hide Inv, TokenAt;
    if InUse(s.x.jobs, j) {
      forall m, m' | InWork(s, j, m) && InWork(s, j, m') ensures m == m' {
        var a :| TokenAt(s, j, a) && Current(a) == [m];
        var b :| TokenAt(s, j, b) && Current(b) == [m'];
        OneAtATime(c, s, j, a, b);
      }
    }
  }

  lemma {:induction false} InvStaysInSequence(c: Config, s: State, j: nat, actions: seq<Action>)
    requires Inv(c, s) && CanDo(c, s, actions)
    ensures InSequence(Do(c, s, actions), j)
    decreases |actions|
  {
    hide Inv, Enabled, Next, Shape, InSequence;
    if actions == [] {
      InvInSequence(c, s, j);
    } else {
      InvKept(c, s, actions[0]);
      InvStaysInSequence(c, Next(c, s, actions[0]), j, actions[1..]);
    }
  }

  // Two messages of a live job are under way at the end of these actions.
  ghost predicate Breaks(c: Config, s: State, j: nat, actions: seq<Action>) {
    CanDo(c, s, actions) && !InSequence(Do(c, s, actions), j)
  }

  lemma BreaksFirst(c: Config, s: State, j: nat, a: Action, rest: seq<Action>)
    requires Shape(c, s) && Enabled(c, s, a) && Breaks(c, Next(c, s, a), j, rest)
    ensures Breaks(c, s, j, [a] + rest)
  {
    hide Shape, Enabled, Next, InSequence;
    assert ([a] + rest)[1..] == rest;
  }

  lemma TwoInWork(s: State, j: nat, m: Msg, m': Msg)
    requires InUse(s.x.jobs, j) && InWork(s, j, m) && InWork(s, j, m') && m != m'
    ensures !InSequence(s, j)
  {
    hide InWork;
  }

  // ----- Sending a message to a job -----

  // A message that the server has not seen, for a job, addressed to the first pool but not by the default id.
  const POOL := 0x8100

  function Fresh(uid: nat, j: nat): Msg {
    Msg(uid, j, POOL, Call)
  }

  lemma {:induction false} FreshUid(ms: set<Msg>) returns (uid: nat)
    ensures forall m :: m in ms ==> m.uid < uid
    decreases |ms|
  {
    if ms == {} {
      uid := 0;
    } else {
      var m :| m in ms;
      uid := FreshUid(ms - {m});
      uid := if m.uid < uid then uid else m.uid + 1;
    }
  }

  // The server is idle and nobody is in the gate.
  ghost predicate Listens(c: Config, s: State) {
    Shape(c, s) && s.pcs[0] == Receiving && s.gate == None
  }

  // What the steps below leave alone.
  ghost predicate Undisturbed(s: State, s': State) {
    |s'.pcs| == |s.pcs| && forall t :: 1 <= t < |s.pcs| ==> s'.pcs[t] == s.pcs[t]
  }

  ghost predicate SentToIdle(c: Config, s: State, s': State, m: Msg, k: nat)
    requires k < |s.x.jobs| && s.x.ready != []
  {
    && Shape(c, s') && Undisturbed(s, s') && s'.pcs[0] == GatePosting(0) && s'.gate == Some(0)
    && s'.x == Streams(s.x.jobs[k := s.x.jobs[k].(empty := false)], Put(s.x.ready, 0, m))
    && s'.loc == s.loc[m := InReady(0)]
  }

  lemma SendToIdle(c: Config, s: State, m: Msg, k: nat) returns (s': State)
    requires Listens(c, s) && m !in s.loc && m.poolId == POOL && m.jobId != DISCRETE_JOB_ID
    requires k == FindJob(s.x.jobs, m.jobId) && k < |s.x.jobs| && s.x.jobs[k].empty
    ensures SentToIdle(c, s, s', m, k)
    ensures forall j, rest :: Breaks(c, s', j, rest) ==> Breaks(c, s, j, [Receive(m), EnterGate(0), LookUp] + rest)
  {
    hide FindJob, InFlight, InSequence;
    var s1 := Next(c, s, Receive(m));
    var s2 := Next(c, s1, EnterGate(0));
    s' := Next(c, s2, LookUp);
    ThreeStepsBreak(c, s, s1, s2, s', Receive(m), EnterGate(0), LookUp);
  }

  lemma ThreeStepsBreak(c: Config, s: State, s1: State, s2: State, s3: State, a: Action, a': Action, a'': Action)
    requires Shape(c, s) && Enabled(c, s, a) && s1 == Next(c, s, a)
    requires Shape(c, s1) && Enabled(c, s1, a') && s2 == Next(c, s1, a')
    requires Shape(c, s2) && Enabled(c, s2, a'') && s3 == Next(c, s2, a'')
    ensures forall j, rest :: Breaks(c, s3, j, rest) ==> Breaks(c, s, j, [a, a', a''] + rest)
  {
    hide Shape, Enabled, Next, Breaks;
    forall j, rest | Breaks(c, s3, j, rest) ensures Breaks(c, s, j, [a, a', a''] + rest) {
      BreaksFirst(c, s2, j, a'', rest);
      BreaksFirst(c, s1, j, a', [a''] + rest);
      BreaksFirst(c, s, j, a, [a'] + ([a''] + rest));
      assert [a] + ([a'] + ([a''] + rest)) == [a, a', a''] + rest;
    }
  }

  ghost predicate SentToBusy(c: Config, s: State, s': State, m: Msg, k: nat)
    requires k < |s.x.jobs|
  {
    && Listens(c, s') && Undisturbed(s, s')
    && s'.x == s.x.(jobs := s.x.jobs[k := s.x.jobs[k].(msgQue := s.x.jobs[k].msgQue + [m])])
    && s'.loc == s.loc[m := InJob(m.jobId)]
  }

  lemma SendToBusy(c: Config, s: State, m: Msg, k: nat) returns (s': State)
    requires Listens(c, s) && m !in s.loc && m.poolId == POOL && m.jobId != DISCRETE_JOB_ID
    requires k == FindJob(s.x.jobs, m.jobId) && k < |s.x.jobs| && !s.x.jobs[k].empty
    ensures SentToBusy(c, s, s', m, k)
    ensures forall j, rest :: Breaks(c, s', j, rest) ==> Breaks(c, s, j, [Receive(m), EnterGate(0), LookUp] + rest)
  {
    hide FindJob, InFlight, InSequence;
    var s1 := Next(c, s, Receive(m));
    var s2 := Next(c, s1, EnterGate(0));
    s' := Next(c, s2, LookUp);
    ThreeStepsBreak(c, s, s1, s2, s', Receive(m), EnterGate(0), LookUp);
  }

  // ----- A second message beside one in flight -----

  // The job that has just been acquired.
  ghost predicate NewJob(s: State, id: nat, k: nat) {
    k == FindJob(s.x.jobs, id) && k < |s.x.jobs| && s.x.jobs[k] == Job(id, true, []) && id != DISCRETE_JOB_ID
  }

  lemma StaysInWork(s: State, s': State, id: nat, m: Msg)
    requires InWork(s, id, m) && id != DISCRETE_JOB_ID && s.pcs != []
    requires Executing(s.pcs[0]).Some? ==> Executing(s.pcs[0]).value.jobId != id
    requires Undisturbed(s, s') && |s'.x.ready| == |s.x.ready|
    requires forall p, n :: 0 <= p < |s.x.ready| && n in s.x.ready[p] ==> n in s'.x.ready[p]
    ensures InWork(s', id, m)
  {
    var token :| TokenAt(s, id, token) && Current(token) == [m];
    assert TokenAt(s', id, token);
  }

  lemma ReadyIsInWork(s: State, p: nat, m: Msg)
    requires p < |s.x.ready| && m in s.x.ready[p]
    ensures InWork(s, m.jobId, m)
  {
    assert TokenAt(s, m.jobId, Ready(m, p));
  }

  lemma PutKeeps(ready: seq<seq<Msg>>, p: nat, m: Msg)
    requires p < |ready|
    ensures |Put(ready, p, m)| == |ready| && m in Put(ready, p, m)[p]
    ensures forall q, n :: 0 <= q < |ready| && n in ready[q] ==> n in Put(ready, p, m)[q]
  {
  }

  // An old message is still ready or executing: the first new one joins it.
  lemma OldWorkBreaks(c: Config, s: State, id: nat, k: nat, m: Msg) returns (actions: seq<Action>)
    requires Listens(c, s) && NewJob(s, id, k) && InWork(s, id, m) && m in s.loc
    ensures Breaks(c, s, id, actions)
  {
    var uid := FreshUid(s.loc.Keys);
    var m1 := Fresh(uid, id);
    assert m1 !in s.loc.Keys;
    var s1 := SendToIdle(c, s, m1, k);
    JobReplaced(s.x.jobs, s1.x.jobs, k);
    PutKeeps(s.x.ready, 0, m1);
    StaysInWork(s, s1, id, m);
    ReadyIsInWork(s1, 0, m1);
    hide InWork, FindJob, Put;
    TwoInWork(s1, id, m, m1);
    assert Breaks(c, s1, id, []);
    actions := [Receive(m1), EnterGate(0), LookUp] + [];
  }

  lemma PostLeaves(c: Config, s: State)
    requires Shape(c, s) && s.pcs[0] == GatePosting(0) && s.gate == Some(0)
    ensures Enabled(c, s, Post(0))
    ensures var s' := Next(c, s, Post(0)); Listens(c, s') && Undisturbed(s, s') && s'.x == s.x && s'.loc == s.loc
  {
    hide FindJob;
  }

  // Worker w fetches the message that waits in the job.
  lemma WorkerFetches(c: Config, s: State, id: nat, k: nat, w: nat, m: Msg) returns (s': State)
    requires Listens(c, s) && 1 <= w < |s.pcs| && s.pcs[w] == Finished(id)
    requires k == FindJob(s.x.jobs, id) && k < |s.x.jobs| && s.x.jobs[k].msgQue == [m] && m.poolId == POOL
    ensures s'.x == Streams(s.x.jobs[k := s.x.jobs[k].(msgQue := [])], Put(s.x.ready, 0, m))
    ensures forall j, rest :: Breaks(c, s', j, rest) ==> Breaks(c, s, j, [EnterGate(w), RequeueJob(w)] + rest)
  {
    hide FindJob, InFlight, InSequence;
    var s1 := Next(c, s, EnterGate(w));
    s' := Next(c, s1, RequeueJob(w));
    assert [m][1..] == [];
    hide Enabled, Next, Breaks, Requeue;
    forall j, rest | Breaks(c, s', j, rest) ensures Breaks(c, s, j, [EnterGate(w), RequeueJob(w)] + rest) {
      BreaksFirst(c, s1, j, RequeueJob(w), rest);
      BreaksFirst(c, s, j, EnterGate(w), [RequeueJob(w)] + rest);
      assert [EnterGate(w)] + ([RequeueJob(w)] + rest) == [EnterGate(w), RequeueJob(w)] + rest;
    }
  }

  // Message m1 is ready, and worker w is about to fetch another one for the same job.
  lemma SecondFetchBreaks(c: Config, s: State, id: nat, k: nat, w: nat, p: nat, m1: Msg, m2: Msg)
    returns (actions: seq<Action>)
    requires Listens(c, s) && 1 <= w < |s.pcs| && s.pcs[w] == Finished(id)
    requires p < |s.x.ready| && m1 in s.x.ready[p]
    requires k == FindJob(s.x.jobs, id) && k < |s.x.jobs| && !s.x.jobs[k].empty && s.x.jobs[k].msgQue == []
    requires id != DISCRETE_JOB_ID && m1.jobId == m2.jobId == id && m2.poolId == POOL && m1 != m2 && m2 !in s.loc
    ensures Breaks(c, s, id, actions)
  {
    hide Enabled, Next, FindJob, Breaks, InWork, InSequence, Put;
    var s1 := SendToBusy(c, s, m2, k);
    JobReplaced(s.x.jobs, s1.x.jobs, k);
    assert s1.x.jobs[k].msgQue == [m2];
    var s2 := WorkerFetches(c, s1, id, k, w, m2);
    JobReplaced(s1.x.jobs, s2.x.jobs, k);
    PutKeeps(s1.x.ready, 0, m2);
    ReadyIsInWork(s2, p, m1);
    ReadyIsInWork(s2, 0, m2);
    TwoInWork(s2, id, m1, m2);
    NothingMore(c, s2, id);
    actions := [Receive(m2), EnterGate(0), LookUp] + ([EnterGate(w), RequeueJob(w)] + []);
  }

  // A worker has finished an old message and will fetch the next one: it fetches the second new one beside the first.
  lemma OwedWorkBreaks(c: Config, s: State, id: nat, k: nat, w: nat) returns (actions: seq<Action>)
    requires Listens(c, s) && NewJob(s, id, k) && 1 <= w < |s.pcs| && s.pcs[w] == Finished(id)
    ensures Breaks(c, s, id, actions)
  {
    var uid := FreshUid(s.loc.Keys);
    var m1, m2 := Fresh(uid, id), Fresh(uid + 1, id);
    assert m1 !in s.loc.Keys && m2 !in s.loc.Keys;
    hide Enabled, Next, FindJob, Put, Breaks;
    var s1 := SendToIdle(c, s, m1, k);
    JobReplaced(s.x.jobs, s1.x.jobs, k);
    PutKeeps(s.x.ready, 0, m1);
    PostLeaves(c, s1);
    var s2 := Next(c, s1, Post(0));
    var rest := SecondFetchBreaks(c, s2, id, k, w, 0, m1, m2);
    BreaksFirst(c, s1, id, Post(0), rest);
    actions := [Receive(m1), EnterGate(0), LookUp] + ([Post(0)] + rest);
  }

  lemma NothingMore(c: Config, s: State, id: nat)
    requires !InSequence(s, id)
    ensures Breaks(c, s, id, [])
  {
  }

  // ----- The condition on reusing ids -----

  // JOB_ACQ with an id that is free but may still be carried by a message in flight.
  function AcquireAnyway(s: State, t: nat, id: nat): State
    requires t < |s.pcs| && s.pcs[t].Acquiring?
  {
    s.(gate := None, pcs := s.pcs[t := Replying(s.pcs[t].m)],
       x := s.x.(jobs := s.x.jobs + [Job(id, true, [])]), hist := s.hist[id := History([], [], NoToken)])
  }

  // What is in flight for an id when the job has been acquired and the server listens again.
  ghost predicate Leftover(s: State, id: nat) {
    (exists m :: InWork(s, id, m) && m in s.loc) || (exists w :: 1 <= w < |s.pcs| && s.pcs[w] == Finished(id))
  }

  lemma LeftoverBreaks(c: Config, s: State, id: nat, k: nat) returns (actions: seq<Action>)
    requires Listens(c, s) && NewJob(s, id, k) && Leftover(s, id)
    ensures Breaks(c, s, id, actions)
  {
    hide Listens, NewJob, Breaks, InWork;
    if m :| InWork(s, id, m) && m in s.loc {
      actions := OldWorkBreaks(c, s, id, k, m);
    } else {
      var w :| 1 <= w < |s.pcs| && s.pcs[w] == Finished(id);
      actions := OwedWorkBreaks(c, s, id, k, w);
    }
  }

  lemma InFlightIsLeftover(c: Config, s: State, t: nat, id: nat)
    requires Inv(c, s) && t < |s.pcs| && s.pcs[t].Acquiring? && InFlight(s, id) && id != DISCRETE_JOB_ID
    ensures Leftover(s, id)
  {
    var token :| TokenAt(s, id, token);
    assert s.gate == Some(t) && forall u :: 0 <= u < |s.pcs| ==> Role(u, s.pcs[u], c.nPools);
    hide Tracked, Semaphores, JobsValid;
    match token {
      case Ready(m, p) => assert Holds(s, m, InReady(p)); ReadyIsInWork(s, p, m);
      case Exec(m, u) => assert Holds(s, m, At(u)); assert InWork(s, id, m);
      case After(u) => assert InGate(s.pcs[u]) ==> u == t;
    }
  }

  lemma NewJobIsFound(jobs: seq<Job>, job: Job)
    requires !InUse(jobs, job.jobId)
    ensures FindJob(jobs + [job], job.jobId) == |jobs|
  {
    var k := FindJob(jobs + [job], job.jobId);
    assert (jobs + [job])[|jobs|] == job;
    assert forall i :: 0 <= i < |jobs| ==> (jobs + [job])[i] == jobs[i];
  }

  // ----- The server finishes the packet it is busy with -----

  predicate ReleasesNext(pc: Pc, id: nat) {
    pc.Processing? && pc.m.kind == ReleaseJob(id)
  }

  // The job is there, and the server is outside the gate and not about to release it.
  ghost predicate Settled(c: Config, s: State, id: nat) {
    && Shape(c, s) && s.gate == None && JobsValid(s.x.jobs, c.nPools) && NewJob(s, id, FindJob(s.x.jobs, id))
    && Role(0, s.pcs[0], c.nPools) && !InGate(s.pcs[0]) && !ReleasesNext(s.pcs[0], id)
  }

  // Something of its id is in flight, apart from a packet the server is about to dispatch.
  ghost predicate Pressed(c: Config, s: State, id: nat) {
    && Settled(c, s, id) && Leftover(s, id)
    && (s.pcs[0].Dispatching? ==> !InWork(s, id, s.pcs[0].m) && s.pcs[0].m in s.loc)
  }

  // The server has come nearer to its next packet, and has left the new job and what is in flight for it alone.
  ghost predicate Advanced(c: Config, s: State, s': State, id: nat) {
    && Settled(c, s', id) && Undisturbed(s, s') && !s'.pcs[0].Dispatching?
    && |s'.x.ready| == |s.x.ready| && (forall p, n :: 0 <= p < |s.x.ready| && n in s.x.ready[p] ==> n in s'.x.ready[p])
    && (forall n :: n in s.loc ==> n in s'.loc)
    && (Phase(s'.pcs[0]) < Phase(s.pcs[0]) ||
        (Phase(s'.pcs[0]) == Phase(s.pcs[0]) && |Drained(s'.pcs[0])| < |Drained(s.pcs[0])|))
  }

  function Phase(pc: Pc): nat {
    match pc
    case Receiving => 0
    case Dispatching(_) => 3
    case Processing(_) => 3
    case Draining(_, _) => 2
    case _ => 1
  }

  // These steps lead from s to s'.
  ghost predicate Via(c: Config, s: State, s': State, id: nat, steps: seq<Action>) {
    forall rest :: Breaks(c, s', id, rest) ==> Breaks(c, s, id, steps + rest)
  }

  lemma ViaOne(c: Config, s: State, id: nat, a: Action)
    requires Shape(c, s) && Enabled(c, s, a)
    ensures Via(c, s, Next(c, s, a), id, [a])
  {
    hide Shape, Enabled, Next, Breaks;
    forall rest | Breaks(c, Next(c, s, a), id, rest) ensures Breaks(c, s, id, [a] + rest) {
      BreaksFirst(c, s, id, a, rest);
    }
  }

  lemma ViaBoth(c: Config, s: State, s1: State, s2: State, id: nat, first: seq<Action>, second: seq<Action>)
    requires Via(c, s, s1, id, first) && Via(c, s1, s2, id, second)
    ensures Via(c, s, s2, id, first + second)
  {
    hide Breaks;
    forall rest | Breaks(c, s2, id, rest) ensures Breaks(c, s, id, (first + second) + rest) {
      assert Breaks(c, s1, id, second + rest);
      assert first + (second + rest) == (first + second) + rest;
    }
  }

  lemma JobStaysNew(s: State, s': State, id: nat)
    requires NewJob(s, id, FindJob(s.x.jobs, id)) && s'.x.jobs == s.x.jobs
    ensures NewJob(s', id, FindJob(s'.x.jobs, id))
  {
  }

  // The server hands over a packet or its answer.
  lemma StepHandsOver(c: Config, s: State, id: nat) returns (a: Action)
    requires Settled(c, s, id) && (s.pcs[0].Posting? || s.pcs[0].Returning? || s.pcs[0].Dispatching?)
    requires Entered(c, s.pcs[0]).None?
    ensures Enabled(c, s, a) && Advanced(c, s, Next(c, s, a), id)
  {
    hide FindJob, InFlight, JobsValid;
    var pc := s.pcs[0];
    a := if pc.Posting? then Post(0) else if pc.Returning? then Return
         else if PoolOf(c.nPools, pc.m.poolId).None? then DispatchRefused else DispatchDiscrete;
    var s' := Next(c, s, a);
    assert s'.x.jobs == s.x.jobs;
    JobStaysNew(s, s', id);
    hide NewJob;
  }

  // The server goes on with a packet that it processes itself.
  lemma StepFinishes(c: Config, s: State, id: nat) returns (a: Action)
    requires Settled(c, s, id) && Executing(s.pcs[0]).Some? && Entered(c, s.pcs[0]).None?
    ensures Enabled(c, s, a) && Advanced(c, s, Next(c, s, a), id)
  {
    hide FindJob, InFlight, JobsValid;
    var pc := s.pcs[0];
    a := if pc.Draining? && pc.q != [] then Drain(0) else Finish(0, false);
    var s' := Next(c, s, a);
    assert s'.x == s.x && Undisturbed(s, s');
    JobStaysNew(s, s', id);
    hide NewJob;
  }

  // A step that the server takes outside the gate.
  lemma StepOutside(c: Config, s: State, id: nat) returns (a: Action)
    requires Settled(c, s, id) && !s.pcs[0].Receiving? && Entered(c, s.pcs[0]).None?
    ensures Enabled(c, s, a) && Advanced(c, s, Next(c, s, a), id)
  {
    assert Role(0, s.pcs[0], c.nPools);
    hide Settled, Advanced, Enabled, Next;
    if Executing(s.pcs[0]).Some? {
      a := StepFinishes(c, s, id);
    } else {
      a := StepHandsOver(c, s, id);
    }
  }

  lemma ViaTwo(c: Config, s: State, id: nat, a: Action, b: Action)
    requires Shape(c, s) && Enabled(c, s, a) && Shape(c, Next(c, s, a)) && Enabled(c, Next(c, s, a), b)
    ensures Via(c, s, Next(c, Next(c, s, a), b), id, [a] + [b])
  {
    hide Shape, Enabled, Next, Via;
    ViaOne(c, s, id, a);
    ViaOne(c, Next(c, s, a), id, b);
    ViaBoth(c, s, Next(c, s, a), Next(c, Next(c, s, a), b), id, [a], [b]);
  }

  // The server looks for the job of its packet.
  lemma StepLookUp(c: Config, s: State, id: nat) returns (s': State, steps: seq<Action>)
    requires Settled(c, s, id) && s.pcs[0].Dispatching? && s.pcs[0].m.jobId != id && Entered(c, s.pcs[0]).Some?
    ensures Advanced(c, s, s', id) && Via(c, s, s', id, steps)
  {
    hide FindJob, InFlight, Via, Advanced, AtPost;
    var s1 := Next(c, s, EnterGate(0));
    s' := Next(c, s1, LookUp);
    ViaTwo(c, s, id, EnterGate(0), LookUp);
    steps := [EnterGate(0)] + [LookUp];
    if s'.pcs[0].GatePosting? {
      LookUpPuts(c, s, s1, s', id);
      s', steps := StepPost(c, s, s', id, PoolOf(c.nPools, s.pcs[0].m.poolId).value, steps);
    } else {
      LookUpPutsNothing(c, s, s1, s', id);
    }
  }

  lemma LookUpPuts(c: Config, s: State, s1: State, s2: State, id: nat)
    requires Settled(c, s, id) && s.pcs[0].Dispatching? && s.pcs[0].m.jobId != id && Entered(c, s.pcs[0]).Some?
    requires s1 == Next(c, s, EnterGate(0)) && s2 == Next(c, s1, LookUp) && s2.pcs[0].GatePosting?
    ensures AtPost(c, s, s2, id, PoolOf(c.nPools, s.pcs[0].m.poolId).value)
  {
    hide FindJob, InFlight, JobsValid;
    LookUpLeavesJob(c, s1, id);
    PutKeeps(s.x.ready, PoolOf(c.nPools, s.pcs[0].m.poolId).value, s.pcs[0].m);
    hide NewJob, Put;
  }

  lemma LookUpPutsNothing(c: Config, s: State, s1: State, s2: State, id: nat)
    requires Settled(c, s, id) && s.pcs[0].Dispatching? && s.pcs[0].m.jobId != id && Entered(c, s.pcs[0]).Some?
    requires s1 == Next(c, s, EnterGate(0)) && s2 == Next(c, s1, LookUp) && !s2.pcs[0].GatePosting?
    ensures Advanced(c, s, s2, id)
  {
    hide FindJob, InFlight, JobsValid;
    LookUpLeavesJob(c, s1, id);
    hide NewJob, Put;
  }

  // Inside the gate, after the packet went to the ready queue of a pool.
  ghost predicate AtPost(c: Config, s: State, s': State, id: nat, p: nat) {
    && Shape(c, s') && s'.pcs[0] == GatePosting(p) && p < c.nPools
    && JobsValid(s'.x.jobs, c.nPools) && NewJob(s', id, FindJob(s'.x.jobs, id))
    && Undisturbed(s, s') && |s'.x.ready| == |s.x.ready|
    && (forall q, n :: 0 <= q < |s.x.ready| && n in s.x.ready[q] ==> n in s'.x.ready[q])
    && (forall n :: n in s.loc ==> n in s'.loc)
  }

  lemma StepPost(c: Config, s: State, s2: State, id: nat, p: nat, steps2: seq<Action>)
    returns (s': State, steps: seq<Action>)
    requires s.pcs != [] && s.pcs[0].Dispatching? && AtPost(c, s, s2, id, p) && Via(c, s, s2, id, steps2)
    ensures Advanced(c, s, s', id) && Via(c, s, s', id, steps)
  {
    hide FindJob, JobsValid, Via;
    s' := Next(c, s2, Post(0));
    ViaOne(c, s2, id, Post(0));
    ViaBoth(c, s, s2, s', id, steps2, [Post(0)]);
    steps := steps2 + [Post(0)];
    JobStaysNew(s2, s', id);
    hide NewJob;
  }

  lemma LookUpLeavesJob(c: Config, s: State, id: nat)
    requires Shape(c, s) && Enabled(c, s, LookUp) && JobsValid(s.x.jobs, c.nPools) && s.pcs[0].m.jobId != id
    requires NewJob(s, id, FindJob(s.x.jobs, id))
    ensures var s' := Next(c, s, LookUp);
      JobsValid(s'.x.jobs, c.nPools) && NewJob(s', id, FindJob(s'.x.jobs, id))
  {
    var m, s' := s.pcs[0].m, Next(c, s, LookUp);
    var f := FindJob(s.x.jobs, m.jobId);
    AcceptKeepsJobs(s.x, m, PoolOf(c.nPools, m.poolId).value);
    if f < |s.x.jobs| { JobReplaced(s.x.jobs, s'.x.jobs, f); }
    hide FindJob, JobsValid;
  }

  // The server asks for an id and gets none.
  lemma StepAcquire(c: Config, s: State, id: nat) returns (s': State, steps: seq<Action>)
    requires Settled(c, s, id) && s.pcs[0].Processing? && s.pcs[0].m.kind.AcquireJob?
    ensures Advanced(c, s, s', id) && Via(c, s, s', id, steps)
  {
    hide FindJob, InFlight, Via;
    var s1 := Next(c, s, EnterGate(0));
    s' := Next(c, s1, Acquire(0, None));
    ViaTwo(c, s, id, EnterGate(0), Acquire(0, None));
    steps := [EnterGate(0)] + [Acquire(0, None)];
    JobStaysNew(s, s', id);
    hide JobsValid, NewJob;
  }

  // The server releases another job.
  lemma StepRelease(c: Config, s: State, id: nat) returns (s': State, steps: seq<Action>)
    requires Settled(c, s, id) && s.pcs[0].Processing? && s.pcs[0].m.kind.ReleaseJob?
    ensures Advanced(c, s, s', id) && Via(c, s, s', id, steps)
  {
    hide FindJob, InFlight, Via;
    var s1 := Next(c, s, EnterGate(0));
    s' := Next(c, s1, Release(0));
    ViaTwo(c, s, id, EnterGate(0), Release(0));
    steps := [EnterGate(0)] + [Release(0)];
    ReleaseLeavesJob(c, s1, id);
    hide JobsValid, NewJob;
  }

  lemma ReleaseLeavesJob(c: Config, s: State, id: nat)
    requires Shape(c, s) && Enabled(c, s, Release(0)) && JobsValid(s.x.jobs, c.nPools)
    requires s.pcs[0].m.kind.job != id && NewJob(s, id, FindJob(s.x.jobs, id))
    ensures var s' := Next(c, s, Release(0));
      JobsValid(s'.x.jobs, c.nPools) && NewJob(s', id, FindJob(s'.x.jobs, id))
  {
    var j := s.pcs[0].m.kind.job;
    var f := FindJob(s.x.jobs, j);
    if f < |s.x.jobs| {
      ReleaseKeepsJobs(s.x.jobs, c.nPools, f);
      FindJobWithout(s.x.jobs, c.nPools, f, id);
    }
    hide FindJob, JobsValid, Without;
  }

  lemma StepIntoGate(c: Config, s: State, id: nat) returns (s': State, steps: seq<Action>)
    requires Settled(c, s, id) && Entered(c, s.pcs[0]).Some?
    requires s.pcs[0].Dispatching? ==> s.pcs[0].m.jobId != id
    ensures Advanced(c, s, s', id) && Via(c, s, s', id, steps)
  {
    hide Advanced, Via;
    assert Role(0, s.pcs[0], c.nPools);
    if s.pcs[0].Dispatching? {
      s', steps := StepLookUp(c, s, id);
    } else if s.pcs[0].m.kind.AcquireJob? {
      s', steps := StepAcquire(c, s, id);
    } else {
      s', steps := StepRelease(c, s, id);
    }
  }

  lemma AdvancedIsPressed(c: Config, s: State, s': State, id: nat)
    requires Pressed(c, s, id) && Advanced(c, s, s', id)
    ensures Pressed(c, s', id)
  {
    hide JobsValid, FindJob, TokenAt, InWork;
    if m :| InWork(s, id, m) && m in s.loc {
      StaysInWork(s, s', id, m);
    } else {
      var w :| 1 <= w < |s.pcs| && s.pcs[w] == Finished(id);
      assert s'.pcs[w] == Finished(id);
    }
  }

  // The packet that the server is about to dispatch is one for the new job.
  lemma OwnPacketGoesFirst(c: Config, s: State, id: nat, k: nat) returns (s': State)
    requires Settled(c, s, id) && s.pcs[0].Dispatching? && s.pcs[0].m.jobId == id && Entered(c, s.pcs[0]).Some?
    requires k == FindJob(s.x.jobs, id)
    ensures Via(c, s, s', id, [EnterGate(0)] + [LookUp]) && Shape(c, s') && Undisturbed(s, s')
    ensures var m := s.pcs[0].m; var p := PoolOf(c.nPools, m.poolId).value;
      && s'.pcs[0] == GatePosting(p) && s'.gate == Some(0) && s'.loc == s.loc[m := InReady(p)]
      && s'.x == Streams(s.x.jobs[k := s.x.jobs[k].(empty := false)], Put(s.x.ready, p, m))
  {
    hide FindJob, InFlight, Via, JobsValid;
    var s1 := Next(c, s, EnterGate(0));
    s' := Next(c, s1, LookUp);
    ViaTwo(c, s, id, EnterGate(0), LookUp);
  }

  lemma OwnPacketBreaks(c: Config, s: State, id: nat) returns (actions: seq<Action>)
    requires Pressed(c, s, id) && s.pcs[0].Dispatching? && s.pcs[0].m.jobId == id && Entered(c, s.pcs[0]).Some?
    ensures Breaks(c, s, id, actions)
  {
    var m, k := s.pcs[0].m, FindJob(s.x.jobs, id);
    var p := PoolOf(c.nPools, m.poolId).value;
    hide FindJob, InFlight, Breaks, InWork, JobsValid;
    var s2 := OwnPacketGoesFirst(c, s, id, k);
    PutKeeps(s.x.ready, p, m);
    JobReplaced(s.x.jobs, s2.x.jobs, k);
    hide Put;
    var rest;
    if n :| InWork(s, id, n) && n in s.loc {
      rest := OwnPacketJoins(c, s, s2, id, p, m, n);
    } else {
      var w :| 1 <= w < |s.pcs| && s.pcs[w] == Finished(id);
      assert s2.pcs[w] == Finished(id);
      rest := OwnPacketIsFetchedBeside(c, s2, id, k, w, p, m);
    }
    actions := ([EnterGate(0)] + [LookUp]) + rest;
  }

  // It joins a message that is ready or executing ...
  lemma OwnPacketJoins(c: Config, s: State, s2: State, id: nat, p: nat, m: Msg, n: Msg) returns (rest: seq<Action>)
    requires InWork(s, id, n) && id != DISCRETE_JOB_ID && s.pcs != [] && s.pcs[0].Dispatching? && m != n
    requires Undisturbed(s, s2) && |s2.x.ready| == |s.x.ready| && InUse(s2.x.jobs, id)
    requires forall q, l :: 0 <= q < |s.x.ready| && l in s.x.ready[q] ==> l in s2.x.ready[q]
    requires p < |s2.x.ready| && m in s2.x.ready[p] && m.jobId == id
    ensures Breaks(c, s2, id, rest)
  {
    hide FindJob, InWork;
    StaysInWork(s, s2, id, n);
    ReadyIsInWork(s2, p, m);
    TwoInWork(s2, id, n, m);
    NothingMore(c, s2, id);
    rest := [];
  }

  // ... or a worker fetches the next new one beside it.
  lemma OwnPacketIsFetchedBeside(c: Config, s: State, id: nat, k: nat, w: nat, p: nat, m: Msg)
    returns (rest: seq<Action>)
    requires Shape(c, s) && s.pcs[0] == GatePosting(p) && 1 <= w < |s.pcs| && s.pcs[w] == Finished(id)
    requires p < |s.x.ready| && m in s.x.ready[p] && m.jobId == id != DISCRETE_JOB_ID && m in s.loc
    requires k == FindJob(s.x.jobs, id) && k < |s.x.jobs| && !s.x.jobs[k].empty && s.x.jobs[k].msgQue == []
    ensures Breaks(c, s, id, rest)
  {
    hide FindJob, Breaks;
    var uid := FreshUid(s.loc.Keys);
    assert Fresh(uid, id) !in s.loc.Keys && m in s.loc.Keys;
    var s' := Next(c, s, Post(0));
    rest := SecondFetchBreaks(c, s', id, k, w, p, m, Fresh(uid, id));
    BreaksFirst(c, s, id, Post(0), rest);
    rest := [Post(0)] + rest;
  }

  // The server finishes its packet, and then what is in flight and the next new messages break the sequence.
  lemma {:induction false} PressedBreaks(c: Config, s: State, id: nat) returns (actions: seq<Action>)
    requires Pressed(c, s, id)
    ensures Breaks(c, s, id, actions)
    decreases Phase(s.pcs[0]), |Drained(s.pcs[0])|
  {
    hide Leftover, JobsValid, NewJob, Breaks, FindJob, Next, Enabled, Role, Drained, Phase;
    if s.pcs[0].Receiving? {
      actions := LeftoverBreaks(c, s, id, FindJob(s.x.jobs, id));
    } else if Entered(c, s.pcs[0]).None? {
      var a := StepOutside(c, s, id);
      AdvancedIsPressed(c, s, Next(c, s, a), id);
      var rest := PressedBreaks(c, Next(c, s, a), id);
      BreaksFirst(c, s, id, a, rest);
      actions := [a] + rest;
    } else if s.pcs[0].Dispatching? && s.pcs[0].m.jobId == id {
      actions := OwnPacketBreaks(c, s, id);
    } else {
      var s', steps := StepIntoGate(c, s, id);
      AdvancedIsPressed(c, s, s', id);
      var rest := PressedBreaks(c, s', id);
      actions := steps + rest;
    }
  }

  // ----- The condition -----

  lemma InWorkIsHeld(s: State, id: nat, m: Msg) returns (loc: Loc)
    requires InWork(s, id, m)
    ensures Holds(s, m, loc) && (loc.InReady? || (loc.At? && Executing(s.pcs[loc.t]) == Some(m)))
  {
    var token :| TokenAt(s, id, token) && Current(token) == [m];
    loc := if token.Ready? then InReady(token.p) else At(token.t);
  }

  lemma HeldIsNotInWork(c: Config, s: State, id: nat)
    requires Inv(c, s) && s.pcs[0].Dispatching?
    ensures !InWork(s, id, s.pcs[0].m) && s.pcs[0].m in s.loc
  {
    var m := s.pcs[0].m;
    assert Placed(s) && Holds(s, m, At(0));
    hide Inv, InWork, Placed;
    OnlyThere(s, m, At(0));
    if InWork(s, id, m) { var loc := InWorkIsHeld(s, id, m); }
  }

  lemma AcquiredIsPressed(c: Config, s: State, t: nat, id: nat)
    requires Inv(c, s) && t < |s.pcs| && s.pcs[t].Acquiring? && InFlight(s, id) && !ReleasesNext(s.pcs[0], id)
    requires 1 <= id <= MAX_ID && !InUse(s.x.jobs, id)
    ensures Pressed(c, AcquireAnyway(s, t, id), id)
  {
    var s' := AcquireAnyway(s, t, id);
    InFlightIsLeftover(c, s, t, id);
    if s.pcs[0].Dispatching? { HeldIsNotInWork(c, s, id); }
    AcquiredIsSettled(c, s, t, id);
    hide Inv, InFlight, FindJob, Settled;
    assert t != 0 ==> s'.pcs[0] == s.pcs[0];
    LeftoverKept(s, s', t, id);
    assert s.pcs[0].Dispatching? ==> !InWork(s', id, s.pcs[0].m);
  }

  lemma AcquiredIsSettled(c: Config, s: State, t: nat, id: nat)
    requires Inv(c, s) && t < |s.pcs| && s.pcs[t].Acquiring? && !ReleasesNext(s.pcs[0], id)
    requires 1 <= id <= MAX_ID && !InUse(s.x.jobs, id)
    ensures Settled(c, AcquireAnyway(s, t, id), id)
  {
    assert s.gate == Some(t) && (InGate(s.pcs[0]) <==> t == 0) && Role(0, s.pcs[0], c.nPools);
    NewJobIsFound(s.x.jobs, Job(id, true, []));
    hide Semaphores, Placed, Tracked, FindJob;
  }

  lemma LeftoverKept(s: State, s': State, t: nat, id: nat)
    requires Leftover(s, id) && t < |s.pcs| && s.pcs[t].Acquiring? && s' == AcquireAnyway(s, t, id)
    ensures Leftover(s', id)
    ensures forall m :: InWork(s', id, m) ==> InWork(s, id, m)
  {
    forall m ensures InWork(s', id, m) <==> InWork(s, id, m) {
      forall token ensures Current(token) == [m] ==> (TokenAt(s, id, token) <==> TokenAt(s', id, token)) {}
    }
    hide InWork;
    if !exists m :: InWork(s, id, m) && m in s.loc {
      var w :| 1 <= w < |s.pcs| && s.pcs[w] == Finished(id);
      assert s'.pcs[w] == Finished(id);
    }
  }

  /** Handing out a free id keeps the promise that a job's messages are processed one after the other, whatever happens
      next, if no message in flight still carries that id, and only if none does, unless the server is just about to
      release the id again: otherwise the server finishes the packet it has, and the next messages sent to the new job
      bring about a state in which two of them are ready or executing together. */
  lemma ReuseSafeIffNotInFlight(c: Config, s: State, t: nat, id: nat)
    requires Inv(c, s) && t < |s.pcs| && s.pcs[t].Acquiring?
    requires 1 <= id <= MAX_ID && !InUse(s.x.jobs, id)
    ensures !InFlight(s, id) ==> StaysInSequence(c, AcquireAnyway(s, t, id), id)
    ensures !ReleasesNext(s.pcs[0], id) ==> (StaysInSequence(c, AcquireAnyway(s, t, id), id) <==> !InFlight(s, id))
  {
    var s1 := AcquireAnyway(s, t, id);
    if !InFlight(s, id) {
      assert s1 == Next(c, s, Acquire(t, Some(id)));
      InvKept(c, s, Acquire(t, Some(id)));
      hide Inv;
      forall actions | CanDo(c, s1, actions) ensures InSequence(Do(c, s1, actions), id) {
        InvStaysInSequence(c, s1, id, actions);
      }
    } else if !ReleasesNext(s.pcs[0], id) {
      AcquiredIsPressed(c, s, t, id);
      hide Inv, Pressed, AcquireAnyway;
      var actions := PressedBreaks(c, s1, id);
      assert Breaks(c, s1, id, actions);
    }
  }
}
