/** Conservation: every step of JobSteps keeps each message in exactly one place. */
module JobPlaces {
  import opened Options
  import opened JobStreams
  import opened JobSteps
  import opened JobInvariant

  // The step takes one message from its place, if it has one, to another, and leaves every other message where it was.
  ghost predicate Moved(s: State, s': State, m: Msg, from: Option<Loc>, to: Loc) {
    && s'.loc == s.loc[m := to]
    && (if from.Some? then Holds(s, m, from.value) else m !in s.loc)
    && (forall n, loc :: n != m ==> (Holds(s', n, loc) <==> Holds(s, n, loc)))
    && Holds(s', m, to)
    && (forall loc :: Holds(s', m, loc) && loc != to ==> Holds(s, m, loc) && from != Some(loc))
  }

  ghost predicate Stayed(s: State, s': State) {
    && s'.loc == s.loc
    && forall n, loc :: Holds(s', n, loc) <==> Holds(s, n, loc)
  }

  ghost predicate Distinct(s: State) {
    && (forall p :: 0 <= p < |s.x.ready| ==> NoDup(s.x.ready[p]))
    && (forall k :: 0 <= k < |s.x.jobs| ==> NoDup(s.x.jobs[k].msgQue))
    && (forall t :: 0 <= t < |s.pcs| ==> NoDup(Drained(s.pcs[t])))
    && NoDup(s.returned) && NoDup(s.freed) && NoDup(s.dropped)
  }

  lemma PlacedByMove(s: State, s': State, m: Msg, from: Option<Loc>, to: Loc)
    requires Placed(s) && Moved(s, s', m, from, to) && Distinct(s')
    ensures Placed(s')
  {
    hide Holds, NoDup;
    forall n, loc ensures Holds(s', n, loc) <==> n in s'.loc && s'.loc[n] == loc {
      assert Holds(s, n, loc) <==> n in s.loc && s.loc[n] == loc;
      if from.Some? { assert Holds(s, m, from.value); }
    }
  }

  lemma PlacedByStay(s: State, s': State)
    requires Placed(s) && Stayed(s, s') && Distinct(s')
    ensures Placed(s')
  {
    hide Holds, NoDup;
  }

  lemma PlacedDistinct(s: State)
    requires Placed(s)
    ensures Distinct(s)
  {
  }

  lemma NoDupAppend(q: seq<Msg>, m: Msg)
    requires NoDup(q) && m !in q
    ensures NoDup(q + [m])
    ensures forall n :: n in q + [m] <==> n in q || n == m
  {
  }

  lemma NoDupTail(q: seq<Msg>)
    requires NoDup(q) && q != []
    ensures NoDup(q[1..])
    ensures forall n :: n in q[1..] <==> n in q && n != q[0]
  {
    forall n ensures n in q[1..] <==> n in q && n != q[0] {
      if n in q && n != q[0] {
        var i :| 0 <= i < |q| && q[i] == n;
        assert q[1..][i - 1] == n;
      }
    }
  }

  lemma FindJobSameIds(jobs: seq<Job>, k: nat, job: Job, j: nat)
    requires k < |jobs| && job.jobId == jobs[k].jobId
    ensures FindJob(jobs[k := job], j) == FindJob(jobs, j)
  {
    hide FindJob;
    var jobs' := jobs[k := job];
    assert forall i :: 0 <= i < |jobs| ==> jobs'[i].jobId == jobs[i].jobId;
    var f, g := FindJob(jobs, j), FindJob(jobs', j);
    assert f < |jobs| ==> jobs'[f].jobId == j;
    assert g < |jobs| ==> jobs[g].jobId == j;
  }

  // A message in a place is in no other.
  lemma OnlyThere(s: State, m: Msg, loc: Loc)
    requires Placed(s) && Holds(s, m, loc)
    ensures m in s.loc && s.loc[m] == loc
    ensures forall other :: Holds(s, m, other) ==> other == loc
  {
    hide Holds, NoDup;
  }

  // ----- Steps that move no message -----

  // Only the control state of one thread, the gate and the semaphores change, and the thread keeps what it holds.
  ghost predicate QuietStep(s: State, s': State, t: nat) {
    && t < |s.pcs| == |s'.pcs| && s' == s.(gate := s'.gate, sem := s'.sem, pcs := s.pcs[t := s'.pcs[t]])
    && Held(s'.pcs[t]) == Held(s.pcs[t]) && Drained(s'.pcs[t]) == Drained(s.pcs[t])
  }

  lemma QuietStepPlaced(s: State, s': State, t: nat)
    requires QuietStep(s, s', t) && Placed(s)
    ensures Placed(s')
  {
    PlacedDistinct(s);
    hide FindJob, NoDup, Placed, Held, Drained;
    PlacedByStay(s, s');
  }

  lemma ControlStepPlaced(c: Config, s: State, a: Action)
    requires Sized(c, s) && Enabled(c, s, a) && Placed(s)
    requires a.DispatchRefused? || a.EnterGate? || a.Post? || a.Pend?
    ensures Placed(Next(c, s, a))
  {
    hide JobsValid, Placed, InFlight;
    QuietStepPlaced(s, Next(c, s, a), Mover(a));
  }

  lemma AcquirePlaced(c: Config, s: State, t: nat, id: Option<nat>)
    requires Sized(c, s) && Enabled(c, s, Acquire(t, id)) && Placed(s)
    ensures Placed(Next(c, s, Acquire(t, id)))
  {
    PlacedDistinct(s);
    hide InFlight;
    var s' := Next(c, s, Acquire(t, id));
    assert Held(s'.pcs[t]) == Held(s.pcs[t]) && Drained(s'.pcs[t]) == Drained(s.pcs[t]);
    hide JobsValid, NoDup, Placed, Sized;
    if id.Some? { JobAdded(s, s', t); } else { QuietStepPlaced(s, s', t); }
  }

  lemma JobAdded(s: State, s': State, t: nat)
    requires t < |s.pcs| == |s'.pcs| && s'.pcs == s.pcs[t := s'.pcs[t]]
    requires Held(s'.pcs[t]) == Held(s.pcs[t]) && Drained(s'.pcs[t]) == Drained(s.pcs[t]) && Placed(s)
    requires |s'.x.jobs| == |s.x.jobs| + 1 && s.x.jobs <= s'.x.jobs && s'.x.jobs[|s.x.jobs|].msgQue == []
    requires s'.x.ready == s.x.ready && s'.loc == s.loc
    requires s'.returned == s.returned && s'.freed == s.freed && s'.dropped == s.dropped
    ensures Placed(s')
  {
    PlacedDistinct(s);
    forall j { FindJobAppend(s.x.jobs, s'.x.jobs, j); }
    assert NoDup(s'.x.jobs[|s.x.jobs|].msgQue);
    hide FindJob, NoDup, Placed, Held, Drained;
    PlacedByStay(s, s');
  }

  lemma FindJobAppend(jobs: seq<Job>, jobs': seq<Job>, j: nat)
    requires jobs <= jobs' && |jobs'| <= |jobs| + 1
    ensures FindJob(jobs, j) < |jobs| ==> FindJob(jobs', j) == FindJob(jobs, j)
    ensures FindJob(jobs, j) == |jobs| && FindJob(jobs', j) < |jobs'| ==>
      FindJob(jobs', j) == |jobs| && jobs'[|jobs|].jobId == j
  {
  }

  // ----- Steps that move one message -----

  lemma ReceivePlaced(c: Config, s: State, m: Msg)
    requires Sized(c, s) && Enabled(c, s, Receive(m)) && Placed(s)
    ensures Placed(Next(c, s, Receive(m)))
  {
    PlacedDistinct(s);
    hide JobsValid, FindJob, NoDup;
    var s' := Next(c, s, Receive(m));
    assert Drained(s'.pcs[0]) == Drained(s.pcs[0]) && Held(s.pcs[0]) == None;
    hide Placed, Sized;
    PlacedByMove(s, s', m, None, At(0));
  }

  lemma DispatchDiscretePlaced(c: Config, s: State)
    requires Sized(c, s) && Enabled(c, s, DispatchDiscrete) && Placed(s)
    ensures Placed(Next(c, s, DispatchDiscrete))
  {
    PlacedDistinct(s);
    hide JobsValid, FindJob;
    var s' := Next(c, s, DispatchDiscrete);
    var m := s.pcs[0].m;
    var p := PoolOf(c.nPools, m.poolId).value;
    OnlyThere(s, m, At(0));
    assert !Holds(s, m, InReady(p));
    NoDupAppend(s.x.ready[p], m);
    hide NoDup;
    assert Drained(s'.pcs[0]) == Drained(s.pcs[0]);
    hide Placed, Sized;
    PlacedByMove(s, s', m, Some(At(0)), InReady(p));
  }

  lemma ReturnPlaced(c: Config, s: State)
    requires Sized(c, s) && Enabled(c, s, Return) && Placed(s)
    ensures Placed(Next(c, s, Return))
  {
    PlacedDistinct(s);
    hide JobsValid, FindJob;
    var s' := Next(c, s, Return);
    var m := s.pcs[0].m;
    OnlyThere(s, m, At(0));
    assert !Holds(s, m, WasReturned);
    NoDupAppend(s.returned, m);
    hide NoDup;
    assert Drained(s'.pcs[0]) == Drained(s.pcs[0]);
    hide Placed, Sized;
    PlacedByMove(s, s', m, Some(At(0)), WasReturned);
  }

  lemma DrainPlaced(c: Config, s: State, t: nat)
    requires Sized(c, s) && Enabled(c, s, Drain(t)) && Placed(s)
    ensures Placed(Next(c, s, Drain(t)))
  {
    hide JobsValid, FindJob, Placed, NoDup;
    var s' := Next(c, s, Drain(t));
    var q := s.pcs[t].q;
    assert s'.pcs == s.pcs[t := s'.pcs[t]] && Held(s'.pcs[t]) == Held(s.pcs[t]) == Some(s.pcs[t].m);
    assert Drained(s.pcs[t]) == q && Drained(s'.pcs[t]) == q[1..];
    hide Next, Enabled, Sized, Held, Drained;
    HeadReturned(s, s', t, q);
  }

  // A thread returns the first of the messages it took off a released job.
  ghost predicate HeadStep(s: State, s': State, t: nat, q: seq<Msg>) {
    && t < |s.pcs| == |s'.pcs| && s'.pcs == s.pcs[t := s'.pcs[t]] && q != []
    && Held(s'.pcs[t]) == Held(s.pcs[t]) && Drained(s.pcs[t]) == q && Drained(s'.pcs[t]) == q[1..]
    && s'.x == s.x && s'.freed == s.freed && s'.dropped == s.dropped
    && s'.returned == s.returned + [q[0]] && s'.loc == s.loc[q[0] := WasReturned]
  }

  lemma HeadReturned(s: State, s': State, t: nat, q: seq<Msg>)
    requires Placed(s) && HeadStep(s, s', t, q)
    ensures Placed(s')
  {
    PlacedDistinct(s);
    hide FindJob, NoDup, Placed, Held, Drained;
    OnlyThere(s, q[0], InDrain(t));
    assert !Holds(s, q[0], WasReturned);
    NoDupAppend(s.returned, q[0]);
    NoDupTail(q);
    HeadMoves(s, s', t, q);
    PlacedByMove(s, s', q[0], Some(InDrain(t)), WasReturned);
  }

  lemma HeadMoves(s: State, s': State, t: nat, q: seq<Msg>)
    requires HeadStep(s, s', t, q) && q[0] !in q[1..]
    requires forall loc :: Holds(s, q[0], loc) ==> loc == InDrain(t)
    ensures Moved(s, s', q[0], Some(InDrain(t)), WasReturned)
  {
    hide FindJob, Held, Drained;
    assert forall n :: n in q <==> n == q[0] || n in q[1..];
  }

  lemma FinishPlaced(c: Config, s: State, t: nat, free: bool)
    requires Sized(c, s) && Enabled(c, s, Finish(t, free)) && Placed(s)
    ensures Placed(Next(c, s, Finish(t, free)))
  {
    hide JobsValid, FindJob;
    var m := Executing(s.pcs[t]).value;
    assert Held(s.pcs[t]) == Some(m) && Drained(s.pcs[t]) == [];
    OnlyThere(s, m, At(t));
    assert !Holds(s, m, WasReturned) && !Holds(s, m, WasFreed) && !Holds(s, m, WasDropped);
    hide Placed, Sized;
    Answered(s, Next(c, s, Finish(t, free)), t, m);
  }

  // A thread gets rid of the message it holds, which ends up at the end of one of the three lists of answered messages.
  ghost predicate AnswerStep(s: State, s': State, t: nat, m: Msg) {
    && t < |s.pcs| && Held(s.pcs[t]) == Some(m) && Drained(s.pcs[t]) == []
    && s'.x == s.x && |s'.pcs| == |s.pcs| && Held(s'.pcs[t]) == None && Drained(s'.pcs[t]) == []
    && (forall u :: 0 <= u < |s.pcs| && u != t ==> s'.pcs[u] == s.pcs[u])
    && m !in s.returned && m !in s.freed && m !in s.dropped
    && (|| (s'.loc == s.loc[m := WasReturned] &&
          s'.returned == s.returned + [m] && s'.freed == s.freed && s'.dropped == s.dropped)
        || (s'.loc == s.loc[m := WasFreed] &&
           s'.returned == s.returned && s'.freed == s.freed + [m] && s'.dropped == s.dropped)
        || (s'.loc == s.loc[m := WasDropped] &&
           s'.returned == s.returned && s'.freed == s.freed && s'.dropped == s.dropped + [m]))
  }

  lemma AnswerMoves(s: State, s': State, t: nat, m: Msg)
    requires AnswerStep(s, s', t, m)
    ensures m in s'.loc && Moved(s, s', m, Some(At(t)), s'.loc[m])
  {
    hide FindJob, Held, Drained;
  }

  lemma AnswerKeepsDistinct(s: State, s': State, t: nat, m: Msg)
    requires AnswerStep(s, s', t, m) && Distinct(s)
    ensures Distinct(s')
  {
    hide Held;
    NoDupAppend(s.returned, m);
    NoDupAppend(s.freed, m);
    NoDupAppend(s.dropped, m);
    hide NoDup;
    forall u | 0 <= u < |s'.pcs| ensures NoDup(Drained(s'.pcs[u])) {
      assert NoDup(Drained(s.pcs[u]));
    }
  }

  lemma Answered(s: State, s': State, t: nat, m: Msg)
    requires Placed(s) && AnswerStep(s, s', t, m)
    ensures Placed(s')
  {
    PlacedDistinct(s);
    hide Placed, Moved, Distinct, AnswerStep;
    AnswerMoves(s, s', t, m);
    AnswerKeepsDistinct(s, s', t, m);
    PlacedByMove(s, s', m, Some(At(t)), s'.loc[m]);
  }

  lemma GetPlaced(c: Config, s: State, t: nat)
    requires Sized(c, s) && Enabled(c, s, Get(t)) && Placed(s)
    ensures Placed(Next(c, s, Get(t)))
  {
    hide JobsValid, FindJob, NoDup, Placed;
    var s' := Next(c, s, Get(t));
    if s.x.ready[c.worker[t]] == [] { QuietStepPlaced(s, s', t); } else { GotMessage(c, s, t); }
  }

  lemma GotMessage(c: Config, s: State, t: nat)
    requires Sized(c, s) && Enabled(c, s, Get(t)) && Placed(s) && s.x.ready[c.worker[t]] != []
    ensures Placed(Next(c, s, Get(t)))
  {
    PlacedDistinct(s);
    hide JobsValid, FindJob;
    var s' := Next(c, s, Get(t));
    var p := c.worker[t];
    var m := s.x.ready[p][0];
    assert Drained(s'.pcs[t]) == Drained(s.pcs[t]) && Held(s.pcs[t]) == None;
    NoDupTail(s.x.ready[p]);
    hide NoDup, Placed, Sized;
    PlacedByMove(s, s', m, Some(InReady(p)), At(t));
  }

  // Changing one job of the list, but not its id, changes what is found for that id only.
  lemma JobReplaced(jobs: seq<Job>, jobs': seq<Job>, k: nat)
    requires k < |jobs| == |jobs'| && jobs' == jobs[k := jobs'[k]] && jobs'[k].jobId == jobs[k].jobId
    ensures forall j :: FindJob(jobs', j) == FindJob(jobs, j)
  {
    forall j { FindJobSameIds(jobs, k, jobs'[k], j); }
  }

  // The server hands its message over to a ready queue (as the job of that place, if any, stops being idle) ...
  ghost predicate HandStep(s: State, s': State, m: Msg) {
    && |s'.pcs| == |s.pcs| > 0 && Held(s.pcs[0]) == Some(m) && Held(s'.pcs[0]) == None
    && Drained(s'.pcs[0]) == Drained(s.pcs[0])
    && (forall u :: 1 <= u < |s.pcs| ==> s'.pcs[u] == s.pcs[u])
    && s'.returned == s.returned && s'.freed == s.freed && s'.dropped == s.dropped
    && |s'.x.jobs| == |s.x.jobs| && forall j :: FindJob(s'.x.jobs, j) == FindJob(s.x.jobs, j)
  }

  ghost predicate HandToPool(s: State, s': State, m: Msg, p: nat) {
    && HandStep(s, s', m)
    && s'.loc == s.loc[m := InReady(p)]
    && p < |s.x.ready| && m !in s.x.ready[p] && s'.x.ready == Put(s.x.ready, p, m)
    && forall k :: 0 <= k < |s.x.jobs| ==> s'.x.jobs[k].msgQue == s.x.jobs[k].msgQue
  }

  // ... or to a busy job.
  ghost predicate HandToJob(s: State, s': State, m: Msg, k: nat) {
    && HandStep(s, s', m)
    && k < |s.x.jobs| && FindJob(s.x.jobs, s.x.jobs[k].jobId) == k
    && s'.loc == s.loc[m := InJob(s.x.jobs[k].jobId)]
    && s'.x.ready == s.x.ready
    && m !in s.x.jobs[k].msgQue && s'.x.jobs[k].msgQue == s.x.jobs[k].msgQue + [m]
    && (forall i :: 0 <= i < |s.x.jobs| && i != k ==> s'.x.jobs[i] == s.x.jobs[i])
    && (forall j :: FindJob(s.x.jobs, j) == k ==> j == s.x.jobs[k].jobId)
  }

  lemma HandedToPool(s: State, s': State, m: Msg, p: nat)
    requires Placed(s) && HandToPool(s, s', m, p)
    ensures Placed(s')
  {
    PlacedDistinct(s);
    NoDupAppend(s.x.ready[p], m);
    hide NoDup, Placed, FindJob, Held, Drained;
    PlacedByMove(s, s', m, Some(At(0)), InReady(p));
  }

  lemma HandToJobMoves(s: State, s': State, m: Msg, k: nat)
    requires HandToJob(s, s', m, k)
    ensures Moved(s, s', m, Some(At(0)), InJob(s.x.jobs[k].jobId))
  {
    hide NoDup, FindJob, Held, Drained;
  }

  lemma HandToJobKeepsDistinct(s: State, s': State, m: Msg, k: nat)
    requires HandToJob(s, s', m, k) && Distinct(s)
    ensures Distinct(s')
  {
    NoDupAppend(s.x.jobs[k].msgQue, m);
    hide NoDup, FindJob, Held, Drained;
  }

  lemma HandedToJob(s: State, s': State, m: Msg, k: nat)
    requires Placed(s) && HandToJob(s, s', m, k)
    ensures Placed(s')
  {
    PlacedDistinct(s);
    HandToJobMoves(s, s', m, k);
    HandToJobKeepsDistinct(s, s', m, k);
    hide Placed, Moved, Distinct;
    PlacedByMove(s, s', m, Some(At(0)), InJob(s.x.jobs[k].jobId));
  }

  lemma LookUpPlaced(c: Config, s: State)
    requires Sized(c, s) && Enabled(c, s, LookUp) && Placed(s)
    ensures Placed(Next(c, s, LookUp))
  {
    var s' := Next(c, s, LookUp);
    var m := s.pcs[0].m;
    var p := PoolOf(c.nPools, m.poolId).value;
    var k := FindJob(s.x.jobs, m.jobId);
    OnlyThere(s, m, At(0));
    assert !Holds(s, m, InReady(p)) && !Holds(s, m, InJob(m.jobId));
    assert Drained(s'.pcs[0]) == Drained(s.pcs[0]);
    hide Placed;
    if k == |s.x.jobs| {
      QuietStepPlaced(s, s', 0);
    } else {
      JobReplaced(s.x.jobs, s'.x.jobs, k);
      hide FindJob, JobsValid, Holds;
      if s.x.jobs[k].empty {
        HandedToPool(s, s', m, p);
      } else {
        HandedToJob(s, s', m, k);
      }
    }
  }

  lemma RequeuePlaced(c: Config, s: State, t: nat)
    requires Sized(c, s) && Enabled(c, s, RequeueJob(t)) && Placed(s)
    ensures Placed(Next(c, s, RequeueJob(t)))
  {
    var s' := Next(c, s, RequeueJob(t));
    var j := s.pcs[t].job;
    var k := FindJob(s.x.jobs, j);
    RequeueKeepsJobs(s.x, j);
    if k < |s.x.jobs| { JobReplaced(s.x.jobs, s'.x.jobs, k); }
    assert Drained(s'.pcs[t]) == Drained(s.pcs[t]) && Held(s'.pcs[t]) == Held(s.pcs[t]) == None;
    hide FindJob, JobsValid, Placed;
    if k < |s.x.jobs| && s.x.jobs[k].msgQue != [] {
      RequeuedOne(c, s, t);
    } else {
      RequeuedNothing(c, s, t);
    }
  }

  lemma RequeuedNothing(c: Config, s: State, t: nat)
    requires Sized(c, s) && Enabled(c, s, RequeueJob(t)) && Placed(s)
    requires var k := FindJob(s.x.jobs, s.pcs[t].job); k < |s.x.jobs| ==> s.x.jobs[k].msgQue == []
    ensures Placed(Next(c, s, RequeueJob(t)))
  {
    var s' := Next(c, s, RequeueJob(t));
    var k := FindJob(s.x.jobs, s.pcs[t].job);
    if k < |s.x.jobs| { JobReplaced(s.x.jobs, s'.x.jobs, k); }
    hide FindJob, JobsValid, Placed, Sized;
    assert s'.x.ready == s.x.ready && s'.loc == s.loc;
    assert s'.returned == s.returned && s'.freed == s.freed && s'.dropped == s.dropped;
    assert s'.pcs == s.pcs[t := s'.pcs[t]] && |s'.x.jobs| == |s.x.jobs|;
    assert forall i :: 0 <= i < |s.x.jobs| ==> s'.x.jobs[i].msgQue == s.x.jobs[i].msgQue;
    hide Next, Requeue, Enabled;
    MessagesStay(s, s', t);
  }

  // The queues keep their messages, and a thread that holds none goes on without one.
  lemma MessagesStay(s: State, s': State, t: nat)
    requires Placed(s) && t < |s.pcs| == |s'.pcs| && s'.pcs == s.pcs[t := s'.pcs[t]] && s'.loc == s.loc
    requires Drained(s'.pcs[t]) == Drained(s.pcs[t]) == [] && Held(s'.pcs[t]) == Held(s.pcs[t]) == None
    requires s'.x.ready == s.x.ready && s'.returned == s.returned && s'.freed == s.freed && s'.dropped == s.dropped
    requires |s'.x.jobs| == |s.x.jobs| && forall j :: FindJob(s'.x.jobs, j) == FindJob(s.x.jobs, j)
    requires forall i :: 0 <= i < |s.x.jobs| ==> s'.x.jobs[i].msgQue == s.x.jobs[i].msgQue
    ensures Placed(s')
  {
    PlacedDistinct(s);
    hide FindJob, NoDup, Placed, Drained, Held;
    PlacedByStay(s, s');
  }

  // The head of a job's queue goes to the end of a ready queue.
  ghost predicate RequeueStep(s: State, s': State, t: nat, m: Msg, k: nat, p: nat) {
    && t < |s.pcs| == |s'.pcs| && Held(s.pcs[t]) == Held(s'.pcs[t]) == None && Drained(s.pcs[t]) == Drained(s'.pcs[t])
    && (forall u :: 0 <= u < |s.pcs| && u != t ==> s'.pcs[u] == s.pcs[u])
    && s'.returned == s.returned && s'.freed == s.freed && s'.dropped == s.dropped
    && s'.loc == s.loc[m := InReady(p)]
    && p < |s.x.ready| && m !in s.x.ready[p] && s'.x.ready == Put(s.x.ready, p, m)
    && |s'.x.jobs| == |s.x.jobs| && (forall j :: FindJob(s'.x.jobs, j) == FindJob(s.x.jobs, j))
    && k < |s.x.jobs| && FindJob(s.x.jobs, s.x.jobs[k].jobId) == k
    && s.x.jobs[k].msgQue != [] && m == s.x.jobs[k].msgQue[0] && s'.x.jobs[k].msgQue == s.x.jobs[k].msgQue[1..]
    && (forall i :: 0 <= i < |s.x.jobs| && i != k ==> s'.x.jobs[i] == s.x.jobs[i])
    && (forall j :: FindJob(s.x.jobs, j) == k ==> j == s.x.jobs[k].jobId)
  }

  lemma RequeueMoves(s: State, s': State, t: nat, m: Msg, k: nat, p: nat)
    requires RequeueStep(s, s', t, m, k, p) && NoDup(s.x.jobs[k].msgQue)
    ensures Moved(s, s', m, Some(InJob(s.x.jobs[k].jobId)), InReady(p))
  {
    NoDupTail(s.x.jobs[k].msgQue);
    hide NoDup, FindJob, Held, Drained;
    forall n, loc | n != m ensures Holds(s', n, loc) <==> Holds(s, n, loc) {
      match loc
      case InReady(_) =>
      case InJob(j) =>
      case _ =>
    }
    forall loc | Holds(s', m, loc) && loc != InReady(p)
      ensures Holds(s, m, loc) && loc != InJob(s.x.jobs[k].jobId)
    {
      match loc
      case InReady(_) =>
      case InJob(j) =>
      case _ =>
    }
  }

  lemma RequeueKeepsDistinct(s: State, s': State, t: nat, m: Msg, k: nat, p: nat)
    requires RequeueStep(s, s', t, m, k, p) && Distinct(s)
    ensures Distinct(s')
  {
    NoDupTail(s.x.jobs[k].msgQue);
    NoDupAppend(s.x.ready[p], m);
    hide NoDup, FindJob, Held, Drained;
  }

  lemma RequeuedOne(c: Config, s: State, t: nat)
    requires Sized(c, s) && Enabled(c, s, RequeueJob(t)) && Placed(s)
    requires var k := FindJob(s.x.jobs, s.pcs[t].job); k < |s.x.jobs| && s.x.jobs[k].msgQue != []
    ensures Placed(Next(c, s, RequeueJob(t)))
  {
    PlacedDistinct(s);
    var s' := Next(c, s, RequeueJob(t));
    var j := s.pcs[t].job;
    var k := FindJob(s.x.jobs, j);
    var m := s.x.jobs[k].msgQue[0];
    var p := PoolOf(c.nPools, m.poolId).value;
    RequeueKeepsJobs(s.x, j);
    JobReplaced(s.x.jobs, s'.x.jobs, k);
    OnlyThere(s, m, InJob(j));
    assert !Holds(s, m, InReady(p));
    hide FindJob, JobsValid, NoDup, Placed, Sized, Moved;
    assert RequeueStep(s, s', t, m, k, p);
    hide Next, RequeueStep;
    RequeueMoves(s, s', t, m, k, p);
    RequeueKeepsDistinct(s, s', t, m, k, p);
    hide Distinct;
    PlacedByMove(s, s', m, Some(InJob(j)), InReady(p));
  }

  // ----- Releasing a job moves all that waited in it -----

  lemma FindJobWithout(jobs: seq<Job>, nPools: nat, k: nat, j: nat)
    requires JobsValid(jobs, nPools) && k < |jobs|
    ensures var f, g := FindJob(jobs, j), FindJob(Without(jobs, k), j);
      && (j == jobs[k].jobId ==> g == |Without(jobs, k)|)
      && (j != jobs[k].jobId ==> (f < |jobs| <==> g < |Without(jobs, k)|))
      && (j != jobs[k].jobId && f < |jobs| ==> Without(jobs, k)[g] == jobs[f])
  {
    var w := Without(jobs, k);
    var f, g := FindJob(jobs, j), FindJob(w, j);
    WithoutAt(jobs, k);
    assert forall i, l :: 0 <= i < l < |jobs| ==> jobs[i].jobId != jobs[l].jobId;
    hide JobsValid, Without;
    if j != jobs[k].jobId && f < |jobs| {
      assert w[if f < k then f else f - 1] == jobs[f];
    }
    if g < |w| {
      assert w[g] == jobs[if g < k then g else g + 1];
    }
  }

  lemma ReleasePlaced(c: Config, s: State, t: nat)
    requires Sized(c, s) && Enabled(c, s, Release(t)) && Placed(s)
    ensures Placed(Next(c, s, Release(t)))
  {
    hide Placed, JobsValid;
    if InUse(s.x.jobs, s.pcs[t].m.kind.job) {
      ReleasedJob(c, s, t);
    } else {
      QuietStepPlaced(s, Next(c, s, Release(t)), t);
    }
  }

  lemma ReleasedJob(c: Config, s: State, t: nat)
    requires Sized(c, s) && Enabled(c, s, Release(t)) && Placed(s) && InUse(s.x.jobs, s.pcs[t].m.kind.job)
    ensures Placed(Next(c, s, Release(t)))
  {
    var s' := Next(c, s, Release(t));
    var j := s.pcs[t].m.kind.job;
    var k := FindJob(s.x.jobs, j);
    var q := s.x.jobs[k].msgQue;
    assert Held(s'.pcs[t]) == Held(s.pcs[t]) && Drained(s.pcs[t]) == [] && Drained(s'.pcs[t]) == q;
    forall i { FindJobWithout(s.x.jobs, c.nPools, k, i); }
    WithoutAt(s.x.jobs, k);
    hide NoDup, FindJob, JobsValid, Without;
    forall n | n in q ensures n in s.loc && s.loc[n] == InJob(j) {
      OnlyThere(s, n, InJob(j));
    }
    forall n, loc ensures Holds(s', n, loc) <==> n in s'.loc && s'.loc[n] == loc {
      assert Holds(s, n, loc) <==> n in s.loc && s.loc[n] == loc;
      assert Holds(s, n, InJob(j)) <==> n in q;
    }
  }

  /** Whatever the step, each message that has been taken from the server queue stays in exactly one place. */
  lemma PlacedKept(c: Config, s: State, a: Action)
    requires Sized(c, s) && Enabled(c, s, a) && Placed(s)
    ensures Placed(Next(c, s, a))
  {
    hide Placed, JobsValid, Next, Enabled;
    match a
    case Receive(m) => ReceivePlaced(c, s, m);
    case DispatchDiscrete => DispatchDiscretePlaced(c, s);
    case LookUp => LookUpPlaced(c, s);
    case Return => ReturnPlaced(c, s);
    case Acquire(t, id) => AcquirePlaced(c, s, t, id);
    case Release(t) => ReleasePlaced(c, s, t);
    case Drain(t) => DrainPlaced(c, s, t);
    case Finish(t, free) => FinishPlaced(c, s, t, free);
    case Get(t) => GetPlaced(c, s, t);
    case RequeueJob(t) => RequeuePlaced(c, s, t);
    case _ => ControlStepPlaced(c, s, a);
  }
}
