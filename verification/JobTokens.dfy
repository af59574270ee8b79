/** The token of a job: every step of JobSteps keeps at most one message of a live job ready or executing, and keeps the
    job's messages in the order in which they were accepted. */
module JobTokens {
  import opened Options
  import opened JobStreams
  import opened JobSteps
  import opened JobInvariant
  import opened JobPlaces

  // Only tokens of this one job id come or go; discrete messages have no job.
  ghost predicate TokensKeptExcept(s: State, s': State, j: nat) {
    forall i, token :: i != DISCRETE_JOB_ID && i != j ==> (TokenAt(s', i, token) <==> TokenAt(s, i, token))
  }

  // Every live job but that of this id is as it was, and so is its history.
  ghost predicate JobsKeptExcept(s: State, s': State, j: nat) {
    forall k :: 0 <= k < |s'.x.jobs| && s'.x.jobs[k].jobId != j ==>
      s'.x.jobs[k] in s.x.jobs && HistoryOf(s'.hist, s'.x.jobs[k].jobId) == HistoryOf(s.hist, s'.x.jobs[k].jobId)
  }

  lemma TrackedByOneJob(c: Config, s: State, s': State, j: nat)
    requires Sized(c, s) && Tracked(s) && TokensKeptExcept(s, s', j) && JobsKeptExcept(s, s', j)
    requires forall k :: 0 <= k < |s'.x.jobs| && s'.x.jobs[k].jobId == j ==> JobTracked(s', s'.x.jobs[k])
    ensures Tracked(s')
  {
    hide TokenAt, HistoryOf, NoDup;
    forall k | 0 <= k < |s'.x.jobs| ensures JobTracked(s', s'.x.jobs[k]) {
      var job := s'.x.jobs[k];
      if job.jobId != j {
        var i :| 0 <= i < |s.x.jobs| && s.x.jobs[i] == job;
        assert JobTracked(s, s.x.jobs[i]);
      }
    }
  }

  lemma LiveJobTracked(s: State, j: nat)
    requires Tracked(s) && InUse(s.x.jobs, j)
    ensures JobTracked(s, s.x.jobs[FindJob(s.x.jobs, j)])
  {
    hide JobTracked;
  }

  lemma NoDiscreteJob(c: Config, s: State)
    requires Sized(c, s)
    ensures forall k :: 0 <= k < |s.x.jobs| ==> s.x.jobs[k].jobId != DISCRETE_JOB_ID
  {
  }

  // ----- Steps that leave every token where it is -----

  ghost predicate SameWork(pc: Pc, pc': Pc) {
    && Owes(pc') == Owes(pc)
    && (Executing(pc') == Executing(pc) ||
        (Executing(pc) == None && Executing(pc').Some? && Executing(pc').value.jobId == DISCRETE_JOB_ID))
  }

  lemma TokensOfWork(s: State, s': State, t: nat)
    requires s'.x.ready == s.x.ready && t < |s.pcs| == |s'.pcs| && s'.pcs == s.pcs[t := s'.pcs[t]]
    requires SameWork(s.pcs[t], s'.pcs[t])
    ensures TokensKeptExcept(s, s', DISCRETE_JOB_ID)
  {
    hide Executing, Owes;
  }

  lemma ControlStepTracked(c: Config, s: State, a: Action)
    requires Sized(c, s) && Control(c, s) && Enabled(c, s, a) && Tracked(s)
    requires a.Receive? || a.DispatchRefused? || a.EnterGate? || a.Post? || a.Return? || a.Drain? || a.Pend?
    ensures Tracked(Next(c, s, a))
  {
    NoDiscreteJob(c, s);
    hide JobsValid, Tracked, InFlight, FindJob, TokenAt;
    var s' := Next(c, s, a);
    TokensOfWork(s, s', Mover(a));
    TrackedByOneJob(c, s, s', DISCRETE_JOB_ID);
  }

  lemma DispatchDiscreteTracked(c: Config, s: State)
    requires Sized(c, s) && Enabled(c, s, DispatchDiscrete) && Tracked(s)
    ensures Tracked(Next(c, s, DispatchDiscrete))
  {
    NoDiscreteJob(c, s);
    hide JobsValid, Tracked, FindJob;
    var s' := Next(c, s, DispatchDiscrete);
    assert Executing(s'.pcs[0]) == Executing(s.pcs[0]) && Owes(s'.pcs[0]) == Owes(s.pcs[0]);
    TrackedByOneJob(c, s, s', DISCRETE_JOB_ID);
  }

  lemma AcquireTracked(c: Config, s: State, t: nat, id: Option<nat>)
    requires Sized(c, s) && Enabled(c, s, Acquire(t, id)) && Tracked(s)
    ensures Tracked(Next(c, s, Acquire(t, id)))
  {
    var s' := Next(c, s, Acquire(t, id));
    TokensOfWork(s, s', t);
    hide Tracked, TokenAt, JobsValid;
    if id.None? {
      TrackedByOneJob(c, s, s', DISCRETE_JOB_ID);
    } else {
      assert forall token :: !TokenAt(s, id.value, token);
      TrackedByOneJob(c, s, s', id.value);
    }
  }

  lemma ReleaseTracked(c: Config, s: State, t: nat)
    requires Sized(c, s) && Enabled(c, s, Release(t)) && Tracked(s)
    ensures Tracked(Next(c, s, Release(t)))
  {
    var s' := Next(c, s, Release(t));
    TokensOfWork(s, s', t);
    hide Tracked, TokenAt, JobsValid;
    var k := FindJob(s.x.jobs, s.pcs[t].m.kind.job);
    if k < |s.x.jobs| { WithoutAt(s.x.jobs, k); }
    TrackedByOneJob(c, s, s', DISCRETE_JOB_ID);
  }

  // ----- Steps that change one job -----

  // A step that changes job k, its history and its tokens only.
  ghost predicate OneJobChanged(s: State, s': State, k: nat) {
    && k < |s.x.jobs| && |s'.x.jobs| == |s.x.jobs| && s'.x.jobs == s.x.jobs[k := s'.x.jobs[k]]
    && s'.x.jobs[k].jobId == s.x.jobs[k].jobId
    && (forall j :: j != s.x.jobs[k].jobId ==> HistoryOf(s'.hist, j) == HistoryOf(s.hist, j))
  }

  lemma OneJobTracked(c: Config, s: State, s': State, k: nat)
    requires Sized(c, s) && Tracked(s) && OneJobChanged(s, s', k)
    requires TokensKeptExcept(s, s', s.x.jobs[k].jobId) && JobTracked(s', s'.x.jobs[k])
    ensures Tracked(s')
  {
    OnlyOneWithId(c, s, s', k);
    hide Tracked, JobsValid, JobTracked, TokenAt, HistoryOf;
    TrackedByOneJob(c, s, s', s.x.jobs[k].jobId);
  }

  lemma LookUpTracked(c: Config, s: State)
    requires Sized(c, s) && Control(c, s) && Enabled(c, s, LookUp) && Placed(s) && Tracked(s)
    ensures Tracked(Next(c, s, LookUp))
  {
    var s' := Next(c, s, LookUp);
    var m := s.pcs[0].m;
    var k := FindJob(s.x.jobs, m.jobId);
    assert Executing(s'.pcs[0]) == Executing(s.pcs[0]) && Owes(s'.pcs[0]) == Owes(s.pcs[0]);
    hide Tracked, Placed;
    if k == |s.x.jobs| {
      hide JobsValid;
      TokensOfWork(s, s', 0);
      TrackedByOneJob(c, s, s', DISCRETE_JOB_ID);
    } else {
      assert s.x.jobs[k].jobId == m.jobId && (s.x.jobs[k].empty ==> s.x.jobs[k].msgQue == []);
      LiveJobTracked(s, m.jobId);
      hide JobsValid, FindJob;
      LookUpChangesOneJob(c, s, k);
      if s.x.jobs[k].empty {
        LookUpOnReady(c, s, s', k);
      } else {
        LookUpOnJob(c, s, s', k);
      }
      hide Next, Enabled, JobTracked, OneJobChanged;
      OneJobTracked(c, s, s', k);
    }
  }

  lemma LookUpChangesOneJob(c: Config, s: State, k: nat)
    requires Sized(c, s) && Enabled(c, s, LookUp) && k == FindJob(s.x.jobs, s.pcs[0].m.jobId) < |s.x.jobs|
    ensures OneJobChanged(s, Next(c, s, LookUp), k)
  {
    hide JobsValid, FindJob;
  }

  lemma LookUpOnJob(c: Config, s: State, s': State, k: nat)
    requires Sized(c, s) && Control(c, s) && Enabled(c, s, LookUp) && s' == Next(c, s, LookUp)
    requires k == FindJob(s.x.jobs, s.pcs[0].m.jobId) < |s.x.jobs| && !s.x.jobs[k].empty
    requires s.x.jobs[k].jobId == s.pcs[0].m.jobId && JobTracked(s, s.x.jobs[k])
    ensures |s'.x.jobs| == |s.x.jobs| && JobTracked(s', s'.x.jobs[k]) && TokensKeptExcept(s, s', s.pcs[0].m.jobId)
  {
    assert Role(0, s.pcs[0], c.nPools);
    hide FindJob, JobsValid, InGate, Control, JobTracked;
    TokensOfWork(s, s', 0);
    hide TokenAt;
    AppendAccepted(s, s', s.x.jobs[k], s'.x.jobs[k], s.pcs[0].m);
  }

  lemma OnlyOneWithId(c: Config, s: State, s': State, k: nat)
    requires Sized(c, s) && k < |s.x.jobs| == |s'.x.jobs| && s'.x.jobs == s.x.jobs[k := s'.x.jobs[k]]
    requires s'.x.jobs[k].jobId == s.x.jobs[k].jobId
    ensures forall i :: 0 <= i < |s'.x.jobs| && s'.x.jobs[i].jobId == s.x.jobs[k].jobId ==> i == k
    ensures forall i :: 0 <= i < |s'.x.jobs| && i != k ==> s'.x.jobs[i] in s.x.jobs
  {
  }

  lemma LookUpOnReady(c: Config, s: State, s': State, k: nat)
    requires Sized(c, s) && Control(c, s) && Enabled(c, s, LookUp) && s' == Next(c, s, LookUp)
    requires k == FindJob(s.x.jobs, s.pcs[0].m.jobId) < |s.x.jobs| && s.x.jobs[k].empty && s.x.jobs[k].msgQue == []
    requires s.x.jobs[k].jobId == s.pcs[0].m.jobId && JobTracked(s, s.x.jobs[k])
    ensures |s'.x.jobs| == |s.x.jobs| && JobTracked(s', s'.x.jobs[k]) && TokensKeptExcept(s, s', s.pcs[0].m.jobId)
  {
    hide FindJob, JobsValid, InGate, Role;
    var m := s.pcs[0].m;
    var p := PoolOf(c.nPools, m.poolId).value;
    var h := HistoryOf(s.hist, m.jobId);
    assert h.accepted + [m] == h.finished + [m] + [];
    forall i, token ensures TokenAt(s', i, token) <==> TokenAt(s, i, token) || (i == m.jobId && token == Ready(m, p)) {
      ReadyAppend(s.x.ready[p], m);
    }
  }

  lemma ReadyAppend(q: seq<Msg>, m: Msg)
    ensures forall n :: n in q + [m] <==> n in q || n == m
  {
  }

  lemma AppendAccepted(s: State, s': State, job: Job, job': Job, m: Msg)
    requires JobTracked(s, job) && m.jobId == job.jobId && !job.empty
    requires job' == job.(msgQue := job.msgQue + [m])
    requires HistoryOf(s'.hist, job.jobId) ==
      HistoryOf(s.hist, job.jobId).(accepted := HistoryOf(s.hist, job.jobId).accepted + [m])
    requires TokensKeptExcept(s, s', DISCRETE_JOB_ID) && job.jobId != DISCRETE_JOB_ID
    ensures JobTracked(s', job')
  {
    hide TokenAt;
    ReadyAppend(job.msgQue, m);
    var h := HistoryOf(s.hist, job.jobId);
    assert h.finished + Current(h.token) + (job.msgQue + [m]) == (h.finished + Current(h.token) + job.msgQue) + [m];
  }

  lemma FinishTracked(c: Config, s: State, t: nat, free: bool)
    requires Sized(c, s) && Control(c, s) && Enabled(c, s, Finish(t, free)) && Tracked(s)
    ensures Tracked(Next(c, s, Finish(t, free)))
  {
    var s' := Next(c, s, Finish(t, free));
    var m := Executing(s.pcs[t]).value;
    assert t == 0 ==> m.jobId == DISCRETE_JOB_ID by { assert Role(t, s.pcs[t], c.nPools); }
    FinishTokens(s, s', t, m);
    UniqueId(c, s, m.jobId);
    hide Tracked, Role, Control, JobsValid, Enabled, InGate;
    if InUse(s.x.jobs, m.jobId) {
      LiveJobTracked(s, m.jobId);
      assert TokenAt(s, m.jobId, Exec(m, t));
      FinishedInOrder(s, s', s.x.jobs[FindJob(s.x.jobs, m.jobId)], m, t);
    }
    hide TokenAt, JobTracked, FindJob;
    TrackedByOneJob(c, s, s', m.jobId);
  }

  lemma UniqueId(c: Config, s: State, j: nat)
    requires Sized(c, s)
    ensures forall i :: 0 <= i < |s.x.jobs| && s.x.jobs[i].jobId == j ==> i == FindJob(s.x.jobs, j)
    ensures InUse(s.x.jobs, j) ==> j != DISCRETE_JOB_ID
  {
  }

  lemma FinishTokens(s: State, s': State, t: nat, m: Msg)
    requires t < |s.pcs| && Executing(s.pcs[t]) == Some(m) && (t == 0 ==> m.jobId == DISCRETE_JOB_ID)
    requires s'.x == s.x && s'.pcs == s.pcs[t := AfterMessage(t, m)]
    ensures forall i, token :: i != DISCRETE_JOB_ID ==> (TokenAt(s', i, token) <==>
      (TokenAt(s, i, token) && token != Exec(m, t)) || (i == m.jobId && token == After(t)))
  {
    assert Owes(s.pcs[t]) == DISCRETE_JOB_ID;
    assert Executing(s'.pcs[t]) == None && Owes(s'.pcs[t]) == m.jobId;
    hide Executing, Owes, AfterMessage;
  }

  lemma FinishedInOrder(s: State, s': State, job: Job, m: Msg, t: nat)
    requires JobTracked(s, job) && job.jobId == m.jobId != DISCRETE_JOB_ID && TokenAt(s, m.jobId, Exec(m, t))
    requires forall token :: TokenAt(s', m.jobId, token) <==>
      (TokenAt(s, m.jobId, token) && token != Exec(m, t)) || token == After(t)
    requires var h := HistoryOf(s.hist, m.jobId);
      HistoryOf(s'.hist, m.jobId) == History(h.accepted, h.finished + [m], After(t))
    ensures JobTracked(s', job)
  {
    hide TokenAt;
    var h := HistoryOf(s.hist, m.jobId);
    assert h.token == Exec(m, t);
    assert (h.finished + [m]) + [] + job.msgQue == h.finished + [m] + job.msgQue;
  }

  lemma GetTracked(c: Config, s: State, t: nat)
    requires Sized(c, s) && Control(c, s) && Enabled(c, s, Get(t)) && Placed(s) && Tracked(s)
    ensures Tracked(Next(c, s, Get(t)))
  {
    var s' := Next(c, s, Get(t));
    var p := c.worker[t];
    if s.x.ready[p] == [] {
      NoDiscreteJob(c, s);
      hide JobsValid, Tracked, Placed, FindJob;
      TokensOfWork(s, s', t);
      TrackedByOneJob(c, s, s', DISCRETE_JOB_ID);
    } else {
      var m := s.x.ready[p][0];
      GetTokens(c, s, t);
      UniqueId(c, s, m.jobId);
      hide Tracked, Control, JobsValid, Placed, Enabled;
      if InUse(s.x.jobs, m.jobId) {
        LiveJobTracked(s, m.jobId);
        assert TokenAt(s, m.jobId, Ready(m, p));
        TokenReplaced(s, s', s.x.jobs[FindJob(s.x.jobs, m.jobId)], Ready(m, p), Exec(m, t));
      }
      hide TokenAt, JobTracked, FindJob;
      TrackedByOneJob(c, s, s', m.jobId);
    }
  }

  lemma GetTokens(c: Config, s: State, t: nat)
    requires Sized(c, s) && Enabled(c, s, Get(t)) && Placed(s) && s.x.ready[c.worker[t]] != []
    ensures var m, p := s.x.ready[c.worker[t]][0], c.worker[t];
      forall i, token :: i != DISCRETE_JOB_ID ==> (TokenAt(Next(c, s, Get(t)), i, token) <==>
        (TokenAt(s, i, token) && token != Ready(m, p)) || (i == m.jobId && token == Exec(m, t)))
  {
    var p := c.worker[t];
    NoDupTail(s.x.ready[p]);
    hide Placed, JobsValid, FindJob, NoDup;
  }

  // The token of a job changes hands while its message stays the current one.
  lemma TokenReplaced(s: State, s': State, job: Job, token: Token, token': Token)
    requires JobTracked(s, job) && TokenAt(s, job.jobId, token)
    requires Current(token') == Current(token) && token' != NoToken
    requires forall other :: TokenAt(s', job.jobId, other) <==>
      (TokenAt(s, job.jobId, other) && other != token) || other == token'
    requires HistoryOf(s'.hist, job.jobId) == HistoryOf(s.hist, job.jobId).(token := token')
    ensures JobTracked(s', job)
  {
    hide TokenAt, Current;
  }

  lemma RequeueTracked(c: Config, s: State, t: nat)
    requires Sized(c, s) && Control(c, s) && Enabled(c, s, RequeueJob(t)) && Placed(s) && Tracked(s)
    ensures Tracked(Next(c, s, RequeueJob(t)))
  {
    var j := s.pcs[t].job;
    var k := FindJob(s.x.jobs, j);
    assert j != DISCRETE_JOB_ID by { assert Role(t, s.pcs[t], c.nPools); }
    hide Tracked, Control, JobsValid, Placed, FindJob;
    if k == |s.x.jobs| {
      var s' := Next(c, s, RequeueJob(t));
      UniqueId(c, s, j);
      WorkDone(s, s', t, j);
      hide TokenAt;
      TrackedByOneJob(c, s, s', j);
    } else if s.x.jobs[k].msgQue == [] {
      RequeueIdleTracked(c, s, t);
    } else {
      RequeueNextTracked(c, s, t);
    }
  }

  lemma RequeueChangesOneJob(c: Config, s: State, t: nat, k: nat)
    requires Sized(c, s) && Enabled(c, s, RequeueJob(t)) && k == FindJob(s.x.jobs, s.pcs[t].job) < |s.x.jobs|
    ensures OneJobChanged(s, Next(c, s, RequeueJob(t)), k)
  {
    hide JobsValid, FindJob;
  }

  lemma RequeueIdleTracked(c: Config, s: State, t: nat)
    requires Sized(c, s) && Enabled(c, s, RequeueJob(t)) && Tracked(s) && s.pcs[t].job != DISCRETE_JOB_ID
    requires var k := FindJob(s.x.jobs, s.pcs[t].job); k < |s.x.jobs| && s.x.jobs[k].msgQue == []
    ensures Tracked(Next(c, s, RequeueJob(t)))
  {
    var k := FindJob(s.x.jobs, s.pcs[t].job);
    hide Tracked, FindJob;
    RequeueChangesOneJob(c, s, t, k);
    LiveJobTracked(s, s.pcs[t].job);
    RequeueIdlesJob(c, s, t, k);
    hide TokenAt, JobTracked, JobsValid, Next, Enabled, OneJobChanged;
    OneJobTracked(c, s, Next(c, s, RequeueJob(t)), k);
  }

  lemma RequeueIdlesJob(c: Config, s: State, t: nat, k: nat)
    requires Sized(c, s) && Enabled(c, s, RequeueJob(t)) && s.pcs[t].job != DISCRETE_JOB_ID
    requires k == FindJob(s.x.jobs, s.pcs[t].job) < |s.x.jobs| && s.x.jobs[k].msgQue == [] && JobTracked(s, s.x.jobs[k])
    ensures var s' := Next(c, s, RequeueJob(t));
      |s'.x.jobs| == |s.x.jobs| && JobTracked(s', s'.x.jobs[k]) && TokensKeptExcept(s, s', s.x.jobs[k].jobId)
  {
    var s' := Next(c, s, RequeueJob(t));
    hide JobsValid, FindJob;
    assert TokenAt(s, s.x.jobs[k].jobId, After(t));
    WorkDone(s, s', t, s.pcs[t].job);
    hide TokenAt, JobTracked;
    JobIdles(s, s', s.x.jobs[k], s'.x.jobs[k], t);
  }

  lemma RequeueNextTracked(c: Config, s: State, t: nat)
    requires Sized(c, s) && Enabled(c, s, RequeueJob(t)) && Placed(s) && Tracked(s) && s.pcs[t].job != DISCRETE_JOB_ID
    requires var k := FindJob(s.x.jobs, s.pcs[t].job); k < |s.x.jobs| && s.x.jobs[k].msgQue != []
    ensures Tracked(Next(c, s, RequeueJob(t)))
  {
    var k := FindJob(s.x.jobs, s.pcs[t].job);
    hide Tracked, FindJob, Placed;
    RequeueChangesOneJob(c, s, t, k);
    LiveJobTracked(s, s.pcs[t].job);
    RequeueNextMovesJob(c, s, t, k);
    hide TokenAt, JobTracked, JobsValid, Next, Enabled, OneJobChanged;
    OneJobTracked(c, s, Next(c, s, RequeueJob(t)), k);
  }

  lemma RequeueNextMovesJob(c: Config, s: State, t: nat, k: nat)
    requires Sized(c, s) && Enabled(c, s, RequeueJob(t)) && Placed(s) && s.pcs[t].job != DISCRETE_JOB_ID
    requires k == FindJob(s.x.jobs, s.pcs[t].job) < |s.x.jobs| && s.x.jobs[k].msgQue != [] && JobTracked(s, s.x.jobs[k])
    ensures var s' := Next(c, s, RequeueJob(t));
      |s'.x.jobs| == |s.x.jobs| && JobTracked(s', s'.x.jobs[k]) && TokensKeptExcept(s, s', s.x.jobs[k].jobId)
  {
    var s' := Next(c, s, RequeueJob(t));
    var job := s.x.jobs[k];
    RequeueKeepsJobs(s.x, s.pcs[t].job);
    assert PoolOf(c.nPools, job.msgQue[0].poolId).Some?;
    hide JobsValid, FindJob, Placed;
    assert TokenAt(s, job.jobId, After(t)) && job.msgQue[0].jobId == job.jobId;
    RequeueTokens(c, s, t, k);
    hide TokenAt, JobTracked;
    JobMovesOn(s, s', job, s'.x.jobs[k], t, PoolOf(c.nPools, job.msgQue[0].poolId).value);
  }

  // The worker no longer owes anything to the job.
  lemma WorkDone(s: State, s': State, t: nat, j: nat)
    requires t < |s.pcs| == |s'.pcs| && s'.pcs == s.pcs[t := s'.pcs[t]] && s'.x.ready == s.x.ready
    requires Owes(s.pcs[t]) == j && Owes(s'.pcs[t]) == DISCRETE_JOB_ID
    requires Executing(s.pcs[t]) == Executing(s'.pcs[t]) == None
    requires j != DISCRETE_JOB_ID
    ensures forall i, token :: i != DISCRETE_JOB_ID ==>
      (TokenAt(s', i, token) <==> TokenAt(s, i, token) && !(i == j && token == After(t)))
  {
    hide Executing, Owes;
  }

  lemma JobIdles(s: State, s': State, job: Job, job': Job, t: nat)
    requires JobTracked(s, job) && TokenAt(s, job.jobId, After(t)) && job.msgQue == [] && job' == job.(empty := true)
    requires forall token :: TokenAt(s', job.jobId, token) <==> TokenAt(s, job.jobId, token) && token != After(t)
    requires HistoryOf(s'.hist, job.jobId) == HistoryOf(s.hist, job.jobId).(token := NoToken)
    ensures JobTracked(s', job')
  {
    hide TokenAt;
  }

  lemma RequeueTokens(c: Config, s: State, t: nat, k: nat)
    requires Sized(c, s) && Enabled(c, s, RequeueJob(t)) && Placed(s) && s.pcs[t].job != DISCRETE_JOB_ID
    requires k == FindJob(s.x.jobs, s.pcs[t].job) < |s.x.jobs| && s.x.jobs[k].msgQue != []
    requires s.x.jobs[k].msgQue[0].jobId == s.pcs[t].job
    requires PoolOf(c.nPools, s.x.jobs[k].msgQue[0].poolId).Some?
    ensures var m := s.x.jobs[k].msgQue[0]; var p := PoolOf(c.nPools, m.poolId).value;
      forall i, token :: i != DISCRETE_JOB_ID ==> (TokenAt(Next(c, s, RequeueJob(t)), i, token) <==>
        (TokenAt(s, i, token) && !(i == s.pcs[t].job && token == After(t))) || (i == m.jobId && token == Ready(m, p)))
  {
    var m := s.x.jobs[k].msgQue[0];
    var p := PoolOf(c.nPools, m.poolId).value;
    ReadyAppend(s.x.ready[p], m);
    hide Placed, JobsValid, FindJob;
  }

  lemma JobMovesOn(s: State, s': State, job: Job, job': Job, t: nat, p: nat)
    requires JobTracked(s, job) && TokenAt(s, job.jobId, After(t)) && job.msgQue != []
    requires job' == job.(msgQue := job.msgQue[1..])
    requires forall token :: TokenAt(s', job.jobId, token) <==>
      (TokenAt(s, job.jobId, token) && token != After(t)) || token == Ready(job.msgQue[0], p)
    requires HistoryOf(s'.hist, job.jobId) == HistoryOf(s.hist, job.jobId).(token := Ready(job.msgQue[0], p))
    ensures JobTracked(s', job')
  {
    hide TokenAt;
    var h := HistoryOf(s.hist, job.jobId);
    assert job.msgQue == [job.msgQue[0]] + job.msgQue[1..];
    assert h.finished + [job.msgQue[0]] + job.msgQue[1..] == h.finished + [] + job.msgQue;
  }

  /** Whatever the step, every live job keeps at most one message ready or executing, keeps it first among those not
      finished, and is idle just when nothing of it is in flight. */
  lemma TrackedKept(c: Config, s: State, a: Action)
    requires Sized(c, s) && Control(c, s) && Enabled(c, s, a) && Placed(s) && Tracked(s)
    ensures Tracked(Next(c, s, a))
  {
    hide Placed, Tracked, Control, JobsValid, Next, Enabled;
    match a
    case DispatchDiscrete => DispatchDiscreteTracked(c, s);
    case LookUp => LookUpTracked(c, s);
    case Acquire(t, id) => AcquireTracked(c, s, t, id);
    case Release(t) => ReleaseTracked(c, s, t);
    case Finish(t, free) => FinishTracked(c, s, t, free);
    case Get(t) => GetTracked(c, s, t);
    case RequeueJob(t) => RequeueTracked(c, s, t);
    case _ => ControlStepTracked(c, s, a);
  }
}
