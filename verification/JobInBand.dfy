/** Packets for the default pool while it has no threads. The server thread processes them itself, without a look at the
    job they carry. Such a packet is processed in its turn if and only if nothing of its job is under way when it comes
    in; a concrete run shows it processed together with an earlier packet of the same job. */
module JobInBand {
  import opened Options
  import opened JobStreams
  import opened JobSteps
  import opened JobInvariant
  import opened JobSafety
  import opened JobReuse

  // The server takes a packet that is processed in band, whatever its job.
  ghost function ReceiveInBand(s: State, m: Msg): State
    requires s.pcs != []
  {
    s.(pcs := s.pcs[0 := Processing(m)], loc := s.loc[m := At(0)])
  }

  // A message of the job is ready, executing, or waiting in the job's queue.
  ghost predicate Underway(s: State, j: nat)
    requires InUse(s.x.jobs, j)
  {
    (exists n :: InWork(s, j, n)) || s.x.jobs[FindJob(s.x.jobs, j)].msgQue != []
  }

  ghost predicate Busy(s: State, m: Msg) {
    0 < |s.pcs| && Executing(s.pcs[0]) == Some(m)
  }

  // These steps can be taken before the server is done with m.
  ghost predicate Meanwhile(c: Config, s: State, actions: seq<Action>, m: Msg)
    decreases |actions|
  {
    && Busy(s, m)
    && (actions != [] ==>
          Shape(c, s) && Enabled(c, s, actions[0]) && Meanwhile(c, Next(c, s, actions[0]), actions[1..], m))
  }

  lemma {:induction false} MeanwhileCanDo(c: Config, s: State, actions: seq<Action>, m: Msg)
    requires Meanwhile(c, s, actions, m)
    ensures CanDo(c, s, actions)
    decreases |actions|
  {
    hide Busy, Enabled, Next, Shape;
    if actions != [] { MeanwhileCanDo(c, Next(c, s, actions[0]), actions[1..], m); }
  }

  // Until the server is done with m, no other message of its job is ready or executing, whatever happens.
  ghost predicate RunsAlone(c: Config, s: State, m: Msg) {
    forall actions, n :: Meanwhile(c, s, actions, m) && InWorkAfter(c, s, actions, m.jobId, n) ==> n == m
  }

  ghost predicate InWorkAfter(c: Config, s: State, actions: seq<Action>, j: nat, n: Msg) {
    CanDo(c, s, actions) && InWork(Do(c, s, actions), j, n)
  }

  // All messages of the job that came before m are finished, and none runs with it.
  ghost predicate InTurn(c: Config, s: State, m: Msg) {
    var h := HistoryOf(s.hist, m.jobId);
    h.finished == h.accepted && RunsAlone(c, s, m)
  }

  // ----- Nothing of the job is under way, and nothing comes -----

  ghost predicate Filed(s: State) {
    forall k, n :: 0 <= k < |s.x.jobs| && n in s.x.jobs[k].msgQue ==> n.jobId == s.x.jobs[k].jobId
  }

  ghost predicate NoneReady(s: State, j: nat) {
    forall p, n :: 0 <= p < |s.x.ready| && n in s.x.ready[p] ==> n.jobId != j
  }

  ghost predicate NoneExecuting(s: State, j: nat) {
    forall t :: 1 <= t < |s.pcs| && Executing(s.pcs[t]).Some? ==> Executing(s.pcs[t]).value.jobId != j
  }

  ghost predicate NoneWaiting(s: State, j: nat) {
    forall k :: 0 <= k < |s.x.jobs| && s.x.jobs[k].jobId == j ==> s.x.jobs[k].msgQue == []
  }

  ghost predicate Alone(s: State, m: Msg) {
    && Busy(s, m) && m.jobId != DISCRETE_JOB_ID
    && Filed(s) && NoneReady(s, m.jobId) && NoneExecuting(s, m.jobId) && NoneWaiting(s, m.jobId)
  }

  lemma GetKeepsAlone(c: Config, s: State, t: nat, m: Msg)
    requires Shape(c, s) && Enabled(c, s, Get(t)) && Alone(s, m)
    ensures Alone(Next(c, s, Get(t)), m)
  {
    var p := c.worker[t];
    if s.x.ready[p] != [] {
      assert s.x.ready[p][0] in s.x.ready[p];
      assert forall n :: n in s.x.ready[p][1..] ==> n in s.x.ready[p];
    }
  }

  lemma RequeueKeepsAlone(c: Config, s: State, t: nat, m: Msg)
    requires Shape(c, s) && Enabled(c, s, RequeueJob(t)) && Alone(s, m)
    ensures Alone(Next(c, s, RequeueJob(t)), m)
  {
    var s' := Next(c, s, RequeueJob(t));
    assert s'.x == Requeue(s.x, s.pcs[t].job).0 && s'.pcs[0] == s.pcs[0];
    assert forall u :: 1 <= u < |s.pcs| && Executing(s'.pcs[u]).Some? ==> s'.pcs[u] == s.pcs[u];
    hide Enabled, Next, Requeue;
    RequeueKeepsQueues(s, s', s.pcs[t].job, m.jobId);
  }

  lemma RequeueKeepsQueues(s: State, s': State, j: nat, other: nat)
    requires s'.x == Requeue(s.x, j).0 && Filed(s) && NoneReady(s, other) && NoneWaiting(s, other)
    ensures Filed(s') && NoneReady(s', other) && NoneWaiting(s', other)
  {
    var k := FindJob(s.x.jobs, j);
    if k < |s.x.jobs| && s.x.jobs[k].msgQue != [] {
      var q := s.x.jobs[k].msgQue;
      assert q[0] in q && q[0].jobId != other;
      assert forall n :: n in q[1..] ==> n in q;
      var p := PoolOf(|s.x.ready|, q[0].poolId);
      if p.Some? {
        assert forall n :: n in s.x.ready[p.value] + [q[0]] ==> n in s.x.ready[p.value] || n == q[0];
      }
    }
  }

  lemma ReleaseKeepsAlone(c: Config, s: State, t: nat, m: Msg)
    requires Shape(c, s) && Enabled(c, s, Release(t)) && Alone(s, m)
    ensures Alone(Next(c, s, Release(t)), m)
  {
    var k := FindJob(s.x.jobs, s.pcs[t].m.kind.job);
    hide FindJob;
    if k < |s.x.jobs| {
      var jobs' := Without(s.x.jobs, k);
      assert forall i :: 0 <= i < |jobs'| ==> jobs'[i] == s.x.jobs[if i < k then i else i + 1];
    }
  }

  lemma AcquireKeepsAlone(c: Config, s: State, t: nat, id: Option<nat>, m: Msg)
    requires Shape(c, s) && Enabled(c, s, Acquire(t, id)) && Alone(s, m)
    ensures Alone(Next(c, s, Acquire(t, id)), m)
  {
    hide InFlight, FindJob;
  }

  lemma OtherStepKeepsAlone(c: Config, s: State, a: Action, m: Msg)
    requires Shape(c, s) && Enabled(c, s, a) && Alone(s, m) && Busy(Next(c, s, a), m)
    requires a.EnterGate? || a.Post? || a.Drain? || a.Finish? || a.Pend?
    ensures Alone(Next(c, s, a), m)
  {
    hide InFlight, FindJob, Filed, NoneReady, NoneWaiting;
    var s' := Next(c, s, a);
    assert s'.x == s.x;
    assert Filed(s') && NoneReady(s', m.jobId) && NoneWaiting(s', m.jobId) by { SameStreams(s, s', m.jobId); }
  }

  lemma SameStreams(s: State, s': State, j: nat)
    requires s'.x == s.x && Filed(s) && NoneReady(s, j) && NoneWaiting(s, j)
    ensures Filed(s') && NoneReady(s', j) && NoneWaiting(s', j)
  {
  }

  lemma StepKeepsAlone(c: Config, s: State, a: Action, m: Msg)
    requires Shape(c, s) && Enabled(c, s, a) && Alone(s, m) && Busy(Next(c, s, a), m)
    ensures Alone(Next(c, s, a), m)
  {
    assert !a.Receive? && !a.DispatchDiscrete? && !a.DispatchRefused? && !a.LookUp? && !a.Return?;
    hide Enabled, Next, Alone, Shape;
    match a
    case Acquire(t, id) => AcquireKeepsAlone(c, s, t, id, m);
    case Release(t) => ReleaseKeepsAlone(c, s, t, m);
    case Get(t) => GetKeepsAlone(c, s, t, m);
    case RequeueJob(t) => RequeueKeepsAlone(c, s, t, m);
    case _ => OtherStepKeepsAlone(c, s, a, m);
  }

  lemma {:induction false} AloneStays(c: Config, s: State, actions: seq<Action>, m: Msg)
    requires Alone(s, m) && Meanwhile(c, s, actions, m) && CanDo(c, s, actions)
    ensures Alone(Do(c, s, actions), m)
    decreases |actions|
  {
    hide Enabled, Next, Alone, Shape;
    if actions != [] {
      var s' := Next(c, s, actions[0]);
      assert Busy(s', m);
      StepKeepsAlone(c, s, actions[0], m);
      AloneStays(c, s', actions[1..], m);
    }
  }

  lemma AloneInWork(s: State, m: Msg, n: Msg)
    requires Alone(s, m) && InWork(s, m.jobId, n)
    ensures n == m
  {
    var token :| TokenAt(s, m.jobId, token) && Current(token) == [n];
    assert token.Ready? || token.Exec?;
  }

  lemma IdleJobIsAlone(c: Config, s: State, m: Msg)
    requires Inv(c, s) && s.pcs[0] == Receiving && InUse(s.x.jobs, m.jobId) && !Underway(s, m.jobId)
    ensures Alone(ReceiveInBand(s, m), m)
  {
    var j, s' := m.jobId, ReceiveInBand(s, m);
    assert JobsValid(s.x.jobs, c.nPools);
    NotInWork(s, j);
    assert Filed(s) by { assert Tracked(s); }
    hide Inv, InWork, TokenAt;
    var k := FindJob(s.x.jobs, j);
    assert forall i :: 0 <= i < |s.x.jobs| && s.x.jobs[i].jobId == j ==> i == k;
  }

  lemma ExecutingIsInWork(s: State, n: Msg, t: nat)
    requires t < |s.pcs| && Executing(s.pcs[t]) == Some(n)
    ensures InWork(s, n.jobId, n)
  {
    assert TokenAt(s, n.jobId, Exec(n, t)) && Current(Exec(n, t)) == [n];
  }

  lemma TokenIsInWork(s: State, j: nat, token: Token)
    requires TokenAt(s, j, token) && Current(token) != []
    ensures InWork(s, j, Current(token)[0])
  {
    assert Current(token) == [Current(token)[0]];
  }

  lemma NotInWork(s: State, j: nat)
    requires forall n :: !InWork(s, j, n)
    ensures NoneReady(s, j) && NoneExecuting(s, j)
  {
    hide InWork;
    forall p, n | 0 <= p < |s.x.ready| && n in s.x.ready[p] ensures n.jobId != j {
      ReadyIsInWork(s, p, n);
    }
    forall t | 1 <= t < |s.pcs| && Executing(s.pcs[t]).Some? ensures Executing(s.pcs[t]).value.jobId != j {
      ExecutingIsInWork(s, Executing(s.pcs[t]).value, t);
    }
  }

  lemma FinishedIffNotUnderway(c: Config, s: State, j: nat)
    requires Inv(c, s) && InUse(s.x.jobs, j)
    ensures !Underway(s, j) ==> HistoryOf(s.hist, j).finished == HistoryOf(s.hist, j).accepted
    ensures HistoryOf(s.hist, j).finished == HistoryOf(s.hist, j).accepted ==> !Underway(s, j)
  {
    AcceptedInOrder(c, s, j);
    var h := HistoryOf(s.hist, j);
    LiveTokenIsThere(c, s, j);
    hide Inv, TokenAt, FindJob, InWork;
    if !Underway(s, j) {
      if Current(h.token) != [] { TokenIsInWork(s, j, h.token); }
    } else if n :| InWork(s, j, n) {
      assert exists token :: TokenAt(s, j, token) && Current(token) == [n] by { InWorkHasToken(s, j, n); }
      var token :| TokenAt(s, j, token) && Current(token) == [n];
      assert token.Ready? || token.Exec?;
    }
  }

  lemma InWorkHasToken(s: State, j: nat, n: Msg)
    requires InWork(s, j, n)
    ensures exists token :: TokenAt(s, j, token) && Current(token) == [n]
  {
  }

  lemma LiveTokenIsThere(c: Config, s: State, j: nat)
    requires Inv(c, s) && InUse(s.x.jobs, j)
    ensures HistoryOf(s.hist, j).token != NoToken ==> TokenAt(s, j, HistoryOf(s.hist, j).token)
  {
    hide TokenAt, Placed, Semaphores, Control;
    JobTokens.LiveJobTracked(s, j);
  }

  /** A packet of a live job that is processed in band is processed after all earlier ones of its job, and together with
      none, if and only if no message of the job is ready, executing or waiting when the server takes the packet. */
  lemma InBandInTurnIff(c: Config, s: State, m: Msg)
    requires Inv(c, s) && s.pcs[0] == Receiving && m !in s.loc && InBand(c, m) && InUse(s.x.jobs, m.jobId)
    ensures InTurn(c, ReceiveInBand(s, m), m) <==> !Underway(s, m.jobId)
  {
    var s' := ReceiveInBand(s, m);
    FinishedIffNotUnderway(c, s, m.jobId);
    if !Underway(s, m.jobId) {
      IdleJobIsAlone(c, s, m);
      hide Inv, Underway, Alone, Meanwhile;
      forall actions, n | Meanwhile(c, s', actions, m) && InWorkAfter(c, s', actions, m.jobId, n) ensures n == m {
        AloneStays(c, s', actions, m);
        AloneInWork(Do(c, s', actions), m, n);
      }
    }
  }

  /** In band nothing depends on the job: a packet without one takes the same step. */
  lemma DiscreteIsReceived(c: Config, s: State, m: Msg)
    requires Shape(c, s) && Enabled(c, s, Receive(m)) && InBand(c, m)
    ensures Next(c, s, Receive(m)) == ReceiveInBand(s, m)
  {
  }

  // ----- A packet that overtakes -----

  const CONFIG := Config(2, [0, 1], true)
  const ACQ := Msg(0, DISCRETE_JOB_ID, DEFAULT_POOL_ID, AcquireJob)
  const FIRST := Msg(1, 1, 0x8001, Call)
  const SECOND := Msg(2, 1, DEFAULT_POOL_ID, Call)

  function Empty(): State {
    State(Streams([], [[], []]), [0, 0], None, [Receiving, Pending], map[], map[], [], [], [])
  }

  // The state after n steps: a job is acquired in band, a first packet goes to the worker, who executes it.
  function OvertakingRun(n: nat): State {
    var acquired := Empty().(x := Streams([Job(1, true, [])], [[], []]), hist := map[1 := History([], [], NoToken)]);
    var idle := acquired.(returned := [ACQ], loc := map[ACQ := WasReturned]);
    var sent := idle.(
      x := Streams([Job(1, false, [])], [[], [FIRST]]), hist := map[1 := History([FIRST], [], Ready(FIRST, 1))],
      loc := map[ACQ := WasReturned, FIRST := InReady(1)]);
    match n
    case 0 => Empty()
    case 1 => Empty().(pcs := [Processing(ACQ), Pending], loc := map[ACQ := At(0)])
    case 2 => Empty().(gate := Some(0), pcs := [Acquiring(ACQ), Pending], loc := map[ACQ := At(0)])
    case 3 => acquired.(pcs := [Replying(ACQ), Pending], loc := map[ACQ := At(0)])
    case 4 => idle
    case 5 => idle.(pcs := [Dispatching(FIRST), Pending], loc := map[ACQ := WasReturned, FIRST := At(0)])
    case 6 =>
      idle.(gate := Some(0), pcs := [Looking(FIRST), Pending], loc := map[ACQ := WasReturned, FIRST := At(0)])
    case 7 => sent.(gate := Some(0), pcs := [GatePosting(1), Pending])
    case 8 => sent.(sem := [0, 1])
    case 9 => sent.(pcs := [Receiving, Getting])
    case _ =>
      sent.(x := Streams([Job(1, false, [])], [[], []]), pcs := [Receiving, Processing(FIRST)],
            hist := map[1 := History([FIRST], [], Exec(FIRST, 1))], loc := map[ACQ := WasReturned, FIRST := At(1)])
  }

  function OvertakingAction(n: nat): Action {
    match n
    case 0 => Receive(ACQ)
    case 1 => EnterGate(0)
    case 2 => Acquire(0, Some(1))
    case 3 => Finish(0, false)
    case 4 => Receive(FIRST)
    case 5 => EnterGate(0)
    case 6 => LookUp
    case 7 => Post(0)
    case 8 => Pend(1)
    case _ => Get(1)
  }

  ghost predicate Leads(n: nat) {
    && Shape(CONFIG, OvertakingRun(n)) && Enabled(CONFIG, OvertakingRun(n), OvertakingAction(n))
    && OvertakingRun(n + 1) == Next(CONFIG, OvertakingRun(n), OvertakingAction(n))
  }

  lemma JobIsAskedFor()
    ensures Leads(0) && Leads(1)
  {
    hide FindJob;
  }

  lemma JobIsAcquired()
    ensures Leads(2)
  {
    forall token ensures !TokenAt(OvertakingRun(2), 1, token) {}
    assert FindJob([], 1) == 0;
  }

  lemma JobIsAnswered()
    ensures Leads(3)
  {
    assert FindJob([Job(1, true, [])], DISCRETE_JOB_ID) == 1;
    hide FindJob;
  }

  lemma PacketComesIn()
    ensures Leads(4) && Leads(5)
  {
    hide FindJob;
  }

  lemma PacketIsQueued()
    ensures Leads(6)
  {
    var jobs := [Job(1, true, [])];
    assert FindJob(jobs, 1) == 0;
    hide FindJob;
    assert jobs[0 := Job(1, false, [])] == [Job(1, false, [])];
    assert [] + [FIRST] == [FIRST];
    assert Put([[], []], 1, FIRST) == [[], [FIRST]];
    assert OvertakingRun(6).pcs[0 := GatePosting(1)] == [GatePosting(1), Pending];
  }

  lemma PacketIsPosted()
    ensures Leads(7)
  {
    hide FindJob;
  }

  lemma WorkerWakes()
    ensures Leads(8)
  {
    hide FindJob;
  }

  lemma WorkerTakesPacket()
    ensures Leads(9)
  {
    assert FindJob([Job(1, false, [])], 1) == 0;
    hide FindJob;
    assert [FIRST][1..] == [];
    assert [[], [FIRST]][1 := [FIRST][1..]] == [[], []];
    assert OvertakingRun(9).pcs[1 := Processing(FIRST)] == [Receiving, Processing(FIRST)];
  }

  lemma OvertakingSteps(n: nat)
    requires n < 10
    ensures Leads(n)
  {
    hide Leads;
    JobIsAskedFor();
    JobIsAcquired();
    JobIsAnswered();
    PacketComesIn();
    PacketIsQueued();
    PacketIsPosted();
    WorkerWakes();
    WorkerTakesPacket();
  }

  /** A server whose default pool has no threads acquires a job, hands its first packet to the worker of another pool,
      and then takes a second packet of that job for the default pool: now both are being executed. */
  lemma InBandPacketOvertakes() returns (states: seq<State>, actions: seq<Action>)
    ensures Run(CONFIG, states, actions) && |actions| == 10
    ensures var s := states[10];
      InBand(CONFIG, SECOND) && SECOND !in s.loc && InUse(s.x.jobs, 1) && |s.pcs| == 2 && s.pcs[0] == Receiving
    ensures var s' := ReceiveInBand(states[10], SECOND);
      Executing(s'.pcs[0]) == Some(SECOND) && Executing(s'.pcs[1]) == Some(FIRST) && FIRST.jobId == SECOND.jobId == 1
  {
    states := seq(11, n requires 0 <= n => OvertakingRun(n));
    actions := seq(10, n requires 0 <= n => OvertakingAction(n));
    assert Init(CONFIG, Empty());
    hide Init, Shape, Enabled, Next;
    forall i | 0 <= i < 10
      ensures Shape(CONFIG, states[i]) && Enabled(CONFIG, states[i], actions[i])
      ensures states[i + 1] == Next(CONFIG, states[i], actions[i])
    {
      OvertakingSteps(i);
    }
  }
}
