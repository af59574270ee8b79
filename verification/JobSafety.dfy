/** What holds in every reachable state of the server thread and any number of workers: the messages of a job are
    processed one at a time in the order of their arrival, none is stranded, lost or answered twice, and the branches
    for an empty ready queue and for a missing pool are never taken. */
module JobSafety {
  import opened Options
  import opened JobStreams
  import opened JobSteps
  import opened JobInvariant
  import opened JobPlaces
  import opened JobTokens

  lemma InitInv(c: Config, s: State)
    requires Init(c, s)
    ensures Inv(c, s)
  {
    forall p | 0 <= p < c.nPools ensures Debts(c, s.pcs, p, |s.pcs|) == 0 {
      NoDebts(c, s.pcs, p, |s.pcs|);
    }
  }

  lemma {:induction false} NoDebts(c: Config, pcs: seq<Pc>, p: nat, n: nat)
    requires n <= |pcs| && forall t :: 0 <= t < |pcs| ==> pcs[t] == Home(t)
    ensures Debts(c, pcs, p, n) == 0
  {
    if n != 0 { NoDebts(c, pcs, p, n - 1); }
  }

  /** The invariant is inductive. */
  lemma InvKept(c: Config, s: State, a: Action)
    requires Inv(c, s) && Enabled(c, s, a)
    ensures Inv(c, Next(c, s, a))
  {
    hide Control, Semaphores, Placed, Tracked, JobsValid, Next, Enabled;
    SizedKept(c, s, a);
    ControlKept(c, s, a);
    SemaphoresKept(c, s, a);
    PlacedKept(c, s, a);
    TrackedKept(c, s, a);
  }

  // ----- Every run -----

  ghost predicate Run(c: Config, states: seq<State>, actions: seq<Action>) {
    && |states| == |actions| + 1 && Init(c, states[0])
    && forall i :: 0 <= i < |actions| ==>
      Shape(c, states[i]) && Enabled(c, states[i], actions[i]) && states[i + 1] == Next(c, states[i], actions[i])
  }

  /** Every state of every run satisfies the invariant. */
  lemma {:induction false} EveryRunKeepsInv(c: Config, states: seq<State>, actions: seq<Action>, i: nat)
    requires Run(c, states, actions) && i < |states|
    ensures Inv(c, states[i])
  {
    hide Inv, Enabled, Next, Init, Shape;
    if i == 0 {
      InitInv(c, states[0]);
    } else {
      EveryRunKeepsInv(c, states, actions, i - 1);
      assert Shape(c, states[i - 1]) && Enabled(c, states[i - 1], actions[i - 1]);
      InvKept(c, states[i - 1], actions[i - 1]);
    }
  }

  // ----- Order -----

  /** Of a live job at most one message is ready or executing, or one worker about to fetch the next: never two. */
  lemma OneAtATime(c: Config, s: State, j: nat, a: Token, b: Token)
    requires Inv(c, s) && InUse(s.x.jobs, j) && TokenAt(s, j, a) && TokenAt(s, j, b)
    ensures a == b
  {
    hide TokenAt, Placed, Semaphores, Control;
    LiveJobTracked(s, j);
  }

  /** The messages accepted for a live job are, in order, those that are finished, then the one that is ready or being
      executed if there is one, then those waiting in the job's queue. */
  lemma AcceptedInOrder(c: Config, s: State, j: nat)
    requires Inv(c, s) && InUse(s.x.jobs, j)
    ensures var h := HistoryOf(s.hist, j); var job := s.x.jobs[FindJob(s.x.jobs, j)];
      && h.accepted == h.finished + Current(h.token) + job.msgQue
      && (forall m, p :: TokenAt(s, j, Ready(m, p)) ==> Current(h.token) == [m])
      && (forall m, t :: TokenAt(s, j, Exec(m, t)) ==> Current(h.token) == [m])
  {
    hide TokenAt, Placed, Semaphores, Control;
    LiveJobTracked(s, j);
  }

  /** So the message of a live job that a worker executes is always the next one in the order of arrival. */
  lemma ExecutesInOrder(c: Config, s: State, t: nat, m: Msg)
    requires Inv(c, s) && t < |s.pcs| && Executing(s.pcs[t]) == Some(m) && InUse(s.x.jobs, m.jobId)
    ensures var h := HistoryOf(s.hist, m.jobId); |h.finished| < |h.accepted| && m == h.accepted[|h.finished|]
  {
    AcceptedInOrder(c, s, m.jobId);
    hide Inv;
    assert TokenAt(s, m.jobId, Exec(m, t));
  }

  /** As long as a job lives, what is accepted for it and what is finished of it only grow at the end. */
  lemma HistoryGrows(c: Config, s: State, a: Action, j: nat)
    requires Inv(c, s) && Enabled(c, s, a) && InUse(s.x.jobs, j)
    ensures var h, h' := HistoryOf(s.hist, j), HistoryOf(Next(c, s, a).hist, j);
      h.accepted <= h'.accepted && h.finished <= h'.finished
  {
    hide Control, Semaphores, Placed, Tracked, JobsValid, FindJob;
    if a.RequeueJob? || a.Get? || a.Acquire? { HandoversKeepHistory(c, s, a, j); }
  }

  lemma HandoversKeepHistory(c: Config, s: State, a: Action, j: nat)
    requires Inv(c, s) && Enabled(c, s, a) && InUse(s.x.jobs, j) && (a.RequeueJob? || a.Get? || a.Acquire?)
    ensures var h, h' := HistoryOf(s.hist, j), HistoryOf(Next(c, s, a).hist, j);
      h.accepted == h'.accepted && h.finished == h'.finished
  {
    hide Control, Semaphores, Placed, Tracked, JobsValid, FindJob;
  }

  // ----- Nothing is stranded -----

  /** A live job is idle exactly when no message of it is ready or executing and no worker owes it its next message,
      and an idle job has nothing waiting: so a waiting message always has something in flight that will fetch it. */
  lemma IdleExactlyWhenNothingInFlight(c: Config, s: State, j: nat)
    requires Inv(c, s) && InUse(s.x.jobs, j)
    ensures var job := s.x.jobs[FindJob(s.x.jobs, j)];
      (job.empty <==> !InFlight(s, j)) && (job.msgQue != [] ==> InFlight(s, j))
  {
    hide TokenAt, Placed, Semaphores, Control;
    LiveJobTracked(s, j);
    var h := HistoryOf(s.hist, j);
    if h.token != NoToken { assert TokenAt(s, j, h.token); }
  }

  /** A message on a ready queue has a unit of the semaphore to wake a worker, or a thread that is about to take a
      message from that queue or to post. */
  lemma ReadyMessagesAreSignalled(c: Config, s: State, p: nat)
    requires Inv(c, s) && p < c.nPools && s.x.ready[p] != []
    ensures s.sem[p] > 0 || exists t :: 0 <= t < |s.pcs| && Debt(c, s.pcs[t], t, p) > 0
  {
    hide Control, Placed, Tracked;
    if s.sem[p] == 0 { var t := SomeoneInDebt(c, s.pcs, p, |s.pcs|); }
  }

  lemma {:induction false} SomeoneInDebt(c: Config, pcs: seq<Pc>, p: nat, n: nat) returns (t: nat)
    requires n <= |pcs| && Debts(c, pcs, p, n) > 0
    ensures t < n && Debt(c, pcs[t], t, p) > 0
  {
    if Debt(c, pcs[n - 1], n - 1, p) > 0 {
      t := n - 1;
    } else {
      t := SomeoneInDebt(c, pcs, p, n - 1);
    }
  }

  /** The thread inside the gate can always take its next step. */
  lemma GateOwnerCanMove(c: Config, s: State)
    requires Inv(c, s) && s.gate.Some?
    ensures exists a :: Mover(a) == s.gate.value && Enabled(c, s, a)
  {
    hide Semaphores, Placed, Tracked, JobsValid, InFlight;
    var t := s.gate.value;
    assert Role(t, s.pcs[t], c.nPools) && InGate(s.pcs[t]);
    var a := match s.pcs[t]
      case Looking(_) => LookUp
      case Acquiring(_) => Acquire(t, None)
      case Releasing(_) => Release(t)
      case Requeuing(_) => RequeueJob(t)
      case _ => Post(t);
    assert Mover(a) == t && Enabled(c, s, a);
  }

  // ----- Branches that are never taken -----

  /** A worker that has come past its semaphore never finds the ready queue empty. */
  lemma ReadyQueueNeverEmpty(c: Config, s: State, t: nat)
    requires Inv(c, s) && 1 <= t < |s.pcs| && s.pcs[t].Getting?
    ensures s.x.ready[c.worker[t]] != []
  {
    GetFindsAMessage(c, s, t);
  }

  /** The pool lookup a worker makes before it queues the next message of a job never fails. */
  lemma WorkerLookupNeverFails(c: Config, s: State, t: nat)
    requires Inv(c, s) && t < |s.pcs|
    ensures !s.pcs[t].LookupFailed?
    ensures s.pcs[t].Requeuing? ==> !Requeue(s.x, s.pcs[t].job).1.PoolGone?
  {
    assert Role(t, s.pcs[t], c.nPools);
    if s.pcs[t].Requeuing? { RequeueKeepsJobs(s.x, s.pcs[t].job); }
  }

  // ----- Conservation -----

  /** Every message taken from the server queue is in exactly one place. */
  lemma InExactlyOnePlace(c: Config, s: State, m: Msg)
    requires Inv(c, s)
    ensures m in s.loc <==> exists loc :: Holds(s, m, loc)
    ensures forall a, b :: Holds(s, m, a) && Holds(s, m, b) ==> a == b
  {
    hide Holds, Control, Semaphores, Tracked, JobsValid, NoDup;
    if m in s.loc { assert Holds(s, m, s.loc[m]); }
  }

  function Answers(s: State): seq<Msg> {
    s.returned + s.freed + s.dropped
  }

  /** No message is answered twice, whether returned, freed or dropped, and an answered one is nowhere else. */
  lemma AnsweredAtMostOnce(c: Config, s: State, m: Msg)
    requires Inv(c, s)
    ensures NoDup(Answers(s))
    ensures m in Answers(s) ==> m in s.loc && (s.loc[m].WasReturned? || s.loc[m].WasFreed? || s.loc[m].WasDropped?)
  {
    hide Control, Semaphores, Tracked, JobsValid;
    forall n ensures n in s.returned <==> n in s.loc && s.loc[n] == WasReturned {
      assert Holds(s, n, WasReturned) <==> n in s.returned;
    }
    forall n ensures n in s.freed <==> n in s.loc && s.loc[n] == WasFreed {
      assert Holds(s, n, WasFreed) <==> n in s.freed;
    }
    forall n ensures n in s.dropped <==> n in s.loc && s.loc[n] == WasDropped {
      assert Holds(s, n, WasDropped) <==> n in s.dropped;
    }
    hide Holds;
    DisjointNoDup(s.returned, s.freed);
    DisjointNoDup(s.returned + s.freed, s.dropped);
  }

  lemma DisjointNoDup(a: seq<Msg>, b: seq<Msg>)
    requires NoDup(a) && NoDup(b) && forall m :: !(m in a && m in b)
    ensures NoDup(a + b)
    ensures forall m :: m in a + b <==> m in a || m in b
  {
    forall i, k | 0 <= i < k < |a + b| ensures (a + b)[i] != (a + b)[k] {
      if i < |a| <= k {
        assert a[i] in a && b[k - |a|] in b;
      }
    }
  }

  ghost predicate Dispositions(s: State) {
    && (forall m :: m in s.freed ==> m.kind.Command?)
    && (forall m :: m in s.dropped ==> m.kind.Other?)
  }

  /** Only one-way commands are freed, and only messages of a type the server does nothing with are dropped: every other
      message is returned. */
  lemma {:induction false} EveryRunKeepsDispositions(c: Config, states: seq<State>, actions: seq<Action>, i: nat)
    requires Run(c, states, actions) && i < |states|
    ensures Dispositions(states[i])
  {
    if i > 0 {
      EveryRunKeepsDispositions(c, states, actions, i - 1);
      EveryRunKeepsInv(c, states, actions, i - 1);
      hide Inv, Enabled, Next, Init, Shape, Dispositions;
      assert Shape(c, states[i - 1]) && Enabled(c, states[i - 1], actions[i - 1]);
      DispositionsKept(c, states[i - 1], actions[i - 1]);
    }
  }

  lemma DispositionsKept(c: Config, s: State, a: Action)
    requires Inv(c, s) && Enabled(c, s, a) && Dispositions(s)
    ensures Dispositions(Next(c, s, a))
  {
    hide Control, Semaphores, Placed, Tracked, JobsValid, FindJob;
    if a.Finish? {
      FinishDisposes(c, s, a.t, a.free);
    }
  }

  lemma FinishDisposes(c: Config, s: State, t: nat, free: bool)
    requires Inv(c, s) && Enabled(c, s, Finish(t, free)) && Dispositions(s)
    ensures Dispositions(Next(c, s, Finish(t, free)))
  {
    hide Control, Semaphores, Placed, Tracked, JobsValid, FindJob;
    ReadyAppend(s.freed, Executing(s.pcs[t]).value);
    ReadyAppend(s.dropped, Executing(s.pcs[t]).value);
  }
}
