/** The step system of RcmServer with the id tracker: acquisition hands out the first free id after the tracker,
    whether or not a message still carries it. As long as the messages of a released job are out of flight, answered
    and their worker back from queueing up the next, before the tracker has made 65535 steps since its id was issued,
    every run is one of JobSteps, and everything proved there holds.

    `steps`, the steps of the tracker so far, and `issued`, their number when an id was last issued, are history. */
module JobNumbers {
  import opened Options
  import opened JobStreams
  import opened JobSteps
  import opened JobInvariant
  import opened JobSafety

  datatype Numbered = Numbered(s: State, tracker: nat, steps: nat, issued: map<nat, nat>)

  // Acquisitions are numbered steps; everything else is a step of JobSteps. k is how far the search moves the tracker.
  datatype Move = Other(a: Action) | Acquisition(t: nat, k: nat, allocOk: bool)

  ghost predicate CanMove(c: Config, n: Numbered, move: Move) {
    Shape(c, n.s) &&
    match move
    case Other(a) => !a.Acquire? && Enabled(c, n.s, a)
    case Acquisition(t, k, allocOk) =>
      t < |n.s.pcs| && n.s.pcs[t].Acquiring? && 1 <= k <= MAX_ID &&
      (FirstFreeAt(n.s.x.jobs, n.tracker, k, IdAfter(n.tracker, k)) ||
       (k == MAX_ID && UsedUpTo(n.s.x.jobs, n.tracker, MAX_ID)))
  }

  // The id that an acquisition issues, if it finds a free one and memory for the job.
  function Issued(n: Numbered, k: nat, allocOk: bool): Option<nat> {
    if allocOk && !InUse(n.s.x.jobs, IdAfter(n.tracker, k)) then Some(IdAfter(n.tracker, k)) else None
  }

  function Acquired(s: State, t: nat, id: Option<nat>): State
    requires t < |s.pcs| && s.pcs[t].Acquiring?
  {
    var s' := s.(gate := None, pcs := s.pcs[t := Replying(s.pcs[t].m)]);
    if id.None? then s' else
      s'.(x := s.x.(jobs := s.x.jobs + [Job(id.value, true, [])]), hist := s.hist[id.value := History([], [], NoToken)])
  }

  ghost function AfterMove(c: Config, n: Numbered, move: Move): Numbered
    requires CanMove(c, n, move)
  {
    match move
    case Other(a) => n.(s := Next(c, n.s, a))
    case Acquisition(t, k, allocOk) =>
      var id := Issued(n, k, allocOk);
      Numbered(Acquired(n.s, t, id), IdAfter(n.tracker, k), n.steps + k,
               if id.Some? then n.issued[id.value := n.steps + k] else n.issued)
  }

  // No message of a released job outlives 65535 steps of the tracker, counted from the issue of its id.
  ghost predicate Prompt(n: Numbered, move: Move) {
    move.Acquisition? ==> forall j :: j in n.issued && !InUse(n.s.x.jobs, j) && InFlight(n.s, j) ==>
      n.steps + move.k < n.issued[j] + MAX_ID
  }

  // ----- The tracker -----

  lemma {:induction false} IdAfterAdds(id: nat, m: nat, n: nat)
    ensures IdAfter(IdAfter(id, m), n) == IdAfter(id, m + n)
  {
    if n != 0 { IdAfterAdds(id, m, n - 1); }
  }

  lemma IdAfterInRange(id: nat, n: nat)
    requires id <= MAX_ID
    ensures IdAfter(id, n) <= MAX_ID && (n >= 1 ==> IdAfter(id, n) >= 1)
  {
    if n >= 1 { IdAfterClosedForm(id, n); }
  }

  // Where the tracker stands follows from where it stood when an id was issued.
  ghost predicate Tracking(n: Numbered) {
    && n.tracker <= MAX_ID
    && forall j :: j in n.issued ==>
      1 <= j <= MAX_ID && n.issued[j] <= n.steps && n.tracker == IdAfter(j, n.steps - n.issued[j])
  }

  // Only ids that were issued are in use or in flight.
  ghost predicate KnownIds(n: Numbered) {
    forall j :: j != DISCRETE_JOB_ID && (InUse(n.s.x.jobs, j) || InFlight(n.s, j)) ==> j in n.issued
  }

  ghost predicate NumberedInv(c: Config, n: Numbered) {
    Inv(c, n.s) && Tracking(n) && KnownIds(n)
  }

  /** An id is issued again only after a full turn of the tracker. */
  lemma ReissueTakesFullTurn(n: Numbered, k: nat, j: nat)
    requires Tracking(n) && j in n.issued && k >= 1 && IdAfter(n.tracker, k) == j
    ensures n.steps + k >= n.issued[j] + MAX_ID
  {
    var m := n.steps - n.issued[j];
    IdAfterAdds(j, m, k);
    IdReturnsAfter65535(j, m + k);
  }

  /** So under the hypothesis no id in flight is issued, and the acquisition is a step of JobSteps. */
  lemma AcquisitionIsStep(c: Config, n: Numbered, t: nat, k: nat, allocOk: bool)
    requires NumberedInv(c, n) && CanMove(c, n, Acquisition(t, k, allocOk)) && Prompt(n, Acquisition(t, k, allocOk))
    ensures Enabled(c, n.s, Acquire(t, Issued(n, k, allocOk)))
    ensures Next(c, n.s, Acquire(t, Issued(n, k, allocOk))) == Acquired(n.s, t, Issued(n, k, allocOk))
  {
    hide Inv, InFlight, FindJob, Shape;
    var id := IdAfter(n.tracker, k);
    IdAfterInRange(n.tracker, k);
    if !InUse(n.s.x.jobs, id) && InFlight(n.s, id) {
      assert id in n.issued;
      ReissueTakesFullTurn(n, k, id);
    }
  }

  lemma TrackedFrom(n: Numbered, k: nat, j: nat)
    requires Tracking(n) && j in n.issued
    ensures IdAfter(n.tracker, k) == IdAfter(j, n.steps + k - n.issued[j])
  {
    IdAfterAdds(j, n.steps - n.issued[j], k);
  }

  lemma TrackingKept(c: Config, n: Numbered, move: Move)
    requires Tracking(n) && CanMove(c, n, move)
    ensures Tracking(AfterMove(c, n, move))
  {
    if move.Acquisition? {
      var n' := AfterMove(c, n, move);
      var id := Issued(n, move.k, move.allocOk);
      IdAfterInRange(n.tracker, move.k);
      hide Shape, InUse, IdAfter, CanMove;
      forall j | j in n'.issued
        ensures 1 <= j <= MAX_ID && n'.issued[j] <= n'.steps && n'.tracker == IdAfter(j, n'.steps - n'.issued[j])
      {
        if id == Some(j) { NoSteps(j); } else { TrackedFrom(n, move.k, j); }
      }
    }
  }

  lemma NoSteps(id: nat)
    ensures IdAfter(id, 0) == id
  {
  }

  // ----- Nothing is in flight for an id that was never issued -----

  // A step puts in flight only messages of jobs that are live, or that were in flight already.
  lemma InFlightWasKnown(c: Config, s: State, a: Action, j: nat)
    requires Inv(c, s) && Enabled(c, s, a) && j != DISCRETE_JOB_ID && InFlight(Next(c, s, a), j)
    ensures InFlight(s, j) || InUse(s.x.jobs, j)
  {
    var token :| TokenAt(Next(c, s, a), j, token);
    match token {
      case Ready(m, p) => ReadyWasKnown(c, s, a, m, p);
      case Exec(m, t) => ExecWasKnown(c, s, a, m, t);
      case After(t) => AfterWasKnown(c, s, a, j, t);
    }
  }

  lemma ReadyWasKnown(c: Config, s: State, a: Action, m: Msg, p: nat)
    requires Inv(c, s) && Enabled(c, s, a) && m.jobId != DISCRETE_JOB_ID && TokenAt(Next(c, s, a), m.jobId, Ready(m, p))
    ensures InFlight(s, m.jobId) || InUse(s.x.jobs, m.jobId)
  {
    if p < |s.x.ready| && m in s.x.ready[p] {
      assert TokenAt(s, m.jobId, Ready(m, p));
    } else {
      PutIsKnown(c, s, a, m, p);
    }
  }

  lemma PutIsKnown(c: Config, s: State, a: Action, m: Msg, p: nat)
    requires Inv(c, s) && Enabled(c, s, a) && m.jobId != DISCRETE_JOB_ID && TokenAt(Next(c, s, a), m.jobId, Ready(m, p))
    requires p < |s.x.ready| ==> m !in s.x.ready[p]
    ensures InUse(s.x.jobs, m.jobId)
  {
    assert Shape(c, s);
    hide Inv, Shape, Enabled, Next, TokenAt, InUse;
    if a.RequeueJob? {
      RequeuedIsKnown(c, s, a.t, m, p);
    } else if a.LookUp? {
      AcceptedIsKnown(c, s, m, p);
    } else {
      OthersPutNoJobMessage(c, s, a, m, p);
    }
  }

  lemma AcceptedIsKnown(c: Config, s: State, m: Msg, p: nat)
    requires Shape(c, s) && Enabled(c, s, LookUp) && TokenAt(Next(c, s, LookUp), m.jobId, Ready(m, p))
    requires p < |s.x.ready| ==> m !in s.x.ready[p]
    ensures InUse(s.x.jobs, m.jobId)
  {
    hide FindJob;
  }

  lemma OthersPutNoJobMessage(c: Config, s: State, a: Action, m: Msg, p: nat)
    requires Shape(c, s) && Enabled(c, s, a) && !a.RequeueJob? && !a.LookUp?
    requires m.jobId != DISCRETE_JOB_ID && TokenAt(Next(c, s, a), m.jobId, Ready(m, p))
    ensures p < |s.x.ready| && m in s.x.ready[p]
  {
    hide InFlight, FindJob, NextRequeue, NextLookUp;
  }

  lemma RequeuedIsKnown(c: Config, s: State, t: nat, m: Msg, p: nat)
    requires Inv(c, s) && Enabled(c, s, RequeueJob(t)) && TokenAt(Next(c, s, RequeueJob(t)), m.jobId, Ready(m, p))
    requires p < |s.x.ready| ==> m !in s.x.ready[p]
    ensures InUse(s.x.jobs, m.jobId)
  {
    var k := FindJob(s.x.jobs, s.pcs[t].job);
    hide Control, Semaphores, Placed, JobsValid, InFlight;
    assert k < |s.x.jobs| && s.x.jobs[k].msgQue != [] && m == s.x.jobs[k].msgQue[0];
    assert JobTracked(s, s.x.jobs[k]);
    assert s.x.jobs[k].msgQue[0] in s.x.jobs[k].msgQue;
  }

  // A thread starts to execute a job message only by taking it from its ready queue.
  lemma ExecutionStartsWithGet(c: Config, s: State, a: Action, m: Msg, t: nat)
    requires Shape(c, s) && Enabled(c, s, a) && m.jobId != DISCRETE_JOB_ID
    requires t < |s.pcs| && Executing(Next(c, s, a).pcs[t]) == Some(m) && Executing(s.pcs[t]) != Some(m)
    ensures a == Get(t) && c.worker[t] < |s.x.ready| && m in s.x.ready[c.worker[t]]
  {
    if a.LookUp? || a.Release? || a.RequeueJob? {
      JobStepStartsNothing(c, s, a, t);
    } else if a.Receive? || a.DispatchDiscrete? || a.DispatchRefused? || a.Return? || a.Acquire? || a.Finish? {
      ServerStepStartsNothing(c, s, a, m, t);
    } else {
      hide FindJob, InFlight, NextLookUp, NextRelease, NextRequeue, NextFinish;
    }
  }

  lemma ServerStepStartsNothing(c: Config, s: State, a: Action, m: Msg, t: nat)
    requires Shape(c, s) && Enabled(c, s, a) && m.jobId != DISCRETE_JOB_ID && t < |s.pcs|
    requires a.Receive? || a.DispatchDiscrete? || a.DispatchRefused? || a.Return? || a.Acquire? || a.Finish?
    ensures Executing(Next(c, s, a).pcs[t]) == Some(m) ==> Executing(s.pcs[t]) == Some(m)
  {
    hide FindJob, InFlight, InUse, Put, PoolOf;
  }

  lemma JobStepStartsNothing(c: Config, s: State, a: Action, t: nat)
    requires Shape(c, s) && Enabled(c, s, a) && (a.LookUp? || a.Release? || a.RequeueJob?) && t < |s.pcs|
    ensures |Next(c, s, a).pcs| == |s.pcs|
    ensures Executing(Next(c, s, a).pcs[t]) in {None, Executing(s.pcs[t])}
  {
    hide FindJob, InFlight, Requeue;
  }

  lemma ExecWasKnown(c: Config, s: State, a: Action, m: Msg, t: nat)
    requires Inv(c, s) && Enabled(c, s, a) && m.jobId != DISCRETE_JOB_ID && TokenAt(Next(c, s, a), m.jobId, Exec(m, t))
    ensures InFlight(s, m.jobId)
  {
    assert Shape(c, s);
    StepKeepsThreads(c, s, a);
    hide Inv, Next, Enabled, Executing;
    if Executing(s.pcs[t]) == Some(m) {
      assert TokenAt(s, m.jobId, Exec(m, t));
    } else {
      ExecutionStartsWithGet(c, s, a, m, t);
      assert TokenAt(s, m.jobId, Ready(m, c.worker[t]));
    }
  }

  lemma StepKeepsThreads(c: Config, s: State, a: Action)
    requires Shape(c, s) && Enabled(c, s, a)
    ensures |Next(c, s, a).pcs| == |s.pcs|
  {
    hide FindJob, InFlight, Requeue;
  }

  lemma AfterWasKnown(c: Config, s: State, a: Action, j: nat, t: nat)
    requires Inv(c, s) && Enabled(c, s, a) && j != DISCRETE_JOB_ID && TokenAt(Next(c, s, a), j, After(t))
    ensures InFlight(s, j)
  {
    assert Shape(c, s);
    hide Inv, FindJob, Shape, Enabled;
    if t < |s.pcs| && Owes(s.pcs[t]) == j {
      assert TokenAt(s, j, After(t));
    } else {
      hide Next;
      OwingStartsWithFinish(c, s, a, j, t);
      var m := Executing(s.pcs[t]).value;
      assert TokenAt(s, j, Exec(m, t));
    }
  }

  // A worker owes a job its next message only after it has executed one.
  lemma OwingStartsWithFinish(c: Config, s: State, a: Action, j: nat, t: nat)
    requires Shape(c, s) && Enabled(c, s, a) && j != DISCRETE_JOB_ID && TokenAt(Next(c, s, a), j, After(t))
    requires !(t < |s.pcs| && Owes(s.pcs[t]) == j)
    ensures t < |s.pcs| && Executing(s.pcs[t]).Some? && Executing(s.pcs[t]).value.jobId == j
  {
    hide InFlight, FindJob;
    assert a.Finish? && a.t == t;
  }

  ghost predicate HasId(jobs: seq<Job>, id: nat) {
    exists i :: 0 <= i < |jobs| && jobs[i].jobId == id
  }

  // Only an acquisition brings a new id into the job list.
  ghost predicate NoNewId(jobs: seq<Job>, jobs': seq<Job>) {
    forall k :: 0 <= k < |jobs'| ==> HasId(jobs, jobs'[k].jobId)
  }

  lemma SameIdsNoneNew(jobs: seq<Job>, jobs': seq<Job>)
    requires |jobs'| == |jobs| && forall i :: 0 <= i < |jobs| ==> jobs'[i].jobId == jobs[i].jobId
    ensures NoNewId(jobs, jobs')
  {
  }

  lemma WithoutAddsNoId(jobs: seq<Job>, k: nat)
    requires k < |jobs|
    ensures NoNewId(jobs, Without(jobs, k))
  {
    WithoutAt(jobs, k);
  }

  lemma StepAddsNoId(c: Config, s: State, a: Action)
    requires Shape(c, s) && Enabled(c, s, a) && !a.Acquire?
    ensures NoNewId(s.x.jobs, Next(c, s, a).x.jobs)
  {
    hide InFlight, FindJob, Without, NoNewId;
    if a.Release? && InUse(s.x.jobs, s.pcs[a.t].m.kind.job) {
      WithoutAddsNoId(s.x.jobs, FindJob(s.x.jobs, s.pcs[a.t].m.kind.job));
    } else {
      SameIdsNoneNew(s.x.jobs, Next(c, s, a).x.jobs);
    }
  }

  lemma InUseWasKnown(c: Config, s: State, a: Action, j: nat)
    requires Inv(c, s) && Enabled(c, s, a) && !a.Acquire? && InUse(Next(c, s, a).x.jobs, j)
    ensures InUse(s.x.jobs, j)
  {
    assert Shape(c, s);
    StepAddsNoId(c, s, a);
    hide Inv, InFlight, Next, Enabled, Shape;
    var jobs' := Next(c, s, a).x.jobs;
    assert jobs'[FindJob(jobs', j)].jobId == j;
  }

  lemma KnownIdsKept(c: Config, n: Numbered, move: Move, a: Action)
    requires NumberedInv(c, n) && CanMove(c, n, move) && Enabled(c, n.s, a)
    requires AfterMove(c, n, move).s == Next(c, n.s, a) && (a.Acquire? <==> move.Acquisition?)
    requires move.Acquisition? ==> a.id == Issued(n, move.k, move.allocOk)
    ensures KnownIds(AfterMove(c, n, move))
  {
    var n' := AfterMove(c, n, move);
    hide Inv, Enabled, InFlight, InUse, Shape;
    forall j | j != DISCRETE_JOB_ID && (InUse(n'.s.x.jobs, j) || InFlight(n'.s, j)) ensures j in n'.issued {
      if InFlight(n'.s, j) {
        InFlightWasKnown(c, n.s, a, j);
      } else if !move.Acquisition? {
        InUseWasKnown(c, n.s, a, j);
      } else {
        AcquiredIsIssued(n, move, j);
      }
    }
  }

  lemma AcquiredIsIssued(n: Numbered, move: Move, j: nat)
    requires move.Acquisition? && move.t < |n.s.pcs| && n.s.pcs[move.t].Acquiring?
    requires InUse(Acquired(n.s, move.t, Issued(n, move.k, move.allocOk)).x.jobs, j)
    ensures InUse(n.s.x.jobs, j) || Issued(n, move.k, move.allocOk) == Some(j)
  {
    var jobs, jobs' := n.s.x.jobs, Acquired(n.s, move.t, Issued(n, move.k, move.allocOk)).x.jobs;
    var i := FindJob(jobs', j);
    if i < |jobs| { assert jobs[i].jobId == j; }
  }

  /** Every move keeps the invariant: its own part, and that of JobSteps. */
  lemma NumberedInvKept(c: Config, n: Numbered, move: Move)
    requires NumberedInv(c, n) && CanMove(c, n, move) && Prompt(n, move)
    ensures NumberedInv(c, AfterMove(c, n, move))
  {
    var a := match move
      case Other(a) => a
      case Acquisition(t, k, allocOk) => Acquire(t, Issued(n, k, allocOk));
    if move.Acquisition? { AcquisitionIsStep(c, n, move.t, move.k, move.allocOk); }
    TrackingKept(c, n, move);
    hide Inv, Tracking, KnownIds, Prompt, Acquired;
    assert Enabled(c, n.s, a) && AfterMove(c, n, move).s == Next(c, n.s, a);
    InvKept(c, n.s, a);
    KnownIdsKept(c, n, move, a);
  }

  ghost predicate IsRun(c: Config, states: seq<Numbered>, moves: seq<Move>) {
    && |states| == |moves| + 1 && Init(c, states[0].s) && states[0] == Numbered(states[0].s, MAX_ID, 0, map[])
    && forall i :: 0 <= i < |moves| ==>
      CanMove(c, states[i], moves[i]) && Prompt(states[i], moves[i]) &&
      states[i + 1] == AfterMove(c, states[i], moves[i])
  }

  /** So every state of a server that hands out ids by its tracker, and is done with released jobs in time,
      satisfies the invariant from which order, progress and conservation follow. */
  lemma {:induction false} EveryRunKeepsInv(c: Config, states: seq<Numbered>, moves: seq<Move>, i: nat)
    requires IsRun(c, states, moves) && i < |states|
    ensures NumberedInv(c, states[i])
  {
    if i == 0 {
      InitInv(c, states[0].s);
      NothingInFlight(c, states[0].s);
      hide Inv, Init;
    } else {
      hide NumberedInv, Prompt, CanMove, AfterMove, Init;
      EveryRunKeepsInv(c, states, moves, i - 1);
      NumberedInvKept(c, states[i - 1], moves[i - 1]);
    }
  }

  lemma NothingInFlight(c: Config, s: State)
    requires Init(c, s)
    ensures forall j :: j != DISCRETE_JOB_ID ==> !InUse(s.x.jobs, j) && !InFlight(s, j)
  {
    forall j, token | j != DISCRETE_JOB_ID ensures !TokenAt(s, j, token) {}
  }

  // ----- How many steps an acquisition takes -----

  // Ids of the first k - 1 steps.
  function Passed(tracker: nat, k: nat): set<nat> {
    if k <= 1 then {} else Passed(tracker, k - 1) + {IdAfter(tracker, k - 1)}
  }

  predicate ReachedIn(tracker: nat, m: nat, id: nat) {
    IdAfter(tracker, m) == id
  }

  lemma {:induction false} PassedMembers(tracker: nat, k: nat, id: nat)
    requires k >= 1
    ensures id in Passed(tracker, k) <==> exists m :: 1 <= m < k && ReachedIn(tracker, m, id)
  {
    if k > 1 {
      PassedMembers(tracker, k - 1, id);
      assert ReachedIn(tracker, k - 1, id) <==> id == IdAfter(tracker, k - 1);
    }
  }

  lemma {:induction false} PassedAreDistinct(tracker: nat, k: nat)
    requires tracker <= MAX_ID && 1 <= k <= MAX_ID
    ensures |Passed(tracker, k)| == k - 1
  {
    hide IdAfter;
    if k > 1 {
      PassedAreDistinct(tracker, k - 1);
      var id := IdAfter(tracker, k - 1);
      IdAfterInRange(tracker, k - 1);
      var n := TrackerVisitsEveryId(tracker, id);
      PassedMembers(tracker, k - 1, id);
      assert forall m :: 1 <= m < k - 1 ==> !ReachedIn(tracker, m, id);
      assert id !in Passed(tracker, k - 1);
    }
  }

  function IdsOf(jobs: seq<Job>): set<nat> {
    set job | job in jobs :: job.jobId
  }

  lemma {:induction false} FewIds(jobs: seq<Job>)
    ensures |IdsOf(jobs)| <= |jobs|
  {
    if jobs != [] {
      FewIds(jobs[1..]);
      assert jobs == [jobs[0]] + jobs[1..];
      assert IdsOf(jobs) == {jobs[0].jobId} + IdsOf(jobs[1..]);
    }
  }

  lemma SubsetIsSmaller(a: set<nat>, b: set<nat>)
    requires a <= b
    ensures |a| <= |b|
  {
    assert b == a + (b - a);
  }

  /** An acquisition moves the tracker at most one step further than there are jobs, so a client that counts
      acquisitions and live jobs can tell that an id is not due again. */
  lemma StepsPerAcquisition(c: Config, n: Numbered, t: nat, k: nat, allocOk: bool)
    requires CanMove(c, n, Acquisition(t, k, allocOk)) && n.tracker <= MAX_ID
    ensures k <= |n.s.x.jobs| + 1
  {
    var jobs := n.s.x.jobs;
    assert UsedUpTo(jobs, n.tracker, k - 1);
    hide Shape;
    PassedAreDistinct(n.tracker, k);
    forall id | id in Passed(n.tracker, k) ensures id in IdsOf(jobs) {
      PassedMembers(n.tracker, k, id);
      var m :| 1 <= m < k && ReachedIn(n.tracker, m, id);
      assert InUse(jobs, IdAfter(n.tracker, m));
      assert jobs[FindJob(jobs, id)] in jobs;
    }
    SubsetIsSmaller(Passed(n.tracker, k), IdsOf(jobs));
    FewIds(jobs);
  }
}
