/** Runs of the server and its workers in which packets of a job are also processed in band. The packets of a live job
    are processed one at a time in the order of their arrival, whichever thread processes them, if and only if each one
    that is processed in band comes when nothing of its job is under way.

    Processing in band does not look at the job of a packet, so its step is the one of a packet without a job. Three
    components are history: `serving` is the packet of a live job that the server thread is processing, `arrived` what
    was accepted for a job or taken in band, and `done` what is finished of that. */
module JobBanded {
  import opened Options
  import opened JobStreams
  import opened JobSteps
  import opened JobInvariant
  import opened JobSafety
  import opened JobNumbers
  import opened JobReuse
  import opened JobInBand

  datatype Banded = Banded(s: State, serving: Option<Msg>, arrived: map<nat, seq<Msg>>, done: map<nat, seq<Msg>>)

  datatype Deed = Plain(a: Action) | Take(m: Msg)

  // What the server makes of a packet that it processes in band.
  function Bare(m: Msg): Msg {
    m.(jobId := DISCRETE_JOB_ID)
  }

  function Of(all: map<nat, seq<Msg>>, j: nat): seq<Msg> {
    if j in all then all[j] else []
  }

  function StepOf(d: Deed): Action {
    if d.Plain? then d.a else Receive(Bare(d.m))
  }

  ghost predicate CanAct(c: Config, b: Banded, d: Deed) {
    && Shape(c, b.s) && Enabled(c, b.s, StepOf(d))
    && (d.Take? ==> InBand(c, d.m) && d.m.jobId != DISCRETE_JOB_ID && forall n :: n in b.s.loc ==> n.uid != d.m.uid)
  }

  // What a step adds to a history.
  function Added(was: seq<Msg>, will: seq<Msg>): seq<Msg> {
    if was <= will then will[|was|..] else []
  }

  // The packet that counts as being processed in band afterwards.
  ghost function ServingAfter(b: Banded, d: Deed, s': State): Option<Msg> {
    if d.Take? then (if InUse(b.s.x.jobs, d.m.jobId) then Some(d.m) else None)
    else if b.serving.Some? && InUse(s'.x.jobs, b.serving.value.jobId) && s'.pcs != [] && Executing(s'.pcs[0]).Some?
    then b.serving else None
  }

  // Is this the step by which the server finishes a packet of job j?
  ghost predicate Served(b: Banded, s': State, j: nat) {
    b.serving.Some? && b.serving.value.jobId == j && !(s'.pcs != [] && Executing(s'.pcs[0]).Some?)
  }

  ghost function ArrivedAfter(b: Banded, d: Deed, s': State, j: nat): seq<Msg> {
    if !InUse(b.s.x.jobs, j) then []
    else
      Of(b.arrived, j) + Added(HistoryOf(b.s.hist, j).accepted, HistoryOf(s'.hist, j).accepted) +
      (if d.Take? && d.m.jobId == j then [d.m] else [])
  }

  ghost function DoneAfter(b: Banded, s': State, j: nat): seq<Msg> {
    if !InUse(b.s.x.jobs, j) then []
    else
      Of(b.done, j) + (if Served(b, s', j) then [b.serving.value] else []) +
      Added(HistoryOf(b.s.hist, j).finished, HistoryOf(s'.hist, j).finished)
  }

  ghost function Act(c: Config, b: Banded, d: Deed): Banded
    requires CanAct(c, b, d)
  {
    var s' := Next(c, b.s, StepOf(d));
    Banded(s', ServingAfter(b, d, s'),
           map j | 0 <= j <= MAX_ID && InUse(s'.x.jobs, j) :: ArrivedAfter(b, d, s', j),
           map j | 0 <= j <= MAX_ID && InUse(s'.x.jobs, j) :: DoneAfter(b, s', j))
  }

  // ----- Order -----

  function InService(b: Banded, j: nat): seq<Msg> {
    if b.serving.Some? && b.serving.value.jobId == j then [b.serving.value] else []
  }

  // The accepted messages of a job that are not finished: the one ready or executing, then those waiting.
  function Pending(s: State, j: nat): seq<Msg> {
    Added(HistoryOf(s.hist, j).finished, HistoryOf(s.hist, j).accepted)
  }

  // What has come for the job is what is done, then what the server thread is at, then what is pending, and the server
  // thread is at nothing of the job when something is pending.
  ghost predicate OrderedFor(b: Banded, j: nat) {
    && Of(b.arrived, j) == Of(b.done, j) + InService(b, j) + Pending(b.s, j)
    && (InService(b, j) != [] ==> Pending(b.s, j) == [])
  }

  ghost predicate Ordered(b: Banded) {
    forall j :: InUse(b.s.x.jobs, j) ==> OrderedFor(b, j)
  }

  // The server thread is processing the packet that is being served.
  ghost predicate Serving(b: Banded) {
    b.serving.Some? ==>
      b.s.pcs != [] && Executing(b.s.pcs[0]) == Some(Bare(b.serving.value)) && InUse(b.s.x.jobs, b.serving.value.jobId)
  }

  ghost predicate BandedInv(c: Config, b: Banded) {
    Inv(c, b.s) && Serving(b) && Ordered(b)
  }

  // The packet taken in band finds nothing of its job under way.
  ghost predicate InTurn(b: Banded, d: Deed) {
    d.Take? && InUse(b.s.x.jobs, d.m.jobId) ==> !Underway(b.s, d.m.jobId)
  }

  // ----- One step -----

  lemma PendingIs(c: Config, s: State, j: nat)
    requires Inv(c, s) && InUse(s.x.jobs, j)
    ensures HistoryOf(s.hist, j).finished <= HistoryOf(s.hist, j).accepted
  {
    AcceptedInOrder(c, s, j);
    hide Inv, FindJob;
    var h := HistoryOf(s.hist, j);
    StartsWith(h.finished, Current(h.token), s.x.jobs[FindJob(s.x.jobs, j)].msgQue);
  }

  lemma StartsWith(a: seq<Msg>, b: seq<Msg>, c: seq<Msg>)
    ensures a <= a + b + c
  {
  }

  // While the server thread is processing a packet nothing is accepted.
  lemma NothingAccepted(c: Config, s: State, a: Action, j: nat)
    requires Shape(c, s) && Enabled(c, s, a) && Executing(s.pcs[0]).Some? && InUse(s.x.jobs, j)
    ensures HistoryOf(Next(c, s, a).hist, j).accepted == HistoryOf(s.hist, j).accepted
  {
    hide FindJob, InFlight, Requeue;
  }

  // A step of the server thread leaves it with its packet, or ends that.
  lemma ServerStaysOrEnds(c: Config, s: State, a: Action)
    requires Shape(c, s) && Enabled(c, s, a) && Executing(s.pcs[0]).Some?
    ensures var s' := Next(c, s, a);
      |s'.pcs| == |s.pcs| && (Executing(s'.pcs[0]).Some? ==> Executing(s'.pcs[0]) == Executing(s.pcs[0]))
  {
    hide FindJob, InFlight, Requeue;
  }

  lemma ServingKept(c: Config, b: Banded, d: Deed)
    requires Inv(c, b.s) && Serving(b) && CanAct(c, b, d)
    ensures Serving(Act(c, b, d))
  {
    if d.Plain? && b.serving.Some? {
      ServerStaysOrEnds(c, b.s, d.a);
      hide Inv, Enabled, Next, FindJob, InBand;
    } else {
      hide Inv, FindJob, InFlight;
    }
  }

  // A new job starts with nothing.
  lemma NewJobIsOrdered(c: Config, b: Banded, d: Deed, j: nat)
    requires BandedInv(c, b) && CanAct(c, b, d)
    requires !InUse(b.s.x.jobs, j) && InUse(Next(c, b.s, StepOf(d)).x.jobs, j) && j <= MAX_ID
    ensures OrderedFor(Act(c, b, d), j)
  {
    var a := StepOf(d);
    if !a.Acquire? { InUseWasKnown(c, b.s, a, j); }
    assert a.Acquire? && a.id.Some?;
    AcquiredIdIs(c, b.s, a.t, a.id.value, j);
    hide BandedInv, FindJob, InFlight, Underway;
  }

  lemma AcquiredIdIs(c: Config, s: State, t: nat, id: nat, j: nat)
    requires Shape(c, s) && Enabled(c, s, Acquire(t, Some(id)))
    requires !InUse(s.x.jobs, j) && InUse(Next(c, s, Acquire(t, Some(id))).x.jobs, j)
    ensures id == j && HistoryOf(Next(c, s, Acquire(t, Some(id))).hist, j) == History([], [], NoToken)
  {
    hide InFlight;
    FoundInFront(s.x.jobs, Job(id, true, []), j);
  }

  lemma FoundInFront(jobs: seq<Job>, job: Job, j: nat)
    requires !InUse(jobs, j) && InUse(jobs + [job], j)
    ensures job.jobId == j
  {
    var k := FindJob(jobs + [job], j);
    assert forall i :: 0 <= i < |jobs| ==> (jobs + [job])[i] == jobs[i];
    hide FindJob;
    assert k == |jobs|;
  }

  lemma ActIs(c: Config, b: Banded, d: Deed, j: nat)
    requires CanAct(c, b, d) && j <= MAX_ID && InUse(Next(c, b.s, StepOf(d)).x.jobs, j)
    ensures var s' := Next(c, b.s, StepOf(d)); var b' := Act(c, b, d);
      && b'.s == s' && b'.serving == ServingAfter(b, d, s')
      && Of(b'.arrived, j) == ArrivedAfter(b, d, s', j) && Of(b'.done, j) == DoneAfter(b, s', j)
  {
    hide CanAct, Next, InUse, ServingAfter, ArrivedAfter, DoneAfter;
  }

  // Lists before and after a step: what is done, accepted and finished grows at the end.
  lemma PendingMovesOn(done: seq<Msg>, fin: seq<Msg>, acc: seq<Msg>, fin': seq<Msg>, acc': seq<Msg>)
    requires fin <= acc <= acc' && fin <= fin' <= acc'
    ensures (done + Added(fin, acc)) + Added(acc, acc') == (done + Added(fin, fin')) + Added(fin', acc')
  {
    InBetween(fin, acc, acc');
    InBetween(fin, fin', acc');
    Regroup(done, Added(fin, acc), Added(acc, acc'));
    Regroup(done, Added(fin, fin'), Added(fin', acc'));
  }

  lemma InBetween(a: seq<Msg>, b: seq<Msg>, c: seq<Msg>)
    requires a <= b <= c
    ensures Added(a, b) + Added(b, c) == Added(a, c)
  {
  }

  lemma Regroup(a: seq<Msg>, b: seq<Msg>, c: seq<Msg>)
    ensures (a + b) + c == a + (b + c)
  {
  }

  // The order of a job, with nothing of it in service.
  lemma OrderedWithoutService(b: Banded, j: nat)
    requires InService(b, j) == []
    ensures OrderedFor(b, j) <==> Of(b.arrived, j) == Of(b.done, j) + Pending(b.s, j)
  {
    assert Of(b.done, j) + [] == Of(b.done, j);
  }

  // The order of a job, with one packet of it in service.
  lemma OrderedInService(b: Banded, j: nat)
    requires b.serving.Some? && b.serving.value.jobId == j
    ensures OrderedFor(b, j) <==> Of(b.arrived, j) == Of(b.done, j) + [b.serving.value] && Pending(b.s, j) == []
  {
    var head := Of(b.done, j) + [b.serving.value];
    assert head + [] == head;
  }

  // What a plain step adds to the lists of a job.
  lemma PlainActIs(c: Config, b: Banded, a: Action, j: nat)
    requires Inv(c, b.s) && CanAct(c, b, Plain(a)) && Inv(c, Next(c, b.s, a)) && j <= MAX_ID
    requires InUse(b.s.x.jobs, j) && InUse(Next(c, b.s, a).x.jobs, j)
    ensures var h, h' := HistoryOf(b.s.hist, j), HistoryOf(Next(c, b.s, a).hist, j); var b' := Act(c, b, Plain(a));
      && h.finished <= h.accepted <= h'.accepted && h.finished <= h'.finished <= h'.accepted
      && Of(b'.arrived, j) == Of(b.arrived, j) + Added(h.accepted, h'.accepted)
      && Of(b'.done, j) ==
         Of(b.done, j) + (if Served(b, b'.s, j) then [b.serving.value] else []) + Added(h.finished, h'.finished)
  {
    HistoryGrows(c, b.s, a, j);
    PendingIs(c, b.s, j);
    PendingIs(c, Next(c, b.s, a), j);
    ActIs(c, b, Plain(a), j);
    hide Inv, CanAct, Next, Act, InUse, HistoryOf, Added, Served;
    assert ArrivedAfter(b, Plain(a), Act(c, b, Plain(a)).s, j) == Of(b.arrived, j) +
      Added(HistoryOf(b.s.hist, j).accepted, HistoryOf(Act(c, b, Plain(a)).s.hist, j).accepted);
  }

  lemma NothingServed(c: Config, b: Banded, a: Action, j: nat)
    requires Inv(c, b.s) && CanAct(c, b, Plain(a)) && Inv(c, Next(c, b.s, a)) && OrderedFor(b, j) && j <= MAX_ID
    requires InUse(b.s.x.jobs, j) && InUse(Next(c, b.s, a).x.jobs, j) && InService(b, j) == []
    ensures OrderedFor(Act(c, b, Plain(a)), j)
  {
    PlainActIs(c, b, a, j);
    var h, h' := HistoryOf(b.s.hist, j), HistoryOf(Next(c, b.s, a).hist, j);
    var b' := Act(c, b, Plain(a));
    assert !Served(b, b'.s, j) && InService(b', j) == [] && b'.s == Next(c, b.s, a);
    assert Of(b.done, j) + [] == Of(b.done, j);
    hide Inv, CanAct, Next, Act, InUse, HistoryOf, Added, Served, OrderedFor, InService;
    OrderedWithoutService(b, j);
    OrderedWithoutService(b', j);
    PendingMovesOn(Of(b.done, j), h.finished, h.accepted, h'.finished, h'.accepted);
  }

  lemma OnlyOneServed(c: Config, b: Banded, a: Action, j: nat)
    requires Inv(c, b.s) && CanAct(c, b, Plain(a)) && Inv(c, Next(c, b.s, a)) && OrderedFor(b, j) && j <= MAX_ID
    requires InUse(b.s.x.jobs, j) && InUse(Next(c, b.s, a).x.jobs, j) && InService(b, j) != [] && Serving(b)
    ensures OrderedFor(Act(c, b, Plain(a)), j)
  {
    PlainActIs(c, b, a, j);
    NothingAccepted(c, b.s, a, j);
    var h, h' := HistoryOf(b.s.hist, j), HistoryOf(Next(c, b.s, a).hist, j);
    var b' := Act(c, b, Plain(a));
    var m := b.serving.value;
    OrderedInService(b, j);
    assert b'.s == Next(c, b.s, a) && b'.serving == (if Served(b, b'.s, j) then None else Some(m));
    hide Inv, CanAct, Next, Act, InUse, HistoryOf, Served, OrderedFor;
    NothingPending(h.finished, h.accepted, h'.finished, h'.accepted);
    if b'.serving.None? { OrderedWithoutService(b', j); } else { OrderedInService(b', j); }
    AddNothing(Of(b.arrived, j));
    AddNothing(Of(b.done, j));
    AddNothing(Of(b.done, j) + [m]);
    hide Added, InService;
  }

  lemma AddNothing(a: seq<Msg>)
    ensures a + [] == a
  {
  }

  lemma NothingPending(fin: seq<Msg>, acc: seq<Msg>, fin': seq<Msg>, acc': seq<Msg>)
    requires fin <= acc == acc' && fin <= fin' <= acc' && Added(fin, acc) == []
    ensures Added(fin, fin') == Added(acc, acc') == Added(fin', acc') == []
  {
    assert |fin| == |acc|;
  }

  lemma TakingIsOrderedIff(c: Config, b: Banded, m: Msg, j: nat)
    requires BandedInv(c, b) && CanAct(c, b, Take(m)) && InUse(b.s.x.jobs, j) && j <= MAX_ID
    ensures OrderedFor(Act(c, b, Take(m)), j) <==> (j == m.jobId ==> !Underway(b.s, j))
  {
    var s, h, b' := b.s, HistoryOf(b.s.hist, j), Act(c, b, Take(m));
    TakeLeaves(c, b, m, j);
    FinishedIffNotUnderway(c, s, j);
    PendingIs(c, s, j);
    assert OrderedFor(b, j);
    hide BandedInv, CanAct, Next, Act, Underway, FindJob, HistoryOf, OrderedFor;
    assert Pending(s, j) == [] <==> h.finished == h.accepted;
    OrderedWithoutService(b, j);
    if j == m.jobId { OrderedInService(b', j); } else { OrderedWithoutService(b', j); }
    AddNothing(Of(b.done, j));
    hide Added;
  }

  lemma TakeLeaves(c: Config, b: Banded, m: Msg, j: nat)
    requires BandedInv(c, b) && CanAct(c, b, Take(m)) && InUse(b.s.x.jobs, j) && j <= MAX_ID
    ensures var b' := Act(c, b, Take(m));
      && b.serving.None? && b'.serving == (if InUse(b.s.x.jobs, m.jobId) then Some(m) else None)
      && b'.s.hist == b.s.hist && b'.s.x == b.s.x
      && Of(b'.arrived, j) == Of(b.arrived, j) + (if j == m.jobId then [m] else []) && Of(b'.done, j) == Of(b.done, j)
  {
    var s, s' := b.s, Next(c, b.s, Receive(Bare(m)));
    assert s'.hist == s.hist && s'.x == s.x;
    ActIs(c, b, Take(m), j);
    assert b.serving.None?;
    hide BandedInv, CanAct, Next, Act, HistoryOf, FindJob;
    AddNothing(Of(b.arrived, j));
    AddNothing(Of(b.done, j));
  }

  /** A step, plain or in band, keeps the messages of all live jobs in order and one at a time if and only if a packet
      taken in band finds nothing of its job under way. */
  lemma ActIsOrderedIff(c: Config, b: Banded, d: Deed)
    requires BandedInv(c, b) && CanAct(c, b, d)
    ensures Inv(c, Act(c, b, d).s) && Serving(Act(c, b, d))
    ensures Ordered(Act(c, b, d)) <==> InTurn(b, d)
  {
    InvKept(c, b.s, StepOf(d));
    ServingKept(c, b, d);
    var s' := Next(c, b.s, StepOf(d));
    forall j | InUse(s'.x.jobs, j)
      ensures OrderedFor(Act(c, b, d), j) <==> (d.Take? && j == d.m.jobId ==> InTurn(b, d))
    {
      IdInRange(c, s', j);
      if !InUse(b.s.x.jobs, j) {
        NewJobIsOrdered(c, b, d, j);
      } else if d.Take? {
        TakingIsOrderedIff(c, b, d.m, j);
      } else if InService(b, j) == [] {
        NothingServed(c, b, d.a, j);
      } else {
        OnlyOneServed(c, b, d.a, j);
      }
    }
    assert d.Take? ==> s'.x == b.s.x;
    assert Act(c, b, d).s == s';
    hide BandedInv, CanAct, Next, Act, OrderedFor, InUse, InTurn;
  }

  lemma IdInRange(c: Config, s: State, j: nat)
    requires Inv(c, s) && InUse(s.x.jobs, j)
    ensures 1 <= j <= MAX_ID
  {
    hide Control, Semaphores, Placed, Tracked, FindJob;
  }

  // ----- Every run -----

  ghost predicate IsRun(c: Config, states: seq<Banded>, deeds: seq<Deed>) {
    && |states| == |deeds| + 1 && Init(c, states[0].s)
    && states[0].serving == None && states[0].arrived == map[] && states[0].done == map[]
    && forall i :: 0 <= i < |deeds| ==> CanAct(c, states[i], deeds[i]) && states[i + 1] == Act(c, states[i], deeds[i])
  }

  /** Packets processed in band leave everything alone that the invariant says of the others. */
  lemma {:induction false} EveryRunKeepsInv(c: Config, states: seq<Banded>, deeds: seq<Deed>, i: nat)
    requires IsRun(c, states, deeds) && i < |states|
    ensures Inv(c, states[i].s) && Serving(states[i])
  {
    if i == 0 {
      InitInv(c, states[0].s);
    } else {
      EveryRunKeepsInv(c, states, deeds, i - 1);
      assert CanAct(c, states[i - 1], deeds[i - 1]);
      hide Inv, Serving, Init;
      InvKept(c, states[i - 1].s, StepOf(deeds[i - 1]));
      ServingKept(c, states[i - 1], deeds[i - 1]);
    }
  }

  ghost predicate StaysOrdered(states: seq<Banded>, n: nat) {
    forall i :: 0 <= i <= n && i < |states| ==> Ordered(states[i])
  }

  ghost predicate AllInTurn(states: seq<Banded>, deeds: seq<Deed>, n: nat) {
    forall i :: 0 <= i < n && i < |deeds| && i < |states| ==> InTurn(states[i], deeds[i])
  }

  lemma OneStateMore(states: seq<Banded>, deeds: seq<Deed>, n: nat)
    requires 0 < n <= |deeds| && n < |states|
    ensures StaysOrdered(states, n) <==> StaysOrdered(states, n - 1) && Ordered(states[n])
    ensures AllInTurn(states, deeds, n) <==> AllInTurn(states, deeds, n - 1) && InTurn(states[n - 1], deeds[n - 1])
  {
    hide Ordered, InTurn;
  }

  lemma RunActs(c: Config, states: seq<Banded>, deeds: seq<Deed>, n: nat)
    requires IsRun(c, states, deeds) && n < |deeds|
    ensures n + 1 < |states| && CanAct(c, states[n], deeds[n]) && states[n + 1] == Act(c, states[n], deeds[n])
  {
  }

  /** In a run of the server and its workers, in band or not, the packets of every live job are processed one at a time
      in the order of their arrival, if and only if each packet taken in band comes when nothing of its job is under
      way. */
  lemma {:induction false} EveryRunInOrderIff(c: Config, states: seq<Banded>, deeds: seq<Deed>, n: nat)
    requires IsRun(c, states, deeds) && n < |states|
    ensures StaysOrdered(states, n) <==> AllInTurn(states, deeds, n)
  {
    if n == 0 {
      NothingToOrder(c, states[0]);
    } else {
      assert |states| == |deeds| + 1;
      hide IsRun, CanAct, Act, Inv, Serving, Ordered, InTurn, StaysOrdered, AllInTurn;
      EveryRunInOrderIff(c, states, deeds, n - 1);
      EveryRunKeepsInv(c, states, deeds, n - 1);
      RunActs(c, states, deeds, n - 1);
      OneStateMore(states, deeds, n);
      if StaysOrdered(states, n - 1) {
        assert Ordered(states[n - 1]) by { LastIsOrdered(states, n - 1); }
        ActIsOrderedIff(c, states[n - 1], deeds[n - 1]);
      }
    }
  }

  lemma LastIsOrdered(states: seq<Banded>, n: nat)
    requires StaysOrdered(states, n) && n < |states|
    ensures Ordered(states[n])
  {
  }

  lemma NothingToOrder(c: Config, b: Banded)
    requires Init(c, b.s)
    ensures Ordered(b)
  {
  }

  /** So what any thread is processing of a live job is the next packet in the order of arrival, and all earlier ones
      are done. */
  lemma ProcessesTheNext(c: Config, b: Banded, t: nat, m: Msg)
    requires BandedInv(c, b) && t < |b.s.pcs| && InUse(b.s.x.jobs, m.jobId)
    requires Executing(b.s.pcs[t]) == Some(m) || b.serving == Some(m)
    ensures var arrived, done := Of(b.arrived, m.jobId), Of(b.done, m.jobId);
      done <= arrived && |done| < |arrived| && arrived[|done|] == m
  {
    assert OrderedFor(b, m.jobId);
    if b.serving == Some(m) {
      OrderedInService(b, m.jobId);
    } else {
      ExecutesInOrder(c, b.s, t, m);
      hide BandedInv, OrderedFor;
      if InService(b, m.jobId) == [] { OrderedWithoutService(b, m.jobId); } else { OrderedInService(b, m.jobId); }
    }
  }

  /** And while the server thread is processing one in band, no other of its job is ready or executing. */
  lemma ServedAlone(c: Config, b: Banded, n: Msg)
    requires BandedInv(c, b) && b.serving.Some? && InUse(b.s.x.jobs, b.serving.value.jobId)
    ensures !InWork(b.s, b.serving.value.jobId, n)
  {
    var j := b.serving.value.jobId;
    assert OrderedFor(b, j);
    OrderedInService(b, j);
    PendingIs(c, b.s, j);
    FinishedIffNotUnderway(c, b.s, j);
    hide BandedInv, OrderedFor, InWork, HistoryOf, FindJob;
    assert !Underway(b.s, j);
  }
}
